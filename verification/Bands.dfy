/**
  Where trust puts the setpoint: what a node gets at each score, and at the scores that a session can
  leave in its stored readings.
 */
module Bands {
  import opened Options
  import opened Trust
  import opened FuzzySpec
  import opened Coordinator

  lemma RuleOutputs(r: Rule)
    requires r in RULES
    ensures r.trust.Untrusted? ==> r.out == Zero
    ensures r.trust.Degraded? ==> r.out in {Zero, Low, Med}
  {
  }

  // ---------- nodes held down ----------

  /** No rule that fires asks for any power. */
  ghost predicate OnlyZeroFires(x: Inputs) {
    forall r :: r in RULES && Fires(r, x) ==> r.out == Zero
  }

  /** Below 0.30, the score that counts as untrusted, that is so exactly up to 0.20, and above it where
      the rules for reduced trust ask for nothing either: no undervoltage, and little demand. */
  lemma OnlyZeroIff(x: Inputs)
    requires InRange(x) && x.trust < 0.3
    ensures OnlyZeroFires(x) <==>
              x.trust <= 0.2 || (x.error >= -0.2 && x.demand <= if x.error < 0.8 then 20.0 else 60.0)
  {
    hide RULES;
    if x.trust > 0.2 {
      if x.error < -0.2 {
        var p := if x.demand < 40.0 then PdLow else if x.demand < 80.0 then PdMed else PdHigh;
        DegradedFires(x, VbeLow, p);
      } else if x.error < 0.8 {
        var p := if x.demand < 80.0 then PdMed else PdHigh;
        if x.demand > 20.0 {
          DegradedFires(x, VbeMed, p);
        }
      } else if x.demand > 60.0 {
        DegradedFires(x, VbeHigh, PdHigh);
      }
    }
    forall r | r in RULES && Fires(r, x) && r.out != Zero
      ensures x.trust > 0.2 && (x.error < -0.2 || x.demand > if x.error < 0.8 then 20.0 else 60.0)
    {
      DegradedDemand(r);
    }
  }

  /** Above 0.20 every rule for reduced trust fires whose other two sets do. */
  lemma DegradedFires(x: Inputs, v: ErrorSet, p: DemandSet)
    requires 0.2 < x.trust < 0.3 && ErrorMf(x.error, v) > 0.0 && DemandMf(x.demand, p) > 0.0
    requires v == VbeLow || (v == VbeMed && p != PdLow) || (v == VbeHigh && p == PdHigh)
    ensures !OnlyZeroFires(x)
  {
    hide RULES;
    EveryCombination(Degraded, v, p);
    var r :| r in RULES && r.trust == Degraded && r.error == v && r.demand == p;
    DegradedDemand(r);
    assert Fires(r, x);
  }

  lemma DegradedDemand(r: Rule)
    requires r in RULES
    ensures r.trust.Untrusted? ==> r.out == Zero
    ensures r.trust.Degraded? ==>
              (r.out != Zero <==>
                 (|| r.error == VbeLow || (r.error == VbeMed && r.demand != PdLow)
                  || (r.error == VbeHigh && r.demand == PdHigh)))
  {
  }

  // ---------- the centroid of the lowest output set ----------

  const ZERO_FLOOR: real := 19.0 / 6.0  // at full strength
  const ZERO_CEILING: real := 4.75      // as the strength goes to nothing

  function PeakStrength(rules: seq<Rule>, x: Inputs): (s: real)
    ensures s >= 0.0
  {
    if rules == [] then 0.0 else
      var last := rules[|rules| - 1];
      Max2(PeakStrength(rules[..|rules| - 1], x), if Fires(last, x) then Strength(last, x) else 0.0)
  }

  /** When only the lowest set is asked for, the aggregate is that set clipped once, at the highest strength. */
  lemma {:induction false} AggregateClips(rules: seq<Rule>, x: Inputs, y: real)
    requires forall r | r in rules && Fires(r, x) :: r.out == Zero
    ensures Aggregate(rules, x, y) == Min(PeakStrength(rules, x), OutMf(y, Zero))
  {
    hide Strength, OutMf;
    OutMfNotNegative(y);
    if rules != [] {
      var before, last := rules[..|rules| - 1], rules[|rules| - 1];
      assert last in rules && forall r | r in before :: r in rules;
      AggregateClips(before, x, y);
    }
  }

  lemma OutMfNotNegative(y: real)
    ensures OutMf(y, Zero) >= 0.0
  {
  }

  /** The lowest set at the samples: a straight line from 1 down to 0 at 10 W. */
  function Line(i: nat): real {
    if i < 20 then (20 - i) as real / 20.0 else 0.0
  }

  lemma LineIs(i: nat)
    ensures OutMf(Sample(i), Zero) == Line(i)
  {
    var y := Sample(i);
    if 0 < i < 20 {
      assert 0.0 < y < 10.0;
      assert OutMf(y, Zero) == (10.0 - y) / 10.0;
    }
  }

  /** The line clipped at `s`. */
  predicate IsClippedLine(w: seq<real>, s: real) {
    |w| == SAMPLES && s > 0.0 && forall i: nat :: i < SAMPLES ==> w[i] == Min(s, Line(i))
  }

  // ---------- bounds on a centroid ----------

  /** What weight `v` at sample `i` adds to the turning moment around `c`. */
  function Lever(i: nat, v: real, c: real): real {
    (Sample(i) - c) * v
  }

  function Leverage(w: seq<real>, c: real): real {
    if w == [] then 0.0 else Leverage(w[..|w| - 1], c) + Lever(|w| - 1, w[|w| - 1], c)
  }

  lemma {:induction false} LeverageIs(w: seq<real>, c: real)
    ensures Leverage(w, c) == Moment(w) - c * Sum(w)
  {
    if w != [] {
      var before, n := w[..|w| - 1], |w| - 1;
      LeverageIs(before, c);
      LeverIs(n, w[n], c);
      Scale(c, Sum(before), w[n]);
      hide Lever, Weighed;
    }
  }

  lemma LeverIs(i: nat, v: real, c: real)
    ensures Lever(i, v, c) == Weighed(i, v) - c * v
  {
    hide Sample;
  }

  lemma {:induction false} LeverageAbove(w: seq<real>, c: real, bound: nat -> real, k: nat)
    requires k <= |w| && bound(0) <= 0.0 && forall i: nat | i < k :: bound(i + 1) <= bound(i) + Lever(i, w[i], c)
    ensures Leverage(w[..k], c) >= bound(k)
  {
    hide Lever;
    if k > 0 {
      LeverageAbove(w, c, bound, k - 1);
      assert w[..k][..k - 1] == w[..k - 1];
    }
  }

  lemma {:induction false} LeverageBelow(w: seq<real>, c: real, bound: nat -> real, k: nat)
    requires k <= |w| && bound(0) >= 0.0 && forall i: nat | i < k :: bound(i + 1) >= bound(i) + Lever(i, w[i], c)
    ensures Leverage(w[..k], c) <= bound(k)
  {
    hide Lever;
    if k > 0 {
      LeverageBelow(w, c, bound, k - 1);
      assert w[..k][..k - 1] == w[..k - 1];
    }
  }

  lemma Product(g: real, a: real, b: real)
    requires g >= 0.0 && a <= b
    ensures g * a <= g * b
  {
  }

  lemma AtMost(g: real, a: real, b: real, c: real)
    requires g >= 0.0 && a <= b && g * b <= c
    ensures g * a <= c
  {
  }

  lemma Distribute(v: real, a: real, b: real)
    ensures v * (a - b) == v * a - v * b
  {
  }

  // ---------- the centroid of the clipped line ----------

  function Cap(k: nat): real {
    if k < 20 then 0.25 * k as real * (20 - k) as real else 0.0
  }

  lemma CapStep(i: nat)
    ensures Cap(i + 1) - Cap(i) == if i < 20 then ZERO_CEILING - Sample(i) else 0.0
  {
  }

  /** Weights that never increase pull the centroid below the middle of their samples. */
  lemma Ceiling(w: seq<real>, s: real)
    requires IsClippedLine(w, s)
    ensures Leverage(w, ZERO_CEILING) <= 0.0
  {
    var bound := (k: nat) => -w[9] * Cap(k);
    forall i: nat | i < SAMPLES ensures bound(i + 1) >= bound(i) + Lever(i, w[i], ZERO_CEILING) {
      CeilingTerm(w, s, i);
    }
    assert bound(0) == 0.0 && bound(SAMPLES) == 0.0;
    LeverageBelow(w, ZERO_CEILING, bound, SAMPLES);
    assert w[..SAMPLES] == w;
  }

  lemma CeilingTerm(w: seq<real>, s: real, i: nat)
    requires IsClippedLine(w, s) && i < SAMPLES
    ensures -w[9] * Cap(i + 1) >= -w[9] * Cap(i) + Lever(i, w[i], ZERO_CEILING)
  {
    CapStep(i);
    assert w[i] == Min(s, Line(i)) && w[9] == Min(s, Line(9));
    var lever := Sample(i) - ZERO_CEILING;
    if i < 20 {
      assert Cap(i + 1) - Cap(i) == -lever;
      assert if lever <= 0.0 then w[9] <= w[i] else w[i] <= w[9];
      Pivot(lever, w[9], w[i], Cap(i), Cap(i + 1));
    } else {
      assert w[i] == 0.0 && Cap(i + 1) == Cap(i);
    }
  }

  /** Moving weight across the pivot `p` against the lever only lowers the moment. */
  lemma Pivot(lever: real, p: real, v: real, before: real, after: real)
    requires after - before == -lever && if lever <= 0.0 then p <= v else v <= p
    ensures -p * after >= -p * before + lever * v
  {
    if lever <= 0.0 {
      Product(-lever, p, v);
    } else {
      Product(lever, v, p);
    }
    Distribute(-p, after, before);
    assert -p * (after - before) == p * lever;
  }

  function Basin(k: nat): real {
    if k < 20 then -(k as real) * (20 - k) as real * (21 - k) as real / 120.0 else 0.0
  }

  lemma BasinStep(i: nat)
    ensures Basin(i + 1) - Basin(i) == (Sample(i) - ZERO_FLOOR) * Line(i)
  {
    if i < 20 {
      var k := i as real;
      assert (20 - i) as real == 20.0 - k && (21 - i) as real == 21.0 - k && (19 - i) as real == 19.0 - k;
      Cubic(k);
    }
  }

  lemma Cubic(k: real)
    ensures -(k + 1.0) * (19.0 - k) * (20.0 - k) + k * (20.0 - k) * (21.0 - k) == (60.0 * k - 380.0) * (20.0 - k) / 20.0
  {
  }

  /** Clipping takes more from the low samples than from the high ones, so it cannot lower the centroid. */
  lemma Floor(w: seq<real>, s: real)
    requires IsClippedLine(w, s)
    ensures Leverage(w, ZERO_FLOOR) >= 0.0
  {
    var share := Share(s);
    var bound := (k: nat) => share * Basin(k);
    forall i: nat | i < SAMPLES ensures bound(i + 1) <= bound(i) + Lever(i, w[i], ZERO_FLOOR) {
      FloorTerm(w, s, share, i);
    }
    assert bound(0) == 0.0 && bound(SAMPLES) == 0.0;
    LeverageAbove(w, ZERO_FLOOR, bound, SAMPLES);
    assert w[..SAMPLES] == w;
  }

  /** The clipped line lies below its share of the whole line up to sample 6, and above it from there on. */
  lemma Share(s: real) returns (share: real)
    requires s > 0.0
    ensures forall i: nat :: i <= 6 ==> Min(s, Line(i)) <= share * Line(i)
    ensures forall i: nat :: i > 6 ==> Min(s, Line(i)) >= share * Line(i)
  {
    share := if s >= 0.7 then 1.0 else s / 0.7;
    assert s < 0.7 ==> share * 0.7 == s && 0.0 < share < 1.0;
    forall i: nat ensures if i <= 6 then Min(s, Line(i)) <= share * Line(i) else Min(s, Line(i)) >= share * Line(i) {
      LineAroundSix(i);
      ShareAt(s, share, Line(i), i <= 6);
    }
  }

  lemma LineAroundSix(i: nat)
    ensures if i <= 6 then Line(i) >= 0.7 else 0.0 <= Line(i) <= 0.7
  {
  }

  lemma ShareAt(s: real, share: real, t: real, low: bool)
    requires s > 0.0 && if s >= 0.7 then share == 1.0 else share * 0.7 == s && 0.0 < share < 1.0
    requires if low then t >= 0.7 else 0.0 <= t <= 0.7
    ensures if low then Min(s, t) <= share * t else Min(s, t) >= share * t
  {
    if s < 0.7 {
      if low {
        Product(share, 0.7, t);
      } else {
        AtMost(share, t, 0.7, s);
        AtMost(t, share, 1.0, t);
        Commute(share, t);
      }
    }
  }

  lemma Commute(a: real, b: real)
    ensures a * b == b * a
  {
  }

  lemma FloorTerm(w: seq<real>, s: real, share: real, i: nat)
    requires IsClippedLine(w, s) && i < SAMPLES
    requires if i <= 6 then Min(s, Line(i)) <= share * Line(i) else Min(s, Line(i)) >= share * Line(i)
    ensures share * Basin(i + 1) <= share * Basin(i) + Lever(i, w[i], ZERO_FLOOR)
  {
    BasinStep(i);
    assert w[i] == Min(s, Line(i));
    var lever := Sample(i) - ZERO_FLOOR;
    assert if i <= 6 then lever <= 0.0 else lever >= 0.0;
    Balance(lever, share, w[i], Line(i), Basin(i), Basin(i + 1));
  }

  lemma Balance(lever: real, share: real, v: real, t: real, before: real, after: real)
    requires after - before == lever * t
    requires if lever <= 0.0 then v <= share * t else v >= share * t
    ensures share * after <= share * before + lever * v
  {
    if lever <= 0.0 {
      Product(-lever, v, share * t);
    } else {
      Product(lever, share * t, v);
    }
    Distribute(share, after, before);
    assert share * (lever * t) == lever * (share * t);
  }

  // ---------- the bands ----------

  /** Where nothing but the lowest set is asked for, the centroid lies between 3.17 and 4.75 W, and the
      setpoint between 3.2 and 4.8 W: little, but never nothing. */
  lemma ZeroBand(x: Inputs)
    requires InRange(x) && OnlyZeroFires(x)
    ensures ZERO_FLOOR <= Infer(x) <= ZERO_CEILING && 3.2 <= SetpointFor(x) <= 4.8
  {
    hide RULES, Aggregated, PeakStrength, Line, Min, Round1, IsClippedLine;
    var w, s := Aggregated(x), PeakStrength(RULES, x);
    DenominatorIff(x);
    AggregatedIsClipped(x);
    Ceiling(w, s);
    Floor(w, s);
    LeverageIs(w, ZERO_CEILING);
    LeverageIs(w, ZERO_FLOOR);
    Between(ZERO_FLOOR, ZERO_CEILING, Moment(w), Sum(w));
    RoundedBand(Infer(x));
  }

  lemma AggregatedIsClipped(x: Inputs)
    requires OnlyZeroFires(x) && Sum(Aggregated(x)) > 0.0
    ensures IsClippedLine(Aggregated(x), PeakStrength(RULES, x))
  {
    hide RULES, Line, PeakStrength;
    var w, s := Aggregated(x), PeakStrength(RULES, x);
    forall i: nat | i < SAMPLES ensures w[i] == Min(s, Line(i)) && Line(i) >= 0.0 {
      AggregateClips(RULES, x, Sample(i));
      LineIs(i);
      OutMfNotNegative(Sample(i));
    }
    SumNotNegative(w);
  }

  lemma Between(lo: real, hi: real, n: real, d: real)
    requires d > 0.0 && n - lo * d >= 0.0 && n - hi * d <= 0.0
    ensures lo <= n / d <= hi
  {
    var q := n / d;
    assert q * d == n;
    assert q < lo ==> q * d < lo * d;
    assert q > hi ==> q * d > hi * d;
  }

  lemma RoundedBand(x: real)
    requires ZERO_FLOOR <= x <= ZERO_CEILING
    ensures 3.2 <= Round1(x) <= 4.8
  {
    var floor := (x * 10.0).Floor;
    assert 31 <= floor <= 47;
  }

  /** A node without trust gets that much, whatever else is going on. */
  lemma UntrustedBand(x: Inputs)
    requires InRange(x) && x.trust <= 0.2
    ensures ZERO_FLOOR <= Infer(x) <= ZERO_CEILING && 3.2 <= SetpointFor(x) <= 4.8
  {
    OnlyZeroIff(x);
    ZeroBand(x);
  }

  lemma BandBelow(x: Inputs, hi: real, tenths: int)
    requires InRange(x) && hi == tenths as real / 10.0 && hi <= MAX_SP
    requires forall r | r in RULES && Fires(r, x) :: Corners(r.out).2 <= hi
    ensures 0.24 <= Infer(x) < hi && 0.0 < SetpointFor(x) <= hi
  {
    hide RULES, Fires, Infer;
    InferBounds(x);
    assert forall r: Rule :: -5.0 <= Corners(r.out).0;
    WithinHull(x, -5.0, hi);
    TenthBelow(Infer(x), tenths);
    hide Round1, Corners, InRange;
  }

  lemma TenthBelow(x: real, tenths: int)
    requires x < tenths as real / 10.0
    ensures Round1(x) <= tenths as real / 10.0
  {
    var floor := (x * 10.0).Floor;
    assert floor as real <= x * 10.0 < tenths as real;
    assert floor + 1 <= tenths;
    TenthsOrder(floor, tenths);
    TenthsOrder(floor + 1, tenths);
  }

  lemma TenthsOrder(a: int, b: int)
    requires a <= b
    ensures a as real / 10.0 <= b as real / 10.0
  {
  }

  /** A node of reduced trust is held below 60 W; so is one that counts as untrusted but has a score above
      0.20, unless only the lowest set is asked for. */
  lemma DegradedBand(x: Inputs)
    requires InRange(x) && x.trust <= 0.65
    ensures 0.24 <= Infer(x) < 60.0 && 0.0 < SetpointFor(x) <= 60.0
    ensures OnlyZeroFires(x) ==> 3.2 <= SetpointFor(x) <= 4.8
  {
    hide RULES, Fires, OnlyZeroFires, Infer;
    if OnlyZeroFires(x) {
      ZeroBand(x);
    }
    OutputsBelow(x);
    BandBelow(x, 60.0, 600);
  }

  lemma OutputsBelow(x: Inputs)
    requires x.trust <= 0.65
    ensures forall r | r in RULES && Fires(r, x) :: Corners(r.out).2 <= 60.0
  {
    hide RULES;
    forall r | r in RULES && Fires(r, x) ensures Corners(r.out).2 <= 60.0 {
      RuleOutputs(r);
    }
  }

  /** Over any run of a session, errors included: with the score stored by a session without a window
      only the rules for trusted nodes fire; after one window the node gets at most 60 W; after two it
      gets between 3.2 and 4.8 W.  No error of the session changes any of that. */
  lemma TrustSetsTheBand(xs: seq<Exchange>, x: Inputs)
    requires Genuine(xs) && StoredScore(xs) == Some(x.trust) && InRange(x)
    ensures Windows(Handled(xs)) == 0 ==> forall r | r in RULES && Fires(r, x) :: r.trust == Trusted
    ensures Windows(Handled(xs)) == 1 ==> 0.0 < SetpointFor(x) <= 60.0
    ensures Windows(Handled(xs)) == 2 ==> 3.2 <= SetpointFor(x) <= 4.8
  {
    StoredScoreLaw(xs);
    TrustLaw(xs);
    var w := Windows(Handled(xs));
    if w == 1 {
      assert x.trust == 0.4;
      DegradedBand(x);
    } else if w == 2 {
      assert x.trust == 0.0;
      UntrustedBand(x);
    } else if w == 0 {
      assert x.trust == 0.8;
      forall r | Fires(r, x) ensures r.trust == Trusted {
      }
    }
  }

  // ---------- what a score below 0.30 does not mean ----------

  /** A score that counts as untrusted, an undervoltage and an ordinary demand. */
  const NEARLY_TRUSTED := Inputs(-1.0, 50.0, 0.29)

  lemma {:induction false} AggregateAtMost(rules: seq<Rule>, x: Inputs, y: real, b: real)
    requires b >= 0.0 && forall r | r in rules :: Clipped(r, x, y) <= b
    ensures Aggregate(rules, x, y) <= b
  {
    hide Clipped;
    if rules != [] {
      assert rules[|rules| - 1] in rules && forall r | r in rules[..|rules| - 1] :: r in rules;
      AggregateAtMost(rules[..|rules| - 1], x, y, b);
    }
  }

  lemma {:induction false} AggregateAtLeast(rules: seq<Rule>, x: Inputs, y: real, r: Rule)
    requires r in rules
    ensures Aggregate(rules, x, y) >= Clipped(r, x, y)
  {
    hide Clipped;
    if r != rules[|rules| - 1] {
      AggregateAtLeast(rules[..|rules| - 1], x, y, r);
    }
  }

  /** The two rules that fire: the one for no trust at a tenth, the one for reduced trust at three tenths. */
  lemma NearlyTrustedRule(r: Rule, y: real)
    requires r in RULES
    ensures y <= 10.5 ==> Clipped(r, NEARLY_TRUSTED, y) <= 0.1
    ensures r.trust == Degraded && r.error == VbeLow && r.demand == PdMed && 30.0 <= y <= 50.0 ==>
              Clipped(r, NEARLY_TRUSTED, y) == 0.3
  {
    DegradedMed(r);
    hide RULES;
    NearlyTrustedSets();
    if 30.0 <= y <= 50.0 {
      MedAtLeast(y);
    }
  }

  lemma DegradedMed(r: Rule)
    requires r in RULES
    ensures r.trust == Degraded && r.error == VbeLow && r.demand == PdMed ==> r.out == Med
  {
  }

  lemma NearlyTrustedSets()
    ensures TrustMf(0.29, Untrusted) == 0.1 && TrustMf(0.29, Degraded) == 0.3 && TrustMf(0.29, Trusted) == 0.0
    ensures ErrorMf(-1.0, VbeLow) == 1.0 && ErrorMf(-1.0, VbeMed) == ErrorMf(-1.0, VbeHigh) == 0.0
    ensures DemandMf(50.0, PdMed) == 1.0 && DemandMf(50.0, PdLow) == DemandMf(50.0, PdHigh) == 0.0
  {
  }

  lemma MedAtLeast(y: real)
    requires 30.0 <= y <= 50.0
    ensures OutMf(y, Med) >= 0.3
  {
    if y <= 40.0 {
      assert OutMf(y, Med) == (y - 25.0) / 15.0;
    } else {
      assert OutMf(y, Med) == (60.0 - y) / 20.0;
    }
  }

  lemma NearlyTrustedWeight(i: nat)
    requires i < SAMPLES
    ensures Aggregated(NEARLY_TRUSTED)[i] >= 0.0
    ensures i <= 21 ==> Aggregated(NEARLY_TRUSTED)[i] <= 0.1
    ensures 60 <= i <= 100 ==> Aggregated(NEARLY_TRUSTED)[i] >= 0.3
  {
    hide RULES, Clipped, Aggregate;
    AggregateIff(RULES, NEARLY_TRUSTED, Sample(i));
    forall r | r in RULES
      ensures Sample(i) <= 10.5 ==> Clipped(r, NEARLY_TRUSTED, Sample(i)) <= 0.1
    {
      NearlyTrustedRule(r, Sample(i));
    }
    if i <= 21 {
      AggregateAtMost(RULES, NEARLY_TRUSTED, Sample(i), 0.1);
    } else if 60 <= i <= 100 {
      EveryCombination(Degraded, VbeLow, PdMed);
      var r :| r in RULES && r.trust == Degraded && r.error == VbeLow && r.demand == PdMed;
      NearlyTrustedRule(r, Sample(i));
      AggregateAtLeast(RULES, NEARLY_TRUSTED, Sample(i), r);
    }
  }

  function Ascent(k: nat): real {
    if k <= 21 then -1.05 * k as real
    else if k <= 60 then -22.05
    else if k <= 101 then -22.05 + 5.85 * (k - 60) as real
    else 217.8
  }

  lemma AscentTerm(i: nat, v: real)
    requires v >= 0.0 && (i <= 21 ==> v <= 0.1) && (60 <= i <= 100 ==> v >= 0.3)
    ensures Ascent(i + 1) <= Ascent(i) + Lever(i, v, 10.5)
  {
    var lever := Sample(i) - 10.5;
    if i < 21 {
      AtMost(-lever, v, 0.1, 1.05);
      assert -lever * v == -(lever * v);
      assert Ascent(i + 1) == Ascent(i) - 1.05;
    } else if i == 21 {
      assert lever == 0.0;
    } else if 60 <= i <= 100 {
      Product(lever, 0.3, v);
    } else {
      Product(lever, 0.0, v);
    }
  }

  /** Its setpoint is above 10 W, where the lowest set ends: below 0.30 a node need not be held down. */
  lemma UntrustedAboveTen()
    ensures InRange(NEARLY_TRUSTED) && !OnlyZeroFires(NEARLY_TRUSTED)
    ensures Infer(NEARLY_TRUSTED) > 10.5 && SetpointFor(NEARLY_TRUSTED) > 10.0
  {
    hide RULES, Aggregated, Lever, Round1, OnlyZeroFires;
    var w := Aggregated(NEARLY_TRUSTED);
    forall i: nat | i < SAMPLES ensures Ascent(i + 1) <= Ascent(i) + Lever(i, w[i], 10.5) {
      NearlyTrustedWeight(i);
      AscentTerm(i, w[i]);
    }
    LeverageAbove(w, 10.5, Ascent, SAMPLES);
    assert w[..SAMPLES] == w;
    LeverageIs(w, 10.5);
    DenominatorIff(NEARLY_TRUSTED);
    Exceeds(10.5, Moment(w), Sum(w));
    OnlyZeroIff(NEARLY_TRUSTED);
    InferBounds(NEARLY_TRUSTED);
  }

  lemma Exceeds(c: real, n: real, d: real)
    requires d > 0.0 && n - c * d > 0.0
    ensures n / d > c
  {
    var q := n / d;
    assert q * d == n;
    assert q <= c ==> q * d <= c * d;
  }
}
