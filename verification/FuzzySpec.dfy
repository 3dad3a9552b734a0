/**
  The fuzzy controller of the energy coordinator over exact reals: membership functions, the rule
  table and the centroid, and when and where a setpoint can come out of them.
 */
module FuzzySpec {
  // ---------- membership functions ----------

  /** Defined, and between 0 and 1, for any corners: no branch is reached with a zero divisor. */
  function Trimf(x: real, a: real, b: real, c: real): (m: real)
    ensures 0.0 <= m <= 1.0
    ensures m > 0.0 <==> a < x < c
  {
    if x <= a || x >= c then 0.0
    else if x <= b then Ratio(x - a, b - a)
    else Ratio(c - x, c - b)
  }

  function Trapf(x: real, a: real, b: real, c: real, d: real): (m: real)
    ensures 0.0 <= m <= 1.0
    ensures m > 0.0 <==> a < x < d
  {
    if x <= a || x >= d then 0.0
    else if b <= x <= c then 1.0
    else if x < b then Ratio(x - a, b - a)
    else Ratio(d - x, d - c)
  }

  function Ratio(part: real, whole: real): (m: real)
    requires 0.0 < part <= whole
    ensures 0.0 < m <= 1.0
  {
    RatioBounds(part, whole);
    part / whole
  }

  lemma RatioBounds(part: real, whole: real)
    requires 0.0 < part <= whole
    ensures 0.0 < part / whole <= 1.0
  {
    var q := part / whole;
    assert q * whole == part;
    assert q <= 0.0 ==> q * whole <= 0.0;
    assert q > 1.0 ==> q * whole > 1.0 * whole;
  }

  datatype TrustSet = Untrusted | Degraded | Trusted
  datatype ErrorSet = VbeLow | VbeMed | VbeHigh
  datatype DemandSet = PdLow | PdMed | PdHigh
  datatype Output = Zero | Low | Med | High | Max

  function TrustMf(x: real, t: TrustSet): (m: real) {
    match t
    case Untrusted => Trapf(x, -0.1, 0.0, 0.20, 0.30)
    case Degraded => Trimf(x, 0.20, 0.50, 0.75)
    case Trusted => Trapf(x, 0.65, 0.80, 1.0, 1.1)
  }

  function ErrorMf(x: real, v: ErrorSet): real {
    match v
    case VbeLow => Trapf(x, -3.0, -3.0, -0.8, -0.2)
    case VbeMed => Trimf(x, -0.8, 0.0, 0.8)
    case VbeHigh => Trapf(x, 0.2, 0.8, 3.0, 3.0)
  }

  function DemandMf(x: real, p: DemandSet): real {
    match p
    case PdLow => Trapf(x, -10.0, 0.0, 20.0, 40.0)
    case PdMed => Trimf(x, 20.0, 50.0, 80.0)
    case PdHigh => Trapf(x, 60.0, 80.0, 150.0, 150.0)
  }

  /** The corners of the output sets. */
  function Corners(o: Output): (real, real, real) {
    match o
    case Zero => (-5.0, 0.0, 10.0)
    case Low => (5.0, 15.0, 30.0)
    case Med => (25.0, 40.0, 60.0)
    case High => (50.0, 70.0, 90.0)
    case Max => (80.0, 95.0, 105.0)
  }

  function OutMf(y: real, o: Output): real {
    Trimf(y, Corners(o).0, Corners(o).1, Corners(o).2)
  }

  // ---------- the rules ----------

  datatype Rule = Rule(trust: TrustSet, error: ErrorSet, demand: DemandSet, out: Output)

  const UNTRUSTED_RULES: seq<Rule> := [
    Rule(Untrusted, VbeLow, PdLow, Zero), Rule(Untrusted, VbeLow, PdMed, Zero), Rule(Untrusted, VbeLow, PdHigh, Zero),
    Rule(Untrusted, VbeMed, PdLow, Zero), Rule(Untrusted, VbeMed, PdMed, Zero), Rule(Untrusted, VbeMed, PdHigh, Zero),
    Rule(Untrusted, VbeHigh, PdLow, Zero), Rule(Untrusted, VbeHigh, PdMed, Zero),
    Rule(Untrusted, VbeHigh, PdHigh, Zero)]

  const DEGRADED_RULES: seq<Rule> := [
    Rule(Degraded, VbeLow, PdLow, Low), Rule(Degraded, VbeLow, PdMed, Med), Rule(Degraded, VbeLow, PdHigh, Med),
    Rule(Degraded, VbeMed, PdLow, Zero), Rule(Degraded, VbeMed, PdMed, Low), Rule(Degraded, VbeMed, PdHigh, Med),
    Rule(Degraded, VbeHigh, PdLow, Zero), Rule(Degraded, VbeHigh, PdMed, Zero), Rule(Degraded, VbeHigh, PdHigh, Low)]

  const TRUSTED_RULES: seq<Rule> := [
    Rule(Trusted, VbeLow, PdLow, Med), Rule(Trusted, VbeLow, PdMed, High), Rule(Trusted, VbeLow, PdHigh, Max),
    Rule(Trusted, VbeMed, PdLow, Low), Rule(Trusted, VbeMed, PdMed, Med), Rule(Trusted, VbeMed, PdHigh, High),
    Rule(Trusted, VbeHigh, PdLow, Zero), Rule(Trusted, VbeHigh, PdMed, Low), Rule(Trusted, VbeHigh, PdHigh, Med)]

  const RULES: seq<Rule> := UNTRUSTED_RULES + DEGRADED_RULES + TRUSTED_RULES

  datatype Inputs = Inputs(error: real, demand: real, trust: real)

  function Min(a: real, b: real): real {
    if b < a then b else a
  }

  function Max2(a: real, b: real): real {
    if b > a then b else a
  }

  function Strength(r: Rule, x: Inputs): real {
    Min(Min(TrustMf(x.trust, r.trust), ErrorMf(x.error, r.error)), DemandMf(x.demand, r.demand))
  }

  predicate Fires(r: Rule, x: Inputs) {
    Strength(r, x) > 0.0
  }

  /** What one rule contributes at one output. */
  function Clipped(r: Rule, x: Inputs, y: real): real {
    if Fires(r, x) then Min(Strength(r, x), OutMf(y, r.out)) else 0.0
  }

  function Aggregate(rules: seq<Rule>, x: Inputs, y: real): real {
    if rules == [] then 0.0 else
      Max2(Aggregate(rules[..|rules| - 1], x, y), Clipped(rules[|rules| - 1], x, y))
  }

  // ---------- the centroid ----------

  const SAMPLES: nat := 201

  function Sample(i: nat): real {
    i as real * 0.5
  }

  function Row(rules: seq<Rule>, x: Inputs): (a: seq<real>)
    ensures |a| == SAMPLES
  {
    seq(SAMPLES, i requires 0 <= i => Aggregate(rules, x, Sample(i)))
  }

  function Aggregated(x: Inputs): (a: seq<real>)
    ensures |a| == SAMPLES
  {
    Row(RULES, x)
  }

  function Sum(w: seq<real>): real {
    if w == [] then 0.0 else Sum(w[..|w| - 1]) + w[|w| - 1]
  }

  function Weighed(i: nat, v: real): real {
    Sample(i) * v
  }

  function Moment(w: seq<real>): real {
    if w == [] then 0.0 else Moment(w[..|w| - 1]) + Weighed(|w| - 1, w[|w| - 1])
  }

  function Infer(x: Inputs): real {
    var a := Aggregated(x);
    if Sum(a) == 0.0 then 0.0 else Moment(a) / Sum(a)
  }

  // ---------- which rules fire ----------

  predicate InRange(x: Inputs) {
    -0.1 < x.trust < 1.1 && -3.0 < x.error < 3.0 && -10.0 < x.demand < 150.0
  }

  lemma EveryCombination(t: TrustSet, v: ErrorSet, p: DemandSet)
    ensures exists r :: r in RULES && r.trust == t && r.error == v && r.demand == p
  {
    var rules := match t
      case Untrusted => UNTRUSTED_RULES
      case Degraded => DEGRADED_RULES
      case Trusted => TRUSTED_RULES;
    var j := match v case VbeLow => 0 case VbeMed => 3 case VbeHigh => 6;
    var k := match p case PdLow => 0 case PdMed => 1 case PdHigh => 2;
    var r := rules[j + k];
    assert r in rules && r.trust == t && r.error == v && r.demand == p;
  }

  /** The rule base is complete on the ranges it is made for, and only there. */
  lemma FiresIff(x: Inputs)
    ensures (exists r :: r in RULES && Fires(r, x)) <==> InRange(x)
  {
    hide RULES;
    if InRange(x) {
      var t := if x.trust < 0.3 then Untrusted else if x.trust < 0.75 then Degraded else Trusted;
      var v := if x.error < -0.2 then VbeLow else if x.error < 0.8 then VbeMed else VbeHigh;
      var p := if x.demand < 40.0 then PdLow else if x.demand < 80.0 then PdMed else PdHigh;
      EveryCombination(t, v, p);
      var r :| r in RULES && r.trust == t && r.error == v && r.demand == p;
      assert Fires(r, x);
    }
    forall r | Fires(r, x) ensures InRange(x) {
      FiringInRange(r, x);
    }
  }

  lemma FiringInRange(r: Rule, x: Inputs)
    requires Fires(r, x)
    ensures InRange(x)
  {
  }

  /** A point contributes exactly when it is inside the support of the output of some firing rule. */
  lemma {:induction false} AggregateIff(rules: seq<Rule>, x: Inputs, y: real)
    ensures Aggregate(rules, x, y) >= 0.0
    ensures Aggregate(rules, x, y) > 0.0 <==> exists r :: r in rules && Fires(r, x) && Supports(r.out, y)
  {
    hide Strength, OutMf;
    if rules != [] {
      var before, last := rules[..|rules| - 1], rules[|rules| - 1];
      AggregateIff(before, x, y);
      ClippedIff(last, x, y);
      assert forall r :: r in rules <==> r in before || r == last;
    }
  }

  predicate Supports(o: Output, y: real) {
    Corners(o).0 < y < Corners(o).2
  }

  lemma ClippedIff(r: Rule, x: Inputs, y: real)
    ensures Clipped(r, x, y) >= 0.0
    ensures Clipped(r, x, y) > 0.0 <==> Fires(r, x) && Supports(r.out, y)
  {
    hide Strength;
  }

  // ---------- where the centroid lies ----------

  lemma {:induction false} SumNotNegative(w: seq<real>)
    requires forall i :: 0 <= i < |w| ==> w[i] >= 0.0
    ensures Sum(w) >= 0.0
    ensures Sum(w) > 0.0 <==> exists i :: 0 <= i < |w| && w[i] > 0.0
  {
    if w != [] {
      var before := w[..|w| - 1];
      SumNotNegative(before);
      assert forall i :: 0 <= i < |before| ==> before[i] == w[i];
    }
  }

  predicate Above(lo: real, s: real, m: real) {
    if s > 0.0 then lo * s < m else m == 0.0
  }

  predicate Below(hi: real, s: real, m: real) {
    if s > 0.0 then m < hi * s else m == 0.0
  }

  /** Weights that are positive only strictly between two bounds have their moment between them. */
  lemma {:induction false} MomentBetween(w: seq<real>, lo: real, hi: real)
    requires forall i :: 0 <= i < |w| ==> w[i] >= 0.0
    requires forall i :: 0 <= i < |w| && w[i] > 0.0 ==> lo < Sample(i) < hi
    ensures Sum(w) >= 0.0 && Above(lo, Sum(w), Moment(w)) && Below(hi, Sum(w), Moment(w))
  {
    if w != [] {
      hide Sample, Weighed, Above, Below;
      var before, n := w[..|w| - 1], |w| - 1;
      MomentBetween(before, lo, hi);
      OneMoreAbove(lo, Sum(before), Moment(before), n, w[n]);
      OneMoreBelow(hi, Sum(before), Moment(before), n, w[n]);
    }
  }

  lemma OneMoreAbove(lo: real, s: real, m: real, i: nat, v: real)
    requires s >= 0.0 && v >= 0.0 && Above(lo, s, m) && (v > 0.0 ==> lo < Sample(i))
    ensures Above(lo, s + v, m + Weighed(i, v))
  {
    hide Sample;
    var y := Sample(i);
    if v == 0.0 {
      assert y * v == 0.0;
    } else {
      Less(lo, y, v);
      Scale(lo, s, v);
      assert s == 0.0 ==> lo * s == 0.0;
    }
  }

  lemma OneMoreBelow(hi: real, s: real, m: real, i: nat, v: real)
    requires s >= 0.0 && v >= 0.0 && Below(hi, s, m) && (v > 0.0 ==> Sample(i) < hi)
    ensures Below(hi, s + v, m + Weighed(i, v))
  {
    hide Sample;
    var y := Sample(i);
    if v == 0.0 {
      assert y * v == 0.0;
    } else {
      Less(y, hi, v);
      Scale(hi, s, v);
      assert s == 0.0 ==> hi * s == 0.0;
    }
  }

  lemma Scale(k: real, a: real, b: real)
    ensures k * (a + b) == k * a + k * b
  {
  }

  lemma Less(a: real, b: real, v: real)
    requires a < b && v > 0.0
    ensures a * v < b * v
  {
  }

  lemma Quotient(lo: real, hi: real, n: real, d: real)
    requires d > 0.0 && lo * d < n < hi * d
    ensures lo < n / d < hi
  {
    var q := n / d;
    assert q * d == n;
    assert q <= lo ==> q * d <= lo * d;
    assert q >= hi ==> q * d >= hi * d;
  }

  lemma AggregatedIff(x: Inputs, i: nat)
    requires i < SAMPLES
    ensures Aggregated(x)[i] >= 0.0
    ensures Aggregated(x)[i] > 0.0 <==> exists r :: r in RULES && Fires(r, x) && Supports(r.out, Sample(i))
  {
    hide RULES;
    AggregateIff(RULES, x, Sample(i));
  }

  /** Each output set reaches a sample above zero. */
  lemma Peak(o: Output) returns (i: nat)
    ensures 0 < i < SAMPLES && Supports(o, Sample(i))
  {
    i := match o case Zero => 10 case Low => 30 case Med => 80 case High => 140 case Max => 190;
  }

  /** The divisor is zero exactly when no rule fires. */
  lemma DenominatorIff(x: Inputs)
    ensures Sum(Aggregated(x)) >= 0.0
    ensures Sum(Aggregated(x)) > 0.0 <==> InRange(x)
  {
    hide RULES, Fires, Supports, Aggregated;
    var a := Aggregated(x);
    forall i: nat | i < SAMPLES
      ensures a[i] >= 0.0 && (a[i] > 0.0 <==> exists r :: r in RULES && Fires(r, x) && Supports(r.out, Sample(i)))
    {
      AggregatedIff(x, i);
    }
    SumNotNegative(a);
    FiresIff(x);
    if InRange(x) {
      var r :| r in RULES && Fires(r, x);
      var i := Peak(r.out);
      assert a[i] > 0.0;
    }
  }

  /** The centroid lies inside any bounds that hold the supports of all the rules that fire. */
  lemma WithinHull(x: Inputs, lo: real, hi: real)
    requires InRange(x)
    requires forall r :: r in RULES && Fires(r, x) ==> lo <= Corners(r.out).0 && Corners(r.out).2 <= hi
    ensures lo < Infer(x) < hi
  {
    hide RULES, Fires, Aggregated;
    var a := Aggregated(x);
    forall i: nat | i < SAMPLES
      ensures a[i] >= 0.0 && (a[i] > 0.0 ==> lo < Sample(i) < hi)
    {
      AggregatedIff(x, i);
    }
    DenominatorIff(x);
    MomentBetween(a, lo, hi);
    Quotient(lo, hi, Moment(a), Sum(a));
  }
}
