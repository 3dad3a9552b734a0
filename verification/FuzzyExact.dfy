/**
  The controller told from its tables: the shape of each membership function, the output of each rule
  by number, the aggregate by its levels, and the setpoint where one rule fires alone.
 */
module FuzzyExact {
  import opened Options
  import opened FuzzySpec
  import opened Coordinator
  import opened Bands

  // ---------- membership functions ----------

  /** A triangle rises and falls on straight lines, and is 1 at its peak only. */
  lemma TriangleIs(x: real, a: real, b: real, c: real)
    requires a < b < c
    ensures a <= x <= b ==> Trimf(x, a, b, c) * (b - a) == x - a
    ensures b <= x <= c ==> Trimf(x, a, b, c) * (c - b) == c - x
    ensures Trimf(x, a, b, c) == 1.0 <==> x == b
  {
    if a < x <= b {
      Whole(x - a, b - a);
    } else if b < x < c {
      Whole(c - x, c - b);
    }
  }

  lemma Whole(part: real, whole: real)
    requires whole > 0.0
    ensures part / whole * whole == part
    ensures part / whole == 1.0 <==> part == whole
  {
  }

  /** A trapezoid rises and falls on straight lines, and is 1 on its top only. */
  lemma TrapezoidIs(x: real, a: real, b: real, c: real, d: real)
    requires a <= b <= c <= d
    ensures a <= x < b ==> Trapf(x, a, b, c, d) * (b - a) == x - a
    ensures c < x <= d ==> Trapf(x, a, b, c, d) * (d - c) == d - x
    ensures Trapf(x, a, b, c, d) == 1.0 <==> b <= x <= c && a < x < d
  {
    if a < x < b {
      Whole(x - a, b - a);
    } else if c < x < d {
      Whole(d - x, d - c);
    }
  }

  /** Where each trust set applies, and where it applies fully. */
  lemma TrustSets(x: real)
    ensures TrustMf(x, Untrusted) > 0.0 <==> -0.1 < x < 0.3
    ensures TrustMf(x, Untrusted) == 1.0 <==> 0.0 <= x <= 0.2
    ensures TrustMf(x, Degraded) > 0.0 <==> 0.2 < x < 0.75
    ensures TrustMf(x, Degraded) == 1.0 <==> x == 0.5
    ensures TrustMf(x, Trusted) > 0.0 <==> 0.65 < x < 1.1
    ensures TrustMf(x, Trusted) == 1.0 <==> 0.8 <= x <= 1.0
  {
    TrapezoidIs(x, -0.1, 0.0, 0.20, 0.30);
    TriangleIs(x, 0.20, 0.50, 0.75);
    TrapezoidIs(x, 0.65, 0.80, 1.0, 1.1);
  }

  lemma ErrorSets(x: real)
    ensures ErrorMf(x, VbeLow) > 0.0 <==> -3.0 < x < -0.2
    ensures ErrorMf(x, VbeLow) == 1.0 <==> -3.0 < x <= -0.8
    ensures ErrorMf(x, VbeMed) > 0.0 <==> -0.8 < x < 0.8
    ensures ErrorMf(x, VbeMed) == 1.0 <==> x == 0.0
    ensures ErrorMf(x, VbeHigh) > 0.0 <==> 0.2 < x < 3.0
    ensures ErrorMf(x, VbeHigh) == 1.0 <==> 0.8 <= x < 3.0
  {
    TrapezoidIs(x, -3.0, -3.0, -0.8, -0.2);
    TriangleIs(x, -0.8, 0.0, 0.8);
    TrapezoidIs(x, 0.2, 0.8, 3.0, 3.0);
  }

  lemma DemandSets(x: real)
    ensures DemandMf(x, PdLow) > 0.0 <==> -10.0 < x < 40.0
    ensures DemandMf(x, PdLow) == 1.0 <==> 0.0 <= x <= 20.0
    ensures DemandMf(x, PdMed) > 0.0 <==> 20.0 < x < 80.0
    ensures DemandMf(x, PdMed) == 1.0 <==> x == 50.0
    ensures DemandMf(x, PdHigh) > 0.0 <==> 60.0 < x < 150.0
    ensures DemandMf(x, PdHigh) == 1.0 <==> 80.0 <= x < 150.0
  {
    TrapezoidIs(x, -10.0, 0.0, 20.0, 40.0);
    TriangleIs(x, 20.0, 50.0, 80.0);
    TrapezoidIs(x, 60.0, 80.0, 150.0, 150.0);
  }

  /** The output sets, by where they begin, peak and end. */
  lemma OutputSets(y: real)
    ensures (OutMf(y, Zero) > 0.0 <==> -5.0 < y < 10.0) && (OutMf(y, Zero) == 1.0 <==> y == 0.0)
    ensures (OutMf(y, Low) > 0.0 <==> 5.0 < y < 30.0) && (OutMf(y, Low) == 1.0 <==> y == 15.0)
    ensures (OutMf(y, Med) > 0.0 <==> 25.0 < y < 60.0) && (OutMf(y, Med) == 1.0 <==> y == 40.0)
    ensures (OutMf(y, High) > 0.0 <==> 50.0 < y < 90.0) && (OutMf(y, High) == 1.0 <==> y == 70.0)
    ensures (OutMf(y, Max) > 0.0 <==> 80.0 < y < 105.0) && (OutMf(y, Max) == 1.0 <==> y == 95.0)
  {
    TriangleIs(y, -5.0, 0.0, 10.0);
    TriangleIs(y, 5.0, 15.0, 30.0);
    TriangleIs(y, 25.0, 40.0, 60.0);
    TriangleIs(y, 50.0, 70.0, 90.0);
    TriangleIs(y, 80.0, 95.0, 105.0);
  }

  // ---------- the rule table ----------

  function OutputNumber(o: Output): int {
    match o
    case Zero => 0
    case Low => 1
    case Med => 2
    case High => 3
    case Max => 4
  }

  function ErrorNumber(v: ErrorSet): int {
    match v
    case VbeLow => 0
    case VbeMed => 1
    case VbeHigh => 2
  }

  function DemandNumber(p: DemandSet): int {
    match p
    case PdLow => 0
    case PdMed => 1
    case PdHigh => 2
  }

  function Clamped3(n: int): int {
    if n < 0 then 0 else if n > 2 then 2 else n
  }

  /** The whole table in one line for each tier: what a rule asks for rises with the demand and falls
      with the voltage, one step lower and at most to the middle for reduced trust, and never for none. */
  lemma RuleTable(r: Rule)
    requires r in RULES
    ensures OutputNumber(r.out) ==
              match r.trust
              case Untrusted => 0
              case Degraded => Clamped3(1 + DemandNumber(r.demand) - ErrorNumber(r.error))
              case Trusted => 2 + DemandNumber(r.demand) - ErrorNumber(r.error)
  {
    if r in UNTRUSTED_RULES {
    } else if r in DEGRADED_RULES {
    } else {
      assert r in TRUSTED_RULES;
    }
  }

  /** Each combination of sets has exactly one output. */
  lemma OneRulePerCombination(r: Rule, q: Rule)
    requires r in RULES && q in RULES && r.trust == q.trust && r.error == q.error && r.demand == q.demand
    ensures r == q
  {
    hide RULES;
    RuleTable(r);
    RuleTable(q);
  }

  /** So a trusted node is never asked for less than one of reduced trust, nor that for less than one of none. */
  lemma TrustNeverCosts(r: Rule, q: Rule)
    requires r in RULES && q in RULES && r.error == q.error && r.demand == q.demand
    requires q.trust == Untrusted || (q.trust == Degraded && r.trust == Trusted) || q.trust == r.trust
    ensures OutputNumber(q.out) <= OutputNumber(r.out)
  {
    hide RULES;
    RuleTable(r);
    RuleTable(q);
  }

  // ---------- the aggregate and its centroid ----------

  /** The aggregate reaches a level exactly where some rule does with all its sets and its output. */
  lemma {:induction false} AggregateLevel(rules: seq<Rule>, x: Inputs, y: real, t: real)
    requires t > 0.0
    ensures Aggregate(rules, x, y) >= t <==>
              exists r :: r in rules && TrustMf(x.trust, r.trust) >= t && ErrorMf(x.error, r.error) >= t
                          && DemandMf(x.demand, r.demand) >= t && OutMf(y, r.out) >= t
  {
    hide TrustMf, ErrorMf, DemandMf, OutMf;
    if rules != [] {
      var before, last := rules[..|rules| - 1], rules[|rules| - 1];
      AggregateLevel(before, x, y, t);
      ClippedLevel(last, x, y, t);
      hide Clipped;
      assert forall r :: r in rules <==> r in before || r == last;
    }
  }

  lemma ClippedLevel(r: Rule, x: Inputs, y: real, t: real)
    requires t > 0.0
    ensures Clipped(r, x, y) >= t <==>
              && TrustMf(x.trust, r.trust) >= t && ErrorMf(x.error, r.error) >= t
              && DemandMf(x.demand, r.demand) >= t && OutMf(y, r.out) >= t
  {
    hide TrustMf, ErrorMf, DemandMf, OutMf;
  }

  /** The result is the centre of gravity: around it, and nowhere else, the weights balance. */
  lemma CentroidBalances(x: Inputs, c: real)
    requires InRange(x)
    ensures Leverage(Aggregated(x), c) == 0.0 <==> c == Infer(x)
  {
    hide Aggregated, RULES;
    var w := Aggregated(x);
    DenominatorIff(x);
    LeverageIs(w, c);
    Balanced(Moment(w), Sum(w), c);
  }

  lemma Balanced(n: real, d: real, c: real)
    requires d > 0.0
    ensures n - c * d == 0.0 <==> c == n / d
  {
    Whole(n, d);
    assert n / d * d == n;
    if n - c * d == 0.0 {
      SameQuotient(c, n / d, d);
    }
  }

  lemma SameQuotient(a: real, b: real, d: real)
    requires d > 0.0 && a * d == b * d
    ensures a == b
  {
    assert a < b ==> a * d < b * d;
    assert b < a ==> b * d < a * d;
  }

  // ---------- one rule alone ----------

  /** Inputs at which no other set of their kind applies. */
  predicate OnlyTrust(x: real, t: TrustSet) {
    match t
    case Untrusted => x <= 0.2
    case Degraded => 0.3 <= x <= 0.65
    case Trusted => x >= 0.75
  }

  predicate OnlyError(x: real, v: ErrorSet) {
    match v
    case VbeLow => x <= -0.8
    case VbeMed => -0.2 <= x <= 0.2
    case VbeHigh => x >= 0.8
  }

  predicate OnlyDemand(x: real, p: DemandSet) {
    match p
    case PdLow => x <= 20.0
    case PdMed => 40.0 <= x <= 60.0
    case PdHigh => x >= 80.0
  }

  /** There the setpoint lies within the one output set that its rule names. */
  lemma LoneRule(x: Inputs, r: Rule)
    requires InRange(x) && r in RULES && OnlyTrust(x.trust, r.trust) && OnlyError(x.error, r.error)
    requires OnlyDemand(x.demand, r.demand)
    ensures Corners(r.out).0 < Infer(x) < Corners(r.out).2
  {
    forall q | q in RULES && Fires(q, x) ensures q == r {
      LoneSets(x, q, r);
      OneRulePerCombination(q, r);
    }
    hide RULES, Fires;
    WithinHull(x, Corners(r.out).0, Corners(r.out).2);
  }

  lemma LoneSets(x: Inputs, q: Rule, r: Rule)
    requires Fires(q, x) && OnlyTrust(x.trust, r.trust) && OnlyError(x.error, r.error) && OnlyDemand(x.demand, r.demand)
    ensures q.trust == r.trust && q.error == r.error && q.demand == r.demand
  {
    hide TrustMf, ErrorMf, DemandMf;
    TrustSets(x.trust);
    ErrorSets(x.error);
    DemandSets(x.demand);
  }

  /** What a trusted node is asked for in each corner of the range: the more, the lower the voltage and
      the higher the demand, from under 10 W to over 80 W. */
  lemma TrustedCorners(x: Inputs)
    requires InRange(x) && x.trust >= 0.75
    ensures x.error <= -0.8 && x.demand >= 80.0 ==> 80.0 < Infer(x) && 80.0 <= SetpointFor(x) <= 100.0
    ensures x.error <= -0.8 && 40.0 <= x.demand <= 60.0 ==> 50.0 < Infer(x) < 90.0
    ensures x.error <= -0.8 && x.demand <= 20.0 ==> 25.0 < Infer(x) < 60.0
    ensures -0.2 <= x.error <= 0.2 && x.demand >= 80.0 ==> 50.0 < Infer(x) < 90.0
    ensures -0.2 <= x.error <= 0.2 && 40.0 <= x.demand <= 60.0 ==> 25.0 < Infer(x) < 60.0
    ensures -0.2 <= x.error <= 0.2 && x.demand <= 20.0 ==> 5.0 < Infer(x) < 30.0
    ensures x.error >= 0.8 && x.demand >= 80.0 ==> 25.0 < Infer(x) < 60.0
    ensures x.error >= 0.8 && 40.0 <= x.demand <= 60.0 ==> 5.0 < Infer(x) < 30.0
    ensures x.error >= 0.8 && x.demand <= 20.0 ==> Infer(x) < 10.0 && SetpointFor(x) <= 10.0
  {
    hide RULES, Infer, Round1;
    LoneTrusted(x, VbeLow, PdHigh, Max);
    LoneTrusted(x, VbeLow, PdMed, High);
    LoneTrusted(x, VbeLow, PdLow, Med);
    LoneTrusted(x, VbeMed, PdHigh, High);
    LoneTrusted(x, VbeMed, PdMed, Med);
    LoneTrusted(x, VbeMed, PdLow, Low);
    LoneTrusted(x, VbeHigh, PdHigh, Med);
    LoneTrusted(x, VbeHigh, PdMed, Low);
    LoneTrusted(x, VbeHigh, PdLow, Zero);
    InferBounds(x);
    TenthAbove(Infer(x), 800);
    if Infer(x) < 10.0 {
      TenthBelow(Infer(x), 100);
    }
  }

  lemma LoneTrusted(x: Inputs, v: ErrorSet, p: DemandSet, o: Output)
    requires InRange(x) && x.trust >= 0.75 && OutputNumber(o) == 2 + DemandNumber(p) - ErrorNumber(v)
    ensures OnlyError(x.error, v) && OnlyDemand(x.demand, p) ==> Corners(o).0 < Infer(x) < Corners(o).2
  {
    hide RULES, Infer;
    if OnlyError(x.error, v) && OnlyDemand(x.demand, p) {
      EveryCombination(Trusted, v, p);
      var r :| r in RULES && r.trust == Trusted && r.error == v && r.demand == p;
      RuleTable(r);
      LoneRule(x, r);
    }
  }

  lemma TenthAbove(x: real, tenths: int)
    ensures x > tenths as real / 10.0 ==> Round1(x) >= tenths as real / 10.0
  {
    if x > tenths as real / 10.0 {
      var floor := (x * 10.0).Floor;
      assert tenths <= floor;
      TenthsOrder(tenths, floor);
      TenthsOrder(tenths, floor + 1);
    }
  }

  // ---------- rounding ----------

  /** A setpoint is a whole number of tenths, at most half of one away from the centroid; clamping it to
      the range never changes it. */
  lemma SetpointIsRounded(x: Inputs)
    ensures SetpointFor(x) == Round1(Infer(x))
    ensures SetpointFor(x) == (SetpointFor(x) * 10.0).Floor as real / 10.0
    ensures Infer(x) - 0.05 <= SetpointFor(x) <= Infer(x) + 0.05
  {
    hide RULES, Aggregated;
    DenominatorIff(x);
    if InRange(x) {
      InferBounds(x);
      TenthBelow101(Infer(x));
    } else {
      assert Infer(x) == 0.0 && (0.0 * 10.0).Floor == 0;
    }
    hide Infer;
    var tenths := (Infer(x) * 10.0).Floor;
    assert Round1(Infer(x)) == tenths as real / 10.0 || Round1(Infer(x)) == (tenths + 1) as real / 10.0;
  }

  lemma TenthBelow101(x: real)
    requires 0.24 <= x <= 100.0
    ensures 0.0 <= Round1(x) <= 100.0
  {
    var floor := (x * 10.0).Floor;
    assert 2 <= floor <= 1000;
  }

  /** Halfway between two tenths the even one is taken. */
  lemma TiesToEven(n: int)
    ensures Round1((n as real + 0.5) / 10.0) == (if n % 2 == 0 then n else n + 1) as real / 10.0
  {
    var x := (n as real + 0.5) / 10.0;
    assert x * 10.0 == n as real + 0.5;
    assert (x * 10.0).Floor == n;
  }

  // ---------- the inputs ----------

  /** How far a node's voltage is from nominal; one that reports none counts as nominal. */
  function Deviation(n: NodeReading): real {
    if n.vBus.Some? then n.vBus.value - 12.0 else 0.0
  }

  function Drawn(n: NodeReading): real {
    if n.pBus.Some? then n.pBus.value else 0.0
  }

  /** A total is what its parts add up to, however they are listed. */
  lemma {:induction false} TotalAdds(a: Latest, b: Latest, part: NodeReading -> real)
    ensures Total(a + b, part) == Total(a, part) + Total(b, part)
    decreases |b|
  {
    if b == [] {
      assert a + b == a;
    } else {
      var all := a + b;
      assert all[..|all| - 1] == a + b[..|b| - 1] && all[|all| - 1] == b[|b| - 1];
      TotalAdds(a, b[..|b| - 1], part);
    }
  }

  lemma TotalOfOne(name: string, n: NodeReading, part: NodeReading -> real)
    ensures Total([(name, n)], part) == part(n)
  {
    assert [(name, n)][..0] == [];
    assert Total([(name, n)], part) == Total([], part) + part(n);
  }

  /** The error is the average deviation of the nodes from 12 V, the demand the sum of what they draw, and
      the trust the node's own, or 1 where none is stored. */
  lemma InputsAre(latest: Latest, r: NodeReading)
    requires latest != []
    ensures InputsFor(latest, r).error * |latest| as real == Total(latest, Deviation)
    ensures InputsFor(latest, r).demand == Total(latest, Drawn)
    ensures InputsFor(latest, r).trust == if r.trust.Some? then r.trust.value else 1.0
  {
    var volts := Total(latest, (n: NodeReading) => n.Voltage());
    VoltsAre(latest);
    DrawnIs(latest);
    var count := |latest| as real;
    Whole(volts, count);
    LessNominal(volts / count, count);
  }

  lemma LessNominal(mean: real, count: real)
    ensures (mean - 12.0) * count == mean * count - 12.0 * count
  {
  }

  lemma {:induction false} VoltsAre(latest: Latest)
    ensures Total(latest, (n: NodeReading) => n.Voltage()) == Total(latest, Deviation) + 12.0 * |latest| as real
  {
    if latest != [] {
      VoltsAre(latest[..|latest| - 1]);
    }
  }

  lemma {:induction false} DrawnIs(latest: Latest)
    ensures Total(latest, (n: NodeReading) => n.Power()) == Total(latest, Drawn)
  {
    if latest != [] {
      DrawnIs(latest[..|latest| - 1]);
    }
  }
}
