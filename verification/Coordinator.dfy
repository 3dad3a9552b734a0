/**
  The energy coordinator: inference as it runs over its array of outputs, the setpoints it stores,
  and the bands that trust puts them in.
 */
module Coordinator {
  import opened Options
  import opened FuzzySpec

  const V_NOMINAL: real := 12.0
  const MIN_SP: real := 0.0
  const MAX_SP: real := 100.0

  // ---------- inference ----------

  /** _fuzzy_infer */
  method FuzzyInfer(x: Inputs) returns (result: real)
    ensures result == Infer(x)
  {
    var aggregated := new real[SAMPLES](_ => 0.0);
    assert RULES[..|RULES|] == RULES && RULES[..0] == [];
    assert aggregated[..] == Row([], x);
    hide RULES, Row, Strength, SAMPLES;
    for k := 0 to |RULES|
      invariant aggregated[..] == Row(RULES[..k], x)
    {
      var rule := RULES[k];
      var strength := Strength(rule, x);
      NextRow(k, x);
      if strength > 0.0 {
        Raise(aggregated, strength, rule.out);
      }
    }
    var numerator := MomentOf(aggregated);
    var denominator := SumOf(aggregated);
    result := if denominator == 0.0 then 0.0 else numerator / denominator;
  }

  /** The inner loop of _fuzzy_infer: every output is raised to what the rule contributes there. */
  method Raise(aggregated: array<real>, strength: real, out: Output)
    modifies aggregated
    ensures aggregated[..] == Raised(old(aggregated[..]), strength, out)
  {
    hide OutMf, Sample, Min;
    for i := 0 to aggregated.Length
      invariant forall j :: 0 <= j < i ==>
                  aggregated[j] == Max2(old(aggregated[j]), Min(strength, OutMf(Sample(j), out)))
      invariant forall j :: i <= j < aggregated.Length ==> aggregated[j] == old(aggregated[j])
    {
      var clipped := Min(strength, OutMf(Sample(i), out));
      if clipped > aggregated[i] {
        aggregated[i] := clipped;
      }
    }
  }

  function Raised(row: seq<real>, strength: real, out: Output): seq<real> {
    seq(|row|, j requires 0 <= j < |row| => Max2(row[j], Min(strength, OutMf(Sample(j), out))))
  }

  function RaisedTo(before: real, r: Rule, x: Inputs, y: real): real {
    if Strength(r, x) > 0.0 then Max2(before, Min(Strength(r, x), OutMf(y, r.out))) else before
  }

  lemma NextRow(k: nat, x: Inputs)
    requires k < |RULES|
    ensures var row, next, r := Row(RULES[..k], x), Row(RULES[..k + 1], x), RULES[k];
            next == if Strength(r, x) > 0.0 then Raised(row, Strength(r, x), r.out) else row
  {
    hide RULES, Strength, OutMf, Sample, Min;
    var r := RULES[k];
    forall i: nat | i < SAMPLES
      ensures var before := Aggregate(RULES[..k], x, Sample(i));
              Aggregate(RULES[..k + 1], x, Sample(i)) == RaisedTo(before, r, x, Sample(i))
    {
      NextAggregate(k, x, Sample(i));
    }
  }

  lemma NextAggregate(k: nat, x: Inputs, y: real)
    requires k < |RULES|
    ensures var before, r := Aggregate(RULES[..k], x, y), RULES[k];
            Aggregate(RULES[..k + 1], x, y) == RaisedTo(before, r, x, y)
  {
    hide RULES, Strength, OutMf, Min;
    var next := RULES[..k + 1];
    assert next[..|next| - 1] == RULES[..k] && next[|next| - 1] == RULES[k];
    AggregateIff(RULES[..k], x, y);
  }

  method SumOf(a: array<real>) returns (s: real)
    ensures s == Sum(a[..])
  {
    s := 0.0;
    for i := 0 to a.Length
      invariant s == Sum(a[..i])
    {
      assert a[..i + 1][..i] == a[..i];
      s := s + a[i];
    }
    assert a[..a.Length] == a[..];
  }

  method MomentOf(a: array<real>) returns (s: real)
    ensures s == Moment(a[..])
  {
    s := 0.0;
    for i := 0 to a.Length
      invariant s == Moment(a[..i])
    {
      assert a[..i + 1][..i] == a[..i];
      s := s + Weighed(i, a[i]);
    }
    assert a[..a.Length] == a[..];
  }

  // ---------- setpoints ----------

  /** The nearest tenth, the even one of two. */
  function Round1(x: real): (r: real)
    ensures x - 0.05 <= r <= x + 0.05
  {
    var tenths := (x * 10.0).Floor;
    var rest := x * 10.0 - tenths as real;
    if rest < 0.5 || (rest == 0.5 && tenths % 2 == 0) then tenths as real / 10.0 else (tenths + 1) as real / 10.0
  }

  function Clamp(x: real): real {
    if x < MIN_SP then MIN_SP else if x > MAX_SP then MAX_SP else x
  }

  function SetpointFor(x: Inputs): real {
    Clamp(Round1(Infer(x)))
  }

  /** Every rule that fires weighs the sample above zero nearly as much as the one at zero. */
  lemma {:induction false} SecondSample(rules: seq<Rule>, x: Inputs)
    ensures Aggregate(rules, x, 0.5) >= 0.95 * Aggregate(rules, x, 0.0) >= 0.0
  {
    if rules != [] {
      SecondSample(rules[..|rules| - 1], x);
      SecondSampleOfRule(rules[|rules| - 1], x);
      hide Clipped;
    }
  }

  lemma SecondSampleOfRule(r: Rule, x: Inputs)
    ensures Clipped(r, x, 0.5) >= 0.95 * Clipped(r, x, 0.0) >= 0.0
  {
    hide Strength;
    assert OutMf(0.5, r.out) >= 0.95 * OutMf(0.0, r.out);
  }

  lemma {:induction false} MomentFloor(w: seq<real>)
    requires |w| >= 2 && forall i :: 0 <= i < |w| ==> w[i] >= 0.0
    ensures Moment(w) >= 0.5 * (Sum(w) - w[0]) && Sum(w) >= w[0] + w[1]
  {
    var before, n := w[..|w| - 1], |w| - 1;
    WeighedFloor(n, w[n]);
    if |w| == 2 {
      assert before == [w[0]];
      assert before[..0] == [];
      assert Sum(before) == Sum(before[..0]) + w[0];
      assert Moment(before) == Moment(before[..0]) + Weighed(0, w[0]);
    } else {
      MomentFloor(before);
    }
  }

  lemma WeighedFloor(n: nat, v: real)
    requires n >= 1 && v >= 0.0
    ensures Weighed(n, v) >= 0.5 * v
  {
    assert Sample(n) >= 0.5;
  }

  /** When any rule fires the centroid is well above zero, and never above the last sample. */
  lemma InferBounds(x: Inputs)
    requires InRange(x)
    ensures 0.24 <= Infer(x) <= MAX_SP
  {
    hide RULES, Fires, Aggregated;
    var a := Aggregated(x);
    forall i: nat | i < SAMPLES ensures a[i] >= 0.0 {
      AggregatedIff(x, i);
    }
    DenominatorIff(x);
    FirstTwo(x);
    MomentFloor(a);
    QuotientFloor(Moment(a), Sum(a), a[0], a[1]);
    if Infer(x) > MAX_SP {
      MomentBetween(a, -1.0, Infer(x));
      Quotient(-1.0, Infer(x), Moment(a), Sum(a));
    }
  }

  lemma FirstTwo(x: Inputs)
    ensures Aggregated(x)[1] >= 0.95 * Aggregated(x)[0]
  {
    hide RULES;
    SecondSample(RULES, x);
    assert Sample(0) == 0.0 && Sample(1) == 0.5;
  }

  lemma QuotientFloor(m: real, s: real, first: real, second: real)
    requires s > 0.0 && m >= 0.5 * (s - first) && s >= first + second && second >= 0.95 * first >= 0.0
    ensures m / s >= 0.24
  {
    assert m >= 0.24 * s;
    var q := m / s;
    assert q * s == m;
    assert q < 0.24 ==> q * s < 0.24 * s;
  }

  /** A setpoint is 0 W exactly when no rule fires, that is when an input leaves its range; low trust
      alone never gives 0. */
  lemma SetpointZeroIff(x: Inputs)
    ensures SetpointFor(x) == 0.0 <==> !InRange(x)
    ensures 0.0 <= SetpointFor(x) <= MAX_SP
  {
    hide Aggregated, RULES;
    DenominatorIff(x);
    if InRange(x) {
      InferBounds(x);
    } else {
      assert Infer(x) == 0.0;
      assert (0.0 * 10.0).Floor == 0;
    }
  }

  // ---------- the coordinator ----------

  /** What a node's latest reading says; a missing part takes its default. */
  datatype NodeReading = NodeReading(vBus: Option<real>, pBus: Option<real>, trust: Option<real>)
  {
    function Voltage(): real {
      if vBus.Some? then vBus.value else V_NOMINAL
    }

    function Power(): real {
      if pBus.Some? then pBus.value else 0.0
    }

    function Score(): real {
      if trust.Some? then trust.value else 1.0
    }
  }

  type Latest = seq<(string, NodeReading)>

  function Total(latest: Latest, part: NodeReading -> real): real {
    if latest == [] then 0.0 else Total(latest[..|latest| - 1], part) + part(latest[|latest| - 1].1)
  }

  /** The inputs for one node: the common voltage error and demand, and its own trust. */
  function InputsFor(latest: Latest, r: NodeReading): Inputs
    requires latest != []
  {
    Inputs(Total(latest, (n: NodeReading) => n.Voltage()) / |latest| as real - V_NOMINAL,
           Total(latest, (n: NodeReading) => n.Power()), r.Score())
  }

  predicate Distinct(latest: Latest) {
    forall i, j :: 0 <= i < j < |latest| ==> latest[i].0 != latest[j].0
  }

  /** The setpoints after the nodes of `done` have been served, in order. */
  function Assigned(before: map<string, real>, latest: Latest, done: Latest): map<string, real>
    requires done != [] ==> latest != []
  {
    if done == [] then before else
      var (node, reading) := done[|done| - 1];
      Assigned(before, latest, done[..|done| - 1])[node := SetpointFor(InputsFor(latest, reading))]
  }

  /** Every node with a reading gets the setpoint of its own trust under the common inputs, wherever
      it stands in the list; the others keep what they had. */
  lemma {:induction false} AssignedExactly(before: map<string, real>, latest: Latest, done: Latest)
    requires (done != [] ==> latest != []) && Distinct(done)
    ensures forall i :: 0 <= i < |done| ==>
              done[i].0 in Assigned(before, latest, done)
              && Assigned(before, latest, done)[done[i].0] == SetpointFor(InputsFor(latest, done[i].1))
    ensures forall n | forall i :: 0 <= i < |done| ==> done[i].0 != n ::
              (n in Assigned(before, latest, done) <==> n in before)
              && (n in before ==> Assigned(before, latest, done)[n] == before[n])
  {
    hide SetpointFor, InputsFor;
    if done != [] {
      var rest := done[..|done| - 1];
      AssignedExactly(before, latest, rest);
      assert forall i :: 0 <= i < |rest| ==> rest[i] == done[i];
    }
  }

  class EMSCoordinator {
    var setpoints: map<string, real>
    var updated: set<string>

    ghost predicate Valid()
      reads this
    {
      updated == setpoints.Keys && forall n | n in setpoints :: MIN_SP <= setpoints[n] <= MAX_SP
    }

    constructor ()
      ensures Valid() && setpoints == map[]
    {
      setpoints, updated := map[], {};
    }

    /** update */
    method Update(latest: Latest)
      requires Valid()
      modifies this
      ensures Valid() && setpoints == Assigned(old(setpoints), latest, latest)
    {
      if latest == [] {
        return;
      }
      hide SetpointFor, Infer, InputsFor;
      var vError, demand := CommonInputs(latest);
      assert latest[..0] == [];
      for k := 0 to |latest|
        invariant Valid() && setpoints == Assigned(old(setpoints), latest, latest[..k])
      {
        assert latest[..k + 1][..k] == latest[..k];
        var (node, reading) := latest[k];
        var sp := FuzzyInfer(Inputs(vError, demand, reading.Score()));
        sp := Clamped(sp, InputsFor(latest, reading));
        setpoints := setpoints[node := sp];
        updated := updated + {node};
      }
      assert latest[..|latest|] == latest;
    }

    /** get_setpoint */
    method GetSetpoint(node: string) returns (sp: Option<real>)
      requires Valid()
      ensures sp == if node in setpoints then Some(setpoints[node]) else None
    {
      if node !in updated {
        return None;
      }
      sp := Some(setpoints[node]);
    }
  }

  /** max(_MIN_SP, min(_MAX_SP, round(sp, 1))) */
  method Clamped(sp: real, ghost x: Inputs) returns (r: real)
    requires sp == Infer(x)
    ensures r == SetpointFor(x) && MIN_SP <= r <= MAX_SP
  {
    r := Clamp(Round1(sp));
  }

  method CommonInputs(latest: Latest) returns (vError: real, demand: real)
    requires latest != []
    ensures forall r :: InputsFor(latest, r) == Inputs(vError, demand, r.Score())
  {
    var vTotal := TotalOf(latest, (n: NodeReading) => n.Voltage());
    demand := TotalOf(latest, (n: NodeReading) => n.Power());
    vError := vTotal / |latest| as real - V_NOMINAL;
  }

  method TotalOf(latest: Latest, part: NodeReading -> real) returns (t: real)
    ensures t == Total(latest, part)
  {
    t := 0.0;
    for i := 0 to |latest|
      invariant t == Total(latest[..i], part)
    {
      assert latest[..i + 1][..i] == latest[..i];
      t := t + part(latest[i].1);
    }
    assert latest[..|latest|] == latest;
  }
}
