/**
  The trust score of one session: how events change it, and what it is after any run of exchanges.
 */
module Trust {
  import opened Options

  const INITIAL_SCORE: real := 0.8
  const DROP_THRESHOLD: real := 0.3
  const ANOMALY_THRESHOLD: real := 0.8  // volts from the median of the other nodes
  const ANOMALY_WINDOW: nat := 5

  datatype Trust = Trust(score: real, anomalies: nat)

  datatype TrustEvent = SecurityError | SensorAnomaly | SensorOk

  function NotNegative(x: real): real {
    if x < 0.0 then 0.0 else x
  }

  function Update(t: Trust, e: TrustEvent): Trust {
    match e
    case SecurityError => t.(score := NotNegative(t.score - 0.3))
    case SensorAnomaly =>
      if t.anomalies + 1 >= ANOMALY_WINDOW then Trust(NotNegative(t.score - 0.4), 0)
      else t.(anomalies := t.anomalies + 1)
    case SensorOk => t.(anomalies := 0)
  }

  /** What the text of a reading yields: nothing usable, a bus voltage that is not a number, or one
      that may be missing. */
  datatype Reading = Unparsable | NotANumber | Parsed(vBus: Option<real>)

  datatype Verdict = Unjudged | Normal | Anomalous

  function Judge(reading: Reading, median: Option<real>): Verdict {
    if !reading.Parsed? || median.None? then Unjudged else
      var v := if reading.vBus.Some? then reading.vBus.value else median.value;
      if v - median.value > ANOMALY_THRESHOLD || median.value - v > ANOMALY_THRESHOLD then Anomalous else Normal
  }

  /** Whether the reading gets as far as the data store, with the score of that moment: comparing a
      voltage that is not a number fails before that. */
  predicate Recorded(reading: Reading, median: Option<real>) {
    reading.Parsed? || (reading.NotANumber? && median.None?)
  }

  function AfterVerdict(t: Trust, v: Verdict): Trust {
    match v
    case Unjudged => t
    case Normal => Update(t, SensorOk)
    case Anomalous => Update(t, SensorAnomaly)
  }

  /** One data message as the trust score sees it: the verdict on its reading, whether the reading was
      stored, and whether handling it ended in an error. */
  datatype Exchange = Exchange(verdict: Verdict, stored: bool, failed: bool)

  datatype Standing = Standing(trust: Trust, active: bool)

  const START := Standing(Trust(INITIAL_SCORE, 0), true)

  function Step(s: Standing, x: Exchange): Standing {
    if !s.active then s else
      var t := AfterVerdict(s.trust, x.verdict);
      if x.failed then Standing(Update(t, SecurityError), false) else Standing(t, t.score >= DROP_THRESHOLD)
  }

  function Run(xs: seq<Exchange>): Standing {
    if xs == [] then START else Step(Run(xs[..|xs| - 1]), xs[|xs| - 1])
  }

  // ---------- an account of the run that keeps no counter ----------

  /** The exchanges that were handled before the session ended. */
  function Handled(xs: seq<Exchange>): seq<Exchange> {
    if xs == [] then [] else
      var before := xs[..|xs| - 1];
      if Run(before).active then xs else Handled(before)
  }

  /** The lengths of the stretches of anomalous readings between normal ones; an unjudged reading
      neither lengthens a stretch nor ends it. */
  function Stretches(xs: seq<Exchange>): (lengths: seq<nat>)
    ensures lengths != []
  {
    if xs == [] then [0] else
      var before, last := Stretches(xs[..|xs| - 1]), xs[|xs| - 1].verdict;
      match last
      case Unjudged => before
      case Normal => before + [0]
      case Anomalous => before[..|before| - 1] + [before[|before| - 1] + 1]
  }

  function Fifths(lengths: seq<nat>): nat {
    if lengths == [] then 0 else Fifths(lengths[..|lengths| - 1]) + lengths[|lengths| - 1] / ANOMALY_WINDOW
  }

  /** How many disjoint windows of five anomalous readings fit in the stretches. */
  function Windows(xs: seq<Exchange>): nat {
    Fifths(Stretches(xs))
  }

  predicate AnyFailed(xs: seq<Exchange>) {
    exists i :: 0 <= i < |xs| && xs[i].failed
  }

  function Penalised(windows: nat): real {
    NotNegative(INITIAL_SCORE - 0.4 * windows as real)
  }

  /** The account of a run: the score is 0.8 less 0.4 for every window, and 0.3 less again if the
      session ended in an error; it is still active exactly when there was no error and at most one
      window; the counter is what is left of the last stretch. */
  predicate Accounts(h: seq<Exchange>, s: Standing) {
    && s.active == (!AnyFailed(h) && Windows(h) <= 1)
    && Windows(h) <= 2
    && s.trust.score == (if AnyFailed(h) then NotNegative(Penalised(Windows(h)) - 0.3) else Penalised(Windows(h)))
    && s.trust.anomalies == Stretches(h)[|Stretches(h)| - 1] % ANOMALY_WINDOW
  }

  /** After any sequence of exchanges the standing is the one the account gives for those handled,
      which are the first few, with no error before the last of them. */
  lemma {:induction false} TrustLaw(xs: seq<Exchange>)
    ensures Handled(xs) <= xs && Run(xs) == Run(Handled(xs)) && Accounts(Handled(xs), Run(xs))
    ensures forall i :: 0 <= i < |Handled(xs)| - 1 ==> !Handled(xs)[i].failed
  {
    hide Accounts, Step;
    if xs == [] {
      AccountsStart();
    } else {
      var before, last := xs[..|xs| - 1], xs[|xs| - 1];
      TrustLaw(before);
      if Run(before).active {
        ActiveHandlesAll(before);
        assert before + [last] == xs;
        AccountsStep(before, Run(before), last);
        NoneFailed(before, Run(before));
      } else {
        StepEnded(Run(before), last);
      }
    }
  }

  lemma AccountsStart()
    ensures Accounts([], START)
  {
    assert [0][..0] == [];
    assert Fifths([0]) == Fifths([]) + 0 / ANOMALY_WINDOW;
  }

  lemma NoneFailed(h: seq<Exchange>, s: Standing)
    requires Accounts(h, s) && s.active
    ensures forall i :: 0 <= i < |h| ==> !h[i].failed
  {
  }

  lemma StepEnded(s: Standing, x: Exchange)
    requires !s.active
    ensures Step(s, x) == s
  {
  }

  lemma AccountsStep(h: seq<Exchange>, s: Standing, x: Exchange)
    requires Accounts(h, s) && s.active
    ensures Accounts(h + [x], Step(s, x))
  {
    WindowsStep(h, x);
    OneMore(h, x);
    var st := Stretches(h);
    StepLaw(Windows(h), st[|st| - 1], x);
    assert s == Standing(Trust(Penalised(Windows(h)), st[|st| - 1] % ANOMALY_WINDOW), true);
    hide Step, Penalised, NotNegative, Stretches, Windows, AnyFailed;
  }

  /** One exchange of an active session that has seen `w` windows and `n` anomalies since. */
  lemma StepLaw(w: nat, n: nat, x: Exchange)
    requires w <= 1
    ensures var s := Step(Standing(Trust(Penalised(w), n % ANOMALY_WINDOW), true), x);
            var now := if x.verdict.Anomalous? && (n + 1) % 5 == 0 then w + 1 else w;
            var since := match x.verdict case Unjudged => n case Normal => 0 case Anomalous => n + 1;
            && s.active == (!x.failed && now <= 1)
            && s.trust.score == (if x.failed then NotNegative(Penalised(now) - 0.3) else Penalised(now))
            && s.trust.anomalies == since % ANOMALY_WINDOW
  {
    assert Penalised(0) == 0.8 && Penalised(1) == 0.4 && Penalised(2) == 0.0;
    NextFifth(n);
  }

  lemma NextFifth(n: nat)
    ensures (n + 1) % 5 == if n % 5 == 4 then 0 else n % 5 + 1
  {
  }

  lemma OneMore(xs: seq<Exchange>, x: Exchange)
    ensures AnyFailed(xs + [x]) == (AnyFailed(xs) || x.failed)
  {
    if AnyFailed(xs) {
      var i :| 0 <= i < |xs| && xs[i].failed;
      assert (xs + [x])[i].failed;
    }
    assert (xs + [x])[|xs|] == x;
  }

  lemma {:induction false} ActiveHandlesAll(xs: seq<Exchange>)
    requires Run(xs).active
    ensures Handled(xs) == xs
  {
    if xs != [] {
      assert Run(xs[..|xs| - 1]).active;
    }
  }

  lemma WindowsStep(xs: seq<Exchange>, x: Exchange)
    ensures var now, was := Stretches(xs + [x]), Stretches(xs);
            var n := was[|was| - 1];
            match x.verdict
            case Unjudged => now[|now| - 1] == n && Windows(xs + [x]) == Windows(xs)
            case Normal => now[|now| - 1] == 0 && Windows(xs + [x]) == Windows(xs)
            case Anomalous =>
              now[|now| - 1] == n + 1 && Windows(xs + [x]) == Windows(xs) + (if (n + 1) % 5 == 0 then 1 else 0)
  {
    var all, was := xs + [x], Stretches(xs);
    assert all[..|all| - 1] == xs && all[|all| - 1] == x;
    var front, n := was[..|was| - 1], was[|was| - 1];
    assert was == front + [n];
    hide Fifths;
    FifthsOf(front, n);
    FifthsOf(front, n + 1);
    FifthsOf(was, 0);
    NextWindow(n);
  }

  lemma FifthsOf(front: seq<nat>, n: nat)
    ensures Fifths(front + [n]) == Fifths(front) + n / ANOMALY_WINDOW
  {
    assert (front + [n])[..|front|] == front;
  }

  lemma NextWindow(n: nat)
    ensures (n + 1) / ANOMALY_WINDOW == n / ANOMALY_WINDOW + if (n + 1) % 5 == 0 then 1 else 0
    ensures 0 / ANOMALY_WINDOW == 0
  {
  }

  /** While it is active a session's score is 0.8 or 0.4, and its count of anomalies below five. */
  lemma ActiveScores(xs: seq<Exchange>)
    requires Run(xs).active
    ensures Run(xs).trust.score in {0.8, 0.4} && Run(xs).trust.anomalies < ANOMALY_WINDOW
  {
    TrustLaw(xs);
    var w := Windows(Handled(xs));
    assert w == 0 || w == 1;
  }

  /** The score never rises within a session, and what ended stays ended. */
  lemma {:induction false} NeverRises(xs: seq<Exchange>, more: seq<Exchange>)
    ensures 0.0 <= Run(xs + more).trust.score <= Run(xs).trust.score
    ensures !Run(xs).active ==> Run(xs + more) == Run(xs)
  {
    if more == [] {
      assert xs + more == xs;
      NonNegative(xs);
    } else {
      var all := xs + more;
      assert all[..|all| - 1] == xs + more[..|more| - 1];
      NeverRises(xs, more[..|more| - 1]);
    }
  }

  lemma {:induction false} NonNegative(xs: seq<Exchange>)
    ensures Run(xs).trust.score >= 0.0
  {
    if xs != [] {
      NonNegative(xs[..|xs| - 1]);
    }
  }

  // ---------- the score that others read ----------

  /** The score stored with the latest reading, which is the one the energy coordinator works with.
      It is taken after the verdict and before anything can fail. */
  function StoredScore(xs: seq<Exchange>): Option<real> {
    if xs == [] then None else
      var before, last := xs[..|xs| - 1], xs[|xs| - 1];
      if Run(before).active && last.stored then Some(AfterVerdict(Run(before).trust, last.verdict).score)
      else StoredScore(before)
  }

  /** Only stored readings have been judged. */
  predicate Genuine(xs: seq<Exchange>) {
    forall i :: 0 <= i < |xs| && !xs[i].verdict.Unjudged? ==> xs[i].stored
  }

  predicate AnyStored(xs: seq<Exchange>) {
    exists i :: 0 <= i < |xs| && xs[i].stored
  }

  /** After any run, errors included, the stored score is what the windows so far leave of 0.8: the
      penalty of an error is in the session's own score only.  The two agree if and only if there was
      no error, or nothing was left to lose. */
  lemma StoredScoreLaw(xs: seq<Exchange>)
    requires Genuine(xs)
    ensures var h := Handled(xs);
            && StoredScore(xs) == (if AnyStored(h) then Some(Penalised(Windows(h))) else None)
            && (AnyStored(h) ==> StoredScore(xs).value in {0.8, 0.4, 0.0})
            && (AnyStored(h) ==> (StoredScore(xs).value == Run(xs).trust.score <==> !AnyFailed(h) || Windows(h) == 2))
  {
    StoredIsPenalised(xs);
    TrustLaw(xs);
    var w := Windows(Handled(xs));
    assert Penalised(0) == 0.8 && Penalised(1) == 0.4 && Penalised(2) == 0.0;
    assert w == 0 || w == 1 || w == 2;
  }

  lemma {:induction false} StoredIsPenalised(xs: seq<Exchange>)
    requires Genuine(xs)
    ensures StoredScore(xs) == if AnyStored(Handled(xs)) then Some(Penalised(Windows(Handled(xs)))) else None
    ensures !AnyStored(Handled(xs)) ==> Windows(Handled(xs)) == 0
  {
    hide Accounts, Step, Penalised, Windows, AfterVerdict, AnyStored;
    if xs == [] {
      NothingStored();
    } else {
      var before, last := xs[..|xs| - 1], xs[|xs| - 1];
      StoredIsPenalised(before);
      if Run(before).active {
        TrustLaw(before);
        ActiveHandlesAll(before);
        assert before + [last] == xs;
        StoredStep(before, last);
      }
    }
  }

  lemma NothingStored()
    ensures !AnyStored([]) && Windows([]) == 0
  {
    AccountsStart();
    assert Fifths([0]) == Fifths([0][..0]) + 0 / ANOMALY_WINDOW;
  }

  /** One more exchange of an active session: its verdict counts at once, its failure does not. */
  lemma StoredStep(h: seq<Exchange>, x: Exchange)
    requires Accounts(h, Run(h)) && Run(h).active && (!x.verdict.Unjudged? ==> x.stored)
    ensures AfterVerdict(Run(h).trust, x.verdict).score == Penalised(Windows(h + [x]))
    ensures !x.stored ==> Windows(h + [x]) == Windows(h)
    ensures AnyStored(h + [x]) == (AnyStored(h) || x.stored)
  {
    WindowsStep(h, x);
    var st := Stretches(h);
    StepLaw(Windows(h), st[|st| - 1], x.(failed := false));
    assert Run(h) == Standing(Trust(Penalised(Windows(h)), st[|st| - 1] % ANOMALY_WINDOW), true);
    assert (h + [x])[|h|] == x && forall i :: 0 <= i < |h| ==> (h + [x])[i] == h[i];
    hide Penalised, NotNegative, Stretches, Windows;
  }

  /** So a failure never reaches what others read: the stored score is the one there would be without it. */
  lemma FailureIsNotStored(xs: seq<Exchange>, x: Exchange)
    ensures StoredScore(xs + [x]) == StoredScore(xs + [x.(failed := false)])
  {
    var failed, fine := xs + [x], xs + [x.(failed := false)];
    assert failed[..|failed| - 1] == xs && fine[..|fine| - 1] == xs;
  }

  /** A session that stored one good reading and then failed stands at 0.5; others still read 0.8. */
  lemma FailureGoesUnread()
    ensures var xs := [Exchange(Normal, true, false), Exchange(Unjudged, false, true)];
            Genuine(xs) && Run(xs).trust.score == 0.5 && StoredScore(xs) == Some(0.8)
  {
    var first, second := Exchange(Normal, true, false), Exchange(Unjudged, false, true);
    var xs := [first, second];
    assert xs[..1] == [first] && [first][..0] == [];
    assert Run([first]) == START;
  }

  // ---------- what counts against a node ----------

  /** A reading counts against a node exactly if it reports a voltage more than 0.8 V away from a median;
      it clears the count exactly if there is a median and it does not; it is stored unless it cannot be
      read, or its voltage is no number and has to be compared. */
  lemma VerdictIs(reading: Reading, median: Option<real>)
    ensures Judge(reading, median) == Anomalous <==>
              && reading.Parsed? && reading.vBus.Some? && median.Some?
              && (reading.vBus.value > median.value + 0.8 || reading.vBus.value < median.value - 0.8)
    ensures Judge(reading, median) == Unjudged <==> !reading.Parsed? || median.None?
    ensures Recorded(reading, median) <==> !reading.Unparsable? && (reading.NotANumber? ==> median.None?)
  {
  }

  /** A node that stays within 0.8 V of the others, or has nobody to be compared with, keeps its trust for
      as long as nothing fails. */
  lemma {:induction false} SteadyNode(xs: seq<Exchange>)
    requires forall i :: 0 <= i < |xs| ==> !xs[i].verdict.Anomalous? && !xs[i].failed
    ensures Run(xs) == Standing(Trust(0.8, 0), true)
  {
    if xs != [] {
      SteadyNode(xs[..|xs| - 1]);
    }
  }

  /** Five readings in a row that count against a node cost it half of its trust, and ten end the session. */
  lemma {:induction false} AnomalousNode(xs: seq<Exchange>)
    requires |xs| <= 10 && forall i :: 0 <= i < |xs| ==> xs[i].verdict.Anomalous? && !xs[i].failed
    ensures Run(xs).trust.score == if |xs| < 5 then 0.8 else if |xs| < 10 then 0.4 else 0.0
    ensures Run(xs).active <==> |xs| < 10
    ensures Run(xs).trust.anomalies == |xs| % 5
  {
    if xs != [] {
      AnomalousNode(xs[..|xs| - 1]);
    }
  }
}
