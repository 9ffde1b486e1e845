// What the camera logger guarantees over whole runs: exactly one row for every camera stamp,
// and valid rows that agree with the unbounded pose histories.
module LoggerRuns {
  import opened Outcomes
  import opened PoseBuffer
  import opened CameraLogger

  // ---------- what a run received ----------

  function Stamps(es: seq<Event>): seq<int> {
    if es == [] then []
    else
      var init, e := Stamps(es[..|es| - 1]), es[|es| - 1];
      if e.Camera? then init + [e.stamp] else init
  }

  function RawPoses(es: seq<Event>): seq<Pose> {
    if es == [] then []
    else
      var init, e := RawPoses(es[..|es| - 1]), es[|es| - 1];
      if e.RawOdometry? then init + [e.pose] else init
  }

  function Corrections(es: seq<Event>): seq<Pose> {
    if es == [] then []
    else
      var init, e := Corrections(es[..|es| - 1]), es[|es| - 1];
      if e.Correction? then init + [e.pose] else init
  }

  lemma BufferExtends(received: seq<Pose>, p: Pose, window: nat)
    ensures Buffer(received + [p], window) == Pruned(Inserted(Buffer(received, window), p), window)
  {
    assert (received + [p])[..|received|] == received;
  }

  lemma StepBuffers(g: Settings, s: Logger, e: Event)
    ensures Step(g, s, e).inputs == Received(g, s, e).inputs
    ensures Step(g, s, e).inputs.raw
         == if e.RawOdometry? then Pruned(Inserted(s.inputs.raw, e.pose), g.window) else s.inputs.raw
    ensures Step(g, s, e).inputs.corrections
         == if e.Correction? then Pruned(Inserted(s.inputs.corrections, e.pose), g.window) else s.inputs.corrections
  {
  }

  lemma {:induction false} RunRaw(g: Settings, es: seq<Event>)
    ensures Run(g, es).inputs.raw == Buffer(RawPoses(es), g.window)
  {
    if es != [] {
      var init, e := es[..|es| - 1], es[|es| - 1];
      RunRaw(g, init);
      StepBuffers(g, Run(g, init), e);
      if e.RawOdometry? { BufferExtends(RawPoses(init), e.pose, g.window); }
    }
  }

  lemma {:induction false} RunCorrections(g: Settings, es: seq<Event>)
    ensures Run(g, es).inputs.corrections == Buffer(Corrections(es), g.window)
  {
    if es != [] {
      var init, e := es[..|es| - 1], es[|es| - 1];
      RunCorrections(g, init);
      StepBuffers(g, Run(g, init), e);
      if e.Correction? { BufferExtends(Corrections(init), e.pose, g.window); }
    }
  }

  lemma RunSorted(g: Settings, es: seq<Event>)
    ensures Sorted(Run(g, es).inputs.raw) && Sorted(Run(g, es).inputs.corrections)
  {
    RunRaw(g, es);
    RunCorrections(g, es);
    BufferIsWindow(RawPoses(es), g.window);
    BufferIsWindow(Corrections(es), g.window);
  }

  function Statuses(es: seq<Event>): seq<bool> {
    if es == [] then []
    else
      var init, e := Statuses(es[..|es| - 1]), es[|es| - 1];
      if e.Status? then init + [e.ready] else init
  }

  // The logger remembers whether a status has come, and the last one.
  lemma {:induction false} StatusIsLatest(g: Settings, es: seq<Event>)
    ensures Run(g, es).inputs.seen <==> Statuses(es) != []
    ensures Run(g, es).inputs.ready <==> Statuses(es) != [] && Statuses(es)[|Statuses(es)| - 1]
  {
    if es != [] {
      var init, e := es[..|es| - 1], es[|es| - 1];
      StatusIsLatest(g, init);
      StepStatus(g, Run(g, init), e);
    }
  }

  lemma StepStatus(g: Settings, s: Logger, e: Event)
    ensures Step(g, s, e).inputs.seen == (s.inputs.seen || e.Status?)
    ensures Step(g, s, e).inputs.ready == if e.Status? then e.ready else s.inputs.ready
  {
  }

  // ---------- decisions ----------

  // The missing-correction row cannot be written: a stamp that gets that far is not older than
  // the oldest correction.
  lemma MissingIsUnreachable(g: Settings, b: Inputs, stamp: int, force: bool)
    requires Sorted(b.corrections)
    ensures Decide(g, b, stamp, force) != Some(Invalid(MissingMapToOdom))
  {
    LowerBoundSplits(b.corrections, stamp + 1);
  }

  // A stamp waits only for poses that can still come; then every later stamp waits too, so the
  // queue never holds back a row that could be written.
  lemma NothingIsHeldBack(g: Settings, b: Inputs, stamp: int, later: int)
    requires Sorted(b.raw) && stamp <= later && Decide(g, b, stamp, false).None?
    ensures Decide(g, b, later, false).None?
  {
    LowerBoundSplits(b.raw, stamp);
    LowerBoundSplits(b.raw, later);
  }

  function Front(s: seq<Pose>): int
    requires s != []
  {
    s[0].stamp
  }

  predicate InWindow(received: seq<Pose>, window: nat, stamp: int) {
    History(received) == [] || Cutoff(History(received), window) <= stamp
  }

  lemma SameDecision(g: Settings, a: Inputs, b: Inputs, stamp: int, force: bool)
    requires a.seen == b.seen && a.ready == b.ready
    requires Bracket(a.raw, stamp) == Bracket(b.raw, stamp)
    requires Causal(a.corrections, stamp) == Causal(b.corrections, stamp)
    requires (a.raw == [] <==> b.raw == []) && (a.corrections == [] <==> b.corrections == [])
    requires a.raw != [] ==> a.raw[|a.raw| - 1] == b.raw[|b.raw| - 1]
    requires a.corrections != [] ==> (stamp < Front(a.corrections) <==> stamp < Front(b.corrections))
    ensures Decide(g, a, stamp, force) == Decide(g, b, stamp, force)
  {
  }

  lemma WindowFront(s: seq<Pose>, window: nat, stamp: int)
    requires Sorted(s) && s != [] && Cutoff(s, window) <= stamp
    ensures Window(s, window) != []
    ensures stamp < Front(Window(s, window)) <==> stamp < Front(s)
    ensures Window(s, window)[|Window(s, window)| - 1] == s[|s| - 1]
  {
    LowerBoundSplits(s, Cutoff(s, window));
  }

  // The two queries and the ends of one buffer, in its window.
  lemma BufferView(received: seq<Pose>, window: nat, stamp: int, b: seq<Pose>, h: seq<Pose>)
    requires b == Buffer(received, window) && h == History(received) && InWindow(received, window, stamp)
    ensures Bracket(b, stamp) == Bracket(h, stamp) && Causal(b, stamp) == Causal(h, stamp)
    ensures b == [] <==> h == []
    ensures h != [] ==> b[|b| - 1] == h[|h| - 1] && (stamp < Front(b) <==> stamp < Front(h))
  {
    BufferIsWindow(received, window);
    if h != [] {
      PrunedAnswersLikeHistory(received, window, stamp);
      WindowFront(h, window, stamp);
    }
  }

  // From both cutoffs on, the pruned buffers lead to the same row as the unbounded histories.
  lemma DecisionNeedsNoHistory(g: Settings, raw: seq<Pose>, corrections: seq<Pose>, seen: bool, ready: bool,
                               stamp: int, force: bool)
    requires InWindow(raw, g.window, stamp) && InWindow(corrections, g.window, stamp)
    ensures Decide(g, Inputs(Buffer(raw, g.window), Buffer(corrections, g.window), seen, ready), stamp, force)
         == Decide(g, Inputs(History(raw), History(corrections), seen, ready), stamp, force)
  {
    var a := Inputs(Buffer(raw, g.window), Buffer(corrections, g.window), seen, ready);
    var b := Inputs(History(raw), History(corrections), seen, ready);
    BufferView(raw, g.window, stamp, a.raw, b.raw);
    BufferView(corrections, g.window, stamp, a.corrections, b.corrections);
    SameDecision(g, a, b, stamp, force);
  }

  // ---------- exactly one row for each stamp ----------

  function RowStamps(rows: seq<Row>): seq<int> {
    seq(|rows|, i requires 0 <= i < |rows| => rows[i].stamp)
  }

  // A drain turns a prefix of the queue into rows, in order.
  lemma {:induction false} DrainedConserves(g: Settings, b: Inputs, pending: seq<int>, force: bool)
    ensures var d := Drained(g, b, pending, force);
            RowStamps(d.0) + d.1 == pending
  {
    if pending != [] && Decide(g, b, pending[0], force).Some? {
      DrainedConserves(g, b, pending[1..], force);
      var rest := Drained(g, b, pending[1..], force);
      var v := Decide(g, b, pending[0], force).value;
      assert RowStamps([Row(pending[0], v)] + rest.0) == [pending[0]] + RowStamps(rest.0);
      assert pending == [pending[0]] + pending[1..];
    }
  }

  // Each row is the decision on its stamp; a drain stops only at a stamp that waits.
  lemma {:induction false} DrainedDecides(g: Settings, b: Inputs, pending: seq<int>, force: bool)
    ensures var d := Drained(g, b, pending, force);
            && (forall i :: 0 <= i < |d.0| ==> Decide(g, b, d.0[i].stamp, force) == Some(d.0[i].verdict))
            && (d.1 != [] ==> Decide(g, b, d.1[0], force).None?)
  {
    if pending != [] && Decide(g, b, pending[0], force).Some? {
      DrainedDecides(g, b, pending[1..], force);
    }
  }

  lemma QueuedMembers(pending: seq<int>, t: int)
    ensures multiset(Queued(pending, t)) == multiset(pending) + multiset{t}
  {
    var i := Position(pending, t);
    assert pending == pending[..i] + pending[i..];
  }

  lemma DrainConserves(g: Settings, s: Logger, force: bool)
    ensures var t := Drain(g, s, force);
            multiset(RowStamps(t.rows)) + multiset(t.pending) == multiset(RowStamps(s.rows)) + multiset(s.pending)
  {
    var d := Drained(g, s.inputs, s.pending, force);
    DrainedConserves(g, s.inputs, s.pending, force);
    assert RowStamps(s.rows + d.0) == RowStamps(s.rows) + RowStamps(d.0);
    assert multiset(s.pending) == multiset(RowStamps(d.0)) + multiset(d.1);
  }

  // Main result: at all times the stamps received are those of the rows and those still pending,
  // each as often as it was received.
  lemma {:induction false} EveryStampOnce(g: Settings, es: seq<Event>)
    ensures var s := Run(g, es);
            multiset(RowStamps(s.rows)) + multiset(s.pending) == multiset(Stamps(es))
  {
    if es != [] {
      var init, e := es[..|es| - 1], es[|es| - 1];
      EveryStampOnce(g, init);
      var s := Run(g, init);
      if e.Camera? { QueuedMembers(s.pending, e.stamp); }
      DrainConserves(g, Received(g, s, e), false);
    }
  }

  // ---------- nothing decidable waits ----------

  predicate Ordered(ts: seq<int>) {
    forall i, j :: 0 <= i < j < |ts| ==> ts[i] <= ts[j]
  }

  lemma {:induction false} PositionSplits(ts: seq<int>, t: int)
    requires Ordered(ts)
    ensures forall i :: 0 <= i < Position(ts, t) ==> ts[i] <= t
    ensures forall i :: Position(ts, t) <= i < |ts| ==> ts[i] > t
  {
    if ts != [] && ts[0] <= t {
      PositionSplits(ts[1..], t);
      forall i | 0 <= i < |ts|
        ensures i < Position(ts, t) ==> ts[i] <= t
        ensures Position(ts, t) <= i ==> ts[i] > t
      {
        if i > 0 { assert ts[i] == ts[1..][i - 1]; }
      }
    }
  }

  lemma QueuedOrdered(ts: seq<int>, t: int)
    requires Ordered(ts)
    ensures Ordered(Queued(ts, t))
  {
    PositionSplits(ts, t);
  }

  lemma DrainOrdered(g: Settings, s: Logger, force: bool)
    requires Ordered(s.pending)
    ensures Ordered(Drain(g, s, force).pending)
  {
    var d := Drained(g, s.inputs, s.pending, force);
    DrainedConserves(g, s.inputs, s.pending, force);
    assert s.pending[|d.0|..] == d.1;
  }

  lemma {:induction false} PendingOrdered(g: Settings, es: seq<Event>)
    ensures Ordered(Run(g, es).pending)
  {
    if es != [] {
      var s, e := Run(g, es[..|es| - 1]), es[|es| - 1];
      PendingOrdered(g, es[..|es| - 1]);
      if e.Camera? { QueuedOrdered(s.pending, e.stamp); }
      DrainOrdered(g, Received(g, s, e), false);
    }
  }

  lemma StepStops(g: Settings, s: Logger, e: Event)
    ensures var t := Step(g, s, e);
            t.pending != [] ==> Decide(g, t.inputs, t.pending[0], false).None?
  {
    var r := Received(g, s, e);
    DrainedDecides(g, r.inputs, r.pending, false);
  }

  // Main result: after every event each stamp still pending really has to wait.
  lemma PendingMustWait(g: Settings, es: seq<Event>, i: nat)
    requires i < |Run(g, es).pending|
    ensures Decide(g, Run(g, es).inputs, Run(g, es).pending[i], false).None?
  {
    var s := Run(g, es);
    StepStops(g, Run(g, es[..|es| - 1]), es[|es| - 1]);
    PendingOrdered(g, es);
    RunSorted(g, es);
    assert s.pending[0] <= s.pending[i];
    NothingIsHeldBack(g, s.inputs, s.pending[0], s.pending[i]);
  }

  // ---------- the counters ----------

  predicate Has(v: Verdict, r: Reason) { v == Invalid(r) }

  function Count(rows: seq<Row>, r: Reason): nat {
    if rows == [] then 0
    else Count(rows[..|rows| - 1], r) + if Has(rows[|rows| - 1].verdict, r) then 1 else 0
  }

  predicate Balanced(s: Logger) {
    var t := s.tally;
    && t.total == |s.rows| == t.valid + t.invalid
    && t.invalid == t.notReady + t.gap + t.missing
    && t.notReady == Count(s.rows, AlignmentNotReady)
    && t.gap == Count(s.rows, InterpolationGap)
    && t.missing == 0 == Count(s.rows, MissingMapToOdom)
    && t.received == |s.rows| + |s.pending|
  }

  lemma {:induction false} DrainBalances(g: Settings, s: Logger, force: bool)
    requires Balanced(s) && Sorted(s.inputs.corrections)
    ensures Balanced(Drain(g, s, force))
    decreases |s.pending|
  {
    if s.pending != [] && Decide(g, s.inputs, s.pending[0], force).Some? {
      var v := Decide(g, s.inputs, s.pending[0], force).value;
      var row := Row(s.pending[0], v);
      MissingIsUnreachable(g, s.inputs, s.pending[0], force);
      assert (s.rows + [row])[..|s.rows|] == s.rows;
      DrainBalances(g, Logger(s.inputs, s.pending[1..], s.rows + [row], Tallied(s.tally, v)), force);
      DrainOne(g, s, force);
    } else {
      assert s.rows + [] == s.rows;
    }
  }

  lemma StepBalances(g: Settings, s: Logger, e: Event)
    requires Balanced(s) && Sorted(Step(g, s, e).inputs.corrections)
    ensures Balanced(Step(g, s, e))
    ensures Step(g, s, e).tally.received == s.tally.received + if e.Camera? then 1 else 0
  {
    var r := Received(g, s, e);
    DrainBalances(g, r, false);
    DrainKeepsReceived(g, r, false);
  }

  // Main result: received = rows + pending, rows = valid + the reason counts, and the
  // missing-correction count stays zero.
  lemma {:induction false} CountersBalance(g: Settings, es: seq<Event>)
    ensures Balanced(Run(g, es)) && Run(g, es).tally.received == |Stamps(es)|
  {
    if es != [] {
      var init, e := es[..|es| - 1], es[|es| - 1];
      CountersBalance(g, init);
      RunSorted(g, es);
      StepBalances(g, Run(g, init), e);
    }
  }

  lemma {:induction false} TalliedAllKeepsReceived(t: Tally, rows: seq<Row>)
    ensures TalliedAll(t, rows).received == t.received
    decreases |rows|
  {
    if rows != [] { TalliedAllKeepsReceived(Tallied(t, rows[0].verdict), rows[1..]); }
  }

  lemma DrainKeepsReceived(g: Settings, s: Logger, force: bool)
    ensures Drain(g, s, force).tally.received == s.tally.received
  {
    TalliedAllKeepsReceived(s.tally, Drained(g, s.inputs, s.pending, force).0);
  }

  // ---------- valid rows ----------

  // The row uses the raw poses around its stamp and the newest correction not after it, as the
  // unbounded histories of these events give them.
  predicate Justified(g: Settings, es: seq<Event>, row: Row) {
    && row.verdict.Valid?
    && Bracket(History(RawPoses(es)), row.stamp) == Some((row.verdict.before, row.verdict.after))
    && Causal(History(Corrections(es)), row.stamp) == Some(row.verdict.correction)
    && row.verdict.after.stamp - row.verdict.before.stamp <= g.gap
  }

  // Row i was written by the last of these first n events.
  predicate WrittenAt(g: Settings, es: seq<Event>, n: nat, i: nat) {
    0 < n <= |es| && |Run(g, es[..n - 1]).rows| <= i < |Run(g, es[..n]).rows|
  }

  // A query that finds something in the pruned buffer finds the same in the history.
  lemma FoundInHistory(received: seq<Pose>, window: nat, stamp: int)
    ensures Bracket(Buffer(received, window), stamp).Some? ==>
              Bracket(Buffer(received, window), stamp) == Bracket(History(received), stamp)
    ensures Causal(Buffer(received, window), stamp).Some? ==>
              Causal(Buffer(received, window), stamp) == Causal(History(received), stamp)
  {
    BufferIsWindow(received, window);
    var b := Buffer(received, window);
    if b != [] && b[0].stamp <= stamp {
      PrunedAnswersLikeHistory(received, window, stamp);
    } else {
      LowerBoundSplits(b, stamp);
      LowerBoundSplits(b, stamp + 1);
    }
  }

  lemma DecisionJustified(g: Settings, es: seq<Event>, b: Inputs, stamp: int, force: bool)
    requires b.raw == Buffer(RawPoses(es), g.window) && b.corrections == Buffer(Corrections(es), g.window)
    ensures var v := Decide(g, b, stamp, force);
            v.Some? && v.value.Valid? ==> Justified(g, es, Row(stamp, v.value))
  {
    FoundInHistory(RawPoses(es), g.window, stamp);
    FoundInHistory(Corrections(es), g.window, stamp);
  }

  // A row a step adds is the decision on its stamp.
  lemma StepRows(g: Settings, s: Logger, e: Event, i: nat)
    requires i < |Step(g, s, e).rows|
    ensures var t := Step(g, s, e);
            if i < |s.rows| then t.rows[i] == s.rows[i]
            else Decide(g, t.inputs, t.rows[i].stamp, false) == Some(t.rows[i].verdict)
  {
    var r := Received(g, s, e);
    var d := Drained(g, r.inputs, r.pending, false);
    DrainedDecides(g, r.inputs, r.pending, false);
    if i >= |s.rows| { assert Step(g, s, e).rows[i] == d.0[i - |s.rows|]; }
  }

  // Every valid row is justified by the histories of the events up to the one that wrote it.
  lemma {:induction false} WrittenRowsAreJustified(g: Settings, es: seq<Event>, i: nat)
    requires i < |Run(g, es).rows| && Run(g, es).rows[i].verdict.Valid?
    ensures exists n: nat :: WrittenAt(g, es, n, i) && Justified(g, es[..n], Run(g, es).rows[i])
  {
    var init := es[..|es| - 1];
    var s, t := Run(g, init), Run(g, es);
    StepRows(g, s, es[|es| - 1], i);
    if i < |s.rows| {
      WrittenRowsAreJustified(g, init, i);
      var n: nat :| WrittenAt(g, init, n, i) && Justified(g, init[..n], s.rows[i]);
      WrittenBefore(g, es, n, i);
    } else {
      RunRaw(g, es);
      RunCorrections(g, es);
      DecisionJustified(g, es, t.inputs, t.rows[i].stamp, false);
      assert es[..|es|] == es;
      assert WrittenAt(g, es, |es|, i);
    }
  }

  lemma WrittenBefore(g: Settings, es: seq<Event>, n: nat, i: nat)
    requires es != [] && WrittenAt(g, es[..|es| - 1], n, i)
    ensures WrittenAt(g, es, n, i) && es[..n] == es[..|es| - 1][..n]
  {
    assert es[..n] == es[..|es| - 1][..n] && es[..n - 1] == es[..|es| - 1][..n - 1];
  }

  // The drain at destruction only writes stamps that had to wait, so it writes no valid row.
  lemma ForcedRowsAreInvalid(g: Settings, es: seq<Event>, i: nat)
    requires |Run(g, es).rows| <= i < |Drain(g, Run(g, es), true).rows|
    ensures Drain(g, Run(g, es), true).rows[i].verdict.Invalid?
  {
    var s := Run(g, es);
    var d, k := Drained(g, s.inputs, s.pending, true), i - |s.rows|;
    DrainedConserves(g, s.inputs, s.pending, true);
    DrainedDecides(g, s.inputs, s.pending, true);
    assert s.pending[k] == RowStamps(d.0)[k];
    PendingMustWait(g, es, k);
    WaitingIsInvalid(g, s.inputs, s.pending[k]);
  }

  lemma WaitingIsInvalid(g: Settings, b: Inputs, stamp: int)
    requires Decide(g, b, stamp, false).None?
    ensures Decide(g, b, stamp, true).Some? && Decide(g, b, stamp, true).value.Invalid?
  {
  }

  // Main result: in the finished log every valid row was written by some event, and the poses it
  // shows are those that the unbounded histories gave at that event.
  lemma ValidRowsAreJustified(g: Settings, es: seq<Event>, i: nat)
    requires i < |Drain(g, Run(g, es), true).rows| && Drain(g, Run(g, es), true).rows[i].verdict.Valid?
    ensures exists n: nat :: WrittenAt(g, es, n, i) && Justified(g, es[..n], Drain(g, Run(g, es), true).rows[i])
  {
    if i < |Run(g, es).rows| {
      WrittenRowsAreJustified(g, es, i);
    } else {
      ForcedRowsAreInvalid(g, es, i);
    }
  }

  // ---------- what a row says, and when it is valid ----------

  // The two raw poses around the stamp are close enough and interpolate to something finite.
  predicate Supported(g: Settings, raw: seq<Pose>, stamp: int) {
    match Bracket(raw, stamp)
    case Some((x, y)) => y.stamp - x.stamp <= g.gap && g.sound(x, y, stamp)
    case None => false
  }

  // A raw pose at or after the stamp has come.
  predicate Passed(raw: seq<Pose>, stamp: int) {
    exists k :: 0 <= k < |raw| && raw[k].stamp >= stamp
  }

  lemma PassedIsNewest(raw: seq<Pose>, stamp: int)
    requires Sorted(raw)
    ensures Passed(raw, stamp) <==> raw != [] && raw[|raw| - 1].stamp >= stamp
    ensures Bracket(raw, stamp).Some? ==> Passed(raw, stamp)
  {
    LowerBoundSplits(raw, stamp);
  }

  lemma CausalIsLate(corrections: seq<Pose>, stamp: int)
    requires Sorted(corrections)
    ensures Causal(corrections, stamp).Some? <==> corrections != [] && corrections[0].stamp <= stamp
  {
    LowerBoundSplits(corrections, stamp + 1);
  }

  // Main result: the row of a stamp is valid exactly when a correction not after it exists and the raw
  // poses around it support the interpolation, and it then shows these poses. Without such a correction
  // the alignment was not ready; with one, the raw poses leave a gap. The stamp waits only for a first
  // correction or for a raw pose that has not come yet.
  lemma DecisionMeans(g: Settings, b: Inputs, stamp: int, force: bool)
    requires Sorted(b.raw) && Sorted(b.corrections)
    ensures var v, correction := Decide(g, b, stamp, force), Causal(b.corrections, stamp);
            var unready := b.seen && !b.ready;
            && (v.Some? && v.value.Valid? <==> correction.Some? && Supported(g, b.raw, stamp))
            && (v == Some(Invalid(AlignmentNotReady)) <==>
                correction.None? && (b.corrections != [] || unready || force))
            && (v == Some(Invalid(InterpolationGap)) <==>
                correction.Some? && !Supported(g, b.raw, stamp) && (Passed(b.raw, stamp) || force))
            && (v.None? <==>
                !force && (if b.corrections == [] then !unready else correction.Some? && !Passed(b.raw, stamp)))
    ensures var v := Decide(g, b, stamp, force);
            v.Some? && v.value.Valid? ==>
              && Bracket(b.raw, stamp) == Some((v.value.before, v.value.after))
              && Causal(b.corrections, stamp) == Some(v.value.correction)
  {
    PassedIsNewest(b.raw, stamp);
    CausalIsLate(b.corrections, stamp);
    BracketMeans(b.raw, stamp);
  }

  // The unbounded histories of the events would give this stamp a valid row.
  predicate HistoryGives(g: Settings, es: seq<Event>, stamp: int) {
    Supported(g, History(RawPoses(es)), stamp) && Causal(History(Corrections(es)), stamp).Some?
  }

  // Both cutoffs lie at or before the stamp.
  predicate InBothWindows(g: Settings, es: seq<Event>, stamp: int) {
    InWindow(RawPoses(es), g.window, stamp) && InWindow(Corrections(es), g.window, stamp)
  }

  lemma HistoryDecides(g: Settings, es: seq<Event>, b: Inputs, stamp: int)
    requires b.raw == Buffer(RawPoses(es), g.window) && b.corrections == Buffer(Corrections(es), g.window)
    requires InBothWindows(g, es, stamp)
    ensures var v := Decide(g, b, stamp, false);
            v.Some? && v.value.Valid? <==> HistoryGives(g, es, stamp)
  {
    DecisionNeedsNoHistory(g, RawPoses(es), Corrections(es), b.seen, b.ready, stamp, false);
    HistoryIsLatest(RawPoses(es));
    HistoryIsLatest(Corrections(es));
    DecisionMeans(g, Inputs(History(RawPoses(es)), History(Corrections(es)), b.seen, b.ready), stamp, false);
  }

  // Main result: a row written by the last event for a stamp inside both windows is valid exactly when
  // the unbounded histories give it a valid one.
  lemma RowIsValidIff(g: Settings, es: seq<Event>, i: nat)
    requires es != [] && |Run(g, es[..|es| - 1]).rows| <= i < |Run(g, es).rows|
    requires InBothWindows(g, es, Run(g, es).rows[i].stamp)
    ensures Run(g, es).rows[i].verdict.Valid? <==> HistoryGives(g, es, Run(g, es).rows[i].stamp)
  {
    var t := Run(g, es);
    StepRows(g, Run(g, es[..|es| - 1]), es[|es| - 1], i);
    RunRaw(g, es);
    RunCorrections(g, es);
    HistoryDecides(g, es, t.inputs, t.rows[i].stamp);
  }

  // Main result: no stamp inside both windows is left pending once the histories give it a valid row.
  lemma SupportedIsNotPending(g: Settings, es: seq<Event>, stamp: int)
    requires InBothWindows(g, es, stamp) && HistoryGives(g, es, stamp)
    ensures stamp !in Run(g, es).pending
  {
    if stamp in Run(g, es).pending {
      var i :| 0 <= i < |Run(g, es).pending| && Run(g, es).pending[i] == stamp;
      PendingMustWait(g, es, i);
      RunRaw(g, es);
      RunCorrections(g, es);
      HistoryDecides(g, es, Run(g, es).inputs, stamp);
    }
  }

  // ---------- shutdown ----------

  lemma ForcedDecides(g: Settings, b: Inputs, stamp: int)
    ensures Decide(g, b, stamp, true).Some?
  {
  }

  // Main result: when the logger is destroyed every received stamp has exactly one row.
  lemma ShutdownWritesAll(g: Settings, es: seq<Event>)
    ensures var s := Drain(g, Run(g, es), true);
            && s.pending == [] && Balanced(s)
            && |s.rows| == |Stamps(es)| && multiset(RowStamps(s.rows)) == multiset(Stamps(es))
  {
    var s := Run(g, es);
    EveryStampOnce(g, es);
    CountersBalance(g, es);
    RunSorted(g, es);
    DrainBalances(g, s, true);
    DrainKeepsReceived(g, s, true);
    DrainConserves(g, s, true);
    DrainedDecides(g, s.inputs, s.pending, true);
    var rest := Drained(g, s.inputs, s.pending, true).1;
    if rest != [] { ForcedDecides(g, s.inputs, rest[0]); }
  }
}
