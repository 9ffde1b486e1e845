// What the backend answers to a submission, what its counters count, and that a shutdown gets done,
// over every interleaving of producers, worker and shutdown.
module SubmissionRules {
  import opened Outcomes
  import opened LandmarkStore
  import opened LandmarkBackend

  // ---------- the answer to a submission ----------

  predicate StopRequested(steps: seq<Step>) { RequestStop in steps }

  // An id, a landmark number, a time, and finite rest.
  predicate WellMade(i: Input) { i.id > 0 && 0 <= i.landmark && 0.0 <= i.time && i.wellFormed }

  predicate KnownId(accepted: seq<Input>, id: nat) { exists k :: 0 <= k < |accepted| && accepted[k].id == id }

  predicate Behind(accepted: seq<Input>, time: real) { exists k :: 0 <= k < |accepted| && time < accepted[k].time }

  // Accepted, but not yet taken out by the worker.
  function Waiting(t: Trace): int { |t.accepted| - |t.done| - if t.backend.worker.Holding? then 1 else 0 }

  ghost predicate Remembers(steps: seq<Step>, t: Trace) {
    && (t.backend.stopping <==> StopRequested(steps))
    && (forall id :: id in t.backend.ids <==> KnownId(t.accepted, id))
    && (forall time :: time >= 0.0 ==> (time < t.backend.lastTime <==> Behind(t.accepted, time)))
    && (forall k :: 0 <= k < |t.accepted| ==> t.accepted[k].time <= t.backend.lastTime)
  }

  lemma MoreAccepted(accepted: seq<Input>, i: Input)
    ensures forall id :: KnownId(accepted + [i], id) <==> KnownId(accepted, id) || id == i.id
    ensures forall time :: Behind(accepted + [i], time) <==> Behind(accepted, time) || time < i.time
  {
    var more := accepted + [i];
    assert more[|accepted|] == i;
    forall id ensures KnownId(more, id) <==> KnownId(accepted, id) || id == i.id {
      if KnownId(accepted, id) {
        var k :| 0 <= k < |accepted| && accepted[k].id == id;
        assert more[k].id == id;
      }
    }
    forall time ensures Behind(more, time) <==> Behind(accepted, time) || time < i.time {
      if Behind(accepted, time) {
        var k :| 0 <= k < |accepted| && time < accepted[k].time;
        assert time < more[k].time;
      }
    }
  }

  lemma FollowRemembers(c: Config, steps: seq<Step>, t: Trace, s: Step)
    requires Remembers(steps, t)
    ensures Remembers(steps + [s], Follow(c, t, s))
  {
    if s.Submit? && ReplyFor(c, t.backend, s.input) == Accepted {
      MoreAccepted(t.accepted, s.input);
      AcceptedIsLatest(t.accepted, s.input, t.backend.lastTime);
    }
  }

  lemma AcceptedIsLatest(accepted: seq<Input>, i: Input, last: real)
    requires forall k :: 0 <= k < |accepted| ==> accepted[k].time <= last
    requires last <= i.time
    ensures forall time :: Behind(accepted, time) ==> time < i.time
  {
  }

  lemma {:induction false} ScheduleRemembers(c: Config, steps: seq<Step>)
    ensures Remembers(steps, Scheduled(c, steps))
  {
    if steps != [] {
      var init, s := steps[..|steps| - 1], steps[|steps| - 1];
      ScheduleRemembers(c, init);
      FollowRemembers(c, init, Scheduled(c, init), s);
      assert init + [s] == steps;
    }
  }

  // Main result: in any schedule the answer to a submission is the first that applies of: the stop was
  // requested, the input is not well made, its id was accepted before, an accepted one is later, or as
  // many accepted ones wait as the queue can hold. Otherwise it is accepted.
  lemma SubmitReplies(c: Config, steps: seq<Step>, i: Input)
    ensures var t := Scheduled(c, steps);
            ReplyFor(c, t.backend, i) ==
              if StopRequested(steps) then Shutdown
              else if !WellMade(i) then Invalid
              else if KnownId(t.accepted, i.id) then Duplicate
              else if Behind(t.accepted, i.time) then OutOfOrder
              else if Waiting(t) >= c.capacity then Overflow
              else Accepted
  {
    ScheduleRemembers(c, steps);
    EveryScheduleIsOrdered(c, steps);
    var t := Scheduled(c, steps);
    assert |t.accepted| == |t.done| + |InFlight(t.backend.worker)| + |t.backend.queue|;
  }

  // ---------- the counters ----------

  // The answers given so far, in order.
  function Replies(c: Config, steps: seq<Step>): seq<Reply> {
    if steps == [] then []
    else
      var init, s := steps[..|steps| - 1], steps[|steps| - 1];
      Replies(c, init) + if s.Submit? then [ReplyFor(c, Scheduled(c, init).backend, s.input)] else []
  }

  function Times(replies: seq<Reply>, r: Reply): nat { multiset(replies)[r] }

  predicate Counts(n: Tally, replies: seq<Reply>) {
    && n.submitted == |replies|
    && n.accepted == Times(replies, Accepted) && n.invalid == Times(replies, Invalid)
    && n.duplicate == Times(replies, Duplicate) && n.outOfOrder == Times(replies, OutOfOrder)
    && n.overflow == Times(replies, Overflow)
  }

  lemma OneReply(n: Tally, replies: seq<Reply>, r: Reply)
    requires Counts(n, replies)
    ensures Counts(Counted(n, r), replies + [r])
  {
    assert multiset(replies + [r]) == multiset(replies) + multiset{r};
  }

  lemma FollowCounts(c: Config, t: Trace, s: Step)
    ensures Follow(c, t, s).backend.tally ==
            if s.Submit? then Counted(t.backend.tally, ReplyFor(c, t.backend, s.input)) else t.backend.tally
  {
  }

  // Main result: each counter is the number of times that this answer was given.
  lemma {:induction false} CountersCountReplies(c: Config, steps: seq<Step>)
    ensures Counts(Scheduled(c, steps).backend.tally, Replies(c, steps))
  {
    if steps != [] {
      var init, s := steps[..|steps| - 1], steps[|steps| - 1];
      CountersCountReplies(c, init);
      var t := Scheduled(c, init);
      FollowCounts(c, t, s);
      if s.Submit? { OneReply(t.backend.tally, Replies(c, init), ReplyFor(c, t.backend, s.input)); }
      else { assert Replies(c, steps) == Replies(c, init); }
    }
  }

  // ---------- shutdown ----------

  // A step that the worker can take, unless it has returned.
  function NextWork(b: Backend): Step {
    match b.worker
    case Deciding => Decide
    case Popping => Pop
    case Holding(_) => Work
    case Stopped => Join
  }

  // Main result: from any reachable state, after a stop request the worker can take steps of its own
  // until it has returned, as many as there is work left, and then shutdown returns.
  lemma ShutdownCompletes(c: Config, steps: seq<Step>) returns (work: seq<Step>)
    ensures forall k :: 0 <= k < |work| ==> work[k] in {Decide, Pop, Work}
    ensures |work| == Remaining(Scheduled(c, steps + [RequestStop]).backend)
    ensures var n := Scheduled(c, steps + [RequestStop] + work + [Join]);
            n.backend.joined && n.backend.queue == [] && n.done == n.accepted == Scheduled(c, steps).accepted
  {
    ScheduledAppends(c, steps, RequestStop);
    work := Drain(c, steps + [RequestStop], []);
    var all := steps + [RequestStop] + work;
    assert steps + [RequestStop] + [] == steps + [RequestStop];
    DrainEnds(c, steps + [RequestStop], work);
    ScheduledAppends(c, all, Join);
    EveryScheduleIsOrdered(c, all + [Join]);
    JoinedMeansComplete(c, all + [Join]);
  }

  // Some worker steps that bring the worker to its return.
  lemma {:induction false} Drain(c: Config, steps: seq<Step>, taken: seq<Step>) returns (work: seq<Step>)
    requires Scheduled(c, steps + taken).backend.stopping
    ensures forall k :: 0 <= k < |work| ==> work[k] in {Decide, Pop, Work}
    ensures |work| == Remaining(Scheduled(c, steps + taken).backend)
    ensures Scheduled(c, steps + taken + work).backend.worker == Stopped
    decreases Remaining(Scheduled(c, steps + taken).backend)
  {
    var t := Scheduled(c, steps + taken);
    EveryScheduleIsOrdered(c, steps + taken);
    if t.backend.worker == Stopped {
      work := [];
      assert steps + taken + [] == steps + taken;
    } else {
      var s := NextWork(t.backend);
      ScheduledAppends(c, steps + taken, s);
      DrainProgresses(c, t.backend, s);
      assert steps + taken + [s] == steps + (taken + [s]);
      var rest := Drain(c, steps, taken + [s]);
      work := [s] + rest;
      assert steps + (taken + [s]) + rest == steps + taken + work;
    }
  }
}
