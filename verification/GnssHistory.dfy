// What the GNSS adapter guarantees over whole runs: the hysteresis state is determined by the
// recent epochs, and an averaged origin is the mean of confirmed samples of one source.
module GnssHistory {
  import opened Outcomes
  import opened GnssTracker

  // ---------- the hysteresis against the history of classified epochs ----------

  // What the tracker sees of an epoch: a restart, or a classified solution, perhaps after a gap.
  datatype Mark = Restart | Epoch(fixed: bool, gap: bool)

  function Follow(c: Config, t: Tracker, x: Mark): Tracker {
    match x
    case Restart => FRESH_TRACKER
    case Epoch(fixed, gap) => Advance(c, if gap then AfterGap(t) else t, fixed).0
  }

  function TrackerOf(c: Config, h: seq<Mark>): Tracker {
    if h == [] then FRESH_TRACKER else Follow(c, TrackerOf(c, Init(h)), Last(h))
  }

  function Last(h: seq<Mark>): Mark
    requires h != []
  {
    h[|h| - 1]
  }

  function Init(h: seq<Mark>): seq<Mark>
    requires h != []
  {
    h[..|h| - 1]
  }

  // The number of consecutive fixed epochs at the end, no gap between them.
  function FixedRun(h: seq<Mark>): nat {
    if h == [] || Last(h) == Restart || !Last(h).fixed then 0
    else if Last(h).gap then 1
    else FixedRun(Init(h)) + 1
  }

  function LostRun(h: seq<Mark>): nat {
    if h == [] || Last(h) == Restart || Last(h).fixed then 0
    else if Last(h).gap then 1
    else LostRun(Init(h)) + 1
  }

  // Some stretch since the last restart was long enough for a first confirmation.
  predicate EverConfirmed(c: Config, h: seq<Mark>) {
    && h != [] && Last(h) != Restart
    && (EverConfirmed(c, Init(h)) || FixedRun(h) >= c.confirmCount)
  }

  // The last mark ends any fixed phase: a restart, a time gap, or too many epochs without
  // a fixed solution.
  predicate Breaks(c: Config, h: seq<Mark>)
    requires h != []
  {
    Last(h) == Restart || Last(h).gap || LostRun(h) >= c.lostCount
  }

  // No break after the first e marks.
  predicate Unbroken(c: Config, h: seq<Mark>, e: nat) {
    e == |h| || (e < |h| && !Breaks(c, h) && Unbroken(c, Init(h), e))
  }

  // The last mark completes a confirmation: the shorter first one, or the recovery one after
  // a fixed phase was lost.
  predicate Confirms(c: Config, h: seq<Mark>) {
    && h != []
    && FixedRun(h) >= 1
    && FixedRun(h) >= (if EverConfirmed(c, Init(h)) then c.recoveryCount else c.confirmCount)
  }

  // A fixed phase entered with mark e - 1 is still on.
  predicate ActiveSince(c: Config, h: seq<Mark>, e: nat) {
    0 < e <= |h| && Confirms(c, h[..e]) && Unbroken(c, h, e)
  }

  ghost predicate InFixedPhase(c: Config, h: seq<Mark>) { exists e :: ActiveSince(c, h, e) }

  // A fixed epoch at mark e - 1 and no break since.
  predicate FixedSince(c: Config, h: seq<Mark>, e: nat) {
    0 < e <= |h| && FixedRun(h[..e]) >= 1 && Unbroken(c, h, e)
  }

  function Saturated(n: nat): nat { if n > U32_MAX then U32_MAX else n }

  // Both counters are the lengths of the current runs.
  lemma {:induction false} CountersAreRuns(c: Config, h: seq<Mark>)
    requires Usable(c)
    ensures var t := TrackerOf(c, h);
            && t.fixedCount == Saturated(FixedRun(h)) && t.lostCount == Saturated(LostRun(h))
            && (t.phase == Waiting <==> !t.wasActive)
            && (t.phase == Lost ==> t.fixedCount == 0)
            && (t.wasActive <==> EverConfirmed(c, h))
  {
    if h != [] { CountersAreRuns(c, Init(h)); }
  }

  // A mark that does not break keeps every witness; one that breaks leaves only a later entry.
  lemma SinceExtends(c: Config, h: seq<Mark>, e: nat)
    requires h != [] && e < |h|
    ensures h[..e] == Init(h)[..e]
    ensures Unbroken(c, h, e) <==> !Breaks(c, h) && Unbroken(c, Init(h), e)
  {
    assert h[..e] == Init(h)[..e];
  }

  // Main result: the adapter is in the fixed phase exactly when some confirmation was
  // completed and nothing has ended the phase since.
  lemma {:induction false} ActiveMeansConfirmed(c: Config, h: seq<Mark>)
    requires Usable(c)
    ensures TrackerOf(c, h).phase == ActiveFixed <==> InFixedPhase(c, h)
  {
    if h == [] { return; }
    ActiveMeansConfirmed(c, Init(h));
    CountersAreRuns(c, Init(h));
    CountersAreRuns(c, h);
    var t := TrackerOf(c, Init(h));
    assert h[..|h|] == h;
    forall e: nat | e < |h|
      ensures ActiveSince(c, h, e) <==> !Breaks(c, h) && ActiveSince(c, Init(h), e)
    {
      SinceExtends(c, h, e);
    }
    if Confirms(c, h) {
      assert ActiveSince(c, h, |h|);
    } else if TrackerOf(c, h).phase == ActiveFixed {
      assert !Breaks(c, h) && t.phase == ActiveFixed;
      var e :| ActiveSince(c, Init(h), e);
      assert ActiveSince(c, h, e);
    }
  }

  // Between the phases: after a first confirmation the adapter is recovering or active exactly
  // when a fixed epoch came after the last break, and lost otherwise.
  lemma {:induction false} LostMeansBroken(c: Config, h: seq<Mark>)
    requires Usable(c) && EverConfirmed(c, h)
    ensures TrackerOf(c, h).phase == Lost <==> !exists e :: FixedSince(c, h, e)
  {
    CountersAreRuns(c, Init(h));
    CountersAreRuns(c, h);
    assert h[..|h|] == h;
    if FixedRun(h) >= 1 {
      assert FixedSince(c, h, |h|);
    } else {
      assert EverConfirmed(c, Init(h));
      LostMeansBroken(c, Init(h));
      forall e: nat | e < |h|
        ensures FixedSince(c, h, e) <==> !Breaks(c, h) && FixedSince(c, Init(h), e)
      {
        SinceExtends(c, h, e);
      }
    }
  }

  // A run of k is k fixed epochs in a row, with a gap at most before the first of them.
  lemma {:induction false} RunMeansConsecutive(h: seq<Mark>, k: nat)
    requires 1 <= k
    ensures FixedRun(h) >= k <==>
            && k <= |h|
            && (forall i :: |h| - k <= i < |h| ==> h[i].Epoch? && h[i].fixed)
            && (forall i :: |h| - k < i < |h| ==> !h[i].gap)
  {
    if h != [] && k > 1 { RunMeansConsecutive(Init(h), k - 1); }
    if h != [] && k > 1 && FixedRun(h) < k && k <= |h| {
      if !(Last(h).Epoch? && Last(h).fixed && !Last(h).gap) { assert Last(h) == h[|h| - 1]; }
    }
  }

  lemma {:induction false} LostRunMeansConsecutive(h: seq<Mark>, k: nat)
    requires 1 <= k
    ensures LostRun(h) >= k <==>
            && k <= |h|
            && (forall i :: |h| - k <= i < |h| ==> h[i].Epoch? && !h[i].fixed)
            && (forall i :: |h| - k < i < |h| ==> !h[i].gap)
  {
    if h != [] && k > 1 { LostRunMeansConsecutive(Init(h), k - 1); }
    if h != [] && k > 1 && LostRun(h) < k && k <= |h| {
      if !(Last(h).Epoch? && !Last(h).fixed && !Last(h).gap) { assert Last(h) == h[|h| - 1]; }
    }
  }

  // ---------- whole runs of the adapter ----------

  // A message, and the marks the tracker had seen once it was processed.
  datatype Entry = Entry(m: Pvt, marks: seq<Mark>)

  // The adapter's state together with what happened to produce it: the marks the tracker saw,
  // the log of messages, the ones whose positions are in the running average, and those that
  // last completed a pass.
  datatype Journal = Journal(fields: Fields, marks: seq<Mark>, log: seq<Entry>,
                             pass: seq<nat>, origin: seq<nat>)

  function NewMarks(c: Config, s: Fields, m: Pvt): seq<Mark> {
    var t := Arrived(c, s, m);
    (if Restarts(c, s, m) then [Restart] else []) +
    (if Refusal(c, t, m).None? then [Epoch(m.raw == RtkFixed, Gap(c, t, m))] else [])
  }

  // The message joins the running average.
  predicate Joins(c: Config, g: Geometry, t: Fields, m: Pvt) {
    && Refusal(c, t, m).None? && c.publishLocal && UsableFix(c, g, m)
    && Collects(c, t, Tracked(c, t, m).1, m.stamp)
  }

  function NextPass(c: Config, g: Geometry, s: Fields, pass: seq<nat>, m: Pvt, index: nat): seq<nat> {
    var t := Arrived(c, s, m);
    var kept := if Restarts(c, s, m) then [] else pass;
    if Joins(c, g, t, m) then (if Continues(c, t, m.stamp) then kept else []) + [index] else kept
  }

  function Note(c: Config, g: Geometry, j: Journal, m: Pvt): Journal {
    var pass := NextPass(c, g, j.fields, j.pass, m, |j.log|);
    var full := |pass| >= c.originCount;
    var marks := j.marks + NewMarks(c, j.fields, m);
    Journal(Processed(c, g, j.fields, m).0, marks, j.log + [Entry(m, marks)],
            if full then [] else pass,
            if full then pass else j.origin)
  }

  function Run(c: Config, g: Geometry, ms: seq<Pvt>): Journal {
    if ms == [] then Journal(Initial(c, g), [], [], [], [])
    else Note(c, g, Run(c, g, ms[..|ms| - 1]), ms[|ms| - 1])
  }

  // The tracker is the one the marks determine.
  lemma {:induction false} RunFollowsMarks(c: Config, g: Geometry, ms: seq<Pvt>)
    ensures Run(c, g, ms).fields.tracker == TrackerOf(c, Run(c, g, ms).marks)
  {
    if ms != [] {
      RunFollowsMarks(c, g, ms[..|ms| - 1]);
      var j := Run(c, g, ms[..|ms| - 1]);
      NoteFollowsMarks(c, g, j, ms[|ms| - 1]);
    }
  }

  lemma NoteFollowsMarks(c: Config, g: Geometry, j: Journal, m: Pvt)
    requires j.fields.tracker == TrackerOf(c, j.marks)
    ensures Note(c, g, j, m).fields.tracker == TrackerOf(c, Note(c, g, j, m).marks)
  {
    MarksFollow(c, j.fields, m, j.marks);
    LocatedTracker(c, g, Arrived(c, j.fields, m), m);
  }

  lemma TrackerStep(c: Config, h: seq<Mark>, x: Mark)
    ensures TrackerOf(c, h + [x]) == Follow(c, TrackerOf(c, h), x)
  {
    assert Init(h + [x]) == h && Last(h + [x]) == x;
  }

  lemma MarksFollow(c: Config, s: Fields, m: Pvt, h: seq<Mark>)
    requires s.tracker == TrackerOf(c, h)
    ensures var t := Arrived(c, s, m);
            TrackerOf(c, h + NewMarks(c, s, m))
            == if Refusal(c, t, m).None? then Tracked(c, t, m).0 else t.tracker
  {
    var t := Arrived(c, s, m);
    var first := if Restarts(c, s, m) then [Restart] else [];
    if Restarts(c, s, m) { TrackerStep(c, h, Restart); }
    assert TrackerOf(c, h + first) == t.tracker by { assert h + [] == h; }
    if Refusal(c, t, m).None? {
      var x := Epoch(m.raw == RtkFixed, Gap(c, t, m));
      TrackerStep(c, h + first, x);
      assert h + NewMarks(c, s, m) == h + first + [x];
    } else {
      assert h + NewMarks(c, s, m) == h + first;
    }
  }

  lemma LocatedTracker(c: Config, g: Geometry, t: Fields, m: Pvt)
    ensures Located(c, g, t, m).tracker == Tracked(c, t, m).0
    ensures Located(c, g, t, m).identity == t.identity
  {
  }

  lemma RunExtends(c: Config, g: Geometry, ms: seq<Pvt>, m: Pvt)
    ensures Run(c, g, ms + [m]) == Note(c, g, Run(c, g, ms), m)
  {
    assert (ms + [m])[..|ms|] == ms;
  }

  lemma AdvanceQuality(c: Config, t: Tracker, fixed: bool)
    ensures Advance(c, t, fixed).1 == RtkFixed <==> Advance(c, t, fixed).0.phase == ActiveFixed
  {
  }

  lemma AcceptedFixed(c: Config, g: Geometry, s: Fields, m: Pvt)
    requires var r := Processed(c, g, s, m).1;
             m.raw == RtkFixed && r.Judged? && r.accepted
    ensures var t := Arrived(c, s, m);
            && Refusal(c, t, m).None? && Tracked(c, t, m).1 == RtkFixed && !Gap(c, t, m) && m.gates
            && Processed(c, g, s, m).0 == Located(c, g, t, m)
            && (c.publishLocal ==> Located(c, g, t, m).originSet
                                   && Processed(c, g, s, m).1.published == Some(Local(g, Located(c, g, t, m), m)))
  {
  }

  // Main result: an accepted RTK-fixed epoch lies in a confirmed fixed phase, passed the gates,
  // follows no gap, and is published relative to the origin then in force.
  lemma AcceptedFixedIsConfirmed(c: Config, g: Geometry, ms: seq<Pvt>, m: Pvt)
    requires Usable(c)
    requires var r := Processed(c, g, Run(c, g, ms).fields, m).1;
             m.raw == RtkFixed && r.Judged? && r.accepted
    ensures var j := Run(c, g, ms + [m]);
            var r := Processed(c, g, Run(c, g, ms).fields, m).1;
            && InFixedPhase(c, j.marks)
            && j.marks != [] && Last(j.marks) == Epoch(true, false)
            && m.gates
            && (c.publishLocal ==> j.fields.originSet && r.published == Some(Local(g, j.fields, m)))
  {
    AcceptedFixedShape(c, g, Run(c, g, ms), m);
    RunExtends(c, g, ms, m);
    RunFollowsMarks(c, g, ms + [m]);
    ActiveMeansConfirmed(c, Run(c, g, ms + [m]).marks);
  }

  lemma AcceptedFixedShape(c: Config, g: Geometry, j: Journal, m: Pvt)
    requires var r := Processed(c, g, j.fields, m).1;
             m.raw == RtkFixed && r.Judged? && r.accepted
    ensures var k := Note(c, g, j, m);
            && k.fields.tracker.phase == ActiveFixed && m.gates
            && k.marks != [] && Last(k.marks) == Epoch(true, false)
            && (c.publishLocal ==> k.fields.originSet
                                   && Processed(c, g, j.fields, m).1.published == Some(Local(g, k.fields, m)))
  {
    AcceptedFixed(c, g, j.fields, m);
    var t := Arrived(c, j.fields, m);
    LocatedTracker(c, g, t, m);
    AdvanceQuality(c, if Gap(c, t, m) then AfterGap(t.tracker) else t.tracker, true);
  }

  predicate SameOrigin(s: Fields, t: Fields) {
    s.originSet && t.originSet && t.originLla == s.originLla && t.originEcef == s.originEcef
  }

  // Once set, the origin never changes again.
  lemma {:induction false} OriginIsFinal(c: Config, g: Geometry, ms: seq<Pvt>, more: seq<Pvt>)
    requires Run(c, g, ms).fields.originSet
    ensures SameOrigin(Run(c, g, ms).fields, Run(c, g, ms + more).fields)
    decreases |more|
  {
    if more == [] {
      assert ms + more == ms;
    } else {
      OneMoreKeepsOrigin(c, g, ms, more[0]);
      OriginIsFinal(c, g, ms + [more[0]], more[1..]);
      assert ms + [more[0]] + more[1..] == ms + more;
    }
  }

  lemma PublishedShape(c: Config, g: Geometry, j: Journal, m: Pvt)
    requires var r := Processed(c, g, j.fields, m).1;
             r.Judged? && r.published.Some?
    ensures var k := Note(c, g, j, m);
            k.fields.originSet && Processed(c, g, j.fields, m).1.published == Some(Local(g, k.fields, m))
  {
  }

  // Main result: every published position, of whatever quality, is relative to the one origin of
  // the run, however the run goes on.
  lemma PublishedIsRelative(c: Config, g: Geometry, ms: seq<Pvt>, m: Pvt, more: seq<Pvt>)
    requires var r := Processed(c, g, Run(c, g, ms).fields, m).1;
             r.Judged? && r.published.Some?
    ensures var last := Run(c, g, ms + [m] + more).fields;
            last.originSet &&
            Processed(c, g, Run(c, g, ms).fields, m).1.published == Some(Local(g, last, m))
  {
    PublishedShape(c, g, Run(c, g, ms), m);
    RunExtends(c, g, ms, m);
    OriginIsFinal(c, g, ms + [m], more);
  }

  lemma OneMoreKeepsOrigin(c: Config, g: Geometry, ms: seq<Pvt>, m: Pvt)
    requires Run(c, g, ms).fields.originSet
    ensures SameOrigin(Run(c, g, ms).fields, Run(c, g, ms + [m]).fields)
  {
    RunExtends(c, g, ms, m);
    NoteKeepsOrigin(c, g, Run(c, g, ms), m);
  }

  lemma NoteKeepsOrigin(c: Config, g: Geometry, j: Journal, m: Pvt)
    requires j.fields.originSet
    ensures SameOrigin(j.fields, Note(c, g, j, m).fields)
  {
    OriginStays(c, g, j.fields, m);
  }

  lemma OriginStays(c: Config, g: Geometry, s: Fields, m: Pvt)
    requires s.originSet
    ensures SameOrigin(s, Processed(c, g, s, m).0)
  {
  }

  // ---------- what an averaged origin is the mean of ----------

  // The message was a usable fixed solution and left the adapter in the fixed phase.
  ghost predicate Confirmed(c: Config, g: Geometry, log: seq<Entry>, i: nat) {
    && i < |log| && UsableFix(c, g, log[i].m) && InFixedPhase(c, log[i].marks)
  }

  predicate Follows(c: Config, log: seq<Entry>, i: nat, j: nat) {
    i < j < |log| && EQUAL_STAMPS < log[j].m.stamp - log[i].m.stamp <= c.originGap
  }

  // Confirmed samples, each spaced from the one before, none from a source other than id.
  ghost predicate Spaced(c: Config, g: Geometry, log: seq<Entry>, pass: seq<nat>, id: Option<(nat, nat)>) {
    pass != [] ==>
      var n := |pass| - 1;
      && Confirmed(c, g, log, pass[n])
      && (log[pass[n]].m.identity.Some? ==> log[pass[n]].m.identity == id)
      && Spaced(c, g, log, pass[..n], id)
      && (n > 0 ==> Follows(c, log, pass[n - 1], pass[n]))
  }

  predicate Bounded(log: seq<Entry>, pass: seq<nat>) {
    forall k :: 0 <= k < |pass| ==> pass[k] < |log|
  }

  function Positions(g: Geometry, log: seq<Entry>, pass: seq<nat>): seq<Vec>
    requires Bounded(log, pass)
  {
    seq(|pass|, k requires 0 <= k < |pass| => g.ecef(log[pass[k]].m.lla))
  }

  function LastStamp(log: seq<Entry>, pass: seq<nat>): Option<int>
    requires Bounded(log, pass)
  {
    if pass == [] then None else Some(log[pass[|pass| - 1]].m.stamp)
  }

  // The running average holds exactly the positions of the pass.
  ghost predicate PassKept(c: Config, g: Geometry, log: seq<Entry>, pass: seq<nat>, s: Fields) {
    && Bounded(log, pass) && |pass| < c.originCount
    && s.samples == Positions(g, log, pass)
    && s.lastCandidate == LastStamp(log, pass)
    && Spaced(c, g, log, pass, s.identity)
    && (pass != [] ==> Pending(c, s))
  }

  // An averaged origin is the mean of a complete pass.
  ghost predicate OriginKept(c: Config, g: Geometry, log: seq<Entry>, origin: seq<nat>, s: Fields) {
    s.originSet && c.mode.AverageFixed? ==>
      && Bounded(log, origin) && |origin| == c.originCount > 0
      && (exists id :: Spaced(c, g, log, origin, id))
      && s.originEcef == Mean(Positions(g, log, origin))
      && s.originLla == g.geodetic(s.originEcef)
  }

  lemma {:induction false} SpacedLater(c: Config, g: Geometry, log: seq<Entry>, x: Entry, pass: seq<nat>,
                                       id: Option<(nat, nat)>)
    requires Spaced(c, g, log, pass, id)
    ensures Spaced(c, g, log + [x], pass, id)
  {
    if pass != [] {
      var n := |pass| - 1;
      SpacedLater(c, g, log, x, pass[..n], id);
      if n > 0 { assert pass[n - 1] < pass[n]; }
    }
  }

  // Samples that carry no identity fit every source.
  lemma {:induction false} SpacedAnonymous(c: Config, g: Geometry, log: seq<Entry>, pass: seq<nat>,
                                           id: Option<(nat, nat)>)
    requires Spaced(c, g, log, pass, None)
    ensures Spaced(c, g, log, pass, id)
  {
    if pass != [] { SpacedAnonymous(c, g, log, pass[..|pass| - 1], id); }
  }

  lemma PassLater(c: Config, g: Geometry, log: seq<Entry>, x: Entry, pass: seq<nat>, s: Fields)
    requires PassKept(c, g, log, pass, s)
    ensures PassKept(c, g, log + [x], pass, s)
  {
    SpacedLater(c, g, log, x, pass, s.identity);
    assert Positions(g, log + [x], pass) == Positions(g, log, pass);
  }

  lemma OriginLater(c: Config, g: Geometry, log: seq<Entry>, x: Entry, origin: seq<nat>, s: Fields)
    requires OriginKept(c, g, log, origin, s)
    ensures OriginKept(c, g, log + [x], origin, s)
  {
    if s.originSet && c.mode.AverageFixed? {
      var id :| Spaced(c, g, log, origin, id);
      SpacedLater(c, g, log, x, origin, id);
      assert Positions(g, log + [x], origin) == Positions(g, log, origin);
    }
  }

  lemma PassArrives(c: Config, g: Geometry, log: seq<Entry>, pass: seq<nat>, s: Fields, m: Pvt)
    requires Usable(c) && PassKept(c, g, log, pass, s)
    ensures PassKept(c, g, log, if Restarts(c, s, m) then [] else pass, Arrived(c, s, m))
  {
    if !Restarts(c, s, m) && m.identity.Some? && s.identity.None? {
      SpacedAnonymous(c, g, log, pass, m.identity);
    }
  }

  lemma SpacedJoins(c: Config, g: Geometry, log: seq<Entry>, kept: seq<nat>, i: nat, id: Option<(nat, nat)>)
    requires Spaced(c, g, log, kept, id) && Confirmed(c, g, log, i)
    requires log[i].m.identity.Some? ==> log[i].m.identity == id
    requires kept != [] ==> Follows(c, log, kept[|kept| - 1], i)
    ensures Spaced(c, g, log, kept + [i], id)
  {
    var next := kept + [i];
    assert next[..|next| - 1] == kept;
    assert next[|next| - 1] == i;
    if kept != [] { assert next[|next| - 2] == kept[|kept| - 1]; }
  }

  lemma PositionsJoin(g: Geometry, log: seq<Entry>, kept: seq<nat>, i: nat)
    requires Bounded(log, kept) && i < |log|
    ensures Bounded(log, kept + [i])
    ensures Positions(g, log, kept + [i]) == Positions(g, log, kept) + [g.ecef(log[i].m.lla)]
  {
  }

  lemma CandidateFollows(c: Config, log: seq<Entry>, pass: seq<nat>, t: Fields, i: nat)
    requires Bounded(log, pass) && pass != [] && pass[|pass| - 1] < i < |log|
    requires t.lastCandidate == LastStamp(log, pass)
    requires Collects(c, t, RtkFixed, log[i].m.stamp) && Continues(c, t, log[i].m.stamp)
    ensures Follows(c, log, pass[|pass| - 1], i)
  {
  }

  // One candidate joins; the log already ends with its message.
  lemma PassJoins(c: Config, g: Geometry, log: seq<Entry>, pass: seq<nat>, t: Fields, i: nat)
    requires PassKept(c, g, log, pass, t) && i == |log| - 1
    requires pass != [] ==> pass[|pass| - 1] < i
    requires Confirmed(c, g, log, i)
    requires log[i].m.identity.Some? ==> log[i].m.identity == t.identity
    requires Collects(c, t, RtkFixed, log[i].m.stamp)
    ensures var kept := if Continues(c, t, log[i].m.stamp) then pass else [];
            && Bounded(log, kept + [i]) && Spaced(c, g, log, kept + [i], t.identity)
            && Positions(g, log, kept + [i])
               == (if Continues(c, t, log[i].m.stamp) then t.samples else []) + [g.ecef(log[i].m.lla)]
  {
    var kept := if Continues(c, t, log[i].m.stamp) then pass else [];
    if kept != [] { CandidateFollows(c, log, pass, t, i); }
    SpacedJoins(c, g, log, kept, i, t.identity);
    PositionsJoin(g, log, kept, i);
    assert Positions(g, log, []) == [];
  }

  // The value-level step: what a candidate does to the fields and to the two passes.
  lemma PassCloses(c: Config, g: Geometry, log: seq<Entry>, next: seq<nat>, seen: Fields, i: nat)
    requires Usable(c) && next != [] && next[|next| - 1] == i < |log| && |next| <= c.originCount
    requires Bounded(log, next) && Spaced(c, g, log, next, seen.identity)
    requires Pending(c, seen)
    ensures var s := Collected(c, g, seen, Positions(g, log, next), log[i].m.stamp);
            if |next| >= c.originCount then PassKept(c, g, log, [], s) && OriginKept(c, g, log, next, s)
            else PassKept(c, g, log, next, s) && !s.originSet
  {
    assert Positions(g, log, []) == [];
  }

  lemma LocatedKeeps(c: Config, g: Geometry, t: Fields, m: Pvt)
    requires Refusal(c, t, m).None? && !Joins(c, g, t, m)
    ensures var s := Located(c, g, t, m);
            && s.samples == t.samples && s.lastCandidate == t.lastCandidate && s.identity == t.identity
            && (c.mode.AverageFixed? ==>
                s.originSet == t.originSet && s.originLla == t.originLla && s.originEcef == t.originEcef)
  {
  }

  lemma LocatedJoins(c: Config, g: Geometry, t: Fields, m: Pvt)
    requires Joins(c, g, t, m)
    ensures var seen := t.(tracker := Tracked(c, t, m).0, lastTime := Some(m.stamp));
            Located(c, g, t, m) == Collected(c, g, seen,
              (if Continues(c, t, m.stamp) then t.samples else []) + [g.ecef(m.lla)], m.stamp)
    ensures Located(c, g, t, m).tracker.phase == ActiveFixed
    ensures Collects(c, t, RtkFixed, m.stamp)
  {
    AdvanceQuality(c, if Gap(c, t, m) then AfterGap(t.tracker) else t.tracker, m.raw == RtkFixed);
  }

  // The log is the history of the run: the messages in order, each with the marks the run
  // up to it produced.
  lemma {:induction false} LogIsHistory(c: Config, g: Geometry, ms: seq<Pvt>, i: nat)
    requires i < |ms|
    ensures |Run(c, g, ms).log| == |ms|
    ensures Run(c, g, ms).log[i] == Entry(ms[i], Run(c, g, ms[..i + 1]).marks)
  {
    var pre := ms[..|ms| - 1];
    LogLength(c, g, pre);
    LogExtends(c, g, ms);
    if i == |pre| {
      assert ms[..i + 1] == ms;
    } else {
      LogIsHistory(c, g, pre, i);
      assert pre[..i + 1] == ms[..i + 1];
    }
  }

  lemma LogExtends(c: Config, g: Geometry, ms: seq<Pvt>)
    requires ms != []
    ensures Run(c, g, ms).log == Run(c, g, ms[..|ms| - 1]).log + [Entry(ms[|ms| - 1], Run(c, g, ms).marks)]
  {
    NoteLogs(c, g, Run(c, g, ms[..|ms| - 1]), ms[|ms| - 1]);
  }

  lemma NoteLogs(c: Config, g: Geometry, j: Journal, m: Pvt)
    ensures Note(c, g, j, m).log == j.log + [Entry(m, Note(c, g, j, m).marks)]
  {
  }

  lemma {:induction false} LogLength(c: Config, g: Geometry, ms: seq<Pvt>)
    ensures |Run(c, g, ms).log| == |ms|
  {
    if ms != [] {
      LogLength(c, g, ms[..|ms| - 1]);
      LogExtends(c, g, ms);
    }
  }

  function Joined(c: Config, t: Fields, kept: seq<nat>, stamp: int, i: nat): seq<nat> {
    (if Continues(c, t, stamp) then kept else []) + [i]
  }

  // The step of the induction when the last message joins the average; s are the fields after it.
  lemma JoinKeeps(c: Config, g: Geometry, log: seq<Entry>, kept: seq<nat>, t: Fields, seen: Fields, s: Fields)
    requires Usable(c) && log != [] && seen.identity == t.identity && Pending(c, seen)
    requires PassKept(c, g, log, kept, t) && (kept != [] ==> kept[|kept| - 1] < |log| - 1)
    requires Confirmed(c, g, log, |log| - 1)
    requires var m := log[|log| - 1].m;
             && (m.identity.Some? ==> m.identity == t.identity)
             && Collects(c, t, RtkFixed, m.stamp)
             && s == Collected(c, g, seen,
                               (if Continues(c, t, m.stamp) then t.samples else []) + [g.ecef(m.lla)], m.stamp)
    ensures var next := Joined(c, t, kept, log[|log| - 1].m.stamp, |log| - 1);
            if |next| >= c.originCount then PassKept(c, g, log, [], s) && OriginKept(c, g, log, next, s)
            else PassKept(c, g, log, next, s) && !s.originSet
  {
    var i := |log| - 1;
    PassJoins(c, g, log, kept, t, i);
    PassCloses(c, g, log, Joined(c, t, kept, log[i].m.stamp, i), seen, i);
  }

  lemma PassNeverRestarted(c: Config, g: Geometry, s: Fields, m: Pvt)
    ensures var t := Arrived(c, s, m);
            t.originSet == s.originSet && t.originLla == s.originLla && t.originEcef == s.originEcef
  {
  }

  // One entry joins the log and the average.
  lemma KeepsJoin(c: Config, g: Geometry, log: seq<Entry>, x: Entry, kept: seq<nat>,
                  t: Fields, seen: Fields, s: Fields)
    requires Usable(c) && PassKept(c, g, log, kept, t)
    requires UsableFix(c, g, x.m) && InFixedPhase(c, x.marks)
    requires (x.m.identity.Some? ==> x.m.identity == t.identity) && Collects(c, t, RtkFixed, x.m.stamp)
    requires seen.identity == t.identity && Pending(c, seen)
    requires s == Collected(c, g, seen,
               (if Continues(c, t, x.m.stamp) then t.samples else []) + [g.ecef(x.m.lla)], x.m.stamp)
    ensures var next := Joined(c, t, kept, x.m.stamp, |log|);
            if |next| >= c.originCount then PassKept(c, g, log + [x], [], s) && OriginKept(c, g, log + [x], next, s)
            else PassKept(c, g, log + [x], next, s) && !s.originSet
  {
    if kept != [] { assert kept[|kept| - 1] < |log|; }
    PassLater(c, g, log, x, kept, t);
    JoinKeeps(c, g, log + [x], kept, t, seen, s);
  }

  // One entry joins the log only.
  lemma KeepsOther(c: Config, g: Geometry, log: seq<Entry>, x: Entry, kept: seq<nat>, origin: seq<nat>,
                   t: Fields, s: Fields)
    requires Usable(c) && PassKept(c, g, log, kept, t) && OriginKept(c, g, log, origin, t)
    requires s.samples == t.samples && s.lastCandidate == t.lastCandidate && s.identity == t.identity
    requires c.mode.AverageFixed? ==>
               s.originSet == t.originSet && s.originLla == t.originLla && s.originEcef == t.originEcef
    ensures PassKept(c, g, log + [x], kept, s) && OriginKept(c, g, log + [x], origin, s)
  {
    PassLater(c, g, log, x, kept, t);
    OriginLater(c, g, log, x, origin, t);
  }

  lemma NoteJoins(c: Config, g: Geometry, j: Journal, m: Pvt, t: Fields, kept: seq<nat>)
    requires t == Arrived(c, j.fields, m) && Joins(c, g, t, m)
    requires kept == if Restarts(c, j.fields, m) then [] else j.pass
    ensures var k := Note(c, g, j, m);
            var next := Joined(c, t, kept, m.stamp, |j.log|);
            && k.fields == Located(c, g, t, m) && k.log == j.log + [Entry(m, k.marks)]
            && k.pass == (if |next| >= c.originCount then [] else next)
            && (|next| >= c.originCount ==> k.origin == next)
  {
  }

  lemma NoteSkips(c: Config, g: Geometry, j: Journal, m: Pvt, t: Fields, kept: seq<nat>)
    requires t == Arrived(c, j.fields, m) && !Joins(c, g, t, m)
    requires kept == (if Restarts(c, j.fields, m) then [] else j.pass) && |kept| < c.originCount
    ensures var k := Note(c, g, j, m);
            && k.fields == (if Refusal(c, t, m).None? then Located(c, g, t, m) else t)
            && k.log == j.log + [Entry(m, k.marks)] && k.pass == kept && k.origin == j.origin
  {
  }

  lemma JoinerKeeps(c: Config, g: Geometry, j: Journal, m: Pvt, t: Fields, kept: seq<nat>)
    requires Usable(c) && j.fields.tracker == TrackerOf(c, j.marks)
    requires t == Arrived(c, j.fields, m) && Joins(c, g, t, m)
    requires kept == (if Restarts(c, j.fields, m) then [] else j.pass)
    requires PassKept(c, g, j.log, kept, t)
    ensures var k := Note(c, g, j, m);
            PassKept(c, g, k.log, k.pass, k.fields) && OriginKept(c, g, k.log, k.origin, k.fields)
  {
    NoteJoins(c, g, j, m, t, kept);
    var k := Note(c, g, j, m);
    LocatedJoins(c, g, t, m);
    assert InFixedPhase(c, k.marks) by {
      NoteFollowsMarks(c, g, j, m);
      ActiveMeansConfirmed(c, k.marks);
    }
    var seen := t.(tracker := Tracked(c, t, m).0, lastTime := Some(m.stamp));
    KeepsJoin(c, g, j.log, Entry(m, k.marks), kept, t, seen, k.fields);
  }

  lemma NoteKeeps(c: Config, g: Geometry, j: Journal, m: Pvt)
    requires Usable(c) && j.fields.tracker == TrackerOf(c, j.marks)
    requires PassKept(c, g, j.log, j.pass, j.fields) && OriginKept(c, g, j.log, j.origin, j.fields)
    ensures var k := Note(c, g, j, m);
            PassKept(c, g, k.log, k.pass, k.fields) && OriginKept(c, g, k.log, k.origin, k.fields)
  {
    var t := Arrived(c, j.fields, m);
    var kept := if Restarts(c, j.fields, m) then [] else j.pass;
    PassArrives(c, g, j.log, j.pass, j.fields, m);
    if Joins(c, g, t, m) {
      JoinerKeeps(c, g, j, m, t, kept);
    } else {
      PassNeverRestarted(c, g, j.fields, m);
      NoteSkips(c, g, j, m, t, kept);
      if Refusal(c, t, m).None? { LocatedKeeps(c, g, t, m); }
      var k := Note(c, g, j, m);
      KeepsOther(c, g, j.log, Entry(m, k.marks), kept, j.origin, t, k.fields);
    }
  }

  // Main result: over every run the running average holds confirmed, gate-passing fixed samples of
  // one source, properly spaced, and an averaged origin is the mean of exactly originCount of them.
  lemma {:induction false} OriginIsMeanOfConfirmed(c: Config, g: Geometry, ms: seq<Pvt>)
    requires Usable(c)
    ensures var j := Run(c, g, ms);
            PassKept(c, g, j.log, j.pass, j.fields) && OriginKept(c, g, j.log, j.origin, j.fields)
  {
    if ms == [] {
      assert Positions(g, [], []) == [];
    } else {
      var pre := ms[..|ms| - 1];
      OriginIsMeanOfConfirmed(c, g, pre);
      RunFollowsMarks(c, g, pre);
      NoteKeeps(c, g, Run(c, g, pre), ms[|ms| - 1]);
    }
  }

  // The regression test inside updateOrigin never fires: processPvt has already restarted the
  // average on any epoch that would trigger it.
  lemma RegressionNeverReachesOrigin(c: Config, g: Geometry, ms: seq<Pvt>, m: Pvt)
    requires Joins(c, g, Arrived(c, Run(c, g, ms).fields, m), m)
    ensures var t := Arrived(c, Run(c, g, ms).fields, m);
            t.lastCandidate.Some? ==> m.stamp > t.lastCandidate.value + EQUAL_STAMPS
  {
  }
}
