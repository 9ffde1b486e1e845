// When the GNSS adapter classifies an epoch, what quality it reports, when it accepts the epoch, and
// when it fixes the origin, all in terms of the marks of the run.
module GnssAcceptance {
  import opened Outcomes
  import opened GnssTracker
  import opened GnssHistory

  // ---------- which epochs are classified ----------

  predicate OtherSource(s: Fields, m: Pvt) {
    match (s.identity, m.identity)
    case (Some(a), Some(b)) => a != b
    case _ => false
  }

  // An average is being collected, and either the source changed or time ran back behind its last sample.
  predicate Forgets(c: Config, s: Fields, m: Pvt) {
    && c.mode.AverageFixed? && !s.originSet
    && (|| OtherSource(s, m)
        || (c.enable && m.timeValid && m.stamp != 0 && s.lastCandidate.Some?
            && m.stamp + 1000 < s.lastCandidate.value))
  }

  // The stamp of the last classified epoch that still counts.
  function Before(c: Config, s: Fields, m: Pvt): Option<int> {
    if Forgets(c, s, m) then None else s.lastTime
  }

  // More than 1000 ns apart from the epoch before, and later unless time may run back.
  predicate Apart(c: Config, before: Option<int>, stamp: int) {
    before.None? || stamp > before.value + 1000 || (!c.monotonic && stamp < before.value - 1000)
  }

  predicate Admitted(c: Config, s: Fields, m: Pvt) {
    && c.enable && m.timeValid && m.fusable && m.stamp != 0
    && Apart(c, Before(c, s, m), m.stamp)
  }

  predicate AfterPause(c: Config, s: Fields, m: Pvt) {
    Before(c, s, m).Some? && m.stamp > Before(c, s, m).value + c.timeGap
  }

  // Main result: exactly the admitted epochs are classified; they alone move the last stamp, and each
  // leaves one mark, after a restart where the state is forgotten.
  lemma ClassifiedIff(c: Config, g: Geometry, ms: seq<Pvt>, m: Pvt)
    ensures var s, j := Run(c, g, ms).fields, Run(c, g, ms + [m]);
            && (Processed(c, g, s, m).1.Judged? <==> Admitted(c, s, m))
            && j.fields.lastTime == (if Admitted(c, s, m) then Some(m.stamp) else Before(c, s, m))
            && j.fields.identity == (if m.identity.Some? then m.identity else s.identity)
            && j.marks == Run(c, g, ms).marks + (if Forgets(c, s, m) then [Restart] else [])
                          + (if Admitted(c, s, m) then [Epoch(m.raw == RtkFixed, AfterPause(c, s, m))] else [])
  {
    RunExtends(c, g, ms, m);
    NoteClassifies(c, g, Run(c, g, ms), m);
  }

  lemma NoteClassifies(c: Config, g: Geometry, j: Journal, m: Pvt)
    ensures var s, k := j.fields, Note(c, g, j, m);
            && (Processed(c, g, s, m).1.Judged? <==> Admitted(c, s, m))
            && k.fields.lastTime == (if Admitted(c, s, m) then Some(m.stamp) else Before(c, s, m))
            && k.fields.identity == (if m.identity.Some? then m.identity else s.identity)
            && k.marks == j.marks + (if Forgets(c, s, m) then [Restart] else [])
                          + (if Admitted(c, s, m) then [Epoch(m.raw == RtkFixed, AfterPause(c, s, m))] else [])
  {
    ArrivesAs(c, j.fields, m);
    assert j.marks + (NewMarks(c, j.fields, m)) == Note(c, g, j, m).marks;
  }

  // What arrives: the state before classification.
  lemma ArrivesAs(c: Config, s: Fields, m: Pvt)
    ensures var t := Arrived(c, s, m);
            && (Restarts(c, s, m) <==> Forgets(c, s, m))
            && t.lastTime == Before(c, s, m)
            && t.identity == (if m.identity.Some? then m.identity else s.identity)
            && t.tracker == (if Forgets(c, s, m) then Tracker(Waiting, false, 0, 0) else s.tracker)
            && t.samples == (if Forgets(c, s, m) then [] else s.samples)
            && t.lastCandidate == (if Forgets(c, s, m) then None else s.lastCandidate)
            && t.originSet == s.originSet && t.originLla == s.originLla && t.originEcef == s.originEcef
            && (Refusal(c, t, m).None? <==> Admitted(c, s, m))
            && (Gap(c, t, m) <==> AfterPause(c, s, m))
  {
  }

  // ---------- the phase after an epoch ----------

  // The fixed phase was lost, and a fixed epoch has come since.
  ghost predicate Regains(c: Config, h: seq<Mark>) {
    EverConfirmed(c, h) && !InFixedPhase(c, h) && exists e :: FixedSince(c, h, e)
  }

  lemma PhaseMeans(c: Config, h: seq<Mark>)
    requires Usable(c)
    ensures TrackerOf(c, h).phase == ActiveFixed <==> InFixedPhase(c, h)
    ensures TrackerOf(c, h).phase == Regaining <==> Regains(c, h)
  {
    ActiveMeansConfirmed(c, h);
    CountersAreRuns(c, h);
    if EverConfirmed(c, h) { LostMeansBroken(c, h); }
  }

  lemma QualityIsPhase(c: Config, t: Tracker, fixed: bool)
    ensures var u := Advance(c, t, fixed);
            u.1 == match u.0.phase case ActiveFixed => RtkFixed case Regaining => Recovering case _ => Invalid
  {
  }

  // The phase of a classified epoch, by its marks.
  lemma TrackedMeans(c: Config, g: Geometry, ms: seq<Pvt>, m: Pvt, q: Quality)
    requires Usable(c) && Admitted(c, Run(c, g, ms).fields, m)
    requires q == Tracked(c, Arrived(c, Run(c, g, ms).fields, m), m).1
    ensures var h := Run(c, g, ms + [m]).marks;
            q == if InFixedPhase(c, h) then RtkFixed else if Regains(c, h) then Recovering else Invalid
  {
    var s := Run(c, g, ms).fields;
    var t := Arrived(c, s, m);
    RunExtends(c, g, ms, m);
    RunFollowsMarks(c, g, ms + [m]);
    ArrivesAs(c, s, m);
    LocatedTracker(c, g, t, m);
    QualityIsPhase(c, if Gap(c, t, m) then AfterGap(t.tracker) else t.tracker, m.raw == RtkFixed);
    PhaseMeans(c, Run(c, g, ms + [m]).marks);
  }

  // ---------- quality and acceptance ----------

  // Either no position is published, or this one has finite coordinates.
  predicate Placeable(c: Config, g: Geometry, m: Pvt) {
    c.publishLocal && m.raw != Invalid ==> g.finite(g.ecef(m.lla))
  }

  // The configuration takes this quality.
  predicate Takes(c: Config, q: Quality) {
    || (q == RtkFixed && c.takeFixed)
    || (q == RtkFloat && c.takeFloat)
    || (q == Differential && c.takeDifferential)
    || (q == Single && c.takeSingle)
  }

  // The position of the message in the frame of the origin.
  function Offset(g: Geometry, s: Fields, m: Pvt): Vec {
    var p, o := g.ecef(m.lla), s.originEcef;
    g.enu(s.originLla, Vec(p.x - o.x, p.y - o.y, p.z - o.z))
  }

  // The message is good enough by itself: a fixed solution needs the fixed phase, and no other one
  // counts while the phase is being regained.
  ghost predicate Eligible(c: Config, g: Geometry, h: seq<Mark>, m: Pvt) {
    && m.gates && Placeable(c, g, m) && Takes(c, m.raw)
    && (if m.raw == RtkFixed then InFixedPhase(c, h) else !Regains(c, h))
  }

  ghost predicate Publishable(c: Config, g: Geometry, s: Fields, m: Pvt) {
    c.publishLocal ==> s.originSet && g.finite(Offset(g, s, m))
  }

  // Main result: an epoch is accepted exactly when it is admitted, follows no pause, is eligible after
  // the marks of the run, and its position, if it is to be published, can be given relative to the
  // origin; an accepted epoch is published there and no other is.
  lemma AcceptedIff(c: Config, g: Geometry, ms: seq<Pvt>, m: Pvt)
    requires Usable(c)
    ensures var s, j, r := Run(c, g, ms).fields, Run(c, g, ms + [m]), Processed(c, g, Run(c, g, ms).fields, m).1;
            && (r.Judged? && r.accepted <==>
                && Admitted(c, s, m) && !AfterPause(c, s, m)
                && Eligible(c, g, j.marks, m) && Publishable(c, g, j.fields, m))
            && (r.Judged? ==>
                r.published == if r.accepted && c.publishLocal then Some(Offset(g, j.fields, m)) else None)
  {
    var s := Run(c, g, ms).fields;
    var j, t := Run(c, g, ms + [m]), Arrived(c, s, m);
    RunExtends(c, g, ms, m);
    ArrivesAs(c, s, m);
    if Admitted(c, s, m) {
      var q := Tracked(c, t, m).1;
      TrackedMeans(c, g, ms, m, q);
      JudgedAs(c, g, t, m, q, j.fields);
    }
  }

  lemma EnabledMeans(c: Config, g: Geometry, m: Pvt, q: Quality)
    ensures Enabled(c, g, m, q) <==>
            m.gates && Placeable(c, g, m) && Takes(c, m.raw)
            && (if m.raw == RtkFixed then q == RtkFixed else q != Recovering)
  {
  }

  lemma OffsetIsLocal(g: Geometry, s: Fields, m: Pvt)
    ensures Local(g, s, m) == Offset(g, s, m)
  {
  }

  lemma JudgedAs(c: Config, g: Geometry, t: Fields, m: Pvt, q: Quality, after: Fields)
    requires q == Tracked(c, t, m).1 && after == Located(c, g, t, m)
    ensures var r := Judge(c, g, t, m);
            && (r.accepted <==>
                && !Gap(c, t, m) && m.gates && Placeable(c, g, m) && Takes(c, m.raw)
                && (if m.raw == RtkFixed then q == RtkFixed else q != Recovering)
                && Publishable(c, g, after, m))
            && r.published == if r.accepted && c.publishLocal then Some(Offset(g, after, m)) else None
  {
    EnabledMeans(c, g, m, q);
    OffsetIsLocal(g, after, m);
  }

  // Main result: the reported quality is held at fixed during the fixed phase and at recovering while it
  // is being regained; otherwise it is that of the message, unless this is a fixed solution not yet
  // confirmed or did not pass the gates.
  lemma FilteredMeans(c: Config, g: Geometry, ms: seq<Pvt>, m: Pvt)
    requires Usable(c) && Admitted(c, Run(c, g, ms).fields, m)
    ensures var h, r := Run(c, g, ms + [m]).marks, Processed(c, g, Run(c, g, ms).fields, m).1;
            r.Judged? && r.filtered ==
              if !Placeable(c, g, m) then Invalid
              else if InFixedPhase(c, h) then RtkFixed
              else if Regains(c, h) then Recovering
              else if m.raw != RtkFixed && m.gates then m.raw
              else Invalid
  {
    var s := Run(c, g, ms).fields;
    ArrivesAs(c, s, m);
    var q := Tracked(c, Arrived(c, s, m), m).1;
    TrackedMeans(c, g, ms, m, q);
  }

  // ---------- when the origin is fixed ----------

  // A fixed solution that may serve as origin: classified, past the gates, with finite coordinates, and
  // in the fixed phase.
  ghost predicate Anchors(c: Config, g: Geometry, s: Fields, h: seq<Mark>, m: Pvt) {
    && c.publishLocal && Admitted(c, s, m)
    && m.raw == RtkFixed && m.gates && g.finite(g.ecef(m.lla))
    && InFixedPhase(c, h)
  }

  lemma AnchorsAre(c: Config, g: Geometry, ms: seq<Pvt>, m: Pvt)
    requires Usable(c)
    ensures var t := Arrived(c, Run(c, g, ms).fields, m);
            Anchors(c, g, Run(c, g, ms).fields, Run(c, g, ms + [m]).marks, m) <==>
            Refusal(c, t, m).None? && c.publishLocal && UsableFix(c, g, m) && Tracked(c, t, m).1 == RtkFixed
  {
    var s := Run(c, g, ms).fields;
    ArrivesAs(c, s, m);
    if Admitted(c, s, m) { TrackedMeans(c, g, ms, m, Tracked(c, Arrived(c, s, m), m).1); }
  }

  // Main result: the first anchoring fix becomes the origin when the mode asks for it; a manual origin
  // is in force from the start or never.
  lemma FirstFixIsOrigin(c: Config, g: Geometry, ms: seq<Pvt>, m: Pvt)
    requires Usable(c) && !c.mode.AverageFixed?
    ensures var s, j := Run(c, g, ms).fields, Run(c, g, ms + [m]);
            var taken := c.mode.FirstFixed? && !s.originSet && Anchors(c, g, s, j.marks, m);
            if taken then j.fields.originSet && j.fields.originLla == m.lla && j.fields.originEcef == g.ecef(m.lla)
            else j.fields.originSet == s.originSet && (s.originSet ==> SameOrigin(s, j.fields))
    ensures Run(c, g, []).fields.originSet <==>
            c.mode.Manual? && g.finite(c.mode.lla) && g.finite(g.ecef(c.mode.lla))
    ensures var s := Run(c, g, []).fields;
            s.originSet ==> s.originLla == c.mode.lla && s.originEcef == g.ecef(c.mode.lla)
  {
    AnchorsAre(c, g, ms, m);
    RunExtends(c, g, ms, m);
    ArrivesAs(c, Run(c, g, ms).fields, m);
  }

  // The epoch is not a repetition of the last sample of the average.
  predicate NewSample(last: Option<int>, stamp: int) {
    last.None? || stamp > last.value + 1000 || stamp < last.value - 1000
  }

  // The samples that an anchoring fix joins: those so far, unless it comes too late after the last.
  function Carried(c: Config, s: Fields, m: Pvt): seq<Vec> {
    if Forgets(c, s, m) then []
    else if s.lastCandidate.Some? && m.stamp > s.lastCandidate.value + c.originGap then []
    else s.samples
  }

  function CandidateBefore(c: Config, s: Fields, m: Pvt): Option<int> {
    if Forgets(c, s, m) then None else s.lastCandidate
  }

  // Main result: while an average is being collected, exactly the anchoring fixes that are new samples
  // join it, and the one that completes it sets the origin if the mean is finite in both coordinates.
  lemma AnchorsJoinAverage(c: Config, g: Geometry, ms: seq<Pvt>, m: Pvt)
    requires Usable(c) && c.mode.AverageFixed? && !Run(c, g, ms).fields.originSet
    ensures var s, j := Run(c, g, ms).fields, Run(c, g, ms + [m]);
            var joined := Carried(c, s, m) + [g.ecef(m.lla)];
            if !(Anchors(c, g, s, j.marks, m) && NewSample(CandidateBefore(c, s, m), m.stamp)) then
              && !j.fields.originSet && j.fields.lastCandidate == CandidateBefore(c, s, m)
              && j.fields.samples == if Forgets(c, s, m) then [] else s.samples
            else if |joined| < c.originCount then
              !j.fields.originSet && j.fields.samples == joined && j.fields.lastCandidate == Some(m.stamp)
            else
              && j.fields.originEcef == Mean(joined) && j.fields.originLla == g.geodetic(Mean(joined))
              && (j.fields.originSet <==> g.finite(Mean(joined)) && g.finite(g.geodetic(Mean(joined))))
              && j.fields.samples == [] && j.fields.lastCandidate == None
  {
    var s := Run(c, g, ms).fields;
    AnchorsAre(c, g, ms, m);
    RunExtends(c, g, ms, m);
    ArrivesAs(c, s, m);
    OriginStep(c, g, Arrived(c, s, m), m);
  }

  // The same on one arrived state.
  lemma OriginStep(c: Config, g: Geometry, t: Fields, m: Pvt)
    requires c.mode.AverageFixed? && !t.originSet
    requires t.lastCandidate.Some? && Refusal(c, t, m).None? ==> m.stamp >= t.lastCandidate.value - 1000
    ensures var after := Located(c, g, t, m);
            var late := t.lastCandidate.Some? && m.stamp > t.lastCandidate.value + c.originGap;
            var joined := (if late then [] else t.samples) + [g.ecef(m.lla)];
            var joins := c.publishLocal && UsableFix(c, g, m) && Tracked(c, t, m).1 == RtkFixed
                         && NewSample(t.lastCandidate, m.stamp);
            Refusal(c, t, m).None? ==>
              if !joins then
                !after.originSet && after.samples == t.samples && after.lastCandidate == t.lastCandidate
              else if |joined| < c.originCount then
                !after.originSet && after.samples == joined && after.lastCandidate == Some(m.stamp)
              else
                && after.originEcef == Mean(joined) && after.originLla == g.geodetic(Mean(joined))
                && (after.originSet <==> g.finite(Mean(joined)) && g.finite(g.geodetic(Mean(joined))))
                && after.samples == [] && after.lastCandidate == None
  {
  }

  lemma SumLast(s: seq<Vec>, v: Vec)
    ensures Sum(s + [v]) == Plus(Sum(s), v)
  {
    assert (s + [v])[..|s|] == s;
  }

  // Sums of samples add up, so that the order of the samples plays no part.
  lemma {:induction false} SumsAdd(a: seq<Vec>, b: seq<Vec>)
    ensures Sum(a + b) == Plus(Sum(a), Sum(b))
  {
    if b == [] {
      assert a + b == a;
    } else {
      var init, v := b[..|b| - 1], b[|b| - 1];
      SumsAdd(a, init);
      SumLast(a + init, v);
      assert a + b == a + init + [v];
    }
  }

  lemma ShareTimes(x: real, n: real)
    requires n > 0.0
    ensures x / n * n == x
  {
  }

  // The mean, taken as often as there are samples, is their sum.
  lemma MeanBalances(a: seq<Vec>, mean: Vec, sum: Vec)
    requires a != [] && mean == Mean(a) && sum == Sum(a)
    ensures mean.x * |a| as real == sum.x && mean.y * |a| as real == sum.y && mean.z * |a| as real == sum.z
  {
    ShareTimes(sum.x, |a| as real);
    ShareTimes(sum.y, |a| as real);
    ShareTimes(sum.z, |a| as real);
  }
}
