// Runs of the front end: arriving samples, scan begins and queries, as LIVMapper drives
// the IMU transaction. One query is propagated, updated and then committed or taken back.
module EstimatorRuns {
  import opened Outcomes
  import opened ImuCoverage
  import opened ImuTransaction

  datatype Odometry = Odometry(stampNs: int, state: State)

  // What survives between two queries.
  datatype Front = Front(state: State, process: Process, complete: bool, buffer: seq<Sample>,
                         lastStampNs: int, published: seq<Odometry>)

  // A query carries the outcome that the visual or LiDAR front end will have: whether an image
  // finds LiDAR features or retained visual support, whether the measurement is accepted, which
  // update it applies, and whether raw odometry was asked for.
  datatype Event =
    | Arrive(sample: Sample)
    | BeginScan(begin: real)
    | Query(target: real, stampNs: int, lio: bool, support: bool, accepted: bool, update: int, raw: bool)

  predicate Commits(e: Event) { !e.Query? || e.lio || e.accepted }

  // publishRawBackendOdometryMessage: only strictly newer stamps are published.
  function Publish(f: Front, o: Odometry): Front {
    if f.lastStampNs >= 0 && o.stampNs <= f.lastStampNs then f
    else f.(lastStampNs := o.stampNs, published := f.published + [o])
  }

  // The update of a propagated query and the end of its transaction. An image with support is
  // refused over an incomplete prediction before anything decides whether it is accepted.
  function Settled(m: Motion, f: Front, flown: Propagation, e: Event): Outcome<Front>
    requires e.Query?
  {
    var updated := if e.accepted then m.update(e.update, flown.state) else flown.state;
    var posed := if e.lio then Ok(flown.process) else ScanPose(flown.process, e.target, updated);
    if !e.lio && e.support && !flown.complete then Throw(VioBlocked)
    else if posed.Throw? then Throw(posed.error)
    else if !Commits(e) then Ok(f)
    else if !flown.complete then Throw(InvalidHandoff)
    else
      var g := f.(state := updated, process := posed.value, complete := true,
                  buffer := Released(f.buffer, posed.value.stateTime));
      Ok(if e.raw then Publish(g, Odometry(e.stampNs, updated)) else g)
  }

  // `view` hands out the samples up to this time.
  predicate Ready(f: Front, target: real) {
    var v := ViewOf(f.buffer, CursorOf(f.process), target);
    v.Ok? && v.value.ready
  }

  predicate IsReady(f: Front, e: Event) { e.Query? && Ready(f, e.target) }

  // The propagation of a ready query; a look-ahead has to give complete coverage.
  function Propagated(m: Motion, f: Front, target: real, lio: bool): Outcome<Propagation>
    requires Ready(f, target)
  {
    var samples := ViewOf(f.buffer, CursorOf(f.process), target).value.samples;
    var flown := Undistorted(m, f.process, f.state, samples, target, lio);
    if flown.Ok? && HasRight(samples, target) && !flown.value.complete then Throw(NoSharedPrediction) else flown
  }

  // One event as a transaction; a query whose samples are not there yet waits.
  function Step(m: Motion, f: Front, e: Event): Outcome<Front> {
    match e
    case Arrive(u) => Ok(f.(buffer := f.buffer + [u]))
    case BeginScan(begin) => Ok(f.(process := ScanBegun(f.process, begin, f.state)))
    case Query(target, _, lio, _, _, _, _) =>
      var view := ViewOf(f.buffer, CursorOf(f.process), target);
      if view.Throw? then Throw(view.error)
      else if !view.value.ready then Ok(f)
      else
        var flown := Propagated(m, f, target, lio);
        if flown.Throw? then Throw(flown.error) else Settled(m, f, flown.value, e)
  }

  // The front end with the time of the last event, last_lio_update_time. It is not part of the
  // transaction: a rejected query moves it as well.
  datatype Driver = Driver(front: Front, lastEvent: real)

  predicate MovesBack(d: Driver, e: Event) { IsReady(d.front, e) && e.target < d.lastEvent - EPSILON }

  // One event of an initialised run.
  function Handle(m: Motion, d: Driver, e: Event): Outcome<Driver> {
    if MovesBack(d, e) then Throw(MovedBackwards)
    else
      var f := Step(m, d.front, e);
      if f.Throw? then Throw(f.error) else Ok(Driver(f.value, if IsReady(d.front, e) then e.target else d.lastEvent))
  }

  function Run(m: Motion, d: Driver, es: seq<Event>): Outcome<Driver> {
    if es == [] then Ok(d)
    else
      var before := Run(m, d, es[..|es| - 1]);
      if before.Throw? then before else Handle(m, before.value, es[|es| - 1])
  }

  // ---------- release never changes a later selection ----------

  lemma {:induction false} FreshSkipsOld(s: seq<Sample>, start: real)
    requires s != [] && s[0].stamp <= start
    ensures Fresh(s, start) == Fresh(s[1..], start)
  {
    var m := |s| - 1;
    if m > 0 {
      FreshSkipsOld(s[..m], start);
      assert s[..m][1..] == s[1..][..m - 1];
    } else {
      assert s[..0] == [];
    }
  }

  lemma {:induction false} AcceptedTail(s: seq<Sample>)
    requires s != [] && Accepted(s)
    ensures Accepted(s[1..])
  {
    var m := |s| - 1;
    if m > 0 {
      AcceptedTail(s[..m]);
      assert s[..m][1..] == s[1..][..m - 1];
      if m == 1 {
        assert s[..1][..0] == [];
      }
    }
  }

  // The same selection with that many samples fewer to release.
  function Fewer(v: InputView, dropped: nat): InputView
    requires dropped <= v.releasable
  {
    v.(releasable := v.releasable - dropped)
  }

  lemma DropOne(received: seq<Sample>, c: Cursor, target: real, v: InputView)
    requires received != [] && received[0].stamp <= c.stateTime && ViewOf(received, c, target) == Ok(v)
    ensures v.releasable >= 1
    ensures ViewOf(received[1..], c, target) == Ok(Fewer(v, 1))
  {
    var tail := received[1..];
    var n := FirstAfter(received, target);
    assert n == 1 + FirstAfter(tail, target);
    var scanned := received[..if n < |received| then n + 1 else n];
    AcceptedTail(scanned);
    assert scanned[1..] == tail[..if n - 1 < |tail| then n else n - 1];
    FreshSkipsOld(received[..n], c.stateTime);
    assert received[..n][1..] == tail[..n - 1];
  }

  // Releasing at the committed time never changes what a later query selects.
  lemma ReleaseKeepsView(received: seq<Sample>, committed: real, c: Cursor, target: real, v: InputView)
    requires committed <= c.stateTime && ViewOf(received, c, target) == Ok(v)
    ensures 0 <= |received| - |Released(received, committed)| <= v.releasable
    ensures ViewOf(Released(received, committed), c, target) ==
            Ok(Fewer(v, |received| - |Released(received, committed)|))
  {
    var view := (s: seq<Sample>) => ViewOf(s, c, target);
    forall s: seq<Sample>, w | s != [] && s[0].stamp <= committed && view(s) == Ok(w)
      ensures w.releasable >= 1 && view(s[1..]) == Ok(Fewer(w, 1))
    {
      DropOne(s, c, target, w);
    }
    ReleaseStepByStep(view, received, committed, v);
  }

  lemma {:induction false} ReleaseStepByStep(view: seq<Sample> -> Outcome<InputView>, received: seq<Sample>,
                                             committed: real, v: InputView)
    requires forall s: seq<Sample>, w :: s != [] && s[0].stamp <= committed && view(s) == Ok(w) ==>
               w.releasable >= 1 && view(s[1..]) == Ok(Fewer(w, 1))
    requires view(received) == Ok(v)
    ensures 0 <= |received| - |Released(received, committed)| <= v.releasable
    ensures view(Released(received, committed)) == Ok(Fewer(v, |received| - |Released(received, committed)|))
    decreases |received|
  {
    if received != [] && received[0].stamp <= committed {
      ReleaseStepByStep(view, received[1..], committed, Fewer(v, 1));
    }
  }

  // ---------- one transaction ----------

  // The front end between two queries of an initialised run.
  ghost predicate Sound(f: Front) {
    var p := f.process;
    !p.needInit && 0.0 < p.stateTime && p.lastImu.stamp <= p.stateTime && Accepted(f.buffer) &&
    (p.scanOrigin.Some? ==>
       p.poses != [] && p.poses[|p.poses| - 1].offset == p.stateTime - p.scanOrigin.value)
  }

  // Moreover, the received stamps strictly increase.
  ghost predicate Good(f: Front) { Sound(f) && Increasing(f.buffer) }

  // What the callbacks and the scheduler guarantee: stamps strictly increase and no query
  // is older than the persistent state.
  ghost predicate Admissible(f: Front, e: Event) {
    match e
    case Arrive(u) => u.stamp >= -1.0 && forall i :: 0 <= i < |f.buffer| ==> f.buffer[i].stamp < u.stamp
    case BeginScan(_) => true
    case Query(target, _, _, _, _, _, _) => target >= f.process.stateTime
  }

  // The pieces a query would fly.
  function QueryPieces(f: Front, target: real): seq<Piece>
    requires ViewOf(f.buffer, CursorOf(f.process), target).Ok?
  {
    var samples := ViewOf(f.buffer, CursorOf(f.process), target).value.samples;
    CutAll(CursorOf(f.process), samples, target, Deficient(CursorOf(f.process), samples, target))
  }

  // A query that `view` calls ready is flown without any exception up to its target, and its
  // coverage flag says whether the own samples are spaced.
  lemma ReadyQueryFlies(m: Motion, f: Front, target: real, lio: bool)
    requires Sound(f) && target >= f.process.stateTime
    ensures ViewOf(f.buffer, CursorOf(f.process), target).Ok?
    ensures var v := ViewOf(f.buffer, CursorOf(f.process), target).value;
            v.ready ==>
              v.eligible <= |v.samples| && EndOf(QueryPieces(f, target), f.process.stateTime) == target &&
              Chosen(CursorOf(f.process), v.samples[..v.eligible], v.samples, target) &&
              (Tiles(QueryPieces(f, target), f.process.stateTime, target) <==>
               Spaced(v.samples[..v.eligible], target)) &&
              (HasRight(v.samples, target) ==> Tiles(QueryPieces(f, target), f.process.stateTime, target)) &&
              Undistorted(m, f.process, f.state, v.samples, target, lio) ==
              Ok(Advanced(m, f.process, f.state, v.samples, QueryPieces(f, target), target, lio))
  {
    var c := CursorOf(f.process);
    var n := FirstAfter(f.buffer, target);
    AcceptedPrefix(f.buffer, if n < |f.buffer| then n + 1 else n);
    var v := ViewOf(f.buffer, c, target).value;
    if v.ready {
      var own := v.samples[..v.eligible];
      ViewChooses(f.buffer, c, target);
      ChosenTiles(c, own, v.samples, target);
      SupportIsDeficiency(c, own, v.samples, target);
      NothingRefused(c, own, v.samples, target, QueryPieces(f, target));
    }
  }

  lemma NothingRefused(c: Cursor, own: seq<Sample>, samples: seq<Sample>, target: real, pieces: seq<Piece>)
    requires Chosen(c, own, samples, target)
    requires Deficient(c, samples, target) ==> |own| < 2 && Tiles(pieces, c.stateTime, target)
    ensures Refusal(c, samples, target) == None
    ensures LateRefusal(c, pieces, target, Deficient(c, samples, target)) == None
  {
    SupportIsDeficiency(c, own, samples, target);
    if Deficient(c, samples, target) {
      ChainIncreases(c, own, samples, target);
      ContiguousTotal(pieces, c.stateTime);
    }
  }

  lemma ChainIncreases(c: Cursor, own: seq<Sample>, samples: seq<Sample>, target: real)
    requires Chosen(c, own, samples, target) && |own| < 2
    ensures Increasing([c.carry] + samples)
  {
    assert forall i :: 0 <= i < |own| ==> samples[i] == own[i];
  }

  // A query that commits: view is ready and the event is a scan or an accepted measurement.
  predicate CommitsNow(f: Front, e: Event) { IsReady(f, e) && Commits(e) }

  function Flown(f: Front, e: Event): seq<Piece> {
    if CommitsNow(f, e) then QueryPieces(f, e.target) else []
  }

  lemma TrailEnds(m: Motion, s: State, r: Rates, pieces: seq<Piece>, origin: real)
    ensures pieces != [] ==>
              Trail(m, s, r, pieces, origin) != [] &&
              Trail(m, s, r, pieces, origin)[|Trail(m, s, r, pieces, origin)| - 1].offset ==
              pieces[|pieces| - 1].end - origin
  {
  }

  // The history always ends at the state time, so an image pose is never older than it.
  lemma ScanPoseFits(m: Motion, f: Front, samples: seq<Sample>, pieces: seq<Piece>, target: real, s: State)
    requires Sound(f) && EndOf(pieces, f.process.stateTime) == target
    ensures var p := Advanced(m, f.process, f.state, samples, pieces, target, false).process;
            ScanPose(p, target, s).Ok? &&
            ScanPose(p, target, s).value == p.(poses := ScanPose(p, target, s).value.poses) &&
            (p.scanOrigin.Some? ==>
               ScanPose(p, target, s).value.poses != [] &&
               ScanPose(p, target, s).value.poses[|ScanPose(p, target, s).value.poses| - 1].offset ==
               target - p.scanOrigin.value)
  {
    var origin := if f.process.scanOrigin.Some? then f.process.scanOrigin.value else f.process.stateTime;
    TrailEnds(m, f.state, f.process.rates, pieces, origin);
  }

  lemma {:induction false} ReleasedStaysOrdered(received: seq<Sample>, committed: real)
    requires Accepted(received)
    ensures Accepted(Released(received, committed))
    ensures Increasing(received) ==> Increasing(Released(received, committed))
    decreases |received|
  {
    if received != [] && received[0].stamp <= committed {
      AcceptedTail(received);
      ReleasedStaysOrdered(received[1..], committed);
    }
  }

  // The carry of a committed query is its last own sample or the old carry.
  lemma CarryStaysOld(m: Motion, f: Front, target: real, lio: bool)
    requires Sound(f) && target >= f.process.stateTime
    requires ViewOf(f.buffer, CursorOf(f.process), target).Ok?
    requires ViewOf(f.buffer, CursorOf(f.process), target).value.ready
    ensures var v := ViewOf(f.buffer, CursorOf(f.process), target).value;
            Advanced(m, f.process, f.state, v.samples, QueryPieces(f, target), target, lio).process.lastImu.stamp
            <= target
  {
    var v := ViewOf(f.buffer, CursorOf(f.process), target).value;
    ViewChooses(f.buffer, CursorOf(f.process), target);
    SupportIsDeficiency(CursorOf(f.process), v.samples[..v.eligible], v.samples, target);
    var own := NewCount(v.samples, target);
    if own > 0 {
      assert v.samples[..v.eligible][own - 1] == v.samples[own - 1];
    }
  }

  // The samples a ready query may use, without the look-ahead.
  function Own(f: Front, e: Event): seq<Sample>
    requires e.Query? && ViewOf(f.buffer, CursorOf(f.process), e.target).Ok?
  {
    var v := ViewOf(f.buffer, CursorOf(f.process), e.target).value;
    if v.eligible <= |v.samples| then v.samples[..v.eligible] else v.samples
  }

  // An image that neither commits nor has any support to work on.
  predicate Idles(e: Event) { e.Query? && !e.lio && !e.support && !e.accepted }

  // Every ready query goes through exactly when its own samples are spaced, or when it is an
  // image without support that is not accepted either. Otherwise an image with support is
  // blocked and everything else fails at the handoff. Two equal stamps are enough for that.
  lemma CommitIffSpaced(m: Motion, f: Front, e: Event)
    requires Sound(f) && IsReady(f, e) && e.target >= f.process.stateTime
    ensures Step(m, f, e).Ok? <==> Spaced(Own(f, e), e.target) || Idles(e)
    ensures Step(m, f, e).Throw? ==>
              Step(m, f, e).error == if !e.lio && e.support then VioBlocked else InvalidHandoff
    ensures Step(m, f, e).Ok? && !Commits(e) ==> Step(m, f, e).value == f
    ensures Step(m, f, e).Ok? && Commits(e) ==>
              var g := Step(m, f, e).value;
              Sound(g) && g.complete && g.process.stateTime == e.target &&
              (Increasing(f.buffer) ==> Increasing(g.buffer))
  {
    ReadyQueryFlies(m, f, e.target, e.lio);
    CarryStaysOld(m, f, e.target, e.lio);
    var v := ViewOf(f.buffer, CursorOf(f.process), e.target).value;
    SettledIffComplete(m, f, v.samples, QueryPieces(f, e.target), e);
  }

  // The end of a query that has been propagated over these pieces.
  lemma SettledIffComplete(m: Motion, f: Front, samples: seq<Sample>, pieces: seq<Piece>, e: Event)
    requires Sound(f) && e.Query? && e.target >= f.process.stateTime
    requires EndOf(pieces, f.process.stateTime) == e.target
    requires Advanced(m, f.process, f.state, samples, pieces, e.target, e.lio).process.lastImu.stamp <= e.target
    ensures var flown := Advanced(m, f.process, f.state, samples, pieces, e.target, e.lio);
            var r := Settled(m, f, flown, e);
            (r.Ok? <==> flown.complete || Idles(e)) &&
            (r.Throw? ==> r.error == if !e.lio && e.support then VioBlocked else InvalidHandoff) &&
            (r.Ok? && !Commits(e) ==> r.value == f) &&
            (r.Ok? && Commits(e) ==>
               Sound(r.value) && r.value.complete && r.value.process.stateTime == e.target &&
               (Increasing(f.buffer) ==> Increasing(r.value.buffer)))
  {
    var flown := Advanced(m, f.process, f.state, samples, pieces, e.target, e.lio);
    if !e.lio {
      ScanPoseFits(m, f, samples, pieces, e.target,
                   if e.accepted then m.update(e.update, flown.state) else flown.state);
    }
    ReleasedStaysOrdered(f.buffer, e.target);
  }

  // What any query does to the time, the buffer and the initialisation.
  lemma QueryEffect(m: Motion, f: Front, e: Event)
    requires e.Query? && Step(m, f, e).Ok?
    ensures var g := Step(m, f, e).value;
            g.process.needInit == f.process.needInit &&
            if CommitsNow(f, e) then g.process.stateTime == e.target && g.buffer == Released(f.buffer, e.target)
            else g == f
  {
  }

  // The front end over a buffer with two samples of one stamp.
  function EqualStamps(s: State, r: Rates): Front {
    Front(s, Process(Sample(1.0, 0), 1.0, r, [], None, true, false), true,
          [Sample(1.5, 0), Sample(1.5, 0), Sample(1.8, 0)], -1, [])
  }

  lemma EqualStampsAreReady(s: State, r: Rates, e: Event)
    requires e.Query? && e.target == 2.0
    ensures var f := EqualStamps(s, r);
            Sound(f) && IsReady(f, e) && !Spaced(Own(f, e), e.target)
  {
    var u, w := Sample(1.5, 0), Sample(1.8, 0);
    var b := [u, u, w];
    TwoEqualSamples(u, w);
    assert EqualStamps(s, r).buffer[..3] == b;
    assert b[0].stamp == b[1].stamp;
  }

  // A concrete run that fails: `view` accepts two samples with one stamp, and the scan after
  // them cannot commit.
  lemma EqualStampsBlockTheScan(m: Motion, s: State, r: Rates)
    ensures Step(m, EqualStamps(s, r), Query(2.0, 0, true, false, true, 0, false)) == Throw(InvalidHandoff)
  {
    EqualStampsAreReady(s, r, Query(2.0, 0, true, false, true, 0, false));
    CommitIffSpaced(m, EqualStamps(s, r), Query(2.0, 0, true, false, true, 0, false));
  }

  // The same samples stop an image that would be rejected anyway, as soon as it has support.
  lemma EqualStampsBlockRejectedImages(m: Motion, s: State, r: Rates)
    ensures Step(m, EqualStamps(s, r), Query(2.0, 0, false, true, false, 0, false)) == Throw(VioBlocked)
    ensures Step(m, EqualStamps(s, r), Query(2.0, 0, false, false, false, 0, false)) == Ok(EqualStamps(s, r))
  {
    EqualStampsAreReady(s, r, Query(2.0, 0, false, true, false, 0, false));
    CommitIffSpaced(m, EqualStamps(s, r), Query(2.0, 0, false, true, false, 0, false));
    EqualStampsAreReady(s, r, Query(2.0, 0, false, false, false, 0, false));
    CommitIffSpaced(m, EqualStamps(s, r), Query(2.0, 0, false, false, false, 0, false));
  }

  lemma TwoEqualSamples(u: Sample, w: Sample)
    requires u.stamp == 1.5 && w.stamp == 1.8
    ensures Accepted([u, u, w]) && Fresh([u, u, w], 1.0) == [u, u, w] && FirstAfter([u, u, w], 2.0) == 3
  {
    var b := [u, u, w];
    assert b[..2] == [u, u] && [u, u][..1] == [u] && [u][..0] == [];
    assert Accepted([u]) && Fresh([u], 1.0) == [u];
    assert Accepted([u, u]) && Fresh([u, u], 1.0) == [u, u];
    assert b[1..] == [u, w] && [u, w][1..] == [w] && [w][1..] == [];
    assert FirstAfter([w], 2.0) == 1 && FirstAfter([u, w], 2.0) == 2;
  }

  lemma ReadyIsSpaced(f: Front, e: Event)
    requires Good(f) && IsReady(f, e)
    ensures Spaced(Own(f, e), e.target)
  {
    ViewChooses(f.buffer, CursorOf(f.process), e.target);
    IncreasingIsSpaced(Own(f, e), e.target);
  }

  // Stamps do not decrease and no query is older than the persistent state.
  predicate Conforms(f: Front, e: Event) {
    match e
    case Arrive(u) => u.stamp >= Previous(f.buffer, |f.buffer|)
    case BeginScan(_) => true
    case Query(target, _, _, _, _, _, _) => target >= f.process.stateTime
  }

  // A ready query over own samples that are not spaced, with anything to commit or to track.
  predicate Blocks(f: Front, e: Event) { IsReady(f, e) && !Spaced(Own(f, e), e.target) && !Idles(e) }

  // With repeated stamps too, a step raises an exception exactly when it blocks; any other step
  // flies exactly the time between the old and the new persistent state.
  lemma StepThrowsIffBlocked(m: Motion, f: Front, e: Event)
    requires Sound(f) && Conforms(f, e)
    ensures Step(m, f, e).Throw? <==> Blocks(f, e)
    ensures Step(m, f, e).Ok? ==>
              Sound(Step(m, f, e).value) &&
              Tiles(Flown(f, e), f.process.stateTime, Step(m, f, e).value.process.stateTime)
  {
    match e
    case Arrive(u) =>
      assert (f.buffer + [u])[..|f.buffer|] == f.buffer;
    case BeginScan(_) =>
    case Query(target, _, lio, _, _, _, _) =>
      ReadyQueryFlies(m, f, target, lio);
      if IsReady(f, e) {
        CommitIffSpaced(m, f, e);
      }
  }

  // One admissible transaction raises nothing, keeps the invariant, and flies exactly the time
  // between the old and the new persistent state.
  lemma StepIsSafe(m: Motion, f: Front, e: Event)
    requires Good(f) && Admissible(f, e)
    ensures Step(m, f, e).Ok? && Good(Step(m, f, e).value)
    ensures Tiles(Flown(f, e), f.process.stateTime, Step(m, f, e).value.process.stateTime)
    ensures CommitsNow(f, e) ==> Step(m, f, e).value.complete
  {
    StepThrowsIffBlocked(m, f, e);
    if IsReady(f, e) {
      ReadyIsSpaced(f, e);
      CommitIffSpaced(m, f, e);
    }
  }

  // ---------- every run covers time once ----------

  // An event raises an exception exactly when it moves back or blocks; any other event flies
  // exactly the time between the old and the new persistent state.
  lemma HandleThrowsIff(m: Motion, d: Driver, e: Event)
    requires Sound(d.front) && Conforms(d.front, e)
    ensures Handle(m, d, e).Throw? <==> MovesBack(d, e) || Blocks(d.front, e)
    ensures MovesBack(d, e) ==> Handle(m, d, e) == Throw(MovedBackwards)
    ensures Handle(m, d, e).Ok? ==>
              Sound(Handle(m, d, e).value.front) &&
              Tiles(Flown(d.front, e), d.front.process.stateTime, Handle(m, d, e).value.front.process.stateTime)
  {
    StepThrowsIffBlocked(m, d.front, e);
  }

  // What the callbacks and the scheduler guarantee: moreover, no query is older than the last event.
  ghost predicate InOrder(d: Driver, e: Event) {
    Admissible(d.front, e) && (e.Query? ==> e.target >= d.lastEvent - EPSILON)
  }

  lemma HandleIsSafe(m: Motion, d: Driver, e: Event)
    requires Good(d.front) && InOrder(d, e)
    ensures Handle(m, d, e).Ok? && Good(Handle(m, d, e).value.front)
    ensures Tiles(Flown(d.front, e), d.front.process.stateTime, Handle(m, d, e).value.front.process.stateTime)
    ensures IsReady(d.front, e) ==> Handle(m, d, e).value.lastEvent == e.target
    ensures CommitsNow(d.front, e) ==> Handle(m, d, e).value.front.complete
  {
    StepIsSafe(m, d.front, e);
  }

  ghost predicate ConformingRun(m: Motion, d: Driver, es: seq<Event>) {
    es == [] ||
    (ConformingRun(m, d, es[..|es| - 1]) &&
     var before := Run(m, d, es[..|es| - 1]);
     before.Ok? ==> Conforms(before.value.front, es[|es| - 1]))
  }

  ghost predicate AdmissibleRun(m: Motion, d: Driver, es: seq<Event>) {
    es == [] ||
    (AdmissibleRun(m, d, es[..|es| - 1]) && Run(m, d, es[..|es| - 1]).Ok? &&
     InOrder(Run(m, d, es[..|es| - 1]).value, es[|es| - 1]))
  }

  // All pieces that the committed queries of a run have flown, in order.
  function FlownInRun(m: Motion, d: Driver, es: seq<Event>): seq<Piece>
    requires Run(m, d, es).Ok?
  {
    if es == [] then []
    else FlownInRun(m, d, es[..|es| - 1]) + Flown(Run(m, d, es[..|es| - 1]).value.front, es[|es| - 1])
  }

  lemma TilesJoin(a: seq<Piece>, b: seq<Piece>, begin: real, middle: real, end: real)
    requires Tiles(a, begin, middle) && Tiles(b, middle, end)
    ensures Tiles(a + b, begin, end)
  {
    var all := a + b;
    forall i | 0 <= i < |all|
      ensures all[i].start < all[i].end && all[i].start == Joint(all, i, begin)
    {
      if i < |a| {
        assert a[i].start == Joint(a, i, begin);
      } else {
        var k := i - |a|;
        assert b[k].start == Joint(b, k, middle);
      }
    }
  }

  ghost predicate CoversOnce(m: Motion, d: Driver, es: seq<Event>)
    requires Run(m, d, es).Ok?
  {
    Tiles(FlownInRun(m, d, es), d.front.process.stateTime, Run(m, d, es).value.front.process.stateTime)
  }

  lemma CoversOneMore(m: Motion, d: Driver, es: seq<Event>)
    requires es != [] && Run(m, d, es).Ok? && CoversOnce(m, d, es[..|es| - 1])
    requires var before := Run(m, d, es[..|es| - 1]).value.front;
             Tiles(Flown(before, es[|es| - 1]), before.process.stateTime, Run(m, d, es).value.front.process.stateTime)
    ensures CoversOnce(m, d, es)
  {
    var before := Run(m, d, es[..|es| - 1]).value.front;
    TilesJoin(FlownInRun(m, d, es[..|es| - 1]), Flown(before, es[|es| - 1]), d.front.process.stateTime,
              before.process.stateTime, Run(m, d, es).value.front.process.stateTime);
  }

  // Over any run of arrivals, scan begins and queries in order, whatever is accepted or rejected,
  // no exception is raised and the committed pieces cover the time from the first to the last
  // persistent state exactly once.
  lemma {:induction false} RunCoversTimeOnce(m: Motion, d: Driver, es: seq<Event>)
    requires Good(d.front) && AdmissibleRun(m, d, es)
    ensures Run(m, d, es).Ok? && Good(Run(m, d, es).value.front)
    ensures CoversOnce(m, d, es)
  {
    if es != [] {
      var init := es[..|es| - 1];
      RunCoversTimeOnce(m, d, init);
      HandleIsSafe(m, Run(m, d, init).value, es[|es| - 1]);
      CoversOneMore(m, d, es);
    }
  }

  predicate Stops(d: Driver, e: Event) { MovesBack(d, e) || Blocks(d.front, e) }

  // Event n of the run is a query that moves back or blocks.
  predicate StopsAt(m: Motion, d: Driver, es: seq<Event>, n: nat) {
    n < |es| && Run(m, d, es[..n]).Ok? && Stops(Run(m, d, es[..n]).value, es[n])
  }

  // With repeated stamps and queries in any order: a run raises an exception exactly when one of
  // its queries moves back or blocks, and up to there the committed pieces cover the time once.
  lemma {:induction false} RunThrowsIffStopped(m: Motion, d: Driver, es: seq<Event>)
    requires Sound(d.front) && ConformingRun(m, d, es)
    ensures Run(m, d, es).Throw? <==> exists n: nat :: StopsAt(m, d, es, n)
    ensures Run(m, d, es).Ok? ==> Sound(Run(m, d, es).value.front) && CoversOnce(m, d, es)
  {
    if es != [] {
      var init := es[..|es| - 1];
      RunThrowsIffStopped(m, d, init);
      forall n: nat
        ensures StopsAt(m, d, es, n) <==> StopsAt(m, d, init, n) || (n == |init| && LastStops(m, d, es))
      {
        StopsEarlier(m, d, es, n);
      }
      if Run(m, d, init).Ok? {
        HandleThrowsIff(m, Run(m, d, init).value, es[|es| - 1]);
        if Run(m, d, es).Ok? { CoversOneMore(m, d, es); } else { assert StopsAt(m, d, es, |init|); }
      } else {
        var n: nat :| StopsAt(m, d, init, n);
        assert StopsAt(m, d, es, n);
      }
    }
  }

  predicate LastStops(m: Motion, d: Driver, es: seq<Event>)
    requires es != []
  {
    Run(m, d, es[..|es| - 1]).Ok? && Stops(Run(m, d, es[..|es| - 1]).value, es[|es| - 1])
  }

  lemma StopsEarlier(m: Motion, d: Driver, es: seq<Event>, n: nat)
    requires es != []
    ensures StopsAt(m, d, es, n) <==>
            StopsAt(m, d, es[..|es| - 1], n) || (n == |es| - 1 && LastStops(m, d, es))
  {
    if n < |es| - 1 { assert es[..n] == es[..|es| - 1][..n]; }
  }

  // ---------- rejected queries do not interfere ----------

  function Committing(es: seq<Event>): seq<Event> {
    if es == [] then []
    else if Commits(es[|es| - 1]) then Committing(es[..|es| - 1]) + [es[|es| - 1]]
    else Committing(es[..|es| - 1])
  }

  // The time of the first query of a run that commits.
  function FirstCommit(m: Motion, d: Driver, es: seq<Event>): Option<real>
    requires Run(m, d, es).Ok?
  {
    if es == [] then None
    else
      var init, last := es[..|es| - 1], es[|es| - 1];
      var first := FirstCommit(m, d, init);
      if first.None? && CommitsNow(Run(m, d, init).value.front, last) then Some(last.target) else first
  }

  // The outcome of a run without its rejected queries, when the run itself ends like this.
  function WithoutRejected(d: Driver, first: Option<real>, end: Driver): Outcome<Driver> {
    if first.None? then Ok(Driver(end.front, d.lastEvent))
    else if first.value < d.lastEvent - EPSILON then Throw(MovedBackwards)
    else Ok(Driver(end.front, end.front.process.stateTime))
  }

  // A run that raises nothing ends with the same front as the run without its rejected queries:
  // the same state, IMU fields, coverage flag, sample buffer and published odometry. All that a
  // rejected query leaves behind is the time of the last event; by that, rejected queries can
  // walk the first commit back further than the tolerance, and only then they matter.
  // The state time is positive from the initialisation on.
  lemma {:induction false} RejectedQueriesVanish(m: Motion, d: Driver, es: seq<Event>)
    requires Run(m, d, es).Ok? && 0.0 < d.front.process.stateTime
    ensures Run(m, d, Committing(es)) == WithoutRejected(d, FirstCommit(m, d, es), Run(m, d, es).value)
    ensures 0.0 < Run(m, d, es).value.front.process.stateTime
  {
    if es != [] {
      var init, last := es[..|es| - 1], es[|es| - 1];
      RejectedQueriesVanish(m, d, init);
      var before := Run(m, d, init).value;
      if Commits(last) {
        assert (Committing(init) + [last])[..|Committing(init)|] == Committing(init);
        CommittingStep(m, d, FirstCommit(m, d, init), before, last);
      } else {
        RejectedStep(m, before, last);
      }
    }
  }

  // A front end with one look-ahead sample, and a last event after its state.
  function Walking(s: State, r: Rates): Driver {
    Driver(Front(s, Process(Sample(1.0, 0), 1.0, r, [], None, true, false), true, [Sample(3.0, 0)], -1, []), 2.0)
  }

  function Image(target: real, accepted: bool): Event { Query(target, 0, false, false, accepted, 0, false) }

  // A concrete run in which that matters: without the rejected image the accepted one is refused.
  lemma RejectedImageWalksBack(m: Motion, s: State, r: Rates)
    ensures var es := [Image(1.9999995, false), Image(1.9999988, true)];
            Run(m, Walking(s, r), es).Ok? && Run(m, Walking(s, r), Committing(es)) == Throw(MovedBackwards)
  {
    var d, a, b := Walking(s, r), Image(1.9999995, false), Image(1.9999988, true);
    LookAheadIsEnough(m, d.front, a);
    LookAheadIsEnough(m, d.front, b);
    RejectedStep(m, d, a);
    TwoImages(m, d, a, b);
  }

  lemma TwoImages(m: Motion, d: Driver, a: Event, b: Event)
    requires a.Query? && !Commits(a) && Commits(b) && Handle(m, d, a) == Ok(Driver(d.front, a.target))
    requires Handle(m, Driver(d.front, a.target), b).Ok? && MovesBack(d, b)
    ensures Run(m, d, [a, b]).Ok? && Run(m, d, Committing([a, b])) == Throw(MovedBackwards)
  {
    OneMoreEvent(m, d, [], a);
    OneMoreEvent(m, d, [a], b);
    OneMoreEvent(m, d, [], b);
    assert [] + [a] == [a] && [a] + [b] == [a, b] && [] + [b] == [b];
  }

  lemma OneMoreEvent(m: Motion, d: Driver, es: seq<Event>, e: Event)
    ensures Committing(es + [e]) == if Commits(e) then Committing(es) + [e] else Committing(es)
    ensures Run(m, d, es).Ok? ==> Run(m, d, es + [e]) == Handle(m, Run(m, d, es).value, e)
  {
    assert (es + [e])[..|es|] == es;
  }

  lemma LookAheadIsEnough(m: Motion, f: Front, e: Event)
    requires Sound(f) && f.buffer == [Sample(3.0, 0)] && f.process.lastImu.stamp == f.process.stateTime
    requires e.Query? && f.process.stateTime < e.target < 3.0
    ensures IsReady(f, e) && Step(m, f, e).Ok?
  {
    assert f.buffer[..0] == [] && f.buffer[..1][..0] == [];
    StepThrowsIffBlocked(m, f, e);
  }

  lemma RejectedStep(m: Motion, d: Driver, e: Event)
    requires !Commits(e) && Handle(m, d, e).Ok?
    ensures Handle(m, d, e).value.front == d.front
  {
  }

  // The same event in the run without rejected queries, which differs in the last event only.
  lemma CommittingStep(m: Motion, d: Driver, first: Option<real>, before: Driver, e: Event)
    requires Commits(e) && Handle(m, before, e).Ok? && 0.0 < before.front.process.stateTime
    ensures var after := Handle(m, before, e).value;
            var f := if first.None? && CommitsNow(before.front, e) then Some(e.target) else first;
            var shorter := WithoutRejected(d, first, before);
            0.0 < after.front.process.stateTime &&
            WithoutRejected(d, f, after) == if shorter.Throw? then shorter else Handle(m, shorter.value, e)
  {
    StepKeepsTime(m, before.front, e);
  }

  // A commit ends at its target, not before the state; nothing else moves a positive state time.
  lemma StepKeepsTime(m: Motion, f: Front, e: Event)
    requires Step(m, f, e).Ok? && 0.0 < f.process.stateTime
    ensures var t := Step(m, f, e).value.process.stateTime;
            if CommitsNow(f, e) then t == e.target >= f.process.stateTime else t == f.process.stateTime
  {
    if e.Query? { QueryEffect(m, f, e); }
  }

  // ---------- published odometry ----------

  predicate StrictStamps(f: Front) {
    (forall i, j :: 0 <= i < j < |f.published| ==> f.published[i].stampNs < f.published[j].stampNs) &&
    (f.published != [] ==> 0 <= f.published[|f.published| - 1].stampNs == f.lastStampNs)
  }

  // The query was ready, committed, asked for this message, and left this state.
  predicate Committed(f: Front, e: Event, g: Front, o: Odometry) {
    CommitsNow(f, e) && e.raw && e.stampNs == o.stampNs && g.state == o.state
  }

  // At most one message is added, newer than all before, and only by a commit.
  ghost predicate PublishesFor(f: Front, g: Front, e: Event) {
    (g.published == f.published && g.lastStampNs == f.lastStampNs) ||
    exists o :: g.published == f.published + [o] && g.lastStampNs == o.stampNs && Committed(f, e, g, o) &&
                (f.lastStampNs < 0 || f.lastStampNs < o.stampNs)
  }

  lemma StepPublishes(m: Motion, f: Front, e: Event)
    requires Step(m, f, e).Ok?
    ensures PublishesFor(f, Step(m, f, e).value, e)
  {
    var g := Step(m, f, e).value;
    if g.published != f.published {
      var o := g.published[|g.published| - 1];
      assert g.published == f.published + [o];
    }
  }

  // Published stamps strictly increase and nothing published is ever taken back.
  lemma {:induction false} PublishedStampsIncrease(m: Motion, d: Driver, es: seq<Event>)
    requires StrictStamps(d.front) && Run(m, d, es).Ok?
    requires forall i :: 0 <= i < |es| && es[i].Query? ==> es[i].stampNs >= 0
    ensures StrictStamps(Run(m, d, es).value.front)
    ensures d.front.published <= Run(m, d, es).value.front.published
  {
    if es != [] {
      var init := es[..|es| - 1];
      PublishedStampsIncrease(m, d, init);
      StepPublishes(m, Run(m, d, init).value.front, es[|es| - 1]);
      NewerMessage(Run(m, d, init).value.front, Run(m, d, es).value.front, es[|es| - 1]);
    }
  }

  lemma NewerMessage(f: Front, g: Front, e: Event)
    requires StrictStamps(f) && PublishesFor(f, g, e) && (e.Query? ==> e.stampNs >= 0)
    ensures StrictStamps(g) && f.published <= g.published
  {
  }

  // Event i of the run is the commit that published this message.
  ghost predicate PublishedBy(m: Motion, d: Driver, es: seq<Event>, i: nat, o: Odometry) {
    i < |es| && Run(m, d, es[..i]).Ok? && Run(m, d, es[..i + 1]).Ok? &&
    Committed(Run(m, d, es[..i]).value.front, es[i], Run(m, d, es[..i + 1]).value.front, o)
  }

  // Every new message stems from a ready query that committed and asked for it, and carries the
  // state which that commit left.
  lemma {:induction false} PublishedAreCommitted(m: Motion, d: Driver, es: seq<Event>, k: nat)
    requires Run(m, d, es).Ok?
    requires |d.front.published| <= k < |Run(m, d, es).value.front.published|
    ensures exists i: nat :: PublishedBy(m, d, es, i, Run(m, d, es).value.front.published[k])
  {
    if es != [] {
      var init, last := es[..|es| - 1], es[|es| - 1];
      var before, after := Run(m, d, init).value.front, Run(m, d, es).value.front;
      StepPublishes(m, before, last);
      NewMessageIsCommitted(before, after, last, k);
      if k < |before.published| {
        PublishedAreCommitted(m, d, init, k);
        var i: nat :| PublishedBy(m, d, init, i, before.published[k]);
        PublisherStays(m, d, es, i, before.published[k]);
      } else {
        LastPublishes(m, d, es, after.published[k]);
      }
    }
  }

  lemma NewMessageIsCommitted(f: Front, g: Front, e: Event, k: nat)
    requires PublishesFor(f, g, e) && k < |g.published|
    ensures if k < |f.published| then g.published[k] == f.published[k] else Committed(f, e, g, g.published[k])
  {
  }

  lemma PublisherStays(m: Motion, d: Driver, es: seq<Event>, i: nat, o: Odometry)
    requires es != [] && PublishedBy(m, d, es[..|es| - 1], i, o)
    ensures PublishedBy(m, d, es, i, o)
  {
    var init := es[..|es| - 1];
    assert es[..i] == init[..i] && es[..i + 1] == init[..i + 1];
  }

  lemma LastPublishes(m: Motion, d: Driver, es: seq<Event>, o: Odometry)
    requires es != [] && Run(m, d, es[..|es| - 1]).Ok? && Run(m, d, es).Ok?
    requires Committed(Run(m, d, es[..|es| - 1]).value.front, es[|es| - 1], Run(m, d, es).value.front, o)
    ensures PublishedBy(m, d, es, |es| - 1, o)
  {
    assert es[..|es| - 1 + 1] == es;
  }

  // ---------- the object that drives the transaction ----------

  class FrontEnd {
    const process: ImuProcess
    const working: WorkingCheckpoint
    var state: State
    var imuBuffer: seq<Sample>
    var pendingOdometry: Option<Odometry>
    var lastStampNs: int
    var published: seq<Odometry>
    var lastEvent: real

    constructor (process: ImuProcess, state: State)
      ensures this.process == process && fresh(working) && Idle() && lastEvent == -1.0
      ensures View() == Front(state, process.Fields(), process.coverageComplete, [], -1, [])
    {
      this.process, this.state := process, state;
      working := new WorkingCheckpoint();
      imuBuffer, pendingOdometry, lastStampNs, published, lastEvent := [], None, -1, [], -1.0;
    }

    // Between two queries no checkpoint is open and no odometry waits.
    predicate Idle()
      reads this, working
    {
      working.before == None && pendingOdometry == None
    }

    function View(): Front
      reads this, process
    {
      Front(state, process.Fields(), process.coverageComplete, imuBuffer, lastStampNs, published)
    }

    function Drive(): Driver
      reads this, process
    {
      Driver(View(), lastEvent)
    }

    method ImuCallback(u: Sample)
      modifies this`imuBuffer
      ensures Step(process.motion, old(View()), Arrive(u)) == Ok(View())
    {
      imuBuffer := imuBuffer + [u];
    }

    method BeginScan(begin: real)
      modifies process
      ensures Step(process.motion, old(View()), Event.BeginScan(begin)) == Ok(View())
    {
      process.BeginLidarScan(begin, state);
    }

    // finishRawBackendOdometry: the waiting message is dropped unless the query committed.
    method FinishRawOdometry(committed: bool)
      requires working.before == None
      modifies this`pendingOdometry, this`lastStampNs, this`published
      ensures pendingOdometry == None
      ensures View() == if committed && old(pendingOdometry).Some?
                        then Publish(old(View()), old(pendingOdometry).value) else old(View())
    {
      var pending := pendingOdometry;
      pendingOdometry := None;
      if committed && pending.Some? {
        if !(lastStampNs >= 0 && pending.value.stampNs <= lastStampNs) {
          lastStampNs := pending.value.stampNs;
          published := published + [pending.value];
        }
      }
    }

    // processImu: refuses an event before the last one, opens the checkpoint, and propagates the
    // live state and fields.
    method ProcessImu(samples: seq<Sample>, target: real, lio: bool) returns (r: Outcome<()>)
      requires Idle() && !process.imuNeedInit && Ready(View(), target)
      requires samples == ViewOf(imuBuffer, CursorOf(process.Fields()), target).value.samples
      modifies this`state, this`lastEvent, process, working
      ensures target < old(lastEvent) - EPSILON ==> r == Throw(MovedBackwards)
      ensures target >= old(lastEvent) - EPSILON ==>
                match Propagated(process.motion, old(View()), target, lio) {
                  case Throw(e) => r == Throw(e)
                  case Ok(p) =>
                    r == Ok(()) && state == p.state && process.Fields() == p.process &&
                    process.coverageComplete == p.complete && lastEvent == target == process.lastPropEndTime &&
                    working.before == Some((old(state), old(process.Fields()))) &&
                    working.coverageBefore == old(process.coverageComplete)
                }
    {
      if target < lastEvent - EPSILON {
        return Throw(MovedBackwards);
      }
      var began := working.Begin(state, process);
      var flown := process.UndistortPcl(state, samples, target, lio);
      if flown.Throw? {
        return Throw(flown.error);
      }
      if HasRight(samples, target) && !process.CoveragePredictionComplete(target) {
        return Throw(NoSharedPrediction);
      }
      state, lastEvent := flown.value, target;
      return Ok(());
    }

    // stateEstimationAndMapping: the update, the transaction end, release and publication.
    method EstimateAndMap(target: real, stampNs: int, lio: bool, support: bool, accepted: bool, update: int,
                          raw: bool, ghost f: Front)
        returns (r: Outcome<()>)
      requires working.before == Some((f.state, f.process)) && working.coverageBefore == f.complete
      requires imuBuffer == f.buffer && lastStampNs == f.lastStampNs && published == f.published
      requires pendingOdometry == None && process.lastPropEndTime == target
      modifies this, process, working
      ensures lastEvent == old(lastEvent)
      ensures match Settled(process.motion, f, old(Propagation(process.Fields(), process.coverageComplete, state)),
                           Query(target, stampNs, lio, support, accepted, update, raw)) {
                case Throw(e) => r == Throw(e)
                case Ok(g) => r == Ok(()) && Idle() && View() == g
              }
    {
      if !lio && support && !process.CoveragePredictionComplete(target) {
        return Throw(VioBlocked);
      }
      if accepted {
        state := process.motion.update(update, state);
      }
      if raw {
        pendingOdometry := Some(Odometry(stampNs, state));
      }
      if !lio {
        var posed := process.UpdateLidarScanPose(target, state);
        if posed.Throw? {
          return Throw(posed.error);
        }
      }
      var finished := working.Finish(state, process, accepted, lio);
      if finished.Throw? {
        return Throw(finished.error);
      }
      state := finished.value;
      if accepted || lio {
        imuBuffer := Release(imuBuffer, process.lastPropEndTime);
      }
      FinishRawOdometry(accepted || lio);
      return Ok(());
    }

    // A ready query: propagation, update and the end of its transaction.
    method Settle(samples: seq<Sample>, target: real, stampNs: int, lio: bool, support: bool, accepted: bool,
                  update: int, raw: bool)
        returns (r: Outcome<()>)
      requires Idle() && !process.imuNeedInit && Ready(View(), target)
      requires samples == ViewOf(imuBuffer, CursorOf(process.Fields()), target).value.samples
      modifies this, process, working
      ensures match Handle(process.motion, old(Drive()), Query(target, stampNs, lio, support, accepted, update, raw)) {
                case Throw(e) => r == Throw(e)
                case Ok(d) => r == Ok(()) && Idle() && Drive() == d
              }
    {
      ghost var before := View();
      r := ProcessImu(samples, target, lio);
      if r.Ok? {
        r := EstimateAndMap(target, stampNs, lio, support, accepted, update, raw, before);
      }
    }

    // One sensor event from the selection of samples to the end of its transaction. The object
    // really propagates and then takes the propagation back; the contract says that a query that
    // does not commit leaves nothing but the time of the last event.
    method ProcessQuery(target: real, stampNs: int, lio: bool, support: bool, accepted: bool, update: int, raw: bool)
        returns (r: Outcome<()>)
      requires Idle() && !process.imuNeedInit
      modifies this, process, working
      ensures match Handle(process.motion, old(Drive()), Query(target, stampNs, lio, support, accepted, update, raw)) {
                case Throw(e) => r == Throw(e)
                case Ok(d) => r == Ok(()) && Idle() && Drive() == d
              }
    {
      var view := ImuCoverage.View(imuBuffer, CursorOf(process.Fields()), target);
      if view.Throw? {
        return Throw(view.error);
      }
      if !view.value.ready {
        return Ok(());
      }
      r := Settle(view.value.samples, target, stampNs, lio, support, accepted, update, raw);
    }
  }
}
