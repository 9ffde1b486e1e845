// Propagation of one query, the working checkpoint that commits it or takes it back,
// and the release of consumed samples.
module ImuTransaction {
  import opened Outcomes
  import opened ImuCoverage

  // The estimator state and the rates carried between propagation steps. The numerical
  // kernels stay uninterpreted: a Motion is any choice of them.
  type State(==, !new)
  type Rates(==, !new)

  datatype Motion = Motion(
    step: (State, Rates, Piece) -> (State, Rates),  // one propagation step
    unitExposure: State -> State,                   // first propagation sets the exposure to one
    update: (int, State) -> State)                  // filter update with a measurement

  // One saved pose of the scan history.
  datatype Node = Node(offset: real, state: State, rates: Rates)

  // The estimator fields of ImuProcess that a query may change, as one value.
  datatype Process = Process(lastImu: Sample, stateTime: real, rates: Rates, poses: seq<Node>,
                             scanOrigin: Option<real>, timeInit: bool, needInit: bool)

  function CursorOf(p: Process): Cursor { Cursor(p.lastImu, p.stateTime, p.needInit) }

  // ---------- what one propagation computes ----------

  function Fly(m: Motion, s: State, r: Rates, pieces: seq<Piece>): (State, Rates) {
    if pieces == [] then (s, r)
    else
      var before := Fly(m, s, r, pieces[..|pieces| - 1]);
      m.step(before.0, before.1, pieces[|pieces| - 1])
  }

  // The history node after each piece.
  function Trail(m: Motion, s: State, r: Rates, pieces: seq<Piece>, origin: real): seq<Node> {
    if pieces == [] then []
    else
      var after := Fly(m, s, r, pieces);
      Trail(m, s, r, pieces[..|pieces| - 1], origin) +
      [Node(pieces[|pieces| - 1].end - origin, after.0, after.1)]
  }

  function Total(pieces: seq<Piece>): real {
    if pieces == [] then 0.0
    else Total(pieces[..|pieces| - 1]) + (pieces[|pieces| - 1].end - pieces[|pieces| - 1].start)
  }

  function Abs(x: real): real { if x < 0.0 then -x else x }

  const CLOSURE := 0.000000000001

  predicate Positive(pieces: seq<Piece>) {
    forall i :: 0 <= i < |pieces| ==> pieces[i].start < pieces[i].end
  }

  // A run of contiguous pieces lasts as long as the interval, so the duration test of
  // UndistortPcl never decides anything by itself.
  lemma {:induction false} ContiguousTotal(pieces: seq<Piece>, begin: real)
    requires Contiguous(pieces, begin)
    ensures Total(pieces) == EndOf(pieces, begin) - begin
  {
    if pieces != [] {
      var m := |pieces| - 1;
      ContiguousPrefix(pieces, begin);
      ContiguousTotal(pieces[..m], begin);
      assert pieces[m].start == Joint(pieces, m, begin);
    }
  }

  lemma ContiguousPrefix(pieces: seq<Piece>, begin: real)
    requires Contiguous(pieces, begin) && pieces != []
    ensures Contiguous(pieces[..|pieces| - 1], begin)
    ensures EndOf(pieces[..|pieces| - 1], begin) == Joint(pieces, |pieces| - 1, begin)
  {
    var init := pieces[..|pieces| - 1];
    forall i | 0 <= i < |init|
      ensures init[i].start < init[i].end && init[i].start == Joint(init, i, begin)
    {
      assert pieces[i].start == Joint(pieces, i, begin);
    }
  }

  datatype Propagation = Propagation(process: Process, complete: bool, state: State)

  // The exceptions, in the order in which they can be raised.
  function Refusal(c: Cursor, samples: seq<Sample>, request: real): Option<Error> {
    var deficient := Deficient(c, samples, request);
    if deficient && !HasRight(samples, request) then Some(ShortImuNotReady)
    else if HasRight(samples, request) && !deficient then Some(UnexpectedLookahead)
    else if deficient && c.carry.stamp > c.stateTime then Some(CarryNewerThanState)
    else if deficient && !Increasing([c.carry] + samples) then Some(UnorderedSupport)
    else if request < c.stateTime - EPSILON then Some(MovedBackwards)
    else None
  }

  function LateRefusal(c: Cursor, pieces: seq<Piece>, request: real, deficient: bool): Option<Error> {
    if deficient && !Positive(pieces) then Some(NonpositiveInterval)
    else if deficient && Abs(Total(pieces) - (request - c.stateTime)) > CLOSURE then Some(IncompleteUnion)
    else None
  }

  // The fields after a propagation over these pieces. The carry is the last sample that is
  // not a look-ahead; a LiDAR event closes the scan history.
  function Advanced(m: Motion, p: Process, s: State, samples: seq<Sample>, pieces: seq<Piece>, request: real,
                    lio: bool): Propagation
  {
    var flown := Fly(m, s, p.rates, pieces);
    var origin := if p.scanOrigin.Some? then p.scanOrigin.value else p.stateTime;
    var own := NewCount(samples, request);
    Propagation(
      Process(([p.lastImu] + samples)[own],
              request, flown.1,
              if lio then [] else p.poses + Trail(m, s, p.rates, pieces, origin),
              if lio then None else p.scanOrigin, true, p.needInit),
      Tiles(pieces, p.stateTime, request),
      if p.timeInit then flown.0 else m.unitExposure(flown.0))
  }

  function Undistorted(m: Motion, p: Process, s: State, samples: seq<Sample>, request: real, lio: bool)
    : Outcome<Propagation>
  {
    var c := CursorOf(p);
    var pieces := CutAll(c, samples, request, Deficient(c, samples, request));
    var refusal := Refusal(c, samples, request);
    var late := LateRefusal(c, pieces, request, Deficient(c, samples, request));
    if refusal.Some? then Throw(refusal.value)
    else if late.Some? then Throw(late.value)
    else Ok(Advanced(m, p, s, samples, pieces, request, lio))
  }

  // ---------- the objects ----------

  class ImuProcess {
    const motion: Motion
    var lastImu: Sample
    var lastPropEndTime: real
    var rates: Rates
    var imuPose: seq<Node>
    var scanOrigin: Option<real>
    var imuTimeInit: bool
    var imuNeedInit: bool
    var coverageComplete: bool

    constructor (motion: Motion, p: Process, complete: bool)
      ensures this.motion == motion && Fields() == p && coverageComplete == complete
    {
      this.motion := motion;
      lastImu, lastPropEndTime, rates, imuPose := p.lastImu, p.stateTime, p.rates, p.poses;
      scanOrigin, imuTimeInit, imuNeedInit := p.scanOrigin, p.timeInit, p.needInit;
      coverageComplete := complete;
    }

    // causalCaptureSnapshot
    function Fields(): Process
      reads this
    {
      Process(lastImu, lastPropEndTime, rates, imuPose, scanOrigin, imuTimeInit, imuNeedInit)
    }

    // causalRestoreSnapshot; the coverage flag is not part of the snapshot
    method Restore(p: Process)
      modifies this
      ensures Fields() == p && coverageComplete == old(coverageComplete)
    {
      lastImu, lastPropEndTime, rates, imuPose := p.lastImu, p.stateTime, p.rates, p.poses;
      scanOrigin, imuTimeInit, imuNeedInit := p.scanOrigin, p.timeInit, p.needInit;
    }

    predicate CoveragePredictionComplete(request: real)
      reads this
    {
      coverageComplete && lastPropEndTime == request
    }

    // The propagation loop: durations, end points and the contiguity flag are accumulated in
    // place, and each pose is pushed to the history.
    method Propagate(s: State, chain: seq<Sample>, request: real, deficient: bool, origin: real)
        returns (ok: bool, flown: State, flownRates: Rates, total: real, coverageEnd: real, contiguous: bool)
      requires chain != []
      modifies this`imuPose
      ensures var pieces := Cut(chain, |chain| - 1, lastPropEndTime, request, deficient);
              ok == (deficient ==> Positive(pieces)) &&
              (ok ==> (flown, flownRates) == Fly(motion, s, rates, pieces) &&
                      imuPose == old(imuPose) + Trail(motion, s, rates, pieces, origin) &&
                      total == Total(pieces) && coverageEnd == EndOf(pieces, lastPropEndTime) &&
                      (contiguous <==> Contiguous(pieces, lastPropEndTime)))
    {
      flown, flownRates, total := s, rates, 0.0;
      coverageEnd, contiguous := lastPropEndTime, true;
      ghost var pieces: seq<Piece> := [];
      var i := 0;
      while i < |chain| - 1
        invariant 0 <= i <= |chain| - 1
        invariant pieces == Cut(chain, i, lastPropEndTime, request, deficient)
        invariant deficient ==> Positive(pieces)
        invariant (flown, flownRates) == Fly(motion, s, rates, pieces)
        invariant imuPose == old(imuPose) + Trail(motion, s, rates, pieces, origin)
        invariant total == Total(pieces) && coverageEnd == EndOf(pieces, lastPropEndTime)
        invariant contiguous <==> Contiguous(pieces, lastPropEndTime)
      {
        if chain[i + 1].stamp >= lastPropEndTime {
          var p := PieceAt(chain, i, lastPropEndTime, request, deficient);
          var dt := p.end - p.start;
          if deficient && dt <= 0.0 {
            LaterPieceStays(chain, i + 1, |chain| - 1, lastPropEndTime, request, deficient, |pieces|);
            ok := false;
            return;
          }
          OneMorePiece(motion, s, rates, pieces, p, origin, lastPropEndTime);
          contiguous := contiguous && dt > 0.0 && p.start == coverageEnd;
          coverageEnd := p.end;
          total := total + dt;
          var next := motion.step(flown, flownRates, p);
          flown, flownRates := next.0, next.1;
          imuPose := imuPose + [Node(p.end - origin, flown, flownRates)];
          pieces := pieces + [p];
        }
        i := i + 1;
      }
      ok := true;
    }

    method UpdateLidarScanPose(timestamp: real, s: State) returns (r: Outcome<()>)
      modifies this`imuPose
      ensures match ScanPose(old(Fields()), timestamp, s) {
                case Throw(e) => r == Throw(e) && Fields() == old(Fields())
                case Ok(p) => r == Ok(()) && Fields() == p
              }
    {
      if scanOrigin == None {
        return Ok(());
      }
      var offset := timestamp - scanOrigin.value;
      var node := Node(offset, s, rates);
      if imuPose != [] && offset < imuPose[|imuPose| - 1].offset - EPSILON {
        return Throw(PoseMovedBackwards);
      }
      if imuPose != [] && Abs(offset - imuPose[|imuPose| - 1].offset) <= EPSILON {
        imuPose := imuPose[|imuPose| - 1 := node];
      } else {
        imuPose := imuPose + [node];
      }
      return Ok(());
    }

    method BeginLidarScan(begin: real, s: State)
      modifies this
      ensures Fields() == ScanBegun(old(Fields()), begin, s) && coverageComplete == old(coverageComplete)
    {
      imuPose, scanOrigin := [], Some(begin);
      var seed := lastPropEndTime;
      if seed <= 0.0 {
        seed := lastImu.stamp;
      }
      if seed <= 0.0 {
        seed := begin;
      }
      if lastPropEndTime <= 0.0 {
        lastPropEndTime := seed;
      }
      imuPose := [Node(seed - begin, s, rates)];
    }

    // One propagation to the requested time.
    method UndistortPcl(s: State, samples: seq<Sample>, request: real, lio: bool)
        returns (r: Outcome<State>)
      modifies this
      ensures var u := Undistorted(motion, old(Fields()), s, samples, request, lio);
              match u {
                case Throw(e) => r == Throw(e)
                case Ok(p) => r == Ok(p.state) && Fields() == p.process && coverageComplete == p.complete
              }
    {
      var c := CursorOf(Fields());
      var refusal := Refusal(c, samples, request);
      if refusal.Some? {
        return Throw(refusal.value);
      }
      var deficient := Deficient(c, samples, request);
      ghost var pieces := CutAll(c, samples, request, deficient);
      r := Advance(s, samples, request, lio, deficient, pieces);
    }

    method Advance(s: State, samples: seq<Sample>, request: real, lio: bool, deficient: bool, ghost pieces: seq<Piece>)
        returns (r: Outcome<State>)
      requires pieces == Cut([lastImu] + samples, |samples|, lastPropEndTime, request, deficient)
      modifies this
      ensures var late := LateRefusal(CursorOf(old(Fields())), pieces, request, deficient);
              if late.Some? then r == Throw(late.value)
              else
                var p := Advanced(motion, old(Fields()), s, samples, pieces, request, lio);
                r == Ok(p.state) && Fields() == p.process && coverageComplete == p.complete
    {
      var origin := if scanOrigin.Some? then scanOrigin.value else lastPropEndTime;
      var ok, flown, flownRates, total, coverageEnd, contiguous :=
        Propagate(s, [lastImu] + samples, request, deficient, origin);
      if !ok {
        return Throw(NonpositiveInterval);
      }
      if deficient && Abs(total - (request - lastPropEndTime)) > CLOSURE {
        return Throw(IncompleteUnion);
      }
      var result := Close(samples, request, lio, flown, flownRates, total, coverageEnd, contiguous, s, pieces);
      return Ok(result);
    }

    // The assignments after the loop.
    method Close(samples: seq<Sample>, request: real, lio: bool, flown: State, flownRates: Rates, total: real,
                 coverageEnd: real, contiguous: bool, ghost s: State, ghost pieces: seq<Piece>)
        returns (result: State)
      requires (flown, flownRates) == Fly(motion, s, rates, pieces) && total == Total(pieces)
      requires coverageEnd == EndOf(pieces, lastPropEndTime)
      requires contiguous <==> Contiguous(pieces, lastPropEndTime)
      modifies this
      ensures lastImu == ([old(lastImu)] + samples)[NewCount(samples, request)]
      ensures lastPropEndTime == request && rates == flownRates
      ensures imuPose == (if lio then [] else old(imuPose))
      ensures scanOrigin == (if lio then None else old(scanOrigin))
      ensures imuTimeInit && imuNeedInit == old(imuNeedInit)
      ensures coverageComplete == Tiles(pieces, old(lastPropEndTime), request)
      ensures result == if old(imuTimeInit) then flown else motion.unitExposure(flown)
    {
      var chain := [lastImu] + samples;
      if contiguous {
        ContiguousTotal(pieces, lastPropEndTime);
      }
      coverageComplete := contiguous && coverageEnd == request &&
        Abs(total - (request - lastPropEndTime)) <= CLOSURE;
      lastImu := if HasRight(samples, request) then chain[|chain| - 2] else chain[|chain| - 1];
      lastPropEndTime := request;
      rates := flownRates;
      result := if imuTimeInit then flown else motion.unitExposure(flown);
      imuTimeInit := true;
      if lio {
        imuPose, scanOrigin := [], None;
      }
    }
  }

  // updateLidarScanPose: the pose of an accepted or rejected image event replaces the last
  // node of the same time, or extends the scan history.
  function ScanPose(p: Process, timestamp: real, s: State): Outcome<Process> {
    if p.scanOrigin.None? then Ok(p)
    else
      var offset := timestamp - p.scanOrigin.value;
      var node := Node(offset, s, p.rates);
      if p.poses == [] then Ok(p.(poses := [node]))
      else
        var last := p.poses[|p.poses| - 1].offset;
        if offset < last - EPSILON then Throw(PoseMovedBackwards)
        else if Abs(offset - last) <= EPSILON then Ok(p.(poses := p.poses[..|p.poses| - 1] + [node]))
        else Ok(p.(poses := p.poses + [node]))
  }

  // beginLidarScan: a new history, seeded at the state time.
  function ScanBegun(p: Process, begin: real, s: State): Process {
    var seed := if p.stateTime <= 0.0 then p.lastImu.stamp else p.stateTime;
    var time := if seed <= 0.0 then begin else seed;
    p.(poses := [Node(time - begin, s, p.rates)], scanOrigin := Some(begin),
       stateTime := if p.stateTime <= 0.0 then time else p.stateTime)
  }

  // Holds the state, the causal IMU snapshot and the coverage flag of an open query.
  class WorkingCheckpoint {
    var before: Option<(State, Process)>
    var coverageBefore: bool

    constructor ()
      ensures before == None
    {
      before, coverageBefore := None, false;
    }

    method Begin(s: State, process: ImuProcess) returns (r: Outcome<()>)
      modifies this
      ensures old(before).Some? ==> r == Throw(UnclosedTransaction) && before == old(before) &&
                                    coverageBefore == old(coverageBefore)
      ensures old(before).None? && process.imuNeedInit ==>
                r == Throw(CausalTraceNeedsImu) && before == None && coverageBefore == old(coverageBefore)
      ensures old(before).None? && !process.imuNeedInit ==>
                r == Ok(()) && before == Some((s, process.Fields())) && coverageBefore == process.coverageComplete
    {
      if before.Some? {
        return Throw(UnclosedTransaction);
      }
      if process.imuNeedInit {
        return Throw(CausalTraceNeedsImu);
      }
      before := Some((s, process.Fields()));
      coverageBefore := process.coverageComplete;
      return Ok(());
    }

    // A measurement or a scan commits what was propagated; anything else takes it back.
    method Finish(s: State, process: ImuProcess, measurement: bool, scan: bool) returns (r: Outcome<State>)
      modifies this, process
      ensures match old(before) {
                case None => r == Throw(MissingCheckpoint)
                case Some(saved) =>
                  if measurement || scan then
                    process.Fields() == old(process.Fields()) &&
                    process.coverageComplete == old(process.coverageComplete) &&
                    if process.coverageComplete then r == Ok(s) && before == None
                    else r == Throw(InvalidHandoff)
                  else
                    r == Ok(saved.0) && before == None && process.Fields() == saved.1 &&
                    process.coverageComplete == old(coverageBefore)
              }
    {
      if before.None? {
        return Throw(MissingCheckpoint);
      }
      var state := s;
      if measurement || scan {
        if !process.CoveragePredictionComplete(process.lastPropEndTime) {
          return Throw(InvalidHandoff);
        }
      } else {
        state := before.value.0;
        process.Restore(before.value.1);
        process.coverageComplete := coverageBefore;
      }
      before := None;
      return Ok(state);
    }
  }

  // release: drops the samples at the front that are not after the committed time.
  function Released(received: seq<Sample>, committed: real): seq<Sample> {
    if received != [] && received[0].stamp <= committed then Released(received[1..], committed) else received
  }

  method Release(received: seq<Sample>, committed: real) returns (left: seq<Sample>)
    ensures left == Released(received, committed)
  {
    left := received;
    while left != [] && left[0].stamp <= committed
      invariant Released(left, committed) == Released(received, committed)
    {
      left := left[1..];
    }
  }

  lemma OneMorePiece(m: Motion, s: State, r: Rates, pieces: seq<Piece>, p: Piece, origin: real, begin: real)
    ensures var longer := pieces + [p];
            var before, after := Fly(m, s, r, pieces), Fly(m, s, r, longer);
            after == m.step(before.0, before.1, p) &&
            Trail(m, s, r, longer, origin) ==
              Trail(m, s, r, pieces, origin) + [Node(p.end - origin, after.0, after.1)] &&
            Total(longer) == Total(pieces) + (p.end - p.start) &&
            EndOf(longer, begin) == p.end &&
            (Contiguous(longer, begin) <==>
             Contiguous(pieces, begin) && p.start < p.end && p.start == EndOf(pieces, begin))
  {
    assert (pieces + [p])[..|pieces|] == pieces;
    ContiguousExtends(pieces, p, begin);
  }

  lemma ContiguousExtends(pieces: seq<Piece>, p: Piece, begin: real)
    ensures Contiguous(pieces + [p], begin) <==>
            Contiguous(pieces, begin) && p.start < p.end && p.start == EndOf(pieces, begin)
  {
    var longer := pieces + [p];
    if Contiguous(longer, begin) {
      ContiguousPrefix(longer, begin);
      assert longer[..|pieces|] == pieces;
      assert longer[|pieces|].start == Joint(longer, |pieces|, begin);
    }
    if Contiguous(pieces, begin) && p.start < p.end && p.start == EndOf(pieces, begin) {
      forall i | 0 <= i < |longer|
        ensures longer[i].start < longer[i].end && longer[i].start == Joint(longer, i, begin)
      {
        if i < |pieces| {
          assert pieces[i].start == Joint(pieces, i, begin);
        }
      }
    }
  }

  // A piece that has been cut stays in the whole cut.
  lemma {:induction false} LaterPieceStays(chain: seq<Sample>, n: nat, all: nat, begin: real, end: real,
                                           deficient: bool, k: nat)
    requires n <= all < |chain| && k < |Cut(chain, n, begin, end, deficient)|
    ensures k < |Cut(chain, all, begin, end, deficient)|
    ensures Cut(chain, all, begin, end, deficient)[k] == Cut(chain, n, begin, end, deficient)[k]
    decreases all
  {
    if n < all {
      LaterPieceStays(chain, n, all - 1, begin, end, deficient, k);
    }
  }
}
