// What a committed query does: which received samples each moment is flown with, and what the
// commit leaves in the state, the carry, the scan history, the buffer and the published messages.
module CommittedFlight {
  import opened Outcomes
  import opened ImuCoverage
  import opened ImuTransaction
  import opened EstimatorRuns

  // ---------- which samples a piece is flown with ----------

  function Chain(c: Cursor, samples: seq<Sample>): seq<Sample> { [c.carry] + samples }

  function Pieces(c: Cursor, samples: seq<Sample>, target: real): seq<Piece> {
    CutAll(c, samples, target, Deficient(c, samples, target))
  }

  // Piece k is flown with neighbours k and k + 1 of the chain and stays between them, except that
  // the piece to the last own sample goes on to the target.
  lemma PieceHasNeighbours(c: Cursor, own: seq<Sample>, samples: seq<Sample>, target: real, k: nat)
    requires Chosen(c, own, samples, target) && k < |samples|
    ensures |Pieces(c, samples, target)| == |samples|
    ensures var p := Pieces(c, samples, target)[k];
            p.head == Chain(c, samples)[k] && p.tail == Chain(c, samples)[k + 1] && p.head.stamp <= p.start &&
            (p.end <= p.tail.stamp || (k == |own| - 1 && p.end == target))
  {
    SupportIsDeficiency(c, own, samples, target);
    assert forall i :: 0 <= i < |own| ==> samples[i] == own[i];
    CutAt(Chain(c, samples), |samples|, c.stateTime, target, Deficient(c, samples, target));
  }

  // No received sample after the state lies between these two.
  predicate Adjacent(received: seq<Sample>, c: Cursor, a: Sample, b: Sample) {
    forall i :: 0 <= i < |received| && received[i].stamp > c.stateTime + EPSILON ==>
      !(a.stamp < received[i].stamp < b.stamp)
  }

  // The sample is the last one received up to the target.
  predicate Newest(received: seq<Sample>, b: Sample, target: real) {
    b.stamp <= target && forall i :: 0 <= i < |received| && received[i].stamp <= target ==> received[i].stamp <= b.stamp
  }

  // Piece k flies the time x with the two received samples around it, or with the last two before
  // the target.
  ghost predicate FliesWith(received: seq<Sample>, c: Cursor, samples: seq<Sample>, target: real, x: real, k: nat) {
    var pieces, chain := Pieces(c, samples, target), Chain(c, samples);
    k < |pieces| && k + 1 < |chain| && Within(pieces[k], x) &&
    pieces[k].head == chain[k] && pieces[k].tail == chain[k + 1] &&
    chain[k].stamp < x && Adjacent(received, c, chain[k], chain[k + 1]) &&
    (x <= chain[k + 1].stamp || Newest(received, chain[k + 1], target))
  }

  lemma {:induction false} OrderedAt(received: seq<Sample>, target: real, i: nat)
    requires Ordered(received) && i < |received|
    ensures i < FirstAfter(received, target) <==> received[i].stamp <= target
  {
    var n := FirstAfter(received, target);
    if n <= i { assert n < i ==> received[n].stamp <= received[i].stamp; }
  }

  // An own sample of `view` is a received sample after the state and up to the target, and vice versa.
  lemma OwnIsReceived(received: seq<Sample>, c: Cursor, target: real, u: Sample)
    requires Ordered(received)
    ensures u in Fresh(received[..FirstAfter(received, target)], c.stateTime) <==>
            u in received && c.stateTime + EPSILON < u.stamp <= target
  {
    var n := FirstAfter(received, target);
    FreshMembers(received[..n], c.stateTime, u);
    if u in received && u.stamp <= target {
      var i :| 0 <= i < |received| && received[i] == u;
      OrderedAt(received, target, i);
      assert received[..n][i] == u;
    }
  }

  // An own sample is not between two neighbours of the chain, and not after the last own one.
  lemma OwnBeside(c: Cursor, own: seq<Sample>, samples: seq<Sample>, target: real, k: nat, j: nat)
    requires Chosen(c, own, samples, target) && k < |samples| && j < |own|
    ensures !(Chain(c, samples)[k].stamp < own[j].stamp < Chain(c, samples)[k + 1].stamp)
    ensures k == |own| - 1 ==> own[j].stamp <= samples[k].stamp
  {
    assert k < |own| ==> samples[k] == own[k];
    assert 0 < k <= |own| ==> samples[k - 1] == own[k - 1];
    OwnBetween(own, j, k);
  }

  lemma ReceivedBeside(received: seq<Sample>, c: Cursor, own: seq<Sample>, samples: seq<Sample>, target: real,
                       k: nat, i: nat)
    requires Ordered(received) && Chosen(c, own, samples, target) && k < |samples| && i < |received|
    requires own == Fresh(received[..FirstAfter(received, target)], c.stateTime)
    requires |samples| > |own| ==> FirstAfter(received, target) < |received| &&
                                   samples[|own|] == received[FirstAfter(received, target)]
    ensures received[i].stamp > c.stateTime + EPSILON ==>
              !(Chain(c, samples)[k].stamp < received[i].stamp < Chain(c, samples)[k + 1].stamp)
    ensures k == |own| - 1 && received[i].stamp <= target ==> received[i].stamp <= samples[k].stamp
  {
    var u := received[i];
    if u.stamp <= target {
      OwnIsReceived(received, c, target, u);
      if u.stamp > c.stateTime + EPSILON {
        var j :| 0 <= j < |own| && own[j] == u;
        OwnBeside(c, own, samples, target, k, j);
      } else if k == |own| - 1 {
        assert samples[k] == own[k];
        OwnIsReceived(received, c, target, own[k]);
      }
    } else {
      OrderedAt(received, target, i);
      LaterOnes(received, FirstAfter(received, target), i);
      assert k < |own| ==> samples[k] == own[k];
    }
  }

  lemma OwnKnots(received: seq<Sample>, c: Cursor, own: seq<Sample>, samples: seq<Sample>, target: real, k: nat)
    requires Ordered(received) && Chosen(c, own, samples, target) && k < |samples|
    requires own == Fresh(received[..FirstAfter(received, target)], c.stateTime)
    requires |samples| > |own| ==> FirstAfter(received, target) < |received| &&
                                   samples[|own|] == received[FirstAfter(received, target)]
    ensures Adjacent(received, c, Chain(c, samples)[k], Chain(c, samples)[k + 1])
    ensures k == |own| - 1 ==> Newest(received, samples[k], target)
  {
    forall i | 0 <= i < |received|
      ensures received[i].stamp > c.stateTime + EPSILON ==>
                !(Chain(c, samples)[k].stamp < received[i].stamp < Chain(c, samples)[k + 1].stamp)
      ensures k == |own| - 1 && received[i].stamp <= target ==> received[i].stamp <= samples[k].stamp
    {
      ReceivedBeside(received, c, own, samples, target, k, i);
    }
    assert k < |own| ==> samples[k] == own[k];
  }

  lemma OwnBetween(own: seq<Sample>, j: nat, k: nat)
    requires Ordered(own) && j < |own| && k <= |own|
    ensures j < k ==> own[j].stamp <= own[k - 1].stamp
    ensures k <= j ==> own[k].stamp <= own[j].stamp
  {
  }

  lemma LaterOnes(received: seq<Sample>, n: nat, i: nat)
    requires Ordered(received) && n <= i < |received|
    ensures received[n].stamp <= received[i].stamp
  {
  }

  // Every moment from the state to the target of a ready query over spaced samples is flown in
  // one piece, and with the two received samples next to it.
  lemma FlownWithNeighbours(received: seq<Sample>, c: Cursor, target: real, x: real)
    requires !c.needInit && c.carry.stamp <= c.stateTime && Ordered(received)
    requires ViewOf(received, c, target).Ok? && ViewOf(received, c, target).value.ready
    requires var v := ViewOf(received, c, target).value;
             v.eligible <= |v.samples| && Spaced(v.samples[..v.eligible], target) && c.stateTime < x <= target
    ensures exists k: nat :: FliesWith(received, c, ViewOf(received, c, target).value.samples, target, x, k)
  {
    var v := ViewOf(received, c, target).value;
    var own := v.samples[..v.eligible];
    ViewChooses(received, c, target);
    ChosenTiles(c, own, v.samples, target);
    var k := Locate(Pieces(c, v.samples, target), c.stateTime, x, |Pieces(c, v.samples, target)|);
    ViewIsFresh(received, c, target);
    PiecesAreSamples(c, own, v.samples, target);
    PieceHasNeighbours(c, own, v.samples, target, k);
    OwnKnots(received, c, own, v.samples, target, k);
    assert FliesWith(received, c, v.samples, target, x, k);
  }

  lemma PiecesAreSamples(c: Cursor, own: seq<Sample>, samples: seq<Sample>, target: real)
    requires Chosen(c, own, samples, target)
    ensures |Pieces(c, samples, target)| == |samples|
  {
    if samples != [] { PieceHasNeighbours(c, own, samples, target, 0); }
  }

  lemma ViewIsFresh(received: seq<Sample>, c: Cursor, target: real)
    requires ViewOf(received, c, target).Ok? && ViewOf(received, c, target).value.ready
    ensures var v, n := ViewOf(received, c, target).value, FirstAfter(received, target);
            v.eligible <= |v.samples| && v.samples[..v.eligible] == Fresh(received[..n], c.stateTime) &&
            (|v.samples| > v.eligible ==> n < |received| && v.samples[v.eligible] == received[n])
  {
  }

  // ---------- what a commit leaves ----------

  // The state flown over these pieces; the first propagation sets the exposure to one.
  function Predicted(m: Motion, f: Front, pieces: seq<Piece>): State {
    var flown := Fly(m, f.state, f.process.rates, pieces).0;
    if f.process.timeInit then flown else m.unitExposure(flown)
  }

  // The fields after the propagation of a ready query.
  function FlownFields(m: Motion, f: Front, e: Event): Propagation
    requires IsReady(f, e)
  {
    Advanced(m, f.process, f.state, ViewOf(f.buffer, CursorOf(f.process), e.target).value.samples,
             QueryPieces(f, e.target), e.target, e.lio)
  }

  // What a commit leaves, in terms of the propagated fields.
  lemma CommitShape(m: Motion, f: Front, e: Event) returns (flown: Propagation)
    requires CommitsNow(f, e) && Step(m, f, e).Ok?
    ensures flown == FlownFields(m, f, e)
    ensures var g := Step(m, f, e).value;
            && g.state == (if e.accepted then m.update(e.update, flown.state) else flown.state)
            && (if e.lio then g.process == flown.process
                else ScanPose(flown.process, e.target, g.state) == Ok(g.process))
            && g.complete
  {
    flown := FlownFields(m, f, e);
    PropagatedIs(m, f, e);
    SettledIs(m, f, flown, e);
  }

  lemma PropagatedIs(m: Motion, f: Front, e: Event)
    requires IsReady(f, e) && Propagated(m, f, e.target, e.lio).Ok?
    ensures Propagated(m, f, e.target, e.lio).value == FlownFields(m, f, e)
  {
  }

  lemma SettledIs(m: Motion, f: Front, flown: Propagation, e: Event)
    requires e.Query? && Commits(e) && Settled(m, f, flown, e).Ok?
    ensures var g := Settled(m, f, flown, e).value;
            && g.state == (if e.accepted then m.update(e.update, flown.state) else flown.state)
            && (if e.lio then g.process == flown.process
                else ScanPose(flown.process, e.target, g.state) == Ok(g.process))
            && g.complete
  {
  }

  lemma PoseKeepsRest(p: Process, time: real, s: State)
    requires ScanPose(p, time, s).Ok?
    ensures ScanPose(p, time, s).value == p.(poses := ScanPose(p, time, s).value.poses)
  {
  }

  // A commit leaves the flown state, updated by the measurement when that was accepted.
  lemma CommitUpdatesState(m: Motion, f: Front, e: Event)
    requires CommitsNow(f, e) && Step(m, f, e).Ok?
    ensures var g, x := Step(m, f, e).value, Predicted(m, f, QueryPieces(f, e.target));
            g.state == (if e.accepted then m.update(e.update, x) else x) &&
            g.process.rates == Fly(m, f.state, f.process.rates, QueryPieces(f, e.target)).1 &&
            g.process.stateTime == e.target && g.process.timeInit && g.complete
  {
    var flown := CommitShape(m, f, e);
    if !e.lio { PoseKeepsRest(flown.process, e.target, Step(m, f, e).value.state); }
  }

  lemma CommitCarry(m: Motion, f: Front, e: Event)
    requires CommitsNow(f, e) && Step(m, f, e).Ok?
    ensures var samples := ViewOf(f.buffer, CursorOf(f.process), e.target).value.samples;
            Step(m, f, e).value.process.lastImu == ([f.process.lastImu] + samples)[NewCount(samples, e.target)]
  {
    var flown := CommitShape(m, f, e);
    if !e.lio { PoseKeepsRest(flown.process, e.target, Step(m, f, e).value.state); }
  }

  // The carry is the last sample used that is not a look-ahead.
  lemma CommitCarriesLastOwn(m: Motion, f: Front, e: Event)
    requires Sound(f) && CommitsNow(f, e) && Step(m, f, e).Ok?
    ensures var own := Own(f, e);
            Step(m, f, e).value.process.lastImu == if own == [] then f.process.lastImu else own[|own| - 1]
  {
    CommitCarry(m, f, e);
    OwnCount(f, e.target);
  }

  lemma OwnCount(f: Front, target: real)
    requires Sound(f) && Ready(f, target)
    ensures var v := ViewOf(f.buffer, CursorOf(f.process), target).value;
            v.eligible <= |v.samples| && NewCount(v.samples, target) == v.eligible
  {
    var v := ViewOf(f.buffer, CursorOf(f.process), target).value;
    ViewChooses(f.buffer, CursorOf(f.process), target);
    SupportIsDeficiency(CursorOf(f.process), v.samples[..v.eligible], v.samples, target);
  }

  // A LiDAR commit closes the scan history; an image commit leaves it open.
  lemma CommitClosesHistory(m: Motion, f: Front, e: Event)
    requires CommitsNow(f, e) && Step(m, f, e).Ok?
    ensures var p := Step(m, f, e).value.process;
            if e.lio then p.poses == [] && p.scanOrigin == None else p.scanOrigin == f.process.scanOrigin
  {
    var flown := CommitShape(m, f, e);
    if !e.lio { PoseKeepsRest(flown.process, e.target, Step(m, f, e).value.state); }
  }

  // The history node of each piece is the state flown up to its end.
  lemma {:induction false} TrailAt(m: Motion, s: State, r: Rates, pieces: seq<Piece>, origin: real, k: nat)
    requires k < |pieces|
    ensures |Trail(m, s, r, pieces, origin)| == |pieces|
    ensures var x := Fly(m, s, r, pieces[..k + 1]);
            Trail(m, s, r, pieces, origin)[k] == Node(pieces[k].end - origin, x.0, x.1)
  {
    var n := |pieces| - 1;
    assert pieces[..n + 1] == pieces;
    if n > 0 { TrailAt(m, s, r, pieces[..n], origin, if k < n then k else 0); }
    if k < n { assert pieces[..n][..k + 1] == pieces[..k + 1]; }
  }

  // The history of an image commit: the one before, a node for each piece, and the pose of the
  // image in the place of the last of them.
  lemma CommitKeepsHistory(m: Motion, f: Front, e: Event)
    requires Sound(f) && CommitsNow(f, e) && !e.lio && Step(m, f, e).Ok? && f.process.scanOrigin.Some?
    requires e.target >= f.process.stateTime
    ensures var g := Step(m, f, e).value;
            var h := f.process.poses + Trail(m, f.state, f.process.rates, QueryPieces(f, e.target),
                                             f.process.scanOrigin.value);
            h != [] && g.process.poses ==
              h[..|h| - 1] + [Node(e.target - f.process.scanOrigin.value, g.state, g.process.rates)]
  {
    var flown := CommitShape(m, f, e);
    HistoryPosed(m, f, e, flown, Step(m, f, e).value.state, Step(m, f, e).value.process);
  }

  lemma HistoryPosed(m: Motion, f: Front, e: Event, flown: Propagation, s: State, q: Process)
    requires Sound(f) && IsReady(f, e) && !e.lio && f.process.scanOrigin.Some?
    requires e.target >= f.process.stateTime && flown == FlownFields(m, f, e)
    requires ScanPose(flown.process, e.target, s) == Ok(q)
    ensures var h := f.process.poses + Trail(m, f.state, f.process.rates, QueryPieces(f, e.target),
                                             f.process.scanOrigin.value);
            h != [] && q.poses == h[..|h| - 1] + [Node(e.target - f.process.scanOrigin.value, s, q.rates)]
  {
    FlownHistory(m, f, e, flown);
    HistoryAfter(flown.process, e.target, s, q);
  }

  lemma HistoryAfter(p: Process, time: real, s: State, q: Process)
    requires ScanPose(p, time, s) == Ok(q) && p.scanOrigin.Some? && p.poses != []
    requires p.poses[|p.poses| - 1].offset == time - p.scanOrigin.value
    ensures q.poses == p.poses[..|p.poses| - 1] + [Node(time - p.scanOrigin.value, s, q.rates)]
  {
    PoseReplacesLast(p, time, s);
  }

  // The propagated history ends at the target.
  lemma FlownHistory(m: Motion, f: Front, e: Event, flown: Propagation)
    requires Sound(f) && IsReady(f, e) && !e.lio && f.process.scanOrigin.Some?
    requires e.target >= f.process.stateTime && flown == FlownFields(m, f, e)
    ensures var h := flown.process.poses;
            && h == f.process.poses + Trail(m, f.state, f.process.rates, QueryPieces(f, e.target),
                                            f.process.scanOrigin.value)
            && h != [] && h[|h| - 1].offset == e.target - f.process.scanOrigin.value
            && flown.process.scanOrigin == f.process.scanOrigin
            && flown.process.rates == Fly(m, f.state, f.process.rates, QueryPieces(f, e.target)).1
  {
    ReadyQueryFlies(m, f, e.target, e.lio);
    TrailEnds(m, f.state, f.process.rates, QueryPieces(f, e.target), f.process.scanOrigin.value);
  }

  lemma PoseReplacesLast(p: Process, time: real, s: State)
    requires p.scanOrigin.Some? && p.poses != []
    requires p.poses[|p.poses| - 1].offset == time - p.scanOrigin.value
    ensures ScanPose(p, time, s) ==
            Ok(p.(poses := p.poses[..|p.poses| - 1] + [Node(time - p.scanOrigin.value, s, p.rates)]))
  {
  }

  lemma {:induction false} ReleasedIsLater(received: seq<Sample>, committed: real) returns (k: nat)
    ensures k <= |received| && Released(received, committed) == received[k..]
    ensures forall i :: 0 <= i < k ==> received[i].stamp <= committed
    ensures k < |received| ==> received[k].stamp > committed
    decreases |received|
  {
    if received != [] && received[0].stamp <= committed {
      k := ReleasedIsLater(received[1..], committed);
      assert received[1..][k..] == received[k + 1..];
      k := k + 1;
    } else {
      k := 0;
    }
  }

  // A commit keeps exactly the samples after its target, in order.
  lemma CommitReleases(m: Motion, f: Front, e: Event) returns (k: nat)
    requires CommitsNow(f, e) && Step(m, f, e).Ok? && Ordered(f.buffer)
    ensures k <= |f.buffer| && Step(m, f, e).value.buffer == f.buffer[k..]
    ensures forall i :: 0 <= i < |f.buffer| ==> (i < k <==> f.buffer[i].stamp <= e.target)
  {
    QueryEffect(m, f, e);
    k := ReleasedIsLater(f.buffer, e.target);
    forall i | 0 <= i < |f.buffer|
      ensures i < k <==> f.buffer[i].stamp <= e.target
    {
      if k <= i { LaterOnes(f.buffer, k, i); }
    }
  }

  // A commit that was asked for raw odometry publishes its state, unless the stamp is not newer.
  lemma CommitPublishes(m: Motion, f: Front, e: Event)
    requires CommitsNow(f, e) && Step(m, f, e).Ok?
    ensures var g := Step(m, f, e).value;
            if e.raw && (f.lastStampNs < 0 || f.lastStampNs < e.stampNs)
            then g.published == f.published + [Odometry(e.stampNs, g.state)] && g.lastStampNs == e.stampNs
            else g.published == f.published && g.lastStampNs == f.lastStampNs
  {
  }

  // ---------- whole runs ----------

  datatype Action = Propagate(piece: Piece) | UnitExposure | Update(id: int)

  function Performed(m: Motion, x: (State, Rates), a: Action): (State, Rates) {
    match a
    case Propagate(p) => m.step(x.0, x.1, p)
    case UnitExposure => (m.unitExposure(x.0), x.1)
    case Update(id) => (m.update(id, x.0), x.1)
  }

  function Perform(m: Motion, x: (State, Rates), todo: seq<Action>): (State, Rates) {
    if todo == [] then x else Performed(m, Perform(m, x, todo[..|todo| - 1]), todo[|todo| - 1])
  }

  function Propagations(pieces: seq<Piece>): seq<Action> {
    seq(|pieces|, i requires 0 <= i < |pieces| => Propagate(pieces[i]))
  }

  // A commit flies its pieces and applies its measurement; nothing else acts on the state.
  function Actions(f: Front, e: Event): seq<Action> {
    if !CommitsNow(f, e) then []
    else
      Propagations(Flown(f, e)) + (if f.process.timeInit then [] else [UnitExposure]) +
      (if e.accepted then [Update(e.update)] else [])
  }

  function ActionsInRun(m: Motion, d: Driver, es: seq<Event>): seq<Action>
    requires Run(m, d, es).Ok?
  {
    if es == [] then []
    else ActionsInRun(m, d, es[..|es| - 1]) + Actions(Run(m, d, es[..|es| - 1]).value.front, es[|es| - 1])
  }

  lemma {:induction false} PerformAppends(m: Motion, x: (State, Rates), a: seq<Action>, b: seq<Action>)
    ensures Perform(m, x, a + b) == Perform(m, Perform(m, x, a), b)
  {
    if b == [] {
      assert a + b == a;
    } else {
      PerformAppends(m, x, a, b[..|b| - 1]);
      assert (a + b)[..|a + b| - 1] == a + b[..|b| - 1];
    }
  }

  lemma PerformOne(m: Motion, x: (State, Rates), a: Action)
    ensures Perform(m, x, [a]) == Performed(m, x, a)
  {
    assert [a][..0] == [];
  }

  lemma {:induction false} FlyPerforms(m: Motion, s: State, r: Rates, pieces: seq<Piece>)
    ensures Perform(m, (s, r), Propagations(pieces)) == Fly(m, s, r, pieces)
  {
    if pieces != [] {
      var init := pieces[..|pieces| - 1];
      FlyPerforms(m, s, r, init);
      assert Propagations(pieces)[..|pieces| - 1] == Propagations(init);
    }
  }

  lemma StepPerforms(m: Motion, f: Front, e: Event)
    requires Step(m, f, e).Ok?
    ensures var g := Step(m, f, e).value;
            (g.state, g.process.rates) == Perform(m, (f.state, f.process.rates), Actions(f, e))
  {
    if CommitsNow(f, e) {
      CommitUpdatesState(m, f, e);
      CommitPerforms(m, f, QueryPieces(f, e.target), e);
    } else if e.Query? {
      QueryEffect(m, f, e);
    }
  }

  lemma CommitPerforms(m: Motion, f: Front, pieces: seq<Piece>, e: Event)
    requires e.Query?
    ensures var x := Predicted(m, f, pieces);
            Perform(m, (f.state, f.process.rates),
                    Propagations(pieces) + (if f.process.timeInit then [] else [UnitExposure]) +
                    (if e.accepted then [Update(e.update)] else [])) ==
            (if e.accepted then m.update(e.update, x) else x, Fly(m, f.state, f.process.rates, pieces).1)
  {
    var x, flown := (f.state, f.process.rates), Fly(m, f.state, f.process.rates, pieces);
    var exposed := if f.process.timeInit then [] else [UnitExposure];
    FlyPerforms(m, f.state, f.process.rates, pieces);
    PerformAppends(m, x, Propagations(pieces), exposed);
    PerformAppends(m, x, Propagations(pieces) + exposed, if e.accepted then [Update(e.update)] else []);
    PerformOne(m, flown, UnitExposure);
    PerformOne(m, (Predicted(m, f, pieces), flown.1), Update(e.update));
  }

  // Over every run the final state and rates are the fold of all flown pieces and all accepted
  // measurements, in order: nothing is applied twice, dropped or left from a rejected query.
  lemma {:induction false} RunPerforms(m: Motion, d: Driver, es: seq<Event>)
    requires Run(m, d, es).Ok?
    ensures var g := Run(m, d, es).value.front;
            (g.state, g.process.rates) ==
            Perform(m, (d.front.state, d.front.process.rates), ActionsInRun(m, d, es))
  {
    if es != [] {
      var init, last := es[..|es| - 1], es[|es| - 1];
      RunPerforms(m, d, init);
      var f := Run(m, d, init).value.front;
      StepPerforms(m, f, last);
      PerformAppends(m, (d.front.state, d.front.process.rates), ActionsInRun(m, d, init), Actions(f, last));
    }
  }

  // ---------- the sample buffer over a run ----------

  function Arrived(e: Event): seq<Sample> {
    match e
    case Arrive(u) => [u]
    case _ => []
  }

  function Arrivals(es: seq<Event>): seq<Sample> {
    if es == [] then [] else Arrivals(es[..|es| - 1]) + Arrived(es[|es| - 1])
  }

  // The buffer is what is left of these samples without the first k, none of them later than t.
  predicate LeftOf(all: seq<Sample>, buffer: seq<Sample>, k: nat, t: real) {
    k <= |all| && buffer == all[k..] && forall i :: 0 <= i < k ==> all[i].stamp <= t
  }

  lemma StepKeepsSamples(m: Motion, f: Front, e: Event) returns (j: nat)
    requires Step(m, f, e).Ok? && f.process.stateTime > 0.0
    ensures var g := Step(m, f, e).value;
            && f.process.stateTime <= g.process.stateTime
            && LeftOf(f.buffer + Arrived(e), g.buffer, j, g.process.stateTime)
  {
    assert f.buffer + [] == f.buffer;
    if CommitsNow(f, e) {
      QueryEffect(m, f, e);
      CommitUpdatesState(m, f, e);
      j := ReleasedIsLater(f.buffer, e.target);
    } else {
      if e.Query? { QueryEffect(m, f, e); }
      j := 0;
    }
  }

  lemma DroppedTwice(all: seq<Sample>, more: seq<Sample>, b: seq<Sample>, k: nat, t: real,
                     c: seq<Sample>, j: nat, u: real)
    requires LeftOf(all, b, k, t) && LeftOf(b + more, c, j, u) && t <= u
    ensures LeftOf(all + more, c, k + j, u)
  {
    assert (all + more)[k..] == b + more;
    forall i | 0 <= i < k + j
      ensures (all + more)[i].stamp <= u
    {
      if i >= k { assert (all + more)[i] == (b + more)[i - k]; }
    }
  }

  lemma RunSplits(m: Motion, d: Driver, es: seq<Event>) returns (f: Front)
    requires es != [] && Run(m, d, es).Ok?
    ensures Run(m, d, es[..|es| - 1]).Ok? && f == Run(m, d, es[..|es| - 1]).value.front
    ensures Step(m, f, es[|es| - 1]).Ok? && Step(m, f, es[|es| - 1]).value == Run(m, d, es).value.front
  {
    f := Run(m, d, es[..|es| - 1]).value.front;
  }

  lemma MoreArrivals(b: seq<Sample>, es: seq<Event>)
    requires es != []
    ensures b + Arrivals(es) == b + Arrivals(es[..|es| - 1]) + Arrived(es[|es| - 1])
  {
  }

  lemma OneMoreKept(m: Motion, f: Front, e: Event, all: seq<Sample>, k: nat) returns (n: nat)
    requires Step(m, f, e).Ok? && f.process.stateTime > 0.0 && LeftOf(all, f.buffer, k, f.process.stateTime)
    ensures var g := Step(m, f, e).value;
            && f.process.stateTime <= g.process.stateTime
            && LeftOf(all + Arrived(e), g.buffer, n, g.process.stateTime)
  {
    var j := StepKeepsSamples(m, f, e);
    var g := Step(m, f, e).value;
    DroppedTwice(all, Arrived(e), f.buffer, k, f.process.stateTime, g.buffer, j, g.process.stateTime);
    n := k + j;
  }

  // Over every run the buffer is everything received, without some leading samples, none of them
  // after the state: no sample is lost that a later query could still use.
  lemma {:induction false} RunKeepsSamples(m: Motion, d: Driver, es: seq<Event>) returns (k: nat)
    requires Run(m, d, es).Ok? && d.front.process.stateTime > 0.0
    ensures var g := Run(m, d, es).value.front;
            && d.front.process.stateTime <= g.process.stateTime
            && LeftOf(d.front.buffer + Arrivals(es), g.buffer, k, g.process.stateTime)
  {
    if es == [] {
      assert d.front.buffer + [] == d.front.buffer;
      k := 0;
    } else {
      var init, e := es[..|es| - 1], es[|es| - 1];
      k := RunKeepsSamples(m, d, init);
      var f := RunSplits(m, d, es);
      MoreArrivals(d.front.buffer, es);
      k := OneMoreKept(m, f, e, d.front.buffer + Arrivals(init), k);
    }
  }

  // The time of the state, or of the carry before the state has one, or else the scan begin.
  function SeedTime(p: Process, begin: real): real {
    if 0.0 < p.stateTime then p.stateTime
    else if 0.0 < p.lastImu.stamp then p.lastImu.stamp
    else begin
  }

  // A scan opens its history with one node, the state at its own time; only a state without a time
  // gets one.
  lemma OpeningSeedsHistory(m: Motion, f: Front, begin: real)
    ensures Step(m, f, BeginScan(begin)).Ok?
    ensures var g, time := Step(m, f, BeginScan(begin)).value, SeedTime(f.process, begin);
            && g.process.poses == [Node(time - begin, f.state, f.process.rates)]
            && g.process.scanOrigin == Some(begin) && g.process.stateTime == time
            && g == f.(process := f.process.(poses := g.process.poses, scanOrigin := Some(begin), stateTime := time))
  {
  }
}
