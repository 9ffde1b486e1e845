// The persistent backend: a bounded queue between producers and one worker, and the memory
// (store and graph) that the worker builds.
module LandmarkBackend {
  import opened Outcomes
  import opened LandmarkStore
  import G = ShadowGraph

  // ---------- what the worker does with one accepted observation ----------

  datatype Memory = Memory(store: Store, graph: G.Graph)

  const NO_MEMORY := Memory(EMPTY, G.NO_GRAPH)

  datatype Config = Config(capacity: nat, geometry: Geometry, policy: Policy)

  // The call of the graph that belongs to this observation.
  function CallFor(c: Config, s: Store, i: Input): G.Call {
    var t := Processed(c.geometry, c.policy, s, i);
    var creates := CreatesKeyPose(c.geometry, c.policy, s, i);
    G.Call(if t.keyposes == [] then 0 else t.keyposes[|t.keyposes| - 1].id,
           if creates && |t.keyposes| > 1 && t.motions != [] then Some(t.motions[|t.motions| - 1]) else None,
           i.landmark, i.time, Observed(c.policy, s, i).episode,
           creates || Coalesces(c.geometry, c.policy, s, i), i.oracle)
  }

  function Absorbed(c: Config, m: Memory, i: Input): Memory {
    Memory(Processed(c.geometry, c.policy, m.store, i), G.Updated(m.graph, CallFor(c, m.store, i)).0)
  }

  function Absorber(c: Config): (Memory, Input) -> Memory { (m: Memory, i: Input) => Absorbed(c, m, i) }

  function FoldLeft<A, B>(f: (A, B) -> A, a: A, xs: seq<B>): A
    decreases |xs|
  {
    if xs == [] then a else FoldLeft(f, f(a, xs[0]), xs[1..])
  }

  lemma {:induction false} FoldLeftAppend<A, B>(f: (A, B) -> A, a: A, xs: seq<B>, ys: seq<B>)
    ensures FoldLeft(f, a, xs + ys) == FoldLeft(f, FoldLeft(f, a, xs), ys)
    decreases |xs|
  {
    if xs == [] {
      assert xs + ys == ys;
    } else {
      assert (xs + ys)[1..] == xs[1..] + ys;
      FoldLeftAppend(f, f(a, xs[0]), xs[1..], ys);
    }
  }

  // The memory after working off these observations one after the other.
  function Later(c: Config, m: Memory, more: seq<Input>): Memory { FoldLeft(Absorber(c), m, more) }

  function FoldMemory(c: Config, inputs: seq<Input>): Memory { Later(c, NO_MEMORY, inputs) }

  lemma LaterAppends(c: Config, m: Memory, inputs: seq<Input>, more: seq<Input>)
    ensures Later(c, Later(c, m, inputs), more) == Later(c, m, inputs + more)
  {
    FoldLeftAppend(Absorber(c), m, inputs, more);
  }

  lemma FoldOneMore(c: Config, inputs: seq<Input>, i: Input)
    ensures FoldMemory(c, inputs + [i]) == Absorbed(c, FoldMemory(c, inputs), i)
  {
    FoldLeftAppend(Absorber(c), NO_MEMORY, inputs, [i]);
    OneStep(Absorber(c), FoldMemory(c, inputs), i);
  }

  lemma OneStep<A, B>(f: (A, B) -> A, a: A, x: B)
    ensures FoldLeft(f, a, [x]) == f(a, x)
  {
  }

  ghost predicate EpisodesOk(m: Memory) {
    (forall l :: l in m.store.landmarks ==> m.store.landmarks[l].episode < m.store.nextEpisode) &&
    (forall l :: l in m.graph.episodes ==>
       l in m.store.landmarks && m.graph.episodes[l].0 <= m.store.landmarks[l].episode)
  }

  ghost predicate KeysOk(m: Memory) {
    !m.graph.failed ==> forall k :: k in m.graph.keyposeIds ==> k <= |m.store.keyposes|
  }

  ghost predicate MemoryOk(c: Config, m: Memory) {
    Chained(c.geometry, m.store) && G.Shaped(m.graph) && G.CountOk(m.graph) && EpisodesOk(m) && KeysOk(m)
  }

  lemma CallIsWellFormed(c: Config, m: Memory, i: Input)
    requires Chained(c.geometry, m.store) && KeysOk(m)
    ensures var call := CallFor(c, m.store, i);
            call.keypose == |Processed(c.geometry, c.policy, m.store, i).keyposes| >= |m.store.keyposes| &&
            (call.motion.Some? ==> call.motion.value.to == call.keypose && call.motion.value.from + 1 == call.keypose &&
                                   call.motion.value.from == |m.store.keyposes|) &&
            (!m.graph.failed ==> G.WellCalled(m.graph, call))
  {
    var t := Processed(c.geometry, c.policy, m.store, i);
    ProcessedKeepsChain(c.geometry, c.policy, m.store, i);
    assert t.keyposes[|t.keyposes| - 1].id == |t.keyposes|;
    if CallFor(c, m.store, i).motion.Some? {
      var k := |t.motions| - 1;
      assert t.motions[k] == NewMotion(c.geometry, t.keyposes[k], t.keyposes[k + 1], t.motions[k].valid);
    }
  }

  lemma EpisodesStayOk(c: Config, m: Memory, i: Input)
    requires EpisodesOk(m)
    ensures i.landmark in m.graph.episodes ==>
              m.graph.episodes[i.landmark].0 <= CallFor(c, m.store, i).episode
    ensures EpisodesOk(Absorbed(c, m, i))
  {
    var call := CallFor(c, m.store, i);
    G.CallDoes(m.graph, call);
    var n := Absorbed(c, m, i);
    forall l | l in n.graph.episodes
      ensures l in n.store.landmarks && n.graph.episodes[l].0 <= n.store.landmarks[l].episode
    {
      if l != i.landmark {
        assert l in m.graph.episodes && n.graph.episodes[l] == m.graph.episodes[l];
      }
    }
  }

  lemma KeysStayOk(c: Config, m: Memory, i: Input)
    requires Chained(c.geometry, m.store) && KeysOk(m)
    ensures KeysOk(Absorbed(c, m, i))
  {
    CallIsWellFormed(c, m, i);
    G.CallDoes(m.graph, CallFor(c, m.store, i));
  }

  // Whatever the kernels answer, the graph stays one connected, gauge-fixed chain and the
  // reobservation counter stays exact.
  lemma {:induction false} MemoryIsSound(c: Config, inputs: seq<Input>)
    ensures MemoryOk(c, FoldMemory(c, inputs))
    ensures FoldMemory(c, inputs).store == Fold(c.geometry, c.policy, inputs)
  {
    if inputs == [] {
      EmptyMemoryIsSound(c);
    } else {
      var init, i := inputs[..|inputs| - 1], inputs[|inputs| - 1];
      MemoryIsSound(c, init);
      assert init + [i] == inputs;
      FoldOneMore(c, init, i);
      StaysSoundAs(c, FoldMemory(c, init), i, FoldMemory(c, inputs));
    }
  }

  lemma EmptyMemoryIsSound(c: Config)
    ensures MemoryOk(c, NO_MEMORY)
  {
    assert G.Pairs({}) == {};
  }

  lemma StaysSoundAs(c: Config, m: Memory, i: Input, n: Memory)
    requires MemoryOk(c, m) && n == Absorbed(c, m, i)
    ensures MemoryOk(c, n) && n.store == Processed(c.geometry, c.policy, m.store, i)
  {
    AbsorbedStaysSound(c, m, i);
  }

  lemma AbsorbedStaysSound(c: Config, m: Memory, i: Input)
    requires MemoryOk(c, m)
    ensures MemoryOk(c, Absorbed(c, m, i))
  {
    CallIsWellFormed(c, m, i);
    ProcessedKeepsChain(c.geometry, c.policy, m.store, i);
    EpisodesStayOk(c, m, i);
    KeysStayOk(c, m, i);
    G.UpdatedKeepsShape(m.graph, CallFor(c, m.store, i));
    G.UpdatedKeepsCount(m.graph, CallFor(c, m.store, i));
  }

  // The newest keypose has been refused by a non-empty graph, or the graph has failed.
  ghost predicate Refused(m: Memory) { G.Stuck(m.graph, |m.store.keyposes|) }

  // Once a keypose is refused, no later observation ever adds a variable or a factor.
  lemma {:induction false} RefusalIsFinal(c: Config, m: Memory, more: seq<Input>)
    requires Chained(c.geometry, m.store) && KeysOk(m) && Refused(m)
    ensures Later(c, m, more).graph.isam == m.graph.isam && Refused(Later(c, m, more))
    decreases |more|
  {
    if more != [] {
      RefusedStep(c, m, more[0]);
      RefusalIsFinal(c, Absorbed(c, m, more[0]), more[1..]);
    }
  }

  lemma RefusedStep(c: Config, m: Memory, i: Input)
    requires Chained(c.geometry, m.store) && KeysOk(m) && Refused(m)
    ensures Absorbed(c, m, i).graph.isam == m.graph.isam && Refused(Absorbed(c, m, i))
    ensures Chained(c.geometry, Absorbed(c, m, i).store) && KeysOk(Absorbed(c, m, i))
  {
    ProcessedKeepsChain(c.geometry, c.policy, m.store, i);
    KeysStayOk(c, m, i);
    CallIsWellFormed(c, m, i);
    G.StuckStaysStuck(m.graph, |m.store.keyposes|, CallFor(c, m.store, i));
  }

  // Once a new keypose is refused by the non-empty graph, every later observation adds nothing.
  lemma RefusedKeyposeIsFinal(c: Config, inputs: seq<Input>, i: Input, more: seq<Input>)
    requires var m := FoldMemory(c, inputs);
             var call := CallFor(c, m.store, i);
             G.IsNew(m.graph, call) && m.graph.keyposeIds != {} && !G.Updated(m.graph, call).1
    ensures FoldMemory(c, inputs + [i] + more).graph.isam == FoldMemory(c, inputs + [i]).graph.isam
    ensures i.oracle.solved ==>
              FoldMemory(c, inputs + [i] + more).graph.isam == FoldMemory(c, inputs).graph.isam
    ensures Refused(FoldMemory(c, inputs + [i] + more))
  {
    var m := FoldMemory(c, inputs);
    MemoryIsSound(c, inputs);
    MemoryIsSound(c, inputs + [i]);
    FoldOneMore(c, inputs, i);
    CallIsWellFormed(c, m, i);
    RefusedNow(c, m, i);
    RefusalIsFinal(c, Absorbed(c, m, i), more);
    LaterAppends(c, NO_MEMORY, inputs + [i], more);
  }

  lemma RefusedNow(c: Config, m: Memory, i: Input)
    requires Chained(c.geometry, m.store) && KeysOk(m) && m.graph.keyposeIds != {}
    requires var call := CallFor(c, m.store, i);
             G.IsNew(m.graph, call) && !G.Updated(m.graph, call).1
    ensures Refused(Absorbed(c, m, i))
    ensures i.oracle.solved ==> Absorbed(c, m, i).graph.isam == m.graph.isam
  {
    var call := CallFor(c, m.store, i);
    CallIsWellFormed(c, m, i);
    if !m.graph.failed { G.RefusalSticks(m.graph, call); }
    if i.oracle.solved { G.RefusalAddsNothing(m.graph, call); }
  }

  // ---------- the factor counters over a run ----------

  // Observation n of this sequence makes the counters wrong.
  ghost predicate MiscountsAt(c: Config, inputs: seq<Input>, n: nat) {
    n < |inputs| &&
    var m := FoldMemory(c, inputs[..n]);
    G.Miscounts(m.graph, CallFor(c, m.store, inputs[n]))
  }

  // Over any sequence of observations the factor counters agree with the factors handed to the
  // solver exactly when no observation miscounts; one that does is never made up for.
  lemma {:induction false} CountersMatchOverRuns(c: Config, inputs: seq<Input>)
    ensures var g := FoldMemory(c, inputs).graph;
            G.CountersMatch(g) || G.Miscounted(g)
    ensures G.CountersMatch(FoldMemory(c, inputs).graph) <==> forall n: nat :: !MiscountsAt(c, inputs, n)
  {
    if inputs != [] {
      var init, i := inputs[..|inputs| - 1], inputs[|inputs| - 1];
      var m := FoldMemory(c, init);
      CountersMatchOverRuns(c, init);
      assert init + [i] == inputs;
      FoldOneMore(c, init, i);
      CountersStep(m.graph, CallFor(c, m.store, i));
      forall n: nat
        ensures MiscountsAt(c, inputs, n) <==>
                if n == |init| then G.Miscounts(m.graph, CallFor(c, m.store, i)) else MiscountsAt(c, init, n)
      {
        assert n <= |init| ==> inputs[..n] == init[..n];
        assert init[..|init|] == init;
      }
      if G.Miscounts(m.graph, CallFor(c, m.store, i)) { assert MiscountsAt(c, inputs, |init|); }
    }
  }

  lemma CountersStep(g: G.Graph, call: G.Call)
    requires G.CountersMatch(g) || G.Miscounted(g)
    ensures var next := G.Updated(g, call).0;
            if G.CountersMatch(g) && !G.Miscounts(g, call) then G.CountersMatch(next) else G.Miscounted(next)
  {
    if G.CountersMatch(g) { G.CountersMatchIff(g, call); }
    if !(G.CountersMatch(g) && !G.Miscounts(g, call)) { G.MiscountStays(g, call); }
  }

  // ---------- the queue and its threads ----------

  // The worker thread: waiting or deciding, about to pop, holding an observation, or returned.
  datatype Phase = Deciding | Popping | Holding(input: Input) | Stopped

  datatype Tally = Tally(submitted: nat, accepted: nat, invalid: nat, duplicate: nat, outOfOrder: nat, overflow: nat)

  datatype Backend = Backend(queue: seq<Input>, ids: set<nat>, lastTime: real, tally: Tally, stopping: bool,
                             memory: Memory, worker: Phase, joined: bool)

  const IDLE_BACKEND := Backend([], {}, -1.0, Tally(0, 0, 0, 0, 0, 0), false, NO_MEMORY, Deciding, false)

  datatype Reply = Accepted | Shutdown | Invalid | Duplicate | OutOfOrder | Overflow

  predicate ValidInput(i: Input) { i.id != 0 && i.landmark >= 0 && i.time >= 0.0 && i.wellFormed }

  function ReplyFor(c: Config, b: Backend, i: Input): Reply {
    if b.stopping then Shutdown
    else if !ValidInput(i) then Invalid
    else if i.id in b.ids then Duplicate
    else if i.time < b.lastTime then OutOfOrder
    else if |b.queue| >= c.capacity then Overflow
    else Accepted
  }

  function Counted(t: Tally, r: Reply): Tally {
    var n := t.(submitted := t.submitted + 1);
    match r
    case Accepted => n.(accepted := n.accepted + 1)
    case Shutdown => n
    case Invalid => n.(invalid := n.invalid + 1)
    case Duplicate => n.(duplicate := n.duplicate + 1)
    case OutOfOrder => n.(outOfOrder := n.outOfOrder + 1)
    case Overflow => n.(overflow := n.overflow + 1)
  }

  // One critical section of submit.
  function Submitted(c: Config, b: Backend, i: Input): Backend {
    var r := ReplyFor(c, b, i);
    var n := b.(tally := Counted(b.tally, r));
    if r == Accepted then n.(queue := b.queue + [i], ids := b.ids + {i.id}, lastTime := i.time) else n
  }

  // A step of some thread: each is one critical section.
  datatype Step = Submit(input: Input) | Decide | Pop | Work | RequestStop | Join

  // The state after a step, or none when the thread cannot take it now.
  function Taken(c: Config, b: Backend, s: Step): Option<Backend> {
    match s
    case Submit(i) => Some(Submitted(c, b, i))
    case Decide =>
      if b.worker != Deciding then None
      else if b.queue != [] then Some(b.(worker := Popping))
      else if b.stopping then Some(b.(worker := Stopped))
      else None
    case Pop =>
      if b.worker != Popping then None
      else if b.queue == [] then Some(b.(worker := Deciding))
      else Some(b.(queue := b.queue[1..], worker := Holding(b.queue[0])))
    case Work =>
      if !b.worker.Holding? then None
      else Some(b.(memory := Absorbed(c, b.memory, b.worker.input), worker := Deciding))
    case RequestStop => Some(b.(stopping := true))
    case Join => if b.stopping && b.worker == Stopped then Some(b.(joined := true)) else None
  }

  // A schedule is any sequence of steps; the accepted and the worked-off inputs are recorded.
  datatype Trace = Trace(backend: Backend, accepted: seq<Input>, done: seq<Input>)

  function Follow(c: Config, t: Trace, s: Step): Trace {
    match Taken(c, t.backend, s)
    case None => t
    case Some(b) =>
      Trace(b,
            if s.Submit? && ReplyFor(c, t.backend, s.input) == Accepted then t.accepted + [s.input] else t.accepted,
            if s.Work? then t.done + [t.backend.worker.input] else t.done)
  }

  function Scheduled(c: Config, steps: seq<Step>): Trace {
    if steps == [] then Trace(IDLE_BACKEND, [], [])
    else Follow(c, Scheduled(c, steps[..|steps| - 1]), steps[|steps| - 1])
  }

  function InFlight(w: Phase): seq<Input> { if w.Holding? then [w.input] else [] }

  ghost predicate QueueOk(c: Config, t: Trace) {
    var b := t.backend;
    t.accepted == t.done + InFlight(b.worker) + b.queue && |b.queue| <= c.capacity &&
    b.memory == FoldMemory(c, t.done) &&
    (b.worker == Stopped ==> b.stopping && b.queue == []) && (b.joined ==> b.worker == Stopped) &&
    (b.worker == Popping ==> b.queue != [])
  }

  // The reasons partition the submissions; times never decrease and no id is accepted twice.
  ghost predicate TallyOk(t: Trace) {
    var n := t.backend.tally;
    n.accepted == |t.accepted| && n.submitted >= n.accepted + n.invalid + n.duplicate + n.outOfOrder + n.overflow &&
    (!t.backend.stopping ==> n.submitted == n.accepted + n.invalid + n.duplicate + n.outOfOrder + n.overflow)
  }

  ghost predicate OrderOk(t: Trace) {
    (forall i, j :: 0 <= i < j < |t.accepted| ==>
       t.accepted[i].time <= t.accepted[j].time && t.accepted[i].id != t.accepted[j].id) &&
    (forall i :: 0 <= i < |t.accepted| ==>
       t.accepted[i].time <= t.backend.lastTime && t.accepted[i].id in t.backend.ids)
  }

  lemma QueueMoves(done: seq<Input>, queue: seq<Input>)
    requires queue != []
    ensures done + [] + queue == done + [queue[0]] + queue[1..]
  {
  }

  lemma WorkMoves(done: seq<Input>, i: Input, queue: seq<Input>)
    ensures done + [i] + queue == done + [i] + [] + queue
  {
  }

  lemma FollowKeepsQueue(c: Config, t: Trace, s: Step)
    requires QueueOk(c, t)
    ensures QueueOk(c, Follow(c, t, s))
  {
    var b, n := t.backend, Follow(c, t, s);
    match s
    case Submit(i) =>
      assert t.done + InFlight(b.worker) + b.queue + [i] == t.done + InFlight(b.worker) + (b.queue + [i]);
    case Decide =>
    case Pop =>
      if b.worker == Popping { QueueMoves(t.done, b.queue); }
    case Work =>
      if b.worker.Holding? {
        FoldOneMore(c, t.done, b.worker.input);
        WorkMoves(t.done, b.worker.input, b.queue);
      }
    case RequestStop =>
    case Join =>
  }

  lemma FollowKeepsOrder(c: Config, t: Trace, s: Step)
    requires OrderOk(t) && TallyOk(t)
    ensures OrderOk(Follow(c, t, s)) && TallyOk(Follow(c, t, s))
  {
  }

  // Over every interleaving of producers, worker and shutdown: what was accepted is what was
  // worked off, then what is in flight, then what is queued, in the order of submission; the
  // queue is bounded; and the memory is the sequential fold of what was worked off.
  lemma {:induction false} EveryScheduleIsOrdered(c: Config, steps: seq<Step>)
    ensures QueueOk(c, Scheduled(c, steps)) && OrderOk(Scheduled(c, steps)) && TallyOk(Scheduled(c, steps))
  {
    if steps != [] {
      EveryScheduleIsOrdered(c, steps[..|steps| - 1]);
      FollowKeepsQueue(c, Scheduled(c, steps[..|steps| - 1]), steps[|steps| - 1]);
      FollowKeepsOrder(c, Scheduled(c, steps[..|steps| - 1]), steps[|steps| - 1]);
    }
  }

  // When shutdown has returned, the memory is the sequential fold over all accepted inputs.
  lemma JoinedMeansComplete(c: Config, steps: seq<Step>)
    requires Scheduled(c, steps).backend.joined
    ensures var t := Scheduled(c, steps);
            t.backend.memory == FoldMemory(c, t.accepted) && t.backend.queue == [] && t.done == t.accepted
  {
    EveryScheduleIsOrdered(c, steps);
    var t := Scheduled(c, steps);
    assert t.done + [] + [] == t.done;
  }

  // ---------- the drain terminates ----------

  predicate WorkerStep(s: Step) { s.Decide? || s.Pop? || s.Work? }

  // Steps the worker still needs: three for each queued observation, then the return.
  function Remaining(b: Backend): nat {
    3 * |b.queue| +
    match b.worker
    case Stopped => 0
    case Deciding => 1
    case Holding(_) => 2
    case Popping => if b.queue == [] then 2 else 0
  }

  // After the stop request nothing is accepted, every worker step uses up one of the remaining
  // steps, and some worker step can be taken until the worker has returned.
  lemma DrainProgresses(c: Config, b: Backend, s: Step)
    requires b.stopping && (b.worker == Popping ==> b.queue != [])
    ensures Taken(c, b, s).Some? ==>
              Taken(c, b, s).value.stopping &&
              if WorkerStep(s) then Remaining(Taken(c, b, s).value) == Remaining(b) - 1
              else Remaining(Taken(c, b, s).value) == Remaining(b)
    ensures b.worker != Stopped ==> exists w :: WorkerStep(w) && Taken(c, b, w).Some?
    ensures Remaining(b) == 0 <==> b.worker == Stopped && b.queue == []
  {
    match b.worker
    case Deciding => assert WorkerStep(Decide) && Taken(c, b, Decide).Some?;
    case Popping => assert WorkerStep(Pop) && Taken(c, b, Pop).Some?;
    case Holding(_) => assert WorkerStep(Work) && Taken(c, b, Work).Some?;
    case Stopped =>
  }

  lemma {:induction false} ScheduledAppends(c: Config, steps: seq<Step>, s: Step)
    ensures Scheduled(c, steps + [s]) == Follow(c, Scheduled(c, steps), s)
  {
    assert (steps + [s])[..|steps|] == steps;
  }

  // How many steps the worker takes when the schedule goes on like this.
  function WorkerSteps(c: Config, steps: seq<Step>, more: seq<Step>): nat {
    if more == [] then 0
    else
      var init, s := more[..|more| - 1], more[|more| - 1];
      WorkerSteps(c, steps, init) +
      if WorkerStep(s) && Taken(c, Scheduled(c, steps + init).backend, s).Some? then 1 else 0
  }

  // However a schedule goes on after the stop request: nothing more is accepted, each step that
  // the worker takes uses up one of the remaining ones, and it has returned exactly when it has
  // taken all of them; then the memory is the fold over everything accepted.
  lemma {:induction false} DrainEnds(c: Config, steps: seq<Step>, more: seq<Step>)
    requires Scheduled(c, steps).backend.stopping
    ensures var t, n := Scheduled(c, steps), Scheduled(c, steps + more);
            n.backend.stopping && n.accepted == t.accepted &&
            Remaining(n.backend) + WorkerSteps(c, steps, more) == Remaining(t.backend)
    ensures var t, n := Scheduled(c, steps), Scheduled(c, steps + more);
            n.backend.worker == Stopped <==> WorkerSteps(c, steps, more) == Remaining(t.backend)
    ensures var t, n := Scheduled(c, steps), Scheduled(c, steps + more);
            n.backend.worker == Stopped ==>
              n.backend.queue == [] && n.backend.memory == FoldMemory(c, t.accepted)
  {
    if more == [] {
      assert steps + more == steps;
    } else {
      var init, s := more[..|more| - 1], more[|more| - 1];
      DrainEnds(c, steps, init);
      assert steps + more == steps + init + [s];
      ScheduledAppends(c, steps + init, s);
      EveryScheduleIsOrdered(c, steps + init);
      DrainStep(c, Scheduled(c, steps + init), s);
    }
    EveryScheduleIsOrdered(c, steps + more);
    StoppedIsDone(c, Scheduled(c, steps + more));
  }

  lemma DrainStep(c: Config, t: Trace, s: Step)
    requires QueueOk(c, t) && t.backend.stopping
    ensures var n := Follow(c, t, s);
            n.backend.stopping && n.accepted == t.accepted &&
            Remaining(n.backend) + (if WorkerStep(s) && Taken(c, t.backend, s).Some? then 1 else 0) ==
            Remaining(t.backend)
  {
    DrainProgresses(c, t.backend, s);
  }

  lemma StoppedIsDone(c: Config, t: Trace)
    requires QueueOk(c, t)
    ensures Remaining(t.backend) == 0 <==> t.backend.worker == Stopped
    ensures t.backend.worker == Stopped ==> t.backend.queue == [] && t.backend.memory == FoldMemory(c, t.accepted)
  {
    if t.backend.worker == Stopped { assert t.done + [] + [] == t.done; }
  }

  // ---------- the object ----------

  class PersistentLandmarkBackend {
    const config: Config
    const graph: G.SparseLandmarkShadowGraph
    var queue: seq<Input>
    var acceptedIds: set<nat>
    var lastAcceptedTime: real
    var counters: Tally
    var stopping: bool
    var landmarks: map<int, Landmark>
    var keyposes: seq<KeyPose>
    var motions: seq<Motion>
    var nextKeypose: nat
    var nextEpisode: nat
    var processed: nat

    constructor (config: Config)
      ensures this.config == config && fresh(graph)
      ensures View() == IDLE_BACKEND && MemoryOk(config, View().memory)
    {
      this.config := config;
      graph := new G.SparseLandmarkShadowGraph();
      queue, acceptedIds, lastAcceptedTime, counters, stopping := [], {}, -1.0, Tally(0, 0, 0, 0, 0, 0), false;
      landmarks, keyposes, motions, nextKeypose, nextEpisode, processed := map[], [], [], 1, 1, 0;
      new;
      MemoryIsSound(config, []);
    }

    function StoreView(): Store
      reads this
    {
      Store(landmarks, keyposes, motions, nextKeypose, nextEpisode, processed)
    }

    // Without a worker thread the caller drains the queue.
    function View(): Backend
      reads this, graph
    {
      Backend(queue, acceptedIds, lastAcceptedTime, counters, stopping,
              Memory(StoreView(), graph.View()), Deciding, false)
    }

    method Submit(i: Input) returns (r: Reply)
      modifies this
      ensures r == ReplyFor(config, old(View()), i) && View() == Submitted(config, old(View()), i)
    {
      counters := counters.(submitted := counters.submitted + 1);
      if stopping {
        return Shutdown;
      }
      if !ValidInput(i) {
        counters := counters.(invalid := counters.invalid + 1);
        return Invalid;
      }
      if i.id in acceptedIds {
        counters := counters.(duplicate := counters.duplicate + 1);
        return Duplicate;
      }
      if i.time < lastAcceptedTime {
        counters := counters.(outOfOrder := counters.outOfOrder + 1);
        return OutOfOrder;
      }
      if |queue| >= config.capacity {
        counters := counters.(overflow := counters.overflow + 1);
        return Overflow;
      }
      queue, acceptedIds, lastAcceptedTime := queue + [i], acceptedIds + {i.id}, i.time;
      counters := counters.(accepted := counters.accepted + 1);
      return Accepted;
    }

    // Episode bookkeeping of the observed landmark.
    method ObserveLandmark(i: Input, ghost s: Store) returns (starts: bool)
      requires s.landmarks == landmarks && s.nextEpisode == nextEpisode
      modifies this`landmarks, this`nextEpisode
      ensures starts == StartsEpisode(config.policy, s, i)
      ensures landmarks == old(landmarks)[i.landmark := Observed(config.policy, s, i)]
      ensures nextEpisode == old(nextEpisode) + if starts then 1 else 0
    {
      var first := i.landmark !in landmarks;
      var landmark := if first then Landmark(0, 0.0, 0.0, false, []) else landmarks[i.landmark];
      starts := first || i.time - landmark.episodeLast > config.policy.episodeGap;
      landmark := landmark.(active := !first);
      if starts {
        landmark := landmark.(episode := nextEpisode, episodeFirst := i.time);
        nextEpisode := nextEpisode + 1;
      }
      assert [] + [i.id] == [i.id];
      landmark := landmark.(episodeLast := i.time, observations := landmark.observations + [i.id]);
      landmarks := landmarks[i.landmark := landmark];
    }

    // Attaches the observation to the newest keypose or creates one with its motion.
    method PlaceKeyPose(i: Input, create: bool)
      requires Chained(config.geometry, StoreView()) && (!create ==> keyposes != [])
      modifies this`keyposes, this`motions, this`nextKeypose
      ensures nextKeypose == old(nextKeypose) + (if create then 1 else 0)
      ensures keyposes == if create then old(keyposes) + [NewKeyPose(old(StoreView()), i)]
                          else old(keyposes)[|old(keyposes)| - 1 := Attached(old(keyposes)[|old(keyposes)| - 1], i)]
      ensures motions == if create && old(keyposes) != []
                         then old(motions) + [NewMotion(config.geometry, old(keyposes)[|old(keyposes)| - 1],
                                                        NewKeyPose(old(StoreView()), i), i.oracle.motionValid)]
                         else old(motions)
    {
      if create {
        var k := KeyPose(nextKeypose, i.time, i.pose, i.weak, [i.id], [i.landmark]);
        nextKeypose := nextKeypose + 1;
        if keyposes != [] {
          var last := keyposes[|keyposes| - 1];
          motions := motions + [Motion(last.id, k.id, last.time, k.time,
                                       Relative(config.geometry, last.pose, k.pose), i.oracle.motionValid)];
        }
        keyposes := keyposes + [k];
      } else {
        keyposes := keyposes[|keyposes| - 1 := Attached(keyposes[|keyposes| - 1], i)];
      }
    }

    // The store part of processAccepted.
    method StoreObservation(i: Input) returns (create: bool, coalesce: bool)
      requires Chained(config.geometry, StoreView())
      modifies this`landmarks, this`nextEpisode, this`keyposes, this`motions, this`nextKeypose, this`processed
      ensures create == CreatesKeyPose(config.geometry, config.policy, old(StoreView()), i)
      ensures coalesce == Coalesces(config.geometry, config.policy, old(StoreView()), i)
      ensures StoreView() == Processed(config.geometry, config.policy, old(StoreView()), i)
    {
      ghost var before := StoreView();
      coalesce := Coalesces(config.geometry, config.policy, StoreView(), i);
      create := CreatesKeyPose(config.geometry, config.policy, StoreView(), i);
      PlaceKeyPose(i, create);
      var starts := ObserveLandmark(i, before);
      processed := processed + 1;
    }

    method ProcessAccepted(i: Input)
      requires Chained(config.geometry, StoreView())
      modifies this, graph
      ensures Chained(config.geometry, StoreView())
      ensures View() == old(View()).(memory := Absorbed(config, old(View()).memory, i))
    {
      ProcessedKeepsChain(config.geometry, config.policy, StoreView(), i);
      ghost var before := StoreView();
      var create, coalesce := StoreObservation(i);
      UpdateGraph(i, create, coalesce, before);
    }

    // The call of the graph for an observation that has just been stored.
    method UpdateGraph(i: Input, create: bool, coalesce: bool, ghost before: Store)
      requires create == CreatesKeyPose(config.geometry, config.policy, before, i)
      requires coalesce == Coalesces(config.geometry, config.policy, before, i)
      requires StoreView() == Processed(config.geometry, config.policy, before, i) && keyposes != []
      modifies graph
      ensures graph.View() == G.Updated(old(graph.View()), CallFor(config, before, i)).0
    {
      var motion := if create && |keyposes| > 1 && motions != [] then Some(motions[|motions| - 1]) else None;
      var ok := graph.Update(G.Call(keyposes[|keyposes| - 1].id, motion, i.landmark, i.time,
                                    landmarks[i.landmark].episode, create || coalesce, i.oracle));
    }

    method ProcessOne() returns (more: bool)
      requires Chained(config.geometry, StoreView())
      modifies this, graph
      ensures Chained(config.geometry, StoreView())
      ensures more == (old(queue) != [])
      ensures View() == if !more then old(View())
                        else old(View()).(queue := old(queue)[1..],
                                          memory := Absorbed(config, old(View()).memory, old(queue)[0]))
    {
      if queue == [] {
        return false;
      }
      var i := queue[0];
      ProcessedKeepsChain(config.geometry, config.policy, StoreView(), i);
      queue := queue[1..];
      ProcessAccepted(i);
      return true;
    }

    // shutdown without a worker: everything queued is worked off in order.
    method ShutdownAndDrain()
      requires Chained(config.geometry, StoreView())
      modifies this, graph
      ensures stopping && queue == []
      ensures View().memory == Later(config, old(View()).memory, old(queue))
    {
      stopping := true;
      ghost var start := View().memory;
      var more := true;
      while more
        invariant stopping && Chained(config.geometry, StoreView()) && (!more ==> queue == [])
        invariant Later(config, View().memory, queue) == Later(config, start, old(queue))
        decreases |queue|, more
      {
        more := ProcessOne();
      }
    }
  }
}
