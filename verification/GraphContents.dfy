// What the landmark graph holds: exactly the keyposes, landmarks and visual factors of the calls
// that got through, and what those calls are in terms of the observations.
module GraphContents {
  import opened Outcomes
  import opened LandmarkStore
  import opened LandmarkBackend
  import G = ShadowGraph
  import K = KeyPoseRule

  // ---------- one call ----------

  function Triple(c: G.Call): (nat, int, nat) { (c.keypose, c.landmark, c.episode) }

  // The call failed in the solver, so the solver had been handed its batch.
  predicate SolverFailed(g: G.Graph, c: G.Call) {
    !g.failed && G.Updated(g, c).0.failed && (c.keypose in g.isam.xs || c.oracle.finite)
  }

  predicate GotThrough(g: G.Graph, c: G.Call) { G.Updated(g, c).1 || SolverFailed(g, c) }

  // The call brings a visual factor that the solver does not hold yet.
  predicate Observes(g: G.Graph, c: G.Call) { c.eligible && Triple(c) !in g.isam.visuals }

  lemma BatchIsHandedOver(g: G.Graph, c: G.Call)
    requires g.failed || (c.keypose in g.keyposeIds <==> c.keypose in g.isam.xs)
    ensures G.Updated(g, c).0.isam == if GotThrough(g, c) then G.Handed(g, c) else g.isam
  {
  }

  lemma BatchIs(g: G.Graph, c: G.Call)
    requires c.keypose in g.keyposeIds <==> c.keypose in g.isam.xs
    requires c.landmark in g.landmarkIds <==> c.landmark in g.isam.ls
    requires Triple(c) in g.visualEdges <==> Triple(c) in g.isam.visuals
    requires g.keyposeIds == {} <==> g.isam.xs == []
    ensures var s, t := g.isam, G.Handed(g, c);
            t.visuals == s.visuals + (if Observes(g, c) then [Triple(c)] else []) &&
            t.ls == s.ls + (if Observes(g, c) && c.landmark !in s.ls then [c.landmark] else []) &&
            t.xs == s.xs + (if c.keypose !in s.xs then [c.keypose] else []) &&
            t.priors == s.priors + (if c.keypose !in s.xs && s.xs == [] then [c.keypose] else [])
  {
  }

  // A call that gets through hands over its keypose and, when it is eligible, its visual factor
  // with the landmark, unless the solver holds them; any other call hands over nothing.
  lemma CallHandsOver(g: G.Graph, c: G.Call)
    requires G.Shaped(g)
    ensures var s, t, through := g.isam, G.Updated(g, c).0.isam, GotThrough(g, c);
            t.visuals == s.visuals + (if through && Observes(g, c) then [Triple(c)] else []) &&
            t.ls == s.ls + (if through && Observes(g, c) && c.landmark !in s.ls then [c.landmark] else []) &&
            t.xs == s.xs + (if through && c.keypose !in s.xs then [c.keypose] else []) &&
            t.priors == s.priors + (if through && c.keypose !in s.xs && s.xs == [] then [c.keypose] else [])
  {
    BatchIsHandedOver(g, c);
    if !g.failed {
      HoldsSets(g);
      BatchIs(g, c);
    }
  }

  lemma HoldsSets(g: G.Graph)
    requires G.Shaped(g) && !g.failed
    ensures g.keyposeIds == {} <==> g.isam.xs == []
  {
    if g.isam.xs != [] { assert g.isam.xs[0] in g.keyposeIds; }
  }

  // Afterwards the solver holds everything that an accepted call was about.
  lemma AcceptedIsHeld(g: G.Graph, c: G.Call)
    requires G.Shaped(g) && G.Updated(g, c).1
    ensures var t := G.Updated(g, c).0.isam;
            c.keypose in t.xs && (c.eligible ==> Triple(c) in t.visuals && c.landmark in t.ls)
  {
    CallHandsOver(g, c);
    var t := G.Updated(g, c).0.isam;
    if Triple(c) in g.isam.visuals {
      var i :| 0 <= i < |g.isam.visuals| && g.isam.visuals[i] == Triple(c);
      assert g.isam.visuals[i].1 in g.isam.ls;
    }
    assert GotThrough(g, c);
  }

  // Exactly which calls are accepted.
  predicate Acceptable(g: G.Graph, c: G.Call) {
    var unknown := c.keypose !in g.isam.xs;
    !g.failed && 1 <= c.keypose < 0x100_0000_0000_0000 && (c.eligible ==> c.landmark >= 0) &&
    (unknown && g.isam.xs != [] ==>
       c.motion.Some? && c.motion.value.valid && c.motion.value.to == c.keypose && c.motion.value.from in g.isam.xs) &&
    (Observes(g, c) ==> c.oracle.visualValid) && (unknown ==> c.oracle.finite) &&
    (unknown || Observes(g, c) ==> c.oracle.solved)
  }

  lemma AcceptedIff(g: G.Graph, c: G.Call)
    requires G.Shaped(g)
    ensures G.Updated(g, c).1 <==> Acceptable(g, c)
  {
    if !g.failed { HoldsSets(g); }
  }

  // ---------- what a call counts and remembers ----------

  predicate Sane(g: G.Graph, c: G.Call) {
    !g.failed && 1 <= c.keypose < 0x100_0000_0000_0000 && (c.eligible ==> c.landmark >= 0)
  }

  predicate Brings(g: G.Graph, c: G.Call) { c.keypose !in g.isam.xs }

  // A new keypose that no valid motion joins to the graph.
  predicate Unjoined(g: G.Graph, c: G.Call) {
    Brings(g, c) && g.isam.xs != [] &&
    !(c.motion.Some? && c.motion.value.valid && c.motion.value.to == c.keypose && c.motion.value.from in g.isam.xs)
  }

  predicate Unsound(g: G.Graph, c: G.Call) { Observes(g, c) && !c.oracle.visualValid }

  // The call has something to hand over, and nothing speaks against it.
  predicate Builds(g: G.Graph, c: G.Call) {
    Sane(g, c) && !Unjoined(g, c) && !Unsound(g, c) && (Brings(g, c) || Observes(g, c))
  }

  predicate Breaks(g: G.Graph, c: G.Call) {
    Builds(g, c) && (!c.oracle.solved || (Brings(g, c) && !c.oracle.finite))
  }

  function If(b: bool): nat { if b then 1 else 0 }

  // What each call refuses or repeats, and when the graph is degraded or stopped by it.
  lemma RefusalsCount(g: G.Graph, c: G.Call)
    requires G.Shaped(g)
    ensures var t, n, m := G.Updated(g, c).0, g.counters, G.Updated(g, c).0.counters;
            && m.suppressed == n.suppressed + If(Sane(g, c) && !Observes(g, c))
            && m.duplicates == n.duplicates + If(Sane(g, c) && Triple(c) in g.isam.visuals)
            && m.motionRejects == n.motionRejects + If(Sane(g, c) && Unjoined(g, c))
            && m.visualRejects == n.visualRejects + If(Sane(g, c) && Unsound(g, c) && !Unjoined(g, c))
            && m.exceptions == n.exceptions + If(Breaks(g, c))
            && (t.failed <==> g.failed || Breaks(g, c))
            && (t.degraded <==> g.degraded || (!g.failed && !G.Updated(g, c).1))
  {
    if !g.failed { HoldsSets(g); }
  }

  // What each call adds to the graph.
  lemma AdditionsCount(g: G.Graph, c: G.Call)
    requires G.Shaped(g)
    ensures var n, m, added := g.counters, G.Updated(g, c).0.counters, Builds(g, c) && !Breaks(g, c);
            && m.updates == n.updates + If(added)
            && m.visualFactors == n.visualFactors + If(added && Observes(g, c))
            && m.motionFactors == n.motionFactors + If(added && Brings(g, c) && c.motion.Some?)
            && m.gaugePriors == n.gaugePriors + If(added && Brings(g, c) && c.motion.None?)
  {
    if !g.failed { HoldsSets(g); }
  }

  // The graph remembers, for each landmark tied to it, the episode and the time of the last accepted
  // observation of that episode; a new visual factor makes its episode the one remembered.
  lemma CallRemembers(g: G.Graph, c: G.Call)
    requires G.Shaped(g)
    ensures var t, through := G.Updated(g, c).0, G.Updated(g, c).1;
            var same := c.landmark in g.episodes && g.episodes[c.landmark].0 == c.episode;
            t.episodes == if through && (Observes(g, c) || same) then g.episodes[c.landmark := (c.episode, c.time)]
                          else g.episodes
  {
    if !g.failed { HoldsSets(g); }
  }

  // ---------- any sequence of observations ----------

  function GraphAt(c: Config, inputs: seq<Input>, n: nat): G.Graph
    requires n <= |inputs|
  {
    FoldMemory(c, inputs[..n]).graph
  }

  function CallAt(c: Config, inputs: seq<Input>, n: nat): G.Call
    requires n < |inputs|
  {
    CallFor(c, FoldMemory(c, inputs[..n]).store, inputs[n])
  }

  // The call of observation n got through.
  predicate Through(c: Config, inputs: seq<Input>, n: nat) {
    n < |inputs| && GotThrough(GraphAt(c, inputs, n), CallAt(c, inputs, n))
  }

  ghost predicate BringsVisual(c: Config, inputs: seq<Input>, n: nat, v: (nat, int, nat)) {
    Through(c, inputs, n) && CallAt(c, inputs, n).eligible && Triple(CallAt(c, inputs, n)) == v
  }

  ghost predicate BringsKeyPose(c: Config, inputs: seq<Input>, n: nat, x: nat) {
    Through(c, inputs, n) && CallAt(c, inputs, n).keypose == x
  }

  lemma BeforeLast(c: Config, inputs: seq<Input>, n: nat)
    requires inputs != [] && n < |inputs|
    ensures var init := inputs[..|inputs| - 1];
            if n == |init| then
              GraphAt(c, inputs, n) == FoldMemory(c, init).graph &&
              CallAt(c, inputs, n) == CallFor(c, FoldMemory(c, init).store, inputs[n])
            else
              GraphAt(c, inputs, n) == GraphAt(c, init, n) && CallAt(c, inputs, n) == CallAt(c, init, n) &&
              Through(c, inputs, n) == Through(c, init, n)
  {
    var init := inputs[..|inputs| - 1];
    if n < |init| { assert inputs[..n] == init[..n] && inputs[n] == init[n]; }
  }

  lemma LastGraph(c: Config, inputs: seq<Input>)
    requires inputs != []
    ensures var init := inputs[..|inputs| - 1];
            FoldMemory(c, inputs).graph ==
            G.Updated(FoldMemory(c, init).graph, CallFor(c, FoldMemory(c, init).store, inputs[|inputs| - 1])).0
  {
    var init, i := inputs[..|inputs| - 1], inputs[|inputs| - 1];
    assert init + [i] == inputs;
    FoldOneMore(c, init, i);
  }

  lemma InMore<T>(s: seq<T>, t: seq<T>, x: T, y: T, more: bool)
    requires t == s + (if more then [y] else [])
    ensures x in t <==> x in s || (more && x == y)
  {
  }

  // What the last observation adds to the visual factors.
  lemma LastVisual(c: Config, inputs: seq<Input>, v: (nat, int, nat))
    requires inputs != []
    ensures var last := |inputs| - 1;
            v in FoldMemory(c, inputs).graph.isam.visuals <==>
            v in FoldMemory(c, inputs[..last]).graph.isam.visuals || BringsVisual(c, inputs, last, v)
  {
    var last := |inputs| - 1;
    MemoryIsSound(c, inputs[..last]);
    LastGraph(c, inputs);
    BeforeLast(c, inputs, last);
    VisualAdded(GraphAt(c, inputs, last), CallAt(c, inputs, last), v);
  }

  lemma VisualAdded(g: G.Graph, c: G.Call, v: (nat, int, nat))
    requires G.Shaped(g)
    ensures v in G.Updated(g, c).0.isam.visuals <==>
            v in g.isam.visuals || (GotThrough(g, c) && c.eligible && Triple(c) == v)
  {
    CallHandsOver(g, c);
    InMore(g.isam.visuals, G.Updated(g, c).0.isam.visuals, v, Triple(c), GotThrough(g, c) && Observes(g, c));
  }

  lemma EarlierVisual(c: Config, inputs: seq<Input>, n: nat, v: (nat, int, nat))
    requires inputs != [] && n != |inputs| - 1
    ensures BringsVisual(c, inputs, n, v) <==> BringsVisual(c, inputs[..|inputs| - 1], n, v)
  {
    if n < |inputs| { BeforeLast(c, inputs, n); }
  }

  lemma VisualsAreObservedOneMore(c: Config, inputs: seq<Input>, init: seq<Input>, v: (nat, int, nat))
    requires inputs != [] && init == inputs[..|inputs| - 1]
    ensures (exists n: nat :: BringsVisual(c, inputs, n, v)) <==>
            (exists n: nat :: BringsVisual(c, init, n, v)) || BringsVisual(c, inputs, |init|, v)
  {
    if n: nat :| BringsVisual(c, init, n, v) {
      EarlierVisual(c, inputs, n, v);
      assert BringsVisual(c, inputs, n, v);
    }
    if n: nat :| BringsVisual(c, inputs, n, v) {
      if n != |init| { EarlierVisual(c, inputs, n, v); }
    }
  }

  // Over any sequence of observations and kernel answers the visual factors are exactly the
  // (keypose, landmark, episode) triples of the eligible observations whose call got through.
  lemma {:induction false} VisualsAreObserved(c: Config, inputs: seq<Input>, v: (nat, int, nat))
    ensures v in FoldMemory(c, inputs).graph.isam.visuals <==> exists n: nat :: BringsVisual(c, inputs, n, v)
  {
    if inputs != [] {
      VisualsAreObserved(c, inputs[..|inputs| - 1], v);
      LastVisual(c, inputs, v);
      VisualsAreObservedOneMore(c, inputs, inputs[..|inputs| - 1], v);
    }
  }

  lemma LastKeyPose(c: Config, inputs: seq<Input>, x: nat)
    requires inputs != []
    ensures var last := |inputs| - 1;
            x in FoldMemory(c, inputs).graph.isam.xs <==>
            x in FoldMemory(c, inputs[..last]).graph.isam.xs || BringsKeyPose(c, inputs, last, x)
  {
    var last := |inputs| - 1;
    MemoryIsSound(c, inputs[..last]);
    LastGraph(c, inputs);
    BeforeLast(c, inputs, last);
    KeyPoseAdded(GraphAt(c, inputs, last), CallAt(c, inputs, last), x);
  }

  lemma KeyPoseAdded(g: G.Graph, c: G.Call, x: nat)
    requires G.Shaped(g)
    ensures x in G.Updated(g, c).0.isam.xs <==> x in g.isam.xs || (GotThrough(g, c) && c.keypose == x)
  {
    CallHandsOver(g, c);
    InMore(g.isam.xs, G.Updated(g, c).0.isam.xs, x, c.keypose, GotThrough(g, c) && c.keypose !in g.isam.xs);
  }

  lemma EarlierKeyPose(c: Config, inputs: seq<Input>, n: nat, x: nat)
    requires inputs != [] && n != |inputs| - 1
    ensures BringsKeyPose(c, inputs, n, x) <==> BringsKeyPose(c, inputs[..|inputs| - 1], n, x)
  {
    if n < |inputs| { BeforeLast(c, inputs, n); }
  }

  lemma KeyPosesAreCalledOneMore(c: Config, inputs: seq<Input>, init: seq<Input>, x: nat)
    requires inputs != [] && init == inputs[..|inputs| - 1]
    ensures (exists n: nat :: BringsKeyPose(c, inputs, n, x)) <==>
            (exists n: nat :: BringsKeyPose(c, init, n, x)) || BringsKeyPose(c, inputs, |init|, x)
  {
    if n: nat :| BringsKeyPose(c, init, n, x) {
      EarlierKeyPose(c, inputs, n, x);
      assert BringsKeyPose(c, inputs, n, x);
    }
    if n: nat :| BringsKeyPose(c, inputs, n, x) {
      if n != |init| { EarlierKeyPose(c, inputs, n, x); }
    }
  }

  // And the keyposes are exactly those of the calls that got through.
  lemma {:induction false} KeyPosesAreCalled(c: Config, inputs: seq<Input>, x: nat)
    ensures x in FoldMemory(c, inputs).graph.isam.xs <==> exists n: nat :: BringsKeyPose(c, inputs, n, x)
  {
    if inputs != [] {
      KeyPosesAreCalled(c, inputs[..|inputs| - 1], x);
      LastKeyPose(c, inputs, x);
      KeyPosesAreCalledOneMore(c, inputs, inputs[..|inputs| - 1], x);
    }
  }

  // ---------- what the calls are ----------

  // The observation creates a keypose, or lies within the limits of the last one.
  predicate Eligible(c: Config, inputs: seq<Input>, n: nat)
    requires n < |inputs|
  {
    var before, cuts := inputs[..n], K.Cuts(c.geometry, c.policy, inputs[..n + 1]);
    cuts != [] &&
    (cuts[|cuts| - 1] == n ||
     (!K.Starts(c.policy, before, inputs[n]) &&
      K.Within(c.geometry, c.policy, inputs[cuts[|cuts| - 1]].time, inputs[cuts[|cuts| - 1]].pose, inputs[n])))
  }

  lemma StoreBefore(c: Config, inputs: seq<Input>, n: nat)
    requires n < |inputs|
    ensures CallAt(c, inputs, n) == CallFor(c, Fold(c.geometry, c.policy, inputs[..n]), inputs[n])
    ensures Fold(c.geometry, c.policy, inputs[..n + 1]) ==
            Processed(c.geometry, c.policy, Fold(c.geometry, c.policy, inputs[..n]), inputs[n])
  {
    MemoryIsSound(c, inputs[..n]);
    assert inputs[..n + 1][..n] == inputs[..n];
  }

  lemma CallOf(c: Config, s: Store, i: Input, t: Store, call: G.Call, creates: bool, coalesces: bool)
    requires call == CallFor(c, s, i) && t == Processed(c.geometry, c.policy, s, i) && t.keyposes != []
    requires |t.keyposes| > 1 ==> t.motions != []
    requires creates == CreatesKeyPose(c.geometry, c.policy, s, i)
    requires coalesces == Coalesces(c.geometry, c.policy, s, i)
    ensures call.keypose == t.keyposes[|t.keyposes| - 1].id && call.landmark == i.landmark && call.time == i.time
    ensures i.landmark in t.landmarks && call.episode == t.landmarks[i.landmark].episode && call.oracle == i.oracle
    ensures call.motion == if |t.keyposes| > 1 && creates then Some(t.motions[|t.motions| - 1]) else None
    ensures call.eligible <==> creates || coalesces
  {
  }

  // Creation and coalescing against the segments of the observations before this one.
  lemma RuleOnSegments(g: Geometry, p: Policy, before: seq<Input>, i: Input, s: Store, cuts: seq<nat>)
    requires s == Fold(g, p, before) && cuts == K.Cuts(g, p, before)
    ensures var starts := K.Starts(p, before, i);
            (CreatesKeyPose(g, p, s, i) <==>
             cuts == [] || starts ||
             K.Beyond(g, p, before[cuts[|cuts| - 1]].time, before[cuts[|cuts| - 1]].pose, i)) &&
            (Coalesces(g, p, s, i) <==>
             cuts != [] && !starts &&
             K.Within(g, p, before[cuts[|cuts| - 1]].time, before[cuts[|cuts| - 1]].pose, i))
  {
    K.StoreRemembersSeen(g, p, before, i.landmark);
    LastSegment(g, p, before, s, cuts);
    RuleOnStore(g, p, s, i, K.Starts(p, before, i));
  }

  lemma LastSegment(g: Geometry, p: Policy, before: seq<Input>, s: Store, cuts: seq<nat>)
    requires s == Fold(g, p, before) && cuts == K.Cuts(g, p, before)
    ensures |s.keyposes| == |cuts|
    ensures cuts != [] ==>
              var first := before[cuts[|cuts| - 1]];
              s.keyposes[|cuts| - 1].time == first.time && s.keyposes[|cuts| - 1].pose == first.pose
  {
    K.KeyPosesAreSegments(g, p, before);
    if cuts != [] {
      var k := |cuts| - 1;
      assert K.Gathers(s.keyposes[k], before, cuts[k], K.CutEnd(before, cuts, k));
    }
  }

  lemma RuleOnStore(g: Geometry, p: Policy, s: Store, i: Input, starts: bool)
    requires starts <==> StartsEpisode(p, s, i)
    ensures s.keyposes == [] ==> CreatesKeyPose(g, p, s, i) && !Coalesces(g, p, s, i)
    ensures s.keyposes != [] ==>
              var last := s.keyposes[|s.keyposes| - 1];
              (CreatesKeyPose(g, p, s, i) <==> starts || K.Beyond(g, p, last.time, last.pose, i)) &&
              (Coalesces(g, p, s, i) <==> !starts && K.Within(g, p, last.time, last.pose, i))
  {
  }

  lemma EligibleIs(c: Config, inputs: seq<Input>, n: nat)
    requires n < |inputs|
    ensures var s, i := Fold(c.geometry, c.policy, inputs[..n]), inputs[n];
            var cuts := K.Cuts(c.geometry, c.policy, inputs[..n + 1]);
            cuts != [] && (CreatesKeyPose(c.geometry, c.policy, s, i) <==> cuts[|cuts| - 1] == n) &&
            (CreatesKeyPose(c.geometry, c.policy, s, i) || Coalesces(c.geometry, c.policy, s, i) <==>
             Eligible(c, inputs, n))
  {
    var before, seen := inputs[..n], inputs[..n + 1];
    assert seen[..n] == before && seen[n] == inputs[n];
    RuleOnSegments(c.geometry, c.policy, before, inputs[n], Fold(c.geometry, c.policy, before),
                   K.Cuts(c.geometry, c.policy, before));
  }

  // The call of an observation: its segment, whether it is eligible, and a motion exactly when it
  // begins a segment other than the first.
  lemma CallMeans(c: Config, inputs: seq<Input>, n: nat)
    requires n < |inputs|
    ensures var call := CallAt(c, inputs, n);
            var cuts := K.Cuts(c.geometry, c.policy, inputs[..n + 1]);
            call.keypose == |cuts| && call.landmark == inputs[n].landmark && call.time == inputs[n].time &&
            (call.eligible <==> Eligible(c, inputs, n)) && call.oracle == inputs[n].oracle &&
            (call.motion.Some? <==> |cuts| > 1 && cuts[|cuts| - 1] == n)
  {
    var s, t := Fold(c.geometry, c.policy, inputs[..n]), Fold(c.geometry, c.policy, inputs[..n + 1]);
    StoreBefore(c, inputs, n);
    SegmentCount(c, inputs[..n + 1]);
    EligibleIs(c, inputs, n);
    CallOf(c, s, inputs[n], t, CallAt(c, inputs, n), CreatesKeyPose(c.geometry, c.policy, s, inputs[n]),
           Coalesces(c.geometry, c.policy, s, inputs[n]));
  }

  // The episode of the call is the number of the one that its landmark is in.
  lemma CallEpisode(c: Config, inputs: seq<Input>, n: nat)
    requires n < |inputs|
    ensures var seen := inputs[..n + 1];
            K.LastSeen(seen, inputs[n].landmark).Some? &&
            CallAt(c, inputs, n).episode == K.EpisodeNumber(c.policy, seen, inputs[n].landmark)
  {
    var s := Fold(c.geometry, c.policy, inputs[..n]);
    StoreBefore(c, inputs, n);
    EpisodeInStore(c, s, inputs[n], CallAt(c, inputs, n));
    EpisodeRecorded(c, inputs[..n + 1], inputs[n].landmark, Processed(c.geometry, c.policy, s, inputs[n]));
  }

  lemma EpisodeInStore(c: Config, s: Store, i: Input, call: G.Call)
    requires call == CallFor(c, s, i)
    ensures var t := Processed(c.geometry, c.policy, s, i);
            i.landmark in t.landmarks && call.episode == t.landmarks[i.landmark].episode
  {
  }

  lemma EpisodeRecorded(c: Config, seen: seq<Input>, landmark: int, t: Store)
    requires t == Fold(c.geometry, c.policy, seen) && landmark in t.landmarks
    ensures K.LastSeen(seen, landmark).Some?
    ensures t.landmarks[landmark].episode == K.EpisodeNumber(c.policy, seen, landmark)
  {
    K.EpisodesAreRecorded(c.geometry, c.policy, seen, landmark);
    assert K.Recorded(c.policy, seen, landmark, t.landmarks[landmark]);
  }

  // The motion of the call leads from the segment before to this one, and is as valid as the
  // kernels say for this observation.
  lemma CallMotion(c: Config, inputs: seq<Input>, n: nat)
    requires n < |inputs| && CallAt(c, inputs, n).motion.Some?
    ensures var motion := CallAt(c, inputs, n).motion.value;
            var cuts := K.Cuts(c.geometry, c.policy, inputs[..n + 1]);
            motion.from + 1 == motion.to == |cuts| && motion.valid == inputs[n].oracle.motionValid
  {
    var s, t := Fold(c.geometry, c.policy, inputs[..n]), Fold(c.geometry, c.policy, inputs[..n + 1]);
    StoreBefore(c, inputs, n);
    SegmentCount(c, inputs[..n + 1]);
    CallMeans(c, inputs, n);
    MemoryIsSound(c, inputs[..n]);
    CallIsWellFormed(c, FoldMemory(c, inputs[..n]), inputs[n]);
    CallOf(c, s, inputs[n], t, CallAt(c, inputs, n), CreatesKeyPose(c.geometry, c.policy, s, inputs[n]),
           Coalesces(c.geometry, c.policy, s, inputs[n]));
    NewMotionIs(c, s, inputs[n]);
  }

  lemma NewMotionIs(c: Config, s: Store, i: Input)
    requires CreatesKeyPose(c.geometry, c.policy, s, i) && s.keyposes != []
    ensures var t := Processed(c.geometry, c.policy, s, i);
            t.motions != [] && t.motions[|t.motions| - 1].valid == i.oracle.motionValid
  {
  }

  lemma SegmentCount(c: Config, seen: seq<Input>)
    requires seen != []
    ensures var t := Fold(c.geometry, c.policy, seen);
            t.keyposes != [] && (|t.keyposes| > 1 ==> t.motions != []) &&
            t.keyposes[|t.keyposes| - 1].id == |t.keyposes| == |K.Cuts(c.geometry, c.policy, seen)|
  {
    FoldIsChained(c.geometry, c.policy, seen);
    K.KeyPosesAreSegments(c.geometry, c.policy, seen);
  }
}
