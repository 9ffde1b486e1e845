// The incrementally grown landmark factor graph with its refusals and its fail-stop.
module ShadowGraph {
  import opened Outcomes
  import opened LandmarkStore

  // Everything handed to the incremental solver: factors by kind and inserted variables.
  datatype Solver = Solver(priors: seq<nat>, motions: seq<(nat, nat)>, visuals: seq<(nat, int, nat)>,
                           xs: seq<nat>, ls: seq<int>)

  datatype Counters = Counters(updates: nat, motionFactors: nat, visualFactors: nat, gaugePriors: nat,
                               suppressed: nat, duplicates: nat, motionRejects: nat, visualRejects: nat,
                               exceptions: nat, crossEpisode: nat)

  datatype Graph = Graph(isam: Solver, keyposeIds: set<nat>, landmarkIds: set<int>, motionEdges: set<(nat, nat)>,
                         visualEdges: set<(nat, int, nat)>, episodes: map<int, (nat, real)>, degraded: bool,
                         failed: bool, counters: Counters)

  const NO_SOLVER := Solver([], [], [], [], [])
  const NO_GRAPH := Graph(NO_SOLVER, {}, {}, {}, {}, map[], false, false, Counters(0, 0, 0, 0, 0, 0, 0, 0, 0, 0))

  const MAX_KEY: nat := 0xFF_FFFF_FFFF_FFFF  // 2^56 - 1

  // One call of update: the keypose, the motion that leads to it when it was just created, and
  // the observation with its episode.
  datatype Call = Call(keypose: nat, motion: Option<Motion>, landmark: int, time: real, episode: nat,
                       eligible: bool, oracle: Oracle)

  function VisualId(c: Call): (nat, int, nat) { (c.keypose, c.landmark, c.episode) }

  predicate IsNew(g: Graph, c: Call) { c.keypose !in g.keyposeIds }

  predicate AddsVisual(g: Graph, c: Call) { c.eligible && VisualId(c) !in g.visualEdges }

  predicate Reobserves(g: Graph, c: Call) {
    AddsVisual(g, c) && c.landmark in g.episodes && g.episodes[c.landmark].0 != c.episode
  }

  predicate MotionUsable(g: Graph, c: Call) {
    c.motion.Some? && c.motion.value.to == c.keypose && c.motion.value.from in g.keyposeIds && c.motion.value.valid
  }

  // The last time of the current episode moves with every observation of it.
  function Touched(g: Graph, c: Call): map<int, (nat, real)> {
    if c.landmark in g.episodes && g.episodes[c.landmark].0 == c.episode
    then g.episodes[c.landmark := (c.episode, c.time)] else g.episodes
  }

  // What this call hands to the solver.
  function Handed(g: Graph, c: Call): Solver {
    var s := g.isam;
    var first := g.keyposeIds == {};
    var brings := IsNew(g, c);
    var add := AddsVisual(g, c);
    Solver(if brings && first then s.priors + [c.keypose] else s.priors,
           if brings && !first && c.motion.Some? then s.motions + [(c.motion.value.from, c.keypose)] else s.motions,
           if add then s.visuals + [VisualId(c)] else s.visuals,
           if brings then s.xs + [c.keypose] else s.xs,
           if add && c.landmark !in g.landmarkIds then s.ls + [c.landmark] else s.ls)
  }

  function Failed(g: Graph): Graph {
    g.(degraded := true, failed := true, counters := g.counters.(exceptions := g.counters.exceptions + 1))
  }

  // The bookkeeping after the solver succeeded. The factor kind was chosen by the emptiness of the
  // graph, the counters are chosen by the presence of a motion.
  function Accepted(g: Graph, c: Call): Graph {
    var n := g.counters;
    var brings := IsNew(g, c);
    var add := AddsVisual(g, c);
    g.(isam := Handed(g, c),
       keyposeIds := g.keyposeIds + {c.keypose},
       landmarkIds := if add then g.landmarkIds + {c.landmark} else g.landmarkIds,
       motionEdges := if brings && c.motion.Some? then g.motionEdges + {(c.motion.value.from, c.motion.value.to)}
                      else g.motionEdges,
       visualEdges := if add then g.visualEdges + {VisualId(c)} else g.visualEdges,
       episodes := if add then g.episodes[c.landmark := (c.episode, c.time)] else Touched(g, c),
       counters := n.(updates := n.updates + 1,
                      motionFactors := if brings && c.motion.Some? then n.motionFactors + 1 else n.motionFactors,
                      gaugePriors := if brings && c.motion.None? then n.gaugePriors + 1 else n.gaugePriors,
                      visualFactors := if add then n.visualFactors + 1 else n.visualFactors,
                      crossEpisode := if Reobserves(g, c) then n.crossEpisode + 1 else n.crossEpisode))
  }

  function Suppressed(g: Graph, c: Call): Graph {
    var n := g.counters;
    if AddsVisual(g, c) then g
    else g.(counters := n.(suppressed := n.suppressed + 1,
                           duplicates := if VisualId(c) in g.visualEdges then n.duplicates + 1 else n.duplicates))
  }

  // The part inside the try block: building the factors and calling the solver.
  function Grown(g: Graph, c: Call): (Graph, bool)
    requires IsNew(g, c) && g.keyposeIds != {} ==> MotionUsable(g, c)
  {
    if IsNew(g, c) && !c.oracle.finite then (Failed(g), false)
    else if IsNew(g, c) && g.keyposeIds != {} && (c.motion.value.from, c.motion.value.to) in g.motionEdges then
      (g.(counters := g.counters.(duplicates := g.counters.duplicates + 1)), false)
    else if !c.oracle.solved then (Failed(g).(isam := Handed(g, c)), false)
    else (Accepted(g, c), true)
  }

  function Updated(g0: Graph, c: Call): (Graph, bool) {
    if g0.failed then (g0, false)
    else if c.keypose == 0 || c.keypose > MAX_KEY || (c.eligible && c.landmark < 0) then
      (g0.(degraded := true), false)
    else
      var g := Suppressed(g0, c);
      if IsNew(g, c) && g.keyposeIds != {} && !MotionUsable(g, c) then
        (g.(degraded := true, counters := g.counters.(motionRejects := g.counters.motionRejects + 1)), false)
      else if AddsVisual(g, c) && !c.oracle.visualValid then
        (g.(degraded := true, counters := g.counters.(visualRejects := g.counters.visualRejects + 1)), false)
      else if !IsNew(g, c) && !AddsVisual(g, c) then (g.(episodes := Touched(g, c)), true)
      else Grown(g, c)
  }

  // ---------- the shape of what was handed over ----------

  predicate Run(xs: seq<nat>) { forall i :: 0 <= i < |xs| ==> xs[i] == xs[0] + i }

  predicate Distinct<T(==)>(s: seq<T>) { forall i, j :: 0 <= i < j < |s| ==> s[i] != s[j] }

  // One prior on the first keypose, one motion factor between neighbours, and visual factors
  // that tie known landmarks to known keyposes.
  ghost predicate Backbone(s: Solver) {
    Run(s.xs) && s.priors == (if s.xs == [] then [] else [s.xs[0]]) &&
    |s.motions| == (if s.xs == [] then 0 else |s.xs| - 1) &&
    forall i :: 0 <= i < |s.motions| ==> s.motions[i] == (s.xs[i], s.xs[i + 1])
  }

  ghost predicate Tied(s: Solver) {
    Distinct(s.visuals) && Distinct(s.ls) &&
    (forall i :: 0 <= i < |s.visuals| ==> s.visuals[i].0 in s.xs && s.visuals[i].1 in s.ls) &&
    EachSeen(s.visuals, s.ls)
  }

  // Every landmark occurs in some visual factor.
  ghost predicate EachSeen(visuals: seq<(nat, int, nat)>, ls: seq<int>) {
    forall j :: 0 <= j < |ls| ==> exists i :: 0 <= i < |visuals| && visuals[i].1 == ls[j]
  }

  // The sets agree with what the solver holds, as long as it has not failed.
  ghost predicate Agree(g: Graph) {
    (forall k :: k in g.keyposeIds <==> k in g.isam.xs) && (forall l :: l in g.landmarkIds <==> l in g.isam.ls) &&
    (forall v :: v in g.visualEdges <==> v in g.isam.visuals) &&
    (forall e :: e in g.motionEdges ==> e.1 in g.keyposeIds)
  }

  ghost predicate Shaped(g: Graph) {
    Backbone(g.isam) && Tied(g.isam) && (!g.failed ==> Agree(g))
  }

  // A call as the backend makes it: the motion, if any, joins the two newest keyposes.
  predicate WellCalled(g: Graph, c: Call) {
    (c.motion.Some? ==> c.motion.value.to == c.keypose && c.motion.value.from + 1 == c.keypose) &&
    forall k :: k in g.keyposeIds ==> k <= c.keypose
  }

  lemma HandKeepsBackbone(g: Graph, c: Call)
    requires Backbone(g.isam) && Agree(g) && WellCalled(g, c)
    requires IsNew(g, c) && g.keyposeIds != {} ==> MotionUsable(g, c)
    ensures Backbone(Handed(g, c))
  {
    var s, t := g.isam, Handed(g, c);
    if IsNew(g, c) && g.keyposeIds != {} {
      var last := s.xs[|s.xs| - 1];
      assert last in g.keyposeIds && c.motion.value.from in s.xs;
      var i :| 0 <= i < |s.xs| && s.xs[i] == c.motion.value.from;
      assert last == c.motion.value.from;
    } else if IsNew(g, c) {
      HeadIsMember(s.xs);
    }
  }

  lemma HeadIsMember<T>(s: seq<T>)
    ensures s != [] ==> s[0] in s
  {
  }

  lemma TieOne(s: Solver, t: Solver, v: (nat, int, nat))
    requires Tied(s) && v !in s.visuals && s.xs <= t.xs && v.0 in t.xs
    requires t.visuals == s.visuals + [v]
    requires t.ls == if v.1 in s.ls then s.ls else s.ls + [v.1]
    ensures Tied(t)
  {
    forall i | 0 <= i < |t.visuals|
      ensures t.visuals[i].0 in t.xs && t.visuals[i].1 in t.ls
    {
      if i < |s.visuals| {
        assert s.visuals[i].0 in s.xs && s.visuals[i].1 in s.ls;
      }
    }
    LandmarksStayTied(s.visuals, s.ls, v, t.ls);
  }

  lemma LandmarksStayTied(visuals: seq<(nat, int, nat)>, ls: seq<int>, v: (nat, int, nat), more: seq<int>)
    requires EachSeen(visuals, ls)
    requires more == if v.1 in ls then ls else ls + [v.1]
    ensures EachSeen(visuals + [v], more)
  {
    var grown := visuals + [v];
    assert grown[|visuals|] == v;
    forall j | 0 <= j < |more|
      ensures exists i :: 0 <= i < |grown| && grown[i].1 == more[j]
    {
      if j < |ls| {
        var i :| 0 <= i < |visuals| && visuals[i].1 == ls[j];
        assert grown[i].1 == more[j];
      }
    }
  }

  lemma MoreKeyposesStayTied(s: Solver, t: Solver)
    requires Tied(s) && s.xs <= t.xs && t == s.(priors := t.priors, motions := t.motions, xs := t.xs)
    ensures Tied(t)
  {
    var visuals, ls := s.visuals, s.ls;
    assert t.visuals == visuals && t.ls == ls;
    forall i | 0 <= i < |visuals|
      ensures visuals[i].0 in t.xs && visuals[i].1 in ls
    {
      assert s.visuals[i].0 in s.xs;
    }
    assert Distinct(t.visuals);
    assert Distinct(t.ls);
    assert (forall i :: 0 <= i < |t.visuals| ==> t.visuals[i].0 in t.xs && t.visuals[i].1 in t.ls);
  }

  lemma HandKeepsTied(g: Graph, c: Call)
    requires Tied(g.isam) && Agree(g)
    ensures Tied(Handed(g, c))
  {
    if AddsVisual(g, c) {
      TieOne(g.isam, Handed(g, c), VisualId(c));
    } else {
      MoreKeyposesStayTied(g.isam, Handed(g, c));
    }
  }

  lemma AcceptedAgrees(g: Graph, c: Call)
    requires Agree(g) && WellCalled(g, c)
    ensures Agree(Accepted(g, c))
  {
  }

  // The three things a call can do to what matters for the shape.
  predicate SameGraph(g: Graph, h: Graph) {
    h.isam == g.isam && h.keyposeIds == g.keyposeIds && h.landmarkIds == g.landmarkIds &&
    h.motionEdges == g.motionEdges && h.visualEdges == g.visualEdges &&
    h.counters.crossEpisode == g.counters.crossEpisode
  }

  lemma CallDoes(g: Graph, c: Call)
    ensures var (h, ok) := Updated(g, c);
            var mid := Suppressed(g, c);
            SameGraph(g, mid) && mid.episodes == g.episodes && mid.failed == g.failed &&
            (g.failed ==> h.failed) &&
            ((SameGraph(g, h) && (h.episodes == g.episodes || h.episodes == Touched(g, c))) ||
             (!g.failed && (IsNew(mid, c) && mid.keyposeIds != {} ==> MotionUsable(mid, c)) &&
              ((ok && h == Accepted(mid, c)) || (!ok && h == Failed(mid).(isam := Handed(mid, c))))))
  {
  }

  // Every call keeps the shape of the graph, whatever the kernels and the solver answer.
  lemma UpdatedKeepsShape(g: Graph, c: Call)
    requires Shaped(g) && (!g.failed ==> WellCalled(g, c))
    ensures Shaped(Updated(g, c).0)
  {
    CallDoes(g, c);
    ShapeAfterCall(g, Suppressed(g, c), Updated(g, c).0, c);
  }

  lemma ShapeAfterCall(g: Graph, mid: Graph, h: Graph, c: Call)
    requires Shaped(g) && (!g.failed ==> WellCalled(g, c)) && SameGraph(g, mid) && mid.failed == g.failed
    requires (SameGraph(g, h) && (g.failed ==> h.failed)) ||
             (!g.failed && (IsNew(mid, c) && mid.keyposeIds != {} ==> MotionUsable(mid, c)) &&
              (h == Accepted(mid, c) || h == Failed(mid).(isam := Handed(mid, c))))
    ensures Shaped(h)
  {
    if !SameGraph(g, h) {
      HandKeepsShape(mid, c);
    }
  }

  lemma HandKeepsShape(g: Graph, c: Call)
    requires Shaped(g) && !g.failed && WellCalled(g, c)
    requires IsNew(g, c) && g.keyposeIds != {} ==> MotionUsable(g, c)
    ensures Backbone(Handed(g, c)) && Tied(Handed(g, c)) && Shaped(Accepted(g, c))
  {
    HandKeepsBackbone(g, c);
    HandKeepsTied(g, c);
    AcceptedAgrees(g, c);
  }

  // ---------- connectedness ----------

  datatype Node = X(id: nat) | L(landmark: int)

  predicate Variable(s: Solver, v: Node) {
    match v
    case X(k) => k in s.xs
    case L(l) => l in s.ls
  }

  // Two variables share a motion or a visual factor.
  predicate Adjacent(s: Solver, u: Node, v: Node) {
    match (u, v)
    case (X(a), X(b)) => (a, b) in s.motions || (b, a) in s.motions
    case (L(l), X(k)) => exists i :: 0 <= i < |s.visuals| && s.visuals[i].0 == k && s.visuals[i].1 == l
    case (X(k), L(l)) => exists i :: 0 <= i < |s.visuals| && s.visuals[i].0 == k && s.visuals[i].1 == l
    case (L(_), L(_)) => false
  }

  // A walk along factors from a variable to the keypose that carries the prior.
  ghost predicate Reaches(s: Solver, path: seq<Node>, v: Node) {
    path != [] && path[0] == v && path[|path| - 1].X? && path[|path| - 1].id in s.priors &&
    forall i :: 0 <= i < |path| - 1 ==> Adjacent(s, path[i], path[i + 1])
  }

  lemma PathGrows(s: Solver, path: seq<Node>, u: Node, v: Node)
    requires Reaches(s, path, v) && Adjacent(s, u, v)
    ensures Reaches(s, [u] + path, u)
  {
    var longer := [u] + path;
    forall i | 0 <= i < |longer| - 1
      ensures Adjacent(s, longer[i], longer[i + 1])
    {
      if i > 0 {
        assert Adjacent(s, path[i - 1], path[i - 1 + 1]);
      }
    }
  }

  lemma {:induction false} KeyposeReachesPrior(s: Solver, i: nat) returns (path: seq<Node>)
    requires Backbone(s) && i < |s.xs|
    ensures Reaches(s, path, X(s.xs[i]))
  {
    if i == 0 {
      path := [X(s.xs[0])];
    } else {
      var rest := KeyposeReachesPrior(s, i - 1);
      var k := i - 1;
      assert s.motions[k] == (s.xs[k], s.xs[k + 1]);
      assert s.motions[k] in s.motions;
      path := [X(s.xs[i])] + rest;
      PathGrows(s, rest, X(s.xs[i]), X(s.xs[i - 1]));
    }
  }

  // The graph is connected: from every variable a walk along factors leads to the one prior.
  lemma GraphIsConnected(g: Graph, v: Node) returns (path: seq<Node>)
    requires Shaped(g) && Variable(g.isam, v)
    ensures Reaches(g.isam, path, v)
    ensures |g.isam.priors| == 1
  {
    var s := g.isam;
    match v
    case X(k) =>
      var i :| 0 <= i < |s.xs| && s.xs[i] == k;
      path := KeyposeReachesPrior(s, i);
    case L(l) =>
      var j :| 0 <= j < |s.ls| && s.ls[j] == l;
      var n :| 0 <= n < |s.visuals| && s.visuals[n].1 == s.ls[j];
      var i :| 0 <= i < |s.xs| && s.xs[i] == s.visuals[n].0;
      var rest := KeyposeReachesPrior(s, i);
      path := [v] + rest;
      PathGrows(s, rest, v, X(s.xs[i]));
  }

  // No variable is inserted twice.
  lemma {:induction false} KeysAreDistinct(g: Graph)
    requires Shaped(g)
    ensures Distinct(g.isam.xs) && Distinct(g.isam.ls) && Distinct(g.isam.visuals)
  {
    forall i, j | 0 <= i < j < |g.isam.xs|
      ensures g.isam.xs[i] != g.isam.xs[j]
    {
      assert g.isam.xs[i] == g.isam.xs[0] + i && g.isam.xs[j] == g.isam.xs[0] + j;
    }
  }

  // ---------- a refused keypose ends the growth ----------

  // The graph is not empty and the newest keypose is not in it, or it has failed.
  ghost predicate Stuck(g: Graph, newest: nat) {
    g.failed || (g.keyposeIds != {} && forall k :: k in g.keyposeIds ==> k < newest)
  }

  // A later call, for the refused keypose or for a newer one, is refused too.
  lemma StuckStaysStuck(g: Graph, newest: nat, c: Call)
    requires Stuck(g, newest) && newest <= c.keypose
    requires c.motion.Some? ==> c.motion.value.from >= newest
    ensures Updated(g, c).0.isam == g.isam && !Updated(g, c).1 && Stuck(Updated(g, c).0, c.keypose)
  {
  }

  // A call for a new keypose that is refused on a non-empty graph leaves it stuck.
  lemma RefusalSticks(g: Graph, c: Call)
    requires !g.failed && WellCalled(g, c) && IsNew(g, c) && g.keyposeIds != {} && !Updated(g, c).1
    ensures Stuck(Updated(g, c).0, c.keypose)
  {
  }

  // A refused call hands nothing to the solver, unless the solver itself failed.
  lemma RefusalAddsNothing(g: Graph, c: Call)
    requires !Updated(g, c).1 && c.oracle.solved
    ensures Updated(g, c).0.isam == g.isam
  {
  }

  // ---------- the factor counters ----------

  // The counters agree with the factors handed over.
  predicate CountersMatch(g: Graph) {
    g.counters.gaugePriors == |g.isam.priors| && g.counters.motionFactors == |g.isam.motions| &&
    g.counters.visualFactors == |g.isam.visuals|
  }

  // No guard before the solver stops this call.
  predicate ReachesSolver(g: Graph, c: Call) {
    !g.failed && 0 < c.keypose <= MAX_KEY && (c.eligible ==> c.landmark >= 0) &&
    (IsNew(g, c) || AddsVisual(g, c)) && (AddsVisual(g, c) ==> c.oracle.visualValid) &&
    (IsNew(g, c) ==> c.oracle.finite) &&
    (IsNew(g, c) && g.keyposeIds != {} ==>
       MotionUsable(g, c) && (c.motion.value.from, c.motion.value.to) !in g.motionEdges)
  }

  // The call reaches the solver and either the solver fails, or the first keypose of the graph
  // comes with a motion, which needs an earlier keypose to have been refused.
  predicate Miscounts(g: Graph, c: Call) {
    ReachesSolver(g, c) && (!c.oracle.solved || (g.keyposeIds == {} && IsNew(g, c) && c.motion.Some?))
  }

  // Exactly when a call, accepted or not, makes the counters wrong.
  lemma CountersMatchIff(g: Graph, c: Call)
    requires CountersMatch(g)
    ensures CountersMatch(Updated(g, c).0) <==> !Miscounts(g, c)
  {
  }

  // The counters are wrong for good: the graph has failed, or its prior was not counted.
  predicate Miscounted(g: Graph) {
    !CountersMatch(g) && (g.failed || (g.keyposeIds != {} && g.counters.gaugePriors != |g.isam.priors|))
  }

  // A miscount is never made up for by a later call.
  lemma MiscountStays(g: Graph, c: Call)
    requires Miscounted(g) || (CountersMatch(g) && Miscounts(g, c))
    ensures Miscounted(Updated(g, c).0)
  {
  }

  // The failing case: keypose 1 is refused for its visual covariance, and keypose 2 then enters
  // with a prior that is counted as a motion factor.
  lemma RefusedFirstKeyposeMiscounts(relative: Pose)
    ensures var bad, good := Oracle(true, false, true, true), Oracle(true, true, true, true);
            var g := Updated(NO_GRAPH, Call(1, None, 5, 0.0, 1, true, bad)).0;
            var h := Updated(g, Call(2, Some(Motion(1, 2, 0.0, 3.0, relative, true)), 6, 3.0, 2, true, good));
            h.1 && h.0.isam.priors == [2] && h.0.isam.motions == [] &&
            h.0.counters.gaugePriors == 0 && h.0.counters.motionFactors == 1
  {
  }

  // The other failing case: the solver fails on the first keypose after its prior was handed over.
  lemma SolverFailureMiscounts()
    ensures var h := Updated(NO_GRAPH, Call(1, None, 5, 0.0, 1, true, Oracle(true, true, true, false)));
            !h.1 && h.0.failed && h.0.isam.priors == [1] && h.0.counters.gaugePriors == 0
  {
  }

  // ---------- reobservations ----------

  function Pairs(visuals: set<(nat, int, nat)>): set<(int, nat)> { set v | v in visuals :: (v.1, v.2) }

  // The history holds the newest episode of each landmark among the visual edges.
  ghost predicate HistoryOk(g: Graph) {
    g.episodes.Keys == g.landmarkIds &&
    (forall l :: l in g.landmarkIds ==> (l, g.episodes[l].0) in Pairs(g.visualEdges)) &&
    (forall v :: v in g.visualEdges ==> v.1 in g.landmarkIds && v.2 <= g.episodes[v.1].0)
  }

  ghost predicate CountOk(g: Graph) {
    HistoryOk(g) && g.counters.crossEpisode + |g.landmarkIds| == |Pairs(g.visualEdges)|
  }

  lemma PairsAdd(visuals: set<(nat, int, nat)>, v: (nat, int, nat))
    ensures Pairs(visuals + {v}) == Pairs(visuals) + {(v.1, v.2)}
  {
    forall w | w in Pairs(visuals) + {(v.1, v.2)}
      ensures w in Pairs(visuals + {v})
    {
      if w == (v.1, v.2) {
        assert v in visuals + {v};
      } else {
        var u :| u in visuals && (u.1, u.2) == w;
        assert u in visuals + {v};
      }
    }
  }

  lemma AcceptedKeepsHistory(g: Graph, c: Call)
    requires HistoryOk(g) && (c.landmark in g.episodes ==> g.episodes[c.landmark].0 <= c.episode)
    ensures HistoryOk(Accepted(g, c))
  {
    var h := Accepted(g, c);
    if AddsVisual(g, c) {
      PairsAdd(g.visualEdges, VisualId(c));
    }
  }

  // A visual factor brings a new (landmark, episode) pair exactly when the landmark is new or
  // the call counts as a reobservation.
  lemma NewPairIff(g: Graph, c: Call)
    requires HistoryOk(g) && AddsVisual(g, c)
    requires c.landmark in g.episodes ==> g.episodes[c.landmark].0 <= c.episode
    ensures (c.landmark, c.episode) !in Pairs(g.visualEdges) <==>
            c.landmark !in g.landmarkIds || Reobserves(g, c)
  {
    if (c.landmark, c.episode) in Pairs(g.visualEdges) {
      var v :| v in g.visualEdges && (v.1, v.2) == (c.landmark, c.episode);
      assert v.1 in g.landmarkIds && v.2 <= g.episodes[v.1].0;
    }
  }

  lemma AcceptedKeepsCount(g: Graph, c: Call)
    requires CountOk(g) && (c.landmark in g.episodes ==> g.episodes[c.landmark].0 <= c.episode)
    ensures CountOk(Accepted(g, c))
  {
    AcceptedKeepsHistory(g, c);
    if AddsVisual(g, c) {
      NewPairIff(g, c);
      PairsAdd(g.visualEdges, VisualId(c));
      SizeAfterAdding(Pairs(g.visualEdges), (c.landmark, c.episode));
      SizeAfterAdding(g.landmarkIds, c.landmark);
    }
  }

  lemma SizeAfterAdding<T>(s: set<T>, x: T)
    ensures |s + {x}| == if x in s then |s| else |s| + 1
  {
    if x in s {
      assert s + {x} == s;
    }
  }

  // The counter is the number of (landmark, episode) pairs beyond the first one of each landmark.
  lemma UpdatedKeepsCount(g: Graph, c: Call)
    requires CountOk(g) && (c.landmark in g.episodes ==> g.episodes[c.landmark].0 <= c.episode)
    ensures CountOk(Updated(g, c).0)
  {
    CallDoes(g, c);
    CountAfterCall(g, Suppressed(g, c), Updated(g, c).0, c);
  }

  lemma CountAfterCall(g: Graph, mid: Graph, h: Graph, c: Call)
    requires CountOk(g) && (c.landmark in g.episodes ==> g.episodes[c.landmark].0 <= c.episode)
    requires SameGraph(g, mid) && mid.episodes == g.episodes
    requires (SameGraph(g, h) && (h.episodes == g.episodes || h.episodes == Touched(g, c))) ||
             h == Accepted(mid, c) || h == Failed(mid).(isam := Handed(mid, c))
    ensures CountOk(h)
  {
    AcceptedKeepsCount(mid, c);
  }

  // ---------- the object ----------

  class SparseLandmarkShadowGraph {
    var isam: Solver
    var keyposeIds: set<nat>
    var landmarkIds: set<int>
    var motionEdges: set<(nat, nat)>
    var visualEdges: set<(nat, int, nat)>
    var landmarkFactorEpisodes: map<int, (nat, real)>
    var degraded: bool
    var failed: bool
    var telemetry: Counters

    constructor ()
      ensures View() == NO_GRAPH
    {
      isam, keyposeIds, landmarkIds, motionEdges, visualEdges := NO_SOLVER, {}, {}, {}, {};
      landmarkFactorEpisodes, degraded, failed := map[], false, false;
      telemetry := Counters(0, 0, 0, 0, 0, 0, 0, 0, 0, 0);
    }

    function View(): Graph
      reads this
    {
      Graph(isam, keyposeIds, landmarkIds, motionEdges, visualEdges, landmarkFactorEpisodes,
            degraded, failed, telemetry)
    }

    method Update(c: Call) returns (ok: bool)
      modifies this
      ensures (View(), ok) == Updated(old(View()), c)
    {
      if failed {
        return false;
      }
      if c.keypose == 0 || c.keypose > MAX_KEY || (c.eligible && c.landmark < 0) {
        degraded := true;
        return false;
      }
      var newKeypose := c.keypose !in keyposeIds;
      var duplicate := VisualId(c) in visualEdges;
      if !c.eligible || duplicate {
        telemetry := telemetry.(suppressed := telemetry.suppressed + 1);
        if duplicate {
          telemetry := telemetry.(duplicates := telemetry.duplicates + 1);
        }
      }
      var addVisual := c.eligible && !duplicate;
      var known := c.landmark in landmarkFactorEpisodes;
      if newKeypose && keyposeIds != {} {
        if c.motion.None? || c.motion.value.to != c.keypose || c.motion.value.from !in keyposeIds ||
           !c.motion.value.valid
        {
          telemetry := telemetry.(motionRejects := telemetry.motionRejects + 1);
          degraded := true;
          return false;
        }
      }
      if addVisual && !c.oracle.visualValid {
        telemetry := telemetry.(visualRejects := telemetry.visualRejects + 1);
        degraded := true;
        return false;
      }
      if !newKeypose && !addVisual {
        if known && landmarkFactorEpisodes[c.landmark].0 == c.episode {
          landmarkFactorEpisodes := landmarkFactorEpisodes[c.landmark := (c.episode, c.time)];
        }
        return true;
      }
      ok := Grow(c);
    }

    method Grow(c: Call) returns (ok: bool)
      requires IsNew(View(), c) && keyposeIds != {} ==> MotionUsable(View(), c)
      modifies this
      ensures (View(), ok) == Grown(old(View()), c)
    {
      ghost var before := View();
      var newKeypose := c.keypose !in keyposeIds;
      if newKeypose && !c.oracle.finite {
        Fail();
        return false;
      }
      if newKeypose && keyposeIds != {} && (c.motion.value.from, c.motion.value.to) in motionEdges {
        telemetry := telemetry.(duplicates := telemetry.duplicates + 1);
        return false;
      }
      var batch := BuildFactors(c);
      isam := batch;
      if !c.oracle.solved {
        Fail();
        return false;
      }
      RecordAccepted(c, before);
      return true;
    }

    // The bookkeeping once the solver has taken the update.
    method RecordAccepted(c: Call, ghost before: Graph)
      requires View() == before.(isam := Handed(before, c))
      modifies this`keyposeIds, this`landmarkIds, this`motionEdges, this`visualEdges,
               this`landmarkFactorEpisodes, this`telemetry
      ensures View() == Accepted(before, c)
    {
      var addVisual := c.eligible && VisualId(c) !in visualEdges;
      if addVisual && c.landmark in landmarkFactorEpisodes && landmarkFactorEpisodes[c.landmark].0 != c.episode {
        telemetry := telemetry.(crossEpisode := telemetry.crossEpisode + 1);
      }
      RecordKeypose(c);
      RecordVisual(c, addVisual);
      telemetry := telemetry.(updates := telemetry.updates + 1);
    }

    method RecordKeypose(c: Call)
      modifies this`keyposeIds, this`motionEdges, this`telemetry
      ensures var brings := c.keypose !in old(keyposeIds);
              && keyposeIds == old(keyposeIds) + {c.keypose}
              && motionEdges == (if brings && c.motion.Some?
                                 then old(motionEdges) + {(c.motion.value.from, c.motion.value.to)}
                                 else old(motionEdges))
              && telemetry == old(telemetry).(
                   motionFactors := old(telemetry).motionFactors + (if brings && c.motion.Some? then 1 else 0),
                   gaugePriors := old(telemetry).gaugePriors + (if brings && c.motion.None? then 1 else 0))
    {
      var newKeypose := c.keypose !in keyposeIds;
      keyposeIds := keyposeIds + {c.keypose};
      if newKeypose {
        if c.motion.Some? {
          motionEdges := motionEdges + {(c.motion.value.from, c.motion.value.to)};
          telemetry := telemetry.(motionFactors := telemetry.motionFactors + 1);
        } else {
          telemetry := telemetry.(gaugePriors := telemetry.gaugePriors + 1);
        }
      }
    }

    method RecordVisual(c: Call, add: bool)
      modifies this`landmarkIds, this`visualEdges, this`landmarkFactorEpisodes, this`telemetry
      ensures landmarkIds == if add then old(landmarkIds) + {c.landmark} else old(landmarkIds)
      ensures visualEdges == if add then old(visualEdges) + {VisualId(c)} else old(visualEdges)
      ensures landmarkFactorEpisodes == if add then old(landmarkFactorEpisodes)[c.landmark := (c.episode, c.time)]
                                        else Touched(old(View()), c)
      ensures telemetry == if add then old(telemetry).(visualFactors := old(telemetry).visualFactors + 1)
                           else old(telemetry)
    {
      if add {
        landmarkIds, visualEdges := landmarkIds + {c.landmark}, visualEdges + {VisualId(c)};
        telemetry := telemetry.(visualFactors := telemetry.visualFactors + 1);
        landmarkFactorEpisodes := landmarkFactorEpisodes[c.landmark := (c.episode, c.time)];
      } else if c.landmark in landmarkFactorEpisodes && landmarkFactorEpisodes[c.landmark].0 == c.episode {
        landmarkFactorEpisodes := landmarkFactorEpisodes[c.landmark := (c.episode, c.time)];
      }
    }

    // The factors and values of one solver update.
    method BuildFactors(c: Call) returns (batch: Solver)
      requires IsNew(View(), c) && keyposeIds != {} ==> MotionUsable(View(), c)
      ensures batch == Handed(View(), c)
    {
      batch := isam;
      if c.keypose !in keyposeIds {
        batch := batch.(xs := batch.xs + [c.keypose]);
        if keyposeIds == {} {
          batch := batch.(priors := batch.priors + [c.keypose]);
        } else {
          batch := batch.(motions := batch.motions + [(c.motion.value.from, c.keypose)]);
        }
      }
      if c.eligible && VisualId(c) !in visualEdges {
        if c.landmark !in landmarkIds {
          batch := batch.(ls := batch.ls + [c.landmark]);
        }
        batch := batch.(visuals := batch.visuals + [VisualId(c)]);
      }
    }

    // The solver may be partially mutated: never retry.
    method Fail()
      modifies this`degraded, this`failed, this`telemetry
      ensures degraded && failed && telemetry == old(telemetry).(exceptions := old(telemetry).exceptions + 1)
    {
      telemetry := telemetry.(exceptions := telemetry.exceptions + 1);
      degraded, failed := true, true;
    }
  }
}
