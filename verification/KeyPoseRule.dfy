// When a keypose is created and which observations it gathers, against a segmentation of the
// observations that does not look at the store.
module KeyPoseRule {
  import opened Outcomes
  import opened LandmarkStore

  // ---------- one observation ----------

  predicate Within(g: Geometry, p: Policy, time: real, pose: Pose, i: Input) {
    i.time - time <= p.coalesceTime &&
    g.translation(Relative(g, pose, i.pose)) <= p.coalesceTranslation &&
    g.rotation(Relative(g, pose, i.pose)) <= p.coalesceRotation
  }

  // Outside the coalescing limits, and one metric threshold or the maximum interval is reached.
  predicate Beyond(g: Geometry, p: Policy, time: real, pose: Pose, i: Input) {
    !Within(g, p, time, pose, i) && i.time > time &&
    p.translationThreshold > 0.0 && p.rotationThreshold > 0.0 && p.maximumInterval > 0.0 &&
    (g.translation(Relative(g, pose, i.pose)) >= p.translationThreshold ||
     g.rotation(Relative(g, pose, i.pose)) >= p.rotationThreshold || i.time - time >= p.maximumInterval)
  }

  // The landmark is new, or was not seen for longer than the episode gap.
  predicate Reappears(p: Policy, s: Store, i: Input) {
    i.landmark in s.landmarks ==> i.time > s.landmarks[i.landmark].episodeLast + p.episodeGap
  }

  // Exactly when an observation adds a keypose; otherwise the number of keyposes stays.
  lemma AddsKeyPoseIff(g: Geometry, p: Policy, s: Store, i: Input)
    ensures |Processed(g, p, s, i).keyposes| ==
            if s.keyposes == [] || Reappears(p, s, i) ||
               Beyond(g, p, s.keyposes[|s.keyposes| - 1].time, s.keyposes[|s.keyposes| - 1].pose, i)
            then |s.keyposes| + 1 else |s.keyposes|
  {
  }

  // ---------- any sequence of observations ----------

  // When this landmark was seen last.
  function LastSeen(inputs: seq<Input>, landmark: int): Option<real> {
    if inputs == [] then None
    else if inputs[|inputs| - 1].landmark == landmark then Some(inputs[|inputs| - 1].time)
    else LastSeen(inputs[..|inputs| - 1], landmark)
  }

  // Observation i starts an episode of its landmark after these observations.
  predicate Starts(p: Policy, before: seq<Input>, i: Input) {
    var seen := LastSeen(before, i.landmark);
    seen.None? || i.time > seen.value + p.episodeGap
  }

  // The observations that have to create a keypose.
  function Cuts(g: Geometry, p: Policy, inputs: seq<Input>): (cuts: seq<nat>)
    ensures forall k :: 0 <= k < |cuts| ==> cuts[k] < |inputs|
  {
    if inputs == [] then []
    else
      var init, i := inputs[..|inputs| - 1], inputs[|inputs| - 1];
      var cuts := Cuts(g, p, init);
      if cuts == [] || Starts(p, init, i) ||
         Beyond(g, p, init[cuts[|cuts| - 1]].time, init[cuts[|cuts| - 1]].pose, i)
      then cuts + [|init|] else cuts
  }

  function CutEnd(inputs: seq<Input>, cuts: seq<nat>, k: nat): nat
    requires k < |cuts|
  {
    if k + 1 < |cuts| then cuts[k + 1] else |inputs|
  }

  lemma {:induction false} StoreRemembersSeen(g: Geometry, p: Policy, inputs: seq<Input>, landmark: int)
    ensures var s, seen := Fold(g, p, inputs), LastSeen(inputs, landmark);
            (landmark in s.landmarks <==> seen.Some?) &&
            (seen.Some? ==> s.landmarks[landmark].episodeLast == seen.value)
  {
    if inputs != [] { StoreRemembersSeen(g, p, inputs[..|inputs| - 1], landmark); }
  }

  // Keypose k was created by observation a and gathered the observations from a up to b.
  predicate Gathers(k: KeyPose, inputs: seq<Input>, a: nat, b: nat) {
    a < b <= |inputs| && k.time == inputs[a].time && k.pose == inputs[a].pose && k.sources == Ids(inputs[a..b]) &&
    k.weak == AnyWeak(inputs[a..b]) && k.landmarks == Marks(inputs[a..b])
  }

  predicate AnyWeak(inputs: seq<Input>) { exists i :: 0 <= i < |inputs| && inputs[i].weak }

  // The landmarks in the order in which they were first seen.
  function Marks(inputs: seq<Input>): seq<int> {
    if inputs == [] then []
    else
      var marks, l := Marks(inputs[..|inputs| - 1]), inputs[|inputs| - 1].landmark;
      if l in marks then marks else marks + [l]
  }

  ghost predicate Segmented(inputs: seq<Input>, cuts: seq<nat>, keyposes: seq<KeyPose>) {
    |keyposes| == |cuts| &&
    forall k :: 0 <= k < |cuts| ==> Gathers(keyposes[k], inputs, cuts[k], CutEnd(inputs, cuts, k))
  }

  lemma {:induction false} IdsAppend(inputs: seq<Input>, i: Input)
    ensures Ids(inputs + [i]) == Ids(inputs) + [i.id]
    ensures Marks(inputs + [i]) == if i.landmark in Marks(inputs) then Marks(inputs) else Marks(inputs) + [i.landmark]
    ensures AnyWeak(inputs + [i]) == (AnyWeak(inputs) || i.weak)
  {
    var longer := inputs + [i];
    assert longer[..|inputs|] == inputs && longer[|inputs|] == i;
    if k :| 0 <= k < |inputs| && inputs[k].weak { assert longer[k].weak; }
  }

  lemma GathersStays(k: KeyPose, inputs: seq<Input>, i: Input, a: nat, b: nat)
    requires Gathers(k, inputs, a, b)
    ensures Gathers(k, inputs + [i], a, b)
  {
    assert (inputs + [i])[a..b] == inputs[a..b];
  }

  lemma GathersOneMore(k: KeyPose, inputs: seq<Input>, i: Input, a: nat)
    requires Gathers(k, inputs, a, |inputs|)
    ensures Gathers(Attached(k, i), inputs + [i], a, |inputs| + 1)
  {
    assert (inputs + [i])[a..] == inputs[a..] + [i] && inputs[a..|inputs|] == inputs[a..];
    IdsAppend(inputs[a..], i);
    assert (inputs + [i])[a..|inputs| + 1] == (inputs + [i])[a..];
  }

  lemma GathersNew(s: Store, inputs: seq<Input>, i: Input)
    ensures Gathers(NewKeyPose(s, i), inputs + [i], |inputs|, |inputs| + 1)
  {
    assert (inputs + [i])[|inputs|..|inputs| + 1] == [] + [i];
    IdsAppend([], i);
  }

  lemma SegmentedCreates(s: Store, inputs: seq<Input>, cuts: seq<nat>, i: Input, t: Store)
    requires Segmented(inputs, cuts, s.keyposes) && t.keyposes == s.keyposes + [NewKeyPose(s, i)]
    ensures Segmented(inputs + [i], cuts + [|inputs|], t.keyposes)
  {
    var more, longer := cuts + [|inputs|], inputs + [i];
    forall k | 0 <= k < |more|
      ensures Gathers(t.keyposes[k], longer, more[k], CutEnd(longer, more, k))
    {
      if k < |cuts| {
        assert Gathers(s.keyposes[k], inputs, cuts[k], CutEnd(inputs, cuts, k));
        GathersStays(s.keyposes[k], inputs, i, cuts[k], CutEnd(inputs, cuts, k));
      } else {
        GathersNew(s, inputs, i);
      }
    }
  }

  lemma SegmentedAttaches(s: Store, inputs: seq<Input>, cuts: seq<nat>, i: Input, t: Store)
    requires Segmented(inputs, cuts, s.keyposes) && cuts != []
    requires t.keyposes == s.keyposes[|s.keyposes| - 1 := Attached(s.keyposes[|s.keyposes| - 1], i)]
    ensures Segmented(inputs + [i], cuts, t.keyposes)
  {
    var longer := inputs + [i];
    forall k | 0 <= k < |cuts|
      ensures Gathers(t.keyposes[k], longer, cuts[k], CutEnd(longer, cuts, k))
    {
      assert Gathers(s.keyposes[k], inputs, cuts[k], CutEnd(inputs, cuts, k));
      if k + 1 < |cuts| {
        GathersStays(s.keyposes[k], inputs, i, cuts[k], CutEnd(inputs, cuts, k));
      } else {
        GathersOneMore(s.keyposes[k], inputs, i, cuts[k]);
      }
    }
  }

  // The keyposes are exactly the segments of the observations that the rule cuts: each is created
  // by its first observation, and every later source lies inside the limits of that one.
  lemma {:induction false} KeyPosesAreSegments(g: Geometry, p: Policy, inputs: seq<Input>)
    ensures Segmented(inputs, Cuts(g, p, inputs), Fold(g, p, inputs).keyposes)
  {
    if inputs != [] {
      var init, i := inputs[..|inputs| - 1], inputs[|inputs| - 1];
      var s, cuts := Fold(g, p, init), Cuts(g, p, init);
      KeyPosesAreSegments(g, p, init);
      StoreRemembersSeen(g, p, init, i.landmark);
      assert init + [i] == inputs;
      CutDecides(g, p, init, i, s, cuts);
      if |Cuts(g, p, inputs)| > |cuts| {
        SegmentedCreates(s, init, cuts, i, Fold(g, p, inputs));
      } else {
        SegmentedAttaches(s, init, cuts, i, Fold(g, p, inputs));
      }
    }
  }

  // The store creates a keypose exactly where the segmentation cuts.
  lemma CutDecides(g: Geometry, p: Policy, inputs: seq<Input>, i: Input, s: Store, cuts: seq<nat>)
    requires Segmented(inputs, cuts, s.keyposes)
    requires var seen := LastSeen(inputs, i.landmark);
             (i.landmark in s.landmarks <==> seen.Some?) &&
             (seen.Some? ==> s.landmarks[i.landmark].episodeLast == seen.value)
    ensures var t := Processed(g, p, s, i);
            if cuts == [] || Starts(p, inputs, i) ||
               Beyond(g, p, inputs[cuts[|cuts| - 1]].time, inputs[cuts[|cuts| - 1]].pose, i)
            then t.keyposes == s.keyposes + [NewKeyPose(s, i)]
            else t.keyposes == s.keyposes[|s.keyposes| - 1 := Attached(s.keyposes[|s.keyposes| - 1], i)]
  {
    if cuts != [] {
      var k := |cuts| - 1;
      assert Gathers(s.keyposes[k], inputs, cuts[k], CutEnd(inputs, cuts, k));
    }
  }

  // Between two cuts nothing reappears and nothing lies beyond the limits of the first observation.
  lemma {:induction false} BetweenCuts(g: Geometry, p: Policy, inputs: seq<Input>, k: nat, n: nat)
    requires k < |Cuts(g, p, inputs)| && Cuts(g, p, inputs)[k] < n < CutEnd(inputs, Cuts(g, p, inputs), k)
    requires n < |inputs|
    ensures var first := inputs[Cuts(g, p, inputs)[k]];
            !Starts(p, inputs[..n], inputs[n]) && !Beyond(g, p, first.time, first.pose, inputs[n])
    decreases |inputs|
  {
    var init, cuts := inputs[..|inputs| - 1], Cuts(g, p, inputs[..|inputs| - 1]);
    if n < |init| {
      assert init[..n] == inputs[..n];
      BetweenCuts(g, p, init, k, n);
    }
  }

  // Every cut is the first observation, a reappearing landmark, or lies beyond the limits of the
  // cut before it.
  lemma {:induction false} CutsAreCaused(g: Geometry, p: Policy, inputs: seq<Input>, k: nat)
    requires k < |Cuts(g, p, inputs)|
    ensures var cuts := Cuts(g, p, inputs);
            if k == 0 then cuts[k] == 0
            else
              cuts[k - 1] < cuts[k] &&
              (Starts(p, inputs[..cuts[k]], inputs[cuts[k]]) ||
               Beyond(g, p, inputs[cuts[k - 1]].time, inputs[cuts[k - 1]].pose, inputs[cuts[k]]))
    decreases |inputs|
  {
    var init, cuts := inputs[..|inputs| - 1], Cuts(g, p, inputs[..|inputs| - 1]);
    if k < |cuts| {
      CutsAreCaused(g, p, init, k);
      assert init[..cuts[k]] == inputs[..cuts[k]];
    } else if k == 0 {
      NoCutsMeansEmpty(g, p, init);
    }
  }

  lemma NoCutsMeansEmpty(g: Geometry, p: Policy, inputs: seq<Input>)
    ensures Cuts(g, p, inputs) == [] ==> inputs == []
  {
  }

  // The motion between two keyposes is as valid as the kernels say for the observation that
  // created the second one.
  lemma {:induction false} MotionsAreJudged(g: Geometry, p: Policy, inputs: seq<Input>, k: nat)
    requires k + 1 < |Cuts(g, p, inputs)|
    ensures var s, cuts := Fold(g, p, inputs), Cuts(g, p, inputs);
            |s.motions| + 1 == |cuts| && s.motions[k].valid == inputs[cuts[k + 1]].oracle.motionValid
    decreases |inputs|
  {
    var init := inputs[..|inputs| - 1];
    OneMotionLess(g, p, inputs);
    OneMotionLess(g, p, init);
    MotionsGrow(g, p, Fold(g, p, init), inputs[|inputs| - 1]);
    if k + 1 < |Cuts(g, p, init)| { MotionsAreJudged(g, p, init, k); }
  }

  lemma OneMotionLess(g: Geometry, p: Policy, inputs: seq<Input>)
    ensures |Cuts(g, p, inputs)| == |Fold(g, p, inputs).keyposes|
    ensures |Fold(g, p, inputs).motions| == if inputs == [] then 0 else |Cuts(g, p, inputs)| - 1
  {
    KeyPosesAreSegments(g, p, inputs);
    FoldIsChained(g, p, inputs);
  }

  lemma MotionsGrow(g: Geometry, p: Policy, s: Store, i: Input)
    ensures var more := Processed(g, p, s, i).motions;
            s.motions <= more && (more == s.motions ||
            (|more| == |s.motions| + 1 && more[|s.motions|].valid == i.oracle.motionValid))
  {
  }

  // ---------- episodes ----------

  // How many episodes these observations start, over all landmarks.
  function Episodes(p: Policy, inputs: seq<Input>): nat {
    if inputs == [] then 0
    else
      var init := inputs[..|inputs| - 1];
      Episodes(p, init) + if Starts(p, init, inputs[|inputs| - 1]) then 1 else 0
  }

  // The observation that started the current episode of this landmark.
  function LastStart(p: Policy, inputs: seq<Input>, landmark: int): (n: nat)
    requires LastSeen(inputs, landmark).Some?
    ensures n < |inputs|
  {
    var init, i := inputs[..|inputs| - 1], inputs[|inputs| - 1];
    if i.landmark == landmark && Starts(p, init, i) then |init| else LastStart(p, init, landmark)
  }

  function Sightings(inputs: seq<Input>, landmark: int): seq<nat> {
    if inputs == [] then []
    else
      var i := inputs[|inputs| - 1];
      Sightings(inputs[..|inputs| - 1], landmark) + if i.landmark == landmark then [i.id] else []
  }

  // The number of the current episode of this landmark: how many had started with it.
  function EpisodeNumber(p: Policy, inputs: seq<Input>, landmark: int): nat
    requires LastSeen(inputs, landmark).Some?
  {
    Episodes(p, inputs[..LastStart(p, inputs, landmark) + 1])
  }

  // The record of a landmark: its observations, the number of the episode by order of start over
  // all landmarks, and the first and last time of that episode.
  predicate Recorded(p: Policy, inputs: seq<Input>, landmark: int, l: Landmark) {
    LastSeen(inputs, landmark).Some? && l.observations == Sightings(inputs, landmark) &&
    l.episodeLast == LastSeen(inputs, landmark).value && l.episode == EpisodeNumber(p, inputs, landmark) &&
    l.episodeFirst == inputs[LastStart(p, inputs, landmark)].time &&
    (l.active <==> |Sightings(inputs, landmark)| > 1)
  }

  // The store keeps for each landmark exactly the record that its observations give.
  lemma {:induction false} EpisodesAreRecorded(g: Geometry, p: Policy, inputs: seq<Input>, landmark: int)
    ensures Fold(g, p, inputs).nextEpisode == Episodes(p, inputs) + 1
    ensures landmark in Fold(g, p, inputs).landmarks <==> LastSeen(inputs, landmark).Some?
    ensures landmark in Fold(g, p, inputs).landmarks ==>
              Recorded(p, inputs, landmark, Fold(g, p, inputs).landmarks[landmark])
  {
    if inputs != [] {
      var init, i := inputs[..|inputs| - 1], inputs[|inputs| - 1];
      EpisodesAreRecorded(g, p, init, landmark);
      StoreRemembersSeen(g, p, init, i.landmark);
      StoreRemembersSeen(g, p, inputs, landmark);
      OneMoreSighting(g, p, inputs, landmark, Fold(g, p, init));
    }
  }

  lemma {:induction false} SeenMeansSighted(inputs: seq<Input>, landmark: int)
    ensures LastSeen(inputs, landmark).Some? <==> Sightings(inputs, landmark) != []
  {
    if inputs != [] { SeenMeansSighted(inputs[..|inputs| - 1], landmark); }
  }

  lemma OneMoreSighting(g: Geometry, p: Policy, inputs: seq<Input>, landmark: int, s: Store)
    requires inputs != [] && s.nextEpisode == Episodes(p, inputs[..|inputs| - 1]) + 1
    requires var init, i := inputs[..|inputs| - 1], inputs[|inputs| - 1];
             (landmark in s.landmarks <==> LastSeen(init, landmark).Some?) &&
             (landmark in s.landmarks ==> Recorded(p, init, landmark, s.landmarks[landmark])) &&
             (i.landmark in s.landmarks <==> LastSeen(init, i.landmark).Some?) &&
             (i.landmark in s.landmarks ==> s.landmarks[i.landmark].episodeLast == LastSeen(init, i.landmark).value)
    ensures var t := Processed(g, p, s, inputs[|inputs| - 1]);
            t.nextEpisode == Episodes(p, inputs) + 1 &&
            (landmark in t.landmarks ==> Recorded(p, inputs, landmark, t.landmarks[landmark]))
  {
    var init, i := inputs[..|inputs| - 1], inputs[|inputs| - 1];
    SeenMeansSighted(init, landmark);
    if landmark in Processed(g, p, s, i).landmarks { NumberGoesOn(p, inputs, landmark); }
  }

  lemma NumberGoesOn(p: Policy, inputs: seq<Input>, landmark: int)
    requires inputs != [] && LastSeen(inputs, landmark).Some?
    ensures var init, i := inputs[..|inputs| - 1], inputs[|inputs| - 1];
            if i.landmark == landmark && Starts(p, init, i)
            then EpisodeNumber(p, inputs, landmark) == Episodes(p, init) + 1
            else LastSeen(init, landmark).Some? &&
                 EpisodeNumber(p, inputs, landmark) == EpisodeNumber(p, init, landmark)
  {
    var init, n := inputs[..|inputs| - 1], LastStart(p, inputs, landmark);
    if n < |init| { assert init[..n + 1] == inputs[..n + 1]; } else { assert inputs[..n + 1] == inputs; }
  }
}
