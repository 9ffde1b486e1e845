// Keyposes, motions and landmark episodes of the persistent landmark backend.
module LandmarkStore {
  import opened Outcomes

  // Poses form a group; norms of a relative pose drive the keypose policy.
  type Pose(==, !new)

  datatype Geometry = Geometry(one: Pose, inverse: Pose -> Pose, compose: (Pose, Pose) -> Pose,
                               translation: Pose -> real, rotation: Pose -> real)

  // Names an instance of the group laws, so that they are used only where a proof asks for them.
  predicate At(a: Pose, b: Pose, c: Pose) { true }

  ghost predicate IsGroup(g: Geometry) {
    forall a, b, c {:trigger At(a, b, c)} :: At(a, b, c) ==>
      g.compose(g.compose(a, b), c) == g.compose(a, g.compose(b, c)) &&
      g.compose(g.one, a) == a && g.compose(a, g.one) == a &&
      g.compose(g.inverse(a), a) == g.one && g.compose(a, g.inverse(a)) == g.one
  }

  datatype Policy = Policy(translationThreshold: real, rotationThreshold: real, maximumInterval: real,
                           coalesceTime: real, coalesceTranslation: real, coalesceRotation: real, episodeGap: real)

  // What the numerical kernels will answer for this input: whether its covariances are positive,
  // its poses finite, and whether the incremental solver succeeds.
  datatype Oracle = Oracle(motionValid: bool, visualValid: bool, finite: bool, solved: bool)

  datatype Input = Input(id: nat, landmark: int, time: real, pose: Pose, weak: bool, wellFormed: bool, oracle: Oracle)

  datatype KeyPose = KeyPose(id: nat, time: real, pose: Pose, weak: bool, sources: seq<nat>, landmarks: seq<int>)

  datatype Motion = Motion(from: nat, to: nat, fromTime: real, toTime: real, relative: Pose, valid: bool)

  datatype Landmark = Landmark(episode: nat, episodeFirst: real, episodeLast: real, active: bool,
                               observations: seq<nat>)

  datatype Store = Store(landmarks: map<int, Landmark>, keyposes: seq<KeyPose>, motions: seq<Motion>,
                         nextKeypose: nat, nextEpisode: nat, processed: nat)

  const EMPTY := Store(map[], [], [], 1, 1, 0)

  // ---------- one accepted observation ----------

  predicate StartsEpisode(p: Policy, s: Store, i: Input) {
    i.landmark !in s.landmarks || i.time - s.landmarks[i.landmark].episodeLast > p.episodeGap
  }

  function Observed(p: Policy, s: Store, i: Input): Landmark {
    var starts := StartsEpisode(p, s, i);
    if i.landmark !in s.landmarks then Landmark(s.nextEpisode, i.time, i.time, false, [i.id])
    else
      var known := s.landmarks[i.landmark];
      Landmark(if starts then s.nextEpisode else known.episode,
               if starts then i.time else known.episodeFirst, i.time, true, known.observations + [i.id])
  }

  function Relative(g: Geometry, a: Pose, b: Pose): Pose { g.compose(g.inverse(a), b) }

  predicate Coalesces(g: Geometry, p: Policy, s: Store, i: Input) {
    s.keyposes != [] && !StartsEpisode(p, s, i) &&
    var last := s.keyposes[|s.keyposes| - 1];
    i.time - last.time <= p.coalesceTime &&
    g.translation(Relative(g, last.pose, i.pose)) <= p.coalesceTranslation &&
    g.rotation(Relative(g, last.pose, i.pose)) <= p.coalesceRotation
  }

  // shouldCreateSparseKeyPose for an observation that starts no episode
  predicate FarEnough(g: Geometry, p: Policy, last: KeyPose, i: Input) {
    i.time > last.time && p.translationThreshold > 0.0 && p.rotationThreshold > 0.0 && p.maximumInterval > 0.0 &&
    (g.translation(Relative(g, last.pose, i.pose)) >= p.translationThreshold ||
     g.rotation(Relative(g, last.pose, i.pose)) >= p.rotationThreshold ||
     i.time - last.time >= p.maximumInterval)
  }

  predicate CreatesKeyPose(g: Geometry, p: Policy, s: Store, i: Input) {
    !Coalesces(g, p, s, i) &&
    (s.keyposes == [] || StartsEpisode(p, s, i) || FarEnough(g, p, s.keyposes[|s.keyposes| - 1], i))
  }

  function Attached(k: KeyPose, i: Input): KeyPose {
    k.(weak := k.weak || i.weak, sources := k.sources + [i.id],
       landmarks := if i.landmark in k.landmarks then k.landmarks else k.landmarks + [i.landmark])
  }

  function NewKeyPose(s: Store, i: Input): KeyPose {
    KeyPose(s.nextKeypose, i.time, i.pose, i.weak, [i.id], [i.landmark])
  }

  function NewMotion(g: Geometry, last: KeyPose, k: KeyPose, valid: bool): Motion {
    Motion(last.id, k.id, last.time, k.time, Relative(g, last.pose, k.pose), valid)
  }

  function Processed(g: Geometry, p: Policy, s: Store, i: Input): Store {
    var landmarks := s.landmarks[i.landmark := Observed(p, s, i)];
    var nextEpisode := if StartsEpisode(p, s, i) then s.nextEpisode + 1 else s.nextEpisode;
    var t := s.(landmarks := landmarks, nextEpisode := nextEpisode, processed := s.processed + 1);
    if CreatesKeyPose(g, p, s, i) then
      var k := NewKeyPose(s, i);
      t.(keyposes := s.keyposes + [k], nextKeypose := s.nextKeypose + 1,
         motions := if s.keyposes == [] then s.motions
                    else s.motions + [NewMotion(g, s.keyposes[|s.keyposes| - 1], k, i.oracle.motionValid)])
    else if s.keyposes == [] then t
    else t.(keyposes := s.keyposes[|s.keyposes| - 1 := Attached(s.keyposes[|s.keyposes| - 1], i)])
  }

  function Fold(g: Geometry, p: Policy, inputs: seq<Input>): Store {
    if inputs == [] then EMPTY
    else Processed(g, p, Fold(g, p, inputs[..|inputs| - 1]), inputs[|inputs| - 1])
  }

  // lookupKeyPose: by position
  function LookupKeyPose(s: Store, id: nat): Option<KeyPose> {
    if id == 0 || id > |s.keyposes| then None else Some(s.keyposes[id - 1])
  }

  // ---------- what the store always says ----------

  function Ids(inputs: seq<Input>): seq<nat> {
    if inputs == [] then [] else Ids(inputs[..|inputs| - 1]) + [inputs[|inputs| - 1].id]
  }

  function Sources(keyposes: seq<KeyPose>): seq<nat> {
    if keyposes == [] then [] else Sources(keyposes[..|keyposes| - 1]) + keyposes[|keyposes| - 1].sources
  }

  ghost predicate Chained(g: Geometry, s: Store) {
    s.nextKeypose == |s.keyposes| + 1 &&
    (forall i :: 0 <= i < |s.keyposes| ==> s.keyposes[i].id == i + 1) &&
    (if s.keyposes == [] then s.motions == [] else |s.motions| == |s.keyposes| - 1) &&
    (forall i :: 0 <= i < |s.motions| ==>
       s.motions[i] == NewMotion(g, s.keyposes[i], s.keyposes[i + 1], s.motions[i].valid))
  }

  lemma {:induction false} SourcesPrefix(keyposes: seq<KeyPose>, k: KeyPose)
    ensures Sources(keyposes + [k]) == Sources(keyposes) + k.sources
  {
    assert (keyposes + [k])[..|keyposes|] == keyposes;
  }

  lemma CreatedKeepsChain(g: Geometry, s: Store, t: Store, k: KeyPose, valid: bool)
    requires Chained(g, s) && k.id == s.nextKeypose && t.nextKeypose == s.nextKeypose + 1
    requires t.keyposes == s.keyposes + [k]
    requires t.motions == if s.keyposes == [] then s.motions
                          else s.motions + [NewMotion(g, s.keyposes[|s.keyposes| - 1], k, valid)]
    ensures Chained(g, t) && Sources(t.keyposes) == Sources(s.keyposes) + k.sources
  {
    SourcesPrefix(s.keyposes, k);
  }

  // Attaching changes nothing that a motion or an id depends on.
  lemma AttachedKeepsChain(g: Geometry, s: Store, t: Store, i: Input)
    requires Chained(g, s) && s.keyposes != [] && t.nextKeypose == s.nextKeypose && t.motions == s.motions
    requires t.keyposes == s.keyposes[|s.keyposes| - 1 := Attached(s.keyposes[|s.keyposes| - 1], i)]
    ensures Chained(g, t)
  {
    forall k | 0 <= k < |t.keyposes|
      ensures t.keyposes[k].id == s.keyposes[k].id && t.keyposes[k].time == s.keyposes[k].time
      ensures t.keyposes[k].pose == s.keyposes[k].pose
    {
    }
  }

  lemma AttachedSources(keyposes: seq<KeyPose>, more: seq<KeyPose>, i: Input)
    requires keyposes != []
    requires more == keyposes[|keyposes| - 1 := Attached(keyposes[|keyposes| - 1], i)]
    ensures Sources(more) == Sources(keyposes) + [i.id]
  {
    var init, last := keyposes[..|keyposes| - 1], keyposes[|keyposes| - 1];
    assert more == init + [Attached(last, i)] && keyposes == init + [last];
    SourcesPrefix(init, last);
    SourcesPrefix(init, Attached(last, i));
    assert Sources(more) == Sources(init) + (last.sources + [i.id]);
  }

  lemma ProcessedKeepsChain(g: Geometry, p: Policy, s: Store, i: Input)
    requires Chained(g, s)
    ensures Chained(g, Processed(g, p, s, i))
    ensures Processed(g, p, s, i).keyposes != []
    ensures Sources(Processed(g, p, s, i).keyposes) == Sources(s.keyposes) + [i.id]
  {
    var t := Processed(g, p, s, i);
    if CreatesKeyPose(g, p, s, i) {
      CreatedKeepsChain(g, s, t, NewKeyPose(s, i), i.oracle.motionValid);
    } else {
      AttachedKeepsChain(g, s, t, i);
      AttachedSources(s.keyposes, t.keyposes, i);
    }
  }

  // After any sequence of accepted observations: keypose ids are 1..n, consecutive keyposes are
  // joined by the n - 1 motions, and the keyposes partition the observations in their order.
  lemma {:induction false} FoldIsChained(g: Geometry, p: Policy, inputs: seq<Input>)
    ensures var s := Fold(g, p, inputs);
            Chained(g, s) && s.processed == |inputs| && Sources(s.keyposes) == Ids(inputs) &&
            (inputs != [] ==> s.keyposes != [])
  {
    if inputs != [] {
      FoldIsChained(g, p, inputs[..|inputs| - 1]);
      ProcessedKeepsChain(g, p, Fold(g, p, inputs[..|inputs| - 1]), inputs[|inputs| - 1]);
    }
  }

  // A keypose is found by its id and by no other number.
  lemma LookupFindsById(g: Geometry, p: Policy, inputs: seq<Input>, id: nat)
    ensures var s := Fold(g, p, inputs);
            match LookupKeyPose(s, id) {
              case Some(k) => k in s.keyposes && k.id == id
              case None => forall k :: k in s.keyposes ==> k.id != id
            }
  {
    FoldIsChained(g, p, inputs);
  }

  // The motions from keypose i to keypose j, composed in order.
  function Composed(g: Geometry, motions: seq<Motion>, i: nat, j: nat): Pose
    requires i <= j <= |motions|
    decreases j
  {
    if i == j then g.one else g.compose(Composed(g, motions, i, j - 1), motions[j - 1].relative)
  }

  // Composing the motions between two keyposes gives their relative pose.
  lemma {:induction false} MotionsCompose(g: Geometry, s: Store, i: nat, j: nat)
    requires IsGroup(g) && Chained(g, s) && i <= j < |s.keyposes|
    ensures Composed(g, s.motions, i, j) == Relative(g, s.keyposes[i].pose, s.keyposes[j].pose)
    decreases j
  {
    var a, c := s.keyposes[i].pose, s.keyposes[j].pose;
    if i < j {
      MotionsCompose(g, s, i, j - 1);
      var k := j - 1;
      assert s.motions[k] == NewMotion(g, s.keyposes[k], s.keyposes[k + 1], s.motions[k].valid);
      Telescope(g, a, s.keyposes[k].pose, c);
    } else {
      assert At(a, a, a);
    }
  }

  lemma Telescope(g: Geometry, a: Pose, b: Pose, c: Pose)
    requires IsGroup(g)
    ensures g.compose(Relative(g, a, b), Relative(g, b, c)) == Relative(g, a, c)
  {
    var x, y := g.inverse(a), g.inverse(b);
    assert At(x, b, g.compose(y, c)) && At(b, y, c) && At(c, c, c);
  }
}
