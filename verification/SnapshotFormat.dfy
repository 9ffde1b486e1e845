// The text format of counterfactual snapshots: a writer, a validating reader, and the stream
// of tokens between them.
module SnapshotFormat {

  // Whitespace-separated tokens. A double is written with 17 digits, so it survives exactly.
  datatype Token = Word(text: string) | Num(value: real)

  const U64: nat := 0x1_0000_0000_0000_0000
  const FAMILY: nat := 0x100_0000_0000_0000
  const COUNT_LIMIT := 100000

  type Key = k: nat | k < 0x1_0000_0000_0000_0000

  type Pose = p: seq<real> | |p| == 12 witness seq(12, i => 0.0)
  type Covariance = m: seq<real> | |m| == 36 witness seq(36, i => 0.0)

  datatype Entry = Entry(key: Key, pose: Pose)

  // A gtsam::Values, in the key order in which it is stored and written.
  type Values = seq<Entry>

  predicate Ascending(es: seq<Entry>) {
    forall i, j :: 0 <= i < j < |es| ==> es[i].key < es[j].key
  }

  datatype Factor =
    | Between(key1: Key, key2: Key, measured: Pose, noise: Covariance)
    | Prior(key: Key, value: Pose, noise: Covariance)
    | Unsupported

  datatype Snapshot = Snapshot(timestamp: real, observation: nat, keypose: nat, landmark: int,
                               existingValues: Values, newValues: Values,
                               existing: seq<Factor>, motion: seq<Factor>, visual: seq<Factor>,
                               runtimePost: Values)

  // The numerical checks stay uninterpreted.
  datatype Checks = Checks(rotation: Pose -> bool, covariance: Covariance -> bool,
                           finiteError: (seq<Factor>, Values) -> bool)

  datatype Why =
    | InvalidSection | InvalidCount | InvalidScalar | InvalidRotation | InvalidKey
    | UnsupportedVariable | DuplicateKey | InvalidFactor | InvalidSecondKey | InvalidCovariance
    | InvalidMetadata | TrailingData | InvalidGraphValues | NotOneVisual | EventKeyMismatch

  datatype Parsed<+T> = Good(value: T, rest: seq<Token>) | Bad(why: Why)
  {
    predicate IsFailure() { Bad? }
    function PropagateFailure<U>(): Parsed<U>
      requires Bad?
    {
      Bad(why)
    }
    function Extract(): (T, seq<Token>)
      requires Good?
    {
      (value, rest)
    }
  }

  // ---------- reading one item ----------

  function ReadTag(ts: seq<Token>, expected: string): Parsed<bool> {
    if ts != [] && ts[0] == Word(expected) then Good(true, ts[1..]) else Bad(InvalidSection)
  }

  // An integer extraction; C++ reads a negative number into an unsigned type modulo 2^64.
  function ReadInteger(ts: seq<Token>, low: int, high: int, why: Why): Parsed<int> {
    if ts != [] && ts[0].Num? && ts[0].value.Floor as real == ts[0].value
       && low <= ts[0].value.Floor < high
    then Good(ts[0].value.Floor, ts[1..])
    else Bad(why)
  }

  function ReadUnsigned(ts: seq<Token>, why: Why): (r: Parsed<nat>)
    ensures r.Good? ==> r.value < U64
  {
    match ReadInteger(ts, 1 - U64, U64, why)
    case Good(v, rest) => Good(if v < 0 then v + U64 else v, rest)
    case Bad(w) => Bad(w)
  }

  function ReadCount(ts: seq<Token>): Parsed<nat> {
    var n :- ReadUnsigned(ts, InvalidCount);
    if n.0 <= COUNT_LIMIT then Good(n.0, n.1) else Bad(InvalidCount)
  }

  function ReadScalar(ts: seq<Token>): Parsed<real> {
    if ts != [] && ts[0].Num? then Good(ts[0].value, ts[1..]) else Bad(InvalidScalar)
  }

  function ReadScalars(ts: seq<Token>, n: nat): (r: Parsed<seq<real>>)
    ensures r.Good? ==> |r.value| == n
  {
    if n == 0 then Good([], ts)
    else
      var x :- ReadScalar(ts);
      var xs :- ReadScalars(x.1, n - 1);
      Good([x.0] + xs.0, xs.1)
  }

  function ReadPose(k: Checks, ts: seq<Token>): Parsed<Pose> {
    var xs :- ReadScalars(ts, 12);
    if k.rotation(xs.0) then Good(xs.0, xs.1) else Bad(InvalidRotation)
  }

  function ReadCovariance(k: Checks, ts: seq<Token>): Parsed<Covariance> {
    var xs :- ReadScalars(ts, 36);
    if k.covariance(xs.0) then Good(xs.0, xs.1) else Bad(InvalidCovariance)
  }

  function Numbers(xs: seq<real>): seq<Token> {
    seq(|xs|, i requires 0 <= i < |xs| => Num(xs[i]))
  }

  // ---------- values sections ----------

  predicate Modelled(key: Key) { key / FAMILY == 'x' as int || key / FAMILY == 'l' as int }

  function InsertAt(es: seq<Entry>, key: Key): (n: nat)
    ensures n <= |es|
  {
    if es == [] || es[0].key >= key then 0 else 1 + InsertAt(es[1..], key)
  }

  predicate Holds(es: seq<Entry>, key: Key) {
    InsertAt(es, key) < |es| && es[InsertAt(es, key)].key == key
  }

  function Insert(es: Values, e: Entry): Values {
    es[..InsertAt(es, e.key)] + [e] + es[InsertAt(es, e.key)..]
  }

  function ReadEntries(k: Checks, ts: seq<Token>, n: nat, sofar: Values): Parsed<Values>
    decreases n
  {
    if n == 0 then Good(sofar, ts)
    else
      var key :- ReadUnsigned(ts, InvalidKey);
      if !Modelled(key.0) then Bad(UnsupportedVariable)
      else
        var pose :- ReadPose(k, key.1);
        if Holds(sofar, key.0) then Bad(DuplicateKey)
        else ReadEntries(k, pose.1, n - 1, Insert(sofar, Entry(key.0, pose.0)))
  }

  function ReadValues(k: Checks, ts: seq<Token>, name: string): Parsed<Values> {
    var tag :- ReadTag(ts, name);
    var n :- ReadCount(tag.1);
    ReadEntries(k, n.1, n.0, [])
  }

  function EntryTokens(e: Entry): seq<Token> { [Num(e.key as real)] + Numbers(e.pose) }

  function EntriesTokens(es: seq<Entry>): seq<Token> {
    if es == [] then [] else EntryTokens(es[0]) + EntriesTokens(es[1..])
  }

  function ValuesTokens(name: string, es: Values): seq<Token> {
    [Word(name), Num(|es| as real)] + EntriesTokens(es)
  }

  // ---------- factor sections ----------

  function ReadFactor(k: Checks, ts: seq<Token>): Parsed<Factor> {
    if ts == [] || ts[0] !in [Word("P"), Word("B")] then Bad(InvalidFactor)
    else
      var key1 :- ReadUnsigned(ts[1..], InvalidFactor);
      if ts[0] == Word("B") then
        var key2 :- ReadUnsigned(key1.1, InvalidSecondKey);
        var pose :- ReadPose(k, key2.1);
        var noise :- ReadCovariance(k, pose.1);
        Good(Between(key1.0, key2.0, pose.0, noise.0), noise.1)
      else
        var pose :- ReadPose(k, key1.1);
        var noise :- ReadCovariance(k, pose.1);
        Good(Prior(key1.0, pose.0, noise.0), noise.1)
  }

  function ReadFactors(k: Checks, ts: seq<Token>, n: nat): (r: Parsed<seq<Factor>>)
    ensures r.Good? ==> |r.value| == n
    decreases n
  {
    if n == 0 then Good([], ts)
    else
      var f :- ReadFactor(k, ts);
      var fs :- ReadFactors(k, f.1, n - 1);
      Good([f.0] + fs.0, fs.1)
  }

  function ReadGraph(k: Checks, ts: seq<Token>, name: string): Parsed<seq<Factor>> {
    var tag :- ReadTag(ts, name);
    var n :- ReadCount(tag.1);
    ReadFactors(k, n.1, n.0)
  }

  function FactorTokens(f: Factor): seq<Token>
    requires !f.Unsupported?
  {
    match f
    case Between(key1, key2, pose, noise) =>
      [Word("B"), Num(key1 as real), Num(key2 as real)] + Numbers(pose) + Numbers(noise)
    case Prior(key, pose, noise) =>
      [Word("P"), Num(key as real)] + Numbers(pose) + Numbers(noise)
  }

  predicate Writable(fs: seq<Factor>) { forall i :: 0 <= i < |fs| ==> !fs[i].Unsupported? }

  function FactorsTokens(fs: seq<Factor>): seq<Token>
    requires Writable(fs)
  {
    if fs == [] then [] else FactorTokens(fs[0]) + FactorsTokens(fs[1..])
  }

  function GraphTokens(name: string, fs: seq<Factor>): seq<Token>
    requires Writable(fs)
  {
    [Word(name), Num(|fs| as real)] + FactorsTokens(fs)
  }

  // ---------- whole snapshots ----------

  const HEADER := "LANDMARK_COUNTERFACTUAL_V1"

  predicate AllWritable(s: Snapshot) { Writable(s.existing) && Writable(s.motion) && Writable(s.visual) }

  function MetadataTokens(s: Snapshot): seq<Token> {
    [Num(s.timestamp), Num(s.observation as real), Num(s.keypose as real), Num(s.landmark as real)]
  }

  function BodyTokens(s: Snapshot): seq<Token>
    requires AllWritable(s)
  {
    ValuesTokens("EXISTING_VALUES", s.existingValues) +
    ValuesTokens("NEW_VALUES", s.newValues) +
    GraphTokens("EXISTING_FACTORS", s.existing) +
    GraphTokens("MOTION_FACTORS", s.motion) +
    GraphTokens("VISUAL_FACTORS", s.visual) +
    ValuesTokens("RUNTIME_POST", s.runtimePost)
  }

  function SnapshotTokens(s: Snapshot): seq<Token>
    requires AllWritable(s)
  {
    [Word(HEADER)] + (MetadataTokens(s) + BodyTokens(s))
  }

  function Symbol(family: char, id: int): int { family as int * FAMILY + id }

  // Values::insert of a second set of values; it refuses a repeated key.
  function Merge(a: Values, b: Values): Parsed<Values>
    decreases |b|
  {
    if b == [] then Good(a, [])
    else if Holds(a, b[0].key) then Bad(DuplicateKey)
    else Merge(Insert(a, b[0]), b[1..])
  }

  predicate FiniteErrors(k: Checks, s: Snapshot, initial: Values) {
    && k.finiteError(s.existing, initial) && k.finiteError(s.existing, s.runtimePost)
    && k.finiteError(s.motion, initial) && k.finiteError(s.motion, s.runtimePost)
    && k.finiteError(s.visual, initial) && k.finiteError(s.visual, s.runtimePost)
  }

  // The event keys of the one candidate factor. A Symbol index has 56 bits.
  predicate EventKeys(s: Snapshot) {
    && |s.visual| == 1 && s.visual[0].Between? && s.keypose < FAMILY
    && s.visual[0].key1 == Symbol('x', s.keypose) && s.visual[0].key2 == Symbol('l', s.landmark)
  }

  // The checks readCounterfactualSnapshot makes once everything has been read.
  function Accept(k: Checks, s: Snapshot): Parsed<Snapshot> {
    var initial :- Merge(s.existingValues, s.newValues);
    if !FiniteErrors(k, s, initial.0) then Bad(InvalidGraphValues)
    else if |s.visual| != 1 then Bad(NotOneVisual)
    else if !EventKeys(s) then Bad(EventKeyMismatch)
    else Good(s, [])
  }

  datatype Metadata = Metadata(timestamp: real, observation: nat, keypose: nat, landmark: int)

  function ReadMetadata(ts: seq<Token>): Parsed<Metadata> {
    var time :- ReadScalar(ts);
    var observation :- ReadUnsigned(time.1, InvalidMetadata);
    var keypose :- ReadUnsigned(observation.1, InvalidMetadata);
    var landmark :- ReadInteger(keypose.1, -0x8000_0000, 0x8000_0000, InvalidMetadata);
    if observation.0 > 0 && keypose.0 > 0 && landmark.0 >= 0
    then Good(Metadata(time.0, observation.0, keypose.0, landmark.0), landmark.1)
    else Bad(InvalidMetadata)
  }

  // The six sections in order, given the readers of the two kinds of section.
  function ReadSections(values: (seq<Token>, string) -> Parsed<Values>,
                        graph: (seq<Token>, string) -> Parsed<seq<Factor>>,
                        m: Metadata, ts: seq<Token>): Parsed<Snapshot> {
    var existingValues :- values(ts, "EXISTING_VALUES");
    var newValues :- values(existingValues.1, "NEW_VALUES");
    var existing :- graph(newValues.1, "EXISTING_FACTORS");
    var motion :- graph(existing.1, "MOTION_FACTORS");
    var visual :- graph(motion.1, "VISUAL_FACTORS");
    var runtimePost :- values(visual.1, "RUNTIME_POST");
    Good(Snapshot(m.timestamp, m.observation, m.keypose, m.landmark, existingValues.0, newValues.0,
                  existing.0, motion.0, visual.0, runtimePost.0), runtimePost.1)
  }

  function ReadBody(k: Checks, m: Metadata, ts: seq<Token>): Parsed<Snapshot> {
    ReadSections((t, name) => ReadValues(k, t, name), (t, name) => ReadGraph(k, t, name), m, ts)
  }

  function ReadSnapshot(k: Checks, ts: seq<Token>): Parsed<Snapshot> {
    var tag :- ReadTag(ts, HEADER);
    var m :- ReadMetadata(tag.1);
    var s :- ReadBody(k, m.0, m.1);
    if s.1 != [] then Bad(TrailingData) else Accept(k, s.0)
  }
}
