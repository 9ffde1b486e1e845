// Reading back what was written.
module SnapshotRoundTrip {
  import opened SnapshotFormat

  // ---------- single items ----------

  lemma UnsignedBack(n: nat, rest: seq<Token>, why: Why)
    requires n < U64
    ensures ReadUnsigned([Num(n as real)] + rest, why) == Good(n, rest)
  {
    assert (n as real).Floor == n;
    assert ([Num(n as real)] + rest)[1..] == rest;
  }

  lemma {:induction false} ScalarsBack(xs: seq<real>, rest: seq<Token>)
    ensures ReadScalars(Numbers(xs) + rest, |xs|) == Good(xs, rest)
  {
    var ts := Numbers(xs) + rest;
    if xs == [] {
      assert ts == rest;
    } else {
      ScalarsBack(xs[1..], rest);
      assert ts[1..] == Numbers(xs[1..]) + rest;
      assert xs == [xs[0]] + xs[1..];
    }
  }

  lemma PoseBack(k: Checks, p: Pose, rest: seq<Token>)
    ensures ReadPose(k, Numbers(p) + rest) == if k.rotation(p) then Good(p, rest) else Bad(InvalidRotation)
  {
    ScalarsBack(p, rest);
  }

  lemma CovarianceBack(k: Checks, m: Covariance, rest: seq<Token>)
    ensures ReadCovariance(k, Numbers(m) + rest) == if k.covariance(m) then Good(m, rest) else Bad(InvalidCovariance)
  {
    ScalarsBack(m, rest);
  }

  // ---------- values sections ----------

  predicate EntriesFit(k: Checks, es: seq<Entry>) {
    forall i :: 0 <= i < |es| ==> Modelled(es[i].key) && k.rotation(es[i].pose)
  }

  predicate ValuesFit(k: Checks, es: Values) { |es| <= COUNT_LIMIT && EntriesFit(k, es) }

  lemma {:induction false} InsertAtEnd(es: Values, e: Entry)
    requires Ascending(es) && (es != [] ==> es[|es| - 1].key < e.key)
    ensures !Holds(es, e.key) && Insert(es, e) == es + [e] && InsertAt(es, e.key) == |es|
  {
    if es != [] {
      assert es[0].key <= es[|es| - 1].key;
      if |es| > 1 { assert es[1..][|es| - 2] == es[|es| - 1]; }
      InsertAtEnd(es[1..], e);
    }
  }

  // One turn of the reader's loop.
  lemma EntryBack(k: Checks, e: Entry, n: nat, sofar: Values, later: seq<Token>)
    requires !Holds(sofar, e.key)
    ensures var r := ReadEntries(k, EntryTokens(e) + later, n + 1, sofar);
            if Modelled(e.key) && k.rotation(e.pose) then r == ReadEntries(k, later, n, Insert(sofar, e)) else r.Bad?
  {
    assert EntryTokens(e) + later == [Num(e.key as real)] + (Numbers(e.pose) + later);
    UnsignedBack(e.key, Numbers(e.pose) + later, InvalidKey);
    PoseBack(k, e.pose, later);
  }

  // A values section reads back exactly, whatever follows, when every entry fits the reader.
  lemma {:induction false} EntriesBack(k: Checks, es: Values, sofar: Values, rest: seq<Token>)
    requires Ascending(sofar + es)
    ensures var r := ReadEntries(k, EntriesTokens(es) + rest, |es|, sofar);
            if EntriesFit(k, es) then r == Good(sofar + es, rest) else r.Bad?
    decreases |es|
  {
    if es == [] {
      assert EntriesTokens(es) + rest == rest && sofar + es == sofar;
    } else {
      var later := EntriesTokens(es[1..]) + rest;
      assert EntriesTokens(es) + rest == EntryTokens(es[0]) + later;
      AscendingSplits(sofar, es);
      InsertAtEnd(sofar, es[0]);
      EntryBack(k, es[0], |es| - 1, sofar, later);
      FitSplits(k, es);
      assert sofar + [es[0]] + es[1..] == sofar + es;
      EntriesBack(k, es[1..], sofar + [es[0]], rest);
    }
  }

  lemma FitSplits(k: Checks, es: seq<Entry>)
    requires es != []
    ensures EntriesFit(k, es) <==> Modelled(es[0].key) && k.rotation(es[0].pose) && EntriesFit(k, es[1..])
  {
    if EntriesFit(k, es[1..]) && Modelled(es[0].key) && k.rotation(es[0].pose) {
      forall i | 0 <= i < |es| ensures Modelled(es[i].key) && k.rotation(es[i].pose) {
        if i > 0 { assert es[i] == es[1..][i - 1]; }
      }
    }
  }

  lemma AscendingSplits(a: Values, b: Values)
    requires Ascending(a + b) && b != []
    ensures Ascending(a) && (a != [] ==> a[|a| - 1].key < b[0].key)
  {
    assert forall i :: 0 <= i < |a| ==> a[i] == (a + b)[i];
    assert b[0] == (a + b)[|a|];
  }

  lemma CountBack(n: nat, rest: seq<Token>)
    requires n < U64
    ensures ReadCount([Num(n as real)] + rest) == if n <= COUNT_LIMIT then Good(n, rest) else Bad(InvalidCount)
  {
    UnsignedBack(n, rest, InvalidCount);
  }

  lemma ValuesBack(k: Checks, name: string, es: Values, rest: seq<Token>)
    requires Ascending(es) && |es| < U64
    ensures var r := ReadValues(k, ValuesTokens(name, es) + rest, name);
            if ValuesFit(k, es) then r == Good(es, rest) else r.Bad?
  {
    var later := EntriesTokens(es) + rest;
    var ts := ValuesTokens(name, es) + rest;
    assert ts[0] == Word(name) && ts[1..] == [Num(|es| as real)] + later;
    CountBack(|es|, later);
    EntriesBack(k, es, [], rest);
    assert [] + es == es;
  }

  // ---------- factor sections ----------

  predicate FactorFits(k: Checks, f: Factor) {
    match f
    case Between(_, _, pose, noise) => k.rotation(pose) && k.covariance(noise)
    case Prior(_, pose, noise) => k.rotation(pose) && k.covariance(noise)
    case Unsupported => false
  }

  predicate FactorsFit(k: Checks, fs: seq<Factor>) { forall i :: 0 <= i < |fs| ==> FactorFits(k, fs[i]) }

  predicate GraphFits(k: Checks, fs: seq<Factor>) { |fs| <= COUNT_LIMIT && FactorsFit(k, fs) }

  lemma NoiseBack(k: Checks, pose: Pose, noise: Covariance, rest: seq<Token>)
    ensures ReadPose(k, Numbers(pose) + Numbers(noise) + rest)
         == if k.rotation(pose) then Good(pose, Numbers(noise) + rest) else Bad(InvalidRotation)
    ensures ReadCovariance(k, Numbers(noise) + rest)
         == if k.covariance(noise) then Good(noise, rest) else Bad(InvalidCovariance)
  {
    assert Numbers(pose) + Numbers(noise) + rest == Numbers(pose) + (Numbers(noise) + rest);
    PoseBack(k, pose, Numbers(noise) + rest);
    CovarianceBack(k, noise, rest);
  }

  lemma BetweenBack(k: Checks, f: Factor, rest: seq<Token>)
    requires f.Between?
    ensures var r := ReadFactor(k, FactorTokens(f) + rest);
            if FactorFits(k, f) then r == Good(f, rest) else r.Bad?
  {
    var body := Numbers(f.measured) + Numbers(f.noise) + rest;
    var after := [Num(f.key2 as real)] + body;
    assert FactorTokens(f) + rest == [Word("B")] + ([Num(f.key1 as real)] + after);
    assert ([Word("B")] + ([Num(f.key1 as real)] + after))[1..] == [Num(f.key1 as real)] + after;
    UnsignedBack(f.key1, after, InvalidFactor);
    UnsignedBack(f.key2, body, InvalidSecondKey);
    NoiseBack(k, f.measured, f.noise, rest);
  }

  lemma PriorBack(k: Checks, f: Factor, rest: seq<Token>)
    requires f.Prior?
    ensures var r := ReadFactor(k, FactorTokens(f) + rest);
            if FactorFits(k, f) then r == Good(f, rest) else r.Bad?
  {
    var body := Numbers(f.value) + Numbers(f.noise) + rest;
    assert FactorTokens(f) + rest == [Word("P")] + ([Num(f.key as real)] + body);
    assert ([Word("P")] + ([Num(f.key as real)] + body))[1..] == [Num(f.key as real)] + body;
    assert Word("P") != Word("B") by { assert "P"[0] != "B"[0]; }
    UnsignedBack(f.key, body, InvalidFactor);
    NoiseBack(k, f.value, f.noise, rest);
  }

  lemma {:induction false} FactorsBack(k: Checks, fs: seq<Factor>, rest: seq<Token>)
    requires Writable(fs)
    ensures var r := ReadFactors(k, FactorsTokens(fs) + rest, |fs|);
            if FactorsFit(k, fs) then r == Good(fs, rest) else r.Bad?
  {
    if fs == [] {
      assert FactorsTokens(fs) + rest == rest;
    } else {
      var later := FactorsTokens(fs[1..]) + rest;
      assert FactorsTokens(fs) + rest == FactorTokens(fs[0]) + later;
      if fs[0].Between? { BetweenBack(k, fs[0], later); } else { PriorBack(k, fs[0], later); }
      FactorsBack(k, fs[1..], rest);
      FactorsFitSplits(k, fs);
      assert fs == [fs[0]] + fs[1..];
    }
  }

  lemma FactorsFitSplits(k: Checks, fs: seq<Factor>)
    requires fs != []
    ensures FactorsFit(k, fs) <==> FactorFits(k, fs[0]) && FactorsFit(k, fs[1..])
  {
    if FactorFits(k, fs[0]) && FactorsFit(k, fs[1..]) {
      forall i | 0 <= i < |fs| ensures FactorFits(k, fs[i]) {
        if i > 0 { assert fs[i] == fs[1..][i - 1]; }
      }
    }
  }

  lemma GraphBack(k: Checks, name: string, fs: seq<Factor>, rest: seq<Token>)
    requires Writable(fs) && |fs| < U64
    ensures var r := ReadGraph(k, GraphTokens(name, fs) + rest, name);
            if GraphFits(k, fs) then r == Good(fs, rest) else r.Bad?
  {
    var later := FactorsTokens(fs) + rest;
    var counted := [Num(|fs| as real)] + later;
    assert GraphTokens(name, fs) + rest == [Word(name)] + counted;
    assert ([Word(name)] + counted)[1..] == counted;
    CountBack(|fs|, later);
    FactorsBack(k, fs, rest);
  }

  // ---------- whole snapshots ----------

  // The ranges of the C++ types.
  predicate Representable(s: Snapshot) {
    && s.observation < U64 && s.keypose < U64 && -0x8000_0000 <= s.landmark < 0x8000_0000
    && Ascending(s.existingValues) && Ascending(s.newValues) && Ascending(s.runtimePost)
    && |s.existingValues| < U64 && |s.newValues| < U64 && |s.runtimePost| < U64
    && |s.existing| < U64 && |s.motion| < U64 && |s.visual| < U64
  }

  predicate MetadataFits(s: Snapshot) { s.observation > 0 && s.keypose > 0 && s.landmark >= 0 }

  predicate SectionsFit(k: Checks, s: Snapshot) {
    && ValuesFit(k, s.existingValues) && ValuesFit(k, s.newValues)
    && GraphFits(k, s.existing) && GraphFits(k, s.motion) && GraphFits(k, s.visual)
    && ValuesFit(k, s.runtimePost)
  }

  function MetadataOf(s: Snapshot): Metadata { Metadata(s.timestamp, s.observation, s.keypose, s.landmark) }

  lemma IntegerBack(n: int, low: int, high: int, rest: seq<Token>, why: Why)
    requires low <= n < high
    ensures ReadInteger([Num(n as real)] + rest, low, high, why) == Good(n, rest)
  {
    assert (n as real).Floor == n;
    assert ([Num(n as real)] + rest)[1..] == rest;
  }

  lemma MetadataBack(s: Snapshot, rest: seq<Token>)
    requires Representable(s)
    ensures ReadMetadata(MetadataTokens(s) + rest)
         == if MetadataFits(s) then Good(MetadataOf(s), rest) else Bad(InvalidMetadata)
  {
    var r3 := [Num(s.landmark as real)] + rest;
    var r2 := [Num(s.keypose as real)] + r3;
    var r1 := [Num(s.observation as real)] + r2;
    assert MetadataTokens(s) + rest == [Num(s.timestamp)] + r1;
    assert ([Num(s.timestamp)] + r1)[1..] == r1;
    UnsignedBack(s.observation, r2, InvalidMetadata);
    UnsignedBack(s.keypose, r3, InvalidMetadata);
    IntegerBack(s.landmark, -0x8000_0000, 0x8000_0000, rest, InvalidMetadata);
  }

  lemma SixInARow(a: seq<Token>, b: seq<Token>, c: seq<Token>, d: seq<Token>, e: seq<Token>, f: seq<Token>,
                  rest: seq<Token>)
    ensures (a + b + c + d + e + f) + rest == a + (b + (c + (d + (e + (f + rest)))))
  {
  }

  lemma BodyBack(k: Checks, s: Snapshot, rest: seq<Token>)
    requires Representable(s) && AllWritable(s)
    ensures var r := ReadBody(k, MetadataOf(s), BodyTokens(s) + rest);
            if SectionsFit(k, s) then r == Good(s, rest) else r.Bad?
  {
    SixInARow(ValuesTokens("EXISTING_VALUES", s.existingValues), ValuesTokens("NEW_VALUES", s.newValues),
              GraphTokens("EXISTING_FACTORS", s.existing), GraphTokens("MOTION_FACTORS", s.motion),
              GraphTokens("VISUAL_FACTORS", s.visual), ValuesTokens("RUNTIME_POST", s.runtimePost), rest);
    ValuesReader(k, "EXISTING_VALUES", s.existingValues);
    ValuesReader(k, "NEW_VALUES", s.newValues);
    GraphReader(k, "EXISTING_FACTORS", s.existing);
    GraphReader(k, "MOTION_FACTORS", s.motion);
    GraphReader(k, "VISUAL_FACTORS", s.visual);
    ValuesReader(k, "RUNTIME_POST", s.runtimePost);
    SectionsBack((t, name) => ReadValues(k, t, name), (t, name) => ReadGraph(k, t, name), s, rest,
                 ValuesTokens("EXISTING_VALUES", s.existingValues), ValuesTokens("NEW_VALUES", s.newValues),
                 GraphTokens("EXISTING_FACTORS", s.existing), GraphTokens("MOTION_FACTORS", s.motion),
                 GraphTokens("VISUAL_FACTORS", s.visual), ValuesTokens("RUNTIME_POST", s.runtimePost),
                 ValuesFit(k, s.existingValues), ValuesFit(k, s.newValues), GraphFits(k, s.existing),
                 GraphFits(k, s.motion), GraphFits(k, s.visual), ValuesFit(k, s.runtimePost));
  }

  // The readers as values, so that only their contracts are in play.
  ghost predicate ReadsLike<T(!new)>(f: (seq<Token>, string) -> Parsed<T>, t: seq<Token>, name: string,
                                     value: T, fits: bool) {
    forall rest :: if fits then f(t + rest, name) == Good(value, rest) else f(t + rest, name).Bad?
  }

  lemma ValuesReader(k: Checks, name: string, es: Values)
    requires Ascending(es) && |es| < U64
    ensures ReadsLike((t, name) => ReadValues(k, t, name), ValuesTokens(name, es), name, es, ValuesFit(k, es))
  {
    forall rest: seq<Token>
      ensures var r := ReadValues(k, ValuesTokens(name, es) + rest, name);
              if ValuesFit(k, es) then r == Good(es, rest) else r.Bad?
    {
      ValuesBack(k, name, es, rest);
    }
  }

  lemma GraphReader(k: Checks, name: string, fs: seq<Factor>)
    requires Writable(fs) && |fs| < U64
    ensures ReadsLike((t, name) => ReadGraph(k, t, name), GraphTokens(name, fs), name, fs, GraphFits(k, fs))
  {
    forall rest: seq<Token>
      ensures var r := ReadGraph(k, GraphTokens(name, fs) + rest, name);
              if GraphFits(k, fs) then r == Good(fs, rest) else r.Bad?
    {
      GraphBack(k, name, fs, rest);
    }
  }

  // Six readers in a row return the snapshot when each fits, and fail at the first that does not.
  lemma SectionsBack(values: (seq<Token>, string) -> Parsed<Values>,
                     graph: (seq<Token>, string) -> Parsed<seq<Factor>>, s: Snapshot, rest: seq<Token>,
                     t0: seq<Token>, t1: seq<Token>, t2: seq<Token>, t3: seq<Token>, t4: seq<Token>, t5: seq<Token>,
                     f0: bool, f1: bool, f2: bool, f3: bool, f4: bool, f5: bool)
    requires ReadsLike(values, t0, "EXISTING_VALUES", s.existingValues, f0)
    requires ReadsLike(values, t1, "NEW_VALUES", s.newValues, f1)
    requires ReadsLike(graph, t2, "EXISTING_FACTORS", s.existing, f2)
    requires ReadsLike(graph, t3, "MOTION_FACTORS", s.motion, f3)
    requires ReadsLike(graph, t4, "VISUAL_FACTORS", s.visual, f4)
    requires ReadsLike(values, t5, "RUNTIME_POST", s.runtimePost, f5)
    ensures var r := ReadSections(values, graph, MetadataOf(s), t0 + (t1 + (t2 + (t3 + (t4 + (t5 + rest))))));
            if f0 && f1 && f2 && f3 && f4 && f5 then r == Good(s, rest) else r.Bad?
  {
  }

  // What makes a snapshot acceptable to the reader.
  predicate WellFormed(k: Checks, s: Snapshot) {
    MetadataFits(s) && SectionsFit(k, s) && Accept(k, s).Good?
  }

  lemma HeadThenTail(head: Token, a: seq<Token>, b: seq<Token>, extra: seq<Token>)
    ensures ([head] + (a + b) + extra)[1..] == a + (b + extra)
  {
  }

  lemma SnapshotStarts(s: Snapshot, extra: seq<Token>)
    requires AllWritable(s)
    ensures ReadTag(SnapshotTokens(s) + extra, HEADER) == Good(true, MetadataTokens(s) + (BodyTokens(s) + extra))
  {
    HeadThenTail(Word(HEADER), MetadataTokens(s), BodyTokens(s), extra);
  }

  // Main result: reading a written snapshot gives it back exactly when it is well-formed.
  lemma WrittenReadsBack(k: Checks, s: Snapshot)
    requires Representable(s) && AllWritable(s)
    ensures ReadSnapshot(k, SnapshotTokens(s)) == Good(s, []) <==> WellFormed(k, s)
    ensures ReadSnapshot(k, SnapshotTokens(s)).Good? <==> WellFormed(k, s)
  {
    SnapshotStarts(s, []);
    assert SnapshotTokens(s) + [] == SnapshotTokens(s);
    MetadataBack(s, BodyTokens(s) + []);
    BodyBack(k, s, []);
  }

  // Main result: anything after a written snapshot is refused.
  lemma TrailingIsRefused(k: Checks, s: Snapshot, extra: seq<Token>)
    requires Representable(s) && AllWritable(s) && extra != []
    ensures ReadSnapshot(k, SnapshotTokens(s) + extra).Bad?
    ensures WellFormed(k, s) ==> ReadSnapshot(k, SnapshotTokens(s) + extra) == Bad(TrailingData)
  {
    SnapshotStarts(s, extra);
    MetadataBack(s, BodyTokens(s) + extra);
    BodyBack(k, s, extra);
  }

  // ---------- what the reader accepts ----------

  // Inserting the second set of values succeeds exactly when no key repeats.
  predicate Apart(a: Values, b: Values) {
    forall i, j :: 0 <= i < |a| && 0 <= j < |b| ==> a[i].key != b[j].key
  }

  lemma {:induction false} InsertAtSplits(es: Values, key: Key)
    requires Ascending(es)
    ensures forall i :: 0 <= i < InsertAt(es, key) ==> es[i].key < key
    ensures forall i :: InsertAt(es, key) <= i < |es| ==> es[i].key >= key
  {
    if es != [] && es[0].key < key {
      InsertAtSplits(es[1..], key);
      forall i | 0 <= i < |es|
        ensures i < InsertAt(es, key) ==> es[i].key < key
        ensures InsertAt(es, key) <= i ==> es[i].key >= key
      {
        if i > 0 { assert es[i] == es[1..][i - 1]; }
      }
    }
  }

  // An insertion keeps the order; it is refused exactly for a key already there.
  lemma InsertKeeps(es: Values, e: Entry)
    requires Ascending(es)
    ensures Holds(es, e.key) <==> exists i :: 0 <= i < |es| && es[i].key == e.key
    ensures !Holds(es, e.key) ==> Ascending(Insert(es, e))
  {
    InsertAtSplits(es, e.key);
  }

  lemma InsertFits(k: Checks, es: Values, e: Entry)
    requires EntriesFit(k, es) && Modelled(e.key) && k.rotation(e.pose)
    ensures EntriesFit(k, Insert(es, e))
  {
  }

  lemma {:induction false} EntriesAccepted(k: Checks, ts: seq<Token>, n: nat, sofar: Values)
    requires Ascending(sofar) && EntriesFit(k, sofar)
    ensures var r := ReadEntries(k, ts, n, sofar);
            r.Good? ==> Ascending(r.value) && EntriesFit(k, r.value) && |r.value| == |sofar| + n
    decreases n
  {
    if n > 0 && ReadUnsigned(ts, InvalidKey).Good? {
      var key := ReadUnsigned(ts, InvalidKey);
      var pose := ReadPose(k, key.rest);
      if Modelled(key.value) && pose.Good? && !Holds(sofar, key.value) {
        var e := Entry(key.value, pose.value);
        InsertKeeps(sofar, e);
        InsertFits(k, sofar, e);
        EntriesAccepted(k, pose.rest, n - 1, Insert(sofar, e));
      }
    }
  }

  lemma {:induction false} FactorsAccepted(k: Checks, ts: seq<Token>, n: nat)
    ensures var r := ReadFactors(k, ts, n);
            r.Good? ==> FactorsFit(k, r.value) && Writable(r.value)
    decreases n
  {
    if n > 0 && ReadFactor(k, ts).Good? {
      var f := ReadFactor(k, ts);
      FactorsAccepted(k, f.rest, n - 1);
    }
  }

  lemma ValuesAccepted(k: Checks, ts: seq<Token>, name: string)
    ensures var r := ReadValues(k, ts, name);
            r.Good? ==> Ascending(r.value) && ValuesFit(k, r.value)
  {
    if ReadTag(ts, name).Good? && ReadCount(ts[1..]).Good? {
      var n := ReadCount(ts[1..]);
      EntriesAccepted(k, n.rest, n.value, []);
    }
  }

  lemma GraphAccepted(k: Checks, ts: seq<Token>, name: string)
    ensures var r := ReadGraph(k, ts, name);
            r.Good? ==> Writable(r.value) && GraphFits(k, r.value)
  {
    if ReadTag(ts, name).Good? && ReadCount(ts[1..]).Good? {
      var n := ReadCount(ts[1..]);
      FactorsAccepted(k, n.rest, n.value);
    }
  }

  // What six readers in a row return has the properties each of them guarantees.
  lemma SectionsAccepted(values: (seq<Token>, string) -> Parsed<Values>,
                         graph: (seq<Token>, string) -> Parsed<seq<Factor>>,
                         goodValues: Values -> bool, goodGraph: seq<Factor> -> bool,
                         m: Metadata, ts: seq<Token>)
    requires forall t, name :: values(t, name).Good? ==> goodValues(values(t, name).value)
    requires forall t, name :: graph(t, name).Good? ==> goodGraph(graph(t, name).value)
    ensures var r := ReadSections(values, graph, m, ts);
            r.Good? ==>
              && goodValues(r.value.existingValues) && goodValues(r.value.newValues) && goodValues(r.value.runtimePost)
              && goodGraph(r.value.existing) && goodGraph(r.value.motion) && goodGraph(r.value.visual)
              && MetadataOf(r.value) == m
  {
  }

  lemma BodyAccepted(k: Checks, m: Metadata, ts: seq<Token>)
    ensures var r := ReadBody(k, m, ts);
            r.Good? ==> AllWritable(r.value) && SectionsFit(k, r.value) && MetadataOf(r.value) == m
                        && Ascending(r.value.existingValues) && Ascending(r.value.newValues)
                        && Ascending(r.value.runtimePost)
  {
    forall t, name ensures var r := ReadValues(k, t, name); r.Good? ==> Ascending(r.value) && ValuesFit(k, r.value) {
      ValuesAccepted(k, t, name);
    }
    forall t, name ensures var r := ReadGraph(k, t, name); r.Good? ==> Writable(r.value) && GraphFits(k, r.value) {
      GraphAccepted(k, t, name);
    }
    SectionsAccepted((t, name) => ReadValues(k, t, name), (t, name) => ReadGraph(k, t, name),
                     vs => Ascending(vs) && ValuesFit(k, vs), fs => Writable(fs) && GraphFits(k, fs), m, ts);
  }

  // Main result: whatever text the reader accepts, the snapshot it returns is well-formed, so
  // that writing it out and reading it again changes nothing.
  lemma AcceptedIsStable(k: Checks, ts: seq<Token>)
    requires ReadSnapshot(k, ts).Good?
    ensures var s := ReadSnapshot(k, ts).value;
            && Representable(s) && AllWritable(s) && WellFormed(k, s)
            && ReadSnapshot(k, SnapshotTokens(s)) == Good(s, [])
  {
    var tag := ReadTag(ts, HEADER);
    var m := ReadMetadata(tag.rest);
    BodyAccepted(k, m.value, m.rest);
    var s := ReadBody(k, m.value, m.rest).value;
    assert MetadataOf(s) == m.value;
    MetadataAccepted(tag.rest);
    WrittenReadsBack(k, s);
  }

  lemma MetadataAccepted(ts: seq<Token>)
    requires ReadMetadata(ts).Good?
    ensures var m := ReadMetadata(ts).value;
            0 < m.observation < U64 && 0 < m.keypose < U64 && 0 <= m.landmark < 0x8000_0000
  {
  }

  // The values the errors are evaluated at: the two sets of values joined.
  lemma {:induction false} MergeMeansApart(a: Values, b: Values)
    requires Ascending(a) && Ascending(b)
    ensures Merge(a, b).Good? <==> Apart(a, b)
    decreases |b|
  {
    if b != [] {
      var e := b[0];
      InsertKeeps(a, e);
      if !Holds(a, e.key) {
        MergeMeansApart(Insert(a, e), b[1..]);
        InsertApart(a, b);
      } else {
        var i :| 0 <= i < |a| && a[i].key == e.key;
        assert a[i].key == b[0].key;
      }
    }
  }

  function Joined(a: Values, b: Values): Values {
    match Merge(a, b)
    case Good(v, _) => v
    case Bad(_) => []
  }

  // The last checks of the reader, in terms of the snapshot alone.
  lemma AcceptMeans(k: Checks, s: Snapshot)
    requires Ascending(s.existingValues) && Ascending(s.newValues)
    ensures Accept(k, s).Good? <==>
            && Apart(s.existingValues, s.newValues) && EventKeys(s)
            && FiniteErrors(k, s, Joined(s.existingValues, s.newValues))
  {
    MergeMeansApart(s.existingValues, s.newValues);
  }

  lemma InsertApart(a: Values, b: Values)
    requires Ascending(a) && Ascending(b) && b != [] && !Holds(a, b[0].key)
    ensures Apart(Insert(a, b[0]), b[1..]) <==> Apart(a, b)
  {
    var n, c := InsertAt(a, b[0].key), Insert(a, b[0]);
    InsertKeeps(a, b[0]);
    if Apart(c, b[1..]) {
      forall i, j | 0 <= i < |a| && 0 <= j < |b| ensures a[i].key != b[j].key {
        assert a[i] == c[if i < n then i else i + 1];
        if j > 0 { assert b[j] == b[1..][j - 1]; }
      }
    }
    if Apart(a, b) {
      forall i, j | 0 <= i < |c| && 0 <= j < |b[1..]| ensures c[i].key != b[1..][j].key {
        assert b[1..][j] == b[j + 1];
        assert i == n || c[i] == a[if i < n then i else i - 1];
      }
    }
  }

  // ---------- what well-formed means ----------

  // A pose or landmark symbol: the top byte of the key is 'x' or 'l'.
  predicate Symbolic(key: Key) {
    0x7800_0000_0000_0000 <= key < 0x7900_0000_0000_0000 || 0x6C00_0000_0000_0000 <= key < 0x6D00_0000_0000_0000
  }

  predicate SoundValues(k: Checks, es: Values) {
    |es| <= 100000 && forall i :: 0 <= i < |es| ==> Symbolic(es[i].key) && k.rotation(es[i].pose)
  }

  predicate SoundGraph(k: Checks, fs: seq<Factor>) {
    |fs| <= 100000 &&
    forall i :: 0 <= i < |fs| ==>
      (fs[i].Between? && k.rotation(fs[i].measured) && k.covariance(fs[i].noise)) ||
      (fs[i].Prior? && k.rotation(fs[i].value) && k.covariance(fs[i].noise))
  }

  // The one candidate joins the keypose to the landmark of the event.
  predicate TiesEvent(s: Snapshot) {
    && |s.visual| == 1 && s.visual[0].Between? && 0 < s.keypose < 0x100_0000_0000_0000
    && s.visual[0].key1 == 0x7800_0000_0000_0000 + s.keypose
    && s.visual[0].key2 == 0x6C00_0000_0000_0000 + s.landmark
  }

  predicate FiniteOver(k: Checks, s: Snapshot, values: Values) {
    k.finiteError(s.existing, values) && k.finiteError(s.motion, values) && k.finiteError(s.visual, values)
  }

  lemma FamilyIsSymbolic(key: Key)
    ensures Modelled(key) <==> Symbolic(key)
  {
  }

  lemma SoundIsFitting(k: Checks, es: Values)
    ensures SoundValues(k, es) <==> ValuesFit(k, es)
  {
    forall i | 0 <= i < |es| ensures Modelled(es[i].key) <==> Symbolic(es[i].key) { FamilyIsSymbolic(es[i].key); }
  }

  lemma SoundGraphFits(k: Checks, fs: seq<Factor>)
    ensures SoundGraph(k, fs) <==> GraphFits(k, fs)
  {
    if SoundGraph(k, fs) {
      forall i | 0 <= i < |fs| ensures FactorFits(k, fs[i]) { assert fs[i].Between? || fs[i].Prior?; }
    }
    if GraphFits(k, fs) {
      forall i | 0 <= i < |fs|
        ensures (fs[i].Between? && k.rotation(fs[i].measured) && k.covariance(fs[i].noise)) ||
                (fs[i].Prior? && k.rotation(fs[i].value) && k.covariance(fs[i].noise))
      {
        assert FactorFits(k, fs[i]);
      }
    }
  }

  // Main result: the snapshots that survive writing and reading are those with positive event ids, sound
  // sections of pose and landmark symbols and of supported factors, new values apart from the existing
  // ones, finite errors before and after, and one candidate factor that ties the event.
  lemma WellFormedMeans(k: Checks, s: Snapshot)
    requires Representable(s)
    ensures WellFormed(k, s) <==>
            && s.observation > 0 && s.keypose > 0 && s.landmark >= 0
            && SoundValues(k, s.existingValues) && SoundValues(k, s.newValues) && SoundValues(k, s.runtimePost)
            && SoundGraph(k, s.existing) && SoundGraph(k, s.motion) && SoundGraph(k, s.visual)
            && Apart(s.existingValues, s.newValues)
            && FiniteOver(k, s, Joined(s.existingValues, s.newValues)) && FiniteOver(k, s, s.runtimePost)
            && TiesEvent(s)
  {
    AcceptMeans(k, s);
    SoundIsFitting(k, s.existingValues);
    SoundIsFitting(k, s.newValues);
    SoundIsFitting(k, s.runtimePost);
    SoundGraphFits(k, s.existing);
    SoundGraphFits(k, s.motion);
    SoundGraphFits(k, s.visual);
  }

  // An integer token is read modulo 2^64 into a key or count; no other number is read.
  lemma WholeNumbersAreRead(x: real, rest: seq<Token>, why: Why)
    ensures var r := ReadUnsigned([Num(x)] + rest, why);
            if x.Floor as real == x && -0x1_0000_0000_0000_0000 < x.Floor < 0x1_0000_0000_0000_0000
            then r == Good(x.Floor % 0x1_0000_0000_0000_0000, rest) else r == Bad(why)
  {
    assert ([Num(x)] + rest)[1..] == rest;
  }
}
