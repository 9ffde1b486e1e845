// The snapshot writer and reader as they run over streams.
module SnapshotStreams {
  import opened SnapshotFormat

  class OutputStream {
    var tokens: seq<Token>

    constructor ()
      ensures tokens == []
    {
      tokens := [];
    }

    method Put(t: Token)
      modifies this
      ensures tokens == old(tokens) + [t]
    {
      tokens := tokens + [t];
    }

    method WriteNumbers(xs: seq<real>)
      modifies this
      ensures tokens == old(tokens) + Numbers(xs)
    {
      for i := 0 to |xs|
        invariant tokens == old(tokens) + Numbers(xs[..i])
      {
        Put(Num(xs[i]));
        assert Numbers(xs[..i + 1]) == Numbers(xs[..i]) + [Num(xs[i])];
      }
      assert xs[..|xs|] == xs;
    }

    method WriteValues(name: string, values: Values)
      modifies this
      ensures tokens == old(tokens) + ValuesTokens(name, values)
    {
      Put(Word(name));
      Put(Num(|values| as real));
      ghost var start := tokens;
      for i := 0 to |values|
        invariant tokens + EntriesTokens(values[i..]) == start + EntriesTokens(values)
      {
        ghost var before := tokens;
        Put(Num(values[i].key as real));
        WriteNumbers(values[i].pose);
        assert tokens == before + EntryTokens(values[i]);
        assert values[i..][1..] == values[i + 1..];
        assert tokens + EntriesTokens(values[i + 1..]) == before + EntriesTokens(values[i..]);
      }
      assert tokens + EntriesTokens(values[|values|..]) == tokens;
      HeadedBy(old(tokens), Word(name), Num(|values| as real), EntriesTokens(values));
    }

    method WriteFactor(f: Factor) returns (ok: bool)
      modifies this
      ensures ok == !f.Unsupported?
      ensures ok ==> tokens == old(tokens) + FactorTokens(f)
    {
      ok := true;
      match f
      case Between(key1, key2, pose, noise) =>
        Put(Word("B"));
        Put(Num(key1 as real));
        Put(Num(key2 as real));
        WriteNumbers(pose);
        WriteNumbers(noise);
      case Prior(key, pose, noise) =>
        Put(Word("P"));
        Put(Num(key as real));
        WriteNumbers(pose);
        WriteNumbers(noise);
      case Unsupported => ok := false;
    }

    // Stops at the first factor that is neither a prior nor a between factor.
    method WriteFactors(graph: seq<Factor>) returns (ok: bool)
      modifies this
      ensures ok == Writable(graph)
      ensures ok ==> tokens == old(tokens) + FactorsTokens(graph)
    {
      assert graph[..0] == [];
      for i := 0 to |graph|
        invariant Writable(graph[..i])
        invariant tokens == old(tokens) + FactorsTokens(graph[..i])
      {
        ok := WriteFactor(graph[i]);
        if !ok { return; }
        FactorsTokensTo(graph, i, old(tokens));
      }
      assert graph[..|graph|] == graph;
      ok := true;
    }

    method WriteGraph(name: string, graph: seq<Factor>) returns (ok: bool)
      modifies this
      ensures ok == Writable(graph)
      ensures ok ==> tokens == old(tokens) + GraphTokens(name, graph)
    {
      Put(Word(name));
      Put(Num(|graph| as real));
      ok := WriteFactors(graph);
      if ok { HeadedBy(old(tokens), Word(name), Num(|graph| as real), FactorsTokens(graph)); }
    }

    method WriteMetadata(s: Snapshot)
      modifies this
      ensures tokens == old(tokens) + MetadataTokens(s)
    {
      Put(Num(s.timestamp));
      Put(Num(s.observation as real));
      Put(Num(s.keypose as real));
      Put(Num(s.landmark as real));
    }

    method WriteGraphs(s: Snapshot) returns (ok: bool)
      modifies this
      ensures ok == AllWritable(s)
      ensures ok ==> tokens == old(tokens) + GraphTokens("EXISTING_FACTORS", s.existing)
                                           + GraphTokens("MOTION_FACTORS", s.motion)
                                           + GraphTokens("VISUAL_FACTORS", s.visual)
    {
      ok := WriteGraph("EXISTING_FACTORS", s.existing);
      if !ok { return; }
      ok := WriteGraph("MOTION_FACTORS", s.motion);
      if !ok { return; }
      ok := WriteGraph("VISUAL_FACTORS", s.visual);
    }

    method WriteSnapshot(s: Snapshot) returns (ok: bool)
      modifies this
      ensures ok == AllWritable(s)
      ensures ok ==> tokens == old(tokens) + SnapshotTokens(s)
    {
      Put(Word(HEADER));
      WriteMetadata(s);
      WriteValues("EXISTING_VALUES", s.existingValues);
      WriteValues("NEW_VALUES", s.newValues);
      ok := WriteGraphs(s);
      if !ok { return; }
      WriteValues("RUNTIME_POST", s.runtimePost);
      WrittenInARow(old(tokens), [Word(HEADER)], MetadataTokens(s),
                    ValuesTokens("EXISTING_VALUES", s.existingValues), ValuesTokens("NEW_VALUES", s.newValues),
                    GraphTokens("EXISTING_FACTORS", s.existing), GraphTokens("MOTION_FACTORS", s.motion),
                    GraphTokens("VISUAL_FACTORS", s.visual), ValuesTokens("RUNTIME_POST", s.runtimePost));
    }
  }

  lemma HeadedBy(start: seq<Token>, name: Token, count: Token, body: seq<Token>)
    ensures start + [name] + [count] + body == start + ([name, count] + body)
  {
  }

  lemma WrittenInARow(start: seq<Token>, h: seq<Token>, m: seq<Token>, a: seq<Token>, b: seq<Token>, c: seq<Token>,
                      d: seq<Token>, e: seq<Token>, f: seq<Token>)
    ensures start + h + m + a + b + c + d + e + f == start + (h + (m + (a + b + c + d + e + f)))
  {
  }

  lemma {:induction false} FactorsTokensAppend(fs: seq<Factor>, f: Factor)
    requires Writable(fs) && !f.Unsupported?
    ensures FactorsTokens(fs + [f]) == FactorsTokens(fs) + FactorTokens(f)
  {
    if fs == [] {
      assert fs + [f] == [f];
      assert FactorsTokens([f]) == FactorTokens(f) + FactorsTokens([]);
    } else {
      assert (fs + [f])[1..] == fs[1..] + [f];
      FactorsTokensAppend(fs[1..], f);
    }
  }

  // One turn of the factor loop.
  lemma FactorsTokensTo(graph: seq<Factor>, i: nat, start: seq<Token>)
    requires i < |graph| && Writable(graph[..i]) && !graph[i].Unsupported?
    ensures Writable(graph[..i + 1])
    ensures start + FactorsTokens(graph[..i]) + FactorTokens(graph[i]) == start + FactorsTokens(graph[..i + 1])
  {
    assert graph[..i + 1] == graph[..i] + [graph[i]];
    FactorsTokensAppend(graph[..i], graph[i]);
  }

  class InputStream {
    const checks: Checks
    var tokens: seq<Token>

    constructor (checks: Checks, tokens: seq<Token>)
      ensures this.checks == checks && this.tokens == tokens
    {
      this.checks := checks;
      this.tokens := tokens;
    }

    method Tag(expected: string) returns (r: Parsed<bool>)
      modifies this`tokens
      ensures r == ReadTag(old(tokens), expected) && (r.Good? ==> tokens == r.rest)
    {
      r := ReadTag(tokens, expected);
      if r.Good? { tokens := r.rest; }
    }

    method Unsigned(why: Why) returns (r: Parsed<nat>)
      modifies this`tokens
      ensures r == ReadUnsigned(old(tokens), why) && (r.Good? ==> tokens == r.rest)
    {
      r := ReadUnsigned(tokens, why);
      if r.Good? { tokens := r.rest; }
    }

    method Count() returns (r: Parsed<nat>)
      modifies this`tokens
      ensures r == ReadCount(old(tokens)) && (r.Good? ==> tokens == r.rest)
    {
      r := Unsigned(InvalidCount);
      if r.Good? && r.value > COUNT_LIMIT { r := Bad(InvalidCount); }
    }

    // Counted loop of scalars, as the pose and covariance readers use it.
    method Scalars(n: nat) returns (r: Parsed<seq<real>>)
      modifies this`tokens
      ensures r == ReadScalars(old(tokens), n) && (r.Good? ==> tokens == r.rest)
    {
      var xs: seq<real> := [];
      ghost var ts := tokens;
      AfterNothing(ReadScalars(ts, n));
      for i := 0 to n
        invariant |xs| == i
        invariant ReadScalars(ts, n) == After(xs, ReadScalars(tokens, n - i))
      {
        var x := ReadScalar(tokens);
        if x.Bad? { return Bad(x.why); }
        tokens := x.rest;
        AfterAfter(xs, [x.value], ReadScalars(x.rest, n - i - 1));
        xs := xs + [x.value];
      }
      assert xs + [] == xs;
      r := Good(xs, tokens);
    }

    method Pose() returns (r: Parsed<Pose>)
      modifies this`tokens
      ensures r == ReadPose(checks, old(tokens)) && (r.Good? ==> tokens == r.rest)
    {
      var xs := Scalars(12);
      if xs.Bad? { return Bad(xs.why); }
      r := if checks.rotation(xs.value) then Good(xs.value, xs.rest) else Bad(InvalidRotation);
    }

    method Noise() returns (r: Parsed<Covariance>)
      modifies this`tokens
      ensures r == ReadCovariance(checks, old(tokens)) && (r.Good? ==> tokens == r.rest)
    {
      var xs := Scalars(36);
      if xs.Bad? { return Bad(xs.why); }
      r := if checks.covariance(xs.value) then Good(xs.value, xs.rest) else Bad(InvalidCovariance);
    }

    method ReadValuesSection(name: string) returns (r: Parsed<Values>)
      modifies this`tokens
      ensures r == ReadValues(checks, old(tokens), name) && (r.Good? ==> tokens == r.rest)
    {
      var tag := Tag(name);
      if tag.Bad? { return Bad(tag.why); }
      var n := Count();
      if n.Bad? { return Bad(n.why); }
      var values: Values := [];
      ghost var ts := tokens;
      for i := 0 to n.value
        invariant ReadEntries(checks, ts, n.value, []) == ReadEntries(checks, tokens, n.value - i, values)
      {
        var key := Unsigned(InvalidKey);
        if key.Bad? { return Bad(key.why); }
        if !Modelled(key.value) { return Bad(UnsupportedVariable); }
        var pose := Pose();
        if pose.Bad? { return Bad(pose.why); }
        if Holds(values, key.value) { return Bad(DuplicateKey); }
        values := Insert(values, Entry(key.value, pose.value));
      }
      r := Good(values, tokens);
    }

    method FactorRecord() returns (r: Parsed<Factor>)
      modifies this`tokens
      ensures r == ReadFactor(checks, old(tokens)) && (r.Good? ==> tokens == r.rest)
    {
      if tokens == [] || (tokens[0] != Word("P") && tokens[0] != Word("B")) { return Bad(InvalidFactor); }
      var between := tokens[0] == Word("B");
      tokens := tokens[1..];
      var key1 := Unsigned(InvalidFactor);
      if key1.Bad? { return Bad(key1.why); }
      var key2 := 0;
      if between {
        var second := Unsigned(InvalidSecondKey);
        if second.Bad? { return Bad(second.why); }
        key2 := second.value;
      }
      var pose := Pose();
      if pose.Bad? { return Bad(pose.why); }
      var noise := Noise();
      if noise.Bad? { return Bad(noise.why); }
      r := Good(if between then Between(key1.value, key2, pose.value, noise.value)
                else Prior(key1.value, pose.value, noise.value), tokens);
    }

    method ReadGraphSection(name: string) returns (r: Parsed<seq<Factor>>)
      modifies this`tokens
      ensures r == ReadGraph(checks, old(tokens), name) && (r.Good? ==> tokens == r.rest)
    {
      var tag := Tag(name);
      if tag.Bad? { return Bad(tag.why); }
      var n := Count();
      if n.Bad? { return Bad(n.why); }
      r := FactorRecords(n.value);
    }

    method FactorRecords(n: nat) returns (r: Parsed<seq<Factor>>)
      modifies this`tokens
      ensures r == ReadFactors(checks, old(tokens), n) && (r.Good? ==> tokens == r.rest)
    {
      var graph: seq<Factor> := [];
      ghost var ts := tokens;
      AfterNothing(ReadFactors(checks, ts, n));
      for i := 0 to n
        invariant ReadFactors(checks, ts, n) == After(graph, ReadFactors(checks, tokens, n - i))
      {
        var f := FactorRecord();
        if f.Bad? { return Bad(f.why); }
        AfterAfter(graph, [f.value], ReadFactors(checks, f.rest, n - i - 1));
        graph := graph + [f.value];
      }
      assert graph + [] == graph;
      r := Good(graph, tokens);
    }

    method Header() returns (r: Parsed<Metadata>)
      modifies this`tokens
      ensures r == ReadMetadata(old(tokens)) && (r.Good? ==> tokens == r.rest)
    {
      var time := ReadScalar(tokens);
      if time.Bad? { return Bad(time.why); }
      tokens := time.rest;
      var observation := Unsigned(InvalidMetadata);
      if observation.Bad? { return Bad(observation.why); }
      var keypose := Unsigned(InvalidMetadata);
      if keypose.Bad? { return Bad(keypose.why); }
      var landmark := ReadInteger(tokens, -0x8000_0000, 0x8000_0000, InvalidMetadata);
      if landmark.Bad? { return Bad(landmark.why); }
      tokens := landmark.rest;
      if observation.value == 0 || keypose.value == 0 || landmark.value < 0 { return Bad(InvalidMetadata); }
      r := Good(Metadata(time.value, observation.value, keypose.value, landmark.value), tokens);
    }

    method Body(m: Metadata) returns (r: Parsed<Snapshot>)
      modifies this`tokens
      ensures r == ReadBody(checks, m, old(tokens)) && (r.Good? ==> tokens == r.rest)
    {
      var existingValues := ReadValuesSection("EXISTING_VALUES");
      if existingValues.Bad? { return Bad(existingValues.why); }
      var newValues := ReadValuesSection("NEW_VALUES");
      if newValues.Bad? { return Bad(newValues.why); }
      var existing := ReadGraphSection("EXISTING_FACTORS");
      if existing.Bad? { return Bad(existing.why); }
      var motion := ReadGraphSection("MOTION_FACTORS");
      if motion.Bad? { return Bad(motion.why); }
      var visual := ReadGraphSection("VISUAL_FACTORS");
      if visual.Bad? { return Bad(visual.why); }
      var runtimePost := ReadValuesSection("RUNTIME_POST");
      if runtimePost.Bad? { return Bad(runtimePost.why); }
      r := Good(Snapshot(m.timestamp, m.observation, m.keypose, m.landmark, existingValues.value, newValues.value,
                         existing.value, motion.value, visual.value, runtimePost.value), tokens);
    }

    method ReadAll() returns (r: Parsed<Snapshot>)
      modifies this`tokens
      ensures r == ReadSnapshot(checks, old(tokens))
    {
      var tag := Tag(HEADER);
      if tag.Bad? { return Bad(tag.why); }
      var m := Header();
      if m.Bad? { return Bad(m.why); }
      var s := Body(m.value);
      if s.Bad? { return Bad(s.why); }
      if tokens != [] { return Bad(TrailingData); }
      r := Accept(checks, s.value);
    }
  }

  // What a loop has read so far, put before what the rest of it reads.
  function After<T>(sofar: seq<T>, p: Parsed<seq<T>>): Parsed<seq<T>> {
    match p
    case Good(more, rest) => Good(sofar + more, rest)
    case Bad(why) => Bad(why)
  }

  lemma AfterNothing<T>(p: Parsed<seq<T>>)
    ensures After([], p) == p
  {
    if p.Good? { assert [] + p.value == p.value; }
  }

  lemma AfterAfter<T>(a: seq<T>, b: seq<T>, p: Parsed<seq<T>>)
    ensures After(a, After(b, p)) == After(a + b, p)
  {
    if p.Good? { assert a + (b + p.value) == a + b + p.value; }
  }
}
