// When the propagation refuses the samples it is called with, whatever they are: every exception of
// UndistortPcl, for queries that `view` would never hand over as well.
module PropagationChecks {
  import opened Outcomes
  import opened ImuCoverage
  import opened ImuTransaction

  predicate LooksAhead(samples: seq<Sample>, request: real) {
    samples != [] && samples[|samples| - 1].stamp > request
  }

  // The samples without the look-ahead.
  function Past(samples: seq<Sample>, request: real): seq<Sample> {
    if LooksAhead(samples, request) then samples[..|samples| - 1] else samples
  }

  // At most one sample up to the request, none at it, and with one the carry lies before the state.
  predicate Short(c: Cursor, samples: seq<Sample>, request: real) {
    var own := Past(samples, request);
    c.stateTime < request &&
    (if own == [] then c.carry.stamp < request
     else |own| == 1 && own[0].stamp < request && c.carry.stamp < c.stateTime)
  }

  function Prior(carry: Sample, samples: seq<Sample>, i: nat): Sample
    requires i <= |samples|
  {
    if i == 0 then carry else samples[i - 1]
  }

  predicate Rising(carry: Sample, samples: seq<Sample>) {
    forall i :: 0 <= i < |samples| ==> Prior(carry, samples, i).stamp < samples[i].stamp
  }

  // The one exception that applies, if any.
  function Exception(c: Cursor, samples: seq<Sample>, request: real): Option<Error> {
    if Short(c, samples, request) then
      if !LooksAhead(samples, request) then Some(ShortImuNotReady)
      else if c.carry.stamp > c.stateTime then Some(CarryNewerThanState)
      else if !Rising(c.carry, samples) then Some(UnorderedSupport)
      else if |samples| == 2 && samples[0].stamp == c.stateTime then Some(NonpositiveInterval)
      else None
    else if LooksAhead(samples, request) then Some(UnexpectedLookahead)
    else if request < c.stateTime - 0.000001 then Some(MovedBackwards)
    else None
  }

  lemma ShortIsDeficient(c: Cursor, samples: seq<Sample>, request: real)
    ensures Deficient(c, samples, request) <==> Short(c, samples, request)
    ensures HasRight(samples, request) <==> LooksAhead(samples, request)
  {
  }

  lemma RisingIsIncreasing(carry: Sample, samples: seq<Sample>)
    ensures Rising(carry, samples) <==> Increasing([carry] + samples)
  {
    assert samples[..|samples|] == samples;
    if Rising(carry, samples) { RisingFrom(carry, samples, |samples|); }
    var chain := [carry] + samples;
    forall i | 0 <= i < |samples| && Increasing(chain)
      ensures Prior(carry, samples, i).stamp < samples[i].stamp
    {
      assert chain[i].stamp < chain[i + 1].stamp;
    }
  }

  lemma {:induction false} RisingFrom(carry: Sample, samples: seq<Sample>, n: nat)
    requires Rising(carry, samples) && n <= |samples|
    ensures Increasing([carry] + samples[..n])
  {
    if n > 0 {
      RisingFrom(carry, samples, n - 1);
      var init, last := [carry] + samples[..n - 1], [carry] + samples[..n];
      assert last == init + [samples[n - 1]];
      assert init[n - 1] == Prior(carry, samples, n - 1);
      forall i | 0 <= i < n
        ensures init[i].stamp < samples[n - 1].stamp
      {
        if i < n - 1 { assert init[i].stamp < init[n - 1].stamp; }
      }
    }
  }

  // The pieces of a short interval.
  lemma ShortPieces(c: Cursor, samples: seq<Sample>, request: real)
    requires Short(c, samples, request) && LooksAhead(samples, request)
    requires c.carry.stamp <= c.stateTime && Rising(c.carry, samples)
    ensures var pieces := CutAll(c, samples, request, true);
            var right := samples[|samples| - 1];
            if |samples| == 1 then pieces == [Piece(c.carry, right, c.stateTime, request)]
            else if samples[0].stamp < c.stateTime then pieces == [Piece(samples[0], right, c.stateTime, request)]
            else pieces == [Piece(c.carry, samples[0], c.stateTime, samples[0].stamp),
                            Piece(samples[0], right, samples[0].stamp, request)]
  {
    var chain, begin := [c.carry] + samples, c.stateTime;
    assert chain[0] == c.carry && chain[1] == samples[0];
    assert Cut(chain, 0, begin, request, true) == [];
    if |samples| == 2 {
      assert chain[2] == samples[1];
      var first := Cut(chain, 1, begin, request, true);
      assert first == if samples[0].stamp < begin then [] else [Piece(c.carry, samples[0], begin, samples[0].stamp)];
      assert Cut(chain, 2, begin, request, true) == first + [PieceAt(chain, 1, begin, request, true)];
    }
  }

  lemma TotalOf(pieces: seq<Piece>)
    ensures |pieces| == 1 ==> Total(pieces) == pieces[0].end - pieces[0].start
    ensures |pieces| == 2 ==> Total(pieces) == pieces[0].end - pieces[0].start + (pieces[1].end - pieces[1].start)
  {
    if |pieces| == 1 { assert pieces[..0] == []; }
    if |pieces| == 2 { assert pieces[..1][..0] == [] && pieces[..1] == [pieces[0]]; }
  }

  lemma ShortRefuses(c: Cursor, samples: seq<Sample>, request: real, pieces: seq<Piece>)
    requires Short(c, samples, request) && LooksAhead(samples, request)
    requires c.carry.stamp <= c.stateTime && Rising(c.carry, samples)
    requires pieces == CutAll(c, samples, request, true)
    ensures var standing := |samples| == 2 && samples[0].stamp == c.stateTime;
            LateRefusal(c, pieces, request, true) == (if standing then Some(NonpositiveInterval) else None) &&
            (!standing ==> Tiles(pieces, c.stateTime, request))
  {
    ShortPieces(c, samples, request);
    TotalOf(pieces);
  }

  // Main result: whatever the samples and the request, the propagation raises exactly the exception
  // that applies; the incomplete union is never raised, and a short interval that goes through is
  // covered once.
  lemma ThrowsIff(m: Motion, p: Process, s: State, samples: seq<Sample>, request: real, lio: bool)
    ensures var c, r := CursorOf(p), Undistorted(m, p, s, samples, request, lio);
            match Exception(c, samples, request)
            case Some(e) => r == Throw(e)
            case None => r.Ok? && (Short(c, samples, request) ==> r.value.complete)
  {
    var c := CursorOf(p);
    ShortIsDeficient(c, samples, request);
    RisingIsIncreasing(c.carry, samples);
    if Short(c, samples, request) && LooksAhead(samples, request) && c.carry.stamp <= c.stateTime &&
       Rising(c.carry, samples) {
      ShortRefuses(c, samples, request, CutAll(c, samples, request, true));
    }
  }

  // ---------- the pose of an image in the scan history ----------

  // The pose becomes the last node of an open history. It replaces the node of its own time, within
  // 1e-6 s, goes behind an older one, and is refused before a later one.
  lemma PoseMeans(p: Process, time: real, s: State)
    requires p.scanOrigin.Some?
    ensures var offset, n := time - p.scanOrigin.value, |p.poses|;
            var same := n > 0 && p.poses[n - 1].offset - 0.000001 <= offset <= p.poses[n - 1].offset + 0.000001;
            ScanPose(p, time, s) ==
              if n > 0 && offset < p.poses[n - 1].offset - 0.000001 then Throw(PoseMovedBackwards)
              else Ok(p.(poses := (if same then p.poses[..n - 1] else p.poses) + [Node(offset, s, p.rates)]))
  {
    var node := Node(time - p.scanOrigin.value, s, p.rates);
    assert p.poses == [] ==> p.poses + [node] == [node];
  }
}
