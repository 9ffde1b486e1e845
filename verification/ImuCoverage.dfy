// Which IMU samples a query uses, and how the propagation cuts the time between
// the persistent state and the query into pieces.
module ImuCoverage {
  import opened Outcomes

  const EPSILON := 0.000001

  datatype Sample = Sample(stamp: real, reading: int)

  // One propagation step: the pair of samples whose mean is applied on (start, end].
  datatype Piece = Piece(head: Sample, tail: Sample, start: real, end: real)

  datatype InputView = InputView(samples: seq<Sample>, eligible: nat, releasable: nat,
                                 ready: bool, rightSupport: bool)

  // The part of ImuProcess that decides coverage.
  datatype Cursor = Cursor(carry: Sample, stateTime: real, needInit: bool)

  // ---------- selection of samples ----------

  // Index of the first sample after the target, or the length when there is none.
  function FirstAfter(received: seq<Sample>, target: real): (n: nat)
    ensures n <= |received|
    ensures forall i :: 0 <= i < n ==> received[i].stamp <= target
    ensures n < |received| ==> received[n].stamp > target
  {
    if received == [] || received[0].stamp > target then 0
    else 1 + FirstAfter(received[1..], target)
  }

  // The samples that are not part of the persistent state yet.
  function Fresh(received: seq<Sample>, start: real): seq<Sample> {
    if received == [] then []
    else if received[|received| - 1].stamp > start + EPSILON
      then Fresh(received[..|received| - 1], start) + [received[|received| - 1]]
    else Fresh(received[..|received| - 1], start)
  }

  predicate Ordered(s: seq<Sample>) {
    forall i, j :: 0 <= i < j < |s| ==> s[i].stamp <= s[j].stamp
  }

  predicate Increasing(s: seq<Sample>) {
    forall i, j :: 0 <= i < j < |s| ==> s[i].stamp < s[j].stamp
  }

  // The scan in `view` compares each stamp with the one before it, starting from -1.
  predicate Accepted(s: seq<Sample>) {
    s == [] || (Accepted(s[..|s| - 1]) && s[|s| - 1].stamp >= Previous(s, |s| - 1))
  }

  function Previous(s: seq<Sample>, i: nat): real
    requires i <= |s|
  {
    if i == 0 then -1.0 else s[i - 1].stamp
  }

  predicate NeedsRight(c: Cursor, request: real, count: nat, lastSelected: real) {
    !c.needInit && request > c.stateTime && count <= 1 && lastSelected < request &&
    (count == 0 || c.carry.stamp < c.stateTime)
  }

  function LastStamp(c: Cursor, picked: seq<Sample>): real {
    if picked == [] then c.carry.stamp else picked[|picked| - 1].stamp
  }

  // What `view` answers: the fresh samples up to the target, and one look-ahead
  // sample exactly when the coverage rule asks for it.
  function ViewOf(received: seq<Sample>, c: Cursor, target: real): Outcome<InputView> {
    var n := FirstAfter(received, target);
    var picked := Fresh(received[..n], c.stateTime);
    var right := NeedsRight(c, target, |picked|, LastStamp(c, picked));
    if target < c.stateTime then Throw(QueryPrecedesState)
    else if !Accepted(received[..if n < |received| then n + 1 else n]) then Throw(UnorderedImu)
    else if right && n == |received| then Ok(InputView(picked, |picked|, n, false, true))
    else Ok(InputView(if right then picked + [received[n]] else picked, |picked|, n, true, right))
  }

  method View(received: seq<Sample>, c: Cursor, target: real) returns (r: Outcome<InputView>)
    ensures r == ViewOf(received, c, target)
  {
    if target < c.stateTime {
      return Throw(QueryPrecedesState);
    }
    var samples: seq<Sample> := [];
    var right: Option<Sample> := None;
    var previous := -1.0;
    var n := 0;
    while n < |received| && right == None
      invariant 0 <= n <= |received|
      invariant n <= FirstAfter(received, target)
      invariant samples == Fresh(received[..n], c.stateTime)
      invariant Accepted(received[..n])
      invariant right == None ==> previous == Previous(received, n)
      invariant right == None || (n < |received| && n == FirstAfter(received, target) &&
                                  right == Some(received[n]) && Accepted(received[..n + 1]))
      decreases |received| - n, right == None
    {
      var u := received[n];
      OneMoreSample(received, n, c.stateTime);
      if u.stamp < previous {
        BadPairRejects(received, n, target);
        return Throw(UnorderedImu);
      }
      previous := u.stamp;
      if u.stamp > target {
        right := Some(u);
      } else {
        if u.stamp > c.stateTime + EPSILON {
          samples := samples + [u];
        }
        n := n + 1;
      }
    }
    var eligible := |samples|;
    var last := LastStamp(c, samples);
    var support := NeedsRight(c, target, eligible, last);
    assert n == FirstAfter(received, target);
    if support && right == None {
      return Ok(InputView(samples, eligible, n, false, support));
    }
    if support {
      samples := samples + [right.value];
    }
    return Ok(InputView(samples, eligible, n, true, support));
  }

  lemma OneMoreSample(received: seq<Sample>, n: nat, start: real)
    requires n < |received|
    ensures Fresh(received[..n + 1], start) ==
            Fresh(received[..n], start) + if received[n].stamp > start + EPSILON then [received[n]] else []
    ensures Accepted(received[..n + 1]) <==>
            Accepted(received[..n]) && received[n].stamp >= Previous(received, n)
  {
    assert received[..n + 1][..n] == received[..n];
  }

  lemma {:induction false} AcceptedPrefix(s: seq<Sample>, n: nat)
    requires n <= |s| && Accepted(s)
    ensures Accepted(s[..n])
    decreases |s|
  {
    if n < |s| {
      AcceptedPrefix(s[..|s| - 1], n);
      assert s[..|s| - 1][..n] == s[..n];
    } else {
      assert s[..n] == s;
    }
  }

  lemma BadPairRejects(received: seq<Sample>, n: nat, target: real)
    requires n < |received| && n <= FirstAfter(received, target)
    requires received[n].stamp < Previous(received, n)
    ensures !Accepted(received[..if FirstAfter(received, target) < |received|
                                  then FirstAfter(received, target) + 1
                                  else FirstAfter(received, target)])
  {
    var m := FirstAfter(received, target);
    var scanned := received[..if m < |received| then m + 1 else m];
    assert scanned[..n + 1] == received[..n + 1];
    OneMoreSample(received, n, 0.0);
    if Accepted(scanned) {
      AcceptedPrefix(scanned, n + 1);
    }
  }

  // ---------- cutting the interval ----------

  // The same deficiency decision, taken again from the samples that were handed over:
  // a sample after the request can only be the look-ahead.
  predicate HasRight(samples: seq<Sample>, request: real) {
    samples != [] && samples[|samples| - 1].stamp > request
  }

  function NewCount(samples: seq<Sample>, request: real): nat {
    if HasRight(samples, request) then |samples| - 1 else |samples|
  }

  predicate Deficient(c: Cursor, samples: seq<Sample>, request: real) {
    var count := NewCount(samples, request);
    request > c.stateTime && count <= 1 && LastStamp(c, samples[..count]) < request &&
    (count == 0 || c.carry.stamp < c.stateTime)
  }

  function Max(a: real, b: real): real { if a < b then b else a }

  function Min(a: real, b: real): real { if b < a then b else a }

  // The piece for the pair (chain[i], chain[i + 1]): one short-interval branch and the
  // three ordinary ones.
  function PieceAt(chain: seq<Sample>, i: nat, begin: real, end: real, deficient: bool): Piece
    requires i + 1 < |chain|
  {
    var head, tail := chain[i], chain[i + 1];
    if deficient then Piece(head, tail, Max(head.stamp, begin), Min(tail.stamp, end))
    else if head.stamp < begin then Piece(head, tail, begin, tail.stamp)
    else if i != |chain| - 2 then Piece(head, tail, head.stamp, tail.stamp)
    else Piece(head, tail, head.stamp, end)
  }

  // The pieces of the first n pairs; a pair that ends before the state is skipped.
  function Cut(chain: seq<Sample>, n: nat, begin: real, end: real, deficient: bool): seq<Piece>
    requires n < |chain|
  {
    if n == 0 then []
    else if chain[n].stamp < begin then Cut(chain, n - 1, begin, end, deficient)
    else Cut(chain, n - 1, begin, end, deficient) + [PieceAt(chain, n - 1, begin, end, deficient)]
  }

  function CutAll(c: Cursor, samples: seq<Sample>, request: real, deficient: bool): seq<Piece> {
    Cut([c.carry] + samples, |samples|, c.stateTime, request, deficient)
  }

  // Where the piece with this index has to start.
  function Joint(pieces: seq<Piece>, i: nat, begin: real): real
    requires i <= |pieces|
  {
    if i == 0 then begin else pieces[i - 1].end
  }

  function EndOf(pieces: seq<Piece>, begin: real): real {
    Joint(pieces, |pieces|, begin)
  }

  // Each piece is positive and starts where the one before it ended.
  predicate Contiguous(pieces: seq<Piece>, begin: real) {
    forall i :: 0 <= i < |pieces| ==>
      pieces[i].start < pieces[i].end && pieces[i].start == Joint(pieces, i, begin)
  }

  // The pieces cover (begin, end] exactly once.
  predicate Tiles(pieces: seq<Piece>, begin: real, end: real) {
    Contiguous(pieces, begin) && EndOf(pieces, begin) == end
  }

  predicate Within(p: Piece, x: real) { p.start < x <= p.end }

  lemma {:induction false} JointsRise(pieces: seq<Piece>, begin: real, i: nat, j: nat)
    requires Contiguous(pieces, begin) && i <= j <= |pieces|
    ensures i < j ==> Joint(pieces, i, begin) < Joint(pieces, j, begin)
    decreases j - i
  {
    if i < j {
      JointsRise(pieces, begin, i, j - 1);
      assert pieces[j - 1].start < pieces[j - 1].end;
    }
  }

  lemma {:induction false} Locate(pieces: seq<Piece>, begin: real, x: real, n: nat) returns (i: nat)
    requires Contiguous(pieces, begin) && n <= |pieces|
    requires begin < x <= Joint(pieces, n, begin)
    ensures i < n && Within(pieces[i], x)
  {
    if x <= Joint(pieces, n - 1, begin) {
      i := Locate(pieces, begin, x, n - 1);
    } else {
      i := n - 1;
      assert pieces[i].start == Joint(pieces, i, begin);
    }
  }

  // The meaning of Tiles: every time after the state and up to the end lies in exactly
  // one piece, and no piece reaches outside.
  lemma TilesMeansOnce(pieces: seq<Piece>, begin: real, end: real, x: real)
    requires Tiles(pieces, begin, end)
    ensures begin < x <= end <==> exists i :: 0 <= i < |pieces| && Within(pieces[i], x)
    ensures forall i, j :: 0 <= i < j < |pieces| ==> !(Within(pieces[i], x) && Within(pieces[j], x))
  {
    if begin < x <= end {
      var i := Locate(pieces, begin, x, |pieces|);
    }
    forall i | 0 <= i < |pieces| && Within(pieces[i], x)
      ensures begin < x <= end
    {
      JointsRise(pieces, begin, 0, i);
      JointsRise(pieces, begin, i + 1, |pieces|);
    }
    forall i, j | 0 <= i < j < |pieces|
      ensures !(Within(pieces[i], x) && Within(pieces[j], x))
    {
      JointsRise(pieces, begin, i + 1, j);
    }
  }

  // ---------- when the cut tiles the interval ----------

  // The last two fresh samples are replaced by one piece up to the request, so only the
  // samples before the last one have to be distinct and before the request.
  predicate Spaced(own: seq<Sample>, target: real) {
    |own| < 2 ||
    (own[|own| - 2].stamp < target &&
     forall i :: 0 <= i < |own| - 2 ==> own[i].stamp < own[i + 1].stamp)
  }

  lemma {:induction false} AcceptedIsOrdered(s: seq<Sample>, i: nat, j: nat)
    requires Accepted(s) && i <= j < |s|
    ensures s[i].stamp <= s[j].stamp
    decreases |s|, j - i
  {
    if j < |s| - 1 {
      AcceptedIsOrdered(s[..|s| - 1], i, j);
    } else if i < j {
      AcceptedIsOrdered(s[..|s| - 1], i, j - 1);
    }
  }

  lemma {:induction false} FreshMembers(s: seq<Sample>, start: real, u: Sample)
    ensures u in Fresh(s, start) <==> u in s && u.stamp > start + EPSILON
  {
    if s != [] {
      FreshMembers(s[..|s| - 1], start, u);
      assert s == s[..|s| - 1] + [s[|s| - 1]];
    }
  }

  lemma {:induction false} FreshKeepsOrder(s: seq<Sample>, start: real)
    requires Ordered(s)
    ensures Ordered(Fresh(s, start))
    ensures Increasing(s) ==> Increasing(Fresh(s, start))
  {
    if s != [] {
      var init := s[..|s| - 1];
      FreshKeepsOrder(init, start);
      forall u | u in Fresh(init, start)
        ensures u.stamp <= s[|s| - 1].stamp && (Increasing(s) ==> u.stamp < s[|s| - 1].stamp)
      {
        FreshMembers(init, start, u);
      }
    }
  }

  lemma {:induction false} CutAt(chain: seq<Sample>, n: nat, begin: real, end: real, deficient: bool)
    requires n < |chain|
    requires forall i :: 1 <= i <= n ==> chain[i].stamp >= begin
    ensures |Cut(chain, n, begin, end, deficient)| == n
    ensures forall i :: 0 <= i < n ==>
              Cut(chain, n, begin, end, deficient)[i] == PieceAt(chain, i, begin, end, deficient)
  {
    if n > 0 {
      CutAt(chain, n - 1, begin, end, deficient);
    }
  }

  // A query whose samples were chosen by `view`: own samples after the state and not after
  // the target, then the look-ahead when it is needed.
  ghost predicate Chosen(c: Cursor, own: seq<Sample>, samples: seq<Sample>, target: real) {
    !c.needInit && c.carry.stamp <= c.stateTime <= target && Ordered(own) &&
    (forall i :: 0 <= i < |own| ==> c.stateTime < own[i].stamp <= target) &&
    if NeedsRight(c, target, |own|, LastStamp(c, own))
      then |samples| == |own| + 1 && samples[..|own|] == own && samples[|own|].stamp > target
    else samples == own
  }

  lemma FreshIsOwn(received: seq<Sample>, c: Cursor, target: real, n: nat)
    requires n == FirstAfter(received, target)
    requires Accepted(received[..if n < |received| then n + 1 else n])
    ensures var own := Fresh(received[..n], c.stateTime);
            Ordered(own) && (Increasing(received) ==> Increasing(own)) &&
            forall i :: 0 <= i < |own| ==> c.stateTime < own[i].stamp <= target
  {
    var scanned := received[..if n < |received| then n + 1 else n];
    forall i, j | 0 <= i < j < n
      ensures received[..n][i].stamp <= received[..n][j].stamp
    {
      AcceptedIsOrdered(scanned, i, j);
    }
    FreshKeepsOrder(received[..n], c.stateTime);
    forall u | u in Fresh(received[..n], c.stateTime)
      ensures c.stateTime < u.stamp <= target
    {
      FreshMembers(received[..n], c.stateTime, u);
    }
  }

  lemma ViewChooses(received: seq<Sample>, c: Cursor, target: real)
    requires !c.needInit && c.carry.stamp <= c.stateTime
    requires ViewOf(received, c, target).Ok? && ViewOf(received, c, target).value.ready
    ensures var v := ViewOf(received, c, target).value;
            v.eligible <= |v.samples| && Chosen(c, v.samples[..v.eligible], v.samples, target) &&
            (Increasing(received) ==> Increasing(v.samples[..v.eligible]))
  {
    FreshIsOwn(received, c, target, FirstAfter(received, target));
  }

  // The look-ahead flag of `view` and the deficiency that UndistortPcl derives again from
  // the samples are the same decision, so neither look-ahead exception is raised.
  lemma SupportIsDeficiency(c: Cursor, own: seq<Sample>, samples: seq<Sample>, target: real)
    requires Chosen(c, own, samples, target)
    ensures NewCount(samples, target) == |own|
    ensures Deficient(c, samples, target) <==> NeedsRight(c, target, |own|, LastStamp(c, own))
    ensures HasRight(samples, target) <==> Deficient(c, samples, target)
  {
    assert samples[..|own|] == own;
  }

  // Exactly when the cut tiles the whole interval.
  lemma ChosenTiles(c: Cursor, own: seq<Sample>, samples: seq<Sample>, target: real)
    requires Chosen(c, own, samples, target)
    ensures Tiles(CutAll(c, samples, target, Deficient(c, samples, target)), c.stateTime, target)
            <==> Spaced(own, target)
    ensures EndOf(CutAll(c, samples, target, Deficient(c, samples, target)), c.stateTime) == target
    ensures Deficient(c, samples, target) ==> |own| < 2
  {
    SupportIsDeficiency(c, own, samples, target);
    var deficient := Deficient(c, samples, target);
    var chain := [c.carry] + samples;
    CutAt(chain, |samples|, c.stateTime, target, deficient);
    var pieces := CutAll(c, samples, target, deficient);
    if |own| >= 2 {
      assert samples == own;
      OrdinaryTiles(c, own, target, pieces);
    }
  }

  // The times at which the ordinary branches cut when there are at least two own samples.
  function Knot(c: Cursor, own: seq<Sample>, target: real, i: nat): real
    requires i <= |own|
  {
    if i == 0 then c.stateTime else if i == |own| then target else own[i - 1].stamp
  }

  predicate KnotsRise(c: Cursor, own: seq<Sample>, target: real) {
    forall i :: 0 <= i < |own| ==> Knot(c, own, target, i) < Knot(c, own, target, i + 1)
  }

  lemma OrdinaryTiles(c: Cursor, own: seq<Sample>, target: real, pieces: seq<Piece>)
    requires Chosen(c, own, own, target) && |own| >= 2 && |pieces| == |own|
    requires forall i :: 0 <= i < |own| ==>
               pieces[i] == PieceAt([c.carry] + own, i, c.stateTime, target, false)
    ensures Tiles(pieces, c.stateTime, target) <==> Spaced(own, target)
  {
    forall i | 0 <= i < |own|
      ensures pieces[i].start == Knot(c, own, target, i) && pieces[i].end == Knot(c, own, target, i + 1)
    {
      OrdinaryPiece(c, own, target, pieces, i);
    }
    KnotTiles(c, own, target, pieces);
    KnotsRiseIsSpaced(c, own, target);
  }

  lemma KnotTiles(c: Cursor, own: seq<Sample>, target: real, pieces: seq<Piece>)
    requires |pieces| == |own| > 0
    requires forall i :: 0 <= i < |own| ==>
               pieces[i].start == Knot(c, own, target, i) && pieces[i].end == Knot(c, own, target, i + 1)
    ensures Tiles(pieces, c.stateTime, target) <==> KnotsRise(c, own, target)
  {
    forall i | 0 <= i < |own|
      ensures pieces[i].start == Joint(pieces, i, c.stateTime)
    {
      if i > 0 {
        assert pieces[i - 1].end == Knot(c, own, target, i - 1 + 1);
      }
    }
    var m := |own| - 1;
    assert pieces[m].end == Knot(c, own, target, m + 1);
    if KnotsRise(c, own, target) {
      forall i | 0 <= i < |own|
        ensures pieces[i].start < pieces[i].end
      {
        assert Knot(c, own, target, i) < Knot(c, own, target, i + 1);
      }
    }
    if Tiles(pieces, c.stateTime, target) {
      forall i | 0 <= i < |own|
        ensures Knot(c, own, target, i) < Knot(c, own, target, i + 1)
      {
        assert pieces[i].start < pieces[i].end;
      }
    }
  }

  lemma KnotsRiseIsSpaced(c: Cursor, own: seq<Sample>, target: real)
    requires Chosen(c, own, own, target) && |own| >= 2
    ensures KnotsRise(c, own, target) <==> Spaced(own, target)
  {
    var n := |own|;
    if KnotsRise(c, own, target) {
      assert Knot(c, own, target, n - 1) < Knot(c, own, target, n - 1 + 1);
      forall i | 0 <= i < n - 2
        ensures own[i].stamp < own[i + 1].stamp
      {
        assert Knot(c, own, target, i + 1) < Knot(c, own, target, i + 1 + 1);
      }
    }
    if Spaced(own, target) {
      forall i | 0 <= i < n
        ensures Knot(c, own, target, i) < Knot(c, own, target, i + 1)
      {
        if 0 < i < n - 1 {
          var k := i - 1;
          assert own[k].stamp < own[k + 1].stamp;
        }
      }
    }
  }

  lemma OrdinaryPiece(c: Cursor, own: seq<Sample>, target: real, pieces: seq<Piece>, i: nat)
    requires Chosen(c, own, own, target) && |own| >= 2 && |pieces| == |own| && i < |own|
    requires pieces[i] == PieceAt([c.carry] + own, i, c.stateTime, target, false)
    ensures pieces[i].start == Knot(c, own, target, i) && pieces[i].end == Knot(c, own, target, i + 1)
  {
    var chain := [c.carry] + own;
    assert chain[i + 1] == own[i] && (i > 0 ==> chain[i] == own[i - 1]);
  }

  // Received stamps that strictly increase always give a spaced selection.
  lemma IncreasingIsSpaced(own: seq<Sample>, target: real)
    requires Increasing(own) && forall i :: 0 <= i < |own| ==> own[i].stamp <= target
    ensures Spaced(own, target)
  {
    if |own| >= 2 {
      assert own[|own| - 2].stamp < own[|own| - 1].stamp;
    }
  }

  // Exactness of the deficiency test: it holds if and only if the three ordinary branches
  // would leave some time between the state and the target uncovered.
  lemma DeficientIsUncovered(c: Cursor, own: seq<Sample>, samples: seq<Sample>, target: real)
    requires Chosen(c, own, samples, target)
    ensures Deficient(c, samples, target) <==>
            exists x :: c.stateTime < x <= target && !Covered(CutAll(c, own, target, false), x)
  {
    SupportIsDeficiency(c, own, samples, target);
    var chain := [c.carry] + own;
    var pieces := CutAll(c, own, target, false);
    CutAt(chain, |own|, c.stateTime, target, false);
    if Deficient(c, samples, target) {
      assert !Covered(pieces, target);
    } else {
      forall x | c.stateTime < x <= target
        ensures Covered(pieces, x)
      {
        if |own| <= 1 {
          assert Within(pieces[0], x);
        } else {
          OrdinaryCovers(c, own, target, pieces, x, 0);
        }
      }
    }
  }

  ghost predicate Covered(pieces: seq<Piece>, x: real) {
    exists i :: 0 <= i < |pieces| && Within(pieces[i], x)
  }

  lemma {:induction false} OrdinaryCovers(c: Cursor, own: seq<Sample>, target: real, pieces: seq<Piece>,
                                          x: real, k: nat)
    requires Chosen(c, own, own, target) && |own| >= 2 && |pieces| == |own| && k < |own|
    requires forall i :: 0 <= i < |own| ==>
               pieces[i] == PieceAt([c.carry] + own, i, c.stateTime, target, false)
    requires c.stateTime < x <= target && (k > 0 ==> own[k - 1].stamp < x)
    ensures Covered(pieces, x)
    decreases |own| - k
  {
    if k == |own| - 1 || x <= own[k].stamp {
      assert Within(pieces[k], x);
    } else {
      OrdinaryCovers(c, own, target, pieces, x, k + 1);
    }
  }
}
