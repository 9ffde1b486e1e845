// What the report of one extraction says: when there is an interval, why there is none, and what
// the median step and the sum of squares of its report are.
module IntervalReport {
  import opened ImuIntervals

  // ---------- when an interval is handed out ----------

  predicate Enclosed(h: seq<ImuSample>, start: real, end: real) {
    h != [] && h[0].stamp <= start && end <= h[|h| - 1].stamp
  }

  // Two neighbours whose chord meets the open interval lie too far apart.
  ghost predicate TooFar(h: seq<ImuSample>, start: real, end: real, gap: real, i: nat) {
    i + 1 < |h| && start < h[i + 1].stamp && h[i].stamp < end && gap < h[i + 1].stamp - h[i].stamp
  }

  // A pair between the two ends of the bracket is a pair whose chord meets the open interval.
  lemma GapsAreMet(h: seq<ImuSample>, start: real, end: real, gap: real, l: nat, r: nat)
    requires Increasing(h) && start < end && l < r < |h|
    requires l == LastAtMost(h, start) && r == FirstAtLeast(h, end)
    ensures GapsFit(h, l, r, gap) <==> forall i: nat :: !TooFar(h, start, end, gap, i)
  {
    LastAtMostIs(h, start);
    FirstAtLeastIs(h, end);
    forall i: nat | l <= i < r
      ensures GapFits(h, i, gap) <==> !TooFar(h, start, end, gap, i)
    {
      if i > l { assert h[l + 1].stamp <= h[i].stamp; }
      if i + 1 < r { assert h[i + 1].stamp <= h[r - 1].stamp; }
    }
    forall i: nat | TooFar(h, start, end, gap, i)
      ensures l <= i < r
    {
    }
  }

  lemma EnclosedIsBracketed(h: seq<ImuSample>, start: real, end: real)
    requires Increasing(h) && start < end
    ensures var l, r := LastAtMost(h, start), FirstAtLeast(h, end);
            Enclosed(h, start, end) <==> l < |h| && r < |h| && l < r
  {
    LastAtMostIs(h, start);
    FirstAtLeastIs(h, end);
  }

  // Main result: an interval is handed out exactly when it has a positive length, the gap limit is
  // positive, the samples enclose it, and no two neighbours around it lie too far apart. Otherwise the
  // reason names the first of these that is missing.
  lemma ReasonMeans(h: seq<ImuSample>, start: real, end: real, gap: real)
    requires Increasing(h)
    ensures var reason := Extracted(h, start, end, gap).reason;
            var apart := exists i: nat :: TooFar(h, start, end, gap, i);
            && (reason == Valid <==> start < end && gap > 0.0 && Enclosed(h, start, end) && !apart)
            && (reason == InvalidInterval <==> end <= start)
            && (reason == InsufficientImu <==> start < end && (gap <= 0.0 || |h| < 2))
            && (reason == NotBracketed <==> start < end && gap > 0.0 && |h| >= 2 && !Enclosed(h, start, end))
            && (reason == GapTooLarge <==> start < end && gap > 0.0 && Enclosed(h, start, end) && apart)
  {
    if start < end && gap > 0.0 && |h| >= 2 {
      var l, r := LastAtMost(h, start), FirstAtLeast(h, end);
      EnclosedIsBracketed(h, start, end);
      if Enclosed(h, start, end) {
        GapsAreMet(h, start, end, gap, l, r);
        if GapsFit(h, l, r, gap) {
          LastAtMostIs(h, start);
          FirstAtLeastIs(h, end);
          CutoutIsValid(h, l, r, start, end, gap, Owned(h, start, end));
        }
      }
    }
  }

  // Without an interval the report gives the two times and nothing else.
  lemma RefusalIsEmpty(h: seq<ImuSample>, start: real, end: real, gap: real)
    requires Increasing(h)
    ensures var e := Extracted(h, start, end, gap);
            && e.start == start && e.end == end
            && (e.reason != Valid ==>
                  e.segments == [] && e.owned == 0 && e.sumDtSquared == 0.0 && e.medianDt == 0.0)
  {
    LateReasonsAreDead(h, start, end, gap);
  }

  // ---------- runs ----------

  // A sample is kept exactly when its stamp is positive and later than that of every one kept before,
  // pruned ones included.
  lemma KeptIff(t0: real, ops: seq<Op>, s: ImuSample, gap: real)
    ensures var h := Run(t0, ops, gap).history;
            Run(t0, ops + [Add(s)], gap).history ==
            if s.stamp > 0.0 && forall k :: 0 <= k < |h| ==> h[k].stamp < s.stamp then h + [s] else h
  {
    RunGoesOn(t0, ops, Add(s), gap);
    RunTakesFine(t0, ops, gap);
    LastIsLatest(Run(t0, ops, gap), t0, s);
  }

  lemma RunGoesOn(t0: real, ops: seq<Op>, op: Op, gap: real)
    ensures Run(t0, ops + [op], gap) == Do(Run(t0, ops, gap), op, gap)
  {
    assert (ops + [op])[..|ops|] == ops;
  }

  lemma LastIsLatest(st: Stream, t0: real, s: ImuSample)
    requires BufferOk(st, t0)
    ensures Accepts(st.samples, s) <==>
            s.stamp > 0.0 && forall k :: 0 <= k < |st.history| ==> st.history[k].stamp < s.stamp
  {
    if st.history != [] {
      assert st.samples[|st.samples| - 1] == st.history[|st.history| - 1];
    }
  }

  // The pruned buffer encloses and spaces an interval after its first sample like the whole history.
  lemma SuffixEncloses(h: seq<ImuSample>, k: nat, start: real, end: real, gap: real)
    requires Increasing(h) && k < |h| && h[k].stamp <= start
    ensures Enclosed(h, start, end) <==> Enclosed(h[k..], start, end)
    ensures (exists i: nat :: TooFar(h, start, end, gap, i)) <==> exists i: nat :: TooFar(h[k..], start, end, gap, i)
  {
    var b := h[k..];
    if i: nat :| TooFar(h, start, end, gap, i) {
      assert i >= k;
      assert TooFar(b, start, end, gap, i - k);
    }
    if i: nat :| TooFar(b, start, end, gap, i) { assert TooFar(h, start, end, gap, i + k); }
  }

  ghost predicate CanTake(h: seq<ImuSample>, start: real, end: real, gap: real) {
    start < end && gap > 0.0 && Enclosed(h, start, end) && !exists i: nat :: TooFar(h, start, end, gap, i)
  }

  // Main result: after any run the next node gets an interval exactly when the whole history, pruned
  // samples included, encloses it and spaces it within the limit.
  lemma TakeSucceedsIff(t0: real, ops: seq<Op>, end: real, gap: real)
    ensures var st, n := Run(t0, ops, gap), Run(t0, ops + [Take(end)], gap);
            var success := CanTake(st.history, st.t, end, gap);
            && n.history == st.history
            && (if success then |n.taken| == |st.taken| + 1 && n.taken[..|st.taken|] == st.taken && n.t == end &&
                                n.taken[|st.taken|].start == st.t && n.taken[|st.taken|].end == end
                else n.taken == st.taken && n.t == st.t)
  {
    var st := Run(t0, ops, gap);
    RunGoesOn(t0, ops, Take(end), gap);
    RunTakesFine(t0, ops, gap);
    BufferCanTake(st, t0, end, gap);
    ReasonMeans(st.samples, st.t, end, gap);
    RefusalIsEmpty(st.samples, st.t, end, gap);
    TakeDoes(st, end, gap);
  }

  lemma BufferCanTake(st: Stream, t0: real, end: real, gap: real)
    requires BufferOk(st, t0)
    ensures CanTake(st.samples, st.t, end, gap) <==> CanTake(st.history, st.t, end, gap)
  {
    if st.taken != [] { SuffixEncloses(st.history, |st.history| - |st.samples|, st.t, end, gap); }
  }

  lemma TakeDoes(st: Stream, end: real, gap: real)
    requires Increasing(st.samples)
    ensures var e, n := Extracted(st.samples, st.t, end, gap), Do(st, Take(end), gap);
            && n.history == st.history
            && (if e.reason == Valid then n.t == end && n.taken == st.taken + [e]
                else n.taken == st.taken && n.t == st.t)
  {
  }

  // ---------- the median step ----------

  // How many of the values are not above x, and how many not below it.
  function AtMost(s: seq<real>, x: real): nat {
    if s == [] then 0 else (if s[0] <= x then 1 else 0) + AtMost(s[1..], x)
  }

  function AtLeast(s: seq<real>, x: real): nat {
    if s == [] then 0 else (if s[0] >= x then 1 else 0) + AtLeast(s[1..], x)
  }

  lemma {:induction false} CountsJoin(a: seq<real>, b: seq<real>, x: real)
    ensures AtMost(a + b, x) == AtMost(a, x) + AtMost(b, x)
    ensures AtLeast(a + b, x) == AtLeast(a, x) + AtLeast(b, x)
  {
    if a == [] {
      assert a + b == b;
    } else {
      assert (a + b)[1..] == a[1..] + b;
      CountsJoin(a[1..], b, x);
    }
  }

  lemma {:induction false} CountsOfPlaced(s: seq<real>, v: real, x: real)
    ensures AtMost(Placed(s, v), x) == AtMost(s, x) + AtMost([v], x)
    ensures AtLeast(Placed(s, v), x) == AtLeast(s, x) + AtLeast([v], x)
  {
    if s == [] || v <= s[0] {
      CountsJoin([v], s, x);
    } else {
      CountsOfPlaced(s[1..], v, x);
    }
  }

  lemma {:induction false} CountsOfSorted(s: seq<real>, x: real)
    ensures AtMost(Ascending(s), x) == AtMost(s, x)
    ensures AtLeast(Ascending(s), x) == AtLeast(s, x)
  {
    if s != [] {
      var init, v := s[..|s| - 1], s[|s| - 1];
      CountsOfSorted(init, x);
      CountsOfPlaced(Ascending(init), v, x);
      CountsJoin(init, [v], x);
      assert s == init + [v];
    }
  }

  lemma {:induction false} AllAtMost(s: seq<real>, x: real)
    requires forall k :: 0 <= k < |s| ==> s[k] <= x
    ensures AtMost(s, x) == |s|
  {
    if s != [] { AllAtMost(s[1..], x); }
  }

  lemma {:induction false} AllAtLeast(s: seq<real>, x: real)
    requires forall k :: 0 <= k < |s| ==> s[k] >= x
    ensures AtLeast(s, x) == |s|
  {
    if s != [] { AllAtLeast(s[1..], x); }
  }

  lemma CutCounts(a: seq<real>, k: nat, x: real)
    requires k <= |a|
    ensures AtMost(a, x) >= AtMost(a[..k], x) && AtLeast(a, x) >= AtLeast(a[k..], x)
  {
    CountsJoin(a[..k], a[k..], x);
    assert a == a[..k] + a[k..];
  }

  // In an ordered sequence the place of a value bounds both counts.
  lemma PlaceCounts(a: seq<real>, k: nat, x: real)
    requires Rising(a) && k < |a| && x == a[k]
    ensures AtMost(a, x) >= k + 1 && AtLeast(a, x) >= |a| - k
  {
    CutCounts(a, k + 1, x);
    CutCounts(a, k, x);
    AllAtMost(a[..k + 1], x);
    AllAtLeast(a[k..], x);
  }

  // The value is one of s, and k of them come before it in order.
  predicate Ranks(s: seq<real>, x: real, k: nat) {
    x in s && AtMost(s, x) > k && AtLeast(s, x) + k >= |s|
  }

  lemma SortedRanks(s: seq<real>, a: seq<real>, k: nat)
    requires a == Ascending(s) && k < |s|
    ensures Ranks(s, a[k], k)
  {
    AscendingSorts(s);
    PlaceCounts(a, k, a[k]);
    CountsOfSorted(s, a[k]);
    assert a[k] in multiset(a);
  }

  // At least half of the values lie on each side of lo and of hi, and more than half of them are not
  // below lo and not above hi.
  predicate Halves(s: seq<real>, lo: real, hi: real) {
    && lo in s && hi in s && lo <= hi
    && 2 * AtMost(s, lo) >= |s| && 2 * AtLeast(s, lo) > |s|
    && 2 * AtMost(s, hi) > |s| && 2 * AtLeast(s, hi) >= |s|
  }

  // The ordered values, without saying how they were put in order.
  lemma OrderedRanks(s: seq<real>) returns (a: seq<real>)
    ensures |a| == |s| && a == Ascending(s) && Rising(a)
    ensures forall k: nat :: k < |s| ==> Ranks(s, a[k], k)
  {
    a := Ascending(s);
    AscendingSorts(s);
    forall k: nat | k < |s|
      ensures Ranks(s, a[k], k)
    {
      SortedRanks(s, a, k);
    }
  }

  lemma MiddlesHalve(s: seq<real>, a: seq<real>, i: nat, j: nat)
    requires |a| == |s| && Rising(a) && i <= j <= i + 1 && i + j == |s| - 1
    requires forall k: nat :: k < |s| ==> Ranks(s, a[k], k)
    ensures Halves(s, a[i], a[j])
  {
    RanksHalve(s, a[i], a[j], i, j);
  }

  lemma RanksHalve(s: seq<real>, lo: real, hi: real, i: nat, j: nat)
    requires Ranks(s, lo, i) && Ranks(s, hi, j) && lo <= hi
    requires i <= j <= i + 1 && i + j == |s| - 1
    ensures Halves(s, lo, hi)
  {
  }

  lemma MedianIs(s: seq<real>, a: seq<real>, i: nat, j: nat)
    requires s != [] && a == Ascending(s) && i == (|s| - 1) / 2 && j == |s| / 2
    ensures Median(s) == 0.5 * (a[i] + a[j])
  {
    if |s| % 2 == 1 {
      assert i == j;
    } else {
      assert i == j - 1;
    }
  }

  lemma MedianHalves(s: seq<real>) returns (lo: real, hi: real)
    requires s != []
    ensures Halves(s, lo, hi) && Median(s) == 0.5 * (lo + hi)
    ensures |s| % 2 == 1 ==> lo == hi
  {
    var i, j := (|s| - 1) / 2, |s| / 2;
    var a := OrderedRanks(s);
    MedianIs(s, a, i, j);
    MiddlesHalve(s, a, i, j);
    lo, hi := a[i], a[j];
  }

  // The sum of squares is additive, and that of one segment is its squared duration.
  lemma {:induction false} SquaresAdd(a: seq<Segment>, b: seq<Segment>, g: Segment)
    ensures SumSquares([g]) == g.dt * g.dt
    ensures SumSquares(a + b) == SumSquares(a) + SumSquares(b)
  {
    assert [g][..0] == [];
    if b == [] {
      assert a + b == a;
    } else {
      assert (a + b)[..|a + b| - 1] == a + b[..|b| - 1];
      SquaresAdd(a, b[..|b| - 1], g);
    }
  }

  // Main result: the median step of an interval is the middle duration, or the mean of the two
  // middle ones.
  lemma ReportedMedian(h: seq<ImuSample>, start: real, end: real, gap: real) returns (lo: real, hi: real)
    requires Increasing(h) && Extracted(h, start, end, gap).reason == Valid
    ensures var e := Extracted(h, start, end, gap);
            && Halves(Durations(e.segments), lo, hi)
            && e.medianDt == 0.5 * (lo + hi) && (|e.segments| % 2 == 1 ==> lo == hi)
  {
    lo, hi := MedianHalves(Durations(Extracted(h, start, end, gap).segments));
  }
}
