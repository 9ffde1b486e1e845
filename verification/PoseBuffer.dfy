// The camera logger's pose buffers: sorted insertion, pruning to a time window, and the two
// queries made of them.
module PoseBuffer {
  import opened Outcomes

  type Placement(==, !new)

  datatype Pose = Pose(stamp: int, value: Placement)

  predicate Sorted(s: seq<Pose>) {
    forall i, j :: 0 <= i < j < |s| ==> s[i].stamp < s[j].stamp
  }

  // ---------- insertion, pruning and queries ----------

  // The number of leading poses older than the stamp.
  function LowerBound(s: seq<Pose>, stamp: int): (n: nat)
    ensures n <= |s|
  {
    if s == [] || s[0].stamp >= stamp then 0 else 1 + LowerBound(s[1..], stamp)
  }

  function Inserted(s: seq<Pose>, p: Pose): seq<Pose> {
    var i := LowerBound(s, p.stamp);
    if i < |s| && s[i].stamp == p.stamp then s[i := p] else s[..i] + [p] + s[i..]
  }

  function Popped(s: seq<Pose>, cutoff: int): seq<Pose> {
    if |s| > 2 && s[1].stamp < cutoff then Popped(s[1..], cutoff) else s
  }

  function Cutoff(s: seq<Pose>, window: nat): int
    requires s != []
  {
    s[|s| - 1].stamp - window
  }

  function Pruned(s: seq<Pose>, window: nat): seq<Pose> {
    if |s| < 3 then s else Popped(s, Cutoff(s, window))
  }

  function Bracket(s: seq<Pose>, stamp: int): Option<(Pose, Pose)> {
    var i := LowerBound(s, stamp);
    if i == |s| then None
    else if s[i].stamp == stamp then Some((s[i], s[i]))
    else if i == 0 then None
    else Some((s[i - 1], s[i]))
  }

  // The newest pose not after the stamp.
  function Causal(s: seq<Pose>, stamp: int): Option<Pose> {
    var i := LowerBound(s, stamp + 1);
    if i == 0 then None else Some(s[i - 1])
  }

  // ---------- the same, step by step ----------

  // Binary search in a sorted deque.
  method FindLowerBound(s: seq<Pose>, stamp: int) returns (n: nat)
    requires Sorted(s)
    ensures n == LowerBound(s, stamp)
  {
    var lo, hi := 0, |s|;
    while lo < hi
      invariant 0 <= lo <= hi <= |s|
      invariant lo > 0 ==> s[lo - 1].stamp < stamp
      invariant hi < |s| ==> s[hi].stamp >= stamp
    {
      var mid := (lo + hi) / 2;
      if s[mid].stamp < stamp { lo := mid + 1; } else { hi := mid; }
    }
    LowerBoundIs(s, stamp, lo);
    n := lo;
  }

  method InsertOrReplace(s: seq<Pose>, p: Pose) returns (r: seq<Pose>)
    requires Sorted(s)
    ensures r == Inserted(s, p) && Sorted(r)
  {
    var i := FindLowerBound(s, p.stamp);
    InsertedSorted(s, p);
    if i < |s| && s[i].stamp == p.stamp { r := s[i := p]; } else { r := s[..i] + [p] + s[i..]; }
  }

  method PrunePoseBuffer(s: seq<Pose>, window: nat) returns (r: seq<Pose>)
    requires Sorted(s)
    ensures r == Pruned(s, window) && Sorted(r)
  {
    if |s| < 3 { return s; }
    var cutoff := s[|s| - 1].stamp - window;
    r := s;
    while |r| > 2 && r[1].stamp < cutoff
      invariant Sorted(r) && Popped(r, cutoff) == Popped(s, cutoff)
    {
      r := r[1..];
    }
  }

  method FindRawBracket(s: seq<Pose>, stamp: int) returns (b: Option<(Pose, Pose)>)
    requires Sorted(s)
    ensures b == Bracket(s, stamp)
  {
    var upper := FindLowerBound(s, stamp);
    if upper == |s| { return None; }
    if s[upper].stamp == stamp { return Some((s[upper], s[upper])); }
    if upper == 0 { return None; }
    return Some((s[upper - 1], s[upper]));
  }

  method LatestCausalPose(s: seq<Pose>, stamp: int) returns (p: Option<Pose>)
    requires Sorted(s)
    ensures p == Causal(s, stamp)
  {
    // upper_bound of an integer stamp is lower_bound of its successor
    var upper := FindLowerBound(s, stamp + 1);
    if upper == 0 { p := None; } else { p := Some(s[upper - 1]); }
  }

  // ---------- the search index ----------

  lemma {:induction false} LowerBoundIs(s: seq<Pose>, stamp: int, i: nat)
    requires Sorted(s) && i <= |s|
    requires i > 0 ==> s[i - 1].stamp < stamp
    requires i < |s| ==> s[i].stamp >= stamp
    ensures LowerBound(s, stamp) == i
  {
    if i > 0 {
      assert s[0].stamp <= s[i - 1].stamp;
      if i > 1 { assert s[1..][i - 2] == s[i - 1]; }
      LowerBoundIs(s[1..], stamp, i - 1);
    }
  }

  lemma {:induction false} LowerBoundSplits(s: seq<Pose>, stamp: int)
    requires Sorted(s)
    ensures forall i :: 0 <= i < LowerBound(s, stamp) ==> s[i].stamp < stamp
    ensures forall i :: LowerBound(s, stamp) <= i < |s| ==> s[i].stamp >= stamp
  {
    if s != [] && s[0].stamp < stamp {
      LowerBoundSplits(s[1..], stamp);
      forall i | 0 <= i < |s|
        ensures i < LowerBound(s, stamp) ==> s[i].stamp < stamp
        ensures LowerBound(s, stamp) <= i ==> s[i].stamp >= stamp
      {
        if i > 0 { assert s[i] == s[1..][i - 1]; }
      }
    }
  }

  lemma InsertedSorted(s: seq<Pose>, p: Pose)
    requires Sorted(s)
    ensures Sorted(Inserted(s, p)) && Inserted(s, p) != []
  {
    LowerBoundSplits(s, p.stamp);
  }

  // ---------- what the queries mean ----------

  // A bracket is one pose at the stamp, or the two neighbours around it.
  lemma BracketMeans(s: seq<Pose>, stamp: int)
    requires Sorted(s)
    ensures match Bracket(s, stamp)
            case Some((a, b)) =>
              && a in s && b in s
              && (if a == b then a.stamp == stamp else a.stamp < stamp < b.stamp)
              && (forall x :: x in s ==> x.stamp <= a.stamp || x.stamp >= b.stamp)
            case None =>
              && (forall x :: x in s ==> x.stamp != stamp)
              && ((forall x :: x in s ==> x.stamp < stamp) || (forall x :: x in s ==> x.stamp > stamp))
  {
    LowerBoundSplits(s, stamp);
    var i := LowerBound(s, stamp);
    if i < |s| && s[i].stamp == stamp {
      forall x | x in s ensures x.stamp <= s[i].stamp || x.stamp >= s[i].stamp {
      }
    }
  }

  lemma CausalMeans(s: seq<Pose>, stamp: int)
    requires Sorted(s)
    ensures match Causal(s, stamp)
            case Some(a) =>
              a in s && a.stamp <= stamp && (forall x :: x in s && x.stamp <= stamp ==> x.stamp <= a.stamp)
            case None => forall x :: x in s ==> x.stamp > stamp
  {
    LowerBoundSplits(s, stamp + 1);
  }

  // ---------- the unbounded history ----------

  function History(received: seq<Pose>): seq<Pose> {
    if received == [] then []
    else Inserted(History(received[..|received| - 1]), received[|received| - 1])
  }

  // The last pose received at each stamp.
  function Latest(received: seq<Pose>): map<int, Placement> {
    if received == [] then map[]
    else
      var p := received[|received| - 1];
      Latest(received[..|received| - 1])[p.stamp := p.value]
  }

  predicate Holds(s: seq<Pose>, m: map<int, Placement>) {
    && (forall i :: 0 <= i < |s| ==> s[i].stamp in m && m[s[i].stamp] == s[i].value)
    && (forall t :: t in m ==> Pose(t, m[t]) in s)
  }

  // The unbounded history holds exactly the last pose received at each stamp, sorted.
  lemma {:induction false} HistoryIsLatest(received: seq<Pose>)
    ensures Sorted(History(received)) && Holds(History(received), Latest(received))
  {
    if received != [] {
      var init, p := received[..|received| - 1], received[|received| - 1];
      HistoryIsLatest(init);
      InsertedSorted(History(init), p);
      InsertedHolds(History(init), Latest(init), p);
    }
  }

  lemma InsertedHolds(s: seq<Pose>, m: map<int, Placement>, p: Pose)
    requires Sorted(s) && Holds(s, m)
    ensures Holds(Inserted(s, p), m[p.stamp := p.value])
  {
    var r, n := Inserted(s, p), m[p.stamp := p.value];
    InsertedMembers(s, m, p);
    forall t | t in n ensures Pose(t, n[t]) in r {
      if t == p.stamp {
        assert r[LowerBound(s, t)] == p;
      } else {
        InsertedKeeps(s, p, Pose(t, m[t]));
      }
    }
  }

  lemma InsertedMembers(s: seq<Pose>, m: map<int, Placement>, p: Pose)
    requires Sorted(s) && Holds(s, m)
    ensures var r := Inserted(s, p);
            forall i :: 0 <= i < |r| ==> r[i].stamp in m[p.stamp := p.value]
                                         && m[p.stamp := p.value][r[i].stamp] == r[i].value
  {
    LowerBoundSplits(s, p.stamp);
  }

  lemma InsertedKeeps(s: seq<Pose>, p: Pose, x: Pose)
    requires x in s && x.stamp != p.stamp
    ensures x in Inserted(s, p)
  {
    var i := LowerBound(s, p.stamp);
    var k :| 0 <= k < |s| && s[k] == x;
    if k < i || |Inserted(s, p)| == |s| { assert Inserted(s, p)[k] == x; }
    else { assert Inserted(s, p)[k + 1] == x; }
  }

  // ---------- the pruned buffer is a window of the history ----------

  function Buffer(received: seq<Pose>, window: nat): seq<Pose> {
    if received == [] then []
    else Pruned(Inserted(Buffer(received[..|received| - 1], window), received[|received| - 1]), window)
  }

  // Everything from the cutoff on, and the one pose before it.
  function WindowStart(s: seq<Pose>, cutoff: int): (k: nat)
    ensures k <= |s| && (s != [] ==> k < |s|)
  {
    var n := LowerBound(s, cutoff);
    if n == 0 then 0 else n - 1
  }

  function Window(s: seq<Pose>, window: nat): seq<Pose> {
    if s == [] then [] else s[WindowStart(s, Cutoff(s, window))..]
  }

  lemma {:induction false} PoppedIsSuffix(s: seq<Pose>, cutoff: int)
    requires Sorted(s) && s != [] && cutoff <= s[|s| - 1].stamp
    ensures Popped(s, cutoff) == s[WindowStart(s, cutoff)..]
    decreases |s|
  {
    LowerBoundSplits(s, cutoff);
    if |s| > 2 && s[1].stamp < cutoff {
      PoppedIsSuffix(s[1..], cutoff);
      LowerBoundIs(s[1..], cutoff, LowerBound(s, cutoff) - 1);
    }
  }

  lemma PruneIsWindow(s: seq<Pose>, window: nat)
    requires Sorted(s)
    ensures Pruned(s, window) == Window(s, window)
  {
    if s != [] {
      PoppedIsSuffix(s, Cutoff(s, window));
    }
  }

  lemma SuffixBound(s: seq<Pose>, k: nat, stamp: int)
    requires Sorted(s) && k <= |s|
    ensures Sorted(s[k..])
    ensures LowerBound(s, stamp) >= k ==> LowerBound(s[k..], stamp) == LowerBound(s, stamp) - k
    ensures k < |s| && s[k].stamp < stamp ==> LowerBound(s, stamp) > k
    ensures k < |s| && s[k].stamp <= stamp ==> LowerBound(s, stamp) >= k
  {
    LowerBoundSplits(s, stamp);
    var n := LowerBound(s, stamp);
    if n >= k { LowerBoundIs(s[k..], stamp, n - k); }
    if k < |s| && n < k { assert s[n].stamp < s[k].stamp; }
  }

  // The window starts at the last pose below the cutoff.
  lemma WindowFrom(s: seq<Pose>, n: nat, window: nat)
    requires Sorted(s) && n < |s|
    requires s[n].stamp < Cutoff(s, window) && (n + 1 < |s| ==> s[n + 1].stamp >= Cutoff(s, window))
    ensures Window(s, window) == s[n..]
  {
    LowerBoundIs(s, Cutoff(s, window), n + 1);
  }

  // A sequence that ends in b has window b, when only the first pose of b is below the cutoff.
  lemma WindowIsTail(s: seq<Pose>, n: nat, b: seq<Pose>, window: nat)
    requires Sorted(s) && n < |s| && s[n..] == b
    requires b[0].stamp < Cutoff(b, window) && (|b| > 1 ==> b[1].stamp >= Cutoff(b, window))
    ensures Window(s, window) == b
  {
    assert b[0] == s[n] && b[|b| - 1] == s[|s| - 1];
    if |b| > 1 { assert b[1] == s[n + 1]; }
    WindowFrom(s, n, window);
  }

  lemma SuffixOfSuffix(s: seq<Pose>, k: nat, n: nat)
    requires Sorted(s) && k <= n <= |s|
    ensures Sorted(s[k..]) && s[k..][n - k..] == s[n..]
  {
  }

  // Where the window starts, when something at or after k is below the cutoff.
  lemma WindowTail(s: seq<Pose>, k: nat, window: nat) returns (tail: seq<Pose>, n: nat)
    requires Sorted(s) && k < |s| && s[k].stamp < Cutoff(s, window)
    ensures k <= n < |s| && tail == s[n..]
    ensures tail[0].stamp < Cutoff(tail, window) && (|tail| > 1 ==> tail[1].stamp >= Cutoff(tail, window))
  {
    LowerBoundSplits(s, Cutoff(s, window));
    n := LowerBound(s, Cutoff(s, window)) - 1;
    tail := s[n..];
  }

  // A suffix that still reaches below the cutoff has the same window.
  lemma WindowOfSuffix(s: seq<Pose>, k: nat, window: nat)
    requires Sorted(s) && k < |s|
    requires k == 0 || s[k].stamp < Cutoff(s, window)
    ensures Window(s[k..], window) == Window(s, window)
  {
    if k == 0 {
      assert s[0..] == s;
    } else {
      var tail, n := WindowTail(s, k, window);
      WindowIsTail(s, n, tail, window);
      SuffixOfSuffix(s, k, n);
      WindowIsTail(s[k..], n - k, tail, window);
    }
  }

  // A pose at or after the front of a suffix goes to the same place in it.
  lemma InsertInSuffix(s: seq<Pose>, k: nat, p: Pose)
    requires Sorted(s) && k < |s| && (k == 0 || s[k].stamp <= p.stamp)
    ensures Inserted(s[k..], p) == Inserted(s, p)[k..]
  {
    SuffixBound(s, k, p.stamp);
  }

  lemma CutoffGrows(s: seq<Pose>, p: Pose, window: nat)
    requires Sorted(s) && s != []
    ensures Cutoff(s, window) <= Cutoff(Inserted(s, p), window)
    ensures p.stamp <= s[|s| - 1].stamp ==> Cutoff(Inserted(s, p), window) == Cutoff(s, window)
  {
    LowerBoundSplits(s, p.stamp);
  }

  // An older pose leaves everything from k on where it was, counted from the end.
  lemma LateInsert(s: seq<Pose>, k: nat, p: Pose)
    requires Sorted(s) && k < |s| && p.stamp < s[k].stamp
    ensures |Inserted(s, p)| >= |s| && Inserted(s, p)[|Inserted(s, p)| - |s| + k..] == s[k..]
  {
    LowerBoundSplits(s, p.stamp);
  }

  // A pose older than the front of a pruned buffer falls out again at once.
  lemma LateFallsOut(b: seq<Pose>, p: Pose, window: nat)
    requires Sorted(b) && b != [] && p.stamp < b[0].stamp < Cutoff(b, window)
    requires |b| > 1 ==> b[1].stamp >= Cutoff(b, window)
    ensures Window(Inserted(b, p), window) == b
  {
    LowerBoundIs(b, p.stamp, 0);
    assert Inserted(b, p) == [p] + b;
    CutoffGrows(b, p, window);
    InsertedSorted(b, p);
    WindowFrom([p] + b, 1, window);
  }

  // In the whole history it does not move the window either.
  lemma LateStaysOut(s: seq<Pose>, k: nat, p: Pose, window: nat)
    requires Sorted(s) && k < |s| && p.stamp < s[k].stamp < Cutoff(s, window)
    requires k + 1 < |s| ==> s[k + 1].stamp >= Cutoff(s, window)
    ensures Window(Inserted(s, p), window) == s[k..]
  {
    LateInsert(s, k, p);
    InsertedSorted(s, p);
    WindowIsTail(Inserted(s, p), |Inserted(s, p)| - |s| + k, s[k..], window);
  }

  lemma WindowAbsorbs(s: seq<Pose>, p: Pose, window: nat)
    requires Sorted(s)
    ensures Window(Inserted(Window(s, window), p), window) == Window(Inserted(s, p), window)
  {
    if s != [] {
      var k := WindowStart(s, Cutoff(s, window));
      LowerBoundSplits(s, Cutoff(s, window));
      InsertedSorted(s, p);
      if k > 0 && p.stamp < s[k].stamp {
        assert Cutoff(s[k..], window) == Cutoff(s, window);
        LateFallsOut(s[k..], p, window);
        LateStaysOut(s, k, p, window);
      } else {
        InsertInSuffix(s, k, p);
        CutoffGrows(s, p, window);
        LowerBoundSplits(s, p.stamp);
        WindowOfSuffix(Inserted(s, p), k, window);
      }
    }
  }

  // Main result: whatever the order of the insertions, late and repeated stamps included, the
  // pruned buffer is the window of the unbounded history.
  lemma {:induction false} BufferIsWindow(received: seq<Pose>, window: nat)
    ensures Sorted(History(received)) && Sorted(Buffer(received, window))
    ensures Buffer(received, window) == Window(History(received), window)
  {
    if received != [] {
      var init, p := received[..|received| - 1], received[|received| - 1];
      BufferIsWindow(init, window);
      InsertedSorted(History(init), p);
      InsertedSorted(Buffer(init, window), p);
      PruneIsWindow(Inserted(Buffer(init, window), p), window);
      WindowAbsorbs(History(init), p, window);
    }
  }

  // At or after the front of a suffix both queries see what the whole sequence sees.
  lemma SuffixBracket(s: seq<Pose>, k: nat, stamp: int)
    requires Sorted(s) && k < |s| && s[k].stamp <= stamp
    ensures Bracket(s[k..], stamp) == Bracket(s, stamp)
  {
    SuffixBound(s, k, stamp);
    var i := LowerBound(s, stamp);
    var b := s[k..];
    assert LowerBound(b, stamp) == i - k;
    if i < |s| {
      assert b[i - k] == s[i];
      if i > k {
        assert b[i - k - 1] == s[i - 1];
      } else {
        LowerBoundSplits(s, stamp);
        assert s[i].stamp == stamp;
      }
    }
  }

  lemma SuffixCausal(s: seq<Pose>, k: nat, stamp: int)
    requires Sorted(s) && k < |s| && s[k].stamp <= stamp
    ensures Causal(s[k..], stamp) == Causal(s, stamp)
  {
    SuffixBound(s, k, stamp + 1);
    var i := LowerBound(s, stamp + 1);
    assert i > k && s[k..][i - k - 1] == s[i - 1];
  }

  lemma WindowAnswers(s: seq<Pose>, window: nat, stamp: int)
    requires Sorted(s) && s != []
    requires Window(s, window)[0].stamp <= stamp || Cutoff(s, window) <= stamp
    ensures Bracket(Window(s, window), stamp) == Bracket(s, stamp)
    ensures Causal(Window(s, window), stamp) == Causal(s, stamp)
  {
    var k := WindowStart(s, Cutoff(s, window));
    LowerBoundSplits(s, Cutoff(s, window));
    if k == 0 {
      assert s[0..] == s;
    } else {
      SuffixBracket(s, k, stamp);
      SuffixCausal(s, k, stamp);
    }
  }

  // Main result: from the oldest kept pose on, hence from the newest cutoff on, the pruned buffer
  // answers like the unbounded history.
  lemma PrunedAnswersLikeHistory(received: seq<Pose>, window: nat, stamp: int)
    requires History(received) != []
    requires var b := Buffer(received, window);
             (b != [] && b[0].stamp <= stamp) || Cutoff(History(received), window) <= stamp
    ensures Bracket(Buffer(received, window), stamp) == Bracket(History(received), stamp)
    ensures Causal(Buffer(received, window), stamp) == Causal(History(received), stamp)
  {
    BufferIsWindow(received, window);
    WindowAnswers(History(received), window, stamp);
  }
}