// Boards whose markers share one id: every assignment of detections to the four marker slots is
// tried, and a pose is admitted only when its assignment is unambiguous.
module BoardAssignment {
  import opened Outcomes

  type Estimate(==, !new)

  // What the board frontend returns for one assignment when PnP succeeds with a finite error.
  datatype Candidate = Candidate(rmse: real, poseValid: bool, covarianceValid: bool, estimate: Estimate)

  type Assignment = seq<nat>
  type Solver = Assignment -> Option<Candidate>

  // Slots 0 to 3, none used twice.
  predicate Injective(a: Assignment) {
    && (forall i :: 0 <= i < |a| ==> a[i] < 4)
    && (forall i, j :: 0 <= i < j < |a| ==> a[i] != a[j])
  }

  predicate Permutation(a: Assignment) { |a| == 4 && Injective(a) }

  function RankOf(a: nat, b: nat, c: nat, d: nat): int {
    a * 6 + (if a < b then b - 1 else b) * 2 + (if c > d then 1 else 0)
  }

  // The position of a permutation in lexicographic order.
  function Rank(p: Assignment): (r: nat)
    requires Permutation(p)
    ensures r < 24
  {
    Distinct(p);
    RankOf(p[0], p[1], p[2], p[3])
  }

  lemma Distinct(p: Assignment)
    requires Permutation(p)
    ensures p[0] != p[1] && p[0] != p[2] && p[0] != p[3] && p[1] != p[2] && p[1] != p[3] && p[2] != p[3]
    ensures p[0] < 4 && p[1] < 4 && p[2] < 4 && p[3] < 4
    ensures p == [p[0], p[1], p[2], p[3]]
  {
  }

  // No two permutations share a position.
  lemma RankIsInjective(p: Assignment, q: Assignment)
    requires Permutation(p) && Permutation(q) && Rank(p) == Rank(q)
    ensures p == q
  {
    Distinct(p);
    Distinct(q);
    assert p[0] == q[0];
    assert p[1] == q[1];
    assert p[2] == q[2] && p[3] == q[3];
  }

  predicate Before(p: Assignment, q: Assignment)
    requires |p| == |q|
  {
    p != [] && (p[0] < q[0] || (p[0] == q[0] && Before(p[1..], q[1..])))
  }

  // The lexicographic order of four slots, written out.
  predicate FourBefore(a: nat, b: nat, c: nat, d: nat, x: nat, y: nat, z: nat, w: nat) {
    a < x || (a == x && (b < y || (b == y && (c < z || (c == z && d < w)))))
  }

  lemma BeforeIsFour(p: Assignment, q: Assignment)
    requires |p| == |q| == 4
    ensures Before(p, q) <==> FourBefore(p[0], p[1], p[2], p[3], q[0], q[1], q[2], q[3])
  {
    assert Before(p[3..], q[3..]) <==> p[3] < q[3] by { assert p[3..][1..] == [] && q[3..][1..] == []; }
    assert Before(p[2..], q[2..]) <==> p[2] < q[2] || (p[2] == q[2] && Before(p[3..], q[3..])) by {
      assert p[2..][1..] == p[3..] && q[2..][1..] == q[3..];
    }
    assert Before(p[1..], q[1..]) <==> p[1] < q[1] || (p[1] == q[1] && Before(p[2..], q[2..])) by {
      assert p[1..][1..] == p[2..] && q[1..][1..] == q[2..];
    }
  }

  lemma RankOfIsLexicographic(a: nat, b: nat, c: nat, d: nat, x: nat, y: nat, z: nat, w: nat)
    requires Permutation([a, b, c, d]) && Permutation([x, y, z, w])
    ensures RankOf(a, b, c, d) < RankOf(x, y, z, w) <==> FourBefore(a, b, c, d, x, y, z, w)
  {
    Distinct([a, b, c, d]);
    Distinct([x, y, z, w]);
  }

  lemma RankIsLexicographic(p: Assignment, q: Assignment)
    requires Permutation(p) && Permutation(q)
    ensures Rank(p) < Rank(q) <==> Before(p, q)
  {
    BeforeIsFour(p, q);
    Distinct(p);
    Distinct(q);
    RankOfIsLexicographic(p[0], p[1], p[2], p[3], q[0], q[1], q[2], q[3]);
  }

  // The last ascent of the slots, or 0.
  method FindPivot(s: array<nat>) returns (i: nat)
    requires s.Length == 4
    ensures i <= 3
    ensures i > 0 ==> s[i - 1] <= s[i]
    ensures i < 3 ==> s[2] > s[3]
    ensures i < 2 ==> s[1] > s[2]
    ensures i < 1 ==> s[0] > s[1]
  {
    i := 3;
    while i > 0 && s[i - 1] > s[i]
      invariant i <= 3
      invariant i < 3 ==> s[2] > s[3]
      invariant i < 2 ==> s[1] > s[2]
      invariant i < 1 ==> s[0] > s[1]
    {
      i := i - 1;
    }
  }

  // The last slot after the pivot that holds more than it.
  method FindSuccessor(s: array<nat>, i: nat) returns (j: nat)
    requires s.Length == 4 && 0 < i <= 3 && s[i - 1] <= s[i]
    ensures i <= j <= 3 && s[i - 1] <= s[j]
    ensures j < 3 ==> s[3] < s[i - 1]
    ensures j < 2 ==> s[2] < s[i - 1]
  {
    j := 3;
    while s[j] < s[i - 1]
      invariant i <= j <= 3
      invariant j < 3 ==> s[3] < s[i - 1]
      invariant j < 2 ==> s[2] < s[i - 1]
      decreases j
    {
      j := j - 1;
    }
  }

  // The slots after the swap of pivot and successor and the reversal of what follows.
  function Moved(p: Assignment, i: nat, j: nat): Assignment
    requires |p| == 4 && 0 < i <= j <= 3
  {
    if i == 3 then [p[0], p[1], p[3], p[2]]
    else if i == 2 then if j == 2 then [p[0], p[2], p[3], p[1]] else [p[0], p[3], p[1], p[2]]
    else if j == 1 then [p[1], p[3], p[2], p[0]]
    else if j == 2 then [p[2], p[3], p[0], p[1]]
    else [p[3], p[0], p[2], p[1]]
  }

  lemma MovedRank(p: Assignment, i: nat, j: nat)
    requires Permutation(p) && 0 < i <= j <= 3
    requires p[i - 1] < p[j] && (j < 3 ==> p[3] < p[i - 1]) && (j < 2 ==> p[2] < p[i - 1])
    requires (i < 3 ==> p[2] > p[3]) && (i < 2 ==> p[1] > p[2])
    ensures Permutation(Moved(p, i, j)) && Rank(p) < 23 && Rank(Moved(p, i, j)) == Rank(p) + 1
  {
    Distinct(p);
  }

  // Swap the pivot with its successor and reverse what follows it.
  method SwapAndReverse(s: array<nat>, i: nat, j: nat)
    requires s.Length == 4 && 0 < i <= j <= 3
    modifies s
    ensures s[..] == Moved(old(s[..]), i, j)
  {
    s[i - 1], s[j] := s[j], s[i - 1];
    if i == 2 { s[2], s[3] := s[3], s[2]; }
    if i == 1 { s[1], s[3] := s[3], s[1]; }
  }

  // std::next_permutation on the four slots: the next permutation in lexicographic order.
  method NextPermutation(s: array<nat>) returns (more: bool)
    requires s.Length == 4 && Permutation(s[..])
    modifies s
    ensures Permutation(s[..])
    ensures more <==> old(Rank(s[..])) < 23
    ensures more ==> Rank(s[..]) == old(Rank(s[..])) + 1
  {
    ghost var p := s[..];
    Distinct(p);
    var i := FindPivot(s);
    if i == 0 {
      s[0], s[1], s[2], s[3] := s[3], s[2], s[1], s[0];
      assert s[..] == [p[3], p[2], p[1], p[0]];
      return false;
    }
    var j := FindSuccessor(s, i);
    MovedRank(p, i, j);
    SwapAndReverse(s, i, j);
    more := true;
  }

  // Every injective assignment is the beginning of a permutation.
  lemma {:induction false} Extends(a: Assignment) returns (p: Assignment)
    requires Injective(a) && |a| <= 4
    ensures Permutation(p) && p[..|a|] == a
    decreases 4 - |a|
  {
    if |a| == 4 {
      p := a;
    } else {
      var x := FreeSlot(a);
      p := Extends(a + [x]);
      assert p[..|a|] == p[..|a| + 1][..|a|];
    }
  }

  lemma FreeSlot(a: Assignment) returns (x: nat)
    requires |a| < 4
    ensures x < 4 && x !in a
  {
    if 0 !in a { x := 0; } else if 1 !in a { x := 1; } else if 2 !in a { x := 2; } else {
      x := 3;
      var i, j, k :| 0 <= i < |a| && a[i] == 0 && 0 <= j < |a| && a[j] == 1 && 0 <= k < |a| && a[k] == 2;
      forall l | 0 <= l < |a| ensures a[l] != 3 { assert l == i || l == j || l == k; }
    }
  }

  // ---------- the admission gate ----------

  predicate Assigns(v: nat, a: Assignment) { |a| == v && Injective(a) }

  predicate Feasible(pnp: Solver, v: nat, a: Assignment) { Assigns(v, a) && pnp(a).Some? }

  predicate Usable(pnp: Solver, v: nat, a: Assignment) {
    Feasible(pnp, v, a) && pnp(a).value.poseValid && pnp(a).value.covarianceValid
  }

  function MinGap(v: nat): real { if v == 3 then 3.0 else 1.0 }
  function MinRatio(v: nat): real { if v == 3 then 2.0 else 1.5 }

  // The error of a competing assignment is far enough above the chosen one.
  predicate Clear(v: nat, best: real, other: real) {
    var floor := if best > 0.000000001 then best else 0.000000001;
    other - best >= MinGap(v) && other / floor >= MinRatio(v)
  }

  // The assignment stands out: it is usable, it has a competitor, and every competitor is
  // worse by the required gap and ratio.
  ghost predicate StandsOut(pnp: Solver, v: nat, a: Assignment) {
    && v >= 3 && Usable(pnp, v, a)
    && (exists b :: b != a && Feasible(pnp, v, b))
    && (forall b :: b != a && Feasible(pnp, v, b) ==> Clear(v, pnp(a).value.rmse, pnp(b).value.rmse))
  }

  // One of the four slots for each of the v markers, none twice.
  predicate DistinctSlots(v: nat, a: Assignment) {
    && |a| == v && (forall i :: 0 <= i < v ==> a[i] == 0 || a[i] == 1 || a[i] == 2 || a[i] == 3)
    && forall i, j :: 0 <= i < j < v ==> a[i] != a[j]
  }

  // The admission margins in pixels: three markers need a gap of 3 and twice the error, all four a
  // gap of 1 and one and a half times the error.
  predicate Margin(v: nat, best: real, other: real) {
    var floor := if best > 0.000000001 then best else 0.000000001;
    if v == 3 then other >= best + 3.0 && other >= 2.0 * floor
    else other >= best + 1.0 && other >= 1.5 * floor
  }

  lemma ClearIsMargin(v: nat, best: real, other: real)
    ensures Clear(v, best, other) <==> Margin(v, best, other)
  {
    var floor := if best > 0.000000001 then best else 0.000000001;
    RatioTimes(other, floor, if v == 3 then 2.0 else 1.5);
  }

  lemma RatioTimes(x: real, d: real, r: real)
    requires d > 0.0
    ensures x / d >= r <==> x >= r * d
  {
    assert x / d * d == x;
    if x / d >= r { assert x / d * d >= r * d; } else { assert x / d * d < r * d; }
  }

  // What standing out takes, in numbers.
  lemma StandsOutMeans(pnp: Solver, v: nat, a: Assignment)
    ensures StandsOut(pnp, v, a) <==>
            && v >= 3 && DistinctSlots(v, a)
            && pnp(a).Some? && pnp(a).value.poseValid && pnp(a).value.covarianceValid
            && (exists b :: b != a && DistinctSlots(v, b) && pnp(b).Some?)
            && (forall b :: b != a && DistinctSlots(v, b) && pnp(b).Some? ==>
                  Margin(v, pnp(a).value.rmse, pnp(b).value.rmse))
  {
    forall b ensures Feasible(pnp, v, b) <==> DistinctSlots(v, b) && pnp(b).Some? {}
    if pnp(a).Some? {
      forall b | pnp(b).Some?
        ensures Clear(v, pnp(a).value.rmse, pnp(b).value.rmse) <==> Margin(v, pnp(a).value.rmse, pnp(b).value.rmse)
      {
        ClearIsMargin(v, pnp(a).value.rmse, pnp(b).value.rmse);
      }
    }
  }

  // Main result: an assignment that stands out is the only one, a strict minimum among all the
  // assignments PnP could solve.
  lemma StandsOutAlone(pnp: Solver, v: nat, a: Assignment, b: Assignment)
    requires StandsOut(pnp, v, a)
    requires b != a && Feasible(pnp, v, b)
    ensures pnp(a).value.rmse < pnp(b).value.rmse && !StandsOut(pnp, v, b)
  {
    assert Clear(v, pnp(a).value.rmse, pnp(b).value.rmse);
  }

  // The gate only looks at the smallest competing error.
  lemma ClearIsMonotone(v: nat, best: real, other: real, more: real)
    requires Clear(v, best, other) && other <= more
    ensures Clear(v, best, more)
  {
    var floor := if best > 0.000000001 then best else 0.000000001;
    Dividing(other, more, floor);
  }

  lemma Dividing(x: real, y: real, d: real)
    requires x <= y && d > 0.0
    ensures x / d <= y / d
  {
  }

  // ---------- the search ----------

  datatype Pick = Pick(slots: Assignment, candidate: Candidate)

  // The variables of the permutation loop.
  datatype Search = Search(tried: seq<Assignment>, errors: seq<(Assignment, real)>,
                           any: Option<Pick>, valid: Option<Pick>)

  function Better(best: Option<Pick>, p: Pick): Option<Pick> {
    if best.None? || p.candidate.rmse < best.value.candidate.rmse then Some(p) else best
  }

  function Try(pnp: Solver, s: Search, a: Assignment): Search {
    if a in s.tried then s
    else
      var t := s.(tried := s.tried + [a]);
      match pnp(a)
      case None => t
      case Some(c) =>
        var p := Pick(a, c);
        t.(errors := s.errors + [(a, c.rmse)], any := Better(s.any, p),
           valid := if c.poseValid && c.covarianceValid then Better(s.valid, p) else s.valid)
  }

  predicate Recorded(errors: seq<(Assignment, real)>, a: Assignment) {
    exists k :: 0 <= k < |errors| && errors[k].0 == a
  }

  // The best pick is one of the assignments tried, and no other has a smaller error.
  predicate IsBest(pnp: Solver, tried: seq<Assignment>, best: Option<Pick>, needValid: bool) {
    match best
    case None => forall a :: a in tried ==> !Counts(pnp, a, needValid)
    case Some(p) =>
      && p.slots in tried && Counts(pnp, p.slots, needValid) && pnp(p.slots).value == p.candidate
      && (forall a :: a in tried && Counts(pnp, a, needValid) ==> p.candidate.rmse <= pnp(a).value.rmse)
  }

  predicate Counts(pnp: Solver, a: Assignment, needValid: bool) {
    pnp(a).Some? && (needValid ==> pnp(a).value.poseValid && pnp(a).value.covarianceValid)
  }

  predicate SearchOk(pnp: Solver, s: Search) {
    && (forall i, j :: 0 <= i < j < |s.tried| ==> s.tried[i] != s.tried[j])
    && (forall k :: 0 <= k < |s.errors| ==>
          s.errors[k].0 in s.tried && pnp(s.errors[k].0).Some? && s.errors[k].1 == pnp(s.errors[k].0).value.rmse)
    && (forall a :: a in s.tried && pnp(a).Some? ==> Recorded(s.errors, a))
    && IsBest(pnp, s.tried, s.any, false) && IsBest(pnp, s.tried, s.valid, true)
  }

  lemma BestKeeps(pnp: Solver, tried: seq<Assignment>, best: Option<Pick>, needValid: bool, a: Assignment)
    requires IsBest(pnp, tried, best, needValid)
    ensures IsBest(pnp, tried + [a],
                   if Counts(pnp, a, needValid) then Better(best, Pick(a, pnp(a).value)) else best, needValid)
  {
  }

  lemma RecordedKeeps(errors: seq<(Assignment, real)>, e: (Assignment, real), a: Assignment)
    requires Recorded(errors, a) || e.0 == a
    ensures Recorded(errors + [e], a)
  {
    if e.0 == a {
      assert (errors + [e])[|errors|].0 == a;
    } else {
      var k :| 0 <= k < |errors| && errors[k].0 == a;
      assert (errors + [e])[k].0 == a;
    }
  }

  lemma TryKeeps(pnp: Solver, s: Search, a: Assignment)
    requires SearchOk(pnp, s)
    ensures SearchOk(pnp, Try(pnp, s, a))
  {
    if a !in s.tried {
      var t := Try(pnp, s, a);
      BestKeeps(pnp, s.tried, s.any, false, a);
      BestKeeps(pnp, s.tried, s.valid, true, a);
      forall b | b in t.tried && pnp(b).Some? ensures Recorded(t.errors, b) {
        if pnp(a).Some? { RecordedKeeps(s.errors, (a, pnp(a).value.rmse), b); }
      }
    }
  }

  // Exactly the beginnings of the permutations below this rank have been tried.
  ghost predicate TriedBelow(tried: seq<Assignment>, v: nat, rank: nat)
    requires v <= 4
  {
    forall a :: a in tried <==> Begins(a, v, rank)
  }

  ghost predicate Begins(a: Assignment, v: nat, rank: nat)
    requires v <= 4
  {
    exists p :: Permutation(p) && Rank(p) < rank && a == p[..v]
  }

  lemma BeginsNext(a: Assignment, v: nat, p: Assignment)
    requires v <= 4 && Permutation(p)
    ensures Begins(a, v, Rank(p) + 1) <==> Begins(a, v, Rank(p)) || a == p[..v]
  {
    if Begins(a, v, Rank(p) + 1) {
      var q :| Permutation(q) && Rank(q) < Rank(p) + 1 && a == q[..v];
      if Rank(q) == Rank(p) { RankIsInjective(p, q); }
    }
  }

  lemma BeginsAll(a: Assignment, v: nat)
    requires v <= 4
    ensures Begins(a, v, 24) <==> Assigns(v, a)
  {
    if Assigns(v, a) {
      var p := Extends(a);
      assert Rank(p) < 24;
    }
  }

  lemma TriedNext(pnp: Solver, s: Search, v: nat, p: Assignment)
    requires v <= 4 && Permutation(p) && TriedBelow(s.tried, v, Rank(p))
    ensures TriedBelow(Try(pnp, s, p[..v]).tried, v, Rank(p) + 1)
  {
    var t := Try(pnp, s, p[..v]);
    forall a ensures a in t.tried <==> Begins(a, v, Rank(p) + 1) {
      BeginsNext(a, v, p);
      assert a in t.tried <==> a in s.tried || a == p[..v];
    }
  }

  // The permutation loop: every injective assignment is tried, and tried once.
  method SearchAssignments(pnp: Solver, v: nat) returns (s: Search)
    requires v <= 4
    ensures SearchOk(pnp, s)
    ensures forall a :: a in s.tried <==> Assigns(v, a)
  {
    var slots := new nat[4](i => i);
    assert slots[..] == [0, 1, 2, 3];
    s := Search([], [], None, None);
    var more := true;
    ghost var rank := 0;
    while more
      invariant slots.Length == 4 && Permutation(slots[..]) && rank <= 24
      invariant more ==> Rank(slots[..]) == rank
      invariant !more ==> rank == 24
      invariant SearchOk(pnp, s) && TriedBelow(s.tried, v, rank)
      decreases 24 - rank
    {
      TryKeeps(pnp, s, slots[..v]);
      assert slots[..v] == slots[..][..v];
      TriedNext(pnp, s, v, slots[..]);
      s := Try(pnp, s, slots[..v]);
      rank := rank + 1;
      more := NextPermutation(slots);
    }
    forall a ensures a in s.tried <==> Assigns(v, a) { BeginsAll(a, v); }
  }

  // The smallest error of the assignments other than the selected one; None stands for infinity.
  method SecondError(errors: seq<(Assignment, real)>, selected: Assignment) returns (second: Option<real>)
    ensures second.None? ==> forall k :: 0 <= k < |errors| ==> errors[k].0 == selected
    ensures second.Some? ==> exists k :: 0 <= k < |errors| && errors[k].0 != selected && errors[k].1 == second.value
    ensures second.Some? ==> forall k :: 0 <= k < |errors| && errors[k].0 != selected ==> second.value <= errors[k].1
  {
    second := None;
    for i := 0 to |errors|
      invariant second.None? ==> forall k :: 0 <= k < i ==> errors[k].0 == selected
      invariant second.Some? ==> exists k :: 0 <= k < i && errors[k].0 != selected && errors[k].1 == second.value
      invariant second.Some? ==> forall k :: 0 <= k < i && errors[k].0 != selected ==> second.value <= errors[k].1
    {
      if errors[i].0 != selected && (second.None? || errors[i].1 < second.value) {
        second := Some(errors[i].1);
      }
    }
  }

  datatype Verdict = Accepted | MoreThanFour | PartialBoard | InvalidPose | Ambiguous

  datatype Association = Association(selected: Option<Pick>, verdict: Verdict)

  predicate Good(p: Pick) { p.candidate.poseValid && p.candidate.covarianceValid }

  // When the best pick of a complete search passes the gate, its assignment stands out; and
  // when some assignment stands out, it is the best pick and passes.
  lemma GateDecides(pnp: Solver, v: nat, s: Search, p: Pick, second: Option<real>)
    requires SearchOk(pnp, s) && v >= 3 && (forall a :: a in s.tried <==> Assigns(v, a))
    requires (if s.valid.Some? then s.valid else s.any) == Some(p)
    requires second.None? ==> forall k :: 0 <= k < |s.errors| ==> s.errors[k].0 == p.slots
    requires second.Some? ==>
               && (exists k :: 0 <= k < |s.errors| && s.errors[k].0 != p.slots && s.errors[k].1 == second.value)
               && (forall k :: 0 <= k < |s.errors| && s.errors[k].0 != p.slots ==> second.value <= s.errors[k].1)
    ensures Good(p) && second.Some? && Clear(v, p.candidate.rmse, second.value) <==> StandsOut(pnp, v, p.slots)
  {
    forall b | b != p.slots && Feasible(pnp, v, b)
      ensures second.Some? && second.value <= pnp(b).value.rmse
    {
      var k :| 0 <= k < |s.errors| && s.errors[k].0 == b;
    }
    if Good(p) && second.Some? && Clear(v, p.candidate.rmse, second.value) {
      var k :| 0 <= k < |s.errors| && s.errors[k].0 != p.slots && s.errors[k].1 == second.value;
      assert Feasible(pnp, v, s.errors[k].0);
      forall b | b != p.slots && Feasible(pnp, v, b) ensures Clear(v, p.candidate.rmse, pnp(b).value.rmse) {
        ClearIsMonotone(v, p.candidate.rmse, second.value, pnp(b).value.rmse);
      }
    }
    if StandsOut(pnp, v, p.slots) {
      var b :| b != p.slots && Feasible(pnp, v, b);
      var k :| 0 <= k < |s.errors| && s.errors[k].0 != p.slots && s.errors[k].1 == second.value;
      assert Feasible(pnp, v, s.errors[k].0);
    }
  }

  // An assignment that stands out is what the loop selects.
  lemma StandoutIsSelected(pnp: Solver, v: nat, s: Search, a: Assignment)
    requires SearchOk(pnp, s) && (forall b :: b in s.tried <==> Assigns(v, b)) && StandsOut(pnp, v, a)
    ensures s.valid.Some? && s.valid.value.slots == a
  {
    assert Counts(pnp, a, true);
    var p := s.valid.value;
    if p.slots != a { StandsOutAlone(pnp, v, a, p.slots); }
  }

  // The pick with the smallest error among the usable assignments, or else among the feasible ones.
  ghost predicate Selects(pnp: Solver, v: nat, selected: Option<Pick>) {
    match selected
    case None => forall a :: !Feasible(pnp, v, a)
    case Some(p) =>
      && Feasible(pnp, v, p.slots) && pnp(p.slots).value == p.candidate
      && (forall a :: Usable(pnp, v, a) ==> Good(p) && p.candidate.rmse <= pnp(a).value.rmse)
      && (!Good(p) ==> forall a :: Feasible(pnp, v, a) ==> p.candidate.rmse <= pnp(a).value.rmse)
  }

  lemma SearchSelects(pnp: Solver, v: nat, s: Search)
    requires SearchOk(pnp, s) && (forall a :: a in s.tried <==> Assigns(v, a))
    ensures var selected := if s.valid.Some? then s.valid else s.any;
            && Selects(pnp, v, selected)
            && (selected.Some? && Good(selected.value) <==> AnyUsable(pnp, v))
  {
    forall a | Usable(pnp, v, a) ensures Counts(pnp, a, true) {}
    forall a | Feasible(pnp, v, a) ensures Counts(pnp, a, false) {}
    if s.valid.Some? { assert Usable(pnp, v, s.valid.value.slots); }
    if s.any.Some? { assert Good(s.any.value) == Counts(pnp, s.any.value.slots, true); }
  }

  ghost predicate AnyUsable(pnp: Solver, v: nat) { exists a :: Usable(pnp, v, a) }

  ghost predicate AnyStandsOut(pnp: Solver, v: nat) { exists a :: StandsOut(pnp, v, a) }

  // Main result: a pose is accepted exactly when some assignment stands out, and then it is the
  // pose of that assignment.
  method Associate(pnp: Solver, v: nat) returns (r: Association)
    ensures r.verdict.MoreThanFour? <==> v > 4
    ensures v <= 4 ==> (r.verdict.Accepted? <==> AnyStandsOut(pnp, v))
    ensures r.verdict.Accepted? ==>
              r.selected.Some? && StandsOut(pnp, v, r.selected.value.slots)
              && pnp(r.selected.value.slots) == Some(r.selected.value.candidate)
    ensures r.verdict.PartialBoard? <==> v < 3
    ensures r.verdict.InvalidPose? <==> 3 <= v <= 4 && !AnyUsable(pnp, v)
    ensures v <= 4 ==> Selects(pnp, v, r.selected)
  {
    if v > 4 { return Association(None, MoreThanFour); }
    var s := SearchAssignments(pnp, v);
    var selected := if s.valid.Some? then s.valid else s.any;
    SearchSelects(pnp, v, s);
    var verdict := PartialBoard;
    if v >= 3 {
      verdict := InvalidPose;
      if selected.Some? && Good(selected.value) {
        var second := SecondError(s.errors, selected.value.slots);
        GateDecides(pnp, v, s, selected.value, second);
        verdict := if second.Some? && Clear(v, selected.value.candidate.rmse, second.value)
                   then Accepted else Ambiguous;
      }
    }
    forall a | StandsOut(pnp, v, a) ensures verdict.Accepted? {
      StandoutIsSelected(pnp, v, s, a);
      assert Usable(pnp, v, a);
    }
    r := Association(selected, verdict);
  }

  // ---------- detection order ----------

  // The four image corners of one detection, and what PnP makes of the corners in slot order.
  type Corners(==, !new)
  type Kernel = seq<(nat, Corners)> -> Option<Candidate>

  function Index(a: Assignment, slot: nat): (i: nat)
    requires slot in a
    ensures i < |a| && a[i] == slot
  {
    if a[0] == slot then 0 else 1 + Index(a[1..], slot)
  }

  // The detections sorted by the slot they are assigned to, as far as the slots below this one.
  function BySlot(a: Assignment, d: seq<Corners>, below: nat): seq<(nat, Corners)>
    requires |a| == |d|
  {
    if below == 0 then []
    else BySlot(a, d, below - 1) + if below - 1 in a then [(below - 1, d[Index(a, below - 1)])] else []
  }

  // The board frontend with these detections: it sorts them by slot and solves for the pose.
  function BoardSolver(kernel: Kernel, d: seq<Corners>): Solver {
    (a: Assignment) => if |a| == |d| then kernel(BySlot(a, d, 4)) else None
  }

  // The sort hands over every detection once, in ascending slots.
  lemma {:induction false} BySlotSorts(a: Assignment, d: seq<Corners>, below: nat, i: nat)
    requires Injective(a) && |a| == |d| && i < |a|
    ensures (a[i], d[i]) in BySlot(a, d, below) <==> a[i] < below
    ensures forall p :: p in BySlot(a, d, below) ==> p.0 < below && p.0 in a && p.1 == d[Index(a, p.0)]
    ensures forall k, l :: 0 <= k < l < |BySlot(a, d, below)| ==>
              BySlot(a, d, below)[k].0 < BySlot(a, d, below)[l].0
  {
    if below > 0 {
      BySlotSorts(a, d, below - 1, i);
      if a[i] == below - 1 { OneIndex(a, i); }
    }
  }

  lemma OneIndex(a: Assignment, i: nat)
    requires Injective(a) && i < |a|
    ensures Index(a, a[i]) == i
  {
    var k := Index(a, a[i]);
    assert a[k] == a[i];
  }

  // A list in another order: item i of the second list is item order[i] of the first.
  function Reordered<T>(a: seq<T>, order: Assignment): seq<T>
    requires |a| == |order| && forall i :: 0 <= i < |order| ==> order[i] < |a|
  {
    seq(|order|, i requires 0 <= i < |order| => a[order[i]])
  }

  // A permutation of the positions 0 to v - 1.
  predicate Order(order: Assignment, v: nat) {
    && |order| == v
    && (forall i :: 0 <= i < v ==> order[i] < v)
    && (forall i, j :: 0 <= i < j < v ==> order[i] != order[j])
    && (forall i: nat :: i < v ==> i in order)
  }

  // The permutation that restores the first list.
  function Back(order: Assignment): (back: Assignment)
    requires Order(order, |order|)
    ensures Order(back, |order|)
    ensures forall i :: 0 <= i < |order| ==> order[back[i]] == i && back[order[i]] == i
  {
    var back := seq(|order|, i requires 0 <= i < |order| => Index(order, i));
    BackInverts(order, back);
    back
  }

  lemma BackInverts(order: Assignment, back: Assignment)
    requires Order(order, |order|) && |back| == |order|
    requires forall i :: 0 <= i < |order| ==> back[i] == Index(order, i)
    ensures Order(back, |order|)
    ensures forall i :: 0 <= i < |order| ==> order[back[i]] == i && back[order[i]] == i
  {
    forall i | 0 <= i < |order| ensures back[order[i]] == i {
      assert order[Index(order, order[i])] == order[i];
    }
    forall i: nat | i < |order| ensures i in back { assert back[order[i]] == i; }
  }

  lemma ReorderedAssigns(a: Assignment, v: nat, order: Assignment)
    requires Assigns(v, a) && Order(order, v)
    ensures Assigns(v, Reordered(a, order))
  {
    var b := Reordered(a, order);
    forall i, j | 0 <= i < j < |b| ensures b[i] != b[j] {
      assert order[i] != order[j];
      if order[i] < order[j] { assert a[order[i]] != a[order[j]]; } else { assert a[order[j]] != a[order[i]]; }
    }
  }

  lemma ReorderedBack<T>(a: seq<T>, order: Assignment)
    requires |a| == |order| && Order(order, |order|)
    ensures Reordered(Reordered(a, order), Back(order)) == a
    ensures Reordered(Reordered(a, Back(order)), order) == a
  {
  }

  // Sorting by slot forgets the order of the detections.
  lemma {:induction false} SameBySlot(a: Assignment, d: seq<Corners>, order: Assignment, below: nat)
    requires Injective(a) && |a| == |d| && Order(order, |a|)
    ensures BySlot(Reordered(a, order), Reordered(d, order), below) == BySlot(a, d, below)
  {
    if below > 0 {
      SameBySlot(a, d, order, below - 1);
      SameDetection(a, d, order, below - 1);
    }
  }

  lemma SameDetection(a: Assignment, d: seq<Corners>, order: Assignment, slot: nat)
    requires Injective(a) && |a| == |d| && Order(order, |a|)
    ensures var b := Reordered(a, order);
            (slot in b <==> slot in a) &&
            (slot in a ==> Reordered(d, order)[Index(b, slot)] == d[Index(a, slot)])
  {
    var b := Reordered(a, order);
    if slot in a {
      var k := Back(order)[Index(a, slot)];
      assert b[k] == slot;
      OneIndex(a, order[Index(b, slot)]);
    }
  }

  // PnP answers the same when the detections and their slots are reordered alike.
  lemma SameAnswer(kernel: Kernel, d: seq<Corners>, order: Assignment, a: Assignment)
    requires Assigns(|d|, a) && Order(order, |d|)
    ensures BoardSolver(kernel, Reordered(d, order))(Reordered(a, order)) == BoardSolver(kernel, d)(a)
  {
    SameBySlot(a, d, order, 4);
  }

  lemma OrderKeeps(kernel: Kernel, d: seq<Corners>, order: Assignment, a: Assignment)
    requires Order(order, |d|) && StandsOut(BoardSolver(kernel, d), |d|, a)
    ensures StandsOut(BoardSolver(kernel, Reordered(d, order)), |d|, Reordered(a, order))
  {
    var v, pnp, other := |d|, BoardSolver(kernel, d), BoardSolver(kernel, Reordered(d, order));
    var b := Reordered(a, order);
    ReorderedAssigns(a, v, order);
    SameAnswer(kernel, d, order, a);
    var x: Assignment :| x != a && Feasible(pnp, v, x);
    ReorderedAssigns(x, v, order);
    SameAnswer(kernel, d, order, x);
    Unreorder(a, x, order);
    assert Reordered(x, order) != b && Feasible(other, v, Reordered(x, order));
    forall y | y != b && Feasible(other, v, y) ensures Clear(v, other(b).value.rmse, other(y).value.rmse) {
      var z := Reordered(y, Back(order));
      ReorderedAssigns(y, v, Back(order));
      ReorderedBack(y, order);
      SameAnswer(kernel, d, order, z);
      assert Feasible(pnp, v, z) && z != a;
    }
  }

  lemma Unreorder(a: Assignment, x: Assignment, order: Assignment)
    requires |a| == |x| == |order| && a != x && Order(order, |order|)
    ensures Reordered(a, order) != Reordered(x, order)
  {
    ReorderedBack(a, order);
    ReorderedBack(x, order);
  }

  // The admitted assignments of the reordered list are the reordered ones, with the same pose.
  lemma SameStandout(kernel: Kernel, d: seq<Corners>, order: Assignment, a: Assignment)
    requires Order(order, |d|) && Assigns(|d|, a)
    ensures StandsOut(BoardSolver(kernel, d), |d|, a) <==>
            StandsOut(BoardSolver(kernel, Reordered(d, order)), |d|, Reordered(a, order))
    ensures BoardSolver(kernel, Reordered(d, order))(Reordered(a, order)) == BoardSolver(kernel, d)(a)
  {
    SameAnswer(kernel, d, order, a);
    if StandsOut(BoardSolver(kernel, d), |d|, a) { OrderKeeps(kernel, d, order, a); }
    if StandsOut(BoardSolver(kernel, Reordered(d, order)), |d|, Reordered(a, order)) {
      OrderKeeps(kernel, Reordered(d, order), Back(order), Reordered(a, order));
      ReorderedBack(a, order);
      ReorderedBack(d, order);
    }
  }

  lemma SameUsable(kernel: Kernel, d: seq<Corners>, order: Assignment)
    requires Order(order, |d|) && AnyUsable(BoardSolver(kernel, d), |d|)
    ensures AnyUsable(BoardSolver(kernel, Reordered(d, order)), |d|)
  {
    var a :| Usable(BoardSolver(kernel, d), |d|, a);
    ReorderedAssigns(a, |d|, order);
    SameAnswer(kernel, d, order, a);
    assert Usable(BoardSolver(kernel, Reordered(d, order)), |d|, Reordered(a, order));
  }

  lemma StillStandsOut(kernel: Kernel, d: seq<Corners>, order: Assignment)
    requires Order(order, |d|) && AnyStandsOut(BoardSolver(kernel, d), |d|)
    ensures AnyStandsOut(BoardSolver(kernel, Reordered(d, order)), |d|)
  {
    var a :| StandsOut(BoardSolver(kernel, d), |d|, a);
    OrderKeeps(kernel, d, order, a);
  }

  // Main result: for any order of the same detections the verdict is the same, and an accepted
  // pose is the same.
  lemma OrderDoesNotMatter(kernel: Kernel, d: seq<Corners>, order: Assignment, a: Assignment, b: Assignment)
    requires Order(order, |d|)
    ensures AnyStandsOut(BoardSolver(kernel, d), |d|) <==>
            AnyStandsOut(BoardSolver(kernel, Reordered(d, order)), |d|)
    ensures AnyUsable(BoardSolver(kernel, d), |d|) <==> AnyUsable(BoardSolver(kernel, Reordered(d, order)), |d|)
    ensures StandsOut(BoardSolver(kernel, d), |d|, a) &&
            StandsOut(BoardSolver(kernel, Reordered(d, order)), |d|, b) ==>
              b == Reordered(a, order) &&
              BoardSolver(kernel, d)(a) == BoardSolver(kernel, Reordered(d, order))(b)
  {
    var pnp, other := BoardSolver(kernel, d), BoardSolver(kernel, Reordered(d, order));
    ReorderedBack(d, order);
    if AnyUsable(pnp, |d|) { SameUsable(kernel, d, order); }
    if AnyUsable(other, |d|) { SameUsable(kernel, Reordered(d, order), Back(order)); }
    if AnyStandsOut(pnp, |d|) { StillStandsOut(kernel, d, order); }
    if AnyStandsOut(other, |d|) { StillStandsOut(kernel, Reordered(d, order), Back(order)); }
    if StandsOut(pnp, |d|, a) && StandsOut(other, |d|, b) {
      SameStandout(kernel, d, order, a);
      ReorderedAssigns(a, |d|, order);
      if b != Reordered(a, order) { StandsOutAlone(other, |d|, b, Reordered(a, order)); }
    }
  }
}
