// What the contract of a scan lets through, over any sequence of calls.
module ContractRuns {
  import opened Outcomes
  import opened ImuCoverage
  import opened ScanContract

  // One call of the contract.
  datatype Note =
    | Scan(begin: real, end: real, points: nat, required: bool, stateTime: real)
    | Image(time: real)
    | Lio(time: real)
    | Insertion

  function Noting(c: Contract, n: Note): Outcome<Contract> {
    match n
    case Scan(begin, end, points, required, stateTime) => Begun(c, begin, end, points, required, stateTime)
    case Image(time) => ImageNoted(c, time)
    case Lio(time) => LioNoted(c, time)
    case Insertion => InsertNoted(c)
  }

  // All the calls one after the other, up to the first exception.
  function Kept(notes: seq<Note>): Outcome<Contract> {
    if notes == [] then Ok(IDLE)
    else
      match Kept(notes[..|notes| - 1])
      case Throw(e) => Throw(e)
      case Ok(c) => Noting(c, notes[|notes| - 1])
  }

  // ---------- what the calls have to look like ----------

  // Where the current scan began: one more than the place of the last Scan, or zero.
  function Opening(notes: seq<Note>): (p: nat)
    ensures p <= |notes|
    ensures p > 0 ==> notes[p - 1].Scan?
    ensures forall k :: p <= k < |notes| ==> !notes[k].Scan?
  {
    if notes == [] then 0
    else if notes[|notes| - 1].Scan? then |notes|
    else Opening(notes[..|notes| - 1])
  }

  predicate HasLio(notes: seq<Note>, p: nat) { exists k :: p <= k < |notes| && notes[k].Lio? }

  predicate HasInsertion(notes: seq<Note>, p: nat) { exists k :: p <= k < |notes| && notes[k] == Insertion }

  // Not more than 1e-6 s before the state at the opening or any event of the scan.
  predicate Forward(notes: seq<Note>, p: nat, t: real)
    requires 0 < p <= |notes| && notes[p - 1].Scan?
  {
    && t >= notes[p - 1].stateTime - 0.000001
    && forall k :: p <= k < |notes| && (notes[k].Image? || notes[k].Lio?) ==> t >= notes[k].time - 0.000001
  }

  // The call is in order after the earlier ones.
  predicate InOrder(before: seq<Note>, n: Note) {
    var p := Opening(before);
    match n
    case Scan(begin, end, points, _, _) =>
      begin < end && points > 0 && (p > 0 && before[p - 1].required ==> HasLio(before, p))
    case Image(t) => p > 0 && Forward(before, p, t)
    case Lio(t) =>
      p > 0 && Forward(before, p, t) && !HasLio(before, p) &&
      before[p - 1].end - 0.000001 <= t <= before[p - 1].end + 0.000001
    case Insertion => p > 0 && HasLio(before, p) && !HasInsertion(before, p)
  }

  // ---------- the contract keeps track of it ----------

  predicate LastTime(notes: seq<Note>, p: nat, t: real)
    requires 0 < p <= |notes| && notes[p - 1].Scan?
  {
    && t >= notes[p - 1].stateTime
    && (forall k :: p <= k < |notes| && (notes[k].Image? || notes[k].Lio?) ==> t >= notes[k].time)
    && (t == notes[p - 1].stateTime ||
        exists k :: p <= k < |notes| && (notes[k].Image? || notes[k].Lio?) && t == notes[k].time)
  }

  function Images(notes: seq<Note>, p: nat): nat {
    if |notes| <= p then 0 else Images(notes[..|notes| - 1], p) + if notes[|notes| - 1].Image? then 1 else 0
  }

  ghost predicate Tracks(c: Contract, notes: seq<Note>) {
    var p := Opening(notes);
    && (c.active <==> p > 0)
    && (c.lios == if HasLio(notes, p) then 1 else 0)
    && (c.inserts == if HasInsertion(notes, p) then 1 else 0)
    && c.monotonic
    && (p > 0 ==>
          && c.scanBegin == notes[p - 1].begin && c.scanEnd == notes[p - 1].end
          && c.required == notes[p - 1].required && c.images == Images(notes, p)
          && LastTime(notes, p, c.stateTime))
  }

  lemma OpeningGrows(notes: seq<Note>, n: Note)
    ensures Opening(notes + [n]) == if n.Scan? then |notes| + 1 else Opening(notes)
  {
    assert (notes + [n])[..|notes|] == notes;
  }

  lemma HasGrows(notes: seq<Note>, n: Note, p: nat)
    requires p <= |notes|
    ensures HasLio(notes + [n], p) <==> HasLio(notes, p) || n.Lio?
    ensures HasInsertion(notes + [n], p) <==> HasInsertion(notes, p) || n == Insertion
    ensures Images(notes + [n], p) == Images(notes, p) + if n.Image? then 1 else 0
  {
    var more := notes + [n];
    assert more[..|notes|] == notes && more[|notes|] == n;
    if HasLio(notes, p) {
      var k :| p <= k < |notes| && notes[k].Lio?;
      assert more[k].Lio?;
    }
    if HasInsertion(notes, p) {
      var k :| p <= k < |notes| && notes[k] == Insertion;
      assert more[k] == Insertion;
    }
  }

  lemma LastTimeGrows(notes: seq<Note>, n: Note, p: nat, t: real)
    requires 0 < p <= |notes| && notes[p - 1].Scan? && LastTime(notes, p, t) && !n.Scan?
    ensures LastTime(notes + [n], p, if (n.Image? || n.Lio?) && n.time > t then n.time else t)
  {
    var more := notes + [n];
    var late := if (n.Image? || n.Lio?) && n.time > t then n.time else t;
    if late != t {
      assert more[|notes|] == n;
    } else if t != notes[p - 1].stateTime {
      var k :| p <= k < |notes| && (notes[k].Image? || notes[k].Lio?) && t == notes[k].time;
      assert more[k] == notes[k];
    }
  }

  lemma ForwardIsLate(notes: seq<Note>, p: nat, last: real, t: real)
    requires 0 < p <= |notes| && notes[p - 1].Scan? && LastTime(notes, p, last)
    ensures Forward(notes, p, t) <==> t >= last - EPSILON
  {
  }

  // The contract takes a call exactly when it is in order.
  lemma NotingIff(c: Contract, notes: seq<Note>, n: Note)
    requires Tracks(c, notes)
    ensures Noting(c, n).Ok? <==> InOrder(notes, n)
  {
    var p := Opening(notes);
    if p > 0 && (n.Image? || n.Lio?) { ForwardIsLate(notes, p, c.stateTime, n.time); }
  }

  lemma NotingTracks(c: Contract, notes: seq<Note>, n: Note)
    requires Tracks(c, notes) && Noting(c, n).Ok?
    ensures Tracks(Noting(c, n).value, notes + [n])
  {
    OpeningGrows(notes, n);
    if n.Scan? {
      FreshScan(notes, n);
    } else {
      NotingGoesOn(c, n);
      ScanGoesOn(c, Noting(c, n).value, notes, n, Opening(notes));
    }
  }

  // What a call inside a scan changes.
  predicate GoesOn(c: Contract, d: Contract, n: Note) {
    && c.active && d == c.(images := d.images, lios := d.lios, inserts := d.inserts, stateTime := d.stateTime)
    && d.images == c.images + (if n.Image? then 1 else 0) && d.lios == (if n.Lio? then 1 else c.lios)
    && d.inserts == (if n == Insertion then 1 else c.inserts)
    && d.stateTime == if (n.Image? || n.Lio?) && n.time > c.stateTime then n.time else c.stateTime
  }

  lemma NotingGoesOn(c: Contract, n: Note)
    requires !n.Scan? && Noting(c, n).Ok?
    ensures GoesOn(c, Noting(c, n).value, n)
  {
  }

  lemma ScanGoesOn(c: Contract, d: Contract, notes: seq<Note>, n: Note, p: nat)
    requires Tracks(c, notes) && !n.Scan? && GoesOn(c, d, n) && p == Opening(notes)
    ensures Tracks(d, notes + [n])
  {
    OpeningGrows(notes, n);
    HasGrows(notes, n, p);
    LastTimeGrows(notes, n, p, c.stateTime);
  }

  lemma FreshScan(notes: seq<Note>, n: Note)
    requires n.Scan?
    ensures var more := notes + [n];
            && more[|notes|] == n && LastTime(more, |more|, n.stateTime)
            && !HasLio(more, |more|) && !HasInsertion(more, |more|) && Images(more, |more|) == 0
  {
  }

  // Main result: a sequence of calls goes through exactly when every call is in order after those
  // before it: a required scan had its one LIO transaction at the scan end before the next begins,
  // at most one insertion followed it, and no event lies more than 1e-6 s behind an earlier one.
  lemma {:induction false} KeptIffInOrder(notes: seq<Note>)
    ensures Kept(notes).Ok? <==> forall i :: 0 <= i < |notes| ==> InOrder(notes[..i], notes[i])
    ensures Kept(notes).Ok? ==> Tracks(Kept(notes).value, notes)
  {
    if notes != [] {
      var init, n := notes[..|notes| - 1], notes[|notes| - 1];
      KeptIffInOrder(init);
      assert init + [n] == notes;
      forall i | 0 <= i < |init|
        ensures InOrder(notes[..i], notes[i]) <==> InOrder(init[..i], init[i])
      {
        assert notes[..i] == init[..i];
      }
      if Kept(init).Ok? {
        NotingIff(Kept(init).value, init, n);
        if Noting(Kept(init).value, n).Ok? { NotingTracks(Kept(init).value, init, n); }
      }
    }
  }
}
