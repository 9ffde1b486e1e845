// The scheduler gets on: exactly when a pass hands over an event, and that finitely many passes
// dispatch every image of a scan and close it.
module SchedulerProgress {
  import opened Outcomes
  import opened ImuCoverage
  import opened ImuTransaction
  import opened ScanContract
  import opened LivoScheduler
  import opened LivoSchedule
  import E = EstimatorRuns

  // ---------- when a pass hands over an event ----------

  // A scan with at least two points is open or can be opened.
  predicate HasScan(m: Mapper) { m.scans != [] && (m.pushed || m.scans[0].points >= 2) }

  // Image k is the first one that is not older than the last event, and t is its event time.
  predicate IsNext(s: Settings, m: Mapper, k: nat, t: real) {
    k < |m.images| && t == m.images[k] + s.exposure >= m.lastUpdate - EPSILON &&
    forall i :: 0 <= i < k ==> m.images[i] + s.exposure < m.lastUpdate - EPSILON
  }

  // The look-ahead options are off, or enough later images are there.
  predicate LookAheadMet(s: Settings, m: Mapper, k: nat)
    requires k < |m.images|
  {
    s.lookahead ==>
      |m.images| - k >= s.minimumImages &&
      (s.lookaheadTime > 0.0 ==> m.images[|m.images| - 1] >= m.images[k] + s.lookaheadTime)
  }

  // The next image lies inside the scan, and everything it has to wait for is there.
  ghost predicate ImageIsDue(s: Settings, m: Mapper, t: real) {
    HasScan(m) && !NeedInit(m) && t < m.scans[0].end - EPSILON && m.newestImu >= t - EPSILON &&
    E.Ready(m.front, t) && exists k: nat :: IsNext(s, m, k, t) && LookAheadMet(s, m, k)
  }

  // No image is left inside the scan and none can come any more, and its samples are there.
  predicate EndIsDue(s: Settings, m: Mapper) {
    HasScan(m) && m.newestImu >= m.scans[0].end - EPSILON &&
    (!NeedInit(m) ==>
       E.Ready(m.front, m.scans[0].end) && m.newestImage + s.exposure >= m.scans[0].end - EPSILON &&
       forall i :: 0 <= i < |m.images| ==>
         m.images[i] + s.exposure < m.lastUpdate - EPSILON || m.images[i] + s.exposure >= m.scans[0].end - EPSILON)
  }

  // What preparing a pass leaves alone after the initialisation.
  lemma PreparedLeaves(s: Settings, m: Mapper)
    requires Shaped(m) && !NothingToOpen(m) && Prepared(s, m).Ok? && !NeedInit(m)
    requires 0.0 <= m.lastUpdate && 0.0 < m.front.process.stateTime
    ensures var (b, k) := Prepared(s, m).value;
            k == Stale(s, m.images, m.lastUpdate) <= |m.images| && b.images == m.images[k..] &&
            b.lastUpdate == m.lastUpdate && b.scans == m.scans && b.newestImage == m.newestImage &&
            b.newestImu == m.newestImu && b.pushed && !NeedInit(b) && b.front.buffer == m.front.buffer &&
            CursorOf(b.front.process) == CursorOf(m.front.process)
  {
    StaleFits(s, m.images, m.lastUpdate);
  }

  lemma CursorDecidesReady(f: E.Front, g: E.Front, t: real)
    requires f.buffer == g.buffer && CursorOf(f.process) == CursorOf(g.process)
    ensures E.Ready(f, t) <==> E.Ready(g, t)
  {
  }

  lemma DispatchReports(s: Settings, b: Mapper, d: Dispatch, v: Verdict)
    requires b.scans != [] && (d.Vio? ==> b.images != []) && Dispatched(s, b, d, v).Ok?
    ensures Dispatched(s, b, d, v).value.1 ==
            if NeedInit(b) || E.Ready(b.front, d.time) then Some(d) else None
  {
  }

  // The report of a pass in terms of the prepared machine.
  lemma PassReports(s: Settings, m: Mapper, h: History, v: Verdict) returns (b: Mapper)
    requires Core(s, m, h) && !NothingToOpen(m) && Spin(s, m, v).Ok?
    ensures Prepared(s, m).Ok? && b == Prepared(s, m).value.0 && NeedInit(b) == NeedInit(m) && b.scans == m.scans
    ensures Spin(s, m, v).value.1.event ==
            match Due(s, b)
            case None => None
            case Some(d) => if NeedInit(b) || E.Ready(b.front, d.time) then Some(d) else None
  {
    PrepareKeeps(s, m, h);
    b := Prepared(s, m).value.0;
    if Due(s, b).Some? { DispatchReports(s, b, Due(s, b).value, v); }
  }

  lemma NextIsFirst(s: Settings, m: Mapper, k: nat, t: real)
    requires IsNext(s, m, k, t)
    ensures k == Stale(s, m.images, m.lastUpdate)
  {
    StaleFits(s, m.images, m.lastUpdate);
  }

  // Exactly when a pass hands over an image.
  lemma PassReportsImageIff(s: Settings, m: Mapper, h: History, v: Verdict, t: real)
    requires Core(s, m, h) && Spin(s, m, v).Ok?
    ensures Spin(s, m, v).value.1.event == Some(Vio(t)) <==> ImageIsDue(s, m, t)
  {
    if !NothingToOpen(m) {
      var b := PassReports(s, m, h, v);
      if !NeedInit(m) {
        PreparedLeaves(s, m);
        CursorDecidesReady(m.front, b.front, t);
        DueImageIff(s, m, b, Stale(s, m.images, m.lastUpdate), t);
      }
    }
  }

  // The machine b is m with its k stale images dropped.
  lemma DueImageIff(s: Settings, m: Mapper, b: Mapper, k: nat, t: real)
    requires HasScan(m) && !NeedInit(m) && !NeedInit(b) && b.scans == m.scans && b.lastUpdate == m.lastUpdate
    requires k == Stale(s, m.images, m.lastUpdate) <= |m.images| && b.images == m.images[k..]
    requires b.newestImage == m.newestImage && b.newestImu == m.newestImu
    ensures Due(s, b) == Some(Vio(t)) <==>
            t < m.scans[0].end - EPSILON && m.newestImu >= t - EPSILON &&
            exists j: nat :: IsNext(s, m, j, t) && LookAheadMet(s, m, j)
  {
    StaleFits(s, m.images, m.lastUpdate);
    if j: nat :| IsNext(s, m, j, t) && LookAheadMet(s, m, j) { NextIsFirst(s, m, j, t); }
    if Due(s, b) == Some(Vio(t)) {
      assert IsNext(s, m, k, t) && LookAheadMet(s, m, k);
    }
  }

  // Exactly when a pass closes the front scan.
  lemma PassReportsEndIff(s: Settings, m: Mapper, h: History, v: Verdict)
    requires Core(s, m, h) && Spin(s, m, v).Ok?
    ensures m.scans != [] ==> (Spin(s, m, v).value.1.event == Some(Lio(m.scans[0].end)) <==> EndIsDue(s, m))
  {
    if !NothingToOpen(m) {
      var b := PassReports(s, m, h, v);
      if !NeedInit(m) {
        PreparedLeaves(s, m);
        CursorDecidesReady(m.front, b.front, m.scans[0].end);
        DueEndIff(s, m, h, b, Stale(s, m.images, m.lastUpdate));
      } else {
        PreparedBefore(s, m);
      }
    }
  }

  lemma PreparedBefore(s: Settings, m: Mapper)
    requires Shaped(m) && !NothingToOpen(m) && Prepared(s, m).Ok? && NeedInit(m)
    ensures Prepared(s, m).value.0.newestImu == m.newestImu && NeedInit(Prepared(s, m).value.0)
  {
  }

  lemma DueEndIff(s: Settings, m: Mapper, h: History, b: Mapper, k: nat)
    requires HasScan(m) && !NeedInit(m) && !NeedInit(b) && b.scans == m.scans && ImagesOk(m, h)
    requires k == Stale(s, m.images, m.lastUpdate) <= |m.images| && b.images == m.images[k..]
    requires b.newestImage == m.newestImage && b.newestImu == m.newestImu
    ensures Due(s, b) == Some(Lio(m.scans[0].end)) <==>
            m.newestImu >= m.scans[0].end - EPSILON && m.newestImage + s.exposure >= m.scans[0].end - EPSILON &&
            forall i :: 0 <= i < |m.images| ==>
              m.images[i] + s.exposure < m.lastUpdate - EPSILON || m.images[i] + s.exposure >= m.scans[0].end - EPSILON
  {
    StaleFits(s, m.images, m.lastUpdate);
    if k < |m.images| {
      forall i | k <= i < |m.images|
        ensures m.images[i] >= m.images[k]
      {
        ImagesRise(m, h, k, i);
      }
      assert b.images[0] == m.images[k];
    }
  }

  lemma ImagesRise(m: Mapper, h: History, i: nat, j: nat)
    requires ImagesOk(m, h) && i <= j < |m.images|
    ensures if i == j then m.images[i] == m.images[j] else m.images[i] + 0.02 <= m.images[j]
  {
    assert m.images[i] == h.received[|h.fates| + i] && m.images[j] == h.received[|h.fates| + j];
  }

  // ---------- finitely many passes close the scan ----------

  // The events that the waiting images inside a scan become.
  function InScan(s: Settings, images: seq<real>, lastUpdate: real, end: real): seq<Dispatch> {
    if images == [] || images[0] + s.exposure >= end - EPSILON then []
    else
      (if images[0] + s.exposure < lastUpdate - EPSILON then [] else [Vio(images[0] + s.exposure)]) +
      InScan(s, images[1..], lastUpdate, end)
  }

  lemma {:induction false} FirstInScan(s: Settings, images: seq<real>, lastUpdate: real, end: real)
    requires InScan(s, images, lastUpdate, end) != []
    ensures var k := Stale(s, images, lastUpdate);
            k < |images| && images[k] + s.exposure < end - EPSILON &&
            InScan(s, images, lastUpdate, end) ==
              [Vio(images[k] + s.exposure)] + InScan(s, images[k + 1..], lastUpdate, end)
  {
    if images[0] + s.exposure < lastUpdate - EPSILON {
      FirstInScan(s, images[1..], lastUpdate, end);
      var k := Stale(s, images[1..], lastUpdate);
      assert images[1..][k + 1..] == images[k + 1 + 1..];
    }
  }

  lemma {:induction false} SameInScan(s: Settings, images: seq<real>, a: real, b: real, end: real)
    requires forall i :: 0 <= i < |images| ==> images[i] + s.exposure >= a - EPSILON
    requires forall i :: 0 <= i < |images| ==> images[i] + s.exposure >= b - EPSILON
    ensures InScan(s, images, a, end) == InScan(s, images, b, end)
  {
    if images != [] { SameInScan(s, images[1..], a, b, end); }
  }

  lemma {:induction false} NoneInScan(s: Settings, images: seq<real>, lastUpdate: real, end: real, i: nat)
    requires InScan(s, images, lastUpdate, end) == [] && i < |images|
    requires forall j, k :: 0 <= j < k < |images| ==> images[j] <= images[k]
    ensures images[i] + s.exposure < lastUpdate - EPSILON || images[i] + s.exposure >= end - EPSILON
  {
    if i > 0 {
      if images[0] + s.exposure < end - EPSILON {
        NoneInScan(s, images[1..], lastUpdate, end, i - 1);
      } else {
        assert images[0] <= images[i];
      }
    }
  }

  // Everything a scan waits for has arrived: a later image, a later sample, and the look-ahead of
  // the images inside the scan.
  ghost predicate CanClose(s: Settings, m: Mapper) {
    HasScan(m) && !NeedInit(m) && m.newestImage + s.exposure >= m.scans[0].end - EPSILON &&
    m.front.buffer != [] && m.front.buffer[|m.front.buffer| - 1].stamp > m.scans[0].end &&
    forall k: nat :: k < |m.images| && m.images[k] + s.exposure < m.scans[0].end - EPSILON ==> LookAheadMet(s, m, k)
  }

  // A later sample makes every query ready.
  lemma LaterSampleIsEnough(f: E.Front, t: real)
    requires E.Sound(f) && t >= f.process.stateTime && f.buffer != [] && f.buffer[|f.buffer| - 1].stamp > t
    ensures E.Ready(f, t)
  {
    AcceptedScan(f.buffer, t);
  }

  lemma AcceptedScan(received: seq<Sample>, t: real)
    requires Accepted(received) && received != [] && received[|received| - 1].stamp > t
    ensures var n := FirstAfter(received, t);
            n < |received| && Accepted(received[..n + 1])
  {
    var n := FirstAfter(received, t);
    AcceptedPrefix(received, n + 1);
  }

  lemma {:induction false} ReleasedKeepsLast(received: seq<Sample>, committed: real)
    requires received != [] && received[|received| - 1].stamp > committed
    ensures var left := Released(received, committed);
            left != [] && left[|left| - 1] == received[|received| - 1]
    decreases |received|
  {
    if received[0].stamp <= committed { ReleasedKeepsLast(received[1..], committed); }
  }

  // What a dispatched event changes in the buffers.
  lemma DispatchedLeaves(s: Settings, b: Mapper, d: Dispatch, v: Verdict, n: Mapper)
    requires b.scans != [] && (d.Vio? ==> b.images != []) && !NeedInit(b)
    requires Dispatched(s, b, d, v) == Ok((n, Some(d)))
    ensures n.images == (if d.Vio? then b.images[1..] else b.images) && n.newestImage == b.newestImage
    ensures n.scans == (if d.Vio? then b.scans else b.scans[1..]) && n.pushed == (d.Vio? && b.pushed)
    ensures n.lastUpdate == d.time && !NeedInit(n) && n.newestImu == b.newestImu
    ensures n.front.buffer == b.front.buffer || n.front.buffer == Released(b.front.buffer, d.time)
  {
    if E.Step(s.motion, b.front, QueryOf(d, v)).Ok? {
      E.QueryEffect(s.motion, b.front, QueryOf(d, v));
    }
    DispatchShape(s, b, d, v);
  }

  // A pass that hands over an image or closes the scan, in terms of the machine before it.
  lemma PassLeaves(s: Settings, m: Mapper, h: History, v: Verdict, d: Dispatch)
    requires Core(s, m, h) && !NeedInit(m) && Spin(s, m, v).Ok? && Spin(s, m, v).value.1.event == Some(d)
    ensures m.scans != [] && Left(s, m, Spin(s, m, v).value.0, d)
  {
    var b := PassReports(s, m, h, v);
    PreparedLeaves(s, m);
    PassIsDispatch(s, m, h, v, b, d);
    DispatchedLeaves(s, b, d, v, Spin(s, m, v).value.0);
  }

  // What the machine n keeps of m after this event.
  predicate Left(s: Settings, m: Mapper, n: Mapper, d: Dispatch)
    requires m.scans != []
  {
    var k := Stale(s, m.images, m.lastUpdate);
    k <= |m.images| && (d.Vio? ==> k < |m.images|) && !NeedInit(n) &&
    n.images == m.images[if d.Vio? then k + 1 else k..] && n.newestImage == m.newestImage &&
    n.scans == (if d.Vio? then m.scans else m.scans[1..]) && n.pushed == d.Vio? && n.lastUpdate == d.time &&
    (n.front.buffer == m.front.buffer || n.front.buffer == Released(m.front.buffer, d.time))
  }

  lemma PassIsDispatch(s: Settings, m: Mapper, h: History, v: Verdict, b: Mapper, d: Dispatch)
    requires Core(s, m, h) && !NothingToOpen(m) && Spin(s, m, v).Ok? && Spin(s, m, v).value.1.event == Some(d)
    requires Prepared(s, m).Ok? && b == Prepared(s, m).value.0 && NeedInit(b) == NeedInit(m)
    ensures b.scans != [] && (d.Vio? ==> b.images != []) && Due(s, b) == Some(d)
    ensures Dispatched(s, b, d, v) == Ok((Spin(s, m, v).value.0, Some(d)))
  {
    RecordOfSpin(s, m, h, v, b, Prepared(s, m).value.1);
  }

  lemma NextImageIsAhead(s: Settings, m: Mapper, h: History, k: nat)
    requires Core(s, m, h) && Clean(s, m, h) && !NeedInit(m) && k < |m.images|
    requires m.images[k] + s.exposure >= m.lastUpdate - EPSILON
    ensures m.images[k] + s.exposure >= m.lastUpdate >= m.front.process.stateTime
    ensures E.Sound(m.front) && 0.0 <= m.lastUpdate
  {
    assert m.images[k] == h.received[|h.fates| + k];
    ImagesStayAhead(s, m, h, |h.fates| + k);
  }

  lemma SamplesReach(m: Mapper)
    requires EstimatorOk(m) && m.front.buffer != []
    ensures m.front.buffer[|m.front.buffer| - 1].stamp <= m.newestImu
  {
  }

  lemma DueFromParts(s: Settings, m: Mapper, k: nat, t: real)
    requires CanClose(s, m) && E.Sound(m.front) && IsNext(s, m, k, t)
    requires m.front.process.stateTime <= t < m.scans[0].end - EPSILON
    requires m.front.buffer[|m.front.buffer| - 1].stamp <= m.newestImu
    ensures ImageIsDue(s, m, t)
  {
    LaterSampleIsEnough(m.front, t);
    assert LookAheadMet(s, m, k);
  }

  // The next image of a scan that can close is due.
  lemma NextImageIsDue(s: Settings, m: Mapper, h: History, k: nat, t: real)
    requires Core(s, m, h) && Clean(s, m, h) && CanClose(s, m) && IsNext(s, m, k, t) && t < m.scans[0].end - EPSILON
    ensures ImageIsDue(s, m, t)
  {
    NextImageIsAhead(s, m, h, k);
    SamplesReach(m);
    DueFromParts(s, m, k, t);
  }

  lemma EndOfScanIsDue(s: Settings, m: Mapper, h: History)
    requires Core(s, m, h) && CanClose(s, m) && InScan(s, m.images, m.lastUpdate, m.scans[0].end) == []
    requires m.lastUpdate <= m.scans[0].end
    ensures EndIsDue(s, m)
  {
    LaterSampleIsEnough(m.front, m.scans[0].end);
    assert m.front.buffer[|m.front.buffer| - 1].stamp <= m.newestImu;
    forall i, j | 0 <= i < j < |m.images|
      ensures m.images[i] <= m.images[j]
    {
      ImagesRise(m, h, i, j);
    }
    forall i | 0 <= i < |m.images|
      ensures m.images[i] + s.exposure < m.lastUpdate - EPSILON || m.images[i] + s.exposure >= m.scans[0].end - EPSILON
    {
      NoneInScan(s, m.images, m.lastUpdate, m.scans[0].end, i);
    }
  }

  // After the pass the rest of the scan still can be closed.
  lemma RestCanClose(s: Settings, m: Mapper, h: History, n: Mapper, k: nat)
    requires ImagesOk(m, h) && CanClose(s, m) && k < |m.images| && n.images == m.images[k + 1..]
    requires m.images[k] + s.exposure >= m.lastUpdate - EPSILON && !NeedInit(n) && n.pushed
    requires n.lastUpdate == m.images[k] + s.exposure < m.scans[0].end
    requires n.scans == m.scans && n.newestImage == m.newestImage
    requires n.front.buffer == m.front.buffer || n.front.buffer == Released(m.front.buffer, n.lastUpdate)
    ensures CanClose(s, n)
    ensures InScan(s, n.images, n.lastUpdate, n.scans[0].end) == InScan(s, n.images, m.lastUpdate, n.scans[0].end)
  {
    ReleasedKeepsLast(m.front.buffer, n.lastUpdate);
    forall j: nat | j < |n.images| && n.images[j] + s.exposure < n.scans[0].end - EPSILON
      ensures LookAheadMet(s, n, j)
    {
      assert LookAheadMet(s, m, k + 1 + j);
    }
    forall j | 0 <= j < |n.images|
      ensures n.images[j] >= m.images[k] + 0.02
    {
      ImagesRise(m, h, k, k + 1 + j);
    }
    SameInScan(s, n.images, m.lastUpdate, n.lastUpdate, n.scans[0].end);
  }

  // Passes with these verdicts, one after the other.
  function Passes(s: Settings, m: Mapper, h: History, vs: seq<Verdict>): Outcome<(Mapper, History)>
    decreases |vs|
  {
    if vs == [] || !Shaped(m) then Ok((m, h))
    else
      var r := Advance(s, m, h, SpinIn(vs[0]));
      if r.Throw? then r else Passes(s, r.value.0, r.value.1, vs[1..])
  }

  lemma InScanHead(s: Settings, m: Mapper, events: seq<Dispatch>) returns (k: nat, t: real, rest: seq<Dispatch>)
    requires m.scans != [] && events == InScan(s, m.images, m.lastUpdate, m.scans[0].end) != []
    ensures k < |m.images| && IsNext(s, m, k, t) && t < m.scans[0].end - EPSILON && events == [Vio(t)] + rest
    ensures rest == InScan(s, m.images[k + 1..], m.lastUpdate, m.scans[0].end)
  {
    FirstInScan(s, m.images, m.lastUpdate, m.scans[0].end);
    StaleFits(s, m.images, m.lastUpdate);
    k := Stale(s, m.images, m.lastUpdate);
    t := m.images[k] + s.exposure;
    rest := InScan(s, m.images[k + 1..], m.lastUpdate, m.scans[0].end);
  }

  lemma ImagePassLeaves(s: Settings, m: Mapper, h: History, v: Verdict, k: nat, t: real)
    requires Core(s, m, h) && Clean(s, m, h) && CanClose(s, m) && IsNext(s, m, k, t) && t < m.scans[0].end - EPSILON
    requires Spin(s, m, v).Ok?
    ensures Spin(s, m, v).value.1.event == Some(Vio(t)) && Left(s, m, Spin(s, m, v).value.0, Vio(t))
  {
    NextImageIsDue(s, m, h, k, t);
    PassReportsImageIff(s, m, h, v, t);
    PassLeaves(s, m, h, v, Vio(t));
  }

  lemma AfterImage(s: Settings, m: Mapper, h: History, n: Mapper, k: nat, t: real)
    requires ImagesOk(m, h) && CanClose(s, m) && IsNext(s, m, k, t) && t < m.scans[0].end && Left(s, m, n, Vio(t))
    ensures CanClose(s, n) && n.lastUpdate == t && n.scans == m.scans
    ensures InScan(s, n.images, t, n.scans[0].end) == InScan(s, m.images[k + 1..], m.lastUpdate, m.scans[0].end)
  {
    NextIsFirst(s, m, k, t);
    RestCanClose(s, m, h, n, k);
  }

  // A pass raises nothing and keeps the invariant.
  lemma PassGoesOn(s: Settings, m: Mapper, h: History, v: Verdict) returns (n: Mapper, g: History)
    requires Core(s, m, h) && Clean(s, m, h)
    ensures Advance(s, m, h, SpinIn(v)) == Ok((n, g)) && Core(s, n, g) && Clean(s, n, g)
    ensures Spin(s, m, v).Ok? && Spin(s, m, v).value.0 == n && g == Record(h, m, n, Spin(s, m, v).value.1)
  {
    SpinKeepsClean(s, m, h, v);
    SpinIsAdvance(s, m, h, v);
    n, g := Spin(s, m, v).value.0, Record(h, m, Spin(s, m, v).value.0, Spin(s, m, v).value.1);
  }

  // A pass on a scan that can close hands over its next image.
  lemma ImagePass(s: Settings, m: Mapper, h: History, v: Verdict, k: nat, t: real) returns (n: Mapper, g: History)
    requires Core(s, m, h) && Clean(s, m, h) && CanClose(s, m) && IsNext(s, m, k, t) && t < m.scans[0].end - EPSILON
    ensures Advance(s, m, h, SpinIn(v)) == Ok((n, g)) && Core(s, n, g) && Clean(s, n, g)
    ensures Left(s, m, n, Vio(t)) && g.log == h.log + [Vio(t)] && g.closed == h.closed
  {
    n, g := PassGoesOn(s, m, h, v);
    ImagePassLeaves(s, m, h, v, k, t);
  }

  // Without an image inside, it closes the scan.
  lemma EndPass(s: Settings, m: Mapper, h: History, v: Verdict) returns (n: Mapper, g: History)
    requires Core(s, m, h) && Clean(s, m, h) && CanClose(s, m)
    requires InScan(s, m.images, m.lastUpdate, m.scans[0].end) == []
    ensures Advance(s, m, h, SpinIn(v)) == Ok((n, g)) && Core(s, n, g) && Clean(s, n, g)
    ensures n.scans == m.scans[1..] && g.log == h.log + [Lio(m.scans[0].end)] && g.closed == h.closed + 1
  {
    n, g := PassGoesOn(s, m, h, v);
    EndPassLeaves(s, m, h, v);
  }

  lemma EndPassLeaves(s: Settings, m: Mapper, h: History, v: Verdict)
    requires Core(s, m, h) && CanClose(s, m) && Spin(s, m, v).Ok?
    requires InScan(s, m.images, m.lastUpdate, m.scans[0].end) == []
    ensures Spin(s, m, v).value.1.event == Some(Lio(m.scans[0].end))
    ensures Left(s, m, Spin(s, m, v).value.0, Lio(m.scans[0].end))
  {
    ScanEndIsAhead(m, h);
    EndOfScanIsDue(s, m, h);
    PassReportsEndIff(s, m, h, v);
    PassLeaves(s, m, h, v, Lio(m.scans[0].end));
  }

  lemma ScanEndIsAhead(m: Mapper, h: History)
    requires ScansOk(m, h) && TimeOk(m, h) && m.scans != []
    ensures m.lastUpdate <= m.scans[0].end
  {
    assert m.scans[0] == h.all[h.closed];
  }

  // Once everything it waits for has arrived, a scan with n waiting images is closed after n + 1
  // passes, and the passes hand over exactly those images, in order, and then the scan end.
  lemma {:induction false} PassesCloseScan(s: Settings, m: Mapper, h: History, vs: seq<Verdict>, events: seq<Dispatch>)
    returns (n: Mapper, g: History)
    requires Core(s, m, h) && Clean(s, m, h) && CanClose(s, m)
    requires events == InScan(s, m.images, m.lastUpdate, m.scans[0].end) && |vs| == |events| + 1
    ensures Passes(s, m, h, vs) == Ok((n, g)) && Core(s, n, g) && Clean(s, n, g)
    ensures n.scans == m.scans[1..] && g.closed == h.closed + 1
    ensures g.log == h.log + events + [Lio(m.scans[0].end)]
    decreases |vs|
  {
    if events == [] {
      n, g := EndPass(s, m, h, vs[0]);
      OnePass(s, m, h, vs, n, g);
      assert h.log + [] == h.log;
    } else {
      var k, t, rest := InScanHead(s, m, events);
      var a, b := ImagePass(s, m, h, vs[0], k, t);
      AfterImage(s, m, h, a, k, t);
      n, g := PassesCloseScan(s, a, b, vs[1..], rest);
      OnePass(s, m, h, vs, a, b);
      EventsJoin(h.log, events, Vio(t), rest, Lio(m.scans[0].end));
    }
  }

  lemma EventsJoin(log: seq<Dispatch>, events: seq<Dispatch>, first: Dispatch, rest: seq<Dispatch>, last: Dispatch)
    requires events == [first] + rest
    ensures log + [first] + rest + [last] == log + events + [last]
  {
  }

  lemma OnePass(s: Settings, m: Mapper, h: History, vs: seq<Verdict>, n: Mapper, g: History)
    requires vs != [] && Shaped(m) && Advance(s, m, h, SpinIn(vs[0])) == Ok((n, g))
    ensures Passes(s, m, h, vs) == Passes(s, n, g, vs[1..])
  {
  }

  function Spins(vs: seq<Verdict>): seq<Input> { seq(|vs|, i requires 0 <= i < |vs| => SpinIn(vs[i])) }

  lemma RanPass(s: Settings, m: Mapper, inputs: seq<Input>, v: Verdict, n: Mapper, g: History)
    requires Ran(s, m, inputs) == Ok((n, g)) && Shaped(n)
    ensures Ran(s, m, inputs + [SpinIn(v)]) == Advance(s, n, g, SpinIn(v))
  {
    assert (inputs + [SpinIn(v)])[..|inputs|] == inputs;
  }

  // Passes are the continuation of a run by spins.
  lemma {:induction false} PassesContinue(s: Settings, m: Mapper, inputs: seq<Input>, vs: seq<Verdict>, n: Mapper,
                                          g: History)
    requires Ran(s, m, inputs) == Ok((n, g)) && Core(s, n, g) && Clean(s, n, g)
    ensures Ran(s, m, inputs + Spins(vs)) == Passes(s, n, g, vs)
    decreases |vs|
  {
    SpinsCons(inputs, vs);
    if vs != [] {
      var a, b := PassGoesOn(s, n, g, vs[0]);
      RanPass(s, m, inputs, vs[0], n, g);
      PassesContinue(s, m, inputs + [SpinIn(vs[0])], vs[1..], a, b);
      OnePass(s, n, g, vs, a, b);
    }
  }

  lemma SpinsCons(inputs: seq<Input>, vs: seq<Verdict>)
    ensures vs == [] ==> inputs + Spins(vs) == inputs
    ensures vs != [] ==> inputs + Spins(vs) == inputs + [SpinIn(vs[0])] + Spins(vs[1..])
  {
  }

  // Over runs: whenever an admissible run has reached a scan for which everything has arrived,
  // finitely many more passes dispatch every image waiting inside it and close it.
  lemma RunsCloseScans(s: Settings, m: Mapper, inputs: seq<Input>, vs: seq<Verdict>)
    requires Fresh0(m) && AdmissibleRun(s, m, inputs) && Ran(s, m, inputs).Ok?
    requires CanClose(s, Ran(s, m, inputs).value.0)
    requires var a := Ran(s, m, inputs).value.0;
             |vs| == |InScan(s, a.images, a.lastUpdate, a.scans[0].end)| + 1
    ensures var (a, h) := Ran(s, m, inputs).value;
            var r := Ran(s, m, inputs + Spins(vs));
            r.Ok? && r.value.1.closed == h.closed + 1 && r.value.0.scans == a.scans[1..] &&
            r.value.1.log == h.log + InScan(s, a.images, a.lastUpdate, a.scans[0].end) + [Lio(a.scans[0].end)]
  {
    RunsAreSafe(s, m, inputs);
    var (a, h) := Ran(s, m, inputs).value;
    var n, g := PassesCloseScan(s, a, h, vs, InScan(s, a.images, a.lastUpdate, a.scans[0].end));
    PassesContinue(s, m, inputs, vs, a, h);
  }
}
