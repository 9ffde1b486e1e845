// Properties of every run of the LIVO scheduler.
module LivoSchedule {
  import opened Outcomes
  import opened ImuCoverage
  import opened ImuTransaction
  import opened EstimatorRuns
  import opened ScanContract
  import opened LivoScheduler

  // ---------- the invariant ----------

  function LastEnd(all: seq<Scan>): real { if all == [] then -1.0 else all[|all| - 1].end }

  ghost predicate ScansOk(m: Mapper, h: History) {
    h.closed <= |h.all| && m.scans == h.all[h.closed..] && Shaped(m) && InOrder(h.all)
  }

  // Scans with at least two points that do not overlap.
  ghost predicate InOrder(all: seq<Scan>) {
    (forall i :: 0 <= i < |all| ==> all[i].points >= 2 && 0.0 <= all[i].begin < all[i].end) &&
    (forall i, j :: 0 <= i < j < |all| ==> all[i].end <= all[j].begin)
  }

  ghost predicate TimeOk(m: Mapper, h: History) {
    Shaped(m) && m.lastUpdate <= LastEnd(h.all) &&
    (m.pushed ==> 0.0 <= m.lastUpdate <= m.scans[0].end) &&
    (!m.pushed && m.scans != [] ==> m.lastUpdate <= m.scans[0].begin)
  }

  ghost predicate EstimatorOk(m: Mapper) {
    Accepted(m.front.buffer) && Increasing(m.front.buffer) &&
    (forall i :: 0 <= i < |m.front.buffer| ==> m.front.buffer[i].stamp <= m.newestImu) &&
    (!NeedInit(m) ==> Sound(m.front) && m.front.process.stateTime <= m.lastUpdate)
  }

  ghost predicate ContractOk(m: Mapper) {
    Shaped(m) &&
    (NeedInit(m) ==> !(m.life.active && m.life.required)) &&
    (!NeedInit(m) && m.pushed ==>
       m.life.active && m.life.required && m.life.lios == 0 && m.life.inserts == 0 && m.life.monotonic &&
       m.life.stateTime <= m.lastUpdate + EPSILON && m.life.scanEnd == m.scans[0].end) &&
    (!m.pushed ==> Completed(m.life))
  }

  ghost predicate ImagesOk(m: Mapper, h: History) {
    |h.fates| <= |h.received| && m.images == h.received[|h.fates|..] &&
    (forall i, j :: 0 <= i < j < |h.received| ==> h.received[i] + 0.02 <= h.received[j]) &&
    (h.received != [] ==> h.received[|h.received| - 1] == m.newestImage)
  }

  // Images that left the buffer without being dispatched are older than the scan end at which
  // the initialisation was completed, and no newer image is behind the state.
  ghost predicate FatesOk(s: Settings, m: Mapper, h: History) {
    |h.fates| <= |h.received| &&
    (NeedInit(m) ==> h.initEnd == m.lastUpdate) &&
    (forall i :: 0 <= i < |h.fates| && !h.fates[i] ==> h.received[i] + s.exposure < h.initEnd) &&
    (!NeedInit(m) ==>
       h.initEnd - EPSILON <= m.lastUpdate &&
       (m.lastUpdate == h.initEnd || m.newestImage + s.exposure >= m.lastUpdate - EPSILON) &&
       forall i :: |h.fates| <= i < |h.received| ==>
         h.received[i] + s.exposure < h.initEnd || h.received[i] + s.exposure >= m.lastUpdate - EPSILON)
  }

  // No waiting image is before this time.
  predicate Ahead(s: Settings, m: Mapper, t: real) {
    forall i :: 0 <= i < |m.images| ==> m.images[i] + s.exposure >= t
  }

  // Only the first image after the initialisation can turn the time back, and only behind the
  // scan end at which the initialisation was completed.
  ghost predicate BackOk(s: Settings, m: Mapper, h: History) {
    !NeedInit(m) ==>
      (m.lastUpdate > h.initEnd ==> m.front.process.stateTime == m.lastUpdate || Ahead(s, m, m.lastUpdate)) &&
      (m.lastUpdate < h.initEnd ==> Ahead(s, m, h.initEnd)) &&
      (m.pushed ==> m.life.stateTime <= m.lastUpdate || m.life.stateTime <= h.initEnd)
  }

  function LioTimes(log: seq<Dispatch>): seq<real> {
    if log == [] then []
    else LioTimes(log[..|log| - 1]) + if log[|log| - 1].Lio? then [log[|log| - 1].time] else []
  }

  function VioTimes(log: seq<Dispatch>): seq<real> {
    if log == [] then []
    else VioTimes(log[..|log| - 1]) + if log[|log| - 1].Vio? then [log[|log| - 1].time] else []
  }

  function Ends(scans: seq<Scan>): seq<real> {
    if scans == [] then [] else Ends(scans[..|scans| - 1]) + [scans[|scans| - 1].end]
  }

  // The event times of the images whose fate was to be dispatched.
  function Chosen(s: Settings, received: seq<real>, fates: seq<bool>): seq<real>
    requires |fates| <= |received|
  {
    if fates == [] then []
    else Chosen(s, received, fates[..|fates| - 1]) +
         if fates[|fates| - 1] then [received[|fates| - 1] + s.exposure] else []
  }

  // One LiDAR event for each closed scan, in order and at its endpoint; one image event for
  // each dispatched image, in order.
  ghost predicate LogOk(s: Settings, h: History) {
    h.closed <= |h.all| && |h.fates| <= |h.received| &&
    LioTimes(h.log) == Ends(h.all[..h.closed]) && VioTimes(h.log) == Chosen(s, h.received, h.fates)
  }

  ghost predicate Core(s: Settings, m: Mapper, h: History) {
    ScansOk(m, h) && TimeOk(m, h) && EstimatorOk(m) && ContractOk(m) && ImagesOk(m, h) &&
    FatesOk(s, m, h) && BackOk(s, m, h) && LogOk(s, h)
  }

  // ---------- opening a scan and dropping images ----------

  // The history while a scan is opened: before the initialisation the bound follows the state.
  function OpenHistory(a: Mapper, h: History): History {
    if NeedInit(a) then h.(initEnd := a.lastUpdate) else h
  }

  lemma OpenKeepsContract(m: Mapper, h: History)
    requires ScansOk(m, h) && TimeOk(m, h) && ContractOk(m) && !NothingToOpen(m)
    requires !NeedInit(m) ==> 0.0 <= m.lastUpdate
    ensures Opened(m).Ok?
    ensures var a := Opened(m).value;
            a.pushed && a.scans == m.scans && a.images == m.images && NeedInit(a) == NeedInit(m) &&
            a.lastUpdate == (if m.pushed || m.lastUpdate >= 0.0 then m.lastUpdate else m.scans[0].begin) &&
            a.newestImage == m.newestImage && a.newestImu == m.newestImu && ContractOk(a) &&
            a.life.stateTime == if m.pushed then m.life.stateTime else a.lastUpdate
  {
    assert m.scans[0] == h.all[h.closed];
  }

  lemma OpenKeepsEstimator(m: Mapper)
    requires Shaped(m) && EstimatorOk(m) && !NothingToOpen(m) && Opened(m).Ok?
    requires !NeedInit(m) ==> 0.0 <= m.lastUpdate
    ensures EstimatorOk(Opened(m).value)
    ensures !NeedInit(m) ==> Opened(m).value.front.process.stateTime == m.front.process.stateTime
  {
  }

  lemma OpenKeepsBack(s: Settings, m: Mapper, a: Mapper, h: History)
    requires BackOk(s, m, h) && NeedInit(a) == NeedInit(m) && a.images == m.images
    requires !NeedInit(m) ==> a.lastUpdate == m.lastUpdate && a.front.process.stateTime == m.front.process.stateTime
    requires a.life.stateTime == if m.pushed then m.life.stateTime else a.lastUpdate
    ensures BackOk(s, a, OpenHistory(a, h))
  {
  }

  lemma OpenKeepsTime(m: Mapper, a: Mapper, h: History)
    requires ScansOk(m, h) && TimeOk(m, h) && m.scans != [] && a.scans == m.scans && a.pushed
    requires a.lastUpdate == if m.pushed || m.lastUpdate >= 0.0 then m.lastUpdate else m.scans[0].begin
    ensures TimeOk(a, h)
  {
    assert m.scans[0] == h.all[h.closed];
    if h.closed < |h.all| - 1 {
      assert h.all[h.closed].end <= h.all[|h.all| - 1].begin;
    }
  }

  lemma OpenKeeps(s: Settings, m: Mapper, h: History)
    requires Core(s, m, h) && !NothingToOpen(m)
    ensures Opened(m).Ok?
    ensures var a := Opened(m).value;
            a.pushed && a.scans == m.scans && NeedInit(a) == NeedInit(m) && Core(s, a, OpenHistory(a, h)) &&
            ((NeedInit(m) && m.lastUpdate < 0.0) || a.lastUpdate == m.lastUpdate)
  {
    OpenKeepsContract(m, h);
    OpenKeepsEstimator(m);
    OpenKeepsTime(m, Opened(m).value, h);
    OpenKeepsBack(s, m, Opened(m).value, h);
  }

  lemma {:induction false} ChosenSkips(s: Settings, received: seq<real>, fates: seq<bool>, n: nat)
    requires |fates| + n <= |received|
    ensures Chosen(s, received, fates + Repeat(n, false)) == Chosen(s, received, fates)
  {
    var longer := fates + Repeat(n, false);
    if n > 0 {
      ChosenSkips(s, received, fates, n - 1);
      assert longer[..|longer| - 1] == fates + Repeat(n - 1, false);
    } else {
      assert longer == fates;
    }
  }

  // The history after dropping that many images.
  function DropHistory(h: History, k: nat): History { h.(fates := h.fates + Repeat(k, false)) }

  lemma DropKeepsFates(s: Settings, a: Mapper, h: History, k: nat)
    requires ImagesOk(a, h) && FatesOk(s, a, h) && k == Stale(s, a.images, a.lastUpdate)
    ensures k <= |a.images|
    ensures FatesOk(s, a.(images := a.images[k..]), DropHistory(h, k))
  {
    StaleFits(s, a.images, a.lastUpdate);
    var g := DropHistory(h, k);
    forall i | 0 <= i < |g.fates| && !g.fates[i]
      ensures g.received[i] + s.exposure < g.initEnd
    {
      if i >= |h.fates| {
        assert a.images[i - |h.fates|] == h.received[i];
      } else {
        assert h.fates[i] == g.fates[i];
      }
    }
  }

  // What does not depend on the images and their fates.
  lemma DropKeepsRest(a: Mapper, h: History, b: Mapper, g: History)
    requires ScansOk(a, h) && TimeOk(a, h) && EstimatorOk(a) && ContractOk(a)
    requires b == a.(images := b.images) && g == h.(fates := g.fates)
    ensures ScansOk(b, g) && TimeOk(b, g) && EstimatorOk(b) && ContractOk(b)
  {
  }

  lemma DropKeepsImages(s: Settings, a: Mapper, h: History, k: nat)
    requires ImagesOk(a, h) && LogOk(s, h) && k <= |a.images|
    ensures ImagesOk(a.(images := a.images[k..]), DropHistory(h, k)) && LogOk(s, DropHistory(h, k))
  {
    ChosenSkips(s, h.received, h.fates, k);
  }

  lemma DropKeepsBack(s: Settings, a: Mapper, h: History, k: nat)
    requires BackOk(s, a, h) && k <= |a.images|
    ensures BackOk(s, a.(images := a.images[k..]), DropHistory(h, k))
  {
  }

  lemma DropKeeps(s: Settings, a: Mapper, h: History, k: nat)
    requires Core(s, a, h) && k == Stale(s, a.images, a.lastUpdate)
    ensures k <= |a.images|
    ensures Core(s, a.(images := a.images[k..]), DropHistory(h, k))
  {
    DropKeepsFates(s, a, h, k);
    DropKeepsImages(s, a, h, k);
    DropKeepsBack(s, a, h, k);
    DropKeepsRest(a, h, a.(images := a.images[k..]), DropHistory(h, k));
  }

  // ---------- one event ----------

  function EventHistory(h: History, before: Mapper, after: Mapper, d: Dispatch): History {
    h.(closed := if d.Lio? then h.closed + 1 else h.closed,
       fates := if d.Vio? then h.fates + [true] else h.fates,
       log := h.log + [d],
       initEnd := if NeedInit(before) then after.lastUpdate else h.initEnd)
  }

  lemma LogGrows(s: Settings, h: History, g: History, d: Dispatch)
    requires LogOk(s, h) && g.all == h.all && g.received == h.received && g.log == h.log + [d]
    requires d.Lio? ==> h.closed < |h.all| && d.time == h.all[h.closed].end && g.closed == h.closed + 1 &&
                        g.fates == h.fates
    requires d.Vio? ==> |h.fates| < |h.received| && d.time == h.received[|h.fates|] + s.exposure &&
                        g.closed == h.closed && g.fates == h.fates + [true]
    ensures LogOk(s, g)
  {
    assert g.log[..|g.log| - 1] == h.log;
    if d.Lio? {
      assert g.all[..g.closed][..h.closed] == h.all[..h.closed];
    } else {
      assert g.fates[..|h.fates|] == h.fates;
    }
  }

  // Closing the front scan keeps the scans in order and the state time behind the next one.
  lemma CloseKeepsScans(m: Mapper, h: History, n: Mapper, g: History)
    requires ScansOk(m, h) && TimeOk(m, h) && m.scans != []
    requires n.scans == m.scans[1..] && !n.pushed && n.lastUpdate == m.scans[0].end
    requires g.all == h.all && g.closed == h.closed + 1
    ensures ScansOk(n, g) && TimeOk(n, g)
  {
    assert m.scans[0] == h.all[h.closed];
    if h.closed < |h.all| - 1 {
      assert h.all[h.closed].end <= h.all[|h.all| - 1].begin;
      assert h.all[h.closed].end <= h.all[h.closed + 1].begin;
    }
  }

  lemma {:induction false} ReleasedMembers(received: seq<Sample>, committed: real, newest: real)
    requires forall i :: 0 <= i < |received| ==> received[i].stamp <= newest
    ensures forall i :: 0 <= i < |Released(received, committed)| ==> Released(received, committed)[i].stamp <= newest
    decreases |received|
  {
    if received != [] && received[0].stamp <= committed {
      ReleasedMembers(received[1..], committed, newest);
    }
  }

  lemma QueryKeepsEstimator(s: Settings, m: Mapper, e: Event, n: Mapper)
    requires EstimatorOk(m) && !NeedInit(m) && e.Query? && e.target >= m.front.process.stateTime
    requires Step(s.motion, m.front, e).Ok? && n.front == Step(s.motion, m.front, e).value
    requires n.newestImu == m.newestImu && n.lastUpdate == e.target
    ensures EstimatorOk(n) && !NeedInit(n)
  {
    StepIsSafe(s.motion, m.front, e);
    QueryEffect(s.motion, m.front, e);
    ReleasedMembers(m.front.buffer, e.target, m.newestImu);
  }

  lemma {:induction false} AcceptedSuffix(s: seq<Sample>, n: nat)
    requires Accepted(s) && n <= |s|
    ensures Accepted(s[n..])
  {
    if n > 0 {
      AcceptedTail(s);
      AcceptedSuffix(s[1..], n - 1);
      assert s[1..][n - 1..] == s[n..];
    }
  }

  lemma SuffixKeepsBuffer(buffer: seq<Sample>, n: nat, newest: real)
    requires Accepted(buffer) && Increasing(buffer) && n <= |buffer|
    requires forall i :: 0 <= i < |buffer| ==> buffer[i].stamp <= newest
    ensures Accepted(buffer[n..]) && Increasing(buffer[n..])
    ensures forall i :: 0 <= i < |buffer[n..]| ==> buffer[n..][i].stamp <= newest
  {
    AcceptedSuffix(buffer, n);
  }

  // Before the initialisation no event raises anything; when it completes, the carry and the
  // state time are the same sample, so the invariant of initialised runs starts to hold.
  lemma InitKeepsEstimator(m: Mapper, time: real, v: Verdict)
    requires EstimatorOk(m) && NeedInit(m) && m.scans != [] && 0.0 <= m.lastUpdate <= time
    ensures Initialised(m, time, v).Ok? && EstimatorOk(Initialised(m, time, v).value)
    ensures var n := Initialised(m, time, v).value;
            n == m.(front := n.front, scans := m.scans[1..], pushed := false, lastUpdate := time)
  {
    var n := FirstAfter(m.front.buffer, time);
    SuffixKeepsBuffer(m.front.buffer, n, m.newestImu);
    LastUsed(m.front.buffer, n, m.lastUpdate, time);
    InitialisedShape(m, time, v);
    InitialisedIsSound(m, time, Initialised(m, time, v).value);
  }

  // The last sample handed over lies between the last update and the event.
  lemma LastUsed(buffer: seq<Sample>, n: nat, lastUpdate: real, time: real)
    requires n == FirstAfter(buffer, time)
    ensures var used := Fresh(buffer[..n], lastUpdate);
            used != [] ==> lastUpdate < used[|used| - 1].stamp <= time
  {
    var used := Fresh(buffer[..n], lastUpdate);
    if used != [] {
      FreshMembers(buffer[..n], lastUpdate, used[|used| - 1]);
    }
  }

  lemma InitialisedShape(m: Mapper, time: real, v: Verdict)
    requires NeedInit(m) && m.scans != [] && 0.0 <= m.lastUpdate <= time
    requires var used := Fresh(m.front.buffer[..FirstAfter(m.front.buffer, time)], m.lastUpdate);
             used != [] ==> m.lastUpdate < used[|used| - 1].stamp <= time
    ensures Initialised(m, time, v).Ok?
    ensures var n := Initialised(m, time, v).value;
            var p := n.front.process;
            && n == m.(front := n.front, scans := m.scans[1..], pushed := false, lastUpdate := time)
            && n.front.buffer == m.front.buffer[FirstAfter(m.front.buffer, time)..]
            && (!NeedInit(n) ==> p.lastImu.stamp == p.stateTime && 0.0 < p.stateTime <= time && p.scanOrigin == None)
  {
  }

  lemma InitialisedIsSound(m: Mapper, time: real, n: Mapper)
    requires EstimatorOk(m) && n.newestImu == m.newestImu && n.lastUpdate == time
    requires Accepted(n.front.buffer) && Increasing(n.front.buffer)
    requires forall i :: 0 <= i < |n.front.buffer| ==> n.front.buffer[i].stamp <= m.newestImu
    requires var p := n.front.process;
             !NeedInit(n) ==> p.lastImu.stamp == p.stateTime && 0.0 < p.stateTime <= time && p.scanOrigin == None
    ensures EstimatorOk(n)
  {
  }

  lemma CloseInitKeeps(s: Settings, m: Mapper, h: History, n: Mapper, g: History)
    requires ImagesOk(m, h) && FatesOk(s, m, h) && ContractOk(m) && NeedInit(m) && m.pushed
    requires m.lastUpdate <= n.lastUpdate
    requires n == m.(front := n.front, scans := m.scans[1..], pushed := false, lastUpdate := n.lastUpdate)
    requires g == h.(closed := g.closed, log := g.log, initEnd := n.lastUpdate)
    ensures ImagesOk(n, g) && FatesOk(s, n, g) && ContractOk(n)
  {
  }

  lemma InitKeeps(s: Settings, m: Mapper, h: History, v: Verdict)
    requires Core(s, m, h) && m.pushed && NeedInit(m)
    ensures Initialised(m, m.scans[0].end, v).Ok?
    ensures var n := Initialised(m, m.scans[0].end, v).value;
            Core(s, n, EventHistory(h, m, n, Lio(m.scans[0].end)))
  {
    var time := m.scans[0].end;
    InitKeepsEstimator(m, time, v);
    CoreAfterInit(s, m, h, Initialised(m, time, v).value);
  }

  lemma CoreAfterInit(s: Settings, m: Mapper, h: History, n: Mapper)
    requires Core(s, m, h) && m.pushed && NeedInit(m) && EstimatorOk(n)
    requires n == m.(front := n.front, scans := m.scans[1..], pushed := false, lastUpdate := m.scans[0].end)
    ensures Core(s, n, EventHistory(h, m, n, Lio(m.scans[0].end)))
  {
    var g := EventHistory(h, m, n, Lio(m.scans[0].end));
    CloseKeepsScans(m, h, n, g);
    CloseInitKeeps(s, m, h, n, g);
    assert m.scans[0] == h.all[h.closed];
    LogGrows(s, h, g, Lio(m.scans[0].end));
  }

  // An image that is due and not behind the persistent state is dispatched without exception.
  lemma ImageRaisesNothing(s: Settings, m: Mapper, time: real, v: Verdict)
    requires EstimatorOk(m) && ContractOk(m) && m.pushed && !NeedInit(m) && m.images != []
    requires time >= m.lastUpdate - EPSILON && time >= m.front.process.stateTime
    requires time >= m.life.stateTime - EPSILON
    ensures ImageEvent(s, m, time, v).Ok?
    ensures var n := ImageEvent(s, m, time, v).value;
            n == m.(front := n.front, images := m.images[1..], lastUpdate := time, life := n.life) &&
            ImageNoted(m.life, time) == Ok(n.life) && EstimatorOk(n) && !NeedInit(n)
  {
    var e := QueryOf(Vio(time), v);
    StepIsSafe(s.motion, m.front, e);
    QueryKeepsEstimator(s, m, e, ImageEvent(s, m, time, v).value);
  }

  lemma LidarRaisesNothing(s: Settings, m: Mapper, v: Verdict)
    requires EstimatorOk(m) && ContractOk(m) && m.pushed && !NeedInit(m)
    requires m.lastUpdate <= m.scans[0].end && Ready(m.front, m.scans[0].end)
    ensures LidarEvent(s, m, m.scans[0].end, v).Ok?
    ensures var n := LidarEvent(s, m, m.scans[0].end, v).value;
            n == m.(front := n.front, scans := m.scans[1..], pushed := false, lastUpdate := m.scans[0].end,
                    life := n.life) &&
            Completed(n.life) && EstimatorOk(n) && !NeedInit(n)
  {
    var e := QueryOf(Lio(m.scans[0].end), v);
    StepIsSafe(s.motion, m.front, e);
    TransactionIsStep(s.motion, Driver(m.front, m.lastUpdate), m.life, m.scans[0].end, v);
    LidarFits(m, v);
    QueryKeepsEstimator(s, m, e, LidarEvent(s, m, m.scans[0].end, v).value);
  }

  // The LiDAR event of an open scan fits its contract and completes it.
  lemma LidarFits(m: Mapper, v: Verdict)
    requires ContractOk(m) && m.pushed && !NeedInit(m) && m.lastUpdate <= m.scans[0].end
    ensures var noted := LidarNoted(m.life, m.scans[0].end, v.inserts);
            noted.Ok? && Completed(noted.value)
  {
  }

  lemma TransactionIsStep(m: Motion, d: Driver, life: Contract, time: real, v: Verdict)
    requires Ready(d.front, time) && time >= d.lastEvent - EPSILON && LidarNoted(life, time, v.inserts).Ok?
    ensures LidarTransaction(m, d, life, time, v) ==
            match Step(m, d.front, QueryOf(Lio(time), v)) {
              case Throw(x) => Throw(x)
              case Ok(f) => Ok((f, LidarNoted(life, time, v.inserts).value))
            }
  {
  }

  lemma FatesAfterImage(s: Settings, m: Mapper, h: History, n: Mapper, g: History)
    requires ImagesOk(m, h) && FatesOk(s, m, h) && !NeedInit(m) && !NeedInit(n) && m.images != []
    requires n.lastUpdate == m.images[0] + s.exposure >= h.initEnd - EPSILON
    requires n.images == m.images[1..] && n.newestImage == m.newestImage
    requires g == h.(fates := h.fates + [true], log := g.log)
    ensures ImagesOk(n, g) && FatesOk(s, n, g)
  {
    var k := |h.fates|;
    assert m.images[0] == h.received[k];
    forall i | k < i < |h.received|
      ensures h.received[i] + s.exposure >= n.lastUpdate
    {
      assert h.received[k] + 0.02 <= h.received[i];
    }
    if k < |h.received| - 1 {
      assert h.received[k] + 0.02 <= h.received[|h.received| - 1];
    }
    forall i | 0 <= i < |g.fates| && !g.fates[i]
      ensures h.received[i] + s.exposure < h.initEnd
    {
      assert h.fates[i] == g.fates[i];
    }
  }

  // An image that is due is not before the initialisation end, up to the tolerance, and fits the
  // contract of the scan.
  lemma DueImageFits(s: Settings, m: Mapper, h: History)
    requires FatesOk(s, m, h) && BackOk(s, m, h) && !NeedInit(m) && m.pushed && m.images != []
    requires m.images[0] + s.exposure >= m.lastUpdate - EPSILON
    ensures m.images[0] + s.exposure >= h.initEnd - EPSILON
    ensures m.images[0] + s.exposure >= m.life.stateTime - EPSILON
  {
  }

  lemma BackAfterImage(s: Settings, m: Mapper, h: History, n: Mapper, g: History)
    requires ImagesOk(m, h) && BackOk(s, m, h) && !NeedInit(m) && m.pushed && m.images != []
    requires n.lastUpdate == m.images[0] + s.exposure >= h.initEnd - EPSILON
    requires n.lastUpdate >= m.front.process.stateTime
    requires n.images == m.images[1..] && ImageNoted(m.life, n.lastUpdate) == Ok(n.life) && g.initEnd == h.initEnd
    ensures BackOk(s, n, g)
  {
    var k := |h.fates|;
    forall i | 0 <= i < |n.images|
      ensures n.images[i] + s.exposure >= n.lastUpdate + 0.02
    {
      assert m.images[0] == h.received[k] && n.images[i] == h.received[k + i + 1];
    }
  }

  lemma CoreAfterImage(s: Settings, m: Mapper, h: History, n: Mapper)
    requires Core(s, m, h) && m.pushed && !NeedInit(m) && Inside(s, m) && !NeedInit(n) && EstimatorOk(n)
    requires m.images[0] + s.exposure >= m.lastUpdate - EPSILON
    requires m.images[0] + s.exposure >= m.front.process.stateTime
    requires n == m.(front := n.front, images := m.images[1..], lastUpdate := m.images[0] + s.exposure, life := n.life)
    requires ImageNoted(m.life, n.lastUpdate) == Ok(n.life)
    ensures Core(s, n, EventHistory(h, m, n, Vio(n.lastUpdate)))
  {
    var g := EventHistory(h, m, n, Vio(n.lastUpdate));
    DueImageFits(s, m, h);
    FatesAfterImage(s, m, h, n, g);
    BackAfterImage(s, m, h, n, g);
    assert m.images[0] == h.received[|h.fates|];
    LogGrows(s, h, g, Vio(n.lastUpdate));
    TimeAfterImage(s, m, h, n, g);
  }

  lemma TimeAfterImage(s: Settings, m: Mapper, h: History, n: Mapper, g: History)
    requires ScansOk(m, h) && TimeOk(m, h) && m.pushed && Inside(s, m)
    requires 0.0 <= n.lastUpdate == m.images[0] + s.exposure
    requires n.scans == m.scans && n.pushed && g.all == h.all && g.closed == h.closed
    ensures ScansOk(n, g) && TimeOk(n, g)
  {
    assert m.scans[0] == h.all[h.closed];
    if h.closed < |h.all| - 1 {
      assert h.all[h.closed].end <= h.all[|h.all| - 1].begin;
    }
  }

  lemma FatesAfterLidar(s: Settings, m: Mapper, h: History, n: Mapper, g: History)
    requires ImagesOk(m, h) && FatesOk(s, m, h) && !NeedInit(m) && !NeedInit(n) && m.scans != [] && !Inside(s, m)
    requires m.newestImage + s.exposure >= m.scans[0].end - EPSILON
    requires m.lastUpdate <= n.lastUpdate == m.scans[0].end
    requires n.images == m.images && n.newestImage == m.newestImage
    requires g == h.(closed := g.closed, log := g.log)
    ensures ImagesOk(n, g) && FatesOk(s, n, g)
  {
    var k := |h.fates|;
    forall i | k <= i < |h.received|
      ensures h.received[i] + s.exposure >= n.lastUpdate - EPSILON
    {
      assert m.images[0] == h.received[k];
      assert k < i ==> h.received[k] + 0.02 <= h.received[i];
    }
  }

  lemma CoreAfterLidar(s: Settings, m: Mapper, h: History, n: Mapper)
    requires Core(s, m, h) && m.pushed && !NeedInit(m) && !Inside(s, m) && !NeedInit(n) && EstimatorOk(n)
    requires m.newestImage + s.exposure >= m.scans[0].end - EPSILON && Completed(n.life)
    requires n.front.process.stateTime == m.scans[0].end
    requires n == m.(front := n.front, scans := m.scans[1..], pushed := false, lastUpdate := m.scans[0].end,
                     life := n.life)
    ensures Core(s, n, EventHistory(h, m, n, Lio(m.scans[0].end)))
  {
    var g := EventHistory(h, m, n, Lio(m.scans[0].end));
    CloseKeepsScans(m, h, n, g);
    FatesAfterLidar(s, m, h, n, g);
    assert m.scans[0] == h.all[h.closed];
    LogGrows(s, h, g, Lio(m.scans[0].end));
  }

  // ---------- one spin ----------

  // The event of a spin is an image older than the persistent state.
  predicate DueImageIsBehind(s: Settings, m: Mapper)
    requires Shaped(m)
  {
    !NothingToOpen(m) && Prepared(s, m).Ok? &&
    var b := Prepared(s, m).value.0;
    var due := Due(s, b);
    due.Some? && due.value.Vio? && due.value.time < b.front.process.stateTime
  }

  lemma PrepareKeeps(s: Settings, m: Mapper, h: History)
    requires Core(s, m, h) && !NothingToOpen(m)
    ensures Prepared(s, m).Ok?
    ensures var (b, k) := Prepared(s, m).value;
            b.pushed && NeedInit(b) == NeedInit(m) && Core(s, b, DropHistory(OpenHistory(b, h), k)) &&
            ((NeedInit(m) && m.lastUpdate < 0.0) || b.lastUpdate == m.lastUpdate) &&
            (b.images != [] ==> b.images[0] + s.exposure >= b.lastUpdate - EPSILON)
  {
    OpenKeeps(s, m, h);
    PreparedKeeps(s, m, h, Opened(m).value);
  }

  lemma PreparedKeeps(s: Settings, m: Mapper, h: History, a: Mapper)
    requires Shaped(m) && !NothingToOpen(m) && Opened(m) == Ok(a) && a.pushed && Core(s, a, OpenHistory(a, h))
    ensures Prepared(s, m).Ok?
    ensures var (b, k) := Prepared(s, m).value;
            b.pushed && b.lastUpdate == a.lastUpdate && NeedInit(b) == NeedInit(a) &&
            Core(s, b, DropHistory(OpenHistory(b, h), k)) &&
            (b.images != [] ==> b.images[0] + s.exposure >= b.lastUpdate - EPSILON)
  {
    var k := Stale(s, a.images, a.lastUpdate);
    DropKeeps(s, a, OpenHistory(a, h), k);
    StaleFits(s, a.images, a.lastUpdate);
    assert Prepared(s, m) == Ok((a.(images := a.images[k..]), k));
    assert OpenHistory(a.(images := a.images[k..]), h) == OpenHistory(a, h);
  }

  // Under the invariant a spin raises an exception exactly when the image that is due lies
  // before the persistent state, which the tolerance of the drop loop allows by 1e-6 s.
  lemma SpinThrowsIffBehind(s: Settings, m: Mapper, h: History, v: Verdict)
    requires Core(s, m, h)
    ensures Spin(s, m, v).Throw? <==> DueImageIsBehind(s, m)
    ensures Spin(s, m, v).Throw? ==> Spin(s, m, v).error == QueryPrecedesState
  {
    if !NothingToOpen(m) {
      PreparedThrowsIffBehind(s, m, h, v);
    }
  }

  lemma PreparedThrowsIffBehind(s: Settings, m: Mapper, h: History, v: Verdict)
    requires Core(s, m, h) && !NothingToOpen(m)
    ensures Prepared(s, m).Ok?
    ensures var b := Prepared(s, m).value.0;
            Due(s, b).Some? ==>
              (Dispatched(s, b, Due(s, b).value, v).Throw? <==>
               Due(s, b).value.Vio? && Due(s, b).value.time < b.front.process.stateTime) &&
              (Dispatched(s, b, Due(s, b).value, v).Throw? ==>
               Dispatched(s, b, Due(s, b).value, v).error == QueryPrecedesState)
  {
    PrepareKeeps(s, m, h);
    var b, k := Prepared(s, m).value.0, Prepared(s, m).value.1;
    if Due(s, b).Some? {
      DispatchThrowsIffBehind(s, b, DropHistory(OpenHistory(b, h), k), Due(s, b).value, v);
    }
  }

  lemma DispatchThrowsIffBehind(s: Settings, b: Mapper, h: History, d: Dispatch, v: Verdict)
    requires Core(s, b, h) && b.pushed && Due(s, b) == Some(d)
    requires b.images != [] ==> b.images[0] + s.exposure >= b.lastUpdate - EPSILON
    ensures Dispatched(s, b, d, v).Throw? <==> d.Vio? && d.time < b.front.process.stateTime
    ensures Dispatched(s, b, d, v).Throw? ==> Dispatched(s, b, d, v).error == QueryPrecedesState
  {
    if NeedInit(b) {
      InitKeeps(s, b, h, v);
    } else if d.Lio? {
      ReadyQueryFlies(s.motion, b.front, d.time, true);
      if Ready(b.front, d.time) { LidarRaisesNothing(s, b, v); }
    } else if d.time >= b.front.process.stateTime {
      ReadyQueryFlies(s.motion, b.front, d.time, false);
      DueImageFits(s, b, h);
      ImageRaisesNothing(s, b, d.time, v);
    }
  }

  lemma DispatchKeeps(s: Settings, b: Mapper, h: History, d: Dispatch, v: Verdict)
    requires Core(s, b, h) && b.pushed && Due(s, b) == Some(d) && Dispatched(s, b, d, v).Ok?
    requires b.images != [] ==> b.images[0] + s.exposure >= b.lastUpdate - EPSILON
    ensures var r := Dispatched(s, b, d, v).value;
            r.1.None? ==> r.0 == b
    ensures var r := Dispatched(s, b, d, v).value;
            r.1.Some? ==> r.1.value == d && Core(s, r.0, EventHistory(h, b, r.0, d))
  {
    if NeedInit(b) {
      InitKeeps(s, b, h, v);
    } else if Dispatched(s, b, d, v).value.1.Some? {
      if d.Lio? {
        LidarKeeps(s, b, h, v, Dispatched(s, b, d, v).value.0);
      } else {
        DispatchThrowsIffBehind(s, b, h, d, v);
        DueImageFits(s, b, h);
        ImageRaisesNothing(s, b, d.time, v);
        ImageKeeps(s, b, h, d.time, Dispatched(s, b, d, v).value.0);
      }
    }
  }

  lemma LidarKeeps(s: Settings, b: Mapper, h: History, v: Verdict, n: Mapper)
    requires Core(s, b, h) && b.pushed && !NeedInit(b) && !Inside(s, b)
    requires b.newestImage + s.exposure >= b.scans[0].end - EPSILON
    requires Ready(b.front, b.scans[0].end) && LidarEvent(s, b, b.scans[0].end, v) == Ok(n)
    ensures Core(s, n, EventHistory(h, b, n, Lio(b.scans[0].end)))
  {
    LidarRaisesNothing(s, b, v);
    QueryEffect(s.motion, b.front, QueryOf(Lio(b.scans[0].end), v));
    CoreAfterLidar(s, b, h, n);
  }

  lemma ImageKeeps(s: Settings, b: Mapper, h: History, time: real, n: Mapper)
    requires Core(s, b, h) && b.pushed && !NeedInit(b) && Inside(s, b)
    requires time == b.images[0] + s.exposure >= b.lastUpdate - EPSILON && time >= b.front.process.stateTime
    requires n == b.(front := n.front, images := b.images[1..], lastUpdate := time, life := n.life)
    requires ImageNoted(b.life, time) == Ok(n.life) && EstimatorOk(n) && !NeedInit(n)
    ensures Core(s, n, EventHistory(h, b, n, Vio(time)))
  {
    CoreAfterImage(s, b, h, n);
  }

  lemma SpinKeeps(s: Settings, m: Mapper, h: History, v: Verdict)
    requires Core(s, m, h) && Spin(s, m, v).Ok?
    ensures var r := Spin(s, m, v).value;
            Core(s, r.0, Record(h, m, r.0, r.1))
  {
    if NothingToOpen(m) {
      assert h.fates + Repeat(0, false) + [] == h.fates;
    } else {
      PrepareKeeps(s, m, h);
      var b, k := Prepared(s, m).value.0, Prepared(s, m).value.1;
      RecordOfSpin(s, m, h, v, b, k);
      SettledKeeps(s, b, DropHistory(OpenHistory(b, h), k), v, Spin(s, m, v).value.0, Spin(s, m, v).value.1.event);
    }
  }

  lemma SettledKeeps(s: Settings, b: Mapper, g: History, v: Verdict, n: Mapper, event: Option<Dispatch>)
    requires Core(s, b, g) && b.pushed
    requires b.images != [] ==> b.images[0] + s.exposure >= b.lastUpdate - EPSILON
    requires if Due(s, b).None? then n == b && event == None
             else Dispatched(s, b, Due(s, b).value, v) == Ok((n, event))
    ensures match event {
              case None => n == b
              case Some(d) => Core(s, n, EventHistory(g, b, n, d))
            }
  {
    if Due(s, b).Some? {
      DispatchKeeps(s, b, g, Due(s, b).value, v);
    }
  }

  // What is recorded for a spin is what opening, dropping and the event recorded one by one.
  lemma RecordIsSteps(h: History, m: Mapper, b: Mapper, k: nat, after: Mapper, r: Report)
    requires r.dropped == k && NeedInit(b) == NeedInit(m)
    requires r.event.None? ==> after == b
    ensures Record(h, m, after, r) ==
            match r.event
            case None => DropHistory(OpenHistory(b, h), k)
            case Some(d) => EventHistory(DropHistory(OpenHistory(b, h), k), b, after, d)
  {
    assert h.fates + Repeat(k, false) + [] == h.fates + Repeat(k, false);
  }

  // ---------- every run ----------

  // No image falls within the tolerance before the end of a scan.
  ghost predicate NoGraze(s: Settings, h: History) {
    forall i, j :: 0 <= i < |h.all| && 0 <= j < |h.received| ==>
      !(h.all[i].end - EPSILON <= h.received[j] + s.exposure < h.all[i].end)
  }

  predicate NonDecreasing(log: seq<Dispatch>) {
    forall i, j :: 0 <= i < j < |log| ==> log[i].time <= log[j].time
  }

  // The state time is a scan end or the time of a dispatched image.
  ghost predicate AtEvent(s: Settings, m: Mapper, h: History) {
    (exists i :: 0 <= i < h.closed && i < |h.all| && m.lastUpdate == h.all[i].end) ||
    (exists j :: 0 <= j < |h.fates| && j < |h.received| && m.lastUpdate == h.received[j] + s.exposure)
  }

  ghost predicate Clean(s: Settings, m: Mapper, h: History) {
    NoGraze(s, h) && (!NeedInit(m) ==> AtEvent(s, m, h)) && NonDecreasing(h.log) &&
    (h.log != [] ==> 0.0 <= h.log[|h.log| - 1].time == m.lastUpdate)
  }

  lemma ImagesStayAhead(s: Settings, m: Mapper, h: History, i: nat)
    requires ImagesOk(m, h) && NoGraze(s, h) && AtEvent(s, m, h)
    requires |h.fates| <= i < |h.received| && h.received[i] + s.exposure >= m.lastUpdate - EPSILON
    ensures h.received[i] + s.exposure >= m.lastUpdate
  {
    if j :| 0 <= j < |h.fates| && j < |h.received| && m.lastUpdate == h.received[j] + s.exposure {
      assert h.received[j] + 0.02 <= h.received[i];
    } else {
      var k :| 0 <= k < h.closed && k < |h.all| && m.lastUpdate == h.all[k].end;
      assert !(h.all[k].end - EPSILON <= h.received[i] + s.exposure < h.all[k].end);
    }
  }

  // After opening and dropping, the due event is not older than the last one.
  lemma DueIsForward(s: Settings, b: Mapper, g: History)
    requires ScansOk(b, g) && TimeOk(b, g) && ImagesOk(b, g) && b.pushed && b.scans != []
    requires NoGraze(s, g) && (!NeedInit(b) ==> AtEvent(s, b, g))
    requires b.images != [] ==> b.images[0] + s.exposure >= b.lastUpdate - EPSILON
    ensures Due(s, b).Some? ==> Due(s, b).value.time >= b.lastUpdate
  {
    if Due(s, b).Some? && Due(s, b).value.Vio? {
      assert b.images[0] == g.received[|g.fates|];
      ImagesStayAhead(s, b, g, |g.fates|);
    }
  }

  // Without grazing images the due event is never older than the last one.
  lemma CleanGoesForward(s: Settings, m: Mapper, h: History)
    requires Core(s, m, h) && Clean(s, m, h) && !NothingToOpen(m)
    ensures Prepared(s, m).Ok?
    ensures var b := Prepared(s, m).value.0;
            Due(s, b).Some? ==> Due(s, b).value.time >= b.lastUpdate
    ensures var b := Prepared(s, m).value.0;
            NeedInit(b) || b.front.process.stateTime <= b.lastUpdate
  {
    PrepareKeeps(s, m, h);
    var b, k := Prepared(s, m).value.0, Prepared(s, m).value.1;
    PreparedStaysClean(s, m, h, b, DropHistory(OpenHistory(b, h), k));
  }

  lemma MoreFatesStayAtEvent(s: Settings, m: Mapper, h: History, b: Mapper, g: History)
    requires AtEvent(s, m, h) && b.lastUpdate == m.lastUpdate
    requires g.all == h.all && g.closed >= h.closed && g.received == h.received && |g.fates| >= |h.fates|
    ensures AtEvent(s, b, g)
  {
  }

  lemma DispatchShape(s: Settings, b: Mapper, d: Dispatch, v: Verdict)
    requires b.scans != [] && (d.Vio? ==> b.images != []) && Dispatched(s, b, d, v).Ok?
    ensures var r := Dispatched(s, b, d, v).value;
            match r.1 {
              case None => r.0 == b
              case Some(e) => e == d && r.0.lastUpdate == d.time && (!NeedInit(b) ==> !NeedInit(r.0))
            }
  {
    if Step(s.motion, b.front, QueryOf(d, v)).Ok? {
      QueryEffect(s.motion, b.front, QueryOf(d, v));
    }
  }

  lemma CleanAfterEvent(s: Settings, b: Mapper, h: History, n: Mapper, g: History, d: Dispatch)
    requires NoGraze(s, h) && NonDecreasing(h.log)
    requires h.log != [] ==> h.log[|h.log| - 1].time == b.lastUpdate
    requires b.lastUpdate <= d.time == n.lastUpdate && 0.0 <= b.lastUpdate
    requires ScansOk(b, h) && ImagesOk(b, h) && b.scans != []
    requires d.Lio? ==> d.time == b.scans[0].end
    requires d.Vio? ==> b.images != [] && d.time == b.images[0] + s.exposure
    requires g == EventHistory(h, b, n, d)
    ensures Clean(s, n, g)
  {
    if d.Lio? {
      assert n.lastUpdate == g.all[g.closed - 1].end;
    } else {
      assert n.lastUpdate == g.received[|g.fates| - 1] + s.exposure;
    }
  }

  // A spin on a clean history raises nothing and keeps everything.
  lemma SpinKeepsClean(s: Settings, m: Mapper, h: History, v: Verdict)
    requires Core(s, m, h) && Clean(s, m, h)
    ensures Spin(s, m, v).Ok?
    ensures var r := Spin(s, m, v).value;
            Core(s, r.0, Record(h, m, r.0, r.1)) && Clean(s, r.0, Record(h, m, r.0, r.1))
  {
    if NothingToOpen(m) {
      assert h.fates + Repeat(0, false) + [] == h.fates;
    } else {
      CleanGoesForward(s, m, h);
      SpinThrowsIffBehind(s, m, h, v);
      SpinKeeps(s, m, h, v);
      SpinStaysClean(s, m, h, v);
    }
  }

  lemma SpinStaysClean(s: Settings, m: Mapper, h: History, v: Verdict)
    requires Core(s, m, h) && Clean(s, m, h) && !NothingToOpen(m) && Spin(s, m, v).Ok?
    ensures var r := Spin(s, m, v).value;
            Clean(s, r.0, Record(h, m, r.0, r.1))
  {
    PrepareKeeps(s, m, h);
    var b, k := Prepared(s, m).value.0, Prepared(s, m).value.1;
    var r := Spin(s, m, v).value;
    PreparedStaysClean(s, m, h, b, DropHistory(OpenHistory(b, h), k));
    RecordOfSpin(s, m, h, v, b, k);
    ReportStaysClean(s, b, DropHistory(OpenHistory(b, h), k), r.0, Record(h, m, r.0, r.1), r.1.event);
  }

  // The step from the prepared state to the state after the report.
  lemma ReportStaysClean(s: Settings, b: Mapper, g: History, n: Mapper, after: History, event: Option<Dispatch>)
    requires Clean(s, b, g) && ScansOk(b, g) && ImagesOk(b, g) && b.scans != [] && 0.0 <= b.lastUpdate
    requires match event
             case None => n == b && after == g
             case Some(d) => Due(s, b) == Some(d) && n.lastUpdate == d.time >= b.lastUpdate
                             && after == EventHistory(g, b, n, d)
    ensures Clean(s, n, after)
  {
    if event.Some? { CleanAfterEvent(s, b, g, n, after, event.value); }
  }

  lemma PreparedStaysClean(s: Settings, m: Mapper, h: History, b: Mapper, g: History)
    requires Clean(s, m, h) && ScansOk(b, g) && TimeOk(b, g) && ImagesOk(b, g) && b.pushed
    requires NeedInit(b) == NeedInit(m) && ((NeedInit(m) && m.lastUpdate < 0.0) || b.lastUpdate == m.lastUpdate)
    requires b.images != [] ==> b.images[0] + s.exposure >= b.lastUpdate - EPSILON
    requires g == h.(fates := g.fates, initEnd := g.initEnd) && |g.fates| >= |h.fates|
    ensures Clean(s, b, g) && (Due(s, b).Some? ==> Due(s, b).value.time >= b.lastUpdate)
  {
    if !NeedInit(m) {
      MoreFatesStayAtEvent(s, m, h, b, g);
    }
    DueIsForward(s, b, g);
  }

  lemma RecordOfSpin(s: Settings, m: Mapper, h: History, v: Verdict, b: Mapper, k: nat)
    requires Shaped(m) && !NothingToOpen(m) && Prepared(s, m) == Ok((b, k)) && Spin(s, m, v).Ok?
    requires NeedInit(b) == NeedInit(m)
    ensures var r := Spin(s, m, v).value;
            if Due(s, b).None? then r.0 == b && r.1.event == None
            else Dispatched(s, b, Due(s, b).value, v) == Ok((r.0, r.1.event))
    ensures var r := Spin(s, m, v).value;
            var g := DropHistory(OpenHistory(b, h), k);
            match r.1.event {
              case None => r.0 == b && Record(h, m, r.0, r.1) == g
              case Some(d) => Due(s, b) == Some(d) && r.0.lastUpdate == d.time &&
                              Record(h, m, r.0, r.1) == EventHistory(g, b, r.0, d)
            }
  {
    var r := Spin(s, m, v).value;
    if Due(s, b).Some? {
      DispatchShape(s, b, Due(s, b).value, v);
    }
    RecordIsSteps(h, m, b, k, r.0, r.1);
  }

  // What the sensors guarantee: scans do not overlap and hold at least two points, and IMU stamps
  // strictly increase. Images may come at any time.
  predicate Conforms(m: Mapper, h: History, i: Input) {
    match i
    case ScanIn(scan) => scan.points >= 2 && 0.0 <= scan.begin < scan.end && LastEnd(h.all) <= scan.begin
    case ImageIn(_) => true
    case ImuIn(u) => u.stamp >= -1.0 && u.stamp > m.newestImu
    case SpinIn(_) => true
  }

  // Moreover, no image grazes a scan end.
  ghost predicate Admissible(s: Settings, m: Mapper, h: History, i: Input) {
    Conforms(m, h, i) &&
    match i
    case ScanIn(scan) => NoGraze(s, h.(all := h.all + [scan]))
    case ImageIn(time) => KeepsImage(m, time) ==> NoGraze(s, h.(received := h.received + [time]))
    case ImuIn(_) => true
    case SpinIn(_) => true
  }

  lemma ScanKeeps(s: Settings, m: Mapper, h: History, scan: Scan)
    requires Core(s, m, h) && Conforms(m, h, ScanIn(scan))
    ensures Core(s, ScanArrives(m, scan), h.(all := h.all + [scan]))
  {
    var n, g := ScanArrives(m, scan), h.(all := h.all + [scan]);
    ScanKeepsOrder(m, h, n, g, scan);
    ScanKeepsRest(s, m, h, n, g, scan);
  }

  lemma ScanKeepsRest(s: Settings, m: Mapper, h: History, n: Mapper, g: History, scan: Scan)
    requires EstimatorOk(m) && ContractOk(m) && ImagesOk(m, h) && FatesOk(s, m, h) && BackOk(s, m, h) && LogOk(s, h)
    requires n == ScanArrives(m, scan) && g == h.(all := h.all + [scan])
    ensures EstimatorOk(n) && ContractOk(n) && ImagesOk(n, g) && FatesOk(s, n, g) && BackOk(s, n, g) && LogOk(s, g)
  {
    assert g.all[..g.closed] == h.all[..h.closed];
  }

  lemma ArrivalStaysAtEvent(s: Settings, m: Mapper, h: History, n: Mapper, g: History)
    requires AtEvent(s, m, h) && n.lastUpdate == m.lastUpdate
    requires h.all <= g.all && h.received <= g.received && g.closed == h.closed && g.fates == h.fates
    ensures AtEvent(s, n, g)
  {
    if j :| 0 <= j < |h.fates| && j < |h.received| && m.lastUpdate == h.received[j] + s.exposure {
      assert m.lastUpdate == g.received[j] + s.exposure;
    } else {
      var i :| 0 <= i < h.closed && i < |h.all| && m.lastUpdate == h.all[i].end;
      assert m.lastUpdate == g.all[i].end;
    }
  }

  lemma ScanKeepsOrder(m: Mapper, h: History, n: Mapper, g: History, scan: Scan)
    requires ScansOk(m, h) && TimeOk(m, h)
    requires scan.points >= 2 && 0.0 <= scan.begin < scan.end && LastEnd(h.all) <= scan.begin
    requires n == ScanArrives(m, scan) && g == h.(all := h.all + [scan])
    ensures ScansOk(n, g) && TimeOk(n, g)
  {
    OneMoreScan(h.all, scan);
  }

  lemma OneMoreScan(all: seq<Scan>, scan: Scan)
    requires InOrder(all) && LastEnd(all) <= scan.begin
    requires scan.points >= 2 && 0.0 <= scan.begin < scan.end
    ensures InOrder(all + [scan]) && LastEnd(all) <= LastEnd(all + [scan])
  {
    forall i | 0 <= i < |all|
      ensures all[i].end <= scan.begin
    {
      if i < |all| - 1 {
        assert all[i].end <= all[|all| - 1].begin;
      }
    }
  }

  lemma ImageArrivalKeeps(s: Settings, m: Mapper, h: History, time: real)
    requires Core(s, m, h) && KeepsImage(m, time)
    ensures Core(s, ImageArrives(m, time), h.(received := h.received + [time]))
  {
    var n, g := ImageArrives(m, time), h.(received := h.received + [time]);
    NewImageKeeps(s, m, h, n, g, time);
    SameChoice(s, h.received, h.fates, time);
  }

  lemma NewImageKeeps(s: Settings, m: Mapper, h: History, n: Mapper, g: History, time: real)
    requires ImagesOk(m, h) && FatesOk(s, m, h) && BackOk(s, m, h) && KeepsImage(m, time)
    requires n == ImageArrives(m, time) && g == h.(received := h.received + [time])
    ensures ImagesOk(n, g) && FatesOk(s, n, g) && BackOk(s, n, g)
  {
    forall i | 0 <= i < |h.received|
      ensures h.received[i] + 0.02 <= time
    {
      if i < |h.received| - 1 {
        assert h.received[i] + 0.02 <= h.received[|h.received| - 1];
      }
    }
  }

  lemma {:induction false} SameChoice(s: Settings, received: seq<real>, fates: seq<bool>, time: real)
    requires |fates| <= |received|
    ensures Chosen(s, received + [time], fates) == Chosen(s, received, fates)
  {
    if fates != [] {
      SameChoice(s, received, fates[..|fates| - 1], time);
    }
  }

  lemma ImuKeeps(s: Settings, m: Mapper, h: History, u: Sample)
    requires Core(s, m, h) && Conforms(m, h, ImuIn(u))
    ensures Core(s, ImuArrives(m, u), h)
  {
    ImuKeepsEstimator(m, u);
  }

  lemma ImuKeepsEstimator(m: Mapper, u: Sample)
    requires EstimatorOk(m) && u.stamp >= -1.0 && u.stamp > m.newestImu
    ensures EstimatorOk(ImuArrives(m, u))
  {
    var longer := m.front.buffer + [u];
    assert longer[..|longer| - 1] == m.front.buffer;
  }

  lemma SpinIsAdvance(s: Settings, m: Mapper, h: History, v: Verdict)
    requires Shaped(m)
    ensures match Spin(s, m, v) {
              case Throw(e) => Advance(s, m, h, SpinIn(v)) == Throw(e)
              case Ok(r) => Advance(s, m, h, SpinIn(v)) == Ok((r.0, Record(h, m, r.0, r.1)))
            }
  {
  }

  ghost predicate CoreHolds(s: Settings, o: Outcome<(Mapper, History)>) {
    o.Ok? ==> Core(s, o.value.0, o.value.1)
  }

  // This input makes the scheduler dispatch an image from before the persistent state.
  predicate Stumbles(s: Settings, m: Mapper, i: Input) { i.SpinIn? && Shaped(m) && DueImageIsBehind(s, m) }

  // Wherever the images lie, an input raises an exception exactly when it stumbles, and
  // otherwise keeps the invariant.
  lemma AdvanceThrowsIff(s: Settings, m: Mapper, h: History, i: Input)
    requires Core(s, m, h) && Conforms(m, h, i)
    ensures CoreHolds(s, Advance(s, m, h, i))
    ensures Advance(s, m, h, i).Throw? <==> Stumbles(s, m, i)
    ensures Advance(s, m, h, i).Throw? ==> Advance(s, m, h, i).error == QueryPrecedesState
  {
    match i
    case ScanIn(scan) => ScanKeeps(s, m, h, scan);
    case ImageIn(time) =>
      if KeepsImage(m, time) {
        ImageArrivalKeeps(s, m, h, time);
      }
    case ImuIn(u) => ImuKeeps(s, m, h, u);
    case SpinIn(v) =>
      SpinIsAdvance(s, m, h, v);
      SpinThrowsIffBehind(s, m, h, v);
      if Spin(s, m, v).Ok? { SpinKeeps(s, m, h, v); }
  }

  // Arrivals leave the state time and the events alone.
  lemma ArrivalStaysClean(s: Settings, m: Mapper, h: History, n: Mapper, g: History)
    requires Clean(s, m, h) && NoGraze(s, g) && NeedInit(n) == NeedInit(m) && n.lastUpdate == m.lastUpdate
    requires h.all <= g.all && h.received <= g.received && g == h.(all := g.all, received := g.received)
    ensures Clean(s, n, g)
  {
    if !NeedInit(m) {
      ArrivalStaysAtEvent(s, m, h, n, g);
    }
  }

  // The input raised nothing and the invariant holds again.
  ghost predicate Held(s: Settings, o: Outcome<(Mapper, History)>) {
    o.Ok? && Core(s, o.value.0, o.value.1) && Clean(s, o.value.0, o.value.1)
  }

  lemma AdvanceKeeps(s: Settings, m: Mapper, h: History, i: Input)
    requires Core(s, m, h) && Clean(s, m, h) && Admissible(s, m, h, i)
    ensures Held(s, Advance(s, m, h, i))
  {
    match i
    case SpinIn(v) =>
      SpinKeepsClean(s, m, h, v);
      SpinIsAdvance(s, m, h, v);
    case _ =>
      AdvanceThrowsIff(s, m, h, i);
      var r := Advance(s, m, h, i).value;
      ArrivalStaysClean(s, m, h, r.0, r.1);
  }

  // The machine before anything has arrived.
  predicate Fresh0(m: Mapper) {
    NeedInit(m) && m.front.buffer == [] && m.scans == [] && m.images == [] && m.newestImage == -1.0 &&
    m.newestImu == -1.0 && !m.pushed && m.lastUpdate == -1.0 && m.life == IDLE
  }

  const EMPTY := History([], 0, [], [], [], -1.0)

  // Inputs arrive one by one; each has to be admissible where it arrives.
  ghost predicate AdmissibleRun(s: Settings, m: Mapper, inputs: seq<Input>) {
    inputs == [] ||
    (AdmissibleRun(s, m, inputs[..|inputs| - 1]) &&
     var before := Ran(s, m, inputs[..|inputs| - 1]);
     before.Ok? && Admissible(s, before.value.0, before.value.1, inputs[|inputs| - 1]))
  }

  ghost function Ran(s: Settings, m: Mapper, inputs: seq<Input>): Outcome<(Mapper, History)> {
    if inputs == [] then Ok((m, EMPTY))
    else
      var before := Ran(s, m, inputs[..|inputs| - 1]);
      if before.Throw? || !Shaped(before.value.0) then before
      else Advance(s, before.value.0, before.value.1, inputs[|inputs| - 1])
  }

  ghost predicate ConformingRun(s: Settings, m: Mapper, inputs: seq<Input>) {
    inputs == [] ||
    (ConformingRun(s, m, inputs[..|inputs| - 1]) &&
     var before := Ran(s, m, inputs[..|inputs| - 1]);
     before.Ok? ==> Conforms(before.value.0, before.value.1, inputs[|inputs| - 1]))
  }

  // Input n of the run dispatches an image from before the persistent state.
  ghost predicate StumblesAt(s: Settings, m: Mapper, inputs: seq<Input>, n: nat) {
    n < |inputs| && Ran(s, m, inputs[..n]).Ok? && Stumbles(s, Ran(s, m, inputs[..n]).value.0, inputs[n])
  }

  // Wherever the images lie, a run raises an exception exactly when one of its passes finds an
  // image due that lies before the persistent state; the exception is always the one of `view`.
  lemma {:induction false} RunThrowsIffBehind(s: Settings, m: Mapper, inputs: seq<Input>)
    requires Fresh0(m) && ConformingRun(s, m, inputs)
    ensures CoreHolds(s, Ran(s, m, inputs))
    ensures Ran(s, m, inputs).Throw? <==> exists n: nat :: StumblesAt(s, m, inputs, n)
    ensures Ran(s, m, inputs).Throw? ==> Ran(s, m, inputs).error == QueryPrecedesState
  {
    if inputs != [] {
      var init := inputs[..|inputs| - 1];
      RunThrowsIffBehind(s, m, init);
      LastThrowsIff(s, m, inputs);
      forall n: nat
        ensures StumblesAt(s, m, inputs, n) <==>
                StumblesAt(s, m, init, n) || (n == |init| && LastStumbles(s, m, inputs))
      {
        StumblesEarlier(s, m, inputs, n);
      }
      if LastStumbles(s, m, inputs) {
        assert StumblesAt(s, m, inputs, |init|);
      } else if Ran(s, m, init).Throw? {
        var n: nat :| StumblesAt(s, m, init, n);
        assert StumblesAt(s, m, inputs, n);
      }
    }
  }

  ghost predicate LastStumbles(s: Settings, m: Mapper, inputs: seq<Input>)
    requires inputs != []
  {
    var before := Ran(s, m, inputs[..|inputs| - 1]);
    before.Ok? && Stumbles(s, before.value.0, inputs[|inputs| - 1])
  }

  lemma LastThrowsIff(s: Settings, m: Mapper, inputs: seq<Input>)
    requires inputs != [] && ConformingRun(s, m, inputs) && CoreHolds(s, Ran(s, m, inputs[..|inputs| - 1]))
    ensures CoreHolds(s, Ran(s, m, inputs))
    ensures var before := Ran(s, m, inputs[..|inputs| - 1]);
            (before.Throw? ==> Ran(s, m, inputs) == before) &&
            (before.Ok? ==>
               (Ran(s, m, inputs).Throw? <==> LastStumbles(s, m, inputs)) &&
               (Ran(s, m, inputs).Throw? ==> Ran(s, m, inputs).error == QueryPrecedesState))
  {
    var before := Ran(s, m, inputs[..|inputs| - 1]);
    if before.Ok? {
      AdvanceThrowsIff(s, before.value.0, before.value.1, inputs[|inputs| - 1]);
    }
  }

  lemma StumblesEarlier(s: Settings, m: Mapper, inputs: seq<Input>, n: nat)
    requires inputs != []
    ensures StumblesAt(s, m, inputs, n) <==>
            StumblesAt(s, m, inputs[..|inputs| - 1], n) || (n == |inputs| - 1 && LastStumbles(s, m, inputs))
  {
    if n < |inputs| - 1 { assert inputs[..n] == inputs[..|inputs| - 1][..n]; }
  }

  // A run that fails: an image half a microsecond before the end of the first scan, at which the
  // initialisation is completed by a sample with the stamp of that end.
  const GRAZING_ARRIVALS: seq<Input> := [ImageIn(9.8999995), ScanIn(Scan(9.8, 9.9, 2)), ImuIn(Sample(9.9, 0))]

  function GrazingInputs(v: Verdict, w: Verdict): seq<Input> {
    GRAZING_ARRIVALS + [SpinIn(v)] + [ScanIn(Scan(9.9, 10.0, 2))] + [SpinIn(w)]
  }

  // The machine before and after the first pass of that run.
  function GrazingArrived(m: Mapper): Mapper {
    m.(front := m.front.(buffer := [Sample(9.9, 0)]), scans := [Scan(9.8, 9.9, 2)], images := [9.8999995],
       newestImage := 9.8999995, newestImu := 9.9)
  }

  function GrazingStarted(m: Mapper, start: Start): Mapper {
    var p := Process(Sample(9.9, 0), 9.9, start.rates, [], None, m.front.process.timeInit, false);
    m.(front := m.front.(buffer := [], state := start.state, process := p), scans := [], images := [9.8999995],
       newestImage := 9.8999995, newestImu := 9.9, lastUpdate := 9.9,
       life := Contract(true, 9.8, 9.9, false, 0, 0, 0, true, 9.8))
  }

  // The first scan opened.
  function GrazingOpened(m: Mapper): Mapper {
    var a := GrazingArrived(m);
    a.(pushed := true, lastUpdate := 9.8, life := Contract(true, 9.8, 9.9, false, 0, 0, 0, true, 9.8),
       front := a.front.(process := ScanBegun(a.front.process, 9.8, a.front.state)))
  }

  lemma GrazingPrepared(s: Settings, m: Mapper)
    requires Fresh0(m) && s.exposure == 0.0
    ensures Prepared(s, GrazingArrived(m)) == Ok((GrazingOpened(m), 0)) && NeedInit(GrazingOpened(m))
    ensures Due(s, GrazingOpened(m)) == Some(Lio(9.9))
  {
  }

  lemma GrazingInitialised(s: Settings, m: Mapper, v: Verdict)
    requires Fresh0(m) && v.start.Some?
    ensures Initialised(GrazingOpened(m), 9.9, v) == Ok(GrazingStarted(m, v.start.value))
  {
    OneSampleStarts(GrazingOpened(m), Sample(9.9, 0), 9.9, v);
    assert GrazingOpened(m).scans[1..] == [];
  }

  // The only buffered sample completes the initialisation.
  lemma OneSampleStarts(b: Mapper, u: Sample, time: real, v: Verdict)
    requires b.scans != [] && b.front.buffer == [u] && b.lastUpdate + EPSILON < u.stamp <= time && 0.0 <= b.lastUpdate
    requires v.start.Some?
    ensures Initialised(b, time, v) ==
            Ok(b.(front := Anchored(b.front.(buffer := []), u, v.start), scans := b.scans[1..], pushed := false,
                  lastUpdate := time))
  {
    assert [u][..1] == [u] && [u][1..] == [] && [u][..0] == [];
    assert FirstAfter([u], time) == 1 && Fresh([u], b.lastUpdate) == [u];
  }

  lemma GrazingFirstPass(s: Settings, m: Mapper, v: Verdict)
    requires Fresh0(m) && s.exposure == 0.0 && v.start.Some?
    ensures Spin(s, GrazingArrived(m), v) == Ok((GrazingStarted(m, v.start.value), Report(0, Some(Lio(9.9)))))
  {
    GrazingPrepared(s, m);
    GrazingInitialised(s, m, v);
    assert !NothingToOpen(GrazingArrived(m));
  }

  lemma GrazingSecondPass(s: Settings, m: Mapper, start: Start, w: Verdict)
    requires Fresh0(m) && s.exposure == 0.0 && !s.lookahead
    ensures Spin(s, GrazingStarted(m, start).(scans := [Scan(9.9, 10.0, 2)]), w) == Throw(QueryPrecedesState)
  {
  }

  lemma OneMoreInput(s: Settings, m: Mapper, inputs: seq<Input>, before: Mapper, h: History, i: Input)
    requires ConformingRun(s, m, inputs) && Ran(s, m, inputs) == Ok((before, h)) && Shaped(before)
    requires Conforms(before, h, i)
    ensures ConformingRun(s, m, inputs + [i]) && Ran(s, m, inputs + [i]) == Advance(s, before, h, i)
  {
    assert (inputs + [i])[..|inputs|] == inputs;
  }

  // A concrete run that fails: the drop loop keeps the image, and `view` refuses it.
  lemma GrazingRunThrows(s: Settings, m: Mapper, v: Verdict, w: Verdict)
    requires Fresh0(m) && s.exposure == 0.0 && !s.lookahead && v.start.Some?
    ensures ConformingRun(s, m, GrazingInputs(v, w))
    ensures Ran(s, m, GrazingInputs(v, w)) == Throw(QueryPrecedesState)
  {
    GrazingArrives(s, m);
    var h := GrazingHistory();
    OneMoreInput(s, m, GRAZING_ARRIVALS, GrazingArrived(m), h, SpinIn(v));
    GrazingFirstPass(s, m, v);
    var g := Record(h, GrazingArrived(m), GrazingStarted(m, v.start.value), Report(0, Some(Lio(9.9))));
    GrazingEnds(s, m, v, w, g);
  }

  lemma GrazingEnds(s: Settings, m: Mapper, v: Verdict, w: Verdict, g: History)
    requires Fresh0(m) && s.exposure == 0.0 && !s.lookahead && v.start.Some? && LastEnd(g.all) == 9.9
    requires ConformingRun(s, m, GRAZING_ARRIVALS + [SpinIn(v)])
    requires Ran(s, m, GRAZING_ARRIVALS + [SpinIn(v)]) == Ok((GrazingStarted(m, v.start.value), g))
    ensures ConformingRun(s, m, GrazingInputs(v, w))
    ensures Ran(s, m, GrazingInputs(v, w)) == Throw(QueryPrecedesState)
  {
    var scan := Scan(9.9, 10.0, 2);
    var n := GrazingStarted(m, v.start.value);
    OneMoreInput(s, m, GRAZING_ARRIVALS + [SpinIn(v)], n, g, ScanIn(scan));
    GrazingSecondPass(s, m, v.start.value, w);
    OneMoreThrow(s, m, GRAZING_ARRIVALS + [SpinIn(v)] + [ScanIn(scan)], ScanArrives(n, scan),
                 g.(all := g.all + [scan]), w);
  }

  lemma OneMoreThrow(s: Settings, m: Mapper, inputs: seq<Input>, before: Mapper, h: History, w: Verdict)
    requires ConformingRun(s, m, inputs) && Ran(s, m, inputs) == Ok((before, h)) && Shaped(before)
    requires Spin(s, before, w) == Throw(QueryPrecedesState)
    ensures ConformingRun(s, m, inputs + [SpinIn(w)])
    ensures Ran(s, m, inputs + [SpinIn(w)]) == Throw(QueryPrecedesState)
  {
    OneMoreInput(s, m, inputs, before, h, SpinIn(w));
  }

  function GrazingHistory(): History { EMPTY.(all := [Scan(9.8, 9.9, 2)], received := [9.8999995]) }

  lemma GrazingArrives(s: Settings, m: Mapper)
    requires Fresh0(m)
    ensures ConformingRun(s, m, GRAZING_ARRIVALS)
    ensures Ran(s, m, GRAZING_ARRIVALS) == Ok((GrazingArrived(m), GrazingHistory()))
  {
    var image, scan, u := 9.8999995, Scan(9.8, 9.9, 2), Sample(9.9, 0);
    assert m.images + [image] == [image] && EMPTY.received + [image] == [image];
    assert m.scans + [scan] == [scan] && EMPTY.all + [scan] == [scan] && m.front.buffer + [u] == [u];
    OneMoreInput(s, m, [], m, EMPTY, ImageIn(image));
    OneMoreInput(s, m, [] + [ImageIn(image)], ImageArrives(m, image), EMPTY.(received := [image]), ScanIn(scan));
    OneMoreInput(s, m, [] + [ImageIn(image)] + [ScanIn(scan)], ScanArrives(ImageArrives(m, image), scan),
                 GrazingHistory(), ImuIn(u));
    assert GRAZING_ARRIVALS == [] + [ImageIn(image)] + [ScanIn(scan)] + [ImuIn(u)];
  }

  // No admissible run of the scheduler raises an exception, and the invariant always holds.
  lemma {:induction false} RunsAreSafe(s: Settings, m: Mapper, inputs: seq<Input>)
    requires Fresh0(m) && AdmissibleRun(s, m, inputs)
    ensures Ran(s, m, inputs).Ok?
    ensures Core(s, Ran(s, m, inputs).value.0, Ran(s, m, inputs).value.1)
    ensures Clean(s, Ran(s, m, inputs).value.0, Ran(s, m, inputs).value.1)
  {
    if inputs != [] {
      RunsAreSafe(s, m, inputs[..|inputs| - 1]);
      var before := Ran(s, m, inputs[..|inputs| - 1]).value;
      AdvanceKeeps(s, before.0, before.1, inputs[|inputs| - 1]);
    }
  }

  // ---------- what the invariant says about a run ----------

  // Event times never decrease, and the LiDAR events are exactly the endpoints of the closed
  // scans, one each, in the order of the scans.
  lemma EventsAreOrdered(s: Settings, m: Mapper, inputs: seq<Input>)
    requires Fresh0(m) && AdmissibleRun(s, m, inputs)
    ensures Ran(s, m, inputs).Ok?
    ensures var (n, h) := Ran(s, m, inputs).value;
            NonDecreasing(h.log) && h.closed <= |h.all| && LioTimes(h.log) == Ends(h.all[..h.closed]) &&
            n.scans == h.all[h.closed..]
  {
    RunsAreSafe(s, m, inputs);
  }

  // From the end of the initialisation scan on, no image is lost: an image that has left the
  // buffer was dispatched, every image before the state time has left it, and the image events
  // are exactly the dispatched images, once each and in order.
  lemma NoImageIsLost(s: Settings, m: Mapper, inputs: seq<Input>, i: nat)
    requires Fresh0(m) && AdmissibleRun(s, m, inputs)
    requires Ran(s, m, inputs).Ok? && !NeedInit(Ran(s, m, inputs).value.0)
    ensures var (n, h) := Ran(s, m, inputs).value;
            |h.fates| <= |h.received| && n.images == h.received[|h.fates|..] &&
            VioTimes(h.log) == Chosen(s, h.received, h.fates) &&
            (i < |h.received| && h.received[i] + s.exposure >= h.initEnd ==>
               (i < |h.fates| ==> h.fates[i]) &&
               (h.received[i] + s.exposure < n.lastUpdate - EPSILON ==> i < |h.fates|))
  {
    RunsAreSafe(s, m, inputs);
  }

  lemma {:induction false} LogHasVio(log: seq<Dispatch>, t: real)
    requires t in VioTimes(log)
    ensures Vio(t) in log
  {
    if t in VioTimes(log[..|log| - 1]) { LogHasVio(log[..|log| - 1], t); }
  }

  lemma {:induction false} LogHasLio(log: seq<Dispatch>, t: real)
    requires t in LioTimes(log)
    ensures Lio(t) in log
  {
    if t in LioTimes(log[..|log| - 1]) { LogHasLio(log[..|log| - 1], t); }
  }

  lemma {:induction false} ChosenHas(s: Settings, received: seq<real>, fates: seq<bool>, i: nat)
    requires i < |fates| <= |received| && fates[i]
    ensures received[i] + s.exposure in Chosen(s, received, fates)
  {
    if i < |fates| - 1 { ChosenHas(s, received, fates[..|fates| - 1], i); }
  }

  lemma {:induction false} EndsHave(scans: seq<Scan>, j: nat)
    requires j < |scans|
    ensures scans[j].end in Ends(scans)
  {
    if j < |scans| - 1 { EndsHave(scans[..|scans| - 1], j); }
  }

  // An image event of this time comes before the LiDAR event of that time.
  ghost predicate VioBeforeLio(log: seq<Dispatch>, image: real, end: real) {
    exists a, b :: 0 <= a < b < |log| && log[a] == Vio(image) && log[b] == Lio(end)
  }

  lemma InScanIsBefore(s: Settings, m: Mapper, h: History, i: nat, j: nat)
    requires Core(s, m, h) && Clean(s, m, h) && !NeedInit(m) && i < |h.received| && j < h.closed
    requires h.initEnd <= h.received[i] + s.exposure < h.all[j].end
    ensures VioBeforeLio(h.log, h.received[i] + s.exposure, h.all[j].end)
  {
    var image, end := h.received[i] + s.exposure, h.all[j].end;
    ClosedIsPast(s, m, h, j);
    assert !(end - EPSILON <= image < end);
    OldImageIsOut(s, m, h, i);
    TimesOrder(h.log, image, end);
  }

  lemma ClosedIsPast(s: Settings, m: Mapper, h: History, j: nat)
    requires LogOk(s, h) && Clean(s, m, h) && j < h.closed
    ensures Lio(h.all[j].end) in h.log && h.all[j].end <= m.lastUpdate
  {
    EndsHave(h.all[..h.closed], j);
    LogHasLio(h.log, h.all[j].end);
    var b :| 0 <= b < |h.log| && h.log[b] == Lio(h.all[j].end);
    assert b < |h.log| - 1 ==> h.log[b].time <= h.log[|h.log| - 1].time;
  }

  lemma OldImageIsOut(s: Settings, m: Mapper, h: History, i: nat)
    requires FatesOk(s, m, h) && LogOk(s, h) && !NeedInit(m) && i < |h.received|
    requires h.initEnd <= h.received[i] + s.exposure < m.lastUpdate - EPSILON
    ensures Vio(h.received[i] + s.exposure) in h.log
  {
    ChosenHas(s, h.received, h.fates, i);
    LogHasVio(h.log, h.received[i] + s.exposure);
  }

  lemma TimesOrder(log: seq<Dispatch>, image: real, end: real)
    requires NonDecreasing(log) && Vio(image) in log && Lio(end) in log && image < end
    ensures VioBeforeLio(log, image, end)
  {
    var a :| 0 <= a < |log| && log[a] == Vio(image);
    var b :| 0 <= b < |log| && log[b] == Lio(end);
    assert log[a].time < log[b].time;
  }

  // When a scan is closed by its LiDAR event, every image with a time before the scan end and not
  // before the initialisation end has already been dispatched.
  lemma ImagesComeBeforeScanEnd(s: Settings, m: Mapper, inputs: seq<Input>, i: nat, j: nat)
    requires Fresh0(m) && AdmissibleRun(s, m, inputs)
    requires Ran(s, m, inputs).Ok? && !NeedInit(Ran(s, m, inputs).value.0)
    requires var h := Ran(s, m, inputs).value.1;
             i < |h.received| && j < h.closed <= |h.all| && h.initEnd <= h.received[i] + s.exposure < h.all[j].end
    ensures var h := Ran(s, m, inputs).value.1;
            VioBeforeLio(h.log, h.received[i] + s.exposure, h.all[j].end)
  {
    RunsAreSafe(s, m, inputs);
    InScanIsBefore(s, Ran(s, m, inputs).value.0, Ran(s, m, inputs).value.1, i, j);
  }
}
