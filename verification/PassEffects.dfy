// What one input does to the scheduler: an image that arrives, a scan that is opened, and the passes
// before the initialisation is complete.
module PassEffects {
  import opened Outcomes
  import opened ImuCoverage
  import opened ImuTransaction
  import opened ScanContract
  import opened LivoScheduler
  import opened LivoSchedule
  import E = EstimatorRuns
  import F = CommittedFlight
  import P = SchedulerProgress

  // ---------- images ----------

  // An image is kept exactly when it is at least 20 ms later than every image kept before.
  lemma ImageKeptIff(m: Mapper, h: History, time: real)
    requires ImagesOk(m, h) && h.received != []
    ensures var n := ImageArrives(m, time);
            if forall k :: 0 <= k < |h.received| ==> h.received[k] + 0.02 <= time
            then n == m.(images := m.images + [time], newestImage := time)
            else n == m
  {
    var last := |h.received| - 1;
    forall k | 0 <= k < |h.received| && h.received[last] + 0.02 <= time
      ensures h.received[k] + 0.02 <= time
    {
      if k < last { assert h.received[k] + 0.02 <= h.received[last]; }
    }
  }

  // The first image is kept, unless its time is negative.
  lemma FirstImageKept(m: Mapper, time: real)
    requires m.newestImage == -1.0 && m.images == []
    ensures ImageArrives(m, time).images == if time >= -0.98 then [time] else []
  {
  }

  // ---------- a scan is opened ----------

  function OpeningTime(m: Mapper): real
    requires m.scans != []
  {
    if m.lastUpdate < 0.0 then m.scans[0].begin else m.lastUpdate
  }

  // The front end over a scan history that begins here, with one node.
  function Seeded(f: E.Front, begin: real): E.Front {
    var p, time := f.process, F.SeedTime(f.process, begin);
    f.(process := p.(poses := [Node(time - begin, f.state, p.rates)], scanOrigin := Some(begin), stateTime := time))
  }

  // The front scan is open in n as it has to be: a fresh contract and a fresh scan history.
  predicate OpenedAs(m: Mapper, n: Mapper)
    requires m.scans != []
  {
    var scan := m.scans[0];
    && n.pushed && n.scans == m.scans && n.lastUpdate == OpeningTime(m)
    && n.life == Contract(true, scan.begin, scan.end, !NeedInit(m), 0, 0, 0, true, OpeningTime(m))
    && n.front == Seeded(m.front, scan.begin)
  }

  // A pass that finds a scan to open and hands over nothing leaves it open, with the images dropped
  // that the state has passed.
  lemma OpeningPass(s: Settings, m: Mapper, v: Verdict)
    requires !m.pushed && m.scans != [] && m.scans[0].points >= 2
    requires Spin(s, m, v).Ok? && Spin(s, m, v).value.1.event.None?
    ensures var (n, r) := Spin(s, m, v).value;
            && OpenedAs(m, n) && r.dropped <= |m.images| && n.images == m.images[r.dropped..]
            && (forall k :: 0 <= k < r.dropped ==> m.images[k] + s.exposure < OpeningTime(m) - 0.000001)
            && (r.dropped < |m.images| ==> m.images[r.dropped] + s.exposure >= OpeningTime(m) - 0.000001)
  {
    StaleFits(s, m.images, OpeningTime(m));
  }

  // A pass that has nothing to open does nothing.
  lemma IdlePass(s: Settings, m: Mapper, v: Verdict)
    requires !m.pushed && (m.scans == [] || m.scans[0].points <= 1)
    ensures Spin(s, m, v) == Ok((m, Report(0, None)))
  {
  }

  // ---------- before the initialisation ----------

  // The time of the last update and the front end once the front scan is open.
  function OpenFrom(m: Mapper): (real, E.Front)
    requires m.scans != []
  {
    if m.pushed then (m.lastUpdate, m.front) else (OpeningTime(m), Seeded(m.front, m.scans[0].begin))
  }

  // This many samples are not after t.
  predicate UpTo(buffer: seq<Sample>, t: real, j: nat) {
    j <= |buffer| && forall i :: 0 <= i < |buffer| ==> (i < j <==> buffer[i].stamp <= t)
  }

  lemma FirstAfterIs(buffer: seq<Sample>, t: real, j: nat)
    requires UpTo(buffer, t, j)
    ensures FirstAfter(buffer, t) == j
  {
    var n := FirstAfter(buffer, t);
    assert n < |buffer| ==> (n < j <==> buffer[n].stamp <= t);
    assert j < |buffer| ==> buffer[j].stamp > t;
  }

  // The last of the samples up to t, when it is fresh.
  lemma {:induction false} LastFresh(buffer: seq<Sample>, start: real, j: nat)
    requires Increasing(buffer) && j <= |buffer|
    ensures var used := Fresh(buffer[..j], start);
            if j > 0 && buffer[j - 1].stamp > start + 0.000001 then used != [] && used[|used| - 1] == buffer[j - 1]
            else used == []
  {
    if j > 0 {
      assert buffer[..j][..j - 1] == buffer[..j - 1];
      LastFresh(buffer, start, j - 1);
      if j > 1 { assert buffer[j - 2].stamp < buffer[j - 1].stamp; }
    }
  }

  // What the initialisation makes of the front end f: the samples up to the scan end are gone; without
  // a fresh one nothing else changes, with one it is the new carry, and once the statistics suffice the
  // prior is in force at its time.
  predicate InitialisedAs(f: E.Front, g: E.Front, from: real, j: nat, start: Option<Start>)
    requires j <= |f.buffer|
  {
    var p := f.process;
    && g.buffer == f.buffer[j..] && g.published == f.published && g.lastStampNs == f.lastStampNs
    && g.complete == f.complete
    && (if j == 0 || f.buffer[j - 1].stamp <= from + 0.000001 then g.state == f.state && g.process == p
        else if start.None? then g.state == f.state && g.process == p.(lastImu := f.buffer[j - 1])
        else
          && g.state == start.value.state
          && g.process == Process(f.buffer[j - 1], f.buffer[j - 1].stamp, start.value.rates, [], None,
                                  p.timeInit, false))
  }

  lemma InitialisedMeans(m: Mapper, time: real, v: Verdict, j: nat)
    requires m.scans != [] && Initialised(m, time, v).Ok?
    requires Increasing(m.front.buffer) && UpTo(m.front.buffer, time, j)
    ensures var n := Initialised(m, time, v).value;
            && n.scans == m.scans[1..] && !n.pushed && n.lastUpdate == time && n.images == m.images
            && n.life == m.life && InitialisedAs(m.front, n.front, m.lastUpdate, j, v.start)
  {
    FirstAfterIs(m.front.buffer, time, j);
    LastFresh(m.front.buffer, m.lastUpdate, j);
  }

  lemma DueBeforeInit(s: Settings, b: Mapper)
    requires b.scans != [] && NeedInit(b)
    ensures Due(s, b) ==
            if b.newestImu >= b.scans[0].end - 0.000001 then Some(Lio(b.scans[0].end)) else None
  {
  }

  lemma PassBeforeInit(s: Settings, m: Mapper, v: Verdict, b: Mapper, k: nat)
    requires Shaped(m) && !NothingToOpen(m) && NeedInit(m) && Prepared(s, m) == Ok((b, k))
    requires Spin(s, m, v).Ok?
    ensures b.scans == m.scans && NeedInit(b) && b.newestImu == m.newestImu && b.front.buffer == m.front.buffer
    ensures (b.lastUpdate, b.front) == OpenFrom(m)
    ensures m.newestImu >= m.scans[0].end - 0.000001 ==> Initialised(b, m.scans[0].end, v).Ok?
    ensures var time := m.scans[0].end;
            Spin(s, m, v).value == if m.newestImu >= time - 0.000001
                                   then (Initialised(b, time, v).value, Report(k, Some(Lio(time))))
                                   else (b, Report(k, None))
  {
    DueBeforeInit(s, b);
  }

  // Main result: before the initialisation a pass closes the front scan as soon as the newest sample
  // reaches its end, whatever images wait; the samples up to there are consumed, and the first such pass
  // with a fresh sample and sufficient statistics puts the prior in force at the time of that sample.
  lemma InitPass(s: Settings, m: Mapper, v: Verdict, j: nat)
    requires Shaped(m) && NeedInit(m) && (m.pushed || (m.scans != [] && m.scans[0].points >= 2))
    requires Increasing(m.front.buffer) && UpTo(m.front.buffer, m.scans[0].end, j) && Spin(s, m, v).Ok?
    ensures var (n, r) := Spin(s, m, v).value;
            var end := m.scans[0].end;
            if m.newestImu >= end - 0.000001 then
              && r.event == Some(Lio(end)) && n.scans == m.scans[1..] && !n.pushed && n.lastUpdate == end
              && InitialisedAs(OpenFrom(m).1, n.front, OpenFrom(m).0, j, v.start)
            else r.event.None? && n.scans == m.scans && n.pushed
  {
    var (b, k) := Prepared(s, m).value;
    PassBeforeInit(s, m, v, b, k);
    var end := m.scans[0].end;
    if m.newestImu >= end - 0.000001 { InitialisedMeans(b, end, v, j); }
  }

  // Such a pass raises an exception exactly when the scan ends before the last update, or when the
  // sample that completes the statistics has no positive stamp.
  lemma InitPassThrowsIff(s: Settings, m: Mapper, v: Verdict, j: nat)
    requires Shaped(m) && NeedInit(m) && (m.pushed || (m.scans != [] && m.scans[0].points >= 2))
    requires Increasing(m.front.buffer) && UpTo(m.front.buffer, m.scans[0].end, j)
    requires Opened(m).Ok? && m.newestImu >= m.scans[0].end - 0.000001
    ensures var end, from := m.scans[0].end, OpenFrom(m).0;
            var anchored := j > 0 && m.front.buffer[j - 1].stamp > from + 0.000001 && v.start.Some?;
            Spin(s, m, v).Throw? <==>
            end < from - 0.000001 || (anchored && m.front.buffer[j - 1].stamp <= 0.0)
  {
    var (b, k) := Prepared(s, m).value;
    DueBeforeInit(s, b);
    InitialisedThrowsIff(b, m.scans[0].end, v, j);
  }

  lemma InitialisedThrowsIff(b: Mapper, time: real, v: Verdict, j: nat)
    requires b.scans != [] && Increasing(b.front.buffer) && UpTo(b.front.buffer, time, j)
    ensures var anchored := j > 0 && b.front.buffer[j - 1].stamp > b.lastUpdate + 0.000001 && v.start.Some?;
            Initialised(b, time, v).Throw? <==>
            time < b.lastUpdate - 0.000001 || (anchored && b.front.buffer[j - 1].stamp <= 0.0)
  {
    FirstAfterIs(b.front.buffer, time, j);
    LastFresh(b.front.buffer, b.lastUpdate, j);
  }

  // ---------- the contract during a scan ----------

  function OpenContract(m: Mapper): Contract
    requires m.scans != []
  {
    if m.pushed then m.life
    else Contract(true, m.scans[0].begin, m.scans[0].end, !NeedInit(m), 0, 0, 0, true, OpeningTime(m))
  }

  lemma DispatchNotes(s: Settings, b: Mapper, d: Dispatch, v: Verdict, n: Mapper)
    requires b.scans != [] && (d.Vio? ==> b.images != []) && !NeedInit(b)
    requires b.life.active && b.life.required && Dispatched(s, b, d, v) == Ok((n, Some(d)))
    ensures var c := b.life;
            n.life == c.(images := c.images + (if d.Vio? then 1 else 0), lios := if d.Lio? then 1 else c.lios,
                         inserts := if d.Lio? && v.inserts then 1 else c.inserts,
                         stateTime := if d.time > c.stateTime then d.time else c.stateTime)
  {
  }

  lemma PreparedContract(s: Settings, m: Mapper, b: Mapper)
    requires Shaped(m) && !NothingToOpen(m) && Prepared(s, m).Ok? && b == Prepared(s, m).value.0
    ensures m.scans != [] && b.life == OpenContract(m)
  {
  }

  // The contract of the open scan notes every event that a pass hands over, and the map insertion
  // of the LiDAR event when there was one.
  lemma EventIsNoted(s: Settings, m: Mapper, h: History, v: Verdict, d: Dispatch)
    requires Core(s, m, h) && !NeedInit(m) && Spin(s, m, v).Ok? && Spin(s, m, v).value.1.event == Some(d)
    ensures m.scans != []
    ensures var c, n := OpenContract(m), Spin(s, m, v).value.0;
            n.life == c.(images := c.images + (if d.Vio? then 1 else 0), lios := if d.Lio? then 1 else c.lios,
                         inserts := if d.Lio? && v.inserts then 1 else c.inserts,
                         stateTime := if d.time > c.stateTime then d.time else c.stateTime)
  {
    var b := P.PassReports(s, m, h, v);
    P.PassIsDispatch(s, m, h, v, b, d);
    PreparedContract(s, m, b);
    DispatchNotes(s, b, d, v, Spin(s, m, v).value.0);
  }
}
