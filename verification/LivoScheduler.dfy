// The LIVO scan/image scheduler: callbacks fill the buffers, and one spin emits at most one
// image event or the LiDAR event that closes the front scan.
module LivoScheduler {
  import opened Outcomes
  import opened ImuCoverage
  import opened ImuTransaction
  import opened EstimatorRuns
  import opened ScanContract

  datatype Scan = Scan(begin: real, end: real, points: nat)

  // Parameters; the look-ahead options only ever make the scheduler wait.
  datatype Settings = Settings(motion: Motion, exposure: real, lookahead: bool, minimumImages: int,
                               lookaheadTime: real)

  // How the front end will treat the event of this spin.
  datatype Verdict = Verdict(stampNs: int, support: bool, accepted: bool, update: int, raw: bool, inserts: bool,
                             start: Option<Start>)

  // Present when the initialisation statistics are complete: the prior they give.
  datatype Start = Start(state: State, rates: Rates)

  datatype Mapper = Mapper(front: Front, scans: seq<Scan>, images: seq<real>, newestImage: real,
                           newestImu: real, pushed: bool, lastUpdate: real, life: Contract)

  datatype Dispatch = Vio(time: real) | Lio(time: real)

  // What one spin did: images it dropped, and the event it handed over.
  datatype Report = Report(dropped: nat, event: Option<Dispatch>)

  // ---------- callbacks ----------

  // img_cbk keeps an image only when it is at least 20 ms newer than the last one kept.
  predicate KeepsImage(m: Mapper, time: real) {
    Abs(time - m.newestImage) >= 0.001 && time >= m.newestImage && time - m.newestImage >= 0.02
  }

  function ImageArrives(m: Mapper, time: real): Mapper {
    if KeepsImage(m, time) then m.(images := m.images + [time], newestImage := time) else m
  }

  function ImuArrives(m: Mapper, u: Sample): Mapper {
    m.(front := m.front.(buffer := m.front.buffer + [u]), newestImu := u.stamp)
  }

  function ScanArrives(m: Mapper, s: Scan): Mapper { m.(scans := m.scans + [s]) }

  // ---------- one spin ----------

  predicate NeedInit(m: Mapper) { m.front.process.needInit }

  function Opened(m: Mapper): Outcome<Mapper>
    requires m.scans != []
  {
    if m.pushed then Ok(m)
    else
      var scan := m.scans[0];
      var update := if m.lastUpdate < 0.0 then scan.begin else m.lastUpdate;
      var life := Begun(m.life, scan.begin, scan.end, scan.points, !NeedInit(m), update);
      if life.Throw? then Throw(life.error)
      else Ok(m.(pushed := true, lastUpdate := update, life := life.value,
                 front := m.front.(process := ScanBegun(m.front.process, scan.begin, m.front.state))))
  }

  // How many images at the front are older than the state.
  function Stale(s: Settings, images: seq<real>, lastUpdate: real): nat {
    if images != [] && images[0] + s.exposure < lastUpdate - EPSILON
    then 1 + Stale(s, images[1..], lastUpdate) else 0
  }

  lemma {:induction false} StaleFits(s: Settings, images: seq<real>, lastUpdate: real)
    ensures Stale(s, images, lastUpdate) <= |images|
    ensures forall i :: 0 <= i < Stale(s, images, lastUpdate) ==> images[i] + s.exposure < lastUpdate - EPSILON
    ensures Stale(s, images, lastUpdate) < |images| ==>
              images[Stale(s, images, lastUpdate)] + s.exposure >= lastUpdate - EPSILON
  {
    if images != [] && images[0] + s.exposure < lastUpdate - EPSILON {
      StaleFits(s, images[1..], lastUpdate);
    }
  }

  predicate Inside(s: Settings, m: Mapper)
    requires m.scans != []
  {
    !NeedInit(m) && m.images != [] && m.images[0] + s.exposure < m.scans[0].end - EPSILON
  }

  // The event that is due on an opened scan, or none while a buffer has to fill first.
  function Due(s: Settings, m: Mapper): (d: Option<Dispatch>)
    requires m.scans != []
    ensures d.Some? && d.value.Vio? ==> Inside(s, m) && d.value.time == m.images[0] + s.exposure
    ensures d.Some? && d.value.Lio? ==> !Inside(s, m) && d.value.time == m.scans[0].end
  {
    var end := m.scans[0].end;
    var inside := Inside(s, m);
    var time := if inside then m.images[0] + s.exposure else end;
    if inside && s.lookahead && |m.images| < s.minimumImages then None
    else if inside && s.lookahead && s.lookaheadTime > 0.0 &&
            m.images[|m.images| - 1] < m.images[0] + s.lookaheadTime then None
    else if !inside && !NeedInit(m) && m.newestImage + s.exposure < end - EPSILON then None
    else if m.newestImu < time - EPSILON then None
    else Some(if inside then Vio(time) else Lio(time))
  }

  function Anchored(f: Front, last: Sample, start: Option<Start>): Front {
    match start
    case None => f.(process := f.process.(lastImu := last))
    case Some(prior) =>
      f.(state := prior.state,
         process := Process(last, last.stamp, prior.rates, [], None, f.process.timeInit, false))
  }

  // Events before the initialisation is complete: samples are consumed, the scan is closed, and
  // the prior is anchored at the last sample once the statistics suffice.
  function Initialised(m: Mapper, time: real, v: Verdict): Outcome<Mapper>
    requires m.scans != []
  {
    var n := FirstAfter(m.front.buffer, time);
    var used := Fresh(m.front.buffer[..n], m.lastUpdate);
    var g := m.front.(buffer := m.front.buffer[n..]);
    var closed := m.(front := g, scans := m.scans[1..], pushed := false, lastUpdate := time);
    if time < m.lastUpdate - EPSILON then Throw(MovedBackwards)
    else if used == [] then Ok(closed)
    else
      var last := used[|used| - 1];
      if v.start.Some? && (last.stamp <= 0.0 || last.stamp > time) then Throw(InitTimeInvalid)
      else Ok(closed.(front := Anchored(g, last, v.start)))
  }

  // The query of the front end that an event becomes.
  function QueryOf(d: Dispatch, v: Verdict): Event {
    Query(d.time, v.stampNs, d.Lio?, v.support, v.accepted, v.update, v.raw)
  }

  function ImageEvent(s: Settings, m: Mapper, time: real, v: Verdict): Outcome<Mapper>
    requires m.images != []
  {
    var life := ImageNoted(m.life, time);
    if life.Throw? then Throw(life.error)
    else if time < m.lastUpdate - EPSILON then Throw(MovedBackwards)
    else
      var front := Step(s.motion, m.front, QueryOf(Vio(time), v));
      if front.Throw? then Throw(front.error)
      else Ok(m.(front := front.value, images := m.images[1..], lastUpdate := time, life := life.value))
  }

  // The LiDAR event and the map insertion noted in the contract of a required scan.
  function LidarNoted(c: Contract, time: real, inserts: bool): Outcome<Contract> {
    if !c.active || !c.required then Ok(c)
    else
      var noted := LioNoted(c, time);
      if noted.Throw? || !inserts then noted else InsertNoted(noted.value)
  }

  // The transaction of a LiDAR event; the scan contract is noted between propagation and update.
  function LidarTransaction(m: Motion, d: Driver, life: Contract, time: real, v: Verdict): Outcome<(Front, Contract)>
    requires Ready(d.front, time)
  {
    if time < d.lastEvent - EPSILON then Throw(MovedBackwards)
    else
      var flown := Propagated(m, d.front, time, true);
      var noted := LidarNoted(life, time, v.inserts);
      if flown.Throw? then Throw(flown.error)
      else if noted.Throw? then Throw(noted.error)
      else
        var front := Settled(m, d.front, flown.value, QueryOf(Lio(time), v));
        if front.Throw? then Throw(front.error) else Ok((front.value, noted.value))
  }

  function LidarEvent(s: Settings, m: Mapper, time: real, v: Verdict): Outcome<Mapper>
    requires m.scans != [] && Ready(m.front, time)
  {
    var r := LidarTransaction(s.motion, Driver(m.front, m.lastUpdate), m.life, time, v);
    if r.Throw? then Throw(r.error)
    else Ok(m.(front := r.value.0, scans := m.scans[1..], pushed := false, lastUpdate := time, life := r.value.1))
  }

  // The due event, once its samples are there.
  function Dispatched(s: Settings, m: Mapper, d: Dispatch, v: Verdict): Outcome<(Mapper, Option<Dispatch>)>
    requires m.scans != [] && (d.Vio? ==> m.images != [])
  {
    var view := ViewOf(m.front.buffer, CursorOf(m.front.process), d.time);
    if NeedInit(m) then
      var n := Initialised(m, d.time, v);
      if n.Throw? then Throw(n.error) else Ok((n.value, Some(d)))
    else if view.Throw? then Throw(view.error)
    else if !view.value.ready then Ok((m, None))
    else
      var n := if d.Vio? then ImageEvent(s, m, d.time, v) else LidarEvent(s, m, d.time, v);
      if n.Throw? then Throw(n.error) else Ok((n.value, Some(d)))
  }

  predicate Shaped(m: Mapper) { m.pushed ==> m.scans != [] }

  // No scan, or a degenerate one, at the front.
  predicate NothingToOpen(m: Mapper) { !m.pushed && (m.scans == [] || m.scans[0].points <= 1) }

  // The front scan opened and the stale images dropped.
  function Prepared(s: Settings, m: Mapper): Outcome<(Mapper, nat)>
    requires Shaped(m) && !NothingToOpen(m)
    ensures Prepared(s, m).Ok? ==> Prepared(s, m).value.0.scans == m.scans
  {
    var a := Opened(m);
    if a.Throw? then Throw(a.error)
    else
      var k := Stale(s, a.value.images, a.value.lastUpdate);
      StaleFits(s, a.value.images, a.value.lastUpdate);
      Ok((a.value.(images := a.value.images[k..]), k))
  }

  function Spin(s: Settings, m: Mapper, v: Verdict): Outcome<(Mapper, Report)>
    requires Shaped(m)
  {
    if NothingToOpen(m) then Ok((m, Report(0, None)))
    else
      var p := Prepared(s, m);
      if p.Throw? then Throw(p.error)
      else
        var (b, k) := p.value;
        var due := Due(s, b);
        if due.None? then Ok((b, Report(k, None)))
        else
          var d := Dispatched(s, b, due.value, v);
          if d.Throw? then Throw(d.error) else Ok((d.value.0, Report(k, d.value.1)))
  }

  // ---------- runs and their history ----------

  datatype Input = ScanIn(scan: Scan) | ImageIn(time: real) | ImuIn(sample: Sample) | SpinIn(verdict: Verdict)

  // Everything that has happened: all scans, the images kept by the callback with the fate of
  // those that left the buffer (true when dispatched), and the events handed over.
  datatype History = History(all: seq<Scan>, closed: nat, received: seq<real>, fates: seq<bool>,
                             log: seq<Dispatch>, initEnd: real)

  function Repeat(n: nat, b: bool): seq<bool> { seq(n, _ => b) }

  function Record(h: History, before: Mapper, after: Mapper, r: Report): History {
    h.(closed := if r.event.Some? && r.event.value.Lio? then h.closed + 1 else h.closed,
       fates := h.fates + Repeat(r.dropped, false) + if r.event.Some? && r.event.value.Vio? then [true] else [],
       log := if r.event.Some? then h.log + [r.event.value] else h.log,
       initEnd := if NeedInit(before) then after.lastUpdate else h.initEnd)
  }

  function Advance(s: Settings, m: Mapper, h: History, i: Input): Outcome<(Mapper, History)>
    requires Shaped(m)
  {
    match i
    case ScanIn(scan) => Ok((ScanArrives(m, scan), h.(all := h.all + [scan])))
    case ImageIn(time) =>
      Ok((ImageArrives(m, time), if KeepsImage(m, time) then h.(received := h.received + [time]) else h))
    case ImuIn(u) => Ok((ImuArrives(m, u), h))
    case SpinIn(v) =>
      var r := Spin(s, m, v);
      if r.Throw? then Throw(r.error) else Ok((r.value.0, Record(h, m, r.value.0, r.value.1)))
  }

  // ---------- the object ----------

  class LivMapper {
    const settings: Settings
    const front: FrontEnd
    const life: LivoScanLifecycle
    var scans: seq<Scan>
    var images: seq<real>
    var newestImage: real
    var newestImu: real
    var lidarPushed: bool

    constructor (settings: Settings, front: FrontEnd)
      requires front.Idle() && front.process.motion == settings.motion && front.lastEvent == -1.0
      ensures this.settings == settings && this.front == front && Valid()
      ensures View() == Mapper(front.View(), [], [], -1.0, -1.0, false, -1.0, IDLE)
    {
      this.settings, this.front := settings, front;
      life := new LivoScanLifecycle();
      scans, images, newestImage, newestImu, lidarPushed := [], [], -1.0, -1.0, false;
    }

    function View(): Mapper
      reads this, front, front.process, life
    {
      Mapper(front.View(), scans, images, newestImage, newestImu, lidarPushed, front.lastEvent, life.View())
    }

    ghost predicate Valid()
      reads this, front, front.process, front.working, life
    {
      front.process.motion == settings.motion && front.Idle() && Shaped(View())
    }

    method ScanCallback(scan: Scan)
      requires Valid()
      modifies this`scans
      ensures Valid() && View() == ScanArrives(old(View()), scan)
    {
      scans := scans + [scan];
    }

    method ImageCallback(time: real)
      requires Valid()
      modifies this`images, this`newestImage
      ensures Valid() && View() == ImageArrives(old(View()), time)
    {
      if Abs(time - newestImage) < 0.001 || time < newestImage || time - newestImage < 0.02 {
        return;
      }
      images, newestImage := images + [time], time;
    }

    method ImuCallback(u: Sample)
      requires Valid()
      modifies this`newestImu, front`imuBuffer
      ensures Valid() && View() == ImuArrives(old(View()), u)
    {
      newestImu := u.stamp;
      front.ImuCallback(u);
    }

    method OpenScan() returns (r: Outcome<()>)
      requires Valid() && scans != []
      modifies this, front`lastEvent, front.process, life
      ensures match Opened(old(View())) {
                case Throw(e) => r == Throw(e)
                case Ok(m) => r == Ok(()) && Valid() && View() == m
              }
    {
      if lidarPushed {
        return Ok(());
      }
      if front.lastEvent < 0.0 {
        front.lastEvent := scans[0].begin;
      }
      r := life.Begin(scans[0].begin, scans[0].end, scans[0].points, !front.process.imuNeedInit, front.lastEvent);
      if r.Throw? {
        return;
      }
      front.BeginScan(scans[0].begin);
      lidarPushed := true;
    }

    method DropStaleImages() returns (k: nat)
      requires Valid()
      modifies this`images
      ensures Valid() && k == Stale(settings, old(images), front.lastEvent) <= |old(images)|
      ensures View() == old(View()).(images := old(images)[k..])
    {
      k := 0;
      while images != [] && images[0] + settings.exposure < front.lastEvent - EPSILON
        invariant k <= |old(images)| && images == old(images)[k..]
        invariant Stale(settings, old(images), front.lastEvent) == k + Stale(settings, images, front.lastEvent)
        decreases |images|
      {
        images := images[1..];
        k := k + 1;
      }
    }

    // The samples up to the event are consumed; those after the last update are handed over.
    method ConsumeImu(time: real) returns (used: seq<Sample>)
      modifies front`imuBuffer
      ensures var n := FirstAfter(old(front.imuBuffer), time);
              front.imuBuffer == old(front.imuBuffer)[n..] && used == Fresh(old(front.imuBuffer)[..n], front.lastEvent)
    {
      used := [];
      ghost var k := 0;
      var buffer := front.imuBuffer;
      while buffer != [] && buffer[0].stamp <= time
        invariant k <= |old(front.imuBuffer)| && buffer == old(front.imuBuffer)[k..]
        invariant FirstAfter(old(front.imuBuffer), time) == k + FirstAfter(buffer, time)
        invariant used == Fresh(old(front.imuBuffer)[..k], front.lastEvent)
        decreases |buffer|
      {
        assert old(front.imuBuffer)[..k + 1][..k] == old(front.imuBuffer)[..k];
        if buffer[0].stamp > front.lastEvent + EPSILON {
          used := used + [buffer[0]];
        }
        buffer := buffer[1..];
        k := k + 1;
      }
      front.imuBuffer := buffer;
    }

    // The carry, and once the statistics suffice the prior, anchored at the last sample.
    method AnchorPrior(last: Sample, start: Option<Start>)
      requires front.Idle()
      modifies front`state, front.process
      ensures front.Idle() && front.View() == Anchored(old(front.View()), last, start)
    {
      if start.Some? {
        front.process.lastPropEndTime := last.stamp;
        front.process.imuPose, front.process.scanOrigin := [], None;
        front.process.rates := start.value.rates;
        front.state := start.value.state;
        front.process.imuNeedInit := false;
      }
      front.process.lastImu := last;
    }

    // An event before the initialisation is complete (Process2 up to its early return).
    method InitialiseImu(time: real, v: Verdict) returns (r: Outcome<()>)
      requires Valid() && scans != []
      modifies this, front, front.process
      ensures match Initialised(old(View()), time, v) {
                case Throw(e) => r == Throw(e)
                case Ok(m) => r == Ok(()) && Valid() && View() == m
              }
    {
      var used := ConsumeImu(time);
      scans, lidarPushed := scans[1..], false;
      if time < front.lastEvent - EPSILON {
        return Throw(MovedBackwards);
      }
      if used != [] {
        var last := used[|used| - 1];
        if v.start.Some? && (last.stamp <= 0.0 || last.stamp > time) {
          return Throw(InitTimeInvalid);
        }
        AnchorPrior(last, v.start);
      }
      front.lastEvent := time;
      return Ok(());
    }

    method DispatchImage(samples: seq<Sample>, time: real, v: Verdict) returns (r: Outcome<()>)
      requires Valid() && images != [] && !front.process.imuNeedInit && Ready(front.View(), time)
      requires samples == ViewOf(front.imuBuffer, CursorOf(front.process.Fields()), time).value.samples
      modifies this, front, front.process, front.working, life
      ensures match ImageEvent(settings, old(View()), time, v) {
                case Throw(e) => r == Throw(e)
                case Ok(m) => r == Ok(()) && Valid() && View() == m
              }
    {
      images := images[1..];
      r := life.NoteImage(time);
      if r.Throw? {
        return;
      }
      r := front.Settle(samples, time, v.stampNs, false, v.support, v.accepted, v.update, v.raw);
    }

    method NoteLidar(time: real, inserts: bool) returns (r: Outcome<()>)
      modifies life
      ensures match LidarNoted(old(life.View()), time, inserts) {
                case Throw(e) => r == Throw(e)
                case Ok(c) => r == Ok(()) && life.View() == c
              }
    {
      r := Ok(());
      if life.active && life.required {
        r := life.NoteLioTransaction(time);
        if r.Ok? && inserts {
          r := life.NoteMapInsertion();
        }
      }
    }

    method DispatchLidar(samples: seq<Sample>, time: real, v: Verdict) returns (r: Outcome<()>)
      requires Valid() && scans != [] && !front.process.imuNeedInit && Ready(front.View(), time)
      requires samples == ViewOf(front.imuBuffer, CursorOf(front.process.Fields()), time).value.samples
      modifies this, front, front.process, front.working, life
      ensures match LidarEvent(settings, old(View()), time, v) {
                case Throw(e) => r == Throw(e)
                case Ok(m) => r == Ok(()) && Valid() && View() == m
              }
    {
      scans, lidarPushed := scans[1..], false;
      r := TransactLidar(samples, time, v);
    }

    method TransactLidar(samples: seq<Sample>, time: real, v: Verdict) returns (r: Outcome<()>)
      requires front.process.motion == settings.motion && front.Idle()
      requires !front.process.imuNeedInit && Ready(front.View(), time)
      requires samples == ViewOf(front.imuBuffer, CursorOf(front.process.Fields()), time).value.samples
      modifies front, front.process, front.working, life
      ensures match LidarTransaction(settings.motion, old(front.Drive()), old(life.View()), time, v) {
                case Throw(e) => r == Throw(e)
                case Ok(x) => r == Ok(()) && front.Idle() && front.Drive() == Driver(x.0, time) && life.View() == x.1
              }
    {
      ghost var before := front.View();
      r := front.ProcessImu(samples, time, true);
      if r.Throw? {
        return;
      }
      r := NoteLidar(time, v.inserts);
      if r.Throw? {
        return;
      }
      r := front.EstimateAndMap(time, v.stampNs, true, v.support, v.accepted, v.update, v.raw, before);
    }

    // The due event, once its samples are there.
    method HandOver(d: Dispatch, v: Verdict) returns (r: Outcome<Option<Dispatch>>)
      requires Valid() && scans != [] && (d.Vio? ==> images != [])
      modifies this, front, front.process, front.working, life
      ensures match Dispatched(settings, old(View()), d, v) {
                case Throw(e) => r == Throw(e)
                case Ok(m) => r == Ok(m.1) && Valid() && View() == m.0
              }
    {
      var o := Ok(());
      if front.process.imuNeedInit {
        o := InitialiseImu(d.time, v);
      } else {
        var view := ImuCoverage.View(front.imuBuffer, CursorOf(front.process.Fields()), d.time);
        if view.Throw? {
          return Throw(view.error);
        }
        if !view.value.ready {
          return Ok(None);
        }
        if d.Vio? {
          o := DispatchImage(view.value.samples, d.time, v);
        } else {
          o := DispatchLidar(view.value.samples, d.time, v);
        }
      }
      return if o.Throw? then Throw(o.error) else Ok(Some(d));
    }

    // One pass of the main loop: sync_packages and, when it hands over an event, processImu and
    // stateEstimationAndMapping.
    method SyncAndProcess(v: Verdict) returns (r: Outcome<Report>)
      requires Valid()
      modifies this, front, front.process, front.working, life
      ensures match Spin(settings, old(View()), v) {
                case Throw(e) => r == Throw(e)
                case Ok(m) => r == Ok(m.1) && Valid() && View() == m.0
              }
    {
      if NothingToOpen(View()) {
        return Ok(Report(0, None));
      }
      var begun := OpenScan();
      if begun.Throw? {
        return Throw(begun.error);
      }
      var k := DropStaleImages();
      var due := Due(settings, View());
      if due.None? {
        return Ok(Report(k, None));
      }
      var event := HandOver(due.value, v);
      return if event.Throw? then Throw(event.error) else Ok(Report(k, event.value));
    }
  }
}
