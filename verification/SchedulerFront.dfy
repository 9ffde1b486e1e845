// The front end inside the scheduler: every run of the scheduler drives the front end through a
// run of its own, so the images it rejects leave no trace there either.
module SchedulerFront {
  import opened Outcomes
  import opened ImuCoverage
  import opened ImuTransaction
  import opened ScanContract
  import opened LivoScheduler
  import opened LivoSchedule
  import E = EstimatorRuns

  function Drive(m: Mapper): E.Driver { E.Driver(m.front, m.lastUpdate) }

  // What the front end sees of one input: an arriving sample, the begin of a scan when a pass
  // opens one, and the event that the pass hands over.
  function EventsOf(s: Settings, a: Mapper, i: Input): seq<E.Event>
    requires Shaped(a) && (i.SpinIn? ==> Spin(s, a, i.verdict).Ok?)
  {
    match i
    case ScanIn(_) => []
    case ImageIn(_) => []
    case ImuIn(u) => [E.Arrive(u)]
    case SpinIn(v) => if NothingToOpen(a) then [] else Opening(a) + HandedOver(Spin(s, a, v).value.1.event, v)
  }

  function Opening(a: Mapper): seq<E.Event>
    requires Shaped(a) && !NothingToOpen(a)
  {
    if a.pushed then [] else [E.BeginScan(a.scans[0].begin)]
  }

  function HandedOver(event: Option<Dispatch>, v: Verdict): seq<E.Event> {
    if event.Some? then [QueryOf(event.value, v)] else []
  }

  // What the front end sees of a run from input k on.
  ghost function EventsSince(s: Settings, m: Mapper, inputs: seq<Input>, k: nat): seq<E.Event>
    requires k <= |inputs| && Ran(s, m, inputs).Ok?
  {
    if |inputs| == k then []
    else
      var before := Ran(s, m, inputs[..|inputs| - 1]).value.0;
      EventsSince(s, m, inputs[..|inputs| - 1], k) +
      if Shaped(before) then EventsOf(s, before, inputs[|inputs| - 1]) else []
  }

  lemma {:induction false} RunAppends(m: Motion, d: E.Driver, es: seq<E.Event>, more: seq<E.Event>)
    requires E.Run(m, d, es).Ok?
    ensures E.Run(m, d, es + more) == E.Run(m, E.Run(m, d, es).value, more)
  {
    if more == [] {
      assert es + more == es;
    } else {
      var init := more[..|more| - 1];
      RunAppends(m, d, es, init);
      assert (es + more)[..|es + more| - 1] == es + init;
    }
  }

  // ---------- one input ----------

  lemma OneEvent(m: Motion, d: E.Driver, e: E.Event)
    ensures E.Run(m, d, [e]) == E.Handle(m, d, e)
  {
    E.OneMoreEvent(m, d, [], e);
    assert [] + [e] == [e];
  }

  lemma OpeningDrives(s: Settings, a: Mapper)
    requires Shaped(a) && !NothingToOpen(a) && Prepared(s, a).Ok? && 0.0 <= a.lastUpdate
    ensures E.Run(s.motion, Drive(a), Opening(a)) == Ok(Drive(Prepared(s, a).value.0))
  {
    if !a.pushed { OneEvent(s.motion, Drive(a), E.BeginScan(a.scans[0].begin)); }
  }

  lemma HandingOverDrives(s: Settings, b: Mapper, d: Dispatch, v: Verdict, n: Mapper)
    requires b.scans != [] && (d.Vio? ==> b.images != []) && !NeedInit(b)
    requires Dispatched(s, b, d, v) == Ok((n, Some(d)))
    ensures E.Run(s.motion, Drive(b), [QueryOf(d, v)]) == Ok(Drive(n)) && !NeedInit(n) && n.lastUpdate == d.time
  {
    OneEvent(s.motion, Drive(b), QueryOf(d, v));
    DispatchShape(s, b, d, v);
  }

  // After the initialisation one input moves the front end as its own run over these events does.
  lemma InputDrives(s: Settings, a: Mapper, h: History, i: Input)
    requires Core(s, a, h) && !NeedInit(a) && Advance(s, a, h, i).Ok?
    ensures var n := Advance(s, a, h, i).value.0;
            !NeedInit(n) && E.Run(s.motion, Drive(a), EventsOf(s, a, i)) == Ok(Drive(n))
  {
    match i
    case ScanIn(_) =>
    case ImageIn(_) =>
    case ImuIn(u) => OneEvent(s.motion, Drive(a), E.Arrive(u));
    case SpinIn(v) =>
      if !NothingToOpen(a) {
        PrepareKeeps(s, a, h);
        SpinDrives(s, a, Prepared(s, a).value.0, Prepared(s, a).value.1, v);
      }
  }

  lemma SpinDrives(s: Settings, a: Mapper, b: Mapper, k: nat, v: Verdict)
    requires Shaped(a) && !NothingToOpen(a) && Prepared(s, a) == Ok((b, k)) && 0.0 <= a.lastUpdate
    requires Spin(s, a, v).Ok? && !NeedInit(b) && b.scans != []
    ensures var r := Spin(s, a, v).value;
            !NeedInit(r.0) &&
            E.Run(s.motion, Drive(a), Opening(a) + HandedOver(r.1.event, v)) == Ok(Drive(r.0))
  {
    var r := Spin(s, a, v).value;
    OpeningDrives(s, a);
    if Due(s, b).Some? {
      DispatchShape(s, b, Due(s, b).value, v);
    }
    if r.1.event.Some? {
      HandingOverDrives(s, b, r.1.event.value, v, r.0);
    }
    RunAppends(s.motion, Drive(a), Opening(a), HandedOver(r.1.event, v));
  }

  // ---------- whole runs ----------

  ghost predicate IsInitialised(s: Settings, m: Mapper, inputs: seq<Input>) {
    Ran(s, m, inputs).Ok? && !NeedInit(Ran(s, m, inputs).value.0)
  }

  // From any moment after the initialisation on, the scheduler drives the front end through the
  // run over the events that it sees.
  lemma {:induction false} RunDrives(s: Settings, m: Mapper, inputs: seq<Input>, k: nat)
    requires Fresh0(m) && ConformingRun(s, m, inputs) && Ran(s, m, inputs).Ok?
    requires k <= |inputs| && IsInitialised(s, m, inputs[..k])
    ensures IsInitialised(s, m, inputs)
    ensures E.Run(s.motion, Drive(Ran(s, m, inputs[..k]).value.0), EventsSince(s, m, inputs, k)) ==
            Ok(Drive(Ran(s, m, inputs).value.0))
    decreases |inputs|
  {
    if |inputs| == k {
      assert inputs[..k] == inputs;
    } else {
      var init := inputs[..|inputs| - 1];
      assert init[..k] == inputs[..k];
      RunDrives(s, m, init, k);
      RunThrowsIffBehind(s, m, init);
      var (a, h) := Ran(s, m, init).value;
      InputDrives(s, a, h, inputs[|inputs| - 1]);
      RunAppends(s.motion, Drive(Ran(s, m, inputs[..k]).value.0), EventsSince(s, m, init, k),
                 EventsOf(s, a, inputs[|inputs| - 1]));
    }
  }

  // ---------- no rejected image matters ----------

  // The events have not gone back behind this time further than the tolerance, and no image that
  // is waiting or still to come can do so.
  predicate Since(s: Settings, a: Mapper, t: real) {
    a.lastUpdate >= t - EPSILON &&
    (a.lastUpdate < t ==> Ahead(s, a, t) && a.newestImage + s.exposure + 0.02 >= t)
  }

  predicate QueriesSince(es: seq<E.Event>, t: real) {
    forall i :: 0 <= i < |es| && es[i].Query? ==> es[i].target >= t - EPSILON
  }

  lemma PreparedImages(s: Settings, a: Mapper, t: real)
    requires Shaped(a) && !NothingToOpen(a) && Prepared(s, a).Ok? && 0.0 <= a.lastUpdate && Since(s, a, t)
    ensures Since(s, Prepared(s, a).value.0, t)
  {
  }

  lemma ImageStaysSince(s: Settings, b: Mapper, h: History, n: Mapper, t: real)
    requires ImagesOk(b, h) && b.images != [] && Since(s, b, t)
    requires n.images == b.images[1..] && n.newestImage == b.newestImage
    requires n.lastUpdate == b.images[0] + s.exposure >= b.lastUpdate - EPSILON
    ensures Since(s, n, t)
  {
    var k := |h.fates|;
    assert b.images[0] == h.received[k];
    if k < |h.received| - 1 {
      assert h.received[k] + 0.02 <= h.received[|h.received| - 1];
    }
    forall i | 0 <= i < |n.images|
      ensures n.images[i] + s.exposure >= n.lastUpdate + 0.02
    {
      assert n.images[i] == h.received[k + i + 1];
    }
  }

  lemma DispatchedImages(s: Settings, b: Mapper, d: Dispatch, v: Verdict, n: Mapper)
    requires b.scans != [] && (d.Vio? ==> b.images != []) && !NeedInit(b)
    requires Dispatched(s, b, d, v) == Ok((n, Some(d)))
    ensures n.images == (if d.Vio? then b.images[1..] else b.images) && n.newestImage == b.newestImage
    ensures n.lastUpdate == d.time
  {
  }

  lemma EventStaysSince(s: Settings, b: Mapper, h: History, d: Dispatch, v: Verdict, n: Mapper, t: real)
    requires Core(s, b, h) && b.pushed && !NeedInit(b) && Due(s, b) == Some(d) && Since(s, b, t)
    requires b.images != [] ==> b.images[0] + s.exposure >= b.lastUpdate - EPSILON
    requires Dispatched(s, b, d, v) == Ok((n, Some(d)))
    ensures Since(s, n, t)
  {
    DispatchedImages(s, b, d, v, n);
    if d.Vio? { ImageStaysSince(s, b, h, n, t); }
  }

  // A pass prepares the machine and reports at most the event that is then due.
  lemma SpinReports(s: Settings, a: Mapper, h: History, v: Verdict, t: real) returns (b: Mapper, g: History)
    requires Core(s, a, h) && !NeedInit(a) && !NothingToOpen(a) && Spin(s, a, v).Ok? && Since(s, a, t)
    ensures Core(s, b, g) && b.pushed && !NeedInit(b) && Since(s, b, t)
    ensures b.images != [] ==> b.images[0] + s.exposure >= b.lastUpdate - EPSILON
    ensures var r := Spin(s, a, v).value;
            if Due(s, b).None? then r.0 == b && r.1.event == None
            else Dispatched(s, b, Due(s, b).value, v) == Ok((r.0, r.1.event))
  {
    PrepareKeeps(s, a, h);
    b, g := Prepared(s, a).value.0, DropHistory(OpenHistory(Prepared(s, a).value.0, h), Prepared(s, a).value.1);
    RecordOfSpin(s, a, h, v, b, Prepared(s, a).value.1);
    PreparedImages(s, a, t);
  }

  lemma SpinStaysSince(s: Settings, a: Mapper, h: History, v: Verdict, t: real)
    requires Core(s, a, h) && !NeedInit(a) && !NothingToOpen(a) && Spin(s, a, v).Ok? && Since(s, a, t)
    ensures Since(s, Spin(s, a, v).value.0, t)
    ensures QueriesSince(Opening(a) + HandedOver(Spin(s, a, v).value.1.event, v), t)
  {
    var b, g := SpinReports(s, a, h, v, t);
    ReportStaysSince(s, b, g, v, Spin(s, a, v).value.0, Spin(s, a, v).value.1.event, t);
    HandedOverSince(Opening(a), Spin(s, a, v).value.1.event, v, t);
  }

  lemma ReportStaysSince(s: Settings, b: Mapper, g: History, v: Verdict, n: Mapper, event: Option<Dispatch>, t: real)
    requires Core(s, b, g) && b.pushed && !NeedInit(b) && Since(s, b, t)
    requires b.images != [] ==> b.images[0] + s.exposure >= b.lastUpdate - EPSILON
    requires if Due(s, b).None? then n == b && event == None
             else Dispatched(s, b, Due(s, b).value, v) == Ok((n, event))
    ensures Since(s, n, t) && (event.Some? ==> event.value.time >= t - EPSILON)
  {
    if Due(s, b).Some? {
      DispatchShape(s, b, Due(s, b).value, v);
      if event.Some? { EventStaysSince(s, b, g, event.value, v, n, t); }
    }
  }

  lemma HandedOverSince(opening: seq<E.Event>, event: Option<Dispatch>, v: Verdict, t: real)
    requires forall i :: 0 <= i < |opening| ==> opening[i].BeginScan?
    requires event.Some? ==> event.value.time >= t - EPSILON
    ensures QueriesSince(opening + HandedOver(event, v), t)
  {
  }

  lemma InputStaysSince(s: Settings, a: Mapper, h: History, i: Input, t: real)
    requires Core(s, a, h) && !NeedInit(a) && Advance(s, a, h, i).Ok? && Since(s, a, t)
    ensures Since(s, Advance(s, a, h, i).value.0, t) && QueriesSince(EventsOf(s, a, i), t)
  {
    match i
    case ScanIn(_) =>
    case ImageIn(_) =>
    case ImuIn(_) =>
    case SpinIn(v) =>
      if !NothingToOpen(a) {
        SpinStaysSince(s, a, h, v, t);
      }
  }

  lemma {:induction false} RunStaysSince(s: Settings, m: Mapper, inputs: seq<Input>, k: nat)
    requires Fresh0(m) && ConformingRun(s, m, inputs) && Ran(s, m, inputs).Ok?
    requires k <= |inputs| && IsInitialised(s, m, inputs[..k])
    ensures var t := Ran(s, m, inputs[..k]).value.0.lastUpdate;
            Since(s, Ran(s, m, inputs).value.0, t) && QueriesSince(EventsSince(s, m, inputs, k), t)
    decreases |inputs|
  {
    if |inputs| == k {
      assert inputs[..k] == inputs;
    } else {
      var init := inputs[..|inputs| - 1];
      assert init[..k] == inputs[..k];
      RunStaysSince(s, m, init, k);
      RunDrives(s, m, init, k);
      RunThrowsIffBehind(s, m, init);
      var (a, h) := Ran(s, m, init).value;
      InputStaysSince(s, a, h, inputs[|inputs| - 1], Ran(s, m, inputs[..k]).value.0.lastUpdate);
    }
  }

  lemma {:induction false} FirstCommitIsSince(m: Motion, d: E.Driver, es: seq<E.Event>, t: real)
    requires E.Run(m, d, es).Ok? && QueriesSince(es, t)
    ensures var first := E.FirstCommit(m, d, es);
            first.Some? ==> first.value >= t - EPSILON
  {
    if es != [] {
      var init, last := es[..|es| - 1], es[|es| - 1];
      FirstCommitIsSince(m, d, init, t);
      assert last == es[|es| - 1];
    }
  }

  // From any moment after the initialisation on, the front end of the scheduler ends as if the
  // images that were rejected since then had never been dispatched: its state is that of the run
  // over the arrivals, the scan begins and the committing events alone.
  lemma RejectedImagesVanish(s: Settings, m: Mapper, inputs: seq<Input>, k: nat)
    requires Fresh0(m) && ConformingRun(s, m, inputs) && Ran(s, m, inputs).Ok?
    requires k <= |inputs| && IsInitialised(s, m, inputs[..k])
    ensures var es := E.Committing(EventsSince(s, m, inputs, k));
            var r := E.Run(s.motion, Drive(Ran(s, m, inputs[..k]).value.0), es);
            r.Ok? && r.value.front == Ran(s, m, inputs).value.0.front
  {
    var d, es := Drive(Ran(s, m, inputs[..k]).value.0), EventsSince(s, m, inputs, k);
    RunDrives(s, m, inputs, k);
    RunStaysSince(s, m, inputs, k);
    ConformingPrefix(s, m, inputs, k);
    RunThrowsIffBehind(s, m, inputs[..k]);
    E.RejectedQueriesVanish(s.motion, d, es);
    FirstCommitIsSince(s.motion, d, es, d.lastEvent);
  }

  lemma {:induction false} ConformingPrefix(s: Settings, m: Mapper, inputs: seq<Input>, k: nat)
    requires ConformingRun(s, m, inputs) && k <= |inputs|
    ensures ConformingRun(s, m, inputs[..k])
  {
    if k < |inputs| {
      ConformingPrefix(s, m, inputs[..|inputs| - 1], k);
      assert inputs[..|inputs| - 1][..k] == inputs[..k];
    } else {
      assert inputs[..k] == inputs;
    }
  }
}
