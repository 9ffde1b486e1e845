// The camera-aligned pose logger: one output row for every received camera stamp.
module CameraLogger {
  import opened Outcomes
  import opened PoseBuffer

  // The interpolation itself stays uninterpreted; it may fail to be finite.
  datatype Settings = Settings(window: nat, gap: nat, sound: (Pose, Pose, int) -> bool)

  datatype Reason = AlignmentNotReady | InterpolationGap | MissingMapToOdom

  datatype Verdict = Valid(before: Pose, after: Pose, correction: Pose) | Invalid(reason: Reason)

  datatype Row = Row(stamp: int, verdict: Verdict)

  // What a decision depends on: the two pose buffers and the backend status.
  datatype Inputs = Inputs(raw: seq<Pose>, corrections: seq<Pose>, seen: bool, ready: bool)

  predicate Interpolates(g: Settings, x: Pose, y: Pose, stamp: int) {
    x.stamp <= stamp <= y.stamp && y.stamp - x.stamp <= g.gap && g.sound(x, y, stamp)
  }

  // The row for one stamp, or None while it has to wait.
  function Decide(g: Settings, b: Inputs, stamp: int, force: bool): Option<Verdict> {
    if b.corrections == [] then
      if (b.seen && !b.ready) || force then Some(Invalid(AlignmentNotReady)) else None
    else if stamp < b.corrections[0].stamp then Some(Invalid(AlignmentNotReady))
    else
      match Bracket(b.raw, stamp)
      case None =>
        if !force && (b.raw == [] || b.raw[|b.raw| - 1].stamp < stamp) then None
        else Some(Invalid(InterpolationGap))
      case Some((x, y)) =>
        if !Interpolates(g, x, y, stamp) then Some(Invalid(InterpolationGap))
        else
          match Causal(b.corrections, stamp)
          case None => Some(Invalid(if b.seen && !b.ready then AlignmentNotReady else MissingMapToOdom))
          case Some(c) => Some(Valid(x, y, c))
  }

  // The rows written, and the stamps still waiting.
  function Drained(g: Settings, b: Inputs, pending: seq<int>, force: bool): (seq<Row>, seq<int>) {
    if pending == [] then ([], [])
    else
      match Decide(g, b, pending[0], force)
      case None => ([], pending)
      case Some(v) =>
        var rest := Drained(g, b, pending[1..], force);
        ([Row(pending[0], v)] + rest.0, rest.1)
  }

  datatype Tally = Tally(received: nat, total: nat, valid: nat, invalid: nat,
                         notReady: nat, gap: nat, missing: nat)

  function Tallied(t: Tally, v: Verdict): Tally {
    match v
    case Valid(_, _, _) => t.(total := t.total + 1, valid := t.valid + 1)
    case Invalid(AlignmentNotReady) => t.(total := t.total + 1, invalid := t.invalid + 1, notReady := t.notReady + 1)
    case Invalid(InterpolationGap) => t.(total := t.total + 1, invalid := t.invalid + 1, gap := t.gap + 1)
    case Invalid(MissingMapToOdom) => t.(total := t.total + 1, invalid := t.invalid + 1, missing := t.missing + 1)
  }

  function TalliedAll(t: Tally, rows: seq<Row>): Tally
    decreases |rows|
  {
    if rows == [] then t else TalliedAll(Tallied(t, rows[0].verdict), rows[1..])
  }

  // The number of leading stamps not after t.
  function Position(pending: seq<int>, t: int): (n: nat)
    ensures n <= |pending|
  {
    if pending == [] || pending[0] > t then 0 else 1 + Position(pending[1..], t)
  }

  function Queued(pending: seq<int>, t: int): seq<int> {
    var i := Position(pending, t);
    pending[..i] + [t] + pending[i..]
  }

  datatype Logger = Logger(inputs: Inputs, pending: seq<int>, rows: seq<Row>, tally: Tally)

  const EMPTY := Logger(Inputs([], [], false, false), [], [], Tally(0, 0, 0, 0, 0, 0, 0))

  datatype Event = Camera(stamp: int) | RawOdometry(pose: Pose) | Correction(pose: Pose) | Status(ready: bool)

  function Drain(g: Settings, s: Logger, force: bool): Logger {
    var d := Drained(g, s.inputs, s.pending, force);
    Logger(s.inputs, d.1, s.rows + d.0, TalliedAll(s.tally, d.0))
  }

  function Received(g: Settings, s: Logger, e: Event): Logger {
    match e
    case Camera(t) =>
      s.(pending := Queued(s.pending, t), tally := s.tally.(received := s.tally.received + 1))
    case RawOdometry(p) =>
      s.(inputs := s.inputs.(raw := Pruned(Inserted(s.inputs.raw, p), g.window)))
    case Correction(p) =>
      s.(inputs := s.inputs.(corrections := Pruned(Inserted(s.inputs.corrections, p), g.window)))
    case Status(ready) => s.(inputs := s.inputs.(seen := true, ready := ready))
  }

  function Step(g: Settings, s: Logger, e: Event): Logger { Drain(g, Received(g, s, e), false) }

  function Run(g: Settings, es: seq<Event>): Logger {
    if es == [] then EMPTY else Step(g, Run(g, es[..|es| - 1]), es[|es| - 1])
  }

  // ---------- the object ----------

  class CameraAlignedNeuLogger {
    const settings: Settings
    var rawPoses: seq<Pose>
    var mapToOdomPoses: seq<Pose>
    var statusSeen: bool
    var alignmentReady: bool
    var pendingStamps: seq<int>
    var rows: seq<Row>
    var cameraReceived: nat
    var rowsTotal: nat
    var rowsValid: nat
    var rowsInvalid: nat
    var alignmentNotReady: nat
    var rawGapInvalid: nat
    var missingMapToOdom: nat

    ghost function Sources(): Inputs
      reads this
    {
      Inputs(rawPoses, mapToOdomPoses, statusSeen, alignmentReady)
    }

    ghost function Counters(): Tally
      reads this
    {
      Tally(cameraReceived, rowsTotal, rowsValid, rowsInvalid, alignmentNotReady, rawGapInvalid, missingMapToOdom)
    }

    ghost function Contents(): Logger
      reads this
    {
      Logger(Sources(), pendingStamps, rows, Counters())
    }

    ghost predicate Valid()
      reads this
    {
      Sorted(rawPoses) && Sorted(mapToOdomPoses)
    }

    constructor (settings: Settings)
      ensures this.settings == settings && Valid() && Contents() == EMPTY
    {
      this.settings := settings;
      rawPoses, mapToOdomPoses, pendingStamps, rows := [], [], [], [];
      statusSeen, alignmentReady := false, false;
      cameraReceived, rowsTotal, rowsValid, rowsInvalid := 0, 0, 0, 0;
      alignmentNotReady, rawGapInvalid, missingMapToOdom := 0, 0, 0;
    }

    method WriteInvalid(stamp: int, reason: Reason)
      modifies this`rows, this`rowsTotal, this`rowsInvalid,
               this`alignmentNotReady, this`rawGapInvalid, this`missingMapToOdom
      ensures rows == old(rows) + [Row(stamp, Invalid(reason))]
      ensures Counters() == Tallied(old(Counters()), Invalid(reason))
    {
      rows := rows + [Row(stamp, Invalid(reason))];
      rowsTotal := rowsTotal + 1;
      rowsInvalid := rowsInvalid + 1;
      if reason == AlignmentNotReady { alignmentNotReady := alignmentNotReady + 1; }
      else if reason == InterpolationGap { rawGapInvalid := rawGapInvalid + 1; }
      else if reason == MissingMapToOdom { missingMapToOdom := missingMapToOdom + 1; }
    }

    method WriteValid(stamp: int, before: Pose, after: Pose, correction: Pose)
      modifies this`rows, this`rowsTotal, this`rowsValid
      ensures rows == old(rows) + [Row(stamp, Verdict.Valid(before, after, correction))]
      ensures Counters() == Tallied(old(Counters()), Verdict.Valid(before, after, correction))
    {
      rows := rows + [Row(stamp, Verdict.Valid(before, after, correction))];
      rowsTotal := rowsTotal + 1;
      rowsValid := rowsValid + 1;
    }

    // One turn of the drain loop: the row for the oldest stamp, unless it has to wait.
    method WriteRow(stamp: int, force: bool) returns (written: bool)
      requires Valid()
      modifies this`rows, this`rowsTotal, this`rowsValid, this`rowsInvalid,
               this`alignmentNotReady, this`rawGapInvalid, this`missingMapToOdom
      ensures var v := Decide(settings, Sources(), stamp, force);
              && written == v.Some?
              && rows == old(rows) + (if v.Some? then [Row(stamp, v.value)] else [])
              && Counters() == (if v.Some? then Tallied(old(Counters()), v.value) else old(Counters()))
    {
      written := true;
      if mapToOdomPoses == [] {
        if statusSeen && !alignmentReady {
          WriteInvalid(stamp, AlignmentNotReady);
          return;
        }
        if !force { return false; }
        WriteInvalid(stamp, AlignmentNotReady);
        return;
      }
      if stamp < mapToOdomPoses[0].stamp {
        WriteInvalid(stamp, AlignmentNotReady);
        return;
      }
      var bracket := FindRawBracket(rawPoses, stamp);
      if bracket.None? {
        var futureRawMayArrive := rawPoses == [] || rawPoses[|rawPoses| - 1].stamp < stamp;
        if !force && futureRawMayArrive { return false; }
        WriteInvalid(stamp, InterpolationGap);
        return;
      }
      var (before, after) := bracket.value;
      if !Interpolates(settings, before, after, stamp) {
        WriteInvalid(stamp, InterpolationGap);
        return;
      }
      var correction := LatestCausalPose(mapToOdomPoses, stamp);
      if correction.None? {
        WriteInvalid(stamp, if statusSeen && !alignmentReady then AlignmentNotReady else MissingMapToOdom);
        return;
      }
      WriteValid(stamp, before, after, correction.value);
    }

    method DrainPending(force: bool)
      requires Valid()
      modifies this`pendingStamps, this`rows, this`rowsTotal, this`rowsValid, this`rowsInvalid,
               this`alignmentNotReady, this`rawGapInvalid, this`missingMapToOdom
      ensures Contents() == Drain(settings, old(Contents()), force)
    {
      while pendingStamps != []
        invariant Drain(settings, Contents(), force) == Drain(settings, old(Contents()), force)
        decreases |pendingStamps|
      {
        ghost var before := Contents();
        var written := WriteRow(pendingStamps[0], force);
        if !written { return; }
        pendingStamps := pendingStamps[1..];
        DrainOne(settings, before, force);
      }
    }

    method ImageCallback(stamp: int)
      requires Valid()
      modifies this
      ensures Valid() && Contents() == Step(settings, old(Contents()), Camera(stamp))
    {
      cameraReceived := cameraReceived + 1;
      var i := 0;
      while i < |pendingStamps| && pendingStamps[i] <= stamp
        invariant i <= |pendingStamps|
        invariant Position(pendingStamps, stamp) == i + Position(pendingStamps[i..], stamp)
      {
        i := i + 1;
      }
      pendingStamps := pendingStamps[..i] + [stamp] + pendingStamps[i..];
      DrainPending(false);
    }

    method RawOdomCallback(pose: Pose)
      requires Valid()
      modifies this
      ensures Valid() && Contents() == Step(settings, old(Contents()), RawOdometry(pose))
    {
      rawPoses := InsertOrReplace(rawPoses, pose);
      rawPoses := PrunePoseBuffer(rawPoses, settings.window);
      DrainPending(false);
    }

    method MapToOdomCallback(pose: Pose)
      requires Valid()
      modifies this
      ensures Valid() && Contents() == Step(settings, old(Contents()), Correction(pose))
    {
      mapToOdomPoses := InsertOrReplace(mapToOdomPoses, pose);
      mapToOdomPoses := PrunePoseBuffer(mapToOdomPoses, settings.window);
      DrainPending(false);
    }

    method StatusCallback(ready: bool)
      requires Valid()
      modifies this
      ensures Valid() && Contents() == Step(settings, old(Contents()), Status(ready))
    {
      alignmentReady := ready;
      statusSeen := true;
      DrainPending(false);
    }

    // The destructor: whatever still waits gets its row.
    method Shutdown()
      requires Valid()
      modifies this
      ensures Contents() == Drain(settings, old(Contents()), true)
    {
      DrainPending(true);
    }
  }

  lemma DrainOne(g: Settings, s: Logger, force: bool)
    requires s.pending != [] && Decide(g, s.inputs, s.pending[0], force).Some?
    ensures var v := Decide(g, s.inputs, s.pending[0], force).value;
            Drain(g, s, force) == Drain(g, Logger(s.inputs, s.pending[1..], s.rows + [Row(s.pending[0], v)],
                                                  Tallied(s.tally, v)), force)
  {
    var v := Decide(g, s.inputs, s.pending[0], force).value;
    var rest := Drained(g, s.inputs, s.pending[1..], force);
    assert ([Row(s.pending[0], v)] + rest.0)[1..] == rest.0;
    assert s.rows + ([Row(s.pending[0], v)] + rest.0) == s.rows + [Row(s.pending[0], v)] + rest.0;
  }
}
