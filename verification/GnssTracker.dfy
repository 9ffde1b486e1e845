// The GNSS adapter: a fixed-solution hysteresis, the local origin, and the decision
// whether one position/velocity epoch is accepted and published.
module GnssTracker {
  import opened Outcomes

  datatype Vec = Vec(x: real, y: real, z: real)

  function Plus(a: Vec, b: Vec): Vec { Vec(a.x + b.x, a.y + b.y, a.z + b.z) }
  function Minus(a: Vec, b: Vec): Vec { Vec(a.x - b.x, a.y - b.y, a.z - b.z) }
  function Over(a: Vec, n: nat): Vec
    requires n > 0
  {
    Vec(a.x / n as real, a.y / n as real, a.z / n as real)
  }

  function Sum(vs: seq<Vec>): Vec {
    if vs == [] then Vec(0.0, 0.0, 0.0) else Plus(Sum(vs[..|vs| - 1]), vs[|vs| - 1])
  }

  function Mean(vs: seq<Vec>): Vec
    requires vs != []
  {
    Over(Sum(vs), |vs|)
  }

  // The geodetic conversions and the finiteness test stay uninterpreted.
  datatype Geometry = Geometry(ecef: Vec -> Vec, geodetic: Vec -> Vec, enu: (Vec, Vec) -> Vec,
                               finite: Vec -> bool)

  datatype Quality = Invalid | Single | Differential | RtkFloat | RtkFixed | Recovering

  datatype Phase = Waiting | ActiveFixed | Lost | Regaining

  datatype OriginMode = Manual(lla: Vec) | FirstFixed | AverageFixed

  // Time limits are in nanoseconds: for whole stamps the test delta > limit is the same
  // with the limit rounded down.
  datatype Config = Config(enable: bool, publishLocal: bool, monotonic: bool, mode: OriginMode,
                           originCount: nat, confirmCount: nat, lostCount: nat, recoveryCount: nat,
                           originGap: int, timeGap: int,
                           takeFixed: bool, takeFloat: bool, takeDifferential: bool, takeSingle: bool)

  const U32_MAX: nat := 0xFFFF_FFFF
  const INT_MAX: nat := 0x7FFF_FFFF
  const EQUAL_STAMPS := 1000

  // The limits validateConfig insists on; the counts are C++ ints.
  predicate Usable(c: Config) {
    && 1 <= c.originCount <= INT_MAX && 1 <= c.confirmCount <= INT_MAX
    && 1 <= c.lostCount <= INT_MAX && 1 <= c.recoveryCount <= INT_MAX
    && 0 <= c.originGap && 0 <= c.timeGap
  }

  function Bump(n: nat): nat { if n == U32_MAX then n else n + 1 }

  // One epoch as processPvt receives it, with the result of the metadata classification
  // and of the accuracy gates.
  datatype Pvt = Pvt(stamp: int, timeValid: bool, fusable: bool, identity: Option<(nat, nat)>,
                     raw: Quality, gates: bool, lla: Vec)

  datatype Tracker = Tracker(phase: Phase, wasActive: bool, fixedCount: nat, lostCount: nat)

  datatype Fields = Fields(tracker: Tracker, lastTime: Option<int>, identity: Option<(nat, nat)>,
                           originSet: bool, originLla: Vec, originEcef: Vec,
                           samples: seq<Vec>, lastCandidate: Option<int>)

  datatype Reason = Disabled | ZeroStamp | TimeInvalid | InvalidForFusion | DuplicateTime | NonMonotonic

  datatype Report =
    | Refused(reason: Reason)
    | Judged(gap: bool, filtered: Quality, accepted: bool, published: Option<Vec>)

  const FRESH_TRACKER := Tracker(Waiting, false, 0, 0)
  const ZERO := Vec(0.0, 0.0, 0.0)

  function Initial(c: Config, g: Geometry): Fields {
    var blank := Fields(FRESH_TRACKER, None, None, false, ZERO, ZERO, [], None);
    match c.mode
    case Manual(lla) =>
      if g.finite(lla) then
        blank.(originLla := lla, originEcef := g.ecef(lla), originSet := g.finite(g.ecef(lla)))
      else blank
    case _ => blank
  }

  // ---------- the hysteresis ----------

  // The quality and the next tracker after one classified epoch.
  function Advance(c: Config, t: Tracker, fixed: bool): (Tracker, Quality) {
    if !fixed then
      var u := t.(fixedCount := 0, lostCount := Bump(t.lostCount));
      if t.phase == Waiting || t.phase == Lost then (u, Invalid)
      else if u.lostCount >= c.lostCount then (u.(phase := Lost), Invalid)
      else (u, if t.phase == ActiveFixed then RtkFixed else Recovering)
    else
      var u := t.(fixedCount := Bump(t.fixedCount), lostCount := 0);
      var w := if t.phase == Lost then u.(phase := Regaining, fixedCount := 1) else u;
      if w.phase == ActiveFixed then (w, RtkFixed)
      else if w.fixedCount >= (if w.phase == Regaining then c.recoveryCount else c.confirmCount) then
        (w.(phase := ActiveFixed, wasActive := true), RtkFixed)
      else (w, if w.phase == Regaining then Recovering else Invalid)
  }

  function AfterGap(t: Tracker): Tracker {
    Tracker(if t.wasActive then Lost else Waiting, t.wasActive, 0, 0)
  }

  // ---------- the origin ----------

  predicate Pending(c: Config, s: Fields) { !s.originSet && c.mode.AverageFixed? }

  function Abs(n: int): nat { if n < 0 then -n else n }

  // An epoch whose ECEF position joins the running average.
  predicate Collects(c: Config, s: Fields, q: Quality, stamp: int) {
    && Pending(c, s) && q == RtkFixed
    && (s.lastCandidate.Some? ==> Abs(stamp - s.lastCandidate.value) > EQUAL_STAMPS)
  }

  // It joins the samples so far rather than starting a new pass.
  predicate Continues(c: Config, s: Fields, stamp: int) {
    s.lastCandidate.Some? ==> 0 <= stamp - s.lastCandidate.value <= c.originGap
  }

  function Collected(c: Config, g: Geometry, s: Fields, samples: seq<Vec>, stamp: int): Fields
    requires samples != []
  {
    if |samples| < c.originCount then s.(samples := samples, lastCandidate := Some(stamp))
    else
      var mean := Mean(samples);
      s.(originEcef := mean, originLla := g.geodetic(mean),
         originSet := g.finite(g.geodetic(mean)) && g.finite(mean),
         samples := [], lastCandidate := None)
  }

  function PlaceOrigin(c: Config, g: Geometry, s: Fields, q: Quality, lla: Vec, ecef: Vec, stamp: int): Fields {
    if !s.originSet && q == RtkFixed && c.mode.FirstFixed? then
      s.(originLla := lla, originEcef := ecef, originSet := true)
    else if Collects(c, s, q, stamp) then
      Collected(c, g, s, (if Continues(c, s, stamp) then s.samples else []) + [ecef], stamp)
    else s
  }

  // ---------- one epoch ----------

  function Restarted(s: Fields): Fields {
    s.(samples := [], lastCandidate := None, tracker := FRESH_TRACKER, lastTime := None)
  }

  predicate SourceChanged(s: Fields, m: Pvt) {
    s.identity.Some? && m.identity.Some? && s.identity != m.identity
  }

  predicate Regressed(c: Config, s: Fields, m: Pvt) {
    && Pending(c, s) && s.lastCandidate.Some?
    && m.stamp - s.lastCandidate.value < -EQUAL_STAMPS
  }

  predicate Timely(c: Config, m: Pvt) { c.enable && m.stamp != 0 && m.timeValid }

  // The state restarts while an average is pending: the source changed, or time ran back.
  predicate Restarts(c: Config, s: Fields, m: Pvt) {
    || (SourceChanged(s, m) && Pending(c, s))
    || (Timely(c, m) && Regressed(c, s, m))
  }

  function Arrived(c: Config, s: Fields, m: Pvt): Fields {
    var t := if Restarts(c, s, m) then Restarted(s) else s;
    if m.identity.Some? then t.(identity := m.identity) else t
  }

  // Why an arrived epoch is refused without being classified.
  function Refusal(c: Config, s: Fields, m: Pvt): Option<Reason> {
    if !c.enable then Some(Disabled)
    else if m.stamp == 0 then Some(ZeroStamp)
    else if !m.timeValid then Some(TimeInvalid)
    else if !m.fusable then Some(InvalidForFusion)
    else if s.lastTime.None? then None
    else if Abs(m.stamp - s.lastTime.value) <= EQUAL_STAMPS then Some(DuplicateTime)
    else if m.stamp < s.lastTime.value && c.monotonic then Some(NonMonotonic)
    else None
  }

  predicate Gap(c: Config, s: Fields, m: Pvt) {
    s.lastTime.Some? && m.stamp - s.lastTime.value > c.timeGap
  }

  predicate Accepts(c: Config, q: Quality) {
    match q
    case RtkFixed => c.takeFixed
    case RtkFloat => c.takeFloat
    case Differential => c.takeDifferential
    case Single => c.takeSingle
    case _ => false
  }

  predicate BadPosition(c: Config, g: Geometry, m: Pvt) {
    c.publishLocal && m.raw != Invalid && !g.finite(g.ecef(m.lla))
  }

  // A fixed solution that passed the gates and has a finite position.
  predicate UsableFix(c: Config, g: Geometry, m: Pvt) {
    m.raw == RtkFixed && m.gates && !BadPosition(c, g, m)
  }

  function Tracked(c: Config, s: Fields, m: Pvt): (Tracker, Quality) {
    Advance(c, if Gap(c, s, m) then AfterGap(s.tracker) else s.tracker, m.raw == RtkFixed)
  }

  function Located(c: Config, g: Geometry, s: Fields, m: Pvt): Fields {
    var seen := s.(tracker := Tracked(c, s, m).0, lastTime := Some(m.stamp));
    if c.publishLocal && UsableFix(c, g, m) then
      PlaceOrigin(c, g, seen, Tracked(c, s, m).1, m.lla, g.ecef(m.lla), m.stamp)
    else seen
  }

  function Filtered(c: Config, g: Geometry, m: Pvt, q: Quality): Quality {
    if BadPosition(c, g, m) then Invalid
    else if m.raw == RtkFixed || q == RtkFixed || q == Recovering then q
    else if m.raw != Invalid && m.gates then m.raw
    else Invalid
  }

  predicate Enabled(c: Config, g: Geometry, m: Pvt, q: Quality) {
    if m.raw == RtkFixed then UsableFix(c, g, m) && q == RtkFixed && c.takeFixed
    else m.raw != Invalid && m.gates && !BadPosition(c, g, m) && Accepts(c, m.raw) && q != Recovering
  }

  function Local(g: Geometry, s: Fields, m: Pvt): Vec {
    g.enu(s.originLla, Minus(g.ecef(m.lla), s.originEcef))
  }

  function Judge(c: Config, g: Geometry, s: Fields, m: Pvt): Report {
    var q := Tracked(c, s, m).1;
    var after := Located(c, g, s, m);
    var accepted :=
      && Enabled(c, g, m, q) && !Gap(c, s, m)
      && (c.publishLocal ==> after.originSet && g.finite(Local(g, after, m)));
    Judged(Gap(c, s, m), Filtered(c, g, m, q), accepted,
           if accepted && c.publishLocal then Some(Local(g, after, m)) else None)
  }

  // The state and the report after one epoch.
  function Processed(c: Config, g: Geometry, s: Fields, m: Pvt): (Fields, Report) {
    var t := Arrived(c, s, m);
    match Refusal(c, t, m)
    case Some(reason) => (t, Refused(reason))
    case None => (Located(c, g, t, m), Judge(c, g, t, m))
  }

  // ---------- the object ----------

  class GnssAdapter {
    const config: Config
    const geometry: Geometry
    var phase: Phase
    var wasActive: bool
    var fixedCount: nat
    var lostCount: nat
    var lastTime: Option<int>
    var identity: Option<(nat, nat)>
    var originSet: bool
    var originLla: Vec
    var originEcef: Vec
    var samples: seq<Vec>
    var lastCandidate: Option<int>

    ghost function Tracking(): Tracker
      reads this
    {
      Tracker(phase, wasActive, fixedCount, lostCount)
    }

    ghost function Contents(): Fields
      reads this
    {
      Fields(Tracking(), lastTime, identity, originSet, originLla, originEcef, samples, lastCandidate)
    }

    constructor (config: Config, geometry: Geometry)
      requires Usable(config)
      ensures this.config == config && this.geometry == geometry
      ensures Contents() == Initial(config, geometry)
    {
      this.config := config;
      this.geometry := geometry;
      phase, wasActive, fixedCount, lostCount := Waiting, false, 0, 0;
      lastTime, identity, samples, lastCandidate := None, None, [], None;
      originSet, originLla, originEcef := false, ZERO, ZERO;
      new;
      if config.mode.Manual? && geometry.finite(config.mode.lla) {
        originLla := config.mode.lla;
        originEcef := geometry.ecef(originLla);
        originSet := geometry.finite(originEcef);
      }
    }

    method UpdateFixedState(fixed: bool) returns (quality: Quality)
      modifies this`phase, this`wasActive, this`fixedCount, this`lostCount
      ensures (Tracking(), quality) == Advance(config, old(Tracking()), fixed)
    {
      if !fixed {
        fixedCount := 0;
        lostCount := Bump(lostCount);
        if phase == ActiveFixed {
          if lostCount >= config.lostCount {
            phase := Lost;
            return Invalid;
          }
          return RtkFixed;
        }
        if phase == Regaining {
          if lostCount >= config.lostCount {
            phase := Lost;
            return Invalid;
          }
          return Recovering;
        }
        return Invalid;
      }
      lostCount := 0;
      fixedCount := Bump(fixedCount);
      if phase == ActiveFixed { return RtkFixed; }
      if phase == Lost {
        phase := Regaining;
        fixedCount := 1;
      }
      if phase == Regaining {
        if fixedCount >= config.recoveryCount {
          phase := ActiveFixed;
          wasActive := true;
          return RtkFixed;
        }
        return Recovering;
      }
      if fixedCount >= config.confirmCount {
        phase := ActiveFixed;
        wasActive := true;
        return RtkFixed;
      }
      return Invalid;
    }

    method ClearOriginAverage()
      modifies this`samples, this`lastCandidate
      ensures samples == [] && lastCandidate == None
    {
      samples := [];
      lastCandidate := None;
    }

    method ResetOriginAverage()
      modifies this`samples, this`lastCandidate
      ensures if old(Pending(config, Contents())) then samples == [] && lastCandidate == None
              else samples == old(samples) && lastCandidate == old(lastCandidate)
    {
      if !originSet && config.mode.AverageFixed? { ClearOriginAverage(); }
    }

    method AverageSamples() returns (mean: Vec)
      requires samples != []
      ensures mean == Mean(samples)
    {
      var sum := ZERO;
      for i := 0 to |samples|
        invariant sum == Sum(samples[..i])
      {
        assert samples[..i + 1][..i] == samples[..i];
        sum := Plus(sum, samples[i]);
      }
      assert samples[..|samples|] == samples;
      mean := Over(sum, |samples|);
    }

    method UpdateOrigin(quality: Quality, lla: Vec, ecef: Vec, stamp: int)
      modifies this`originSet, this`originLla, this`originEcef, this`samples, this`lastCandidate
      ensures Contents() == PlaceOrigin(config, geometry, old(Contents()), quality, lla, ecef, stamp)
    {
      if originSet || quality != RtkFixed { return; }
      if config.mode.FirstFixed? {
        originLla, originEcef, originSet := lla, ecef, true;
        return;
      }
      if !config.mode.AverageFixed? { return; }
      if lastCandidate.Some? {
        var delta := stamp - lastCandidate.value;
        if Abs(delta) <= EQUAL_STAMPS { return; }
        if delta < 0 { ResetOriginAverage(); }
        else if delta > config.originGap { ResetOriginAverage(); }
      }
      samples := samples + [ecef];
      lastCandidate := Some(stamp);
      if |samples| < config.originCount { return; }
      originEcef := AverageSamples();
      originLla := geometry.geodetic(originEcef);
      originSet := geometry.finite(originLla) && geometry.finite(originEcef);
      ClearOriginAverage();
    }

    method RestartTracking()
      modifies this`phase, this`wasActive, this`fixedCount, this`lostCount, this`lastTime
      ensures Tracking() == FRESH_TRACKER && lastTime == None
    {
      phase, wasActive, fixedCount, lostCount, lastTime := Waiting, false, 0, 0, None;
    }

    // The epochs that never reach classification.
    method Refuse(m: Pvt) returns (refusal: Option<Reason>)
      requires config.enable && m.stamp != 0 && m.timeValid
      ensures refusal == Refusal(config, Contents(), m)
    {
      if !m.fusable { return Some(InvalidForFusion); }
      if lastTime.Some? {
        if Abs(m.stamp - lastTime.value) <= EQUAL_STAMPS { return Some(DuplicateTime); }
        if m.stamp - lastTime.value < 0 && config.monotonic { return Some(NonMonotonic); }
      }
      return None;
    }

    method NoteSource(m: Pvt)
      modifies this
      ensures var s := old(Contents());
              Contents() == (if m.identity.None? then s
                             else (if SourceChanged(s, m) && Pending(config, s) then Restarted(s) else s)
                                  .(identity := m.identity))
    {
      if m.identity.Some? {
        if identity.Some? && identity != m.identity && !originSet && config.mode.AverageFixed? {
          ResetOriginAverage();
          RestartTracking();
        }
        identity := m.identity;
      }
    }

    method Arrive(m: Pvt) returns (refusal: Option<Reason>)
      modifies this
      ensures Contents() == Arrived(config, old(Contents()), m)
      ensures refusal == Refusal(config, Contents(), m)
    {
      NoteSource(m);
      if !config.enable { return Some(Disabled); }
      if m.stamp == 0 { return Some(ZeroStamp); }
      if !m.timeValid { return Some(TimeInvalid); }
      if !originSet && config.mode.AverageFixed? && lastCandidate.Some?
         && m.stamp - lastCandidate.value < -EQUAL_STAMPS {
        ResetOriginAverage();
        RestartTracking();
      }
      refusal := Refuse(m);
    }

    // The time gap and the hysteresis of an epoch that was not refused.
    method Track(m: Pvt) returns (gap: bool, quality: Quality)
      modifies this`phase, this`wasActive, this`fixedCount, this`lostCount, this`lastTime
      ensures gap == Gap(config, old(Contents()), m)
      ensures (Tracking(), quality) == Tracked(config, old(Contents()), m)
      ensures lastTime == Some(m.stamp)
    {
      gap := false;
      if lastTime.Some? && m.stamp - lastTime.value > config.timeGap {
        phase := if wasActive then Lost else Waiting;
        fixedCount, lostCount, gap := 0, 0, true;
      }
      lastTime := Some(m.stamp);
      quality := UpdateFixedState(m.raw == RtkFixed);
    }

    // Acceptance and publication once the origin has been updated.
    method Decide(m: Pvt, gap: bool, quality: Quality, usable: bool, gates: bool, ecef: Vec)
        returns (accepted: bool, published: Option<Vec>)
      ensures var enabled := if m.raw == RtkFixed then usable && quality == RtkFixed && config.takeFixed
                             else m.raw != Invalid && gates && Accepts(config, m.raw) && quality != Recovering;
              var enu := geometry.enu(originLla, Minus(ecef, originEcef));
              && accepted == (enabled && !gap && (config.publishLocal ==> originSet && geometry.finite(enu)))
              && published == (if accepted && config.publishLocal then Some(enu) else None)
    {
      var enabled := false;
      if m.raw == RtkFixed {
        enabled := usable && quality == RtkFixed && config.takeFixed;
      } else if m.raw != Invalid {
        enabled := gates && Accepts(config, m.raw) && quality != Recovering;
      }
      accepted := enabled && (!config.publishLocal || originSet) && !gap;
      published := None;
      if accepted && config.publishLocal {
        var enu := geometry.enu(originLla, Minus(ecef, originEcef));
        if geometry.finite(enu) { published := Some(enu); } else { accepted := false; }
      }
    }

    method ProcessPvt(m: Pvt) returns (report: Report)
      modifies this
      ensures (Contents(), report) == Processed(config, geometry, old(Contents()), m)
    {
      var refusal := Arrive(m);
      if refusal.Some? { return Refused(refusal.value); }
      var gap, quality := Track(m);
      var gates := m.raw != Invalid && m.gates;
      var usable := m.raw == RtkFixed && gates;
      var filtered := Invalid;
      if m.raw == RtkFixed || quality == RtkFixed || quality == Recovering {
        filtered := quality;
      } else if m.raw != Invalid && gates {
        filtered := m.raw;
      }
      var ecef := ZERO;
      if config.publishLocal && m.raw != Invalid {
        ecef := geometry.ecef(m.lla);
        if !geometry.finite(ecef) { gates, usable, filtered := false, false, Invalid; }
      }
      if config.publishLocal && usable {
        UpdateOrigin(quality, m.lla, ecef, m.stamp);
      }
      var accepted, published := Decide(m, gap, quality, usable, gates, ecef);
      report := Judged(gap, filtered, accepted, published);
    }
  }
}
