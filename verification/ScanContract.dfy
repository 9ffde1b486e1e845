// The run-time contract of one LiDAR scan (LivoScanLifecycle).
module ScanContract {
  import opened Outcomes
  import opened ImuCoverage

  datatype Contract = Contract(active: bool, scanBegin: real, scanEnd: real, required: bool, images: nat,
                               lios: nat, inserts: nat, monotonic: bool, stateTime: real)

  const IDLE := Contract(false, 0.0, 0.0, false, 0, 0, 0, true, -1.0)

  predicate Completed(c: Contract) {
    c.active && c.required ==> c.lios == 1 && c.inserts <= 1 && c.monotonic
  }

  function Begun(c: Contract, begin: real, end: real, points: nat, required: bool, stateTime: real): Outcome<Contract> {
    if !Completed(c) || end <= begin || points == 0 then Throw(ScanContract)
    else Ok(Contract(true, begin, end, required, 0, 0, 0, true, stateTime))
  }

  predicate TimeFits(c: Contract, timestamp: real) { c.active && timestamp >= c.stateTime - EPSILON }

  function Noted(c: Contract, timestamp: real): Contract {
    if timestamp > c.stateTime then c.(stateTime := timestamp) else c
  }

  function ImageNoted(c: Contract, timestamp: real): Outcome<Contract> {
    if TimeFits(c, timestamp) then Ok(Noted(c, timestamp).(images := c.images + 1)) else Throw(ScanContract)
  }

  function LioNoted(c: Contract, timestamp: real): Outcome<Contract> {
    if TimeFits(c, timestamp) && c.lios == 0 && c.scanEnd - EPSILON <= timestamp <= c.scanEnd + EPSILON
    then Ok(Noted(c, timestamp).(lios := 1))
    else Throw(ScanContract)
  }

  function InsertNoted(c: Contract): Outcome<Contract> {
    if c.active && c.lios == 1 && c.inserts == 0 then Ok(c.(inserts := 1)) else Throw(ScanContract)
  }

  class LivoScanLifecycle {
    var active: bool
    var scanBegin: real
    var scanEnd: real
    var required: bool
    var images: nat
    var lios: nat
    var inserts: nat
    var monotonic: bool
    var lastStateTime: real

    constructor ()
      ensures View() == IDLE
    {
      active, scanBegin, scanEnd, required, images, lios, inserts := false, 0.0, 0.0, false, 0, 0, 0;
      monotonic, lastStateTime := true, -1.0;
    }

    function View(): Contract
      reads this
    {
      Contract(active, scanBegin, scanEnd, required, images, lios, inserts, monotonic, lastStateTime)
    }

    method Begin(begin: real, end: real, points: nat, needed: bool, stateTime: real) returns (r: Outcome<()>)
      modifies this
      ensures match Begun(old(View()), begin, end, points, needed, stateTime) {
                case Throw(e) => r == Throw(e) && View() == old(View())
                case Ok(c) => r == Ok(()) && View() == c
              }
    {
      if active && required && (lios != 1 || inserts > 1 || !monotonic) {
        return Throw(ScanContract);
      }
      if end <= begin || points == 0 {
        return Throw(ScanContract);
      }
      images, lios, inserts, monotonic := 0, 0, 0, true;
      scanBegin, scanEnd, required := begin, end, needed;
      active, lastStateTime := true, stateTime;
      return Ok(());
    }

    method NoteStateTime(timestamp: real) returns (ok: bool)
      modifies this`monotonic, this`lastStateTime
      ensures ok == (timestamp >= old(lastStateTime) - EPSILON)
      ensures monotonic == (ok && old(monotonic))
      ensures lastStateTime == if ok && timestamp > old(lastStateTime) then timestamp else old(lastStateTime)
    {
      if timestamp < lastStateTime - EPSILON {
        monotonic := false;
        return false;
      }
      if timestamp > lastStateTime {
        lastStateTime := timestamp;
      }
      return true;
    }

    method NoteImage(timestamp: real) returns (r: Outcome<()>)
      modifies this
      ensures match ImageNoted(old(View()), timestamp) {
                case Throw(e) => r == Throw(e)
                case Ok(c) => r == Ok(()) && View() == c
              }
    {
      if !active {
        return Throw(ScanContract);
      }
      var ok := NoteStateTime(timestamp);
      if !ok {
        return Throw(ScanContract);
      }
      images := images + 1;
      return Ok(());
    }

    method NoteLioTransaction(timestamp: real) returns (r: Outcome<()>)
      modifies this
      ensures match LioNoted(old(View()), timestamp) {
                case Throw(e) => r == Throw(e)
                case Ok(c) => r == Ok(()) && View() == c
              }
    {
      if !active {
        return Throw(ScanContract);
      }
      var ok := NoteStateTime(timestamp);
      if !ok {
        return Throw(ScanContract);
      }
      lios := lios + 1;
      if lios != 1 || timestamp < scanEnd - EPSILON || timestamp > scanEnd + EPSILON {
        return Throw(ScanContract);
      }
      return Ok(());
    }

    method NoteMapInsertion() returns (r: Outcome<()>)
      modifies this
      ensures match InsertNoted(old(View())) {
                case Throw(e) => r == Throw(e)
                case Ok(c) => r == Ok(()) && View() == c
              }
    {
      if !active || lios != 1 {
        return Throw(ScanContract);
      }
      inserts := inserts + 1;
      if inserts != 1 {
        return Throw(ScanContract);
      }
      return Ok(());
    }
  }
}
