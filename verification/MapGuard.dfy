// The guard that freezes map insertion while LiDAR updates are degenerate or rejected.
module MapGuard {

  datatype Mode = Off | Diagnostic | Enforce

  datatype Config = Config(mode: Mode, onDirection: bool, onDegeneracy: bool, stride: int,
                           maximumFreeze: int, recovery: int)

  // What one LIO frame brings.
  datatype Frame = Frame(directionConflict: bool, degenerate: bool)

  datatype Guard = Guard(active: bool, latched: bool, recoveryFrames: int, freezeFrames: int, counter: nat)

  const INITIAL := Guard(false, false, 0, 0, 0)

  predicate Requests(c: Config, f: Frame) {
    c.mode != Off && ((c.onDirection && f.directionConflict) || (c.onDegeneracy && f.degenerate))
  }

  // The frame's turn to update the map, given the counter after it was incremented.
  predicate Scheduled(c: Config, counter: nat) {
    c.stride <= 1 || counter % c.stride == 0
  }

  // Activation, recovery and release of the latch.
  function Watched(c: Config, g: Guard, request: bool): Guard {
    if c.mode != Enforce then Guard(false, false, 0, 0, g.counter)
    else if g.latched then g.(latched := request)
    else if request then
      g.(recoveryFrames := 0, active := true, freezeFrames := if g.active then g.freezeFrames else 0)
    else if g.active then
      if g.recoveryFrames + 1 >= c.recovery then g.(active := false, recoveryFrames := 0, freezeFrames := 0)
      else g.(recoveryFrames := g.recoveryFrames + 1)
    else g
  }

  // The freeze of a scheduled frame, or the hard limit.
  function Limited(c: Config, g: Guard): (Guard, bool) {
    if Scheduled(c, g.counter) && c.mode == Enforce && g.active then
      if g.freezeFrames >= c.maximumFreeze then
        (g.(active := false, latched := true, recoveryFrames := 0), false)
      else (g.(freezeFrames := g.freezeFrames + 1), true)
    else (g, false)
  }

  // The guard after a frame, and whether the frame's insertion was frozen.
  function Next(c: Config, g: Guard, f: Frame): (Guard, bool) {
    Limited(c, Watched(c, g.(counter := g.counter + 1), Requests(c, f)))
  }

  class LioMapGuard {
    const config: Config
    var active: bool
    var hardLimitLatched: bool
    var recoveryFrames: int
    var freezeFrames: int
    var updateCounter: nat

    ghost function Contents(): Guard
      reads this
    {
      Guard(active, hardLimitLatched, recoveryFrames, freezeFrames, updateCounter)
    }

    constructor (config: Config)
      ensures this.config == config && Contents() == INITIAL
    {
      this.config := config;
      active, hardLimitLatched, recoveryFrames, freezeFrames, updateCounter := false, false, 0, 0, 0;
    }

    method Watch(request: bool)
      modifies this`active, this`hardLimitLatched, this`recoveryFrames, this`freezeFrames
      ensures Contents() == Watched(config, old(Contents()), request)
    {
      if config.mode != Enforce {
        active, hardLimitLatched, recoveryFrames, freezeFrames := false, false, 0, 0;
      } else if hardLimitLatched {
        if !request { hardLimitLatched := false; }
      } else if request {
        recoveryFrames := 0;
        if !active {
          freezeFrames := 0;
          active := true;
        }
      } else if active {
        recoveryFrames := recoveryFrames + 1;
        if recoveryFrames >= config.recovery {
          active, recoveryFrames, freezeFrames := false, 0, 0;
        }
      }
    }

    method HandleFrame(f: Frame) returns (frozen: bool)
      modifies this
      ensures (Contents(), frozen) == Next(config, old(Contents()), f)
    {
      var stride := if config.stride > 1 then config.stride else 1;
      updateCounter := updateCounter + 1;
      var doMapUpdate := stride <= 1 || updateCounter % stride == 0;
      Watch(Requests(config, f));
      frozen := false;
      if doMapUpdate && config.mode == Enforce && active {
        if freezeFrames >= config.maximumFreeze {
          active, hardLimitLatched, recoveryFrames := false, true, 0;
        } else {
          frozen := true;
          freezeFrames := freezeFrames + 1;
        }
      }
    }
  }

  // ---------- runs ----------

  function Run(c: Config, fs: seq<Frame>): Guard {
    if fs == [] then INITIAL else Next(c, Run(c, fs[..|fs| - 1]), fs[|fs| - 1]).0
  }

  predicate Frozen(c: Config, fs: seq<Frame>, i: nat)
    requires i < |fs|
  {
    Next(c, Run(c, fs[..i]), fs[i]).1
  }

  // How many of the frames from i on were frozen.
  function FrozenSince(c: Config, fs: seq<Frame>, i: nat): nat
    requires i <= |fs|
  {
    if i == |fs| then 0
    else FrozenSince(c, fs[..|fs| - 1], i) + if Frozen(c, fs, |fs| - 1) then 1 else 0
  }

  // One activation: the guard was off before frame i and on after every later frame but
  // perhaps the last.
  predicate OneActivation(c: Config, fs: seq<Frame>, i: nat)
    requires i <= |fs|
  {
    !Run(c, fs[..i]).active && forall k :: i < k < |fs| ==> Run(c, fs[..k]).active
  }

  function AtLeastZero(n: int): nat { if n < 0 then 0 else n }

  lemma RunStep(c: Config, fs: seq<Frame>)
    requires fs != []
    ensures fs[..|fs|] == fs
    ensures Run(c, fs) == Next(c, Run(c, fs[..|fs| - 1]), fs[|fs| - 1]).0
    ensures Frozen(c, fs, |fs| - 1) == Next(c, Run(c, fs[..|fs| - 1]), fs[|fs| - 1]).1
  {
    assert fs[..|fs|] == fs;
  }

  // The guard is never active and latched together, its counter counts the frames, and it starts
  // every activation with no recovery frame counted.
  lemma {:induction false} NeverBoth(c: Config, fs: seq<Frame>)
    ensures !(Run(c, fs).active && Run(c, fs).latched)
    ensures Run(c, fs).counter == |fs|
    ensures c.mode != Enforce ==> !Run(c, fs).active
    ensures !Run(c, fs).active ==> Run(c, fs).recoveryFrames == 0
  {
    if fs != [] { NeverBoth(c, fs[..|fs| - 1]); }
  }

  // While an activation lasts, freezeFrames is the number of frames it froze.
  lemma {:induction false} FreezesAreCounted(c: Config, fs: seq<Frame>, i: nat)
    requires i <= |fs| && OneActivation(c, fs, i)
    ensures FrozenSince(c, fs, i) <= AtLeastZero(c.maximumFreeze)
    ensures Run(c, fs).active && i < |fs| ==> Run(c, fs).freezeFrames == FrozenSince(c, fs, i)
    decreases |fs|
  {
    if i < |fs| {
      var init := fs[..|fs| - 1];
      assert forall k :: 0 <= k <= |init| ==> init[..k] == fs[..k];
      FreezesAreCounted(c, init, i);
      RunStep(c, fs);
      NeverBoth(c, init);
      if i < |init| { assert fs[..|init|] == init; assert Run(c, fs[..|init|]).active; }
    }
  }

  // Main result: one activation freezes at most maximum_freeze_frames scheduled frames.
  lemma FreezesPerActivation(c: Config, fs: seq<Frame>, i: nat)
    requires i <= |fs| && OneActivation(c, fs, i)
    ensures FrozenSince(c, fs, i) <= AtLeastZero(c.maximumFreeze)
  {
    FreezesAreCounted(c, fs, i);
  }

  // Frames frozen without interruption.
  predicate AllFrozen(c: Config, fs: seq<Frame>, i: nat)
    requires i <= |fs|
  {
    forall k :: i <= k < |fs| ==> Frozen(c, fs, k)
  }

  lemma FrozenPrefix(c: Config, fs: seq<Frame>, k: nat)
    requires fs != [] && k < |fs| - 1
    ensures Frozen(c, fs[..|fs| - 1], k) == Frozen(c, fs, k)
  {
    assert fs[..|fs| - 1][..k] == fs[..k];
  }

  // Main result: at most that many frames are frozen in a row.
  lemma {:induction false} FrozenInARow(c: Config, fs: seq<Frame>, i: nat)
    requires i <= |fs| && AllFrozen(c, fs, i)
    ensures |fs| - i <= AtLeastZero(c.maximumFreeze)
    ensures i < |fs| ==> Run(c, fs).active && |fs| - i <= Run(c, fs).freezeFrames <= c.maximumFreeze
    decreases |fs|
  {
    if i < |fs| {
      var init := fs[..|fs| - 1];
      forall k | i <= k < |init| ensures Frozen(c, init, k) { FrozenPrefix(c, fs, k); }
      FrozenInARow(c, init, i);
      RunStep(c, fs);
      FreezeCountNotNegative(c, init);
      assert Frozen(c, fs, |fs| - 1);
    }
  }

  lemma {:induction false} FreezeCountNotNegative(c: Config, fs: seq<Frame>)
    ensures Run(c, fs).freezeFrames >= 0
  {
    if fs != [] { FreezeCountNotNegative(c, fs[..|fs| - 1]); }
  }

  // Main result: once the hard limit is latched nothing is frozen, and the latch holds, as long
  // as every frame makes a request.
  lemma {:induction false} LatchHolds(c: Config, fs: seq<Frame>, i: nat)
    requires i <= |fs| && Run(c, fs[..i]).latched
    requires forall k :: i <= k < |fs| ==> Requests(c, fs[k])
    ensures Run(c, fs).latched && FrozenSince(c, fs, i) == 0
    decreases |fs|
  {
    if i < |fs| {
      var init := fs[..|fs| - 1];
      assert init[..i] == fs[..i];
      LatchHolds(c, init, i);
      RunStep(c, fs);
      NeverBoth(c, init);
      NeverBoth(c, fs[..i]);
      ModeLatch(c, fs[..i]);
    } else {
      assert fs[..i] == fs;
    }
  }

  lemma {:induction false} ModeLatch(c: Config, fs: seq<Frame>)
    ensures Run(c, fs).latched ==> c.mode == Enforce
  {
    if fs != [] { ModeLatch(c, fs[..|fs| - 1]); }
  }

  // The number of frames since the last request.
  function QuietRun(c: Config, fs: seq<Frame>): nat {
    if fs == [] || Requests(c, fs[|fs| - 1]) then 0 else QuietRun(c, fs[..|fs| - 1]) + 1
  }

  // The guard stays active only for fewer than recovery_consecutive_frames frames without a
  // request, and it counts them.
  lemma {:induction false} RecoveryIsCounted(c: Config, fs: seq<Frame>)
    ensures Run(c, fs).active ==>
              Run(c, fs).recoveryFrames == QuietRun(c, fs) < |fs| &&
              (QuietRun(c, fs) > 0 ==> QuietRun(c, fs) < c.recovery)
  {
    if fs != [] {
      RecoveryIsCounted(c, fs[..|fs| - 1]);
      NeverBoth(c, fs[..|fs| - 1]);
      RunStep(c, fs);
    }
  }

  lemma {:induction false} QuietSinceRequest(c: Config, fs: seq<Frame>)
    requires QuietRun(c, fs) < |fs|
    ensures Requests(c, fs[|fs| - 1 - QuietRun(c, fs)])
    ensures forall k :: |fs| - QuietRun(c, fs) <= k < |fs| ==> !Requests(c, fs[k])
  {
    if !Requests(c, fs[|fs| - 1]) { QuietSinceRequest(c, fs[..|fs| - 1]); }
  }

  // This frame asked for the guard, and no later one did.
  predicate LastRequest(c: Config, fs: seq<Frame>, j: nat)
    requires j < |fs|
  {
    Requests(c, fs[j]) && forall k :: j < k < |fs| ==> !Requests(c, fs[k])
  }

  // Main result: a frame is frozen only in enforce mode, on its map-update turn, and only when
  // it makes a request itself or the last request is less than the recovery hysteresis old.
  lemma FrozenIsJustified(c: Config, fs: seq<Frame>)
    requires fs != [] && Frozen(c, fs, |fs| - 1)
    ensures c.mode == Enforce && Scheduled(c, |fs|)
    ensures exists j: nat :: j < |fs| && LastRequest(c, fs, j) && (j == |fs| - 1 || |fs| - 1 - j < c.recovery)
  {
    RunStep(c, fs);
    NeverBoth(c, fs[..|fs| - 1]);
    RecoveryIsCounted(c, fs);
    QuietSinceRequest(c, fs);
    assert LastRequest(c, fs, |fs| - 1 - QuietRun(c, fs));
  }

  // ---------- what a request does ----------

  // The frame shows a fault that the configuration watches for.
  predicate Asks(c: Config, f: Frame) {
    || (f.directionConflict && c.onDirection)
    || (f.degenerate && c.onDegeneracy)
  }

  // Without a stride every frame is on its turn.
  predicate OnTurn(c: Config, n: nat) { 1 < c.stride ==> n % c.stride == 0 }

  // The guard is at work after the frame, the hard limit aside.
  predicate Guarding(c: Config, g: Guard, f: Frame) {
    c.mode == Enforce && !g.latched && (Asks(c, f) || (g.active && g.recoveryFrames + 1 < c.recovery))
  }

  function Spent(g: Guard): int { if g.active then g.freezeFrames else 0 }

  // Main result: the last frame is frozen exactly when it is on its turn, the guard is at work on it,
  // and the activation has not used up its frames; when it has, the guard latches instead. The latch
  // goes with the first frame that makes no request.
  lemma FrozenIff(c: Config, fs: seq<Frame>)
    requires fs != []
    ensures var g, f := Run(c, fs[..|fs| - 1]), fs[|fs| - 1];
            var free := Spent(g) < c.maximumFreeze;
            && (Frozen(c, fs, |fs| - 1) <==> Guarding(c, g, f) && OnTurn(c, |fs|) && free)
            && (Run(c, fs).active <==> Guarding(c, g, f) && (OnTurn(c, |fs|) ==> free))
            && (Run(c, fs).latched <==>
                (g.latched && Asks(c, f)) || (Guarding(c, g, f) && OnTurn(c, |fs|) && !free))
  {
    RunStep(c, fs);
    NeverBoth(c, fs[..|fs| - 1]);
    ModeLatch(c, fs[..|fs| - 1]);
  }

  // Main result: a request on its turn freezes the insertion, unless the hard limit is latched or the
  // activation that began with frame i has already frozen its maximum_freeze_frames.
  lemma RequestFreezes(c: Config, fs: seq<Frame>, f: Frame, i: nat)
    requires c.mode == Enforce && !Run(c, fs).latched && i <= |fs| && OneActivation(c, fs, i)
    requires Asks(c, f) && OnTurn(c, |fs| + 1)
    ensures FrozenSince(c, fs, i) < c.maximumFreeze ==> Frozen(c, fs + [f], |fs|)
    ensures Frozen(c, fs + [f], |fs|) && Run(c, fs).active && i < |fs| ==> FrozenSince(c, fs, i) < c.maximumFreeze
  {
    FrozenIff(c, fs + [f]);
    assert (fs + [f])[..|fs|] == fs;
    FreezesAreCounted(c, fs, i);
    if i == |fs| { assert fs[..i] == fs; }
  }
}
