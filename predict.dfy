/**
  Client movement prediction of src/client/predict.c: the ring of predicted
  origins indexed by command number, the reconciliation against each server
  frame (CL_CheckPredictionError) and the replay of the unacknowledged
  commands through the shared movement function (CL_PredictMovement).

  Command numbers, the frame at which the last step was smoothed and the
  real-time clock are C `unsigned` values: they are modelled as integers in
  [0, 2^32) with every subtraction and increment wrapped explicitly. The
  movement function PmoveNew is a parameter of the model.
 */
module Predict {

  const CMD_BACKUP := 128
  const CMD_MASK := CMD_BACKUP - 1
  const U32 := 0x1_0000_0000

  /** A C `unsigned`. */
  type u32 = x: int | 0 <= x < U32

  /** `a + b` in unsigned arithmetic. */
  function Add(a: u32, b: u32): (r: u32)
    ensures a + b < U32 ==> r == a + b
    ensures a + b >= U32 ==> r == a + b - U32
  {
    (a + b) % U32
  }

  /** `a - b` in unsigned arithmetic. */
  function Sub(a: u32, b: u32): (r: u32)
    ensures a >= b ==> r == a - b
    ensures a < b ==> r == a - b + U32
  {
    (a - b) % U32
  }

  /** `n & CMD_MASK`: the ring slot of command number `n`. */
  function Slot(n: int): (i: nat)
    ensures i < CMD_BACKUP
    ensures (n - i) % CMD_BACKUP == 0
  {
    n % CMD_BACKUP
  }

  datatype Vec3 = Vec3(x: int, y: int, z: int)

  /** A float vector whose values are exact multiples of 1/8 here. */
  datatype RVec3 = RVec3(x: real, y: real, z: real)

  const Zero := RVec3(0.0, 0.0, 0.0)

  function Abs(n: int): nat {
    if n < 0 then -n else n
  }

  function Minus(a: Vec3, b: Vec3): Vec3 {
    Vec3(a.x - b.x, a.y - b.y, a.z - b.z)
  }

  /** `abs(d[0]) + abs(d[1]) + abs(d[2])`. */
  function Manhattan(d: Vec3): nat {
    Abs(d.x) + Abs(d.y) + Abs(d.z)
  }

  /** VectorScale(v, 0.125f, out). */
  function Eighth(v: Vec3): RVec3 {
    RVec3(v.x as real / 8.0, v.y as real / 8.0, v.z as real / 8.0)
  }

  datatype PmType = Normal | Spectator | Dead | Gib | Freeze | Grapple

  /** The movement state (pmove_state_t) with the flags this file tests. */
  datatype PlayerMove = PlayerMove(
    origin: Vec3, velocity: Vec3, pmType: PmType,
    onGround: bool, noPrediction: bool, ignorePlayerCollision: bool)

  /** A user command (usercmd_t); the moves are what the pending command
      takes from `cl.localmove`. */
  datatype UserCmd = UserCmd(msec: nat, forwardmove: int, sidemove: int, upmove: int, buttons: nat)

  /** pm_clipmask: MASK_PLAYERSOLID or MASK_DEADSOLID, with or without
      CONTENTS_PLAYER. */
  datatype ClipMask = ClipMask(deadSolid: bool, players: bool)

  /** PmoveNew(pm, pmp) with its trace callbacks and `pm.snapinitial`. */
  type Pmove = (PlayerMove, UserCmd, ClipMask, bool) -> PlayerMove

  /** The part of `cl` this file reads and writes. */
  datatype PredState = PredState(
    origins: seq<Vec3>,     // predicted_origins[CMD_BACKUP]
    error: RVec3,           // prediction_error
    step: real,             // predicted_step
    stepTime: u32,          // predicted_step_time
    stepFrame: u32,         // predicted_step_frame
    clipMask: ClipMask,     // pm_clipmask
    origin: RVec3,          // predicted_origin
    velocity: RVec3)        // predicted_velocity

  /** The client settings and the network state both functions consult. */
  datatype Settings = Settings(
    active: bool,           // cls.state == ca_active
    demoPlayback: bool,     // cls.demo.playback
    paused: bool,           // sv_paused
    predict: bool,          // cl_predict
    extended: bool)         // cl.csr.extended

  // -----------------------------------------------------------------------
  // Reconciliation

  /** CL_CheckPredictionError with the server's movement state `server` and
      `cmd`, the number of the last command the server has processed. */
  function CheckError(s: PredState, cfg: Settings, server: PlayerMove, cmd: u32): (r: PredState)
    requires |s.origins| == CMD_BACKUP
    ensures |r.origins| == CMD_BACKUP
    ensures r.step == s.step && r.stepTime == s.stepTime && r.clipMask == s.clipMask
    ensures r.origin == s.origin && r.velocity == s.velocity
  {
    if cfg.demoPlayback then s
    else if cfg.paused then s.(error := Zero)
    else if !cfg.predict || server.noPrediction then s
    else
      var delta := Minus(server.origin, s.origins[Slot(cmd)]);
      var len := Manhattan(delta);
      if len <= 1 || len > 640 then s.(error := Zero)
      else
        s.(stepFrame := if s.stepFrame <= cmd then Add(cmd, 1) else s.stepFrame,
           origins := s.origins[Slot(cmd) := server.origin],
           error := Eighth(delta))
  }

  /** A correction happens exactly when the miss is over one unit and at
      most 640; it then stores the server's origin in the command's slot,
      keeps an eighth of the miss and forbids step smoothing up to the
      command. Any other outcome leaves the ring and the step frame alone. */
  lemma CheckErrorCorrects(s: PredState, cfg: Settings, server: PlayerMove, cmd: u32)
    requires |s.origins| == CMD_BACKUP
    requires !cfg.demoPlayback && !cfg.paused && cfg.predict && !server.noPrediction
    ensures var delta := Minus(server.origin, s.origins[Slot(cmd)]);
            var r := CheckError(s, cfg, server, cmd);
            (r.origins != s.origins || r.error != Zero <==> 1 < Manhattan(delta) <= 640) &&
            (1 < Manhattan(delta) <= 640 ==>
               r.origins[Slot(cmd)] == server.origin &&
               (forall i :: 0 <= i < CMD_BACKUP && i != Slot(cmd) ==> r.origins[i] == s.origins[i]) &&
               r.error.x * 8.0 == delta.x as real && r.error.y * 8.0 == delta.y as real &&
               r.error.z * 8.0 == delta.z as real &&
               (cmd < U32 - 1 ==> r.stepFrame >= cmd + 1) &&
               (s.stepFrame > cmd ==> r.stepFrame == s.stepFrame)) &&
            (!(1 < Manhattan(delta) <= 640) ==> r.origins == s.origins && r.stepFrame == s.stepFrame)
  {
    var delta := Minus(server.origin, s.origins[Slot(cmd)]);
    if 1 < Manhattan(delta) <= 640 {
      var r := CheckError(s, cfg, server, cmd);
      assert r.error == Eighth(delta);
    }
  }

  /** The stored error never exceeds 80 units in any axis: a larger miss
      is treated as a teleport and clears it. */
  lemma CheckErrorBounded(s: PredState, cfg: Settings, server: PlayerMove, cmd: u32)
    requires |s.origins| == CMD_BACKUP
    ensures var e := CheckError(s, cfg, server, cmd).error;
            e == s.error ||
            (-80.0 <= e.x <= 80.0 && -80.0 <= e.y <= 80.0 && -80.0 <= e.z <= 80.0)
  {
    var r := CheckError(s, cfg, server, cmd);
    if !cfg.demoPlayback && !cfg.paused && cfg.predict && !server.noPrediction {
      var delta := Minus(server.origin, s.origins[Slot(cmd)]);
      if 1 < Manhattan(delta) <= 640 {
        assert Abs(delta.x) <= 640 && Abs(delta.y) <= 640 && Abs(delta.z) <= 640;
        assert r.error == Eighth(delta);
      }
    }
  }

  /** Checking the same server frame a second time finds no miss: the
      corrected slot now holds the server's origin, so the error is cleared
      and the ring stays as the first check left it. */
  lemma CheckErrorSettles(s: PredState, cfg: Settings, server: PlayerMove, cmd: u32)
    requires |s.origins| == CMD_BACKUP
    requires !cfg.demoPlayback && !cfg.paused && cfg.predict && !server.noPrediction
    ensures var r := CheckError(s, cfg, server, cmd);
            var r2 := CheckError(r, cfg, server, cmd);
            r2.origins == r.origins && r2.stepFrame == r.stepFrame && r2.error == Zero
  {
    var r := CheckError(s, cfg, server, cmd);
    var delta := Minus(server.origin, s.origins[Slot(cmd)]);
    if 1 < Manhattan(delta) <= 640 {
      assert r.origins[Slot(cmd)] == server.origin;
      NoMissNoCorrection(r, cfg, server, cmd);
    } else {
      assert r == s.(error := Zero);
      assert Minus(server.origin, r.origins[Slot(cmd)]) == delta;
    }
  }

  /** A slot that already holds the server's origin shows no miss. */
  lemma NoMissNoCorrection(s: PredState, cfg: Settings, server: PlayerMove, cmd: u32)
    requires |s.origins| == CMD_BACKUP && s.origins[Slot(cmd)] == server.origin
    requires !cfg.demoPlayback && !cfg.paused && cfg.predict && !server.noPrediction
    ensures CheckError(s, cfg, server, cmd) == s.(error := Zero)
  {
    assert Minus(server.origin, s.origins[Slot(cmd)]) == Vec3(0, 0, 0);
  }

  // -----------------------------------------------------------------------
  // Replay

  /** The clip mask PmoveNew is run with. */
  function Mask(extended: bool, ps: PlayerMove): (m: ClipMask)
    ensures !extended ==> m == ClipMask(false, false)
    ensures m.deadSolid <==> extended && (ps.pmType == Dead || ps.pmType == Gib)
    ensures m.players <==> extended && !ps.ignorePlayerCollision
  {
    if !extended then ClipMask(false, false)
    else ClipMask(ps.pmType == Dead || ps.pmType == Gib, !ps.ignorePlayerCollision)
  }

  /** The ring slot of the `j`-th command after `ack`. */
  function SlotAfter(ack: int, j: int): (i: nat)
    ensures i < CMD_BACKUP
  {
    Slot(ack + j)
  }

  /** The movement state after replaying the `k` commands that follow
      `ack`, starting from the server's state `ps`. Only the first call sees
      `snapinitial` set. */
  function Simulate(pmove: Pmove, ps: PlayerMove, cmds: seq<UserCmd>, ack: u32, mask: ClipMask, k: nat): PlayerMove
    requires |cmds| == CMD_BACKUP
  {
    if k == 0 then ps
    else pmove(Simulate(pmove, ps, cmds, ack, mask, k - 1), cmds[SlotAfter(ack, k)], mask, k == 1)
  }

  /** The ring after the replay of `k` commands has stored each result in
      its command's slot. */
  function Replayed(pmove: Pmove, o: seq<Vec3>, ps: PlayerMove, cmds: seq<UserCmd>, ack: u32, mask: ClipMask, k: nat)
    : (r: seq<Vec3>)
    requires |o| == CMD_BACKUP && |cmds| == CMD_BACKUP
    ensures |r| == CMD_BACKUP
  {
    if k == 0 then o
    else Replayed(pmove, o, ps, cmds, ack, mask, k - 1)[SlotAfter(ack, k) := Simulate(pmove, ps, cmds, ack, mask, k).origin]
  }

  /** True when slot `i` is one of the `k` slots that follow `ack`'s. */
  predicate Written(ack: int, k: nat, i: int) {
    (i - ack - 1) % CMD_BACKUP < k
  }

  lemma SlotOffset(ack: int, j: int)
    ensures (SlotAfter(ack, j) - ack - 1) % CMD_BACKUP == (j - 1) % CMD_BACKUP
  {
    var q := (ack + j) / CMD_BACKUP;
    assert SlotAfter(ack, j) == ack + j - q * CMD_BACKUP;
    assert SlotAfter(ack, j) - ack - 1 == (j - 1) + (-q) * CMD_BACKUP;
  }

  /** Each of up to CMD_BACKUP replayed commands keeps its own result in
      the ring: no two of them share a slot. */
  lemma {:induction false} ReplayRecords(pmove: Pmove, o: seq<Vec3>, ps: PlayerMove, cmds: seq<UserCmd>, ack: u32, mask: ClipMask, k: nat)
    requires |o| == CMD_BACKUP && |cmds| == CMD_BACKUP && k <= CMD_BACKUP
    ensures var r := Replayed(pmove, o, ps, cmds, ack, mask, k);
            forall j :: 1 <= j <= k ==> r[SlotAfter(ack, j)] == Simulate(pmove, ps, cmds, ack, mask, j).origin
  {
    if k > 0 {
      ReplayRecords(pmove, o, ps, cmds, ack, mask, k - 1);
      SlotsDistinct(ack, k - 1);
      var prev := Replayed(pmove, o, ps, cmds, ack, mask, k - 1);
      var r := prev[SlotAfter(ack, k) := Simulate(pmove, ps, cmds, ack, mask, k).origin];
      assert r == Replayed(pmove, o, ps, cmds, ack, mask, k);
      forall j | 1 <= j <= k
        ensures r[SlotAfter(ack, j)] == Simulate(pmove, ps, cmds, ack, mask, j).origin
      {
        if j < k {
          assert SlotAfter(ack, j) != SlotAfter(ack, k);
        }
      }
    }
  }

  /** The replay of `k` commands leaves every slot outside the `k` that
      follow `ack`'s as it was. */
  lemma {:induction false} ReplayKeeps(pmove: Pmove, o: seq<Vec3>, ps: PlayerMove, cmds: seq<UserCmd>, ack: u32, mask: ClipMask, k: nat)
    requires |o| == CMD_BACKUP && |cmds| == CMD_BACKUP
    ensures var r := Replayed(pmove, o, ps, cmds, ack, mask, k);
            forall i :: 0 <= i < CMD_BACKUP && !Written(ack, k, i) ==> r[i] == o[i]
  {
    if k > 0 {
      ReplayKeeps(pmove, o, ps, cmds, ack, mask, k - 1);
      SlotOffset(ack, k);
    }
  }

  /** The command numbers behind the freeze checks: too far behind the
      server's acknowledgement, or nothing to simulate. */
  predicate Frozen(ack: u32, current: u32, pending: UserCmd) {
    Sub(current, ack) > CMD_BACKUP - 1 || (pending.msec == 0 && current == ack)
  }

  /** The pending command, with the moves taken from `cl.localmove`. */
  function PendingCmd(pending: UserCmd, localmove: Vec3): UserCmd {
    pending.(forwardmove := localmove.x, sidemove := localmove.y, upmove := localmove.z)
  }

  /** What the replay leaves: the ring, the final movement state and the
      last frame simulated. */
  datatype Run = Run(ring: seq<Vec3>, pm: PlayerMove, frame: u32)

  /** The replay of the commands after `ack` up to `current`, then of the
      pending command when it has a duration. */
  function RunCommands(pmove: Pmove, o: seq<Vec3>, ps: PlayerMove, cmds: seq<UserCmd>, ack: u32, current: u32,
                       mask: ClipMask, pending: UserCmd, localmove: Vec3): (r: Run)
    requires |o| == CMD_BACKUP && |cmds| == CMD_BACKUP
    ensures |r.ring| == CMD_BACKUP
  {
    var n := Sub(current, ack);
    var pm := Simulate(pmove, ps, cmds, ack, mask, n);
    var ring := Replayed(pmove, o, ps, cmds, ack, mask, n);
    if pending.msec != 0 then
      var pm' := pmove(pm, PendingCmd(pending, localmove), mask, n == 0);
      Run(ring[Slot(Add(current, 1)) := pm'.origin], pm', current)
    else
      Run(ring, pm, Sub(current, 1))
  }

  /** The pending command's slot is the one after the `n` replayed
      commands' slots, none of which it overwrites. */
  lemma PendingSlot(ack: u32, current: u32)
    requires Sub(current, ack) <= CMD_BACKUP - 1
    ensures var n := Sub(current, ack);
            Slot(Add(current, 1)) == SlotAfter(ack, n + 1) &&
            (forall j :: 1 <= j <= n ==> SlotAfter(ack, j) != SlotAfter(ack, n + 1)) &&
            (forall i :: !Written(ack, n + 1, i) ==> !Written(ack, n, i) && i != SlotAfter(ack, n + 1))
  {
    var n := Sub(current, ack);
    NextSlotWraps(ack, current);
    SlotsDistinct(ack, n);
    assert Written(ack, n + 1, SlotAfter(ack, n + 1)) by {
      SlotOffset(ack, n + 1);
      assert n % CMD_BACKUP == n;
    }
  }

  /** The slot after `current` is the slot of the command `current - ack + 1`
      places after `ack`, wrap-around of the command numbers included. */
  lemma NextSlotWraps(ack: u32, current: u32)
    ensures Slot(Add(current, 1)) == SlotAfter(ack, Sub(current, ack) + 1)
  {
    var n := Sub(current, ack);
    var c: int := if current + 1 < U32 then 0 else -1;
    var d: int := if ack <= current then 0 else 1;
    assert Add(current, 1) == current + 1 + c * U32;
    assert ack + n + 1 == current + 1 + d * U32;
    SlotWrap(current + 1, c);
    SlotWrap(current + 1, d);
  }

  /** Slots repeat every CMD_BACKUP commands, so a multiple of 2^32 does
      not move a slot. */
  lemma SlotWrap(x: int, c: int)
    ensures Slot(x + c * U32) == Slot(x)
  {
    var m := c * 0x200_0000;
    assert c * U32 == m * CMD_BACKUP;
    assert (x + m * CMD_BACKUP) % CMD_BACKUP == x % CMD_BACKUP;
  }

  /** The first n + 1 <= CMD_BACKUP commands after `ack` have distinct slots. */
  lemma SlotsDistinct(ack: int, n: nat)
    requires n <= CMD_BACKUP - 1
    ensures forall j :: 1 <= j <= n ==> SlotAfter(ack, j) != SlotAfter(ack, n + 1)
  {
    SlotOffset(ack, n + 1);
    forall j | 1 <= j <= n
      ensures SlotAfter(ack, j) != SlotAfter(ack, n + 1)
    {
      SlotOffset(ack, j);
    }
  }

  /** A replay that is not frozen stores every unacknowledged command's
      result in its own slot and the pending command's in the slot after
      `current`; it ends on the pending command's frame, `current`, or
      without one on `current - 1`. */
  lemma RunRecords(pmove: Pmove, o: seq<Vec3>, ps: PlayerMove, cmds: seq<UserCmd>, ack: u32, current: u32,
                   mask: ClipMask, pending: UserCmd, localmove: Vec3)
    requires |o| == CMD_BACKUP && |cmds| == CMD_BACKUP
    requires Sub(current, ack) <= CMD_BACKUP - 1
    ensures var r := RunCommands(pmove, o, ps, cmds, ack, current, mask, pending, localmove);
            var n := Sub(current, ack);
            var last := Simulate(pmove, ps, cmds, ack, mask, n);
            (forall j :: 1 <= j <= n ==> r.ring[SlotAfter(ack, j)] == Simulate(pmove, ps, cmds, ack, mask, j).origin) &&
            (pending.msec != 0 ==>
               r.pm == pmove(last, PendingCmd(pending, localmove), mask, n == 0) &&
               r.ring[SlotAfter(ack, n + 1)] == r.pm.origin && r.frame == current) &&
            (pending.msec == 0 ==> r.pm == last && r.frame == Sub(current, 1))
  {
    ReplayRecords(pmove, o, ps, cmds, ack, mask, Sub(current, ack));
    if pending.msec != 0 {
      PendingSlot(ack, current);
    }
  }

  /** The same replay leaves every slot outside those it writes as it
      was. */
  lemma RunKeeps(pmove: Pmove, o: seq<Vec3>, ps: PlayerMove, cmds: seq<UserCmd>, ack: u32, current: u32,
                 mask: ClipMask, pending: UserCmd, localmove: Vec3)
    requires |o| == CMD_BACKUP && |cmds| == CMD_BACKUP
    requires Sub(current, ack) <= CMD_BACKUP - 1
    ensures var r := RunCommands(pmove, o, ps, cmds, ack, current, mask, pending, localmove);
            var k := if pending.msec != 0 then Sub(current, ack) + 1 else Sub(current, ack);
            forall i :: 0 <= i < CMD_BACKUP && !Written(ack, k, i) ==> r.ring[i] == o[i]
  {
    ReplayKeeps(pmove, o, ps, cmds, ack, mask, Sub(current, ack));
    if pending.msec != 0 {
      PendingSlot(ack, current);
    }
  }

  /** The vertical rise step smoothing accepts as a stair. */
  predicate StepRange(rise: int) {
    63 <= rise < 160
  }

  lemma MulNonNegative(a: real, b: real)
    requires 0.0 <= a && 0.0 <= b
    ensures 0.0 <= a * b
  {
  }

  /** The new predicted step: what remains of the previous one when it
      started under 100 ms ago, plus an eighth of this rise, capped at 32. */
  function NextStep(prev: real, stepTime: u32, realtime: u32, rise: int): (r: real)
    ensures Sub(realtime, stepTime) >= 100 ==> r == if rise as real / 8.0 < 32.0 then rise as real / 8.0 else 32.0
    ensures Sub(realtime, stepTime) < 100 && 0.0 <= prev ==> r >= if rise as real / 8.0 < 32.0 then rise as real / 8.0 else 32.0
    ensures r <= 32.0
    ensures StepRange(rise) && 0.0 <= prev ==> 63.0 / 8.0 <= r
  {
    var delta := Sub(realtime, stepTime);
    var carry := if delta < 100 then prev * (100 - delta) as real / 100.0 else 0.0;
    var sum := carry + rise as real / 8.0;
    if 0.0 <= prev && delta < 100 then MulNonNegative(prev, (100 - delta) as real); (if sum < 32.0 then sum else 32.0)
    else if sum < 32.0 then sum else 32.0
  }

  /** The step smoothing state: predicted_step, predicted_step_time and
      predicted_step_frame. */
  datatype Smoothing = Smoothing(step: real, time: u32, frame: u32)

  /** Step smoothing after a replay that ended in `pm` at frame `frame`:
      a grounded, non-spectator rise of 63 to 159 units over the origin
      recorded at the last smoothed frame starts a new step; either way the
      step frame is raised to at least `frame`. */
  function Smooth(sm: Smoothing, ring: seq<Vec3>, pm: PlayerMove, frame: u32, realtime: u32): (r: Smoothing)
    requires |ring| == CMD_BACKUP
    ensures r.frame >= frame
    ensures r.step != sm.step || r.time != sm.time ==>
              r.time == realtime && r.step <= 32.0 && pm.pmType != Spectator && pm.onGround &&
              StepRange(pm.origin.z - ring[Slot(sm.frame)].z)
    ensures r.frame != sm.frame && r.frame != frame ==> r.frame == Add(frame, 1)
    ensures var rise := pm.origin.z - ring[Slot(sm.frame)].z;
            pm.pmType != Spectator && pm.onGround && StepRange(rise) ==>
              r.time == realtime && r.step == NextStep(sm.step, sm.time, realtime, rise) &&
              r.frame == (if Add(frame, 1) < frame then frame else Add(frame, 1))
    ensures var rise := pm.origin.z - ring[Slot(sm.frame)].z;
            !(pm.pmType != Spectator && pm.onGround && StepRange(rise)) ==>
              r.step == sm.step && r.time == sm.time && r.frame == (if sm.frame < frame then frame else sm.frame)
  {
    var rise := pm.origin.z - ring[Slot(sm.frame)].z;
    if pm.pmType != Spectator && pm.onGround && StepRange(rise) then
      var f := Add(frame, 1);
      Smoothing(NextStep(sm.step, sm.time, realtime, rise), realtime, if f < frame then frame else f)
    else
      Smoothing(sm.step, sm.time, if sm.frame < frame then frame else sm.frame)
  }

  /** CL_PredictMovement over the ring and the smoothing state, given the
      server's movement state `ps`, the acknowledged command number `ack`,
      the current command number `current`, the command ring `cmds`, the
      pending command and the real time in milliseconds. */
  function Predicted(s: PredState, cfg: Settings, pmove: Pmove, ps: PlayerMove, ack: u32, current: u32,
                     cmds: seq<UserCmd>, pending: UserCmd, localmove: Vec3, realtime: u32): (r: PredState)
    requires |s.origins| == CMD_BACKUP && |cmds| == CMD_BACKUP
    ensures |r.origins| == CMD_BACKUP
    ensures !cfg.active || cfg.demoPlayback || cfg.paused || !cfg.predict || ps.noPrediction ==> r == s
    ensures Frozen(ack, current, pending) ==> r == s
    ensures r.error == s.error
    ensures r.step == s.step || r.step <= 32.0
    ensures r != s ==>
              r.clipMask == Mask(cfg.extended, ps) &&
              r.origins == RunCommands(pmove, s.origins, ps, cmds, ack, current, r.clipMask, pending, localmove).ring &&
              r.stepFrame >= (if pending.msec != 0 then current else Sub(current, 1))
    ensures cfg.active && !cfg.demoPlayback && !cfg.paused && cfg.predict && !ps.noPrediction &&
            !Frozen(ack, current, pending) ==>
              var run := RunCommands(pmove, s.origins, ps, cmds, ack, current, Mask(cfg.extended, ps), pending, localmove);
              r.origin == Eighth(run.pm.origin) && r.velocity == Eighth(run.pm.velocity) &&
              Smoothing(r.step, r.stepTime, r.stepFrame) ==
                Smooth(Smoothing(s.step, s.stepTime, s.stepFrame), run.ring, run.pm, run.frame, realtime)
  {
    if !cfg.active || cfg.demoPlayback || cfg.paused then s
    else if !cfg.predict || ps.noPrediction then s
    else if Frozen(ack, current, pending) then s
    else
      var mask := Mask(cfg.extended, ps);
      var run := RunCommands(pmove, s.origins, ps, cmds, ack, current, mask, pending, localmove);
      var sm := Smooth(Smoothing(s.step, s.stepTime, s.stepFrame), run.ring, run.pm, run.frame, realtime);
      PredState(run.ring, s.error, sm.step, sm.time, sm.frame, mask, Eighth(run.pm.origin), Eighth(run.pm.velocity))
  }

  // -----------------------------------------------------------------------
  // The replay guard as written

  /** `++ack <= current` on unsigned values: does the loop run again after
      command `a`? */
  predicate ReplayContinues(a: u32, current: u32) {
    Add(a, 1) <= current
  }

  /** With `ack <= current` the guard visits exactly ack+1 .. current,
      as the replay of Sub(current, ack) commands does, unless `current`
      is the largest unsigned value. */
  lemma ReplayGuardAgrees(ack: u32, current: u32, a: u32)
    requires ack <= a <= current < U32 - 1
    ensures ReplayContinues(a, current) <==> a < current
    ensures ReplayContinues(a, current) ==> Add(a, 1) == a + 1
    ensures Sub(current, ack) == current - ack
  {
  }

  /** When the command number reaches 2^32 - 1 the guard holds for every
      value of the counter, so the replay loop never ends. */
  lemma ReplayNeverEndsAtTop(a: u32)
    ensures ReplayContinues(a, U32 - 1)
  {
  }

  /** Just after the command number wraps, with ack = 2^32 - 2 and
      current = 3, the freeze check lets five commands through, yet the
      guard fails at once and none is replayed. */
  lemma ReplaySkippedAfterWrap()
    ensures !Frozen(U32 - 2, 3, UserCmd(0, 0, 0, 0, 0))
    ensures Sub(3, U32 - 2) == 5
    ensures !ReplayContinues(U32 - 2, 3)
  {
  }

  // -----------------------------------------------------------------------
  // The client state

  /** The fields of `cl` the two functions update, with the fixed-size
      ring of predicted origins. */
  class Predictor {
    const origins: array<Vec3>
    var error: RVec3
    var step: real
    var stepTime: u32
    var stepFrame: u32
    var clipMask: ClipMask
    var origin: RVec3
    var velocity: RVec3

    ghost predicate Valid()
      reads this
    {
      origins.Length == CMD_BACKUP
    }

    function State(): (r: PredState)
      reads this, origins
      requires Valid()
      ensures |r.origins| == CMD_BACKUP
    {
      PredState(origins[..], error, step, stepTime, stepFrame, clipMask, origin, velocity)
    }

    /** A cleared client state: an all-zero ring and no smoothing. */
    constructor ()
      ensures Valid() && fresh(origins)
      ensures State() == PredState(seq(CMD_BACKUP, _ => Vec3(0, 0, 0)), Zero, 0.0, 0, 0,
                                   ClipMask(false, false), Zero, Zero)
    {
      origins := new Vec3[CMD_BACKUP](_ => Vec3(0, 0, 0));
      error, step, stepTime, stepFrame := Zero, 0.0, 0, 0;
      clipMask, origin, velocity := ClipMask(false, false), Zero, Zero;
    }

    /** CL_CheckPredictionError. */
    method CheckPredictionError(cfg: Settings, server: PlayerMove, cmd: u32)
      requires Valid()
      modifies this`error, this`stepFrame, origins
      ensures Valid()
      ensures State() == CheckError(old(State()), cfg, server, cmd)
    {
      if cfg.demoPlayback {
        return;
      }
      if cfg.paused {
        error := Zero;
        return;
      }
      if !cfg.predict || server.noPrediction {
        return;
      }
      var delta := Minus(server.origin, origins[cmd % CMD_BACKUP]);
      var len := Abs(delta.x) + Abs(delta.y) + Abs(delta.z);
      if len <= 1 || len > 640 {
        error := Zero;
        return;
      }
      if stepFrame <= cmd {
        stepFrame := Add(cmd, 1);
      }
      origins[cmd % CMD_BACKUP] := server.origin;
      error := Eighth(delta);
    }

    /** The replay loop, with the count corrected as under ## Findings of
        the README: it runs for the Sub(current, ack) commands that follow
        `ack`. */
    method Replay(pmove: Pmove, ps: PlayerMove, cmds: seq<UserCmd>, ack: u32, n: nat, mask: ClipMask)
      returns (pm: PlayerMove)
      requires Valid() && |cmds| == CMD_BACKUP
      modifies origins
      ensures origins[..] == Replayed(pmove, old(origins[..]), ps, cmds, ack, mask, n)
      ensures pm == Simulate(pmove, ps, cmds, ack, mask, n)
    {
      pm := ps;
      var snap := true;
      var k := 0;
      while k < n
        invariant 0 <= k <= n
        invariant snap <==> k == 0
        invariant pm == Simulate(pmove, ps, cmds, ack, mask, k)
        invariant origins[..] == Replayed(pmove, old(origins[..]), ps, cmds, ack, mask, k)
      {
        k := k + 1;
        pm := pmove(pm, cmds[SlotAfter(ack, k)], mask, snap);
        snap := false;
        origins[SlotAfter(ack, k)] := pm.origin;
      }
    }

    /** The step smoothing at the end of CL_PredictMovement. */
    method SmoothStep(pm: PlayerMove, frame: u32, realtime: u32)
      requires Valid()
      modifies this`step, this`stepTime, this`stepFrame
      ensures Smoothing(step, stepTime, stepFrame) ==
              Smooth(old(Smoothing(step, stepTime, stepFrame)), origins[..], pm, frame, realtime)
    {
      if pm.pmType != Spectator && pm.onGround {
        var oldz := origins[stepFrame % CMD_BACKUP].z;
        var rise := pm.origin.z - oldz;
        if 63 <= rise < 160 {
          step := NextStep(step, stepTime, realtime, rise);
          stepTime := realtime;
          stepFrame := Add(frame, 1);
        }
      }
      if stepFrame < frame {
        stepFrame := frame;
      }
    }

    /** CL_PredictMovement: freeze checks, clip mask, replay, the pending
        command, step smoothing and the step frame, then the results for
        rendering. */
    method PredictMovement(cfg: Settings, pmove: Pmove, ps: PlayerMove, ack: u32, current: u32,
                           cmds: seq<UserCmd>, pending: UserCmd, localmove: Vec3, realtime: u32)
      requires Valid() && |cmds| == CMD_BACKUP
      modifies this, origins
      ensures Valid()
      ensures State() == Predicted(old(State()), cfg, pmove, ps, ack, current, cmds, pending, localmove, realtime)
    {
      if !cfg.active || cfg.demoPlayback || cfg.paused {
        return;
      }
      if !cfg.predict || ps.noPrediction {
        return;
      }
      if Sub(current, ack) > CMD_BACKUP - 1 {
        return;
      }
      if pending.msec == 0 && current == ack {
        return;
      }
      ghost var s := State();
      clipMask := Mask(cfg.extended, ps);
      var n := Sub(current, ack);
      var pm := Replay(pmove, ps, cmds, ack, n, clipMask);
      var frame: u32;
      if pending.msec != 0 {
        pm := pmove(pm, PendingCmd(pending, localmove), clipMask, n == 0);
        frame := current;
        origins[Add(current, 1) % CMD_BACKUP] := pm.origin;
      } else {
        frame := Sub(current, 1);
      }
      assert Run(origins[..], pm, frame) == RunCommands(pmove, s.origins, ps, cmds, ack, current, clipMask, pending, localmove);
      SmoothStep(pm, frame, realtime);
      origin := Eighth(pm.origin);
      velocity := Eighth(pm.velocity);
      assert State() == Predicted(s, cfg, pmove, ps, ack, current, cmds, pending, localmove, realtime);
    }
  }
}
