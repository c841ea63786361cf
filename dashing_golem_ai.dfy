/** The dashing golem's controller (Assets/Chapter2EnemiesPrefabs/DashingGolem/DashingGolemAI.cs).
    It patrols and idles; seeing the player it stops in Detect and, after
    `detectDuration`, chases. In Chase it gives up after 5 s out of range and dashes
    when close and off cooldown. The dash charges, runs until it has covered
    `dashDistance` or lasted 2 s, brakes, and returns to Chase. Only a dashing golem
    hurts the player on contact. */
module DashingGolemAI {
  import opened Common

  datatype State = Patrol | Idle | Detect | Chase | Dash | Death

  datatype Event = DetectTrigger | AttackTrigger | DeathTrigger

  /** Seconds out of range before the chase is abandoned, and its reset value. */
  const AbandonTime: real := 5.0
  /** Cooldown set when a dash starts, and its initial value. */
  const DashCooldown: real := 2.0
  /** The dash loop runs at most this long. */
  const MaxDashTime: real := 2.0
  /** Distance under which a patrol waypoint counts as reached. */
  const WaypointReach: real := 1.0

  datatype Config = Config(
    maxHealth: int,
    idleDuration: real,
    detectRange: real,
    dashRange: real,
    dashDistance: real,
    dashStopSmoothTime: real,
    dashDamage: int,
    patrolCount: nat)

  /** Where a suspended `DashRoutine` stands: waiting out the charge, in the dash loop
      with its `dashTimer`, or in the braking loop with its `t`. */
  datatype DashStep = Charging | Dashing(timer: real) | Braking(t: real)

  datatype Golem = Golem(
    state: State,
    isDead: bool,
    health: int,
    patrolIndex: nat,
    nextIdleTime: real,
    idleTimer: real,
    abandonTimer: real,
    dashCooldownTimer: real,
    untouchable: bool,
    detectPending: bool,
    dash: Option<DashStep>,
    log: seq<Event>)

  /** The state after `Start`; `roll` is the first idle interval drawn. */
  function Initial(c: Config, roll: real): Golem
  {
    Golem(Patrol, false, c.maxHealth, 0, roll, 0.0, AbandonTime, DashCooldown, false, false, None, [])
  }

  predicate Valid(c: Config, g: Golem)
  {
    (g.state == Death ==> g.isDead) &&
    (g.state == Detect ==> g.detectPending) &&
    (g.state == Dash ==> g.dash.Some?) &&
    (g.untouchable ==> g.dash.Some?) &&
    (c.patrolCount > 0 ==> g.patrolIndex < c.patrolCount)
  }

  /** `DetectThenChase` up to its wait. */
  function StartDetect(g: Golem): Golem
  {
    g.(state := Detect, detectPending := true, log := g.log + [DetectTrigger])
  }

  function ToIdle(c: Config, g: Golem): Golem
  {
    g.(state := Idle, idleTimer := c.idleDuration)
  }

  /** `PatrolUpdate`. `patrolPoints[currentPatrolIndex]` is read first: with no waypoint
      there the read throws and the frame changes nothing. */
  function PatrolTick(c: Config, g: Golem, f: Facts): (r: Golem)
    requires g.state == Patrol
    ensures g.patrolIndex >= c.patrolCount ==> r == g
    // the idle countdown is checked before detection, and wins over it
    ensures g.patrolIndex < c.patrolCount && g.nextIdleTime - f.dt <= 0.0 ==> r.state == Idle
    ensures g.patrolIndex < c.patrolCount && g.nextIdleTime - f.dt > 0.0 ==>
      (r.state == Detect <==> f.dist <= c.detectRange)
    ensures r.state == Detect ==> r.detectPending && r.log == g.log + [DetectTrigger]
    ensures r.patrolIndex != g.patrolIndex ==>
      f.waypointDist < WaypointReach && r.patrolIndex == NextWaypoint(g.patrolIndex, c.patrolCount)
    ensures Valid(c, g) ==> Valid(c, r)
  {
    if g.patrolIndex >= c.patrolCount then g
    else
      var i := if f.waypointDist < WaypointReach then NextWaypoint(g.patrolIndex, c.patrolCount)
               else g.patrolIndex;
      var g1 := g.(patrolIndex := i, nextIdleTime := g.nextIdleTime - f.dt);
      if g1.nextIdleTime <= 0.0 then ToIdle(c, g1)
      else if f.dist <= c.detectRange then StartDetect(g1)
      else g1
  }

  /** `IdleUpdate`: detection comes first; when the idle time is up, a fresh idle interval
      `roll` is drawn and the golem patrols again. */
  function IdleTick(c: Config, g: Golem, f: Facts): (r: Golem)
    requires g.state == Idle
    ensures f.dist <= c.detectRange ==> r == StartDetect(g)
    ensures f.dist > c.detectRange && g.idleTimer - f.dt <= 0.0 ==>
      r == g.(idleTimer := g.idleTimer - f.dt, nextIdleTime := f.roll, state := Patrol)
    ensures f.dist > c.detectRange && g.idleTimer - f.dt > 0.0 ==>
      r == g.(idleTimer := g.idleTimer - f.dt)
    ensures Valid(c, g) ==> Valid(c, r)
  {
    if f.dist <= c.detectRange then StartDetect(g)
    else
      var g1 := g.(idleTimer := g.idleTimer - f.dt);
      if g1.idleTimer <= 0.0 then g1.(nextIdleTime := f.roll, state := Patrol) else g1
  }

  /** `ChaseUpdate`; the chase velocity is physics. */
  function ChaseTick(c: Config, g: Golem, f: Facts): (r: Golem)
    requires g.state == Chase
    // in range the abandon timer is reset; out of range it runs down, and at 0 it is
    // reset and the golem patrols
    ensures f.dist <= c.detectRange ==> r.abandonTimer == AbandonTime
    ensures f.dist > c.detectRange && g.abandonTimer - f.dt <= 0.0 ==>
      r == g.(abandonTimer := AbandonTime, state := Patrol)
    ensures f.dist > c.detectRange && g.abandonTimer - f.dt > 0.0 ==>
      r.abandonTimer == g.abandonTimer - f.dt
    // a dash starts only in dash range with the cooldown run out, and resets the cooldown
    ensures r.state == Dash <==>
      !(f.dist > c.detectRange && g.abandonTimer - f.dt <= 0.0) && f.dist <= c.dashRange &&
      (if g.dashCooldownTimer > 0.0 then g.dashCooldownTimer - f.dt else g.dashCooldownTimer) <= 0.0
    ensures r.state == Dash ==> r.dashCooldownTimer == DashCooldown && r.dash == Some(Charging)
    ensures r.state !in {Dash, Patrol} ==> r.state == Chase
    ensures Valid(c, g) ==> Valid(c, r)
  {
    if f.dist > c.detectRange && g.abandonTimer - f.dt <= 0.0 then
      g.(abandonTimer := AbandonTime, state := Patrol)
    else
      var g1 := g.(abandonTimer := if f.dist > c.detectRange then g.abandonTimer - f.dt else AbandonTime);
      var g2 := if g1.dashCooldownTimer > 0.0 then g1.(dashCooldownTimer := g1.dashCooldownTimer - f.dt) else g1;
      if f.dist <= c.dashRange && g2.dashCooldownTimer <= 0.0 then
        g2.(state := Dash, dash := Some(Charging), dashCooldownTimer := DashCooldown)
      else g2
  }

  /** `Update`: nothing ticks once dead, and Detect and Dash have no per-frame logic. */
  function Tick(c: Config, g: Golem, f: Facts): (r: Golem)
    ensures g.isDead || g.state !in {Patrol, Idle, Chase} ==> r == g
    ensures !g.isDead && g.state == Patrol ==> r == PatrolTick(c, g, f)
    ensures !g.isDead && g.state == Idle ==> r == IdleTick(c, g, f)
    ensures !g.isDead && g.state == Chase ==> r == ChaseTick(c, g, f)
    ensures Valid(c, g) ==> Valid(c, r)
  {
    if g.isDead then g
    else match g.state
      case Patrol => PatrolTick(c, g, f)
      case Idle => IdleTick(c, g, f)
      case Chase => ChaseTick(c, g, f)
      case _ => g
  }

  /** `DetectThenChase` after `detectDuration`: Chase, whatever the state. */
  function DetectDone(g: Golem): (r: Golem)
    requires g.detectPending
    ensures r.state == Chase && !r.detectPending
    // the wait does not look at `isDead`: a golem that died meanwhile stays dead in Chase
    ensures r.isDead == g.isDead && r.health == g.health && r.log == g.log
    ensures r.dash == g.dash && r.untouchable == g.untouchable && r.patrolIndex == g.patrolIndex
  {
    g.(state := Chase, detectPending := false)
  }

  /** The end of `DashRoutine`: the layer is restored and the state is Chase. */
  function FinishDash(g: Golem): Golem
  {
    g.(untouchable := false, state := Chase, dash := None)
  }

  /** The braking loop entered in a frame of length `dt`. */
  function StartBraking(c: Config, g: Golem, dt: real): Golem
  {
    if 0.0 < c.dashStopSmoothTime then g.(dash := Some(Braking(dt))) else FinishDash(g)
  }

  /** The charge is over (in a frame of length `dt`): the golem turns untouchable, attacks,
      and enters the dash loop, which starts with nothing travelled. */
  function ChargeDone(c: Config, g: Golem, dt: real): (r: Golem)
    requires g.dash == Some(Charging)
    ensures 0.0 < c.dashDistance ==>
      r == g.(untouchable := true, log := g.log + [AttackTrigger], dash := Some(Dashing(dt)))
    ensures c.dashDistance <= 0.0 ==>
      r == StartBraking(c, g.(untouchable := true, log := g.log + [AttackTrigger]), dt)
    ensures Valid(c, g) ==> Valid(c, r)
  {
    var g1 := g.(untouchable := true, log := g.log + [AttackTrigger]);
    if 0.0 < c.dashDistance && 0.0 < MaxDashTime then g1.(dash := Some(Dashing(dt)))
    else StartBraking(c, g1, dt)
  }

  /** One later frame of `DashRoutine`'s dash or braking loop; `travelled` is the distance
      from the dash's start. */
  function DashFrame(c: Config, g: Golem, travelled: real, dt: real): (r: Golem)
    requires g.dash.Some? && !g.dash.value.Charging?
    // the dash loop goes on only while under `dashDistance` and under 2 s
    ensures g.dash.value.Dashing? ==>
      (r.dash.Some? && r.dash.value.Dashing? <==>
         travelled < c.dashDistance && g.dash.value.timer < MaxDashTime)
    ensures r.dash.Some? && r.dash.value.Dashing? ==>
      g.dash.value.Dashing? && r.dash.value.timer == g.dash.value.timer + dt
    // the routine ends with the layer restored and the state Chase
    ensures r.dash.None? ==> r == FinishDash(g)
    ensures r.isDead == g.isDead && r.health == g.health
    ensures Valid(c, g) ==> Valid(c, r)
  {
    match g.dash.value
    case Dashing(timer) =>
      if travelled < c.dashDistance && timer < MaxDashTime then g.(dash := Some(Dashing(timer + dt)))
      else StartBraking(c, g, dt)
    case Braking(t) =>
      if t < c.dashStopSmoothTime then g.(dash := Some(Braking(t + dt))) else FinishDash(g)
  }

  /** `TakeDamage(amount)`; a fatal hit runs `DieRoutine` up to its wait. The hurt
      animation trigger is commented out in this enemy, so only a death is logged. */
  function Hit(g: Golem, amount: int): (r: Golem)
    ensures g.isDead ==> r == g
    ensures !g.isDead && g.health - amount > 0 ==> r == g.(health := g.health - amount)
    // dying sets `isDead` and Death together
    ensures !g.isDead && g.health - amount <= 0 ==>
      r == g.(health := g.health - amount, isDead := true, state := Death,
              log := g.log + [DeathTrigger])
  {
    if g.isDead then g
    else
      var g1 := g.(health := g.health - amount);
      if g1.health <= 0 then g1.(isDead := true, state := Death, log := g1.log + [DeathTrigger])
      else g1
  }

  datatype Input =
    | Frame(f: Facts)
    | TakeDamage(amount: int)
    | DetectOver
    | ChargeOver(dt: real)
    | DashRoutineFrame(travelled: real, dt: real)

  function Step(c: Config, g: Golem, i: Input): Golem
  {
    match i
    case Frame(f) => Tick(c, g, f)
    case TakeDamage(amount) => Hit(g, amount)
    case DetectOver => if g.detectPending then DetectDone(g) else g
    case ChargeOver(dt) => if g.dash == Some(Charging) then ChargeDone(c, g, dt) else g
    case DashRoutineFrame(travelled, dt) =>
      if g.dash.Some? && !g.dash.value.Charging? then DashFrame(c, g, travelled, dt) else g
  }

  function Run(c: Config, g: Golem, inputs: seq<Input>): Golem
    decreases |inputs|
  {
    if inputs == [] then g else Run(c, Step(c, g, inputs[0]), inputs[1..])
  }

  /** Every reachable state is Valid: Death implies `isDead`, Detect and Dash have their
      coroutines running, the golem is untouchable only during a dash, and the patrol
      index stays within the waypoints. */
  lemma {:induction false} RunKeepsValid(c: Config, g: Golem, inputs: seq<Input>)
    requires Valid(c, g)
    ensures Valid(c, Run(c, g, inputs))
    decreases |inputs|
  {
    if inputs != [] {
      RunKeepsValid(c, Step(c, g, inputs[0]), inputs[1..]);
    }
  }

  /** A dead golem with no coroutine left to resume is frozen: nothing changes it. */
  lemma {:induction false} DeadIsFrozen(c: Config, g: Golem, inputs: seq<Input>)
    requires g.isDead && !g.detectPending && g.dash.None?
    ensures Run(c, g, inputs) == g
    decreases |inputs|
  {
    if inputs != [] {
      DeadIsFrozen(c, Step(c, g, inputs[0]), inputs[1..]);
    }
  }

  /** The inputs are all frames of the dash routine, none shorter than `minDt`. */
  predicate DashFramesOnly(inputs: seq<Input>, minDt: real)
  {
    forall i :: 0 <= i < |inputs| ==> inputs[i].DashRoutineFrame? && inputs[i].dt >= minDt
  }

  predicate InDashLoop(g: Golem)
  {
    g.dash.Some? && g.dash.value.Dashing?
  }

  lemma DashFramesOnlyTail(inputs: seq<Input>, minDt: real)
    requires inputs != [] && DashFramesOnly(inputs, minDt)
    ensures DashFramesOnly(inputs[1..], minDt)
    ensures inputs[0].DashRoutineFrame? && inputs[0].dt >= minDt
  {
    assert forall i :: 0 <= i < |inputs[1..]| ==> inputs[1..][i] == inputs[i + 1];
  }

  /** Dash frames never lead back into the dash loop once it has been left. */
  lemma {:induction false} DashLoopNotReentered(c: Config, g: Golem, inputs: seq<Input>, minDt: real)
    requires !InDashLoop(g) && DashFramesOnly(inputs, minDt)
    ensures !InDashLoop(Run(c, g, inputs))
    decreases |inputs|
  {
    if inputs != [] {
      DashFramesOnlyTail(inputs, minDt);
      DashLoopNotReentered(c, Step(c, g, inputs[0]), inputs[1..], minDt);
    }
  }

  /** The dash loop cannot outlast its 2 s bound: with frames of at least `minDt`, it has
      been left after any run of frames whose total length reaches the bound. */
  lemma {:induction false} DashLoopEndsInTime(c: Config, g: Golem, inputs: seq<Input>, minDt: real)
    requires InDashLoop(g) && minDt > 0.0
    requires DashFramesOnly(inputs, minDt) && |inputs| >= 1
    requires g.dash.value.timer + ((|inputs| - 1) as real) * minDt >= MaxDashTime
    ensures !InDashLoop(Run(c, g, inputs))
    decreases |inputs|
  {
    DashFramesOnlyTail(inputs, minDt);
    var dt := inputs[0].dt;
    var q := Step(c, g, inputs[0]);
    if !InDashLoop(q) {
      DashLoopNotReentered(c, q, inputs[1..], minDt);
    } else {
      assert g.dash.value.timer < MaxDashTime;
      if |inputs| == 1 {
        assert false;
      }
      var k := |inputs[1..]|;
      assert q.dash.value.timer == g.dash.value.timer + dt;
      assert ((k - 1) as real) * minDt + minDt == (k as real) * minDt;
      assert k == |inputs| - 1;
      DashLoopEndsInTime(c, q, inputs[1..], minDt);
    }
  }

  /** A golem that dies while still detecting the player is put in Chase when its detect
      wait ends; `isDead` keeps it from ticking. */
  lemma DetectCompletionAfterDeath(c: Config, g: Golem, amount: int)
    requires g.state == Detect && g.detectPending && !g.isDead && g.health - amount <= 0
    ensures Step(c, g, TakeDamage(amount)).state == Death
    ensures Step(c, Step(c, g, TakeDamage(amount)), DetectOver).state == Chase
    ensures Step(c, Step(c, g, TakeDamage(amount)), DetectOver).isDead
  {
  }

  class Controller {
    const cfg: Config
    var state: State
    var isDead: bool
    var currentHealth: int
    var currentPatrolIndex: nat
    var nextIdleTime: real
    var idleTimer: real
    var abandonTimer: real
    var dashCooldownTimer: real
    /** The game object is on the untouchable layer. */
    var untouchable: bool
    /** A `DetectThenChase` coroutine is waiting. */
    var detectPending: bool
    var dashRoutine: Option<DashStep>
    ghost var log: seq<Event>

    ghost function Snapshot(): Golem
      reads this
    {
      Golem(state, isDead, currentHealth, currentPatrolIndex, nextIdleTime, idleTimer,
            abandonTimer, dashCooldownTimer, untouchable, detectPending, dashRoutine, log)
    }

    /** Field initialisers followed by `Start`; `roll` is the first idle interval drawn. */
    constructor (cfg: Config, roll: real)
      ensures this.cfg == cfg && Snapshot() == Initial(cfg, roll)
    {
      this.cfg := cfg;
      state := Patrol;
      isDead := false;
      currentPatrolIndex := 0;
      idleTimer := 0.0;
      abandonTimer := AbandonTime;
      dashCooldownTimer := DashCooldown;
      untouchable := false;
      detectPending := false;
      dashRoutine := None;
      log := [];
      currentHealth := cfg.maxHealth;
      nextIdleTime := roll;
    }

    method Update(f: Facts)
      modifies this
      ensures Snapshot() == Tick(cfg, old(Snapshot()), f)
    {
      if isDead {
        return;
      }
      match state {
        case Patrol => PatrolUpdate(f);
        case Idle => IdleUpdate(f);
        case Chase => ChaseUpdate(f);
        case _ =>
      }
    }

    method PatrolUpdate(f: Facts)
      requires state == Patrol
      modifies this
      ensures Snapshot() == PatrolTick(cfg, old(Snapshot()), f)
    {
      if currentPatrolIndex >= cfg.patrolCount {
        // `patrolPoints[currentPatrolIndex]` throws: the rest of the frame is lost
        return;
      }
      if f.waypointDist < WaypointReach {
        currentPatrolIndex := NextWaypoint(currentPatrolIndex, cfg.patrolCount);
      }
      nextIdleTime := nextIdleTime - f.dt;
      if nextIdleTime <= 0.0 {
        EnterIdle();
        return;
      }
      if f.dist <= cfg.detectRange {
        DetectThenChase();
      }
    }

    method EnterIdle()
      modifies this
      ensures Snapshot() == ToIdle(cfg, old(Snapshot()))
    {
      state := Idle;
      idleTimer := cfg.idleDuration;
    }

    method IdleUpdate(f: Facts)
      requires state == Idle
      modifies this
      ensures Snapshot() == IdleTick(cfg, old(Snapshot()), f)
    {
      if f.dist <= cfg.detectRange {
        DetectThenChase();
        return;
      }
      idleTimer := idleTimer - f.dt;
      if idleTimer <= 0.0 {
        nextIdleTime := f.roll;
        state := Patrol;
      }
    }

    /** `DetectThenChase` up to its wait. */
    method DetectThenChase()
      modifies this
      ensures Snapshot() == StartDetect(old(Snapshot()))
    {
      state := Detect;
      detectPending := true;
      log := log + [DetectTrigger];
    }

    method ResumeDetect()
      requires detectPending
      modifies this
      ensures Snapshot() == DetectDone(old(Snapshot()))
    {
      detectPending := false;
      state := Chase;
    }

    method ChaseUpdate(f: Facts)
      requires state == Chase
      modifies this
      ensures Snapshot() == ChaseTick(cfg, old(Snapshot()), f)
    {
      if f.dist > cfg.detectRange {
        abandonTimer := abandonTimer - f.dt;
        if abandonTimer <= 0.0 {
          abandonTimer := AbandonTime;
          state := Patrol;
          return;
        }
      } else {
        abandonTimer := AbandonTime;
      }
      if dashCooldownTimer > 0.0 {
        dashCooldownTimer := dashCooldownTimer - f.dt;
      }
      if f.dist <= cfg.dashRange && dashCooldownTimer <= 0.0 {
        DashRoutine();
        dashCooldownTimer := DashCooldown;
        return;
      }
    }

    /** `DashRoutine` up to the charge wait. */
    method DashRoutine()
      modifies this
      ensures Snapshot() == old(Snapshot()).(state := Dash, dash := Some(Charging))
    {
      state := Dash;
      dashRoutine := Some(Charging);
    }

    /** `DashRoutine` after the charge wait, in a frame of length `dt`. */
    method ResumeCharge(dt: real)
      requires dashRoutine == Some(Charging)
      modifies this
      ensures Snapshot() == ChargeDone(cfg, old(Snapshot()), dt)
    {
      untouchable := true;
      log := log + [AttackTrigger];
      var travelled := 0.0;
      var dashTimer := 0.0;
      if travelled < cfg.dashDistance && dashTimer < MaxDashTime {
        dashTimer := dashTimer + dt;
        dashRoutine := Some(Dashing(dashTimer));
        return;
      }
      EnterBraking(dt);
    }

    /** `DashRoutine` resumed in a later frame, inside its dash or braking loop. */
    method ResumeDashFrame(travelled: real, dt: real)
      requires dashRoutine.Some? && !dashRoutine.value.Charging?
      modifies this
      ensures Snapshot() == DashFrame(cfg, old(Snapshot()), travelled, dt)
    {
      match dashRoutine.value {
        case Dashing(dashTimer) =>
          if travelled < cfg.dashDistance && dashTimer < MaxDashTime {
            dashRoutine := Some(Dashing(dashTimer + dt));
          } else {
            EnterBraking(dt);
          }
        case Braking(t) =>
          if t < cfg.dashStopSmoothTime {
            dashRoutine := Some(Braking(t + dt));
          } else {
            EndDash();
          }
      }
    }

    /** The braking loop from `t = 0`, in a frame of length `dt`. */
    method EnterBraking(dt: real)
      modifies this
      ensures Snapshot() == StartBraking(cfg, old(Snapshot()), dt)
    {
      var t := 0.0;
      if t < cfg.dashStopSmoothTime {
        t := t + dt;
        dashRoutine := Some(Braking(t));
        return;
      }
      EndDash();
    }

    method EndDash()
      modifies this
      ensures Snapshot() == FinishDash(old(Snapshot()))
    {
      untouchable := false;
      state := Chase;
      dashRoutine := None;
    }

    method TakeDamage(amount: int)
      modifies this
      ensures Snapshot() == Hit(old(Snapshot()), amount)
    {
      if isDead {
        return;
      }
      currentHealth := currentHealth - amount;
      if currentHealth <= 0 {
        DieRoutine();
      }
    }

    /** `DieRoutine` up to its wait; what follows it (physics off, `Destroy`) is not modelled. */
    method DieRoutine()
      modifies this
      ensures Snapshot() == old(Snapshot()).(isDead := true, state := Death, log := old(log) + [DeathTrigger])
    {
      isDead := true;
      state := Death;
      log := log + [DeathTrigger];
    }

    /** `OnCollisionEnter2D`: the damage dealt to the player, if any. */
    method OnCollisionEnter2D(isPlayer: bool, hasStats: bool) returns (dealt: Option<int>)
      ensures dealt.Some? <==> state == Dash && isPlayer && hasStats
      ensures dealt.Some? ==> dealt.value == cfg.dashDamage
    {
      dealt := None;
      if state == Dash && isPlayer {
        if hasStats {
          dealt := Some(cfg.dashDamage);
        }
      }
    }
  }
}
