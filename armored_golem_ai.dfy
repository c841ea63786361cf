/** The armored golem's controller (Assets/ArmoredGolemAI.cs). It patrols and idles;
    seeing the player it armors up and, after `detectDuration`, chases. It leaves the
    chase beyond `chaseExitRange` and swings when in melee range with the attack ready;
    the swing lands after the cooldown if the player is still in range. Dying only sets
    `isDead`: the state keeps its value, and the Death value is never assigned. */
module ArmoredGolemAI {
  import opened Common

  datatype State = Patrol | Idle | ArmorUp | Chase | Attack | Death

  /** Animator triggers, and `StrikePlayer` for the melee hit landing on the player. */
  datatype Event = ArmorUpTrigger | ArmorDownTrigger | AttackTrigger | StrikePlayer | Hurt | DeathTrigger

  /** Distance under which a patrol waypoint counts as reached. */
  const WaypointReach: real := 0.1

  datatype Config = Config(
    maxHealth: int,
    idleDuration: real,
    detectRange: real,
    chaseExitRange: real,
    meleeRange: real,
    meleeDamage: int,
    patrolCount: nat)

  datatype Golem = Golem(
    state: State,
    isDead: bool,
    health: int,
    canAttack: bool,
    patrolIndex: nat,
    nextIdleTime: real,
    idleTimer: real,
    armorPending: bool,
    meleePending: bool,
    log: seq<Event>)

  /** The state after `Start`; `roll` is the first idle interval drawn. */
  function Initial(c: Config, roll: real): Golem
  {
    Golem(Patrol, false, c.maxHealth, true, 0, roll, 0.0, false, false, [])
  }

  /** ArmorUp and Attack last exactly as long as their coroutines, the attack is ready
      exactly when no melee runs, and Death is never reached. */
  predicate Valid(c: Config, g: Golem)
  {
    (g.state == ArmorUp <==> g.armorPending) &&
    (g.state == Attack <==> g.meleePending) &&
    (g.meleePending <==> !g.canAttack) &&
    g.state != Death &&
    (c.patrolCount > 0 ==> g.patrolIndex < c.patrolCount)
  }

  /** `ArmorUpThenChase` up to its wait. */
  function StartArmorUp(g: Golem): Golem
  {
    g.(state := ArmorUp, armorPending := true, log := g.log + [ArmorUpTrigger])
  }

  /** `PatrolUpdate`. `patrolPoints[currentPatrolIndex]` is read first: with no waypoint
      there the read throws and the frame changes nothing. */
  function PatrolTick(c: Config, g: Golem, f: Facts): (r: Golem)
    requires g.state == Patrol
    ensures g.patrolIndex >= c.patrolCount ==> r == g
    // the idle countdown is checked before detection, and wins over it
    ensures g.patrolIndex < c.patrolCount && g.nextIdleTime - f.dt <= 0.0 ==>
      r.state == Idle && r.idleTimer == c.idleDuration
    ensures g.patrolIndex < c.patrolCount && g.nextIdleTime - f.dt > 0.0 ==>
      (r.state == ArmorUp <==> f.dist <= c.detectRange)
    ensures r.state == ArmorUp ==> r.armorPending && r.log == g.log + [ArmorUpTrigger]
    // the index wraps modulo the number of waypoints
    ensures r.patrolIndex != g.patrolIndex ==>
      f.waypointDist < WaypointReach && r.patrolIndex == NextWaypoint(g.patrolIndex, c.patrolCount)
    ensures Valid(c, g) ==> Valid(c, r)
  {
    if g.patrolIndex >= c.patrolCount then g
    else
      var i := if f.waypointDist < WaypointReach then NextWaypoint(g.patrolIndex, c.patrolCount)
               else g.patrolIndex;
      var g1 := g.(patrolIndex := i, nextIdleTime := g.nextIdleTime - f.dt);
      if g1.nextIdleTime <= 0.0 then g1.(state := Idle, idleTimer := c.idleDuration)
      else if f.dist <= c.detectRange then StartArmorUp(g1)
      else g1
  }

  /** `IdleUpdate`: detection comes first; when the idle time is up, a fresh idle interval
      `roll` is drawn and the golem patrols again. */
  function IdleTick(c: Config, g: Golem, f: Facts): (r: Golem)
    requires g.state == Idle
    ensures f.dist <= c.detectRange ==> r == StartArmorUp(g)
    ensures f.dist > c.detectRange && g.idleTimer - f.dt <= 0.0 ==>
      r == g.(idleTimer := g.idleTimer - f.dt, nextIdleTime := f.roll, state := Patrol)
    ensures f.dist > c.detectRange && g.idleTimer - f.dt > 0.0 ==>
      r == g.(idleTimer := g.idleTimer - f.dt)
    ensures Valid(c, g) ==> Valid(c, r)
  {
    if f.dist <= c.detectRange then StartArmorUp(g)
    else
      var g1 := g.(idleTimer := g.idleTimer - f.dt);
      if g1.idleTimer <= 0.0 then g1.(nextIdleTime := f.roll, state := Patrol) else g1
  }

  /** `ChaseUpdate`; the chase velocity is physics. */
  function ChaseTick(c: Config, g: Golem, f: Facts): (r: Golem)
    requires g.state == Chase
    // leaving the chase range is checked first and goes straight to Patrol
    ensures f.dist > c.chaseExitRange ==> r == g.(state := Patrol, log := g.log + [ArmorDownTrigger])
    // otherwise the melee starts exactly when in range with the attack ready
    ensures f.dist <= c.chaseExitRange ==>
      (r.state == Attack <==> f.dist <= c.meleeRange && g.canAttack)
    ensures f.dist <= c.chaseExitRange && r.state == Attack ==>
      r == g.(state := Attack, canAttack := false, meleePending := true, log := g.log + [AttackTrigger])
    ensures f.dist <= c.chaseExitRange && r.state != Attack ==> r == g
    ensures Valid(c, g) ==> Valid(c, r)
  {
    if f.dist > c.chaseExitRange then g.(state := Patrol, log := g.log + [ArmorDownTrigger])
    else if f.dist <= c.meleeRange && g.canAttack then
      g.(state := Attack, canAttack := false, meleePending := true, log := g.log + [AttackTrigger])
    else g
  }

  /** `Update`: nothing ticks once dead, and ArmorUp and Attack have no per-frame logic. */
  function Tick(c: Config, g: Golem, f: Facts): (r: Golem)
    ensures g.isDead || g.state !in {Patrol, Idle, Chase} ==> r == g
    ensures !g.isDead && g.state == Patrol ==> r == PatrolTick(c, g, f)
    ensures !g.isDead && g.state == Idle ==> r == IdleTick(c, g, f)
    ensures !g.isDead && g.state == Chase ==> r == ChaseTick(c, g, f)
    ensures Valid(c, g) ==> Valid(c, r)
  {
    if g.isDead then g
    else match g.state
      case Patrol => PatrolTick(c, g, f)
      case Idle => IdleTick(c, g, f)
      case Chase => ChaseTick(c, g, f)
      case _ => g
  }

  /** `ArmorUpThenChase` after `detectDuration`: Chase, whatever `isDead` says. */
  function ArmorUpDone(g: Golem): (r: Golem)
    requires g.armorPending
    ensures r.state == Chase && !r.armorPending
    ensures r.isDead == g.isDead && r.health == g.health && r.log == g.log
  {
    g.(state := Chase, armorPending := false)
  }

  /** `PerformMeleeAttack` after the cooldown: the strike lands if the player, at distance
      `dist`, is still in range and has a `PlayerStats`; then the attack is ready again
      and the state is Chase. Neither step looks at `isDead`. */
  function MeleeDone(c: Config, g: Golem, dist: real, hasStats: bool): (r: Golem)
    requires g.meleePending
    ensures r.log == g.log + (if dist <= c.meleeRange && hasStats then [StrikePlayer] else [])
    ensures r.canAttack && !r.meleePending && r.state == Chase
    ensures r.isDead == g.isDead && r.health == g.health
  {
    var strike := if dist <= c.meleeRange && hasStats then [StrikePlayer] else [];
    g.(log := g.log + strike, canAttack := true, meleePending := false, state := Chase)
  }

  /** `TakeDamage(amount)`; a fatal hit runs `DieRoutine` up to its wait, which sets
      `isDead` and leaves the state alone. */
  function Hit(g: Golem, amount: int): (r: Golem)
    ensures g.isDead ==> r == g
    ensures !g.isDead ==> r.health == g.health - amount && r.state == g.state
    ensures !g.isDead ==> (r.isDead <==> r.health <= 0)
    ensures !g.isDead ==> r.log == g.log + [Hurt] + (if r.health <= 0 then [DeathTrigger] else [])
    ensures r.canAttack == g.canAttack && r.meleePending == g.meleePending && r.armorPending == g.armorPending
  {
    if g.isDead then g
    else
      var g1 := g.(health := g.health - amount, log := g.log + [Hurt]);
      if g1.health <= 0 then g1.(isDead := true, log := g1.log + [DeathTrigger]) else g1
  }

  datatype Input =
    | Frame(f: Facts)
    | TakeDamage(amount: int)
    | ArmorUpOver
    | MeleeCooldownOver(dist: real, hasStats: bool)

  function Step(c: Config, g: Golem, i: Input): Golem
  {
    match i
    case Frame(f) => Tick(c, g, f)
    case TakeDamage(amount) => Hit(g, amount)
    case ArmorUpOver => if g.armorPending then ArmorUpDone(g) else g
    case MeleeCooldownOver(dist, hasStats) => if g.meleePending then MeleeDone(c, g, dist, hasStats) else g
  }

  function Run(c: Config, g: Golem, inputs: seq<Input>): Golem
    decreases |inputs|
  {
    if inputs == [] then g else Run(c, Step(c, g, inputs[0]), inputs[1..])
  }

  /** Every reachable state is Valid; in particular the state is never Death. */
  lemma {:induction false} RunKeepsValid(c: Config, g: Golem, inputs: seq<Input>)
    requires Valid(c, g)
    ensures Valid(c, Run(c, g, inputs))
    ensures Run(c, g, inputs).state != Death
    decreases |inputs|
  {
    if inputs != [] {
      RunKeepsValid(c, Step(c, g, inputs[0]), inputs[1..]);
    }
  }

  /** A dead golem with no coroutine left to resume is frozen: nothing changes it. */
  lemma {:induction false} DeadIsFrozen(c: Config, g: Golem, inputs: seq<Input>)
    requires g.isDead && !g.armorPending && !g.meleePending
    ensures Run(c, g, inputs) == g
    decreases |inputs|
  {
    if inputs != [] {
      DeadIsFrozen(c, Step(c, g, inputs[0]), inputs[1..]);
    }
  }

  /** A golem killed in the middle of a swing stays in Attack, so it still hurts the
      player on contact, and its swing still lands when the cooldown ends. */
  lemma KilledMidSwingStillStrikes(c: Config, g: Golem, amount: int, dist: real)
    requires Valid(c, g) && g.state == Attack && !g.isDead && g.health - amount <= 0
    requires dist <= c.meleeRange
    ensures Hit(g, amount).isDead && Hit(g, amount).state == Attack
    ensures MeleeDone(c, Hit(g, amount), dist, true).log[|Hit(g, amount).log|..] == [StrikePlayer]
  {
  }

  class Controller {
    const cfg: Config
    var state: State
    var isDead: bool
    var currentHealth: int
    var canAttack: bool
    var currentPatrolIndex: nat
    var nextIdleTime: real
    var idleTimer: real
    /** An `ArmorUpThenChase` coroutine is waiting. */
    var armorPending: bool
    /** A `PerformMeleeAttack` coroutine is waiting. */
    var meleePending: bool
    ghost var log: seq<Event>

    ghost function Snapshot(): Golem
      reads this
    {
      Golem(state, isDead, currentHealth, canAttack, currentPatrolIndex, nextIdleTime,
            idleTimer, armorPending, meleePending, log)
    }

    /** Field initialisers followed by `Start`; `roll` is the first idle interval drawn. */
    constructor (cfg: Config, roll: real)
      ensures this.cfg == cfg && Snapshot() == Initial(cfg, roll)
    {
      this.cfg := cfg;
      state := Patrol;
      isDead := false;
      canAttack := true;
      currentPatrolIndex := 0;
      idleTimer := 0.0;
      armorPending := false;
      meleePending := false;
      log := [];
      currentHealth := cfg.maxHealth;
      nextIdleTime := roll;
    }

    method Update(f: Facts)
      modifies this
      ensures Snapshot() == Tick(cfg, old(Snapshot()), f)
    {
      if isDead {
        return;
      }
      match state {
        case Patrol => PatrolUpdate(f);
        case Idle => IdleUpdate(f);
        case Chase => ChaseUpdate(f);
        case _ =>
      }
    }

    method PatrolUpdate(f: Facts)
      requires state == Patrol
      modifies this
      ensures Snapshot() == PatrolTick(cfg, old(Snapshot()), f)
    {
      if currentPatrolIndex >= cfg.patrolCount {
        // `patrolPoints[currentPatrolIndex]` throws: the rest of the frame is lost
        return;
      }
      if f.waypointDist < WaypointReach {
        currentPatrolIndex := NextWaypoint(currentPatrolIndex, cfg.patrolCount);
      }
      nextIdleTime := nextIdleTime - f.dt;
      if nextIdleTime <= 0.0 {
        EnterIdle();
        return;
      }
      if f.dist <= cfg.detectRange {
        ArmorUpThenChase();
      }
    }

    method EnterIdle()
      modifies this
      ensures Snapshot() == old(Snapshot()).(state := Idle, idleTimer := cfg.idleDuration)
    {
      state := Idle;
      idleTimer := cfg.idleDuration;
    }

    method IdleUpdate(f: Facts)
      requires state == Idle
      modifies this
      ensures Snapshot() == IdleTick(cfg, old(Snapshot()), f)
    {
      if f.dist <= cfg.detectRange {
        ArmorUpThenChase();
        return;
      }
      idleTimer := idleTimer - f.dt;
      if idleTimer <= 0.0 {
        nextIdleTime := f.roll;
        state := Patrol;
      }
    }

    /** `ArmorUpThenChase` up to its wait. */
    method ArmorUpThenChase()
      modifies this
      ensures Snapshot() == StartArmorUp(old(Snapshot()))
    {
      state := ArmorUp;
      armorPending := true;
      log := log + [ArmorUpTrigger];
    }

    method ResumeArmorUp()
      requires armorPending
      modifies this
      ensures Snapshot() == ArmorUpDone(old(Snapshot()))
    {
      armorPending := false;
      state := Chase;
    }

    method ChaseUpdate(f: Facts)
      requires state == Chase
      modifies this
      ensures Snapshot() == ChaseTick(cfg, old(Snapshot()), f)
    {
      if f.dist > cfg.chaseExitRange {
        log := log + [ArmorDownTrigger];
        state := Patrol;
        return;
      }
      if f.dist <= cfg.meleeRange && canAttack {
        PerformMeleeAttack();
        return;
      }
    }

    /** `PerformMeleeAttack` up to its wait. */
    method PerformMeleeAttack()
      modifies this
      ensures Snapshot() == old(Snapshot()).(state := Attack, canAttack := false, meleePending := true,
                                             log := old(log) + [AttackTrigger])
    {
      state := Attack;
      canAttack := false;
      meleePending := true;
      log := log + [AttackTrigger];
    }

    /** `PerformMeleeAttack` after its cooldown; `dist` is the player's distance then. */
    method ResumeMelee(dist: real, hasStats: bool)
      requires meleePending
      modifies this
      ensures Snapshot() == MeleeDone(cfg, old(Snapshot()), dist, hasStats)
    {
      if dist <= cfg.meleeRange && hasStats {
        log := log + [StrikePlayer];
      }
      meleePending := false;
      canAttack := true;
      state := Chase;
    }

    method TakeDamage(amount: int)
      modifies this
      ensures Snapshot() == Hit(old(Snapshot()), amount)
    {
      if isDead {
        return;
      }
      currentHealth := currentHealth - amount;
      log := log + [Hurt];
      if currentHealth <= 0 {
        DieRoutine();
      }
    }

    /** `DieRoutine` up to its wait; what follows it (physics off, `Destroy`) is not modelled. */
    method DieRoutine()
      modifies this
      ensures Snapshot() == old(Snapshot()).(isDead := true, log := old(log) + [DeathTrigger])
    {
      isDead := true;
      log := log + [DeathTrigger];
    }

    /** `OnCollisionEnter2D`: the damage dealt to the player, if any. */
    method OnCollisionEnter2D(isPlayer: bool, hasStats: bool) returns (dealt: Option<int>)
      ensures dealt.Some? <==> state == Attack && isPlayer && hasStats
      ensures dealt.Some? ==> dealt.value == cfg.meleeDamage
    {
      dealt := None;
      if state == Attack && isPlayer {
        if hasStats {
          dealt := Some(cfg.meleeDamage);
        }
      }
    }
  }
}
