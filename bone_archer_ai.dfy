/** The bone archer's controller (Assets/Chapter3EnemiesPrefabs/BoneArcher/BoneArcherAI.cs).
    It patrols and idles until the player is within `detectRange`, chases while the
    player stays there, and in `attackRange` with the bow ready runs `AttackRoutine`:
    a short draw, at most one arrow, a cooldown, and Chase. `TakeDamage` has no guard:
    every hit counts, and every fatal hit enters Death again. */
module BoneArcherAI {
  import opened Common

  datatype State = Patrol | Idle | Chase | Attack | Death

  /** Animator triggers, and `ArrowShot` for an arrow instantiated. */
  datatype Event = AttackTrigger | ArrowShot | Hurt | DeathTrigger

  /** Distance under which a patrol waypoint counts as reached. */
  const WaypointReach: real := 0.1

  datatype Config = Config(
    maxHealth: int,
    detectRange: real,
    attackRange: real,
    idleDuration: real,
    patrolCount: nat)

  /** Where a suspended `AttackRoutine` stands: in the draw delay before the arrow, or in
      the cooldown after it. */
  datatype AttackStep = Drawing | Cooling

  datatype Archer = Archer(
    state: State,
    health: int,
    canAttack: bool,
    patrolIndex: nat,
    nextIdleTime: real,
    idleTimer: real,
    attack: Option<AttackStep>,
    log: seq<Event>)

  /** The state after `Start`; `roll` is the first `ScheduleNextIdle` draw. */
  function Initial(c: Config, roll: real): Archer
  {
    Archer(Patrol, c.maxHealth, true, 0, roll, 0.0, None, [])
  }

  predicate Valid(c: Config, a: Archer)
  {
    (a.attack.Some? <==> !a.canAttack) &&
    (a.state == Attack ==> a.attack.Some?) &&
    (c.patrolCount > 0 ==> a.patrolIndex < c.patrolCount)
  }

  function ToChase(a: Archer): Archer
  {
    a.(state := Chase)
  }

  /** `EnterPatrol` with `ScheduleNextIdle` drawing `roll`. */
  function ToPatrol(a: Archer, roll: real): Archer
  {
    a.(state := Patrol, nextIdleTime := roll)
  }

  /** `PatrolUpdate`. */
  function PatrolTick(c: Config, a: Archer, f: Facts): (r: Archer)
    requires a.state == Patrol
    // detection is checked before the idle countdown and wins over it
    ensures f.dist <= c.detectRange ==> r == ToChase(a)
    ensures f.dist > c.detectRange && a.nextIdleTime - f.dt <= 0.0 ==>
      r == a.(nextIdleTime := a.nextIdleTime - f.dt, state := Idle, idleTimer := c.idleDuration)
    ensures f.dist > c.detectRange && a.nextIdleTime - f.dt > 0.0 ==>
      r.state == Patrol && r.nextIdleTime == a.nextIdleTime - f.dt
    // an empty waypoint list leaves the index alone
    ensures c.patrolCount == 0 ==> r.patrolIndex == a.patrolIndex
    ensures r.patrolIndex != a.patrolIndex ==>
      a.patrolIndex < c.patrolCount && Abs(f.waypointDx) < WaypointReach &&
      r.patrolIndex == NextWaypoint(a.patrolIndex, c.patrolCount)
    // patrolling never touches the attack routine or fires an animation trigger
    ensures r.log == a.log && r.attack == a.attack && r.canAttack == a.canAttack
    ensures Valid(c, a) ==> Valid(c, r)
  {
    if f.dist <= c.detectRange then ToChase(a)
    else
      var a1 := a.(nextIdleTime := a.nextIdleTime - f.dt);
      if a1.nextIdleTime <= 0.0 then a1.(state := Idle, idleTimer := c.idleDuration)
      else if c.patrolCount == 0 || a.patrolIndex >= c.patrolCount then a1
      else if Abs(f.waypointDx) < WaypointReach then
        a1.(patrolIndex := NextWaypoint(a.patrolIndex, c.patrolCount))
      else a1
  }

  /** `IdleUpdate`. */
  function IdleTick(c: Config, a: Archer, f: Facts): (r: Archer)
    requires a.state == Idle
    ensures f.dist <= c.detectRange ==> r == ToChase(a)
    ensures f.dist > c.detectRange && a.idleTimer - f.dt <= 0.0 ==>
      r == ToPatrol(a.(idleTimer := a.idleTimer - f.dt), f.roll)
    ensures f.dist > c.detectRange && a.idleTimer - f.dt > 0.0 ==>
      r == a.(idleTimer := a.idleTimer - f.dt)
    ensures r.log == a.log && r.attack == a.attack && r.canAttack == a.canAttack
    ensures Valid(c, a) ==> Valid(c, r)
  {
    if f.dist <= c.detectRange then ToChase(a)
    else
      var a1 := a.(idleTimer := a.idleTimer - f.dt);
      if a1.idleTimer <= 0.0 then ToPatrol(a1, f.roll) else a1
  }

  /** `ChaseUpdate`; the chase velocity is physics. */
  function ChaseTick(c: Config, a: Archer, f: Facts): (r: Archer)
    requires a.state == Chase
    // losing the player is checked before the attack and goes straight to Patrol
    ensures f.dist > c.detectRange ==> r == ToPatrol(a, f.roll)
    ensures f.dist <= c.detectRange ==>
      (r.state == Attack <==> f.dist <= c.attackRange && a.canAttack)
    ensures f.dist <= c.detectRange && r.state == Attack ==>
      r == a.(state := Attack, canAttack := false, attack := Some(Drawing), log := a.log + [AttackTrigger])
    ensures f.dist <= c.detectRange && r.state != Attack ==> r == a
    ensures Valid(c, a) ==> Valid(c, r)
  {
    if f.dist > c.detectRange then ToPatrol(a, f.roll)
    else if f.dist <= c.attackRange && a.canAttack then
      a.(state := Attack, canAttack := false, attack := Some(Drawing), log := a.log + [AttackTrigger])
    else a
  }

  /** `Update`: nothing happens in Death or Attack. */
  function Tick(c: Config, a: Archer, f: Facts): (r: Archer)
    ensures a.state !in {Patrol, Idle, Chase} ==> r == a
    ensures a.state == Patrol ==> r == PatrolTick(c, a, f)
    ensures a.state == Idle ==> r == IdleTick(c, a, f)
    ensures a.state == Chase ==> r == ChaseTick(c, a, f)
    ensures Valid(c, a) ==> Valid(c, r)
  {
    match a.state
    case Patrol => PatrolTick(c, a, f)
    case Idle => IdleTick(c, a, f)
    case Chase => ChaseTick(c, a, f)
    case _ => a
  }

  /** `AttackRoutine` after its draw delay: one arrow if the prefab and spawn point are set. */
  function DrawDone(a: Archer, canSpawn: bool): (r: Archer)
    requires a.attack == Some(Drawing)
    ensures r.attack == Some(Cooling)
    ensures r.log == a.log + (if canSpawn then [ArrowShot] else [])
    ensures r.state == a.state && r.canAttack == a.canAttack && r.health == a.health
  {
    a.(attack := Some(Cooling), log := a.log + (if canSpawn then [ArrowShot] else []))
  }

  /** `AttackRoutine` after its cooldown: the bow is ready and the archer chases, even
      from Death. */
  function CooldownDone(a: Archer): (r: Archer)
    requires a.attack == Some(Cooling)
    ensures r.attack.None? && r.canAttack && r.state == Chase
    ensures r.health == a.health && r.log == a.log
  {
    ToChase(a.(attack := None, canAttack := true))
  }

  /** `TakeDamage(amount)`: no guard; a fatal hit enters Death, every time. */
  function Hit(a: Archer, amount: int): (r: Archer)
    ensures r.health == a.health - amount
    ensures r.state == (if r.health <= 0 then Death else a.state)
    ensures r.log == a.log + [Hurt] + (if r.health <= 0 then [DeathTrigger] else [])
    ensures a.state == Death ==> r.state == Death
    ensures r.canAttack == a.canAttack && r.attack == a.attack
  {
    var a1 := a.(health := a.health - amount, log := a.log + [Hurt]);
    if a1.health <= 0 then a1.(state := Death, log := a1.log + [DeathTrigger]) else a1
  }

  datatype Input =
    | Frame(f: Facts)
    | TakeDamage(amount: int)
    | DrawOver(canSpawn: bool)
    | CooldownOver

  function Step(c: Config, a: Archer, i: Input): Archer
  {
    match i
    case Frame(f) => Tick(c, a, f)
    case TakeDamage(amount) => Hit(a, amount)
    case DrawOver(canSpawn) => if a.attack == Some(Drawing) then DrawDone(a, canSpawn) else a
    case CooldownOver => if a.attack == Some(Cooling) then CooldownDone(a) else a
  }

  function Run(c: Config, a: Archer, inputs: seq<Input>): Archer
    decreases |inputs|
  {
    if inputs == [] then a else Run(c, Step(c, a, inputs[0]), inputs[1..])
  }

  /** Every reachable state is Valid: the bow is ready exactly when no attack routine runs,
      and the patrol index stays within the waypoints. */
  lemma {:induction false} RunKeepsValid(c: Config, a: Archer, inputs: seq<Input>)
    requires Valid(c, a)
    ensures Valid(c, Run(c, a, inputs))
    decreases |inputs|
  {
    if inputs != [] {
      RunKeepsValid(c, Step(c, a, inputs[0]), inputs[1..]);
    }
  }

  /** Arrows shot, plus one for an attack still drawing, never exceed the attacks begun. */
  predicate ArrowsWithinAttacks(a: Archer)
  {
    Count(a.log, ArrowShot) + (if a.attack == Some(Drawing) then 1 else 0) <= Count(a.log, AttackTrigger)
  }

  lemma ChaseTickKeepsArrowsWithinAttacks(c: Config, a: Archer, f: Facts)
    requires a.state == Chase && Valid(c, a) && ArrowsWithinAttacks(a)
    ensures ArrowsWithinAttacks(ChaseTick(c, a, f))
  {
    if ChaseTick(c, a, f).state == Attack && f.dist <= c.detectRange {
      CountConcat(a.log, [AttackTrigger], ArrowShot);
      CountConcat(a.log, [AttackTrigger], AttackTrigger);
    }
  }

  lemma TickKeepsArrowsWithinAttacks(c: Config, a: Archer, f: Facts)
    requires Valid(c, a) && ArrowsWithinAttacks(a)
    ensures ArrowsWithinAttacks(Tick(c, a, f))
  {
    match a.state
    case Chase => ChaseTickKeepsArrowsWithinAttacks(c, a, f);
    case _ =>
  }

  lemma HitKeepsArrowsWithinAttacks(a: Archer, amount: int)
    requires ArrowsWithinAttacks(a)
    ensures ArrowsWithinAttacks(Hit(a, amount))
  {
    CountConcat(a.log, [Hurt], ArrowShot);
    CountConcat(a.log, [Hurt], AttackTrigger);
    CountConcat(a.log + [Hurt], [DeathTrigger], ArrowShot);
    CountConcat(a.log + [Hurt], [DeathTrigger], AttackTrigger);
  }

  lemma StepKeepsArrowsWithinAttacks(c: Config, a: Archer, i: Input)
    requires Valid(c, a) && ArrowsWithinAttacks(a)
    ensures ArrowsWithinAttacks(Step(c, a, i))
  {
    match i {
      case Frame(f) => TickKeepsArrowsWithinAttacks(c, a, f);
      case TakeDamage(amount) => HitKeepsArrowsWithinAttacks(a, amount);
      case DrawOver(canSpawn) =>
        if a.attack == Some(Drawing) && canSpawn {
          assert Step(c, a, i).log == a.log + [ArrowShot];
          CountConcat(a.log, [ArrowShot], ArrowShot);
          CountConcat(a.log, [ArrowShot], AttackTrigger);
        } else if a.attack == Some(Drawing) {
          assert Step(c, a, i).log == a.log + [] == a.log;
        }
      case CooldownOver =>
    }
  }

  /** Each attack routine shoots at most one arrow: over any run from a Valid state, the
      arrows shot never outnumber the attacks begun. */
  lemma {:induction false} AtMostOneArrowPerAttack(c: Config, a: Archer, inputs: seq<Input>)
    requires Valid(c, a) && ArrowsWithinAttacks(a)
    ensures Count(Run(c, a, inputs).log, ArrowShot) <= Count(Run(c, a, inputs).log, AttackTrigger)
    decreases |inputs|
  {
    if inputs != [] {
      StepKeepsArrowsWithinAttacks(c, a, inputs[0]);
      RunKeepsValid(c, a, [inputs[0]]);
      assert Run(c, a, [inputs[0]]) == Step(c, a, inputs[0]);
      AtMostOneArrowPerAttack(c, Step(c, a, inputs[0]), inputs[1..]);
    }
  }

  /** An archer killed during its attack routine is put back in Chase when the routine
      ends, and then ticks again. */
  lemma AttackCompletionRevives(c: Config, a: Archer, amount: int)
    requires a.attack == Some(Cooling) && a.health - amount <= 0
    ensures Step(c, a, TakeDamage(amount)).state == Death
    ensures Step(c, Step(c, a, TakeDamage(amount)), CooldownOver).state == Chase
  {
  }

  class Controller {
    const cfg: Config
    var state: State
    var currentHealth: int
    var canAttack: bool
    var patrolIndex: nat
    var nextIdleTime: real
    var idleTimer: real
    var attackRoutine: Option<AttackStep>
    ghost var log: seq<Event>

    ghost function Snapshot(): Archer
      reads this
    {
      Archer(state, currentHealth, canAttack, patrolIndex, nextIdleTime, idleTimer, attackRoutine, log)
    }

    /** Field initialisers followed by `Start`; `roll` is the first idle interval drawn. */
    constructor (cfg: Config, roll: real)
      ensures this.cfg == cfg && Snapshot() == Initial(cfg, roll)
    {
      this.cfg := cfg;
      state := Patrol;
      canAttack := true;
      patrolIndex := 0;
      idleTimer := 0.0;
      attackRoutine := None;
      log := [];
      currentHealth := cfg.maxHealth;
      nextIdleTime := roll;
    }

    method Update(f: Facts)
      modifies this
      ensures Snapshot() == Tick(cfg, old(Snapshot()), f)
    {
      if state == Death {
        return;
      }
      match state {
        case Patrol => PatrolUpdate(f);
        case Idle => IdleUpdate(f);
        case Chase => ChaseUpdate(f);
        case _ =>
      }
    }

    method PatrolUpdate(f: Facts)
      requires state == Patrol
      modifies this
      ensures Snapshot() == PatrolTick(cfg, old(Snapshot()), f)
    {
      if f.dist <= cfg.detectRange {
        EnterChase();
        return;
      }
      nextIdleTime := nextIdleTime - f.dt;
      if nextIdleTime <= 0.0 {
        EnterIdle();
        return;
      }
      if cfg.patrolCount == 0 || patrolIndex >= cfg.patrolCount {
        return;
      }
      if Abs(f.waypointDx) < WaypointReach {
        patrolIndex := NextWaypoint(patrolIndex, cfg.patrolCount);
      }
    }

    method IdleUpdate(f: Facts)
      requires state == Idle
      modifies this
      ensures Snapshot() == IdleTick(cfg, old(Snapshot()), f)
    {
      if f.dist <= cfg.detectRange {
        EnterChase();
        return;
      }
      idleTimer := idleTimer - f.dt;
      if idleTimer <= 0.0 {
        EnterPatrol(f.roll);
      }
    }

    method ChaseUpdate(f: Facts)
      requires state == Chase
      modifies this
      ensures Snapshot() == ChaseTick(cfg, old(Snapshot()), f)
    {
      if f.dist > cfg.detectRange {
        EnterPatrol(f.roll);
        return;
      }
      if f.dist <= cfg.attackRange && canAttack {
        AttackRoutine();
        return;
      }
    }

    /** `AttackRoutine` up to its draw delay. */
    method AttackRoutine()
      modifies this
      ensures Snapshot() == old(Snapshot()).(state := Attack, canAttack := false,
                                             attack := Some(Drawing), log := old(log) + [AttackTrigger])
    {
      state := Attack;
      canAttack := false;
      log := log + [AttackTrigger];
      attackRoutine := Some(Drawing);
    }

    /** `AttackRoutine` after the draw delay, up to the cooldown; `canSpawn` says whether
        the arrow prefab and spawn point are set. */
    method ResumeDraw(canSpawn: bool)
      requires attackRoutine == Some(Drawing)
      modifies this
      ensures Snapshot() == DrawDone(old(Snapshot()), canSpawn)
    {
      if canSpawn {
        log := log + [ArrowShot];
      }
      attackRoutine := Some(Cooling);
    }

    /** `AttackRoutine` after the cooldown. */
    method ResumeCooldown()
      requires attackRoutine == Some(Cooling)
      modifies this
      ensures Snapshot() == CooldownDone(old(Snapshot()))
    {
      attackRoutine := None;
      canAttack := true;
      EnterChase();
    }

    method EnterPatrol(roll: real)
      modifies this
      ensures Snapshot() == ToPatrol(old(Snapshot()), roll)
    {
      state := Patrol;
      nextIdleTime := roll;
    }

    method EnterIdle()
      modifies this
      ensures Snapshot() == old(Snapshot()).(state := Idle, idleTimer := cfg.idleDuration)
    {
      state := Idle;
      idleTimer := cfg.idleDuration;
    }

    method EnterChase()
      modifies this
      ensures Snapshot() == ToChase(old(Snapshot()))
    {
      state := Chase;
    }

    method TakeDamage(amount: int)
      modifies this
      ensures Snapshot() == Hit(old(Snapshot()), amount)
    {
      currentHealth := currentHealth - amount;
      log := log + [Hurt];
      if currentHealth <= 0 {
        EnterDeath();
      }
    }

    /** `EnterDeath`; disabling physics and the collider, and `Destroy`, are not modelled. */
    method EnterDeath()
      modifies this
      ensures Snapshot() == old(Snapshot()).(state := Death, log := old(log) + [DeathTrigger])
    {
      state := Death;
      log := log + [DeathTrigger];
    }
  }
}
