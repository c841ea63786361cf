/** The bone gladiator's controller (Assets/Chapter3EnemiesPrefabs/BoneGladiator/BoneGladiatorAI.cs).
    It patrols, idles and chases; detection pre-empts the patrol and idle timers, and
    the chase is given up only after `chaseLostTime` out of range. A hit that leaves
    25 health or less makes it block for `blockDuration`, immune to hits and killed by a
    shadow dash, after which it is healed to full. Neither the melee nor the block
    routine looks for Death before setting Chase. */
module BoneGladiatorAI {
  import opened Common

  datatype State = Patrol | Idle | Chase | Attack | Block | Death

  /** Animator triggers of interest. */
  datatype Event = AttackTrigger | BlockTrigger | Hurt | DeathTrigger

  /** Distance under which a patrol waypoint counts as reached. */
  const WaypointReach: real := 0.4

  datatype Config = Config(
    maxHealth: int,
    detectRange: real,
    chaseLostTime: real,
    idleDuration: real,
    meleeRange: real,
    blockThreshold: int,
    blockDuration: real,
    patrolCount: nat)

  /** `block` is the running `BlockRoutine`, suspended with its countdown `t`. */
  datatype Gladiator = Gladiator(
    state: State,
    health: int,
    canMelee: bool,
    meleePending: bool,
    patrolIndex: nat,
    nextIdleTime: real,
    idleTimer: real,
    lostTime: real,
    block: Option<real>,
    log: seq<Event>)

  /** The state after `Start`; `roll` is the first `ScheduleNextIdle` draw. */
  function Initial(c: Config, roll: real): Gladiator
  {
    Gladiator(Patrol, c.maxHealth, true, false, 0, roll, 0.0, 0.0, None, [])
  }

  predicate Valid(c: Config, g: Gladiator)
  {
    (g.meleePending <==> !g.canMelee) &&
    (g.state == Attack ==> g.meleePending) &&
    (g.state == Block ==> g.block.Some?) &&
    (c.patrolCount > 0 ==> g.patrolIndex < c.patrolCount)
  }

  function ToChase(g: Gladiator): Gladiator
  {
    g.(state := Chase, lostTime := 0.0)
  }

  function ToIdle(c: Config, g: Gladiator): Gladiator
  {
    g.(state := Idle, idleTimer := c.idleDuration)
  }

  /** `EnterPatrol` with `ScheduleNextIdle` drawing `roll`. */
  function ToPatrol(g: Gladiator, roll: real): Gladiator
  {
    g.(state := Patrol, nextIdleTime := roll)
  }

  function ToDeath(g: Gladiator): Gladiator
  {
    g.(state := Death, log := g.log + [DeathTrigger])
  }

  /** `PatrolUpdate`. */
  function PatrolTick(c: Config, g: Gladiator, f: Facts): (r: Gladiator)
    requires g.state == Patrol
    // detection comes first and wins over the idle countdown
    ensures f.dist <= c.detectRange ==> r == ToChase(g)
    ensures f.dist > c.detectRange && g.nextIdleTime - f.dt <= 0.0 ==>
      r == ToIdle(c, g.(nextIdleTime := g.nextIdleTime - f.dt))
    ensures f.dist > c.detectRange && g.nextIdleTime - f.dt > 0.0 ==>
      r.state == Patrol && r.nextIdleTime == g.nextIdleTime - f.dt
    // with no waypoints the gladiator stays put and the index never moves
    ensures c.patrolCount == 0 ==> r.patrolIndex == g.patrolIndex
    ensures r.patrolIndex != g.patrolIndex ==>
      g.patrolIndex < c.patrolCount && Abs(f.waypointDx) < WaypointReach &&
      r.patrolIndex == NextWaypoint(g.patrolIndex, c.patrolCount)
    ensures Valid(c, g) ==> Valid(c, r)
  {
    if f.dist <= c.detectRange then ToChase(g)
    else
      var g1 := g.(nextIdleTime := g.nextIdleTime - f.dt);
      if g1.nextIdleTime <= 0.0 then ToIdle(c, g1)
      else if c.patrolCount == 0 || g.patrolIndex >= c.patrolCount then g1
      else if Abs(f.waypointDx) < WaypointReach then
        g1.(patrolIndex := NextWaypoint(g.patrolIndex, c.patrolCount))
      else g1
  }

  /** `IdleUpdate`. */
  function IdleTick(c: Config, g: Gladiator, f: Facts): (r: Gladiator)
    requires g.state == Idle
    ensures f.dist <= c.detectRange ==> r == ToChase(g)
    ensures f.dist > c.detectRange && g.idleTimer - f.dt <= 0.0 ==>
      r == ToPatrol(g.(idleTimer := g.idleTimer - f.dt), f.roll)
    ensures f.dist > c.detectRange && g.idleTimer - f.dt > 0.0 ==>
      r == g.(idleTimer := g.idleTimer - f.dt)
    ensures Valid(c, g) ==> Valid(c, r)
  {
    if f.dist <= c.detectRange then ToChase(g)
    else
      var g1 := g.(idleTimer := g.idleTimer - f.dt);
      if g1.idleTimer <= 0.0 then ToPatrol(g1, f.roll) else g1
  }

  /** `ChaseUpdate`; the chase velocity is physics. */
  function ChaseTick(c: Config, g: Gladiator, f: Facts): (r: Gladiator)
    requires g.state == Chase
    // in range, `lostTime` is left as it is: re-acquiring the player does not reset it
    ensures f.dist <= c.detectRange ==> r.lostTime == g.lostTime
    // out of range it accumulates, and reaching `chaseLostTime` resets it and idles
    ensures f.dist > c.detectRange && g.lostTime + f.dt >= c.chaseLostTime ==>
      r == ToIdle(c, g.(lostTime := 0.0))
    ensures !(f.dist > c.detectRange && g.lostTime + f.dt >= c.chaseLostTime) ==>
      r.lostTime == (if f.dist > c.detectRange then g.lostTime + f.dt else g.lostTime) &&
      (r.state == Attack <==> f.dist <= c.meleeRange && g.canMelee) &&
      (r.state == Attack ==> !r.canMelee && r.meleePending && r.log == g.log + [AttackTrigger]) &&
      (r.state != Attack ==> r.state == Chase && r.log == g.log)
    ensures Valid(c, g) ==> Valid(c, r)
  {
    var g1 := if f.dist > c.detectRange then g.(lostTime := g.lostTime + f.dt) else g;
    if f.dist > c.detectRange && g1.lostTime >= c.chaseLostTime then ToIdle(c, g1.(lostTime := 0.0))
    else if f.dist <= c.meleeRange && g.canMelee then
      g1.(state := Attack, canMelee := false, meleePending := true, log := g.log + [AttackTrigger])
    else g1
  }

  /** `Update`: nothing happens in Death, Attack or Block. */
  function Tick(c: Config, g: Gladiator, f: Facts): (r: Gladiator)
    ensures g.state !in {Patrol, Idle, Chase} ==> r == g
    ensures g.state == Patrol ==> r == PatrolTick(c, g, f)
    ensures g.state == Idle ==> r == IdleTick(c, g, f)
    ensures g.state == Chase ==> r == ChaseTick(c, g, f)
    ensures Valid(c, g) ==> Valid(c, r)
  {
    match g.state
    case Patrol => PatrolTick(c, g, f)
    case Idle => IdleTick(c, g, f)
    case Chase => ChaseTick(c, g, f)
    case _ => g
  }

  /** `Melee` after its cooldown: the melee is ready, and the state becomes Chase unless it
      is Block, so a gladiator in Death is put back in Chase. */
  function MeleeDone(g: Gladiator): (r: Gladiator)
    requires g.meleePending
    ensures r.canMelee && !r.meleePending
    ensures r.state == (if g.state == Block then Block else Chase)
    ensures r.health == g.health && r.block == g.block && r.log == g.log
  {
    var g1 := g.(canMelee := true, meleePending := false);
    if g.state != Block then g1.(state := Chase) else g1
  }

  /** `EnterBlock` in a frame of length `dt`: any running `BlockRoutine` is replaced, and
      the new one runs up to its first `yield`. */
  function StartBlock(c: Config, g: Gladiator, dt: real): (r: Gladiator)
    ensures r.log == g.log + [BlockTrigger]
    ensures c.blockDuration > 0.0 ==> r.state == Block && r.block == Some(c.blockDuration - dt)
    ensures c.blockDuration <= 0.0 ==> r.state == Chase && r.block == None && r.health == c.maxHealth
    ensures c.blockDuration > 0.0 ==> r.health == g.health
    ensures r.canMelee == g.canMelee && r.meleePending == g.meleePending
  {
    var g1 := g.(state := Block, log := g.log + [BlockTrigger]);
    if c.blockDuration > 0.0 then g1.(block := Some(c.blockDuration - dt))
    else ToChase(g1.(health := c.maxHealth, block := None))
  }

  /** One later frame of `BlockRoutine`. When its countdown has run out the gladiator is
      healed to full and chases, whatever its state. */
  function BlockFrame(c: Config, g: Gladiator, dt: real): (r: Gladiator)
    requires g.block.Some?
    ensures g.block.value > 0.0 ==> r == g.(block := Some(g.block.value - dt))
    ensures g.block.value <= 0.0 ==>
      r.state == Chase && r.health == c.maxHealth && r.block == None && r.lostTime == 0.0
    ensures r.canMelee == g.canMelee && r.meleePending == g.meleePending && r.log == g.log
  {
    var t := g.block.value;
    if t > 0.0 then g.(block := Some(t - dt))
    else ToChase(g.(health := c.maxHealth, block := None))
  }

  /** `TakeDamage(amount)` in a frame of length `dt`. There is no Death guard. */
  function Hit(c: Config, g: Gladiator, amount: int, dt: real): (r: Gladiator)
    // a blocking gladiator takes no damage
    ensures g.state == Block ==> r == g
    ensures g.state != Block && g.health - amount <= 0 ==>
      r == ToDeath(g.(health := g.health - amount, log := g.log + [Hurt]))
    ensures g.state != Block && 0 < g.health - amount <= c.blockThreshold ==>
      r == StartBlock(c, g.(health := g.health - amount, log := g.log + [Hurt]), dt)
    ensures g.state != Block && g.health - amount > 0 && g.health - amount > c.blockThreshold ==>
      r == g.(health := g.health - amount, log := g.log + [Hurt])
    ensures Valid(c, g) ==> Valid(c, r)
  {
    if g.state == Block then g
    else
      var g1 := g.(health := g.health - amount, log := g.log + [Hurt]);
      if g1.health <= 0 then ToDeath(g1)
      else if g1.health <= c.blockThreshold then StartBlock(c, g1, dt)
      else g1
  }

  /** `TakeDash`: a shadow dash kills a blocking gladiator and does nothing otherwise.
      The block routine is not stopped. */
  function Dash(g: Gladiator): (r: Gladiator)
    ensures g.state == Block ==> r.state == Death && r.block == g.block && r.health == g.health
    ensures g.state != Block ==> r == g
  {
    if g.state == Block then ToDeath(g) else g
  }

  datatype Input =
    | Frame(f: Facts)
    | TakeDamage(amount: int, dt: real)
    | TakeDash
    | MeleeCooldownOver
    | BlockRoutineFrame(dt: real)

  function Step(c: Config, g: Gladiator, i: Input): Gladiator
  {
    match i
    case Frame(f) => Tick(c, g, f)
    case TakeDamage(amount, dt) => Hit(c, g, amount, dt)
    case TakeDash => Dash(g)
    case MeleeCooldownOver => if g.meleePending then MeleeDone(g) else g
    case BlockRoutineFrame(dt) => if g.block.Some? then BlockFrame(c, g, dt) else g
  }

  function Run(c: Config, g: Gladiator, inputs: seq<Input>): Gladiator
    decreases |inputs|
  {
    if inputs == [] then g else Run(c, Step(c, g, inputs[0]), inputs[1..])
  }

  /** Every reachable state is Valid: the melee flag agrees with the melee routine,
      Attack has a melee running, Block has a block routine, and the patrol index stays
      within the waypoints. */
  lemma {:induction false} RunKeepsValid(c: Config, g: Gladiator, inputs: seq<Input>)
    requires Valid(c, g)
    ensures Valid(c, Run(c, g, inputs))
    decreases |inputs|
  {
    if inputs != [] {
      var g' := Step(c, g, inputs[0]);
      RunKeepsValid(c, g', inputs[1..]);
    }
  }

  predicate NonNegativeHits(inputs: seq<Input>)
  {
    forall i :: 0 <= i < |inputs| && inputs[i].TakeDamage? ==> inputs[i].amount >= 0
  }

  /** Death is final only when no melee or block routine is pending and no health is left:
      then frames, hits, dashes and routine resumptions leave it in Death. */
  lemma {:induction false} DeathFinalWithoutRoutines(c: Config, g: Gladiator, inputs: seq<Input>)
    requires g.state == Death && g.health <= 0 && !g.meleePending && g.block.None?
    requires NonNegativeHits(inputs)
    ensures Run(c, g, inputs).state == Death && Run(c, g, inputs).health <= 0
    decreases |inputs|
  {
    if inputs != [] {
      assert inputs[0].TakeDamage? ==> inputs[0].amount >= 0;
      assert NonNegativeHits(inputs[1..]) by {
        forall i | 0 <= i < |inputs[1..]| && inputs[1..][i].TakeDamage?
          ensures inputs[1..][i].amount >= 0
        {
          assert inputs[1..][i] == inputs[i + 1];
        }
      }
      DeathFinalWithoutRoutines(c, Step(c, g, inputs[0]), inputs[1..]);
    }
  }

  /** Helper: two inputs in a row are two steps. */
  lemma RunTwo(c: Config, g: Gladiator, a: Input, b: Input)
    ensures Run(c, g, [a, b]) == Step(c, Step(c, g, a), b)
  {
    assert [a, b][1..] == [b];
    assert Run(c, Step(c, g, a), [b]) == Run(c, Step(c, Step(c, g, a), b), []);
  }

  /** A gladiator killed by a dash while blocking is healed and chases again when its
      block routine ends. */
  lemma BlockEndRevivesDashKill(c: Config, g: Gladiator, dt: real)
    requires g.state == Block && g.block.Some? && g.block.value <= 0.0
    ensures Run(c, g, [TakeDash]).state == Death
    ensures Run(c, g, [TakeDash, BlockRoutineFrame(dt)]).state == Chase
    ensures Run(c, g, [TakeDash, BlockRoutineFrame(dt)]).health == c.maxHealth
  {
    RunTwo(c, g, TakeDash, BlockRoutineFrame(dt));
  }

  /** A gladiator killed by a dash keeps its health, so a further small hit makes it block. */
  lemma HitAfterDashKillBlocks(c: Config, g: Gladiator, amount: int, dt: real)
    requires g.state == Block && 0 < g.health - amount <= c.blockThreshold && c.blockDuration > 0.0
    ensures Run(c, g, [TakeDash, TakeDamage(amount, dt)]).state == Block
  {
    RunTwo(c, g, TakeDash, TakeDamage(amount, dt));
  }

  /** A gladiator that dies while its melee cooldown runs is put back in Chase. */
  lemma MeleeCompletionRevives(c: Config, g: Gladiator, amount: int, dt: real)
    requires g.meleePending && g.state == Attack && g.health - amount <= 0
    ensures Run(c, g, [TakeDamage(amount, dt)]).state == Death
    ensures Run(c, g, [TakeDamage(amount, dt), MeleeCooldownOver]).state == Chase
  {
    RunTwo(c, g, TakeDamage(amount, dt), MeleeCooldownOver);
  }

  class Controller {
    const cfg: Config
    var state: State
    var currentHealth: int
    var canMelee: bool
    /** A `Melee` coroutine is waiting for its cooldown. */
    var meleePending: bool
    var patrolIndex: nat
    var nextIdleTime: real
    var idleTimer: real
    var lostTime: real
    /** The running `BlockRoutine`'s countdown, if one runs. */
    var blockRoutine: Option<real>
    ghost var log: seq<Event>

    ghost function Snapshot(): Gladiator
      reads this
    {
      Gladiator(state, currentHealth, canMelee, meleePending, patrolIndex, nextIdleTime,
                idleTimer, lostTime, blockRoutine, log)
    }

    /** Field initialisers followed by `Start`; `roll` is the first idle interval drawn. */
    constructor (cfg: Config, roll: real)
      ensures this.cfg == cfg && Snapshot() == Initial(cfg, roll)
    {
      this.cfg := cfg;
      state := Patrol;
      canMelee := true;
      meleePending := false;
      patrolIndex := 0;
      lostTime := 0.0;
      idleTimer := 0.0;
      blockRoutine := None;
      log := [];
      currentHealth := cfg.maxHealth;
      nextIdleTime := roll;
    }

    method Update(f: Facts)
      modifies this
      ensures Snapshot() == Tick(cfg, old(Snapshot()), f)
    {
      if state == Death {
        return;
      }
      match state {
        case Patrol => PatrolUpdate(f);
        case Idle => IdleUpdate(f);
        case Chase => ChaseUpdate(f);
        case _ =>
      }
    }

    method PatrolUpdate(f: Facts)
      requires state == Patrol
      modifies this
      ensures Snapshot() == PatrolTick(cfg, old(Snapshot()), f)
    {
      if f.dist <= cfg.detectRange {
        EnterChase();
        return;
      }
      nextIdleTime := nextIdleTime - f.dt;
      if nextIdleTime <= 0.0 {
        EnterIdle();
        return;
      }
      if cfg.patrolCount == 0 || patrolIndex >= cfg.patrolCount {
        return;
      }
      if Abs(f.waypointDx) < WaypointReach {
        patrolIndex := NextWaypoint(patrolIndex, cfg.patrolCount);
      }
    }

    method IdleUpdate(f: Facts)
      requires state == Idle
      modifies this
      ensures Snapshot() == IdleTick(cfg, old(Snapshot()), f)
    {
      if f.dist <= cfg.detectRange {
        EnterChase();
        return;
      }
      idleTimer := idleTimer - f.dt;
      if idleTimer <= 0.0 {
        EnterPatrol(f.roll);
      }
    }

    method ChaseUpdate(f: Facts)
      requires state == Chase
      modifies this
      ensures Snapshot() == ChaseTick(cfg, old(Snapshot()), f)
    {
      if f.dist > cfg.detectRange {
        lostTime := lostTime + f.dt;
        if lostTime >= cfg.chaseLostTime {
          lostTime := 0.0;
          EnterIdle();
          return;
        }
      }
      if f.dist <= cfg.meleeRange && canMelee {
        Melee();
        return;
      }
    }

    /** `Melee` up to its wait. */
    method Melee()
      modifies this
      ensures Snapshot() == old(Snapshot()).(state := Attack, canMelee := false, meleePending := true,
                                             log := old(log) + [AttackTrigger])
    {
      state := Attack;
      canMelee := false;
      meleePending := true;
      log := log + [AttackTrigger];
    }

    method ResumeMelee()
      requires meleePending
      modifies this
      ensures Snapshot() == MeleeDone(old(Snapshot()))
    {
      meleePending := false;
      canMelee := true;
      if state != Block {
        state := Chase;
      }
    }

    /** `EnterBlock`: the previous `BlockRoutine` is stopped and a new one runs up to its
        first `yield` in this frame of length `dt`. */
    method EnterBlock(dt: real)
      modifies this
      ensures Snapshot() == StartBlock(cfg, old(Snapshot()), dt)
    {
      blockRoutine := None;
      state := Block;
      log := log + [BlockTrigger];
      var t := cfg.blockDuration;
      if t > 0.0 {
        t := t - dt;
        blockRoutine := Some(t);
        return;
      }
      currentHealth := cfg.maxHealth;
      EnterChase();
    }

    /** One later frame of `BlockRoutine`. */
    method ResumeBlock(dt: real)
      requires blockRoutine.Some?
      modifies this
      ensures Snapshot() == BlockFrame(cfg, old(Snapshot()), dt)
    {
      var t := blockRoutine.value;
      if t > 0.0 {
        t := t - dt;
        blockRoutine := Some(t);
        return;
      }
      blockRoutine := None;
      currentHealth := cfg.maxHealth;
      EnterChase();
    }

    method EnterPatrol(roll: real)
      modifies this
      ensures Snapshot() == ToPatrol(old(Snapshot()), roll)
    {
      state := Patrol;
      nextIdleTime := roll;
    }

    method EnterIdle()
      modifies this
      ensures Snapshot() == ToIdle(cfg, old(Snapshot()))
    {
      state := Idle;
      idleTimer := cfg.idleDuration;
    }

    method EnterChase()
      modifies this
      ensures Snapshot() == ToChase(old(Snapshot()))
    {
      state := Chase;
      lostTime := 0.0;
    }

    /** `TakeDamage(amount)` in a frame of length `dt`. */
    method TakeDamage(amount: int, dt: real)
      modifies this
      ensures Snapshot() == Hit(cfg, old(Snapshot()), amount, dt)
    {
      if state == Block {
        return;
      }
      currentHealth := currentHealth - amount;
      log := log + [Hurt];
      if currentHealth <= 0 {
        EnterDeath();
      } else if currentHealth <= cfg.blockThreshold {
        EnterBlock(dt);
      }
    }

    method TakeDash()
      modifies this
      ensures Snapshot() == Dash(old(Snapshot()))
    {
      if state == Block {
        EnterDeath();
      }
    }

    /** `EnterDeath`; disabling physics and the collider, and `Destroy`, are not modelled. */
    method EnterDeath()
      modifies this
      ensures Snapshot() == ToDeath(old(Snapshot()))
    {
      state := Death;
      log := log + [DeathTrigger];
    }
  }
}
