/** The chapter-one slime (Assets/Chapter1EnemiesPrefabs/Slime/SlimeEnemyAI.cs). It
    patrols between waypoints with idle stops, and a player within `attackRange` makes it
    stop and attack for `attackDuration`, after which it patrols again whatever the
    distance. A player touching a live slime takes `contactDamage`. */
module SlimeEnemyAI {
  import opened Common

  datatype State = Patrol | Idle | Attack

  datatype Event = IdleTrigger | AttackTrigger | Hurt | DeathTrigger

  /** Distance under which a patrol waypoint counts as reached. */
  const WaypointReach: real := 0.5

  /** `hasPlayer` says whether a player was assigned or found by tag at `Start`;
      `hasStats` whether that player has a `PlayerStats`. */
  datatype Config = Config(
    maxHealth: int,
    contactDamage: int,
    idleDuration: real,
    attackRange: real,
    attackDuration: real,
    patrolCount: nat,
    hasPlayer: bool,
    hasStats: bool)

  datatype Slime = Slime(
    state: State,
    isDead: bool,
    health: int,
    patrolIndex: nat,
    stateTimer: real,
    nextIdleTime: real,
    moveDirection: real,
    log: seq<Event>)

  /** The state after `Start`. Without a player, `Start` throws when it looks up the
      player's stats, before drawing the first idle interval `roll`. */
  function Initial(c: Config, roll: real): Slime
  {
    Slime(Patrol, false, c.maxHealth, 0, 0.0, if c.hasPlayer then roll else 0.0, 0.0, [])
  }

  /** The slime is dead exactly when it has died once; it stands still while idle or
      attacking; the waypoint index stays in range. */
  predicate Valid(c: Config, s: Slime)
  {
    Count(s.log, DeathTrigger) == (if s.isDead then 1 else 0) &&
    (c.patrolCount >= 2 ==> s.patrolIndex < c.patrolCount) &&
    (s.moveDirection == 0.0 || s.moveDirection == 1.0 || s.moveDirection == -1.0) &&
    (s.state in {Idle, Attack} ==> s.moveDirection == 0.0)
  }

  lemma InitialValid(c: Config, roll: real)
    ensures Valid(c, Initial(c, roll))
  {
  }

  /** `Update` runs the state's tick only for a live slime with a player and at least two
      waypoints. */
  predicate Ticks(c: Config, s: Slime)
  {
    !s.isDead && c.hasPlayer && c.patrolCount >= 2
  }

  /** `EnterPatrol`: a fresh idle interval `roll`. The walking sound is not modelled. */
  function ToPatrol(s: Slime, roll: real): Slime
  {
    s.(nextIdleTime := roll, state := Patrol)
  }

  function ToIdle(c: Config, s: Slime): Slime
  {
    s.(moveDirection := 0.0, stateTimer := c.idleDuration, state := Idle, log := s.log + [IdleTrigger])
  }

  function ToAttack(c: Config, s: Slime): Slime
  {
    s.(moveDirection := 0.0, stateTimer := c.attackDuration, state := Attack, log := s.log + [AttackTrigger])
  }

  /** `PatrolUpdate`: head for the waypoint and step on when it is reached, count down to
      an idle stop, and only then look for the player. An index outside the waypoints
      would throw when read, so that frame changes nothing. */
  function PatrolTick(c: Config, s: Slime, f: Facts): (r: Slime)
    requires s.state == Patrol
    ensures s.patrolIndex >= c.patrolCount ==> r == s
    ensures s.patrolIndex < c.patrolCount ==>
      r.patrolIndex == (if Abs(f.waypointDx) < WaypointReach
                        then NextWaypoint(s.patrolIndex, c.patrolCount) else s.patrolIndex) &&
      r.nextIdleTime == s.nextIdleTime - f.dt &&
      // the idle countdown wins over the attack range
      (r.nextIdleTime <= 0.0 ==> r.state == Idle && r.stateTimer == c.idleDuration) &&
      (r.nextIdleTime > 0.0 ==> (r.state == Attack <==> f.dist <= c.attackRange)) &&
      (r.state == Patrol ==> r.moveDirection == Sign(f.waypointDx))
    ensures r.state != Patrol ==> r.moveDirection == 0.0
    ensures r.isDead == s.isDead && r.health == s.health
    ensures r.log == s.log || r.log == s.log + [IdleTrigger] || r.log == s.log + [AttackTrigger]
  {
    if s.patrolIndex >= c.patrolCount then s
    else
      var s1 := s.(moveDirection := Sign(f.waypointDx));
      var s2 := if Abs(f.waypointDx) < WaypointReach
        then s1.(patrolIndex := NextWaypoint(s.patrolIndex, c.patrolCount)) else s1;
      var s3 := s2.(nextIdleTime := s2.nextIdleTime - f.dt);
      if s3.nextIdleTime <= 0.0 then ToIdle(c, s3)
      else if f.dist <= c.attackRange then ToAttack(c, s3)
      else s3
  }

  /** `IdleUpdate`: the idle timer runs down first; a player in range of a live slime then
      interrupts the stop before the timer is looked at. */
  function IdleTick(c: Config, s: Slime, f: Facts): (r: Slime)
    requires s.state == Idle
    ensures r.moveDirection == 0.0
    ensures !s.isDead && f.dist <= c.attackRange ==>
      r == ToAttack(c, s.(moveDirection := 0.0, stateTimer := s.stateTimer - f.dt))
    ensures (s.isDead || f.dist > c.attackRange) && s.stateTimer - f.dt <= 0.0 ==>
      r == ToPatrol(s.(moveDirection := 0.0, stateTimer := s.stateTimer - f.dt), f.roll)
    ensures (s.isDead || f.dist > c.attackRange) && s.stateTimer - f.dt > 0.0 ==>
      r == s.(moveDirection := 0.0, stateTimer := s.stateTimer - f.dt)
  {
    var s1 := s.(moveDirection := 0.0, stateTimer := s.stateTimer - f.dt);
    if !s.isDead && f.dist <= c.attackRange then ToAttack(c, s1)
    else if s1.stateTimer <= 0.0 then ToPatrol(s1, f.roll)
    else s1
  }

  /** `AttackUpdate`: stand still until `stateTimer` runs out, whatever the distance, then
      patrol. */
  function AttackTick(s: Slime, f: Facts): (r: Slime)
    requires s.state == Attack
    ensures r.stateTimer == s.stateTimer - f.dt && r.moveDirection == 0.0
    ensures r.state == (if r.stateTimer <= 0.0 then Patrol else Attack)
    ensures r.state == Patrol ==> r.nextIdleTime == f.roll
    ensures r.log == s.log && r.isDead == s.isDead && r.health == s.health && r.patrolIndex == s.patrolIndex
  {
    var s1 := s.(moveDirection := 0.0, stateTimer := s.stateTimer - f.dt);
    if s1.stateTimer <= 0.0 then ToPatrol(s1, f.roll) else s1
  }

  function Tick(c: Config, s: Slime, f: Facts): (r: Slime)
    ensures !Ticks(c, s) ==> r == s
    ensures Ticks(c, s) && s.state == Patrol ==> r == PatrolTick(c, s, f)
    ensures Ticks(c, s) && s.state == Idle ==> r == IdleTick(c, s, f)
    ensures Ticks(c, s) && s.state == Attack ==> r == AttackTick(s, f)
    ensures r.isDead == s.isDead && r.health == s.health
  {
    if !Ticks(c, s) then s
    else
      match s.state
      case Patrol => PatrolTick(c, s, f)
      case Idle => IdleTick(c, s, f)
      case Attack => AttackTick(s, f)
  }

  /** `TakeDamage(amount)` then `Die`: ignored once dead. The hurt flash and the sounds are
      not modelled. */
  function Hit(s: Slime, amount: int): (r: Slime)
    ensures s.isDead ==> r == s
    ensures !s.isDead ==> r.health == s.health - amount && (r.isDead <==> r.health <= 0)
    ensures !s.isDead ==> r.log == s.log + [if r.health > 0 then Hurt else DeathTrigger]
    ensures r.state == s.state && r.moveDirection == s.moveDirection
  {
    if s.isDead then s
    else
      var s1 := s.(health := s.health - amount);
      if s1.health > 0 then s1.(log := s1.log + [Hurt])
      else s1.(isDead := true, log := s1.log + [DeathTrigger])
  }

  datatype Input =
    | Frame(f: Facts)
    | TakeDamage(amount: int)

  function Step(c: Config, s: Slime, i: Input): Slime
  {
    match i
    case Frame(f) => Tick(c, s, f)
    case TakeDamage(amount) => Hit(s, amount)
  }

  function Run(c: Config, s: Slime, inputs: seq<Input>): Slime
    decreases |inputs|
  {
    if inputs == [] then s else Run(c, Step(c, s, inputs[0]), inputs[1..])
  }

  lemma StepKeepsValid(c: Config, s: Slime, i: Input)
    requires Valid(c, s)
    ensures Valid(c, Step(c, s, i))
  {
    var r := Step(c, s, i);
    if r.log != s.log {
      var e := r.log[|r.log| - 1];
      assert r.log == s.log + [e];
      assert e == DeathTrigger ==> !s.isDead && r.isDead;
      CountConcat(s.log, [e], DeathTrigger);
    }
  }

  /** Every reachable state is Valid: the slime dies at most once, and stands still
      whenever it is not patrolling. */
  lemma {:induction false} RunKeepsValid(c: Config, s: Slime, inputs: seq<Input>)
    requires Valid(c, s)
    ensures Valid(c, Run(c, s, inputs))
    decreases |inputs|
  {
    if inputs != [] {
      StepKeepsValid(c, s, inputs[0]);
      RunKeepsValid(c, Step(c, s, inputs[0]), inputs[1..]);
    }
  }

  /** Once dead nothing changes: ticks return at the guard, hits are ignored. */
  lemma {:induction false} DeadIsFrozen(c: Config, s: Slime, inputs: seq<Input>)
    requires s.isDead
    ensures Run(c, s, inputs) == s
    decreases |inputs|
  {
    if inputs != [] {
      DeadIsFrozen(c, Step(c, s, inputs[0]), inputs[1..]);
    }
  }

  /** Frames whose times are never negative. */
  predicate ForwardFrames(inputs: seq<Input>)
  {
    forall i :: 0 <= i < |inputs| ==> inputs[i].Frame? && inputs[i].f.dt >= 0.0
  }

  function SumDt(inputs: seq<Input>): (t: real)
    requires ForwardFrames(inputs)
    ensures t >= 0.0
    decreases |inputs|
  {
    if inputs == [] then 0.0
    else
      assert ForwardFrames(inputs[1..]) by {
        forall i | 0 <= i < |inputs[1..]| ensures inputs[1..][i].Frame? && inputs[1..][i].f.dt >= 0.0 {
          assert inputs[1..][i] == inputs[i + 1];
        }
      }
      inputs[0].f.dt + SumDt(inputs[1..])
  }

  /** An attack is held, wherever the player goes, as long as the time elapsed is less
      than what was left on its timer. */
  lemma {:induction false} AttackHeldUntilTimerExpires(c: Config, s: Slime, inputs: seq<Input>)
    requires s.state == Attack && ForwardFrames(inputs) && SumDt(inputs) < s.stateTimer
    ensures Run(c, s, inputs).state == Attack
    ensures Ticks(c, s) ==> Run(c, s, inputs).stateTimer == s.stateTimer - SumDt(inputs)
    decreases |inputs|
  {
    if inputs != [] {
      assert ForwardFrames(inputs[1..]) by {
        forall i | 0 <= i < |inputs[1..]| ensures inputs[1..][i].Frame? && inputs[1..][i].f.dt >= 0.0 {
          assert inputs[1..][i] == inputs[i + 1];
        }
      }
      var s1 := Step(c, s, inputs[0]);
      assert SumDt(inputs) == inputs[0].f.dt + SumDt(inputs[1..]);
      AttackHeldUntilTimerExpires(c, s1, inputs[1..]);
    }
  }

  class Controller {
    const cfg: Config
    const moveSpeed: real
    var state: State
    var isDead: bool
    var currentHealth: int
    var currentPatrolIndex: nat
    var stateTimer: real
    var nextPatrolIdleTime: real
    var moveDirection: real
    ghost var log: seq<Event>

    ghost function Snapshot(): Slime
      reads this
    {
      Slime(state, isDead, currentHealth, currentPatrolIndex, stateTimer, nextPatrolIdleTime, moveDirection, log)
    }

    /** Field initialisers followed by `Start`; `roll` is the first idle interval drawn. */
    constructor (cfg: Config, moveSpeed: real, roll: real)
      ensures this.cfg == cfg && this.moveSpeed == moveSpeed && Snapshot() == Initial(cfg, roll)
    {
      this.cfg := cfg;
      this.moveSpeed := moveSpeed;
      state := Patrol;
      isDead := false;
      currentPatrolIndex := 0;
      stateTimer := 0.0;
      moveDirection := 0.0;
      log := [];
      currentHealth := cfg.maxHealth;
      nextPatrolIdleTime := if cfg.hasPlayer then roll else 0.0;
    }

    method Update(f: Facts)
      modifies this
      ensures Snapshot() == Tick(cfg, old(Snapshot()), f)
    {
      if isDead || !cfg.hasPlayer || cfg.patrolCount < 2 {
        return;
      }
      match state {
        case Patrol => PatrolUpdate(f);
        case Idle => IdleUpdate(f);
        case Attack => AttackUpdate(f);
      }
    }

    /** `FixedUpdate`: the horizontal velocity set this physics step; none once dead. In a
        Valid state a slime that is idle or attacking stands still. */
    method FixedUpdate() returns (vx: Option<real>)
      ensures vx.None? <==> isDead
      ensures vx.Some? ==> vx.value == moveDirection * moveSpeed
      ensures vx.Some? && Valid(cfg, Snapshot()) && state != Patrol ==> vx.value == 0.0
    {
      if isDead {
        return None;
      }
      return Some(moveDirection * moveSpeed);
    }

    method PatrolUpdate(f: Facts)
      requires state == Patrol
      modifies this
      ensures Snapshot() == PatrolTick(cfg, old(Snapshot()), f)
    {
      if currentPatrolIndex >= cfg.patrolCount {
        return;
      }
      moveDirection := Sign(f.waypointDx);
      if Abs(f.waypointDx) < WaypointReach {
        currentPatrolIndex := NextWaypoint(currentPatrolIndex, cfg.patrolCount);
      }
      nextPatrolIdleTime := nextPatrolIdleTime - f.dt;
      if nextPatrolIdleTime <= 0.0 {
        EnterIdle();
        return;
      }
      if f.dist <= cfg.attackRange {
        EnterAttack();
      }
    }

    method IdleUpdate(f: Facts)
      requires state == Idle
      modifies this
      ensures Snapshot() == IdleTick(cfg, old(Snapshot()), f)
    {
      moveDirection := 0.0;
      stateTimer := stateTimer - f.dt;
      if !isDead && f.dist <= cfg.attackRange {
        EnterAttack();
        return;
      }
      if stateTimer <= 0.0 {
        EnterPatrol(f.roll);
      }
    }

    method AttackUpdate(f: Facts)
      requires state == Attack
      modifies this
      ensures Snapshot() == AttackTick(old(Snapshot()), f)
    {
      moveDirection := 0.0;
      stateTimer := stateTimer - f.dt;
      if stateTimer <= 0.0 {
        EnterPatrol(f.roll);
      }
    }

    method EnterPatrol(roll: real)
      modifies this
      ensures Snapshot() == ToPatrol(old(Snapshot()), roll)
    {
      nextPatrolIdleTime := roll;
      state := Patrol;
    }

    method EnterIdle()
      modifies this
      ensures Snapshot() == ToIdle(cfg, old(Snapshot()))
    {
      moveDirection := 0.0;
      stateTimer := cfg.idleDuration;
      log := log + [IdleTrigger];
      state := Idle;
    }

    method EnterAttack()
      modifies this
      ensures Snapshot() == ToAttack(cfg, old(Snapshot()))
    {
      moveDirection := 0.0;
      stateTimer := cfg.attackDuration;
      log := log + [AttackTrigger];
      state := Attack;
    }

    method TakeDamage(amount: int)
      modifies this
      ensures Snapshot() == Hit(old(Snapshot()), amount)
    {
      if isDead {
        return;
      }
      currentHealth := currentHealth - amount;
      if currentHealth > 0 {
        log := log + [Hurt];
      } else {
        Die();
      }
    }

    /** `Die`; stopping the body and disabling the component are not modelled beyond
        `isDead`, which every entry point checks. */
    method Die()
      modifies this
      ensures Snapshot() == old(Snapshot()).(isDead := true, log := old(log) + [DeathTrigger])
    {
      isDead := true;
      log := log + [DeathTrigger];
    }

    /** `OnCollisionStay2D`: the damage dealt to what touched the slime, if any. */
    method OnCollisionStay2D(isPlayer: bool) returns (dealt: Option<int>)
      ensures dealt.Some? <==> !isDead && isPlayer && cfg.hasStats
      ensures dealt.Some? ==> dealt.value == cfg.contactDamage
    {
      if isDead {
        return None;
      }
      if !isPlayer {
        return None;
      }
      if cfg.hasStats {
        return Some(cfg.contactDamage);
      }
      return None;
    }
  }
}
