/** The flying slime (Assets/EnemiesPrefabs/FlyingSlime/FlyingSlimeAI.cs). It flies to
    random points of its patrol area, stopping now and then; it starts chasing a player
    within `chaseRange` and gives up only beyond `loseRange`. A player touching a live
    slime takes `contactDamage`. */
module FlyingSlimeAI {
  import opened Common

  datatype State = Patrol | Idle | Chase

  datatype Event = IdleTrigger | Hurt | DeathTrigger

  /** A patrol target reached within this distance is replaced. */
  const TargetReach: real := 0.1

  datatype Point = Point(x: real, y: real)

  /** The patrol area's bounds. */
  datatype Area = Area(minX: real, minY: real, maxX: real, maxY: real)

  predicate Inside(a: Area, p: Point)
  {
    a.minX <= p.x <= a.maxX && a.minY <= p.y <= a.maxY
  }

  /** `area` is `None` when no patrol area is assigned; `hasPlayer` says whether a player
      was assigned or found by tag at `Start`. */
  datatype Config = Config(
    maxHealth: int,
    contactDamage: int,
    idleDuration: real,
    chaseRange: real,
    loseRange: real,
    patrolSpeed: real,
    chaseSpeed: real,
    area: Option<Area>,
    hasPlayer: bool)

  datatype Slime = Slime(
    state: State,
    isDead: bool,
    health: int,
    patrolTarget: Point,
    stopTimer: real,
    idleTimer: real,
    log: seq<Event>)

  /** The state after `Start`: `target` is the first point drawn in the area, `roll` the
      first stop interval. Without an area `Start` throws reading its bounds, before
      either draw. */
  function Initial(c: Config, target: Point, roll: real): Slime
  {
    if c.area.Some? then Slime(Patrol, false, c.maxHealth, target, roll, 0.0, [])
    else Slime(Patrol, false, c.maxHealth, Point(0.0, 0.0), 0.0, 0.0, [])
  }

  /** The slime is dead exactly when it has died once, and its patrol target lies in the
      patrol area. */
  predicate Valid(c: Config, s: Slime)
  {
    Count(s.log, DeathTrigger) == (if s.isDead then 1 else 0) &&
    (c.area.Some? ==> Inside(c.area.value, s.patrolTarget))
  }

  lemma InitialValid(c: Config, target: Point, roll: real)
    requires c.area.Some? ==> Inside(c.area.value, target)
    ensures Valid(c, Initial(c, target, roll))
  {
  }

  /** `Update` runs the state's tick only for a live slime with a player and an area. */
  predicate Ticks(c: Config, s: Slime)
  {
    !s.isDead && c.hasPlayer && c.area.Some?
  }

  /** `EnterPatrol`: a new target and a new stop interval, both drawn afresh. */
  function ToPatrol(s: Slime, target: Point, roll: real): (r: Slime)
    ensures r.state == Patrol && r.patrolTarget == target && r.stopTimer == roll
  {
    s.(patrolTarget := target, stopTimer := roll, state := Patrol)
  }

  function ToIdle(c: Config, s: Slime): Slime
  {
    s.(idleTimer := c.idleDuration, state := Idle, log := s.log + [IdleTrigger])
  }

  /** `PatrolUpdate`: a reached target is replaced by `target`; the stop timer is checked
      before the chase range and wins. `f.waypointDist` is the distance to the current
      target. */
  function PatrolTick(c: Config, s: Slime, f: Facts, target: Point): (r: Slime)
    requires s.state == Patrol
    ensures r.patrolTarget == if f.waypointDist < TargetReach then target else s.patrolTarget
    ensures r.stopTimer == s.stopTimer - f.dt
    ensures r.stopTimer <= 0.0 ==> r.state == Idle && r.idleTimer == c.idleDuration && r.log == s.log + [IdleTrigger]
    ensures r.stopTimer > 0.0 ==> r.state == (if f.dist <= c.chaseRange then Chase else Patrol) && r.log == s.log
    ensures r.isDead == s.isDead && r.health == s.health
  {
    var s1 := if f.waypointDist < TargetReach then s.(patrolTarget := target) else s;
    var s2 := s1.(stopTimer := s1.stopTimer - f.dt);
    if s2.stopTimer <= 0.0 then ToIdle(c, s2)
    else if f.dist <= c.chaseRange then s2.(state := Chase)
    else s2
  }

  /** `IdleUpdate`: a player in range interrupts the stop before the timer runs down. */
  function IdleTick(c: Config, s: Slime, f: Facts, target: Point): (r: Slime)
    requires s.state == Idle
    ensures f.dist <= c.chaseRange ==> r == s.(state := Chase)
    ensures f.dist > c.chaseRange && s.idleTimer - f.dt <= 0.0 ==>
      r == ToPatrol(s.(idleTimer := s.idleTimer - f.dt), target, f.roll)
    ensures f.dist > c.chaseRange && s.idleTimer - f.dt > 0.0 ==>
      r == s.(idleTimer := s.idleTimer - f.dt)
  {
    if f.dist <= c.chaseRange then s.(state := Chase)
    else
      var s1 := s.(idleTimer := s.idleTimer - f.dt);
      if s1.idleTimer <= 0.0 then ToPatrol(s1, target, f.roll) else s1
  }

  /** `ChaseUpdate`: the chase is given up only beyond `loseRange`. */
  function ChaseTick(c: Config, s: Slime, f: Facts, target: Point): (r: Slime)
    requires s.state == Chase
    ensures r.state == Patrol <==> f.dist > c.loseRange
    ensures f.dist > c.loseRange ==> r == ToPatrol(s, target, f.roll)
    ensures f.dist <= c.loseRange ==> r == s
  {
    if f.dist > c.loseRange then ToPatrol(s, target, f.roll) else s
  }

  /** `Update`; `target` is the point `PickNewPatrolTarget` would draw this frame. */
  function Tick(c: Config, s: Slime, f: Facts, target: Point): (r: Slime)
    ensures !Ticks(c, s) ==> r == s
    ensures Ticks(c, s) && s.state == Patrol ==> r == PatrolTick(c, s, f, target)
    ensures Ticks(c, s) && s.state == Idle ==> r == IdleTick(c, s, f, target)
    ensures Ticks(c, s) && s.state == Chase ==> r == ChaseTick(c, s, f, target)
    ensures r.isDead == s.isDead && r.health == s.health
  {
    if !Ticks(c, s) then s
    else
      match s.state
      case Patrol => PatrolTick(c, s, f, target)
      case Idle => IdleTick(c, s, f, target)
      case Chase => ChaseTick(c, s, f, target)
  }

  /** What `FixedUpdate` does to the body: nothing once dead, stop in Idle, otherwise fly
      at a speed toward the player or the patrol target. */
  datatype Motion = Untouched | Stopped | TowardPlayer(speed: real) | TowardTarget(target: Point, speed: real)

  /** `TakeDamage(amount)` then `Die`: ignored once dead. */
  function Hit(s: Slime, amount: int): (r: Slime)
    ensures s.isDead ==> r == s
    ensures !s.isDead ==> r.health == s.health - amount && (r.isDead <==> r.health <= 0)
    ensures !s.isDead ==> r.log == s.log + [Hurt] + (if r.isDead then [DeathTrigger] else [])
    ensures r.state == s.state && r.patrolTarget == s.patrolTarget
  {
    if s.isDead then s
    else
      var s1 := s.(health := s.health - amount, log := s.log + [Hurt]);
      if s1.health <= 0 then s1.(isDead := true, log := s1.log + [DeathTrigger]) else s1
  }

  datatype Input =
    | Frame(f: Facts, target: Point)
    | TakeDamage(amount: int)

  function Step(c: Config, s: Slime, i: Input): Slime
  {
    match i
    case Frame(f, target) => Tick(c, s, f, target)
    case TakeDamage(amount) => Hit(s, amount)
  }

  function Run(c: Config, s: Slime, inputs: seq<Input>): Slime
    decreases |inputs|
  {
    if inputs == [] then s else Run(c, Step(c, s, inputs[0]), inputs[1..])
  }

  /** Every target drawn lies in the patrol area, as `Random.Range` over its bounds
      guarantees. */
  predicate DrawsInside(c: Config, inputs: seq<Input>)
  {
    c.area.Some? ==> forall i :: 0 <= i < |inputs| && inputs[i].Frame? ==> Inside(c.area.value, inputs[i].target)
  }

  /** A frame whose fresh target lies in the area keeps the slime Valid. */
  lemma TickKeepsValid(c: Config, s: Slime, f: Facts, target: Point)
    requires Valid(c, s) && (c.area.Some? ==> Inside(c.area.value, target))
    ensures Valid(c, Tick(c, s, f, target))
  {
    var r := Tick(c, s, f, target);
    if r.log != s.log {
      assert r.log == s.log + [IdleTrigger];
      CountConcat(s.log, [IdleTrigger], DeathTrigger);
    }
  }

  /** A hit keeps the slime Valid: a live slime dies at most once. */
  lemma HitKeepsValid(c: Config, s: Slime, amount: int)
    requires Valid(c, s)
    ensures Valid(c, Hit(s, amount))
  {
    if !s.isDead {
      CountConcat(s.log, [Hurt], DeathTrigger);
      CountConcat(s.log + [Hurt], [DeathTrigger], DeathTrigger);
    }
  }

  lemma StepKeepsValid(c: Config, s: Slime, i: Input)
    requires Valid(c, s) && DrawsInside(c, [i])
    ensures Valid(c, Step(c, s, i))
  {
    assert [i][0] == i;
    match i {
      case Frame(f, target) => TickKeepsValid(c, s, f, target);
      case TakeDamage(amount) => HitKeepsValid(c, s, amount);
    }
  }

  /** Every reachable state is Valid: the slime dies at most once, and its patrol target
      never leaves the patrol area. */
  lemma {:induction false} RunKeepsValid(c: Config, s: Slime, inputs: seq<Input>)
    requires Valid(c, s) && DrawsInside(c, inputs)
    ensures Valid(c, Run(c, s, inputs))
    decreases |inputs|
  {
    if inputs != [] {
      assert DrawsInside(c, [inputs[0]]) by {
        if c.area.Some? && inputs[0].Frame? {
          assert [inputs[0]][0] == inputs[0];
        }
      }
      StepKeepsValid(c, s, inputs[0]);
      assert DrawsInside(c, inputs[1..]) by {
        if c.area.Some? {
          forall i | 0 <= i < |inputs[1..]| && inputs[1..][i].Frame?
            ensures Inside(c.area.value, inputs[1..][i].target)
          {
            assert inputs[1..][i] == inputs[i + 1];
          }
        }
      }
      RunKeepsValid(c, Step(c, s, inputs[0]), inputs[1..]);
    }
  }

  /** Once dead nothing changes: ticks return at the guard, hits are ignored. */
  lemma {:induction false} DeadIsFrozen(c: Config, s: Slime, inputs: seq<Input>)
    requires s.isDead
    ensures Run(c, s, inputs) == s
    decreases |inputs|
  {
    if inputs != [] {
      DeadIsFrozen(c, Step(c, s, inputs[0]), inputs[1..]);
    }
  }

  /** Every frame of `inputs` sees the player within `range`. */
  predicate PlayerWithin(inputs: seq<Input>, range: real)
  {
    forall i :: 0 <= i < |inputs| && inputs[i].Frame? ==> inputs[i].f.dist <= range
  }

  /** Hysteresis: a chase, begun within `chaseRange`, is kept for as long as the player
      stays within the wider `loseRange`, even beyond `chaseRange`; hits do not end it. */
  lemma {:induction false} ChaseHeldWithinLoseRange(c: Config, s: Slime, inputs: seq<Input>)
    requires s.state == Chase && PlayerWithin(inputs, c.loseRange)
    ensures Run(c, s, inputs).state == Chase
    decreases |inputs|
  {
    if inputs != [] {
      assert PlayerWithin(inputs[1..], c.loseRange) by {
        forall i | 0 <= i < |inputs[1..]| && inputs[1..][i].Frame?
          ensures inputs[1..][i].f.dist <= c.loseRange
        {
          assert inputs[1..][i] == inputs[i + 1];
        }
      }
      ChaseHeldWithinLoseRange(c, Step(c, s, inputs[0]), inputs[1..]);
    }
  }

  class Controller {
    const cfg: Config
    var state: State
    var isDead: bool
    var currentHealth: int
    var patrolTarget: Point
    var stopTimer: real
    var idleTimer: real
    ghost var log: seq<Event>

    ghost function Snapshot(): Slime
      reads this
    {
      Slime(state, isDead, currentHealth, patrolTarget, stopTimer, idleTimer, log)
    }

    /** Field initialisers followed by `Start`. */
    constructor (cfg: Config, target: Point, roll: real)
      ensures this.cfg == cfg && Snapshot() == Initial(cfg, target, roll)
    {
      this.cfg := cfg;
      state := Patrol;
      isDead := false;
      idleTimer := 0.0;
      log := [];
      currentHealth := cfg.maxHealth;
      if cfg.area.Some? {
        patrolTarget := target;
        stopTimer := roll;
      } else {
        patrolTarget := Point(0.0, 0.0);
        stopTimer := 0.0;
      }
    }

    method Update(f: Facts, target: Point)
      modifies this
      ensures Snapshot() == Tick(cfg, old(Snapshot()), f, target)
    {
      if isDead || !cfg.hasPlayer || cfg.area.None? {
        return;
      }
      match state {
        case Patrol => PatrolUpdate(f, target);
        case Idle => IdleUpdate(f, target);
        case Chase => ChaseUpdate(f, target);
      }
    }

    /** `FixedUpdate`; the direction's normalisation and the sprite flip are not modelled. */
    method FixedUpdate() returns (m: Motion)
      ensures isDead <==> m == Untouched
      ensures !isDead && state == Idle ==> m == Stopped
      ensures !isDead && state == Chase ==> m == TowardPlayer(cfg.chaseSpeed)
      ensures !isDead && state == Patrol ==> m == TowardTarget(patrolTarget, cfg.patrolSpeed)
    {
      if isDead {
        return Untouched;
      }
      var speed := if state == Chase then cfg.chaseSpeed else cfg.patrolSpeed;
      if state == Patrol || state == Chase {
        m := if state == Chase then TowardPlayer(speed) else TowardTarget(patrolTarget, speed);
      } else {
        m := Stopped;
      }
    }

    method PatrolUpdate(f: Facts, target: Point)
      requires state == Patrol
      modifies this
      ensures Snapshot() == PatrolTick(cfg, old(Snapshot()), f, target)
    {
      if f.waypointDist < TargetReach {
        PickNewPatrolTarget(target);
      }
      stopTimer := stopTimer - f.dt;
      if stopTimer <= 0.0 {
        EnterIdle();
        return;
      }
      if f.dist <= cfg.chaseRange {
        EnterChase();
      }
    }

    method IdleUpdate(f: Facts, target: Point)
      requires state == Idle
      modifies this
      ensures Snapshot() == IdleTick(cfg, old(Snapshot()), f, target)
    {
      if f.dist <= cfg.chaseRange {
        EnterChase();
        return;
      }
      idleTimer := idleTimer - f.dt;
      if idleTimer <= 0.0 {
        EnterPatrol(target, f.roll);
      }
    }

    method ChaseUpdate(f: Facts, target: Point)
      requires state == Chase
      modifies this
      ensures Snapshot() == ChaseTick(cfg, old(Snapshot()), f, target)
    {
      if f.dist > cfg.loseRange {
        EnterPatrol(target, f.roll);
        return;
      }
    }

    method EnterPatrol(target: Point, roll: real)
      modifies this
      ensures Snapshot() == ToPatrol(old(Snapshot()), target, roll)
    {
      PickNewPatrolTarget(target);
      stopTimer := roll;
      state := Patrol;
    }

    method EnterIdle()
      modifies this
      ensures Snapshot() == ToIdle(cfg, old(Snapshot()))
    {
      idleTimer := cfg.idleDuration;
      log := log + [IdleTrigger];
      state := Idle;
    }

    method EnterChase()
      modifies this
      ensures Snapshot() == old(Snapshot()).(state := Chase)
    {
      state := Chase;
    }

    /** `PickNewPatrolTarget`: `target` is the point drawn within the area's bounds. */
    method PickNewPatrolTarget(target: Point)
      modifies this
      ensures Snapshot() == old(Snapshot()).(patrolTarget := target)
    {
      patrolTarget := target;
    }

    /** `OnCollisionStay2D`: the damage dealt to what touched the slime, if any;
        `hasStats` says whether it has a `PlayerStats`. */
    method OnCollisionStay2D(isPlayer: bool, hasStats: bool) returns (dealt: Option<int>)
      ensures dealt.Some? <==> !isDead && isPlayer && hasStats
      ensures dealt.Some? ==> dealt.value == cfg.contactDamage
    {
      if isDead {
        return None;
      }
      if !isPlayer {
        return None;
      }
      if hasStats {
        return Some(cfg.contactDamage);
      }
      return None;
    }

    method TakeDamage(amount: int)
      modifies this
      ensures Snapshot() == Hit(old(Snapshot()), amount)
    {
      if isDead {
        return;
      }
      currentHealth := currentHealth - amount;
      log := log + [Hurt];
      if currentHealth <= 0 {
        Die();
      }
    }

    /** `Die`; stopping the body, the collider and `Destroy` are not modelled. */
    method Die()
      modifies this
      ensures Snapshot() == old(Snapshot()).(isDead := true, log := old(log) + [DeathTrigger])
    {
      isDead := true;
      log := log + [DeathTrigger];
    }
  }
}
