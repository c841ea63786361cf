/** The prefab exploding slime (Assets/EnemiesPrefabs/ExplodingSlime/ExplodingSlimeAI.cs).
    Its state machine, countdown, explosion and damage handling are those of the older
    slime, line for line, so its controller is specified by `ExplodingSlimeAI`'s
    functions and inherits every lemma proved there. It differs only in movement: a
    `patrolSpeed` and a `chaseSpeed`, applied in every state, Idle included. */
module PrefabExplodingSlimeAI {
  import opened Common
  import opened ExplodingSlimeAI

  /** `FixedUpdate`'s speed: `chaseSpeed` while chasing or counting down, `patrolSpeed`
      otherwise. */
  function Speed(state: State, patrolSpeed: real, chaseSpeed: real): (v: real)
    ensures state in {Chase, ExplodeCountdown} ==> v == chaseSpeed
    ensures state in {Patrol, Idle} ==> v == patrolSpeed
  {
    if state == Chase || state == ExplodeCountdown then chaseSpeed else patrolSpeed
  }

  /** In Idle the slime stands still after its first idle frame: the tick zeroes the
      direction, so whatever speed is chosen the velocity is zero. */
  lemma IdleStandsStill(c: Config, s: Slime, f: Facts, inBlast: bool, patrolSpeed: real, chaseSpeed: real)
    requires Ticks(c, s) && s.state == Idle
    ensures var r := Tick(c, s, f, inBlast);
      r.state == Idle ==> r.moveDirection * Speed(r.state, patrolSpeed, chaseSpeed) == 0.0
  {
  }

  class Controller {
    const cfg: Config
    const patrolSpeed: real
    const chaseSpeed: real
    var state: State
    var isDead: bool
    var currentHealth: int
    var patrolIndex: nat
    var stateTimer: real
    var nextIdleTime: real
    var moveDirection: real
    ghost var log: seq<Event>

    ghost function Snapshot(): Slime
      reads this
    {
      Slime(state, isDead, currentHealth, patrolIndex, stateTimer, nextIdleTime, moveDirection, log)
    }

    /** Field initialisers followed by `Start`; `roll` is the first idle interval drawn. */
    constructor (cfg: Config, patrolSpeed: real, chaseSpeed: real, roll: real)
      ensures this.cfg == cfg && this.patrolSpeed == patrolSpeed && this.chaseSpeed == chaseSpeed
      ensures Snapshot() == Initial(cfg, roll)
    {
      this.cfg := cfg;
      this.patrolSpeed := patrolSpeed;
      this.chaseSpeed := chaseSpeed;
      state := Patrol;
      isDead := false;
      patrolIndex := 0;
      stateTimer := 0.0;
      moveDirection := 0.0;
      log := [];
      currentHealth := cfg.maxHealth;
      nextIdleTime := roll;
    }

    method Update(f: Facts, inBlast: bool)
      modifies this
      ensures Snapshot() == Tick(cfg, old(Snapshot()), f, inBlast)
    {
      if isDead || !cfg.hasPlayer || cfg.patrolCount < 2 {
        return;
      }
      match state {
        case Patrol => PatrolUpdate(f);
        case Idle => IdleUpdate(f);
        case Chase => ChaseUpdate(f);
        case ExplodeCountdown => ExplodeCountdownUpdate(f, inBlast);
      }
    }

    /** `FixedUpdate`: the horizontal velocity set this physics step; none once dead. */
    method FixedUpdate() returns (vx: Option<real>)
      ensures vx.None? <==> isDead
      ensures vx.Some? ==> vx.value == moveDirection * Speed(state, patrolSpeed, chaseSpeed)
    {
      if isDead {
        return None;
      }
      var speed := patrolSpeed;
      if state == Chase || state == ExplodeCountdown {
        speed := chaseSpeed;
      }
      return Some(moveDirection * speed);
    }

    method PatrolUpdate(f: Facts)
      requires state == Patrol
      modifies this
      ensures Snapshot() == PatrolTick(cfg, old(Snapshot()), f)
    {
      if patrolIndex >= cfg.patrolCount {
        return;
      }
      moveDirection := Sign(f.waypointDx);
      if Abs(f.waypointDx) < WaypointReach {
        patrolIndex := NextWaypoint(patrolIndex, cfg.patrolCount);
      }
      nextIdleTime := nextIdleTime - f.dt;
      if nextIdleTime <= 0.0 {
        EnterIdle();
        return;
      }
      if f.dist <= cfg.chaseRange {
        EnterChase();
      }
    }

    method IdleUpdate(f: Facts)
      requires state == Idle
      modifies this
      ensures Snapshot() == IdleTick(cfg, old(Snapshot()), f)
    {
      moveDirection := 0.0;
      if f.dist <= cfg.chaseRange {
        EnterChase();
        return;
      }
      stateTimer := stateTimer - f.dt;
      if stateTimer <= 0.0 {
        EnterPatrol(f.roll);
      }
    }

    method ChaseUpdate(f: Facts)
      requires state == Chase
      modifies this
      ensures Snapshot() == ChaseTick(cfg, old(Snapshot()), f)
    {
      moveDirection := Sign(f.playerDx);
      if f.dist <= cfg.explodeRange {
        EnterExplodeCountdown();
      }
    }

    method ExplodeCountdownUpdate(f: Facts, inBlast: bool)
      requires state == ExplodeCountdown
      modifies this
      ensures Snapshot() == CountdownTick(cfg, old(Snapshot()), f, inBlast)
    {
      moveDirection := Sign(f.playerDx);
      stateTimer := stateTimer - f.dt;
      if stateTimer <= 0.0 {
        Explode(inBlast);
      }
    }

    method EnterPatrol(roll: real)
      modifies this
      ensures Snapshot() == ToPatrol(old(Snapshot()), roll)
    {
      nextIdleTime := roll;
      state := Patrol;
    }

    method EnterIdle()
      modifies this
      ensures Snapshot() == ToIdle(cfg, old(Snapshot()))
    {
      stateTimer := cfg.idleDuration;
      log := log + [IdleTrigger];
      state := Idle;
    }

    method EnterChase()
      modifies this
      ensures Snapshot() == ToChase(old(Snapshot()))
    {
      state := Chase;
    }

    method EnterExplodeCountdown()
      modifies this
      ensures Snapshot() == ToCountdown(cfg, old(Snapshot()))
    {
      stateTimer := cfg.explodeCountdown;
      log := log + [AttackTrigger];
      state := ExplodeCountdown;
    }

    method Explode(inBlast: bool)
      modifies this
      ensures Snapshot() == ExplodeSlime(cfg, old(Snapshot()), inBlast)
    {
      if inBlast {
        log := log + [DamagePlayer(cfg.explodeDamage)];
      }
      log := log + [DeathTrigger];
      isDead := true;
    }

    method TakeDamage(amount: int, inBlast: bool)
      modifies this
      ensures Snapshot() == Hit(cfg, old(Snapshot()), amount, inBlast)
    {
      if isDead {
        return;
      }
      currentHealth := currentHealth - amount;
      log := log + [Hurt];
      if currentHealth <= 0 {
        Explode(inBlast);
      }
    }
  }
}
