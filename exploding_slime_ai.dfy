/** The exploding slime's controller (Assets/ExplodingSlimeAI.cs). It patrols between
    waypoints, idles now and then, chases a player within `chaseRange`, and within
    `explodeRange` starts a countdown that nothing cancels; when it runs out, or when a hit
    is fatal, the slime explodes once and is dead from then on. */
module ExplodingSlimeAI {
  import opened Common

  datatype State = Patrol | Idle | Chase | ExplodeCountdown

  /** Animator triggers, and `DamagePlayer` for the explosion's damage to a player in its
      radius. */
  datatype Event = IdleTrigger | AttackTrigger | Hurt | DeathTrigger | DamagePlayer(amount: int)

  /** Distance under which a patrol waypoint counts as reached. */
  const WaypointReach: real := 0.1

  /** `hasPlayer` says whether a player was assigned or found by tag at `Start`. The
      movement speed is a field of the controller alone, since only physics reads it. */
  datatype Config = Config(
    maxHealth: int,
    idleDuration: real,
    chaseRange: real,
    explodeRange: real,
    explodeCountdown: real,
    explodeDamage: int,
    patrolCount: nat,
    hasPlayer: bool)

  datatype Slime = Slime(
    state: State,
    isDead: bool,
    health: int,
    patrolIndex: nat,
    stateTimer: real,
    nextIdleTime: real,
    moveDirection: real,
    log: seq<Event>)

  /** The state after `Start`; `roll` is the first `PickNextIdleTime` draw. */
  function Initial(c: Config, roll: real): Slime
  {
    Slime(Patrol, false, c.maxHealth, 0, 0.0, roll, 0.0, [])
  }

  /** The slime has exploded exactly when it is dead, and the waypoint index stays in range. */
  predicate Valid(c: Config, s: Slime)
  {
    Count(s.log, DeathTrigger) == (if s.isDead then 1 else 0) &&
    (c.patrolCount >= 2 ==> s.patrolIndex < c.patrolCount) &&
    (s.moveDirection == 0.0 || s.moveDirection == 1.0 || s.moveDirection == -1.0)
  }

  lemma InitialValid(c: Config, roll: real)
    ensures Valid(c, Initial(c, roll))
  {
  }

  /** `Update` runs the state's tick only for a live slime with a player and at least two
      waypoints. */
  predicate Ticks(c: Config, s: Slime)
  {
    !s.isDead && c.hasPlayer && c.patrolCount >= 2
  }

  /** `EnterPatrol`: a fresh idle interval `roll`. */
  function ToPatrol(s: Slime, roll: real): Slime
  {
    s.(nextIdleTime := roll, state := Patrol)
  }

  function ToIdle(c: Config, s: Slime): Slime
  {
    s.(stateTimer := c.idleDuration, state := Idle, log := s.log + [IdleTrigger])
  }

  function ToChase(s: Slime): Slime
  {
    s.(state := Chase)
  }

  function ToCountdown(c: Config, s: Slime): Slime
  {
    s.(stateTimer := c.explodeCountdown, state := ExplodeCountdown, log := s.log + [AttackTrigger])
  }

  /** `Explode`: the player in the blast radius (`inBlast`) takes `explodeDamage`; the slime
      is dead. Knockback, disabling the collider and `Destroy` are not modelled. */
  function ExplodeSlime(c: Config, s: Slime, inBlast: bool): (r: Slime)
    ensures r.isDead && r.state == s.state && r.health == s.health
    ensures r.log == s.log + (if inBlast then [DamagePlayer(c.explodeDamage)] else []) + [DeathTrigger]
  {
    s.(log := s.log + (if inBlast then [DamagePlayer(c.explodeDamage)] else []) + [DeathTrigger],
       isDead := true)
  }

  /** `PatrolUpdate`: head for the current waypoint, step to the next one when it is
      reached, then count down to an idle stop; only a frame that does not stop looks for
      the player. An index outside the waypoints would throw at its first line, so that
      frame changes nothing. */
  function PatrolTick(c: Config, s: Slime, f: Facts): (r: Slime)
    requires s.state == Patrol
    ensures s.patrolIndex >= c.patrolCount ==> r == s
    ensures s.patrolIndex < c.patrolCount ==>
      r.moveDirection == Sign(f.waypointDx) &&
      r.patrolIndex == (if Abs(f.waypointDx) < WaypointReach
                        then NextWaypoint(s.patrolIndex, c.patrolCount) else s.patrolIndex) &&
      r.nextIdleTime == s.nextIdleTime - f.dt
    // the idle countdown is checked before the chase range, and wins
    ensures s.patrolIndex < c.patrolCount && r.nextIdleTime <= 0.0 ==>
      r.state == Idle && r.stateTimer == c.idleDuration && r.log == s.log + [IdleTrigger]
    ensures s.patrolIndex < c.patrolCount && r.nextIdleTime > 0.0 ==>
      (r.state == Chase <==> f.dist <= c.chaseRange) && r.state != Idle && r.log == s.log
    ensures r.isDead == s.isDead && r.health == s.health && r.state != ExplodeCountdown
  {
    if s.patrolIndex >= c.patrolCount then s
    else
      var s1 := s.(moveDirection := Sign(f.waypointDx));
      var s2 := if Abs(f.waypointDx) < WaypointReach
        then s1.(patrolIndex := NextWaypoint(s.patrolIndex, c.patrolCount)) else s1;
      var s3 := s2.(nextIdleTime := s2.nextIdleTime - f.dt);
      if s3.nextIdleTime <= 0.0 then ToIdle(c, s3)
      else if f.dist <= c.chaseRange then ToChase(s3)
      else s3
  }

  /** `IdleUpdate`: stand still; a player in range interrupts the stop. */
  function IdleTick(c: Config, s: Slime, f: Facts): (r: Slime)
    requires s.state == Idle
    ensures r.moveDirection == 0.0
    ensures f.dist <= c.chaseRange ==> r == ToChase(s.(moveDirection := 0.0))
    ensures f.dist > c.chaseRange && s.stateTimer - f.dt <= 0.0 ==>
      r == ToPatrol(s.(moveDirection := 0.0, stateTimer := s.stateTimer - f.dt), f.roll)
    ensures f.dist > c.chaseRange && s.stateTimer - f.dt > 0.0 ==>
      r == s.(moveDirection := 0.0, stateTimer := s.stateTimer - f.dt)
  {
    var s1 := s.(moveDirection := 0.0);
    if f.dist <= c.chaseRange then ToChase(s1)
    else
      var s2 := s1.(stateTimer := s1.stateTimer - f.dt);
      if s2.stateTimer <= 0.0 then ToPatrol(s2, f.roll) else s2
  }

  /** `ChaseUpdate`: there is no way to lose the player; the only exit is the countdown. */
  function ChaseTick(c: Config, s: Slime, f: Facts): (r: Slime)
    requires s.state == Chase
    ensures r.moveDirection == Sign(f.playerDx)
    ensures r.state == (if f.dist <= c.explodeRange then ExplodeCountdown else Chase)
    ensures r.state == ExplodeCountdown ==>
      r.stateTimer == c.explodeCountdown && r.log == s.log + [AttackTrigger]
    ensures r.state == Chase ==> r == s.(moveDirection := Sign(f.playerDx))
    ensures r.isDead == s.isDead && r.health == s.health
  {
    var s1 := s.(moveDirection := Sign(f.playerDx));
    if f.dist <= c.explodeRange then ToCountdown(c, s1) else s1
  }

  /** `ExplodeCountdownUpdate`: keep chasing whatever the distance, and explode when the
      timer runs out. The grey flash is not modelled. */
  function CountdownTick(c: Config, s: Slime, f: Facts, inBlast: bool): (r: Slime)
    requires s.state == ExplodeCountdown
    ensures r.state == ExplodeCountdown
    ensures r.moveDirection == Sign(f.playerDx) && r.stateTimer == s.stateTimer - f.dt
    ensures r.stateTimer <= 0.0 ==> r == ExplodeSlime(c, s.(moveDirection := r.moveDirection,
                                                        stateTimer := r.stateTimer), inBlast)
    ensures r.stateTimer > 0.0 ==> r.isDead == s.isDead && r.log == s.log
  {
    var s1 := s.(moveDirection := Sign(f.playerDx), stateTimer := s.stateTimer - f.dt);
    if s1.stateTimer <= 0.0 then ExplodeSlime(c, s1, inBlast) else s1
  }

  /** `Update`; `inBlast` says whether the player is in the explosion radius this frame. */
  function Tick(c: Config, s: Slime, f: Facts, inBlast: bool): (r: Slime)
    ensures !Ticks(c, s) ==> r == s
    ensures Ticks(c, s) && s.state == Patrol ==> r == PatrolTick(c, s, f)
    ensures Ticks(c, s) && s.state == Idle ==> r == IdleTick(c, s, f)
    ensures Ticks(c, s) && s.state == Chase ==> r == ChaseTick(c, s, f)
    ensures Ticks(c, s) && s.state == ExplodeCountdown ==> r == CountdownTick(c, s, f, inBlast)
    ensures r.health == s.health
    // the countdown is never left
    ensures s.state == ExplodeCountdown ==> r.state == ExplodeCountdown
  {
    if !Ticks(c, s) then s
    else
      match s.state
      case Patrol => PatrolTick(c, s, f)
      case Idle => IdleTick(c, s, f)
      case Chase => ChaseTick(c, s, f)
      case ExplodeCountdown => CountdownTick(c, s, f, inBlast)
  }

  /** `TakeDamage(amount)`: ignored once dead; a fatal hit explodes at once. */
  function Hit(c: Config, s: Slime, amount: int, inBlast: bool): (r: Slime)
    ensures s.isDead ==> r == s
    ensures !s.isDead ==> r.health == s.health - amount && (r.isDead <==> r.health <= 0)
    ensures !s.isDead && r.health > 0 ==> r.log == s.log + [Hurt]
    ensures !s.isDead && r.health <= 0 ==> r == ExplodeSlime(c, s.(health := r.health, log := s.log + [Hurt]), inBlast)
    ensures r.state == s.state
  {
    if s.isDead then s
    else
      var s1 := s.(health := s.health - amount, log := s.log + [Hurt]);
      if s1.health <= 0 then ExplodeSlime(c, s1, inBlast) else s1
  }

  datatype Input =
    | Frame(f: Facts, inBlast: bool)
    | TakeDamage(amount: int, inBlast: bool)

  function Step(c: Config, s: Slime, i: Input): Slime
  {
    match i
    case Frame(f, inBlast) => Tick(c, s, f, inBlast)
    case TakeDamage(amount, inBlast) => Hit(c, s, amount, inBlast)
  }

  function Run(c: Config, s: Slime, inputs: seq<Input>): Slime
    decreases |inputs|
  {
    if inputs == [] then s else Run(c, Step(c, s, inputs[0]), inputs[1..])
  }

  /** Appending events other than `DeathTrigger` leaves the explosion count alone. */
  lemma CountAfterAppend(log: seq<Event>, extra: seq<Event>)
    requires DeathTrigger !in extra
    ensures Count(log + extra, DeathTrigger) == Count(log, DeathTrigger)
  {
    CountConcat(log, extra, DeathTrigger);
  }

  /** An explosion adds exactly one `DeathTrigger`. */
  lemma ExplodeCounts(c: Config, s: Slime, inBlast: bool)
    ensures Count(ExplodeSlime(c, s, inBlast).log, DeathTrigger) == Count(s.log, DeathTrigger) + 1
  {
    var extra := if inBlast then [DamagePlayer(c.explodeDamage)] else [];
    CountConcat(s.log + extra, [DeathTrigger], DeathTrigger);
    CountAfterAppend(s.log, extra);
  }

  lemma TickKeepsValid(c: Config, s: Slime, f: Facts, inBlast: bool)
    requires Valid(c, s)
    ensures Valid(c, Tick(c, s, f, inBlast))
  {
    var r := Tick(c, s, f, inBlast);
    if Ticks(c, s) {
      match s.state
      case Patrol =>
        if s.patrolIndex < c.patrolCount && r.nextIdleTime <= 0.0 {
          CountAfterAppend(s.log, [IdleTrigger]);
        }
      case Idle =>
      case Chase =>
        if r.state == ExplodeCountdown {
          CountAfterAppend(s.log, [AttackTrigger]);
        }
      case ExplodeCountdown =>
        if r.stateTimer <= 0.0 {
          ExplodeCounts(c, s.(moveDirection := r.moveDirection, stateTimer := r.stateTimer), inBlast);
        }
    }
  }

  lemma HitKeepsValid(c: Config, s: Slime, amount: int, inBlast: bool)
    requires Valid(c, s)
    ensures Valid(c, Hit(c, s, amount, inBlast))
  {
    if !s.isDead {
      CountAfterAppend(s.log, [Hurt]);
      if s.health - amount <= 0 {
        ExplodeCounts(c, s.(health := s.health - amount, log := s.log + [Hurt]), inBlast);
      }
    }
  }

  /** Every reachable state is Valid; in particular the slime explodes at most once. */
  lemma {:induction false} RunKeepsValid(c: Config, s: Slime, inputs: seq<Input>)
    requires Valid(c, s)
    ensures Valid(c, Run(c, s, inputs))
    ensures Count(Run(c, s, inputs).log, DeathTrigger) <= 1
    decreases |inputs|
  {
    if inputs != [] {
      match inputs[0] {
        case Frame(f, inBlast) => TickKeepsValid(c, s, f, inBlast);
        case TakeDamage(amount, inBlast) => HitKeepsValid(c, s, amount, inBlast);
      }
      RunKeepsValid(c, Step(c, s, inputs[0]), inputs[1..]);
    }
  }

  /** After the explosion nothing changes: ticks return at the guard, hits are ignored. */
  lemma {:induction false} DeadIsFrozen(c: Config, s: Slime, inputs: seq<Input>)
    requires s.isDead
    ensures Run(c, s, inputs) == s
    decreases |inputs|
  {
    if inputs != [] {
      DeadIsFrozen(c, Step(c, s, inputs[0]), inputs[1..]);
    }
  }

  /** Once the countdown has started the slime stays in it, whatever happens. */
  lemma {:induction false} CountdownNeverCancelled(c: Config, s: Slime, inputs: seq<Input>)
    requires s.state == ExplodeCountdown
    ensures Run(c, s, inputs).state == ExplodeCountdown
    decreases |inputs|
  {
    if inputs != [] {
      CountdownNeverCancelled(c, Step(c, s, inputs[0]), inputs[1..]);
    }
  }

  predicate FramesOnly(inputs: seq<Input>)
  {
    forall i :: 0 <= i < |inputs| ==> inputs[i].Frame?
  }

  /** Total frame time of a sequence of frames. */
  function SumDt(inputs: seq<Input>): real
    requires FramesOnly(inputs)
    decreases |inputs|
  {
    if inputs == [] then 0.0 else inputs[0].f.dt + SumDt(inputs[1..])
  }

  /** Over frames alone, a ticking slime in the countdown is either exploded, or its timer
      has gone down by exactly the time elapsed and is still positive; so once the
      frames add up to the timer, it has exploded. */
  lemma {:induction false} CountdownExplodesInTime(c: Config, s: Slime, inputs: seq<Input>)
    requires s.state == ExplodeCountdown && Ticks(c, s) && FramesOnly(inputs)
    ensures var r := Run(c, s, inputs);
      !r.isDead ==> r.stateTimer == s.stateTimer - SumDt(inputs)
    ensures inputs != [] && SumDt(inputs) >= s.stateTimer ==> Run(c, s, inputs).isDead
    decreases |inputs|
  {
    if inputs != [] {
      var s1 := Step(c, s, inputs[0]);
      assert FramesOnly(inputs[1..]) by {
        forall i | 0 <= i < |inputs[1..]| ensures inputs[1..][i].Frame? {
          assert inputs[1..][i] == inputs[i + 1];
        }
      }
      if s1.isDead {
        DeadIsFrozen(c, s1, inputs[1..]);
      } else {
        assert s1.stateTimer == s.stateTimer - inputs[0].f.dt > 0.0;
        CountdownExplodesInTime(c, s1, inputs[1..]);
      }
    }
  }

  class Controller {
    const cfg: Config
    const moveSpeed: real
    var state: State
    var isDead: bool
    var currentHealth: int
    var patrolIndex: nat
    var stateTimer: real
    var nextIdleTime: real
    var moveDirection: real
    ghost var log: seq<Event>

    ghost function Snapshot(): Slime
      reads this
    {
      Slime(state, isDead, currentHealth, patrolIndex, stateTimer, nextIdleTime, moveDirection, log)
    }

    /** Field initialisers followed by `Start`; `roll` is the first idle interval drawn. */
    constructor (cfg: Config, moveSpeed: real, roll: real)
      ensures this.cfg == cfg && this.moveSpeed == moveSpeed && Snapshot() == Initial(cfg, roll)
    {
      this.cfg := cfg;
      this.moveSpeed := moveSpeed;
      state := Patrol;
      isDead := false;
      patrolIndex := 0;
      stateTimer := 0.0;
      moveDirection := 0.0;
      log := [];
      currentHealth := cfg.maxHealth;
      nextIdleTime := roll;
    }

    method Update(f: Facts, inBlast: bool)
      modifies this
      ensures Snapshot() == Tick(cfg, old(Snapshot()), f, inBlast)
    {
      if isDead || !cfg.hasPlayer || cfg.patrolCount < 2 {
        return;
      }
      match state {
        case Patrol => PatrolUpdate(f);
        case Idle => IdleUpdate(f);
        case Chase => ChaseUpdate(f);
        case ExplodeCountdown => ExplodeCountdownUpdate(f, inBlast);
      }
    }

    /** `FixedUpdate`: the horizontal velocity set this physics step, if any. */
    method FixedUpdate() returns (vx: Option<real>)
      ensures vx.Some? <==> !isDead && state != Idle
      ensures vx.Some? ==> vx.value == moveDirection * moveSpeed
    {
      if isDead {
        return None;
      }
      if state == Patrol || state == Chase || state == ExplodeCountdown {
        return Some(moveDirection * moveSpeed);
      }
      return None;
    }

    method PatrolUpdate(f: Facts)
      requires state == Patrol
      modifies this
      ensures Snapshot() == PatrolTick(cfg, old(Snapshot()), f)
    {
      if patrolIndex >= cfg.patrolCount {
        return;
      }
      moveDirection := Sign(f.waypointDx);
      if Abs(f.waypointDx) < WaypointReach {
        patrolIndex := NextWaypoint(patrolIndex, cfg.patrolCount);
      }
      nextIdleTime := nextIdleTime - f.dt;
      if nextIdleTime <= 0.0 {
        EnterIdle();
        return;
      }
      if f.dist <= cfg.chaseRange {
        EnterChase();
      }
    }

    method IdleUpdate(f: Facts)
      requires state == Idle
      modifies this
      ensures Snapshot() == IdleTick(cfg, old(Snapshot()), f)
    {
      moveDirection := 0.0;
      if f.dist <= cfg.chaseRange {
        EnterChase();
        return;
      }
      stateTimer := stateTimer - f.dt;
      if stateTimer <= 0.0 {
        EnterPatrol(f.roll);
      }
    }

    method ChaseUpdate(f: Facts)
      requires state == Chase
      modifies this
      ensures Snapshot() == ChaseTick(cfg, old(Snapshot()), f)
    {
      moveDirection := Sign(f.playerDx);
      if f.dist <= cfg.explodeRange {
        EnterExplodeCountdown();
      }
    }

    method ExplodeCountdownUpdate(f: Facts, inBlast: bool)
      requires state == ExplodeCountdown
      modifies this
      ensures Snapshot() == CountdownTick(cfg, old(Snapshot()), f, inBlast)
    {
      moveDirection := Sign(f.playerDx);
      stateTimer := stateTimer - f.dt;
      if stateTimer <= 0.0 {
        Explode(inBlast);
      }
    }

    method EnterPatrol(roll: real)
      modifies this
      ensures Snapshot() == ToPatrol(old(Snapshot()), roll)
    {
      nextIdleTime := roll;
      state := Patrol;
    }

    method EnterIdle()
      modifies this
      ensures Snapshot() == ToIdle(cfg, old(Snapshot()))
    {
      stateTimer := cfg.idleDuration;
      log := log + [IdleTrigger];
      state := Idle;
    }

    method EnterChase()
      modifies this
      ensures Snapshot() == ToChase(old(Snapshot()))
    {
      state := Chase;
    }

    method EnterExplodeCountdown()
      modifies this
      ensures Snapshot() == ToCountdown(cfg, old(Snapshot()))
    {
      stateTimer := cfg.explodeCountdown;
      log := log + [AttackTrigger];
      state := ExplodeCountdown;
    }

    method Explode(inBlast: bool)
      modifies this
      ensures Snapshot() == ExplodeSlime(cfg, old(Snapshot()), inBlast)
    {
      if inBlast {
        log := log + [DamagePlayer(cfg.explodeDamage)];
      }
      log := log + [DeathTrigger];
      isDead := true;
    }

    method TakeDamage(amount: int, inBlast: bool)
      modifies this
      ensures Snapshot() == Hit(cfg, old(Snapshot()), amount, inBlast)
    {
      if isDead {
        return;
      }
      currentHealth := currentHealth - amount;
      log := log + [Hurt];
      if currentHealth <= 0 {
        Explode(inBlast);
      }
    }
  }
}
