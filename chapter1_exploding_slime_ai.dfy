/** The chapter-one exploding slime (Assets/Chapter1EnemiesPrefabs/ExplodingSlime/ExplodingSlimeAI.cs).
    Same patrol, idle, chase and countdown as the older slime, with three differences: a
    slime without two waypoints starts in Chase (and then never ticks), `startChasing`
    sends Patrol straight to Chase, and a fatal hit does not explode at once but starts
    a `Death` routine that explodes two seconds later, while the slime is not yet dead. */
module ChapterOneExplodingSlimeAI {
  import opened Common

  datatype State = Patrol | Idle | Chase | ExplodeCountdown

  /** Animator triggers (`Death2` is the delayed death's own), and `DamagePlayer` for an
      explosion's damage to a player in its radius. */
  datatype Event = IdleTrigger | AttackTrigger | Hurt | Death2Trigger | DeathTrigger | DamagePlayer(amount: int)

  /** Distance under which a patrol waypoint counts as reached. */
  const WaypointReach: real := 0.5

  /** `hasPlayer` says whether a player was assigned or found by tag at `Start`. */
  datatype Config = Config(
    maxHealth: int,
    patrolSpeed: real,
    chaseSpeed: real,
    startChasing: bool,
    idleDuration: real,
    chaseRange: real,
    explodeRange: real,
    explodeCountdown: real,
    explodeDamage: int,
    patrolCount: nat,
    hasPlayer: bool)

  /** `pendingDeaths` counts the `Death` routines waiting out their two seconds. */
  datatype Slime = Slime(
    state: State,
    isDead: bool,
    health: int,
    patrolIndex: nat,
    stateTimer: real,
    nextIdleTime: real,
    moveDirection: real,
    pendingDeaths: nat,
    log: seq<Event>)

  /** The state after `Start`: fewer than two waypoints puts the slime in Chase; `roll` is
      the first `PickNextIdleTime` draw. */
  function Initial(c: Config, roll: real): (r: Slime)
    ensures r.state == (if c.patrolCount < 2 then Chase else Patrol)
    ensures !r.isDead && r.health == c.maxHealth && r.pendingDeaths == 0 && r.log == []
  {
    Slime(if c.patrolCount < 2 then Chase else Patrol, false, c.maxHealth, 0, 0.0, roll, 0.0, 0, [])
  }

  /** The slime is dead exactly when it has exploded, and explosions never exceed one plus
      the fatal hits whose delayed death has already gone off. */
  predicate Valid(c: Config, s: Slime)
  {
    (s.isDead <==> Count(s.log, DeathTrigger) > 0) &&
    Count(s.log, DeathTrigger) + s.pendingDeaths <= Count(s.log, Death2Trigger) + 1 &&
    s.pendingDeaths <= Count(s.log, Death2Trigger) &&
    (c.patrolCount >= 2 ==> s.patrolIndex < c.patrolCount)
  }

  lemma InitialValid(c: Config, roll: real)
    ensures Valid(c, Initial(c, roll))
  {
  }

  /** `Update` runs the state's tick only for a live slime with a player and at least two
      waypoints. */
  predicate Ticks(c: Config, s: Slime)
  {
    !s.isDead && c.hasPlayer && c.patrolCount >= 2
  }

  function ToPatrol(s: Slime, roll: real): Slime
  {
    s.(nextIdleTime := roll, state := Patrol)
  }

  function ToIdle(c: Config, s: Slime): Slime
  {
    s.(stateTimer := c.idleDuration, state := Idle, log := s.log + [IdleTrigger])
  }

  function ToChase(s: Slime): Slime
  {
    s.(state := Chase)
  }

  function ToCountdown(c: Config, s: Slime): Slime
  {
    s.(stateTimer := c.explodeCountdown, state := ExplodeCountdown, log := s.log + [AttackTrigger])
  }

  /** `Explode` up to its wait: damage to a player in the radius (`inBlast`), and the slime
      is dead. It has no guard of its own. Hiding the sprite after the wait, the knockback
      and `Destroy` are not modelled. */
  function ExplodeSlime(c: Config, s: Slime, inBlast: bool): (r: Slime)
    ensures r.isDead && r.state == s.state && r.health == s.health && r.pendingDeaths == s.pendingDeaths
    ensures r.log == s.log + (if inBlast then [DamagePlayer(c.explodeDamage)] else []) + [DeathTrigger]
  {
    s.(log := s.log + (if inBlast then [DamagePlayer(c.explodeDamage)] else []) + [DeathTrigger],
       isDead := true)
  }

  /** `PatrolUpdate`. With `startChasing` set, Patrol turns into Chase before any patrol
      work. Otherwise: head for the waypoint, step on when it is reached, count down to an
      idle stop, and only then look for the player. An index outside the waypoints would
      throw when read, so that frame changes nothing. */
  function PatrolTick(c: Config, s: Slime, f: Facts): (r: Slime)
    requires s.state == Patrol
    ensures c.startChasing ==> r == ToChase(s)
    ensures !c.startChasing && s.patrolIndex >= c.patrolCount ==> r == s
    ensures !c.startChasing && s.patrolIndex < c.patrolCount ==>
      r.moveDirection == Sign(f.waypointDx) &&
      r.patrolIndex == (if Abs(f.waypointDx) < WaypointReach
                        then NextWaypoint(s.patrolIndex, c.patrolCount) else s.patrolIndex) &&
      r.nextIdleTime == s.nextIdleTime - f.dt &&
      (r.nextIdleTime <= 0.0 ==> r.state == Idle && r.stateTimer == c.idleDuration) &&
      (r.nextIdleTime > 0.0 ==> (r.state == Chase <==> f.dist <= c.chaseRange) && r.state != Idle)
    ensures r.isDead == s.isDead && r.health == s.health && r.pendingDeaths == s.pendingDeaths
    ensures r.log == s.log || r.log == s.log + [IdleTrigger]
    ensures r.state != ExplodeCountdown
  {
    if c.startChasing then ToChase(s)
    else if s.patrolIndex >= c.patrolCount then s
    else
      var s1 := s.(moveDirection := Sign(f.waypointDx));
      var s2 := if Abs(f.waypointDx) < WaypointReach
        then s1.(patrolIndex := NextWaypoint(s.patrolIndex, c.patrolCount)) else s1;
      var s3 := s2.(nextIdleTime := s2.nextIdleTime - f.dt);
      if s3.nextIdleTime <= 0.0 then ToIdle(c, s3)
      else if f.dist <= c.chaseRange then ToChase(s3)
      else s3
  }

  /** `IdleUpdate`: stand still; a player in range interrupts the stop. */
  function IdleTick(c: Config, s: Slime, f: Facts): (r: Slime)
    requires s.state == Idle
    ensures r.moveDirection == 0.0
    ensures f.dist <= c.chaseRange ==> r == ToChase(s.(moveDirection := 0.0))
    ensures f.dist > c.chaseRange && s.stateTimer - f.dt <= 0.0 ==>
      r == ToPatrol(s.(moveDirection := 0.0, stateTimer := s.stateTimer - f.dt), f.roll)
    ensures f.dist > c.chaseRange && s.stateTimer - f.dt > 0.0 ==>
      r == s.(moveDirection := 0.0, stateTimer := s.stateTimer - f.dt)
  {
    var s1 := s.(moveDirection := 0.0);
    if f.dist <= c.chaseRange then ToChase(s1)
    else
      var s2 := s1.(stateTimer := s1.stateTimer - f.dt);
      if s2.stateTimer <= 0.0 then ToPatrol(s2, f.roll) else s2
  }

  /** `ChaseUpdate`: no lose-target exit; the only way out is the countdown. The explosion
      sound started on entry is not modelled. */
  function ChaseTick(c: Config, s: Slime, f: Facts): (r: Slime)
    requires s.state == Chase
    ensures r.moveDirection == Sign(f.playerDx)
    ensures r.state == (if f.dist <= c.explodeRange then ExplodeCountdown else Chase)
    ensures r.state == ExplodeCountdown ==>
      r.stateTimer == c.explodeCountdown && r.log == s.log + [AttackTrigger]
    ensures r.state == Chase ==> r == s.(moveDirection := Sign(f.playerDx))
    ensures r.isDead == s.isDead && r.health == s.health && r.pendingDeaths == s.pendingDeaths
  {
    var s1 := s.(moveDirection := Sign(f.playerDx));
    if f.dist <= c.explodeRange then ToCountdown(c, s1) else s1
  }

  /** `ExplodeCountdownUpdate`: keep chasing; when the timer runs out `Explode` starts, and
      it marks the slime dead before its first wait, so the next frame no longer ticks. */
  function CountdownTick(c: Config, s: Slime, f: Facts, inBlast: bool): (r: Slime)
    requires s.state == ExplodeCountdown
    ensures r.state == ExplodeCountdown
    ensures r.moveDirection == Sign(f.playerDx) && r.stateTimer == s.stateTimer - f.dt
    ensures r.stateTimer <= 0.0 ==> r == ExplodeSlime(c, s.(moveDirection := r.moveDirection,
                                                            stateTimer := r.stateTimer), inBlast)
    ensures r.stateTimer > 0.0 ==> r.isDead == s.isDead && r.log == s.log
    ensures r.pendingDeaths == s.pendingDeaths && r.health == s.health
  {
    var s1 := s.(moveDirection := Sign(f.playerDx), stateTimer := s.stateTimer - f.dt);
    if s1.stateTimer <= 0.0 then ExplodeSlime(c, s1, inBlast) else s1
  }

  /** `Update`; `inBlast` says whether the player is in the explosion radius this frame. */
  function Tick(c: Config, s: Slime, f: Facts, inBlast: bool): (r: Slime)
    ensures !Ticks(c, s) ==> r == s
    ensures Ticks(c, s) && s.state == Patrol ==> r == PatrolTick(c, s, f)
    ensures Ticks(c, s) && s.state == Idle ==> r == IdleTick(c, s, f)
    ensures Ticks(c, s) && s.state == Chase ==> r == ChaseTick(c, s, f)
    ensures Ticks(c, s) && s.state == ExplodeCountdown ==> r == CountdownTick(c, s, f, inBlast)
    ensures r.health == s.health && r.pendingDeaths == s.pendingDeaths
    ensures s.state == ExplodeCountdown ==> r.state == ExplodeCountdown
  {
    if !Ticks(c, s) then s
    else
      match s.state
      case Patrol => PatrolTick(c, s, f)
      case Idle => IdleTick(c, s, f)
      case Chase => ChaseTick(c, s, f)
      case ExplodeCountdown => CountdownTick(c, s, f, inBlast)
  }

  /** `FixedUpdate`: the horizontal speed is `chaseSpeed` while chasing or counting down and
      `patrolSpeed` otherwise, Idle included. */
  function Speed(c: Config, state: State): (v: real)
    ensures state in {Chase, ExplodeCountdown} ==> v == c.chaseSpeed
    ensures state in {Patrol, Idle} ==> v == c.patrolSpeed
  {
    if state == Chase || state == ExplodeCountdown then c.chaseSpeed else c.patrolSpeed
  }

  /** `TakeDamage(amount)`: ignored once dead. A fatal hit only starts a `Death` routine;
      the slime stays alive, so every further hit (health stays at or below zero for
      non-negative damage) starts another one. */
  function Hit(s: Slime, amount: int): (r: Slime)
    ensures s.isDead ==> r == s
    ensures !s.isDead ==> r.health == s.health - amount && !r.isDead
    ensures !s.isDead && r.health > 0 ==> r == s.(health := r.health, log := s.log + [Hurt])
    ensures !s.isDead && r.health <= 0 ==>
      r == s.(health := r.health, pendingDeaths := s.pendingDeaths + 1, log := s.log + [Hurt, Death2Trigger])
    ensures r.state == s.state
  {
    if s.isDead then s
    else
      var s1 := s.(health := s.health - amount, log := s.log + [Hurt]);
      if s1.health <= 0 then s1.(pendingDeaths := s1.pendingDeaths + 1, log := s1.log + [Death2Trigger])
      else s1
  }

  /** A `Death` routine at the end of its two seconds: it explodes, whether or not the slime
      has exploded already. */
  function DeathDone(c: Config, s: Slime, inBlast: bool): (r: Slime)
    requires s.pendingDeaths > 0
    ensures r.isDead && r.pendingDeaths == s.pendingDeaths - 1
    ensures r.state == s.state && r.health == s.health && r.patrolIndex == s.patrolIndex
    // the explosion only appends to the log; `DeathDoneExplodes` says what
    ensures |r.log| > |s.log| && r.log[..|s.log|] == s.log
  {
    ExplodeSlime(c, s.(pendingDeaths := s.pendingDeaths - 1), inBlast)
  }

  datatype Input =
    | Frame(f: Facts, inBlast: bool)
    | TakeDamage(amount: int)
    | DeathWaitOver(inBlast: bool)

  function Step(c: Config, s: Slime, i: Input): Slime
  {
    match i
    case Frame(f, inBlast) => Tick(c, s, f, inBlast)
    case TakeDamage(amount) => Hit(s, amount)
    case DeathWaitOver(inBlast) => if s.pendingDeaths > 0 then DeathDone(c, s, inBlast) else s
  }

  function Run(c: Config, s: Slime, inputs: seq<Input>): Slime
    decreases |inputs|
  {
    if inputs == [] then s else Run(c, Step(c, s, inputs[0]), inputs[1..])
  }

  /** Appending events other than the two death triggers leaves both counts alone. */
  lemma CountsAfterAppend(log: seq<Event>, extra: seq<Event>)
    requires DeathTrigger !in extra && Death2Trigger !in extra
    ensures Count(log + extra, DeathTrigger) == Count(log, DeathTrigger)
    ensures Count(log + extra, Death2Trigger) == Count(log, Death2Trigger)
  {
    CountConcat(log, extra, DeathTrigger);
    CountConcat(log, extra, Death2Trigger);
  }

  /** An explosion adds one `DeathTrigger` and no `Death2Trigger`. */
  lemma ExplodeCounts(c: Config, s: Slime, inBlast: bool)
    ensures Count(ExplodeSlime(c, s, inBlast).log, DeathTrigger) == Count(s.log, DeathTrigger) + 1
    ensures Count(ExplodeSlime(c, s, inBlast).log, Death2Trigger) == Count(s.log, Death2Trigger)
  {
    var extra := if inBlast then [DamagePlayer(c.explodeDamage)] else [];
    CountsAfterAppend(s.log, extra);
    CountConcat(s.log + extra, [DeathTrigger], DeathTrigger);
    CountConcat(s.log + extra, [DeathTrigger], Death2Trigger);
  }

  /** The end of a death wait deals the blast damage exactly when the player is in the
      radius. */
  lemma DeathDoneDamagesInBlast(c: Config, s: Slime, inBlast: bool)
    requires s.pendingDeaths > 0
    ensures DamagePlayer(c.explodeDamage) in DeathDone(c, s, inBlast).log[|s.log|..] <==> inBlast
  {
    var tail := DeathDone(c, s, inBlast).log[|s.log|..];
    if inBlast {
      assert tail == [DamagePlayer(c.explodeDamage), DeathTrigger];
    } else {
      assert tail == [DeathTrigger];
    }
  }

  /** The end of a death wait adds exactly one death trigger and no second death trigger. */
  lemma DeathDoneExplodes(c: Config, s: Slime, inBlast: bool)
    requires s.pendingDeaths > 0
    ensures Count(DeathDone(c, s, inBlast).log, DeathTrigger) == Count(s.log, DeathTrigger) + 1
    ensures Count(DeathDone(c, s, inBlast).log, Death2Trigger) == Count(s.log, Death2Trigger)
  {
    ExplodeCounts(c, s.(pendingDeaths := s.pendingDeaths - 1), inBlast);
  }

  lemma PatrolTickKeepsValid(c: Config, s: Slime, f: Facts)
    requires Valid(c, s) && s.state == Patrol && Ticks(c, s)
    ensures Valid(c, PatrolTick(c, s, f))
  {
    var r := PatrolTick(c, s, f);
    if r.log != s.log {
      CountsAfterAppend(s.log, [IdleTrigger]);
    }
  }

  lemma ChaseTickKeepsValid(c: Config, s: Slime, f: Facts)
    requires Valid(c, s) && s.state == Chase
    ensures Valid(c, ChaseTick(c, s, f))
  {
    if ChaseTick(c, s, f).state == ExplodeCountdown {
      CountsAfterAppend(s.log, [AttackTrigger]);
    }
  }

  lemma CountdownTickKeepsValid(c: Config, s: Slime, f: Facts, inBlast: bool)
    requires Valid(c, s) && s.state == ExplodeCountdown && Ticks(c, s)
    ensures Valid(c, CountdownTick(c, s, f, inBlast))
  {
    var r := CountdownTick(c, s, f, inBlast);
    if r.stateTimer <= 0.0 {
      ExplodeCounts(c, s.(moveDirection := r.moveDirection, stateTimer := r.stateTimer), inBlast);
    }
  }

  lemma TickKeepsValid(c: Config, s: Slime, f: Facts, inBlast: bool)
    requires Valid(c, s)
    ensures Valid(c, Tick(c, s, f, inBlast))
  {
    if Ticks(c, s) {
      match s.state
      case Patrol => PatrolTickKeepsValid(c, s, f);
      case Idle =>
      case Chase => ChaseTickKeepsValid(c, s, f);
      case ExplodeCountdown => CountdownTickKeepsValid(c, s, f, inBlast);
    }
  }

  lemma HitKeepsValid(c: Config, s: Slime, amount: int)
    requires Valid(c, s)
    ensures Valid(c, Hit(s, amount))
  {
    if !s.isDead {
      CountsAfterAppend(s.log, [Hurt]);
      if s.health - amount <= 0 {
        CountConcat(s.log, [Hurt, Death2Trigger], DeathTrigger);
        CountConcat(s.log, [Hurt, Death2Trigger], Death2Trigger);
        assert [Hurt, Death2Trigger][1..] == [Death2Trigger];
      }
    }
  }

  lemma DeathDoneKeepsValid(c: Config, s: Slime, inBlast: bool)
    requires Valid(c, s) && s.pendingDeaths > 0
    ensures Valid(c, DeathDone(c, s, inBlast))
  {
    DeathDoneExplodes(c, s, inBlast);
  }

  lemma StepKeepsValid(c: Config, s: Slime, i: Input)
    requires Valid(c, s)
    ensures Valid(c, Step(c, s, i))
  {
    match i
    case Frame(f, inBlast) => TickKeepsValid(c, s, f, inBlast);
    case TakeDamage(amount) => HitKeepsValid(c, s, amount);
    case DeathWaitOver(inBlast) =>
      if s.pendingDeaths > 0 {
        DeathDoneKeepsValid(c, s, inBlast);
      }
  }

  /** Every reachable state is Valid: the slime explodes at most once more than it has
      taken fatal hits. */
  lemma {:induction false} RunKeepsValid(c: Config, s: Slime, inputs: seq<Input>)
    requires Valid(c, s)
    ensures Valid(c, Run(c, s, inputs))
    ensures Count(Run(c, s, inputs).log, DeathTrigger) <= Count(Run(c, s, inputs).log, Death2Trigger) + 1
    decreases |inputs|
  {
    if inputs != [] {
      StepKeepsValid(c, s, inputs[0]);
      RunKeepsValid(c, Step(c, s, inputs[0]), inputs[1..]);
    }
  }

  /** A slime without two waypoints starts in Chase and stays there: `Update` returns at
      its guard, and neither hits nor delayed deaths change the state. */
  lemma {:induction false} NoWaypointsStaysInChase(c: Config, s: Slime, inputs: seq<Input>)
    requires c.patrolCount < 2 && s.state == Chase
    ensures Run(c, s, inputs).state == Chase
    decreases |inputs|
  {
    if inputs != [] {
      NoWaypointsStaysInChase(c, Step(c, s, inputs[0]), inputs[1..]);
    }
  }

  /** Once the countdown has started the slime stays in it. */
  lemma {:induction false} CountdownNeverCancelled(c: Config, s: Slime, inputs: seq<Input>)
    requires s.state == ExplodeCountdown
    ensures Run(c, s, inputs).state == ExplodeCountdown
    decreases |inputs|
  {
    if inputs != [] {
      CountdownNeverCancelled(c, Step(c, s, inputs[0]), inputs[1..]);
    }
  }

  /** Two fatal hits start two `Death` routines, and the slime explodes twice, damaging a
      player in range twice. This needs `TakeDamage` to be called again during the death
      wait; the sword cannot do it once `Death` has turned off the collider and body. */
  lemma TwoFatalHitsExplodeTwice(c: Config, s: Slime, a: int, b: int)
    requires !s.isDead && s.pendingDeaths == 0 && s.health - a <= 0 && b >= 0
    ensures var r := Run(c, s, [TakeDamage(a), TakeDamage(b), DeathWaitOver(true), DeathWaitOver(true)]);
      r.isDead && r.pendingDeaths == 0 &&
      r.log == s.log + [Hurt, Death2Trigger, Hurt, Death2Trigger,
                        DamagePlayer(c.explodeDamage), DeathTrigger, DamagePlayer(c.explodeDamage), DeathTrigger]
  {
    var inputs := [TakeDamage(a), TakeDamage(b), DeathWaitOver(true), DeathWaitOver(true)];
    var s1 := Step(c, s, inputs[0]);
    var s2 := Step(c, s1, inputs[1]);
    var s3 := Step(c, s2, inputs[2]);
    var s4 := Step(c, s3, inputs[3]);
    assert s3 == ExplodeSlime(c, s2.(pendingDeaths := 1), true);
    assert s4 == ExplodeSlime(c, s3.(pendingDeaths := 0), true);
    assert inputs[1..][1..][1..][1..] == [];
    assert Run(c, s, inputs) == Run(c, s1, inputs[1..]) == Run(c, s2, inputs[1..][1..])
        == Run(c, s3, inputs[1..][1..][1..]) == Run(c, s4, []);
  }

  class Controller {
    const cfg: Config
    var state: State
    var isDead: bool
    var currentHealth: int
    var patrolIndex: nat
    var stateTimer: real
    var nextIdleTime: real
    var moveDirection: real
    var pendingDeaths: nat
    ghost var log: seq<Event>

    ghost function Snapshot(): Slime
      reads this
    {
      Slime(state, isDead, currentHealth, patrolIndex, stateTimer, nextIdleTime, moveDirection, pendingDeaths, log)
    }

    /** Field initialisers followed by `Start`; `roll` is the first idle interval drawn. */
    constructor (cfg: Config, roll: real)
      ensures this.cfg == cfg && Snapshot() == Initial(cfg, roll)
    {
      this.cfg := cfg;
      state := Patrol;
      isDead := false;
      patrolIndex := 0;
      stateTimer := 0.0;
      moveDirection := 0.0;
      pendingDeaths := 0;
      log := [];
      currentHealth := cfg.maxHealth;
      if cfg.patrolCount < 2 {
        // `Start`'s fallback, and `EnterChase`, which sets the same state
        state := Chase;
      }
      nextIdleTime := roll;
    }

    method Update(f: Facts, inBlast: bool)
      modifies this
      ensures Snapshot() == Tick(cfg, old(Snapshot()), f, inBlast)
    {
      if isDead || !cfg.hasPlayer || cfg.patrolCount < 2 {
        return;
      }
      match state {
        case Patrol => PatrolUpdate(f);
        case Idle => IdleUpdate(f);
        case Chase => ChaseUpdate(f);
        case ExplodeCountdown => ExplodeCountdownUpdate(f, inBlast);
      }
    }

    /** `FixedUpdate`: the horizontal velocity set this physics step; none once dead. */
    method FixedUpdate() returns (vx: Option<real>)
      ensures vx.None? <==> isDead
      ensures vx.Some? ==> vx.value == moveDirection * Speed(cfg, state)
    {
      if isDead {
        return None;
      }
      var speed := cfg.patrolSpeed;
      if state == Chase || state == ExplodeCountdown {
        speed := cfg.chaseSpeed;
      }
      return Some(moveDirection * speed);
    }

    method PatrolUpdate(f: Facts)
      requires state == Patrol
      modifies this
      ensures Snapshot() == PatrolTick(cfg, old(Snapshot()), f)
    {
      if cfg.startChasing {
        state := Chase;
        EnterChase();
        return;
      }
      if patrolIndex >= cfg.patrolCount {
        return;
      }
      moveDirection := Sign(f.waypointDx);
      if Abs(f.waypointDx) < WaypointReach {
        patrolIndex := NextWaypoint(patrolIndex, cfg.patrolCount);
      }
      nextIdleTime := nextIdleTime - f.dt;
      if nextIdleTime <= 0.0 {
        EnterIdle();
        return;
      }
      // the source checks `startChasing` a second time here; the check at the top has
      // already returned whenever it is set, so that branch is dead and left out
      if f.dist <= cfg.chaseRange {
        EnterChase();
      }
    }

    method IdleUpdate(f: Facts)
      requires state == Idle
      modifies this
      ensures Snapshot() == IdleTick(cfg, old(Snapshot()), f)
    {
      moveDirection := 0.0;
      if f.dist <= cfg.chaseRange {
        EnterChase();
        return;
      }
      stateTimer := stateTimer - f.dt;
      if stateTimer <= 0.0 {
        EnterPatrol(f.roll);
      }
    }

    method ChaseUpdate(f: Facts)
      requires state == Chase
      modifies this
      ensures Snapshot() == ChaseTick(cfg, old(Snapshot()), f)
    {
      moveDirection := Sign(f.playerDx);
      if f.dist <= cfg.explodeRange {
        EnterExplodeCountdown();
      }
    }

    method ExplodeCountdownUpdate(f: Facts, inBlast: bool)
      requires state == ExplodeCountdown
      modifies this
      ensures Snapshot() == CountdownTick(cfg, old(Snapshot()), f, inBlast)
    {
      moveDirection := Sign(f.playerDx);
      stateTimer := stateTimer - f.dt;
      if stateTimer <= 0.0 {
        Explode(inBlast);
      }
    }

    method EnterPatrol(roll: real)
      modifies this
      ensures Snapshot() == ToPatrol(old(Snapshot()), roll)
    {
      nextIdleTime := roll;
      state := Patrol;
    }

    method EnterIdle()
      modifies this
      ensures Snapshot() == ToIdle(cfg, old(Snapshot()))
    {
      stateTimer := cfg.idleDuration;
      log := log + [IdleTrigger];
      state := Idle;
    }

    method EnterChase()
      modifies this
      ensures Snapshot() == ToChase(old(Snapshot()))
    {
      state := Chase;
    }

    method EnterExplodeCountdown()
      modifies this
      ensures Snapshot() == ToCountdown(cfg, old(Snapshot()))
    {
      stateTimer := cfg.explodeCountdown;
      log := log + [AttackTrigger];
      state := ExplodeCountdown;
    }

    /** `Explode` up to its wait. */
    method Explode(inBlast: bool)
      modifies this
      ensures Snapshot() == ExplodeSlime(cfg, old(Snapshot()), inBlast)
    {
      if inBlast {
        log := log + [DamagePlayer(cfg.explodeDamage)];
      }
      log := log + [DeathTrigger];
      isDead := true;
    }

    /** `Death` up to its two-second wait. */
    method Death()
      modifies this
      ensures Snapshot() == old(Snapshot()).(pendingDeaths := old(pendingDeaths) + 1,
                                             log := old(log) + [Death2Trigger])
    {
      log := log + [Death2Trigger];
      pendingDeaths := pendingDeaths + 1;
    }

    /** One `Death` routine after its wait. */
    method ResumeDeath(inBlast: bool)
      requires pendingDeaths > 0
      modifies this
      ensures Snapshot() == DeathDone(cfg, old(Snapshot()), inBlast)
    {
      pendingDeaths := pendingDeaths - 1;
      Explode(inBlast);
    }

    method TakeDamage(amount: int)
      modifies this
      ensures Snapshot() == Hit(old(Snapshot()), amount)
    {
      if isDead {
        return;
      }
      currentHealth := currentHealth - amount;
      log := log + [Hurt];
      if currentHealth <= 0 {
        Death();
      }
    }
  }
}
