/** The golem boss's controller (Assets/GolemBossAI.cs). Only Chase has per-frame logic:
    in melee range with the melee ready it starts `MeleeCoroutine`, whose completion sets
    Chase without looking at the state. `BulletHellSequence` slams, runs to the waypoint
    farther from the player and fires until hit; nothing in the class starts it. A hit
    during the bullet hell returns to Chase; a fatal hit enters Death at once. */
module GolemBossAI {
  import opened Common

  datatype State = Chase | MeleeAttack | BulletHell | Death

  /** Animator triggers, player stun calls and bullet spawns. */
  datatype Event = Melee | SlamGround | StunPlayer | ReleasePlayer | FireBullet | SpawnBullet | Hurt | DeathTrigger

  datatype Config = Config(maxHealth: int, meleeRange: real)

  /** The run loop stops once the boss is this close to its waypoint. */
  const ArrivalDistance: real := 0.3

  /** Where a suspended `BulletHellSequence` stands; `stunned` records whether the player
      had a `PlayerStats` to stun, `target` the chosen waypoint. */
  datatype HellStep =
    | SlamWait(stunned: bool)
    | RunToWaypoint(stunned: bool, target: nat)
    | FireWait

  datatype Boss = Boss(
    state: State,
    health: int,
    canMelee: bool,
    meleePending: bool,
    untouchable: bool,
    hell: Option<HellStep>,
    log: seq<Event>)

  /** The state after `Start`. */
  function Initial(c: Config): Boss
  {
    Boss(Chase, c.maxHealth, true, false, false, None, [])
  }

  predicate Valid(b: Boss)
  {
    (b.meleePending <==> !b.canMelee) &&
    (b.state == MeleeAttack ==> b.meleePending) &&
    (b.state == BulletHell ==> b.hell.Some?) &&
    (b.state == Death ==> b.health <= 0)
  }

  /** `Update` with `ChaseUpdate`; the chase velocity is physics. */
  function Tick(c: Config, b: Boss, dist: real): (r: Boss)
    // only Chase has per-frame logic; Death, MeleeAttack and BulletHell do nothing
    ensures b.state != Chase ==> r == b
    ensures r != b <==> b.state == Chase && dist <= c.meleeRange && b.canMelee
    ensures r != b ==>
      r == b.(state := MeleeAttack, canMelee := false, meleePending := true, log := b.log + [Melee])
    ensures Valid(b) ==> Valid(r)
  {
    if b.state == Chase && dist <= c.meleeRange && b.canMelee then
      b.(state := MeleeAttack, canMelee := false, meleePending := true, log := b.log + [Melee])
    else b
  }

  /** `MeleeCoroutine` after its cooldown: the melee is ready again and the state is Chase,
      whatever it was. */
  function MeleeDone(b: Boss): (r: Boss)
    requires b.meleePending
    ensures r.state == Chase && r.canMelee && !r.meleePending
    ensures r.health == b.health && r.hell == b.hell && r.log == b.log
    ensures Valid(b) ==> Valid(r)
  {
    b.(canMelee := true, meleePending := false, state := Chase)
  }

  /** `TakeDamage(amount)`; a fatal hit runs `DieRoutine` up to its wait. */
  function Hit(b: Boss, amount: int): (r: Boss)
    ensures b.state == Death ==> r == b
    ensures b.state != Death ==> r.health == b.health - amount
    ensures b.state != Death ==>
      r.state == (if r.health <= 0 then Death else if b.state == BulletHell then Chase else b.state)
    ensures b.state != Death ==>
      r.log == b.log + [Hurt] + (if r.health <= 0 then [DeathTrigger] else [])
    ensures r.canMelee == b.canMelee && r.meleePending == b.meleePending && r.hell == b.hell
    ensures Valid(b) ==> Valid(r)
  {
    if b.state == Death then b
    else
      var h := b.health - amount;
      var s := if b.state == BulletHell then Chase else b.state;
      if h <= 0 then b.(health := h, state := Death, log := b.log + [Hurt] + [DeathTrigger])
      else b.(health := h, state := s, log := b.log + [Hurt])
  }

  /** The waypoint `BulletHellSequence` runs to, given each waypoint's distance from the
      player: the farther one, and index 1 on a tie. */
  function FartherWaypoint(d0: real, d1: real): (i: nat)
    ensures i == 0 || i == 1
    ensures (if i == 0 then d0 else d1) >= (if i == 0 then d1 else d0)
    ensures d0 == d1 ==> i == 1
  {
    if d0 > d1 then 0 else 1
  }

  /** `BulletHellSequence` up to its first wait. */
  function StartHell(b: Boss, stunned: bool): (r: Boss)
    ensures r.state == BulletHell && r.hell == Some(SlamWait(stunned))
    ensures r.log == b.log + [SlamGround] + (if stunned then [StunPlayer] else [])
    ensures r.health == b.health && r.canMelee == b.canMelee && r.meleePending == b.meleePending
    ensures Valid(b) ==> Valid(r)
  {
    b.(state := BulletHell, hell := Some(SlamWait(stunned)),
       log := b.log + [SlamGround] + (if stunned then [StunPlayer] else []))
  }

  /** The sequence after its run loop: the layer is restored, the player released, and
      the fire loop entered if the state is still BulletHell, or the sequence ends in Chase. */
  function AfterRun(b: Boss, stunned: bool): (r: Boss)
    ensures !r.untouchable
    ensures r.log == b.log + (if stunned then [ReleasePlayer] else [])
    ensures b.state == BulletHell ==> r.state == BulletHell && r.hell == Some(FireWait)
    ensures b.state != BulletHell ==> r.state == Chase && r.hell == None
    ensures r.health == b.health && r.canMelee == b.canMelee && r.meleePending == b.meleePending
  {
    var b' := b.(untouchable := false, log := b.log + (if stunned then [ReleasePlayer] else []));
    if b.state == BulletHell then b'.(hell := Some(FireWait))
    else b'.(state := Chase, hell := None)
  }

  /** After `detectDuration`: the boss turns untouchable and, with exactly two waypoints,
      runs to the one `FartherWaypoint` picks; `targetDist` is its distance to that waypoint. */
  function AfterSlam(b: Boss, waypointCount: nat, d0: real, d1: real, targetDist: real): (r: Boss)
    requires b.hell.Some? && b.hell.value.SlamWait?
    ensures waypointCount == 2 && targetDist > ArrivalDistance ==>
      r == b.(untouchable := true,
              hell := Some(RunToWaypoint(b.hell.value.stunned, FartherWaypoint(d0, d1))))
    ensures !(waypointCount == 2 && targetDist > ArrivalDistance) ==>
      r == AfterRun(b, b.hell.value.stunned)
    ensures Valid(b) ==> Valid(r)
  {
    var stunned := b.hell.value.stunned;
    if waypointCount == 2 && targetDist > ArrivalDistance then
      b.(untouchable := true, hell := Some(RunToWaypoint(stunned, FartherWaypoint(d0, d1))))
    else AfterRun(b, stunned)
  }

  /** One frame of the run loop. */
  function AfterRunFrame(b: Boss, targetDist: real): (r: Boss)
    requires b.hell.Some? && b.hell.value.RunToWaypoint?
    ensures targetDist > ArrivalDistance ==> r == b
    ensures targetDist <= ArrivalDistance ==> r == AfterRun(b, b.hell.value.stunned)
    ensures Valid(b) ==> Valid(r)
  {
    if targetDist > ArrivalDistance then b else AfterRun(b, b.hell.value.stunned)
  }

  /** One turn of the fire loop after `bulletInterval`; `canSpawn` says whether the bullet
      prefab and spawn point are set. */
  function AfterBulletInterval(b: Boss, canSpawn: bool): (r: Boss)
    requires b.hell == Some(FireWait)
    // a bullet is fired only while the state is still BulletHell
    ensures b.state == BulletHell ==>
      r == b.(log := b.log + [FireBullet] + (if canSpawn then [SpawnBullet] else []))
    // otherwise the loop breaks and the sequence ends in Chase
    ensures b.state != BulletHell ==> r == b.(state := Chase, hell := None)
    ensures Valid(b) ==> Valid(r)
  {
    if b.state != BulletHell then b.(state := Chase, hell := None)
    else b.(log := b.log + [FireBullet] + (if canSpawn then [SpawnBullet] else []))
  }

  /** The class's entry points (`Update`, `TakeDamage`) and the resumptions of the
      coroutines they start, each only when that coroutine is suspended. */
  datatype Input =
    | Frame(dist: real)
    | TakeDamage(amount: int)
    | MeleeCooldownOver
    | SlamOver(waypointCount: nat, d0: real, d1: real, targetDist: real)
    | RunFrame(targetDist: real)
    | BulletIntervalOver(canSpawn: bool)

  function Step(c: Config, b: Boss, i: Input): Boss
  {
    match i
    case Frame(dist) => Tick(c, b, dist)
    case TakeDamage(amount) => Hit(b, amount)
    case MeleeCooldownOver => if b.meleePending then MeleeDone(b) else b
    case SlamOver(n, d0, d1, t) =>
      if b.hell.Some? && b.hell.value.SlamWait? then AfterSlam(b, n, d0, d1, t) else b
    case RunFrame(t) => if b.hell.Some? && b.hell.value.RunToWaypoint? then AfterRunFrame(b, t) else b
    case BulletIntervalOver(s) => if b.hell == Some(FireWait) then AfterBulletInterval(b, s) else b
  }

  function Run(c: Config, b: Boss, inputs: seq<Input>): Boss
    decreases |inputs|
  {
    if inputs == [] then b else Run(c, Step(c, b, inputs[0]), inputs[1..])
  }

  /** Every reachable state is Valid: the melee flag and the melee coroutine agree, the
      bullet hell state has its sequence running, and Death has no health left. */
  lemma {:induction false} RunKeepsValid(c: Config, b: Boss, inputs: seq<Input>)
    requires Valid(b)
    ensures Valid(Run(c, b, inputs))
    decreases |inputs|
  {
    if inputs != [] {
      RunKeepsValid(c, Step(c, b, inputs[0]), inputs[1..]);
    }
  }

  /** Since no entry point starts `BulletHellSequence`, a boss not already in one never
      enters BulletHell and never fires. */
  lemma {:induction false} BulletHellNeverStarts(c: Config, b: Boss, inputs: seq<Input>)
    requires b.state != BulletHell && b.hell.None?
    ensures Run(c, b, inputs).state != BulletHell && Run(c, b, inputs).hell.None?
    ensures |Run(c, b, inputs).log| >= |b.log| && Run(c, b, inputs).log[..|b.log|] == b.log
    ensures FireBullet !in Run(c, b, inputs).log[|b.log|..]
    decreases |inputs|
  {
    if inputs != [] {
      var b' := Step(c, b, inputs[0]);
      BulletHellNeverStarts(c, b', inputs[1..]);
      var e := Run(c, b, inputs).log;
      assert e[|b.log|..] == b'.log[|b.log|..] + e[|b'.log|..];
      assert FireBullet !in b'.log[|b.log|..];
    }
  }

  /** A dead boss whose melee cooldown ends is put back in Chase with no health left. */
  lemma MeleeCompletionRevivesDeadBoss(c: Config)
    requires c.maxHealth > 0 && c.meleeRange >= 0.0
    ensures Run(c, Initial(c), [Frame(0.0), TakeDamage(c.maxHealth)]).state == Death
    ensures Run(c, Initial(c), [Frame(0.0), TakeDamage(c.maxHealth), MeleeCooldownOver]).state == Chase
    ensures Run(c, Initial(c), [Frame(0.0), TakeDamage(c.maxHealth), MeleeCooldownOver]).health == 0
  {
    var b1 := Step(c, Initial(c), Frame(0.0));
    var b2 := Step(c, b1, TakeDamage(c.maxHealth));
    assert Run(c, Initial(c), [Frame(0.0), TakeDamage(c.maxHealth)]) == Run(c, b2, []);
    assert Run(c, Initial(c), [Frame(0.0), TakeDamage(c.maxHealth), MeleeCooldownOver])
        == Run(c, b2, [MeleeCooldownOver]);
  }

  class Controller {
    const cfg: Config
    var state: State
    var currentHealth: int
    var canMelee: bool
    /** A `MeleeCoroutine` is waiting for its cooldown. */
    var meleePending: bool
    /** The game object is on the "Untouchable" layer. */
    var untouchable: bool
    var hell: Option<HellStep>
    ghost var log: seq<Event>

    ghost function Snapshot(): Boss
      reads this
    {
      Boss(state, currentHealth, canMelee, meleePending, untouchable, hell, log)
    }

    /** Field initialisers followed by `Start`. */
    constructor (cfg: Config)
      ensures this.cfg == cfg && Snapshot() == Initial(cfg)
    {
      this.cfg := cfg;
      state := Chase;
      canMelee := true;
      meleePending := false;
      untouchable := false;
      hell := None;
      currentHealth := cfg.maxHealth;
      log := [];
    }

    method Update(dist: real)
      modifies this
      ensures Snapshot() == Tick(cfg, old(Snapshot()), dist)
    {
      if state == Death {
        return;
      }
      if state == Chase {
        ChaseUpdate(dist);
      }
    }

    method ChaseUpdate(dist: real)
      requires state == Chase
      modifies this
      ensures Snapshot() == Tick(cfg, old(Snapshot()), dist)
    {
      if dist <= cfg.meleeRange && canMelee {
        MeleeCoroutine();
        return;
      }
    }

    /** `MeleeCoroutine` up to its wait. */
    method MeleeCoroutine()
      modifies this
      ensures Snapshot() ==
        old(Snapshot()).(state := MeleeAttack, canMelee := false, meleePending := true,
                         log := old(log) + [Melee])
    {
      state := MeleeAttack;
      canMelee := false;
      meleePending := true;
      log := log + [Melee];
    }

    method ResumeMelee()
      requires meleePending
      modifies this
      ensures Snapshot() == MeleeDone(old(Snapshot()))
    {
      meleePending := false;
      canMelee := true;
      state := Chase;
    }

    /** `BulletHellSequence` up to its first wait; `stunned` is whether the player has a
        `PlayerStats` component. */
    method BulletHellSequence(stunned: bool)
      modifies this
      ensures Snapshot() == StartHell(old(Snapshot()), stunned)
    {
      state := BulletHell;
      log := log + [SlamGround];
      if stunned {
        log := log + [StunPlayer];
      }
      hell := Some(SlamWait(stunned));
    }

    method ResumeSlam(waypointCount: nat, d0: real, d1: real, targetDist: real)
      requires hell.Some? && hell.value.SlamWait?
      modifies this
      ensures Snapshot() == AfterSlam(old(Snapshot()), waypointCount, d0, d1, targetDist)
    {
      var stunned := hell.value.stunned;
      untouchable := true;
      if waypointCount == 2 {
        var target := FartherWaypoint(d0, d1);
        if targetDist > ArrivalDistance {
          hell := Some(RunToWaypoint(stunned, target));
          return;
        }
      }
      FinishRun(stunned);
    }

    method ResumeRun(targetDist: real)
      requires hell.Some? && hell.value.RunToWaypoint?
      modifies this
      ensures Snapshot() == AfterRunFrame(old(Snapshot()), targetDist)
    {
      if targetDist > ArrivalDistance {
        return;
      }
      FinishRun(hell.value.stunned);
    }

    /** The code between the run loop and the first wait of the fire loop. */
    method FinishRun(stunned: bool)
      modifies this
      ensures Snapshot() == AfterRun(old(Snapshot()), stunned)
    {
      untouchable := false;
      if stunned {
        log := log + [ReleasePlayer];
      }
      if state == BulletHell {
        hell := Some(FireWait);
      } else {
        state := Chase;
        hell := None;
      }
    }

    method ResumeFire(canSpawn: bool)
      requires hell == Some(FireWait)
      modifies this
      ensures Snapshot() == AfterBulletInterval(old(Snapshot()), canSpawn)
    {
      if state != BulletHell {
        state := Chase;
        hell := None;
        return;
      }
      log := log + [FireBullet];
      if canSpawn {
        log := log + [SpawnBullet];
      }
    }

    method TakeDamage(amount: int)
      modifies this
      ensures Snapshot() == Hit(old(Snapshot()), amount)
    {
      if state == Death {
        return;
      }
      currentHealth := currentHealth - amount;
      log := log + [Hurt];
      if state == BulletHell {
        state := Chase;
      }
      if currentHealth <= 0 {
        DieRoutine();
      }
    }

    /** `DieRoutine` up to its wait; disabling physics and the collider is not modelled. */
    method DieRoutine()
      modifies this
      ensures Snapshot() == old(Snapshot()).(state := Death, log := old(log) + [DeathTrigger])
    {
      state := Death;
      log := log + [DeathTrigger];
    }
  }
}
