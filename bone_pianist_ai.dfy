/** The bone pianist (Assets/Chapter3EnemiesPrefabs/BonePianist/BonePianistAIonetimeuse.cs).
    It stands still; while the player is within `detectRange` it is in Attack and a
    `SummonSkulls` routine summons a skull at once and then every `spawnInterval`. The
    routine is kept in one handle, which every change of state stops. */
module BonePianistAI {
  import opened Common

  datatype State = Idle | Attack | Death

  /** `SkullSpawned` is a skull instantiated; the rest are animator triggers. */
  datatype Event = SkullSpawned | AttackTrigger | Hurt | DeathTrigger

  /** `canSpawn` says whether the skull prefab and the summon point are assigned;
      `hasPlayer` whether a player was assigned or found by tag at `Start`. */
  datatype Config = Config(maxHealth: int, detectRange: real, canSpawn: bool, hasPlayer: bool)

  /** `summonRoutine` is the handle, naming a routine by the number of routines started
      before it; `running` is the set of routines the scheduler still runs, and `started`
      how many were ever started. */
  datatype Pianist = Pianist(
    state: State,
    health: int,
    summonRoutine: Option<nat>,
    running: set<nat>,
    started: nat,
    log: seq<Event>)

  function Initial(c: Config): Pianist
  {
    Pianist(Idle, c.maxHealth, None, {}, 0, [])
  }

  /** At most the handle's routine runs, it runs exactly in Attack, and every routine
      named was started. */
  predicate Valid(s: Pianist)
  {
    (s.summonRoutine.Some? ==> s.summonRoutine.value < s.started) &&
    s.running <= (if s.summonRoutine.Some? then {s.summonRoutine.value} else {}) &&
    (s.state == Attack <==> s.running != {}) &&
    (s.state == Idle ==> s.summonRoutine.None?)
  }

  lemma InitialValid(c: Config)
    ensures Valid(Initial(c))
  {
  }

  /** One pass of the summon loop's body: a skull if it can be spawned, and the trigger. */
  function Summon(c: Config, s: Pianist): Pianist
  {
    s.(log := s.log + (if c.canSpawn then [SkullSpawned] else []) + [AttackTrigger])
  }

  /** `EnterAttack`: stop the handle's routine, start a new one, which summons at once. */
  function ToAttack(c: Config, s: Pianist): (r: Pianist)
    ensures r.state == Attack && r.summonRoutine == Some(s.started) && r.started == s.started + 1
    ensures r.running == (if s.summonRoutine.Some? then s.running - {s.summonRoutine.value} else s.running) + {s.started}
    ensures r.log == s.log + (if c.canSpawn then [SkullSpawned] else []) + [AttackTrigger]
    ensures r.health == s.health
  {
    var stopped := if s.summonRoutine.Some? then s.running - {s.summonRoutine.value} else s.running;
    Summon(c, s.(state := Attack, running := stopped + {s.started},
                 summonRoutine := Some(s.started), started := s.started + 1))
  }

  /** `EnterIdle`: stop the handle's routine and clear the handle. */
  function ToIdle(s: Pianist): (r: Pianist)
    ensures r.state == Idle && r.summonRoutine.None?
    ensures r.running == (if s.summonRoutine.Some? then s.running - {s.summonRoutine.value} else s.running)
    ensures r.log == s.log && r.health == s.health
  {
    if s.summonRoutine.Some? then
      s.(state := Idle, running := s.running - {s.summonRoutine.value}, summonRoutine := None)
    else s.(state := Idle)
  }

  /** `EnterDeath`: stop the handle's routine; the handle is not cleared. */
  function ToDeath(s: Pianist): (r: Pianist)
    ensures r.state == Death && r.summonRoutine == s.summonRoutine
    ensures r.running == (if s.summonRoutine.Some? then s.running - {s.summonRoutine.value} else s.running)
    ensures r.log == s.log + [DeathTrigger]
  {
    var stopped := if s.summonRoutine.Some? then s.running - {s.summonRoutine.value} else s.running;
    s.(state := Death, running := stopped, log := s.log + [DeathTrigger])
  }

  /** `Update`: Idle turns to Attack within `detectRange` and Attack back to Idle beyond it;
      Death does nothing, nor does a missing player (the distance would throw). */
  function Tick(c: Config, s: Pianist, dist: real): (r: Pianist)
    ensures s.state == Death || !c.hasPlayer ==> r == s
    ensures c.hasPlayer && s.state == Idle ==>
      r == (if dist <= c.detectRange then ToAttack(c, s) else s)
    ensures c.hasPlayer && s.state == Attack ==>
      r == (if dist > c.detectRange then ToIdle(s) else s)
    ensures Valid(s) ==> Valid(r)
  {
    if s.state == Death || !c.hasPlayer then s
    else if s.state == Idle && dist <= c.detectRange then ToAttack(c, s)
    else if s.state == Attack && dist > c.detectRange then ToIdle(s)
    else s
  }

  /** The routine `id` after its `spawnInterval` wait: it loops, summoning again, while the
      state is Attack, and ends otherwise. A routine that was stopped is never resumed. */
  function SummonResume(c: Config, s: Pianist, id: nat): (r: Pianist)
    ensures id !in s.running ==> r == s
    ensures id in s.running && s.state == Attack ==> r == Summon(c, s)
    ensures id in s.running && s.state != Attack ==> r == s.(running := s.running - {id})
  {
    if id !in s.running then s
    else if s.state == Attack then Summon(c, s)
    else s.(running := s.running - {id})
  }

  /** `TakeDamage(amount)`: ignored in Death; a fatal hit enters Death. The flash and the
      sound are not modelled. */
  function Hit(s: Pianist, amount: int): (r: Pianist)
    ensures s.state == Death ==> r == s
    ensures s.state != Death ==> r.health == s.health - amount
    ensures s.state != Death && r.health <= 0 ==> r == ToDeath(s.(health := r.health, log := s.log + [Hurt]))
    ensures s.state != Death && r.health > 0 ==> r == s.(health := r.health, log := s.log + [Hurt])
  {
    if s.state == Death then s
    else
      var s1 := s.(health := s.health - amount, log := s.log + [Hurt]);
      if s1.health <= 0 then ToDeath(s1) else s1
  }

  datatype Input =
    | Frame(dist: real)
    | TakeDamage(amount: int)
    | SummonWaitOver(id: nat)

  function Step(c: Config, s: Pianist, i: Input): Pianist
  {
    match i
    case Frame(dist) => Tick(c, s, dist)
    case TakeDamage(amount) => Hit(s, amount)
    case SummonWaitOver(id) => SummonResume(c, s, id)
  }

  function Run(c: Config, s: Pianist, inputs: seq<Input>): Pianist
    decreases |inputs|
  {
    if inputs == [] then s else Run(c, Step(c, s, inputs[0]), inputs[1..])
  }

  lemma StepKeepsValid(c: Config, s: Pianist, i: Input)
    requires Valid(s)
    ensures Valid(Step(c, s, i))
  {
  }

  /** Every reachable state is Valid, so at most one summon routine ever runs. */
  lemma {:induction false} AtMostOneSummonRoutine(c: Config, s: Pianist, inputs: seq<Input>)
    requires Valid(s)
    ensures Valid(Run(c, s, inputs))
    ensures |Run(c, s, inputs).running| <= 1
    decreases |inputs|
  {
    if inputs == [] {
      var h := s.summonRoutine;
      assert s.running <= (if h.Some? then {h.value} else {});
      if h.Some? {
        SubsetOfSingleton(s.running, h.value);
      }
    } else {
      StepKeepsValid(c, s, inputs[0]);
      AtMostOneSummonRoutine(c, Step(c, s, inputs[0]), inputs[1..]);
    }
  }

  lemma SubsetOfSingleton(a: set<nat>, x: nat)
    requires a <= {x}
    ensures |a| <= 1
  {
    if a != {} {
      assert a == {x};
    }
  }

  /** Death is final: nothing changes afterwards, and no skull is summoned. */
  lemma {:induction false} DeathIsFinal(c: Config, s: Pianist, inputs: seq<Input>)
    requires Valid(s) && s.state == Death
    ensures Run(c, s, inputs) == s
    decreases |inputs|
  {
    if inputs != [] {
      DeathIsFinal(c, Step(c, s, inputs[0]), inputs[1..]);
    }
  }

  /** A skull is summoned only by a step that ends in Attack. */
  lemma SkullsOnlyInAttack(c: Config, s: Pianist, i: Input)
    requires Valid(s)
    ensures |s.log| <= |Step(c, s, i).log| && Step(c, s, i).log[..|s.log|] == s.log
    ensures SkullSpawned in Step(c, s, i).log[|s.log|..] ==> Step(c, s, i).state == Attack
  {
  }

  class Controller {
    const cfg: Config
    var state: State
    var currentHealth: int
    var summonRoutine: Option<nat>
    ghost var running: set<nat>
    var started: nat
    ghost var log: seq<Event>

    ghost function Snapshot(): Pianist
      reads this
    {
      Pianist(state, currentHealth, summonRoutine, running, started, log)
    }

    /** Field initialisers, `Awake` and `Start`. */
    constructor (cfg: Config)
      ensures this.cfg == cfg && Snapshot() == Initial(cfg)
    {
      this.cfg := cfg;
      state := Idle;
      summonRoutine := None;
      running := {};
      started := 0;
      log := [];
      currentHealth := cfg.maxHealth;
    }

    method Update(dist: real)
      modifies this
      ensures Snapshot() == Tick(cfg, old(Snapshot()), dist)
    {
      if state != Idle && state != Attack {
        return;
      }
      if !cfg.hasPlayer {
        return;
      }
      if state == Idle && dist <= cfg.detectRange {
        EnterAttack();
      } else if state == Attack && dist > cfg.detectRange {
        EnterIdle();
      }
    }

    method EnterIdle()
      modifies this
      ensures Snapshot() == ToIdle(old(Snapshot()))
    {
      state := Idle;
      if summonRoutine.Some? {
        running := running - {summonRoutine.value};
        summonRoutine := None;
      }
    }

    method EnterAttack()
      modifies this
      ensures Snapshot() == ToAttack(cfg, old(Snapshot()))
    {
      state := Attack;
      if summonRoutine.Some? {
        running := running - {summonRoutine.value};
      }
      var id := StartSummonSkulls();
      summonRoutine := Some(id);
    }

    /** `StartCoroutine(SummonSkulls())`: the routine runs its first pass at once. */
    method StartSummonSkulls() returns (id: nat)
      requires state == Attack
      modifies this
      ensures id == old(started) && started == old(started) + 1 && running == old(running) + {id}
      ensures log == old(log) + (if cfg.canSpawn then [SkullSpawned] else []) + [AttackTrigger]
      ensures state == old(state) && currentHealth == old(currentHealth) && summonRoutine == old(summonRoutine)
    {
      id := started;
      started := started + 1;
      running := running + {id};
      SummonPass();
    }

    /** One pass of the loop's body. */
    method SummonPass()
      modifies this
      ensures Snapshot() == Summon(cfg, old(Snapshot()))
    {
      if cfg.canSpawn {
        log := log + [SkullSpawned];
      }
      log := log + [AttackTrigger];
    }

    /** The routine `id` after its wait: loop while the state is Attack. The scheduler
        resumes only routines it still runs. */
    method ResumeSummonSkulls(id: nat)
      requires id in running
      modifies this
      ensures Snapshot() == SummonResume(cfg, old(Snapshot()), id)
    {
      if state == Attack {
        SummonPass();
      } else {
        running := running - {id};
      }
    }

    method TakeDamage(amount: int)
      modifies this
      ensures Snapshot() == Hit(old(Snapshot()), amount)
    {
      if state == Death {
        return;
      }
      currentHealth := currentHealth - amount;
      log := log + [Hurt];
      if currentHealth <= 0 {
        EnterDeath();
      }
    }

    /** `EnterDeath`; the music, the collider and `Destroy` are not modelled. */
    method EnterDeath()
      modifies this
      ensures Snapshot() == ToDeath(old(Snapshot()))
    {
      state := Death;
      if summonRoutine.Some? {
        running := running - {summonRoutine.value};
      }
      log := log + [DeathTrigger];
    }
  }
}
