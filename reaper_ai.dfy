/** The reaper boss's controller (Assets/ReaperAI.cs). Only Chase has per-frame logic;
    melee and the two army summons are coroutines, modelled as cursors that the frame
    scheduler resumes. A summon may begin while a melee is in flight: the melee's
    completion re-checks the state and leaves the summon alone. */
module ReaperAI {
  import opened Common

  datatype State = Chase | Attack | SummonPhase1 | SummonPhase2

  datatype Event =
    | AttackTrigger          // anim "Attack" at melee start
    | Teleport               // jump to the teleport point after vanishing
    | SummoningOn            // anim bool "Summoning" := true
    | Army1Active            // Army1.SetActive(true)
    | SpawnSkull(point: nat) // one skull at skullSpawnPoints[point]
    | SummoningOff           // anim bool "Summoning" := false

  /** Where a `SummonArmyPhase1` run is suspended. Vanish covers the fade-out and the
      vanish wait, Appear the teleport, fade-in and appear wait, ArmyWait the one-second
      wait after the army appears, AwaitClear the wait for the army to be cleared,
      Outro the final half-second wait. */
  datatype Summon1Step = Vanish1 | Appear1 | ArmyWait | AwaitClear | Outro1

  /** Where a `SummonArmyPhase2` run is suspended; WaveWait is the wait after a wave. */
  datatype Summon2Step = Vanish2 | Appear2 | WaveWait | Outro2

  datatype Config = Config(meleeRange: real, spawnPoints: nat)

  datatype Reaper = Reaper(
    state: State,
    canMelee: bool,
    meleePending: bool,          // a MeleeAttack run waits for meleeCooldown
    summon1: seq<Summon1Step>,   // running SummonArmyPhase1 instances
    summon2: seq<Summon2Step>,   // running SummonArmyPhase2 instances
    log: seq<Event>)

  function Initial(): Reaper
  {
    Reaper(Chase, true, false, [], [], [])
  }

  /** The invariant every operation keeps: SummonPhase1 is never entered, and a melee
      is in flight exactly while `canMelee` is false. */
  predicate Valid(r: Reaper)
  {
    r.state != SummonPhase1 && (r.meleePending <==> !r.canMelee)
  }

  /** `Update` for one frame at distance `dist` from the player. */
  function Tick(c: Config, r: Reaper, dist: real): (r': Reaper)
    ensures r.state != Chase ==> r' == r
    ensures r'.state == Attack && r.state != Attack <==>
      r.state == Chase && dist <= c.meleeRange && r.canMelee
    ensures r'.state != Attack ==> r' == r
    ensures Valid(r) ==> Valid(r')
  {
    if r.state != Chase then r
    else if dist <= c.meleeRange && r.canMelee then
      r.(state := Attack, canMelee := false, meleePending := true, log := r.log + [AttackTrigger])
    else r
  }

  /** The end of `MeleeAttack`, after meleeCooldown. */
  function MeleeDone(r: Reaper): (r': Reaper)
    requires r.meleePending
    ensures r'.canMelee && !r'.meleePending
    ensures r.state == Attack ==> r'.state == Chase
    ensures r.state != Attack ==> r'.state == r.state
    ensures r'.summon1 == r.summon1 && r'.summon2 == r.summon2 && r'.log == r.log
    ensures Valid(r) ==> Valid(r')
  {
    if r.state != Attack then r.(canMelee := true, meleePending := false)
    else r.(canMelee := true, state := Chase, meleePending := false)
  }

  /** `OnSummonArmyPhase1`: the coroutine's first statement sets SummonPhase2. */
  function StartSummon1(r: Reaper): (r': Reaper)
    ensures r'.state == SummonPhase2
    ensures r'.summon1 == r.summon1 + [Vanish1] && r'.summon2 == r.summon2
    ensures r'.canMelee == r.canMelee && r'.meleePending == r.meleePending
    ensures Valid(r) ==> Valid(r')
  {
    r.(state := SummonPhase2, summon1 := r.summon1 + [Vanish1])
  }

  function StartSummon2(r: Reaper): (r': Reaper)
    ensures r'.state == SummonPhase2
    ensures r'.summon2 == r.summon2 + [Vanish2] && r'.summon1 == r.summon1
    ensures r'.canMelee == r.canMelee && r'.meleePending == r.meleePending
    ensures Valid(r) ==> Valid(r')
  {
    r.(state := SummonPhase2, summon2 := r.summon2 + [Vanish2])
  }

  /** The skulls of one wave: one per spawn point, in spawn-point order. */
  function Wave(n: nat): (w: seq<Event>)
    ensures |w| == n
    ensures forall i :: 0 <= i < n ==> w[i] == SpawnSkull(i)
  {
    seq(n, (i: nat) requires i < n => SpawnSkull(i))
  }

  /** A wave spawns exactly one skull at each spawn point and none anywhere else. */
  lemma {:induction false} WaveSpawnsEachPointOnce(n: nat, point: nat)
    ensures Count(Wave(n), SpawnSkull(point)) == if point < n then 1 else 0
    decreases n
  {
    if n > 0 {
      assert Wave(n) == Wave(n - 1) + [SpawnSkull(n - 1)];
      CountConcat(Wave(n - 1), [SpawnSkull(n - 1)], SpawnSkull(point));
      WaveSpawnsEachPointOnce(n - 1, point);
    }
  }

  function RemoveAt<T>(s: seq<T>, k: nat): (s': seq<T>)
    requires k < |s|
    ensures |s'| == |s| - 1
  {
    s[..k] + s[k + 1..]
  }

  /** The busy-wait of Assets/ReaperAI.cs:132-136 as written, run for `iterations`
      passes: the loop body never yields, so no summon can be destroyed while it spins
      and the count it polls stays `summonsLeft`. True when the loop has exited. */
  function SpinAsWritten(summonsLeft: nat, iterations: nat): (exited: bool)
    decreases iterations
  {
    if summonsLeft == 0 then true
    else if iterations == 0 then false
    else SpinAsWritten(summonsLeft, iterations - 1)
  }

  /** As written, a summon still alive when the wait starts keeps the loop spinning
      however many passes it makes, freezing the frame loop for good. */
  lemma {:induction false} SpinHangsWhileSummonsRemain(summonsLeft: nat, iterations: nat)
    requires summonsLeft > 0
    ensures !SpinAsWritten(summonsLeft, iterations)
    decreases iterations
  {
    if iterations > 0 {
      SpinHangsWhileSummonsRemain(summonsLeft, iterations - 1);
    }
  }

  /** The wait the busy-wait evidently intends, which the model uses: checked once per
      frame, leaving the wait (Some) exactly in the first frame with no summons left
      and otherwise yielding (None) so that the rest of the game keeps running. */
  function AwaitClearStep(summonsLeft: nat): (next: Option<Summon1Step>)
    ensures next.Some? <==> summonsLeft == 0
    ensures next.Some? ==> next.value == Outro1
  {
    if summonsLeft == 0 then Some(Outro1) else None
  }

  /** Resumes SummonArmyPhase1 run `k` once its current wait is over; `summonsLeft` is
      the number of objects tagged "Summons" in that frame. */
  function ResumeSummon1(r: Reaper, k: nat, summonsLeft: nat): (r': Reaper)
    requires k < |r.summon1|
    ensures r.summon1[k] == Outro1 ==>
      r'.state == Chase && r'.summon1 == RemoveAt(r.summon1, k) && r'.log == r.log
    ensures r.summon1[k] != Outro1 ==> r'.state == r.state && |r'.summon1| == |r.summon1|
    ensures r.summon1[k] in {ArmyWait, AwaitClear} ==>
      (r'.summon1[k] == Outro1 <==> summonsLeft == 0)
    ensures r.summon1[k] == Appear1 ==> r'.log == r.log + [SummoningOn, Army1Active]
    ensures r'.canMelee == r.canMelee && r'.meleePending == r.meleePending
    ensures r'.summon2 == r.summon2
    ensures Valid(r) ==> Valid(r')
  {
    match r.summon1[k]
    case Vanish1 => r.(summon1 := r.summon1[k := Appear1], log := r.log + [Teleport])
    case Appear1 =>
      r.(summon1 := r.summon1[k := ArmyWait], log := r.log + [SummoningOn, Army1Active])
    case ArmyWait =>
      (match AwaitClearStep(summonsLeft)
       case Some(next) => r.(summon1 := r.summon1[k := next], log := r.log + [SummoningOff])
       case None => r.(summon1 := r.summon1[k := AwaitClear]))
    case AwaitClear =>
      (match AwaitClearStep(summonsLeft)
       case Some(next) => r.(summon1 := r.summon1[k := next], log := r.log + [SummoningOff])
       case None => r)
    case Outro1 => r.(state := Chase, summon1 := RemoveAt(r.summon1, k))
  }

  /** SummonArmyPhase1 run `k`, suspended in its wait for the army to be cleared, resumed
      once per frame with that frame's count of summons, until the wait ends. */
  function PollAwaitClear(r: Reaper, k: nat, polls: seq<nat>): Reaper
    requires k < |r.summon1| && r.summon1[k] in {AwaitClear, Outro1}
    decreases |polls|
  {
    if polls == [] || r.summon1[k] == Outro1 then r
    else PollAwaitClear(ResumeSummon1(r, k, polls[0]), k, polls[1..])
  }

  /** The intended wait over any number of frames: while summons remain the reaper is left
      untouched and the frame loop goes on; the first frame with none left ends the wait,
      turns summoning off once, and moves the run on to its outro. */
  lemma {:induction false} IntendedWaitEndsOnFirstClearFrame(r: Reaper, k: nat, polls: seq<nat>)
    requires k < |r.summon1| && r.summon1[k] == AwaitClear
    ensures PollAwaitClear(r, k, polls) ==
      if 0 in polls then r.(summon1 := r.summon1[k := Outro1], log := r.log + [SummoningOff])
      else r
    decreases |polls|
  {
    if polls != [] {
      if polls[0] == 0 {
        assert 0 in polls;
      } else {
        IntendedWaitEndsOnFirstClearFrame(r, k, polls[1..]);
        assert 0 in polls <==> 0 in polls[1..] by {
          assert polls == [polls[0]] + polls[1..];
        }
      }
    }
  }

  /** Resumes SummonArmyPhase2 run `k` once its current wait is over. After the appear
      wait the first wave spawns; after each `skullSpawnInterval` the run ends if no
      summons remain, and otherwise spawns the next wave. */
  function ResumeSummon2(c: Config, r: Reaper, k: nat, summonsLeft: nat): (r': Reaper)
    requires k < |r.summon2|
    ensures r.summon2[k] == Outro2 ==>
      r'.state == Chase && r'.summon2 == RemoveAt(r.summon2, k) && r'.log == r.log
    ensures r.summon2[k] != Outro2 ==> r'.state == r.state && |r'.summon2| == |r.summon2|
    ensures r.summon2[k] == Appear2 ==>
      r'.log == r.log + [SummoningOn] + Wave(c.spawnPoints) && r'.summon2[k] == WaveWait
    ensures r.summon2[k] == WaveWait && summonsLeft == 0 ==>
      r'.log == r.log + [SummoningOff] && r'.summon2[k] == Outro2
    ensures r.summon2[k] == WaveWait && summonsLeft > 0 ==>
      r'.log == r.log + Wave(c.spawnPoints) && r'.summon2[k] == WaveWait
    ensures r'.canMelee == r.canMelee && r'.meleePending == r.meleePending
    ensures r'.summon1 == r.summon1
    ensures Valid(r) ==> Valid(r')
  {
    match r.summon2[k]
    case Vanish2 => r.(summon2 := r.summon2[k := Appear2], log := r.log + [Teleport])
    case Appear2 =>
      r.(summon2 := r.summon2[k := WaveWait], log := r.log + [SummoningOn] + Wave(c.spawnPoints))
    case WaveWait =>
      if summonsLeft == 0 then r.(summon2 := r.summon2[k := Outro2], log := r.log + [SummoningOff])
      else r.(log := r.log + Wave(c.spawnPoints))
    case Outro2 => r.(state := Chase, summon2 := RemoveAt(r.summon2, k))
  }

  /** Everything that can happen to the reaper between two observations. */
  datatype Input =
    | Frame(dist: real)
    | MeleeEnds
    | Summon1Begins
    | Summon2Begins
    | Summon1Resumes(k: nat, summonsLeft: nat)
    | Summon2Resumes(k: nat, summonsLeft: nat)

  function Step(c: Config, r: Reaper, i: Input): Reaper
  {
    match i
    case Frame(dist) => Tick(c, r, dist)
    case MeleeEnds => if r.meleePending then MeleeDone(r) else r
    case Summon1Begins => StartSummon1(r)
    case Summon2Begins => StartSummon2(r)
    case Summon1Resumes(k, left) => if k < |r.summon1| then ResumeSummon1(r, k, left) else r
    case Summon2Resumes(k, left) => if k < |r.summon2| then ResumeSummon2(c, r, k, left) else r
  }

  function Run(c: Config, r: Reaper, inputs: seq<Input>): Reaper
    decreases |inputs|
  {
    if inputs == [] then r else Run(c, Step(c, r, inputs[0]), inputs[1..])
  }

  /** Over any interleaving of frames, coroutine resumptions and summon starts, the
      state SummonPhase1 is never reached and at most one melee is ever in flight. */
  lemma {:induction false} RunKeepsValid(c: Config, r: Reaper, inputs: seq<Input>)
    requires Valid(r)
    ensures Valid(Run(c, r, inputs))
    ensures Run(c, r, inputs).state != SummonPhase1
    decreases |inputs|
  {
    if inputs != [] {
      RunKeepsValid(c, Step(c, r, inputs[0]), inputs[1..]);
    }
  }

  /** A summon that begins while a melee is in flight is not overridden by the melee's
      completion. */
  lemma SummonSurvivesMeleeCompletion(c: Config, r: Reaper)
    requires r.meleePending
    ensures MeleeDone(StartSummon1(r)).state == SummonPhase2
    ensures MeleeDone(StartSummon1(r)).canMelee
  {
  }

  class Controller {
    const cfg: Config
    var state: State
    var canMelee: bool
    var meleePending: bool
    var summon1: seq<Summon1Step>
    var summon2: seq<Summon2Step>
    ghost var log: seq<Event>

    ghost function Snapshot(): Reaper
      reads this
    {
      Reaper(state, canMelee, meleePending, summon1, summon2, log)
    }

    constructor (cfg: Config)
      ensures this.cfg == cfg && Snapshot() == Initial()
    {
      this.cfg := cfg;
      state := Chase;
      canMelee := true;
      meleePending := false;
      summon1 := [];
      summon2 := [];
      log := [];
    }

    method Update(dist: real)
      modifies this
      ensures Snapshot() == Tick(cfg, old(Snapshot()), dist)
    {
      if state != Chase {
        return;
      }
      if dist <= cfg.meleeRange && canMelee {
        MeleeAttack();
        return;
      }
      // otherwise: velocity toward the player, not modelled
    }

    /** The synchronous part of the `MeleeAttack` coroutine. */
    method MeleeAttack()
      modifies this
      ensures Snapshot() == old(Snapshot()).(state := Attack, canMelee := false,
        meleePending := true, log := old(log) + [AttackTrigger])
    {
      state := Attack;
      canMelee := false;
      log := log + [AttackTrigger];
      meleePending := true;
    }

    /** `MeleeAttack` after `meleeCooldown`. */
    method ResumeMelee()
      requires meleePending
      modifies this
      ensures Snapshot() == MeleeDone(old(Snapshot()))
    {
      if state != Attack {
        canMelee := true;
      } else {
        canMelee := true;
        state := Chase;
      }
      meleePending := false;
    }

    method OnSummonArmyPhase1()
      modifies this
      ensures Snapshot() == StartSummon1(old(Snapshot()))
    {
      state := SummonPhase2;
      summon1 := summon1 + [Vanish1];
    }

    method OnSummonArmyPhase2()
      modifies this
      ensures Snapshot() == StartSummon2(old(Snapshot()))
    {
      state := SummonPhase2;
      summon2 := summon2 + [Vanish2];
    }

    method ResumeSummonPhase1(k: nat, summonsLeft: nat)
      requires k < |summon1|
      modifies this
      ensures Snapshot() == ResumeSummon1(old(Snapshot()), k, summonsLeft)
    {
      match summon1[k]
      case Vanish1 =>
        log := log + [Teleport];
        summon1 := summon1[k := Appear1];
      case Appear1 =>
        log := log + [SummoningOn, Army1Active];
        summon1 := summon1[k := ArmyWait];
      case ArmyWait =>
        if summonsLeft == 0 {
          log := log + [SummoningOff];
          summon1 := summon1[k := Outro1];
        } else {
          summon1 := summon1[k := AwaitClear];
        }
      case AwaitClear =>
        if summonsLeft == 0 {
          log := log + [SummoningOff];
          summon1 := summon1[k := Outro1];
        }
      case Outro1 =>
        state := Chase;
        summon1 := summon1[..k] + summon1[k + 1..];
    }

    method ResumeSummonPhase2(k: nat, summonsLeft: nat)
      requires k < |summon2|
      modifies this
      ensures Snapshot() == ResumeSummon2(cfg, old(Snapshot()), k, summonsLeft)
    {
      match summon2[k]
      case Vanish2 =>
        log := log + [Teleport];
        summon2 := summon2[k := Appear2];
      case Appear2 =>
        log := log + [SummoningOn];
        SpawnWave();
        summon2 := summon2[k := WaveWait];
      case WaveWait =>
        if summonsLeft == 0 {
          log := log + [SummoningOff];
          summon2 := summon2[k := Outro2];
        } else {
          SpawnWave();
        }
      case Outro2 =>
        state := Chase;
        summon2 := summon2[..k] + summon2[k + 1..];
    }

    /** The `foreach` over the skull spawn points. */
    method SpawnWave()
      modifies this`log
      ensures log == old(log) + Wave(cfg.spawnPoints)
    {
      var i := 0;
      while i < cfg.spawnPoints
        invariant 0 <= i <= cfg.spawnPoints
        invariant log == old(log) + Wave(i)
      {
        log := log + [SpawnSkull(i)];
        i := i + 1;
      }
    }
  }
}
