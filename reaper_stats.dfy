/** The reaper boss's health (Assets/ReaperStats.cs). A hit lowers the health without a
    clamp; the first hit that leaves it at or below 450 asks the controller to summon the
    phase-1 army. Reaching 0 fires nothing: it only makes later hits no-ops. The other
    four one-shot flags are declared but never assigned. */
module ReaperStats {
  import opened Common
  import ReaperAI

  const Phase1Threshold: int := 450

  datatype Health = Health(
    current: int,
    phase1Fired: bool,
    phase2Fired: bool,
    wipeFired: bool,
    phase3Fired: bool,
    deathFired: bool)

  /** The result of one hit: the new health, and whether it called `OnSummonArmyPhase1`. */
  datatype Outcome = Outcome(next: Health, summoned: bool)

  /** One `TakeDamage(amount)` call. */
  function ApplyDamage(h: Health, amount: int): (o: Outcome)
    ensures h.current <= 0 ==> o == Outcome(h, false)
    // accepted hits subtract exactly `amount`; nothing clamps the result
    ensures h.current > 0 ==> o.next.current == h.current - amount
    ensures o.summoned <==> h.current > 0 && !h.phase1Fired && h.current - amount <= Phase1Threshold
    ensures o.next.phase1Fired == (h.phase1Fired || o.summoned)
    ensures o.next.phase2Fired == h.phase2Fired && o.next.wipeFired == h.wipeFired
    ensures o.next.phase3Fired == h.phase3Fired && o.next.deathFired == h.deathFired
  {
    if h.current <= 0 then Outcome(h, false)
    else
      var c := h.current - amount;
      if c <= Phase1Threshold && !h.phase1Fired then Outcome(h.(current := c, phase1Fired := true), true)
      else Outcome(h.(current := c), false)
  }

  /** A sequence of hits; `summons` counts the `OnSummonArmyPhase1` calls. */
  datatype RunOutcome = RunOutcome(next: Health, summons: nat)

  function Run(h: Health, amounts: seq<int>): RunOutcome
    decreases |amounts|
  {
    if amounts == [] then RunOutcome(h, 0)
    else
      var first := ApplyDamage(h, amounts[0]);
      var rest := Run(first.next, amounts[1..]);
      RunOutcome(rest.next, rest.summons + if first.summoned then 1 else 0)
  }

  predicate NeverAssignedUnset(h: Health)
  {
    !h.phase2Fired && !h.wipeFired && !h.phase3Fired && !h.deathFired
  }

  /** Over any sequence of hits the phase-1 summon is invoked at most once, exactly when
      `phase1Fired` goes from false to true, and the four other flags keep their values. */
  lemma {:induction false} SummonAtMostOnce(h: Health, amounts: seq<int>)
    ensures Run(h, amounts).summons == if !h.phase1Fired && Run(h, amounts).next.phase1Fired then 1 else 0
    ensures h.phase1Fired ==> Run(h, amounts).next.phase1Fired
    ensures NeverAssignedUnset(h) ==> NeverAssignedUnset(Run(h, amounts).next)
    decreases |amounts|
  {
    if amounts != [] {
      SummonAtMostOnce(ApplyDamage(h, amounts[0]).next, amounts[1..]);
    }
  }

  /** Once the health is 0 or less, hits change nothing and summon nothing. */
  lemma {:induction false} DeadIgnoresHits(h: Health, amounts: seq<int>)
    requires h.current <= 0
    ensures Run(h, amounts) == RunOutcome(h, 0)
    decreases |amounts|
  {
    if amounts != [] {
      DeadIgnoresHits(h, amounts[1..]);
    }
  }

  /** A fatal hit may leave the health negative: there is no clamp. */
  lemma FatalHitCanOvershoot()
    ensures ApplyDamage(Health(10, true, false, false, false, false), 30).next.current == -20
  {
  }

  class Stats {
    const maxHealth: int
    const reaperAI: ReaperAI.Controller
    var currentHealth: int
    var phase1Fired: bool
    var phase2Fired: bool
    var wipeFired: bool
    var phase3Fired: bool
    var deathFired: bool

    function Snapshot(): Health
      reads this
    {
      Health(currentHealth, phase1Fired, phase2Fired, wipeFired, phase3Fired, deathFired)
    }

    /** `Awake` with the field initialisers; `reaperAI` is the controller
        `GetComponent<ReaperAI>()` finds. */
    constructor (maxHealth: int, reaperAI: ReaperAI.Controller)
      ensures this.maxHealth == maxHealth && this.reaperAI == reaperAI
      ensures Snapshot() == Health(maxHealth, false, false, false, false, false)
    {
      this.maxHealth := maxHealth;
      this.reaperAI := reaperAI;
      currentHealth := maxHealth;
      phase1Fired := false;
      phase2Fired := false;
      wipeFired := false;
      phase3Fired := false;
      deathFired := false;
    }

    method TakeDamage(amount: int)
      modifies this, reaperAI
      ensures Snapshot() == ApplyDamage(old(Snapshot()), amount).next
      ensures reaperAI.Snapshot() ==
        if ApplyDamage(old(Snapshot()), amount).summoned
        then ReaperAI.StartSummon1(old(reaperAI.Snapshot()))
        else old(reaperAI.Snapshot())
    {
      if currentHealth <= 0 {
        return;
      }
      currentHealth := currentHealth - amount;
      // the damage flash is cosmetic
      if currentHealth <= Phase1Threshold && !phase1Fired {
        phase1Fired := true;
        reaperAI.OnSummonArmyPhase1();
      }
    }
  }
}
