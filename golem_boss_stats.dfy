/** The golem boss's health and its one-shot phase events (Assets/GolemBossStats.cs).
    A hit lowers the health; the first hit that leaves it at or below 400 fires the first
    bullet-hell event, the first at or below 300 the second, and a fatal hit clamps the
    health to 0 and fires the death event. Once the health is 0 every hit is ignored. */
module GolemBossStats {
  import opened Common

  const Hell1Threshold: int := 400
  const Hell2Threshold: int := 300

  datatype Event = BulletHell1 | BulletHell2 | Death

  /** Order in which the source's `if` chain fires the events. */
  function Rank(e: Event): nat
  {
    match e
    case BulletHell1 => 0
    case BulletHell2 => 1
    case Death => 2
  }

  datatype Health = Health(current: int, hell1Fired: bool, hell2Fired: bool)

  datatype Outcome = Outcome(next: Health, fired: seq<Event>)

  /** One `TakeDamage(amount)` call; `ApplyDamageSpec` states which events it fires. */
  function ApplyDamage(h: Health, amount: int): (o: Outcome)
    // the guard at the top: a dead boss ignores hits and fires nothing
    ensures h.current <= 0 ==> o == Outcome(h, [])
    // an accepted hit lowers the health by exactly `amount`, clamped at 0
    ensures h.current > 0 ==>
      o.next.current == (if h.current - amount <= 0 then 0 else h.current - amount)
    ensures h.current >= 0 ==> o.next.current >= 0
  {
    if h.current <= 0 then Outcome(h, [])
    else
      var c := h.current - amount;
      Outcome(Health(if c <= 0 then 0 else c,
                     h.hell1Fired || c <= Hell1Threshold,
                     h.hell2Fired || c <= Hell2Threshold),
              Hell1Events(h, c) + Hell2Events(h, c) + DeathEvents(c))
  }

  /** The first `if` of `TakeDamage`, on the lowered health `c`. */
  function Hell1Events(h: Health, c: int): seq<Event>
  {
    if !h.hell1Fired && c <= Hell1Threshold then [BulletHell1] else []
  }

  /** The second `if`. */
  function Hell2Events(h: Health, c: int): seq<Event>
  {
    if !h.hell2Fired && c <= Hell2Threshold then [BulletHell2] else []
  }

  /** The death check. */
  function DeathEvents(c: int): seq<Event>
  {
    if c <= 0 then [Death] else []
  }

  /** Which events one `TakeDamage(amount)` call fires, and how the flags follow them. */
  lemma ApplyDamageSpec(h: Health, amount: int)
    // each event fires exactly in the call that first crosses its threshold
    ensures BulletHell1 in ApplyDamage(h, amount).fired <==>
      h.current > 0 && !h.hell1Fired && h.current - amount <= Hell1Threshold
    ensures BulletHell2 in ApplyDamage(h, amount).fired <==>
      h.current > 0 && !h.hell2Fired && h.current - amount <= Hell2Threshold
    ensures Death in ApplyDamage(h, amount).fired <==> h.current > 0 && h.current - amount <= 0
    // the flags only ever go from false to true, and exactly when their event fires
    ensures ApplyDamage(h, amount).next.hell1Fired == (h.hell1Fired || BulletHell1 in ApplyDamage(h, amount).fired)
    ensures ApplyDamage(h, amount).next.hell2Fired == (h.hell2Fired || BulletHell2 in ApplyDamage(h, amount).fired)
  {
  }

  /** The events of one call come in the order Hell1, Hell2, Death, none twice. */
  lemma EventsInOrder(h: Health, amount: int)
    ensures var f := ApplyDamage(h, amount).fired;
      forall i, j :: 0 <= i < j < |f| ==> Rank(f[i]) < Rank(f[j])
  {
  }

  /** A sequence of `TakeDamage` calls, with every event fired along the way. */
  function Run(h: Health, amounts: seq<int>): (o: Outcome)
    decreases |amounts|
  {
    if amounts == [] then Outcome(h, [])
    else
      var first := ApplyDamage(h, amounts[0]);
      var rest := Run(first.next, amounts[1..]);
      Outcome(rest.next, first.fired + rest.fired)
  }

  lemma CountOneCall(h: Health, amount: int, e: Event)
    ensures Count(ApplyDamage(h, amount).fired, e) == if e in ApplyDamage(h, amount).fired then 1 else 0
  {
    var f := ApplyDamage(h, amount).fired;
    if |f| > 0 {
      assert f[0] !in f[1..];
    }
    if |f| > 1 {
      assert f[1] !in f[2..];
    }
    if |f| > 2 {
      assert f[2..][1..] == [];
    }
  }

  /** Over any sequence of hits, each bullet-hell event fires at most once: exactly
      once if its flag went from false to true, never otherwise; a set flag stays set. */
  lemma {:induction false} BulletHellFiresOnce(h: Health, amounts: seq<int>)
    ensures h.hell1Fired ==> Run(h, amounts).next.hell1Fired
    ensures h.hell2Fired ==> Run(h, amounts).next.hell2Fired
    ensures Count(Run(h, amounts).fired, BulletHell1) ==
      if !h.hell1Fired && Run(h, amounts).next.hell1Fired then 1 else 0
    ensures Count(Run(h, amounts).fired, BulletHell2) ==
      if !h.hell2Fired && Run(h, amounts).next.hell2Fired then 1 else 0
    decreases |amounts|
  {
    if amounts != [] {
      var first := ApplyDamage(h, amounts[0]);
      BulletHellFiresOnce(first.next, amounts[1..]);
      CountConcat(first.fired, Run(first.next, amounts[1..]).fired, BulletHell1);
      CountConcat(first.fired, Run(first.next, amounts[1..]).fired, BulletHell2);
      CountOneCall(h, amounts[0], BulletHell1);
      CountOneCall(h, amounts[0], BulletHell2);
      ApplyDamageSpec(h, amounts[0]);
    }
  }

  /** Over any sequence of hits, the death event fires once if the boss was alive and
      ends dead, never otherwise; the health never drops below 0. */
  lemma {:induction false} DeathFiresOnce(h: Health, amounts: seq<int>)
    requires h.current >= 0
    ensures Run(h, amounts).next.current >= 0
    ensures Count(Run(h, amounts).fired, Death) ==
      if h.current > 0 && Run(h, amounts).next.current == 0 then 1 else 0
    decreases |amounts|
  {
    if amounts != [] {
      var first := ApplyDamage(h, amounts[0]);
      DeathFiresOnce(first.next, amounts[1..]);
      CountConcat(first.fired, Run(first.next, amounts[1..]).fired, Death);
      CountOneCall(h, amounts[0], Death);
      if first.next.current == 0 {
        DeadStaysDead(first.next, amounts[1..]);
      }
    }
  }

  /** Once the health is 0 or less, no sequence of hits changes anything or fires anything. */
  lemma {:induction false} DeadStaysDead(h: Health, amounts: seq<int>)
    requires h.current <= 0
    ensures Run(h, amounts) == Outcome(h, [])
    decreases |amounts|
  {
    if amounts != [] {
      DeadStaysDead(h, amounts[1..]);
    }
  }

  /** A single hit from full health that is fatal fires Hell1, Hell2 and Death, in that order. */
  lemma OneFatalHitFiresAll(h: Health, amount: int)
    requires h.current > 0 && !h.hell1Fired && !h.hell2Fired && h.current - amount <= 0
    ensures ApplyDamage(h, amount).fired == [BulletHell1, BulletHell2, Death]
    ensures ApplyDamage(h, amount).next == Health(0, true, true)
  {
  }

  class Stats {
    const maxHealth: int
    var currentHealth: int
    var hasHell1Fired: bool
    var hasHell2Fired: bool
    /** Invocations of OnBulletHell1, OnBulletHell2 and OnDeath, in order. */
    ghost var log: seq<Event>

    function Snapshot(): Health
      reads this
    {
      Health(currentHealth, hasHell1Fired, hasHell2Fired)
    }

    /** `Awake` together with the field initialisers. */
    constructor (maxHealth: int)
      ensures this.maxHealth == maxHealth
      ensures currentHealth == maxHealth && !hasHell1Fired && !hasHell2Fired
      ensures log == []
    {
      this.maxHealth := maxHealth;
      currentHealth := maxHealth;
      hasHell1Fired := false;
      hasHell2Fired := false;
      log := [];
    }

    method TakeDamage(amount: int)
      modifies this
      ensures Snapshot() == ApplyDamage(old(Snapshot()), amount).next
      ensures log == old(log) + ApplyDamage(old(Snapshot()), amount).fired
    {
      if currentHealth <= 0 {
        return;
      }
      ghost var h := Snapshot();
      ghost var log0 := log;
      currentHealth := currentHealth - amount;
      ghost var c := currentHealth;
      if !hasHell1Fired && currentHealth <= Hell1Threshold {
        hasHell1Fired := true;
        log := log + [BulletHell1];
      }
      assert log == log0 + Hell1Events(h, c);
      if !hasHell2Fired && currentHealth <= Hell2Threshold {
        hasHell2Fired := true;
        log := log + [BulletHell2];
      }
      assert log == log0 + Hell1Events(h, c) + Hell2Events(h, c);
      if currentHealth <= 0 {
        currentHealth := 0;
        log := log + [Death];
      }
      assert log == log0 + Hell1Events(h, c) + Hell2Events(h, c) + DeathEvents(c);
    }
  }
}
