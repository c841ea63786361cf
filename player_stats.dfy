/** The player's health, stamina and invincibility (Assets/Player/scripts/PlayerStats.cs).
    Stamina is spent in one call that can fail and is regenerated on a timer, never
    above the maximum. A hit is ignored while dead or invincible; a fatal hit clamps
    the health to 0 and kills, any other hit starts the invincibility flash. */
module PlayerStats {
  import opened Common

  datatype Config = Config(
    maxHealth: int,
    maxStamina: real,
    staminaRegenInterval: real,
    staminaRegenAmount: real,
    invincibilityDuration: real,
    flashInterval: real)

  /** `flash` is the running `InvincibilityFlash` coroutine, suspended in its loop with
      the loop's `timer` value, or None when none runs. */
  datatype Player = Player(
    health: int,
    stamina: real,
    regenTimer: real,
    isDead: bool,
    isInvincible: bool,
    flash: Option<real>)

  /** The state after `Start`. */
  function Initial(c: Config): Player
  {
    Player(c.maxHealth, c.maxStamina, c.staminaRegenInterval, false, false, None)
  }

  predicate Valid(c: Config, p: Player)
  {
    0.0 <= p.stamina <= c.maxStamina &&
    p.health >= 0 &&
    (p.isDead ==> p.health == 0) &&
    (p.isInvincible <==> p.flash.Some?) &&
    (p.flash.Some? ==> p.flash.value < c.invincibilityDuration)
  }

  /** The stamina part of `Update`, for a frame of length `dt`. */
  function Regen(c: Config, p: Player, dt: real): (p': Player)
    // a full bar neither regenerates nor runs the timer
    ensures p.stamina >= c.maxStamina ==> p' == p
    // a tick never raises stamina above the maximum, and resets the timer
    ensures p'.stamina != p.stamina ==>
      p'.stamina <= c.maxStamina && p'.regenTimer == c.staminaRegenInterval
    ensures p.stamina < c.maxStamina && p.regenTimer - dt <= 0.0 ==>
      p'.stamina == (if p.stamina + c.staminaRegenAmount < c.maxStamina
                     then p.stamina + c.staminaRegenAmount else c.maxStamina)
    ensures p.stamina < c.maxStamina && p.regenTimer - dt > 0.0 ==>
      p' == p.(regenTimer := p.regenTimer - dt)
    ensures p'.health == p.health && p'.isDead == p.isDead
    ensures p'.isInvincible == p.isInvincible && p'.flash == p.flash
  {
    if p.stamina < c.maxStamina then
      var t := p.regenTimer - dt;
      if t <= 0.0 then
        p.(stamina := if p.stamina + c.staminaRegenAmount < c.maxStamina
                      then p.stamina + c.staminaRegenAmount else c.maxStamina,
           regenTimer := c.staminaRegenInterval)
      else p.(regenTimer := t)
    else p
  }

  datatype SpendResult = SpendResult(ok: bool, next: Player)

  /** `SpendStamina(amount)`. */
  function Spend(c: Config, p: Player, amount: real): (r: SpendResult)
    ensures r.ok <==> p.stamina >= amount
    ensures !r.ok ==> r.next == p
    ensures r.ok ==> r.next == p.(stamina := p.stamina - amount, regenTimer := c.staminaRegenInterval)
    ensures r.ok && amount >= 0.0 ==> r.next.stamina >= 0.0
  {
    if p.stamina < amount then SpendResult(false, p)
    else SpendResult(true, p.(stamina := p.stamina - amount, regenTimer := c.staminaRegenInterval))
  }

  /** `TakeDamage(damage)`. A fatal hit runs `Die` up to its first wait (isDead := true);
      any other hit runs `InvincibilityFlash` up to its first wait. */
  function Hit(c: Config, p: Player, damage: int): (p': Player)
    ensures p.isDead || p.isInvincible ==> p' == p
    ensures !p.isDead && !p.isInvincible && p.health - damage <= 0 ==>
      p'.health == 0 && p'.isDead && !p'.isInvincible
    ensures !p.isDead && !p.isInvincible && p.health - damage > 0 ==>
      p'.health == p.health - damage && !p'.isDead &&
      (p'.isInvincible <==> c.invincibilityDuration > 0.0)
    ensures p'.stamina == p.stamina && p'.regenTimer == p.regenTimer
    ensures Valid(c, p) ==> Valid(c, p')
  {
    if p.isDead || p.isInvincible then p
    else
      var h := p.health - damage;
      if h <= 0 then p.(health := 0, isDead := true)
      else if 0.0 < c.invincibilityDuration then p.(health := h, isInvincible := true, flash := Some(0.0))
      else p.(health := h)
  }

  /** One turn of the flash loop: the gray and the normal-colour waits are over, so the
      loop timer grows by `2 * flashInterval` and the loop condition is checked again. */
  function FlashStep(c: Config, p: Player): (p': Player)
    requires p.flash.Some?
    ensures p'.flash.Some? <==> p.flash.value + 2.0 * c.flashInterval < c.invincibilityDuration
    ensures p'.isInvincible == (p.isInvincible && p'.flash.Some?)
    ensures p'.health == p.health && p'.isDead == p.isDead && p'.stamina == p.stamina
    ensures Valid(c, p) ==> Valid(c, p')
  {
    var t := p.flash.value + 2.0 * c.flashInterval;
    if t < c.invincibilityDuration then p.(flash := Some(t))
    else p.(isInvincible := false, flash := None)
  }

  /** `k` turns of the flash loop, or fewer if it ends first. */
  function FlashSteps(c: Config, p: Player, k: nat): Player
    decreases k
  {
    if k == 0 || p.flash.None? then p else FlashSteps(c, FlashStep(c, p), k - 1)
  }

  /** After a non-fatal hit the player is invincible for exactly those turns of the flash
      loop whose accumulated time is still below `invincibilityDuration`. */
  lemma {:induction false} InvincibleUntilDurationElapses(c: Config, p: Player, k: nat)
    requires p.flash.Some? && p.isInvincible && c.flashInterval >= 0.0
    ensures FlashSteps(c, p, k).isInvincible <==>
      p.flash.value + 2.0 * (k as real) * c.flashInterval < c.invincibilityDuration
          || (k == 0)
    decreases k
  {
    if k > 0 {
      var q := FlashStep(c, p);
      if q.flash.Some? {
        InvincibleUntilDurationElapses(c, q, k - 1);
        assert p.flash.value + 2.0 * (k as real) * c.flashInterval ==
          q.flash.value + 2.0 * ((k - 1) as real) * c.flashInterval;
      } else {
        assert FlashSteps(c, q, k - 1) == q;
        assert 2.0 * (k as real) * c.flashInterval >= 2.0 * c.flashInterval;
      }
    }
  }

  datatype Input = Frame(dt: real) | SpendStamina(amount: real) | TakeDamage(damage: int) | FlashTurn

  function Step(c: Config, p: Player, i: Input): Player
  {
    match i
    case Frame(dt) => Regen(c, p, dt)
    case SpendStamina(amount) => Spend(c, p, amount).next
    case TakeDamage(damage) => Hit(c, p, damage)
    case FlashTurn => if p.flash.Some? then FlashStep(c, p) else p
  }

  function Run(c: Config, p: Player, inputs: seq<Input>): Player
    decreases |inputs|
  {
    if inputs == [] then p else Run(c, Step(c, p, inputs[0]), inputs[1..])
  }

  predicate NonNegativeSpends(inputs: seq<Input>)
  {
    forall i :: 0 <= i < |inputs| && inputs[i].SpendStamina? ==> inputs[i].amount >= 0.0
  }

  /** From `Start`, any sequence of frames, non-negative stamina spends, hits and flash
      turns keeps stamina within [0, maxStamina], health non-negative, a dead player at
      exactly 0 health, and invincibility tied to a running flash. */
  lemma {:induction false} RunKeepsValid(c: Config, p: Player, inputs: seq<Input>)
    requires Valid(c, p) && c.staminaRegenAmount >= 0.0
    requires NonNegativeSpends(inputs)
    ensures Valid(c, Run(c, p, inputs))
    decreases |inputs|
  {
    if inputs != [] {
      var q := Step(c, p, inputs[0]);
      assert Valid(c, q);
      assert NonNegativeSpends(inputs[1..]) by {
        forall i | 0 <= i < |inputs[1..]| && inputs[1..][i].SpendStamina?
          ensures inputs[1..][i].amount >= 0.0
        {
          assert inputs[1..][i] == inputs[i + 1];
        }
      }
      RunKeepsValid(c, q, inputs[1..]);
    }
  }

  /** Once dead, nothing brings the player back or changes the health. */
  lemma {:induction false} DeathIsFinal(c: Config, p: Player, inputs: seq<Input>)
    requires p.isDead
    ensures Run(c, p, inputs).isDead && Run(c, p, inputs).health == p.health
    decreases |inputs|
  {
    if inputs != [] {
      DeathIsFinal(c, Step(c, p, inputs[0]), inputs[1..]);
    }
  }

  class Stats {
    const cfg: Config
    var currentHealth: int
    var currentStamina: real
    var staminaRegenTimer: real
    var isDead: bool
    var isInvincible: bool
    var flashTimer: Option<real>

    function Snapshot(): Player
      reads this
    {
      Player(currentHealth, currentStamina, staminaRegenTimer, isDead, isInvincible, flashTimer)
    }

    /** Field initialisers followed by `Start`. */
    constructor (cfg: Config)
      ensures this.cfg == cfg && Snapshot() == Initial(cfg)
    {
      this.cfg := cfg;
      isDead := false;
      isInvincible := false;
      flashTimer := None;
      currentHealth := cfg.maxHealth;
      currentStamina := cfg.maxStamina;
      staminaRegenTimer := cfg.staminaRegenInterval;
    }

    method Update(dt: real)
      modifies this
      ensures Snapshot() == Regen(cfg, old(Snapshot()), dt)
    {
      if currentStamina < cfg.maxStamina {
        staminaRegenTimer := staminaRegenTimer - dt;
        if staminaRegenTimer <= 0.0 {
          currentStamina := if currentStamina + cfg.staminaRegenAmount < cfg.maxStamina
                            then currentStamina + cfg.staminaRegenAmount else cfg.maxStamina;
          staminaRegenTimer := cfg.staminaRegenInterval;
        }
      }
    }

    method SpendStamina(amount: real) returns (ok: bool)
      modifies this
      ensures SpendResult(ok, Snapshot()) == Spend(cfg, old(Snapshot()), amount)
    {
      if currentStamina < amount {
        return false;
      }
      currentStamina := currentStamina - amount;
      staminaRegenTimer := cfg.staminaRegenInterval;
      return true;
    }

    method TakeDamage(damage: int)
      modifies this
      ensures Snapshot() == Hit(cfg, old(Snapshot()), damage)
    {
      if isDead || isInvincible {
        return;
      }
      currentHealth := currentHealth - damage;
      // vertical velocity reset and knockback are physics, not modelled
      if currentHealth <= 0 {
        currentHealth := 0;
        Die();
      } else {
        InvincibilityFlash();
      }
    }

    /** `InvincibilityFlash` up to its first wait. */
    method InvincibilityFlash()
      modifies this
      ensures Snapshot() == if 0.0 < cfg.invincibilityDuration
        then old(Snapshot()).(isInvincible := true, flash := Some(0.0))
        else old(Snapshot()).(isInvincible := false)
    {
      isInvincible := true;
      var timer := 0.0;
      if timer < cfg.invincibilityDuration {
        flashTimer := Some(timer);
      } else {
        isInvincible := false;
      }
    }

    /** One turn of the `InvincibilityFlash` loop after both its waits. */
    method ResumeFlash()
      requires flashTimer.Some?
      modifies this
      ensures Snapshot() == FlashStep(cfg, old(Snapshot()))
    {
      var timer := flashTimer.value + 2.0 * cfg.flashInterval;
      if timer < cfg.invincibilityDuration {
        flashTimer := Some(timer);
      } else {
        isInvincible := false;
        flashTimer := None;
      }
    }

    /** `Die` up to its first wait; disabling movement, collider and physics after
        `deathDelay` is not modelled. */
    method Die()
      modifies this
      ensures Snapshot() == old(Snapshot()).(isDead := true)
    {
      isDead := true;
    }
  }
}
