# Combat logic of a 2D platformer, modelled in Dafny

This project models the combat core of a Unity 2D platformer. That core is:

- the health and phase bookkeeping of the two bosses (`GolemBossStats`, `ReaperStats`);
- the player's health, invincibility and stamina (`PlayerStats`);
- the state machines of every enemy archetype: the three exploding-slime variants, the walking slime, the flying slime, the armoured and dashing golems, the bone archer, gladiator and pianist, the golem boss and the reaper;
- the rising lava.

Each component is one Dafny module. Each one holds:

- a value datatype with the component's fields and a `log` of the effects it produces. These effects are animation triggers of interest, spawned skulls, arrows and bullets, and damage dealt to the player.
- pure functions giving one step of each operation. There is one per `Update` handler, coroutine step and damage entry point.
- `Step`/`Run` over a sequence of inputs. Inputs are frames, hits, and resumptions of coroutines whose wait has ended.
- lemmas about runs: invariants kept, one-shot events, terminal states and their absence, and which check pre-empts which.
- a `class` with the source's own fields. Its methods change those fields in place. Each method's `ensures` ties the new state to the step function applied to the old state (`Snapshot()`).

A coroutine is a cursor field. The scheduler resumes it through a `Resume…` method when its wait is over.

Engine inputs are parameters of each step (`Common.Facts`):
- the distance to the player;
- `Time.deltaTime`;
- horizontal offsets;
- whether the player is inside a blast;
- the values drawn by `Random.Range`.

Several completions re-enter Chase even after death: the golem boss's melee, the archer's cooldown, the gladiator's melee and block end, and the golems' detect and armour-up pauses. Likewise, the chapter-one slime explodes twice when `TakeDamage` is called again during its death wait. In the game the sword cannot do this once `Death` has turned off the slime's collider and body. The model reproduces all of these as the code writes them, and lemmas state them (`…Revives`, `TwoFatalHitsExplodeTwice`).

## Model

| member | source | states |
|---|---|---|
| ArmoredGolemAI.PatrolTick | Assets/ArmoredGolemAI.cs:87-108 | a patrol frame with an out-of-range waypoint index changes nothing; an expired idle timer wins over detection and starts Idle with a full idle timer; otherwise the golem starts armouring up exactly when the player is within detect range; the waypoint index only moves, by wrapping, when the waypoint is reached; the invariant is kept |
| ArmoredGolemAI.IdleTick | Assets/ArmoredGolemAI.cs:118-132 | detection during Idle starts the armour-up at once; otherwise the timer runs down and its expiry returns to Patrol with a freshly drawn patrol time; the attack routine and triggers are untouched; the invariant is kept |
| ArmoredGolemAI.ChaseTick | Assets/ArmoredGolemAI.cs:145-167 | leaving the exit range returns to Patrol with the armour-down trigger; inside it the golem swings exactly when in melee range and able to attack, which spends the attack and schedules the hit; otherwise nothing changes |
| ArmoredGolemAI.Tick | Assets/ArmoredGolemAI.cs:74-85 | a dead golem, or one in ArmorUp/Attack, ignores the frame; otherwise the frame goes to the handler of the current state; the invariant is kept |
| ArmoredGolemAI.ArmorUpDone | Assets/ArmoredGolemAI.cs:134-143 | when the armour-up wait ends the golem chases, whether or not it has died meanwhile, with health and log untouched |
| ArmoredGolemAI.MeleeDone | Assets/ArmoredGolemAI.cs:169-183 | at the end of a swing the player is struck only if still within melee range and damageable; the golem can attack again and returns to Chase |
| ArmoredGolemAI.Hit | Assets/ArmoredGolemAI.cs:185-194 | a dead golem ignores hits; a live one loses exactly the damage, keeps its state, and dies exactly when health reaches zero or below, logging hurt then death |
| ArmoredGolemAI.RunKeepsValid | Assets/ArmoredGolemAI.cs:74-194 | every sequence of frames, hits and coroutine resumptions keeps the golem's invariant and never reaches a Death state value |
| ArmoredGolemAI.DeadIsFrozen | Assets/ArmoredGolemAI.cs:74-76 | once dead with no coroutine pending, nothing changes the golem |
| ArmoredGolemAI.KilledMidSwingStillStrikes | Assets/ArmoredGolemAI.cs:169-194 | a golem killed during its swing still strikes a player in range when the swing ends |
| ArmoredGolemAI.Controller.constructor | Assets/ArmoredGolemAI.cs:57-72 | the controller starts in the initial golem state |
| ArmoredGolemAI.Controller.Update | Assets/ArmoredGolemAI.cs:74-85 | one frame updates the fields as Tick does |
| ArmoredGolemAI.Controller.PatrolUpdate | Assets/ArmoredGolemAI.cs:87-108 | the patrol frame updates the fields as PatrolTick does |
| ArmoredGolemAI.Controller.EnterIdle | Assets/ArmoredGolemAI.cs:110-116 | entering Idle sets the state and refills the idle timer; its `Idle` animator trigger is not logged |
| ArmoredGolemAI.Controller.IdleUpdate | Assets/ArmoredGolemAI.cs:118-132 | the idle frame updates the fields as IdleTick does |
| ArmoredGolemAI.Controller.ArmorUpThenChase | Assets/ArmoredGolemAI.cs:134-138 | starting the armour-up coroutine enters ArmorUp and logs its trigger |
| ArmoredGolemAI.Controller.ResumeArmorUp | Assets/ArmoredGolemAI.cs:139-142 | resuming after the armour-up wait updates the fields as ArmorUpDone does |
| ArmoredGolemAI.Controller.ChaseUpdate | Assets/ArmoredGolemAI.cs:145-167 | the chase frame updates the fields as ChaseTick does |
| ArmoredGolemAI.Controller.PerformMeleeAttack | Assets/ArmoredGolemAI.cs:169-175 | starting a swing enters Attack, spends the attack and logs the attack trigger |
| ArmoredGolemAI.Controller.ResumeMelee | Assets/ArmoredGolemAI.cs:176-182 | resuming after the swing wait updates the fields as MeleeDone does |
| ArmoredGolemAI.Controller.TakeDamage | Assets/ArmoredGolemAI.cs:185-194 | a hit updates the fields as Hit does |
| ArmoredGolemAI.Controller.DieRoutine | Assets/ArmoredGolemAI.cs:210-219 | dying marks the golem dead and logs the death trigger |
| ArmoredGolemAI.Controller.OnCollisionEnter2D | Assets/ArmoredGolemAI.cs:221-228 | a touch deals melee damage exactly when the golem is attacking and the other body is a damageable player |
| BoneArcherAI.PatrolTick | Assets/Chapter3EnemiesPrefabs/BoneArcher/BoneArcherAI.cs:84-109 | detecting the player during patrol starts the chase; otherwise an expired patrol time starts Idle with a full idle timer; the waypoint index only moves, by wrapping, when the waypoint is reached horizontally, and never with no waypoints; patrol never touches the attack routine or fires a trigger; the invariant is kept |
| BoneArcherAI.IdleTick | Assets/Chapter3EnemiesPrefabs/BoneArcher/BoneArcherAI.cs:112-126 | detection during Idle starts the chase; otherwise the idle timer runs down and its expiry returns to Patrol with a freshly drawn patrol time; the attack routine and triggers are untouched; the invariant is kept |
| BoneArcherAI.ChaseTick | Assets/Chapter3EnemiesPrefabs/BoneArcher/BoneArcherAI.cs:129-148 | losing the player returns to Patrol; otherwise the archer starts drawing exactly when in attack range and able to attack, spending the attack; otherwise nothing changes |
| BoneArcherAI.Tick | Assets/Chapter3EnemiesPrefabs/BoneArcher/BoneArcherAI.cs:70-81 | a dead or attacking archer ignores the frame; otherwise the frame goes to the handler of the current state; the invariant is kept |
| BoneArcherAI.DrawDone | Assets/Chapter3EnemiesPrefabs/BoneArcher/BoneArcherAI.cs:164-172 | after the draw delay an arrow is fired exactly when the prefab and spawn point exist, and the routine moves on to the cooldown |
| BoneArcherAI.CooldownDone | Assets/Chapter3EnemiesPrefabs/BoneArcher/BoneArcherAI.cs:174-175 | after the cooldown the archer can attack again and is put back in Chase, even when it died meanwhile |
| BoneArcherAI.Hit | Assets/Chapter3EnemiesPrefabs/BoneArcher/BoneArcherAI.cs:205-212 | every hit, even on a dead archer, loses exactly the damage and logs hurt; the archer enters Death exactly when health reaches zero or below, and stays dead |
| BoneArcherAI.RunKeepsValid | Assets/Chapter3EnemiesPrefabs/BoneArcher/BoneArcherAI.cs:70-235 | every sequence of frames, hits and coroutine resumptions keeps the archer's invariant: an attack routine runs exactly when the archer cannot attack, and the Attack state always has one |
| BoneArcherAI.ChaseTickKeepsArrowsWithinAttacks | Assets/Chapter3EnemiesPrefabs/BoneArcher/BoneArcherAI.cs:129-148 | starting to draw adds one attack trigger for the one arrow it may shoot, so arrows shot plus a draw in progress never outnumber attacks begun |
| BoneArcherAI.TickKeepsArrowsWithinAttacks | Assets/Chapter3EnemiesPrefabs/BoneArcher/BoneArcherAI.cs:129-148 | a frame never lets the arrows fired outnumber the attacks started |
| BoneArcherAI.HitKeepsArrowsWithinAttacks | Assets/Chapter3EnemiesPrefabs/BoneArcher/BoneArcherAI.cs:205-212 | a hit never lets the arrows fired outnumber the attacks started |
| BoneArcherAI.StepKeepsArrowsWithinAttacks | Assets/Chapter3EnemiesPrefabs/BoneArcher/BoneArcherAI.cs:150-176 | no single input lets the arrows fired outnumber the attacks started |
| BoneArcherAI.AtMostOneArrowPerAttack | Assets/Chapter3EnemiesPrefabs/BoneArcher/BoneArcherAI.cs:150-176 | over any run, the archer fires at most one arrow per attack it starts |
| BoneArcherAI.AttackCompletionRevives | Assets/Chapter3EnemiesPrefabs/BoneArcher/BoneArcherAI.cs:174-175 | an archer killed during its cooldown is put back into Chase when the cooldown ends |
| BoneArcherAI.Controller.constructor | Assets/Chapter3EnemiesPrefabs/BoneArcher/BoneArcherAI.cs:52-68 | the controller starts in the initial archer state |
| BoneArcherAI.Controller.Update | Assets/Chapter3EnemiesPrefabs/BoneArcher/BoneArcherAI.cs:70-81 | one frame updates the fields as Tick does |
| BoneArcherAI.Controller.PatrolUpdate | Assets/Chapter3EnemiesPrefabs/BoneArcher/BoneArcherAI.cs:84-109 | the patrol frame updates the fields as PatrolTick does |
| BoneArcherAI.Controller.IdleUpdate | Assets/Chapter3EnemiesPrefabs/BoneArcher/BoneArcherAI.cs:112-126 | the idle frame updates the fields as IdleTick does |
| BoneArcherAI.Controller.ChaseUpdate | Assets/Chapter3EnemiesPrefabs/BoneArcher/BoneArcherAI.cs:129-148 | the chase frame updates the fields as ChaseTick does |
| BoneArcherAI.Controller.AttackRoutine | Assets/Chapter3EnemiesPrefabs/BoneArcher/BoneArcherAI.cs:150-163 | starting the attack enters Attack, spends the attack, starts drawing and logs the attack trigger |
| BoneArcherAI.Controller.ResumeDraw | Assets/Chapter3EnemiesPrefabs/BoneArcher/BoneArcherAI.cs:164-172 | resuming after the draw delay updates the fields as DrawDone does |
| BoneArcherAI.Controller.ResumeCooldown | Assets/Chapter3EnemiesPrefabs/BoneArcher/BoneArcherAI.cs:174-175 | resuming after the cooldown updates the fields as CooldownDone does |
| BoneArcherAI.Controller.EnterPatrol | Assets/Chapter3EnemiesPrefabs/BoneArcher/BoneArcherAI.cs:179-184 | entering Patrol sets the state and draws a new patrol time |
| BoneArcherAI.Controller.EnterIdle | Assets/Chapter3EnemiesPrefabs/BoneArcher/BoneArcherAI.cs:186-191 | entering Idle sets the state and refills the idle timer; its `Idle` animator trigger is not logged |
| BoneArcherAI.Controller.EnterChase | Assets/Chapter3EnemiesPrefabs/BoneArcher/BoneArcherAI.cs:193-197 | entering Chase sets only the state |
| BoneArcherAI.Controller.TakeDamage | Assets/Chapter3EnemiesPrefabs/BoneArcher/BoneArcherAI.cs:205-212 | a hit updates the fields as Hit does |
| BoneArcherAI.Controller.EnterDeath | Assets/Chapter3EnemiesPrefabs/BoneArcher/BoneArcherAI.cs:228-235 | dying sets the Death state and logs the death trigger |
| BoneGladiatorAI.PatrolTick | Assets/Chapter3EnemiesPrefabs/BoneGladiator/BoneGladiatorAI.cs:96-122 | detecting the player during patrol starts the chase; otherwise an expired patrol time starts Idle; the waypoint index only moves, by wrapping, when the waypoint is reached horizontally, and never with no waypoints; patrol never touches the attack routine or fires a trigger; the invariant is kept |
| BoneGladiatorAI.IdleTick | Assets/Chapter3EnemiesPrefabs/BoneGladiator/BoneGladiatorAI.cs:125-139 | detection during Idle starts the chase; otherwise the idle timer runs down and its expiry returns to Patrol with a freshly drawn patrol time; the attack routine and triggers are untouched; the invariant is kept |
| BoneGladiatorAI.ChaseTick | Assets/Chapter3EnemiesPrefabs/BoneGladiator/BoneGladiatorAI.cs:142-167 | time out of detect range accumulates, and is kept, not reset, while the player is in range; once it reaches the chase-lost time the gladiator goes Idle with the count cleared; otherwise it swings exactly when in melee range and able to |
| BoneGladiatorAI.Tick | Assets/Chapter3EnemiesPrefabs/BoneGladiator/BoneGladiatorAI.cs:82-93 | a gladiator in Attack, Block or Death ignores the frame; otherwise the frame goes to the handler of the current state; the invariant is kept |
| BoneGladiatorAI.MeleeDone | Assets/Chapter3EnemiesPrefabs/BoneGladiator/BoneGladiatorAI.cs:176-181 | the end of a swing restores the ability to swing and returns to Chase unless the gladiator is blocking, even when it died meanwhile |
| BoneGladiatorAI.StartBlock | Assets/Chapter3EnemiesPrefabs/BoneGladiator/BoneGladiatorAI.cs:185-209 | entering the block replaces any running block routine, logs the block trigger and blocks for the block duration; with no duration the block ends at once with health restored to the maximum |
| BoneGladiatorAI.BlockFrame | Assets/Chapter3EnemiesPrefabs/BoneGladiator/BoneGladiatorAI.cs:192-209 | each block frame runs the timer down; when it has run out the gladiator is healed to full health and chases with the lost-time count cleared |
| BoneGladiatorAI.Hit | Assets/Chapter3EnemiesPrefabs/BoneGladiator/BoneGladiatorAI.cs:247-260 | a blocking gladiator ignores hits; otherwise the damage is taken and logged, and the gladiator dies when health reaches zero, starts a block when health is at or below the threshold, and otherwise keeps going; the invariant is kept |
| BoneGladiatorAI.Dash | Assets/Chapter3EnemiesPrefabs/BoneGladiator/BoneGladiatorAI.cs:276-280 | a shadow dash kills a gladiator exactly when it is blocking, without changing its health or its running block routine |
| BoneGladiatorAI.RunKeepsValid | Assets/Chapter3EnemiesPrefabs/BoneGladiator/BoneGladiatorAI.cs:82-296 | every sequence of frames, hits, dashes and coroutine resumptions keeps the gladiator's invariant |
| BoneGladiatorAI.DeathFinalWithoutRoutines | Assets/Chapter3EnemiesPrefabs/BoneGladiator/BoneGladiatorAI.cs:247-296 | a dead gladiator with no coroutine left stays dead under any inputs whose damage is not negative |
| BoneGladiatorAI.BlockEndRevivesDashKill | Assets/Chapter3EnemiesPrefabs/BoneGladiator/BoneGladiatorAI.cs:192-209 | a gladiator killed by a dash during its block is put back into Chase at full health when the block ends |
| BoneGladiatorAI.HitAfterDashKillBlocks | Assets/Chapter3EnemiesPrefabs/BoneGladiator/BoneGladiatorAI.cs:247-260 | a gladiator killed by a dash while blocking is no longer immune: a later hit into the threshold range starts a new block |
| BoneGladiatorAI.MeleeCompletionRevives | Assets/Chapter3EnemiesPrefabs/BoneGladiator/BoneGladiatorAI.cs:169-181 | a gladiator killed mid-swing is put back into Chase when the swing ends |
| BoneGladiatorAI.Controller.constructor | Assets/Chapter3EnemiesPrefabs/BoneGladiator/BoneGladiatorAI.cs:58-80 | the controller starts in the initial gladiator state |
| BoneGladiatorAI.Controller.Update | Assets/Chapter3EnemiesPrefabs/BoneGladiator/BoneGladiatorAI.cs:82-93 | one frame updates the fields as Tick does |
| BoneGladiatorAI.Controller.PatrolUpdate | Assets/Chapter3EnemiesPrefabs/BoneGladiator/BoneGladiatorAI.cs:96-122 | the patrol frame updates the fields as PatrolTick does |
| BoneGladiatorAI.Controller.IdleUpdate | Assets/Chapter3EnemiesPrefabs/BoneGladiator/BoneGladiatorAI.cs:125-139 | the idle frame updates the fields as IdleTick does |
| BoneGladiatorAI.Controller.ChaseUpdate | Assets/Chapter3EnemiesPrefabs/BoneGladiator/BoneGladiatorAI.cs:142-167 | the chase frame updates the fields as ChaseTick does |
| BoneGladiatorAI.Controller.Melee | Assets/Chapter3EnemiesPrefabs/BoneGladiator/BoneGladiatorAI.cs:169-175 | starting a swing enters Attack, spends the swing and logs the attack trigger |
| BoneGladiatorAI.Controller.ResumeMelee | Assets/Chapter3EnemiesPrefabs/BoneGladiator/BoneGladiatorAI.cs:176-181 | resuming after the swing wait updates the fields as MeleeDone does |
| BoneGladiatorAI.Controller.EnterBlock | Assets/Chapter3EnemiesPrefabs/BoneGladiator/BoneGladiatorAI.cs:185-190 | entering the block updates the fields as StartBlock does |
| BoneGladiatorAI.Controller.ResumeBlock | Assets/Chapter3EnemiesPrefabs/BoneGladiator/BoneGladiatorAI.cs:198-209 | resuming the block routine for one frame updates the fields as BlockFrame does |
| BoneGladiatorAI.Controller.EnterPatrol | Assets/Chapter3EnemiesPrefabs/BoneGladiator/BoneGladiatorAI.cs:213-218 | entering Patrol sets the state and draws a new patrol time |
| BoneGladiatorAI.Controller.EnterIdle | Assets/Chapter3EnemiesPrefabs/BoneGladiator/BoneGladiatorAI.cs:220-225 | entering Idle sets the state and refills the idle timer; its `Idle` animator trigger is not logged |
| BoneGladiatorAI.Controller.EnterChase | Assets/Chapter3EnemiesPrefabs/BoneGladiator/BoneGladiatorAI.cs:227-232 | entering Chase sets the state and clears the lost-time count |
| BoneGladiatorAI.Controller.TakeDamage | Assets/Chapter3EnemiesPrefabs/BoneGladiator/BoneGladiatorAI.cs:247-260 | a hit updates the fields as Hit does |
| BoneGladiatorAI.Controller.TakeDash | Assets/Chapter3EnemiesPrefabs/BoneGladiator/BoneGladiatorAI.cs:276-280 | a dash updates the fields as Dash does |
| BoneGladiatorAI.Controller.EnterDeath | Assets/Chapter3EnemiesPrefabs/BoneGladiator/BoneGladiatorAI.cs:288-296 | dying sets the Death state and logs the death trigger |
| BonePianistAI.InitialValid | Assets/Chapter3EnemiesPrefabs/BonePianist/BonePianistAIonetimeuse.cs:48-55 | the pianist starts idle with no summoning routine, which satisfies its invariant |
| BonePianistAI.ToAttack | Assets/Chapter3EnemiesPrefabs/BonePianist/BonePianistAIonetimeuse.cs:80-86 | entering Attack stops the previous summoning routine, starts a new one, which summons a skull at once when it can spawn and plays the attack trigger, and keeps health |
| BonePianistAI.ToIdle | Assets/Chapter3EnemiesPrefabs/BonePianist/BonePianistAIonetimeuse.cs:69-78 | entering Idle stops and forgets the summoning routine, leaving health and log untouched |
| BonePianistAI.ToDeath | Assets/Chapter3EnemiesPrefabs/BonePianist/BonePianistAIonetimeuse.cs:126-137 | dying stops the summoning routine, without clearing its handle, and logs the death trigger |
| BonePianistAI.Tick | Assets/Chapter3EnemiesPrefabs/BonePianist/BonePianistAIonetimeuse.cs:57-67 | a dead pianist, or one without a player, ignores the frame; an idle pianist attacks exactly when the player comes within detect range, and an attacking one goes idle exactly when the player leaves it; the invariant is kept |
| BonePianistAI.SummonResume | Assets/Chapter3EnemiesPrefabs/BonePianist/BonePianistAIonetimeuse.cs:88-97 | a stopped routine never resumes; a running one summons again while the pianist attacks, and otherwise ends |
| BonePianistAI.Hit | Assets/Chapter3EnemiesPrefabs/BonePianist/BonePianistAIonetimeuse.cs:99-110 | a dead pianist ignores hits; a live one loses exactly the damage, logs hurt, and dies exactly when health reaches zero or below |
| BonePianistAI.StepKeepsValid | Assets/Chapter3EnemiesPrefabs/BonePianist/BonePianistAIonetimeuse.cs:57-137 | no single input breaks the pianist's invariant: at most the current summoning routine is running |
| BonePianistAI.AtMostOneSummonRoutine | Assets/Chapter3EnemiesPrefabs/BonePianist/BonePianistAIonetimeuse.cs:80-86 | over any run at most one summoning routine is ever running at a time |
| BonePianistAI.DeathIsFinal | Assets/Chapter3EnemiesPrefabs/BonePianist/BonePianistAIonetimeuse.cs:99-137 | once dead, the pianist is unchanged by any inputs |
| BonePianistAI.SkullsOnlyInAttack | Assets/Chapter3EnemiesPrefabs/BonePianist/BonePianistAIonetimeuse.cs:88-97 | inputs only append to the log, and a skull is summoned only by an input after which the pianist is attacking |
| BonePianistAI.Controller.constructor | Assets/Chapter3EnemiesPrefabs/BonePianist/BonePianistAIonetimeuse.cs:39-55 | the controller starts in the initial pianist state |
| BonePianistAI.Controller.Update | Assets/Chapter3EnemiesPrefabs/BonePianist/BonePianistAIonetimeuse.cs:57-67 | one frame updates the fields as Tick does |
| BonePianistAI.Controller.EnterIdle | Assets/Chapter3EnemiesPrefabs/BonePianist/BonePianistAIonetimeuse.cs:69-78 | entering Idle updates the fields as ToIdle does |
| BonePianistAI.Controller.EnterAttack | Assets/Chapter3EnemiesPrefabs/BonePianist/BonePianistAIonetimeuse.cs:80-86 | entering Attack updates the fields as ToAttack does |
| BonePianistAI.Controller.StartSummonSkulls | Assets/Chapter3EnemiesPrefabs/BonePianist/BonePianistAIonetimeuse.cs:88-97 | starting a summoning coroutine hands out a fresh routine id, marks it running, and runs its first pass |
| BonePianistAI.Controller.SummonPass | Assets/Chapter3EnemiesPrefabs/BonePianist/BonePianistAIonetimeuse.cs:90-95 | one pass of the summoning loop updates the fields as Summon does |
| BonePianistAI.Controller.ResumeSummonSkulls | Assets/Chapter3EnemiesPrefabs/BonePianist/BonePianistAIonetimeuse.cs:88-97 | resuming a running routine after its wait updates the fields as SummonResume does |
| BonePianistAI.Controller.TakeDamage | Assets/Chapter3EnemiesPrefabs/BonePianist/BonePianistAIonetimeuse.cs:99-110 | a hit updates the fields as Hit does |
| BonePianistAI.Controller.EnterDeath | Assets/Chapter3EnemiesPrefabs/BonePianist/BonePianistAIonetimeuse.cs:126-137 | dying updates the fields as ToDeath does |
| ChapterOneExplodingSlimeAI.Initial | Assets/Chapter1EnemiesPrefabs/ExplodingSlime/ExplodingSlimeAI.cs:61-82 | the slime starts alive at full health, in Chase when it has fewer than two waypoints and in Patrol otherwise |
| ChapterOneExplodingSlimeAI.InitialValid | Assets/Chapter1EnemiesPrefabs/ExplodingSlime/ExplodingSlimeAI.cs:61-82 | the starting slime satisfies its invariant |
| ChapterOneExplodingSlimeAI.ExplodeSlime | Assets/Chapter1EnemiesPrefabs/ExplodingSlime/ExplodingSlimeAI.cs:232-256 | the explosion damages the player exactly when the player is in the blast, then marks the slime dead and logs the death trigger, changing nothing else |
| ChapterOneExplodingSlimeAI.PatrolTick | Assets/Chapter1EnemiesPrefabs/ExplodingSlime/ExplodingSlimeAI.cs:115-147 | with the start-chasing flag the slime chases at once; otherwise an out-of-range waypoint index changes nothing; the slime heads for its waypoint, advances the index by wrapping when the waypoint is reached, and can go Idle or start chasing but never starts the countdown |
| ChapterOneExplodingSlimeAI.IdleTick | Assets/Chapter1EnemiesPrefabs/ExplodingSlime/ExplodingSlimeAI.cs:149-163 | an idle slime stands still; it chases when the player is within chase range, and otherwise returns to Patrol with a freshly drawn patrol time when the idle timer runs out |
| ChapterOneExplodingSlimeAI.ChaseTick | Assets/Chapter1EnemiesPrefabs/ExplodingSlime/ExplodingSlimeAI.cs:165-173 | a chasing slime heads for the player and starts the countdown, with a full timer and the attack trigger, exactly when the player is within explode range |
| ChapterOneExplodingSlimeAI.CountdownTick | Assets/Chapter1EnemiesPrefabs/ExplodingSlime/ExplodingSlimeAI.cs:175-187 | the countdown is never left: the slime follows the player, the timer runs down, and the slime explodes once the timer reaches zero |
| ChapterOneExplodingSlimeAI.Tick | Assets/Chapter1EnemiesPrefabs/ExplodingSlime/ExplodingSlimeAI.cs:84-97 | a dead slime, one without a player or one with fewer than two waypoints ignores the frame; otherwise the frame goes to the handler of the current state; a running countdown is never cancelled |
| ChapterOneExplodingSlimeAI.Speed | Assets/Chapter1EnemiesPrefabs/ExplodingSlime/ExplodingSlimeAI.cs:99-111 | the slime moves at chase speed while chasing or counting down and at patrol speed otherwise |
| ChapterOneExplodingSlimeAI.Hit | Assets/Chapter1EnemiesPrefabs/ExplodingSlime/ExplodingSlimeAI.cs:269-277 | a dead slime ignores hits; a live one loses exactly the damage and stays alive for now, and a hit that brings health to zero or below schedules a death explosion |
| ChapterOneExplodingSlimeAI.DeathDone | Assets/Chapter1EnemiesPrefabs/ExplodingSlime/ExplodingSlimeAI.cs:258-267 | the end of a death wait explodes the slime whether or not it has already exploded: it is dead, one pending death fewer remains, state, health and waypoint are kept, and the log is only appended to |
| ChapterOneExplodingSlimeAI.DeathDoneDamagesInBlast | Assets/Chapter1EnemiesPrefabs/ExplodingSlime/ExplodingSlimeAI.cs:258-267 | the explosion at the end of a death wait damages the player exactly when the player is inside the blast radius |
| ChapterOneExplodingSlimeAI.DeathDoneExplodes | Assets/Chapter1EnemiesPrefabs/ExplodingSlime/ExplodingSlimeAI.cs:258-267 | the end of a death wait adds exactly one death trigger and no second-death trigger, so repeated fatal hits give repeated explosions |
| ChapterOneExplodingSlimeAI.ExplodeCounts | Assets/Chapter1EnemiesPrefabs/ExplodingSlime/ExplodingSlimeAI.cs:232-256 | each explosion logs exactly one more death trigger and no second-stage death trigger |
| ChapterOneExplodingSlimeAI.PatrolTickKeepsValid | Assets/Chapter1EnemiesPrefabs/ExplodingSlime/ExplodingSlimeAI.cs:115-147 | a patrol frame keeps the invariant (dead exactly once it has exploded, explosions plus pending deaths at most one more than fatal hits, waypoint index in range), the idle trigger touching no death count |
| ChapterOneExplodingSlimeAI.ChaseTickKeepsValid | Assets/Chapter1EnemiesPrefabs/ExplodingSlime/ExplodingSlimeAI.cs:165-173 | a chase frame keeps the invariant (dead exactly once it has exploded, explosions plus pending deaths at most one more than fatal hits, waypoint index in range), the attack trigger touching no death count |
| ChapterOneExplodingSlimeAI.CountdownTickKeepsValid | Assets/Chapter1EnemiesPrefabs/ExplodingSlime/ExplodingSlimeAI.cs:175-187 | a countdown frame keeps the invariant (dead exactly once it has exploded, explosions plus pending deaths at most one more than fatal hits, waypoint index in range), the explosion adding one death trigger to a slime that now counts as dead |
| ChapterOneExplodingSlimeAI.TickKeepsValid | Assets/Chapter1EnemiesPrefabs/ExplodingSlime/ExplodingSlimeAI.cs:84-187 | any frame keeps the invariant (dead exactly once it has exploded, explosions plus pending deaths at most one more than fatal hits, waypoint index in range) |
| ChapterOneExplodingSlimeAI.HitKeepsValid | Assets/Chapter1EnemiesPrefabs/ExplodingSlime/ExplodingSlimeAI.cs:269-277 | a hit keeps the invariant (dead exactly once it has exploded, explosions plus pending deaths at most one more than fatal hits, waypoint index in range): a fatal one adds a second death trigger and a pending death together |
| ChapterOneExplodingSlimeAI.DeathDoneKeepsValid | Assets/Chapter1EnemiesPrefabs/ExplodingSlime/ExplodingSlimeAI.cs:258-267 | the end of a death wait keeps the invariant (dead exactly once it has exploded, explosions plus pending deaths at most one more than fatal hits, waypoint index in range): it trades one pending death for one explosion |
| ChapterOneExplodingSlimeAI.StepKeepsValid | Assets/Chapter1EnemiesPrefabs/ExplodingSlime/ExplodingSlimeAI.cs:84-277 | any frame, hit or end of a death wait keeps the invariant (dead exactly once it has exploded, explosions plus pending deaths at most one more than fatal hits, waypoint index in range) |
| ChapterOneExplodingSlimeAI.RunKeepsValid | Assets/Chapter1EnemiesPrefabs/ExplodingSlime/ExplodingSlimeAI.cs:84-277 | every run keeps the invariant, so the slime explodes at most once more than it was fatally hit |
| ChapterOneExplodingSlimeAI.NoWaypointsStaysInChase | Assets/Chapter1EnemiesPrefabs/ExplodingSlime/ExplodingSlimeAI.cs:73-77 | a slime with fewer than two waypoints that is chasing never leaves Chase, because its frames are all ignored |
| ChapterOneExplodingSlimeAI.CountdownNeverCancelled | Assets/Chapter1EnemiesPrefabs/ExplodingSlime/ExplodingSlimeAI.cs:175-187 | once the countdown has started, no input leaves it |
| ChapterOneExplodingSlimeAI.TwoFatalHitsExplodeTwice | Assets/Chapter1EnemiesPrefabs/ExplodingSlime/ExplodingSlimeAI.cs:258-277 | two fatal hits before the first death wait ends schedule two deaths, and the slime explodes and damages the player twice |
| ChapterOneExplodingSlimeAI.Controller.constructor | Assets/Chapter1EnemiesPrefabs/ExplodingSlime/ExplodingSlimeAI.cs:61-82 | the controller starts in the initial slime state |
| ChapterOneExplodingSlimeAI.Controller.Update | Assets/Chapter1EnemiesPrefabs/ExplodingSlime/ExplodingSlimeAI.cs:84-97 | one frame updates the fields as Tick does |
| ChapterOneExplodingSlimeAI.Controller.FixedUpdate | Assets/Chapter1EnemiesPrefabs/ExplodingSlime/ExplodingSlimeAI.cs:99-111 | a dead slime sets no velocity; a live one moves horizontally at its direction times the speed of its state |
| ChapterOneExplodingSlimeAI.Controller.PatrolUpdate | Assets/Chapter1EnemiesPrefabs/ExplodingSlime/ExplodingSlimeAI.cs:115-147 | the patrol frame updates the fields as PatrolTick does |
| ChapterOneExplodingSlimeAI.Controller.IdleUpdate | Assets/Chapter1EnemiesPrefabs/ExplodingSlime/ExplodingSlimeAI.cs:149-163 | the idle frame updates the fields as IdleTick does |
| ChapterOneExplodingSlimeAI.Controller.ChaseUpdate | Assets/Chapter1EnemiesPrefabs/ExplodingSlime/ExplodingSlimeAI.cs:165-173 | the chase frame updates the fields as ChaseTick does |
| ChapterOneExplodingSlimeAI.Controller.ExplodeCountdownUpdate | Assets/Chapter1EnemiesPrefabs/ExplodingSlime/ExplodingSlimeAI.cs:175-187 | the countdown frame updates the fields as CountdownTick does |
| ChapterOneExplodingSlimeAI.Controller.EnterPatrol | Assets/Chapter1EnemiesPrefabs/ExplodingSlime/ExplodingSlimeAI.cs:193-198 | entering Patrol sets the state and draws a new patrol time |
| ChapterOneExplodingSlimeAI.Controller.EnterIdle | Assets/Chapter1EnemiesPrefabs/ExplodingSlime/ExplodingSlimeAI.cs:200-206 | entering Idle sets the state and refills the state timer with the idle duration |
| ChapterOneExplodingSlimeAI.Controller.EnterChase | Assets/Chapter1EnemiesPrefabs/ExplodingSlime/ExplodingSlimeAI.cs:208-212 | entering Chase sets only the state |
| ChapterOneExplodingSlimeAI.Controller.EnterExplodeCountdown | Assets/Chapter1EnemiesPrefabs/ExplodingSlime/ExplodingSlimeAI.cs:214-221 | entering the countdown sets the state, fills the timer with the countdown and logs the attack trigger |
| ChapterOneExplodingSlimeAI.Controller.Explode | Assets/Chapter1EnemiesPrefabs/ExplodingSlime/ExplodingSlimeAI.cs:232-256 | exploding updates the fields as ExplodeSlime does |
| ChapterOneExplodingSlimeAI.Controller.Death | Assets/Chapter1EnemiesPrefabs/ExplodingSlime/ExplodingSlimeAI.cs:258-263 | starting the death routine schedules one more explosion and logs the second-stage death trigger |
| ChapterOneExplodingSlimeAI.Controller.ResumeDeath | Assets/Chapter1EnemiesPrefabs/ExplodingSlime/ExplodingSlimeAI.cs:264-266 | resuming after the death wait updates the fields as DeathDone does |
| ChapterOneExplodingSlimeAI.Controller.TakeDamage | Assets/Chapter1EnemiesPrefabs/ExplodingSlime/ExplodingSlimeAI.cs:269-277 | a hit updates the fields as Hit does |
| DashingGolemAI.PatrolTick | Assets/Chapter2EnemiesPrefabs/DashingGolem/DashingGolemAI.cs:109-132 | a patrol frame with an out-of-range waypoint index changes nothing; an expired patrol time starts Idle; otherwise the golem starts its detect pause exactly when the player is within detect range; the waypoint index only moves, by wrapping, when the waypoint is reached; the invariant is kept |
| DashingGolemAI.IdleTick | Assets/Chapter2EnemiesPrefabs/DashingGolem/DashingGolemAI.cs:142-158 | detection during Idle starts the detect pause at once; otherwise the idle timer runs down and its expiry returns to Patrol with a freshly drawn patrol time; the attack routine and triggers are untouched; the invariant is kept |
| DashingGolemAI.ChaseTick | Assets/Chapter2EnemiesPrefabs/DashingGolem/DashingGolemAI.cs:173-215 | seeing the player resets the abandon timer to five seconds; out of range it runs down and its expiry returns to Patrol; otherwise the golem dashes exactly when in dash range with the dash cooldown, run down first, expired, which restarts the two-second cooldown and starts charging |
| DashingGolemAI.Tick | Assets/Chapter2EnemiesPrefabs/DashingGolem/DashingGolemAI.cs:86-107 | a dead golem, or one detecting or dashing, ignores the frame; otherwise the frame goes to the handler of the current state; the invariant is kept |
| DashingGolemAI.DetectDone | Assets/Chapter2EnemiesPrefabs/DashingGolem/DashingGolemAI.cs:169-170 | the end of the detect pause puts the golem in Chase with no wait pending, keeping its death flag, health, log, dash, layer and waypoint, so a golem that died meanwhile is dead in Chase |
| DashingGolemAI.ChargeDone | Assets/Chapter2EnemiesPrefabs/DashingGolem/DashingGolemAI.cs:224-237 | after charging the golem becomes untouchable, logs the attack trigger and starts the dash, or goes straight to braking when the dash distance is not positive |
| DashingGolemAI.DashFrame | Assets/Chapter2EnemiesPrefabs/DashingGolem/DashingGolemAI.cs:238-257 | the dash goes on exactly while the travelled distance is short of the dash distance and the dash timer is under two seconds, adding the frame time; braking then follows, and the routine finishes by restoring the layer and returning to Chase |
| DashingGolemAI.Hit | Assets/Chapter2EnemiesPrefabs/DashingGolem/DashingGolemAI.cs:261-272 | a dead golem ignores hits; a live one loses exactly the damage, logging no hurt trigger, and dies, entering Death and logging only the death trigger, exactly when health reaches zero or below |
| DashingGolemAI.RunKeepsValid | Assets/Chapter2EnemiesPrefabs/DashingGolem/DashingGolemAI.cs:86-302 | every sequence of frames, hits and coroutine resumptions keeps the golem's invariant |
| DashingGolemAI.DeadIsFrozen | Assets/Chapter2EnemiesPrefabs/DashingGolem/DashingGolemAI.cs:86-88 | once dead with no coroutine pending, nothing changes the golem |
| DashingGolemAI.DashLoopNotReentered | Assets/Chapter2EnemiesPrefabs/DashingGolem/DashingGolemAI.cs:238-244 | once out of the dash loop, frames never bring the golem back into it |
| DashingGolemAI.DashLoopEndsInTime | Assets/Chapter2EnemiesPrefabs/DashingGolem/DashingGolemAI.cs:238-244 | with frame times bounded below, the dash loop ends within the frames that take its timer to two seconds |
| DashingGolemAI.DetectCompletionAfterDeath | Assets/Chapter2EnemiesPrefabs/DashingGolem/DashingGolemAI.cs:160-171 | a golem killed during its detect pause is put back in Chase, still dead, when the pause ends |
| DashingGolemAI.Controller.constructor | Assets/Chapter2EnemiesPrefabs/DashingGolem/DashingGolemAI.cs:64-84 | the controller starts in the initial golem state |
| DashingGolemAI.Controller.Update | Assets/Chapter2EnemiesPrefabs/DashingGolem/DashingGolemAI.cs:86-107 | one frame updates the fields as Tick does |
| DashingGolemAI.Controller.PatrolUpdate | Assets/Chapter2EnemiesPrefabs/DashingGolem/DashingGolemAI.cs:109-132 | the patrol frame updates the fields as PatrolTick does |
| DashingGolemAI.Controller.EnterIdle | Assets/Chapter2EnemiesPrefabs/DashingGolem/DashingGolemAI.cs:134-140 | entering Idle sets the state and refills the idle timer; its `Idle` animator trigger is not logged |
| DashingGolemAI.Controller.IdleUpdate | Assets/Chapter2EnemiesPrefabs/DashingGolem/DashingGolemAI.cs:142-158 | the idle frame updates the fields as IdleTick does |
| DashingGolemAI.Controller.DetectThenChase | Assets/Chapter2EnemiesPrefabs/DashingGolem/DashingGolemAI.cs:160-167 | starting the detect coroutine enters Detect and logs its trigger |
| DashingGolemAI.Controller.ResumeDetect | Assets/Chapter2EnemiesPrefabs/DashingGolem/DashingGolemAI.cs:168-170 | resuming after the detect wait updates the fields as DetectDone does |
| DashingGolemAI.Controller.ChaseUpdate | Assets/Chapter2EnemiesPrefabs/DashingGolem/DashingGolemAI.cs:173-215 | the chase frame updates the fields as ChaseTick does |
| DashingGolemAI.Controller.DashRoutine | Assets/Chapter2EnemiesPrefabs/DashingGolem/DashingGolemAI.cs:217-227 | starting the dash coroutine enters Dash and starts charging |
| DashingGolemAI.Controller.ResumeCharge | Assets/Chapter2EnemiesPrefabs/DashingGolem/DashingGolemAI.cs:228-237 | resuming after the charge updates the fields as ChargeDone does |
| DashingGolemAI.Controller.ResumeDashFrame | Assets/Chapter2EnemiesPrefabs/DashingGolem/DashingGolemAI.cs:238-257 | resuming the dash or braking loop for one frame updates the fields as DashFrame does |
| DashingGolemAI.Controller.EnterBraking | Assets/Chapter2EnemiesPrefabs/DashingGolem/DashingGolemAI.cs:245-247 | leaving the dash loop starts braking from the current speed |
| DashingGolemAI.Controller.EndDash | Assets/Chapter2EnemiesPrefabs/DashingGolem/DashingGolemAI.cs:254-257 | finishing the dash restores the layer and returns to Chase |
| DashingGolemAI.Controller.TakeDamage | Assets/Chapter2EnemiesPrefabs/DashingGolem/DashingGolemAI.cs:261-272 | a hit updates the fields as Hit does |
| DashingGolemAI.Controller.DieRoutine | Assets/Chapter2EnemiesPrefabs/DashingGolem/DashingGolemAI.cs:288-302 | dying marks the golem dead, enters Death and logs the death trigger |
| DashingGolemAI.Controller.OnCollisionEnter2D | Assets/Chapter2EnemiesPrefabs/DashingGolem/DashingGolemAI.cs:304-311 | a touch deals dash damage exactly when the golem is dashing and the other body is a damageable player |
| Common.Sign | Assets/Chapter1EnemiesPrefabs/ExplodingSlime/ExplodingSlimeAI.cs:126 | the sign of a direction is always 1 or -1, negative exactly for a negative input, so zero counts as positive |
| Common.NextWaypoint | Assets/Chapter3EnemiesPrefabs/BoneArcher/BoneArcherAI.cs:108 | the next waypoint index stays in range and wraps to 0 exactly after the last waypoint |
| ExplodingSlimeAI.InitialValid | Assets/ExplodingSlimeAI.cs:70-83 | the starting slime, alive in Patrol at full health, satisfies its invariant |
| ExplodingSlimeAI.ExplodeSlime | Assets/ExplodingSlimeAI.cs:228-263 | the explosion damages the player exactly when the player is in the blast, then marks the slime dead and logs the death trigger, changing nothing else |
| ExplodingSlimeAI.PatrolTick | Assets/ExplodingSlimeAI.cs:115-138 | an out-of-range waypoint index changes nothing; otherwise the slime heads for its waypoint, advances the index by wrapping when within 0.1 of it, and runs down the patrol time; its expiry starts Idle with a full idle timer, and otherwise the slime chases exactly when the player is within chase range |
| ExplodingSlimeAI.IdleTick | Assets/ExplodingSlimeAI.cs:140-155 | an idle slime stands still; it chases when the player is within chase range, and otherwise returns to Patrol with a freshly drawn patrol time when the idle timer runs out |
| ExplodingSlimeAI.ChaseTick | Assets/ExplodingSlimeAI.cs:157-168 | a chasing slime heads for the player and starts the countdown, with a full timer and the attack trigger, exactly when the player is within explode range |
| ExplodingSlimeAI.CountdownTick | Assets/ExplodingSlimeAI.cs:170-185 | the countdown is never left: the slime follows the player, the timer runs down, and the slime explodes once the timer reaches zero |
| ExplodingSlimeAI.Tick | Assets/ExplodingSlimeAI.cs:85-98 | a dead slime, one without a player or one with fewer than two waypoints ignores the frame; otherwise the frame goes to the handler of the current state; a running countdown is never cancelled |
| ExplodingSlimeAI.Hit | Assets/ExplodingSlimeAI.cs:265-273 | a dead slime ignores hits; a live one loses exactly the damage and logs hurt, and explodes at once exactly when health reaches zero or below |
| ExplodingSlimeAI.ExplodeCounts | Assets/ExplodingSlimeAI.cs:228-263 | each explosion logs exactly one more death trigger |
| ExplodingSlimeAI.TickKeepsValid | Assets/ExplodingSlimeAI.cs:85-185 | a frame keeps the slime's invariant |
| ExplodingSlimeAI.HitKeepsValid | Assets/ExplodingSlimeAI.cs:265-273 | a hit keeps the slime's invariant |
| ExplodingSlimeAI.RunKeepsValid | Assets/ExplodingSlimeAI.cs:85-273 | every run keeps the invariant, so the slime explodes at most once |
| ExplodingSlimeAI.DeadIsFrozen | Assets/ExplodingSlimeAI.cs:85-87 | once exploded, nothing changes the slime |
| ExplodingSlimeAI.CountdownNeverCancelled | Assets/ExplodingSlimeAI.cs:170-185 | once the countdown has started, no input leaves it |
| ExplodingSlimeAI.CountdownExplodesInTime | Assets/ExplodingSlimeAI.cs:170-185 | during the countdown the timer falls by exactly the frame times, and the slime has exploded once they add up to the starting timer |
| ExplodingSlimeAI.Controller.constructor | Assets/ExplodingSlimeAI.cs:70-83 | the controller starts in the initial slime state |
| ExplodingSlimeAI.Controller.Update | Assets/ExplodingSlimeAI.cs:85-98 | one frame updates the fields as Tick does |
| ExplodingSlimeAI.Controller.FixedUpdate | Assets/ExplodingSlimeAI.cs:100-111 | a velocity is set exactly when the slime is alive and not idle, and it is the move direction times the move speed |
| ExplodingSlimeAI.Controller.PatrolUpdate | Assets/ExplodingSlimeAI.cs:115-138 | the patrol frame updates the fields as PatrolTick does |
| ExplodingSlimeAI.Controller.IdleUpdate | Assets/ExplodingSlimeAI.cs:140-155 | the idle frame updates the fields as IdleTick does |
| ExplodingSlimeAI.Controller.ChaseUpdate | Assets/ExplodingSlimeAI.cs:157-168 | the chase frame updates the fields as ChaseTick does |
| ExplodingSlimeAI.Controller.ExplodeCountdownUpdate | Assets/ExplodingSlimeAI.cs:170-185 | the countdown frame updates the fields as CountdownTick does |
| ExplodingSlimeAI.Controller.EnterPatrol | Assets/ExplodingSlimeAI.cs:191-196 | entering Patrol sets the state and draws a new patrol time |
| ExplodingSlimeAI.Controller.EnterIdle | Assets/ExplodingSlimeAI.cs:198-204 | entering Idle sets the state and refills the state timer with the idle duration |
| ExplodingSlimeAI.Controller.EnterChase | Assets/ExplodingSlimeAI.cs:206-210 | entering Chase sets only the state |
| ExplodingSlimeAI.Controller.EnterExplodeCountdown | Assets/ExplodingSlimeAI.cs:212-217 | entering the countdown sets the state, fills the timer and logs the attack trigger |
| ExplodingSlimeAI.Controller.Explode | Assets/ExplodingSlimeAI.cs:228-263 | exploding updates the fields as ExplodeSlime does |
| ExplodingSlimeAI.Controller.TakeDamage | Assets/ExplodingSlimeAI.cs:265-273 | a hit updates the fields as Hit does |
| FlyingSlimeAI.InitialValid | Assets/EnemiesPrefabs/FlyingSlime/FlyingSlimeAI.cs:55-70 | a slime started on a target drawn inside its patrol area satisfies its invariant |
| FlyingSlimeAI.PatrolTick | Assets/EnemiesPrefabs/FlyingSlime/FlyingSlimeAI.cs:114-130 | reaching the patrol target replaces it with a fresh draw; the stop timer runs down and its expiry starts Idle with a full idle timer; otherwise the slime chases exactly when the player is within chase range |
| FlyingSlimeAI.IdleTick | Assets/EnemiesPrefabs/FlyingSlime/FlyingSlimeAI.cs:132-145 | detection during Idle starts the chase; otherwise the idle timer runs down and its expiry returns to Patrol with a new target and stop time |
| FlyingSlimeAI.ChaseTick | Assets/EnemiesPrefabs/FlyingSlime/FlyingSlimeAI.cs:147-157 | the chase is given up, for Patrol with a new target and stop time, exactly when the player is beyond the lose range; otherwise nothing changes |
| FlyingSlimeAI.Tick | Assets/EnemiesPrefabs/FlyingSlime/FlyingSlimeAI.cs:72-90 | a dead slime, or one without a player or a patrol area, ignores the frame; otherwise the frame goes to the handler of the current state; frames never change health or death |
| FlyingSlimeAI.Hit | Assets/EnemiesPrefabs/FlyingSlime/FlyingSlimeAI.cs:209-217 | a dead slime ignores hits; a live one loses exactly the damage, logs hurt, and dies exactly when health reaches zero or below, keeping its state and target |
| FlyingSlimeAI.StepKeepsValid | Assets/EnemiesPrefabs/FlyingSlime/FlyingSlimeAI.cs:72-226 | an input whose fresh targets lie in the patrol area keeps the invariant: the target is always inside the area and the slime dies at most once |
| FlyingSlimeAI.TickKeepsValid | Assets/EnemiesPrefabs/FlyingSlime/FlyingSlimeAI.cs:72-193 | a frame update whose fresh target lies in the patrol area keeps the patrol target inside the area and keeps the death trigger fired once if the slime is dead and never otherwise |
| FlyingSlimeAI.HitKeepsValid | Assets/EnemiesPrefabs/FlyingSlime/FlyingSlimeAI.cs:209-226 | a hit, fatal or not, keeps the death trigger fired once if the slime is dead and never otherwise, and leaves the patrol target inside the area |
| FlyingSlimeAI.RunKeepsValid | Assets/EnemiesPrefabs/FlyingSlime/FlyingSlimeAI.cs:187-193 | every run whose fresh targets are drawn inside the patrol area keeps the invariant |
| FlyingSlimeAI.DeadIsFrozen | Assets/EnemiesPrefabs/FlyingSlime/FlyingSlimeAI.cs:72-75 | once dead, nothing changes the slime |
| FlyingSlimeAI.ChaseHeldWithinLoseRange | Assets/EnemiesPrefabs/FlyingSlime/FlyingSlimeAI.cs:147-157 | a chase in which the player never goes beyond the lose range is never given up |
| FlyingSlimeAI.Controller.constructor | Assets/EnemiesPrefabs/FlyingSlime/FlyingSlimeAI.cs:55-70 | the controller starts in the initial slime state |
| FlyingSlimeAI.Controller.Update | Assets/EnemiesPrefabs/FlyingSlime/FlyingSlimeAI.cs:72-90 | one frame updates the fields as Tick does |
| FlyingSlimeAI.Controller.FixedUpdate | Assets/EnemiesPrefabs/FlyingSlime/FlyingSlimeAI.cs:92-110 | a dead slime's motion is untouched; an idle one stops; a chasing one flies toward the player at chase speed and a patrolling one toward its target at patrol speed |
| FlyingSlimeAI.Controller.PatrolUpdate | Assets/EnemiesPrefabs/FlyingSlime/FlyingSlimeAI.cs:114-130 | the patrol frame updates the fields as PatrolTick does |
| FlyingSlimeAI.Controller.IdleUpdate | Assets/EnemiesPrefabs/FlyingSlime/FlyingSlimeAI.cs:132-145 | the idle frame updates the fields as IdleTick does |
| FlyingSlimeAI.Controller.ChaseUpdate | Assets/EnemiesPrefabs/FlyingSlime/FlyingSlimeAI.cs:147-157 | the chase frame updates the fields as ChaseTick does |
| FlyingSlimeAI.Controller.EnterPatrol | Assets/EnemiesPrefabs/FlyingSlime/FlyingSlimeAI.cs:163-168 | entering Patrol draws a new target and stop time and sets the state |
| FlyingSlimeAI.Controller.EnterIdle | Assets/EnemiesPrefabs/FlyingSlime/FlyingSlimeAI.cs:170-175 | entering Idle refills the idle timer and sets the state |
| FlyingSlimeAI.Controller.EnterChase | Assets/EnemiesPrefabs/FlyingSlime/FlyingSlimeAI.cs:177-180 | entering Chase sets only the state |
| FlyingSlimeAI.Controller.PickNewPatrolTarget | Assets/EnemiesPrefabs/FlyingSlime/FlyingSlimeAI.cs:187-193 | a new patrol target replaces the old one and nothing else changes |
| FlyingSlimeAI.Controller.OnCollisionStay2D | Assets/EnemiesPrefabs/FlyingSlime/FlyingSlimeAI.cs:199-207 | a touch deals contact damage exactly when the slime is alive and the other body is a damageable player |
| FlyingSlimeAI.Controller.TakeDamage | Assets/EnemiesPrefabs/FlyingSlime/FlyingSlimeAI.cs:209-217 | a hit updates the fields as Hit does |
| FlyingSlimeAI.Controller.Die | Assets/EnemiesPrefabs/FlyingSlime/FlyingSlimeAI.cs:219-226 | dying marks the slime dead and logs the death trigger |
| GolemBossAI.Tick | Assets/GolemBossAI.cs:70-101 | a frame changes the boss only when it is chasing, within melee range and able to swing, and then it starts the swing, spends it and logs the melee trigger; the invariant is kept |
| GolemBossAI.MeleeDone | Assets/GolemBossAI.cs:110-114 | the end of a swing restores the swing and returns to Chase, even from Death, leaving health, the bullet-hell routine and the log untouched |
| GolemBossAI.Hit | Assets/GolemBossAI.cs:183-197 | a dead boss ignores hits; otherwise the damage is taken and logged, a hit during bullet hell drops the boss back to Chase, and a hit to zero or below enters Death |
| GolemBossAI.FartherWaypoint | Assets/GolemBossAI.cs:136-138 | the boss runs to the waypoint farther from the player, the second one on a tie |
| GolemBossAI.StartHell | Assets/GolemBossAI.cs:117-128 | the sequence enters BulletHell, slams the ground and stuns the player when the player has stats |
| GolemBossAI.AfterSlam | Assets/GolemBossAI.cs:129-148 | after the slam wait the boss becomes untouchable and runs to the farther waypoint when there are exactly two and it is not already there; otherwise it goes straight on |
| GolemBossAI.AfterRunFrame | Assets/GolemBossAI.cs:141-147 | the run goes on while the boss is more than 0.3 from its waypoint and ends once it is within it |
| GolemBossAI.AfterRun | Assets/GolemBossAI.cs:150-180 | after the run the boss is touchable again and releases the player; it starts firing if still in BulletHell and otherwise returns to Chase |
| GolemBossAI.AfterBulletInterval | Assets/GolemBossAI.cs:161-180 | after each interval a boss still in BulletHell fires, spawning a bullet when it can; otherwise the sequence ends in Chase |
| GolemBossAI.RunKeepsValid | Assets/GolemBossAI.cs:70-222 | every sequence of frames, hits and coroutine resumptions keeps the boss's invariant |
| GolemBossAI.BulletHellNeverStarts | Assets/GolemBossAI.cs:117-181 | the controller itself never starts the bullet-hell sequence, so a boss outside it never fires |
| GolemBossAI.MeleeCompletionRevivesDeadBoss | Assets/GolemBossAI.cs:103-115 | a boss killed mid-swing is put back into Chase, at zero health, when the swing ends |
| GolemBossAI.Controller.constructor | Assets/GolemBossAI.cs:55-68 | the controller starts in the initial boss state |
| GolemBossAI.Controller.Update | Assets/GolemBossAI.cs:70-82 | one frame updates the fields as Tick does |
| GolemBossAI.Controller.ChaseUpdate | Assets/GolemBossAI.cs:84-101 | the chase frame updates the fields as Tick does for a chasing boss |
| GolemBossAI.Controller.MeleeCoroutine | Assets/GolemBossAI.cs:103-108 | starting a swing enters the melee state, spends the swing and logs the melee trigger |
| GolemBossAI.Controller.ResumeMelee | Assets/GolemBossAI.cs:110-114 | resuming after the swing wait updates the fields as MeleeDone does |
| GolemBossAI.Controller.BulletHellSequence | Assets/GolemBossAI.cs:117-128 | starting the sequence updates the fields as StartHell does |
| GolemBossAI.Controller.ResumeSlam | Assets/GolemBossAI.cs:129-148 | resuming after the slam wait updates the fields as AfterSlam does |
| GolemBossAI.Controller.ResumeRun | Assets/GolemBossAI.cs:141-147 | resuming the run for one frame updates the fields as AfterRunFrame does |
| GolemBossAI.Controller.FinishRun | Assets/GolemBossAI.cs:150-158 | finishing the run updates the fields as AfterRun does |
| GolemBossAI.Controller.ResumeFire | Assets/GolemBossAI.cs:163-177 | resuming after a bullet interval updates the fields as AfterBulletInterval does |
| GolemBossAI.Controller.TakeDamage | Assets/GolemBossAI.cs:183-197 | a hit updates the fields as Hit does |
| GolemBossAI.Controller.DieRoutine | Assets/GolemBossAI.cs:213-222 | dying enters Death and logs the death trigger |
| GolemBossStats.ApplyDamage | Assets/GolemBossStats.cs:31-54 | a dead boss ignores damage and fires nothing; otherwise health falls by exactly the damage and is clamped at zero, so it never goes negative |
| GolemBossStats.ApplyDamageSpec | Assets/GolemBossStats.cs:37-53 | each phase event fires exactly in the hit that first brings health to 400 or 300 or below, death fires exactly when a live boss's health reaches zero, and each flag becomes set exactly when its event fires and never clears |
| GolemBossStats.EventsInOrder | Assets/GolemBossStats.cs:37-53 | the events of one hit come in the order phase one, phase two, death, none repeated |
| GolemBossStats.BulletHellFiresOnce | Assets/GolemBossStats.cs:37-47 | over any run of hits each phase event fires at most once, and exactly once when its flag becomes set |
| GolemBossStats.DeathFiresOnce | Assets/GolemBossStats.cs:49-53 | over any run of hits health never goes negative, and death fires exactly once when health goes from positive to zero |
| GolemBossStats.DeadStaysDead | Assets/GolemBossStats.cs:33 | once health is zero or below, hits change nothing and fire nothing |
| GolemBossStats.OneFatalHitFiresAll | Assets/GolemBossStats.cs:35-53 | a single fatal hit on a fresh boss fires both phase events and then death |
| GolemBossStats.Stats.constructor | Assets/GolemBossStats.cs:19-26 | the boss starts at full health with neither phase fired |
| GolemBossStats.Stats.TakeDamage | Assets/GolemBossStats.cs:31-54 | a hit updates health and flags and appends the events as ApplyDamage says |
| PlayerStats.Regen | Assets/Player/scripts/PlayerStats.cs:54-67 | full stamina never regenerates; below the maximum the regen timer runs down and, when it expires, stamina rises by the regen amount capped at the maximum and the timer restarts |
| PlayerStats.Spend | Assets/Player/scripts/PlayerStats.cs:72-80 | spending succeeds exactly when the stamina covers the amount, and then lowers the stamina by it and restarts the regen timer; a refused spend changes nothing |
| PlayerStats.Hit | Assets/Player/scripts/PlayerStats.cs:85-124 | a dead or invincible player ignores damage; a fatal hit sets health to zero and kills; any other hit lowers health by the damage and makes the player invincible when the invincibility lasts at all |
| PlayerStats.FlashStep | Assets/Player/scripts/PlayerStats.cs:135-144 | each flash cycle adds two flash intervals to the timer; the player stays invincible exactly while the timer is below the invincibility duration |
| PlayerStats.InvincibleUntilDurationElapses | Assets/Player/scripts/PlayerStats.cs:131-145 | after k flash cycles the player is still invincible exactly when k flash cycles of two intervals each have not yet reached the invincibility duration |
| PlayerStats.RunKeepsValid | Assets/Player/scripts/PlayerStats.cs:54-145 | any run of frames, non-negative stamina spends, hits and flash resumptions keeps health and stamina within their bounds |
| PlayerStats.DeathIsFinal | Assets/Player/scripts/PlayerStats.cs:87 | once dead, the player stays dead at the same health whatever happens |
| PlayerStats.Stats.constructor | Assets/Player/scripts/PlayerStats.cs:47-52 | the player starts with full health, full stamina and a full regen timer |
| PlayerStats.Stats.Update | Assets/Player/scripts/PlayerStats.cs:54-67 | one frame updates the fields as Regen does |
| PlayerStats.Stats.SpendStamina | Assets/Player/scripts/PlayerStats.cs:72-80 | the answer and the new state are those of Spend |
| PlayerStats.Stats.TakeDamage | Assets/Player/scripts/PlayerStats.cs:85-129 | a hit updates the fields as Hit does |
| PlayerStats.Stats.InvincibilityFlash | Assets/Player/scripts/PlayerStats.cs:131-135 | starting the flash makes the player invincible for a positive duration and otherwise ends invincibility at once |
| PlayerStats.Stats.ResumeFlash | Assets/Player/scripts/PlayerStats.cs:136-144 | resuming the flash for one cycle updates the fields as FlashStep does |
| PlayerStats.Stats.Die | Assets/Player/scripts/PlayerStats.cs:147-150 | dying marks the player dead |
| PrefabExplodingSlimeAI.Speed | Assets/EnemiesPrefabs/ExplodingSlime/ExplodingSlimeAI.cs:104-116 | the slime moves at chase speed while chasing or counting down and at patrol speed otherwise |
| PrefabExplodingSlimeAI.IdleStandsStill | Assets/EnemiesPrefabs/ExplodingSlime/ExplodingSlimeAI.cs:141-155 | a slime that stays Idle through a frame has no horizontal velocity |
| PrefabExplodingSlimeAI.Controller.constructor | Assets/EnemiesPrefabs/ExplodingSlime/ExplodingSlimeAI.cs:74-87 | the controller starts in the initial slime state |
| PrefabExplodingSlimeAI.Controller.Update | Assets/EnemiesPrefabs/ExplodingSlime/ExplodingSlimeAI.cs:89-102 | one frame updates the fields as the shared slime Tick does |
| PrefabExplodingSlimeAI.Controller.FixedUpdate | Assets/EnemiesPrefabs/ExplodingSlime/ExplodingSlimeAI.cs:104-116 | a dead slime sets no velocity; a live one moves horizontally at its direction times the speed of its state |
| PrefabExplodingSlimeAI.Controller.PatrolUpdate | Assets/EnemiesPrefabs/ExplodingSlime/ExplodingSlimeAI.cs:120-139 | the patrol frame updates the fields as the shared slime PatrolTick does |
| PrefabExplodingSlimeAI.Controller.IdleUpdate | Assets/EnemiesPrefabs/ExplodingSlime/ExplodingSlimeAI.cs:141-155 | the idle frame updates the fields as the shared slime IdleTick does |
| PrefabExplodingSlimeAI.Controller.ChaseUpdate | Assets/EnemiesPrefabs/ExplodingSlime/ExplodingSlimeAI.cs:157-165 | the chase frame updates the fields as the shared slime ChaseTick does |
| PrefabExplodingSlimeAI.Controller.ExplodeCountdownUpdate | Assets/EnemiesPrefabs/ExplodingSlime/ExplodingSlimeAI.cs:167-179 | the countdown frame updates the fields as the shared slime CountdownTick does |
| PrefabExplodingSlimeAI.Controller.EnterPatrol | Assets/EnemiesPrefabs/ExplodingSlime/ExplodingSlimeAI.cs:185-190 | entering Patrol sets the state and draws a new patrol time |
| PrefabExplodingSlimeAI.Controller.EnterIdle | Assets/EnemiesPrefabs/ExplodingSlime/ExplodingSlimeAI.cs:192-198 | entering Idle sets the state and refills the state timer with the idle duration |
| PrefabExplodingSlimeAI.Controller.EnterChase | Assets/EnemiesPrefabs/ExplodingSlime/ExplodingSlimeAI.cs:200-204 | entering Chase sets only the state |
| PrefabExplodingSlimeAI.Controller.EnterExplodeCountdown | Assets/EnemiesPrefabs/ExplodingSlime/ExplodingSlimeAI.cs:206-211 | entering the countdown sets the state, fills the timer and logs the attack trigger |
| PrefabExplodingSlimeAI.Controller.Explode | Assets/EnemiesPrefabs/ExplodingSlime/ExplodingSlimeAI.cs:222-243 | exploding updates the fields as the shared slime ExplodeSlime does |
| PrefabExplodingSlimeAI.Controller.TakeDamage | Assets/EnemiesPrefabs/ExplodingSlime/ExplodingSlimeAI.cs:245-253 | a hit updates the fields as the shared slime Hit does |
| ReaperAI.Tick | Assets/ReaperAI.cs:50-68 | a frame changes the reaper only when it is chasing, within melee range and able to swing, and then it starts the swing; the invariant is kept |
| ReaperAI.MeleeDone | Assets/ReaperAI.cs:78-89 | the end of a swing always restores the swing, and returns to Chase only when the reaper is still attacking, so a summoning phase started meanwhile is kept |
| ReaperAI.StartSummon1 | Assets/ReaperAI.cs:92-99 | starting the first summoning phase sets the SummonPhase2 state, as the code does, and adds a new running routine for that phase |
| ReaperAI.StartSummon2 | Assets/ReaperAI.cs:143-150 | starting the second summoning phase sets the SummonPhase2 state and adds a new running routine for that phase |
| ReaperAI.WaveSpawnsEachPointOnce | Assets/ReaperAI.cs:184-187 | a wave spawns exactly one skull at each spawn point and none at an index past the last spawn point |
| ReaperAI.SpinHangsWhileSummonsRemain | Assets/ReaperAI.cs:132-136 | the wait for the army to be cleared, as written, never exits, however many passes it makes, while a summon is alive when it starts, since the loop never yields and so nothing can destroy a summon |
| ReaperAI.IntendedWaitEndsOnFirstClearFrame | Assets/ReaperAI.cs:131-138 | with the wait polled once per frame, frames with summons left change nothing, and the first frame with none left ends the wait, turns summoning off exactly once and moves on to the outro |
| ReaperAI.ResumeSummon1 | Assets/ReaperAI.cs:97-141 | each resumption moves the first-phase routine one step: the army is activated after the fade out and fade in, the routine then waits until no summon is left, and its end returns the reaper to Chase and removes the routine |
| ReaperAI.ResumeSummon2 | Assets/ReaperAI.cs:148-199 | each resumption moves the second-phase routine one step: a wave is spawned, then waves repeat after each interval until no summon is left, when summoning stops; its end returns the reaper to Chase and removes the routine |
| ReaperAI.RunKeepsValid | Assets/ReaperAI.cs:50-199 | every run keeps the reaper's invariant, and the SummonPhase1 state is never entered |
| ReaperAI.SummonSurvivesMeleeCompletion | Assets/ReaperAI.cs:78-89 | a swing ending during a summoning phase does not cut the phase short: the reaper stays summoning and can swing again |
| ReaperAI.Controller.constructor | Assets/ReaperAI.cs:37-48 | the controller starts chasing, able to swing, with no summoning routine |
| ReaperAI.Controller.Update | Assets/ReaperAI.cs:50-68 | one frame updates the fields as Tick does |
| ReaperAI.Controller.MeleeAttack | Assets/ReaperAI.cs:70-77 | starting a swing enters Attack, spends the swing and logs the attack trigger |
| ReaperAI.Controller.ResumeMelee | Assets/ReaperAI.cs:78-89 | resuming after the swing wait updates the fields as MeleeDone does |
| ReaperAI.Controller.OnSummonArmyPhase1 | Assets/ReaperAI.cs:92-95 | the first summoning phase starts as StartSummon1 says |
| ReaperAI.Controller.OnSummonArmyPhase2 | Assets/ReaperAI.cs:143-146 | the second summoning phase starts as StartSummon2 says |
| ReaperAI.Controller.ResumeSummonPhase1 | Assets/ReaperAI.cs:97-141 | resuming a first-phase routine updates the fields as ResumeSummon1 does |
| ReaperAI.Controller.ResumeSummonPhase2 | Assets/ReaperAI.cs:148-199 | resuming a second-phase routine updates the fields as ResumeSummon2 does |
| ReaperAI.Controller.SpawnWave | Assets/ReaperAI.cs:184-187 | the spawn loop appends exactly one wave to the log |
| ReaperStats.ApplyDamage | Assets/ReaperStats.cs:32-46 | a dead reaper ignores damage; otherwise health falls by the damage with no clamp, and the army is summoned exactly when health first reaches 450 or below; no other phase flag ever changes |
| ReaperStats.SummonAtMostOnce | Assets/ReaperStats.cs:39-43 | over any run of hits the army is summoned at most once, and exactly once when its flag becomes set; the unused flags stay unset |
| ReaperStats.DeadIgnoresHits | Assets/ReaperStats.cs:34 | once health is zero or below, hits change nothing and summon nothing |
| ReaperStats.FatalHitCanOvershoot | Assets/ReaperStats.cs:36 | a fatal hit leaves health below zero, since nothing clamps it |
| ReaperStats.Stats.constructor | Assets/ReaperStats.cs:23-29 | the reaper starts at full health with no phase fired |
| ReaperStats.Stats.TakeDamage | Assets/ReaperStats.cs:32-46 | a hit updates health and flags as ApplyDamage says, and starts the first summoning phase on the reaper controller exactly when ApplyDamage summons |
| RisingLava.InitialValid | Assets/Enviorenment/Lava/LavaScripts/RisingLava.cs:10-11 | the lava starts still and not started, which satisfies its invariant |
| RisingLava.Start | Assets/Enviorenment/Lava/LavaScripts/RisingLava.cs:13-21 | every call plays the lava sound; only the first starts the rising routine, which sets the lava moving at once |
| RisingLava.Resume | Assets/Enviorenment/Lava/LavaScripts/RisingLava.cs:23-37 | after the move wait the lava pauses; after the pause wait it moves again and the routine ends; the height is untouched |
| RisingLava.Tick | Assets/Enviorenment/Lava/LavaScripts/RisingLava.cs:39-45 | a still lava keeps its height; a moving one rises by the rise speed times the frame time, so it never sinks for a non-negative speed and frame time |
| RisingLava.StepKeepsValid | Assets/Enviorenment/Lava/LavaScripts/RisingLava.cs:13-45 | no single input breaks the lava's invariant linking the started flag, the motion and the routine's progress |
| RisingLava.RiseWithSinglePauseOnce | Assets/Enviorenment/Lava/LavaScripts/RisingLava.cs:13-37 | over any run, however often the lava is started, it starts rising, pauses and resumes at most once each and in that order |
| RisingLava.FramesOnlyRaise | Assets/Enviorenment/Lava/LavaScripts/RisingLava.cs:39-45 | frames alone never lower the lava, and leave a still lava unchanged |
| RisingLava.Controller.constructor | Assets/Enviorenment/Lava/LavaScripts/RisingLava.cs:4-11 | the controller starts with the lava still and not started |
| RisingLava.Controller.StartLava | Assets/Enviorenment/Lava/LavaScripts/RisingLava.cs:13-21 | a call updates the fields as Start does |
| RisingLava.Controller.RiseWithSinglePause | Assets/Enviorenment/Lava/LavaScripts/RisingLava.cs:23-29 | the routine sets the lava moving and waits for the move duration |
| RisingLava.Controller.ResumeAfterMove | Assets/Enviorenment/Lava/LavaScripts/RisingLava.cs:31-33 | resuming after the move wait updates the fields as Resume does |
| RisingLava.Controller.ResumeAfterPause | Assets/Enviorenment/Lava/LavaScripts/RisingLava.cs:35-36 | resuming after the pause wait updates the fields as Resume does |
| RisingLava.Controller.Update | Assets/Enviorenment/Lava/LavaScripts/RisingLava.cs:39-45 | one frame updates the fields as Tick does |
| SlimeEnemyAI.InitialValid | Assets/Chapter1EnemiesPrefabs/Slime/SlimeEnemyAI.cs:54-71 | the starting slime satisfies its invariant |
| SlimeEnemyAI.PatrolTick | Assets/Chapter1EnemiesPrefabs/Slime/SlimeEnemyAI.cs:100-125 | an out-of-range waypoint index changes nothing; otherwise the slime heads for its waypoint, advances the index by wrapping when within 0.5 of it, and runs down the patrol time; its expiry starts Idle, and otherwise the slime attacks exactly when the player is within attack range; leaving Patrol stops the slime |
| SlimeEnemyAI.IdleTick | Assets/Chapter1EnemiesPrefabs/Slime/SlimeEnemyAI.cs:127-143 | an idle slime stands still while its timer runs down; it attacks when alive and within attack range, and otherwise returns to Patrol with a freshly drawn patrol time once the timer runs out |
| SlimeEnemyAI.AttackTick | Assets/Chapter1EnemiesPrefabs/Slime/SlimeEnemyAI.cs:145-154 | an attacking slime stands still while its timer runs down, and returns to Patrol with a freshly drawn patrol time exactly when the timer runs out, wherever the player is |
| SlimeEnemyAI.Tick | Assets/Chapter1EnemiesPrefabs/Slime/SlimeEnemyAI.cs:73-86 | a dead slime, or one without a player or with fewer than two waypoints, ignores the frame; otherwise the frame goes to the handler of the current state; frames never change health or death |
| SlimeEnemyAI.Hit | Assets/Chapter1EnemiesPrefabs/Slime/SlimeEnemyAI.cs:202-219 | a dead slime ignores hits; a live one loses exactly the damage and logs hurt while health stays positive, and otherwise dies and logs death |
| SlimeEnemyAI.StepKeepsValid | Assets/Chapter1EnemiesPrefabs/Slime/SlimeEnemyAI.cs:73-242 | no single input breaks the slime's invariant: it dies at most once, its waypoint index stays in range and it stands still unless patrolling |
| SlimeEnemyAI.RunKeepsValid | Assets/Chapter1EnemiesPrefabs/Slime/SlimeEnemyAI.cs:73-242 | every run keeps the slime's invariant |
| SlimeEnemyAI.DeadIsFrozen | Assets/Chapter1EnemiesPrefabs/Slime/SlimeEnemyAI.cs:75 | once dead, nothing changes the slime |
| SlimeEnemyAI.AttackHeldUntilTimerExpires | Assets/Chapter1EnemiesPrefabs/Slime/SlimeEnemyAI.cs:145-154 | an attack is held until the frame times add up to its timer, which falls by exactly the frame times |
| SlimeEnemyAI.Controller.constructor | Assets/Chapter1EnemiesPrefabs/Slime/SlimeEnemyAI.cs:54-71 | the controller starts in the initial slime state |
| SlimeEnemyAI.Controller.Update | Assets/Chapter1EnemiesPrefabs/Slime/SlimeEnemyAI.cs:73-86 | one frame updates the fields as Tick does |
| SlimeEnemyAI.Controller.FixedUpdate | Assets/Chapter1EnemiesPrefabs/Slime/SlimeEnemyAI.cs:88-96 | a dead slime sets no velocity; a live one moves at its direction times the move speed, which is zero unless it is patrolling |
| SlimeEnemyAI.Controller.PatrolUpdate | Assets/Chapter1EnemiesPrefabs/Slime/SlimeEnemyAI.cs:100-125 | the patrol frame updates the fields as PatrolTick does |
| SlimeEnemyAI.Controller.IdleUpdate | Assets/Chapter1EnemiesPrefabs/Slime/SlimeEnemyAI.cs:127-143 | the idle frame updates the fields as IdleTick does |
| SlimeEnemyAI.Controller.AttackUpdate | Assets/Chapter1EnemiesPrefabs/Slime/SlimeEnemyAI.cs:145-154 | the attack frame updates the fields as AttackTick does |
| SlimeEnemyAI.Controller.EnterPatrol | Assets/Chapter1EnemiesPrefabs/Slime/SlimeEnemyAI.cs:160-166 | entering Patrol sets the state and draws a new patrol time |
| SlimeEnemyAI.Controller.EnterIdle | Assets/Chapter1EnemiesPrefabs/Slime/SlimeEnemyAI.cs:168-176 | entering Idle stops the slime, refills the timer with the idle duration and logs the idle trigger |
| SlimeEnemyAI.Controller.EnterAttack | Assets/Chapter1EnemiesPrefabs/Slime/SlimeEnemyAI.cs:178-188 | entering Attack stops the slime, fills the timer with the attack duration and logs the attack trigger |
| SlimeEnemyAI.Controller.TakeDamage | Assets/Chapter1EnemiesPrefabs/Slime/SlimeEnemyAI.cs:202-219 | a hit updates the fields as Hit does |
| SlimeEnemyAI.Controller.Die | Assets/Chapter1EnemiesPrefabs/Slime/SlimeEnemyAI.cs:235-242 | dying marks the slime dead and logs the death trigger |
| SlimeEnemyAI.Controller.OnCollisionStay2D | Assets/Chapter1EnemiesPrefabs/Slime/SlimeEnemyAI.cs:248-268 | a touch deals contact damage exactly when the slime is alive and the other body is a player with stats |

## Left out

- The golem boss, the armoured golem, the dashing golem, the bone archer, the bone gladiator and the reaper always have a player. Their `Update`s read the player's position without a null check (`Assets/GolemBossAI.cs:74`, `Assets/ArmoredGolemAI.cs:78`, `Assets/Chapter2EnemiesPrefabs/DashingGolem/DashingGolemAI.cs:92`, `Assets/Chapter3EnemiesPrefabs/BoneArcher/BoneArcherAI.cs:74`, `Assets/Chapter3EnemiesPrefabs/BoneGladiator/BoneGladiatorAI.cs:86`, `Assets/ReaperAI.cs:54`). Without a player, that read throws before any field changes, which is the same as a frame that never arrives.
- `IDamageable` (Assets/Enemies/Scripts/IDamageable.cs) is an interface with no behaviour. Each component's `TakeDamage` is modelled directly, without a shared trait.
- Rendering and audio are not modelled: sprite and collider flips, the damage and invincibility colour flashes, the reaper's alpha fades, animator booleans, and `AudioManager` calls apart from the lava's, which is logged as `LavaSound`. Most animator triggers that mark a transition appear as log events. The ones not logged are the `Idle` triggers of the armoured golem, the dashing golem, the bone archer and the bone gladiator, the dashing golem's `isMoving` trigger when it gives up a chase, and the player's `Hurt` trigger; the player model keeps no log.
- Physics is not modelled: vector normalisation, `Physics2D.OverlapCircleAll`, knockback forces, and velocities other than the horizontal speed rule. Distances, offsets, "player in blast" and "has `PlayerStats`" are inputs.
- Turning off colliders and rigid bodies on death is not modelled. Hit inputs may therefore arrive after it, as in `ChapterOneExplodingSlimeAI.TwoFatalHitsExplodeTwice`, although in the game the only damage source, the sword, needs a fresh contact with the collider.
- `Instantiate` and `Destroy` become log events or are dropped. The model does not capture that a destroyed object stops running its coroutines. For example, the chapter-one slime's second explosion happens only if its death wait ends before `Destroy` removes it.
- `WaitForSeconds` durations are not timed. A coroutine waits until its `Resume…` input arrives, so the model allows any interleaving of frames, hits and resumptions.
- Numeric width is not modelled. Health, stamina and damage are C# 32-bit `int`, and `currentHealth -= amount` wraps on overflow. The model uses unbounded `int`, so a hit that would wrap a health near the limit of 32 bits is not captured. Timers, distances and speeds are 32-bit `float`, while the model uses exact `real`. The timing lemmas (`ExplodingSlimeAI.CountdownExplodesInTime`, `DashingGolemAI.DashLoopEndsInTime`, `SlimeEnemyAI.AttackHeldUntilTimerExpires`, `PlayerStats.InvincibleUntilDurationElapses`) are therefore facts of exact arithmetic. Float rounding can move the frame on which a timer crosses its bound.
- `Random.Range` draws are inputs, and their bounds are not constrained.
- An out-of-range waypoint index, which would throw when read in the source, is modelled as a frame that changes nothing.
- The flying slime's fresh patrol targets are inputs. Its invariant holds for runs whose targets lie inside the patrol area, which is what `PickNewPatrolTarget` draws.
- `EnterStun` and `ExitStun`, which the golem boss calls on the player, are not part of this model. The boss logs stun and release events instead.
- The golem boss holds at most one `BulletHellSequence` cursor. A second sequence started while one runs is not modelled. The reaper's summoning routines are kept as lists, so several can run at once.
- The busy-wait at Assets/ReaperAI.cs:132-136 appears only under Findings, as `ReaperAI.SpinAsWritten`, a bounded number of loop passes. The running model uses the intended per-frame wait, `ReaperAI.AwaitClearStep`, whose behaviour over a run of frames `ReaperAI.IntendedWaitEndsOnFirstClearFrame` states.

## Findings

| source | as written | input that shows it | evidently intended | confidence | as-written member | corrected member |
|---|---|---|---|---|---|---|
| Assets/ReaperAI.cs:132-136 | after activating the first army, the coroutine spins in `while (true)` polling for remaining summons without ever yielding | one summon still alive when the loop starts: the loop never exits and the frame never ends | wait, yielding each frame, until no summon remains, then end the phase | not executed | ReaperAI.SpinHangsWhileSummonsRemain | ReaperAI.IntendedWaitEndsOnFirstClearFrame |
