# Tank battle: the game rules, modelled and proved

This project models the game-rule core of the tank battle game in
`tank_game.py`. It covers:

- the level table (`LevelSystem.get_params`);
- the `Tank` (its parameters, its fan of bullets, the bullet step);
- the weapon progression the player earns with every kill (`upgrade_weapon`);
- one `GameSession` and the frames of its `run` loop: input, bot AI,
  player-bullet and bot-bullet collisions, bullet integration and the level
  change.

The model is in two layers:

- **Pure specification.** The modules `Lists`, `Levels`, `Geometry`, `Tanks`,
  `Progression`, `Rules` and `Invariant` describe each step as a function on
  values (`TankState`, `SessionState`). Lemmas state what the game promises
  about those functions.
- **Imperative classes.** `Tanks.Tank` and `Session.GameSession` are the
  game's own mutable objects: fields updated in place, lists as `seq` fields
  the methods reassign, and the same loops as the source. Each method is
  proved to change the object exactly as the matching function says:
  `State()` for a tank, `View()` for a session.

Python's copy-iteration idioms are kept as they are:

- `for b in list[:]` with `list.remove(b)` is modelled as a loop over a copy,
  with removal of the first equal element (`Lists.RemoveFirst`).
- Bullets are dicts, compared by value. In the bullet step
  (`Tanks.StepOne`) and the bot-bullet pass (`Rules.SparedStep`) the proofs
  show that the bullet removed is always the one being looked at.
- In the player-bullet pass a hit removes the first bullet equal to the one
  that hit (`Rules.HitEnemy`). A bullet that hits two bots in one scan
  therefore removes, at its second hit, another bullet of the same value if
  there is one, and nothing otherwise (the ValueError the game swallows).
  The outer loop walks a copy of the list, so such an equal bullet still
  gets its own scan.
- Bots are objects, compared by identity. Removing one from the live list
  while walking a copy is modelled with an index into the live list that
  stays put when the bot under it is removed.

The following become parameters, because the model cannot see them:

- **Trigonometry.** `Geometry.Trig` holds `cos`, `sin` and `atan2` in
  degrees, left uninterpreted.
- **Randomness.**
  - `spawn(i)` is the pair of `randint` draws that places bot `i`.
  - `rolls(i)` is bot `i`'s `random.random()` draw.
- **The clock.** `now` stands for `pygame.time.get_ticks()`.
- **Input.** Each frame's SPACE key-downs and the movement keys held are
  bundled with the other per-frame inputs in `Rules.Frame`.

Distances are compared squared: `hypot(dx, dy) < 30` becomes
`dx*dx + dy*dy < 900`, and `hypot > 400` becomes `> 160000`. Over the reals
these are the same test.

A bot's speed is `BASE_TANK_SPEED * enemy_speed`
(tank_game.py:97): `_init_bot` overwrites the player default, so the 0.8
factor of a fresh tank is not applied to bots.

## Model

| member | source | states |
|---|---|---|
| Levels.GetParams | tank_game.py:49-56 | at most 15 bots per level, 3 + level up to level 12 and 15 from then on; bot health is 50 + 10·level and the heal per kill is 20 + 2·level; from level 1 on there are at least 4 bots, of at least 60 health, with a fire-rate divisor of at least 0.6 |
| Levels.Harder | tank_game.py:49-56 | later levels never field fewer, weaker, slower or slower-firing bots, nor a smaller heal |
| Tanks.BaseParams | tank_game.py:81-89 | the starting parameters of every tank; their values are stated by Tanks.SpawnedStats |
| Tanks.BotParams | tank_game.py:94-102 | a bot's parameters from the level table; stated by Tanks.SpawnedStats and Tanks.BotDelayShrinks |
| Tanks.Spawned | tank_game.py:74-102 | the tank `Tank(x, y, is_bot, level)` creates; stated by Tanks.SpawnedStats, and built in place by Tanks.Tank.constructor |
| Tanks.SpawnedStats | tank_game.py:74-102 | a fresh tank has no bullets, no upgrades, damage 20 and full health; the player has 100 health, a 600 ms delay and speed 2.5; a bot has 50 + 10·level health and a delay in (0, 2500] ms |
| Tanks.BotDelayShrinks | tank_game.py:94-102 | a bot of a later level has a fire delay no longer than one of an earlier level |
| Tanks.Tank.constructor | tank_game.py:74-92 | the new tank is the value `Spawned(x, y, is_bot, level)`: player defaults, or bot parameters from the level table |
| Tanks.Tank.InitBot | tank_game.py:94-102 | only the parameters change: speed, health, maximum health, fire delay 1500 / rate and bullet speed 8·1.1 come from the level |
| Tanks.Fan | tank_game.py:121-134 | a fan has 1 + upgrades // 3 bullets (none if that is not positive), bullet i being turned by 15·(i − (n−1)/2) degrees |
| Tanks.Shot | tank_game.py:118-136 | one call of `shoot`; stated by Tanks.ShotEffect, Tanks.ShotTwice and Tanks.ShotWithinDelay, and followed by Tanks.Tank.Shoot |
| Tanks.ShotEffect | tank_game.py:118-136 | within the fire delay nothing changes; otherwise exactly 1 + upgrades // 3 bullets are appended after the ones in flight, each with the tank's damage, the time is stamped, and position, angle and parameters are untouched |
| Tanks.FanSymmetric | tank_game.py:122-125 | bullets i and n−1−i are turned by opposite angles; with an odd count the middle one flies straight ahead |
| Tanks.ThreeBulletFan | tank_game.py:121-126 | six upgrades give three bullets at −15, 0 and +15 degrees |
| Tanks.ShotTwice | tank_game.py:119-136 | a second `shoot` at the same instant fires nothing |
| Tanks.ShotWithinDelay | tank_game.py:119-136 | after a shot at n1, a `shoot` at any n2 with n2 − n1 no more than the fire delay fires nothing |
| Tanks.Tank.Shoot | tank_game.py:118-136 | the loop appends the whole fan in order and leaves the tank as `Shot` says |
| Tanks.Advanced | tank_game.py:284-288 | the bullet step never adds a bullet, and every bullet it keeps is inside the field |
| Tanks.AdvancedKeepsOrder | tank_game.py:284-288 | the result is the moved bullets at strictly increasing input positions, and a bullet is dropped exactly when its moved position is outside the field |
| Tanks.StepOne | tank_game.py:284-288 | in one turn of the loop, removing the first bullet equal to the moved one removes that very bullet |
| Tanks.Tank.AdvanceOne | tank_game.py:285-288 | one turn of the loop over the copy advances the stepped prefix by exactly that bullet |
| Tanks.Tank.AdvanceBullets | tank_game.py:283-288 | the in-place loop with remove-by-value leaves exactly `Advanced` of the old list, and nothing else about the tank changes |
| Lists.RemoveFirst | tank_game.py:228-231 | removing a value that is absent leaves the list unchanged (the swallowed ValueError); one that is present shortens it by one |
| Lists.RemoveFirstAt | tank_game.py:229 | the occurrence removed is the first: everything before it stays |
| Lists.RemoveFirstMultiset | tank_game.py:229 | exactly one copy of the value leaves the list |
| Lists.RemoveFirstDistinct | tank_game.py:214 | removing an object from a list without duplicates removes it at its index |
| Lists.DistinctWithout | tank_game.py:214 | the bots left after a removal are still distinct objects |
| Geometry.Clamp | tank_game.py:180-181 | `max(lo, min(hi, v))` lies in [lo, hi], is v when v is inside, and the nearer bound otherwise |
| Progression.Upgraded | tank_game.py:240-260 | one `upgrade_weapon`; stated field by field by Progression.UpgradeEffect and bounded by Progression.UpgradeBounds, and followed by Session.GameSession.UpgradeWeapon |
| Progression.UpgradedN | tank_game.py:240-260 | the weapon after n kills in a row; stated by Progression.KillsCounters, KillsBulletSpeed, KillsFireDelay, KillsHealth, UpgradedNAdd, TwelveKills and PlayerWeaponBounds |
| Progression.UpgradeEffect | tank_game.py:240-260 | one upgrade, field by field: the counter goes up by 1; damage +3 on even counts; bullet speed ×1.1 on multiples of 3; fire delay ×0.9, floored at 200, on multiples of 5; maximum health +10 and health +10 up to the new maximum on multiples of 4; speed never changes |
| Progression.UpgradeBounds | tank_game.py:249-260 | an upgrade keeps the delay in [200, old delay] once it is at least 200, and health within the new maximum without lowering it |
| Progression.MultiplesClosedForm | tank_game.py:243-255 | the number of counts in (u, u+n] that an upgrade test fires on is (u+n)/m − u/m, for m = 2, 3, 4, 5 |
| Progression.KillsCounters | tank_game.py:240-256 | after n kills the counter is u + n, damage has grown by 3 per multiple of 2 passed, maximum health by 10 per multiple of 4, and speed is unchanged |
| Progression.KillsBulletSpeed | tank_game.py:246-247 | after n kills the bullet speed has been multiplied by 1.1 once per multiple of 3 passed |
| Progression.KillsFireDelay | tank_game.py:249-253 | after n kills the delay has been multiplied by 0.9 once per multiple of 5 passed, and floored at 200 as soon as there was one |
| Progression.KillsHealth | tank_game.py:255-260 | kills never lower health, and it stays within its maximum |
| Progression.UpgradedNAdd | tank_game.py:240-260 | upgrades compose: a kills then b kills make the same weapon as a + b kills |
| Progression.TwelveKills | tank_game.py:240-260 | the table of the first twelve kills from the player's start: damage 38, bullet speed 11.7128, fire delay 486, health and maximum 130 |
| Progression.PlayerWeaponBounds | tank_game.py:240-260 | from the player's start, after any number of kills the delay stays in [200, 600], damage ≥ 20, maximum health ≥ 100, health within its maximum, and the counter equals the kills |
| Rules.NewBots | tank_game.py:149-157 | `_init_enemies` creates exactly the requested number of bots, bot i being a fresh bot of the level placed at `spawn(i)` |
| Rules.Initial | tank_game.py:140-147 | a new session; stated by Rules.InitialSession and Invariant.InitialInv, and built by Session.GameSession.constructor |
| Rules.MoveVector | tank_game.py:166-172 | the movement vector of the keys held; computed by Session.GameSession.ReadKeys |
| Rules.Steered | tank_game.py:174-181 | the player's movement; stated by Rules.SteeredStaysInside and followed by Session.GameSession.MovePlayer |
| Rules.InitialSession | tank_game.py:140-157 | a new session is at level 1 with score 0, no kills, a player of 100 health without bullets and 4 bots of 60 health at full health |
| Rules.SteeredStaysInside | tank_game.py:166-181 | with a key held the player ends in [30, 1250] × [30, 690]; without one nothing changes; health, weapon and bullets never change |
| Rules.BotStep | tank_game.py:188-204 | one bot's turn; stated by Rules.BotStepStays and followed by Session.GameSession.StepBot |
| Rules.Chasing | tank_game.py:193-197 | a bot beyond 400 units turns and drives; its clamped result is stated by Rules.BotStepStays |
| Rules.Aiming | tank_game.py:198-201 | a bot within 400 units aims and may fire; its clamped result is stated by Rules.BotStepStays |
| Rules.BotsUpdated | tank_game.py:187-204 | `update_bots`; stated by Rules.BotsStayUp and followed by Session.GameSession.UpdateBots |
| Rules.BotStepStays | tank_game.py:188-204 | after its turn, chasing or aiming, a bot is in [30, 1250] × [30, 360] with its parameters unchanged |
| Rules.BotsStayUp | tank_game.py:187-204 | `update_bots` keeps the number of bots, their health and weapons, the player, level, score and kills, and puts every bot in the upper half |
| Rules.Damaged | tank_game.py:210-211 | the damage and the 10 points of a hit; stated by Rules.HitOutcome (non-lethal case) and followed by Session.GameSession.Damage |
| Rules.Killed | tank_game.py:213-225 | the removal, points, kill, heal and upgrade of a kill; stated by Rules.HitOutcome (lethal case) and followed by Session.GameSession.KillEnemy |
| Rules.ScanEnemies | tank_game.py:208-231 | one bullet's loop over the bots; stated by Rules.ScanAccounting and Rules.ScanKeeps, and followed by Session.GameSession.ScanEnemies |
| Rules.PlayerPass | tank_game.py:207-231 | the player-bullet pass; stated by Rules.PassAccounting and Rules.PassKeepsAll, and followed by Session.GameSession.CheckPlayerShots |
| Rules.HitEnemy | tank_game.py:209-231 | a hit removes a bot exactly when it takes its health to 0 or below, and never changes the level |
| Rules.HitOutcome | tank_game.py:209-231 | a lethal hit removes the bot at its index, adds 60 to the score and 1 to the kills, and heals the player (capped) before upgrading the weapon; a non-lethal one lowers that bot's health by the damage, adds 10 to the score and leaves every other bot and the player's parameters alone; either way the first equal bullet leaves the player's list |
| Rules.ThreeHitsKill | tank_game.py:209-231 | three 20-damage hits on a 60-health bot leave it for two hits and remove it on the third, for 80 points, one kill and one upgrade |
| Rules.ScanAccounting | tank_game.py:208-231 | one bullet's scan adds 10 per hit and 50 per kill to the score, and its kills equal the bots removed, never more than its hits |
| Rules.PassAccounting | tank_game.py:207-231 | the whole player-bullet pass adds 10 per (bullet, bot) hit and 50 per kill, and its kills equal the bots removed, never more than the hits |
| Rules.HitPlayer | tank_game.py:210-231 | a hit moves neither the player nor its aim, adds no bullet to the player's list, never lowers damage or the upgrade count, and keeps health within its maximum and the delay at or above 200 |
| Rules.HealUpgradeBounds | tank_game.py:218-225 | the heal and upgrade of a kill keep health within its maximum and the delay at or above 200, and never lower damage or the upgrade count |
| Rules.HitBots | tank_game.py:209-216 | after a hit every bot still listed is alive (health in (0, max]), still in the upper half if all bots were, and still armed (positive damage on it and on its bullets) if all bots were |
| Rules.ScanKeeps | tank_game.py:208-231 | one bullet's scan keeps every listed bot alive and, if all bots were in the upper half or armed, keeps them so; the player keeps its position and bounds |
| Rules.PassKeepsAll | tank_game.py:207-231 | the player-bullet pass leaves only living bots (health in (0, max]), still in the upper half and armed if they were; the player keeps position, aim, health bound and fire-delay floor, never loses damage or upgrades, and gains no bullet |
| Rules.Spared | tank_game.py:234-237 | no bullet left to a bot hits the player; that every bullet that misses is kept, in order, is Rules.SparedKeepsOrder |
| Rules.SparedKeepsOrder | tank_game.py:234-237 | the bullets a bot keeps are exactly its bullets that miss the player, in their original order: the input at strictly increasing positions, a position being kept exactly when its bullet misses |
| Rules.StruckOrSpared | tank_game.py:234-237 | each bot bullet either hits the player or is kept |
| Rules.SparedStep | tank_game.py:234-237 | removing by value the bullet that hits removes that very bullet from the partly checked list |
| Rules.PenaltyIs | tank_game.py:236 | each bot bullet that hits costs the player 5 + level |
| Rules.EnemyShotsPass | tank_game.py:233-238 | the bot-bullet pass; stated by Rules.EnemyShotsMiss, Rules.EnemyShotsDamage and Rules.SparedKeepsOrder, and followed by Session.GameSession.CheckEnemyShots |
| Rules.Collided | tank_game.py:206-238 | `check_collisions`; stated by Invariant.HitPhase and followed by Session.GameSession.CheckCollisions |
| Rules.BulletsAdvanced | tank_game.py:283-288 | the bullet step of every tank, each list becoming `Advanced` of itself (Tanks.AdvancedKeepsOrder); used by Invariant.EndPhase and followed by Session.GameSession.StepBullets |
| Rules.EnemyShotsMiss | tank_game.py:233-238 | after the bot-bullet pass no bot bullet is within 30 units of the player; every bot is unchanged apart from the bullets it loses (it keeps `Spared` of them), the player apart from its health, and level, score and kills are kept |
| Rules.EnemyShotsDamage | tank_game.py:233-238 | the player's loss is exactly (5 + level) times the number of bot bullets removed |
| Rules.LevelAdvanced | tank_game.py:305-311 | the level change; stated by Rules.LevelChange and followed by Session.GameSession.AdvanceLevel |
| Rules.LevelChange | tank_game.py:305-311 | the level changes only when no bot is left; then it goes up by 1, the new level's table sets the number of bots, each at full health 60 + 10·level, the player heals 20 up to the maximum and nothing else about the player changes (position, aim, weapon, bullets); score and kills are untouched |
| Rules.Pressed | tank_game.py:159-164 | one `shoot` per SPACE key-down; stated by Rules.OneBatchPerFrame and Invariant.PressedKeeps |
| Rules.OneBatchPerFrame | tank_game.py:160-164 | however many SPACE key-downs a frame holds, at most one fan is fired |
| Rules.Ticked | tank_game.py:278-311 | a frame never lowers the level |
| Rules.Played | tank_game.py:277-311 | playing frames never lowers the level |
| Invariant.InitialInv | tank_game.py:140-157 | a new session satisfies the session invariant |
| Invariant.PressedKeeps | tank_game.py:159-164 | firing moves nothing, changes no weapon parameter, and every bullet fired carries positive damage |
| Invariant.MovingPhase | tank_game.py:159-204 | input and bot AI keep the player in its zone, every bot alive in the upper half, every bullet fired by the player or a bot carrying positive damage, and the health, delay and score bounds |
| Invariant.HitPhase | tank_game.py:206-238 | collision resolution keeps those bounds, the bullets left to the player and to the bots keeping their positive damage |
| Invariant.EndPhase | tank_game.py:283-311 | the bullet step and level change restore the full invariant, every bullet being inside the field |
| Invariant.BotStepArmed | tank_game.py:187-203 | a bot's turn adds only bullets carrying its own positive damage |
| Invariant.SparedHarmful | tank_game.py:233-237 | the bullets a bot keeps after the bot-bullet pass still carry positive damage |
| Invariant.TickKeepsInv | tank_game.py:278-311 | a frame keeps the invariant: player in [30, 1250] × [30, 690], every bot alive in [30, 1250] × [30, 360] with positive damage, every bullet of the player and of every bot in the field with positive damage, health within its maximum, delay ≥ 200 ms, score ≥ 60 per kill |
| Invariant.PlayedKeepsInv | tank_game.py:277-311 | the invariant holds after any number of frames |
| Session.GameSession.constructor | tank_game.py:140-147 | a new session is the value `Initial(spawn)`, with a fresh player and fresh bots |
| Session.GameSession.InitEnemies | tank_game.py:149-157 | the level's number of fresh bots is appended, the ones already listed kept |
| Session.GameSession.AddBot | tank_game.py:152-157 | one fresh bot of the current level is appended at (x, y) |
| Session.GameSession.ReadKeys | tank_game.py:166-172 | the four key tests compute the movement vector |
| Session.GameSession.MovePlayer | tank_game.py:174-181 | the player moves and is clamped as `Steered` says |
| Session.GameSession.HandleInput | tank_game.py:159-185 | one `shoot` per SPACE key-down, then movement; nothing but the player changes |
| Session.GameSession.UpgradeWeapon | tank_game.py:240-260 | the player's parameters become `Upgraded` of the old ones; nothing else changes |
| Session.GameSession.StepBot | tank_game.py:188-204 | one bot moves, aims or fires as `BotStep` says |
| Session.GameSession.UpdateBots | tank_game.py:187-204 | the loop over the bots leaves the session as `BotsUpdated` says |
| Session.GameSession.Damage | tank_game.py:210-211 | the bot loses the bullet's damage and the score gains 10 |
| Session.GameSession.RemoveEnemy | tank_game.py:214 | `enemies.remove(enemy)` takes out the bot at its index |
| Session.GameSession.KillEnemy | tank_game.py:213-225 | a killed bot is removed, and the session gains 50 points and a kill; the player is healed and upgraded |
| Session.GameSession.DropBullet | tank_game.py:228-231 | the first bullet equal to `b`, if any, leaves the player's list |
| Session.GameSession.HitEnemy | tank_game.py:209-231 | a hit changes the session as `Rules.HitEnemy` says, removing the bot object exactly when its health reaches 0 or below |
| Session.GameSession.ScanOne | tank_game.py:208-231 | one turn over the copy of the bots keeps the live index on the copy's next bot and makes progress in `Rules.ScanEnemies` |
| Session.GameSession.ScanEnemies | tank_game.py:208-231 | the loop over a copy of the bots for one bullet ends as `Rules.ScanEnemies` says |
| Session.GameSession.CheckPlayerShots | tank_game.py:207-231 | the loop over a copy of the player's bullets ends as `PlayerPass` says |
| Session.GameSession.ResolveOne | tank_game.py:234-237 | one bot bullet: when it hits it costs 5 + level and leaves the list; only the player's health changes |
| Session.GameSession.ResolveShotsOf | tank_game.py:234-238 | a bot keeps exactly the bullets that miss, and the player loses 5 + level per hit |
| Session.GameSession.ResolveAt | tank_game.py:233-238 | handling bot i leaves the earlier bots resolved and the later ones untouched, and adds its hits to the running penalty |
| Session.GameSession.ResolveAll | tank_game.py:233-238 | every bot is resolved, and the total penalty counts all of their hits |
| Session.GameSession.CheckEnemyShots | tank_game.py:233-238 | the bot-bullet pass ends as `EnemyShotsPass` says |
| Session.GameSession.CheckCollisions | tank_game.py:206-238 | `check_collisions` is the player pass and then the bot pass |
| Session.GameSession.StepBullets | tank_game.py:283-288 | every tank's bullets are stepped as `Advanced` says |
| Session.GameSession.AdvanceLevel | tank_game.py:305-311 | the level change is as `LevelAdvanced` says |
| Session.GameSession.Tick | tank_game.py:278-311 | one iteration of the loop is as `Ticked` says |
| Session.GameSession.PlayFrame | tank_game.py:278-311 | playing the first of the remaining frames keeps the final outcome the same |
| Session.GameSession.Run | tank_game.py:277-311 | `run()` over a sequence of frames ends in `Played` of them, so every property proved of `Played` (PlayedKeepsInv) holds of the object |

## Left out

- Rendering, sound and the HUD are left out: `draw`, `_draw_health_bar`,
  `draw_hud`, the explosion and movement sounds, and loading the image and
  sound assets. None of them changes game state.
- The main menu, `show_game_over`, `show_end_screen`, `return_to_menu` and
  `quit_game` are left out, and so is `Setap.py`. These are the game's
  screens and packaging, not its rules.
- `MAX_BULLETS` is left out because the game never reads it.
- `FPS` and `clock.tick` are left out: frame pacing changes no state.
- Floating point is modelled as exact reals, so IEEE rounding is not
  captured. This affects, for example, the 1.1 and 0.9 factors of the
  upgrades and the 1500 / rate fire delay.
- Trigonometry is uninterpreted (`Geometry.Trig`). As a result the model
  says nothing about the direction in which a bot or a bullet moves; it
  covers only what holds for every `cos`, `sin` and `atan2`.
- `random.random()` is drawn in the game only for bots within 400 units. The
  model gives every bot i a draw `rolls(i)`. Because any sequence of draws
  can be laid out this way, this indexing loses no behaviour.
- `shoot` reads `pygame.time.get_ticks()` twice; the model reads the clock
  once per frame as `now`.
- Session.GameSession.Run: the QUIT event is not modelled. `running` is
  therefore never cleared, and the loop ends when the player's health is gone
  or when the finite sequence of frames runs out.
- Session.GameSession.HandleInput: each frame's events are reduced to a count
  of SPACE key-downs. The relative order of a QUIT and a SPACE event within
  one frame is not captured.
- Tanks.ShotEffect: stated only for non-negative upgrade counts, the only
  ones a tank can have, since the count starts at 0 and only grows.
- Tanks.ShotTwice: stated only for non-negative fire delays, the only ones a
  tank can have (600, at least 200 after upgrades, or 1500 / rate for bots).
- Rules.OneBatchPerFrame: stated only for non-negative fire delays, for the
  same reason.
- Rules.Ticked: the ensures states only that the level never goes down. What
  a frame does is stated by Invariant.TickKeepsInv and by the lemmas about
  each phase.
- Rules.Played: the ensures states only that the level never goes down. The
  loop's meaning is stated by Invariant.PlayedKeepsInv and by the ensures of
  Session.GameSession.Run.
