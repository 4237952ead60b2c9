# Dragon-horse shooter: the simulation rules, verified

A Dafny model of the game rules of `game.py`, a single-file pygame arcade
shooter. The player's ship fires volleys at falling lantern enemies. Kills
give score and experience, and each level-up offers one of three upgrades.
Supplies grant weapons, healing or shield. Once the player's level reaches a
milestone (10, then every 5 levels) a boss fight starts; during the fight the
boss is the only enemy.

The model follows the program's structure:

- `Geometry`: integer sprite rectangles on the 900 x 700 playfield. It holds
  the overlap test behind every collision query and the clamp that keeps the
  ship on screen.
- `Rules`: the tuning constants, the experience curve `floor(50 * level^1.5)`
  computed as an exact integer square root, and the spread of a volley.
- `Progression`: the player's statistics as a value, with each rule as a
  function from the old record to the new one. The rules are experience, the
  20-point hit, supplies, the three upgrades and shield regeneration. An
  invariant `Valid` is proved to be kept by every rule; for experience, by
  every gain of at most 50 points (a kill gives 35).
- `Sprites`: enemies, bosses, bullets, enemy bullets and supplies as values.
  It covers how each is created, how it moves in one frame, when it leaves the
  game, and when an enemy fires.
- `PlayerSprite`: the `Player` class, whose methods update its fields in place
  the way the source does. Each method is proved to do what the matching
  `Progression` function says.
- `Simulation`: the whole game state as a value (`World`). It has one
  function per section of the main loop, in source order, and `Step` for one
  frame. The lemmas state what each section does and that every frame keeps
  the game invariant `Inv`.
- `Game`: the `Game` class holding the main loop's state, whose `Tick` runs
  one frame section by section with loops over the sprite groups. `Tick` is
  proved equal to `Simulation.Step`.

Pygame's inputs become parameters, gathered in `Simulation.Input`: the clock,
the quit request, the mouse button, the movement keys, the spawner's random
draws and the upgrade chosen at each level-up.

Two behaviours of the code shape the model:
- The enemy-bullet check and the enemy-body check are joined by a
  short-circuiting `or` (game.py:472). So a frame costs at most one hit, and
  enemies touching the ship survive that frame when an enemy bullet also
  touched it.
- A hit can push hp below 0, which ends the game (game.py:477, 480, 533).

## Model

| member | source | states |
|---|---|---|
| Geometry.CenteredAt | game.py:180 | a sprite placed by its centre has that centre and keeps its image size |
| Geometry.ClampAxis | game.py:93 | on one axis, clamping gives a position inside the range when the sprite fits. That position is the in-range one nearest the old position, and a sprite narrower than the range that is already inside does not move |
| Geometry.Clamp | game.py:93 | clamping keeps the size, puts a ship that fits inside the 900 x 700 screen, and leaves a ship already inside where it is |
| Geometry.OverlapsIffSharedPixel | game.py:425 | the collision test behind every collision query holds exactly when some pixel lies in both rectangles |
| Rules.Isqrt | game.py:105 | the integer square root: r * r <= n < (r + 1) * (r + 1) |
| Rules.IsqrtUnique | game.py:105 | that bracketing determines the root, so the curve has exactly one value per level |
| Rules.XpNextFor | game.py:105 | the threshold for a level is the largest n with n * n <= 2500 * level^3, which is floor(50 * level^1.5) |
| Rules.XpNextAtLeastBase | game.py:105 | from level 1 on, the threshold is never below 50 |
| Rules.XpNextFirstLevels | game.py:105 | the curve gives 50 at level 1 (the starting threshold of game.py:80) and 141 at level 2 |
| Rules.ShotOffsets | game.py:411 | a volley spreads 1, 2 or 3 bullets. The offsets are mirror-symmetric and strictly increasing, with a centre bullet unless there are exactly 2. The outermost bullet sits 0, 15 or 25 pixels from the centre respectively |
| Progression.StartValid | game.py:73-84 | a new ship's statistics satisfy the invariant |
| Progression.GainXp | game.py:100-107 | reports a level-up exactly when xp + amount reaches the threshold. Then the level rises by exactly 1, xp drops by the old threshold, and the threshold follows the curve for the new level. Otherwise only xp changes |
| Progression.GainXpKeepsValid | game.py:100-107 | a gain of at most 50 (a kill gives 35) keeps the record valid, including xp below the new threshold |
| Progression.GainXpGrantsOneLevelOnly | game.py:100-107 | one call never grants two levels: 1000 points from the start give level 2 with 950 xp, above the new threshold of 141 |
| Progression.TwoKillsFromStart | game.py:100-107 | from the start, a first kill gives 35 xp and no level. The second gives level 2 with 20 xp and a threshold of 141 |
| Progression.TakeHit | game.py:473-480 | a hit restarts the regeneration timer. With shield above 0, the new shield is max(0, shield - 20) and hp loses max(0, 20 - shield); otherwise hp loses exactly 20. For shield >= 0, hp + shield drops by exactly 20. Nothing else changes, and validity is kept |
| Progression.HitThroughThinShield | game.py:475-478 | a 10-point shield empties and hp loses the other 10 |
| Progression.ApplySupply | game.py:427-434 | a weapon kit adds a bullet below 3 and otherwise turns on the laser. A heal kit raises hp by 50, capped at max hp. A shield kit raises max shield by 10 and fills the shield. Nothing else changes, and validity is kept |
| Progression.ApplyUpgrade | game.py:323-334 | option 1 adds a bullet below 3, and otherwise sets the fire interval to max(120, interval - 60). Option 2 raises max hp by 20 and fills hp. Option 3 raises max shield by 20 and fills the shield. Nothing else changes, and validity is kept |
| Progression.FirepowerPastThreeBullets | game.py:324-325 | with 3 bullets, n choices of option 1 leave the fire interval at max(120, interval - 60n) and change nothing else |
| Progression.BoonsKeepValid | game.py:323-334 | any interleaving of supplies, upgrade choices and experience gains of at most 50 keeps 1 to 3 bullets, a fire interval of at least 120, and hp and shield within their maxima |
| Progression.Regen | game.py:95-98 | the timer counts up by 1. Only once it passes 180 does a shield below its maximum grow, by at most 0.3 and never past the maximum. Nothing else changes, and validity is kept |
| Progression.NoRegenAfterHit | game.py:95-98 | for 180 frames after a hit, the shield stays where the hit left it |
| Progression.RegenResumes | game.py:95-98 | on the 181st frame after a hit, a shield below its maximum grows again |
| Sprites.NewEnemy | game.py:139-142 | a normal enemy has 1 hp, enters at y = -60, falls at its speed, and starts its firing clock at creation |
| Sprites.NewBoss | game.py:125-127 | a boss has 1000 + 60 * level hp, is centred at (450, -100), moves sideways at 2, and starts its firing clock at creation |
| Sprites.NewBullet | game.py:163-180 | a laser is 20x100 and deals 60 damage, a normal bullet is 10x25 and deals 30, and either is centred where it was fired |
| Sprites.Volley | game.py:405-414 | a laser volley is one 20x100 laser from the top centre of the ship. Otherwise it is one 10x25 bullet per offset, each at the ship's centre x plus its offset, dealing 30 |
| Sprites.Shoot | game.py:153-160 | an enemy fires exactly when more than its interval (700 for the boss, 2000 otherwise) has passed since its last shot. It fires one bullet from its bottom centre and restarts its clock; otherwise nothing changes |
| Sprites.ShootAll | game.py:418-421 | a group's turn to fire keeps every enemy and fires at most one bullet per enemy |
| Sprites.ShootAllFires | game.py:418-421 | a group fires exactly one bullet per enemy whose interval has passed, and its bullets are exactly those fired by its enemies' own shots |
| Sprites.ShootAllInPlace | game.py:418-421 | after a group fires, each enemy is as its own shot left it |
| Sprites.Advance | game.py:144-150 | a boss sinks 2 while its top is above 120, moves sideways by its speed, and turns round when past a side edge. A normal enemy falls by its speed |
| Sprites.EnemyFalls | game.py:150 | after n frames a normal enemy has fallen exactly n times its speed |
| Sprites.NewBossOnTrack | game.py:125-127 | a boss narrower than the screen starts on its track |
| Sprites.BossStaysOnTrack | game.py:145-148 | a boss on its track stays on it however many frames pass: its top stays at most 121, it is never more than one step past a side edge, and its hp is unchanged |
| Sprites.AdvanceBullet | game.py:182-184 | a player bullet rises 18 per frame, keeping its size, kind and damage. It leaves the game in the frame that starts with its bottom edge less than 18 below the top of the screen |
| Sprites.AdvanceEnemyBullet | game.py:196-198 | an enemy bullet falls 6 per frame, keeping its size. It leaves the game in the frame that starts with its top edge less than 6 above the bottom of the screen |
| Sprites.AdvanceSupply | game.py:237-239 | a supply falls 2 per frame, keeping its kind and size. It leaves the game in the frame that starts with its top edge less than 2 above the bottom of the screen |
| Sprites.MoveGroupShape | game.py:483 | after a frame's update no sprite of a group has left the game, and every sprite that moved and stayed on screen is still in the group. When none leaves, every sprite has moved in place |
| Sprites.MovedFrom | game.py:483 | every sprite left after the update is a moved sprite of the group |
| Sprites.CollideSplit | game.py:425 | a removing collision query (Touching, Untouched) finds exactly the members that overlap and leaves exactly the others. It finds nothing exactly when nothing overlaps, and then the group stays whole |
| PlayerSprite.Steer | game.py:87-93 | steering keeps the ship's size and keeps a ship that fits inside the screen. A move that stays inside the screen is taken as is |
| PlayerSprite.Player.constructor | game.py:70-84 | a new ship has the starting statistics, centred at (450, 600) |
| PlayerSprite.Player.Update | game.py:87-98 | the in-place update steers the ship and runs the shield timer as Steer and Regen say |
| PlayerSprite.Player.GainXp | game.py:100-107 | the in-place gain does what GainXp says and reports the level-up |
| PlayerSprite.Player.TakeHit | game.py:473-480 | the in-place hit does what TakeHit says |
| PlayerSprite.Player.ApplySupply | game.py:427-434 | the in-place pickup does what ApplySupply says |
| PlayerSprite.Player.ApplyUpgrade | game.py:323-334 | the chosen option applied in place does what ApplyUpgrade says |
| Simulation.StartWorldInv | game.py:364-375 | the initial state satisfies the game invariant |
| Simulation.Spawn | game.py:390-402 | the fight starts exactly when there is none and the level reaches the milestone. All normal enemies are then removed and one boss is added: the boss of the current level created at this frame's clock, with 1000 + 60 * level hp, centred at x 450 and y -100, moving 2 per frame. During a fight nothing changes, and otherwise at most one normal enemy is added |
| Simulation.SpawnKeepsInv | game.py:390-402 | spawning keeps the game invariant |
| Simulation.BossFightStartsOnce | game.py:390-402 | the fight starts with exactly one boss and no other enemy, and spawning again changes nothing |
| Simulation.Fire | game.py:405-416 | with the button held and more than the fire interval elapsed, the volley joins the bullets and the clock restarts. Otherwise nothing changes |
| Simulation.FireKeepsInv | game.py:405-416 | firing keeps the game invariant |
| Simulation.EnemiesFire | game.py:418-421 | enemy fire keeps every enemy and boss, and only appends new enemy bullets, at most one per enemy |
| Simulation.EnemiesFireShots | game.py:418-421 | the enemy bullets added in a frame are one per enemy or boss whose interval has passed, and exactly the bullets their own shots fire |
| Simulation.EnemiesFireInPlace | game.py:418-421 | each enemy and boss changes only as its own shot changes it |
| Simulation.EnemiesFireKeepsInv | game.py:418-421 | enemy fire keeps the game invariant |
| Simulation.ApplySupplies | game.py:427-434 | collected supplies by kind: each weapon kit adds a bullet until there are 3 and from then on turns the laser on; heal kits add 50 hp each, capped at max hp; each shield kit adds 10 to max shield, and the shield ends full if any was collected. Level, xp, timer, fire interval and firing clock stay as they were, and validity is kept |
| Simulation.Pickups | game.py:425-434 | the ship's new statistics are the effects of the supplies touching it, applied in group order. Level, xp and the firing clock stay as they were, only the statistics and the supply group change, and the group can only shrink |
| Simulation.PickupsClearShip | game.py:425 | afterwards no supply touches the ship and every removed supply touched it. With no touching supply nothing changes |
| Simulation.PickupsKeepsInv | game.py:425-434 | pickups keep the game invariant |
| Simulation.KillReward | game.py:439-443 | a kill uses a menu choice exactly when xp + 35 reaches the threshold, and the level rises by exactly the choices used. Without a level-up only xp changes, by 35; with one, the chosen option applies after the level-up. Validity is kept |
| Simulation.KillRewards | game.py:438-444 | n kills use one menu choice per level gained, at most n. When no level is gained only xp changes, by 35 per kill. Validity is kept |
| Simulation.StrikeBosses | game.py:446-452 | a bullet leaves as many bosses, kept or slain, as there were. A single boss is struck exactly once |
| Simulation.StrikeBossesEach | game.py:446-452 | every boss of the group ends up, after the bullet's hit, either kept or slain |
| Simulation.StrikeBossesFrom | game.py:446-452 | the strike hit exactly when some boss overlaps the bullet. Every kept or slain boss is a boss of the group after the hit; the slain have 0 hp or less, and the kept stay above 0 when all were |
| Simulation.Struck | game.py:447-448 | a boss the bullet touches loses exactly the bullet's damage and nothing else; a boss it misses is unchanged |
| Simulation.Drop | game.py:466-468 | a slain boss leaves a weapon supply centred where the boss was |
| Simulation.Drops | game.py:446-469 | one supply per slain boss |
| Simulation.DropsInOrder | game.py:446-469 | the i-th supply dropped is the one the i-th slain boss leaves |
| Simulation.HitByShot | game.py:437-469 | one bullet's pass: 10 points and the kill rewards for every enemy it touches, and 2000 points per slain boss. Touched enemies are removed and the bosses are struck. A slain boss ends the fight, moves the milestone 5 on and drops a weapon supply. A non-laser bullet that hit anything is spent. Nothing else changes |
| Simulation.HitByShotKeepsInv | game.py:437-469 | one bullet's pass keeps the game invariant |
| Simulation.BossDefeat | game.py:446-469 | a hit that brings the boss to 0 hp ends the fight: no boss is left, score +2000, milestone +5, and exactly one weapon supply appears at the boss's centre |
| Simulation.BossWithstands | game.py:446-449 | a hit that leaves the boss above 0 hp takes exactly the bullet's damage and the fight goes on |
| Simulation.HitByShotAccount | game.py:437-469 | under the invariant, one bullet's pass scores 10 per enemy it removes and 2000 if it ends the boss fight. It never starts a fight, never touches the bullet group, and never spends a laser |
| Simulation.ShotsPass | game.py:436-469 | passes over the bullets never lower the score or the level. They never add enemies, add at most one bullet per bullet passed, and leave the ship's position and the enemy bullets alone |
| Simulation.ShotsPassScore | game.py:436-469 | under the invariant, the passes score exactly 10 per enemy removed plus 2000 if they end the boss fight, which never restarts within them |
| Simulation.ShotsPassBullets | game.py:436-469 | the old bullets stay and only passed bullets are added. Every passed laser survives, and so does every passed bullet that touches no enemy and no boss of the starting state |
| Simulation.HitByShotFrame | game.py:437-469 | one bullet's pass only removes enemies, leaves every boss where it was, and spends the bullet only when it touches an enemy or a boss |
| Simulation.ShotsPassFrame | game.py:436-469 | a sweep only removes enemies and leaves every boss where it was |
| Simulation.ShotsPassKeepsInv | game.py:436-469 | any sequence of bullet passes keeps the game invariant |
| Simulation.BulletHits | game.py:436-469 | the player's bullets never lower the score or the level, and never add bullets or enemies |
| Simulation.BulletHitsAccount | game.py:436-469 | under the invariant, the player's bullets score exactly 10 per enemy they remove plus 2000 if they end the boss fight. The surviving bullets are bullets of the group. Every laser survives, and so does every bullet that touches no enemy and no boss |
| Simulation.BulletHitsKeepsInv | game.py:436-469 | the player's bullets keep the game invariant |
| Simulation.PlayerHit | game.py:472-480 | a frame costs the ship either nothing or exactly one hit. Touching enemy bullets are removed, and enemies are removed only by the body check |
| Simulation.PlayerHitCases | game.py:472-480 | the hit is taken exactly when an enemy bullet or an enemy touches the ship, and then hp + shield drops by 20. Touching enemies are removed only when no enemy bullet touched |
| Simulation.PlayerHitKeepsInv | game.py:472-480 | the hit keeps the game invariant |
| Simulation.Move | game.py:483 | the update regenerates the shield and steers the ship onto the screen. Score, fight flag and milestone are unchanged |
| Simulation.MoveShape | game.py:483 | after the update no fallen enemy remains, every enemy that moved and stayed on screen does, and the bosses have all moved in place |
| Simulation.MoveProjectiles | game.py:182-184 | after the update no bullet past the top, enemy bullet past the bottom or supply past the bottom remains (also game.py:196-198, 237-239 and 483), and every one that moved and stayed on screen does |
| Simulation.MoveKeepsInv | game.py:483 | the update keeps the game invariant |
| Simulation.Step | game.py:380-483 | a frame never lowers the score or the player's level |
| Simulation.StepKeepsInv | game.py:380-483 | every frame keeps the game invariant. The statistics stay valid (1 to 3 bullets, a fire interval of at least 120, hp and shield within their maxima, xp below a threshold that follows the curve). There is a single living boss exactly during a fight, alone on screen, and no boss among the normal enemies |
| Simulation.RunKeepsInv | game.py:380-483 | any number of frames keeps the game invariant |
| Game.FireVolley | game.py:405-414 | the volley built bullet by bullet is the volley Volley describes |
| Game.ShootGroup | game.py:418-421 | the loop over a group gives every enemy its shot, as ShootAll describes |
| Game.StrikeGroup | game.py:446-469 | the loop over the boss group keeps the survivors. It counts the slain and drops one weapon supply per slain boss, as StrikeBosses describes |
| Game.Game.constructor | game.py:364-375 | the initial state is the model's start state and satisfies the invariant |
| Game.Game.Tick | game.py:380-549 | one frame in place is Step. It keeps the invariant, and the game goes on exactly when no quit was requested and hp is above 0 |
| Game.Game.SpawnEnemies | game.py:390-402 | spawning in place is Spawn |
| Game.Game.PlayerFire | game.py:405-416 | the volley in place is Fire |
| Game.Game.EnemiesShoot | game.py:418-421 | enemy fire in place is EnemiesFire |
| Game.Game.CollectSupplies | game.py:425-434 | the pickup loop is Pickups |
| Game.Game.ResolveShots | game.py:436-469 | the loop over the player's bullets is BulletHits |
| Game.Game.PassShot | game.py:436-469 | one iteration of that loop advances the sweep of ShotsPass by one bullet |
| Game.Game.ResolveShot | game.py:437-469 | one bullet's pass in place is HitByShot |
| Game.Game.ShootEnemies | game.py:437-444 | the kills of one bullet in place: enemies removed, 10 points each, the kill rewards |
| Game.Game.ShootBosses | game.py:446-469 | the boss hits of one bullet in place, with the bookkeeping of each slain boss |
| Game.Game.RewardKills | game.py:438-444 | the loop over the kills gives 10 points each and the rewards KillRewards describes |
| Game.Game.PlayerCollisions | game.py:472-480 | the collision checks in place are PlayerHit |
| Game.Game.UpdateSprites | game.py:483 | the update of all sprites in place is Move |

## Left out

- Rendering is not modelled: particles, explosions, fireworks, the border, the HP bars, the HUD, the boss bar and the game-over screen. It only draws.
- Asset loading and fallback images are not modelled. Sprite sizes depend on which images load, so they are parameters (`Simulation.Sizes`). Bullet sizes are fixed by the code.
- The pygame event queue, keyboard, mouse and clock are not modelled. Their values arrive in `Simulation.Input`.
- `Enemy.shoot` reads the clock again (game.py:154), and a new enemy or boss reads it when created (game.py:142). The model gives `Sprites.Shoot`, `Sprites.NewEnemy` and `Sprites.NewBoss` the frame's `now` instead.
- The blocking loop of the level-up menu is not modelled. The model applies exactly one option per level-up, the one given for the k-th level-up of a frame by `Input.pick(k)`. The menu does not stop at the first choice within one batch of events (game.py:321-334), so several number keys pressed together apply several upgrades for one level-up; the model does not capture that. Other events in that batch, a quit request among them, are discarded by the menu; that is not modelled either. Time spent in the menu shows up only through later `now` values.
- Random draws are inputs: the 4% spawn roll, enemy and supply x positions, enemy speeds and explosion offsets. The model does not constrain them to their source ranges.
- Sprites.Advance: a normal enemy's speed is a float in [2, 4) and pygame truncates the moved coordinate to an integer. The model takes an integer speed and moves by it exactly.
- Progression.Regen: hp and shield are exact reals. The float rounding of the +0.3 shield step is not modelled.
- Rules.XpNextFor: computed exactly as the floor of 50 * level^1.5. The source's float power could round differently for very large levels.
- Sprites are values in sequences kept in insertion order, so sprite identity and membership in several groups at once are not modelled. This includes the group that draws everything.
- Heal and shield supplies are never created in this file (only bosses drop weapon supplies). Their effects are modelled anyway. A supply's glow timer is not modelled.
- Simulation.Inv does not bound hp from below: the source lets hp fall below 0, which ends the game.
- The frame counter, the frame-rate cap, the 3-second pause on game over and `pygame.quit` are not modelled.
- ShootAll: its own contract bounds the bullets only by number; which bullets a group fires, and how many, is stated by ShootAllFires.
- EnemiesFire: its own contract bounds the new enemy bullets only by number; which they are, and how many, is stated by EnemiesFireShots.
- ShotsPass: its own contract gives bounds and monotonicity only. The exact score holds under the game invariant and is stated by ShotsPassScore. ShotsPassBullets states bullet survival for lasers and for bullets that touch nothing at the start of the sweep. It does not state that a bullet spent on an enemy is removed, nor the survival of a bullet whose only target an earlier bullet of the same sweep removed.
- StrikeBosses: its own contract gives the count and the one-boss case. StrikeBossesEach states that each boss ends up kept or slain; the quantified form is kept out of the function's contract to keep the in-place proofs small.
- BulletHits: its own contract gives bounds and monotonicity only. The exact score holds under the game invariant and is stated by BulletHitsAccount, which also states that lasers and bullets touching nothing survive. It has the same gap in bullet survival as ShotsPass.
