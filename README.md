# Road game core, modelled in Dafny

The road game is a libGDX arcade game. A car at a fixed height steers left and
right across the road, while obstacles, fuel cans and power-ups fall towards it
and the player shoots bullets upwards. This project models three parts of it.

- **The per-frame simulation of `GameScreen`.** `update` moves the car, fires,
  clamps the car to the road, runs the fire cooldown and the three spawn
  timers, and moves obstacles, fuels, power-ups and bullets, resolving their
  collisions inside the loops. `shoot` adds a bullet. `resetGame` starts a run.
  The game-over branch of `render` latches game over, submits the score once,
  and restarts on request.
- **`GameSettings`.** The difficulty table (speed multiplier and obstacle spawn
  rate per level) and the preference store, with clamped volume setters, an
  index-to-difficulty lookup that falls back to Normal, and `resetToDefaults`.
- **The display helpers of `LeaderboardScreen`.** Ordinal rank labels, name
  truncation, podium colours, the difficulty fallback and the rows of the table.

The project has these files:

- `simulation.dfy` (module `Simulation`) states one frame as pure functions
  over a `World` value. Each block of `update` is one function, and `Frame`
  adds the game-over latch and the restart.
- `game_screen.dfy` (module `Screen`) is the screen as the program runs it.
  Class `GameScreen` holds the run state in its own fields (`car`, the four
  `seq<Rect>` lists, the timers, `score`, `currentHealth`, …) and changes
  them in place. Every method is proved to leave the fields equal to the
  corresponding `Simulation` function applied to the old fields. The four
  iterator loops are methods over sequences with loop invariants, proved to
  compute the recursive pass functions.
- `simulation_lemmas.dfy` (module `SimulationLemmas`) proves what the game
  promises of those functions: the run invariant, the clamp, spawning on a
  strict threshold, the fire cooldown, the invincibility window, bullet
  scoring, the one-shot game-over latch over whole runs, and the restart.
- `settings.dfy` (module `Settings`) models the difficulty enum and the
  `GameSettings` class. The preferences are a `map` field that the setters
  reassign.
- `leaderboard.dfy` (module `Leaderboard`) holds the display helpers and the
  row-building loop.
- `numbers.dfy` and `geometry.dfy` hold the `Math.max`/`Math.min` clamp, the
  `(int)` cast, and rectangles with strict overlap.

Where a comment in the code and the code disagree, the model follows the code:

- `GameSettings.java:53` calls Easy's rate 1.5 a "slower spawn". However,
  `GameScreen.java:322` uses `1 / rate` as the interval, so Easy spawns
  obstacles every 2/3 s and Hard every 10/7 s. `Settings.DifficultyOrdering`
  states this.
- Spawning uses a strict `>`, so a timer that reaches its interval exactly
  waits one more frame (`SimulationLemmas.ExactThresholdWaits`).
- Firing happens before the clamp. The bullet is placed where steering left
  the car (`Simulation.SteerAndFire`).
- The speed factor is taken once at the start of `update`. A crash raises the
  multiplier for the next frame, not for the sprites that move after it in the
  same frame (`Simulation.Update`).

## Model

| member | source | states |
|---|---|---|
| `Numbers.Clamp` | core/src/main/java/si/um/feri/temelko/GameScreen.java:313 | `max(lo, min(hi, v))` lies in [lo, hi] when that interval is non-empty. It is v inside the interval, lo below it and hi above it, and lo when hi < lo |
| `Numbers.Trunc` | core/src/main/java/si/um/feri/temelko/GameScreen.java:324 | The `(int)` cast of a float rounds toward zero |
| `Geometry.OverlapsSymmetric` | core/src/main/java/si/um/feri/temelko/GameScreen.java:396 | Strict rectangle overlap does not depend on which rectangle asks, so `bullet.overlaps(obstacle)` and `obstacle.overlaps(car)` mean the same thing in either order |
| `Settings.FromOrdinal` | core/src/main/java/si/um/feri/temelko/GameSettings.java:95-102 | An index in [0, 3) selects the difficulty with that ordinal; any other index selects Normal |
| `Settings.SpeedMultiplier` | core/src/main/java/si/um/feri/temelko/GameSettings.java:43-49 | Every level's speed multiplier is positive (0.8, 1.0 and 1.3) |
| `Settings.ObstacleSpawnRate` | core/src/main/java/si/um/feri/temelko/GameSettings.java:51-57 | Every level's spawn rate is positive (1.5, 1.0 and 0.7), so the obstacle interval `1 / rate` is defined |
| `Settings.DifficultyOrdering` | core/src/main/java/si/um/feri/temelko/GameSettings.java:43-57 | A harder level has a strictly larger speed multiplier and a strictly longer obstacle spawn interval |
| `Settings.OrdinalRoundTrip` | core/src/main/java/si/um/feri/temelko/GameSettings.java:97-99 | Looking up a difficulty's ordinal gives the difficulty back |
| `Settings.GetFloat` | core/src/main/java/si/um/feri/temelko/GameSettings.java:77-79 | A missing key reads as the caller's default, and a stored float reads as itself |
| `Settings.GetInteger` | core/src/main/java/si/um/feri/temelko/GameSettings.java:96 | A missing key reads as the caller's default, and a stored integer reads as itself |
| `Settings.GetBoolean` | core/src/main/java/si/um/feri/temelko/GameSettings.java:109-111 | A missing key reads as the caller's default, and a stored boolean reads as itself |
| `Settings.DifficultyStoreRoundTrip` | core/src/main/java/si/um/feri/temelko/GameSettings.java:95-107 | After storing a difficulty's ordinal, the store selects that difficulty |
| `Settings.DifficultyFallback` | core/src/main/java/si/um/feri/temelko/GameSettings.java:21 | A store without a difficulty, or with an out-of-range index, selects Normal (the default index 1) |
| `Settings.GameSettings.constructor` | core/src/main/java/si/um/feri/temelko/GameSettings.java:60-66 | An existing store with a sound volume is kept as it is. Otherwise the five defaults are written and every other key is kept |
| `Settings.GameSettings.ResetToDefaults` | core/src/main/java/si/um/feri/temelko/GameSettings.java:68-75 | Exactly the five setting keys are written, with 0.7, 0.5, 1, false and false. Every other key keeps its value, and the getters then read the defaults with Normal difficulty |
| `Settings.GameSettings.SoundVolume` | core/src/main/java/si/um/feri/temelko/GameSettings.java:77-79 | A store without the key reads 0.7, and a stored float reads as itself |
| `Settings.GameSettings.SetSoundVolume` | core/src/main/java/si/um/feri/temelko/GameSettings.java:81-84 | Only the sound-volume key changes, to the volume clamped to [0, 1]. The getter then reads a value in [0, 1], and any in-range volume reads back unchanged |
| `Settings.GameSettings.MusicVolume` | core/src/main/java/si/um/feri/temelko/GameSettings.java:86-88 | A store without the key reads 0.5, and a stored float reads as itself |
| `Settings.GameSettings.SetMusicVolume` | core/src/main/java/si/um/feri/temelko/GameSettings.java:90-93 | The same as the sound volume, for the music-volume key |
| `Settings.GameSettings.CurrentDifficulty` | core/src/main/java/si/um/feri/temelko/GameSettings.java:95-102 | A store without the key selects Normal; a stored index in [0, 3) selects the difficulty with that ordinal, and any other stored index selects Normal |
| `Settings.GameSettings.SetDifficulty` | core/src/main/java/si/um/feri/temelko/GameSettings.java:104-107 | Only the difficulty key changes, to the ordinal, and `getDifficulty` then returns the difficulty set |
| `Settings.GameSettings.IsFullscreen` | core/src/main/java/si/um/feri/temelko/GameSettings.java:109-111 | A store without the key reads false, and a stored boolean reads as itself |
| `Settings.GameSettings.SetFullscreen` | core/src/main/java/si/um/feri/temelko/GameSettings.java:113-116 | Only the fullscreen key changes, and the getter reads back the value set |
| `Settings.GameSettings.IsShowFps` | core/src/main/java/si/um/feri/temelko/GameSettings.java:118-120 | A store without the key reads false, and a stored boolean reads as itself |
| `Settings.GameSettings.SetShowFps` | core/src/main/java/si/um/feri/temelko/GameSettings.java:122-125 | Only the show-FPS key changes, and the getter reads back the value set |
| `Leaderboard.NatToString` | core/src/main/java/si/um/feri/temelko/LeaderboardScreen.java:199 | The decimal rendering of a natural number is a non-empty string of digits without a leading zero |
| `Leaderboard.NatToStringRoundTrip` | core/src/main/java/si/um/feri/temelko/LeaderboardScreen.java:199 | Reading a rendered natural number back as digits gives the number |
| `Leaderboard.IntToString` | core/src/main/java/si/um/feri/temelko/LeaderboardScreen.java:225 | A rendered integer is non-empty and starts with '-' exactly when it is negative |
| `Leaderboard.IntToStringInjective` | core/src/main/java/si/um/feri/temelko/LeaderboardScreen.java:199 | Different scores render as different strings |
| `Leaderboard.RankDisplay` | core/src/main/java/si/um/feri/temelko/LeaderboardScreen.java:220-227 | Every label is the rank's numeral followed by a two-letter suffix, and the suffix is "th" exactly for ranks other than 1, 2 and 3 |
| `Leaderboard.RankDisplayInjective` | core/src/main/java/si/um/feri/temelko/LeaderboardScreen.java:220-227 | No two ranks share a label |
| `Leaderboard.PodiumLabelsStandApart` | core/src/main/java/si/um/feri/temelko/LeaderboardScreen.java:220-227 | A podium label is never a "…th" label |
| `Leaderboard.TruncateName` | core/src/main/java/si/um/feri/temelko/LeaderboardScreen.java:229-235 | A null name reads "Unknown". A name of at most 15 characters is shown as it is. A longer one becomes its first 12 characters plus "...", exactly 15 long. No result exceeds 15 characters |
| `Leaderboard.TruncateNameIdempotent` | core/src/main/java/si/um/feri/temelko/LeaderboardScreen.java:229-235 | Truncating a name that was already shown changes nothing |
| `Leaderboard.RowColour` | core/src/main/java/si/um/feri/temelko/LeaderboardScreen.java:180-189 | A row is coloured (not white) exactly for ranks 1 to 3 |
| `Leaderboard.PodiumColoursDistinct` | core/src/main/java/si/um/feri/temelko/LeaderboardScreen.java:180-189 | Gold, light grey and bronze are pairwise distinct across the podium |
| `Leaderboard.DifficultyLabel` | core/src/main/java/si/um/feri/temelko/LeaderboardScreen.java:203 | A stored difficulty label is shown as it is, and a missing one as the display name of Normal (`Difficulty.toString`) |
| `Leaderboard.EntryRow` | core/src/main/java/si/um/feri/temelko/LeaderboardScreen.java:191-206 | A score row whose rank label is the numeral with a suffix that is "th" exactly when the colour is white, which is exactly off the podium; a name of at most 15 characters; a score with a sign exactly when negative; and Normal for a missing difficulty |
| `Leaderboard.LeaderboardRows` | core/src/main/java/si/um/feri/temelko/LeaderboardScreen.java:171-213 | An empty leaderboard shows only the light-grey "No scores yet!" row. Otherwise there is one row per entry, in list order: rank k+1 with its label and colour, the truncated name, the score, and the difficulty (or "Normal" when it is missing) |
| `Simulation.PickupIsOnScreen` | core/src/main/java/si/um/feri/temelko/GameScreen.java:343-353 | While the car sits at a non-negative height, a sprite it touches is never also below the screen. So the collision removal and the off-screen removal never both hit one obstacle, fuel or power-up |
| `Simulation.CrashPass` | core/src/main/java/si/um/feri/temelko/GameScreen.java:340-354 | After n crash sounds, health is the old health less 20·n, floored at 0, and the speed multiplier has risen by exactly 0.1·n. No more obstacles are kept or crashed than there were. `CrashPassKeeps` ties n to the obstacles that crash |
| `Simulation.CrashCount` | core/src/main/java/si/um/feri/temelko/GameScreen.java:343-346 | The number of obstacles that crash after falling is at most their number, is 0 while invincible, and is 0 exactly when no fallen obstacle overlaps the car |
| `Simulation.CrashPassKeeps` | core/src/main/java/si/um/feri/temelko/GameScreen.java:340-354 | One crash sound per crashing obstacle, so with `CrashPass` health drops by 20 and the multiplier rises by 0.1 for each of them. Only crash sounds are played. Every kept obstacle is a fallen input obstacle that is on screen and does not crash, and every such fallen obstacle is kept |
| `Simulation.FuelPass` | core/src/main/java/si/um/feri/temelko/GameScreen.java:357-368 | After n pickups, health is the old health plus 10·n, capped at 100, and the score has risen by exactly 5·n. `FuelPassKeeps` ties n to the fuels touched |
| `Simulation.TouchCount` | core/src/main/java/si/um/feri/temelko/GameScreen.java:360 | The number of sprites the car touches after they fall is at most their number, and 0 exactly when none touches it |
| `Simulation.FuelPassKeeps` | core/src/main/java/si/um/feri/temelko/GameScreen.java:357-368 | One collect sound per fuel the car touches, so with `FuelPass` the score rises by 5 and health by 10 (capped) for each of them. Only collect sounds are played. Every kept fuel is a fallen input fuel that is on screen and not touched, and every such fallen fuel is kept |
| `Simulation.PowerUpPass` | core/src/main/java/si/um/feri/temelko/GameScreen.java:371-382 | Without a pickup, invincibility and its timer are unchanged. After any pickup the car is invincible, with the timer set (not extended) to 3 |
| `Simulation.PowerUpPassKeeps` | core/src/main/java/si/um/feri/temelko/GameScreen.java:371-382 | One power-up sound per power-up the car touches, and only power-up sounds. Every kept power-up is a fallen input power-up that is on screen and not touched, and every such fallen power-up is kept |
| `Simulation.Shoot` | core/src/main/java/si/um/feri/temelko/GameScreen.java:406-414 | A shot adds at most the one bullet from the car's top centre, and adds it exactly when the cooldown has run out. Afterwards a cooldown is always running, and the car, score and health are untouched |
| `Simulation.FirstHit` | core/src/main/java/si/um/feri/temelko/GameScreen.java:394-402 | A hit names an index of the obstacle list |
| `Simulation.FirstHitIsFirst` | core/src/main/java/si/um/feri/temelko/GameScreen.java:394-402 | A hit names an obstacle that the bullet overlaps, with no earlier obstacle overlapping. A miss means that no obstacle overlaps |
| `Simulation.RemoveAt` | core/src/main/java/si/um/feri/temelko/GameScreen.java:397 | Removing the element at an index shortens the list by one and removes exactly that element from the multiset |
| `Simulation.VisitBullet` | core/src/main/java/si/um/feri/temelko/GameScreen.java:391-402 | A bullet is kept exactly when it is still on screen and hits nothing. A hit removes exactly the first overlapping obstacle and counts one hit. A miss leaves the obstacles alone |
| `Simulation.BulletPass` | core/src/main/java/si/um/feri/temelko/GameScreen.java:390-403 | Every hit removes exactly one obstacle and one bullet, so no bullet kills more than one obstacle |
| `Simulation.BulletPassKeeps` | core/src/main/java/si/um/feri/temelko/GameScreen.java:390-403 | The obstacles left standing form a sub-multiset of those there were. Every kept bullet is on screen, and no kept bullet overlaps a standing obstacle |
| `Simulation.Reset` | core/src/main/java/si/um/feri/temelko/GameScreen.java:127-151 | A fresh run satisfies the run invariant and carries over the sounds already played and the scores already submitted |
| `Simulation.Update` | core/src/main/java/si/um/feri/temelko/GameScreen.java:296-404 | An update leaves the difficulty multipliers, the game-over latch and the submitted scores alone. What it changes is stated by the lemmas below |
| `Simulation.Latch` | core/src/main/java/si/um/feri/temelko/GameScreen.java:170-178 | Game over is set once health is ≤ 0. The score is appended to the submissions exactly when health is ≤ 0 and it was not yet saved, and nothing else changes |
| `Simulation.Frame` | core/src/main/java/si/um/feri/temelko/GameScreen.java:168-189 | A frame submits nothing or its own final score, once, and keeps the spawn rate positive |
| `SimulationLemmas.UpdateKeepsHealthInRange` | core/src/main/java/si/um/feri/temelko/GameScreen.java:345-362 | Health stays in [0, 100] through an update |
| `SimulationLemmas.UpdateNeverLowersProgress` | core/src/main/java/si/um/feri/temelko/GameScreen.java:340-403 | An update never lowers the score or the speed multiplier |
| `SimulationLemmas.UpdateKeepsShieldTimer` | core/src/main/java/si/um/feri/temelko/GameScreen.java:371-387 | While the car is invincible after an update, its timer lies in (0, 3] |
| `SimulationLemmas.UpdatePhases` | core/src/main/java/si/um/feri/temelko/GameScreen.java:305-403 | Each block of an update changes only its own fields. Steering and firing touch the car's x, the bullets, the sounds and the cooldown; spawning touches the lists and their timers; the falling sprites keep health in range, never lower score or multiplier, and keep the shield timer in range; the shield tick touches only invincibility; the bullets touch only bullets, obstacles and score |
| `SimulationLemmas.SpawnChangesOnlySprites` | core/src/main/java/si/um/feri/temelko/GameScreen.java:318-337 | Spawning changes only the three sprite lists and their timers |
| `SimulationLemmas.MoveFallingBounds` | core/src/main/java/si/um/feri/temelko/GameScreen.java:340-382 | The obstacle, fuel and power-up loops together keep health in [0, 100], never lower the score or the multiplier, and keep the shield timer in (0, 3] |
| `SimulationLemmas.UpdateKeepsBounds` | core/src/main/java/si/um/feri/temelko/GameScreen.java:296-404 | An update keeps every part of the run invariant that does not depend on the latch |
| `SimulationLemmas.InvPreserved` | core/src/main/java/si/um/feri/temelko/GameScreen.java:168-189 | Every frame keeps the run invariant. This holds for running, finished and restarted games |
| `SimulationLemmas.CarStaysOnRoad` | core/src/main/java/si/um/feri/temelko/GameScreen.java:306-313 | Whatever the keys and the elapsed time, a car that fits on the road ends the update within [0, W − car width] at its old height |
| `SimulationLemmas.CarKeepsHeight` | core/src/main/java/si/um/feri/temelko/GameScreen.java:306-313 | Steering moves the car only sideways and never resizes it |
| `SimulationLemmas.SpawnOnThreshold` | core/src/main/java/si/um/feri/temelko/GameScreen.java:318-337 | Each spawner is independent. A timer strictly past its interval (1/rate, 2 or 5) appends exactly one sprite at the top edge with x in [0, W − (int)width) and resets only itself. Otherwise its list is unchanged and its timer has advanced by delta. Car, bullets, health and score are untouched |
| `SimulationLemmas.ExactThresholdWaits` | core/src/main/java/si/um/feri/temelko/GameScreen.java:328-332 | A fuel timer that reaches 2 s exactly does not spawn yet |
| `SimulationLemmas.FireRespectsCooldown` | core/src/main/java/si/um/feri/temelko/GameScreen.java:406-414 | Fire adds one bullet from the car's top centre and one shot sound only when the cooldown has run out, and it then sets the cooldown to 0.25 less this frame's delta. Otherwise bullets and sounds stay and a running cooldown goes down by delta |
| `SimulationLemmas.ShotsPerFrame` | core/src/main/java/si/um/feri/temelko/GameScreen.java:306-315 | Over a whole update, exactly one shot is heard when fire is pressed with the cooldown run out, and none otherwise |
| `SimulationLemmas.InvincibilityWindow` | core/src/main/java/si/um/feri/temelko/GameScreen.java:371-387 | A pickup sets the timer to 3 less delta, and invincibility lasts only while that is positive. Without a pickup, an invincible car's timer runs down by delta and the car is no longer invincible once the timer is ≤ 0. A car that is not invincible stays so |
| `SimulationLemmas.BulletScoresPerKill` | core/src/main/java/si/um/feri/temelko/GameScreen.java:389-403 | The bullet pass adds exactly 10 points per destroyed obstacle and creates no bullets. No surviving bullet overlaps a surviving obstacle |
| `Simulation.BulletVisitAsWritten` | core/src/main/java/si/um/feri/temelko/GameScreen.java:393-398 | The code as written throws exactly when the bullet is past the top edge and hits an obstacle, and by then that obstacle is already gone from the list |
| `SimulationLemmas.CorrectedAgreesWhereNoThrow` | core/src/main/java/si/um/feri/temelko/GameScreen.java:393-398 | The code as written completes exactly when a bullet does not both leave the screen and hit, and then it agrees with the corrected visit |
| `SimulationLemmas.OffScreenHitThrows` | core/src/main/java/si/um/feri/temelko/GameScreen.java:393-398 | A bullet past the top edge that overlaps an obstacle makes the code as written throw after removing the obstacle. The corrected visit removes the bullet once and scores |
| `SimulationLemmas.GameOverFreezes` | core/src/main/java/si/um/feri/temelko/GameScreen.java:179-189 | A finished game stays exactly as it is until a restart is requested |
| `SimulationLemmas.GameOverLatches` | core/src/main/java/si/um/feri/temelko/GameScreen.java:168-178 | A running game ends exactly when its update leaves health ≤ 0. In that frame health is 0 and the final score is submitted once; in any other frame nothing is submitted |
| `SimulationLemmas.ProgressNeverDecreases` | core/src/main/java/si/um/feri/temelko/GameScreen.java:340-403 | Without a restart, a frame never lowers the score or the speed multiplier |
| `SimulationLemmas.RestartStartsFreshRun` | core/src/main/java/si/um/feri/temelko/GameScreen.java:127-151 | A restart gives a fresh run: health 100, score 0, multiplier 1, empty lists and cleared flags, with the difficulty selected now. It keeps the sounds played and scores submitted |
| `SimulationLemmas.SubmitsOncePerRun` | core/src/main/java/si/um/feri/temelko/GameScreen.java:168-178 | Over any sequence of frames without a restart:<br>• a finished game never changes;<br>• score and multiplier never go down;<br>• nothing is submitted while the game runs;<br>• a game that ends is submitted exactly once, with its final score |
| `Screen.FindFirstHit` | core/src/main/java/si/um/feri/temelko/GameScreen.java:394-402 | The inner obstacle scan returns the first obstacle the bullet overlaps |
| `Screen.CrashLoop` | core/src/main/java/si/um/feri/temelko/GameScreen.java:340-354 | The obstacle iterator loop computes `CrashPass`: kept obstacles, health, multiplier and sounds |
| `Screen.FuelLoop` | core/src/main/java/si/um/feri/temelko/GameScreen.java:357-368 | The fuel iterator loop computes `FuelPass` |
| `Screen.PowerUpLoop` | core/src/main/java/si/um/feri/temelko/GameScreen.java:371-382 | The power-up iterator loop computes `PowerUpPass` |
| `Screen.BulletLoop` | core/src/main/java/si/um/feri/temelko/GameScreen.java:389-403 | The nested bullet loop computes `BulletPass`, and the score it returns is the old score plus 10 per hit |
| `Screen.GameScreen.constructor` | core/src/main/java/si/um/feri/temelko/GameScreen.java:110-111 | The screen starts in a fresh run that satisfies the invariant |
| `Screen.GameScreen.ResetGame` | core/src/main/java/si/um/feri/temelko/GameScreen.java:127-151 | The fields become `Reset` for the difficulty selected in the settings. Only the sounds and submissions carry over |
| `Screen.GameScreen.PlaceCar` | core/src/main/java/si/um/feri/temelko/GameScreen.java:128 | The car is centred at height 100, and no other field changes |
| `Screen.GameScreen.ClearSprites` | core/src/main/java/si/um/feri/temelko/GameScreen.java:129-132 | The four lists are emptied, and no other field changes |
| `Screen.GameScreen.ZeroTimers` | core/src/main/java/si/um/feri/temelko/GameScreen.java:135-138 | The three spawn timers and the cooldown become 0, and no other field changes |
| `Screen.GameScreen.ResetProgress` | core/src/main/java/si/um/feri/temelko/GameScreen.java:140-143 | Score 0, health 100, not invincible, timer 0, and no other field changes |
| `Screen.GameScreen.RearmLatch` | core/src/main/java/si/um/feri/temelko/GameScreen.java:144-146 | The multiplier becomes 1 and both latch flags are cleared, and no other field changes |
| `Screen.GameScreen.ApplyDifficulty` | core/src/main/java/si/um/feri/temelko/GameScreen.java:149-151 | The two difficulty fields take the level's multiplier and rate, and no other field changes |
| `Screen.GameScreen.Steer` | core/src/main/java/si/um/feri/temelko/GameScreen.java:306-309 | The fields become `Simulation.Steer` of the old ones: left, then right, each by 500·delta·total |
| `Screen.GameScreen.Shoot` | core/src/main/java/si/um/feri/temelko/GameScreen.java:406-414 | The fields become `Simulation.Shoot` of the old ones (see `FireRespectsCooldown`) |
| `Screen.GameScreen.ClampCar` | core/src/main/java/si/um/feri/temelko/GameScreen.java:313 | The fields become `Simulation.ClampCar` of the old ones (see `CarStaysOnRoad`) |
| `Screen.GameScreen.CoolDown` | core/src/main/java/si/um/feri/temelko/GameScreen.java:315 | The fields become `Simulation.CoolDown` of the old ones |
| `Screen.GameScreen.Drive` | core/src/main/java/si/um/feri/temelko/GameScreen.java:306-315 | Steering, firing, the clamp and the cooldown in source order give `Simulation.Drive` |
| `Screen.GameScreen.AdvanceSpawnTimers` | core/src/main/java/si/um/feri/temelko/GameScreen.java:318-320 | The three spawn timers advance by delta |
| `Screen.GameScreen.ReleaseObstacle` | core/src/main/java/si/um/feri/temelko/GameScreen.java:322-327 | The fields become `Simulation.ReleaseObstacle` of the old ones |
| `Screen.GameScreen.ReleaseFuel` | core/src/main/java/si/um/feri/temelko/GameScreen.java:328-332 | The fields become `Simulation.ReleaseFuel` of the old ones |
| `Screen.GameScreen.ReleasePowerUp` | core/src/main/java/si/um/feri/temelko/GameScreen.java:333-337 | The fields become `Simulation.ReleasePowerUp` of the old ones |
| `Screen.GameScreen.SpawnEntities` | core/src/main/java/si/um/feri/temelko/GameScreen.java:318-337 | The fields become `Simulation.Spawn` of the old ones (see `SpawnOnThreshold`) |
| `Screen.GameScreen.MoveObstacles` | core/src/main/java/si/um/feri/temelko/GameScreen.java:340-354 | The fields become `ResolveObstacles` of the old ones (see `CrashPassKeeps`) |
| `Screen.GameScreen.MoveFuels` | core/src/main/java/si/um/feri/temelko/GameScreen.java:357-368 | The fields become `ResolveFuels` of the old ones |
| `Screen.GameScreen.MovePowerUps` | core/src/main/java/si/um/feri/temelko/GameScreen.java:371-382 | The fields become `ResolvePowerUps` of the old ones |
| `Screen.GameScreen.MoveFalling` | core/src/main/java/si/um/feri/temelko/GameScreen.java:339-382 | The three falling-sprite loops in source order give `Simulation.MoveFalling` |
| `Screen.GameScreen.TickInvincibility` | core/src/main/java/si/um/feri/temelko/GameScreen.java:384-387 | The fields become `Simulation.TickInvincibility` of the old ones (see `InvincibilityWindow`) |
| `Screen.GameScreen.MoveBullets` | core/src/main/java/si/um/feri/temelko/GameScreen.java:389-403 | The fields become `ResolveBullets` of the old ones (see `BulletScoresPerKill`) |
| `Screen.GameScreen.Update` | core/src/main/java/si/um/feri/temelko/GameScreen.java:296-404 | One update changes the fields exactly as `Simulation.Update` does, with the volume read from the settings |
| `Screen.GameScreen.LatchGameOver` | core/src/main/java/si/um/feri/temelko/GameScreen.java:170-178 | The fields become `Simulation.Latch` of the old ones |
| `Screen.GameScreen.Render` | core/src/main/java/si/um/feri/temelko/GameScreen.java:168-189 | One frame changes the fields exactly as `Simulation.Frame` does, and it keeps the run invariant |

## Left out

- Drawing: everything in `render` after the latch, `drawBars`, fonts,
  textures, `setupScaledSizes` and the background scroll
  (`GameScreen.java:298-303`). The screen size and scaled sprite sizes are a
  `Config` value.
- Audio: sounds are recorded as `(sound, volume)` events in `sounds`, and
  nothing is played. Music control in `show`/`hide` is not modelled.
- Input: `Gdx.input` polling becomes the `Input` booleans `left`, `right`,
  `fire` and `restart`. The ESC and L screen switches are not modelled.
- Randomness: `java.util.Random` is not modelled. Each frame receives the three
  spawn positions. `SpawnOnThreshold` assumes each lies in `[0, bound)` as
  `nextInt(bound)` guarantees; the frame and run lemmas need only a
  non-negative delta.
- The `nextInt` exception: on a screen no wider than `(int)` of a sprite's
  width, `nextInt(bound)` with `bound <= 0` throws `IllegalArgumentException` in
  a frame that spawns that sprite (`GameScreen.java:324`, `329`, `334`). The
  model spawns the sprite at the given position instead.
- UpdateNeverLowersProgress: the score is an unbounded integer, whereas Java's
  `int score` wraps past 2^31 − 1 under `+= 5` and `+= 10`
  (`GameScreen.java:35`, `363`, `399`). So the score never goes down here; in
  Java it turns negative once it passes 2,147,483,647.
- ProgressNeverDecreases: the same unbounded score; it does not hold across
  the 32-bit wrap-around.
- SubmitsOncePerRun: the same unbounded score; its monotone-score part does not
  hold across the 32-bit wrap-around, and neither does `Inv`'s `score >= 0`.
- Simulation.Update: its own contract states only what an update leaves
  alone; what it changes is stated by `UpdatePhases`, `UpdateKeepsBounds` and
  the other update lemmas, and the screen's `Update` method is proved equal to
  it.
- Floating point: `float` is exact `real`, so the 0.1 multiplier steps and the
  cooldown arithmetic have no rounding. `Trunc` does not model the saturation of
  `(int)` on values outside the `int` range.
- The leaderboard store: `addScore`, `getPlayerName`, `getLeaderboard` and
  `LeaderboardEntry` are called but not defined in `GameSettings.java`, and they
  are not part of this model. A submission is recorded as the score appended to
  `submitted`.
- The preference store: `flush`, persistence and `save` are not modelled.
  Reading a key of another type is modelled as falling back to the default.
- The leaderboard table: header and separator rows, fonts and widths are not
  modelled. Name length is counted in Unicode characters, whereas Java counts
  UTF-16 code units; the two differ only for characters outside the Basic
  Multilingual Plane.
- Settings within a frame: the sound volume and difficulty are read once per
  frame (`Env`). Java re-reads the volume at every pickup, which gives the same
  value because nothing in the frame changes the settings.
- Method boundaries: `update` is split into one method per block of the
  source, and `resetGame` into one method per group of fields. The Java
  methods are single bodies; the blocks assign the same fields in the same
  order.
- Aliasing: the Java loops mutate `Rectangle` objects in place (`obstacle.y -=
  …`). The model works on rectangle values. No rectangle is shared between
  lists, so this behaves the same.

## Findings

| source | as written | input that shows it | evidently intended | confidence | as-written member | corrected member |
|---|---|---|---|---|---|---|
| core/src/main/java/si/um/feri/temelko/GameScreen.java:393-398 | A bullet above the top edge is removed through its iterator at line 393. If it also overlaps an obstacle, line 398 calls `remove()` on the same element again, which throws `IllegalStateException` after the obstacle was already removed | Screen height 600, a bullet at (0, 605) of size 2×10, and an obstacle at (0, 595) of size 30×30 | Remove the bullet once, removing the obstacle it hit and scoring 10 | not executed | `Simulation.BulletVisitAsWritten`, `SimulationLemmas.OffScreenHitThrows` | `Simulation.VisitBullet`, `SimulationLemmas.CorrectedAgreesWhereNoThrow` |
