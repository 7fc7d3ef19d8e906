# Boss fight with an adaptive opponent — a Dafny model

This project models the core of a single-boss arena fight:
- The player dodges inside a rectangular arena. Dodging fills a meter that unlocks a timed attack mode with shots and a once-per-activation shockwave.
- The boss fires volleys of projectiles chosen by its threat state: tranquilo, furioso or enajenado.
- An adaptive brain watches the player. It counts dodges per direction, guesses where the player is heading and decides the boss's threat state from both sides' hit points.
- The game loop reads events, plays a frame, runs the analysis every three seconds, and ends the fight on a win or a loss. R on the game-over screen restarts it.

There is one Dafny module per source file:

| module | file |
|---|---|
| `Settings` | `settings.dfy` |
| `Utils` | `utils.dfy` |
| `AttackPatterns` | `attack_patterns.dfy` |
| `Player` | `player.dfy` |
| `AiBrain` | `ai_brain.dfy` |
| `Boss` | `boss.dfy` |
| `Game` | `game.dfy` |
| `DialogueSystem` | `dialogue_system.dfy` |

A small `Events` module (`events.dfy`) gives the events the game reads.

## How state is modelled

Objects whose fields the source updates are classes: `Player.Player`, `Boss.Boss`, `AiBrain.AIBrain`, `Game.Game` and `DialogueSystem.DialogueBox`. Their methods update the fields step by step, as the source does.

Each of these classes also has a ghost `State()` that gathers its fields into one value, such as `PlayerState`, `BossState` or `World`. Each frame method is proved to leave `State()` equal to a pure function of the old state:
- `Player.Frame`
- `Boss.BossFrame`
- `Game.WorldFrame`
- `Game.Pass`

The rules the source promises are then proved as lemmas about those functions.

Projectiles (`Bullet`, `PlayerBullet` and `SpecialAttack`) are values. Their update is a function that returns the moved projectile. The lists holding them are `seq` fields, which the owning class's methods rebuild in one pass. That pass drops the same elements the source's remove-while-iterating-a-copy loop drops, and keeps the survivors in order (`Boss.SweptAppend`, `Player.FlightAppend`).

The model's external inputs are:
- **Randomness.** Every random choice is a parameter:
  - `pick` chooses one of the candidate volleys;
  - `quip` chooses the line the boss says;
  - `draw(i)` is the i-th uniform angle of a spray.
- **Maths and graphics library.** Cosine, sine, `atan2` and rectangle overlap are fields of a `Geometry` value.
- **Clock.** The frame time `dt` is a parameter.
- **Behaviour file.** What reading it gave is a `Stored` value: no file, unreadable, a falsy record, or a record.

## Model

| member | source | states |
|---|---|---|
| Settings.Config | settings.py:30-34 | every threat state has an entry in the state table, with a positive speed multiplier and an attack multiplier of at least 1 |
| Settings.StateTableKeys | settings.py:30-34 | the state table's keys are exactly "tranquilo", "furioso" and "enajenado", and each state has its own key |
| Settings.MultipliersIncrease | settings.py:31-33 | speed_mult and attack_mult both strictly increase from tranquilo to furioso to enajenado |
| Settings.ArenaFitsWindow | settings.py:4-12 | the arena lies inside the 800 x 600 window, and the 20-pixel player is smaller than the arena in both directions |
| Utils.Clamp | utils.py:12-13 | with lo <= hi the result is in [lo, hi]; it is the value itself when already inside, lo below and hi above; with hi < lo it is lo, as max(lo, min(hi, v)) gives |
| Utils.ClampIdempotent | utils.py:12-13 | clamping twice is clamping once |
| Utils.Lerp | utils.py:15-16 | linear interpolation from a to b by t; `LerpEnds` states that it starts at a, ends at b and stays between them for t in [0, 1] |
| Utils.LerpEnds | utils.py:15-16 | lerp(a, b, 0) = a and lerp(a, b, 1) = b; for t in [0, 1] and a <= b the result lies between a and b |
| Utils.PointInRect | utils.py:21-22 | closed-rectangle membership, edges included; `AttackPatterns.ArenaBoundsExplicit` states what it gives on the inflated arena |
| AttackPatterns.InArenaBounds | attack_patterns.py:25-27 | a bullet stays alive while its centre is within 50 pixels of the arena; `ArenaBoundsExplicit` states the exact region and `Bullet.Updated` the use of it |
| AttackPatterns.ArenaBoundsExplicit | attack_patterns.py:25-27 | the bounds test holds exactly on the closed rectangle [150, 650] x [100, 500]; edge points are inside and points beyond an edge are outside |
| AttackPatterns.Bullet.GetRect | attack_patterns.py:32-34 | the collision rectangle is a square of side 2 * size centred on the bullet |
| AttackPatterns.Bullet.Updated | attack_patterns.py:21-27 | the bullet moves by speed along its heading; it is alive afterwards iff it was alive and its new position is inside the inflated arena, so the flag only goes from alive to dead; nothing else changes |
| AttackPatterns.CircleBurstShape | attack_patterns.py:38-44 | a burst has count bullets, all alive, at the origin, with the batch's speed, colour and size 8; the first flies at angle 0 and neighbours differ by 2 pi / count, so count steps make a full turn |
| AttackPatterns.SpiralIsRotatedBurst | attack_patterns.py:52-58 | a spiral has as many bullets as the burst of the same count, each equal to the burst's bullet turned by rotation |
| AttackPatterns.AimedShotShape | attack_patterns.py:47-49 | an aimed shot is one alive bullet at the origin, heading atan2(ty - y, tx - x) |
| AttackPatterns.RandomSprayShape | attack_patterns.py:74-79 | a spray is count bullets at the origin (none for count <= 0), the k-th heading along the k-th draw |
| AttackPatterns.WallShape | attack_patterns.py:61-71 | a wall is count bullets on one line through (x, y), neighbours spacing apart, the one at count div 2 exactly at (x, y); horizontal walls fly at pi / 2 and vertical ones at 0 |
| AttackPatterns.LaunchedRect | attack_patterns.py:11-34 | a new bullet's rectangle is the 16 x 16 square centred on its position |
| AttackPatterns.CircleBurst | attack_patterns.py:38-44 | the loop builds the burst whose shape `CircleBurstShape` states |
| AttackPatterns.AimedShot | attack_patterns.py:47-49 | returns the one-bullet batch whose shape `AimedShotShape` states |
| AttackPatterns.Spiral | attack_patterns.py:52-58 | the loop builds the spiral of `SpiralIsRotatedBurst` |
| AttackPatterns.Wall | attack_patterns.py:61-71 | the loop builds the wall whose shape `WallShape` states, for either orientation |
| AttackPatterns.RandomSpray | attack_patterns.py:74-79 | the loop builds the spray whose shape `RandomSprayShape` states |
| Player.Movement | player.py:129-145 | the movement is negative in x iff left is held without right, and so on for each sign and axis; opposite keys cancel; each component is at most the speed |
| Player.RecordDodges | player.py:147-167 | the dodge record a frame leaves; `DodgeCounting` states how the counts, total and meter may change and when |
| Player.DodgeCounting | player.py:147-167 | dodge counts never decrease and grow by at most one each; they change only on a frame that moved with a movement different from the last one; at most one of left/right and one of up/down grows; the total and the special meter grow by exactly what the four counts gained; a moving frame records its movement |
| Player.Hit | player.py:250-259 | an invulnerable player is unchanged and the result is false; otherwise hp falls by the amount but not below 0, the hit is counted, invulnerability starts with timer 0, and the result is true iff hp is now 0 |
| Player.HitsAbsorbedWhileInvulnerable | player.py:250-259 | a second hit right after a first changes nothing and gives false |
| Player.InvulnerabilityAfter | player.py:181-186 | the timer runs only while invulnerable, and the window ends (flag off, timer 0) once it reaches the duration; hp and hit count stay |
| Player.InvulnerabilityScenario | player.py:250-259 | with a one-second window a hit absorbs a second hit 0.5 s later, and one 1.1 s later lands |
| Player.AttackModeAfter | player.py:172-179 | the attack-mode step of a frame; `AttackModeRules` states when the mode starts and ends and what the meter and special become |
| Player.AttackModeRules | player.py:172-179 | the mode starts when the meter reaches the threshold outside the mode (timer 0, special available), ends exactly when its timer reaches the window (meter 0, special gone), and otherwise keeps meter and special; at rest the meter is below the threshold, and inside the mode the timer is below the window |
| Player.InWindow | player.py:60-61 | the window test of a shot, edges inside; `PlayerBullet.Updated` states the alive flag through it |
| Player.PlayerBullet.Updated | player.py:56-61 | a shot moves by speed along its heading and is alive afterwards iff it was and its new position is inside the window, edges included; nothing else changes |
| Player.PlayerBullet.Box | player.py:70-74 | without a sprite the collision box is the square of side twice the radius centred on the shot |
| Player.NewBullet | player.py:35-43 | a new shot is alive, has radius 12, and uses the player's bullet speed, damage and colour |
| Player.Flight | player.py:199-203 | advancing the shots never lengthens the list and keeps only live shots |
| Player.FlightMembers | player.py:199-203 | a shot is kept iff it is the step of a listed shot and that step is alive |
| Player.FlightAppend | player.py:199-203 | advancing a joined list advances each part; kept shots stay in order |
| Player.SpecialAttack.Updated | player.py:21-24 | the radius grows by expansion_speed * dt and the wave is alive afterwards iff it was and the radius is below the maximum; nothing else changes |
| Player.NewSpecial | player.py:11-19 | a new wave has radius 20, maximum 200, growth 300 per second, the special's damage, is alive and has not hit |
| Player.Spread | player.py:205-209 | advancing the waves never lengthens the list and keeps only live waves |
| Player.SpreadMembers | player.py:205-209 | a wave is kept iff it is the growth of a listed wave and is still alive |
| Player.ShockwaveLifetime | player.py:11-24 | with fixed positive frames, a new wave has radius 20 + 300 * dt * n after n frames, and is alive exactly while that is below 200 |
| Player.GrowKeepsShape | player.py:21-24 | growing changes only the radius and the alive flag |
| Player.Frame | player.py:128-209 | one player frame: movement and dodges, attack mode, invulnerability, shooting and the special, then the shots and waves advance; `FrameKeepsValid`, `FrameMovement`, `FrameMode`, `FrameShooting`, `FrameSpecial` and `NoFireOutsideAttackMode` state its rules |
| Player.FrameKeepsValid | player.py:128-209 | a frame keeps the player's invariant: dodge total = sum of the four counts; meter below the threshold and no shots outside attack mode; cooldown never negative; at most one special per activation; hp >= 0; only live shots and waves |
| Player.SteeredSound | player.py:128-170 | the movement part of a frame keeps the invariant except the meter bound |
| Player.ModeTickedValid | player.py:172-179 | the attack-mode step restores the whole invariant |
| Player.FrameMovement | player.py:128-170 | after a frame the player has moved by the keys' movement, clamped, so it ends inside [200, 580] x [150, 430]; the dodge record follows `RecordDodges`, and the vitals only have their window timed |
| Player.FrameMode | player.py:172-197 | the attack mode after a frame is the one the meter (as the frame's dodges left it) gives, except that a cast spends the special |
| Player.FrameShooting | player.py:188-203 | a shot is fired exactly in attack mode with fire held and the cooldown (run down by dt, floored at 0) over; it restarts the cooldown and is counted; leaving the mode clears earlier shots, then all shots advance once |
| Player.FrameSpecial | player.py:195-209 | the special is cast exactly in attack mode with X held while still available, as a new wave at the player's centre; then all waves grow once |
| Player.NoFireOutsideAttackMode | player.py:188-197 | a frame that starts and ends outside attack mode fires nothing: shot count unchanged, no shots, no new wave |
| Player.Player.GetRect | player.py:298-299 | the player's rectangle is its size x size square with top-left corner at (x, y) |
| Player.Player.constructor | player.py:77-109 | a new player has full hp, no dodges, hits or shots, no attack mode, empty lists, and is valid |
| Player.Player.Update | player.py:128-209 | one frame leaves the player in `Frame` of its old state and keeps the invariant |
| Player.Player.Steer | player.py:129-170 | reading the keys counts dodges and moves the player clamped to the arena, as `Steered` says |
| Player.Player.CountDodges | player.py:147-167 | the dodge bookkeeping of a moving frame, as `RecordMove` says |
| Player.Player.TickAttackMode | player.py:172-179 | the attack-mode part of a frame, as `ModeTicked` says |
| Player.Player.TickInvulnerability | player.py:181-186 | the invulnerability part of a frame, as `InvulnerabilityAfter` says |
| Player.Player.Fire | player.py:188-197 | the shooting part of a frame, as `Fired` says |
| Player.Player.ActivateAttackMode | player.py:211-216 | attack mode on, timer 0, special available; nothing else changes |
| Player.Player.DeactivateAttackMode | player.py:218-225 | attack mode off, timer 0, meter 0, special gone, shots cleared; nothing else changes |
| Player.Player.UseSpecialAttack | player.py:227-234 | appends a wave at the player's centre and spends the special; nothing else changes |
| Player.Player.ClearBullets | player.py:236-238 | empties the shot list; nothing else changes |
| Player.Player.Shoot | player.py:240-248 | appends one shot from the player's centre heading straight up and counts it; nothing else changes |
| Player.Player.TakeDamage | player.py:250-259 | the vitals and result are those of `Hit`; nothing else of the player changes and the invariant is kept |
| Player.Player.ResetForNewPhase | player.py:301-308 | leaves attack mode, empties the meter, shots and waves, drops the special; hp and dodge counts stay |
| Player.Player.AdvanceBullets | player.py:199-203 | the shot list becomes `Flight` of the old one |
| Player.Player.AdvanceSpecials | player.py:205-209 | the wave list becomes `Spread` of the old one |
| AiBrain.Loaded | ai_brain.py:18-26 | only a usable record replaces the profile, and then wholesale; no file, an unreadable file or a falsy record keeps it |
| AiBrain.MaxDodges | ai_brain.py:38-39 | the largest of the four dodge counts: at least each count and equal to one of them |
| AiBrain.Favourite | ai_brain.py:41 | the arg-max: a direction holding the maximum, with every direction listed before it strictly smaller, so ties go to the first of left, right, up, down |
| AiBrain.Analyzed | ai_brain.py:33-41 | the profile after an analysis; `AnalysisRules` and `AnalysisTies` state what it records and which direction it prefers |
| AiBrain.AnalysisRules | ai_brain.py:33-41 | after analysis the profile's dodges, hits and survival time are the player's; the preferred direction changes only when the largest count is positive, and then names a most-dodged direction with no earlier direction as large |
| AiBrain.AnalysisTies | ai_brain.py:38-41 | equal left and right counts give "left"; equal right, up and down give "right"; a player who never dodged keeps the old label |
| AiBrain.Predicted | ai_brain.py:45-58 | the guessed position from the preferred direction; `PredictionFollowsMovement` states it for every label |
| AiBrain.PredictionFollowsMovement | ai_brain.py:45-58 | for each direction label the guess moves 50 pixels the way that key moves the player; any other label leaves the position unchanged |
| AiBrain.PredictionExample | ai_brain.py:45-58 | "left" with (100, 100) gives (50, 100) |
| AiBrain.Decided | ai_brain.py:60-74 | the threat state from the profile and both sides' hit points; `DecisionThresholds` and `DecisionCases` state the thresholds and their order |
| AiBrain.DecisionThresholds | ai_brain.py:60-74 | on whole hit points the state is furioso for player > 70 and boss < 250, else enajenado for boss < 150, else furioso for more than 100 dodges with fewer than 3 hits, else tranquilo |
| AiBrain.DecisionCases | ai_brain.py:64-68 | enajenado iff boss < 150 and player <= 70; a boss at 20% against a full-hp player is furioso; a full-hp boss against a fresh profile is tranquilo |
| AiBrain.AIBrain.constructor | ai_brain.py:8-16 | a new brain has the blank profile (four zero counts, 0 hits, survival 0, "none") unless the stored record replaces it |
| AiBrain.AIBrain.LoadBehavior | ai_brain.py:18-26 | the profile becomes `Loaded` of the old one |
| AiBrain.AIBrain.AnalyzePlayer | ai_brain.py:33-41 | the profile becomes `Analyzed` of the old one, whose rules `AnalysisRules` states |
| AiBrain.AIBrain.GetPredictedPosition | ai_brain.py:45-58 | reads only the preferred direction and gives `Predicted`, so repeated calls agree |
| AiBrain.AIBrain.DecideBossState | ai_brain.py:60-74 | gives `Decided` on the profile; the survival time is not consulted |
| Boss.Quips | boss.py:22-26 | every state has three lines |
| Boss.Swept | boss.py:35-42 | the kept bullets are no more than before and all alive |
| Boss.SweptMembers | boss.py:35-42 | a bullet is kept iff it is the step of a listed bullet that is alive and misses the player, whether or not the player was invulnerable |
| Boss.SweptDamage | boss.py:39-42 | however many bullets touch the player in one frame, the player's vitals end as after one hit of 10 if any does, and unchanged otherwise |
| Boss.SweptAppend | boss.py:35-42 | sweeping a joined list sweeps the first part and then the second against the vitals the first left: survivors keep their order and each bullet is judged on its own |
| Boss.Candidates | boss.py:60-75 | tranquilo and furioso offer two volleys, enajenado three |
| Boss.Volley | boss.py:53-77 | the volley an attack fires; `VolleyKinds` states it for each state and `VolleyAlive` bounds it |
| Boss.VolleyKinds | boss.py:53-77 | tranquilo: a burst of 8 or one shot at the player; furioso: a spiral of 12 turned by the rotation, or one shot at the predicted position at 1.5 times the speed; enajenado: a burst of 20, a spray of 30, or a horizontal wall of 10 along the arena's top centred at x = 400; the speed is 3 times the state's speed_mult, and every bullet is alive, size 8 and the state's colour |
| Boss.VolleyAlive | boss.py:60-77 | a volley has at most 30 bullets, all alive |
| Boss.BossFrame | boss.py:30-51 | one boss frame: turn, decide the state, sweep the bullets, maybe attack, count the line down; `BossFrameRules`, `BossFrameKeepsHp` and `BossFrameKeepsValid` state its rules |
| Boss.BossFrameKeepsHp | boss.py:30-51 | a boss frame never changes the boss's hp |
| Boss.BossFrameKeepsValid | boss.py:30-51 | a frame with dt >= 0 keeps the attack timer in [0, 2), the bullets alive and the dialogue timer at most 2 |
| Boss.BossFrameRules | boss.py:30-51 | the state is decided on the hp values before this frame's hits, and the attack uses it; the rotation grows by 2 per second; the attack happens exactly when the timer reaches 2.0: timer reset, the chosen volley appended after the surviving bullets (so this frame's new bullets are not checked), a line of the state chosen, dialogue timer 2 (counted down already in this frame); without an attack no bullet is added, the line stays and the attack timer grows by dt; the player takes at most one hit |
| Boss.Boss.constructor | boss.py:9-28 | a new boss has hp 500, state tranquilo, no bullets, attack timer 0, rotation 0, no line |
| Boss.Boss.Update | boss.py:30-51 | the boss's new state and the player's vitals are those of `BossFrame`; nothing else of the player changes; both invariants are kept |
| Boss.Boss.SweepBullets | boss.py:35-42 | the bullet list and the player's vitals become those of `Swept` |
| Boss.Boss.TickAttack | boss.py:44-48 | the attack-timer part of a frame, as `Attacked` says |
| Boss.Boss.Attack | boss.py:53-77 | only appends: the bullets are the old ones followed by the chosen volley |
| Boss.Boss.ShowDialogue | boss.py:79-81 | the line is one of the current state's three and the dialogue timer is 2.0 |
| Game.Handled | game.py:47-53 | the flags after one event; `HandledKeepsRestart`, `EventsDuringPlay` and `RestartNeedsGameOver` state its effect |
| Game.AfterEvents | game.py:45-53 | the flags after a frame's events, taken in order; `EventsDuringPlay`, `RestartNeedsGameOver` and `RestartExamples` state its effect |
| Game.HandledKeepsRestart | game.py:45-53 | handling an event never clears or reads the restart flag |
| Game.EventsDuringPlay | game.py:45-53 | while the game is not over, nothing restarts it, and the loop keeps running iff no event is a close request or Escape |
| Game.RestartNeedsGameOver | game.py:52-53 | a restart needs game over and an R in the frame, and leaves the game not over; without a restart game_over stays |
| Game.RestartExamples | game.py:45-53 | R on the game-over screen restarts; a close request before the R is undone by the restart, one after it is not; R during play does nothing |
| Game.Pass | game.py:32-39 | one pass of the loop; `PassDuringPlay` and `PassWhileOver` state it during the fight and on the game-over screen |
| Game.PassDuringPlay | game.py:32-39 | a pass of the loop during the fight advances game_time and plays a frame, and the loop goes on iff no event closes the game |
| Game.PassWhileOver | game.py:32-39 | on the game-over screen, a pass without R only advances game_time and reads close requests; no frame is played |
| Game.WorldFrame | game.py:55-72 | one game frame: the player, the boss, the analysis timer and the end checks; `NoVictory`, `PlayerSideOfFrame`, `AnalysisCadence` and `GameOverSticks` state its rules |
| Game.NoVictory | game.py:55-72 | since nothing in a frame lowers the boss's hp, a fight without a victory never reaches one; the game is over iff it already was or the player's hp is gone |
| Game.PlayerSideOfFrame | game.py:59-60 | within a frame the player updates first, and then the boss's bullets cost it at most one hit |
| Game.AnalysisCadence | game.py:62-65 | the analysis timer stays in [0, 3); when it reaches 3 the profile is replaced by the analysis of the player as this frame left it and the timer resets, otherwise the timer grows by dt and the profile stays |
| Game.GameOverSticks | game.py:67-72 | once over, the game stays over |
| Game.Game.constructor | game.py:13-30 | a new game is running, not over, without victory, with game_time and the analysis timer 0, the player at the arena's centre and the boss at (400, 100) |
| Game.Game.Restart | game.py:52-53 | re-initialising gives fresh parts and exactly the new-game state |
| Game.Game.HandleEvents | game.py:45-53 | the running and game-over flags end as `AfterEvents` says; a restart leaves a new game; otherwise only `running` changes |
| Game.Game.HandleEvent | game.py:47-53 | one event moves the flags as `Handled` says |
| Game.Game.Update | game.py:55-72 | the game state becomes `WorldFrame` of the old one, whose rules `NoVictory`, `PlayerSideOfFrame`, `AnalysisCadence` and `GameOverSticks` state |
| Game.Game.Play | game.py:59-60 | the player's frame, then the boss's against the player as it now stands, as `Played` says |
| Game.Game.Conclude | game.py:62-72 | the analysis timer, then game_over with the boss check last, so victory wins when both are at 0, as `Concluded` says |
| Game.Game.Tick | game.py:32-39 | one pass of the loop leaves the game in `Pass` of its old state: clock, events, then a frame only while the game is not over; the invariant is kept |
| DialogueSystem.DialogueBox.constructor | dialogue_system.py:8-17 | a new box is closed, not waiting, with empty texts |
| DialogueSystem.DialogueBox.Show | dialogue_system.py:19-25 | the box opens, waits for input and holds the three strings |
| DialogueSystem.DialogueBox.Update | dialogue_system.py:27-39 | the result is true iff the box was open and some event presses space, return or Z; then the box closes and stops waiting; otherwise its flags stay; the texts never change |
| DialogueSystem.Lower | dialogue_system.py:127 | lowering keeps the length |
| DialogueSystem.LowerShape | dialogue_system.py:127 | every character becomes its small letter, no capital is left, and lowering twice is lowering once |
| DialogueSystem.LowerKeeps | dialogue_system.py:127 | a string without capitals is its own lower case |
| DialogueSystem.GetDialogue | dialogue_system.py:125-131 | the stored (shipibo, spanish) pair when the lowered boss name and the moment are in the table; ("...", "...") otherwise |
| DialogueSystem.LinesAreNotFallback | dialogue_system.py:88-123 | no stored line is the fallback pair |
| DialogueSystem.TableShape | dialogue_system.py:88-123 | the table has exactly the three bosses, each with an intro and a defeat line; only yacumama has a revival line |
| DialogueSystem.OnlyYacumamaRevives | dialogue_system.py:125-131 | asking for the revival line succeeds exactly when the boss's name lowers to "yacumama" |
| DialogueSystem.RevivalLine | dialogue_system.py:114-117 | yacumama's revival pair, in any spelling of her name |
| DialogueSystem.MomentsAreCaseSensitive | dialogue_system.py:128 | moments are matched as written: "INTRO" and "Defeat" find nothing |

Two proof helpers have no row, because they only restate a definition one step at a time for the loops that build it: `Boss.SweptSnoc` (the sweep of a list ending in one more bullet) and `Game.AfterEventsStep` (the events of a list ending in one more event).

## Left out

- Drawing: every `draw` method, fonts, the HUD, sprite loading and the screen. None of them changes state that a decision reads.
- The player's key reading: `Keys` gives the held keys of a frame. The input handler and the sound manager are thin wrappers over the graphics library and are not part of this model.
- The menu module and the generator script `base.py` are not part of this model. The script's embedded player is an older version of `player.py`.
- `save_behavior` and the JSON file: reading the file is abstracted into `Stored`, and writing it has no effect the game reads back during a fight.
- The clock: `dt` is a parameter. `pygame.quit`, `sys.exit` and the endless `while self.running` loop are not modelled. One pass of the loop is `Game.Game.Tick`, and the loop's exit is the `running` flag.
- Trigonometry and rectangle overlap: `cos`, `sin`, `atan2` and `colliderect` are uninterpreted functions in `Geometry`. Bullet positions after a step are therefore abstract, and only the bounds rule applied to them is modelled. `distance`, `angle_to` and `random_direction` in `utils.py` are not used by the core.
- Rectangles as reals: pygame's `Rect` truncates float coordinates to integers. The model keeps real coordinates, so a collision decided on the truncated rectangle is decided here by `geo.collide` on the real one.
- A shot's sprite rectangle: when a sprite exists, its 20 x 20 rectangle is used for collisions. Only the sprite-less box is modelled (`Player.PlayerBullet.Box`), and nothing in the core tests the player's shots against anything.
- Player constants: `SPECIAL_ATTACK_DAMAGE`, `PLAYER_BULLET_SPEED`, `PLAYER_BULLET_DAMAGE`, `SPECIAL_ATTACK_DODGES`, `SPECIAL_ATTACK_WINDOW`, `PLAYER_SHOOT_COOLDOWN`, `CYAN` and `GOLD` are used by `player.py` but not defined in `settings.py`. They are given as a positive `Tuning` value.
- Randomness: the range of the draws is not constrained to [0, 2 pi), because no property depends on it.
- AttackPatterns.CircleBurst: requires count != 0, because the source divides by count before its loop and fails for 0. Negative counts give an empty batch, as `range` does.
- AttackPatterns.Spiral: requires count != 0, for the same reason.
- Lower-casing: `str.lower` is modelled for the letters A to Z only.
- A stored record is taken as a complete profile. The code stores the record as is, so a record with missing fields would fail later lookups in the source; that failure is not modelled.
- The boss's hp never decreases, because nothing in the core damages the boss. The victory branch of `game.py` is modelled, and `Game.NoVictory` shows it is unreachable.
- Floating point: timers, `dt`, multipliers and speeds are exact reals. Rounding at the thresholds (the boss's attack timer against 2.0, the analysis timer against 3, the invulnerability and attack-mode windows) and in `3 * speed_mult` is not modelled. Where rounding leaves a running sum just below or just above a threshold, the source may cross it one frame later or earlier than the model does.
- `attack_mult` is in the table, but no code reads it. Contact damage is always 10.

Where the code and the design description disagree, the model follows the code:
- The design describes phases, revived spirit bosses, beams and warnings. None of these exist in the code, so none is modelled; the only trace is the unused revival line of the dialogue table.
- The design says a tie between dodge directions keeps the previous preferred direction. The code's `max(dodges, key=dodges.get)` takes the first direction in left, right, up, down order (`AiBrain.Favourite`).
- The design says a stored profile with missing fields is repaired with defaults. The code replaces the whole profile with the record (`AiBrain.Loaded`).
- The design recomputes the threat state after collisions. The code decides it at the start of the boss's update, on the hp before this frame's hits (`Boss.BossFrameRules`).
- The design picks the threat state from the boss's health ratio by a table of three ranges covering [0, 1], so a boss at 20% is in the most severe state. The code tests the ratios of both sides' hit points against fixed cut-offs in order (player above 70% and boss below 50% first), so a boss at 20% against a player at full hp is furioso, not enajenado (`AiBrain.DecisionThresholds`, `AiBrain.DecisionCases`).
- The design fires one dialogue line when the threat state changes. The code has the boss say a new line of the current state on every attack, whether or not the state changed (`Boss.BossFrameRules`, `Boss.Boss.ShowDialogue`).
