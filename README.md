# The Hive: a Dafny model of the game's logic

The game is a Phaser browser game. The player crosses a 3200-px world made of
four 800-px segments (Savannah, Swamp, Forest, Mountain), collects four mask
pieces and avoids enemies. A tutorial teaches the controls first. This project
models the three parts of the code that hold logic, and proves what they do:

- `SharedState` (game_state.dfy) is the shared progress record of
  src/gameState.js: the piece counter and total, one flag per piece, the sound
  flag and the segment fields. It is a class, and its two mutators are methods.
- `Spawn` (spawn.dfy) holds the spawn rules of `GameScene.create`. Each random
  draw is a parameter, and its range is a precondition. The spawn loops are
  methods proved against pure reference functions.
- `Session` (game_scene.dfy) models src/scenes/GameScene.js:
  - pure functions for steering, facing, camera paging and the segment label;
  - the class `GameScene`, with one method per tick, per overlap event and per
    deferred call. Its invariant `Valid` ties the scene's pieces to the
    record's counter and flags, and each one-shot flag to its single pending
    call.
- `TutorialScene` (tutorial.dfy) models src/scenes/Tutorial.js, the five-step
  tutorial. It is a class whose invariant keeps the step in `[0, 4]` and says
  the first two steps are completed only by their rules. Its timers are
  three-state slots.
- `Host` (host.dfy) holds what the engine supplies: the polled arrow keys, the
  sprite's position and velocity, scene names, and `Phaser.Math.Clamp`.

Events come from the engine: ticks, overlaps, timer firings and button
presses. Each event is a method, and the environment may call these methods in
any order that their preconditions allow. Physics movement of the player is
the `MovePlayer` event.

## Model

| member | source | states |
|---|---|---|
| SharedState.FreshFlags | src/gameState.js:9-14 | the flag table has exactly the keys mask1..mask4, all false |
| SharedState.GameState.constructor | src/gameState.js:1-14 | initial record: no pieces, total 4, the four segment names, index 0, sound on, every flag false |
| SharedState.GameState.ToggleSound | src/gameState.js:16-19 | negates the sound flag and returns the new value; touches nothing else |
| SharedState.ToggleSoundTwice | src/gameState.js:16-19 | two toggles give back the original setting; the first returns its negation |
| SharedState.GameState.ResetMasks | src/gameState.js:21-29 | counter 0, all four flags false; the total, sound flag and segment fields are outside its frame, so they stay unchanged |
| SharedState.ResetMasksTwice | src/gameState.js:21-29 | two resets leave counter 0 and the key set {mask1..mask4} with every flag false |
| SharedState.ResetMasksIdempotent | src/gameState.js:21-29 | a reset of an already reset record leaves every field of the record unchanged |
| Host.Clamp | src/scenes/Tutorial.js:669-670 | the result lies in `[lo, hi]`, equals `v` inside it, and equals the nearer bound outside it |
| Spawn.FixSpeed | src/scenes/GameScene.js:133-137 | magnitude at least 80 and at most 200 for a draw in [-200, 200]; the sign of the draw is kept; a draw of 0 becomes +100; a draw of magnitude 80 or more is kept |
| Spawn.SpawnMasks | src/scenes/GameScene.js:93-110 | one active piece per configuration, in order, with its configured name and drawn position; x lies in its zone and y in [50, 400] |
| Spawn.SpawnEnemies | src/scenes/GameScene.js:118-149 | the spawned list is `EnemiesOf(rows)`, segment by segment in draw order, and holds 8 to 12 enemies |
| Spawn.EnemiesOfLength | src/scenes/GameScene.js:125-149 | the spawned list has one enemy per draw |
| Spawn.EnemiesOfAt | src/scenes/GameScene.js:125-149 | enemy `i` of segment `e` sits at offset `Count(rows[..e]) + i` and is its draw with the speed fix-up applied |
| Spawn.CountBounds | src/scenes/GameScene.js:125-128 | at 2 or 3 enemies per segment, `n` segments give between `2n` and `3n` enemies |
| Spawn.SpawnedEnemiesInRange | src/scenes/GameScene.js:125-137 | every spawned enemy lies in its segment's zone and in y [50, 400], with each speed component in magnitude [80, 200] |
| Session.Steer | src/scenes/GameScene.js:199-217 | each component is in {-250, 0, 250}; left wins over right and up over down; both axes can be at full speed together |
| Session.Facing | src/scenes/GameScene.js:203-209 | left sets `flipX`, right alone clears it, and with no horizontal key it is kept |
| Session.Page | src/scenes/GameScene.js:221 | the page is the floor of `x / 800`; a position inside the world gives a page in [0, 3] |
| Session.PageOffset | src/scenes/GameScene.js:222 | the scroll target is a multiple of 800, and dividing it by 800 gives back the page |
| Session.PageShowsPlayer | src/scenes/GameScene.js:221-226 | the camera offset of the player's page covers the player's x |
| Session.EnvLabel | src/scenes/GameScene.js:229-230 | the segment name of the page, or "Unknown" for a page out of range |
| Session.LabelInWorld | src/scenes/GameScene.js:221-230 | a player inside the world always gets the name of a segment, never "Unknown" |
| Session.CollectedDeactivate | src/scenes/GameScene.js:262-263 | destroying one active piece raises the destroyed count by exactly one |
| Session.CollectedBounds | src/scenes/GameScene.js:300 | the destroyed count is at most the number of pieces; it equals that number iff no piece is active, and is zero iff every piece is active |
| Session.FreshConsistent | src/scenes/GameScene.js:100-110 | what `create` builds agrees with the reset record: every piece's flag false, counter 0, not collecting |
| Session.CollectConsistent | src/scenes/GameScene.js:262-264 | one accepted collection keeps pieces, counter and flags in agreement; collecting starts exactly when the counter reaches the total, which it never passes |
| Session.GameScene.constructor | src/scenes/GameScene.js:9-183 | the first start runs `create`: the state of `Fresh` and the invariant |
| Session.GameScene.Create | src/scenes/GameScene.js:157-162 | `create` again: the draws' pieces and enemies, counter 0 and flags false, both one-shot flags clear, the player at (100, 225) at rest, scroll 0, label Savannah, no pending call |
| Session.GameScene.ResetPlayer | src/scenes/GameScene.js:76-162 | a new sprite at (100, 225) at rest and facing right, camera scroll 0, label Savannah, inside the world |
| Session.GameScene.Respawn | src/scenes/GameScene.js:93-158 | the spawn loops plus the record reset, leaving pieces and record consistent |
| Session.GameScene.MovePlayer | src/scenes/GameScene.js:76-79 | a physics step moves the player inside the world bounds and keeps the invariant |
| Session.GameScene.Steering | src/scenes/GameScene.js:199-230 | the velocity and facing of the keys, scroll on the player's page (written only when it differs), label of that page |
| Session.GameScene.Update | src/scenes/GameScene.js:185-236 | while a hit is pending nothing changes; otherwise steering and paging as above, and R runs `create` again |
| Session.GameScene.CollectMask | src/scenes/GameScene.js:238-306 | a no-op when collecting or the piece is gone; otherwise the piece goes inactive, the counter rises by 1, its flag is set, and reaching the total sets `isCollecting` and schedules EndStory once; a pending hit does not block it |
| Session.GameScene.HitEnemy | src/scenes/GameScene.js:308-336 | one-shot: only the first overlap sets `isHit` and schedules one restart |
| Session.GameScene.FireDeferred | src/scenes/GameScene.js:300-335 | the oldest deferred call fires: EndStory stops the scene and keeps the record, the pieces, enemies, player, camera and label; the restart from a hit runs `create` |
| TutorialScene.Track | src/scenes/Tutorial.js:632-661 | a direction is marked after the tick iff it was marked or its key is held |
| TutorialScene.TrackAllMarks | src/scenes/Tutorial.js:632-661 | over a run of ticks a direction ends marked iff it was marked at the start or held in some tick |
| TutorialScene.TrackerRule | src/scenes/Tutorial.js:673-679 | from the tracker `showStep` clears, it is full iff each of the four keys was held in some tick |
| TutorialScene.Velocity | src/scenes/Tutorial.js:627-666 | sequential ifs: right overrides left and down overrides up, at 200; 0 on an axis with no key |
| TutorialScene.Facing | src/scenes/Tutorial.js:632-644 | right clears `flipX` even with left held; left alone sets it; else it is kept |
| TutorialScene.TimerAfterTick | src/scenes/Tutorial.js:694-727 | while its step is open, an empty slot gets one call and a filled one is never replaced; otherwise the slot is cleared |
| TutorialScene.TimerSettles | src/scenes/Tutorial.js:694-727 | a second tick under the same condition leaves the slot as the first left it, so at most one call is scheduled |
| TutorialScene.Shutdown | src/scenes/Tutorial.js:694-727 | when the scene stops, a scheduled timer call is dropped and the field keeps a spent reference (a later tick destroys and clears it); any other slot stays as it was |
| TutorialScene.Tutorial.constructor | src/scenes/Tutorial.js:3-128 | step 0 shown, tracker empty, no timers, player at (400, 320); the invariant holds |
| TutorialScene.Tutorial.Create | src/scenes/Tutorial.js:10-128 | re-entry: step 0 shown, a new player, no pending call; the timer fields keep what the last visit left |
| TutorialScene.Tutorial.ShowStep | src/scenes/Tutorial.js:445-541 | step `i` uncompleted, tracker and diagonal cleared; the demo mask hidden first and shown again only on step index 3 |
| TutorialScene.Tutorial.NextStep | src/scenes/Tutorial.js:610-618 | below the last step it shows the next one; on the last one it schedules StoryScene and changes no step field; the step stays in [0, 4] |
| TutorialScene.Tutorial.PrevStep | src/scenes/Tutorial.js:620-624 | above step 0 it shows the previous one; on step 0 it changes nothing |
| TutorialScene.Tutorial.BackToMenu | src/scenes/Tutorial.js:416-419 | the MENU button schedules the main menu |
| TutorialScene.Tutorial.CompleteStep | src/scenes/Tutorial.js:569-597 | idempotent: only the first call sets `stepCompleted` and schedules one auto-advance |
| TutorialScene.Tutorial.FireAutoAdvance | src/scenes/Tutorial.js:592-596 | calls `nextStep` only when the step is still completed and not the last |
| TutorialScene.Tutorial.CollectDemoMask | src/scenes/Tutorial.js:315-333 | counts only on step index 3 while the mask is visible and the step is open |
| TutorialScene.Tutorial.FireMaskFade | src/scenes/Tutorial.js:323-326 | the collection tween ends and hides the mask |
| TutorialScene.Tutorial.MovePlayer | src/scenes/Tutorial.js:90-93 | a physics step moves the player |
| TutorialScene.Tutorial.Update | src/scenes/Tutorial.js:626-727 | velocity, facing and tracker from the keys; position clamped to [120, 680] x [230, 380]; step index 0 completes once all four directions are marked, step index 1 once a diagonal is held; the two timer slots follow `TimerAfterTick` |
| TutorialScene.Tutorial.Steer | src/scenes/Tutorial.js:627-666 | the key blocks: velocity, facing and tracker |
| TutorialScene.Tutorial.CheckMovement | src/scenes/Tutorial.js:672-691 | the completion rules of step indices 0 and 1 |
| TutorialScene.Tutorial.TickTimers | src/scenes/Tutorial.js:693-727 | the timer blocks of step indices 2 and 4 |
| TutorialScene.Tutorial.FireObserveTimer | src/scenes/Tutorial.js:696-701 | the 3 s call completes step index 2 only if it is still shown and open |
| TutorialScene.Tutorial.FireFinalTimer | src/scenes/Tutorial.js:715-720 | the 3 s call completes step index 4 only if it is still shown and open |
| TutorialScene.Tutorial.FireExit | src/scenes/Tutorial.js:416-618 | the oldest scene start scheduled by the MENU button or by `nextStep` on the last step fires: the tutorial stops and every call still to fire is dropped |

## Left out

- Physics, rendering and audio are engine code and are not modelled. This
  covers arcade-physics integration, enemy motion and bounce, the overlap
  test, tweens, particles, flashes, camera shake, HUD text, mask icons, key
  highlighting, the typewriter text, step indicators and all sound. Overlaps
  are event methods, and a physics step is `MovePlayer`.
- The random draws of `Phaser.Math.Between` are parameters. Their ranges are
  preconditions; the generator is not modelled.
- Time is not modelled. Stores of pending calls stand in for the scheduler:
  - In `GameScene`, both deferred calls wait 1000 ms, so they fire oldest
    first.
  - In the tutorial, calls with different delays fire in whatever order the
    environment chooses.
  - A restart or a scene start drops the scene's pending calls, as stopping
    the scene's clock does.
- Positions are integers here, while the engine's are floating point. Nothing
  modelled depends on the fraction: `Math.floor(x / 800)` gives the same page
  for `x` and for its floor, and clamping to integer bounds commutes with the
  floor.
- The HUD's "Env: " prefix and the "Masks: n/4" counter text are left out.
  The model keeps only the segment name that follows the prefix.
- Mask names are the enumeration `MaskName` rather than the strings
  "mask1"..."mask4". `collectMask`'s `parseInt` of the name serves only the
  icon highlight, which is left out.
- The tutorial's 300 ms tween that moves the player back to (400, 320) in
  `showStep` is left out. The player only moves through `MovePlayer`.
- The code has no pause, resume or quit state, so none is modelled.
- GameScene never writes `currentEnvIndex`, so the model never changes it
  after creation.
- The main menu's Start button writes `maskPieces := 0` and
  `currentEnvIndex := 0` straight into the record
  (src/scenes/MainMenu.js:163-164), bypassing both mutators. That write is
  outside this model. Until GameScene's `create` runs, it leaves the flags set
  while the counter reads 0.
- src/scenes/StoryScene.js, src/scenes/Credits.js, src/scenes/MainMenu.js,
  src/scenes/Preload.js and src/scenes/EndStory.js are not part of this model.
  They are menus, layout and asset loading; the model only records which of
  them a scene starts.
- TutorialScene.Tutorial.CompleteStep: requires that step index 0's tracker is
  full and step index 1's diagonal is set. Every caller in the source reaches
  `completeStep` only under those guards, and the class invariant depends on
  them.
- Session.GameScene.MovePlayer: requires a position inside the 3200 x 450
  world. The engine's world-bound collision guarantees this; it is not
  modelled.
