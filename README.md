# Catch-balls game engine and settings form, modelled in Dafny

The game is a paddle at the bottom of an 800×600 canvas catching balls that
fall from the top, scored against a countdown clock. This project models two
parts of it:

- **The game engine service.** It holds a state cell `{caughtObjects,
  timeRemaining, running}`, the list of falling balls, the paddle's centre, the
  current settings and a "game has started" latch. Three timers drive it: a
  one-second countdown, a spawn timer whose period is the settings'
  `fallingFrequency`, and the animation frame. Three commands come from the
  settings form: start, update settings, and restart with settings.
- **The settings form.** It has the per-field validators, the choice of the
  changed field, the conversion of the form's text into settings, the
  dispatch of an accepted change to the engine commands, and the error
  message a field shows.

Layout:

- `options.dfy`: `Option`, which stands for JavaScript's `null`.
- `game_model.dfy`: `GameSettings`, `DefaultSettings`, `GameState`,
  `InitialState`, `Ball`, `Direction`.
- `decimal_text.dfy`: digit strings and the numbers they spell.
  - `Value` is what `Number` gives for digit text, and what `parseFloat`
    gives for non-empty digit text (`parseFloat("")` is NaN; the min and max
    validators never parse empty text).
  - `Show` is how a template literal writes a bound.
- `engine.dfy`: the engine as functions on a `World` value.
  - `World` holds the state, balls, paddle x, latch, settings and whether the
    spawn timer is armed.
  - There is one step function per command and per timer.
  - The constants are the canvas 800×600, the paddle 50×20 starting at x = 400,
    and the ball radius 10.
  - `Inv` is the invariant of every reachable world.
- `engine_properties.dfy`: the lemmas about those step functions.
- `engine_service.dfy`: class `GameEngineService`.
  - Its fields are updated step by step, as in the service.
  - Each method is proved to reach the world the matching step function
    computes.
  - Each method also states what it appended to `published`, the history of
    values the state cell has held.
- `settings_form.dfy`: the form's rules, `GetChangedField` (a loop),
  `CreateGameSettings`, `UpdateGameCommands` (the engine calls `updateGame`
  makes, as a list of commands), `GetErrorMessage`, and class
  `SettingsFormComponent`, whose `UpdateGame` and `ValueChanged` issue those
  calls on a `GameEngineService`.

Modelling choices:

- Coordinates are exact `real`s and settings are unbounded `int`s.
- The engine does not validate settings. Its lemmas hold for any integers,
  except where a requires says otherwise.
- `Math.random()` becomes a parameter `rand` with `0 <= rand < 1`. The new
  ball's x is `rand * 780 + 10`.
- Every timer is a method the caller may invoke in any order:
  `CountdownTick`, `SpawnTick(rand)` and `AnimationFrame(left, right)`.
  `Engine.Run` folds any such interleaving.
- The spawn timer is the flag `spawnArmed`.
  - A settings emission re-creates the interval timer. The new timer is cut
    off at once unless the current state is running, because the `takeUntil`
    stream replays the current state. So an update sets the flag to
    `state.running`.
  - Publishing a non-running state clears the flag.
  - Publishing a running state leaves the flag unchanged.
- An animation frame runs the collision pass first, inside the engine's
  `tap`. Only then do the board's held keys move the paddle, left before
  right, each move checked on its own (`game-board.component.ts:61-63`,
  `game-board.component.ts:93-97`).
- The collision pass reads the state once, before the loop. Each catch
  republishes the same snapshot plus one, so a frame scores at most one point
  (`TwoCatchesOnePoint`, `FrameScore`).
- `updateSettings` does not validate its argument, and neither does the model.
- Validators follow Angular's rules:
  - `required` fails only on empty text.
  - `pattern` and `min`/`max` are not checked on empty text.
  - `min`/`max` compare the parsed number.
- A form control's value is modelled as text.

## Model

| member | source | states |
|---|---|---|
| `DecimalText.Value` | src/app/components/settings-form/settings-form.component.ts:111-118 | definition: the number digit text spells, as `Number` reads it; specified by `ValueOfShow` and `LeadingZero` |
| `DecimalText.Show` | src/app/components/settings-form/settings-form.component.ts:159-163 | the bound written into a message is non-empty digit text, one digit below 10, and starts with '0' only for 0 |
| `DecimalText.ValueOfShow` | src/app/components/settings-form/settings-form.component.ts:111-118 | converting the decimal text of n back to a number gives n |
| `DecimalText.LeadingZero` | src/app/components/settings-form/settings-form.component.ts:113-116 | a leading zero does not change the number digit text converts to ("007" is 7) |
| `Engine.Publish` | src/app/services/game-engine.service.ts:94-103 | definition: the state-cell update plus the `takeUntil` cut-off; specified by `PublishGatesSpawning` |
| `Engine.InitialWorld` | src/app/services/game-engine.service.ts:30-45 | definition: the engine as constructed; specified by `InitialInv` and the class constructor |
| `Engine.StartGameStep` | src/app/services/game-engine.service.ts:68-78 | definition: startGame; specified by `StartGameEffect` |
| `Engine.UpdateSettingsStep` | src/app/services/game-engine.service.ts:80-82 | definition: a settings emission and the spawn timer it re-creates; specified by `UpdateSettingsEffect` and `OnlySettingsEmissionArms` |
| `Engine.RestartStep` | src/app/services/game-engine.service.ts:84-90 | definition: restartGameWithSettings; specified by `RestartEffect` and `RestartIdempotent` |
| `Engine.Execute` | src/app/services/game-engine.service.ts:68-90 | definition: one engine command; specified by `StepInv` |
| `Engine.ExecuteAll` | src/app/services/game-engine.service.ts:68-90 | definition: commands in order; specified by `UpdateGameEffect` |
| `Engine.Countdown` | src/app/services/game-engine.service.ts:106-123 | definition: what one countdown tick publishes; specified by `CountdownCases` |
| `Engine.CountdownStep` | src/app/services/game-engine.service.ts:106-123 | definition: the countdown handler; specified by `CountdownCountsDown` and `CountdownExpires` |
| `Engine.MovedX` | src/app/services/game-engine.service.ts:129-142 | definition: the reject-not-clamp move; specified by `MoveRejectsCrossing`, `MoveStaysInBand` and `LeftMovesStop` |
| `Engine.PlayerMoveStep` | src/app/services/game-engine.service.ts:126-143 | definition: onPlayerMove; specified by `MoveStaysInBand` and `StepInv` |
| `Engine.SpawnBallStep` | src/app/services/game-engine.service.ts:167-175 | definition: spawnBall; specified by `SpawnAppends` |
| `Engine.SpawnTickStep` | src/app/services/game-engine.service.ts:94-103 | definition: a tick of the spawn timer, only while armed; specified by `SpawnAppends` and `PublishGatesSpawning` |
| `Engine.Caught` | src/app/services/game-engine.service.ts:186-190 | definition: the catch test; specified by `NoCatchIff` |
| `Engine.OnBoard` | src/app/services/game-engine.service.ts:199-200 | definition: the keep test for an uncaught ball; specified by `SurvivorsMembers` |
| `Engine.Survivors` | src/app/services/game-engine.service.ts:182-201 | a pass keeps at most the balls it started with; its members are characterised by `SurvivorsMembers` |
| `Engine.Catches` | src/app/services/game-engine.service.ts:182-201 | a pass catches at most the balls it started with; specified by `NoCatchIff` and `CatchesPlusSurvivors` |
| `Engine.CollisionStep` | src/app/services/game-engine.service.ts:177-202 | definition: checkCollisions; specified by `CollisionScore` |
| `Engine.FrameStep` | src/app/components/game-board/game-board.component.ts:61-63 | definition: one animation frame, collisions then left then right; specified by `FrameScore`, `BothKeysAtLeftEdge` and `StoppedFrameIsIdle` |
| `Engine.Step` | src/app/services/game-engine.service.ts:47-201 | definition: any one input of the engine; specified by `StepInv` |
| `Engine.Run` | src/app/services/game-engine.service.ts:47-201 | definition: any interleaving of inputs; specified by `RunInv`, `ReachableBounds` and `LatchNeverResets` |
| `Engine.Inv` | src/app/services/game-engine.service.ts:30-45 | definition: the reachable-world invariant; established by `InitialInv`, kept by `StepInv` |
| `Engine.SpawnX` | src/app/services/game-engine.service.ts:170 | a new ball's x lies in [10, 790) for every random draw in [0, 1) |
| `EngineProperties.StartGameEffect` | src/app/services/game-engine.service.ts:68-78 | startGame publishes exactly (0, gameTime, running) and sets the latch; balls, paddle, settings and spawn timer are unchanged |
| `EngineProperties.RestartEffect` | src/app/services/game-engine.service.ts:84-90 | after a restart, whatever was in flight: no balls, paddle at 400, state (0, gameTime, running), the new settings, latch set, spawning armed |
| `EngineProperties.RestartIdempotent` | src/app/services/game-engine.service.ts:84-90 | restarting twice with the same settings equals restarting once |
| `EngineProperties.UpdateSettingsEffect` | src/app/services/game-engine.service.ts:94-103 | a settings emission changes only the settings and arms spawning iff the round is running |
| `EngineProperties.CountdownCases` | src/app/services/game-engine.service.ts:106-123 | a tick while stopped changes nothing; while running it takes one second off, or if that reaches <= 0 publishes (caught, 0, stopped) and stops spawning; nothing else changes |
| `EngineProperties.CountdownCountsDown` | src/app/services/game-engine.service.ts:112-123 | while time remains, n ticks take exactly n seconds off and change nothing else |
| `EngineProperties.CountdownExpires` | src/app/services/game-engine.service.ts:114-119 | after timeRemaining ticks the round has ended with the score kept, 0 left and spawning off, and later ticks change nothing |
| `EngineProperties.TenSecondRound` | src/app/services/game-engine.service.ts:106-123 | with gameTime 10, ten ticks after the start the state is (0, 0, stopped) |
| `EngineProperties.MoveRejectsCrossing` | src/app/services/game-engine.service.ts:129-142 | a move goes to x +/- playerSpeed iff that target lies in [25, 775]; otherwise x is unchanged (rejected, not clamped) |
| `EngineProperties.MoveStaysInBand` | src/app/services/game-engine.service.ts:136-142 | a paddle in [25, 775] stays there whatever the speed |
| `EngineProperties.LeftMovesProgress` | src/app/services/game-engine.service.ts:126-143 | after n left moves the paddle is in [25, x] and either moved by exactly n*speed or stands where the next move would be rejected |
| `EngineProperties.LeftMovesStop` | src/app/services/game-engine.service.ts:126-143 | repeated left moves from anywhere in the band reach a position that further left moves no longer change |
| `EngineProperties.BothKeysAtLeftEdge` | src/app/components/game-board/game-board.component.ts:93-97 | in a running frame with both keys held at the left edge, the left move is rejected and the right move still applies, leaving the paddle one step right of the edge |
| `EngineProperties.SurvivorsAppend` | src/app/services/game-engine.service.ts:182-201 | the collision pass distributes over concatenation, so survivors keep their relative order |
| `EngineProperties.CatchesAppend` | src/app/services/game-engine.service.ts:182-201 | the number of catches of a pass adds up over concatenation |
| `EngineProperties.SurvivorsMembers` | src/app/services/game-engine.service.ts:182-201 | a ball survives iff it is some ball moved down by fallingSpeed that is neither caught nor has its top below y = 600 |
| `EngineProperties.NoCatchIff` | src/app/services/game-engine.service.ts:186-190 | a pass catches nothing iff no moved ball has y + 10 >= 580 with x in [playerX - 25, playerX + 25] |
| `EngineProperties.CatchesPlusSurvivors` | src/app/services/game-engine.service.ts:182-201 | caught plus surviving balls never exceed the balls before the pass |
| `EngineProperties.SurvivorsOk` | src/app/services/game-engine.service.ts:182-183 | surviving balls keep the radius 10 and x they were spawned with |
| `EngineProperties.CollisionScore` | src/app/services/game-engine.service.ts:177-201 | a pass raises caughtObjects by 1 if some ball is caught and by 0 otherwise; time, running, paddle, settings and spawn timer are unchanged |
| `EngineProperties.FrameScore` | src/app/services/game-engine.service.ts:47-54 | a whole frame raises the score by one iff the round runs and some ball is caught, by nothing otherwise, and never changes the time or whether the round runs |
| `EngineProperties.TwoCatchesOnePoint` | src/app/services/game-engine.service.ts:179-195 | two balls caught in one frame raise the score by one, not two |
| `EngineProperties.CaughtOnce` | src/app/services/game-engine.service.ts:186-197 | a ball above the paddle is counted once: the catching frame removes it |
| `EngineProperties.CollisionsBeforeMove` | src/app/components/game-board/game-board.component.ts:61-63 | collisions use the paddle position before the frame's move: a ball the moved paddle would cover falls past |
| `EngineProperties.StoppedFrameIsIdle` | src/app/services/game-engine.service.ts:49-52 | a frame while stopped changes nothing: no collisions and no moves |
| `EngineProperties.SpawnAppends` | src/app/services/game-engine.service.ts:167-175 | an armed spawn tick appends exactly one ball at the end with y 0, radius 10, x in [10, 790) and keeps the others; an unarmed tick does nothing |
| `EngineProperties.PublishGatesSpawning` | src/app/services/game-engine.service.ts:94-103 | once a stopped state is published a spawn tick adds no ball; publishing a running state leaves an armed timer spawning |
| `EngineProperties.OnlySettingsEmissionArms` | src/app/services/game-engine.service.ts:94-103 | a stopped spawn timer is re-armed only by an update or restart made while the resulting state is running |
| `EngineProperties.StartDoesNotArmRestartDoes` | src/app/services/game-engine.service.ts:84-90 | startGame alone does not re-arm a stopped spawn timer; restart (start before update) always leaves it armed |
| `EngineProperties.InitialInv` | src/app/services/game-engine.service.ts:30-45 | the engine as constructed satisfies the invariant |
| `EngineProperties.StepInv` | src/app/services/game-engine.service.ts:68-201 | every command, tick, frame and move keeps the invariant: paddle in [25, 775], balls radius 10 with x in [10, 790), score >= 0, spawning only while running, running only once started, stopped means 0 seconds left, nothing happens before the first start |
| `EngineProperties.RunInv` | src/app/services/game-engine.service.ts:68-201 | any interleaving of inputs keeps the invariant |
| `EngineProperties.ReachableBounds` | src/app/services/game-engine.service.ts:136-142 | along any run from construction the whole paddle stays on the canvas and spawning happens only while running |
| `EngineProperties.LatchNeverResets` | src/app/services/game-engine.service.ts:68-71 | once hasGameStarted is true no input ever resets it |
| `EngineProperties.WithinRoundMonotone` | src/app/services/game-engine.service.ts:106-123 | apart from start and restart, no input lowers the score or raises the time remaining of a running round |
| `EngineService.GameEngineService.constructor` | src/app/services/game-engine.service.ts:30-45 | the new engine holds the initial state, no balls, paddle at 400, default settings, latch off, spawning off |
| `EngineService.GameEngineService.Publish` | src/app/services/game-engine.service.ts:98 | puts the state in the cell, appends it to the history, and a non-running state stops the spawn timer |
| `EngineService.GameEngineService.StartGame` | src/app/services/game-engine.service.ts:68-78 | in-place start agrees with StartGameStep and publishes exactly (0, gameTime, running) |
| `EngineService.GameEngineService.UpdateSettings` | src/app/services/game-engine.service.ts:80-82 | replaces the settings, re-arms spawning iff running, publishes nothing |
| `EngineService.GameEngineService.RestartGameWithSettings` | src/app/services/game-engine.service.ts:84-90 | clears balls, recentres the paddle, starts, then updates settings, in that order, agreeing with RestartStep |
| `EngineService.GameEngineService.Execute` | src/app/services/game-engine.service.ts:68-90 | issuing a command agrees with Engine.Execute and publishes the round start unless it is a settings update |
| `EngineService.GameEngineService.CountdownTick` | src/app/services/game-engine.service.ts:112-123 | agrees with CountdownStep and publishes nothing while stopped, one state while running |
| `EngineService.GameEngineService.OnPlayerMove` | src/app/services/game-engine.service.ts:126-143 | agrees with PlayerMoveStep and publishes nothing |
| `EngineService.GameEngineService.SpawnBall` | src/app/services/game-engine.service.ts:167-175 | appends the ball for the random draw and keeps the invariant |
| `EngineService.GameEngineService.SpawnTick` | src/app/services/game-engine.service.ts:94-103 | spawns only while the spawn timer is armed |
| `EngineService.GameEngineService.CheckCollisions` | src/app/services/game-engine.service.ts:177-202 | the in-place pass leaves the survivors in order and publishes the snapshot plus one once per caught ball |
| `EngineService.GameEngineService.AnimationFrame` | src/app/services/game-engine.service.ts:47-54 | collisions while running, then the left and right moves, agreeing with FrameStep |
| `SettingsForm.FormFields` | src/app/components/settings-form/settings-form.component.ts:30-64 | definition: the four fields and their min/max bounds; specified by `FormValidIff` |
| `SettingsForm.FieldErrors` | src/app/components/settings-form/settings-form.component.ts:30-64 | definition: Angular's required, pattern, min and max validators on a field's text; specified by `FieldValidIff` and `FieldErrorMessage` |
| `SettingsForm.FormValid` | src/app/components/settings-form/settings-form.component.ts:91 | definition: the form's validity; specified by `FormValidIff` |
| `SettingsForm.FirstChanged` | src/app/components/settings-form/settings-form.component.ts:102-109 | definition: the first key of curr whose value differs; specified by `FirstChangedSpec` |
| `SettingsForm.UpdateGameCommands` | src/app/components/settings-form/settings-form.component.ts:120-143 | definition: the engine calls updateGame makes; specified by `UpdateGameEffect` |
| `SettingsForm.OnValueChange` | src/app/components/settings-form/settings-form.component.ts:86-100 | definition: the commands one value change issues; specified by `OnlyValidFormsReachEngine` and `FirstChangeStartsValidRound` |
| `SettingsForm.GetErrorMessage` | src/app/components/settings-form/settings-form.component.ts:145-166 | definition: the message a field shows; specified by `ErrorMessageEmptyIff` and `FieldErrorMessage` |
| `SettingsForm.FieldValidIff` | src/app/components/settings-form/settings-form.component.ts:30-64 | a field is valid iff it is non-empty digit text whose number lies within its min and max |
| `SettingsForm.FormValidIff` | src/app/components/settings-form/settings-form.component.ts:30-64 | the form is valid iff all four fields are non-empty digit text with fallingSpeed >= 1, fallingFrequency >= 16, playerSpeed >= 1 and 1 <= gameTime <= 600 |
| `SettingsForm.InitialFormInvalid` | src/app/components/settings-form/settings-form.component.ts:74-84 | the form as created, all fields empty, is invalid |
| `SettingsForm.ValidFormIsDigits` | src/app/components/settings-form/settings-form.component.ts:30-64 | a valid form holds digit text in every field |
| `SettingsForm.CreateGameSettings` | src/app/components/settings-form/settings-form.component.ts:111-118 | decimal conversion gives non-negative settings, and a valid form gives settings within the four bounds |
| `SettingsForm.CreateGameSettingsOfFormOf` | src/app/components/settings-form/settings-form.component.ts:111-118 | converting the decimal form of settings s gives s back, and that form is valid iff s meets the bounds |
| `SettingsForm.FirstChangedSpec` | src/app/components/settings-form/settings-form.component.ts:102-109 | null iff every key of curr holds the same value in prev; a returned key is a key of curr whose value differs, and every earlier key is equal |
| `SettingsForm.GetChangedField` | src/app/components/settings-form/settings-form.component.ts:102-109 | the early-return loop returns exactly that first changed key |
| `SettingsForm.ChangedFieldOfForms` | src/app/components/settings-form/settings-form.component.ts:102-109 | between two form values "gameTime" is reported iff it is the only field that changed, and null iff nothing changed |
| `SettingsForm.OnlyValidFormsReachEngine` | src/app/components/settings-form/settings-form.component.ts:86-100 | a change issues commands iff the new form is valid, and every command carries the form's settings, which meet the bounds |
| `SettingsForm.UpdateGameEffect` | src/app/components/settings-form/settings-form.component.ts:120-143 | before the first start: a running round with the new settings and spawning on; after it, a gameTime change restarts from scratch and any other key or null only replaces the settings |
| `SettingsForm.FirstChangeStartsValidRound` | src/app/components/settings-form/settings-form.component.ts:124-128 | the first accepted change starts a running round of 1 to 600 seconds with valid settings and spawning on |
| `SettingsForm.ErrorMessageEmptyIff` | src/app/components/settings-form/settings-form.component.ts:145-148 | the message is '' iff the control is missing, has no errors or is untouched |
| `SettingsForm.FieldErrorMessage` | src/app/components/settings-form/settings-form.component.ts:145-166 | a touched field shows the message of the first rule it breaks in the order required, pattern, min, max; '' iff valid or untouched; never 'Invalid value' |
| `SettingsForm.FrequencyTooLowMessage` | src/app/components/settings-form/settings-form.component.ts:158-160 | a touched fallingFrequency holding "5" shows "Minimum value is 16" |
| `SettingsForm.SettingsFormComponent.constructor` | src/app/components/settings-form/settings-form.component.ts:74-84 | every field starts empty |
| `SettingsForm.SettingsFormComponent.UpdateGame` | src/app/components/settings-form/settings-form.component.ts:120-143 | the engine calls issued agree with executing UpdateGameCommands on the engine |
| `SettingsForm.SettingsFormComponent.ValueChanged` | src/app/components/settings-form/settings-form.component.ts:86-100 | an invalid value reaches the engine not at all; a valid one issues the commands of OnValueChange |

## Left out

- `draw` (canvas rendering) is not modelled: it is output only.
- RxJS scheduling is not modelled. This covers `animationFrames`, `interval`,
  the `switchMap`/`takeUntil` plumbing, subscriber lists and real time. Each
  timer is an explicit method, and the state subject is a field plus a ghost
  history `published`.
- The spawn timer's phase is not modelled. A settings emission restarts the
  interval timer at the new period, but the model keeps only whether the timer
  is armed.
- `Math.random` is a parameter.
- JavaScript numbers are doubles. The model uses exact reals and unbounded
  integers, so rounding and very long digit strings are not modelled.
- Angular dependency injection, `FormBuilder`, and the `valueChanges`,
  `startWith` and `pairwise` wiring are left out. Only the rules they encode
  are kept: the previous and the current form value are passed explicitly.
- `SettingsForm.CreateGameSettings` requires digit text in every field. Its
  only caller passes valid forms, and JavaScript's `Number` on other text
  (hexadecimal, exponents, whitespace) is not modelled.
- `SettingsForm.FieldErrors` does not report `min`/`max` for text that is not
  digits, where `parseFloat` might still find a number. `pattern` fails for
  such text and outranks `min`/`max` in the message, so validity and the
  message are unaffected.
- The unused field `prevGameTime` is not modelled.
- The keyboard and focus handling of
  `src/app/components/game-board/game-board.component.ts` is not modelled.
  Only its left-then-right move order within a frame is kept.
- `src/app/components/score-display/score-display.component.ts` and
  `src/app/app.component.ts` are not part of this model. They only copy the
  published state or lay out the page.
- `EngineProperties.WithinRoundMonotone` requires a non-negative time
  remaining. A round started with a negative `gameTime` (which the form never
  produces) jumps to 0 on the next tick.
