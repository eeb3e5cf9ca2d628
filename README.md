# Hiphop-bunny game state, in Dafny

Hiphop-bunny is a browser reflex game. A platform's colour cycles through a
palette of four colours on a timer. The player presses Space (or clicks) to
make the bunny jump, and the jump only succeeds when the bunny's colour matches
the platform's. All of its logic is the state machine in `game.js`. That state
lives in module-level variables: the platform colour index, the interval
handle, score, lives, the ticker speed, the combo streak, the bunny's colour
index and the game-over flag. Four kinds of code change it:

- the interval callback;
- `handleJump` with `jumpToNextPlatform`;
- `triggerFall`;
- `restartGame` and the start/stop helpers, reached through the start/restart/jump
  rule shared by the two input handlers.

This project models that state machine twice, and proves the two agree:

- `game_rules.dfy`, module `GameRules`: the state as a value (`State`) and one
  function per operation. Each function's contract says what the operation
  means. The invariant `Inv` is kept by every operation, and lemmas relate
  several operations and whole runs of events.
- `game.dfy`, module `Game`: class `GameState` with the script's variables as
  fields. It has one method per script function, and each method updates the
  fields in place, in the script's order. Every method ensures that the new
  fields, read as a `State` (`Model()`), equal what the matching `GameRules`
  function gives for the old fields. `ReplayGame` is a client. It plays a start,
  five matches (the fifth speeds the ticker up to 800 ms), three misses, an
  ignored jump after the game is over, a restart and two ticks. It checks each
  resulting state from the contracts alone.

How the environment is represented:

- **Interval handle.** `colorInterval` is `NoInterval` (null) or `Every(delayMs)`.
- **Live timers.** `liveTimers` counts the setInterval timers the host still has
  scheduled. That turns "only one ticker is ever active" into a proved invariant
  (`TimersAccounted`, part of `Inv`).
- **Ticker firing.** A firing of the ticker is the method `Tick` or the event
  `TimerFired`. A stopped ticker cannot fire, so `TimerFired` leaves a stopped
  state unchanged.
- **Random draws.** The calls to `Math.random` become parameters restricted to
  `[0, 4)`. In a jump, the first draw is the bunny's new colour and the second
  is the platform's.
- **Bunny colour attribute.** The bunny element's `data-color-index` attribute is
  always written together with `bunnyColorIndex`, so the field stands for both.

Two behaviours of `game.js` that a reader might not expect, both modelled as
the code has them:

- A miss that leaves lives keeps the combo. Only the game-ending miss resets it
  (`GameRules.Fall`).
- `restartGame` does not reset the speed. It is 900 ms after a restart only
  because the game-ending miss already reset it (`GameRules.Restart`,
  `GameRules.RestartIsFreshStart`).

## Model

| member | source | states |
|---|---|---|
| `Game.GameState.constructor` | game.js:8-16 | the loaded script's state: colour 0, no ticker, score 0, 3 lives, 900 ms, combo 0, the drawn bunny colour, not over; it satisfies the invariant |
| `GameRules.Initial` | game.js:8-16 | the load-time state satisfies `Inv` and is not started, so the first press starts the ticker |
| `Game.GameState.Tick` | game.js:51-55 | the interval callback advances `colorIndex` exactly as `GameRules.Tick` says and keeps the invariant |
| `GameRules.Tick` | game.js:51-52 | one tick moves the colour to the next palette entry, wrapping from 3 to 0, and changes nothing else |
| `GameRules.Ticks` | game.js:51-55 | any number of ticks keeps the invariant and the ticker running |
| `GameRules.TicksAdvance` | game.js:51-52 | after n ticks from colour i the colour is (i + n) mod 4 and nothing else has changed |
| `Game.GameState.StartColorCycle` | game.js:47-56 | clears the old timer when one is set, then schedules one at the given delay (`GameRules.StartColorCycle`) |
| `GameRules.StartColorCycle` | game.js:47-56 | afterwards exactly one timer is live and the handle holds the requested delay; no other variable changes |
| `Game.GameState.StopColorCycle` | game.js:58-61 | clears the timer when one is set and nulls the handle (`GameRules.StopColorCycle`) |
| `GameRules.StopColorCycle` | game.js:58-61 | afterwards no timer is live and the handle is null; on a stopped ticker it changes nothing |
| `Game.GameState.RestartColorCycle` | game.js:161-164 | stop then start at the current speed (`GameRules.RestartColorCycle`) |
| `GameRules.RestartColorCycle` | game.js:161-164 | afterwards exactly one timer is live, ticking at the current speed; nothing else changes |
| `Game.GameState.HandleJump` | game.js:64-92 | the jump handler in place: ignored when over, score and combo on a match, speed-up and restarted ticker on every fifth match above 400 ms, otherwise a fall; equals `GameRules.Jump` and keeps the invariant |
| `GameRules.Jump` | game.js:64-92 | a no-op once the game is over; a match adds exactly 1 to score and combo, keeps lives and the flag, and installs the two drawn colours; a miss is exactly `Fall`; the invariant is kept |
| `GameRules.MatchedJumpSpeed` | game.js:74-76 | on a match the speed changes iff the new combo is a positive multiple of 5 and the speed is above 400; it then drops by exactly 100 and the ticker restarts at the new speed; otherwise the ticker is untouched |
| `Game.GameState.JumpToNextPlatform` | game.js:94-115 | the bunny takes the first drawn colour and the platform the second (`GameRules.JumpToNextPlatform`) |
| `GameRules.JumpToNextPlatform` | game.js:110-112 | the bunny colour is the first draw, the platform colour the second; nothing else changes |
| `Game.GameState.TriggerFall` | game.js:118-138 | loses a life and, on the last one, sets the flag, stops the ticker, zeroes the combo and resets the speed (`GameRules.Fall`); keeps the invariant |
| `GameRules.Fall` | game.js:118-138 | exactly one life lost and score kept; the game ends iff it was the last life, and then the ticker is stopped with no live timer, combo 0 and speed 900; otherwise nothing but lives changes |
| `GameRules.MissedJump` | game.js:89-91 | a mismatched jump costs exactly one life, never makes lives negative and never changes the score; with lives left nothing else changes; on the last life the game is over with the ticker stopped, combo 0 and speed 900 |
| `GameRules.GameOverOnlyByLastMiss` | game.js:118-129 | the game-over flag is only ever set by a mismatched jump on the last life, which leaves 0 lives |
| `Game.GameState.RestartGame` | game.js:141-159 | resets the flag, score, combo, lives and colours, then starts the ticker at the current speed (`GameRules.Restart`) |
| `GameRules.Restart` | game.js:141-159 | a new game: not over, score 0, combo 0, 3 lives, colour 0, the drawn bunny colour, speed kept, exactly one timer live at that speed |
| `GameRules.RestartIsFreshStart` | game.js:141-159 | restarting a finished game gives the load-time state with the ticker started at 900 ms |
| `GameRules.Route` | game.js:207-230 | a press starts the ticker iff it is stopped and the game is not over, restarts iff the game is over, and jumps iff the ticker runs and the game is not over |
| `Game.GameState.Press` | game.js:207-230 | the input handlers: returns the action `Route` picks and leaves the state `GameRules.Press` gives, keeping the invariant |
| `GameRules.Press` | game.js:207-230 | after any press the invariant holds and the ticker runs exactly when the game is not over; a start press changes only the ticker, which then runs at the current speed; a restart press of a finished game gives the load-time state with the ticker started at 900 ms |
| `GameRules.Step` | game.js:51-55 | a tick (game.js:51-55) or a press (game.js:207-230) keeps the invariant |
| `GameRules.Run` | game.js:207-230 | any sequence of ticks (game.js:51-55) and presses (game.js:207-230) keeps the invariant |
| `GameRules.StepSpeed` | game.js:74-76 | an event never raises the speed unless it ends the game, and a finished game keeps its speed; any drop is exactly 100 |
| `GameRules.SpeedNeverRisesInSession` | game.js:74-76 | along a run in which the game is never over, the speed never rises |
| `GameRules.ReachableStatesAreSane` | game.js:8-16 | every state reachable from the loaded script has lives in [0, 3], a speed that is a multiple of 100 in [400, 900], at most one live timer, both colours in the palette, and is over iff lives are 0 |

## Left out

- DOM access and styling are presentation only and do not touch game state:
  `applyColor`, the match-indicator transform and shadow, class and text
  updates, and the load-time painting at lines 204-205.
- `showComboText`, `showPlusOne` and `createSparkles` are left out. They create
  and remove elements, place them at floating-point random offsets and remove
  them with `setTimeout`.
- `rgba` is left out. It only builds a CSS colour string for a shadow.
- Real timing of `setInterval` and `setTimeout` is not modelled. A firing is an
  explicit `Tick`, and the delay is only recorded in the handle.
- The distribution of `Math.random` is not modelled. Only the range of each draw
  is.
- The keydown handler's filter on the Space key and its `preventDefault` are not
  modelled. Only presses that reach the start/restart/jump rule are events.
- JavaScript number semantics are not modelled. Every value here is a small
  integer, so unbounded `int` gives the same results.
