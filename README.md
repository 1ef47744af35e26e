# Banana Blitz: gesture tracker and session controller

Banana Blitz is a camera-driven motion game. The player "peels a banana" by
pumping a closed fist up and down in front of the camera. Each debounced up/down
reversal scores one stroke toward the level's goal, and the level has a time limit.
This project models the two sequential state machines at the heart of the game,
together with the data they share:

- **Gesture tracker** (module `Gesture`). It decides whether a hand is a fist: at least
  three of the fingertips 8, 12, 16 and 20 lie below their knuckles 5, 9, 13 and 17.
  It turns the wrist's vertical motion into strokes with a debounced reversal counter.
  The counter's memory is the previous height, the leg's direction (up, down or idle)
  and the distance travelled since the last reversal. Moves of at most 0.001 are jitter.
  A reversal scores only when the leg it ends travelled more than 0.06.
  `Step` is one frame as a pure function. `Run` folds it over a sequence of frames.
  The lemmas prove the debouncing and scoring rules, including that a leg followed by
  a reversal scores exactly once when the leg is long enough.
- **Session controller** (module `Session`). The class `Game` holds the component's
  state:
  - the game-state record and the time limit the level started with;
  - the clear time and the UI flags;
  - the tracker's three fields;
  - the countdown and play-timer intervals, each modelled as a "running" flag plus
    the countdown's counter.

  Its methods are the handlers of App.tsx: start, select level, stop, next level, toggle
  language, one countdown second, one timer second, one camera frame and the goal
  watcher. The two state updaters App.tsx passes to `setGameState` are pure
  functions: `AddStroke` (the clamped score increment) and `TimerStep` (one second of play).
  `Valid()` is the invariant every public method keeps (`StartCountdown` is a helper
  that runs only after the phase is set to STARTING):
  - the level is at least 1;
  - 0 ≤ score ≤ goal, and 0 ≤ timeLeft ≤ the level's initial time, which is its TimeLimit;
  - a recorded clear time lies between 0 and the level's TimeLimit;
  - a completed level is below the last level;
  - a running countdown means STARTING, and a running timer means PLAYING.
- **Level tables** (module `Levels`):
  - `Goal` is 500 at level 11, 1000 at level 12, and min(10·level, 100) otherwise.
  - `TimeLimit` is 600 at level 11, 1200 at level 12, and 60·level otherwise.
- **Shared types** (module `GameTypes`): the five-valued `GameStatus`, the two-valued
  `Language` and the `GameState` record.
- **Scenarios** (module `Scenarios`): whole sessions driven only through the contracts:
  - Level 3 is cleared by thirty strokes with 10 s left, so the clear time is 170 s.
  - Level 1 runs out of time and asks for the failure cue.
  - After an abort, late ticks of either interval change nothing, and so does a
    second abort.

Two behaviours of the code worth noting:
- `startGame`, `selectLevelManually` and `nextLevel` do not reset the tracker's
  memory. Only `stopGame` does (App.tsx:445-447). The start methods' contracts therefore
  say `Tracker() == old(Tracker())`.
- The first move after a reset (direction IDLE) already adds its distance to the
  travel (App.tsx:296, 309).

## Model

| member | source | states |
|---|---|---|
| GameTypes.StatusesAreExactlyFive | types.ts:2-8 | The phase type has exactly five distinct values, and every phase is one of them |
| GameTypes.Toggle | App.tsx:415-417 | The language switch always changes the language and stays within 'zh' and 'en' |
| GameTypes.ToggleTwice | App.tsx:416 | Switching the language twice restores it |
| Levels.Goal | App.tsx:268 | The goal is at most 1000 and at least 10 for every level ≥ 1. It is 10·level for levels 1-10, 500 at level 11, 1000 at level 12 and 100 above 12 |
| Levels.TimeLimit | App.tsx:430-432 | Every limit is a whole number of minutes, at least 60 s from level 1 and at most 1200 s up to level 12. It is 600 at level 11 and 1200 at level 12 |
| Levels.GoalIncreasing | App.tsx:268 | Across the selectable levels 1-12 the goal strictly increases |
| Levels.TimeLimitNonDecreasing | App.tsx:430-432 | Across levels 1-12 the time limit never shrinks |
| Levels.GoalFitsTimeLimit | App.tsx:268 | Every level's goal is at most its time limit in seconds, so it can be met at one stroke per second |
| Gesture.CurledCount | App.tsx:285-287 | The number of curled fingers among the first n is at most n |
| Gesture.ClassifyFist | App.tsx:285-288 | The counting loop returns true exactly when at least 3 of the 4 tracked fingers are curled |
| Gesture.FistIffAtMostOneOpen | App.tsx:288 | A hand is a fist exactly when some finger k exists such that every other tracked finger is curled |
| Gesture.DirectionOf | App.tsx:295 | A move is DOWN exactly when y increases, and it is never IDLE |
| Gesture.Step | App.tsx:290-312 | The previous height is always refreshed. A first frame after a reset, or a jitter frame (abs(Δy) ≤ 0.001), leaves direction and travel unchanged and scores nothing. A stroke is scored exactly on a reversal of a non-IDLE direction whose leg travelled more than 0.06. After a reversal the direction flips and the travel is that frame's abs(Δy). Any other move extends the leg. Travel stays non-negative |
| Gesture.Run | App.tsx:280-313 | Over a run of frames there are at most as many strokes as frames, the last height is remembered and travel stays non-negative |
| Gesture.RunAppend | App.tsx:290-312 | Feeding two batches of frames one after the other gives the same state and stroke total as feeding them together |
| Gesture.LegAccumulates | App.tsx:294-309 | A leg continuing the established direction scores nothing and keeps the direction. Its travel grows by exactly the net displacement |
| Gesture.LegMonotone | App.tsx:293-295 | The end of a leg lies beyond its start, in the leg's direction, by more than the jitter floor |
| Gesture.LegThenReversal | App.tsx:296-309 | A leg followed by a reversing frame scores exactly one stroke if the leg's travel exceeds 0.06 and none otherwise. The new leg starts with the reversing frame's distance |
| Session.AddStroke | App.tsx:300-304 | A stroke never raises the score past the goal and never lowers a valid score. Below the goal it adds exactly one. No other field changes |
| Session.TimerStep | App.tsx:478-484 | The clock never goes negative. With more than 1 s left it loses exactly one second and the phase is unchanged. Otherwise it becomes 0 and the phase becomes FINISHED. Only the clock and the phase change |
| Session.AfterTicks | App.tsx:477-485 | Any number of timer seconds keeps the score and the level |
| Session.TicksCountDown | App.tsx:483 | While time remains, k seconds take exactly k off the clock and change nothing else |
| Session.AfterTicksSplit | App.tsx:477-485 | k+1 timer seconds are k seconds followed by one more |
| Session.TimeRunsOut | App.tsx:479-481 | With n ≥ 1 seconds left the phase holds for n−1 seconds. The n-th second finishes the session with the clock at 0 and the score kept |
| Session.Game.constructor | App.tsx:227-237 | The initial state is score 0, 60 s, IDLE, level 1, with a reset tracker and no interval running |
| Session.Game.ToggleLanguage | App.tsx:415-417 | Only the language changes, and it always changes |
| Session.Game.StartCountdown | App.tsx:461-464 | Cancels the play timer and starts a fresh three-second countdown; a helper run by the start operations after they set STARTING |
| Session.Game.StartGame | App.tsx:419-426 | Score 0, 60 s, STARTING, level 1, initial time 60 and no clear time. The countdown runs and the timer does not. Language and tracker are kept |
| Session.Game.SelectLevel | App.tsx:428-438 | The same as StartGame but at the chosen level, with TimeLimit(level) on the clock and as the initial time |
| Session.Game.StopGame | App.tsx:440-448 | Moves to IDLE with score 0, a reset tracker, no clear time and both intervals cancelled. Level, clock and language are kept. On an already stopped game nothing changes, so stopping is idempotent |
| Session.Game.NextLevel | App.tsx:450-459 | Moves to the next level with score 0, TimeLimit(level+1) on the clock and as the initial time, and STARTING with the countdown running. From a completed level the new level is at most 12 |
| Session.Game.CountdownTick | App.tsx:465-472 | Without a running countdown nothing changes. Otherwise the counter drops by one, and on the third second the counter is 0, the countdown stops, the phase becomes PLAYING and the play timer starts |
| Session.Game.Tick | App.tsx:475-486 | Without a running timer nothing changes, so a late tick after an abort is harmless. Otherwise the state becomes TimerStep of the old state and the timer stops on the last second. The score never changes |
| Session.Game.OnFrame | App.tsx:280-315 | The hand and fist flags follow the sample. Only a fist seen while PLAYING moves the tracker, exactly as Step does. Otherwise the tracker is untouched and nothing is scored. A scored stroke applies AddStroke. The score never goes down |
| Session.Game.Watch | App.tsx:398-413 | While PLAYING with the goal reached, it stops the timer and records clear time = initial time − time left, which lies between 0 and the level's TimeLimit. It then moves to FINISHED with the victory cue at level ≥ 12, or to LEVEL_COMPLETE with the level-clear cue below. A FINISHED game short of its goal gets the failure cue and is otherwise unchanged. Any other state is untouched |

## Left out

- Audio (`GameAudio`): no tones are synthesised. The cues appear as results instead.
  `OnFrame` returns whether a stroke (and so the stroke cue) happened. `Watch` returns
  the level-clear, victory or failure cue.
- Perception: hand and face detection, the camera, the mosaic blur and component
  teardown are not modelled. A frame is given as either no hand or the 21 landmark
  heights of the first hand.
- Rendering: translations, markup, the banana visual, the level-selector and mosaic
  toggles, the progress percentage and the amplitude readout are presentation only.
- Browser language detection: the constructor takes the initial language as a
  parameter, because the detection reads the browser's locale.
- Timers: intervals and React effects become explicit sequential calls
  (`CountdownTick`, `Tick`, `OnFrame`, `Watch`). The model does not include:
  - the scheduling that re-runs the goal watcher only when its dependencies change,
    so "the failure cue fires once per transition" is not modelled;
  - the one-render lag of the state reference the frame handler reads.
- Numbers: coordinates are exact reals instead of IEEE doubles, and score, clock and
  level are unbounded integers instead of JavaScript numbers.
- Session.Game.SelectLevel: requires a level from 1 to 12, because the level menu
  offers only those (App.tsx:499-508). Other levels are not modelled.
