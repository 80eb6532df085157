# Falling Stars — a verified model of the game state update

This project models the game logic of a browser mini-game. Arrow keys move a basket
along the bottom of a canvas. The basket catches stars that fall for 60 seconds, and a
high score is kept in the browser's local storage. The model covers the one mutable
game state and every step that changes it:

- basket movement;
- the per-frame pass over the stars (advance, catch, fall off the bottom);
- spawning;
- the difficulty schedule;
- the one-second countdown;
- the end of a game with its high-score decision;
- the start of a new game;
- the guards at the top of the frame loop and the timer loop.

Layout:

- `entities.dfy` (module `Entities`): the `Star` and `Basket` values, the star factory
  `CreateStar`, and the catch test `Catches`.
- `simulation.dfy` (module `Simulation`): the frame rules as functions of the state they
  read (`MoveBasket`, `FateOf`/`Survivors`/`CaughtCount`, `Spawned`, `Difficulty`), and
  the lemmas about them.
- `controller.dfy` (module `Controller`): the class `GameState`, whose fields are the
  game's state. Its methods change those fields in place. Each method is proved
  against the functions above and keeps the invariant `Valid()`. The module also holds
  `PassStars`, the splice loop of the star pass, which `GameState.UpdateStars` runs on
  the star array before writing the result back; the pure high-score decision
  `Conclude`; and one whole-game run, `PlayQuietGame`.

Modelling choices:

- Positions, speeds and the baseline speed are `real`. The game only adds and compares them.
- The canvas width and height are constructor parameters. They come from the page's markup.
- The held keys and the three random draws of a frame are passed in as a `FrameInput`.
- The stored high score is passed in as `Option<int>`, where `None` means no entry.
  The store's entry after a game is returned in the `GameOver` report.

A note on the clock: `startGame` (script.js:207-208) runs the first frame and the first
timer step at once, before the one-second rhythm of `timerLoop` (script.js:183-189)
begins. So the clock reads 59 as soon as a game starts, and 15 further ticks leave 44
seconds, not 45. `GameState.StartGame` states this.

## Model

| member | source | states |
|---|---|---|
| `Entities.CreateStar` | script.js:36-43 | a new star starts at y = -20 with size 15; for draws in [0,1) its x is in [10, W-10) and its speed in [starSpeed, starSpeed+2) |
| `Entities.Catches` | script.js:107-110 | the overlap test never fires for a star entirely left or right of the basket, whatever its y, and always fires for a star inside the basket's rectangle |
| `Simulation.MoveBasket` | script.js:88-98 | basket x changes by -5, 0 or +5; y, width and height are unchanged; with no key held nothing changes |
| `Simulation.BasketStaysInRange` | script.js:88-98 | on a canvas whose W-50 is a multiple of 5, a basket on the 5 px grid in [0, W-50] stays on the grid and in range, whatever keys are held |
| `Simulation.FateCases` | script.js:103-120 | each star meets exactly one fate per frame: caught iff its advanced self overlaps the basket; fallen iff not caught and below H+20; otherwise kept, with y increased by its speed and x, size and speed unchanged |
| `Simulation.PassPartition` | script.js:101-122 | in one star pass, every star is exactly one of caught, fallen off or kept: the three counts add up to the number of stars, so no star is removed twice |
| `Simulation.SurvivorsOnScreen` | script.js:117-120 | after a pass every remaining star has y <= H+20 |
| `Simulation.SurvivorsInOrder` | script.js:101-122 | the kept stars are taken from increasing input positions, so their relative order is kept; every star that is neither caught nor off screen is kept; each kept star has y increased by its speed, with x, size and speed unchanged, and is not caught |
| `Simulation.NoneCaughtBeside` | script.js:107-110 | a pass over stars that are all beside the basket catches none of them |
| `Simulation.Spawned` | script.js:125-129 | spawning appends at most one star, at the end, and exactly when the spawn draw is below 0.03; the existing stars are unchanged and the new star is `CreateStar`'s |
| `Simulation.Difficulty` | script.js:132-138 | the baseline speed never decreases; it rises by exactly 0.5, recording the elapsed time as the last bump, iff elapsed = 60 - timeLeft is positive, a multiple of 15 and not the last bump; otherwise nothing changes |
| `Simulation.DifficultyIdempotent` | script.js:132-138 | a second difficulty step with the same time left changes nothing |
| `Simulation.BumpsAtBoundaries` | script.js:133-134 | while 0 < timeLeft <= 60, a bump happens only at 15, 30 or 45 elapsed seconds |
| `Controller.LoadHighScore` | script.js:22-27 | an absent entry reads as high score 0; a present entry reads as its stored value |
| `Controller.Conclude` | script.js:212-227 | a new high score is flagged iff the score is greater than the stored one (absent counts as 0); only then is the score written; the stored high score afterwards is the larger of the old one and the score |
| `Controller.GameState.constructor` | script.js:2-10 | the state at page load: score 0, 60 s left, not running, no stars, basket at (375, 550) and 50x30, speed 2, last bump 0 |
| `Controller.GameState.RunningSpeedBound` | script.js:132-138 | in a running game the baseline speed is between 2 and 3.5 |
| `Controller.GameState.UpdateBasket` | script.js:88-98 | the basket becomes `MoveBasket` of the old basket; only the basket field changes; the invariant, including the basket's range, is kept |
| `Controller.PassStars` | script.js:101-122 | the reverse-index splice loop over the star array leaves exactly `Survivors` of its input, so the stars keep their order and none is skipped or revisited; it counts exactly `CaughtCount` catches |
| `Controller.GameState.UpdateStars` | script.js:101-122 | the stars become `Survivors` of the old stars, over the current basket; the score rises by exactly `CaughtCount`, so it never decreases; only stars and score change |
| `Controller.GameState.SpawnStars` | script.js:125-129 | the stars become `Spawned` of the old stars; nothing else changes |
| `Controller.GameState.UpdateDifficulty` | script.js:132-138 | the baseline speed and last bump become `Difficulty` of their old values; the invariant that the speed is 2 plus 0.5 per bump at distinct 15 s boundaries is kept |
| `Controller.GameState.GameLoop` | script.js:171-181 | a stopped game is left unchanged; a running frame applies basket, stars, spawn and difficulty in that order, each seeing the previous step's result; the clock and the running flag are untouched |
| `Controller.GameState.EndGame` | script.js:212-227 | the game stops and the report is `Conclude` of the score and the stored entry |
| `Controller.GameState.UpdateTimer` | script.js:159-168 | the time left becomes max(0, old - 1); the game ends, with the `Conclude` report, exactly when the clock goes from 1 to 0 |
| `Controller.GameState.TimerLoop` | script.js:184-189 | a stopped game is left unchanged; a running game loses one second and ends exactly on the tick from 1 to 0 |
| `Controller.GameState.Reset` | script.js:193-201 | whatever came before: score 0, 60 s left, running, no stars, basket at its start, speed 2, last bump 0 |
| `Controller.GameState.StartGame` | script.js:192-209 | after the reset and the immediate first frame and tick: running, 59 s left, score 0, speed 2, the basket moved once from its start, and at most one star |
| `Controller.GameState.StartOnKeyPress` | script.js:240-245 | a key press starts a game only when none is running, and then leaves the same state as `StartGame` (running, 59 s left, score 0, basket moved once from its start, at most one star, speed 2, last bump 0); otherwise nothing changes |
| `Controller.PlayQuietGame` | script.js:159-209 | a whole game with no keys held, no spawns and one frame per second ends exactly once, reports the high-score decision for score 0, and leaves the baseline speed at 3.5 (three bumps) |

## Left out

- Rendering (`drawStar`, `drawBasket`, `render`, script.js:46-85 and 141-156): canvas drawing only; no state changes.
- Text and panel updates on the page (score, time, high score, final score, the game-over and new-high-score panels): output plumbing. `GameOver.newHighScore` is the flag that decides the banner.
- Local storage and `parseInt` (script.js:22-33): the entry is an `Option<int>`. A malformed string, which would read as NaN, is not modelled.
- `Math.random`: its draws are parameters. The ranges in `CreateStar` are stated for draws in [0, 1). Their distribution is not modelled.
- Scheduling (`requestAnimationFrame`, `setTimeout`) and how the two loops interleave: each loop body is one atomic step, and `PlayQuietGame` fixes one interleaving. So the model does not cover a timer step already queued when a game ends that runs after a quick restart. Such a step would start a second countdown chain.
- Key listeners and the self-removing start listener (script.js:17-19, 235-245): the held keys are booleans in `FrameInput`. `StartOnKeyPress` models only the "start when not running" guard, not the listener's removal.
- `startGame` replaces the `gameState` object by a new one. `Reset` assigns every field of the one `GameState` object. Nothing else refers to the old state, so the two agree.
- `restartGame` (script.js:230-232) only calls `startGame`, so `StartGame` models it too.
- `UpdateStars`: the splice loop works on a copy of the star array that is written back once at the end, not on the field itself. Nothing else reads the array during the pass, so the result is the same.
- IEEE-754 rounding of positions and speeds: the model uses exact reals.
