# flappySnitch: the frame loop and the score endpoint, in Dafny

flappySnitch is a Flappy-Bird clone in the browser (`script.js`) with one PHP
endpoint that stores finished runs in a MySQL table (`save_score.php`). This
project models and proves two parts of it.

- **The game tick.** In every animation frame while a game is on, `render`
  scrolls a queue of three pipe pairs. When the head pipe leaves the screen, `render` drops it, appends
  a new pipe one pitch (`pipeGap + pipeWidth`) beyond the tail, bumps the score
  and raises the best score. It then tests the bird against the pipes. On a hit
  it ends the run within the same frame: it reports the score and the run's
  duration, and calls `setup` again. Otherwise it applies gravity, clamped at
  the floor. While no game is on, the bird is held at the centre. A click
  starts a game; a key press sets the velocity to the jump impulse.
  - `flappy.dfy` (module `Flappy`) holds these rules as functions over a
    `GameState` value.
  - `flappy_game.dfy` (module `FlappyGame`) holds the same state the way the
    script does: in fields of a `Game` class, updated in place by methods.
    Each method is proved to move the state exactly as the matching function
    says; every method but the constructor is also proved to keep the
    invariant `Flappy.Inv`, and the constructor establishes it.
  - `flappy_properties.dfy` (module `FlappyProperties`) proves what the rules
    guarantee:
    - three pipes, exactly a pitch apart and so strictly ascending;
    - at most one pipe rotated out, and the score bumped by one, per frame;
    - the best score at or above the score once a point is scored;
    - gap tops where `pipeLoc` can put them, and every such value reachable;
    - the bird never below the floor, on any canvas at least a bird tall;
    - a hit resets the run.
- **The score endpoint.** `save_score.dfy` (module `SaveScore`) models the PHP
  script as a single function. Its inputs are:
  - the request method and the decoded body;
  - an `is_numeric` predicate;
  - whether the database connection and the insert succeed;
  - the current table.

  It returns the status, the message, whether an insert was attempted, and
  the new table.

Numbers are exact `real`s, not IEEE doubles. `Math.random()` is replaced by a
draw in [0, 1) that the caller supplies. `Date.now()` is a millisecond count,
also from the caller. The canvas size is a parameter (`Flappy.Page`), because
the page's HTML, not the script, fixes it. So is the best score that
localStorage holds when the page loads.

Behaviour of the code that the model keeps and a reader may not expect:

- `setup` reloads the best score from localStorage, and it runs on every hit.
  Nothing writes localStorage any more, because the `addScore` call is
  commented out. So at each game over the best score falls back to the stored
  value (`FlappyProperties.RenderOnHit`). It never decreases *within* a run
  (`FlappyProperties.QuietRunFalls`).
- `if (!startTime)` also treats a start time of 0 as unset (`Flappy.Falsy`).
- Gravity keeps adding to the velocity while the bird rests on the floor. Only
  the height is clamped, not the velocity.
- Clicking during a run clears the start time, so the reported duration counts
  from the next frame.

## Model

| member | source | states |
|---|---|---|
| `Flappy.PipeLoc` | script.js:86 | the gap top lies in the range a draw in [0, 1) can reach: [pipeWidth, height − pipeGap − pipeWidth) on a tall enough canvas, the reversed half-open range on a short one |
| `Flappy.Collides` | script.js:112-123 | the scan reports a hit exactly when some pipe overlaps the bird horizontally (bounds inclusive) and the bird is above the gap top or its bottom is below the gap bottom |
| `Flappy.Duration` | script.js:163 | the duration is `Math.round(ms / 1000)`: the integer d with d − ½ ≤ ms/1000 < d + ½ (halves round up) |
| `Flappy.UpdatePipes` | script.js:99-110 | no contract of its own; its properties are `FlappyProperties.UpdatePipesKeepsInv` and `FlappyProperties.UpdatePipesScoring` |
| `Flappy.Setup` | script.js:138-146 | no contract of its own; its properties are `FlappyProperties.SetupEstablishesInv` |
| `Flappy.DrawBird` | script.js:130-133 | no contract of its own; its properties are `FlappyProperties.RenderWhilePlaying` and `FlappyProperties.QuietRunFalls` |
| `Flappy.Play` | script.js:153-171 | no contract of its own; its properties are `FlappyProperties.RenderWhilePlaying`, `FlappyProperties.RenderOnHit` and `FlappyProperties.HitReportScenario` |
| `Flappy.Render` | script.js:148-185 | no contract of its own; its properties are `FlappyProperties.RenderKeepsInv`, `FlappyProperties.RenderWhilePlaying`, `FlappyProperties.RenderOnHit` and `FlappyProperties.RenderWhileIdle` |
| `Flappy.StartGame` | script.js:189-192 | no contract of its own; its properties are `FlappyProperties.StartGameKeepsInv` |
| `Flappy.Jump` | script.js:194-196 | no contract of its own; its properties are `FlappyProperties.JumpKeepsInv` and `FlappyProperties.JumpThenFiveFrames` |
| `FlappyProperties.PipesAscending` | script.js:142 | under the invariant the three pipes are strictly ascending by x |
| `FlappyProperties.SetupEstablishesInv` | script.js:138-146 | `setup` establishes the invariant and builds three pipes a pitch apart, the first at the right edge, with gap tops in range; the score becomes 0, the best score the stored one, the velocity the jump impulse and the bird centred; playing and the start time are untouched |
| `FlappyProperties.UpdatePipesKeepsInv` | script.js:99-110 | after `updatePipes` there are still exactly three pipes, exactly a pitch apart, the head still right of −pipeWidth (so no pipe is counted twice), every gap top in range, score ≥ 0 and best ≥ score when score > 0, best ≥ stored best, the bird at or above the floor on a canvas at least a bird tall |
| `FlappyProperties.UpdatePipesScoring` | script.js:99-110 | every pipe moves left by speed; exactly when the moved head is at or past −pipeWidth the head is dropped, a pipe is appended one pitch past the old tail, the score rises by exactly 1 and best becomes max(old best, score); otherwise score and best are unchanged; best never decreases |
| `FlappyProperties.GapTopsInPlayableBand` | script.js:86 | on a canvas taller than pipeGap + 2·pipeWidth every gap top lies in [pipeWidth, height − pipeGap − pipeWidth) |
| `FlappyProperties.PipeLocCoversRange` | script.js:86 | every gap top in the range is `pipeLoc` of some draw in [0, 1), so the range is exactly what `pipeLoc` produces |
| `FlappyProperties.GapBandIsSafe` | script.js:114-118 | beside a pipe, the bird is safe exactly when top ≤ flyHeight ≤ top + pipeGap − birdHeight; flyHeight == top is safe, top − 1 is a hit |
| `FlappyProperties.ApartPipeIsSafe` | script.js:115-116 | a pipe that does not overlap the bird horizontally never hits it |
| `FlappyProperties.RenderKeepsInv` | script.js:148-185 | every frame, playing or idle, hit or not, keeps the invariant, so the bird is never below the floor on a canvas at least a bird tall (an idle or reset bird sits at the centre) |
| `FlappyProperties.RenderWhilePlaying` | script.js:153-173 | a playing frame without a hit keeps playing, starts the clock if it was unset, scrolls the pipes, adds gravity to the velocity, moves the bird to min(flyHeight + new velocity, floor) and reports nothing |
| `FlappyProperties.RenderOnHit` | script.js:160-167 | a hit ends the run in the same frame: not playing, score 0, start time cleared, a fresh queue, velocity = jump impulse, bird centred, best = stored best, and the reached score is reported with the rounded duration |
| `FlappyProperties.RenderWhileIdle` | script.js:173-176 | an idle frame only re-centres the bird; velocity, pipes and scores are untouched and nothing is reported |
| `FlappyProperties.StartGameKeepsInv` | script.js:189-192 | a click starts a game with the start time cleared, changes nothing else, and keeps the invariant |
| `FlappyProperties.JumpKeepsInv` | script.js:194-196 | a key press sets the velocity to the jump impulse whether playing or not, changes nothing else, and keeps the invariant |
| `FlappyProperties.QuietRunFalls` | script.js:130-133 | over n playing frames with no hit the velocity grows by exactly n·gravity, score and best never decrease, and the bird ends above the floor |
| `FlappyProperties.JumpThenFiveFrames` | script.js:194-196 | a jump followed by five playing frames with no hit leaves velocity −8 + 5·0.5 = −5.5 |
| `FlappyProperties.HitReportScenario` | script.js:160-166 | a hit at score 3, 4500 ms into the run, reports score 3 and duration 5, and the score is 0 after that frame |
| `FlappyGame.Game.constructor` | script.js:17-24 | loading the script: not playing, no start time, then the state `setup` builds; the invariant holds |
| `FlappyGame.Game.Setup` | script.js:138-146 | the fields become those of `Flappy.Setup`, and the invariant holds |
| `FlappyGame.Game.UpdatePipes` | script.js:99-110 | the in-place scroll loop and the rotation leave the fields equal to `Flappy.UpdatePipes` of the old state; the invariant is kept |
| `FlappyGame.Game.DrawBird` | script.js:130-133 | gravity and the floor clamp update the fields as `Flappy.DrawBird` says; the invariant is kept |
| `FlappyGame.Game.Render` | script.js:148-185 | one frame updates the fields and returns the report exactly as `Flappy.Render`; the invariant is kept |
| `FlappyGame.Game.StartGame` | script.js:189-192 | playing becomes true and the start time is cleared; nothing else changes |
| `FlappyGame.Game.Jump` | script.js:194-196 | the velocity becomes the jump impulse; nothing else changes |
| `SaveScore.HandleSaveScore` | save_score.php:9-59 | non-POST ⇔ 405; POST with a missing/null/non-numeric score, missing timestamp or missing/null/non-numeric duration ⇔ 400; an insert is attempted ⇔ POST, valid data and a connection; 500 ⇔ valid POST whose connection or insert fails; 200 ⇔ the attempted insert succeeds, and exactly then one row is appended |
| `SaveScore.TimestampContentIgnored` | save_score.php:17-18 | only the presence of the timestamp is checked, never its content |
| `SaveScore.NoDeduplication` | save_score.php:51-59 | the same valid request saved twice appends two equal rows |
| `SaveScore.NonNumericScoreRejected` | save_score.php:17-21 | a non-numeric score gets 400 "Invalid data" and no insert, whatever the database would do |

## Left out

- Drawing: the background, pipes, bird sprite and frame index, text and DOM
  `textContent` updates (script.js:88-97, 125-128, 149, 170, 177-181). They
  change no game state.
- Scheduling: `requestAnimationFrame` and the `click`/`keydown` listeners. A
  frame is one call of `Render`; an input is one call of `StartGame` or `Jump`.
- `sendScore`: the `fetch` call, the response check and the console logging
  are network I/O. The model keeps only the (score, duration) pair the frame
  hands to it (`Flappy.ScoreReport`). The ISO timestamp it adds from the clock
  is not modelled.
- localStorage: `loadScores` and `saveScores` are browser storage. The
  stored best score is a constant of `Flappy.Page`, since nothing in the code
  that runs writes it. `addScore` is never called.
- Clock: `render` reads `Date.now()` twice in a frame; the model uses one
  millisecond value per frame (`Frame.now`) for both.
- Floating point: positions and velocities are exact reals. The rounding of
  repeated `- 5.2` steps in doubles is not modelled.
- `Flappy.UpdatePipes` and the `Game` methods require a non-empty pipe queue or
  the invariant. The script never checks this; it would throw on an empty
  queue, which its own `setup` never produces.
- PHP runtime: `header()` calls, reading `php://input`, `config.php` and
  its credential choice, `mysqli` itself, and `close()`. A body that
  `json_decode` does not turn into an array is an absent body.
- `is_numeric` is a predicate supplied by the caller; its lexical rules are
  not modelled.
- A failing `prepare` (a fatal error in PHP) is not modelled.
- The connect and insert failures follow the silent `mysqli` error mode the
  script is written for. Under the throwing mode (the default from PHP 8.1)
  an uncaught exception gives the 500 instead, without the JSON message.
- `bind_param`'s conversion of score and duration to integers is not
  modelled: a row keeps the request's values.
- SaveScore.HandleSaveScore: the 500 messages carry no error text
  (`connect_error`, `$stmt->error` are database output).
