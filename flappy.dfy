/**
 * The rules of one animation frame of the game in script.js, over values:
 * the game settings, pipe placement, scrolling, collision, gravity and the
 * transition `render` makes. The class in flappy_game.dfy holds the same state
 * in mutable fields and is proved to follow these functions.
 *
 * JavaScript numbers are modelled as exact `real`s; the random draw of
 * `Math.random` is a caller-supplied value in [0, 1); the clock `Date.now` is a
 * caller-supplied number of milliseconds.
 */
module Flappy {
  import opened Options

  // GAME_SETTINGS. `birdXPosition` depends on the canvas: see BirdX.
  const Gravity: real := 0.5
  const Speed: real := 5.2
  const BirdWidth: real := 51.0
  const BirdHeight: real := 36.0
  const JumpImpulse: real := -8.0
  const PipeWidth: real := 78.0
  const PipeGap: real := 270.0

  /** Horizontal distance from one pipe to the next. */
  const Pitch: real := PipeGap + PipeWidth

  /** What the page supplies: the canvas size, and the score of the first
      entry that localStorage held when the page was loaded (0 if none). */
  datatype Page = Page(width: nat, height: nat, storedBest: int)

  /** A pipe pair: its left edge and the height at which its gap begins. */
  datatype Pipe = Pipe(x: real, top: real)

  /** What `sendScore` is called with when a run ends. */
  datatype ScoreReport = ScoreReport(score: int, duration: int)

  /** The game's global variables. */
  datatype GameState = GameState(
    playing: bool,
    currentScore: int,
    bestScore: int,
    flight: real,
    flyHeight: real,
    pipes: seq<Pipe>,
    startTime: Option<int>)

  /** The inputs of one call of `render`: the draw for a new pipe, the three
      draws `setup` uses if the run ends, and the clock. */
  datatype Frame = Frame(draw: real, resetDraws: seq<real>, now: int)

  function Max(a: int, b: int): int { if a < b then b else a }
  function Min(a: real, b: real): real { if b < a then b else a }

  /** `birdXPosition`: a tenth of the canvas width. */
  function BirdX(page: Page): real { page.width as real / 10.0 }

  /** The resting height of the bird while no game is being played. */
  function Centre(page: Page): real { page.height as real / 2.0 - BirdHeight / 2.0 }

  /** The lowest height the bird may reach. */
  function Floor(page: Page): real { page.height as real - BirdHeight }

  predicate InUnit(r: real) { 0.0 <= r < 1.0 }

  predicate AllInUnit(draws: seq<real>) {
    forall i :: 0 <= i < |draws| ==> InUnit(draws[i])
  }

  predicate FrameOk(f: Frame) {
    InUnit(f.draw) && |f.resetDraws| == 3 && AllInUnit(f.resetDraws)
  }

  /** Width of the interval `pipeLoc` scales its draw over. */
  function LocSpan(page: Page): real {
    page.height as real - (PipeGap + PipeWidth) - PipeWidth
  }

  /** The set of values `pipeLoc` can return: [PipeWidth, PipeWidth + span)
      when the span is positive, the single point PipeWidth when it is zero,
      and (PipeWidth + span, PipeWidth] on a canvas too short for the gap. */
  predicate TopInRange(top: real, page: Page) {
    var span := LocSpan(page);
    if span >= 0.0 then PipeWidth <= top && (top < PipeWidth + span || top == PipeWidth)
    else PipeWidth + span < top <= PipeWidth
  }

  /** `pipeLoc`, with `Math.random()` replaced by the draw `r`. */
  function PipeLoc(r: real, page: Page): (top: real)
    requires InUnit(r)
    ensures TopInRange(top, page)
  {
    ScaledDrawInRange(r, page);
    r * LocSpan(page) + PipeWidth
  }

  /** A draw in [0, 1) scaled by the span lands at or after its start and
      before its end (or on it, when the span is empty). */
  lemma ScaledDrawInRange(r: real, page: Page)
    requires InUnit(r)
    ensures TopInRange(r * LocSpan(page) + PipeWidth, page)
  {
    var span := LocSpan(page);
    if span > 0.0 {
      assert (1.0 - r) * span > 0.0;
    } else if span < 0.0 {
      assert (1.0 - r) * (-span) > 0.0;
      assert r * (-span) >= 0.0;
    }
  }

  /** The check `checkCollision` applies to one pipe. */
  predicate HitsPipe(p: Pipe, birdX: real, flyHeight: real) {
    && p.x <= birdX + BirdWidth
    && p.x + PipeWidth >= birdX
    && (p.top > flyHeight || p.top + PipeGap < flyHeight + BirdHeight)
  }

  /** `checkCollision`: the scan over the pipes, stopping at the first hit. */
  function Collides(pipes: seq<Pipe>, birdX: real, flyHeight: real): (hit: bool)
    ensures hit <==> exists i :: 0 <= i < |pipes| && HitsPipe(pipes[i], birdX, flyHeight)
  {
    if pipes == [] then false
    else if HitsPipe(pipes[0], birdX, flyHeight) then true
    else
      var rest := Collides(pipes[1..], birdX, flyHeight);
      assert forall i :: 1 <= i < |pipes| ==> pipes[i] == pipes[1..][i - 1];
      rest
  }

  /** `Math.round(ms / 1000)`: JavaScript rounds halves towards +infinity. */
  function Duration(ms: int): (seconds: int)
    ensures seconds as real - 0.5 <= ms as real / 1000.0 < seconds as real + 0.5
  {
    var q := (ms + 500) / 1000;
    assert 1000 * q <= ms + 500 < 1000 * q + 1000;
    q
  }

  /** JavaScript's `!startTime`: true for `null` and also for the time 0. */
  predicate Falsy(t: Option<int>) { t.None? || t.value == 0 }

  function Moved(p: Pipe): Pipe { p.(x := p.x - Speed) }

  /** Every pipe moved left by Speed: the `forEach` of `updatePipes`. */
  function Shift(pipes: seq<Pipe>): seq<Pipe> {
    seq(|pipes|, i requires 0 <= i < |pipes| => Moved(pipes[i]))
  }

  /** Drop the head pipe and append one a pitch beyond the old tail. */
  function Rotate(pipes: seq<Pipe>, r: real, page: Page): seq<Pipe>
    requires pipes != [] && InUnit(r)
  {
    pipes[1..] + [Pipe(pipes[|pipes| - 1].x + PipeGap + PipeWidth, PipeLoc(r, page))]
  }

  /** The pipe queue `setup` builds: three pipes a pitch apart from the right edge. */
  function InitialPipes(draws: seq<real>, page: Page): seq<Pipe>
    requires |draws| == 3 && AllInUnit(draws)
  {
    seq(3, i requires 0 <= i < 3 => Pipe(page.width as real + i as real * Pitch, PipeLoc(draws[i], page)))
  }

  /** `updatePipes`. The source reads `pipes[0]`, so it needs a pipe. */
  function UpdatePipes(s: GameState, r: real, page: Page): GameState
    requires s.pipes != [] && InUnit(r)
  {
    var moved := Shift(s.pipes);
    if moved[0].x <= -PipeWidth then
      s.(currentScore := s.currentScore + 1,
         bestScore := Max(s.bestScore, s.currentScore + 1),
         pipes := Rotate(moved, r, page))
    else
      s.(pipes := moved)
  }

  /** `setup`: the best score is read back from localStorage. */
  function Setup(s: GameState, draws: seq<real>, page: Page): GameState
    requires |draws| == 3 && AllInUnit(draws)
  {
    s.(currentScore := 0,
       flight := JumpImpulse,
       flyHeight := Centre(page),
       pipes := InitialPipes(draws, page),
       bestScore := page.storedBest)
  }

  /** The state-changing part of `drawBird`: gravity with a floor clamp. */
  function DrawBird(s: GameState, page: Page): GameState {
    if s.playing then
      var flight := s.flight + Gravity;
      s.(flight := flight, flyHeight := Min(s.flyHeight + flight, Floor(page)))
    else s
  }

  /** The `gamePlaying` branch of `render`. */
  function Play(s: GameState, page: Page, f: Frame): (GameState, Option<ScoreReport>)
    requires s.pipes != [] && FrameOk(f)
  {
    var start := if Falsy(s.startTime) then f.now else s.startTime.value;
    var scrolled := UpdatePipes(s.(startTime := Some(start)), f.draw, page);
    if Collides(scrolled.pipes, BirdX(page), scrolled.flyHeight) then
      (Setup(scrolled.(playing := false, startTime := None), f.resetDraws, page),
       Some(ScoreReport(scrolled.currentScore, Duration(f.now - start))))
    else
      (scrolled, None)
  }

  /** One call of `render`: the new state and the score reported, if any. */
  function Render(s: GameState, page: Page, f: Frame): (GameState, Option<ScoreReport>)
    requires s.pipes != [] && FrameOk(f)
  {
    var played := if s.playing then Play(s, page, f) else (s, None);
    var fallen := DrawBird(played.0, page);
    (if fallen.playing then fallen else fallen.(flyHeight := Centre(page)), played.1)
  }

  /** The click handler. */
  function StartGame(s: GameState): GameState {
    s.(playing := true, startTime := None)
  }

  /** The key handler. */
  function Jump(s: GameState): GameState {
    s.(flight := JumpImpulse)
  }

  /** The pipes are a pitch apart, in order: pipe j lies (j - i) pitches right of pipe i. */
  predicate Spaced(pipes: seq<Pipe>) {
    forall i, j :: 0 <= i < |pipes| && 0 <= j < |pipes| ==>
      pipes[j].x - pipes[i].x == (j - i) as real * Pitch
  }

  /** What holds of the game state between frames. */
  predicate Inv(s: GameState, page: Page) {
    && |s.pipes| == 3
    && Spaced(s.pipes)
    && s.pipes[0].x > -PipeWidth
    && (forall i :: 0 <= i < |s.pipes| ==> TopInRange(s.pipes[i].top, page))
    && s.currentScore >= 0
    // Guarded because the stored best may be any number, even a negative one,
    // and `setup` copies it into the best score while the score is 0.
    && (s.currentScore > 0 ==> s.bestScore >= s.currentScore)
    && s.bestScore >= page.storedBest
    // The bird is never below the floor, on a canvas at least a bird tall
    // (on a shorter one the centre already lies below the floor).
    && (page.height as real >= BirdHeight ==> s.flyHeight <= Floor(page))
  }
}
