/**
 * What the frame rules of module Flappy guarantee: the pipe queue keeps three
 * evenly spaced pipes, the score moves by at most one per frame, the best
 * score keeps up with it, gaps are placed where `pipeLoc` can place them, the
 * bird never sinks below the floor on a canvas at least a bird tall, and a
 * hit resets the run within the frame.
 */
module FlappyProperties {
  import opened Options
  import opened Flappy

  /** Three pipes are spaced exactly when each lies one pitch after the one before. */
  lemma SpacedThree(ps: seq<Pipe>)
    requires |ps| == 3
    ensures Spaced(ps) <==> ps[1].x == ps[0].x + Pitch && ps[2].x == ps[1].x + Pitch
  {
    if Spaced(ps) {
      assert ps[1].x - ps[0].x == (1 - 0) as real * Pitch;
      assert ps[2].x - ps[1].x == (2 - 1) as real * Pitch;
    }
    if ps[1].x == ps[0].x + Pitch && ps[2].x == ps[1].x + Pitch {
      forall i, j | 0 <= i < |ps| && 0 <= j < |ps|
        ensures ps[j].x - ps[i].x == (j - i) as real * Pitch
      {
        assert i == 0 || i == 1 || i == 2;
        assert j == 0 || j == 1 || j == 2;
      }
    }
  }

  /** Under the invariant the queue is strictly ascending by x. */
  lemma PipesAscending(s: GameState, page: Page)
    requires Inv(s, page)
    ensures forall i, j :: 0 <= i < j < |s.pipes| ==> s.pipes[i].x < s.pipes[j].x
  {
    SpacedThree(s.pipes);
  }

  /** `setup` builds a queue that satisfies the invariant: the first pipe at
      the right edge, the score 0, the best score read from storage, the bird
      centred with the jump impulse, and nothing else changed. */
  lemma SetupEstablishesInv(s: GameState, draws: seq<real>, page: Page)
    requires |draws| == 3 && AllInUnit(draws)
    ensures Inv(Setup(s, draws, page), page)
    ensures var t := Setup(s, draws, page);
      && t.currentScore == 0 && t.bestScore == page.storedBest
      && t.pipes[0].x == page.width as real
      && t.flight == JumpImpulse && t.flyHeight == Centre(page)
      && t.playing == s.playing && t.startTime == s.startTime
  {
    var ps := InitialPipes(draws, page);
    SpacedThree(ps);
  }

  /** `updatePipes` keeps the invariant: three pipes, a pitch apart, the head
      still on screen, every gap where `pipeLoc` puts gaps, and the scores. */
  lemma UpdatePipesKeepsInv(s: GameState, r: real, page: Page)
    requires Inv(s, page) && InUnit(r)
    ensures Inv(UpdatePipes(s, r, page), page)
  {
    var moved := Shift(s.pipes);
    SpacedThree(s.pipes);
    SpacedThree(moved);
    var t := UpdatePipes(s, r, page);
    SpacedThree(t.pipes);
  }

  /** One `updatePipes` scrolls every pipe by Speed and rotates out at most
      one pipe: exactly when the scrolled head is at or past -PipeWidth. The
      score then rises by exactly one and the best score becomes the larger of
      the old best and the new score; otherwise neither changes. */
  lemma UpdatePipesScoring(s: GameState, r: real, page: Page)
    requires Inv(s, page) && InUnit(r)
    ensures var t := UpdatePipes(s, r, page);
      var passed := s.pipes[0].x - Speed <= -PipeWidth;
      && |t.pipes| == 3
      && (passed ==>
           && t.currentScore == s.currentScore + 1
           && t.bestScore == Max(s.bestScore, t.currentScore)
           && t.pipes[0] == Moved(s.pipes[1]) && t.pipes[1] == Moved(s.pipes[2])
           && t.pipes[2] == Pipe(s.pipes[2].x - Speed + Pitch, PipeLoc(r, page)))
      && (!passed ==>
           && t.currentScore == s.currentScore
           && t.bestScore == s.bestScore
           && t.pipes == [Moved(s.pipes[0]), Moved(s.pipes[1]), Moved(s.pipes[2])])
      && t.bestScore >= s.bestScore
      && t.currentScore >= 0
      && (t.currentScore > 0 ==> t.bestScore >= t.currentScore)
      && t.playing == s.playing && t.flight == s.flight && t.flyHeight == s.flyHeight
      && t.startTime == s.startTime
  {
    UpdatePipesKeepsInv(s, r, page);
  }

  /** On a canvas tall enough for a gap with a pipe width of margin above and
      below, every gap top lies in [PipeWidth, height - PipeGap - PipeWidth). */
  lemma GapTopsInPlayableBand(s: GameState, page: Page)
    requires Inv(s, page) && LocSpan(page) > 0.0
    ensures forall i :: 0 <= i < |s.pipes| ==>
      PipeWidth <= s.pipes[i].top < page.height as real - PipeGap - PipeWidth
  {
  }

  /** Conversely, every value of the band is `pipeLoc` of some draw. */
  lemma PipeLocCoversRange(top: real, page: Page)
    requires TopInRange(top, page)
    ensures exists r :: InUnit(r) && PipeLoc(r, page) == top
  {
    var span := LocSpan(page);
    if span == 0.0 {
      assert PipeLoc(0.0, page) == top;
    } else {
      var r := (top - PipeWidth) / span;
      QuotientInUnit(top - PipeWidth, span);
      assert PipeLoc(r, page) == top;
    }
  }

  /** The draw that `pipeLoc` scales to a given offset lies in [0, 1). */
  lemma QuotientInUnit(a: real, span: real)
    requires (span > 0.0 && 0.0 <= a < span) || (span < 0.0 && span < a <= 0.0)
    ensures InUnit(a / span) && a / span * span == a
  {
    var r := a / span;
    assert r * span == a;
    var rest := 1.0 - r;
    assert rest * span == span - a;
    if span > 0.0 {
      QuotientSign(a, span);
      assert rest == (span - a) / span;
      QuotientSign(span - a, span);
    } else {
      assert r == (-a) / (-span);
      QuotientSign(-a, -span);
      assert rest == (a - span) / (-span);
      QuotientSign(a - span, -span);
    }
  }

  lemma QuotientSign(x: real, y: real)
    requires x >= 0.0 && y > 0.0
    ensures x / y >= 0.0 && (x > 0.0 ==> x / y > 0.0)
  {
    assert x / y * y == x;
  }

  /** Beside a pipe the bird is safe exactly while it is inside the gap,
      both edges included: y == top and y == top + PipeGap - BirdHeight are safe. */
  lemma GapBandIsSafe(p: Pipe, birdX: real, flyHeight: real)
    requires p.x <= birdX + BirdWidth && p.x + PipeWidth >= birdX
    ensures !HitsPipe(p, birdX, flyHeight) <==>
      p.top <= flyHeight <= p.top + PipeGap - BirdHeight
    ensures HitsPipe(p, birdX, p.top - 1.0)
    ensures !HitsPipe(p, birdX, p.top)
  {
  }

  /** A pipe that does not overlap the bird horizontally never hits it. */
  lemma ApartPipeIsSafe(p: Pipe, birdX: real, flyHeight: real)
    requires p.x > birdX + BirdWidth || p.x + PipeWidth < birdX
    ensures !HitsPipe(p, birdX, flyHeight)
  {
  }

  /** The collision test `render` makes in frame f, after the scroll. */
  predicate HitInFrame(s: GameState, page: Page, f: Frame)
    requires s.pipes != [] && FrameOk(f)
  {
    Collides(UpdatePipes(s, f.draw, page).pipes, BirdX(page), s.flyHeight)
  }

  /** `render` keeps the invariant, whatever the frame brings. */
  lemma RenderKeepsInv(s: GameState, page: Page, f: Frame)
    requires Inv(s, page) && FrameOk(f)
    ensures Inv(Render(s, page, f).0, page)
  {
    if s.playing {
      var start := if Falsy(s.startTime) then f.now else s.startTime.value;
      var started := s.(startTime := Some(start));
      UpdatePipesKeepsInv(started, f.draw, page);
      SetupEstablishesInv(UpdatePipes(started, f.draw, page).(playing := false, startTime := None), f.resetDraws, page);
    }
  }

  /** A playing frame without a hit: still playing, the clock started, the
      pipes scrolled, gravity added to the velocity and the bird moved by it,
      but never below the floor; nothing is reported. */
  lemma RenderWhilePlaying(s: GameState, page: Page, f: Frame)
    requires Inv(s, page) && FrameOk(f)
    requires s.playing && !HitInFrame(s, page, f)
    ensures var (t, report) := Render(s, page, f);
      var scrolled := UpdatePipes(s, f.draw, page);
      && report == None
      && t.playing
      && t.startTime == Some(if Falsy(s.startTime) then f.now else s.startTime.value)
      && t.pipes == scrolled.pipes
      && t.currentScore == scrolled.currentScore && t.bestScore == scrolled.bestScore
      && t.flight == s.flight + Gravity
      && t.flyHeight == Min(s.flyHeight + t.flight, Floor(page))
      && t.flyHeight <= Floor(page)
  {
  }

  /** A playing frame with a hit ends the run in the same frame: the game
      stops, the score returns to 0, the clock is cleared, a fresh queue is
      built, the velocity is the jump impulse, the bird is re-centred, the best
      score falls back to the stored one, and the score reached is reported
      with the rounded number of seconds since the run started. */
  lemma RenderOnHit(s: GameState, page: Page, f: Frame)
    requires Inv(s, page) && FrameOk(f)
    requires s.playing && HitInFrame(s, page, f)
    ensures var (t, report) := Render(s, page, f);
      var start := if Falsy(s.startTime) then f.now else s.startTime.value;
      && t == GameState(false, 0, page.storedBest, JumpImpulse, Centre(page),
                        InitialPipes(f.resetDraws, page), None)
      && report == Some(ScoreReport(UpdatePipes(s, f.draw, page).currentScore, Duration(f.now - start)))
  {
  }

  /** An idle frame only re-centres the bird: velocity, pipes and scores stay. */
  lemma RenderWhileIdle(s: GameState, page: Page, f: Frame)
    requires s.pipes != [] && FrameOk(f)
    requires !s.playing
    ensures Render(s, page, f) == (s.(flyHeight := Centre(page)), None)
  {
  }

  /** A click starts a run with the clock cleared; nothing else changes, and
      the invariant is kept. */
  lemma StartGameKeepsInv(s: GameState, page: Page)
    requires Inv(s, page)
    ensures var t := StartGame(s);
      && Inv(t, page)
      && t == s.(playing := true, startTime := None)
  {
  }

  /** A key press sets the velocity to the jump impulse, whether or not a run
      is on; nothing else changes, and the invariant is kept. */
  lemma JumpKeepsInv(s: GameState, page: Page)
    requires Inv(s, page)
    ensures var t := Jump(s);
      && Inv(t, page)
      && t == s.(flight := JumpImpulse)
  {
  }

  predicate FramesOk(frames: seq<Frame>) {
    forall i :: 0 <= i < |frames| ==> FrameOk(frames[i])
  }

  /** The state after rendering the frames in turn. */
  ghost function Run(s: GameState, page: Page, frames: seq<Frame>): GameState
    requires Inv(s, page) && FramesOk(frames)
    decreases |frames|
  {
    if frames == [] then s
    else
      RenderKeepsInv(s, page, frames[0]);
      Run(Render(s, page, frames[0]).0, page, frames[1..])
  }

  /** Every frame is rendered while playing and none of them ends the run. */
  ghost predicate Quiet(s: GameState, page: Page, frames: seq<Frame>)
    requires Inv(s, page) && FramesOk(frames)
    decreases |frames|
  {
    frames == [] ||
    (s.playing && !HitInFrame(s, page, frames[0]) &&
     (RenderKeepsInv(s, page, frames[0]);
      Quiet(Render(s, page, frames[0]).0, page, frames[1..])))
  }

  /** Over frames that do not end the run, each frame adds Gravity to the
      velocity; the score and the best score never go down, and the bird stays
      above the floor. */
  lemma {:induction false} QuietRunFalls(s: GameState, page: Page, frames: seq<Frame>)
    requires Inv(s, page) && FramesOk(frames) && Quiet(s, page, frames)
    ensures var t := Run(s, page, frames);
      && t.flight == s.flight + |frames| as real * Gravity
      && t.currentScore >= s.currentScore
      && t.bestScore >= s.bestScore
      && (frames != [] ==> t.playing && t.flyHeight <= Floor(page))
    decreases |frames|
  {
    if frames != [] {
      var f := frames[0];
      RenderWhilePlaying(s, page, f);
      UpdatePipesScoring(s, f.draw, page);
      RenderKeepsInv(s, page, f);
      var next := Render(s, page, f).0;
      QuietRunFalls(next, page, frames[1..]);
      assert Run(s, page, frames) == Run(next, page, frames[1..]);
      assert (|frames| - 1) as real * Gravity + Gravity == |frames| as real * Gravity;
    }
  }

  /** With gravity 0.5 and jump impulse -8, a jump followed by five frames
      that do not end the run leaves the velocity at -5.5. */
  lemma JumpThenFiveFrames(s: GameState, page: Page, frames: seq<Frame>)
    requires Inv(s, page) && |frames| == 5 && FramesOk(frames)
    requires Quiet(Jump(s), page, frames)
    ensures Run(Jump(s), page, frames).flight == -5.5
  {
    QuietRunFalls(Jump(s), page, frames);
  }

  /** A hit at score 3, 4500 ms after the run started, reports score 3 and
      5 seconds, and the score is 0 after that same frame. */
  lemma HitReportScenario(s: GameState, page: Page, f: Frame)
    requires Inv(s, page) && FrameOk(f)
    requires s.playing && s.currentScore == 3
    requires s.startTime == Some(f.now - 4500) && f.now != 4500
    requires s.pipes[0].x - Speed > -PipeWidth
    requires HitInFrame(s, page, f)
    ensures Render(s, page, f).1 == Some(ScoreReport(3, 5))
    ensures Render(s, page, f).0.currentScore == 0
  {
    RenderOnHit(s, page, f);
  }
}
