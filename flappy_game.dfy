/**
 * The game of script.js as the source holds it: global variables that the
 * frame callback and the input handlers update in place. Each method is
 * proved to move the state exactly as the matching function of module Flappy
 * says, and to keep the invariant Flappy.Inv.
 */
module FlappyGame {
  import opened Options
  import opened Flappy
  import FlappyProperties

  class Game {
    /** Canvas size and stored best score; fixed once the page is loaded. */
    const page: Page

    var gamePlaying: bool
    var currentScore: int
    var bestScore: int
    var flight: real
    var flyHeight: real
    var pipes: seq<Pipe>
    var startTime: Option<int>

    /** The global variables as one value. */
    function State(): GameState
      reads this
    {
      GameState(gamePlaying, currentScore, bestScore, flight, flyHeight, pipes, startTime)
    }

    ghost predicate Valid()
      reads this
    {
      Inv(State(), page)
    }

    /** Loading the script: the globals' initial values, then `setup()`. */
    constructor (width: nat, height: nat, storedBest: int, draws: seq<real>)
      requires |draws| == 3 && AllInUnit(draws)
      ensures Valid() && page == Page(width, height, storedBest)
      ensures !gamePlaying && startTime == None
      ensures currentScore == 0 && bestScore == storedBest
      ensures flight == JumpImpulse && flyHeight == Centre(page)
      ensures pipes == InitialPipes(draws, page)
    {
      page := Page(width, height, storedBest);
      gamePlaying := false;
      bestScore := 0;
      startTime := None;
      new;
      Setup(draws);
    }

    method Setup(draws: seq<real>)
      requires |draws| == 3 && AllInUnit(draws)
      modifies this
      ensures State() == Flappy.Setup(old(State()), draws, page)
      ensures Valid()
    {
      currentScore := 0;
      flight := JumpImpulse;
      flyHeight := Centre(page);
      pipes := InitialPipes(draws, page);
      bestScore := page.storedBest;
      FlappyProperties.SetupEstablishesInv(old(State()), draws, page);
    }

    /** Each pipe is moved in place; then, if the head has left the screen,
        the score is bumped and the queue rotated. */
    method UpdatePipes(r: real)
      requires Valid() && InUnit(r)
      modifies this
      ensures State() == Flappy.UpdatePipes(old(State()), r, page)
      ensures Valid()
    {
      var i := 0;
      while i < |pipes|
        modifies this`pipes
        invariant 0 <= i <= |pipes| == |old(pipes)|
        invariant forall k :: 0 <= k < i ==> pipes[k] == Moved(old(pipes)[k])
        invariant forall k :: i <= k < |pipes| ==> pipes[k] == old(pipes)[k]
      {
        pipes := pipes[i := Moved(pipes[i])];
        i := i + 1;
      }
      assert pipes == Shift(old(pipes));
      if pipes[0].x <= -PipeWidth {
        currentScore := currentScore + 1;
        bestScore := Max(bestScore, currentScore);
        pipes := pipes[1..] + [Pipe(pipes[|pipes| - 1].x + PipeGap + PipeWidth, PipeLoc(r, page))];
      }
      FlappyProperties.UpdatePipesKeepsInv(old(State()), r, page);
    }

    /** The physics of `drawBird`: gravity, clamped at the floor. */
    method DrawBird()
      requires Valid()
      modifies this
      ensures State() == Flappy.DrawBird(old(State()), page)
      ensures Valid()
    {
      if gamePlaying {
        flight := flight + Gravity;
        flyHeight := Min(flyHeight + flight, Floor(page));
      }
    }

    /** One animation frame; returns what was passed to `sendScore`, if anything. */
    method Render(f: Frame) returns (report: Option<ScoreReport>)
      requires Valid() && FrameOk(f)
      modifies this
      ensures (State(), report) == Flappy.Render(old(State()), page, f)
      ensures Valid()
    {
      report := None;
      if gamePlaying {
        if Falsy(startTime) {
          startTime := Some(f.now);
        }
        UpdatePipes(f.draw);
        if Collides(pipes, BirdX(page), flyHeight) {
          gamePlaying := false;
          var duration := Duration(f.now - startTime.value);
          report := Some(ScoreReport(currentScore, duration));
          startTime := None;
          Setup(f.resetDraws);
        }
      }
      DrawBird();
      if !gamePlaying {
        flyHeight := Centre(page);
      }
      FlappyProperties.RenderKeepsInv(old(State()), page, f);
    }

    method StartGame()
      requires Valid()
      modifies this
      ensures State() == Flappy.StartGame(old(State()))
      ensures Valid()
    {
      gamePlaying := true;
      startTime := None;
    }

    method Jump()
      requires Valid()
      modifies this
      ensures State() == Flappy.Jump(old(State()))
      ensures Valid()
    {
      flight := JumpImpulse;
    }
  }
}
