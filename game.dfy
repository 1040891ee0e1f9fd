/** The game orchestrator: the state fields of the top-level game component
    and the handlers that update them. One timer tick, one animation frame or
    one keyboard event is one method call. */
module GameComponent {
  import opened GameRules

  class Game {
    var phase: Phase
    var countdown: int
    var level: int
    var score: int
    var carX: int
    var carY: int
    var keys: Keys

    /** The level stays in 1..3, the countdown in 1..3, the score is never
        negative and the car never leaves the road strip nor its row. */
    ghost predicate Valid()
      reads this
    {
      && 1 <= level <= 3
      && 1 <= countdown <= CountdownStart
      && 0 <= score
      && InBounds(carX)
      && carY == StartY
    }

    constructor ()
      ensures Valid()
      ensures phase == Initial && countdown == CountdownStart && level == 1 && score == 0
      ensures carX == StartX && carY == StartY && keys == NoKeys
    {
      phase := Initial;
      countdown := CountdownStart;
      level := 1;
      score := 0;
      carX, carY := StartX, StartY;
      keys := NoKeys;
    }

    /** The window keydown listener; it is active in every phase. */
    method KeyDown(key: string)
      requires Valid()
      modifies this`keys
      ensures Valid()
      ensures keys == PressKey(old(keys), key)
    {
      keys := PressKey(keys, key);
    }

    /** The window keyup listener. */
    method KeyUp(key: string)
      requires Valid()
      modifies this`keys
      ensures Valid()
      ensures keys == ReleaseKey(old(keys), key)
    {
      keys := ReleaseKey(keys, key);
    }

    /** One second of the countdown interval, which only runs in the countdown phase. */
    method CountdownTimer()
      requires Valid()
      modifies this`countdown, this`phase
      ensures Valid()
      ensures old(phase) != Countdown ==> countdown == old(countdown) && phase == old(phase)
      ensures old(phase) == Countdown ==>
        && countdown == CountdownStep(old(countdown)).count
        && phase == (if old(countdown) <= 1 then Playing else Countdown)
    {
      if phase == Countdown {
        var r := CountdownStep(countdown);
        countdown := r.count;
        if r.startPlaying {
          phase := Playing;
        }
      }
    }

    /** One animation frame of the game loop, which only runs while playing:
        steer and clamp the car, bump the score, and open the quiz once the
        score read at the start of the frame exceeds level * 1000.
        The car's row and the level never change here. */
    method Tick()
      requires Valid()
      modifies this`carX, this`score, this`phase
      ensures Valid()
      ensures old(phase) != Playing ==>
        carX == old(carX) && score == old(score) && phase == old(phase)
      ensures old(phase) == Playing ==>
        && carX == StepX(old(carX), keys)
        && score == old(score) + 1
        && phase == (if QuizDue(old(score), level) then Quiz else Playing)
    {
      if phase == Playing {
        carX := StepX(carX, keys);
        var read := score;
        score := score + 1;
        if QuizDue(read, level) {
          phase := Quiz;
        }
      }
    }

    /** The verdict of a level quiz: passing level 3 wins, passing a lower
        level moves to the next level's countdown, failing ends the game. */
    method HandleQuizComplete(passed: bool)
      requires Valid()
      modifies this`phase, this`level
      ensures Valid()
      ensures passed && old(level) == 3 ==> phase == Victory && level == 3
      ensures passed && old(level) < 3 ==> phase == Countdown && level == old(level) + 1
      ensures !passed ==> phase == GameOver && level == old(level)
    {
      if passed {
        if level == 3 {
          phase := Victory;
        } else {
          level := level + 1;
          phase := Countdown;
        }
      } else {
        phase := GameOver;
      }
    }

    /** The verdict of the start quiz: passing starts the countdown, failing
        resets the game. */
    method HandleStartQuizComplete(passed: bool)
      requires Valid()
      modifies this`phase, this`level, this`score, this`carX, this`carY
      ensures Valid()
      ensures passed ==>
        phase == Countdown && level == old(level) && score == old(score) && carX == old(carX)
      ensures !passed ==>
        phase == Initial && level == 1 && score == 0 && carX == StartX && carY == StartY
    {
      if passed {
        phase := Countdown;
      } else {
        ResetGame();
      }
    }

    /** "Try Again" / "Play Again": back to the start quiz at level 1 with
        score 0 and the car at its start position. The countdown value and
        the key flags are left as they are. */
    method ResetGame()
      requires Valid()
      modifies this`phase, this`level, this`score, this`carX, this`carY
      ensures Valid()
      ensures phase == Initial && level == 1 && score == 0
      ensures carX == StartX && carY == StartY
    {
      phase := Initial;
      level := 1;
      score := 0;
      carX, carY := StartX, StartY;
    }
  }

  /** Runs one level from the start of its countdown: three timer ticks, then
      playing frames until the quiz opens, which happens on the frame that
      reads score level * 1000 + 1. */
  method PlayLevel(g: Game)
    requires g.Valid() && g.phase == Countdown && g.countdown == CountdownStart
    requires g.score <= g.level * 1000 + 1
    modifies g
    ensures g.Valid() && g.phase == Quiz && g.countdown == CountdownStart
    ensures g.level == old(g.level) && g.score == g.level * 1000 + 2
  {
    g.CountdownTimer();
    g.CountdownTimer();
    g.CountdownTimer();
    while g.phase == Playing
      invariant g.Valid() && g.level == old(g.level) && g.countdown == CountdownStart
      invariant g.phase == Playing || g.phase == Quiz
      invariant g.score <= g.level * 1000 + 2
      invariant g.phase == Quiz <==> g.score == g.level * 1000 + 2
      decreases g.level * 1000 + 2 - g.score
    {
      g.Tick();
    }
  }

  /** A perfect game: the start quiz and all three level quizzes are passed;
      it ends in victory at level 3 with score 3002. */
  method PerfectRun() returns (finalPhase: Phase, finalLevel: int, finalScore: int)
    ensures finalPhase == Victory && finalLevel == 3 && finalScore == 3002
  {
    var g := new Game();
    g.HandleStartQuizComplete(true);
    PlayLevel(g);
    g.HandleQuizComplete(true);
    PlayLevel(g);
    g.HandleQuizComplete(true);
    PlayLevel(g);
    g.HandleQuizComplete(true);
    finalPhase, finalLevel, finalScore := g.phase, g.level, g.score;
  }
}
