/** The game controller: the single mutable game state, the frame and timer steps
    that change it, the end of a game with its high-score decision, and the start
    of a new game. */
module Controller {
  import opened Entities
  import opened Simulation

  datatype Option<T> = None | Some(value: T)

  // ---------------------------------------------------------------- high score

  /** The high score as read from the store: an absent entry counts as 0. */
  function LoadHighScore(saved: Option<int>): (r: int)
    ensures saved == None ==> r == 0
    ensures saved.Some? ==> r == saved.value
  {
    match saved
    case None => 0
    case Some(v) => v
  }

  /** What the end of a game reports: the final score, whether it is a new high score,
      and the store's entry afterwards. */
  datatype GameOver = GameOver(finalScore: nat, newHighScore: bool, store: Option<int>)

  /** The end-of-game decision. A new high score is flagged exactly when the score
      beats the stored one; only then is the store overwritten, with the score, so
      that the stored high score afterwards is the larger of the two. */
  function Conclude(score: nat, saved: Option<int>): (r: GameOver)
    ensures r.finalScore == score
    ensures r.newHighScore <==> score > LoadHighScore(saved)
    ensures r.newHighScore ==> r.store == Some(score)
    ensures !r.newHighScore ==> r.store == saved
    ensures LoadHighScore(r.store) == if score > LoadHighScore(saved) then score else LoadHighScore(saved)
  {
    var isNew := score > LoadHighScore(saved);
    GameOver(score, isNew, if isNew then Some(score) else saved)
  }

  // ---------------------------------------------------------------- game state

  /** Where each game puts the basket, and the baseline speed it starts with. */
  const StartBasket: Basket := Basket(375.0, 550.0, 50.0, 30.0)
  const StartSpeed: real := 2.0

  /** What one frame reads from outside: the two held arrow keys and the three random
      draws (spawn chance, horizontal position, speed offset). */
  datatype FrameInput = FrameInput(left: bool, right: bool, spawnDraw: real, xDraw: real, speedDraw: real)

  /** The game's state; the canvas size is fixed when the page is set up. */
  class GameState {
    const canvasWidth: real
    const canvasHeight: real
    var score: nat
    var timeLeft: int
    var gameRunning: bool
    var stars: seq<Star>
    var basket: Basket
    var starSpeed: real
    var lastSpeedIncrease: int
    /** How many speed bumps this game has had. */
    ghost var bumps: nat

    /** The state's invariant: the clock is within a game's length and a running game
        has time left; the basket keeps its shape, height and (on a canvas that fits)
        its range; no star is below the removal line; the baseline speed is the start
        speed plus one increment per bump, and the bumps happened at distinct
        15-second boundaries no later than the elapsed time. */
    ghost predicate Valid()
      reads this
    {
      Consistent() && (gameRunning ==> timeLeft > 0)
    }

    /** All of `Valid` but the link between running and time left, which is briefly
        broken between the last tick and the end of the game. */
    ghost predicate Consistent()
      reads this
    {
      0.0 <= canvasHeight &&
      0 <= timeLeft <= GameLength &&
      basket == StartBasket.(x := basket.x) &&
      (CanvasFits(canvasWidth) ==> BasketInRange(basket.x, canvasWidth)) &&
      OnScreen(stars, canvasHeight) &&
      0 <= lastSpeedIncrease <= Elapsed(timeLeft) &&
      lastSpeedIncrease % SpeedInterval == 0 &&
      SpeedInterval * bumps <= lastSpeedIncrease &&
      starSpeed == StartSpeed + SpeedIncrement * bumps as real
    }

    /** The state at page load: no game running, the clock full, no stars. */
    constructor (canvasWidth: real, canvasHeight: real)
      requires 0.0 <= canvasHeight
      ensures Valid()
      ensures this.canvasWidth == canvasWidth && this.canvasHeight == canvasHeight
      ensures score == 0 && timeLeft == GameLength && !gameRunning && stars == []
      ensures basket == StartBasket && starSpeed == StartSpeed && lastSpeedIncrease == 0
    {
      this.canvasWidth := canvasWidth;
      this.canvasHeight := canvasHeight;
      score := 0;
      timeLeft := GameLength;
      gameRunning := false;
      stars := [];
      basket := StartBasket;
      starSpeed := StartSpeed;
      lastSpeedIncrease := 0;
      bumps := 0;
    }

    /** A running game's baseline speed is at most 3.5: at most three bumps fit. */
    lemma RunningSpeedBound()
      requires Valid() && gameRunning
      ensures StartSpeed <= starSpeed <= StartSpeed + 3.0 * SpeedIncrement
    {
    }

    // -------------------------------------------------------------- frame steps

    /** Moves the basket by one step per held arrow key, stopping at the edges. */
    method UpdateBasket(left: bool, right: bool)
      requires Valid()
      modifies this`basket
      ensures Valid()
      ensures basket == MoveBasket(old(basket), canvasWidth, left, right)
    {
      if left && basket.x > 0.0 {
        basket := basket.(x := basket.x - BasketStep);
      }
      if right && basket.x < canvasWidth - basket.width {
        basket := basket.(x := basket.x + BasketStep);
      }
      if CanvasFits(canvasWidth) {
        BasketStaysInRange(old(basket), canvasWidth, left, right);
      }
    }

    /** One pass over the stars: the splice loop runs on the star array, and a point
        is scored per catch. */
    method UpdateStars()
      requires Valid()
      modifies this`stars, this`score
      ensures Valid()
      ensures stars == Survivors(basket, canvasHeight, old(stars))
      ensures score == old(score) + CaughtCount(basket, canvasHeight, old(stars))
    {
      var kept, caught := PassStars(basket, canvasHeight, stars);
      SurvivorsOnScreen(basket, canvasHeight, stars);
      stars, score := kept, score + caught;
    }

    /** Appends a new star when the spawn draw falls below the spawn chance. */
    method SpawnStars(spawnDraw: real, xDraw: real, speedDraw: real)
      requires Valid()
      modifies this`stars
      ensures Valid()
      ensures stars == Spawned(old(stars), starSpeed, canvasWidth, spawnDraw, xDraw, speedDraw)
    {
      if spawnDraw < SpawnChance {
        stars := stars + [CreateStar(starSpeed, canvasWidth, xDraw, speedDraw)];
      }
    }

    /** Raises the baseline speed once per 15-second boundary. */
    method UpdateDifficulty()
      requires Valid()
      modifies this`starSpeed, this`lastSpeedIncrease, this`bumps
      ensures Valid()
      ensures (starSpeed, lastSpeedIncrease) == Difficulty(timeLeft, old(starSpeed), old(lastSpeedIncrease))
    {
      var elapsed := GameLength - timeLeft;
      if elapsed > 0 && elapsed % SpeedInterval == 0 && elapsed != lastSpeedIncrease {
        starSpeed := starSpeed + SpeedIncrement;
        lastSpeedIncrease := elapsed;
        bumps := bumps + 1;
      }
    }

    /** One frame: nothing once the game has stopped; otherwise the basket, the
        stars, spawning and the difficulty, in that order, each step seeing what the
        one before it left. */
    method GameLoop(input: FrameInput)
      requires Valid()
      modifies this
      ensures Valid()
      ensures !old(gameRunning) ==> unchanged(this)
      ensures timeLeft == old(timeLeft) && gameRunning == old(gameRunning)
      ensures old(gameRunning) ==>
        basket == MoveBasket(old(basket), canvasWidth, input.left, input.right) &&
        score == old(score) + CaughtCount(basket, canvasHeight, old(stars)) &&
        stars == Spawned(Survivors(basket, canvasHeight, old(stars)), old(starSpeed), canvasWidth,
                         input.spawnDraw, input.xDraw, input.speedDraw) &&
        (starSpeed, lastSpeedIncrease) == Difficulty(timeLeft, old(starSpeed), old(lastSpeedIncrease))
      ensures gameRunning ==> starSpeed <= StartSpeed + 3.0 * SpeedIncrement
    {
      if !gameRunning {
        return;
      }
      UpdateBasket(input.left, input.right);
      UpdateStars();
      SpawnStars(input.spawnDraw, input.xDraw, input.speedDraw);
      UpdateDifficulty();
      RunningSpeedBound();
    }

    // -------------------------------------------------------------- clock and lifecycle

    /** Stops the game and decides on the high score against the stored one. */
    method EndGame(saved: Option<int>) returns (report: GameOver)
      requires Consistent()
      modifies this`gameRunning
      ensures Valid() && !gameRunning
      ensures report == Conclude(score, saved)
    {
      gameRunning := false;
      var currentHighScore := LoadHighScore(saved);
      var isNewHighScore := score > currentHighScore;
      if isNewHighScore {
        report := GameOver(score, true, Some(score));
      } else {
        report := GameOver(score, false, saved);
      }
    }

    /** Counts the clock down by one second while time is left, and ends the game on
        reaching zero. */
    method UpdateTimer(saved: Option<int>) returns (over: Option<GameOver>)
      requires Valid()
      modifies this`timeLeft, this`gameRunning
      ensures Valid()
      ensures timeLeft == if old(timeLeft) > 0 then old(timeLeft) - 1 else old(timeLeft)
      ensures over == if old(timeLeft) == 1 then Some(Conclude(score, saved)) else None
      ensures gameRunning == (old(gameRunning) && old(timeLeft) != 1)
    {
      over := None;
      if timeLeft > 0 {
        timeLeft := timeLeft - 1;
        if timeLeft == 0 {
          var report := EndGame(saved);
          over := Some(report);
        }
      }
    }

    /** One tick of the one-second loop: nothing once the game has stopped. A running
        game loses a second, and the game ends exactly on the tick that takes the
        clock from 1 to 0. */
    method TimerLoop(saved: Option<int>) returns (over: Option<GameOver>)
      requires Valid()
      modifies this`timeLeft, this`gameRunning
      ensures Valid()
      ensures !old(gameRunning) ==> timeLeft == old(timeLeft) && !gameRunning && over == None
      ensures old(gameRunning) ==> timeLeft == old(timeLeft) - 1
      ensures over.Some? <==> old(gameRunning) && old(timeLeft) == 1
      ensures over.Some? ==> over.value == Conclude(score, saved)
      ensures gameRunning <==> old(gameRunning) && timeLeft > 0
    {
      over := None;
      if !gameRunning {
        return;
      }
      over := UpdateTimer(saved);
    }

    /** Replaces the state of the previous game, whatever it was, by a fresh running
        one. */
    method Reset()
      requires 0.0 <= canvasHeight
      modifies this
      ensures Valid()
      ensures score == 0 && timeLeft == GameLength && gameRunning && stars == []
      ensures basket == StartBasket && starSpeed == StartSpeed && lastSpeedIncrease == 0
    {
      score := 0;
      timeLeft := GameLength;
      gameRunning := true;
      stars := [];
      basket := StartBasket;
      starSpeed := StartSpeed;
      lastSpeedIncrease := 0;
      bumps := 0;
    }

    /** Starts (or restarts) a game: resets the state, then runs the first frame and
        the first clock tick at once, so the clock shows 59 when this returns. */
    method StartGame(input: FrameInput, saved: Option<int>)
      requires Valid()
      modifies this
      ensures Valid()
      ensures gameRunning && timeLeft == GameLength - 1 && score == 0
      ensures basket == MoveBasket(StartBasket, canvasWidth, input.left, input.right)
      ensures stars == Spawned([], StartSpeed, canvasWidth, input.spawnDraw, input.xDraw, input.speedDraw)
      ensures starSpeed == StartSpeed && lastSpeedIncrease == 0
    {
      Reset();
      GameLoop(input);
      var over := TimerLoop(saved);
    }

    /** The start-on-key-press trigger: starts a game only when none is running. */
    method StartOnKeyPress(input: FrameInput, saved: Option<int>)
      requires Valid()
      modifies this
      ensures Valid()
      ensures old(gameRunning) ==> unchanged(this)
      ensures !old(gameRunning) ==> gameRunning && timeLeft == GameLength - 1 && score == 0
      ensures !old(gameRunning) ==> basket == MoveBasket(StartBasket, canvasWidth, input.left, input.right)
      ensures !old(gameRunning) ==>
        stars == Spawned([], StartSpeed, canvasWidth, input.spawnDraw, input.xDraw, input.speedDraw)
      ensures !old(gameRunning) ==> starSpeed == StartSpeed && lastSpeedIncrease == 0
    {
      if !gameRunning {
        StartGame(input, saved);
      }
    }
  }

  /** The loop of the star pass, from the last star to the first: each star is
      advanced, then spliced out with a catch counted if the basket catches it, else
      spliced out if it is below the removal line, else written back at its new
      height. It leaves exactly the survivors, in order, and counts exactly the
      catches. */
  method PassStars(b: Basket, canvasHeight: real, stars: seq<Star>) returns (s: seq<Star>, caught: nat)
    ensures s == Survivors(b, canvasHeight, stars)
    ensures caught == CaughtCount(b, canvasHeight, stars)
  {
    s, caught := stars, 0;
    var i := |s| - 1;
    while i >= 0
      invariant -1 <= i < |stars| && i + 1 <= |s|
      invariant s[..i + 1] == stars[..i + 1]
      invariant s[i + 1..] == Survivors(b, canvasHeight, stars[i + 1..])
      invariant caught == CaughtCount(b, canvasHeight, stars[i + 1..])
      decreases i
    {
      assert s[i] == stars[i];
      PassStep(b, canvasHeight, stars, i);
      ghost var done := s[i + 1..];
      var star := Advance(s[i]);
      if Catches(b, star) {
        caught := caught + 1;
        s := s[..i] + s[i + 1..];
        assert s[i..] == done;
      } else if star.y > canvasHeight + 20.0 {
        s := s[..i] + s[i + 1..];
        assert s[i..] == done;
      } else {
        s := s[i := star];
        assert s[i..] == [star] + done;
      }
      i := i - 1;
    }
  }

  /** A whole game with no keys held and no star ever spawning, one frame per second:
      the game ends exactly once, with score 0 and the high-score decision for 0, and
      the baseline speed has been bumped three times, to 3.5. */
  method PlayQuietGame(canvasWidth: real, canvasHeight: real, saved: Option<int>)
    returns (report: GameOver, endings: nat, finalSpeed: real)
    requires 0.0 <= canvasHeight
    ensures endings == 1
    ensures report == Conclude(0, saved)
    ensures finalSpeed == StartSpeed + 3.0 * SpeedIncrement
  {
    var game := new GameState(canvasWidth, canvasHeight);
    var quiet := FrameInput(false, false, 0.5, 0.0, 0.0);
    game.StartGame(quiet, saved);
    report := GameOver(0, false, saved);
    endings := 0;
    while game.gameRunning
      invariant game.Valid()
      invariant game.gameRunning <==> game.timeLeft > 0
      invariant game.stars == [] && game.score == 0 && game.basket == StartBasket
      invariant game.lastSpeedIncrease == SpeedInterval * ((59 - game.timeLeft) / SpeedInterval)
      invariant game.starSpeed == StartSpeed + SpeedIncrement * (game.lastSpeedIncrease / SpeedInterval) as real
      invariant endings == (if game.timeLeft == 0 then 1 else 0)
      invariant endings == 1 ==> report == Conclude(0, saved)
      decreases game.timeLeft
    {
      game.GameLoop(quiet);
      var over := game.TimerLoop(saved);
      if over.Some? {
        endings := endings + 1;
        report := over.value;
      }
    }
    finalSpeed := game.starSpeed;
  }
}
