/** The per-frame rules of the game as functions of the state they read: basket
    movement, the star pass (advance, catch, fall off), spawning and the difficulty
    schedule. The methods of `Controller.GameState` are proved against these. */
module Simulation {
  import opened Entities

  // ---------------------------------------------------------------- basket

  /** Pixels the basket moves per frame while an arrow key is held. */
  const BasketStep: real := 5.0

  /** The basket after one frame: the left move and then the right move, each taken
      only when its key is held and the basket is not yet at that edge. */
  function MoveBasket(b: Basket, canvasWidth: real, left: bool, right: bool): (r: Basket)
    ensures r.y == b.y && r.width == b.width && r.height == b.height
    ensures r.x == b.x - BasketStep || r.x == b.x || r.x == b.x + BasketStep
    ensures !left && !right ==> r == b
  {
    var afterLeft := if left && b.x > 0.0 then b.(x := b.x - BasketStep) else b;
    if right && afterLeft.x < canvasWidth - afterLeft.width then afterLeft.(x := afterLeft.x + BasketStep)
    else afterLeft
  }

  /** `x` is a whole multiple of the basket step. */
  predicate OnStep(x: real)
  {
    x == x.Floor as real && x.Floor % 5 == 0
  }

  /** The canvas leaves room for the 50 px basket at its starting place (x = 375), and
      the rightmost basket position is a whole number of steps. */
  predicate CanvasFits(canvasWidth: real)
  {
    375.0 <= canvasWidth - 50.0 && OnStep(canvasWidth - 50.0)
  }

  /** The basket's left edge is on the step grid and the basket is within the canvas. */
  predicate BasketInRange(x: real, canvasWidth: real)
  {
    0.0 <= x <= canvasWidth - 50.0 && OnStep(x)
  }

  /** On a canvas whose rightmost basket position is on the step grid, a 50 px basket
      that starts in range stays in range, whatever keys are held. */
  lemma BasketStaysInRange(b: Basket, canvasWidth: real, left: bool, right: bool)
    requires b.width == 50.0 && OnStep(canvasWidth - 50.0) && BasketInRange(b.x, canvasWidth)
    ensures BasketInRange(MoveBasket(b, canvasWidth, left, right).x, canvasWidth)
  {
    var k, m := b.x.Floor, (canvasWidth - 50.0).Floor;
    assert b.x == k as real && canvasWidth - 50.0 == m as real;
    var afterLeft := if left && k > 0 then k - 5 else k;
    var r := if right && afterLeft < m then afterLeft + 5 else afterLeft;
    GridMoveInRange(k, m, left, right);
    assert MoveBasket(b, canvasWidth, left, right).x == r as real;
  }

  /** The basket move on whole pixels: from a grid position in [0, m], with m on the
      grid, both moves stay on the grid and in range. */
  lemma GridMoveInRange(k: int, m: int, left: bool, right: bool)
    requires k % 5 == 0 && m % 5 == 0 && 0 <= k <= m
    ensures var afterLeft := if left && k > 0 then k - 5 else k;
      var r := if right && afterLeft < m then afterLeft + 5 else afterLeft;
      0 <= r <= m && r % 5 == 0
  {
  }

  // ---------------------------------------------------------------- stars

  /** What one frame does to a single star: caught by the basket, fallen off the
      bottom edge, or kept at its new height. */
  datatype Fate = Caught | Fell | Kept(star: Star)

  /** The star is advanced first; the catch test comes before the off-screen test. */
  function FateOf(b: Basket, canvasHeight: real, s: Star): Fate
  {
    var t := Advance(s);
    if Catches(b, t) then Caught
    else if t.y > canvasHeight + 20.0 then Fell
    else Kept(t)
  }

  /** Each star meets exactly one fate in a frame: it is caught exactly when its
      advanced self overlaps the basket; it falls exactly when it is not caught and has
      passed the removal line; otherwise it is kept, moved down by its speed, with its
      position, size and speed as they were. */
  lemma FateCases(b: Basket, canvasHeight: real, s: Star)
    ensures var r, t := FateOf(b, canvasHeight, s), s.(y := s.y + s.speed);
      (r.Caught? <==> Catches(b, t)) &&
      (r.Fell? <==> !Catches(b, t) && t.y > canvasHeight + 20.0) &&
      (r.Kept? <==> !Catches(b, t) && t.y <= canvasHeight + 20.0) &&
      (r.Kept? ==> r.star.y == s.y + s.speed && r.star.x == s.x && r.star.size == s.size && r.star.speed == s.speed)
  {
  }

  /** The stars still falling after a pass, in their original order. */
  function Survivors(b: Basket, canvasHeight: real, stars: seq<Star>): seq<Star>
  {
    if stars == [] then []
    else
      var f := FateOf(b, canvasHeight, stars[0]);
      (if f.Kept? then [f.star] else []) + Survivors(b, canvasHeight, stars[1..])
  }

  /** The number of stars the basket catches in a pass. */
  function CaughtCount(b: Basket, canvasHeight: real, stars: seq<Star>): nat
  {
    if stars == [] then 0
    else (if FateOf(b, canvasHeight, stars[0]).Caught? then 1 else 0) + CaughtCount(b, canvasHeight, stars[1..])
  }

  /** Splitting a pass at position i, by the tests the pass makes on the star there:
      a caught star adds one catch, a star below the removal line is dropped, and any
      other star is kept advanced ahead of the stars after it. */
  lemma PassStep(b: Basket, canvasHeight: real, stars: seq<Star>, i: nat)
    requires i < |stars|
    ensures var t, after, later := Advance(stars[i]), Survivors(b, canvasHeight, stars[i..]), Survivors(b, canvasHeight, stars[i + 1..]);
      var count, laterCount := CaughtCount(b, canvasHeight, stars[i..]), CaughtCount(b, canvasHeight, stars[i + 1..]);
      (Catches(b, t) ==> after == later && count == laterCount + 1) &&
      (!Catches(b, t) && t.y > canvasHeight + 20.0 ==> after == later && count == laterCount) &&
      (!Catches(b, t) && t.y <= canvasHeight + 20.0 ==> after == [t] + later && count == laterCount)
  {
  }

  /** The number of stars that fall off the bottom edge in a pass. */
  function FellCount(b: Basket, canvasHeight: real, stars: seq<Star>): nat
  {
    if stars == [] then 0
    else (if FateOf(b, canvasHeight, stars[0]).Fell? then 1 else 0) + FellCount(b, canvasHeight, stars[1..])
  }

  /** The positions, in the pass's input, of the stars it keeps. */
  function KeptIndices(b: Basket, canvasHeight: real, stars: seq<Star>): seq<nat>
  {
    if stars == [] then []
    else
      var rest := KeptIndices(b, canvasHeight, stars[1..]);
      (if FateOf(b, canvasHeight, stars[0]).Kept? then [0] else []) + seq(|rest|, k requires 0 <= k < |rest| => rest[k] + 1)
  }

  /** Every star is accounted for exactly once: caught, fallen or kept. */
  lemma {:induction false} PassPartition(b: Basket, canvasHeight: real, stars: seq<Star>)
    ensures |Survivors(b, canvasHeight, stars)| + CaughtCount(b, canvasHeight, stars)
            + FellCount(b, canvasHeight, stars) == |stars|
  {
    if stars != [] {
      PassPartition(b, canvasHeight, stars[1..]);
    }
  }

  /** After a pass no star is below the removal line. */
  lemma {:induction false} SurvivorsOnScreen(b: Basket, canvasHeight: real, stars: seq<Star>)
    ensures OnScreen(Survivors(b, canvasHeight, stars), canvasHeight)
  {
    if stars != [] {
      SurvivorsOnScreen(b, canvasHeight, stars[1..]);
    }
  }

  /** The stars of a sequence are all at or above the removal line. */
  predicate OnScreen(stars: seq<Star>, canvasHeight: real)
  {
    forall k :: 0 <= k < |stars| ==> stars[k].y <= canvasHeight + 20.0
  }

  /** The pass keeps exactly the stars that are neither caught nor fallen, each one
      advanced by its speed with its position, size and speed otherwise unchanged,
      and in the order they had before: the k-th survivor comes from position
      `KeptIndices(..)[k]` of the input, and those positions increase. */
  lemma SurvivorsInOrder(b: Basket, canvasHeight: real, stars: seq<Star>)
    ensures var idx, out := KeptIndices(b, canvasHeight, stars), Survivors(b, canvasHeight, stars);
      |idx| == |out| &&
      (forall k :: 0 <= k < |idx| ==>
         idx[k] < |stars| && !Catches(b, out[k]) && out[k].y <= canvasHeight + 20.0 &&
         out[k] == stars[idx[k]].(y := stars[idx[k]].y + stars[idx[k]].speed)) &&
      Increasing(idx) &&
      (forall j :: 0 <= j < |stars| && FateOf(b, canvasHeight, stars[j]).Kept? ==> j in idx)
  {
    KeptIndicesSound(b, canvasHeight, stars);
    KeptIndicesIncreasing(b, canvasHeight, stars);
    KeptIndicesComplete(b, canvasHeight, stars);
  }

  /** The k-th survivor is the star kept from input position `KeptIndices(..)[k]`. */
  lemma {:induction false} KeptIndicesSound(b: Basket, canvasHeight: real, stars: seq<Star>)
    ensures var idx, out := KeptIndices(b, canvasHeight, stars), Survivors(b, canvasHeight, stars);
      |idx| == |out| &&
      forall k :: 0 <= k < |idx| ==> idx[k] < |stars| && FateOf(b, canvasHeight, stars[idx[k]]) == Kept(out[k])
  {
    if stars != [] {
      KeptIndicesSound(b, canvasHeight, stars[1..]);
      var rest := KeptIndices(b, canvasHeight, stars[1..]);
      forall k | 0 <= k < |rest| ensures stars[rest[k] + 1] == stars[1..][rest[k]] { }
    }
  }

  /** The positions in `s` strictly increase. */
  predicate Increasing(s: seq<nat>)
  {
    forall k, l :: 0 <= k < l < |s| ==> s[k] < s[l]
  }

  /** The positions of the kept stars increase: the pass keeps their order. */
  lemma {:induction false} KeptIndicesIncreasing(b: Basket, canvasHeight: real, stars: seq<Star>)
    ensures Increasing(KeptIndices(b, canvasHeight, stars))
  {
    if stars != [] {
      KeptIndicesIncreasing(b, canvasHeight, stars[1..]);
      var rest := KeptIndices(b, canvasHeight, stars[1..]);
      var shifted := seq(|rest|, k requires 0 <= k < |rest| => rest[k] + 1);
      assert Increasing(shifted);
      assert forall k :: 0 <= k < |shifted| ==> 0 < shifted[k];
    }
  }

  /** Every kept star's position is listed: the pass skips none. */
  lemma {:induction false} KeptIndicesComplete(b: Basket, canvasHeight: real, stars: seq<Star>)
    ensures forall j :: 0 <= j < |stars| && FateOf(b, canvasHeight, stars[j]).Kept? ==>
      j in KeptIndices(b, canvasHeight, stars)
  {
    if stars != [] {
      KeptIndicesComplete(b, canvasHeight, stars[1..]);
      var rest := KeptIndices(b, canvasHeight, stars[1..]);
      var shifted := seq(|rest|, k requires 0 <= k < |rest| => rest[k] + 1);
      forall j | 0 < j < |stars| && FateOf(b, canvasHeight, stars[j]).Kept?
        ensures j in shifted
      {
        assert stars[1..][j - 1] == stars[j];
        var k :| 0 <= k < |rest| && rest[k] == j - 1;
        assert shifted[k] == j;
      }
    }
  }

  /** Stars that are all beside the basket are never caught, whatever their heights. */
  lemma {:induction false} NoneCaughtBeside(b: Basket, canvasHeight: real, stars: seq<Star>)
    requires forall k :: 0 <= k < |stars| ==> Beside(b, stars[k])
    ensures CaughtCount(b, canvasHeight, stars) == 0
  {
    if stars != [] {
      assert Beside(b, Advance(stars[0]));
      NoneCaughtBeside(b, canvasHeight, stars[1..]);
    }
  }

  // ---------------------------------------------------------------- spawning

  /** The chance per frame that a new star appears. */
  const SpawnChance: real := 0.03

  /** The stars after the spawn step: one new star is appended when the spawn draw
      falls below the chance, and nothing else changes. */
  function Spawned(stars: seq<Star>, starSpeed: real, canvasWidth: real,
                   spawnDraw: real, xDraw: real, speedDraw: real): (r: seq<Star>)
    ensures |r| == |stars| + (if spawnDraw < SpawnChance then 1 else 0)
    ensures r[..|stars|] == stars
    ensures |r| > |stars| ==> r[|stars|] == CreateStar(starSpeed, canvasWidth, xDraw, speedDraw)
  {
    if spawnDraw < SpawnChance then stars + [CreateStar(starSpeed, canvasWidth, xDraw, speedDraw)]
    else stars
  }

  // ---------------------------------------------------------------- difficulty

  /** Length of a game in seconds, the interval between speed bumps, the bump. */
  const GameLength: int := 60
  const SpeedInterval: int := 15
  const SpeedIncrement: real := 0.5

  /** Seconds played so far. */
  function Elapsed(timeLeft: int): int
  {
    GameLength - timeLeft
  }

  /** A bump is due once elapsed time is a positive multiple of the interval that has
      not already been bumped for. */
  predicate BumpDue(timeLeft: int, lastSpeedIncrease: int)
  {
    var elapsed := Elapsed(timeLeft);
    elapsed > 0 && elapsed % SpeedInterval == 0 && elapsed != lastSpeedIncrease
  }

  /** The baseline speed and the last bumped elapsed value after the difficulty step.
      The speed never decreases; it rises by exactly the increment, recording the
      elapsed time, precisely when a bump is due; otherwise nothing changes. */
  function Difficulty(timeLeft: int, starSpeed: real, lastSpeedIncrease: int): (r: (real, int))
    ensures r.0 >= starSpeed
    ensures r.0 == starSpeed || r.0 == starSpeed + SpeedIncrement
    ensures r.0 > starSpeed <==> BumpDue(timeLeft, lastSpeedIncrease)
    ensures r.0 > starSpeed ==> r.1 == Elapsed(timeLeft)
    ensures r.0 == starSpeed ==> r.1 == lastSpeedIncrease
  {
    if BumpDue(timeLeft, lastSpeedIncrease) then (starSpeed + SpeedIncrement, Elapsed(timeLeft))
    else (starSpeed, lastSpeedIncrease)
  }

  /** A second difficulty step in the same second changes nothing. */
  lemma DifficultyIdempotent(timeLeft: int, starSpeed: real, lastSpeedIncrease: int)
    ensures var once := Difficulty(timeLeft, starSpeed, lastSpeedIncrease);
      Difficulty(timeLeft, once.0, once.1) == once
  {
  }

  /** While the clock runs, bumps happen only at 15, 30 and 45 elapsed seconds. */
  lemma BumpsAtBoundaries(timeLeft: int, lastSpeedIncrease: int)
    requires 0 < timeLeft <= GameLength
    requires BumpDue(timeLeft, lastSpeedIncrease)
    ensures Elapsed(timeLeft) == 15 || Elapsed(timeLeft) == 30 || Elapsed(timeLeft) == 45
  {
  }
}
