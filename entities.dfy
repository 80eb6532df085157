/** The entities of the star-catching game: falling stars, the player's basket,
    the star factory and the catch test. */
module Entities {

  /** A falling star: centre position, radius-like size and fall distance per frame. */
  datatype Star = Star(x: real, y: real, size: real, speed: real)

  /** The player's basket: top-left corner, width and height. */
  datatype Basket = Basket(x: real, y: real, width: real, height: real)

  /** Every star is born this far above the top edge, with this size. */
  const StarStartY: real := -20.0
  const StarSize: real := 15.0

  /** A value a uniform random source over [0, 1) can produce. */
  predicate IsDraw(r: real)
  {
    0.0 <= r < 1.0
  }

  /** A new star for the current baseline speed. `xDraw` and `speedDraw` are the two
      random draws the factory takes; the horizontal position keeps a 10 px margin on
      both sides and the speed exceeds the baseline by less than 2. */
  function CreateStar(starSpeed: real, canvasWidth: real, xDraw: real, speedDraw: real): (s: Star)
    ensures s.y == StarStartY && s.size == StarSize
    ensures IsDraw(xDraw) && canvasWidth > 20.0 ==> 10.0 <= s.x < canvasWidth - 10.0
    ensures IsDraw(speedDraw) ==> starSpeed <= s.speed < starSpeed + 2.0
  {
    var span := canvasWidth - 20.0;
    var offset := xDraw * span;
    assert IsDraw(xDraw) && span > 0.0 ==> 0.0 <= offset < span by {
      if IsDraw(xDraw) && span > 0.0 { ScaledDraw(xDraw, span); }
    }
    Star(offset + 10.0, StarStartY, StarSize, starSpeed + speedDraw * 2.0)
  }

  /** A draw scaled by a positive width stays below that width. */
  lemma ScaledDraw(d: real, w: real)
    requires IsDraw(d) && w > 0.0
    ensures 0.0 <= d * w < w
  {
  }

  /** The star lies entirely to the left or entirely to the right of the basket. */
  predicate Beside(b: Basket, s: Star)
  {
    s.x + s.size <= b.x || s.x - s.size >= b.x + b.width
  }

  /** The star, with its size, lies within the basket's rectangle. */
  predicate Inside(b: Basket, s: Star)
  {
    s.size > 0.0 &&
    b.x <= s.x - s.size && s.x + s.size <= b.x + b.width &&
    b.y <= s.y - s.size && s.y + s.size <= b.y + b.height
  }

  /** The axis-aligned overlap test that decides whether the basket catches a star.
      It never fires for a star beside the basket, whatever its height, and always
      fires for a star inside it. */
  predicate Catches(b: Basket, s: Star): (r: bool)
    ensures Beside(b, s) ==> !r
    ensures Inside(b, s) ==> r
  {
    s.y + s.size > b.y &&
    s.y < b.y + b.height &&
    s.x + s.size > b.x &&
    s.x - s.size < b.x + b.width
  }

  /** The star one frame later: it has fallen by its speed and nothing else changed. */
  function Advance(s: Star): Star
  {
    s.(y := s.y + s.speed)
  }
}
