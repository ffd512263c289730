/**
 * Geometry helpers of the capture minigame: the centre of an element's
 * bounding box, the translation between two centres and the bounded random
 * integer. Coordinates are real numbers; the random draw of `Math.random()`
 * is a parameter in [0, 1).
 */
module GameUtils {
  import opened Js

  datatype Point = Point(x: real, y: real)

  /** A bounding client rectangle. */
  datatype Rect = Rect(left: real, top: real, width: real, height: real)

  predicate Within(p: Point, r: Rect) {
    r.left <= p.x <= r.left + r.width && r.top <= p.y <= r.top + r.height
  }

  /**
   * `getCenterCoords`: `rect` is the element's bounding rectangle, or `None`
   * when neither the element nor an element with that id can be measured.
   */
  function CenterCoords(rect: Option<Rect>): (c: Option<Point>)
    ensures c.Some? <==> rect.Some?
    ensures c.Some? ==> c.value.x - rect.value.left == rect.value.left + rect.value.width - c.value.x
    ensures c.Some? ==> c.value.y - rect.value.top == rect.value.top + rect.value.height - c.value.y
    ensures c.Some? && rect.value.width >= 0.0 && rect.value.height >= 0.0 ==> Within(c.value, rect.value)
  {
    match rect
    case None => None
    case Some(r) => Some(Point(r.left + r.width / 2.0, r.top + r.height / 2.0))
  }

  function Moved(p: Point, offset: Point): Point {
    Point(p.x + offset.x, p.y + offset.y)
  }

  function Negated(p: Point): Point {
    Point(-p.x, -p.y)
  }

  /** The translation that carries `p1` onto `p2` (`getTranslationBetweenElements` on two centres). */
  function Translation(p1: Point, p2: Point): (t: Point)
    ensures Moved(p1, t) == p2
    ensures p1 == p2 ==> t == Point(0.0, 0.0)
  {
    Point(p2.x - p1.x, p2.y - p1.y)
  }

  /** Swapping the two points negates the translation. */
  lemma TranslationAntisymmetric(p1: Point, p2: Point)
    ensures Translation(p2, p1) == Negated(Translation(p1, p2))
  {
  }

  /**
   * `getTranslationBetweenElements` on two measured rectangles. `None` stands
   * for the TypeError the source raises when either centre is undefined.
   */
  function TranslationBetweenRects(r1: Option<Rect>, r2: Option<Rect>): (t: Option<Point>)
    ensures t.Some? <==> r1.Some? && r2.Some?
    ensures t.Some? ==> Moved(CenterCoords(r1).value, t.value) == CenterCoords(r2).value
  {
    match (CenterCoords(r1), CenterCoords(r2))
    case (Some(p1), Some(p2)) => Some(Translation(p1, p2))
    case _ => None
  }

  /** `getRandomNumber(min, max)` with `draw` standing for `Math.random()`. */
  function RandomNumber(min: int, max: int, draw: real): (n: int)
    ensures 0.0 <= draw < 1.0 && min < max ==> min <= n < max
    ensures 0.0 <= draw < 1.0 && max <= min ==> max <= n <= min
  {
    var span := (max - min) as real;
    ScaleBounds(draw, span);
    (draw * span).Floor + min
  }

  /** A draw in [0, 1) scales a span to a value between 0 (inclusive) and the span (exclusive). */
  lemma ScaleBounds(draw: real, span: real)
    ensures 0.0 <= draw < 1.0 && 0.0 < span ==> 0.0 <= draw * span < span
    ensures 0.0 <= draw < 1.0 && span <= 0.0 ==> span < draw * span || span == 0.0
  {
    assert span - draw * span == (1.0 - draw) * span;
  }

  /** Every integer of [min, max) is the result of some draw: the range is exactly [min, max). */
  lemma {:induction false} RandomNumberReaches(min: int, max: int, k: int)
    requires min <= k < max
    ensures var draw := (k - min) as real / (max - min) as real;
            0.0 <= draw < 1.0 && RandomNumber(min, max, draw) == k
  {
    var span := (max - min) as real;
    var draw := (k - min) as real / span;
    assert draw * span == (k - min) as real;
    assert draw < 1.0;
  }
}
