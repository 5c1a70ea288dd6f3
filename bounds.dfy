/** Axis-aligned rectangles of the utility crate (utility/src/lib.rs), used
    for windows and screen regions: the minimum corner is inside, the
    maximum corner is outside. The coordinate type is modelled as `int`. */
module Bounds {
  import opened Common

  datatype Bounds = Bounds(min: Point2, max: Point2)
  {
    /** `Bounds::contains`: half open on both axes. */
    predicate Contains(p: Point2)
    {
      && p.x >= min.x
      && p.x < max.x
      && p.y >= min.y
      && p.y < max.y
    }

    /** `Bounds::width`. */
    function Width(): int
    {
      max.x - min.x
    }

    /** `Bounds::height`. */
    function Height(): int
    {
      max.y - min.y
    }
  }

  /** `Bounds::new(min_x, min_y, max_x, max_y)`. */
  function New(minX: int, minY: int, maxX: int, maxY: int): (b: Bounds)
    ensures b.min == Point2(minX, minY) && b.max == Point2(maxX, maxY)
    ensures b.Width() == maxX - minX && b.Height() == maxY - minY
  {
    Bounds(Point2(minX, minY), Point2(maxX, maxY))
  }

  /** A point is contained exactly when its offsets from the minimum corner
      lie in `[0, width)` and `[0, height)`. */
  lemma ContainsIffOffsetInSize(b: Bounds, p: Point2)
    ensures b.Contains(p) <==> 0 <= p.x - b.min.x < b.Width() && 0 <= p.y - b.min.y < b.Height()
  {
  }

  /** The maximum corner is never contained; the minimum corner is contained
      exactly when the rectangle has positive width and height. */
  lemma Corners(b: Bounds)
    ensures !b.Contains(b.max)
    ensures b.Contains(b.min) <==> b.Width() > 0 && b.Height() > 0
  {
  }

  /** A rectangle without positive width and height contains nothing. */
  lemma DegenerateIsEmpty(b: Bounds, p: Point2)
    requires b.Width() <= 0 || b.Height() <= 0
    ensures !b.Contains(p)
  {
  }
}
