/** The six axis directions of the world crate (world/src/direction.rs) and
    the unit vector each stands for: `x` grows east, `y` grows up, `z`
    grows south. */
module Direction {
  import opened Common

  datatype Direction = North | South | West | East | Up | Down

  /** `Direction::to_vector`. */
  function ToVector(d: Direction): Point3
  {
    match d
    case North => Point3(0, 0, -1)
    case South => Point3(0, 0, 1)
    case West => Point3(-1, 0, 0)
    case East => Point3(1, 0, 0)
    case Up => Point3(0, 1, 0)
    case Down => Point3(0, -1, 0)
  }

  function Abs(n: int): nat { if n < 0 then -n else n }

  /** The direction pointing the other way. */
  function Opposite(d: Direction): Direction
  {
    match d
    case North => South
    case South => North
    case West => East
    case East => West
    case Up => Down
    case Down => Up
  }

  /** Every vector is a unit vector along one axis: exactly one component is
      non-zero, and it is 1 or -1. */
  lemma ToVectorIsUnit(d: Direction)
    ensures var v := ToVector(d); Abs(v.x) + Abs(v.y) + Abs(v.z) == 1
  {
  }

  /** Opposite directions have negated vectors. */
  lemma OppositeNegates(d: Direction)
    ensures ToVector(Opposite(d)) == Point3(-ToVector(d).x, -ToVector(d).y, -ToVector(d).z)
    ensures Opposite(Opposite(d)) == d
  {
  }

  /** The six directions have six different vectors. */
  lemma ToVectorInjective(d: Direction, e: Direction)
    ensures ToVector(d) == ToVector(e) ==> d == e
  {
  }
}
