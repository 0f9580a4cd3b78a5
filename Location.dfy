/** A coordinate on the fixed 10 x 10 delivery grid: an immutable value object,
    validated at construction, compared component-wise, with Manhattan distance. */
module SharedKernel {
  import opened Primitives

  const LowerBoundaryX: int := 1
  const LowerBoundaryY: int := 1
  const UpperBoundaryX: int := 10
  const UpperBoundaryY: int := 10

  /** The largest distance between two points of the grid. */
  const MaxDistance: int := (UpperBoundaryX - LowerBoundaryX) + (UpperBoundaryY - LowerBoundaryY)

  /** The fault the constructor raises, naming the coordinate that is out of range. */
  datatype RangeFault = ArgumentOutOfRange(paramName: string)

  datatype Location = Location(X: int, Y: int) {

    /** Both coordinates lie on the grid. */
    predicate Valid() {
      LowerBoundaryX <= X <= UpperBoundaryX && LowerBoundaryY <= Y <= UpperBoundaryY
    }

    /** The components value equality is defined over, in order. */
    function EqualityComponents(): seq<int> {
      [X, Y]
    }

    /** Value-object equality: two locations are equal when their components are. */
    function Equals(other: Location): (r: bool)
      ensures r <==> X == other.X && Y == other.Y
      ensures r <==> this == other
    {
      EqualityComponents() == other.EqualityComponents()
    }
  }

  /** The locations the class can hold: those on the grid. */
  type GridLocation = l: Location | l.Valid() witness Location(LowerBoundaryX, LowerBoundaryY)

  /** The public constructor: checks x first, then y, and faults on the first coordinate
      that is off the grid. */
  function NewLocation(x: int, y: int): (r: Result<GridLocation, RangeFault>)
    ensures r.Success? <==>
              LowerBoundaryX <= x <= UpperBoundaryX && LowerBoundaryY <= y <= UpperBoundaryY
    ensures r.Success? ==> r.value.X == x && r.value.Y == y && r.value.Valid()
    ensures !(LowerBoundaryX <= x <= UpperBoundaryX) ==> r == Failure(ArgumentOutOfRange("x"))
    ensures LowerBoundaryX <= x <= UpperBoundaryX && !(LowerBoundaryY <= y <= UpperBoundaryY) ==>
              r == Failure(ArgumentOutOfRange("y"))
  {
    if x < LowerBoundaryX || x > UpperBoundaryX then Failure(ArgumentOutOfRange("x"))
    else if y < LowerBoundaryY || y > UpperBoundaryY then Failure(ArgumentOutOfRange("y"))
    else Success(Location(x, y))
  }

  /** `Math.Abs` on integers. */
  function Abs(n: int): (a: int)
    ensures a >= 0 && (a == n || a == -n)
  {
    if n < 0 then -n else n
  }

  /** Manhattan distance between two locations. */
  function GetDistance(from: Location, to: Location): (d: int)
    ensures d >= 0
    ensures d == 0 <==> from == to
  {
    Abs(from.X - to.X) + Abs(from.Y - to.Y)
  }

  /** A location built from two draws of `Random.Next(1, 11)`, each of which lies in
      [1, 11). The draws are parameters; the random source itself is not modelled. */
  function GetRandomLocation(nextX: int, nextY: int): (l: GridLocation)
    requires 1 <= nextX < 11 && 1 <= nextY < 11
    ensures l.Valid()
    ensures NewLocation(nextX, nextY) == Success(l)
  {
    NewLocation(nextX, nextY).value
  }

  lemma DistanceSymmetric(a: Location, b: Location)
    ensures GetDistance(a, b) == GetDistance(b, a)
  {
  }

  lemma DistanceAtMostMax(a: Location, b: Location)
    requires a.Valid() && b.Valid()
    ensures GetDistance(a, b) <= MaxDistance
  {
  }

  /** Every distance from 0 to MaxDistance is the distance of some pair of grid points,
      so together with DistanceAtMostMax the distances on the grid are exactly [0, 18]. */
  lemma DistanceRange(d: int)
    requires 0 <= d <= MaxDistance
    ensures exists a: Location, b: Location :: a.Valid() && b.Valid() && GetDistance(a, b) == d
  {
    var origin := Location(LowerBoundaryX, LowerBoundaryY);
    var far := if d <= UpperBoundaryX - LowerBoundaryX
               then Location(LowerBoundaryX + d, LowerBoundaryY)
               else Location(UpperBoundaryX, LowerBoundaryY + d - (UpperBoundaryX - LowerBoundaryX));
    assert GetDistance(origin, far) == d;
  }

  /** The cases exercised by the unit tests of the constructor, equality and distance. */
  lemma TestedCases()
    ensures NewLocation(1, 1) == Success(Location(1, 1))
    ensures NewLocation(10, 10) == Success(Location(10, 10))
    ensures NewLocation(0, 0).Failure? && NewLocation(11, 11).Failure?
    ensures NewLocation(11, 5).Failure? && NewLocation(5, 11).Failure?
    ensures Location(2, 2).Equals(Location(2, 2))
    ensures !Location(3, 2).Equals(Location(2, 2))
    ensures GetDistance(Location(2, 2), Location(5, 5)) == 6
    ensures GetDistance(Location(5, 5), Location(2, 2)) == 6
    ensures GetDistance(Location(2, 2), Location(2, 2)) == 0
  {
  }
}
