/**
 * A billiard ball (components/Ball.java): a mutable record with an identity
 * given by its number. The direction is a two-element array, as in the Java
 * class: `SetDirection` stores the caller's array, `SetDirectionComponents`
 * writes into the array the ball already holds.
 */
module BallComponent {
  import opened VectorCalc

  /** The ball diameter, Ball.DIMENSION. */
  const Dimension: int := 20

  /** DIMENSION as the double it becomes in the worker's distance comparisons. */
  const Diameter: real := 20.0

  /** The observable state of one ball, used to specify what the simulation does to it. */
  datatype BallState = BallState(number: int, isWhite: bool, pos: Vector, velocity: real, dir: Vector, inPocket: bool)

  // ---------------------------------------------------------------------
  // Java int arithmetic for hashCode

  const Int32Min: int := -0x8000_0000
  const Int32Modulus: int := 0x1_0000_0000

  predicate IsInt32(n: int) {
    Int32Min <= n < -Int32Min
  }

  /** Two's complement wrap-around of an int result. */
  function Wrap32(n: int): (r: int)
    ensures IsInt32(r)
    ensures (r - n) % Int32Modulus == 0
    ensures IsInt32(n) ==> r == n
  {
    (n - Int32Min) % Int32Modulus + Int32Min
  }

  /** Objects.hash(number): 31 * 1 + number, in int arithmetic. */
  function HashOfNumber(number: int): (h: int)
    ensures IsInt32(h)
  {
    Wrap32(31 + number)
  }

  /** Different int numbers get different hash codes. */
  lemma HashOfNumberInjective(n: int, m: int)
    requires IsInt32(n) && IsInt32(m)
    requires HashOfNumber(n) == HashOfNumber(m)
    ensures n == m
  {
    var a, b := 31 + n, 31 + m;
    var qa, qb := (a - Int32Min) / Int32Modulus, (b - Int32Min) / Int32Modulus;
    assert a - Int32Min == qa * Int32Modulus + (a - Int32Min) % Int32Modulus;
    assert b - Int32Min == qb * Int32Modulus + (b - Int32Min) % Int32Modulus;
    assert 0 <= qa <= 1 && 0 <= qb <= 1;
  }

  /** A new double[2] holding the components of `v`. */
  method NewDirection(v: Vector) returns (d: array<real>)
    ensures fresh(d) && d.Length == 2 && d[0] == v.x && d[1] == v.y
  {
    d := new real[2];
    d[0], d[1] := v.x, v.y;
  }

  class Ball {
    const number: int
    const isWhite: bool
    var x: real
    var y: real
    var inPocket: bool
    var velocity: real
    var direction: array<real>

    /** The direction array has the two components the Java code indexes. */
    ghost predicate Valid()
      reads this
    {
      direction.Length == 2
    }

    /** The fields as a value; the direction is read through the array. */
    function State(): BallState
      reads this, direction
      requires Valid()
    {
      BallState(number, isWhite, Vector(x, y), velocity, Vector(direction[0], direction[1]), inPocket)
    }

    /** A new ball lies still at (x, y) with a zero direction and outside every pocket. */
    constructor (number: int, isWhite: bool, x: int, y: int)
      ensures Valid() && fresh(direction)
      ensures State() == BallState(number, isWhite, Vector(x as real, y as real), 0.0, Zero, false)
    {
      this.number := number;
      this.isWhite := isWhite;
      this.x := x as real;
      this.y := y as real;
      this.inPocket := false;
      this.velocity := 0.0;
      var d := new real[2];
      d[0], d[1] := 0.0, 0.0;
      this.direction := d;
    }

    /** setDirection(double[]): keeps the caller's array itself, not a copy. */
    method SetDirection(d: array<real>)
      requires Valid()
      modifies this`direction
      ensures direction == d
      ensures d.Length == 2 ==> Valid() && State() == old(State()).(dir := Vector(d[0], d[1]))
    {
      direction := d;
    }

    /** setDirection(x, y): overwrites the current array, so every holder of that array sees the change. */
    method SetDirectionComponents(dx: real, dy: real)
      requires Valid()
      modifies direction
      ensures direction == old(direction) && Valid()
      ensures direction[..] == [dx, dy]
      ensures State() == old(State()).(dir := Vector(dx, dy))
    {
      direction[0] := dx;
      direction[1] := dy;
    }

    method SetVelocity(v: real)
      requires Valid()
      modifies this`velocity
      ensures Valid() && State() == old(State()).(velocity := v)
    {
      velocity := v;
    }

    method SetPosition(nx: real, ny: real)
      requires Valid()
      modifies this`x, this`y
      ensures Valid() && State() == old(State()).(pos := Vector(nx, ny))
    {
      x := nx;
      y := ny;
    }

    /** The only change of the pocket flag the class offers: it sets it. */
    method SetIsInPocket()
      requires Valid()
      modifies this`inPocket
      ensures Valid() && State() == old(State()).(inPocket := true)
    {
      inPocket := true;
    }

    /** equals: the same object, or another ball with the same number. */
    function Equals(other: Ball?): (eq: bool)
      ensures eq <==> other != null && other.number == number
    {
      this == other || (other != null && number == other.number)
    }

    /** hashCode: Objects.hash(number), a Java int. */
    function HashCode(): (h: int)
      ensures IsInt32(h)
    {
      HashOfNumber(number)
    }
  }

  /** equals is an equivalence relation consistent with hashCode. */
  lemma EqualsIsEquivalence(a: Ball, b: Ball, c: Ball)
    ensures a.Equals(a)
    ensures a.Equals(b) ==> b.Equals(a)
    ensures a.Equals(b) && b.Equals(c) ==> a.Equals(c)
    ensures a.Equals(b) ==> a.HashCode() == b.HashCode()
  {
  }

  /** For balls with int numbers, equal hash codes mean equal balls. */
  lemma HashCodeSeparatesBalls(a: Ball, b: Ball)
    requires IsInt32(a.number) && IsInt32(b.number)
    ensures a.HashCode() == b.HashCode() <==> a.Equals(b)
  {
    if a.HashCode() == b.HashCode() {
      HashOfNumberInjective(a.number, b.number);
    }
  }

  // ---------------------------------------------------------------------
  // Collections of balls

  ghost predicate AllValid(balls: seq<Ball>)
    reads balls
  {
    forall k :: 0 <= k < |balls| ==> balls[k].Valid()
  }

  /** No two balls share a number: what a HashSet of balls compared by number holds. */
  predicate DistinctNumbers(balls: seq<Ball>) {
    forall j, k :: 0 <= j < |balls| && 0 <= k < |balls| && j != k ==> balls[j].number != balls[k].number
  }

  /** The state of every ball of the collection, in its iteration order. */
  ghost function Snapshot(balls: seq<Ball>): (s: seq<BallState>)
    reads balls, set b | b in balls :: b.direction
    requires AllValid(balls)
    ensures |s| == |balls|
    ensures forall k :: 0 <= k < |balls| ==> s[k] == balls[k].State()
  {
    if |balls| == 0 then [] else Snapshot(balls[..|balls| - 1]) + [balls[|balls| - 1].State()]
  }

  /** When every ball but `i` still has its state in `before`, the snapshot differs from `before` at `i` alone. */
  lemma SnapshotAfterUpdate(balls: seq<Ball>, i: nat, before: seq<BallState>)
    requires i < |balls| == |before| && AllValid(balls)
    requires forall k :: 0 <= k < |balls| && k != i ==> balls[k].State() == before[k]
    ensures Snapshot(balls) == before[i := balls[i].State()]
  {
  }
}
