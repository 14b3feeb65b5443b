/**
 * The billiards table (components/Table.java): an axis-aligned rectangle whose
 * four corners are pockets. All its fields are final, so a table is a value.
 */
module TableComponent {
  import opened VectorCalc

  /** The pocket radius, `holeDim` in the Java class. */
  const HoleDim: real := 20.0

  /**
   * A table with its top-left corner at (x, y). The Java getters getX, getY,
   * getWidth and getHeight are the datatype's fields.
   */
  datatype Table = Table(x: real, y: real, width: real, height: real)

  /** The pocket centres in the order hitPocket tests them: left-top, right-top, right-bottom, left-bottom. */
  function Pockets(t: Table): seq<Vector> {
    [Vector(t.x, t.y), Vector(t.x + t.width, t.y),
     Vector(t.x + t.width, t.y + t.height), Vector(t.x, t.y + t.height)]
  }

  /** `(px, py)` is strictly closer than HoleDim to pocket `k`, compared without a root. */
  predicate NearPocket(t: Table, k: nat, px: real, py: real)
    requires k < 4
  {
    SquaredDistance(Pockets(t)[k], Vector(px, py)) < HoleDim * HoleDim
  }

  /** hitPocket: the point lies inside the radius of one of the four pockets. */
  function HitPocket(t: Table, px: real, py: real): (hit: bool)
    ensures hit <==> exists k :: 0 <= k < 4 && NearPocket(t, k, px, py)
  {
    NearPocket(t, 0, px, py) || NearPocket(t, 1, px, py) || NearPocket(t, 2, px, py) || NearPocket(t, 3, px, py)
  }

  /** The squared-distance test is the Java test with its four square roots. */
  lemma HitPocketIsRootTest(t: Table, px: real, py: real, sqrt: real -> real)
    requires IsSqrt(sqrt)
    ensures HitPocket(t, px, py) <==>
      Distance(Vector(t.x, t.y), Vector(px, py), sqrt) < HoleDim
      || Distance(Vector(t.x + t.width, t.y), Vector(px, py), sqrt) < HoleDim
      || Distance(Vector(t.x + t.width, t.y + t.height), Vector(px, py), sqrt) < HoleDim
      || Distance(Vector(t.x, t.y + t.height), Vector(px, py), sqrt) < HoleDim
  {
    var p := Vector(px, py);
    DistanceBelow(Vector(t.x, t.y), p, sqrt, HoleDim);
    DistanceBelow(Vector(t.x + t.width, t.y), p, sqrt, HoleDim);
    DistanceBelow(Vector(t.x + t.width, t.y + t.height), p, sqrt, HoleDim);
    DistanceBelow(Vector(t.x, t.y + t.height), p, sqrt, HoleDim);
  }

  /** Each corner of the table is inside its own pocket. */
  lemma CornersArePockets(t: Table)
    ensures forall k :: 0 <= k < 4 ==> HitPocket(t, Pockets(t)[k].x, Pockets(t)[k].y)
  {
    forall k | 0 <= k < 4
      ensures HitPocket(t, Pockets(t)[k].x, Pockets(t)[k].y)
    {
      var c := Pockets(t)[k];
      assert SquaredDistance(c, Vector(c.x, c.y)) == 0.0;
      assert NearPocket(t, k, c.x, c.y);
    }
  }

  /** The test is strict: a point exactly HoleDim from one pocket and at least that far from all is no hit. */
  lemma PocketRimIsNoHit(t: Table, px: real, py: real)
    requires forall k :: 0 <= k < 4 ==> SquaredDistance(Pockets(t)[k], Vector(px, py)) >= HoleDim * HoleDim
    requires SquaredDistance(Pockets(t)[0], Vector(px, py)) == HoleDim * HoleDim
    ensures !HitPocket(t, px, py)
  {
  }
}
