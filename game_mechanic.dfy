/**
 * One simulation step of one ball (logic/GameMechanic.java, class Worker):
 * moveBall and its helpers findBallToHit, hitOtherBall and hitTableBorder.
 *
 * The first half gives the step as functions on ball states; the second half
 * gives the Java methods as imperative methods on Ball objects, each proved to
 * do what the corresponding function says. The worker's own ball is
 * `balls[i]`; the threads that run the workers side by side are not modelled.
 */
module GameMechanic {
  import opened Wrappers
  import opened VectorCalc
  import opened TableComponent
  import opened BallComponent

  function Abs(r: real): real {
    if r < 0.0 then -r else r
  }

  /** The point the ball reaches in `dt` when nothing is in the way. */
  function Destination(me: BallState, dt: real): Vector {
    Vector(me.pos.x + me.dir.x * me.velocity * dt, me.pos.y + me.dir.y * me.velocity * dt)
  }

  /** The move towards the destination is the direction scaled by velocity times time. */
  lemma DestinationAlongDirection(me: BallState, dt: real)
    ensures Subtract(Destination(me, dt), me.pos) == Multiply(me.velocity * dt, me.dir)
  {
    assert me.dir.x * me.velocity * dt == me.dir.x * (me.velocity * dt);
    assert me.dir.y * me.velocity * dt == me.dir.y * (me.velocity * dt);
  }

  // ---------------------------------------------------------------------
  // findBallToHit

  /** The value of the loop counter distanceTmp after `k` steps of 0.1. */
  function SampleStep(k: nat): real {
    k as real / 10.0
  }

  /** The sample point as the code computes it: coordinate times step times direction. */
  function SamplePoint(me: BallState, step: real): Vector {
    Vector(me.pos.x * step * me.dir.x, me.pos.y * step * me.dir.y)
  }

  /** The sampling loop, from sample `k` on, finds a sample point within a ball diameter of `other`. */
  predicate SampleHit(me: BallState, other: Vector, dist: real, k: nat, sqrt: real -> real)
    decreases (10.0 * dist).Floor - k
  {
    SampleStep(k) < dist
    && (Distance(SamplePoint(me, SampleStep(k)), other, sqrt) <= Diameter
        || SampleHit(me, other, dist, k + 1, sqrt))
  }

  predicate SampleNear(me: BallState, other: Vector, dist: real, k: nat, sqrt: real -> real) {
    SampleStep(k) < dist && Distance(SamplePoint(me, SampleStep(k)), other, sqrt) <= Diameter
  }

  /** The sampling loop finds a hit exactly when one of its sample steps below `dist` is near `other`. */
  lemma {:induction false} SampleHitIff(me: BallState, other: Vector, dist: real, k: nat, sqrt: real -> real)
    ensures SampleHit(me, other, dist, k, sqrt) <==> exists n :: k <= n && SampleNear(me, other, dist, n, sqrt)
    decreases (10.0 * dist).Floor - k
  {
    if SampleStep(k) < dist {
      SampleHitIff(me, other, dist, k + 1, sqrt);
      if SampleHit(me, other, dist, k, sqrt) {
        if SampleNear(me, other, dist, k, sqrt) {
          assert k <= k && SampleNear(me, other, dist, k, sqrt);
        }
      } else {
        forall n | k <= n
          ensures !SampleNear(me, other, dist, n, sqrt)
        {
          if n == k {
          } else {
            assert k + 1 <= n;
          }
        }
      }
    } else {
      forall n | k <= n
        ensures !SampleNear(me, other, dist, n, sqrt)
      {
        assert SampleStep(k) <= SampleStep(n);
      }
    }
  }

  /**
   * The point `p` is less than half a diameter from the line a*x + b*y + c = 0.
   * A zero divisor makes the Java comparison false (NaN or infinity).
   */
  predicate NearLine(a: real, b: real, c: real, p: Vector, sqrt: real -> real) {
    var den := sqrt(a * a + b * b);
    den != 0.0 && Abs(a * p.x + b * p.y + c) / den < Diameter / 2.0
  }

  /** `other` is near the line through the ball's position along its direction. */
  predicate NearPath(me: BallState, other: Vector, sqrt: real -> real) {
    NearLine(me.dir.y, -me.dir.x, me.pos.y * me.dir.x - me.pos.x * me.dir.y, other, sqrt)
  }

  /** findBallToHit picks `other` for the moving ball `me` heading for `newP`. */
  predicate Hits(me: BallState, other: BallState, newP: Vector, dist: real, sqrt: real -> real) {
    other.number != me.number
    && (Distance(newP, other.pos, sqrt) <= Diameter
        || (NearPath(me, other.pos, sqrt) && SampleHit(me, other.pos, dist, 0, sqrt)))
  }

  /** The first ball, from position `from` of the iteration order on, that findBallToHit picks. */
  function FindTarget(s: seq<BallState>, me: BallState, newP: Vector, dist: real, sqrt: real -> real, from: nat): (r: Option<nat>)
    requires from <= |s|
    ensures r.Some? ==> from <= r.value < |s| && Hits(me, s[r.value], newP, dist, sqrt)
    ensures r.Some? ==> forall k :: from <= k < r.value ==> !Hits(me, s[k], newP, dist, sqrt)
    ensures r.None? <==> forall k :: from <= k < |s| ==> !Hits(me, s[k], newP, dist, sqrt)
    decreases |s| - from
  {
    if from == |s| then None
    else if Hits(me, s[from], newP, dist, sqrt) then Some(from)
    else FindTarget(s, me, newP, dist, sqrt, from + 1)
  }

  /** One step of the search: a hit at `k` is the answer, a miss passes the search on to `k + 1`. */
  lemma FindTargetStep(s: seq<BallState>, me: BallState, newP: Vector, dist: real, sqrt: real -> real, k: nat)
    requires k < |s|
    ensures Hits(me, s[k], newP, dist, sqrt) ==> FindTarget(s, me, newP, dist, sqrt, k) == Some(k)
    ensures !Hits(me, s[k], newP, dist, sqrt) ==>
      FindTarget(s, me, newP, dist, sqrt, k) == FindTarget(s, me, newP, dist, sqrt, k + 1)
  {
  }

  /** A ball within a diameter of the destination is always found, and the moving ball never is. */
  lemma FindTargetNearby(s: seq<BallState>, me: BallState, newP: Vector, dist: real, sqrt: real -> real, k: nat)
    requires k < |s| && s[k].number != me.number
    requires Distance(newP, s[k].pos, sqrt) <= Diameter
    ensures FindTarget(s, me, newP, dist, sqrt, 0).Some?
    ensures s[FindTarget(s, me, newP, dist, sqrt, 0).value].number != me.number
  {
    assert Hits(me, s[k], newP, dist, sqrt);
  }

  // ---------------------------------------------------------------------
  // hitOtherBall

  /** The three vectors hitOtherBall normalises are not zero. */
  predicate CollideDefined(me: BallState, other: BallState, sqrt: real -> real) {
    var hit := Subtract(me.pos, other.pos);
    Magnitude(hit, sqrt) != 0.0
    && Magnitude(Reflect(me.dir, Normalize(hit, sqrt)), sqrt) != 0.0
    && Magnitude(Subtract(other.pos, me.pos), sqrt) != 0.0
  }

  /**
   * Ball `i` strikes ball `j`: the striker turns to its direction mirrored on the
   * line of centres, and the struck ball leaves along that line with the
   * striker's velocity.
   */
  function Collide(s: seq<BallState>, i: nat, j: nat, sqrt: real -> real): (r: seq<BallState>)
    requires i < |s| && j < |s| && i != j && CollideDefined(s[i], s[j], sqrt)
    ensures |r| == |s|
    ensures forall k :: 0 <= k < |s| && k != i && k != j ==> r[k] == s[k]
    ensures r[i] == s[i].(dir := r[i].dir)
    ensures r[j] == s[j].(dir := r[j].dir, velocity := s[i].velocity)
  {
    var me, other := s[i], s[j];
    var (meDir, otherDir) := CollisionDirections(me, other, sqrt);
    s[i := me.(dir := meDir)][j := other.(dir := otherDir, velocity := me.velocity)]
  }

  /**
   * The new directions of striker and struck ball: the striker's direction
   * reflected on the normalised line of centres, and the unit vector from
   * the striker's centre to the struck ball's.
   */
  function CollisionDirections(me: BallState, other: BallState, sqrt: real -> real): (Vector, Vector)
    requires CollideDefined(me, other, sqrt)
  {
    var hit := Normalize(Subtract(me.pos, other.pos), sqrt);
    (Normalize(Reflect(me.dir, hit), sqrt), Normalize(Subtract(other.pos, me.pos), sqrt))
  }

  /** The struck ball heads from the striker's centre towards its own. */
  lemma CollideAimsAlongCentres(s: seq<BallState>, i: nat, j: nat, sqrt: real -> real)
    requires i < |s| && j < |s| && i != j && CollideDefined(s[i], s[j], sqrt)
    ensures var d := Subtract(s[j].pos, s[i].pos);
      Multiply(Magnitude(d, sqrt), Collide(s, i, j, sqrt)[j].dir) == d
  {
    NormalizeScalesBack(Subtract(s[j].pos, s[i].pos), sqrt);
  }

  /** Both directions hitOtherBall hands out are unit vectors. */
  lemma CollisionDirectionsUnit(me: BallState, other: BallState, sqrt: real -> real)
    requires IsSqrt(sqrt) && CollideDefined(me, other, sqrt)
    ensures var d := CollisionDirections(me, other, sqrt);
      Dot(d.0, d.0) == 1.0 && Dot(d.1, d.1) == 1.0
  {
    var hit := Normalize(Subtract(me.pos, other.pos), sqrt);
    var reflected := Reflect(me.dir, hit);
    var back := Subtract(other.pos, me.pos);
    MagnitudeZeroIff(reflected, sqrt);
    MagnitudeZeroIff(back, sqrt);
    NormalizeIsUnit(reflected, sqrt);
    NormalizeIsUnit(back, sqrt);
  }

  // ---------------------------------------------------------------------
  // hitTableBorder

  datatype Side = Left | Right | Top | Bottom

  /** The cushion hitTableBorder reflects on, tested left, right, top, bottom in that order. */
  function HitSide(t: Table, p: Vector): (side: Option<Side>)
    ensures side.None? <==> t.x <= p.x <= t.x + t.width && t.y <= p.y <= t.y + t.height
    ensures side == Some(Left) <==> p.x < t.x
    ensures side == Some(Right) <==> t.x <= p.x && t.x + t.width < p.x
    ensures side == Some(Top) <==> t.x <= p.x <= t.x + t.width && p.y < t.y
    ensures side == Some(Bottom) <==> t.x <= p.x <= t.x + t.width && t.y <= p.y && t.y + t.height < p.y
  {
    if p.x < t.x then Some(Left)
    else if p.x > t.x + t.width then Some(Right)
    else if p.y < t.y then Some(Top)
    else if p.y > t.y + t.height then Some(Bottom)
    else None
  }

  /** The hitVector of each cushion. */
  function Normal(side: Side): Vector {
    match side
    case Left => Vector(1.0, 0.0)
    case Right => Vector(-1.0, 0.0)
    case Top => Vector(0.0, 1.0)
    case Bottom => Vector(0.0, -1.0)
  }

  /** Every cushion normal is a unit vector, so reflecting on it keeps the length of a direction. */
  lemma NormalIsUnit(side: Side)
    ensures Dot(Normal(side), Normal(side)) == 1.0
  {
    match side
    case Left =>
      assert Normal(side) == Vector(1.0, 0.0);
    case Right =>
      assert Normal(side) == Vector(-1.0, 0.0);
    case Top =>
      assert Normal(side) == Vector(0.0, 1.0);
    case Bottom =>
      assert Normal(side) == Vector(0.0, -1.0);
  }

  /** Reflecting on a cushion normal negates one component: x at the side cushions, y at the top and bottom. */
  lemma NormalMirrors(side: Side, d: Vector)
    ensures Reflect(d, Normal(side)) == if side == Left || side == Right then Vector(-d.x, d.y) else Vector(d.x, -d.y)
  {
    ReflectAxisNormals(d);
    match side
    case Left =>
      assert Normal(side) == Vector(1.0, 0.0);
    case Right =>
      assert Normal(side) == Vector(-1.0, 0.0);
    case Top =>
      assert Normal(side) == Vector(0.0, 1.0);
    case Bottom =>
      assert Normal(side) == Vector(0.0, -1.0);
  }

  /** `p` lies on the line of the given cushion. */
  predicate OnCushion(t: Table, side: Side, p: Vector) {
    match side
    case Left => p.x == t.x
    case Right => p.x == t.x + t.width
    case Top => p.y == t.y
    case Bottom => p.y == t.y + t.height
  }

  function Slope(pos: Vector, newP: Vector): real
    requires newP.x != pos.x
  {
    (newP.y - pos.y) / (newP.x - pos.x)
  }

  /** The slope exists and, for the top and bottom cushions, is not zero. */
  predicate IntersectionDefined(side: Side, pos: Vector, newP: Vector) {
    newP.x != pos.x && ((side == Top || side == Bottom) ==> newP.y != pos.y)
  }

  lemma QuotientNonzero(n: real, d: real)
    requires n != 0.0 && d != 0.0
    ensures n / d != 0.0
  {
    assert n / d * d == n;
  }

  /** Where the line through the ball's position and `newP` meets the cushion. */
  function Intersection(t: Table, side: Side, pos: Vector, newP: Vector): (p: Vector)
    requires IntersectionDefined(side, pos, newP)
    ensures OnCushion(t, side, p)
    ensures Cross(Subtract(newP, pos), Subtract(p, pos)) == 0.0
  {
    var a := Slope(pos, newP);
    var b := pos.y - a * pos.x;
    assert (newP.x - pos.x) * a == newP.y - pos.y;
    match side
    case Left =>
      Vector(t.x, a * t.x + b)
    case Right =>
      var ballX := t.x + t.width;
      Vector(ballX, a * ballX + b)
    case Top =>
      QuotientNonzero(newP.y - pos.y, newP.x - pos.x);
      assert (t.y - b) / a * a == t.y - b;
      Vector((t.y - b) / a, t.y)
    case Bottom =>
      QuotientNonzero(newP.y - pos.y, newP.x - pos.x);
      assert (t.y + t.height - b) / a * a == t.y + t.height - b;
      Vector((t.y + t.height - b) / a, t.y + t.height)
  }

  /** The point, direction and remaining distance after one reflection. */
  datatype Bounce = Bounce(point: Vector, dir: Vector, rest: real)

  predicate BounceDefined(side: Side, pos: Vector, dir: Vector, newP: Vector, sqrt: real -> real) {
    IntersectionDefined(side, pos, newP) && Magnitude(Reflect(dir, Normal(side)), sqrt) != 0.0
  }

  /**
   * One reflection: the distance left is the travel distance less the distance
   * from the ball's position to the cushion, and it is covered from the
   * intersection along the normalised reflected direction.
   */
  function BounceOff(t: Table, side: Side, pos: Vector, dir: Vector, newP: Vector, dist: real, sqrt: real -> real): Bounce
    requires BounceDefined(side, pos, dir, newP, sqrt)
  {
    var p := Intersection(t, side, pos, newP);
    var rest := dist - Distance(p, pos, sqrt);
    var r := Normalize(Reflect(dir, Normal(side)), sqrt);
    Bounce(Vector(p.x + rest * r.x, p.y + rest * r.y), r, rest)
  }

  /** The reflected direction is the old one with one component negated, normalised. */
  lemma BounceMirrorsDirection(t: Table, side: Side, pos: Vector, dir: Vector, newP: Vector, dist: real, sqrt: real -> real)
    requires BounceDefined(side, pos, dir, newP, sqrt)
    ensures var m := if side == Left || side == Right then Vector(-dir.x, dir.y) else Vector(dir.x, -dir.y);
      Magnitude(m, sqrt) != 0.0 && BounceOff(t, side, pos, dir, newP, dist, sqrt).dir == Normalize(m, sqrt)
  {
    NormalMirrors(side, dir);
  }

  /** The direction a reflection gives the ball is a unit vector. */
  lemma BounceOffUnit(t: Table, side: Side, pos: Vector, dir: Vector, newP: Vector, dist: real, sqrt: real -> real)
    requires IsSqrt(sqrt) && BounceDefined(side, pos, dir, newP, sqrt)
    ensures var d := BounceOff(t, side, pos, dir, newP, dist, sqrt).dir; Dot(d, d) == 1.0
  {
    var reflected := Reflect(dir, Normal(side));
    MagnitudeZeroIff(reflected, sqrt);
    NormalizeIsUnit(reflected, sqrt);
  }

  /** Every division of hitTableBorder, at every level of its recursion, has a non-zero divisor. */
  predicate BorderDefined(t: Table, pos: Vector, dir: Vector, newP: Vector, dist: real, loop: int, sqrt: real -> real)
    decreases 11 - loop
  {
    if loop > 10 || HitSide(t, newP).None? then true
    else
      var side := HitSide(t, newP).value;
      BounceDefined(side, pos, dir, newP, sqrt)
      && var b := BounceOff(t, side, pos, dir, newP, dist, sqrt);
         BorderDefined(t, pos, b.dir, b.point, b.rest, loop + 1, sqrt)
  }

  /**
   * hitTableBorder: the final point and direction. The ball's position `pos`
   * is the one it had before the step, at every level of the recursion.
   */
  function Border(t: Table, pos: Vector, dir: Vector, newP: Vector, dist: real, loop: int, sqrt: real -> real): (Vector, Vector)
    requires BorderDefined(t, pos, dir, newP, dist, loop, sqrt)
    decreases 11 - loop
  {
    if loop > 10 then (newP, dir)
    else match HitSide(t, newP)
      case None => (newP, dir)
      case Some(side) =>
        var b := BounceOff(t, side, pos, dir, newP, dist, sqrt);
        Border(t, pos, b.dir, b.point, b.rest, loop + 1, sqrt)
  }

  /** The number of reflections hitTableBorder performs. */
  function Reflections(t: Table, pos: Vector, dir: Vector, newP: Vector, dist: real, loop: int, sqrt: real -> real): nat
    requires BorderDefined(t, pos, dir, newP, dist, loop, sqrt)
    decreases 11 - loop
  {
    if loop > 10 then 0
    else match HitSide(t, newP)
      case None => 0
      case Some(side) =>
        var b := BounceOff(t, side, pos, dir, newP, dist, sqrt);
        1 + Reflections(t, pos, b.dir, b.point, b.rest, loop + 1, sqrt)
  }

  /** A point on the table comes back unchanged with the direction untouched. */
  lemma BorderInsideUnchanged(t: Table, pos: Vector, dir: Vector, newP: Vector, dist: real, loop: int, sqrt: real -> real)
    requires t.x <= newP.x <= t.x + t.width && t.y <= newP.y <= t.y + t.height
    ensures BorderDefined(t, pos, dir, newP, dist, loop, sqrt)
    ensures Border(t, pos, dir, newP, dist, loop, sqrt) == (newP, dir)
    ensures Reflections(t, pos, dir, newP, dist, loop, sqrt) == 0
  {
  }

  /**
   * At most 11 reflections happen from loop 0; the returned point is on the
   * table unless the cap stopped the recursion.
   */
  lemma {:induction false} BorderBounded(t: Table, pos: Vector, dir: Vector, newP: Vector, dist: real, loop: int, sqrt: real -> real)
    requires 0 <= loop <= 11 && BorderDefined(t, pos, dir, newP, dist, loop, sqrt)
    ensures Reflections(t, pos, dir, newP, dist, loop, sqrt) <= 11 - loop
    ensures Reflections(t, pos, dir, newP, dist, loop, sqrt) < 11 - loop ==>
      HitSide(t, Border(t, pos, dir, newP, dist, loop, sqrt).0).None?
    decreases 11 - loop
  {
    if loop <= 10 && HitSide(t, newP).Some? {
      var b := BounceOff(t, HitSide(t, newP).value, pos, dir, newP, dist, sqrt);
      BorderBounded(t, pos, b.dir, b.point, b.rest, loop + 1, sqrt);
    }
  }

  /** A direction of length 0 (a ball never struck) or 1 (after any normalisation). */
  predicate UnitOrZero(d: Vector) {
    d == Zero || Dot(d, d) == 1.0
  }

  /** hitTableBorder leaves the direction as it was or gives it length 1. */
  lemma {:induction false} BorderKeepsUnit(t: Table, pos: Vector, dir: Vector, newP: Vector, dist: real, loop: int, sqrt: real -> real)
    requires IsSqrt(sqrt) && BorderDefined(t, pos, dir, newP, dist, loop, sqrt)
    ensures var d := Border(t, pos, dir, newP, dist, loop, sqrt).1; d == dir || Dot(d, d) == 1.0
    decreases 11 - loop
  {
    if loop <= 10 && HitSide(t, newP).Some? {
      var side := HitSide(t, newP).value;
      var b := BounceOff(t, side, pos, dir, newP, dist, sqrt);
      BounceOffUnit(t, side, pos, dir, newP, dist, sqrt);
      BorderKeepsUnit(t, pos, b.dir, b.point, b.rest, loop + 1, sqrt);
    }
  }

  // ---------------------------------------------------------------------
  // moveBall

  /** The velocity after friction: v - 0.9 v dt, cut to zero when it is at most 1. */
  function Friction(v: real, dt: real): (r: real)
    ensures r == 0.0 || r > 1.0
    ensures 0.0 <= v && 0.0 <= dt <= 1.0 ==> 0.0 <= r <= v
  {
    FrictionLoss(v, dt);
    var nv := v - v * 0.9 * dt;
    if nv <= 1.0 then 0.0 else nv
  }

  /** For 0 <= dt <= 1 the friction loss lies between nothing and nine tenths of the velocity. */
  lemma FrictionLoss(v: real, dt: real)
    ensures 0.0 <= v && 0.0 <= dt <= 1.0 ==> 0.0 <= v * 0.9 * dt <= v * 0.9
  {
    if 0.0 <= v && 0.0 <= dt <= 1.0 {
      calc {
        v * 0.9 * dt;
        ==
        (v * 0.9) * dt;
        <=
        (v * 0.9) * 1.0;
      }
    }
  }

  /** The velocity after `n` ticks of friction with the same time step. */
  function FrictionIter(v: real, dt: real, n: nat): (r: real)
    ensures 0.0 <= v && 0.0 <= dt <= 1.0 ==> 0.0 <= r <= v
    decreases n
  {
    if n == 0 then v else FrictionIter(Friction(v, dt), dt, n - 1)
  }

  /** A tick either stops the ball or takes at least 0.9 dt off its velocity. */
  lemma FrictionDrop(v: real, dt: real)
    requires 0.0 <= v && 0.0 < dt
    ensures Friction(v, dt) == 0.0 || Friction(v, dt) <= v - 0.9 * dt
  {
    var c := 0.9 * dt;
    var loss := v * 0.9 * dt;
    assert loss == v * c;
    if v - loss > 1.0 {
      assert v > 1.0 by {
        if v > 0.0 {
          ProductSign(c, v);
        }
      }
      ProductSign(v - 1.0, c);
      assert v * c == c + (v - 1.0) * c;
    }
  }

  /** One tick's worth taken off a budget of `k + 1` ticks leaves a non-negative budget of `k`. */
  lemma BudgetStep(k: nat, c: real)
    requires 0.0 < c
    ensures ((k + 1) as real) * c - c == (k as real) * c
    ensures 0.0 <= (k as real) * c
  {
    if k > 0 {
      ProductSign(k as real, c);
    }
  }

  /** A ball with velocity at most n times 0.9 dt has stopped after n ticks. */
  lemma {:induction false} FrictionStops(v: real, dt: real, n: nat)
    requires 0.0 <= v && 0.0 < dt
    requires v <= (n as real) * (0.9 * dt)
    ensures FrictionIter(v, dt, n) == 0.0
    decreases n
  {
    if n > 0 {
      var w := Friction(v, dt);
      FrictionDrop(v, dt);
      BudgetStep(n - 1, 0.9 * dt);
      assert w <= ((n - 1) as real) * (0.9 * dt);
      FrictionStops(w, dt, n - 1);
    }
  }

  /** For any positive time step, the velocity reaches 0 after at most v / (0.9 dt) + 1 ticks. */
  lemma FrictionConverges(v: real, dt: real)
    requires 0.0 <= v && 0.0 < dt
    ensures FrictionIter(v, dt, (v / (0.9 * dt)).Floor + 1) == 0.0
  {
    var c := 0.9 * dt;
    var q := v / c;
    assert q * c == v;
    ProductSign(q, c);
    var n: nat := q.Floor + 1;
    assert (n as real) > q;
    ProductSign((n as real) - q, c);
    assert (n as real) * c == q * c + ((n as real) - q) * c;
    FrictionStops(v, dt, n);
  }

  /** The hit or the cushion path towards `newP` is defined (no division by zero, no zero vector normalised). */
  predicate TravelDefined(t: Table, s: seq<BallState>, i: nat, newP: Vector, dist: real, sqrt: real -> real)
    requires i < |s|
  {
    match FindTarget(s, s[i], newP, dist, sqrt, 0)
    case Some(j) => CollideDefined(s[i], s[j], sqrt)
    case None => BorderDefined(t, s[i].pos, s[i].dir, newP, dist, 0, sqrt)
  }

  /** Every step of moveBall for ball `i` is defined. */
  predicate MoveDefined(t: Table, s: seq<BallState>, i: nat, dt: real, sqrt: real -> real)
    requires i < |s|
  {
    var newP := Destination(s[i], dt);
    s[i].velocity <= 0.01 || TravelDefined(t, s, i, newP, Distance(newP, s[i].pos, sqrt), sqrt)
  }

  /**
   * The states after ball `i` heads for `newP`, `dist` away: it strikes the ball
   * findBallToHit finds or, failing one, follows hitTableBorder's path.
   */
  function Travel(t: Table, s: seq<BallState>, i: nat, newP: Vector, dist: real, sqrt: real -> real): (r: seq<BallState>)
    requires i < |s| && TravelDefined(t, s, i, newP, dist, sqrt)
    ensures |r| == |s|
  {
    match FindTarget(s, s[i], newP, dist, sqrt, 0)
    case Some(j) => Collide(s, i, j, sqrt)
    case None =>
      var (p, d) := Border(t, s[i].pos, s[i].dir, newP, dist, 0, sqrt);
      s[i := s[i].(pos := p, dir := d)]
  }

  /** The end of moveBall: the pocket test at the ball's place, then friction. */
  function Settle(t: Table, me: BallState, dt: real): BallState {
    me.(inPocket := me.inPocket || HitPocket(t, me.pos.x, me.pos.y), velocity := Friction(me.velocity, dt))
  }

  /** moveBall for ball `i` over the states of all balls. */
  function Move(t: Table, s: seq<BallState>, i: nat, dt: real, sqrt: real -> real): (r: seq<BallState>)
    requires i < |s| && MoveDefined(t, s, i, dt, sqrt)
    ensures |r| == |s|
  {
    if s[i].velocity <= 0.01 then s
    else
      var newP := Destination(s[i], dt);
      var s1 := Travel(t, s, i, newP, Distance(newP, s[i].pos, sqrt), sqrt);
      s1[i := Settle(t, s1[i], dt)]
  }

  /** The ball the step strikes, if any. */
  function Target(t: Table, s: seq<BallState>, i: nat, dt: real, sqrt: real -> real): Option<nat>
    requires i < |s|
  {
    if s[i].velocity <= 0.01 then None
    else
      var newP := Destination(s[i], dt);
      FindTarget(s, s[i], newP, Distance(newP, s[i].pos, sqrt), sqrt, 0)
  }

  /** A ball at most 0.01 fast does not move and changes nothing. */
  lemma MoveSlowBall(t: Table, s: seq<BallState>, i: nat, dt: real, sqrt: real -> real)
    requires i < |s| && s[i].velocity <= 0.01
    ensures MoveDefined(t, s, i, dt, sqrt) && Move(t, s, i, dt, sqrt) == s
  {
  }

  /**
   * Only the moving ball and the ball it strikes change; numbers and colours never
   * do; the struck ball takes over the striker's velocity and keeps its place.
   */
  lemma MoveFrame(t: Table, s: seq<BallState>, i: nat, dt: real, sqrt: real -> real)
    requires i < |s| && MoveDefined(t, s, i, dt, sqrt)
    ensures var r := Move(t, s, i, dt, sqrt);
      forall k :: 0 <= k < |s| ==> r[k].number == s[k].number && r[k].isWhite == s[k].isWhite
    ensures var r := Move(t, s, i, dt, sqrt);
      forall k :: 0 <= k < |s| && k != i && Target(t, s, i, dt, sqrt) != Some(k) ==> r[k] == s[k]
    ensures var r := Move(t, s, i, dt, sqrt);
      Target(t, s, i, dt, sqrt).Some? ==>
        var j := Target(t, s, i, dt, sqrt).value;
        j != i && r[j] == s[j].(dir := r[j].dir, velocity := s[i].velocity)
  {
  }

  /**
   * The moving ball: it keeps its place when it strikes a ball and otherwise ends
   * where hitTableBorder puts it; it is pocketed iff it was or its final place is
   * in a pocket; its velocity is the friction rule applied to the old one.
   */
  lemma MoveStriker(t: Table, s: seq<BallState>, i: nat, dt: real, sqrt: real -> real)
    requires i < |s| && MoveDefined(t, s, i, dt, sqrt) && s[i].velocity > 0.01
    ensures var r := Move(t, s, i, dt, sqrt);
      r[i].number == s[i].number && r[i].isWhite == s[i].isWhite
      && (Target(t, s, i, dt, sqrt).Some? ==> r[i].pos == s[i].pos)
      && (Target(t, s, i, dt, sqrt).None? ==>
          var newP := Destination(s[i], dt);
          (r[i].pos, r[i].dir) == Border(t, s[i].pos, s[i].dir, newP, Distance(newP, s[i].pos, sqrt), 0, sqrt))
      && (r[i].inPocket <==> s[i].inPocket || HitPocket(t, r[i].pos.x, r[i].pos.y))
      && r[i].velocity == Friction(s[i].velocity, dt)
  {
  }

  /** With 0 <= dt <= 1, velocities stay non-negative and the moving ball does not speed up. */
  lemma MoveKeepsVelocitiesNonnegative(t: Table, s: seq<BallState>, i: nat, dt: real, sqrt: real -> real)
    requires i < |s| && MoveDefined(t, s, i, dt, sqrt) && 0.0 <= dt <= 1.0
    requires forall k :: 0 <= k < |s| ==> s[k].velocity >= 0.0
    ensures var r := Move(t, s, i, dt, sqrt);
      (forall k :: 0 <= k < |s| ==> r[k].velocity >= 0.0) && r[i].velocity <= s[i].velocity
  {
    if s[i].velocity > 0.01 {
      MoveFrame(t, s, i, dt, sqrt);
      MoveStriker(t, s, i, dt, sqrt);
    }
  }

  /** The pocket flag only goes from false to true. */
  lemma MovePocketMonotone(t: Table, s: seq<BallState>, i: nat, dt: real, sqrt: real -> real)
    requires i < |s| && MoveDefined(t, s, i, dt, sqrt)
    ensures forall k :: 0 <= k < |s| && s[k].inPocket ==> Move(t, s, i, dt, sqrt)[k].inPocket
  {
    if s[i].velocity > 0.01 {
      MoveFrame(t, s, i, dt, sqrt);
      MoveStriker(t, s, i, dt, sqrt);
    }
  }

  /** Directions of length 0 or 1 stay so: every direction moveBall sets is normalised. */
  lemma MoveKeepsDirectionsUnit(t: Table, s: seq<BallState>, i: nat, dt: real, sqrt: real -> real)
    requires IsSqrt(sqrt) && i < |s| && MoveDefined(t, s, i, dt, sqrt)
    requires forall k :: 0 <= k < |s| ==> UnitOrZero(s[k].dir)
    ensures forall k :: 0 <= k < |s| ==> UnitOrZero(Move(t, s, i, dt, sqrt)[k].dir)
  {
    if s[i].velocity > 0.01 {
      var newP := Destination(s[i], dt);
      var dist := Distance(newP, s[i].pos, sqrt);
      var s1 := Travel(t, s, i, newP, dist, sqrt);
      assert Move(t, s, i, dt, sqrt) == s1[i := Settle(t, s1[i], dt)];
      match FindTarget(s, s[i], newP, dist, sqrt, 0)
      case Some(j) =>
        CollisionDirectionsUnit(s[i], s[j], sqrt);
        assert s1 == Collide(s, i, j, sqrt);
      case None =>
        BorderKeepsUnit(t, s[i].pos, s[i].dir, newP, dist, 0, sqrt);
    }
  }

  /** One pass of the sampling loop below `dist`: the next step, the bound that ends the loop, and one unfolding. */
  lemma SampleLoopStep(me: BallState, other: Vector, dist: real, n: nat, sqrt: real -> real)
    requires SampleStep(n) < dist
    ensures SampleStep(n) + 0.1 == SampleStep(n + 1)
    ensures 0 <= (10.0 * dist).Floor - n
    ensures SampleHit(me, other, dist, n, sqrt) <==>
      Distance(SamplePoint(me, SampleStep(n)), other, sqrt) <= Diameter || SampleHit(me, other, dist, n + 1, sqrt)
  {
    assert n as real < 10.0 * dist;
  }

  // ---------------------------------------------------------------------
  // The Java methods on Ball objects

  /**
   * The inner loop of findBallToHit: steps distanceTmp by 0.1 from 0 while it is
   * below `dist` and stops at the first sample point within a diameter of `otherPos`.
   */
  method SampleAlongPath(me: Ball, otherPos: Vector, dist: real, sqrt: real -> real) returns (hit: bool)
    requires me.Valid()
    ensures hit == SampleHit(me.State(), otherPos, dist, 0, sqrt)
  {
    ghost var m := me.State();
    var step := 0.0;
    ghost var n: nat := 0;
    while step < dist
      invariant step == SampleStep(n)
      invariant SampleHit(m, otherPos, dist, 0, sqrt) == SampleHit(m, otherPos, dist, n, sqrt)
      decreases (10.0 * dist).Floor - n
    {
      SampleLoopStep(m, otherPos, dist, n, sqrt);
      var sample := SamplePoint(me.State(), step);
      if Distance(sample, otherPos, sqrt) <= Diameter {
        return true;
      }
      step := step + 0.1;
      n := n + 1;
    }
    return false;
  }

  /** One pass of findBallToHit's loop: whether `other` is the ball that `me` strikes. */
  method BallInTheWay(me: Ball, other: Ball, newP: Vector, dist: real, sqrt: real -> real) returns (hit: bool)
    requires me.Valid() && other.Valid()
    ensures hit == Hits(me.State(), other.State(), newP, dist, sqrt)
  {
    if me.Equals(other) {
      return false;
    }
    var otherPos := Vector(other.x, other.y);
    if Distance(newP, otherPos, sqrt) <= Diameter {
      return true;
    }
    hit := false;
    if NearPath(me.State(), otherPos, sqrt) {
      hit := SampleAlongPath(me, otherPos, dist, sqrt);
    }
  }

  /** findBallToHit: the first other ball, in iteration order, that is close to the destination or to the sampled path. */
  method FindBallToHit(balls: seq<Ball>, i: nat, newP: Vector, dist: real, sqrt: real -> real, ghost s: seq<BallState>)
    returns (target: Ball?)
    requires i < |balls| && AllValid(balls) && s == Snapshot(balls)
    ensures match FindTarget(s, s[i], newP, dist, sqrt, 0)
      case None => target == null
      case Some(j) => target == balls[j]
  {
    var me := balls[i];
    ghost var m := s[i];
    var k := 0;
    while k < |balls|
      invariant 0 <= k <= |balls|
      invariant FindTarget(s, m, newP, dist, sqrt, 0) == FindTarget(s, m, newP, dist, sqrt, k)
    {
      var other := balls[k];
      var hit := BallInTheWay(me, other, newP, dist, sqrt);
      FindTargetStep(s, m, newP, dist, sqrt, k);
      if hit {
        return other;
      }
      k := k + 1;
    }
    return null;
  }

  /** Updating the two balls as hitOtherBall does is Collide on the snapshot `before`. */
  lemma CollideOnBalls(balls: seq<Ball>, i: nat, j: nat, before: seq<BallState>, sqrt: real -> real)
    requires i < |balls| == |before| && j < |balls| && i != j && AllValid(balls)
    requires forall k :: 0 <= k < |balls| && k != i && k != j ==> balls[k].State() == before[k]
    requires CollideDefined(before[i], before[j], sqrt)
    requires var d := CollisionDirections(before[i], before[j], sqrt);
      balls[i].State() == before[i].(dir := d.0)
      && balls[j].State() == before[j].(dir := d.1, velocity := before[i].velocity)
    ensures Snapshot(balls) == Collide(before, i, j, sqrt)
  {
  }

  /**
   * hitOtherBall: with a ball to hit, the moving ball `me` and the struck ball
   * get new direction arrays and the struck ball takes the velocity of `me`.
   */
  method HitOtherBall(me: Ball, ballToHit: Ball?, sqrt: real -> real) returns (hit: bool)
    requires me.Valid()
    requires ballToHit != null ==>
      ballToHit.Valid() && ballToHit != me && CollideDefined(me.State(), ballToHit.State(), sqrt)
    modifies me`direction, ballToHit
    ensures hit == (ballToHit != null)
    ensures ballToHit == null ==> me.direction == old(me.direction)
    ensures ballToHit != null ==>
      ballToHit.Valid() && me.Valid()
      && var d := CollisionDirections(old(me.State()), old(ballToHit.State()), sqrt);
         me.State() == old(me.State()).(dir := d.0)
         && ballToHit.State() == old(ballToHit.State()).(dir := d.1, velocity := old(me.velocity))
  {
    if ballToHit == null {
      return false;
    }
    var (reflection, back) := CollisionDirections(me.State(), ballToHit.State(), sqrt);
    var meDir := NewDirection(reflection);
    me.SetDirection(meDir);
    var otherDir := NewDirection(back);
    ballToHit.SetDirection(otherDir);
    ballToHit.SetVelocity(me.velocity);
    return true;
  }

  /**
   * hitTableBorder: reflects on the cushion the destination lies beyond, gives
   * the ball the reflected direction and recurses, at most to loop 11.
   */
  method HitTableBorder(t: Table, ball: Ball, newP: Vector, dist: real, loop: int, sqrt: real -> real) returns (p: Vector)
    requires ball.Valid()
    requires BorderDefined(t, ball.State().pos, ball.State().dir, newP, dist, loop, sqrt)
    modifies ball`direction
    ensures ball.Valid() && (ball.direction == old(ball.direction) || fresh(ball.direction))
    ensures (p, ball.State().dir) == Border(t, old(ball.State()).pos, old(ball.State()).dir, newP, dist, loop, sqrt)
    ensures ball.State() == old(ball.State()).(dir := ball.State().dir)
    decreases 11 - loop
  {
    if loop > 10 {
      return newP;
    }
    var me := ball.State();
    match HitSide(t, newP)
    case None =>
      p := newP;
    case Some(side) =>
      var b := BounceOff(t, side, me.pos, me.dir, newP, dist, sqrt);
      var reflection := NewDirection(b.dir);
      ball.SetDirection(reflection);
      p := HitTableBorder(t, ball, b.point, b.rest, loop + 1, sqrt);
  }

  /** A step of a ball faster than 0.01 is its travel towards the destination, then settling. */
  lemma MoveIsTravelThenSettle(t: Table, s: seq<BallState>, i: nat, dt: real, sqrt: real -> real, newP: Vector, dist: real)
    requires i < |s| && MoveDefined(t, s, i, dt, sqrt) && s[i].velocity > 0.01
    requires newP == Destination(s[i], dt) && dist == Distance(newP, s[i].pos, sqrt)
    ensures TravelDefined(t, s, i, newP, dist, sqrt)
    ensures var s1 := Travel(t, s, i, newP, dist, sqrt);
      Move(t, s, i, dt, sqrt) == s1[i := Settle(t, s1[i], dt)]
  {
  }

  /** Friction as the two branches of moveBall's velocity update. */
  lemma FrictionByCases(v: real, dt: real)
    ensures v - v * 0.9 * dt <= 1.0 ==> Friction(v, dt) == 0.0
    ensures v - v * 0.9 * dt > 1.0 ==> Friction(v, dt) == v - v * 0.9 * dt
  {
  }

  /**
   * Line 117 of moveBall: hitOtherBall on the ball findBallToHit returned,
   * seen on the whole collection; `found` is the position of that ball.
   */
  method StrikeTarget(balls: seq<Ball>, i: nat, target: Ball?, ghost found: Option<nat>, sqrt: real -> real, ghost s: seq<BallState>)
    returns (hit: bool)
    requires i < |balls| && AllValid(balls) && DistinctNumbers(balls) && s == Snapshot(balls)
    requires found.None? ==> target == null
    requires found.Some? ==>
      found.value < |balls| && found.value != i && target == balls[found.value]
      && CollideDefined(s[i], s[found.value], sqrt)
    modifies balls
    ensures hit == found.Some?
    ensures AllValid(balls)
    ensures found.None? ==> Snapshot(balls) == s
    ensures found.Some? ==> Snapshot(balls) == Collide(s, i, found.value, sqrt)
  {
    var me := balls[i];
    hit := HitOtherBall(me, target, sqrt);
    if hit {
      ghost var j := found.value;
      forall k | 0 <= k < |balls| && k != i && k != j
        ensures balls[k].Valid() && balls[k].State() == s[k]
      {
        assert balls[k].number != me.number && balls[k].number != target.number;
      }
      CollideOnBalls(balls, i, j, s, sqrt);
    } else {
      forall k | 0 <= k < |balls|
        ensures balls[k].Valid() && balls[k].State() == s[k]
      {
      }
    }
  }

  /**
   * Lines 117-120 of moveBall: strike the ball findBallToHit returns or, when
   * there is none, move to the end of the cushion path.
   */
  method TravelBall(t: Table, balls: seq<Ball>, i: nat, newP: Vector, dist: real, sqrt: real -> real)
    requires i < |balls| && AllValid(balls) && DistinctNumbers(balls)
    requires TravelDefined(t, Snapshot(balls), i, newP, dist, sqrt)
    modifies balls
    ensures AllValid(balls)
    ensures Snapshot(balls) == Travel(t, old(Snapshot(balls)), i, newP, dist, sqrt)
  {
    ghost var s := Snapshot(balls);
    var me := balls[i];
    var target := FindBallToHit(balls, i, newP, dist, sqrt, s);
    ghost var found := FindTarget(s, s[i], newP, dist, sqrt, 0);
    assert found.Some? ==> s[found.value].number != s[i].number;
    var hit := StrikeTarget(balls, i, target, found, sqrt, s);
    if !hit {
      RollToCushions(t, balls, i, newP, dist, sqrt, s);
    }
  }

  /** Lines 118-120 of moveBall: no ball is hit, so the ball moves to where hitTableBorder's path ends. */
  method RollToCushions(t: Table, balls: seq<Ball>, i: nat, newP: Vector, dist: real, sqrt: real -> real, ghost s: seq<BallState>)
    requires i < |balls| && AllValid(balls) && DistinctNumbers(balls) && s == Snapshot(balls)
    requires BorderDefined(t, s[i].pos, s[i].dir, newP, dist, 0, sqrt)
    modifies balls[i]
    ensures AllValid(balls)
    ensures var d := Border(t, s[i].pos, s[i].dir, newP, dist, 0, sqrt);
      Snapshot(balls) == s[i := s[i].(pos := d.0, dir := d.1)]
  {
    var me := balls[i];
    var p := HitTableBorder(t, me, newP, dist, 0, sqrt);
    me.SetPosition(p.x, p.y);
    forall k | 0 <= k < |balls| && k != i
      ensures balls[k].Valid() && balls[k].State() == s[k]
    {
      assert balls[k].number != me.number;
    }
    SnapshotAfterUpdate(balls, i, s);
  }

  /** Lines 122-131 of moveBall: the pocket test, then friction, for the ball `balls[i]`. */
  method SettleBall(t: Table, balls: seq<Ball>, i: nat, dt: real)
    requires i < |balls| && AllValid(balls) && DistinctNumbers(balls)
    modifies balls[i]
    ensures AllValid(balls)
    ensures Snapshot(balls) == old(Snapshot(balls))[i := Settle(t, old(balls[i].State()), dt)]
  {
    ghost var s := Snapshot(balls);
    var me := balls[i];
    ghost var m := me.State();
    if HitPocket(t, me.x, me.y) {
      me.SetIsInPocket();
    }
    assert me.State() == m.(inPocket := m.inPocket || HitPocket(t, m.pos.x, m.pos.y));
    var newVelocity := me.velocity - me.velocity * 0.9 * dt;
    FrictionByCases(me.velocity, dt);
    if newVelocity <= 1.0 {
      me.SetVelocity(0.0);
    } else {
      me.SetVelocity(newVelocity);
    }
    assert me.State() == Settle(t, m, dt);
    forall k | 0 <= k < |balls| && k != i
      ensures balls[k].Valid() && balls[k].State() == s[k]
    {
      assert balls[k].number != me.number;
    }
    SnapshotAfterUpdate(balls, i, s);
  }

  /** moveBall: one step of the ball `balls[i]`, as Move gives it. */
  method MoveBall(t: Table, balls: seq<Ball>, i: nat, dt: real, sqrt: real -> real)
    requires i < |balls| && AllValid(balls) && DistinctNumbers(balls)
    requires MoveDefined(t, Snapshot(balls), i, dt, sqrt)
    modifies balls
    ensures AllValid(balls)
    ensures Snapshot(balls) == Move(t, old(Snapshot(balls)), i, dt, sqrt)
  {
    var me := balls[i];
    if me.velocity <= 0.01 {
      return;
    }
    ghost var s := Snapshot(balls);
    var m := me.State();
    var newP := Destination(m, dt);
    var distanceToTravel := Distance(newP, m.pos, sqrt);
    MoveIsTravelThenSettle(t, s, i, dt, sqrt, newP, distanceToTravel);
    TravelBall(t, balls, i, newP, distanceToTravel, sqrt);
    SettleBall(t, balls, i, dt);
  }
}
