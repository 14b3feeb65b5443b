/**
 * The game state (Game.java): the table, the set of balls on it, the white
 * ball and the end-of-game flag. `reset` racks the nine-ball layout and the
 * end of `integrate` takes pocketed balls off the table.
 *
 * The HashSet<Ball> is a sequence of balls with distinct numbers: Ball.equals
 * and hashCode go by number, so adding a ball whose number is present leaves
 * the set as it is. The iteration order of the sequence is insertion order.
 */
module BilliardsGame {
  import opened Wrappers
  import opened VectorCalc
  import opened TableComponent
  import opened BallComponent

  // ---------------------------------------------------------------------
  // Java's (int) cast

  /** The (int) cast of a double: truncation toward zero. */
  function Trunc(r: real): int {
    if 0.0 <= r then r.Floor else -((-r).Floor)
  }

  /** The cast drops the fraction: the result lies within 1 of `r`, on the side of zero. */
  lemma TruncTowardZero(r: real)
    ensures 0.0 <= r ==> Trunc(r) as real <= r < Trunc(r) as real + 1.0
    ensures r < 0.0 ==> Trunc(r) as real - 1.0 < r <= Trunc(r) as real
  {
  }

  /** Casting an integer-valued double gives the integer back. */
  lemma TruncOfInt(k: int)
    ensures Trunc(k as real) == k
  {
    if 0 <= k {
      assert (k as real).Floor == k;
    } else {
      assert (-(k as real)).Floor == -k;
    }
  }

  // ---------------------------------------------------------------------
  // The rack

  /** The head ball's place: half across the table, a quarter down. */
  function LeadPosition(t: Table): (int, int) {
    (Trunc(t.x + t.width / 2.0), Trunc(t.y + t.height / 4.0))
  }

  /** The white ball's place: half across the table, a quarter up from the bottom. */
  function WhitePosition(t: Table): (int, int) {
    (Trunc(t.x + t.width / 2.0), Trunc(t.y + t.height - t.height / 4.0))
  }

  /** The two places add9BallsGame computes from the table: the head ball's and the white ball's. */
  datatype Rack = Rack(lead: (int, int), white: (int, int))

  function RackOf(t: Table): Rack {
    Rack(LeadPosition(t), WhitePosition(t))
  }

  /** The triangle of balls 1 to 9 around the head ball, in whole pixels (y grows downward). */
  function RackOffset(n: int): (int, int)
    requires 1 <= n <= 9
  {
    [(0, 0), (-10, -20), (10, -20), (0, -40), (-20, -40), (20, -40), (-10, -60), (10, -60), (0, -80)][n - 1]
  }

  /** Where a reset puts ball `n`: the white ball at its place, the others at their offset from the head ball. */
  function RackPosition(r: Rack, n: int): (int, int)
    requires 0 <= n <= 9
  {
    if n == 0 then r.white else (r.lead.0 + RackOffset(n).0, r.lead.1 + RackOffset(n).1)
  }

  /** A freshly racked ball `n`: still, undirected, not pocketed, white exactly when it is ball 0. */
  function RackState(r: Rack, n: int): BallState
    requires 0 <= n <= 9
  {
    var p := RackPosition(r, n);
    BallState(n, n == 0, Vector(p.0 as real, p.1 as real), 0.0, Zero, false)
  }

  function SquaredGap(p: (int, int), q: (int, int)): int {
    (p.0 - q.0) * (p.0 - q.0) + (p.1 - q.1) * (p.1 - q.1)
  }

  /** No two of the balls 1 to 9 overlap: their centres are at least a diameter apart. */
  lemma RackBallsApart(r: Rack, n: int, m: int)
    requires 1 <= n <= 9 && 1 <= m <= 9 && n != m
    ensures SquaredGap(RackPosition(r, n), RackPosition(r, m)) >= Dimension * Dimension
  {
    var a, b := RackOffset(n), RackOffset(m);
    assert SquaredGap(RackPosition(r, n), RackPosition(r, m)) == SquaredGap(a, b);
  }

  /** On a table at least 44 high, the white ball is a diameter or more from every racked ball. */
  lemma WhiteClearOfRack(t: Table, n: int)
    requires 0.0 <= t.y && 44.0 <= t.height
    requires 1 <= n <= 9
    ensures SquaredGap(RackPosition(RackOf(t), 0), RackPosition(RackOf(t), n)) >= Dimension * Dimension
  {
    var r := RackOf(t);
    var dy := r.white.1 - RackPosition(r, n).1;
    assert dy >= r.white.1 - r.lead.1 >= Dimension;
    var dx := r.white.0 - RackPosition(r, n).0;
    calc {
      SquaredGap(RackPosition(r, 0), RackPosition(r, n));
      == dx * dx + dy * dy;
      >= dy * dy;
      >= { assert dy * dy >= Dimension * dy; } Dimension * Dimension;
    }
  }

  /** On a table at least 64 wide and 400 high, every racked centre is a radius or more inside the cushions. */
  lemma RackInsideTable(t: Table, n: int)
    requires 0.0 <= t.x && 0.0 <= t.y && 64.0 <= t.width && 400.0 <= t.height
    requires 0 <= n <= 9
    ensures var p := RackPosition(RackOf(t), n);
      t.x + 10.0 <= p.0 as real <= t.x + t.width - 10.0
      && t.y + 10.0 <= p.1 as real <= t.y + t.height - 10.0
  {
    TruncTowardZero(t.x + t.width / 2.0);
    TruncTowardZero(t.y + t.height / 4.0);
    TruncTowardZero(t.y + t.height - t.height / 4.0);
  }

  // ---------------------------------------------------------------------
  // The ball set

  /** The numbers of the balls in the set. */
  function Numbers(balls: seq<Ball>): set<int> {
    set k | 0 <= k < |balls| :: balls[k].number
  }

  /** HashSet.add: a ball whose number is already present is not added again. */
  function Insert(balls: seq<Ball>, b: Ball): (r: seq<Ball>)
    ensures Numbers(r) == Numbers(balls) + {b.number}
    ensures |balls| <= |r| <= |balls| + 1 && r[..|balls|] == balls
    ensures b.number !in Numbers(balls) ==> b in r
    ensures DistinctNumbers(balls) ==> DistinctNumbers(r)
  {
    if b.number in Numbers(balls) then balls
    else
      NumbersAppend(balls, b);
      balls + [b]
  }

  lemma NumbersAppend(balls: seq<Ball>, b: Ball)
    ensures Numbers(balls + [b]) == Numbers(balls) + {b.number}
  {
    var r := balls + [b];
    forall n | n in Numbers(r) ensures n in Numbers(balls) + {b.number} {
      var k :| 0 <= k < |r| && r[k].number == n;
      if k < |balls| {
        assert r[k] == balls[k];
      }
    }
    forall n | n in Numbers(balls) ensures n in Numbers(r) {
      var k :| 0 <= k < |balls| && balls[k].number == n;
      assert r[k] == balls[k];
    }
    assert r[|balls|] == b;
  }

  /** The numbers a reset puts on the table. */
  const RackNumbers: set<int> := set n | 0 <= n <= 9

  /** The numbers in the order add9BallsGame adds the balls. */
  const RackOrder: seq<int> := [1, 2, 3, 4, 5, 6, 7, 8, 9, 0]

  /**
   * `balls` holds, in this order, one freshly racked ball for each number of
   * `order`, in the state its number has in the rack `r`.
   */
  ghost predicate Racked(r: Rack, balls: seq<Ball>, order: seq<int>)
    reads balls, set b | b in balls :: b.direction
  {
    |balls| == |order|
    && forall k :: 0 <= k < |balls| ==>
         0 <= order[k] <= 9 && balls[k].Valid() && balls[k].State() == RackState(r, order[k])
  }

  /** Adding a racked ball with a number not racked yet appends it. */
  lemma RackedInsert(r: Rack, balls: seq<Ball>, order: seq<int>, b: Ball)
    requires Racked(r, balls, order)
    requires 0 <= b.number <= 9 && b.number !in order
    requires b.Valid() && b.State() == RackState(r, b.number)
    ensures Insert(balls, b) == balls + [b]
    ensures Racked(r, Insert(balls, b), order + [b.number])
  {
    forall k | 0 <= k < |balls| ensures balls[k].number != b.number {
      assert balls[k].number == order[k];
    }
  }

  /** Each row of add9BallsGame adds numbers not racked before it, and together they give RackOrder. */
  lemma RackOrderBuilt()
    ensures 1 !in [] && 2 !in [] && 3 !in []
    ensures var o := [] + [1] + [2] + [3]; 4 !in o && 5 !in o && 6 !in o
    ensures var o := [] + [1] + [2] + [3] + [4] + [5] + [6]; 7 !in o && 8 !in o && 9 !in o
    ensures 0 !in [] + [1] + [2] + [3] + [4] + [5] + [6] + [7] + [8] + [9]
    ensures [] + [1] + [2] + [3] + [4] + [5] + [6] + [7] + [8] + [9] + [0] == RackOrder
  {
  }

  /** The ten racked balls have distinct numbers, the numbers 0 to 9, and only ball 0 is white. */
  lemma RackedComplete(r: Rack, balls: seq<Ball>)
    requires Racked(r, balls, RackOrder)
    ensures |balls| == 10 && DistinctNumbers(balls) && Numbers(balls) == RackNumbers
    ensures balls[9].number == 0
    ensures forall k :: 0 <= k < |balls| ==> (balls[k].isWhite <==> balls[k].number == 0)
  {
    assert forall k :: 0 <= k < |balls| ==> balls[k].number == RackOrder[k];
    forall n | n in RackNumbers ensures n in Numbers(balls) {
      var k := if n == 0 then 9 else n - 1;
      assert balls[k].number == n;
    }
  }

  // ---------------------------------------------------------------------
  // integrate's bookkeeping

  /** The balls that are not in a pocket, in their iteration order. */
  function Remaining(balls: seq<Ball>): (r: seq<Ball>)
    reads balls
    ensures |r| <= |balls|
  {
    if |balls| == 0 then []
    else
      var last := balls[|balls| - 1];
      Remaining(balls[..|balls| - 1]) + (if last.inPocket then [] else [last])
  }

  /** What stays is exactly the balls of the set that are not in a pocket. */
  lemma {:induction false} RemainingFilters(balls: seq<Ball>)
    ensures forall k :: 0 <= k < |Remaining(balls)| ==>
      Remaining(balls)[k] in balls && !Remaining(balls)[k].inPocket
    ensures forall k :: 0 <= k < |balls| && !balls[k].inPocket ==> balls[k] in Remaining(balls)
  {
    if |balls| > 0 {
      var init := balls[..|balls| - 1];
      var last := balls[|balls| - 1];
      RemainingFilters(init);
      var r := Remaining(balls);
      assert r == Remaining(init) + (if last.inPocket then [] else [last]);
      forall k | 0 <= k < |r| ensures r[k] in balls && !r[k].inPocket {
        if k < |Remaining(init)| {
          assert r[k] == Remaining(init)[k];
          assert Remaining(init)[k] in init;
        }
      }
      forall k | 0 <= k < |balls| && !balls[k].inPocket ensures balls[k] in r {
        if k < |init| {
          assert balls[k] == init[k];
        }
      }
    }
  }

  /** Taking the pocketed balls off keeps the numbers distinct. */
  lemma {:induction false} RemainingKeepsDistinct(balls: seq<Ball>)
    requires DistinctNumbers(balls)
    ensures DistinctNumbers(Remaining(balls))
  {
    if |balls| > 0 {
      var init := balls[..|balls| - 1];
      var last := balls[|balls| - 1];
      assert DistinctNumbers(init);
      RemainingKeepsDistinct(init);
      RemainingFilters(init);
      var rest := Remaining(init);
      forall k | 0 <= k < |rest|
        ensures rest[k].number != last.number
      {
        assert rest[k] in init;
        var j :| 0 <= j < |init| && init[j] == rest[k];
        assert balls[j] == rest[k];
      }
    }
  }

  /** Taking the pocketed balls off a second time changes nothing. */
  lemma {:induction false} RemainingIdempotent(balls: seq<Ball>)
    ensures Remaining(Remaining(balls)) == Remaining(balls)
  {
    if |balls| > 0 {
      var init := balls[..|balls| - 1];
      var last := balls[|balls| - 1];
      RemainingIdempotent(init);
      var r := Remaining(balls);
      if last.inPocket {
        assert r == Remaining(init);
      } else {
        assert r == Remaining(init) + [last];
        assert r[..|r| - 1] == Remaining(init);
      }
    }
  }

  /** Some ball of the set is the white ball and is in a pocket. */
  predicate WhitePocketed(balls: seq<Ball>)
    reads balls
  {
    exists k :: 0 <= k < |balls| && balls[k].inPocket && balls[k].isWhite
  }

  /** One more ball of the iteration: Remaining and WhitePocketed of the longer prefix. */
  lemma BookkeepingStep(balls: seq<Ball>, k: nat)
    requires k < |balls|
    ensures Remaining(balls[..k + 1]) == Remaining(balls[..k]) + (if balls[k].inPocket then [] else [balls[k]])
    ensures WhitePocketed(balls[..k + 1]) == (WhitePocketed(balls[..k]) || (balls[k].inPocket && balls[k].isWhite))
  {
    var longer := balls[..k + 1];
    assert longer[..k] == balls[..k];
    assert longer[k] == balls[k];
    if WhitePocketed(longer) && !(balls[k].inPocket && balls[k].isWhite) {
      var j :| 0 <= j < |longer| && longer[j].inPocket && longer[j].isWhite;
      assert j < k && balls[..k][j] == longer[j];
    }
    if WhitePocketed(balls[..k]) {
      var j :| 0 <= j < k && balls[..k][j].inPocket && balls[..k][j].isWhite;
      assert longer[j] == balls[..k][j];
    }
  }

  // ---------------------------------------------------------------------
  // The game

  class Game {
    var table: Option<Table>
    var balls: seq<Ball>
    var whiteBall: Ball?
    var gameEnded: bool

    /** A new game has no table, no balls and has not ended. */
    constructor ()
      ensures table == None && balls == [] && whiteBall == null && !gameEnded
    {
      table := None;
      balls := [];
      whiteBall := null;
      gameEnded := false;
    }

    method SetTable(t: Table)
      modifies this`table
      ensures table == Some(t)
    {
      table := Some(t);
    }

    method ClearBalls()
      modifies this`balls
      ensures balls == []
    {
      balls := [];
    }

    /** this.balls.add(b). */
    method AddBall(b: Ball)
      modifies this`balls
      ensures balls == Insert(old(balls), b)
    {
      if b.number !in Numbers(balls) {
        balls := balls + [b];
      }
    }

    /** this.balls.add(new Ball(number, isWhite, color, x, y)), returning the new ball. */
    method PlaceBall(number: int, isWhite: bool, x: int, y: int) returns (b: Ball)
      modifies this`balls
      ensures fresh(b) && b.Valid()
      ensures b.State() == BallState(number, isWhite, Vector(x as real, y as real), 0.0, Zero, false)
      ensures balls == Insert(old(balls), b)
    {
      b := new Ball(number, isWhite, x, y);
      AddBall(b);
    }

    /** PlaceBall for ball `n` of the rack, at its rack position, when `n` is not racked yet. */
    method RackBall(ghost r: Rack, n: int, isWhite: bool, x: int, y: int, ghost order: seq<int>) returns (b: Ball)
      requires 0 <= n <= 9 && isWhite == (n == 0) && n !in order
      requires (x, y) == RackPosition(r, n)
      requires Racked(r, balls, order)
      modifies this`balls
      ensures fresh(b) && balls == old(balls) + [b]
      ensures Racked(r, balls, order + [n])
    {
      b := PlaceBall(n, isWhite, x, y);
      RackedInsert(r, old(balls), order, b);
    }

    /** The first two rows of add9BallsGame: the head ball 1, then balls 2 and 3 behind it. */
    method RackFrontRows(t: Table, ghost order: seq<int>) returns (leadBallX: int, leadBallY: int)
      requires 1 !in order && 2 !in order && 3 !in order
      requires Racked(RackOf(t), balls, order)
      modifies this`balls
      ensures (leadBallX, leadBallY) == RackOf(t).lead
      ensures Racked(RackOf(t), balls, order + [1] + [2] + [3])
    {
      ghost var r := RackOf(t);
      leadBallX := Trunc(t.x + t.width / 2.0);
      leadBallY := Trunc(t.y + t.height / 4.0);
      var leadBall := RackBall(r, 1, false, leadBallX, leadBallY, order);
      var b := RackBall(r, 2, false, leadBallX - Dimension / 2, leadBallY - Dimension, order + [1]);
      b := RackBall(r, 3, false, leadBallX + Dimension / 2, leadBallY - Dimension, order + [1] + [2]);
    }

    /**
     * The third row: ball 4 two diameters behind the head ball, balls 5 and 6
     * a diameter to its sides, cast back to int from ball 4's double position.
     */
    method RackMiddleRow(ghost r: Rack, leadBallX: int, leadBallY: int, ghost order: seq<int>) returns (middleBall: Ball)
      requires (leadBallX, leadBallY) == r.lead
      requires 4 !in order && 5 !in order && 6 !in order
      requires Racked(r, balls, order)
      modifies this`balls
      ensures middleBall.Valid() && middleBall.State() == RackState(r, 4)
      ensures Racked(r, balls, order + [4] + [5] + [6])
    {
      middleBall := RackBall(r, 4, false, leadBallX, leadBallY - Dimension * 2, order);
      assert middleBall == balls[|order|];
      TruncOfInt(leadBallX - Dimension);
      TruncOfInt(leadBallX + Dimension);
      TruncOfInt(leadBallY - Dimension * 2);
      var b := RackBall(r, 5, false, Trunc(middleBall.x - Dimension as real), Trunc(middleBall.y), order + [4]);
      b := RackBall(r, 6, false, Trunc(middleBall.x + Dimension as real), Trunc(middleBall.y), order + [4] + [5]);
    }

    /** The last two rows: balls 7 and 8 a diameter behind ball 4, ball 9 two diameters behind it. */
    method RackBackRows(ghost r: Rack, leadBallX: int, middleBall: Ball, ghost order: seq<int>)
      requires leadBallX == r.lead.0
      requires middleBall.Valid() && middleBall.State() == RackState(r, 4)
      requires 7 !in order && 8 !in order && 9 !in order
      requires Racked(r, balls, order)
      modifies this`balls
      ensures Racked(r, balls, order + [7] + [8] + [9])
    {
      TruncOfInt(r.lead.1 - Dimension * 3);
      TruncOfInt(r.lead.1 - Dimension * 4);
      var b := RackBall(r, 7, false, leadBallX - Dimension / 2, Trunc(middleBall.y - Dimension as real), order);
      b := RackBall(r, 8, false, leadBallX + Dimension / 2, Trunc(middleBall.y - Dimension as real), order + [7]);
      b := RackBall(r, 9, false, leadBallX, Trunc(middleBall.y - (Dimension * 2) as real), order + [7] + [8]);
    }

    /** The white ball 0, half across the table and a quarter of its height up from the bottom. */
    method RackWhiteBall(t: Table, ghost order: seq<int>)
      requires 0 !in order
      requires Racked(RackOf(t), balls, order)
      modifies this`balls, this`whiteBall
      ensures whiteBall != null && fresh(whiteBall) && balls == old(balls) + [whiteBall]
      ensures Racked(RackOf(t), balls, order + [0])
    {
      var white := new Ball(0, true, Trunc(t.x + t.width / 2.0), Trunc(t.y + t.height - t.height / 4.0));
      whiteBall := white;
      AddBall(white);
      RackedInsert(RackOf(t), old(balls), order, white);
    }

    /**
     * add9BallsGame on the empty set that reset leaves: the balls 1 to 9 in
     * the triangle, then the white ball 0, each at its rack position.
     */
    method Add9BallsGame()
      requires table.Some? && balls == []
      modifies this`balls, this`whiteBall
      ensures Racked(RackOf(table.value), balls, RackOrder)
      ensures whiteBall != null && fresh(whiteBall) && whiteBall == balls[9]
    {
      var t := table.value;
      ghost var r := RackOf(t);
      ghost var order: seq<int> := [];
      RackOrderBuilt();
      var leadBallX, leadBallY := RackFrontRows(t, order);
      order := order + [1] + [2] + [3];
      var middleBall := RackMiddleRow(r, leadBallX, leadBallY, order);
      order := order + [4] + [5] + [6];
      RackBackRows(r, leadBallX, middleBall, order);
      order := order + [7] + [8] + [9];
      RackWhiteBall(t, order);
    }

    /**
     * reset without the mechanic's threads: the set becomes exactly the ten
     * racked balls 0 to 9, the white ball is ball 0, and the game is on again.
     */
    method Reset()
      requires table.Some?
      modifies this`balls, this`whiteBall, this`gameEnded
      ensures table == old(table)
      ensures |balls| == 10 && DistinctNumbers(balls) && Numbers(balls) == RackNumbers
      ensures AllValid(balls)
      ensures forall k :: 0 <= k < |balls| ==>
        0 <= balls[k].number <= 9 && balls[k].State() == RackState(RackOf(table.value), balls[k].number)
      ensures whiteBall in balls && whiteBall.number == 0 && whiteBall.isWhite
      ensures forall k :: 0 <= k < |balls| ==> (balls[k].isWhite <==> balls[k].number == 0)
      ensures !gameEnded
    {
      ClearBalls();
      Add9BallsGame();
      gameEnded := false;
      RackedComplete(RackOf(table.value), balls);
    }

    /**
     * The end of integrate, after the mechanic's step: the pocketed balls
     * leave the set; the game ends when one of them was white or when a
     * single ball is left, and never starts again here.
     */
    method Integrate()
      modifies this`balls, this`gameEnded
      ensures balls == old(Remaining(balls))
      ensures gameEnded == (old(gameEnded || WhitePocketed(balls)) || |balls| == 1)
    {
      var all := balls;
      ghost var remaining, whiteIn := Remaining(all), WhitePocketed(all);
      var kept: seq<Ball> := [];
      var ended := gameEnded;
      var k := 0;
      while k < |all|
        invariant 0 <= k <= |all|
        invariant kept == Remaining(all[..k])
        invariant ended == (old(gameEnded) || WhitePocketed(all[..k]))
      {
        var ball := all[k];
        BookkeepingStep(all, k);
        if ball.inPocket {
          if ball.isWhite {
            ended := true;
          }
        } else {
          kept := kept + [ball];
        }
        k := k + 1;
      }
      assert all[..k] == all;
      assert kept == remaining && ended == (old(gameEnded) || whiteIn);
      balls := kept;
      if |balls| == 1 {
        ended := true;
      }
      gameEnded := ended;
    }

    function IsGameEnded(): bool
      reads this
    {
      gameEnded
    }
  }
}
