# Billiards simulation core, modelled in Dafny

This project models the logic of a small Java billiards game: the plane
vector helpers, the balls and the table, one sequential simulation step of a
ball, and the game bookkeeping around that step.

- The step covers moving, striking another ball, bouncing off the cushions,
  dropping into a pocket, and friction.
- The bookkeeping covers racking the nine-ball layout on reset, and taking
  pocketed balls off the table after a step.

Modules, one per Java class of the core:

| module | file | Java class | form |
|---|---|---|---|
| `VectorCalc` | `vector_calc.dfy` | `helpers/VectorCalc` | functions on a `Vector` datatype |
| `TableComponent` | `table_component.dfy` | `components/Table` | a `Table` datatype (all fields are final) |
| `BallComponent` | `ball_component.dfy` | `components/Ball` | a `class Ball` with mutable fields and a two-element direction `array` |
| `GameMechanic` | `game_mechanic.dfy` | `logic/GameMechanic.Worker` | each step as a function on ball states, plus a method on `Ball` objects proved to do what the function says |
| `BilliardsGame` | `billiards_game.dfy` | `Game` | a `class Game` |
| `Wrappers` | `wrappers.dfy` | — | `Option` |

Conventions:

- Java `double` is `real`.
- `Math.sqrt` is a parameter `sqrt: real -> real`. The lemmas that need it to be a square root require `IsSqrt(sqrt)`.
- A `BallState` value is the observable state of one ball.
- `Snapshot(balls)` is the sequence of the states of a collection of balls.
- The imperative methods are specified by how they change the snapshot.
- The `HashSet<Ball>` of the game is a `seq<Ball>` with distinct numbers, taken in its iteration order.

Points where the model follows the code's exact behaviour:

- The rack positions use Java's `(int)` cast, which truncates toward zero (`Trunc`), not the floor. The two agree for a table at non-negative coordinates, as `TruncTowardZero` shows.
- hitTableBorder stops only when `loop > 10`. Levels 0 to 10 may reflect, so up to eleven reflections happen (`BorderBounded`).
- A direction has length 0, as a new ball's has, or length 1, as every normalised direction has; a step keeps this (`MoveKeepsDirectionsUnit`).
- The sampling loop of findBallToHit computes its sample point as a product of the coordinate, the step and the direction (`SamplePoint`), as written. Nothing is claimed about it finding balls on the path.

## Model

| member | source | states |
|---|---|---|
| VectorCalc.Subtract | src/pl/pdec/billiards/helpers/VectorCalc.java:4-6 | the definition of subtractVector; its properties are in SubtractComponents |
| VectorCalc.Multiply | src/pl/pdec/billiards/helpers/VectorCalc.java:8-10 | the definition of multiplyVector; its properties are in MultiplyProperties |
| VectorCalc.Dot | src/pl/pdec/billiards/helpers/VectorCalc.java:22-24 | the definition of dot; its properties are in DotSymmetric, DotSelfNonnegative and DotSelfPositive |
| VectorCalc.Cross | src/pl/pdec/billiards/helpers/VectorCalc.java:26-28 | the definition of cross; its properties are in CrossAntisymmetric and CrossSelfZero |
| VectorCalc.Magnitude | src/pl/pdec/billiards/helpers/VectorCalc.java:13 | the root normalizeVector divides by; MagnitudeZeroIff says when it is zero |
| VectorCalc.Normalize | src/pl/pdec/billiards/helpers/VectorCalc.java:12-15 | the definition of normalizeVector, defined when the magnitude is not zero; NormalizeScalesBack and NormalizeIsUnit give its meaning |
| VectorCalc.Reflect | src/pl/pdec/billiards/helpers/VectorCalc.java:17-20 | the definition of reflectVector; the Reflect lemmas give its meaning for unit normals |
| VectorCalc.SquaredDistance | src/pl/pdec/billiards/helpers/VectorCalc.java:31-32 | the radicand of distanceBetweenPoints |
| VectorCalc.Distance | src/pl/pdec/billiards/helpers/VectorCalc.java:30-33 | the definition of distanceBetweenPoints; its properties are in the Distance lemmas |
| VectorCalc.SubtractComponents | src/pl/pdec/billiards/helpers/VectorCalc.java:4-6 | subtractVector is componentwise, v - v is zero, and v1 - v2 is -1 times v2 - v1 |
| VectorCalc.MultiplyProperties | src/pl/pdec/billiards/helpers/VectorCalc.java:8-10 | multiplyVector scales each component; scaling by 1 is the identity, by 0 gives zero |
| VectorCalc.DotSymmetric | src/pl/pdec/billiards/helpers/VectorCalc.java:22-24 | dot(v1, v2) == dot(v2, v1) |
| VectorCalc.DotSelfNonnegative | src/pl/pdec/billiards/helpers/VectorCalc.java:22-24 | dot(v, v) >= 0 |
| VectorCalc.DotSelfPositive | src/pl/pdec/billiards/helpers/VectorCalc.java:22-24 | dot(v, v) > 0 for a non-zero vector |
| VectorCalc.CrossAntisymmetric | src/pl/pdec/billiards/helpers/VectorCalc.java:26-28 | cross(v1, v2) == -cross(v2, v1) |
| VectorCalc.CrossSelfZero | src/pl/pdec/billiards/helpers/VectorCalc.java:26-28 | cross(v, v) == 0 |
| VectorCalc.MagnitudeZeroIff | src/pl/pdec/billiards/helpers/VectorCalc.java:12-15 | the magnitude normalizeVector divides by is non-negative, and zero exactly for the zero vector |
| VectorCalc.NormalizeScalesBack | src/pl/pdec/billiards/helpers/VectorCalc.java:12-15 | the normalised vector scaled by the magnitude is the vector again |
| VectorCalc.NormalizeIsUnit | src/pl/pdec/billiards/helpers/VectorCalc.java:12-15 | under a true square root, a non-zero vector has a non-zero magnitude, and its normalised vector has length 1 |
| VectorCalc.ReflectNegatesNormalPart | src/pl/pdec/billiards/helpers/VectorCalc.java:17-20 | for a unit normal n, dot(reflect(d, n), n) == -dot(d, n) |
| VectorCalc.ReflectPreservesLength | src/pl/pdec/billiards/helpers/VectorCalc.java:17-20 | for a unit normal, reflection keeps the squared length |
| VectorCalc.ReflectTwice | src/pl/pdec/billiards/helpers/VectorCalc.java:17-20 | for a unit normal, reflecting twice gives the vector back |
| VectorCalc.ReflectAxisNormals | src/pl/pdec/billiards/helpers/VectorCalc.java:17-20 | the normals (±1, 0) negate x, and (0, ±1) negate y |
| VectorCalc.DistanceSymmetric | src/pl/pdec/billiards/helpers/VectorCalc.java:30-33 | distanceBetweenPoints is symmetric |
| VectorCalc.DistanceProperties | src/pl/pdec/billiards/helpers/VectorCalc.java:30-33 | a point is at distance 0 from itself; distances are non-negative; the square of the distance is the sum of squared differences |
| VectorCalc.DistanceBelow | src/pl/pdec/billiards/helpers/VectorCalc.java:30-33 | comparing a distance with a non-negative bound is comparing the squared distance with the bound's square |
| VectorCalc.SqrtUnique | src/pl/pdec/billiards/helpers/VectorCalc.java:13 | a non-negative number whose square is a is the root of a |
| VectorCalc.SqrtBelow | src/pl/pdec/billiards/helpers/VectorCalc.java:31-32 | a root is below a non-negative bound exactly when its radicand is below the bound's square, strict and non-strict |
| TableComponent.Pockets | src/pl/pdec/billiards/components/Table.java:40-43 | the four pocket centres, the table corners, in the order hitPocket tests them |
| TableComponent.NearPocket | src/pl/pdec/billiards/components/Table.java:46-49 | one of hitPocket's four comparisons: the point is strictly closer than holeDim to that pocket, by squared distance |
| TableComponent.HitPocket | src/pl/pdec/billiards/components/Table.java:39-50 | true iff the point is strictly closer than holeDim = 20 to one of the four corners, compared by squared distance |
| TableComponent.HitPocketIsRootTest | src/pl/pdec/billiards/components/Table.java:46-49 | the squared test equals the Java disjunction of four distanceBetweenPoints < 20 comparisons |
| TableComponent.CornersArePockets | src/pl/pdec/billiards/components/Table.java:40-49 | every corner is a pocket hit |
| TableComponent.PocketRimIsNoHit | src/pl/pdec/billiards/components/Table.java:46-49 | a point exactly 20 from one corner, and at least 20 from all corners, is no hit |
| BallComponent.Wrap32 | src/pl/pdec/billiards/components/Ball.java:94-97 | the result is a 32-bit int congruent to the input, and equals any input already in range |
| BallComponent.HashOfNumber | src/pl/pdec/billiards/components/Ball.java:94-97 | Objects.hash(number), 31 + number wrapped to int; the result is a 32-bit int |
| BallComponent.HashOfNumberInjective | src/pl/pdec/billiards/components/Ball.java:94-97 | Objects.hash(number) differs for different int numbers |
| BallComponent.NewDirection | src/pl/pdec/billiards/helpers/VectorCalc.java:14 | the new double[2] holds the two components of the vector |
| BallComponent.Ball.constructor | src/pl/pdec/billiards/components/Ball.java:14-25 | a new ball is at (x, y), with velocity 0, direction (0, 0), not in a pocket, and with the given number and colour flag |
| BallComponent.Ball.SetDirection | src/pl/pdec/billiards/components/Ball.java:31-33 | the ball holds the caller's array itself, and only its direction changes |
| BallComponent.Ball.SetDirectionComponents | src/pl/pdec/billiards/components/Ball.java:35-38 | the current array is overwritten in place, it is the same array as before, and only the direction changes |
| BallComponent.Ball.SetVelocity | src/pl/pdec/billiards/components/Ball.java:44-46 | only the velocity changes, to the given value |
| BallComponent.Ball.SetPosition | src/pl/pdec/billiards/components/Ball.java:48-51 | only x and y change, to the given values |
| BallComponent.Ball.SetIsInPocket | src/pl/pdec/billiards/components/Ball.java:65-67 | the pocket flag becomes true and nothing else changes; no method clears it |
| BallComponent.Ball.Equals | src/pl/pdec/billiards/components/Ball.java:86-92 | equal iff the other ball exists and has the same number |
| BallComponent.Ball.HashCode | src/pl/pdec/billiards/components/Ball.java:94-97 | hashCode is HashOfNumber of the number, a 32-bit int |
| BallComponent.EqualsIsEquivalence | src/pl/pdec/billiards/components/Ball.java:86-97 | equals is reflexive, symmetric and transitive, and equal balls have equal hash codes |
| BallComponent.HashCodeSeparatesBalls | src/pl/pdec/billiards/components/Ball.java:86-97 | for int numbers, equal hash codes iff equal balls |
| BallComponent.Snapshot | src/pl/pdec/billiards/components/Ball.java:14-17 | one state per ball, in the collection's order, each the ball's current state |
| BallComponent.SnapshotAfterUpdate | src/pl/pdec/billiards/components/Ball.java:14-17 | when only ball i's state differs from a recorded one, the snapshot differs at i alone |
| GameMechanic.Destination | src/pl/pdec/billiards/logic/GameMechanic.java:112-113 | newX and newY, the point moveBall heads for; DestinationAlongDirection gives its meaning |
| GameMechanic.DestinationAlongDirection | src/pl/pdec/billiards/logic/GameMechanic.java:112-113 | the destination is the position moved by velocity times time along the direction |
| GameMechanic.SampleStep | src/pl/pdec/billiards/logic/GameMechanic.java:161 | the value of distanceTmp after k increments of 0.1, taken as exactly k/10 |
| GameMechanic.SamplePoint | src/pl/pdec/billiards/logic/GameMechanic.java:162-163 | the sample point x1, y1 as written: the ball's coordinate times the step times the direction component, not the position plus the step along the direction |
| GameMechanic.SampleHit | src/pl/pdec/billiards/logic/GameMechanic.java:161-169 | the sampling loop from step k on, as a recursive predicate; SampleHitIff gives its meaning |
| GameMechanic.NearLine | src/pl/pdec/billiards/logic/GameMechanic.java:159-160 | the test that the point is less than half a diameter from the line; false when the divisor is zero |
| GameMechanic.NearPath | src/pl/pdec/billiards/logic/GameMechanic.java:138-160 | NearLine for the line through the ball along its direction, with the coefficients a, b and c of findBallToHit |
| GameMechanic.Hits | src/pl/pdec/billiards/logic/GameMechanic.java:150-171 | the loop body test: another ball, near the destination, or near the path and found by the sampling loop |
| GameMechanic.SampleHitIff | src/pl/pdec/billiards/logic/GameMechanic.java:161-169 | the sampling loop returns a ball iff one of its steps below the travel distance has a sample point within a diameter of it |
| GameMechanic.FindTarget | src/pl/pdec/billiards/logic/GameMechanic.java:149-175 | the result is the first ball in iteration order that is picked, and None iff no ball is picked |
| GameMechanic.FindTargetNearby | src/pl/pdec/billiards/logic/GameMechanic.java:150-154 | another ball within a diameter of the destination makes the result non-null, and the result is never the moving ball |
| GameMechanic.SampleAlongPath | src/pl/pdec/billiards/logic/GameMechanic.java:161-169 | the inner loop returns true exactly when the sampling predicate holds |
| GameMechanic.BallInTheWay | src/pl/pdec/billiards/logic/GameMechanic.java:150-171 | one pass of the outer loop picks the other ball exactly when findBallToHit would |
| GameMechanic.FindBallToHit | src/pl/pdec/billiards/logic/GameMechanic.java:134-176 | returns null when FindTarget finds nothing, and otherwise the ball at the position FindTarget finds |
| GameMechanic.Collide | src/pl/pdec/billiards/logic/GameMechanic.java:178-198 | only the two balls change; the striker only its direction; the struck ball its direction and velocity, which becomes the striker's |
| GameMechanic.CollisionDirections | src/pl/pdec/billiards/logic/GameMechanic.java:180-192 | the two directions hitOtherBall sets; CollisionDirectionsUnit and CollideAimsAlongCentres give their meaning |
| GameMechanic.CollisionDirectionsUnit | src/pl/pdec/billiards/logic/GameMechanic.java:183-192 | under a true square root, both new directions have length 1 |
| GameMechanic.CollideAimsAlongCentres | src/pl/pdec/billiards/logic/GameMechanic.java:189-192 | the struck ball's new direction, scaled by the distance between the centres, is the vector from the striker to it |
| GameMechanic.HitOtherBall | src/pl/pdec/billiards/logic/GameMechanic.java:178-198 | with null it returns false and keeps the direction; otherwise it returns true, and both balls get the Collide directions and the struck ball the striker's velocity |
| GameMechanic.CollideOnBalls | src/pl/pdec/billiards/logic/GameMechanic.java:180-194 | updating the two balls this way is Collide on the snapshot |
| GameMechanic.StrikeTarget | src/pl/pdec/billiards/logic/GameMechanic.java:117 | hitOtherBall on findBallToHit's result: no change without a target, Collide with one |
| GameMechanic.HitSide | src/pl/pdec/billiards/logic/GameMechanic.java:216-249 | the side picked, left, right, top or bottom in that order; None iff the point is within all four bounds |
| GameMechanic.Normal | src/pl/pdec/billiards/logic/GameMechanic.java:222-248 | the hitVector each cushion branch sets: (1, 0), (-1, 0), (0, 1), (0, -1); NormalIsUnit and NormalMirrors give its meaning |
| GameMechanic.NormalIsUnit | src/pl/pdec/billiards/logic/GameMechanic.java:222-248 | every cushion hitVector has length 1 |
| GameMechanic.NormalMirrors | src/pl/pdec/billiards/logic/GameMechanic.java:222-256 | reflecting on a side cushion negates x; on the top or bottom cushion, y |
| GameMechanic.Slope | src/pl/pdec/billiards/logic/GameMechanic.java:212 | aDirectionLine, the slope of the line through the ball and the destination, defined when their x coordinates differ |
| GameMechanic.Intersection | src/pl/pdec/billiards/logic/GameMechanic.java:212-245 | the intersection lies on the cushion's line and on the line through the ball's position and the destination |
| GameMechanic.BounceOff | src/pl/pdec/billiards/logic/GameMechanic.java:251-260 | one reflection of hitTableBorder: the new point, the normalised reflected direction and the distance left |
| GameMechanic.BounceOffUnit | src/pl/pdec/billiards/logic/GameMechanic.java:256-257 | under a true square root, the reflected direction has length 1 |
| GameMechanic.BounceMirrorsDirection | src/pl/pdec/billiards/logic/GameMechanic.java:256-257 | the new direction is the old one with one component negated, normalised |
| GameMechanic.Border | src/pl/pdec/billiards/logic/GameMechanic.java:200-267 | the point and direction hitTableBorder ends with, recursing from loop up to the cap; its properties are in the Border lemmas |
| GameMechanic.BorderInsideUnchanged | src/pl/pdec/billiards/logic/GameMechanic.java:251-266 | a point within the table comes back unchanged, with the direction untouched and no reflection |
| GameMechanic.BorderBounded | src/pl/pdec/billiards/logic/GameMechanic.java:200-263 | at most 11 - loop reflections; below the cap, the returned point is within the table |
| GameMechanic.BorderKeepsUnit | src/pl/pdec/billiards/logic/GameMechanic.java:251-263 | under a true square root, the final direction is the starting one or has length 1 |
| GameMechanic.HitTableBorder | src/pl/pdec/billiards/logic/GameMechanic.java:200-267 | the returned point and the ball's final direction are Border's; nothing else of the ball changes; the direction array is the old one or a fresh one |
| GameMechanic.Friction | src/pl/pdec/billiards/logic/GameMechanic.java:126-131 | the new velocity is 0 or above 1; for 0 <= dt <= 1 and v >= 0 it lies between 0 and v |
| GameMechanic.FrictionIter | src/pl/pdec/billiards/logic/GameMechanic.java:126-131 | the velocity after n ticks of the friction rule; for 0 <= dt <= 1 it stays between 0 and the starting velocity |
| GameMechanic.FrictionDrop | src/pl/pdec/billiards/logic/GameMechanic.java:126-131 | for dt > 0, a tick either stops the ball or takes at least 0.9 dt off its velocity |
| GameMechanic.FrictionStops | src/pl/pdec/billiards/logic/GameMechanic.java:126-131 | for dt > 0, a velocity of at most n times 0.9 dt is 0 after n ticks |
| GameMechanic.FrictionConverges | src/pl/pdec/billiards/logic/GameMechanic.java:126-131 | for any dt > 0, the velocity is 0 after at most v / (0.9 dt) + 1 ticks |
| GameMechanic.Travel | src/pl/pdec/billiards/logic/GameMechanic.java:117-120 | the states after hitOtherBall on findBallToHit's ball or, with none, after the move to hitTableBorder's point |
| GameMechanic.Settle | src/pl/pdec/billiards/logic/GameMechanic.java:122-131 | the states after the pocket test and the friction rule |
| GameMechanic.Move | src/pl/pdec/billiards/logic/GameMechanic.java:107-132 | moveBall on the states of all balls; its properties are in the Move lemmas |
| GameMechanic.Target | src/pl/pdec/billiards/logic/GameMechanic.java:108-117 | the position of the ball moveBall strikes, if any |
| GameMechanic.MoveSlowBall | src/pl/pdec/billiards/logic/GameMechanic.java:108-110 | a ball at most 0.01 fast changes nothing on any ball |
| GameMechanic.MoveFrame | src/pl/pdec/billiards/logic/GameMechanic.java:117-198 | numbers and colours never change; only the mover and the struck ball change; the struck ball takes the mover's velocity and keeps its place |
| GameMechanic.MoveStriker | src/pl/pdec/billiards/logic/GameMechanic.java:117-131 | the mover keeps its place after a hit, else ends at hitTableBorder's point; it is pocketed iff it was or its final place is in a pocket; its velocity is the friction rule |
| GameMechanic.MoveKeepsVelocitiesNonnegative | src/pl/pdec/billiards/logic/GameMechanic.java:126-193 | with 0 <= dt <= 1, non-negative velocities stay non-negative, and the mover does not speed up |
| GameMechanic.MovePocketMonotone | src/pl/pdec/billiards/logic/GameMechanic.java:122-124 | a pocketed ball stays pocketed |
| GameMechanic.MoveKeepsDirectionsUnit | src/pl/pdec/billiards/logic/GameMechanic.java:107-132 | under a true square root, when every direction has length 0 or 1, every direction still does after the step |
| GameMechanic.TravelBall | src/pl/pdec/billiards/logic/GameMechanic.java:117-120 | the balls' new states are Travel of the old ones |
| GameMechanic.RollToCushions | src/pl/pdec/billiards/logic/GameMechanic.java:118-119 | only the mover changes: it moves to the point hitTableBorder returns, with its direction |
| GameMechanic.SettleBall | src/pl/pdec/billiards/logic/GameMechanic.java:122-131 | only the mover changes: its pocket flag, then its velocity, as Settle says |
| GameMechanic.MoveBall | src/pl/pdec/billiards/logic/GameMechanic.java:107-132 | the balls' new states are Move of the old ones |
| BilliardsGame.Trunc | src/pl/pdec/billiards/Game.java:58-59 | the (int) cast of a double; TruncTowardZero and TruncOfInt give its meaning |
| BilliardsGame.TruncTowardZero | src/pl/pdec/billiards/Game.java:58-59 | the (int) cast drops the fraction toward zero |
| BilliardsGame.TruncOfInt | src/pl/pdec/billiards/Game.java:75-90 | casting an int-valued double gives the int back |
| BilliardsGame.LeadPosition | src/pl/pdec/billiards/Game.java:58-59 | the head ball's place: the (int) casts of half across the table and a quarter down it |
| BilliardsGame.WhitePosition | src/pl/pdec/billiards/Game.java:92-94 | the white ball's place: the (int) casts of half across the table and a quarter of its height up from the bottom |
| BilliardsGame.RackOf | src/pl/pdec/billiards/Game.java:58-94 | the two places add9BallsGame computes from the table |
| BilliardsGame.RackOffset | src/pl/pdec/billiards/Game.java:60-90 | the offset of each of balls 1 to 9 from the head ball |
| BilliardsGame.RackPosition | src/pl/pdec/billiards/Game.java:58-94 | each ball's place after a reset: the white place for ball 0, else the head ball's place plus the offset |
| BilliardsGame.RackState | src/pl/pdec/billiards/Game.java:60-95 | the state of a new ball at its rack place: still, with direction (0, 0), not pocketed, and white exactly when it is ball 0 |
| BilliardsGame.RackBallsApart | src/pl/pdec/billiards/Game.java:58-90 | no two of balls 1 to 9 are closer than a diameter |
| BilliardsGame.WhiteClearOfRack | src/pl/pdec/billiards/Game.java:58-94 | on a table at non-negative y and at least 44 high, the white ball is at least a diameter from every racked ball |
| BilliardsGame.RackInsideTable | src/pl/pdec/billiards/Game.java:58-94 | on a table at a non-negative origin and at least 64 by 400, every centre is a radius or more inside the cushions |
| BilliardsGame.Numbers | src/pl/pdec/billiards/Game.java:18 | the numbers of the balls in the set, which decide HashSet membership |
| BilliardsGame.Insert | src/pl/pdec/billiards/Game.java:61-95 | HashSet.add: the numbers gain b's number; the set grows by at most b, at the end; b is added when its number is new; distinctness is kept |
| BilliardsGame.NumbersAppend | src/pl/pdec/billiards/Game.java:61-95 | appending a ball adds its number to the numbers |
| BilliardsGame.RackedInsert | src/pl/pdec/billiards/Game.java:61-95 | adding a racked ball whose number is new appends it and keeps the rack |
| BilliardsGame.RackedComplete | src/pl/pdec/billiards/Game.java:57-96 | the ten racked balls have distinct numbers, the numbers are 0 to 9, ball 0 comes last, and only ball 0 is white |
| BilliardsGame.Remaining | src/pl/pdec/billiards/Game.java:100-109 | the balls left after integrate's removal loop; the set never grows (what is kept is in RemainingFilters) |
| BilliardsGame.RemainingFilters | src/pl/pdec/billiards/Game.java:100-109 | every ball kept is from the set and not pocketed, and every unpocketed ball is kept |
| BilliardsGame.RemainingKeepsDistinct | src/pl/pdec/billiards/Game.java:100-109 | removing balls keeps the numbers distinct |
| BilliardsGame.RemainingIdempotent | src/pl/pdec/billiards/Game.java:100-109 | removing the pocketed balls a second time changes nothing |
| BilliardsGame.WhitePocketed | src/pl/pdec/billiards/Game.java:103-107 | some ball of the set is white and in a pocket |
| BilliardsGame.BookkeepingStep | src/pl/pdec/billiards/Game.java:101-108 | one iteration extends the kept balls and the white-pocketed test by one ball |
| BilliardsGame.Game.constructor | src/pl/pdec/billiards/Game.java:16-25 | a new game has no table, no balls, no white ball, and has not ended |
| BilliardsGame.Game.SetTable | src/pl/pdec/billiards/Game.java:49-51 | the table is the given one |
| BilliardsGame.Game.ClearBalls | src/pl/pdec/billiards/Game.java:53-55 | the set is empty |
| BilliardsGame.Game.AddBall | src/pl/pdec/billiards/Game.java:61 | the set becomes Insert of the old set |
| BilliardsGame.Game.PlaceBall | src/pl/pdec/billiards/Game.java:63-68 | a new ball at (x, y) is added to the set |
| BilliardsGame.Game.RackBall | src/pl/pdec/billiards/Game.java:63-90 | a new ball at its rack position is appended, and the rack grows by its number |
| BilliardsGame.Game.RackFrontRows | src/pl/pdec/billiards/Game.java:58-68 | the head ball's place is RackOf(t).lead; balls 1, 2 and 3 are racked |
| BilliardsGame.Game.RackMiddleRow | src/pl/pdec/billiards/Game.java:70-79 | balls 4, 5 and 6 are racked; balls 5 and 6 go through ball 4's double position and the cast |
| BilliardsGame.Game.RackBackRows | src/pl/pdec/billiards/Game.java:81-90 | balls 7, 8 and 9 are racked |
| BilliardsGame.Game.RackWhiteBall | src/pl/pdec/billiards/Game.java:92-95 | whiteBall is a new ball at the white place, appended last |
| BilliardsGame.Game.Add9BallsGame | src/pl/pdec/billiards/Game.java:57-96 | from an empty set: balls 1 to 9 and then 0, each at its rack place, and whiteBall is the last one |
| BilliardsGame.Game.Reset | src/pl/pdec/billiards/Game.java:35-43 | exactly ten balls numbered 0 to 9, each at its rack place in the racked state; only ball 0 is white, and it is whiteBall; the game has not ended; the table is unchanged |
| BilliardsGame.Game.Integrate | src/pl/pdec/billiards/Game.java:98-113 | the set becomes Remaining of the old one; gameEnded is set iff it was set, a white ball was pocketed, or one ball is left, so it never goes back to false |
| BilliardsGame.Game.IsGameEnded | src/pl/pdec/billiards/Game.java:115-117 | the end-of-game flag |

## Left out

- The threads: the `Worker` threads, the `CyclicBarrier`, `run`, `shutdown`, `synchronized`/`wait`/`notify` and `volatile`. The model covers one `moveBall` call of one worker (`MoveBall`); nothing composes the calls of all workers into a whole step.
- The `GameMechanic` construction in reset, which starts the threads, and the call to `gameMechanic.integrate` at the start of `Game.integrate`. The parameters `t` and `deltaTime` of integrate are not used by the bookkeeping.
- `GameMechanicMath`, `Stick`, `StickControllerRunnable` and `BilliardsSample`: they are not part of this model. They are an unused alternative mechanic, aiming, mouse handling, and the window with its timing loop.
- Drawing: `draw` and `paintComponent`, and the ball's `Color`.
- The getters `getBalls`, `getWhiteBall`, `getX`, `getY`, `getVelocity`, `getDirection`, `getNumber` and `isWhite`: each is a field read of the model. `setStick` writes a field the model does not have, used only for drawing.
- IEEE-754 doubles: rounding, NaN and infinity. Each division and normalisation is guarded by a precondition instead (`CollideDefined`, `BorderDefined`, `TravelDefined`, `MoveDefined`). The one NaN-based comparison, the line distance with a zero divisor, is modelled as false (`NearLine`).
- The rounding of the 0.1 steps of the sampling loop. Step k is exactly k/10 (`SampleStep`).
- `Math.sqrt` is a parameter. It is a square root only where a lemma requires `IsSqrt(sqrt)`.
- The rack arithmetic is unbounded: int overflow and the saturation of the `(int)` cast for huge tables are not modelled.
- The iteration order of the `HashSet`: the model takes insertion order.
- BilliardsGame.Game.Reset: requires a table to be set. With none, the Java code throws a NullPointerException.
- BilliardsGame.Game.Add9BallsGame: specified only from an empty set, which is how its only caller, reset, calls it.

Members that stand for parts of one Java method:

- moveBall is split into `TravelBall`, `StrikeTarget`, `RollToCushions` and `SettleBall`.
- The loops of findBallToHit are `SampleAlongPath` (the inner loop) and `BallInTheWay` (one pass of the outer loop).
- add9BallsGame is split into `RackFrontRows`, `RackMiddleRow`, `RackBackRows` and `RackWhiteBall`.
