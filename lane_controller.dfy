/**
 * The lane controller of the three.js game
 * (`src/controllers/PlayerController.ts`): the player sits in one of a
 * few lanes laid out symmetrically about x = 0, moves one lane per
 * rising edge of a movement intent, and glides towards its lane with a
 * damped, speed-limited, overshoot-guarded step clamped into bounds.
 *
 * Only the horizontal position of the player's mesh is modelled. The
 * damping factor `1 - exp(-smoothing * deltaTime)` is supplied by the
 * caller as `blend`.
 */
module LaneControl {
  import opened Wrappers
  import opened MathUtils

  datatype Intents = Intents(moveLeft: bool, moveRight: bool)

  datatype Bounds = Bounds(minX: real, maxX: real)

  /** `PlayerControllerOptions`, without the mesh's initial y and z. */
  datatype Options = Options(
    laneCount: Option<real>,
    laneWidth: Option<real>,
    maxHorizontalSpeed: Option<real>,
    velocityBlend: Option<real>,
    initialLaneIndex: Option<int>,
    bounds: Option<Bounds>)

  const DefaultOptions := Options(None, None, None, None, None, None)

  const DefaultLaneCount: real := 3.0
  const DefaultLaneWidth: real := 2.0
  const DefaultMaxSpeed: real := 12.0
  const DefaultVelocityBlend: real := 10.0
  /** Below this distance the player snaps onto its target. */
  const SnapEpsilon: real := 0.0001
  /** The smallest time step the desired velocity is divided by. */
  const MinDeltaTime: real := 0.0001

  // ---------------------------------------------------------------------
  // Lanes
  // ---------------------------------------------------------------------

  /** `Math.max(1, Math.floor(laneCount ?? 3))`. */
  function LaneCount(requested: Option<real>): (n: int)
    ensures n >= 1
    ensures requested.Some? && requested.value >= 1.0 ==> n as real <= requested.value < n as real + 1.0
  {
    var floor := requested.GetOr(DefaultLaneCount).Floor;
    if floor < 1 then 1 else floor
  }

  /** The x coordinate of lane `i` of `n` lanes `w` apart. */
  function LanePosition(n: int, w: real, i: int): real {
    -(((n - 1) as real) * w) / 2.0 + (i as real) * w
  }

  /** Lanes mirror each other about x = 0. */
  lemma LanesAreSymmetric(n: int, w: real, i: int)
    ensures LanePosition(n, w, i) + LanePosition(n, w, n - 1 - i) == 0.0
  {
    assert (i as real) * w + ((n - 1 - i) as real) * w == ((n - 1) as real) * w;
  }

  /** Neighbouring lanes are exactly one lane width apart. */
  lemma LanesAreEvenlySpaced(n: int, w: real, i: int)
    ensures LanePosition(n, w, i + 1) - LanePosition(n, w, i) == w
  {
    assert ((i + 1) as real) * w == (i as real) * w + w;
  }

  /** With an odd number of lanes the middle one is at x = 0, and a single
      lane sits there too. */
  lemma MiddleLaneIsCentred(n: int, w: real)
    requires n >= 1 && n % 2 == 1
    ensures LanePosition(n, w, n / 2) == 0.0
  {
    assert (n - 1) as real == 2.0 * ((n / 2) as real);
    assert ((n - 1) as real) * w == 2.0 * (((n / 2) as real) * w);
  }

  /** With a non-negative width the first lane is leftmost, so the default
      bounds are ordered. */
  lemma FirstLaneIsLeftmost(n: int, w: real, i: int)
    requires 0 <= i < n && w >= 0.0
    ensures LanePosition(n, w, 0) <= LanePosition(n, w, i) <= LanePosition(n, w, n - 1)
  {
    assert 0.0 <= (i as real) * w <= ((n - 1) as real) * w by {
      assert 0.0 <= (i as real) && (i as real) <= (n - 1) as real;
      assert ((n - 1) as real) * w - (i as real) * w == ((n - 1 - i) as real) * w;
    }
  }

  /** `createLanePositions`: a single lane at 0, otherwise `count` lanes
      spread evenly about 0. */
  method CreateLanePositions(count: int, width: real) returns (positions: seq<real>)
    ensures |positions| == if count < 0 then 0 else count
    ensures forall i | 0 <= i < |positions| :: positions[i] == LanePosition(count, width, i)
  {
    if count == 1 {
      return [0.0];
    }
    positions := [];
    var halfExtent := (((count - 1) as real) * width) / 2.0;
    var i := 0;
    while i < count
      invariant 0 <= i && (count >= 0 ==> i <= count) && (count < 0 ==> i == 0)
      invariant |positions| == i
      invariant forall j | 0 <= j < i :: positions[j] == LanePosition(count, width, j)
    {
      positions := positions + [-halfExtent + (i as real) * width];
      i := i + 1;
    }
  }

  /** The bounds used when none are given: the outermost lanes. */
  function DefaultBounds(lanes: seq<real>): Bounds
    requires |lanes| >= 1
  {
    Bounds(lanes[0], lanes[|lanes| - 1])
  }

  /** The initial lane: the requested one, or the middle one, clamped to a
      valid index. */
  function InitialLane(requested: Option<int>, laneCount: int): (i: int)
    requires laneCount >= 1
    ensures 0 <= i < laneCount
    ensures requested.Some? && 0 <= requested.value < laneCount ==> i == requested.value
    ensures requested.None? ==> i == laneCount / 2
  {
    ClampInt(requested.GetOr(laneCount / 2), 0, laneCount - 1)
  }

  // ---------------------------------------------------------------------
  // One update
  // ---------------------------------------------------------------------

  /** `consumeIntents`: a rising edge of `moveLeft` steps one lane left,
      otherwise a rising edge of `moveRight` steps one lane right, never
      leaving the valid range. */
  function NextLaneIndex(index: int, count: int, previous: Intents, current: Intents): (r: int)
    ensures 0 <= index < count ==> 0 <= r < count
  {
    if current.moveLeft && !previous.moveLeft then Max0(index - 1)
    else if current.moveRight && !previous.moveRight then MinInt(count - 1, index + 1)
    else index
  }

  function Max0(x: int): int { if x < 0 then 0 else x }
  function MinInt(x: int, y: int): int { if x <= y then x else y }

  /** The lane index stays valid, moves by at most one lane, and moves only
      on a rising edge: left on a rising left edge, right on a rising right
      edge without a rising left edge. */
  lemma LaneIndexIsEdgeTriggered(index: int, count: int, previous: Intents, current: Intents)
    requires 0 <= index < count
    ensures var r := NextLaneIndex(index, count, previous, current);
      && 0 <= r < count
      && index - 1 <= r <= index + 1
      && (r < index <==> current.moveLeft && !previous.moveLeft && index > 0)
      && (r > index <==> !(current.moveLeft && !previous.moveLeft)
                         && current.moveRight && !previous.moveRight && index < count - 1)
  {
  }

  /** Holding a direction moves one lane only: a second tick with the same
      intents leaves the index where the first left it. */
  lemma HeldIntentMovesOnce(index: int, count: int, previous: Intents, current: Intents)
    ensures NextLaneIndex(NextLaneIndex(index, count, previous, current), count, current, current)
      == NextLaneIndex(index, count, previous, current)
  {
  }

  /** When both directions rise at once only the left step is taken. */
  lemma SimultaneousEdgesMoveLeft(index: int, count: int)
    requires 0 < index < count
    ensures NextLaneIndex(index, count, Intents(false, false), Intents(true, true)) == index - 1
  {
  }

  /** The clamped speed towards the target: the distance over the time step
      (at least `MinDeltaTime`), limited to `maxSpeed` either way. */
  function DesiredVelocity(deltaX: real, deltaTime: real, maxSpeed: real): (v: real)
    ensures maxSpeed >= 0.0 ==> -maxSpeed <= v <= maxSpeed
    ensures maxSpeed > 0.0 && deltaX > 0.0 ==> v > 0.0
    ensures maxSpeed > 0.0 && deltaX < 0.0 ==> v < 0.0
  {
    var step := Max(deltaTime, MinDeltaTime);
    assert step > 0.0;
    assert deltaX > 0.0 ==> deltaX / step > 0.0;
    assert deltaX < 0.0 ==> deltaX / step < 0.0;
    Clamp(deltaX / step, -maxSpeed, maxSpeed)
  }

  /** `damp`, with the blend factor `1 - exp(-smoothing * deltaTime)`
      given as `blend`. */
  function Damp(current: real, target: real, blend: real): (r: real)
    ensures blend == 0.0 ==> r == current
    ensures blend == 1.0 ==> r == target
  {
    Lerp(current, target, blend)
  }

  /** A blend in [0, 1] lands between the current and the target value. */
  lemma DampStaysBetween(current: real, target: real, blend: real)
    requires 0.0 <= blend <= 1.0
    ensures current <= target ==> current <= Damp(current, target, blend) <= target
    ensures target <= current ==> target <= Damp(current, target, blend) <= current
  {
    var d := target - current;
    LerpIsOffset(current, target, blend);
    ScaleByFraction(blend, d);
    assert Damp(current, target, blend) == current + blend * d;
  }

  datatype Motion = Motion(x: real, velocity: real)

  /** `moveTowardsLane` from position `x` and velocity `v` towards
      `targetX`: snap when within `SnapEpsilon`, otherwise glide with the
      damped velocity. */
  function Approach(x: real, v: real, targetX: real, deltaTime: real, blend: real, maxSpeed: real, b: Bounds): (r: Motion)
    ensures Abs(targetX - x) < SnapEpsilon ==> r == Motion(targetX, 0.0)
  {
    if Abs(targetX - x) < SnapEpsilon then Motion(targetX, 0.0)
    else Glide(x, Damp(v, DesiredVelocity(targetX - x, deltaTime, maxSpeed), blend), targetX, deltaTime, b)
  }

  /** One step at `velocity`: a step that would pass the target stops on it
      at rest; the position is then clamped into the bounds. */
  function Glide(x: real, velocity: real, targetX: real, deltaTime: real, b: Bounds): Motion {
    var nextX := x + velocity * deltaTime;
    if (x < targetX && nextX > targetX) || (x > targetX && nextX < targetX) then
      Motion(Clamp(targetX, b.minX, b.maxX), 0.0)
    else
      Motion(Clamp(nextX, b.minX, b.maxX), velocity)
  }

  /** The target of the current lane, clamped into the bounds. */
  function LaneTarget(lanes: seq<real>, index: int, b: Bounds): real
    requires 0 <= index < |lanes|
  {
    Clamp(lanes[index], b.minX, b.maxX)
  }

  /** The speed never grows beyond the larger of the current speed and the
      speed limit: the damped velocity lies between the current one and a
      desired one within the limit, and a step either keeps it or stops. */
  lemma ApproachKeepsSpeedBounded(x: real, v: real, targetX: real, deltaTime: real, blend: real, maxSpeed: real, b: Bounds)
    requires 0.0 <= blend <= 1.0 && 0.0 <= maxSpeed
    ensures Abs(Approach(x, v, targetX, deltaTime, blend, maxSpeed, b).velocity) <= Max(Abs(v), maxSpeed)
  {
    if Abs(targetX - x) >= SnapEpsilon {
      var desired := DesiredVelocity(targetX - x, deltaTime, maxSpeed);
      DampStaysBetween(v, desired, blend);
      var damped := Damp(v, desired, blend);
      assert Abs(damped) <= Max(Abs(v), maxSpeed);
      var g := Glide(x, damped, targetX, deltaTime, b);
      assert g.velocity == 0.0 || g.velocity == damped;
    }
  }

  /** With ordered bounds and a target inside them, a glide at any
      velocity ends inside the bounds and never beyond the target on the
      side it started from. */
  lemma GlideNeverPassesTarget(x: real, velocity: real, targetX: real, deltaTime: real, b: Bounds)
    requires b.minX <= targetX <= b.maxX
    ensures var r := Glide(x, velocity, targetX, deltaTime, b);
      && b.minX <= r.x <= b.maxX
      && (x < targetX ==> r.x <= targetX)
      && (x > targetX ==> r.x >= targetX)
  {
    var nextX := x + velocity * deltaTime;
    if !((x < targetX && nextX > targetX) || (x > targetX && nextX < targetX)) {
      assert x < targetX ==> Clamp(nextX, b.minX, b.maxX) <= targetX;
      assert x > targetX ==> Clamp(nextX, b.minX, b.maxX) >= targetX;
    }
  }

  /** Hence a whole step, snapping or gliding, stays in the bounds and on
      its side of the target. */
  lemma ApproachNeverOvershoots(x: real, v: real, targetX: real, deltaTime: real, blend: real, maxSpeed: real, b: Bounds)
    requires b.minX <= targetX <= b.maxX
    ensures var r := Approach(x, v, targetX, deltaTime, blend, maxSpeed, b);
      && b.minX <= r.x <= b.maxX
      && (x < targetX ==> r.x <= targetX)
      && (x > targetX ==> r.x >= targetX)
  {
    if Abs(targetX - x) >= SnapEpsilon {
      GlideNeverPassesTarget(x, Damp(v, DesiredVelocity(targetX - x, deltaTime, maxSpeed), blend), targetX, deltaTime, b);
    }
  }

  /** A step that would pass the target ends on it at rest. */
  lemma OvershootStopsOnTarget(x: real, v: real, targetX: real, deltaTime: real, blend: real, maxSpeed: real, b: Bounds)
    requires b.minX <= targetX <= b.maxX && Abs(targetX - x) >= SnapEpsilon
    requires var nextX := x + Damp(v, DesiredVelocity(targetX - x, deltaTime, maxSpeed), blend) * deltaTime;
      (x < targetX && nextX > targetX) || (x > targetX && nextX < targetX)
    ensures Approach(x, v, targetX, deltaTime, blend, maxSpeed, b) == Motion(targetX, 0.0)
  {
  }

  // ---------------------------------------------------------------------
  // The object
  // ---------------------------------------------------------------------

  class PlayerController {
    const lanePositions: seq<real>
    const bounds: Bounds
    const maxHorizontalSpeed: real
    const velocityBlend: real
    var targetLaneIndex: int
    var previousIntents: Intents
    /** The mesh's horizontal position and velocity. */
    var x: real
    var velocity: real

    ghost predicate Valid()
      reads this
    {
      && |lanePositions| >= 1
      && 0 <= targetLaneIndex < |lanePositions|
      && (bounds.minX <= bounds.maxX ==> bounds.minX <= x <= bounds.maxX)
    }

    constructor (options: Options)
      ensures Valid()
      ensures |lanePositions| == LaneCount(options.laneCount)
      ensures forall i | 0 <= i < |lanePositions| ::
        lanePositions[i] == LanePosition(|lanePositions|, options.laneWidth.GetOr(DefaultLaneWidth), i)
      ensures bounds == options.bounds.GetOr(DefaultBounds(lanePositions))
      ensures maxHorizontalSpeed == options.maxHorizontalSpeed.GetOr(DefaultMaxSpeed)
      ensures velocityBlend == options.velocityBlend.GetOr(DefaultVelocityBlend)
      ensures targetLaneIndex == InitialLane(options.initialLaneIndex, |lanePositions|)
      ensures x == LaneTarget(lanePositions, targetLaneIndex, bounds)
      ensures velocity == 0.0 && previousIntents == Intents(false, false)
    {
      var laneCount := LaneCount(options.laneCount);
      var laneWidth := options.laneWidth.GetOr(DefaultLaneWidth);
      var lanes := CreateLanePositions(laneCount, laneWidth);
      lanePositions := lanes;
      var b := options.bounds.GetOr(DefaultBounds(lanes));
      bounds := b;
      maxHorizontalSpeed := options.maxHorizontalSpeed.GetOr(DefaultMaxSpeed);
      velocityBlend := options.velocityBlend.GetOr(DefaultVelocityBlend);
      targetLaneIndex := InitialLane(options.initialLaneIndex, |lanes|);
      previousIntents := Intents(false, false);
      x := Clamp(lanes[InitialLane(options.initialLaneIndex, |lanes|)], b.minX, b.maxX);
      velocity := 0.0;
    }

    /** One frame: consume the intents, move, remember the intents. The
        blend is `1 - exp(-velocityBlend * deltaTime)`. */
    method Update(deltaTime: real, intents: Intents, blend: real)
      requires Valid()
      modifies this
      ensures Valid()
      ensures targetLaneIndex == NextLaneIndex(old(targetLaneIndex), |lanePositions|, old(previousIntents), intents)
      ensures Motion(x, velocity) == Approach(old(x), old(velocity), LaneTarget(lanePositions, targetLaneIndex, bounds),
                                              deltaTime, blend, maxHorizontalSpeed, bounds)
      ensures previousIntents == intents
    {
      ConsumeIntents(intents);
      MoveTowardsLane(deltaTime, blend);
      previousIntents := intents;
    }

    method ConsumeIntents(intents: Intents)
      requires Valid()
      modifies this`targetLaneIndex
      ensures Valid()
      ensures targetLaneIndex == NextLaneIndex(old(targetLaneIndex), |lanePositions|, previousIntents, intents)
    {
      LaneIndexIsEdgeTriggered(targetLaneIndex, |lanePositions|, previousIntents, intents);
      if intents.moveLeft && !previousIntents.moveLeft {
        targetLaneIndex := Max0(targetLaneIndex - 1);
      } else if intents.moveRight && !previousIntents.moveRight {
        targetLaneIndex := MinInt(|lanePositions| - 1, targetLaneIndex + 1);
      }
    }

    method MoveTowardsLane(deltaTime: real, blend: real)
      requires Valid()
      modifies this`x, this`velocity
      ensures Valid()
      ensures Motion(x, velocity) == Approach(old(x), old(velocity), LaneTarget(lanePositions, targetLaneIndex, bounds),
                                              deltaTime, blend, maxHorizontalSpeed, bounds)
    {
      var targetX := Clamp(lanePositions[targetLaneIndex], bounds.minX, bounds.maxX);
      ghost var x0, v0 := x, velocity;
      var deltaX := targetX - x;
      if Abs(deltaX) < SnapEpsilon {
        x := targetX;
        velocity := 0.0;
        return;
      }
      var desiredVelocity := Clamp(deltaX / Max(deltaTime, MinDeltaTime), -maxHorizontalSpeed, maxHorizontalSpeed);
      assert desiredVelocity == DesiredVelocity(deltaX, deltaTime, maxHorizontalSpeed);
      velocity := Damp(velocity, desiredVelocity, blend);
      var nextX := x + velocity * deltaTime;
      assert Approach(x0, v0, targetX, deltaTime, blend, maxHorizontalSpeed, bounds)
        == Glide(x0, velocity, targetX, deltaTime, bounds);
      if (deltaX > 0.0 && nextX > targetX) || (deltaX < 0.0 && nextX < targetX) {
        nextX := targetX;
        velocity := 0.0;
      }
      if bounds.minX <= bounds.maxX {
        ApproachNeverOvershoots(x0, v0, targetX, deltaTime, blend, maxHorizontalSpeed, bounds);
      }
      x := Clamp(nextX, bounds.minX, bounds.maxX);
    }
  }

  /** With the default options there are lanes at -2, 0 and 2, the player
      starts in the middle one at x = 0, and the bounds are [-2, 2]. */
  lemma DefaultLayout()
    ensures LaneCount(None) == 3
    ensures LanePosition(3, DefaultLaneWidth, 0) == -2.0
    ensures LanePosition(3, DefaultLaneWidth, 1) == 0.0
    ensures LanePosition(3, DefaultLaneWidth, 2) == 2.0
    ensures InitialLane(None, 3) == 1
    ensures var lanes := [LanePosition(3, DefaultLaneWidth, 0), LanePosition(3, DefaultLaneWidth, 1),
                          LanePosition(3, DefaultLaneWidth, 2)];
      && DefaultBounds(lanes) == Bounds(-2.0, 2.0)
      && LaneTarget(lanes, InitialLane(None, 3), DefaultBounds(lanes)) == 0.0
  {
    assert (3.0).Floor == 3;
  }
}
