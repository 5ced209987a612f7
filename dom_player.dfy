/**
 * The DOM variant of the player mover (`src/PlayerController.js`): a
 * square 50 pixels wide moved by 5 pixels per input-state change, left
 * or right as the intents say (not at all when both are held), and kept
 * inside the game area.
 *
 * The game area's size is passed in where the source measures the DOM
 * element, and the write of the position into the element's style is
 * not modelled.
 */
module DomControl {
  import opened MathUtils
  import Input

  /** The player's width and height, in pixels. */
  const PlayerSize: real := 50.0
  /** Pixels moved per input-state change. */
  const Speed: real := 5.0

  datatype Vec2 = Vec2(x: real, y: real) {
    function Plus(other: Vec2): Vec2 { Vec2(x + other.x, y + other.y) }
  }

  /** The rectangle the player's top-left corner may occupy. */
  datatype Box = Box(left: real, right: real, top: real, bottom: real) {
    predicate WellFormed() { left <= right && top <= bottom }
    predicate Contains(p: Vec2) { left <= p.x <= right && top <= p.y <= bottom }
  }

  /** `calculateBounds` for a game area `width` by `height`. */
  function BoundsFor(width: real, height: real): (b: Box)
    ensures b.WellFormed() <==> width >= PlayerSize && height >= PlayerSize
    ensures b.right - b.left == width - PlayerSize && b.bottom - b.top == height - PlayerSize
  {
    Box(0.0, width - PlayerSize, 0.0, height - PlayerSize)
  }

  /** Where `centerPlayer` puts the player's corner. */
  function Centre(width: real, height: real): Vec2 {
    Vec2((width - PlayerSize) / 2.0, (height - PlayerSize) / 2.0)
  }

  /** The centred player sits in the middle of its bounds: as far from the
      left edge as from the right, and from the top as from the bottom. */
  lemma CentreIsMidway(width: real, height: real)
    ensures var b := BoundsFor(width, height); var c := Centre(width, height);
      && c.x - b.left == b.right - c.x
      && c.y - b.top == b.bottom - c.y
      && (b.WellFormed() ==> b.Contains(c))
  {
  }

  /** `constrainPlayerPosition`: each coordinate clamped into the box. */
  function Constrain(p: Vec2, b: Box): (r: Vec2)
    ensures b.WellFormed() ==> b.Contains(r)
    ensures b.Contains(p) ==> r == p
  {
    Vec2(Clamp(p.x, b.left, b.right), Clamp(p.y, b.top, b.bottom))
  }

  /** The horizontal velocity an input state asks for: `-speed` for left
      only, `speed` for right only, none for both or neither. */
  function VelocityFor(state: Input.InputState, speed: real): (r: real)
    ensures r == 0.0 || r == -speed || r == speed
    ensures speed > 0.0 ==> (r < 0.0 <==> state.leftIntent && !state.rightIntent)
    ensures speed > 0.0 ==> (r > 0.0 <==> state.rightIntent && !state.leftIntent)
  {
    if state.leftIntent == state.rightIntent then 0.0
    else if state.leftIntent then -speed
    else speed
  }

  /** One input-state change moves the player horizontally by at most the
      speed and never vertically, when it starts in well-formed bounds. */
  lemma {:induction false} StepIsBounded(p: Vec2, state: Input.InputState, b: Box)
    requires b.WellFormed() && b.Contains(p)
    ensures var r := Constrain(p.Plus(Vec2(VelocityFor(state, Speed), 0.0)), b);
      && Abs(r.x - p.x) <= Speed
      && r.y == p.y
  {
    ClampIsNonExpansive(p.x, VelocityFor(state, Speed), b.left, b.right);
  }

  /** Holding only left walks the player to the left edge and no further. */
  lemma HoldingLeftStopsAtTheEdge(p: Vec2, b: Box)
    requires b.WellFormed() && b.Contains(p)
    ensures Constrain(p.Plus(Vec2(VelocityFor(Input.InputState(true, false, Input.Keyboard), Speed), 0.0)), b).x
      == Max(b.left, p.x - Speed)
  {
  }

  class PlayerController {
    var position: Vec2
    var velocity: Vec2
    const speed: real
    var bounds: Box

    /** The speed never changes and the player never moves vertically. */
    ghost predicate Valid()
      reads this
    {
      speed == Speed && velocity.y == 0.0
    }

    /** The constructor and `init`: the subscription delivers the manager's
        current state at once, which sets the velocity and moves the
        player from (0, 0); then the player is centred. */
    constructor (width: real, height: real, initial: Input.InputState)
      ensures Valid()
      ensures bounds == BoundsFor(width, height)
      ensures velocity == Vec2(VelocityFor(initial, Speed), 0.0)
      ensures position == Centre(width, height)
    {
      position := Vec2(0.0, 0.0);
      velocity := Vec2(0.0, 0.0);
      speed := Speed;
      bounds := BoundsFor(width, height);
      new;
      HandleInputState(initial);
      ghost var v := velocity;
      assert v == Vec2(VelocityFor(initial, Speed), 0.0);
      CenterPlayer(width, height);
    }

    /** The resize listener: new bounds, then the position clamped into
        them. */
    method Resize(width: real, height: real)
      requires Valid()
      modifies this
      ensures Valid() && velocity == old(velocity)
      ensures bounds == BoundsFor(width, height)
      ensures position == Constrain(old(position), bounds)
    {
      bounds := BoundsFor(width, height);
      ConstrainPlayerPosition();
    }

    method CenterPlayer(width: real, height: real)
      modifies this`position
      ensures position == Centre(width, height)
    {
      position := Vec2((width - PlayerSize) / 2.0, (height - PlayerSize) / 2.0);
    }

    method HandleInputState(state: Input.InputState)
      requires Valid()
      modifies this
      ensures Valid() && bounds == old(bounds)
      ensures velocity.x == VelocityFor(state, speed)
      ensures position == Constrain(old(position).Plus(velocity), bounds)
    {
      velocity := velocity.(x := 0.0);
      if state.leftIntent {
        velocity := velocity.(x := -speed);
      }
      if state.rightIntent {
        velocity := velocity.(x := speed);
      }
      if state.leftIntent && state.rightIntent {
        velocity := velocity.(x := 0.0);
      }
      UpdatePosition();
    }

    method UpdatePosition()
      requires Valid()
      modifies this`position
      ensures position == Constrain(old(position).Plus(velocity), bounds)
      ensures bounds.WellFormed() ==> bounds.Contains(position)
    {
      position := Vec2(position.x + velocity.x, position.y + velocity.y);
      ConstrainPlayerPosition();
    }

    method ConstrainPlayerPosition()
      modifies this`position
      ensures position == Constrain(old(position), bounds)
    {
      position := Vec2(Max(bounds.left, Min(bounds.right, position.x)),
                       Max(bounds.top, Min(bounds.bottom, position.y)));
    }

    /** Copies of the position and the velocity. */
    method GetState() returns (p: Vec2, v: Vec2)
      ensures p == position && v == velocity
    {
      p := position;
      v := velocity;
    }
  }
}
