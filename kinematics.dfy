/** The ball of the breakout game: its centre and velocity, and the operations
    that move it and change the sign or size of its velocity components. */
module Kinematics {
  import opened Geometry

  /** Radius of the ball. */
  const BALL_RADIUS: real := 8.0
  /** Initial horizontal velocity, in pixels per nanosecond (1e-7). */
  const INITIAL_VX: real := 0.0000001
  /** Initial vertical velocity, in pixels per nanosecond (1e-7). */
  const INITIAL_VY: real := 0.0000001
  /** Factor by which one speed-up scales each velocity component. */
  const SPEED_UP: real := 1.1

  /** The ball's abstract state: centre (x, y) and velocity (vx, vy). */
  datatype BallState = BallState(x: real, y: real, vx: real, vy: real)

  function Abs(r: real): real
  {
    if r < 0.0 then -r else r
  }

  /** A freshly constructed ball: at the centre of the board, moving down and right. */
  function Initial(): (s: BallState)
    ensures s.x == WIDTH as real / 2.0 && s.y == HEIGHT as real / 2.0
    ensures s.vx > 0.0 && s.vy > 0.0
    ensures OnBoard(BallBounds(s))
  {
    BallState(WIDTH as real / 2.0, HEIGHT as real / 2.0, INITIAL_VX, INITIAL_VY)
  }

  /** The bounds of the ball's circle in board coordinates: the square of side
      2 * BALL_RADIUS centred on the ball's centre. */
  function BallBounds(s: BallState): (b: Box)
    ensures b.maxX - b.minX == 2.0 * BALL_RADIUS && b.maxY - b.minY == 2.0 * BALL_RADIUS
    ensures (b.minX + b.maxX) / 2.0 == s.x && (b.minY + b.maxY) / 2.0 == s.y
  {
    Box(s.x - BALL_RADIUS, s.y - BALL_RADIUS, s.x + BALL_RADIUS, s.y + BALL_RADIUS)
  }

  /** The state after moving for dt nanoseconds at the current velocity. */
  function Advanced(s: BallState, dt: int): (r: BallState)
    ensures r.vx == s.vx && r.vy == s.vy
    ensures dt == 0 ==> r == s
  {
    s.(x := s.x + s.vx * dt as real, y := s.y + s.vy * dt as real)
  }

  /** Moving for a then for b is moving for a + b: velocity is constant between collisions. */
  lemma AdvancedAdds(s: BallState, a: int, b: int)
    ensures Advanced(Advanced(s, a), b) == Advanced(s, a + b)
  {
    var once := Advanced(s, a);
    var twice := Advanced(once, b);
    var whole := Advanced(s, a + b);
    assert s.vx * a as real + s.vx * b as real == s.vx * (a + b) as real;
    assert s.vy * a as real + s.vy * b as real == s.vy * (a + b) as real;
    assert twice.x == whole.x && twice.y == whole.y;
    assert twice.vx == whole.vx && twice.vy == whole.vy;
  }

  /** Unconditional vertical reflection. */
  function YReversed(s: BallState): (r: BallState)
    ensures r.vy == -s.vy && r.(vy := s.vy) == s
  {
    s.(vy := -s.vy)
  }

  /** Unconditional horizontal reflection. */
  function XReversed(s: BallState): (r: BallState)
    ensures r.vx == -s.vx && r.(vx := s.vx) == s
  {
    s.(vx := -s.vx)
  }

  /** Reflecting twice restores the state. */
  lemma ReversedTwice(s: BallState)
    ensures YReversed(YReversed(s)) == s && XReversed(XReversed(s)) == s
  {
  }

  /** Forces the horizontal velocity to point left (or be zero), keeping its magnitude. */
  function XForcedNegative(s: BallState): (r: BallState)
    ensures r.vx <= 0.0 && Abs(r.vx) == Abs(s.vx)
    ensures r.(vx := s.vx) == s
    ensures s.vx <= 0.0 ==> r == s
  {
    if s.vx > 0.0 then s.(vx := -s.vx) else s
  }

  /** Forces the horizontal velocity to point right (or be zero), keeping its magnitude. */
  function XForcedPositive(s: BallState): (r: BallState)
    ensures r.vx >= 0.0 && Abs(r.vx) == Abs(s.vx)
    ensures r.(vx := s.vx) == s
    ensures s.vx >= 0.0 ==> r == s
  {
    if s.vx < 0.0 then s.(vx := -s.vx) else s
  }

  /** Forces the vertical velocity to point up (or be zero), keeping its magnitude. */
  function YForcedNegative(s: BallState): (r: BallState)
    ensures r.vy <= 0.0 && Abs(r.vy) == Abs(s.vy)
    ensures r.(vy := s.vy) == s
    ensures s.vy <= 0.0 ==> r == s
  {
    if s.vy > 0.0 then s.(vy := -s.vy) else s
  }

  /** Forces the vertical velocity to point down (or be zero), keeping its magnitude. */
  function YForcedPositive(s: BallState): (r: BallState)
    ensures r.vy >= 0.0 && Abs(r.vy) == Abs(s.vy)
    ensures r.(vy := s.vy) == s
    ensures s.vy >= 0.0 ==> r == s
  {
    if s.vy < 0.0 then s.(vy := -s.vy) else s
  }

  /** The sign-forcing operations are idempotent: a ball that stays past a wall
      for several ticks is not flipped back and forth. */
  lemma ForcingIdempotent(s: BallState)
    ensures XForcedNegative(XForcedNegative(s)) == XForcedNegative(s)
    ensures XForcedPositive(XForcedPositive(s)) == XForcedPositive(s)
    ensures YForcedNegative(YForcedNegative(s)) == YForcedNegative(s)
    ensures YForcedPositive(YForcedPositive(s)) == YForcedPositive(s)
  {
  }

  /** Both velocity components scaled up by 10%: direction kept, speed increased. */
  function Faster(s: BallState): (r: BallState)
    ensures r.x == s.x && r.y == s.y
    ensures (r.vx > 0.0 <==> s.vx > 0.0) && (r.vx < 0.0 <==> s.vx < 0.0)
    ensures (r.vy > 0.0 <==> s.vy > 0.0) && (r.vy < 0.0 <==> s.vy < 0.0)
    ensures Abs(r.vx) >= Abs(s.vx) && Abs(r.vy) >= Abs(s.vy)
    ensures Abs(r.vx) * 10.0 == Abs(s.vx) * 11.0 && Abs(r.vy) * 10.0 == Abs(s.vy) * 11.0
  {
    s.(vx := s.vx * SPEED_UP, vy := s.vy * SPEED_UP)
  }

  /** Whether a velocity component of t is zero exactly where the same component of s is. */
  predicate SameZeros(s: BallState, t: BallState)
  {
    (t.vx == 0.0 <==> s.vx == 0.0) && (t.vy == 0.0 <==> s.vy == 0.0)
  }

  /** No ball operation turns a nonzero velocity component into zero, nor a zero one
      into a nonzero one: they only move the centre, flip signs or scale by 1.1. */
  lemma NoOperationStopsTheBall(s: BallState, dt: int)
    ensures SameZeros(s, Advanced(s, dt))
    ensures SameZeros(s, YReversed(s)) && SameZeros(s, XReversed(s))
    ensures SameZeros(s, XForcedNegative(s)) && SameZeros(s, XForcedPositive(s))
    ensures SameZeros(s, YForcedNegative(s)) && SameZeros(s, YForcedPositive(s))
    ensures SameZeros(s, Faster(s))
  {
  }

  /** The ball as the game holds it: an object whose fields every operation updates in place. */
  class Ball {
    var x: real
    var y: real
    var vx: real
    var vy: real

    /** The abstract value of this ball. */
    function State(): BallState
      reads this
    {
      BallState(x, y, vx, vy)
    }

    /** The bounds of the ball's circle after its latest move. */
    function Bounds(): Box
      reads this
    {
      BallBounds(State())
    }

    /** A ball at the centre of the board with the default velocity. */
    constructor ()
      ensures State() == Initial()
    {
      x := WIDTH as real / 2.0;
      y := HEIGHT as real / 2.0;
      vx := INITIAL_VX;
      vy := INITIAL_VY;
    }

    method UpdatePosition(deltaNanoTime: int)
      modifies this
      ensures State() == Advanced(old(State()), deltaNanoTime)
    {
      var dx := vx * deltaNanoTime as real;
      var dy := vy * deltaNanoTime as real;
      x := x + dx;
      y := y + dy;
    }

    method ReverseYVelocity()
      modifies this
      ensures State() == YReversed(old(State()))
    {
      vy := vy * -1.0;
    }

    /** Called by the game step but not defined in the ball's source; modelled as the
        horizontal counterpart of ReverseYVelocity. */
    method ReverseXVelocity()
      modifies this
      ensures State() == XReversed(old(State()))
    {
      vx := vx * -1.0;
    }

    method MakeXVelocityNegative()
      modifies this
      ensures State() == XForcedNegative(old(State()))
    {
      if vx > 0.0 {
        vx := vx * -1.0;
      }
    }

    method MakeXVelocityPositive()
      modifies this
      ensures State() == XForcedPositive(old(State()))
    {
      if vx < 0.0 {
        vx := vx * -1.0;
      }
    }

    method MakeYVelocityNegative()
      modifies this
      ensures State() == YForcedNegative(old(State()))
    {
      if vy > 0.0 {
        vy := vy * -1.0;
      }
    }

    method MakeYVelocityPositive()
      modifies this
      ensures State() == YForcedPositive(old(State()))
    {
      if vy < 0.0 {
        vy := vy * -1.0;
      }
    }

    method MakeFaster()
      modifies this
      ensures State() == Faster(old(State()))
    {
      vx := vx * SPEED_UP;
      vy := vy * SPEED_UP;
    }
  }
}
