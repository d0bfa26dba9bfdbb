/** The unicorn player: vertical motion under gravity, the ground line at the
    bottom of the canvas, the single-jump gate and the horizontal moves, plus
    the game loop that advances the player once per frame.

    The canvas height `h` is fixed when the game starts. Positions and speeds
    that the game only ever moves by whole units are `int`s; the vertical
    position and velocity move by multiples of the gravity 0.5 and are `real`s. */
module Players {

  /** Added to the vertical velocity on every frame (positive is downwards). */
  const Gravity: real := 0.5
  /** The vertical velocity a jump starts with (negative is upwards). */
  const JumpVelocity: real := -15.0
  /** Width and height of the player's box. */
  const Size: int := 100
  /** Horizontal position of a new player. */
  const StartX: int := 100
  /** Horizontal distance of one move, and the (unused) horizontal velocity. */
  const RunSpeed: int := 5
  /** Frames from a jump off the ground until the player is back on it. */
  const AirTime: nat := 62
  /** How far above the ground line the top of a jump takes the player. */
  const JumpHeight: real := 232.5

  /** Every field of the player; `y` is the top edge, `y + height` the bottom edge. */
  datatype PlayerState = PlayerState(
    x: int,
    y: real,
    width: int,
    height: int,
    velocityX: int,
    velocityY: real,
    speed: int,
    jumping: bool)

  /** The `y` at which the player's bottom edge lies on the ground line of a canvas of height `h`. */
  function GroundY(s: PlayerState, h: int): real {
    (h - s.height) as real
  }

  /** The bottom edge is not below the ground line. */
  predicate AboveGround(s: PlayerState, h: int) {
    s.y <= GroundY(s, h)
  }

  /** Standing on the ground line, at rest, free to jump. */
  predicate OnGround(s: PlayerState, h: int) {
    s.y == GroundY(s, h) && s.velocityY == 0.0 && !s.jumping
  }

  /** The states a player reaches: never below the ground line, and a player
      that is not jumping stands on the ground line, at rest or with the one
      step of gravity that the next frame cancels. */
  predicate Reachable(s: PlayerState, h: int) {
    AboveGround(s, h) &&
    (!s.jumping ==> s.y == GroundY(s, h) && (s.velocityY == 0.0 || s.velocityY == Gravity))
  }

  /** The fields that a frame update never touches agree. */
  predicate SameFixed(a: PlayerState, b: PlayerState) {
    a.x == b.x && a.width == b.width && a.height == b.height &&
    a.velocityX == b.velocityX && a.speed == b.speed
  }

  /** This frame's fall would take the bottom edge below the ground line. */
  predicate Lands(s: PlayerState, h: int) {
    s.y + s.velocityY > GroundY(s, h)
  }

  /** A new player: a 100 by 100 box at x 100, standing on the ground line. */
  function Initial(h: int): (s: PlayerState)
    ensures OnGround(s, h) && Reachable(s, h)
    ensures s.x == StartX && s.width == Size && s.height == Size
    ensures s.speed == RunSpeed && s.velocityX == RunSpeed
  {
    PlayerState(StartX, (h - Size) as real, Size, Size, RunSpeed, 0.0, RunSpeed, false)
  }

  /** One frame: move by the current velocity, then accelerate by gravity;
      a fall past the ground line is stopped on it. */
  function Updated(s: PlayerState, h: int): (r: PlayerState)
    ensures AboveGround(r, h)
    ensures SameFixed(r, s)
    ensures r.jumping ==> s.jumping
    ensures Lands(s, h) ==> OnGround(r, h)
    ensures !Lands(s, h) ==>
      r.y == s.y + s.velocityY && r.velocityY == s.velocityY + Gravity && r.jumping == s.jumping
  {
    if Lands(s, h) then
      s.(y := GroundY(s, h), velocityY := 0.0, jumping := false)
    else
      s.(y := s.y + s.velocityY, velocityY := s.velocityY + Gravity)
  }

  /** A jump starts only when the player is not already jumping. */
  function Jumped(s: PlayerState): (r: PlayerState)
    ensures r.jumping
    ensures s.jumping ==> r == s
    ensures !s.jumping ==> r == s.(velocityY := JumpVelocity, jumping := true)
  {
    if !s.jumping then s.(velocityY := JumpVelocity, jumping := true) else s
  }

  /** A step left: only `x` changes, by exactly `speed`, with no clamp to the canvas. */
  function MovedLeft(s: PlayerState): (r: PlayerState)
    ensures r.x + s.speed == s.x
    ensures r.(x := s.x) == s
  {
    s.(x := s.x - s.speed)
  }

  /** A step right: only `x` changes, by exactly `speed`, with no clamp to the canvas. */
  function MovedRight(s: PlayerState): (r: PlayerState)
    ensures r.x == s.x + s.speed
    ensures r.(x := s.x) == s
  {
    s.(x := s.x + s.speed)
  }

  /** The player after `n` frames of the game loop. */
  function AfterFrames(s: PlayerState, h: int, n: nat): (r: PlayerState)
    ensures n > 0 ==> AboveGround(r, h)
    ensures SameFixed(r, s)
    ensures r.jumping ==> s.jumping
    decreases n
  {
    if n == 0 then s else Updated(AfterFrames(s, h, n - 1), h)
  }

  /** Running `a` frames and then `b` more is running `a + b` frames. */
  lemma {:induction false} FramesCompose(s: PlayerState, h: int, a: nat, b: nat)
    ensures AfterFrames(AfterFrames(s, h, a), h, b) == AfterFrames(s, h, a + b)
  {
    if b > 0 {
      FramesCompose(s, h, a, b - 1);
    }
  }

  /** Every operation keeps a player within the states it can reach. */
  lemma ReachableIsInvariant(s: PlayerState, h: int)
    requires Reachable(s, h)
    ensures Reachable(Updated(s, h), h)
    ensures Reachable(Jumped(s), h)
    ensures Reachable(MovedLeft(s), h) && Reachable(MovedRight(s), h)
  {
  }

  /** Jumping while in the air does nothing, so a second jump adds nothing. */
  lemma JumpIdempotent(s: PlayerState)
    ensures Jumped(Jumped(s)) == Jumped(s)
  {
  }

  /** The two moves undo each other, from any position. */
  lemma MovesAreInverse(s: PlayerState)
    ensures MovedRight(MovedLeft(s)) == s
    ensures MovedLeft(MovedRight(s)) == s
  {
  }

  /** A player at rest on the ground stays on the ground line frame after
      frame; gravity lifts its velocity to 0.5 on one frame and the ground
      stops it again on the next. */
  lemma {:induction false} RestingAlternates(s: PlayerState, h: int, n: nat)
    requires OnGround(s, h)
    ensures AfterFrames(s, h, n) == s.(velocityY := if n % 2 == 0 then 0.0 else Gravity)
  {
    if n > 0 {
      RestingAlternates(s, h, n - 1);
    }
  }

  /** Where a jump off the ground line has taken the player after `k` frames:
      15 up per frame, less the pull of gravity, which is k(61 - k)/4 in all. */
  function FlightY(ground: real, k: nat): real {
    ground + (k * (k - 61)) as real / 4.0
  }

  /** The vertical velocity `k` frames after a jump. */
  function FlightVelocity(k: nat): real {
    JumpVelocity + Gravity * k as real
  }

  /** One frame of flight moves the player to the next point of the path. */
  lemma FlightStep(ground: real, k: nat)
    ensures FlightY(ground, k) + FlightVelocity(k) == FlightY(ground, k + 1)
  {
  }

  /** Up to frame 61 the path stays above the ground line (touching it on frame 61). */
  lemma FlightAboveGround(ground: real, k: nat)
    requires k < AirTime
    ensures FlightY(ground, k) <= ground
  {
  }

  /** For the first 61 frames after a jump off the ground the player follows
      the free-fall path and is still jumping. */
  lemma {:induction false} JumpFlight(s: PlayerState, h: int, k: nat)
    requires Reachable(s, h) && !s.jumping
    requires k < AirTime
    ensures AfterFrames(Jumped(s), h, k) ==
      Jumped(s).(y := FlightY(GroundY(s, h), k), velocityY := FlightVelocity(k))
  {
    if k > 0 {
      JumpFlight(s, h, k - 1);
      var prev := AfterFrames(Jumped(s), h, k - 1);
      FlightStep(GroundY(s, h), k - 1);
      FlightAboveGround(GroundY(s, h), k);
      assert !Lands(prev, h);
      assert Updated(prev, h).y == FlightY(GroundY(s, h), k);
      assert Updated(prev, h).velocityY == FlightVelocity(k);
    }
  }

  /** A jump off the ground keeps the player in the air for 61 frames and
      lands it back on the ground line, at rest and free to jump, on frame 62. */
  lemma JumpLands(s: PlayerState, h: int)
    requires Reachable(s, h) && !s.jumping
    ensures forall k: nat :: 0 < k < AirTime ==> AfterFrames(Jumped(s), h, k).jumping
    ensures OnGround(AfterFrames(Jumped(s), h, AirTime), h)
  {
    forall k: nat | 0 < k < AirTime
      ensures AfterFrames(Jumped(s), h, k).jumping
    {
      JumpFlight(s, h, k);
    }
    JumpFlight(s, h, AirTime - 1);
    FlightStep(GroundY(s, h), AirTime - 1);
    assert Lands(AfterFrames(Jumped(s), h, AirTime - 1), h);
  }

  /** From frame 62 on, the player that jumped rests on the ground line again. */
  lemma StaysDownAfterLanding(s: PlayerState, h: int, k: nat)
    requires Reachable(s, h) && !s.jumping
    requires k >= AirTime
    ensures AfterFrames(Jumped(s), h, k).y == GroundY(s, h)
    ensures !AfterFrames(Jumped(s), h, k).jumping
  {
    var landed := AfterFrames(Jumped(s), h, AirTime);
    JumpLands(s, h);
    RestingAlternates(landed, h, k - AirTime);
    FramesCompose(Jumped(s), h, AirTime, k - AirTime);
    assert landed.height == s.height;
  }

  /** No point of the path is higher than 232.5 above the ground line; frames 30 and 31 reach it. */
  lemma FlightBelowPeak(ground: real, k: nat)
    ensures FlightY(ground, k) >= ground - JumpHeight
    ensures k == 30 || k == 31 ==> FlightY(ground, k) == ground - JumpHeight
  {
  }

  /** The top of a jump is 232.5 above the ground line, reached on frames 30 and 31. */
  lemma JumpPeak(s: PlayerState, h: int, k: nat)
    requires Reachable(s, h) && !s.jumping
    ensures AfterFrames(Jumped(s), h, k).y >= GroundY(s, h) - JumpHeight
    ensures k == 30 || k == 31 ==> AfterFrames(Jumped(s), h, k).y == GroundY(s, h) - JumpHeight
  {
    if k < AirTime {
      JumpFlight(s, h, k);
      FlightBelowPeak(GroundY(s, h), k);
    } else {
      StaysDownAfterLanding(s, h, k);
    }
  }

  /** A player whose fields the game updates in place. */
  class Player {
    var x: int
    var y: real
    var width: int
    var height: int
    var velocityX: int
    var velocityY: real
    var speed: int
    var jumping: bool
    /** Height of the canvas, fixed for the whole game. */
    const canvasHeight: int

    /** The player's fields as a value. */
    function State(): PlayerState
      reads this
    {
      PlayerState(x, y, width, height, velocityX, velocityY, speed, jumping)
    }

    ghost predicate Valid()
      reads this
    {
      Reachable(State(), canvasHeight)
    }

    /** A new player standing on the ground line of a canvas of height `canvasHeight`. */
    constructor (canvasHeight: int)
      ensures this.canvasHeight == canvasHeight
      ensures State() == Initial(canvasHeight) && Valid()
    {
      this.canvasHeight := canvasHeight;
      width, height := Size, Size;
      x := StartX;
      y := (canvasHeight - Size) as real;
      velocityY, velocityX, speed := 0.0, RunSpeed, RunSpeed;
      jumping := false;
    }

    /** One frame of motion (drawing the player is not modelled). */
    method Update()
      requires Valid()
      modifies this
      ensures Valid()
      ensures State() == Updated(old(State()), canvasHeight)
    {
      y := y + velocityY;
      velocityY := velocityY + Gravity;
      if y + height as real > canvasHeight as real {
        y := (canvasHeight - height) as real;
        velocityY := 0.0;
        jumping := false;
      }
      ReachableIsInvariant(old(State()), canvasHeight);
    }

    method Jump()
      requires Valid()
      modifies this
      ensures Valid()
      ensures State() == Jumped(old(State()))
    {
      if !jumping {
        velocityY := JumpVelocity;
        jumping := true;
      }
    }

    method MoveLeft()
      requires Valid()
      modifies this
      ensures Valid()
      ensures State() == MovedLeft(old(State()))
    {
      x := x - speed;
    }

    method MoveRight()
      requires Valid()
      modifies this
      ensures Valid()
      ensures State() == MovedRight(old(State()))
    {
      x := x + speed;
    }
  }

  /** `n` frames of the game loop: each one updates the player (clearing the
      canvas, the starry sky and scheduling the next frame are not modelled). */
  method GameLoop(player: Player, n: nat)
    requires player.Valid()
    modifies player
    ensures player.Valid()
    ensures player.State() == AfterFrames(old(player.State()), player.canvasHeight, n)
  {
    var i := 0;
    while i < n
      invariant 0 <= i <= n
      invariant player.Valid()
      invariant player.State() == AfterFrames(old(player.State()), player.canvasHeight, i)
    {
      player.Update();
      i := i + 1;
    }
  }
}
