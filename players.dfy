/** The controllable sprite (`Player`): moves at a fixed speed in the
    direction the W, A, S and D keys give and is then kept inside the window,
    one axis at a time. */
module Players {
  import opened Geometry
  import opened Input

  /** The clamp applied to one axis: first up to zero, then down to
      `limit - extent`, so that the second wins when the sprite is wider
      than the window. */
  function ClampAxis(v: real, extent: int, limit: int): (r: real)
    ensures r + extent as real <= limit as real
    ensures extent <= limit ==> 0.0 <= r
    ensures extent > limit ==> r == (limit - extent) as real && r < 0.0
    ensures 0.0 <= v && v + extent as real <= limit as real ==> r == v
  {
    var low := if v < 0.0 then 0.0 else v;
    if low + extent as real > limit as real then (limit - extent) as real else low
  }

  /** The position before clamping: the keys' direction at `speed` units per
      second for `dt` seconds, with no normalisation of diagonals. */
  function Integrate(position: Vector2, keyState: KeyboardState, speed: real, dt: real): Vector2 {
    position.Add(GetKeyBoardDirection(keyState).Scale(speed).Scale(dt))
  }

  /** Moving diagonally covers speed x dt on both axes at once, so
      sqrt(2) times the distance of a straight move. */
  lemma DiagonalNotNormalised(position: Vector2, speed: real, dt: real)
    ensures var p := Integrate(position, KeyboardState({W, D}), speed, dt);
            p.x - position.x == speed * dt && p.y - position.y == -(speed * dt)
  {
  }

  /** Clamping a position that is already clamped changes nothing. */
  lemma ClampIdempotent(v: real, extent: int, limit: int)
    ensures ClampAxis(ClampAxis(v, extent, limit), extent, limit) == ClampAxis(v, extent, limit)
  {
  }

  class Player {
    var position: Vector2
    var speed: real
    /** The texture's width and height. */
    var width: int
    var height: int

    constructor (position: Vector2, speed: real, width: int, height: int)
      ensures this.position == position && this.speed == speed
      ensures this.width == width && this.height == height
    {
      this.position := position;
      this.speed := speed;
      this.width := width;
      this.height := height;
    }

    /** One frame of `dt` seconds: each held key among W, S, A and D moves the
        sprite at `speed` along its axis, and the result is clamped into the
        window. Only the position changes. */
    method Update(dt: real, window: Window, keyState: KeyboardState)
      modifies this`position
      ensures var moved := Integrate(old(position), keyState, speed, dt);
              position == Vector2(ClampAxis(moved.x, width, window.width), ClampAxis(moved.y, height, window.height))
      ensures position.x + width as real <= window.width as real
      ensures position.y + height as real <= window.height as real
      ensures width <= window.width ==> 0.0 <= position.x
      ensures height <= window.height ==> 0.0 <= position.y
    {
      Move(dt, keyState);
      KeepInWindow(window);
    }

    /** The first half of `Update`: the movement the held keys give, at
        `speed` units per second for `dt` seconds, added to the position. */
    method Move(dt: real, keyState: KeyboardState)
      modifies this`position
      ensures position == Integrate(old(position), keyState, speed, dt)
    {
      var movement := Zero;

      if keyState.IsKeyDown(W) {
        movement := movement.(y := movement.y - speed);
      }
      if keyState.IsKeyDown(S) {
        movement := movement.(y := movement.y + speed);
      }
      if keyState.IsKeyDown(A) {
        movement := movement.(x := movement.x - speed);
      }
      if keyState.IsKeyDown(D) {
        movement := movement.(x := movement.x + speed);
      }
      assert movement == GetKeyBoardDirection(keyState).Scale(speed);
      movement := movement.Scale(dt);

      position := position.Add(movement);
    }

    /** The second half of `Update`: each axis is pushed up to zero and then
        down to the window's extent minus the sprite's. */
    method KeepInWindow(window: Window)
      modifies this`position
      ensures position == Vector2(ClampAxis(old(position).x, width, window.width),
                                  ClampAxis(old(position).y, height, window.height))
    {
      if position.x < 0.0 {
        position := position.(x := 0.0);
      }
      if position.y < 0.0 {
        position := position.(y := 0.0);
      }
      if position.x + width as real > window.width as real {
        position := position.(x := (window.width - width) as real);
      }
      if position.y + height as real > window.height as real {
        position := position.(y := (window.height - height) as real);
      }
    }
  }
}
