/** A single projectile (`Bullet`): it moves with a constant velocity and is
    switched off for good once its rectangle crosses an edge of the window. */
module Bullets {
  import opened Geometry

  /** True when a rectangle at `position` with extent `size` reaches past
      any edge of the window. */
  predicate OutsideWindow(position: Vector2, size: Point, window: Window) {
    || position.x < 0.0
    || position.x + size.x as real > window.width as real
    || position.y < 0.0
    || position.y + size.y as real > window.height as real
  }

  /** The observable state of a bullet. */
  datatype BulletState = BulletState(position: Vector2, velocity: Vector2, size: Point, enabled: bool)

  /** One frame of `Bullet.Update`, lasting `dt` seconds: a disabled bullet
      is left as it is; an enabled one moves by velocity times `dt` and is
      disabled exactly when it then reaches past an edge of the window. The
      velocity and size never change, and no bullet is ever re-enabled. */
  function Advance(s: BulletState, dt: real, window: Window): (r: BulletState)
    ensures !s.enabled ==> r == s
    ensures s.enabled ==> r.position == s.position.Add(s.velocity.Scale(dt))
    ensures s.enabled ==> (r.enabled <==> !OutsideWindow(r.position, s.size, window))
    ensures r.velocity == s.velocity && r.size == s.size
    ensures r.enabled ==> s.enabled
  {
    if !s.enabled then s
    else
      var p := s.position.Add(s.velocity.Scale(dt));
      BulletState(p, s.velocity, s.size, !OutsideWindow(p, s.size, window))
  }

  /** The state after one `Update` per frame, for the given frame times. */
  function Run(s: BulletState, elapsed: seq<real>, window: Window): BulletState
    decreases |elapsed|
  {
    if elapsed == [] then s else Run(Advance(s, elapsed[0], window), elapsed[1..], window)
  }

  function Sum(elapsed: seq<real>): real
    decreases |elapsed|
  {
    if elapsed == [] then 0.0 else elapsed[0] + Sum(elapsed[1..])
  }

  /** A disabled bullet never changes again. */
  lemma {:induction false} DisabledStaysDisabled(s: BulletState, elapsed: seq<real>, window: Window)
    requires !s.enabled
    ensures Run(s, elapsed, window) == s
    decreases |elapsed|
  {
    if elapsed != [] {
      DisabledStaysDisabled(Advance(s, elapsed[0], window), elapsed[1..], window);
    }
  }

  /** A bullet enabled after several frames was enabled all along, its
      velocity and size are those it was created with, and it has travelled
      exactly velocity times the total elapsed time. */
  lemma {:induction false} EnabledRun(s: BulletState, elapsed: seq<real>, window: Window)
    ensures Run(s, elapsed, window).velocity == s.velocity
    ensures Run(s, elapsed, window).size == s.size
    ensures Run(s, elapsed, window).enabled ==> s.enabled
    ensures Run(s, elapsed, window).enabled ==>
              Run(s, elapsed, window).position == s.position.Add(s.velocity.Scale(Sum(elapsed)))
    decreases |elapsed|
  {
    if elapsed != [] {
      var next := Advance(s, elapsed[0], window);
      EnabledRun(next, elapsed[1..], window);
      if Run(s, elapsed, window).enabled {
        assert next.enabled;
        assert next.position == s.position.Add(s.velocity.Scale(elapsed[0]));
        calc {
          Run(s, elapsed, window).position;
          next.position.Add(s.velocity.Scale(Sum(elapsed[1..])));
          s.position.Add(s.velocity.Scale(elapsed[0] + Sum(elapsed[1..])));
        }
      }
    }
  }

  class Bullet {
    var position: Vector2
    var velocity: Vector2
    var size: Point
    var enabled: bool

    ghost function State(): BulletState
      reads this
    {
      BulletState(position, velocity, size, enabled)
    }

    /** A new bullet is enabled. */
    constructor (position: Vector2, velocity: Vector2, size: Point)
      ensures State() == BulletState(position, velocity, size, true)
    {
      this.position := position;
      this.velocity := velocity;
      this.size := size;
      enabled := true;
    }

    /** Moves an enabled bullet by its velocity for `dt` seconds and disables
        it when it crosses an edge of the window; a disabled bullet is left as
        it is. */
    method Update(dt: real, window: Window)
      modifies this
      ensures State() == Advance(old(State()), dt, window)
    {
      if !enabled {
        return;
      }

      position := position.Add(velocity.Scale(dt));

      if position.x < 0.0
        || position.x + size.x as real > window.width as real
        || position.y < 0.0
        || position.y + size.y as real > window.height as real
      {
        enabled := false;
      }
    }

    /** The bullet's rectangle, assumed to be built as `Terrain.GetBounds` builds its own. */
    function GetBounds(): (r: Rectangle)
      reads this
      ensures r.Left() == Truncate(position.x) && r.Top() == Truncate(position.y)
      ensures r.Right() - r.Left() == size.x && r.Bottom() - r.Top() == size.y
    {
      Rectangle(ToPoint(position), size)
    }
  }
}
