/** A static obstacle (`Terrain`): its size and position are fixed when it is
    created, so it is a value. */
module Terrains {
  import opened Geometry

  datatype Terrain = Terrain(size: Point, position: Vector2) {

    /** The obstacle's rectangle: its truncated position and its size. */
    function GetBounds(): (r: Rectangle)
      ensures r.Left() == Truncate(position.x) && r.Top() == Truncate(position.y)
      ensures r.Right() - r.Left() == size.x && r.Bottom() - r.Top() == size.y
    {
      Rectangle(ToPoint(position), size)
    }

    /** The per-frame update does nothing, so the bounds stay as they are. */
    function Update(elapsedSeconds: real): (t: Terrain)
      ensures t.GetBounds() == GetBounds()
    {
      this
    }
  }

  /** The terrain after one `Update` per frame, for the given frame times. */
  function Frames(t: Terrain, elapsed: seq<real>): Terrain
    decreases |elapsed|
  {
    if elapsed == [] then t else Frames(t.Update(elapsed[0]), elapsed[1..])
  }

  /** However many frames pass, the obstacle's bounds stay those it was built with. */
  lemma {:induction false} BoundsNeverChange(t: Terrain, elapsed: seq<real>)
    ensures Frames(t, elapsed) == t
    ensures Frames(t, elapsed).GetBounds() == Rectangle(ToPoint(t.position), t.size)
    decreases |elapsed|
  {
    if elapsed != [] {
      BoundsNeverChange(t.Update(elapsed[0]), elapsed[1..]);
    }
  }
}
