/** The projectile manager (`BulletHandler`): spawns bullets no faster than
    its cooldown allows, advances them every frame, reports which bullets
    hit which obstacles and then drops the bullets that were switched off. */
module BulletHandlers {
  import opened Geometry
  import opened Terrains
  import opened Bullets

  /** One hit report (`BulletHitArgs`): the bullet's index in the list as it
      was when `Update` began, and the index of the object it hit. */
  datatype Hit = Hit(bullet: nat, target: nat)

  /** Bullet-major, then object order. */
  predicate HitBefore(h: Hit, g: Hit) {
    h.bullet < g.bullet || (h.bullet == g.bullet && h.target < g.target)
  }

  /** The hits of bullet `i`, whose rectangle is `bounds`, in object order. */
  function TargetHits(i: nat, bounds: Rectangle, targets: seq<Terrain>): seq<Hit>
    decreases |targets|
  {
    if targets == [] then []
    else
      var n := |targets| - 1;
      TargetHits(i, bounds, targets[..n]) + (if Intersects(bounds, targets[n].GetBounds()) then [Hit(i, n)] else [])
  }

  /** The hits of every bullet against every object, bullet by bullet. */
  function AllHits(bounds: seq<Rectangle>, targets: seq<Terrain>): seq<Hit>
    decreases |bounds|
  {
    if bounds == [] then []
    else
      var n := |bounds| - 1;
      AllHits(bounds[..n], targets) + TargetHits(n, bounds[n], targets)
  }

  /** A report for one bullet names that bullet and an object it intersects. */
  lemma {:induction false} TargetHitsSound(i: nat, bounds: Rectangle, targets: seq<Terrain>, k: nat)
    requires k < |TargetHits(i, bounds, targets)|
    ensures var h := TargetHits(i, bounds, targets)[k];
            h.bullet == i && h.target < |targets| && Intersects(bounds, targets[h.target].GetBounds())
    decreases |targets|
  {
    var n := |targets| - 1;
    var front := targets[..n];
    if k < |TargetHits(i, bounds, front)| {
      TargetHitsSound(i, bounds, front, k);
    }
  }

  /** Every object the bullet intersects is reported. */
  lemma {:induction false} TargetHitsComplete(i: nat, bounds: Rectangle, targets: seq<Terrain>, j: nat)
    requires j < |targets| && Intersects(bounds, targets[j].GetBounds())
    ensures Hit(i, j) in TargetHits(i, bounds, targets)
    decreases |targets|
  {
    var n := |targets| - 1;
    if j < n {
      TargetHitsComplete(i, bounds, targets[..n], j);
    }
  }

  /** One bullet's reports come in object order. */
  lemma {:induction false} TargetHitsOrdered(i: nat, bounds: Rectangle, targets: seq<Terrain>, k: nat, l: nat)
    requires k < l < |TargetHits(i, bounds, targets)|
    ensures TargetHits(i, bounds, targets)[k].target < TargetHits(i, bounds, targets)[l].target
    decreases |targets|
  {
    var n := |targets| - 1;
    var front := targets[..n];
    var earlier := TargetHits(i, bounds, front);
    if l < |earlier| {
      TargetHitsOrdered(i, bounds, front, k, l);
    } else {
      TargetHitsSound(i, bounds, front, k);
    }
  }

  /** Every report names a bullet and an object whose rectangles intersect. */
  lemma {:induction false} AllHitsSound(bounds: seq<Rectangle>, targets: seq<Terrain>, k: nat)
    requires k < |AllHits(bounds, targets)|
    ensures var h := AllHits(bounds, targets)[k];
            h.bullet < |bounds| && h.target < |targets| && Intersects(bounds[h.bullet], targets[h.target].GetBounds())
    decreases |bounds|
  {
    var n := |bounds| - 1;
    var front := bounds[..n];
    var earlier := AllHits(front, targets);
    if k < |earlier| {
      AllHitsSound(front, targets, k);
    } else {
      TargetHitsSound(n, bounds[n], targets, k - |earlier|);
    }
  }

  /** Every pair of a bullet and an object whose rectangles intersect is reported. */
  lemma {:induction false} AllHitsComplete(bounds: seq<Rectangle>, targets: seq<Terrain>, i: nat, j: nat)
    requires i < |bounds| && j < |targets| && Intersects(bounds[i], targets[j].GetBounds())
    ensures Hit(i, j) in AllHits(bounds, targets)
    decreases |bounds|
  {
    var n := |bounds| - 1;
    if i < n {
      AllHitsComplete(bounds[..n], targets, i, j);
    } else {
      TargetHitsComplete(n, bounds[n], targets, j);
    }
  }

  /** Reports come in bullet-major, then object order. */
  lemma {:induction false} AllHitsOrdered(bounds: seq<Rectangle>, targets: seq<Terrain>, k: nat, l: nat)
    requires k < l < |AllHits(bounds, targets)|
    ensures HitBefore(AllHits(bounds, targets)[k], AllHits(bounds, targets)[l])
    decreases |bounds|
  {
    var n := |bounds| - 1;
    var front := bounds[..n];
    var earlier := AllHits(front, targets);
    if l < |earlier| {
      AllHitsOrdered(front, targets, k, l);
    } else if k < |earlier| {
      AllHitsSound(front, targets, k);
      TargetHitsSound(n, bounds[n], targets, l - |earlier|);
    } else {
      TargetHitsSound(n, bounds[n], targets, k - |earlier|);
      TargetHitsSound(n, bounds[n], targets, l - |earlier|);
      TargetHitsOrdered(n, bounds[n], targets, k - |earlier|, l - |earlier|);
    }
  }

  /** No pair is reported twice, so each intersecting pair is reported exactly once. */
  lemma HitsAreDistinct(bounds: seq<Rectangle>, targets: seq<Terrain>, k: nat, l: nat)
    requires k < l < |AllHits(bounds, targets)|
    ensures AllHits(bounds, targets)[k] != AllHits(bounds, targets)[l]
  {
    AllHitsOrdered(bounds, targets, k, l);
  }

  /** The rectangles of the bullets, in list order. */
  function BoundsOf(bs: seq<Bullet>): (r: seq<Rectangle>)
    reads bs
    ensures |r| == |bs|
    ensures forall k :: 0 <= k < |bs| ==> r[k] == bs[k].GetBounds()
  {
    seq(|bs|, k reads bs requires 0 <= k < |bs| => bs[k].GetBounds())
  }

  /** No bullet object appears twice in the list. */
  predicate Distinct(bs: seq<Bullet>) {
    forall k, l :: 0 <= k < l < |bs| ==> bs[k] != bs[l]
  }

  /** Every bullet in the list is still flying. */
  predicate AllEnabled(bs: seq<Bullet>)
    reads bs
  {
    forall k :: 0 <= k < |bs| ==> bs[k].enabled
  }

  /** The bullets `List.RemoveAll(b => !b.Enabled)` keeps. */
  function Survivors(bs: seq<Bullet>): (r: seq<Bullet>)
    reads bs
    ensures |r| <= |bs|
    ensures forall k :: 0 <= k < |r| ==> r[k].enabled
    decreases |bs|
  {
    if bs == [] then []
    else
      var n := |bs| - 1;
      Survivors(bs[..n]) + (if bs[n].enabled then [bs[n]] else [])
  }

  /** The indices of the enabled bullets, in increasing order. */
  function EnabledIndices(bs: seq<Bullet>): (ix: seq<nat>)
    reads bs
    ensures forall k :: 0 <= k < |ix| ==> ix[k] < |bs| && bs[ix[k]].enabled
    ensures forall i :: 0 <= i < |bs| && bs[i].enabled ==> i in ix
    ensures forall k, l :: 0 <= k < l < |ix| ==> ix[k] < ix[l]
    decreases |bs|
  {
    if bs == [] then []
    else
      var n := |bs| - 1;
      EnabledIndices(bs[..n]) + (if bs[n].enabled then [n] else [])
  }

  /** Compaction keeps exactly the enabled bullets, in their original order. */
  lemma {:induction false} SurvivorsKeepOrder(bs: seq<Bullet>)
    ensures |Survivors(bs)| == |EnabledIndices(bs)|
    ensures forall k :: 0 <= k < |Survivors(bs)| ==> Survivors(bs)[k] == bs[EnabledIndices(bs)[k]]
    decreases |bs|
  {
    if bs != [] {
      var n := |bs| - 1;
      SurvivorsKeepOrder(bs[..n]);
    }
  }

  /** Compaction of distinct bullets leaves distinct bullets. */
  lemma SurvivorsDistinct(bs: seq<Bullet>)
    requires Distinct(bs)
    ensures Distinct(Survivors(bs))
  {
    SurvivorsKeepOrder(bs);
  }

  /** `BulletHandler.Shoot`'s gate: at least `cooldown` ticks have passed
      since the last successful shot. */
  predicate CooldownElapsed(now: int, lastShot: int, cooldown: int) {
    !(now - lastShot < cooldown)
  }

  /** Every two consecutive shot times are at least `cooldown` ticks apart. */
  ghost predicate Spaced(times: seq<int>, cooldown: int) {
    forall k :: 0 <= k < |times| - 1 ==> times[k + 1] - times[k] >= cooldown
  }

  /** Shots `j - i` apart in the history are at least `j - i` cooldowns apart,
      so with a non-negative cooldown any two shots are at least one apart. */
  lemma {:induction false} SpacedPairwise(times: seq<int>, cooldown: int, i: int, j: int)
    requires Spaced(times, cooldown)
    requires 0 <= i < j < |times|
    ensures times[j] - times[i] >= (j - i) * cooldown
    ensures cooldown >= 0 ==> times[j] - times[i] >= cooldown
    decreases j - i
  {
    if i + 1 < j {
      SpacedPairwise(times, cooldown, i, j - 1);
      assert (j - i) * cooldown == (j - 1 - i) * cooldown + cooldown;
    }
  }

  /** The velocity of a new bullet: the direction scaled by the bullet speed,
      or straight to the right when that product is the zero vector. */
  function SpawnVelocity(direction: Vector2, bulletSpeed: real): (v: Vector2)
    ensures direction != Zero ==> v == direction.Scale(bulletSpeed)
    ensures direction == Zero ==> v == Vector2(bulletSpeed, 0.0)
    ensures bulletSpeed != 0.0 ==> v != Zero
  {
    var bulletVelocity := direction.Scale(bulletSpeed);
    if bulletVelocity.x == 0.0 && bulletVelocity.y == 0.0 then
      bulletVelocity.(x := 1.0 * bulletSpeed)
    else
      bulletVelocity
  }

  class BulletHandler {
    var bulletSpeed: real
    /** Game time of the last successful shot, in ticks. */
    var lastBulletShot: int
    /** Minimum time between two shots, in ticks. */
    var shootingCooldown: int
    var bulletSize: Point
    var bullets: seq<Bullet>
    /** The game times of every successful shot so far. */
    ghost var shotTimes: seq<int>

    /** No bullet is in the list twice, `lastBulletShot` is the time of the
        latest shot (or one cooldown before zero when there was none), and
        successive shots are at least one cooldown apart. */
    ghost predicate Valid()
      reads this
    {
      && Distinct(bullets)
      && lastBulletShot == (if shotTimes == [] then -shootingCooldown else shotTimes[|shotTimes| - 1])
      && Spaced(shotTimes, shootingCooldown)
    }

    /** A new handler has no bullets, and its last shot is set one cooldown
        before game time zero so that it may shoot at once. */
    constructor (bulletSpeed: real, shootingCooldown: int, bulletSize: Point)
      ensures Valid()
      ensures this.bulletSpeed == bulletSpeed && this.shootingCooldown == shootingCooldown
      ensures this.bulletSize == bulletSize
      ensures lastBulletShot == -shootingCooldown && bullets == [] && shotTimes == []
    {
      this.bulletSpeed := bulletSpeed;
      this.shootingCooldown := shootingCooldown;
      this.bulletSize := bulletSize;
      lastBulletShot := -shootingCooldown;
      bullets := [];
      shotTimes := [];
    }

    /** Spawns a bullet at `position` heading along `direction` unless the
        cooldown has not passed since the last shot; tells whether it did. */
    method Shoot(totalGameTime: int, position: Vector2, direction: Vector2) returns (shot: bool)
      requires Valid()
      modifies this`bullets, this`lastBulletShot, this`shotTimes
      ensures Valid()
      ensures shot <==> CooldownElapsed(totalGameTime, old(lastBulletShot), shootingCooldown)
      ensures !shot ==> bullets == old(bullets) && lastBulletShot == old(lastBulletShot) && shotTimes == old(shotTimes)
      ensures shot ==>
                && |bullets| == |old(bullets)| + 1
                && bullets[..|old(bullets)|] == old(bullets)
                && fresh(bullets[|old(bullets)|])
                && bullets[|old(bullets)|].State()
                   == BulletState(position, SpawnVelocity(direction, bulletSpeed), bulletSize, true)
      ensures shot ==> lastBulletShot == totalGameTime && shotTimes == old(shotTimes) + [totalGameTime]
      ensures AllEnabled(old(bullets)) ==> AllEnabled(bullets)
    {
      if totalGameTime - lastBulletShot < shootingCooldown {
        return false;
      }

      var bulletVelocity := SpawnVelocity(direction, bulletSpeed);

      var bullet := new Bullet(position, bulletVelocity, bulletSize);
      bullets := bullets + [bullet];
      lastBulletShot := totalGameTime;
      shotTimes := shotTimes + [totalGameTime];
      return true;
    }

    /** Advances every bullet by one frame, reports every (bullet, object)
        pair whose rectangles intersect after the bullet has moved, and then
        removes the disabled bullets. */
    method Update(dt: real, window: Window, otherObjects: seq<Terrain>) returns (hits: seq<Hit>)
      requires Valid()
      modifies this`bullets, bullets
      ensures Valid()
      ensures AllEnabled(bullets)
      ensures ListUpdated(old(bullets), dt, window, otherObjects, hits, bullets)
    {
      hits, bullets := UpdateList(bullets, dt, window, otherObjects);
    }
  }

  /** What one `BulletHandler.Update` does to the list `bs`: every bullet
      has advanced by one frame, `hits` holds every (bullet, object) pair
      whose rectangles intersect after the move, and `kept` holds the
      bullets still enabled, in order. */
  twostate predicate ListUpdated(bs: seq<Bullet>, dt: real, window: Window, otherObjects: seq<Terrain>,
                                 hits: seq<Hit>, new kept: seq<Bullet>)
    reads bs
  {
    && (forall k :: 0 <= k < |bs| ==> bs[k].State() == Advance(old(bs[k].State()), dt, window))
    && hits == AllHits(BoundsOf(bs), otherObjects)
    && kept == Survivors(bs)
  }

  /** The list work of `BulletHandler.Update`: the frame loop over the
      bullets, then `List.RemoveAll(b => !b.Enabled)`. */
  method UpdateList(bs: seq<Bullet>, dt: real, window: Window, otherObjects: seq<Terrain>) returns (hits: seq<Hit>, kept: seq<Bullet>)
    requires Distinct(bs)
    modifies bs
    ensures ListUpdated(bs, dt, window, otherObjects, hits, kept)
    ensures Distinct(kept) && AllEnabled(kept)
  {
    hits := AdvanceAll(bs, dt, window, otherObjects);
    kept := RemoveAll(bs);
    SurvivorsDistinct(bs);
  }

  /** The outer loop of `BulletHandler.Update`: moves each bullet in turn
      and collects its hits right after it has moved. */
  method AdvanceAll(bs: seq<Bullet>, dt: real, window: Window, otherObjects: seq<Terrain>) returns (hits: seq<Hit>)
    requires Distinct(bs)
    modifies bs
    ensures forall k :: 0 <= k < |bs| ==> bs[k].State() == Advance(old(bs[k].State()), dt, window)
    ensures hits == AllHits(BoundsOf(bs), otherObjects)
  {
    hits := [];
    ghost var bounds: seq<Rectangle> := [];
    var i := 0;
    while i < |bs|
      invariant 0 <= i <= |bs| && |bounds| == i
      invariant forall k :: 0 <= k < i ==> bs[k].State() == Advance(old(bs[k].State()), dt, window)
      invariant forall k :: i <= k < |bs| ==> bs[k].State() == old(bs[k].State())
      invariant forall k :: 0 <= k < i ==> bounds[k] == bs[k].GetBounds()
      invariant hits == AllHits(bounds, otherObjects)
    {
      var bullet := bs[i];
      bullet.Update(dt, window);
      var row := HitsOf(i, bullet, otherObjects);
      hits := hits + row;
      assert (bounds + [bullet.GetBounds()])[..i] == bounds;
      bounds := bounds + [bullet.GetBounds()];
      i := i + 1;
    }
    assert BoundsOf(bs) == bounds;
  }

  /** The inner loop of `Update`: the objects that bullet number `i` hits,
      in object order. */
  method HitsOf(i: nat, bullet: Bullet, otherObjects: seq<Terrain>) returns (row: seq<Hit>)
    ensures row == TargetHits(i, bullet.GetBounds(), otherObjects)
  {
    row := [];
    var j := 0;
    while j < |otherObjects|
      invariant 0 <= j <= |otherObjects|
      invariant row == TargetHits(i, bullet.GetBounds(), otherObjects[..j])
    {
      if Intersects(bullet.GetBounds(), otherObjects[j].GetBounds()) {
        row := row + [Hit(i, j)];
      }
      assert otherObjects[..j + 1][..j] == otherObjects[..j];
      j := j + 1;
    }
    assert otherObjects[..j] == otherObjects;
  }

  /** `List.RemoveAll(b => !b.Enabled)`: the list without its disabled
      bullets, the others in their order. */
  method RemoveAll(bs: seq<Bullet>) returns (kept: seq<Bullet>)
    ensures kept == Survivors(bs)
  {
    kept := [];
    var k := 0;
    while k < |bs|
      invariant 0 <= k <= |bs|
      invariant kept == Survivors(bs[..k])
    {
      if bs[k].enabled {
        kept := kept + [bs[k]];
      }
      assert bs[..k + 1][..k] == bs[..k];
      k := k + 1;
    }
    assert bs[..k] == bs;
  }

  /** Right after construction a shot at any game time from zero on succeeds. */
  method FirstShotSucceeds(bulletSpeed: real, shootingCooldown: int, bulletSize: Point,
                           totalGameTime: int, position: Vector2, direction: Vector2)
    returns (shot: bool)
    requires totalGameTime >= 0
    ensures shot
  {
    var handler := new BulletHandler(bulletSpeed, shootingCooldown, bulletSize);
    shot := handler.Shoot(totalGameTime, position, direction);
  }
}
