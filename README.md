# EmmySpel simulation core in Dafny

This project models the per-frame simulation logic of EmmySpel, a small
MonoGame top-down shooter, and proves properties of that model. It covers
five pieces:

- **Bullet** (`bullet.dfy`, module `Bullets`): a projectile. It moves by its
  velocity times the frame's elapsed seconds. It is switched off for good
  once its rectangle crosses any edge of the window.
- **BulletHandler** (`bullet_handler.dfy`, module `BulletHandlers`): spawns
  bullets, but no sooner than one cooldown after the previous shot. Each
  frame it advances every bullet and reports every (bullet, object) pair
  whose rectangles intersect. It then drops the disabled bullets with
  `List.RemoveAll`.
- **Player** (`players.dfy`, module `Players`): moves at a fixed speed in the
  direction the W, A, S and D keys give. It is then clamped into the window,
  one axis at a time.
- **InputManager** (`input_manager.dfy`, module `Input`): turns the keyboard
  or the gamepad into a direction vector or a "control held" answer. The
  current input mode picks the device; an unknown mode is an
  `ArgumentException`.
- **Terrain** (`terrain.dfy`, module `Terrains`): a static obstacle whose
  bounds never change.

`geometry.dfy` (module `Geometry`) holds the MonoGame value types. `Vector2`
has real components, `Point` and `Rectangle` are integer-valued, and the
window is its client size.

Bullet, BulletHandler, Player and InputManager are classes whose methods
update their fields, as the C# does. Each method is proved against a
specification function, as follows:

- `Bullet.Update` against `Advance`.
- `BulletHandler.Update` against `AllHits` and `Survivors`, through the
  two-state predicate `ListUpdated`.
- `Player.Update` against `Integrate` and `ClampAxis`.

The properties the source promises are proved about those functions as
lemmas and as their own `ensures`. The handler keeps a ghost history of
shot times, and its invariant `Valid` keeps those times at least one
cooldown apart. Terrain never changes after construction, so it is a
datatype.

Units:

- A `TimeSpan` is an integer number of ticks.
- A frame's elapsed time is a real number of seconds.

Device state and game time are parameters, not polled.

## Model

| member | source | states |
|---|---|---|
| Geometry.Truncate | EmmySpel/Terrain.cs:30 | the `ToPoint` cast of a coordinate truncates toward zero: it is the integer within one below a non-negative value, and within one above a negative one |
| Geometry.IntersectsIffCommonPoint | EmmySpel/BulletHandler.cs:41 | two rectangles of positive size intersect exactly when some point lies in both |
| Geometry.IntersectsSymmetric | EmmySpel/BulletHandler.cs:41 | whether a bullet hits an object does not depend on which rectangle is tested against which |
| Terrains.Terrain.GetBounds | EmmySpel/Terrain.cs:30 | the obstacle's rectangle starts at its truncated position and spans exactly its size |
| Terrains.Terrain.Update | EmmySpel/Terrain.cs:20-23 | a frame leaves the obstacle's bounds as they were |
| Terrains.BoundsNeverChange | EmmySpel/Terrain.cs:13-30 | after any number of frames the obstacle is unchanged and its bounds are still those built from its constructor's size and position |
| Bullets.Advance | EmmySpel/Bullet.cs:25-41 | a disabled bullet is left as it is. An enabled one moves by velocity times dt. It is disabled exactly when the moved rectangle reaches past the left, right, top or bottom edge. Velocity and size are unchanged, and no bullet is re-enabled |
| Bullets.DisabledStaysDisabled | EmmySpel/Bullet.cs:27-30 | once disabled, a bullet stays exactly as it is through any number of frames |
| Bullets.EnabledRun | EmmySpel/Bullet.cs:25-41 | over any sequence of frames, velocity and size never change and a bullet still enabled was enabled at the start. Such a bullet has moved by velocity times the total elapsed time |
| Bullets.Bullet.constructor | EmmySpel/Bullet.cs:16-23 | a new bullet has the given position, velocity and size and is enabled |
| Bullets.Bullet.Update | EmmySpel/Bullet.cs:25-41 | the bullet's new state is `Advance` of its old state |
| Bullets.Bullet.GetBounds | EmmySpel/Bullet.cs:47 | the bullet's rectangle starts at its truncated position and spans its size |
| BulletHandlers.TargetHitsSound | EmmySpel/BulletHandler.cs:39-45 | every hit reported for one bullet names that bullet and an object whose rectangle it intersects |
| BulletHandlers.TargetHitsComplete | EmmySpel/BulletHandler.cs:39-45 | every object the bullet's rectangle intersects is reported for it |
| BulletHandlers.TargetHitsOrdered | EmmySpel/BulletHandler.cs:39-45 | one bullet's hits come in object order |
| BulletHandlers.AllHitsSound | EmmySpel/BulletHandler.cs:36-46 | every reported hit names a bullet and an object whose rectangles intersect |
| BulletHandlers.AllHitsComplete | EmmySpel/BulletHandler.cs:36-46 | every intersecting (bullet, object) pair is reported, including pairs with a bullet that is now disabled |
| BulletHandlers.AllHitsOrdered | EmmySpel/BulletHandler.cs:36-46 | hits come in bullet order, then object order |
| BulletHandlers.HitsAreDistinct | EmmySpel/BulletHandler.cs:36-46 | no pair is reported twice, so each intersecting pair is reported exactly once |
| BulletHandlers.BoundsOf | EmmySpel/BulletHandler.cs:41 | one rectangle per bullet, in list order, each being that bullet's bounds |
| BulletHandlers.Survivors | EmmySpel/BulletHandler.cs:47 | the compacted list is no longer than the original and holds only enabled bullets |
| BulletHandlers.EnabledIndices | EmmySpel/BulletHandler.cs:47 | the positions of the enabled bullets: all of them, each in range, in increasing order |
| BulletHandlers.SurvivorsKeepOrder | EmmySpel/BulletHandler.cs:47 | the compacted list is exactly the enabled bullets, taken in their original order |
| BulletHandlers.SurvivorsDistinct | EmmySpel/BulletHandler.cs:47 | compaction never duplicates a bullet |
| BulletHandlers.SpacedPairwise | EmmySpel/BulletHandler.cs:60-72 | in a shot history spaced by the cooldown, shots j - i apart are at least j - i cooldowns apart. With a non-negative cooldown, any two shots are at least one cooldown apart |
| BulletHandlers.SpawnVelocity | EmmySpel/BulletHandler.cs:65-69 | a new bullet's velocity is direction times bullet speed, or (bullet speed, 0) for the zero direction. It is never zero when the speed is not zero |
| BulletHandlers.BulletHandler.constructor | EmmySpel/BulletHandler.cs:23-32 | the handler stores its speed, cooldown and bullet size. It starts with no bullets and no shots, with the last shot one cooldown before time zero, and satisfies its invariant |
| BulletHandlers.BulletHandler.Shoot | EmmySpel/BulletHandler.cs:58-74 | the shot happens exactly when at least one cooldown has passed since the last one. A refused shot changes nothing. A shot appends one new enabled bullet with the spawn velocity behind the unchanged old list, and records the time as the last shot. The spacing invariant is kept |
| BulletHandlers.BulletHandler.Update | EmmySpel/BulletHandler.cs:34-48 | each bullet advances one frame and the hits are exactly `AllHits` of the moved bullets' rectangles. The list becomes the enabled bullets in their order, and all of them are enabled. Only the list changes, and the invariant is kept |
| BulletHandlers.UpdateList | EmmySpel/BulletHandler.cs:36-47 | the frame loop followed by compaction satisfies `ListUpdated`, and leaves a duplicate-free list of enabled bullets |
| BulletHandlers.AdvanceAll | EmmySpel/BulletHandler.cs:36-46 | the outer loop moves every bullet by `Advance` and collects exactly `AllHits` of the moved rectangles |
| BulletHandlers.HitsOf | EmmySpel/BulletHandler.cs:39-45 | the inner loop collects exactly the objects one bullet intersects, in object order |
| BulletHandlers.RemoveAll | EmmySpel/BulletHandler.cs:47 | `RemoveAll(b => !b.Enabled)` yields `Survivors` of the list |
| BulletHandlers.FirstShotSucceeds | EmmySpel/BulletHandler.cs:30-60 | right after construction, a shot at any game time from zero on succeeds |
| Input.GetKeyBoardDirection | EmmySpel/InputManager.cs:38-59 | each component is -1, 0 or 1. X is negative exactly when A is held without D, and positive exactly when D is held without A. Likewise for Y with W (up) and S (down), so opposite keys cancel |
| Input.GetGamepadDirection | EmmySpel/InputManager.cs:31-36 | the left stick with X kept and Y negated |
| Input.KeyboardAxesIndependent | EmmySpel/InputManager.cs:42-57 | the X component depends on A and D alone, the Y component on W and S alone |
| Input.NoKeysNoDirection | EmmySpel/InputManager.cs:40-58 | with no key held the direction is the zero vector |
| Input.GamepadAgreesWithKeyboard | EmmySpel/InputManager.cs:31-59 | a stick pushed fully up, down, left or right gives the same direction as W, S, A or D held alone |
| Input.InputManager.constructor | EmmySpel/InputManager.cs:11-14 | the manager starts in the given input mode |
| Input.InputManager.GetMovementDirection | EmmySpel/InputManager.cs:16-29 | an `ArgumentException` exactly for an unrecognised mode. Otherwise the keyboard direction in keyboard mode and the gamepad direction in gamepad mode |
| Input.InputManager.IsKeyDown | EmmySpel/InputManager.cs:61-74 | an `ArgumentException` exactly for an unrecognised mode. Otherwise whether the keyboard key is held in keyboard mode, or whether the gamepad button is held in gamepad mode |
| Input.InactiveDeviceIgnored | EmmySpel/InputManager.cs:16-74 | the device the mode does not name never changes either answer |
| Players.ClampAxis | EmmySpel/Player.cs:46-61 | after the clamp the sprite's far edge is inside the window. Its near edge is at or past zero whenever the sprite fits. A sprite larger than the window ends at window minus size, which is negative. A coordinate already in range is unchanged |
| Players.ClampIdempotent | EmmySpel/Player.cs:46-61 | clamping an already clamped coordinate changes nothing |
| Players.DiagonalNotNormalised | EmmySpel/Player.cs:24-44 | with W and D held the sprite moves speed times dt on both axes at once; diagonals are not normalised |
| Players.Player.constructor | EmmySpel/Player.cs:13-18 | the player starts with the given position, speed and sprite size |
| Players.Player.Update | EmmySpel/Player.cs:20-62 | the new position is the key-driven move clamped on each axis. It lies inside the window on the far side, and at or past zero on each axis where the sprite fits. Only the position changes |
| Players.Player.Move | EmmySpel/Player.cs:24-44 | the position moves by the keys' direction times speed times dt |
| Players.Player.KeepInWindow | EmmySpel/Player.cs:46-61 | each coordinate becomes its `ClampAxis` value |

## Left out

- Drawing: every `Draw` method, `SpriteBatch` and `Texture2D`. Only a texture's width and height remain, as the player's sprite size.
- Device polling (`Keyboard.GetState`, `GamePad.GetState`): the keyboard and gamepad states are parameters. A keyboard state is the set of keys held; a gamepad state is the left stick and the set of buttons held.
- `GameTime`: elapsed seconds and total game time are parameters.
- Single-precision rounding: `Vector2` components and seconds are reals. The `(float)` cast of the elapsed seconds is not modelled.
- `TimeSpan` overflow: ticks are unbounded integers.
- `Vector2.ToPoint` and `Rectangle.Intersects`: their code is not visible. `ToPoint` is assumed to truncate each component toward zero. `Intersects` is assumed to be strict overlap, where rectangles that only touch do not intersect.
- `Bullets.Bullet.GetBounds`: `Bullet.cs` defines no `GetBounds`, although `BulletHandler.cs` line 41 calls one. It is assumed to be the rectangle `Bullet.Draw` builds, with the truncated position and the size.
- `BulletHandlers.BulletHandler.Update`: the `Bullethit` event is modelled as the returned sequence of hits. Each hit names its bullet by its index in the list when `Update` began and the object by its index in `otherObjects`, not by reference. Anything a listener does when notified is left out.
- `IPhysical`: Terrain is its only implementation here, so the objects a bullet is tested against are a sequence of Terrain values.
- `EmmyGame.cs` is not part of this model: game-loop setup, content loading, frame rate and the exit key. It calls a three-argument `Player.Update` that `Player.cs` does not define, so only the two-argument `Update` that exists is modelled.
- `InputMode.cs` is not part of this model: the enumeration is assumed to have `KeyBoard` and `Gamepad`. Any other value it can hold is `Unrecognised`.
- The game's design description mentions obstacle push-out for the player, aim normalisation, a remembered last aim direction and wiring from a fire button to `Shoot`. None of these appears in the code, so none is modelled.
- Where that description and the code disagree, the model follows the code:
  - A bullet is disabled as soon as any edge of its rectangle crosses the window's edge, not only once it is wholly outside.
  - Bullets disabled during a frame are still tested for hits in that frame.
