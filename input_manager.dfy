/** The input layer (`InputManager`): turns the keyboard or the gamepad,
    whichever the current input mode names, into a movement direction and
    into "is this control held" answers. Device state is passed in rather
    than polled. */
module Input {
  import opened Geometry

  /** Keyboard keys; only W, A, S and D have a meaning of their own here. */
  datatype Key = W | A | S | D | OtherKey(code: int)

  /** Gamepad buttons, identified by their code. */
  datatype Button = Button(code: int)

  /** The set of keys held down (`KeyboardState`). */
  datatype KeyboardState = KeyboardState(pressed: set<Key>) {
    predicate IsKeyDown(k: Key) { k in pressed }
  }

  /** The left thumbstick and the set of buttons held down (`GamePadState`).
      The stick's Y axis points up. */
  datatype GamePadState = GamePadState(leftThumbStick: Vector2, pressed: set<Button>) {
    predicate IsButtonDown(b: Button) { b in pressed }
  }

  /** The two named input modes, and any other value the enumeration can
      be made to hold. */
  datatype InputMode = KeyBoard | Gamepad | Unrecognised(value: int)

  /** A value, or the `ArgumentException` the source throws. */
  datatype Result<T> = Ok(value: T) | ArgumentException(message: string)

  const UnknownInputMode := "unkown input mode"

  /** Each component is -1, 0 or 1: W points up (negative Y), S down, A left
      (negative X), D right, and opposite keys cancel. */
  function GetKeyBoardDirection(keyState: KeyboardState): (movement: Vector2)
    ensures movement.x in {-1.0, 0.0, 1.0} && movement.y in {-1.0, 0.0, 1.0}
    ensures movement.x < 0.0 <==> keyState.IsKeyDown(A) && !keyState.IsKeyDown(D)
    ensures movement.x > 0.0 <==> keyState.IsKeyDown(D) && !keyState.IsKeyDown(A)
    ensures movement.y < 0.0 <==> keyState.IsKeyDown(W) && !keyState.IsKeyDown(S)
    ensures movement.y > 0.0 <==> keyState.IsKeyDown(S) && !keyState.IsKeyDown(W)
  {
    var m0 := Zero;
    var m1 := if keyState.IsKeyDown(W) then m0.(y := m0.y - 1.0) else m0;
    var m2 := if keyState.IsKeyDown(S) then m1.(y := m1.y + 1.0) else m1;
    var m3 := if keyState.IsKeyDown(A) then m2.(x := m2.x - 1.0) else m2;
    var m4 := if keyState.IsKeyDown(D) then m3.(x := m3.x + 1.0) else m3;
    m4
  }

  /** The left stick with its Y axis flipped to point down, as screen Y does. */
  function GetGamepadDirection(gamePadState: GamePadState): (direction: Vector2)
    ensures direction.x == gamePadState.leftThumbStick.x
    ensures direction.y == -gamePadState.leftThumbStick.y
  {
    var direction := gamePadState.leftThumbStick;
    direction.(y := -direction.y)
  }

  /** The X component depends on A and D alone, the Y component on W and S alone. */
  lemma KeyboardAxesIndependent(k1: KeyboardState, k2: KeyboardState)
    ensures k1.IsKeyDown(A) == k2.IsKeyDown(A) && k1.IsKeyDown(D) == k2.IsKeyDown(D) ==>
              GetKeyBoardDirection(k1).x == GetKeyBoardDirection(k2).x
    ensures k1.IsKeyDown(W) == k2.IsKeyDown(W) && k1.IsKeyDown(S) == k2.IsKeyDown(S) ==>
              GetKeyBoardDirection(k1).y == GetKeyBoardDirection(k2).y
  {
  }

  /** With no key held, the keyboard gives the zero vector. */
  lemma NoKeysNoDirection()
    ensures GetKeyBoardDirection(KeyboardState({})) == Zero
  {
  }

  /** A stick pushed fully in one direction gives the same direction as the
      key for that direction held on its own. */
  lemma GamepadAgreesWithKeyboard(buttons: set<Button>)
    ensures GetGamepadDirection(GamePadState(Vector2(0.0, 1.0), buttons)) == GetKeyBoardDirection(KeyboardState({W}))
    ensures GetGamepadDirection(GamePadState(Vector2(0.0, -1.0), buttons)) == GetKeyBoardDirection(KeyboardState({S}))
    ensures GetGamepadDirection(GamePadState(Vector2(-1.0, 0.0), buttons)) == GetKeyBoardDirection(KeyboardState({A}))
    ensures GetGamepadDirection(GamePadState(Vector2(1.0, 0.0), buttons)) == GetKeyBoardDirection(KeyboardState({D}))
  {
  }

  class InputManager {
    var inputMode: InputMode

    constructor (inputMode: InputMode)
      ensures this.inputMode == inputMode
    {
      this.inputMode := inputMode;
    }

    /** The movement direction from the device the input mode names; an
        unrecognised mode is an `ArgumentException`. */
    function GetMovementDirection(keyState: KeyboardState, gamePadState: GamePadState): (r: Result<Vector2>)
      reads this
      ensures r.ArgumentException? <==> inputMode.Unrecognised?
      ensures inputMode == KeyBoard ==> r == Ok(GetKeyBoardDirection(keyState))
      ensures inputMode == Gamepad ==> r == Ok(GetGamepadDirection(gamePadState))
    {
      match inputMode
      case KeyBoard => Ok(GetKeyBoardDirection(keyState))
      case Gamepad => Ok(GetGamepadDirection(gamePadState))
      case Unrecognised(_) => ArgumentException(UnknownInputMode)
    }

    /** Whether the control is held: the keyboard key in keyboard mode, the
        gamepad button in gamepad mode; an unrecognised mode is an
        `ArgumentException`. */
    function IsKeyDown(keyState: KeyboardState, gamePadState: GamePadState,
                       keyBoardKey: Key, gamePadButton: Button): (r: Result<bool>)
      reads this
      ensures r.ArgumentException? <==> inputMode.Unrecognised?
      ensures inputMode == KeyBoard ==> r == Ok(keyState.IsKeyDown(keyBoardKey))
      ensures inputMode == Gamepad ==> r == Ok(gamePadState.IsButtonDown(gamePadButton))
    {
      match inputMode
      case KeyBoard => Ok(keyState.IsKeyDown(keyBoardKey))
      case Gamepad => Ok(gamePadState.IsButtonDown(gamePadButton))
      case Unrecognised(_) => ArgumentException(UnknownInputMode)
    }
  }

  /** The device the mode does not name never affects the answers. */
  lemma InactiveDeviceIgnored(m: InputManager, k1: KeyboardState, k2: KeyboardState,
                              g1: GamePadState, g2: GamePadState, key: Key, button: Button)
    ensures m.inputMode == KeyBoard
            && k1.IsKeyDown(W) == k2.IsKeyDown(W) && k1.IsKeyDown(A) == k2.IsKeyDown(A)
            && k1.IsKeyDown(S) == k2.IsKeyDown(S) && k1.IsKeyDown(D) == k2.IsKeyDown(D) ==>
              m.GetMovementDirection(k1, g1) == m.GetMovementDirection(k2, g2)
    ensures m.inputMode == KeyBoard && k1.IsKeyDown(key) == k2.IsKeyDown(key) ==>
              m.IsKeyDown(k1, g1, key, button) == m.IsKeyDown(k2, g2, key, button)
    ensures m.inputMode == Gamepad && g1.leftThumbStick == g2.leftThumbStick ==>
              m.GetMovementDirection(k1, g1) == m.GetMovementDirection(k2, g2)
    ensures m.inputMode == Gamepad && g1.IsButtonDown(button) == g2.IsButtonDown(button) ==>
              m.IsKeyDown(k1, g1, key, button) == m.IsKeyDown(k2, g2, key, button)
  {
  }
}
