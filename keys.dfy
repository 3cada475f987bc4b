/** The `keysPressed` record and the bodies of the `keydown`/`keyup`
    handlers, as pure updates of a four-flag record. */
module Keys {
  datatype Option<T> = None | Some(value: T)

  datatype Direction = Up | Right | Down | Left

  /** Which arrow keys are currently held. */
  datatype KeyState = KeyState(up: bool, right: bool, down: bool, left: bool)

  /** The state before any key event: nothing held. */
  const Released: KeyState := KeyState(false, false, false, false)

  /** Browser key codes of the arrow keys. */
  const KEY_LEFT: int := 37
  const KEY_UP: int := 38
  const KEY_RIGHT: int := 39
  const KEY_DOWN: int := 40

  function Held(k: KeyState, d: Direction): bool
  {
    match d
    case Up => k.up
    case Right => k.right
    case Down => k.down
    case Left => k.left
  }

  /** The direction a key code stands for; every other code is ignored. */
  function DirectionOf(code: int): Option<Direction>
  {
    if code == KEY_UP then Some(Up)
    else if code == KEY_RIGHT then Some(Right)
    else if code == KEY_DOWN then Some(Down)
    else if code == KEY_LEFT then Some(Left)
    else None
  }

  /** The key code of a direction: the inverse of DirectionOf. */
  function CodeOf(d: Direction): (code: int)
    ensures DirectionOf(code) == Some(d)
    ensures KEY_LEFT <= code <= KEY_DOWN
    ensures forall c :: DirectionOf(c) == Some(d) ==> c == code
  {
    match d
    case Up => KEY_UP
    case Right => KEY_RIGHT
    case Down => KEY_DOWN
    case Left => KEY_LEFT
  }

  /** The `keydown` switch: an arrow key sets its own flag and no other. */
  function KeyDown(k: KeyState, code: int): (r: KeyState)
    ensures forall d :: Held(r, d) <==> DirectionOf(code) == Some(d) || Held(k, d)
    ensures DirectionOf(code) == None ==> r == k
  {
    if code == KEY_UP then k.(up := true)
    else if code == KEY_RIGHT then k.(right := true)
    else if code == KEY_DOWN then k.(down := true)
    else if code == KEY_LEFT then k.(left := true)
    else k
  }

  /** The `keyup` switch: an arrow key clears its own flag and no other. */
  function KeyUp(k: KeyState, code: int): (r: KeyState)
    ensures forall d :: Held(r, d) <==> DirectionOf(code) != Some(d) && Held(k, d)
    ensures DirectionOf(code) == None ==> r == k
  {
    if code == KEY_UP then k.(up := false)
    else if code == KEY_RIGHT then k.(right := false)
    else if code == KEY_DOWN then k.(down := false)
    else if code == KEY_LEFT then k.(left := false)
    else k
  }

  /** The state in which exactly one direction is held. */
  function Only(d: Direction): (k: KeyState)
    ensures forall e :: Held(k, e) <==> e == d
  {
    KeyDown(Released, CodeOf(d))
  }

  /** Of a press and a release of the same key, the later one decides:
      the flags afterwards do not depend on the earlier event. */
  lemma LastEventWins(k: KeyState, code: int)
    ensures KeyUp(KeyDown(k, code), code) == KeyUp(k, code)
    ensures KeyDown(KeyUp(k, code), code) == KeyDown(k, code)
  {
  }

  /** Repeated `keydown` events (auto-repeat) change nothing after the first. */
  lemma KeyDownIdempotent(k: KeyState, code: int)
    ensures KeyDown(KeyDown(k, code), code) == KeyDown(k, code)
    ensures KeyUp(KeyUp(k, code), code) == KeyUp(k, code)
  {
  }
}
