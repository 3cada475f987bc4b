/** The movement block of `drawFrame` as functions on values: one function
    per guarded block (up, right, down, left), the frame that runs them in
    that order, and a run of many frames. The class in scene.dfy updates
    objects in place and is proved to compute exactly `Frame`. */
module Movement {
  import opened Config
  import opened Keys

  datatype Vec = Vec(x: int, y: int)

  /** The three global objects the movement code updates: the player in
      world coordinates, the player in screen coordinates, and the world
      offset of the viewport. */
  datatype Snapshot = Snapshot(player: Vec, playerInViewport: Vec, viewport: Vec)

  /** The player stays inside the world. */
  predicate PlayerInWorld(s: Snapshot)
  {
    0 <= s.player.x <= MAX_WIDTH - PLAYER_SIZE && 0 <= s.player.y <= MAX_HEIGHT - PLAYER_SIZE
  }

  /** The viewport never shows anything outside the world. */
  predicate ViewportInWorld(s: Snapshot)
  {
    0 <= s.viewport.x <= MAX_WIDTH - WIDTH && 0 <= s.viewport.y <= MAX_HEIGHT - HEIGHT
  }

  /** The screen position is the world position relative to the viewport. */
  predicate Tracked(s: Snapshot)
  {
    s.playerInViewport == Vec(s.player.x - s.viewport.x, s.player.y - s.viewport.y)
  }

  /** The whole player square is drawn inside the canvas. */
  predicate OnScreen(s: Snapshot)
  {
    0 <= s.playerInViewport.x <= WIDTH - PLAYER_SIZE && 0 <= s.playerInViewport.y <= HEIGHT - PLAYER_SIZE
  }

  predicate Consistent(s: Snapshot)
  {
    PlayerInWorld(s) && ViewportInWorld(s) && Tracked(s) && OnScreen(s)
  }

  /** The state the three objects are declared with. */
  function Initial(): (s: Snapshot)
    ensures Consistent(s)
  {
    Snapshot(Vec(300, 300), Vec(300, 300), Vec(0, 0))
  }

  /** The `keysPressed.up` block. */
  function MoveUp(s: Snapshot): (r: Snapshot)
    ensures r.player.x == s.player.x && r.viewport.x == s.viewport.x
    ensures r.playerInViewport.x == s.playerInViewport.x
    ensures r.player.y >= 0
    ensures s.player.y >= 0 ==> s.player.y - r.player.y == Min(PLAYER_SPEED, s.player.y)
    ensures s.viewport.y >= 0 ==> 0 <= s.viewport.y - r.viewport.y <= PLAYER_SPEED
    ensures s.viewport.y >= 0 && r.viewport.y != s.viewport.y ==>
      s.viewport.y - r.viewport.y == Min(PLAYER_SPEED, s.viewport.y)
    ensures s.viewport.y >= 0 ==>
      (r.viewport.y != s.viewport.y <==>
         r.player.y - s.viewport.y <= MAP_SCROLL_PADDING && s.viewport.y > 0)
    ensures r.playerInViewport.y == r.player.y - r.viewport.y
    ensures Consistent(s) ==> Consistent(r)
  {
    var py := Max(0, s.player.y - PLAYER_SPEED);
    var screen := py - s.viewport.y;
    if screen <= MAP_SCROLL_PADDING then
      var vy := Max(0, s.viewport.y - PLAYER_SPEED);
      Snapshot(s.player.(y := py), s.playerInViewport.(y := py - vy), s.viewport.(y := vy))
    else
      Snapshot(s.player.(y := py), s.playerInViewport.(y := screen), s.viewport)
  }

  /** The `keysPressed.right` block. */
  function MoveRight(s: Snapshot): (r: Snapshot)
    ensures r.player.y == s.player.y && r.viewport.y == s.viewport.y
    ensures r.playerInViewport.y == s.playerInViewport.y
    ensures r.player.x <= MAX_WIDTH - PLAYER_SIZE
    ensures s.player.x <= MAX_WIDTH - PLAYER_SIZE ==>
      r.player.x - s.player.x == Min(PLAYER_SPEED, MAX_WIDTH - PLAYER_SIZE - s.player.x)
    ensures s.viewport.x <= MAX_WIDTH - WIDTH ==> 0 <= r.viewport.x - s.viewport.x <= PLAYER_SPEED
    ensures s.viewport.x <= MAX_WIDTH - WIDTH && r.viewport.x != s.viewport.x ==>
      r.viewport.x - s.viewport.x == Min(PLAYER_SPEED, MAX_WIDTH - WIDTH - s.viewport.x)
    ensures s.viewport.x <= MAX_WIDTH - WIDTH ==>
      (r.viewport.x != s.viewport.x <==>
         r.player.x - s.viewport.x >= WIDTH - MAP_SCROLL_PADDING && s.viewport.x < MAX_WIDTH - WIDTH)
    ensures r.playerInViewport.x == r.player.x - r.viewport.x
    ensures Consistent(s) ==> Consistent(r)
  {
    var px := Min(MAX_WIDTH - PLAYER_SIZE, s.player.x + PLAYER_SPEED);
    var screen := px - s.viewport.x;
    if screen >= WIDTH - MAP_SCROLL_PADDING then
      var vx := Min(MAX_WIDTH - WIDTH, s.viewport.x + PLAYER_SPEED);
      Snapshot(s.player.(x := px), s.playerInViewport.(x := px - vx), s.viewport.(x := vx))
    else
      Snapshot(s.player.(x := px), s.playerInViewport.(x := screen), s.viewport)
  }

  /** The `keysPressed.down` block. */
  function MoveDown(s: Snapshot): (r: Snapshot)
    ensures r.player.x == s.player.x && r.viewport.x == s.viewport.x
    ensures r.playerInViewport.x == s.playerInViewport.x
    ensures r.player.y <= MAX_HEIGHT - PLAYER_SIZE
    ensures s.player.y <= MAX_HEIGHT - PLAYER_SIZE ==>
      r.player.y - s.player.y == Min(PLAYER_SPEED, MAX_HEIGHT - PLAYER_SIZE - s.player.y)
    ensures s.viewport.y <= MAX_HEIGHT - HEIGHT ==> 0 <= r.viewport.y - s.viewport.y <= PLAYER_SPEED
    ensures s.viewport.y <= MAX_HEIGHT - HEIGHT && r.viewport.y != s.viewport.y ==>
      r.viewport.y - s.viewport.y == Min(PLAYER_SPEED, MAX_HEIGHT - HEIGHT - s.viewport.y)
    ensures s.viewport.y <= MAX_HEIGHT - HEIGHT ==>
      (r.viewport.y != s.viewport.y <==>
         r.player.y - s.viewport.y >= HEIGHT - MAP_SCROLL_PADDING && s.viewport.y < MAX_HEIGHT - HEIGHT)
    ensures r.playerInViewport.y == r.player.y - r.viewport.y
    ensures Consistent(s) ==> Consistent(r)
  {
    var py := Min(MAX_HEIGHT - PLAYER_SIZE, s.player.y + PLAYER_SPEED);
    var screen := py - s.viewport.y;
    if screen >= HEIGHT - MAP_SCROLL_PADDING then
      var vy := Min(MAX_HEIGHT - HEIGHT, s.viewport.y + PLAYER_SPEED);
      Snapshot(s.player.(y := py), s.playerInViewport.(y := py - vy), s.viewport.(y := vy))
    else
      Snapshot(s.player.(y := py), s.playerInViewport.(y := screen), s.viewport)
  }

  /** The `keysPressed.left` block. */
  function MoveLeft(s: Snapshot): (r: Snapshot)
    ensures r.player.y == s.player.y && r.viewport.y == s.viewport.y
    ensures r.playerInViewport.y == s.playerInViewport.y
    ensures r.player.x >= 0
    ensures s.player.x >= 0 ==> s.player.x - r.player.x == Min(PLAYER_SPEED, s.player.x)
    ensures s.viewport.x >= 0 ==> 0 <= s.viewport.x - r.viewport.x <= PLAYER_SPEED
    ensures s.viewport.x >= 0 && r.viewport.x != s.viewport.x ==>
      s.viewport.x - r.viewport.x == Min(PLAYER_SPEED, s.viewport.x)
    ensures s.viewport.x >= 0 ==>
      (r.viewport.x != s.viewport.x <==>
         r.player.x - s.viewport.x <= MAP_SCROLL_PADDING && s.viewport.x > 0)
    ensures r.playerInViewport.x == r.player.x - r.viewport.x
    ensures Consistent(s) ==> Consistent(r)
  {
    var px := Max(0, s.player.x - PLAYER_SPEED);
    var screen := px - s.viewport.x;
    if screen <= MAP_SCROLL_PADDING then
      var vx := Max(0, s.viewport.x - PLAYER_SPEED);
      Snapshot(s.player.(x := px), s.playerInViewport.(x := px - vx), s.viewport.(x := vx))
    else
      Snapshot(s.player.(x := px), s.playerInViewport.(x := screen), s.viewport)
  }

  function Move(s: Snapshot, d: Direction): Snapshot
  {
    match d
    case Up => MoveUp(s)
    case Right => MoveRight(s)
    case Down => MoveDown(s)
    case Left => MoveLeft(s)
  }

  /** The movement part of one `drawFrame` call: each held direction is
      applied in the order up, right, down, left, each to the result of the
      ones before it. */
  function Frame(s: Snapshot, keys: KeyState): (r: Snapshot)
    ensures keys == Released ==> r == s
    ensures !keys.left && !keys.right ==>
      r.player.x == s.player.x && r.viewport.x == s.viewport.x && r.playerInViewport.x == s.playerInViewport.x
    ensures !keys.up && !keys.down ==>
      r.player.y == s.player.y && r.viewport.y == s.viewport.y && r.playerInViewport.y == s.playerInViewport.y
    ensures Consistent(s) ==> Consistent(r)
  {
    var afterUp := if keys.up then Move(s, Up) else s;
    var afterRight := if keys.right then Move(afterUp, Right) else afterUp;
    var afterDown := if keys.down then Move(afterRight, Down) else afterRight;
    if keys.left then Move(afterDown, Left) else afterDown
  }

  /** With exactly one direction held, a frame is that direction's block alone. */
  lemma SingleDirection(s: Snapshot, d: Direction)
    ensures Frame(s, Only(d)) == Move(s, d)
  {
  }

  /** Successive animation frames, one key snapshot per frame. */
  function Run(s: Snapshot, frames: seq<KeyState>): (r: Snapshot)
    ensures Consistent(s) ==> Consistent(r)
    decreases |frames|
  {
    if frames == [] then s else Run(Frame(s, frames[0]), frames[1..])
  }

  /** From the declared start, every sequence of frames keeps the player and
      the viewport inside their ranges, the screen position equal to the
      world position minus the viewport offset, and the player on screen. */
  lemma Reachable(frames: seq<KeyState>)
    ensures var r := Run(Initial(), frames);
      0 <= r.player.x <= 1180 && 0 <= r.player.y <= 780 &&
      0 <= r.viewport.x <= 400 && 0 <= r.viewport.y <= 300 &&
      r.playerInViewport == Vec(r.player.x - r.viewport.x, r.player.y - r.viewport.y) &&
      0 <= r.playerInViewport.x <= 780 && 0 <= r.playerInViewport.y <= 480
  {
  }

  /** Frames with nothing held leave the whole state as it was. */
  lemma {:induction false} IdleRun(s: Snapshot, frames: seq<KeyState>)
    requires forall k :: 0 <= k < |frames| ==> frames[k] == Released
    ensures Run(s, frames) == s
    decreases |frames|
  {
    if frames != [] {
      IdleRun(Frame(s, frames[0]), frames[1..]);
    }
  }

  /** Running two stretches of frames one after the other is running their
      concatenation. */
  lemma {:induction false} RunAppend(s: Snapshot, a: seq<KeyState>, b: seq<KeyState>)
    ensures Run(s, a + b) == Run(Run(s, a), b)
    decreases |a|
  {
    if a != [] {
      assert (a + b)[0] == a[0];
      assert (a + b)[1..] == a[1..] + b;
      RunAppend(Frame(s, a[0]), a[1..], b);
    } else {
      assert a + b == b;
    }
  }

  /** Releasing every key freezes the game: frames after the last release
      leave the state the earlier frames reached. */
  lemma ReleaseFreezes(s: Snapshot, frames: seq<KeyState>, idle: seq<KeyState>)
    requires forall k :: 0 <= k < |idle| ==> idle[k] == Released
    ensures Run(s, frames + idle) == Run(s, frames)
  {
    RunAppend(s, frames, idle);
    IdleRun(Run(s, frames), idle);
  }
}
