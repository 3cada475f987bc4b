/** The global `player`, `playerInViewport` and `viewport` objects, updated
    in place by the movement block of `drawFrame`. */
module Scene {
  import opened Config
  import opened Keys
  import opened Movement

  /** A mutable `{x, y}` object. */
  class Point {
    var x: int
    var y: int

    constructor (x0: int, y0: int)
      ensures x == x0 && y == y0
    {
      x := x0;
      y := y0;
    }
  }

  class Scene {
    const player: Point
    const playerInViewport: Point
    const viewport: Point

    /** The three objects are separate: writing one never changes another. */
    ghost predicate Separate()
    {
      player != playerInViewport && player != viewport && playerInViewport != viewport
    }

    /** The current values of the three objects. */
    function Snap(): Snapshot
      reads player, playerInViewport, viewport
    {
      Snapshot(Vec(player.x, player.y), Vec(playerInViewport.x, playerInViewport.y),
               Vec(viewport.x, viewport.y))
    }

    ghost predicate Valid()
      reads player, playerInViewport, viewport
    {
      Separate() && Consistent(Snap())
    }

    /** The objects as declared: player and its screen position at (300, 300),
        viewport at the world origin. */
    constructor ()
      ensures Valid() && Snap() == Initial()
      ensures fresh(player) && fresh(playerInViewport) && fresh(viewport)
    {
      player := new Point(300, 300);
      playerInViewport := new Point(300, 300);
      viewport := new Point(0, 0);
    }

    /** One frame of movement: the four guarded blocks in their order. */
    method Step(keys: KeyState)
      requires Separate()
      modifies player, playerInViewport, viewport
      ensures Snap() == Frame(old(Snap()), keys)
      ensures old(Valid()) ==> Valid()
    {
      if keys.up {
        StepUp();
      }
      if keys.right {
        StepRight();
      }
      if keys.down {
        StepDown();
      }
      if keys.left {
        StepLeft();
      }
    }

    /** The `keysPressed.up` block: move up, then scroll if inside the top padding. */
    method StepUp()
      requires Separate()
      modifies player, playerInViewport, viewport
      ensures Snap() == MoveUp(old(Snap()))
    {
      player.y := Max(0, player.y - PLAYER_SPEED);
      playerInViewport.y := player.y - viewport.y;
      if playerInViewport.y <= MAP_SCROLL_PADDING {
        viewport.y := Max(0, viewport.y - PLAYER_SPEED);
        playerInViewport.y := player.y - viewport.y;
      }
    }

    /** The `keysPressed.right` block: move right, then scroll if inside the right padding. */
    method StepRight()
      requires Separate()
      modifies player, playerInViewport, viewport
      ensures Snap() == MoveRight(old(Snap()))
    {
      player.x := Min(MAX_WIDTH - PLAYER_SIZE, player.x + PLAYER_SPEED);
      playerInViewport.x := player.x - viewport.x;
      if playerInViewport.x >= WIDTH - MAP_SCROLL_PADDING {
        viewport.x := Min(MAX_WIDTH - WIDTH, viewport.x + PLAYER_SPEED);
        playerInViewport.x := player.x - viewport.x;
      }
    }

    /** The `keysPressed.down` block: move down, then scroll if inside the bottom padding. */
    method StepDown()
      requires Separate()
      modifies player, playerInViewport, viewport
      ensures Snap() == MoveDown(old(Snap()))
    {
      player.y := Min(MAX_HEIGHT - PLAYER_SIZE, player.y + PLAYER_SPEED);
      playerInViewport.y := player.y - viewport.y;
      if playerInViewport.y >= HEIGHT - MAP_SCROLL_PADDING {
        viewport.y := Min(MAX_HEIGHT - HEIGHT, viewport.y + PLAYER_SPEED);
        playerInViewport.y := player.y - viewport.y;
      }
    }

    /** The `keysPressed.left` block: move left, then scroll if inside the left padding. */
    method StepLeft()
      requires Separate()
      modifies player, playerInViewport, viewport
      ensures Snap() == MoveLeft(old(Snap()))
    {
      player.x := Max(0, player.x - PLAYER_SPEED);
      playerInViewport.x := player.x - viewport.x;
      if playerInViewport.x <= MAP_SCROLL_PADDING {
        viewport.x := Max(0, viewport.x - PLAYER_SPEED);
        playerInViewport.x := player.x - viewport.x;
      }
    }
  }
}
