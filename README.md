# Player movement and dead-zone camera of a top-down browser game

This project models the core of the game's `main.js` in Dafny. Each animation
frame, `drawFrame` moves the player by a fixed speed for every arrow key held.
It handles the directions in a fixed order: up, right, down, left. Each move
is clamped to the world bounds. After each move it recomputes the player's
screen position (`playerInViewport`). If that position is within
`MAP_SCROLL_PADDING` of the viewport edge the player is moving toward, the
viewport shifts the same way, clamped to its own range. This is dead-zone
camera scrolling. The model also covers the four-flag `keysPressed` record
that the `keydown`/`keyup` handlers update, and the initial `mapObjects`
list: one corner mark followed by a 25×20 grid of marks.

Layout:
- `config.dfy`: module `Config`. The constants (`WIDTH` 800, `HEIGHT` 500, `MAX_WIDTH` 1200, `MAX_HEIGHT` 800, padding 100, player size 20, speed 10) and integer `Max`/`Min`.
- `keys.dfy`: module `Keys`. The key-state record, the initial `Released` state and the two handler switches as pure functions.
- `movement.dfy`: module `Movement`. The movement rules on values: one function per guarded block, the frame that runs them in order, and runs of many frames. It also defines the state invariant `Consistent`:
  - the player is inside the world;
  - the viewport is inside the world;
  - the screen position equals the world position minus the viewport offset;
  - the player square is entirely on the canvas.
- `scene.dfy`: module `Scene`. The three global objects as mutable `Point` objects, held by class `Scene`. `Scene.Step` runs the four blocks in place, and is proved to compute exactly `Movement.Frame`. Each block is its own small method (`StepUp` … `StepLeft`), with the source's statements in the source's order. `Step` calls them under the four `if`s, in the same order.
- `map_objects.dfy`: module `MapObjects`. The nested loop that builds the initial object list.

All quantities are small integers, so JavaScript's floating-point numbers are
exact on them and unbounded `int` models them faithfully. The drawing calls,
the debug text and `requestAnimationFrame` are not modelled. `Movement.Run`
stands for the repeated frames, and its key sequence stands for the input.

There is no collision check: movement is limited only by the world bounds.

## Model

| member | source | states |
|---|---|---|
| `Keys.KeyDown` | main.js:129-144 | codes 38/39/40/37 set exactly up/right/down/left; all other flags unchanged; any other code changes nothing |
| `Keys.KeyUp` | main.js:146-161 | codes 38/39/40/37 clear exactly up/right/down/left; all other flags unchanged; any other code changes nothing |
| `Keys.CodeOf` | main.js:131-142 | each direction's key code decodes back to that direction, lies in 37..40, and is the only code that decodes to it (a bijection between the four directions and 37..40) |
| `Keys.LastEventWins` | main.js:129-161 | after a press and then a release of one key, the flags do not depend on the press (and the reverse) |
| `Keys.KeyDownIdempotent` | main.js:129-161 | repeated keydown (or keyup) events of one key change nothing after the first |
| `Keys.Only` | main.js:107-112 | from the all-released initial record, one keydown holds exactly that direction |
| `Movement.Initial` | main.js:16-29 | the declared start state (player and screen position (300,300), viewport (0,0)) satisfies the invariant, including screen = player − viewport |
| `Movement.MoveUp` | main.js:59-66 | x axis untouched; player.y decreases by min(10, player.y); viewport.y decreases by 0..10, never increases, and when it moves it moves by min(10, viewport.y); it changes exactly when the moved player's screen y ≤ 100 and viewport.y > 0; screen y = player.y − viewport.y afterwards; the invariant is preserved |
| `Movement.MoveRight` | main.js:67-74 | y axis untouched; player.x increases by min(10, 1180 − player.x); viewport.x increases by 0..10, and when it moves it moves by min(10, 400 − viewport.x); it changes exactly when screen x ≥ 700 and viewport.x < 400; the invariant is preserved |
| `Movement.MoveDown` | main.js:75-82 | x axis untouched; player.y increases by min(10, 780 − player.y); viewport.y increases by 0..10, and when it moves it moves by min(10, 300 − viewport.y); it changes exactly when screen y ≥ 400 and viewport.y < 300; the invariant is preserved |
| `Movement.MoveLeft` | main.js:83-90 | y axis untouched; player.x decreases by min(10, player.x); viewport.x decreases by 0..10, and when it moves it moves by min(10, viewport.x); it changes exactly when screen x ≤ 100 and viewport.x > 0; the invariant is preserved |
| `Movement.Frame` | main.js:58-90 | no key held leaves player, screen position and viewport unchanged; an axis with neither of its keys held is unchanged; the invariant is preserved |
| `Movement.SingleDirection` | main.js:58-90 | with exactly one direction held, a frame is that direction's block alone |
| `Movement.Run` | main.js:54-105 | any sequence of frames preserves the invariant |
| `Movement.Reachable` | main.js:16-90 | from the start, after any frames: player in [0,1180]×[0,780], viewport in [0,400]×[0,300], screen = player − viewport, screen in [0,780]×[0,480] |
| `Movement.IdleRun` | main.js:58-90 | any number of frames with no key held leave the state unchanged |
| `Movement.RunAppend` | main.js:54-105 | running two stretches of frames in turn equals running their concatenation |
| `Movement.ReleaseFreezes` | main.js:58-90 | once every key is released, any number of further frames leaves the state reached so far unchanged |
| `Scene.Scene.constructor` | main.js:16-29 | the three objects start separate, at the declared values, satisfying the invariant |
| `Scene.Scene.Step` | main.js:58-90 | updating the three objects in place yields exactly `Frame` of the old values, and keeps the invariant |
| `Scene.Scene.StepUp` | main.js:59-66 | the up block, in place, equals `MoveUp` |
| `Scene.Scene.StepRight` | main.js:67-74 | the right block, in place, equals `MoveRight` |
| `Scene.Scene.StepDown` | main.js:75-82 | the down block, in place, equals `MoveDown` |
| `Scene.Scene.StepLeft` | main.js:83-90 | the left block, in place, equals `MoveLeft` |
| `MapObjects.BuildMapObjects` | main.js:31-47 | 501 entries; entry 0 is a corner mark at (794,494); entry 1 + i·20 + j is a grid mark at (i·50−2, j·50−2) for 0≤i<25, 0≤j<20; every entry after 0 is a grid mark |
| `MapObjects.GridCell` | main.js:39-47 | every index 1..500 is the push position of exactly one (column, row) cell, so the grid entries cover the whole list |

## Left out

- Canvas drawing in `drawFrame` (clearing, per-object colour and size, the player square) and the debug-log text: rendering only, no state.
- `requestAnimationFrame`: the frame driver; `Movement.Run` takes the frame sequence instead.
- jQuery `$(document).ready`, canvas setup and `addEventListener` registration: DOM plumbing. Only the bodies of the two key switches are modelled.
- `getTimeDilationFactor` and `shipSpeed`: floating-point square root, and nothing else in the code uses them.
- messaging.js: DOM message creation, a timer-driven typing animation and a timed fade-out, with no state of its own outside the DOM.
