# Drag interaction of the wasm vector demo, in Dafny

This project models the one piece of logic in the demo's `src/lib.rs`: the
dots on a 64 by 64 canvas and the drag state machine that the browser drives
with mouse down, mouse move and mouse up.

- `Dots` (`dots.dfy`): the `ADot` value `{id, x, y}` with its getters and its
  hit test `IsNear` (threshold 3, the two axes combined with OR), the two
  searches the universe runs over its vector (`FindNear` for
  `iter().find(is_near)`, `FindById` for `iter_mut().find(id == ..)`), and
  `MoveDot`, the effect of one drag step on the vector.
- `World` (`universe.dfy`): the `Universe` class with its fields `width`,
  `height` (constants, 64, that no method can change), `dots`, `mouseDown` and
  `grabbing`; the object invariant `Valid` (distinct ids, and a drag target
  always names a listed dot, which is what makes the `unwrap` in a mouse move
  safe); the pointer handlers as methods with `modifies this`; and the
  read-only accessors `Width`, `Height` and `DotCount`.
- `Scenarios` (`scenarios.dfy`): what a host can derive from the handlers'
  contracts alone: first-in-order selection, one axis being enough, a miss,
  release ending a drag, and the last of several moves winning.

Every handler also keeps "something grabbed implies the button is down". So
from any state built by the constructor and the handlers, the branch of
`move_mouse` that drops the target because the button is up cannot be
reached. It is still modelled, and `MoveMouse` states its effect.

Pointer coordinates are `u32` values. They are modelled as `Coord`, the
integers in `[0, 2^31)`, where the cast to `i32` keeps the value.

## Model

| member | source | states |
|---|---|---|
| `Dots.Abs` | src/lib.rs:46 | the result is non-negative and is the argument or its negation |
| `Dots.ADot.GetX` | src/lib.rs:54-56 | the getter returns the dot's x: the dot is rebuilt from its id, the result and its y |
| `Dots.ADot.GetY` | src/lib.rs:58-60 | the getter returns the dot's y: the dot is rebuilt from its id, its x and the result |
| `Dots.ADot.IsNear` | src/lib.rs:43-52 | a dot is near the pointer exactly when the pointer is strictly within 3 of it on the x axis OR on the y axis; either axis alone suffices |
| `Dots.FindNear` | src/lib.rs:143 | the search returns the index of the first dot in vector order that is near; every earlier dot is not near; no index means no dot is near |
| `Dots.FindById` | src/lib.rs:134 | the lookup finds an index exactly when the id is listed; that dot has the id and no earlier dot does |
| `Dots.FindByIdDependsOnIds` | src/lib.rs:134 | two vectors with the same ids in the same order give the same lookup result, whatever the positions |
| `Dots.FindByIdUnique` | src/lib.rs:134 | with distinct ids, the lookup of a dot's id returns that dot's index |
| `Dots.MoveDot` | src/lib.rs:134-137 | a drag step puts the found dot at the pointer position; ids, length and every other dot are unchanged, so the same id still finds the same index |
| `Dots.MoveDotLastWins` | src/lib.rs:127-138 | two drag steps of the same dot equal one step to the second position |
| `World.Universe.constructor` | src/lib.rs:103-125 | a 64 by 64 canvas (class constants), dots 2..5 at (20,20), (30,30), (40,40), (50,50), button up, nothing grabbed; the invariant holds |
| `World.Universe.Width` | src/lib.rs:74-76 | the width is 64; it is a `const` of the class, so no handler can change it |
| `World.Universe.Height` | src/lib.rs:78-80 | the height is 64; it is a `const` of the class, so no handler can change it |
| `World.Universe.DotCount` | src/lib.rs:164-166 | the count is the length of the dot vector (and of its ids); every handler ensures it is unchanged |
| `World.Universe.SetMouseDown` | src/lib.rs:141-150 | the button is down; the target is the id of the first near dot, or none; the dots and their count are unchanged; the invariant is kept |
| `World.Universe.MoveMouse` | src/lib.rs:127-139 | with no target nothing changes; with a target and the button up the target is dropped and the dots are unchanged; otherwise the dots become `MoveDot` of the old dots, every dot with the grabbed id (with distinct ids, the one such dot) is at the pointer position, and the button and target are kept; ids and the dot count never change; the lookup the `unwrap` depends on always succeeds |
| `World.Universe.SetMouseUp` | src/lib.rs:152-155 | the button is up, nothing is grabbed, the dots and their count are unchanged, the invariant is kept |
| `Scenarios.FirstInOrderWins` | src/lib.rs:141-150 | pressing at (41,21) grabs dot 2 (near on y) rather than dot 4 (one unit off on x); dragging moves dot 2 alone; a move after release changes nothing |
| `Scenarios.OneAxisIsEnough` | src/lib.rs:43-52 | pressing at (42,63), far from every dot on y, grabs dot 4, which is close on x |
| `Scenarios.MissGrabsNothing` | src/lib.rs:127-150 | pressing where no dot is near grabs nothing, and a following move leaves every dot in place |
| `Scenarios.ReleaseEndsDrag` | src/lib.rs:127-155 | from any valid state, a release then a move leaves the dots unchanged and nothing grabbed |
| `Scenarios.LastMoveWins` | src/lib.rs:127-138 | two moves during a drag leave the dots as one move to the second position would |

## Left out

- The wasm-bindgen attributes and extern blocks, `alert` and `greet`: calls into JavaScript.
- The `log!` output inside `is_near`: console I/O with no effect on the result.
- `dots()`: it returns a raw pointer into the vector, which has no meaning in this model.
- `dots_array` and `dots_map`: they build JavaScript `Array` and `Map` objects.
- `render` and `tick`: their bodies are empty.
- `utils::set_panic_hook` and the `wee_alloc` allocator: process setup. `utils` is not part of this model.
- Machine-integer edge cases: a `u32` pointer coordinate above `i32::MAX` wraps in the `as i32` cast, and the subtraction or `abs` in the hit test can overflow at the extremes. Coordinates are kept in `[0, 2^31)` and the wrap is not modelled.
- In-place mutation through `iter_mut()`: the dot vector is a `seq` field that a mouse move reassigns with one element replaced.
- Point creation, id assignment, remote synchronisation and bulk replacement of the dots: they are not part of `src/lib.rs`.
