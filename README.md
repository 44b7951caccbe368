# Stacking core of the 3D box game

A Dafny model of the gameplay state machine in `src/game.ts` of the 3D
box-stacking game. The game keeps a tower of layers. The bottom layer is a
fixed 3×3 base. The top layer slides along the x or z axis by 0.15 units per
animation frame. The first click starts the animation loop. Every later click
puts a new full-size layer on top. The new layer slides along the other axis
and starts at −10 on that axis. The camera climbs by the same 0.15 per frame
until it reaches a height that grows with the tower.

The module `StackGame` (file `stack_game.dfy`) holds:

- `Layer`, a record standing in for a three.js mesh: position `x, y, z`,
  extent `width, depth`, and the axis it moves along;
- `Session`, the whole game state as a value: the `gameStarted` flag, the
  stack of layers and the camera's height;
- the pure transitions `ClickStep`, `AnimateStep`, `Step` and `Run` (a
  sequence of clicks and frames), and lemmas about them;
- class `Game`, whose fields are the module-level state of `src/game.ts`.
  Its constructor `Init` is `gameInit`. Its methods `AddLayer`, `Click` and
  `Animate` are `addLayer`, the click listener and `animate`. The contracts
  of `Click` and `Animate` tie the new state to `ClickStep` and
  `AnimateStep` and keep the invariant `ValidSession`. `Animate` may only be
  called once the game has started, as the animation loop is registered by
  the first click. `AddLayer` is a helper of both `Init` and `Click`: its
  contract says it appends exactly one layer at the next height and changes
  nothing else.

The invariant `ValidSession` says:

- there are at least two layers;
- the base stays at the origin;
- layer *i* sits at height *i* and has full size 3×3;
- adjacent layers move along different axes;
- every layer a click added lies at 0 across its axis and at or beyond −10
  along it;
- the camera stays between its start height 4 and one step above its target.

The code has no trimming, no overhang fragments, no score and no game-over.
Every click adds a full 3×3 layer. The model follows the code and has none of
these either.

The first moving layer is placed at x = −10 but moves along z. Layers added
by clicks start at −10 on their own axis. The model reproduces both rules as
written.

## Model

| member | source | states |
|---|---|---|
| `StackGame.Opposite` | src/game.ts:118 | the next layer's axis differs from the current top's axis |
| `StackGame.NextLayer` | src/game.ts:111-120 | a clicked layer moves along the other axis, starts at −10 on its own axis and at 0 on the other, sits at height boxHeight × stack length, and is 3×3 |
| `StackGame.Advance` | src/game.ts:92-95 | a frame moves the top layer by exactly 0.15 along its own axis; its other coordinate, its height, its size and its axis stay the same |
| `StackGame.CameraStep` | src/game.ts:94-99 | the camera never goes down; it moves iff it is strictly below boxHeight × (stack length − 2) + 4, and then by exactly 0.15 |
| `StackGame.ClickStep` | src/game.ts:106-122 | the first click sets the started flag and adds no layer; every later click appends exactly one `NextLayer` of the top and leaves earlier layers and the camera unchanged; the flag is true afterwards |
| `StackGame.AnimateStep` | src/game.ts:91-99 | a frame changes only the top layer (by `Advance`) and the camera (by `CameraStep`); the stack length and the flag stay the same |
| `StackGame.Step` | src/game.ts:91-122 | one click or frame never shrinks the stack; a frame before the first click, which registers the animation loop, changes nothing |
| `StackGame.Run` | src/game.ts:91-122 | a sequence of events never shrinks the stack |
| `StackGame.DirectionParity` | src/game.ts:15-17 | in a well-formed tower even layers move along x and odd layers along z |
| `StackGame.InitialIsValid` | src/game.ts:15-17 | the state gameInit leaves satisfies the invariant |
| `StackGame.ClickPreserves` | src/game.ts:106-122 | a click keeps the invariant: heights, sizes, alternating axes, spawn positions and the camera bound |
| `StackGame.AnimatePreserves` | src/game.ts:91-99 | a frame keeps the invariant |
| `StackGame.StepPreserves` | src/game.ts:91-122 | every event keeps the invariant |
| `StackGame.RunPreserves` | src/game.ts:91-122 | every sequence of events keeps the invariant |
| `StackGame.RunCounts` | src/game.ts:106-122 | after a sequence of events the game has started iff it had started or some click happened; the stack grew by one layer per click, minus the click that started the game |
| `StackGame.RunMonotone` | src/game.ts:91-122 | the started flag is never reset, the stack never shrinks, every layer below the old top keeps its value, and the camera never goes down |
| `StackGame.Reachable` | src/game.ts:12-122 | every game reachable from gameInit has started iff it saw a click, holds 2 layers plus one per click after the first, keeps the base, puts layer *i* at height *i*, alternates axes, and keeps the camera at or above 4 |
| `StackGame.ThreeClicks` | src/game.ts:106-122 | after gameInit, two clicks give a third layer at (−10, 2, 0) moving along x; a third click gives a fourth at (0, 3, −10) moving along z |
| `StackGame.Game.Init` | src/game.ts:12-37 | gameInit: not started, camera at 4, stack is the base at the origin moving along x then the first mover at (−10, 1, 0) moving along z; the invariant holds |
| `StackGame.Game.AddLayer` | src/game.ts:59-89 | appends exactly one layer at height boxHeight × old stack length with the given x, z, size and axis; earlier layers, the flag and the camera are unchanged |
| `StackGame.Game.Click` | src/game.ts:106-122 | the click handler's new state is `ClickStep` of the old one; the invariant is kept |
| `StackGame.Game.Animate` | src/game.ts:91-109 | once the game has started, the frame callback's new state is `AnimateStep` of the old one; the invariant is kept |

## Left out

- Rendering: the three.js scene, lights, materials, renderer, tone mapping and axes helper (src/game.ts:13, 19-24, 40-49). They are library calls with no game logic.
- The colour of each layer (src/game.ts:82). It is presentation only.
- The separate green mesh (src/game.ts:53-57). It never enters the stack.
- Camera frustum sizing from the window size and the `lookAt` setup (src/game.ts:26-38). Only the camera's height, which starts at 4, is modelled.
- `setAnimationLoop`, the event listener registration and `render` (src/game.ts:103, 106, 108). Clicks and frames are plain method calls. In `Step`, a frame before the first click changes nothing, and `Game.Animate` requires a started game, because the loop is not registered before the first click.
- Floating point: JavaScript numbers are doubles, and the model uses exact reals. Repeatedly adding 0.15 in doubles rounds; the model does not.
- Meshes are shared objects in the scene graph. The model replaces them by values inside the stack, so aliasing between the stack and the scene is not captured.
- src/App.tsx calls `gameInit` from a React ref callback. Calling it twice would keep the module-level stack and would register a second click listener (src/game.ts:106), so one click would run both handlers: the first would start the game and the second would add a layer. That host behaviour is not modelled: `Game.Init` always starts from an empty stack and there is one handler per game.
- Overlap cutting, overhang fragments, physics, score and game-over. The code in src/game.ts does not implement them.
