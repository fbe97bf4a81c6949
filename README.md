# Grid simulator: a Dafny model

This project models the core of a small simulator in which one point object
moves and turns on a rectangular grid, driven by a list of integer command
codes, and the caller is told where the object ended up or that it fell off
the grid.

- `vectors.dfy`, module `Vectors`: the integer 2-D vector operations the
  object uses (sum, scaling, quarter-turn rotation). The source rotates with
  floating point and then rounds; the model uses the exact integer map it
  approximates, which agrees with it within the bounds given under
  "Left out". Clockwise is `(x, y) -> (-y, x)` and counter-clockwise is
  `(x, y) -> (y, -x)`. The y axis points down, so north `(0, -1)` turns
  clockwise to east `(1, 0)`.
- `objects.dfy`, module `Objects`: the moving object (class `MovingObject`,
  fields `position` and `rotation` changed in place, each operation specified
  by a pure function on the `Pose` value) and the grid (class `Grid`, holding
  a rectangular boolean `Matrix` indexed `[y][x]`, with the queries `GetValue`
  and `IsInside`).
- `scenes.dfy`, module `Scenes`: the engine. `Handler` is an entry of the
  sparse handler table, and `StandardHandlers` is the table of the
  command-line program. `Settlement` is the state of the promise that carries
  the result; only its first settlement counts. `RunFrom` and `Simulation`
  are the engine as functions. `PlaneScene.Simulate` is the command loop,
  written as the source writes it, and proved equal to `Simulation`.

Settle-once behaviour, as the code has it. Inside the loop every `resolve`
or `reject` is followed by `break`, and the final command resolves. So the
check after the loop (scenes.ts:63-65) can only settle the promise when the
command list is empty. A final command that takes the object off the grid is
therefore reported as a success at the outside position
(`Scenes.LastCommandSucceeds`, `Scenes.ScenarioLastStepOffGrid`). This is
not what the comment at scenes.ts:62 suggests. The model follows the code.
An empty list with an on-grid start never settles the promise, and the
callback is never called (`NoResult`).

The rotation vector is not kept to the four unit directions. The constructor
and `setRotation` accept any vector, and the default is `(0, 0)`. The model
allows any integer vector and proves that rotation maps the four directions
among themselves (`Vectors.RotateQuarters`).

## Model

| member | source | states |
|---|---|---|
| `Vectors.RotateQuarters` | src/objects.ts:30-35 | a rotation by q quarter turns maps the four facing directions among themselves, and maps the zero vector, and only it, to zero |
| `Vectors.RotateQuartersIsRotation` | src/objects.ts:31 | the quarter-turn map is the `rotateAround` formula `(x·cos − y·sin, x·sin + y·cos)` with exact cosine and sine, so no rounding is left to do |
| `Vectors.Clockwise` | src/objects.ts:62-64 | a clockwise turn `(x,y) -> (-y,x)` keeps a facing direction a facing direction |
| `Vectors.CounterClockwise` | src/objects.ts:69-71 | a counter-clockwise turn `(x,y) -> (y,-x)` keeps facing directions and is undone by a clockwise turn |
| `Vectors.RotateQuartersUnit` | src/objects.ts:62-71 | `rotate(90)` is the clockwise turn and `rotate(-90)` the counter-clockwise one |
| `Vectors.RotateQuartersCompose` | src/objects.ts:30-35 | turning by m and then by n quarter turns is turning by m + n |
| `Vectors.FourClockwiseTurns` | src/objects.ts:62-64 | four clockwise turns restore any rotation |
| `Vectors.ClockwiseCounterClockwiseCancel` | src/objects.ts:62-71 | a clockwise and a counter-clockwise turn cancel, in either order |
| `Vectors.CompassCycle` | src/objects.ts:62-64 | clockwise turns take north to east, east to south, south to west and west to north, with y pointing down |
| `Objects.ForwardMovesAlongRotation` | src/objects.ts:122-125 | a forward move of `value` steps shifts the position by `value` times the rotation and leaves the rotation unchanged |
| `Objects.ForwardThenBackRestores` | src/objects.ts:122-133 | `value` steps forward and then `-value` steps restore the pose; the defaults 1 and -1 are one step each way |
| `Objects.TurningKeepsPosition` | src/objects.ts:30-35 | rotating never changes the position, and a clockwise then counter-clockwise turn restore the pose |
| `Objects.OppositeMovesCancel` | src/objects.ts:85-111 | `moveUp(v)` then `moveDown(v)` restore the position, and so do `moveRight(v)` then `moveLeft(v)` |
| `Objects.MovingObject.constructor` | src/objects.ts:13-16 | the new object has position `(posX, posY)` and rotation `(rotX, rotY)`, all defaulting to 0 |
| `Objects.MovingObject.SetRotation` | src/objects.ts:22-24 | the rotation is replaced and the position kept |
| `Objects.MovingObject.Rotate` | src/objects.ts:30-35 | a rotation by a whole number of quarter turns turns the rotation vector by `angle / 90` quarter turns and keeps the position |
| `Objects.MovingObject.SetPosition` | src/objects.ts:41-43 | the position is replaced and the rotation kept |
| `Objects.MovingObject.GetPosition` | src/objects.ts:48-50 | returns the current position |
| `Objects.MovingObject.GetRotation` | src/objects.ts:55-57 | returns the current rotation |
| `Objects.MovingObject.RotateClockwise` | src/objects.ts:62-64 | the rotation becomes `(-y, x)`; the position is unchanged |
| `Objects.MovingObject.RotateCounterClockwise` | src/objects.ts:69-71 | the rotation becomes `(y, -x)`; the position is unchanged |
| `Objects.MovingObject.Move` | src/objects.ts:77-79 | the vector is added to the position; the rotation is unchanged |
| `Objects.MovingObject.MoveRight` | src/objects.ts:85-87 | the position moves by `(v, 0)`, one step by default |
| `Objects.MovingObject.MoveLeft` | src/objects.ts:93-95 | the position moves by `(-v, 0)` |
| `Objects.MovingObject.MoveUp` | src/objects.ts:101-103 | the position moves by `(0, -v)`: up is towards smaller y |
| `Objects.MovingObject.MoveDown` | src/objects.ts:109-111 | the position moves by `(0, v)` |
| `Objects.MovingObject.MoveForward` | src/objects.ts:122-125 | the position moves by `value` times the rotation (1 by default), and the rotation itself is not changed |
| `Objects.MovingObject.MoveBackwards` | src/objects.ts:131-133 | the position moves by `value` times the rotation with default -1, so `moveBackwards()` steps back and a positive argument steps forward |
| `Objects.Ones` | src/objects.ts:142-144 | the all-ones matrix has the requested height and width and every cell occupied |
| `Objects.FromRows` | src/objects.ts:150-153 | a shape's matrix has one row per row of data, the first row's length as width, and `data[i][j]` at row i, column j |
| `Objects.Grid.constructor` | src/objects.ts:142-144 | a new grid is the fully occupied height-by-width matrix |
| `Objects.Grid.SetShape` | src/objects.ts:150-153 | the whole matrix is replaced by the rows given, and the grid itself is returned |
| `Objects.Grid.GetMatrix` | src/objects.ts:158-160 | returns the current matrix |
| `Objects.Grid.IsInside` | src/objects.ts:172-180 | a position with `x<0`, `y<0`, `x≥width` or `y≥height` is never inside, for any matrix including 0×0 |
| `Objects.DefaultGridInside` | src/objects.ts:142-144 | on `new Grid(h, w)` a position is inside exactly when `0≤x<w` and `0≤y<h` |
| `Objects.ShapedGridInside` | src/objects.ts:165-179 | after `setShape(data)`, an in-range position is inside exactly when `data[y][x]` is set; the indices are swapped |
| `Objects.ShapedGridValue` | src/objects.ts:165-167 | `getValue(x, y)` after `setShape(data)` is `data[y][x]`: the first argument is the column, the second the row |
| `Scenes.Apply` | src/objects.ts:62-133 | a handler that turns never moves the object, and a handler that moves never turns it |
| `Scenes.StandardHandlers` | src/index.ts:16-20 | the program registers handlers for exactly the codes 1, 2, 3 and 4 |
| `Scenes.Replay` | src/scenes.ts:43-61 | replaying a list of codes none of which has a handler leaves the pose unchanged |
| `Scenes.ReplayAppend` | src/scenes.ts:43-61 | commands run strictly one after another: replaying `a + b` is replaying `b` from where `a` left the object |
| `Scenes.Step` | src/scenes.ts:55 | a code with no registered handler leaves the pose unchanged |
| `Scenes.StandardSteps` | src/index.ts:17-20 | in the program's table, 1 steps forward, 2 steps back, 3 turns clockwise and 4 counter-clockwise |
| `Scenes.Resolve` | src/scenes.ts:51 | resolving makes a pending promise fulfilled and leaves a settled one as it was |
| `Scenes.Reject` | src/scenes.ts:46 | rejecting makes a pending promise rejected and leaves a settled one as it was |
| `Scenes.Deliver` | src/scenes.ts:67-71 | a fulfilled promise calls back with success at the position, a rejected one with failure at the position, and a pending one not at all, each exactly when |
| `Scenes.RunFrom` | src/scenes.ts:43-61 | a run over a non-empty list always settles, carries the final position, and hands at most one command at a time to the table |
| `Scenes.RunFromReplays` | src/scenes.ts:42-61 | the final pose is the in-order replay of the first `executed` commands; none of them is 0 and each found the object inside; a failure happens before a command with the object off the grid; a success stops after the last command or at a 0 that found the object inside |
| `Scenes.Simulation` | src/scenes.ts:41-71 | there is no result exactly when the list is empty and the start is inside; any result carries the object's final position |
| `Scenes.StartOutsideFails` | src/scenes.ts:43-47 | with a non-empty list and a start off the grid, the result is failure at the start and no handler runs |
| `Scenes.EmptyCommands` | src/scenes.ts:42-65 | with an empty list the result is failure at the start if it is off the grid, and otherwise nothing |
| `Scenes.TerminatorSucceeds` | src/scenes.ts:50-53 | reaching code 0 with the object inside succeeds at its position, and no later command runs |
| `Scenes.FirstZeroFixesOutcome` | src/scenes.ts:43-61 | everything after the first 0 is irrelevant: `pre + [0] + rest` runs exactly as `pre + [0]` |
| `Scenes.UnknownCommandSkipped` | src/scenes.ts:55 | an unregistered code that is not last changes neither the outcome nor the final pose; the loop goes on to the next command |
| `Scenes.LeavingGridFails` | src/scenes.ts:43-48 | a command that takes the object off the grid, with a command after it, ends in failure at the outside position before the next command |
| `Scenes.LastCommandSucceeds` | src/scenes.ts:57-65 | the last command ends in success at the new position even off the grid; the later `reject` is ignored |
| `Scenes.ScenarioForwardBackTurn` | src/scenes.ts:39-72 | 5×5 grid, start (1,2) north, commands 1 1 2 2 4 1 0: success at (0,2) facing west after six commands |
| `Scenes.ScenarioLastStepOffGrid` | src/scenes.ts:57-65 | 2×2 grid, start (0,0) north, command 1: success at (0,-1), a position off the grid |
| `Scenes.ScenarioHoleAtStart` | src/scenes.ts:43-47 | 3×3 grid with an empty centre, start at the centre: failure at (1,1) for every command list, including the empty one |
| `Scenes.ScenarioUnknownCode` | src/scenes.ts:55 | an unknown code 7 before 1 0 is skipped: success at (1,1) |
| `Scenes.Dispatch` | src/scenes.ts:55 | `handlers[c]?.()` runs the registered operation on the object, and does nothing when there is none |
| `Scenes.PlaneScene.constructor` | src/scenes.ts:12-17 | the scene holds the given grid, object and commands |
| `Scenes.PlaneScene.GetGrid` | src/scenes.ts:22-24 | returns the scene's grid |
| `Scenes.PlaneScene.GetObj` | src/scenes.ts:29-31 | returns the scene's object |
| `Scenes.PlaneScene.Simulate` | src/scenes.ts:39-72 | the command loop with its breaks and the check after it yields exactly the outcome and final pose of `Simulation` |

## Left out

- Reading the grid size, the start position and the commands from standard input (readers.ts) is I/O. Its number parsing follows the host language's floating-point rules and is not part of this model.
- The program wiring and console output in src/index.ts are not part of this model. This includes printing `[-1, -1]` on failure. Only the handler table at src/index.ts:17-20 is modelled, as `Scenes.StandardHandlers`.
- The promise and callback machinery is modelled as a synchronous result. If the caller's callback throws inside `.then`, the `.catch` branch calls the callback a second time. That is caller code and is not modelled.
- Objects.MovingObject.Rotate: covers only angles that are whole multiples of 90°, and computes the turn exactly. The source rotates in floating point and rounds. That gives the same integer result only while the cosine and sine errors, times the components, stay below one half: by our estimate for angles up to 360° either way and components below 10^15. Beyond that the two differ; for example, rotation (8.2·10^15, 0) turned by 90° rounds to x = 1, not 0. Other angles give floating-point rotations and are left out.
- Coordinates are unbounded integers in the model. In the source they are floating-point numbers: `add` and `multiplyScalar` are exact only while results stay below 2^53, and rotation only within the bound above. The command-line program uses unit rotations and grid-sized positions, far inside these bounds.
- Objects.Grid.SetShape: requires rectangular rows. What the matrix library does with ragged rows is outside the source and is not modelled; `FromRows` takes the first row's length as the width. The one-dimensional form of the argument and sparse versus dense storage are not modelled.
- Objects.Grid.GetValue: requires an in-range position. Reading outside the matrix is left to the matrix library, whose behaviour is not part of this model. The only caller, `IsInside`, checks the range first.
- Objects.Grid.constructor: takes natural numbers. What the matrix library does with negative sizes is not part of this model.
- Vector objects are treated as values. The source's `setPostition` (spelled so in the source) stores the caller's vector, and `getPosition` and `getMatrix` return the live objects. Aliasing through them is not modelled.
- The abstract base class `PlaneObject` and its subclass `MovingObject` are merged into one class. The scene's type parameter is fixed to that class.
- Handlers in the source are arbitrary functions. The model's handlers are calls of the object's movement and rotation operations with fixed arguments. Handlers with other side effects are not modelled.
- Command codes and coordinates are integers. Non-integer numbers are not modelled.
