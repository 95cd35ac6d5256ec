# Terror maze: the game-state core in Dafny

This project models the per-frame game logic of the terror maze game (`GameState` in
`src/main.rs`). The player must first touch the start point with the pointer. After that, a
20×20 marker follows the pointer through a maze of ten fixed walls. Touching a wall sends the
marker back to the start. Reaching the goal plays a scream and shows the scare image.

- `geometry.dfy` (module `Geometry`): points and rectangles in ggez's left/top/width/height
  form; the overlap test `Overlaps`; the squared distance `SqDist`.
- `maze.dfy` (module `TerrorMaze`):
  - `Game`, the abstract value of the state: position, start, goal, walls, `isMoving` and
    `showScare`. The image and sound handles are not part of it.
  - The specification functions `Initial`, `ReachedEnd`, `MarkerBox`, `Collides`,
    `WithinArming`, `Restarted`, `Moved` and `Stepped`.
  - `Run`, which applies a sequence of pointer moves and frame ticks in order.
  - The class `GameState`. Its fields are the source's fields. Its methods `Restart`,
    `Update` and `MouseMotion` change them in place. Each method is proved against the
    matching specification function through the object's `State()`.

Representation choices:

- Coordinates are exact `real`s in place of `f32`.
- `mouse_motion_event` compares the pointer's distance from the start point,
  `sqrt((10 − x)² + (60 − y)²)`, with 10. The model compares the squared distance with 100.
  `SqrtThreshold` and `ArmingIsDistanceBelowRadius` prove that the two comparisons agree
  for any non-negative square root.
- The `play` call in `update` is modelled as the method's `screamed` result (`FrameOutcome.screamed`
  in the specification).
- The rectangle overlap test belongs to ggez and is not part of this model's source files.
  `Geometry.Overlaps` is the model's only definition of it. It is inclusive: two closed
  rectangles overlap when they share a point, so touching edges count. This follows ggez's
  `Rect::overlaps`, which compares with `<=` and `>=`.
  - One consequence, proved in `GoalPointTouchesFloor`: at the exact goal point (870, 790),
    the marker's bottom edge (y = 800) touches the top of the bottom wall. That frame
    therefore plays the scream, sets the scare flag and also restarts the marker.
  - `GoalReachableWhenClear` shows that the goal area can still be entered without
    touching a wall, for example at (870, 785).
- The marker at (400, 400) has the box [390, 410]×[390, 410]. That box clears the wall
  (70, 340, 825, 30), which ends at y = 370, and every other wall. So in `CorridorScenario`
  the frame after the move neither restarts nor screams, and the marker stays at
  (400, 400), armed.

## Model

| member | source | states |
|---|---|---|
| `TerrorMaze.Initial` | src/main.rs:21-55 | a new game has the marker on the start point (10, 60), both flags false, the goal at (870, 790) and exactly the ten literal walls, all with non-negative size |
| `TerrorMaze.GameState.constructor` | src/main.rs:21-55 | a freshly built `GameState` has the initial state |
| `TerrorMaze.ReachedEnd` | src/main.rs:62-66 | the goal test holds exactly when the position lies strictly inside the 40×40 square centred on the goal (each axis within 20) |
| `TerrorMaze.ReachedEndExamples` | src/main.rs:62-66 | (865, 795) reaches the goal (870, 790); (865, 765) does not |
| `TerrorMaze.MarkerBox` | src/main.rs:69-75 | the marker box is a 20×20 square centred on the position and containing it |
| `TerrorMaze.GameState.CheckCollision` | src/main.rs:68-84 | the loop with its early return answers exactly whether some wall overlaps the marker box |
| `TerrorMaze.CollidesOrderIndependent` | src/main.rs:77-83 | the wall test gives the same answer for any reordering of the walls |
| `Geometry.OverlapsIffSharedPoint` | src/main.rs:78 | two rectangles of non-negative size overlap exactly when their closed areas share a point (touching counts) |
| `Geometry.Abs` | src/main.rs:64-65 | the absolute value is non-negative and equals the argument or its negation |
| `Geometry.SqDist` | src/main.rs:153-155 | the squared distance is non-negative |
| `Geometry.SqrtThreshold` | src/main.rs:153-156 | for a non-negative square root s of d, s < 10 exactly when d < 100 |
| `TerrorMaze.ArmingIsDistanceBelowRadius` | src/main.rs:152-158 | the arming test holds exactly when the Euclidean distance from the start is below 10 |
| `TerrorMaze.ArmingExamples` | src/main.rs:152-163 | the pointer on the start point arms the marker; a pointer exactly 10 away changes nothing |
| `TerrorMaze.StartBoxClear` | src/main.rs:31-47 | the marker box at the start point, [0, 20]×[50, 70], touches none of the ten walls |
| `TerrorMaze.UpperCorridorClear` | src/main.rs:31-47 | the marker box at (400, 150) touches none of the ten walls |
| `TerrorMaze.MiddleCorridorClear` | src/main.rs:31-47 | the marker box at (400, 400) touches none of the ten walls |
| `TerrorMaze.GoalApproachClear` | src/main.rs:31-47 | the marker box at (870, 785) touches none of the ten walls |
| `TerrorMaze.CollisionExamples` | src/main.rs:31-47 | the marker at (0, 0) hits a wall; the marker at (400, 150) hits none |
| `TerrorMaze.StartIsClear` | src/main.rs:22-47 | the marker on the start point touches no wall, so the first frame of a new game changes nothing and plays nothing |
| `TerrorMaze.GoalPointTouchesFloor` | src/main.rs:93-101 | at the exact goal point the marker touches the bottom wall: the frame screams, sets the scare flag, and puts the disarmed marker back at the start |
| `TerrorMaze.GoalReachableWhenClear` | src/main.rs:93-101 | at (870, 785) the frame screams and sets the scare flag, and the marker stays where it is |
| `TerrorMaze.CorridorScenario` | src/main.rs:93-163 | touch the start, move to (400, 400), run one frame: the marker is at (400, 400), armed, with no scare |
| `TerrorMaze.GameState.Restart` | src/main.rs:86-89 | restart sets the state to `Restarted` of the old state |
| `TerrorMaze.RestartedResets` | src/main.rs:86-89 | after restart the marker is on the start point and not moving; the scare flag, walls, goal and start point are unchanged |
| `TerrorMaze.RestartedForgetsHistory` | src/main.rs:86-89 | the state after restart does not depend on the position or the armed flag before it |
| `TerrorMaze.GameState.MouseMotion` | src/main.rs:151-164 | a pointer event sets the state to `Moved` of the old state and the pointer |
| `TerrorMaze.MovedGateClosed` | src/main.rs:152-163 | when not armed and the pointer is not within 10 of the start, the event changes nothing |
| `TerrorMaze.MovedGateOpens` | src/main.rs:152-163 | when not armed and the pointer is within 10 of the start, the same event arms the marker and moves it to the pointer |
| `TerrorMaze.MovedOnceArmed` | src/main.rs:152-163 | an event never disarms; once armed, the marker lands on the pointer; start, goal, walls and the scare flag are unchanged |
| `TerrorMaze.RunTracksOnceArmed` | src/main.rs:152-163 | once armed, the marker stays armed through any non-empty sequence of pointer moves and ends on the last pointer position |
| `TerrorMaze.GameState.Update` | src/main.rs:93-104 | a frame sets the state to `Stepped` of the old state and reports whether the scream was played |
| `TerrorMaze.SteppedScream` | src/main.rs:94-97 | the scream plays exactly when the goal test holds; afterwards the scare flag is the old flag or'ed with that, so it never goes from true to false |
| `TerrorMaze.SteppedCollision` | src/main.rs:99-101 | on a wall hit the marker is back at the start and disarmed; without a hit the position and armed flag are unchanged; start, goal and walls never change |
| `TerrorMaze.SteppedScreamsAgain` | src/main.rs:93-104 | there is no de-duplication: a marker in the goal area clear of walls makes the next frame scream again too |
| `TerrorMaze.RunKeepsScareAndLevel` | src/main.rs:86-164 | over any sequence of pointer moves and frames, the scare flag never goes back to false, and start, goal and walls never change |
| `TerrorMaze.RunKeepsIdleAtStart` | src/main.rs:86-164 | over any sequence of pointer moves and frames, an unarmed marker is always on the start point |
| `TerrorMaze.RunStaysIdle` | src/main.rs:86-164 | from an unarmed marker on the start point, while no pointer move comes within the arming radius, the marker stays unarmed on the start point whatever frames run in between |

## Left out

- `draw` (src/main.rs:106-149): clearing, meshes, drawing the walls, the marker and the scaled scare image. These are presentation only and do not affect the game state.
- `main` and `event::run` (src/main.rs:167-175): window creation and the platform event loop. `TerrorMaze.Run` stands in for the order in which events reach the state.
- Asset loading (src/main.rs:6-7, 23-25) and the `scare_image` and `scream_sound` fields: these are embedded bytes decoded by ggez, with no logic in the core. The constructor therefore has no error path.
- `play_scream_sound` (src/main.rs:57-60): the audio device is left out. The call appears only as the `screamed` result of `Update`, and its `GameResult` failure, which would abort the frame, is not modelled.
- `f32` rounding, `powi` and `sqrt` (src/main.rs:153-155): coordinates are exact reals, and the distance test is squared (see `SqrtThreshold`).
- The body of ggez's `Rect::overlaps` is not part of this model. `Geometry.Overlaps` gives the inclusive interval overlap test in its place.
