# Rubik's cube layer model

A Dafny model of the discrete core of the `RubiksContainer` React/three.js
component (`src/components/RubiksContainer.js`). The core has three parts:

- **The grid.** The 3x3x3 grid is enumerated x-major, then y, then z.
- **Slice groups.** The 27 cubies are created in that order. Each is put into
  one of the four slice groups (left, middle, right, top) by an `if / else if`
  chain on its coordinate. This happens once, at creation.
- **Rotation.** `rotate(group, axis, angle)` turns every child of a group about
  a world axis by a quarter turn and returns one `{uuid, position}` record per
  child. Eight on-screen commands are bound to (group, axis, +-pi/2).

The model is organised as follows:

- A cubie has a uuid, an integer grid coordinate and an orientation.
  - The uuid is its creation index.
  - The orientation is an exact integer 3x3 rotation matrix.
- `rotateOnWorldAxis` premultiplies the orientation by the quarter-turn
  matrix. It leaves the position alone. The groups themselves are never
  transformed, so the world position a record carries is the creation
  coordinate.
- The component's state is the class `Puzzle.Cube`. It holds an array of
  cubies, updated in place by `Rotate`, and the four children lists, which
  are filled once by the creation loop.
- Each imperative operation is proved against a specification function:
  - `Created`: the cubies after creation.
  - `Members`: each group's children after creation.
  - `Turned`: the cubie list after a quarter turn of a group.
  - `Records`: the list `rotate` returns.
- Lemmas about those functions state what the component does:
  - the x-groups partition the cubies;
  - the top group is empty;
  - a rotation changes exactly its group's cubies;
  - opposite commands cancel;
  - four equal turns are the identity;
  - no cubie ever moves: cubies spin in place.

Modules, in order:

- `Grid`: coordinates and the enumeration.
- `Orientation`: matrices and quarter turns.
- `Rotation`: the cubie list as a value and one turn of a group.
- `Slices`: the groups and the creation chain.
- `Commands`: the eight-command table and command sequences.
- `Puzzle`: the class.

The code is modelled as written. What it does, including what a reader might not
expect, is stated by the model:

- **Cubies spin in place; no cubie ever moves.** `rotateOnWorldAxis` only
  premultiplies a cubie's orientation, so a "layer turn" spins each of its
  cubies about its own centre instead of carrying it around the axis. After
  any sequence of commands every cubie is still at its creation coordinate
  (`Commands.RunKeepsPositions`).
- **Group membership is frozen.** The groups are filled once, at creation, and
  `rotate` never moves a cubie to another group, so every command turns the
  cubies its group received at creation (`Commands.Step`,
  `Commands.StepChangesExactlyLayer`). Because positions never change, that
  frozen membership still agrees with the cubies' current x-layers
  (`Commands.MembersMatchCurrentLayer`).
- **The top branch is dead.** The chain tests `y === 2` only when x is not
  0, 1 or 2, which never happens on the grid. So `topHorizontalGroup` stays
  empty and the two top commands do nothing (`Slices.TopBranchUnreachable`,
  `Commands.TopCommandsChangeNothing`).

## Model

| member | source | states |
|---|---|---|
| Grid.CoordAt | src/components/RubiksContainer.js:82-84 | the coordinate the x/y/z triple loop reaches at step `i` lies on the grid and has index `9x+3y+z` equal to `i` |
| Grid.CoordAtIndex | src/components/RubiksContainer.js:82-86 | every grid coordinate is reached, at step `9x+3y+z`, so the enumeration and `Index` are inverse to each other |
| Grid.CoordAtInjective | src/components/RubiksContainer.js:82-86 | distinct steps of the enumeration reach distinct coordinates |
| Grid.GenerateDefaultPositions | src/components/RubiksContainer.js:80-90 | returns exactly 27 positions, the `i`-th being the `i`-th enumerated coordinate; all lie in 0..2, `(x,y,z)` sits at index `9x+3y+z`, and the positions are pairwise distinct |
| Orientation.QuarterTurnIsAxisRotation | src/components/RubiksContainer.js:148 | each quarter-turn matrix is the right-handed rotation about the world x or y axis at cos 0 and sin +-1 |
| Orientation.TurnIsPremultiplication | src/components/RubiksContainer.js:148 | the row permutation `Turn` applied to an orientation equals premultiplication by the quarter-turn matrix, as `rotateOnWorldAxis` does |
| Orientation.IdentityIsRotation | src/components/RubiksContainer.js:114 | the orientation of a newly created mesh is a proper rotation |
| Orientation.QuarterTurn | src/components/RubiksContainer.js:148 | defines the rotation matrix of a quarter turn by +-pi/2 about the world x or y axis; it is never the identity, and `Orientation.QuarterTurnIsAxisRotation` states which rotation it is |
| Orientation.TurnKeepsRotation | src/components/RubiksContainer.js:148 | a quarter turn of a proper rotation (orthonormal, determinant 1) is again a proper rotation |
| Orientation.TurnMovesRotation | src/components/RubiksContainer.js:148 | a quarter turn always changes a rotation's matrix |
| Orientation.NegatedTurnCancels | src/components/RubiksContainer.js:148 | turning by an angle and then by its negation restores the orientation |
| Orientation.FourTurnsIdentity | src/components/RubiksContainer.js:148 | four equal quarter turns about one axis restore the orientation |
| Orientation.SameAxisTurnsCommute | src/components/RubiksContainer.js:148 | quarter turns about the same axis commute |
| Orientation.Turn | src/components/RubiksContainer.js:148 | defines the orientation `rotateOnWorldAxis(axis, angle)` leaves, as a signed permutation of the rows of the old one; its meaning is stated by `Orientation.TurnIsPremultiplication` |
| Rotation.Created | src/components/RubiksContainer.js:110-132 | defines the cubie list `createAndGroupCubes` returns: 27 cubies, the `i`-th with uuid `i`, the `i`-th enumerated coordinate and the identity orientation |
| Rotation.CreatedWellFormed | src/components/RubiksContainer.js:110-128 | after creation the cubie at index `i` has uuid `i` and the `i`-th grid coordinate, and every orientation is a rotation |
| Rotation.CreatedSnoc | src/components/RubiksContainer.js:112-128 | creating the `n`-th cubie at the coordinate with index `n` extends the list of created cubies by exactly that cubie |
| Rotation.RegisteredPosition | src/components/RubiksContainer.js:115 | in a well-formed cubie list the cubie at index `i` sits at the `i`-th enumerated coordinate |
| Rotation.Turned | src/components/RubiksContainer.js:143-148 | defines the cubie list after the `forEach` of `rotate`: every listed child's orientation is turned, every other cubie is kept; same length |
| Rotation.Records | src/components/RubiksContainer.js:144-160 | defines the `newPositions` list `rotate` returns: one `{uuid, position}` record per child, in child order |
| Rotation.TurnedWellFormed | src/components/RubiksContainer.js:146-148 | turning any group keeps the cubie list well formed: same uuids and positions, all orientations rotations |
| Rotation.TurnedChangesExactlyMembers | src/components/RubiksContainer.js:143-148 | after a turn, a cubie's orientation has changed if and only if it is a child of the group; non-children are untouched, and no uuid or position changes |
| Rotation.TurnedNegatedCancels | src/components/RubiksContainer.js:148 | turning a group by an angle and then by its negation restores every cubie |
| Rotation.TurnedFourTimes | src/components/RubiksContainer.js:148 | four equal turns of a group restore every cubie |
| Rotation.TurnedCommute | src/components/RubiksContainer.js:146-148 | two turns commute when their groups share no cubie or their axes agree |
| Rotation.TurnedSnoc | src/components/RubiksContainer.js:146-148 | during the `forEach`, turning one more child updates exactly that child, which the earlier steps had not touched |
| Rotation.RecordsSnoc | src/components/RubiksContainer.js:150-155 | each child visited appends exactly one record, its uuid and world position, at the end |
| Rotation.RecordsOfTurned | src/components/RubiksContainer.js:144-160 | the records are one per child in child order, each carrying the child's uuid and its unchanged creation coordinate, whether read before or after the turn |
| Slices.CreationGroup | src/components/RubiksContainer.js:117-126 | defines the `if / else if` chain: the group a coordinate is added to, or none |
| Slices.CreationGroupByX | src/components/RubiksContainer.js:117-126 | on the grid the chain puts a cubie into exactly one group, and that group is the vertical group of its x-layer (x = 0, 1, 2 give left, middle, right); it never puts it nowhere |
| Slices.TopBranchUnreachable | src/components/RubiksContainer.js:118-126 | the chain reaches `topHorizontalGroup.add` only for a coordinate off the grid with y = 2 |
| Slices.Grouped | src/components/RubiksContainer.js:117-128 | defines the children lists the chain builds over the cubies created so far, in creation order |
| Slices.GroupedSnoc | src/components/RubiksContainer.js:117-128 | creating one more cube adds its index to a group's children exactly when the chain puts its coordinate there |
| Slices.GroupedStep | src/components/RubiksContainer.js:110-128 | the `n`-th creation step adds `n` to a group exactly when that group is the x-layer of the `n`-th coordinate |
| Slices.GroupedClosedForm | src/components/RubiksContainer.js:110-128 | after the first `n` cubies, a vertical group holds the consecutive indices of its x-layer created so far; top holds nothing |
| Slices.CreationFillsMembers | src/components/RubiksContainer.js:110-132 | after all 27 cubies, each vertical group holds the nine indices of its x-layer and the top group is empty |
| Slices.Members | src/components/RubiksContainer.js:110-132 | defines each group's children as creation leaves them: the nine consecutive indices of a vertical group's x-layer, nothing for top; `Slices.CreationFillsMembers` ties it to the chain |
| Slices.MembersPartition | src/components/RubiksContainer.js:117-123 | cubie `i` is a child of a group if and only if that group is the vertical group of its x-layer, so left, middle and right partition the 27 cubies |
| Slices.MembersCount | src/components/RubiksContainer.js:117-126 | each vertical group has nine children and the top group none |
| Slices.MembersIncreasing | src/components/RubiksContainer.js:110-128 | every children list holds cubie indices in creation order, without repetition |
| Commands.BindingOf | src/components/RubiksContainer.js:163-170 | defines the eight bindings: the group, axis and angle each command passes to `rotate` |
| Commands.OppositeBinding | src/components/RubiksContainer.js:163-170 | the Up/Down and Left/Right buttons of a pair bind the same group and axis with opposite angles, and the pairing is an involution without fixed points |
| Commands.AxisOfGroup | src/components/RubiksContainer.js:163-170 | the vertical groups always turn about the x axis, the top group about the y axis |
| Commands.Step | src/components/RubiksContainer.js:163-170 | defines one button press: its bound group's creation-time children turned about its axis by its angle; same length |
| Commands.Run | src/components/RubiksContainer.js:163-170 | defines a sequence of button presses, first to last; same length |
| Commands.StepThenOpposite | src/components/RubiksContainer.js:163-170 | a command followed by its opposite restores every cubie |
| Commands.FourSteps | src/components/RubiksContainer.js:163-170 | four consecutive runs of the same command restore every cubie |
| Commands.TopCommandsChangeNothing | src/components/RubiksContainer.js:169-170 | Top Left and Top Right change no cubie, whatever the state |
| Commands.StepChangesExactlyLayer | src/components/RubiksContainer.js:143-148 | a command changes the orientation of exactly the cubies of its group's creation-time x-layer and nothing else; uuids and positions stay |
| Commands.StepsCommute | src/components/RubiksContainer.js:163-170 | any two commands commute, because the groups are frozen and disjoint and each group turns about one fixed axis |
| Commands.RunWellFormed | src/components/RubiksContainer.js:143-170 | every sequence of commands keeps the cubie list well formed |
| Commands.RunKeepsPositions | src/components/RubiksContainer.js:143-170 | after any sequence of commands from the created state, the cubie with uuid `i` is still at the `i`-th coordinate |
| Commands.MembersMatchCurrentLayer | src/components/RubiksContainer.js:117-170 | after any sequence of commands from the created state, cubie `i` is a child of a group if and only if the group is vertical and the cubie's current x-coordinate is that group's layer |
| Puzzle.Cube.CreateAndGroupCubes | src/components/RubiksContainer.js:94-138 | the triple loop returns exactly the 27 created cubies in x/y/z order, and the chain leaves each vertical group holding the nine indices of its x-layer and the top group empty |
| Puzzle.Cube.constructor | src/components/RubiksContainer.js:94-141 | the component's state after `const cubes = createAndGroupCubes()`: the cube array is the created cubie list, and the four groups (made empty at lines 30-33) hold their creation-time children |
| Puzzle.Cube.Rotate | src/components/RubiksContainer.js:143-161 | turns every child of the group in place, so the array becomes the turned list of its old contents; returns one record per child, in child order, with the child's uuid and creation coordinate; keeps the object invariant, including frozen membership |
| Puzzle.Cube.Execute | src/components/RubiksContainer.js:163-170 | running a bound command turns its group about its axis by its angle, as `Commands.Step` describes, and keeps the object invariant |

## Left out

- Scene, camera, renderer, `OrbitControls` and the `animate` loop
  (lines 63-78, 195-201): rendering and library calls with no effect on the
  modelled state.
- Font loading over the network and the six text labels (lines 34-60):
  asynchronous I/O, cosmetic only.
- Mouse-click raycasting (lines 173-192): float geometry in a library call,
  and its result is discarded.
- Float world coordinates (`cubeSize`, `spacing`, `offset` at lines 95-97
  and 115): the model uses the integer grid coordinate that the float position
  is an affine image of. `getWorldPosition` (lines 151-152) is modelled as
  returning that coordinate, since neither the cube's local position nor the
  group's transform ever changes.
- Floating-point rotation: `Math.PI / 2` and the quaternion arithmetic of
  `rotateOnWorldAxis` are modelled by exact integer matrices with cos 0 and
  sin +-1, with no rounding. The model tracks the rotation, not the
  quaternion three.js stores: after four equal quarter turns the stored
  quaternion is the negation of the starting one, which represents the same
  rotation, so "four equal turns are the identity" holds of the rotation.
- three.js uuids: a mesh's random uuid is modelled by its creation index;
  only the fact that distinct cubies have distinct uuids is used.
- Materials and colours (lines 99-106), the geometry objects (line 113) and
  adding the groups to the scene (line 134): no effect on grouping or rotation.
- React refs, `useEffect` and the JSX buttons (lines 10-18, 209-281): the
  eight buttons are modelled by `Commands.Command` and `Puzzle.Cube.Execute`.
- `console.log` in `rotate` (line 157): output only.
- The four groups, created at lines 30-33, are modelled as lists of cubie
  indices. The three.js parent/child links of the scene graph are not modelled.
- `generateDefaultPositions` is never called by the component. It is
  modelled as a standalone method.
