# Printing and warehouse demo: a verified model of the bookkeeping core

The demo has three parts. A 3D printer builds a piece in 5 % increments from one of two mesh builders. A forklift drives up to the printer and takes the finished piece. The forklift then hands the piece to a slot of a shelf unit. This project models the integer and state bookkeeping behind that, and proves what it promises:

- **Geometry** (`geometries.dfy`). The two builders are modelled:
  - The twisted extrusion (`ExcrutionGeometry.create`) lays out flat `position`, `uv`, `index` and `normal` buffers, layer by layer and quad by quad. The model first describes the geometry as a sequence of quads. It then describes each buffer as the chunks of those quads, laid end to end. The builder method is proved to produce exactly those buffers.
  - The lathe (`RevolutionGeometry.create`) cuts the sampled profile to the printed prefix and fills its uv buffer in a nested loop.
- **Layout** (`layout.dfy`). These are facts about buffers built from fixed-size chunks: chunk offsets, and slices of a buffer that something was appended to.
- **Pieces** (`pieces.dfy`). These are the values that move around: builders, the build call a geometry came from, materials and pieces.
- **Slots** (`piece_slot.dfy`). `PieceSlot` is a container for one piece. Its scene-graph group is modelled as the set of meshes attached to it.
- **Printing** (`printer.dfy`). This covers the progress state machine of the printer, `createPieceGeometry`'s dispatch on the builder's type tag, and the `inProgress` guard. Each timer callback is an explicit `FireTimer` call.
- **Forklifts** (`forklift.dfy`). This covers the speed, turn and lift setters, the clamped lift movement, and the hand-off of the piece to or from the nearest eligible slot.
- **Shelving** (`shelves.dfy`). This covers the slot grid of the shelf unit in column-major order, plus its posts and boards.
- **App** (`app.dfy`). `availableSlots` is the slot list the hand-off key feeds to the forklift.

Design choices:

- Curve samples are an input sequence.
- The rotation about the vertical axis (`applyAxisAngle`) and vector normalisation are function parameters with no interpretation.
- Distances between slots are inputs.
- IEEE doubles are `real`s. Texture coordinates are exact fractions `num / den`, kept unevaluated.
- Resolution, percentages and counts are naturals.

One detail of the source that the model keeps:

- The revolution's v coordinate is `j / (pointCount - 1)` over the kept points (js/geometries.js:34). So v reaches 1 only when the whole profile is kept.

## Model

| member | source | states |
|---|---|---|
| Geometry.StepCount | js/geometries.js:59 | the layer count is the ceiling of resolution · percentage / 100: at least the exact quotient, less than it plus one; all layers at 100 %, never more than all at ≤ 100 %, at least one for positive inputs, none for a zero count |
| Geometry.StepCountMonotone | js/geometries.js:59 | a larger percentage never builds fewer layers |
| Geometry.ExtrusionSweep | js/geometries.js:55-56 | with a positive resolution, resolution steps of `stepSize` rise to `height` and resolution twists of `angleStep` turn by the angle in radians |
| Geometry.MultipleIsProduct | js/geometries.js:71 | n steps of size x laid end to end reach n · x, the `(step + 1) * stepSize` of the source |
| Geometry.TopRingAt | js/geometries.js:71 | point j of layer step's top ring is base point j lifted to (step+1) · stepSize and turned about y by (step+1) · angleStep |
| Geometry.SweepReachesTop | js/geometries.js:53-71 | the last full layer's top ring stands at the full height, turned by the full angle |
| Geometry.FirstLayerOnBase | js/geometries.js:66 | the bottom corners of the first layer's quads are the base points at y = 0 (the curve's y becomes z) |
| Geometry.LayersShareRings | js/geometries.js:71-105 | quad i of layer s+1 sits exactly one layer's worth of quads after quad i of layer s, and its bottom corners are that quad's top corners (`bottom = top`) |
| Geometry.QuadsLength | js/geometries.js:70-73 | a sweep of `steps` layers has steps · (pointCount − 1) quads |
| Geometry.QuadNumberIsProduct | js/geometries.js:70-73 | quad i of layer s is number s · (pointCount − 1) + i |
| Geometry.QuadsAt | js/geometries.js:70-106 | the quad list holds quad i of layer s at number s · (pointCount − 1) + i, layer-major |
| Geometry.QuadCorners | js/geometries.js:75-78 | a quad's corners LD, RD, LU, RU are bottom[i], bottom[i+1], top[i], top[i+1] |
| Geometry.QuadUvsOf | js/geometries.js:81-91 | a quad's uv pairs are (i/(pointCount−1), step/resolution), ((i+1)/…, step/…), (i/…, (step+1)/…), ((i+1)/…, (step+1)/…) |
| Geometry.QuadWinding | js/geometries.js:99-102 | quad k's six indices are 4k plus the fixed winding 0, 1, 2, 2, 1, 3 |
| Geometry.IndexBufferWinding | js/geometries.js:94-102 | entry 6k + t of the index buffer is 4k + WINDING[t]: every quad's triangles use the same winding over its own four vertices |
| Geometry.PositionBufferLength | js/geometries.js:75-78 | the position buffer has 12 numbers per quad |
| Geometry.UvBufferLength | js/geometries.js:88-91 | the uv buffer has 8 numbers per quad |
| Geometry.IndexBufferBound | js/geometries.js:94-102 | the index buffer has 6 entries per quad, each naming one of the 4 · quads emitted vertices |
| Geometry.PositionBufferAt | js/geometries.js:75-78 | numbers 12k .. 12k+11 of the position buffer are quad k's corners |
| Geometry.UvBufferAt | js/geometries.js:88-91 | numbers 8k .. 8k+7 of the uv buffer are quad k's uv pairs |
| Geometry.IndexBufferAt | js/geometries.js:94-102 | entries 6k .. 6k+5 of the index buffer are exactly 4k, 4k+1, 4k+2, 4k+2, 4k+1, 4k+3 |
| Geometry.VerticesOfQuad | js/geometries.js:73-78 | vertices 4q .. 4q+3 of the position buffer are quad q's LD, RD, LU, RU |
| Geometry.UvBufferEvery | js/geometries.js:88-91 | if every quad's uvs lie in [0, 1], so does every number of the uv buffer |
| Geometry.QuadsInUnitRange | js/geometries.js:81-91 | up to the full height, every quad's u and v are well-defined ratios in [0, 1] |
| Geometry.UvInUnitRange | js/geometries.js:81-91 | up to the full height, every uv number of the sweep lies in [0, 1] |
| Geometry.ExtrusionUvInUnitRange | js/geometries.js:53-91 | with a percentage at most 100, every uv number of the extrusion lies in [0, 1] |
| Geometry.PushPositions | js/geometries.js:75-78 | pushing quad i's four corners onto a quad run's position buffer gives the buffer of the run followed by that quad |
| Geometry.PushUvs | js/geometries.js:88-91 | pushing quad i's four uv pairs gives the uv buffer of the run followed by that quad |
| Geometry.PushIndices | js/geometries.js:94-102 | pushing the two triangles of vertex `idx = 4k` gives the index buffer of k + 1 quads |
| Geometry.PushQuad | js/geometries.js:74-102 | one inner pass turns the buffers of the quads before quad i into the buffers of the quads up to and including it |
| Geometry.EmitLayer | js/geometries.js:71-103 | the inner loop appends exactly the quads of layer `step` to all three buffers and advances `idx` by 4 per quad |
| Geometry.CreateExtrusion | js/geometries.js:53-137 | the position, uv and index buffers are those of the quads of `StepCount` layers, and the normal buffer is that of their face normals; the buffers have 12, 8, 6 and 12 numbers per quad; every index is below position.length / 3 |
| Geometry.ComputeNormals | js/geometries.js:113-127 | the normal pass writes each quad's face normal four times and only that, covering the position buffer's length |
| Geometry.NormalBufferLength | js/geometries.js:123-126 | the normal buffer has 12 numbers per face normal |
| Geometry.NormalBufferAt | js/geometries.js:123-126 | numbers 12k .. 12k+11 of the normal buffer are face normal k, four times |
| Geometry.FaceNormalsAt | js/geometries.js:114-121 | face normal t is normalize((C − B) × (A − B)) over vertices 4t, 4t+1, 4t+2 of the position buffer |
| Geometry.NormalLayout | js/geometries.js:113-127 | vertices 4t .. 4t+3 of the normal buffer, the offsets of quad t's vertices, all get that quad's face normal |
| Geometry.CreateRevolution | js/geometries.js:21-42 | the lathe profile is the first ceil(pointCount · percentage / 100) points (cut to the profile), the lathe has pointCount segments, and the uv buffer is the row-by-row revolution uv table |
| Geometry.LatheProfile | js/geometries.js:25-27 | the lathe profile is a prefix of the samples, exactly `StepCount` long at ≤ 100 %, and all of them at 100 % |
| Geometry.RevolutionRowAt | js/geometries.js:33-34 | entry pair j of row i is (i / segments, j / den) |
| Geometry.RevolutionUvAt | js/geometries.js:32-36 | the pair of row i, column j sits at 2 · (columns · i + j) and is (i / segments, j / den), i outer, j inner |
| Geometry.RevolutionUvLength | js/geometries.js:32-36 | the revolution uv buffer has 2 · (pointCount + 1) · stepCount numbers |
| Slots.PieceSlot.constructor | tp1/js/pieceSlot.js:4-7 | a new slot holds no piece and its group has no children |
| Slots.PieceSlot.SetPiece | tp1/js/pieceSlot.js:9-15 | afterwards the slot holds `p`; the previous piece is detached before `p` is attached, so a consistent slot stays consistent |
| Slots.PieceSlot.RemovePiece | tp1/js/pieceSlot.js:17-22 | afterwards the slot is empty and its piece detached; an empty slot is left exactly as it was |
| Slots.PieceSlot.HasPiece | tp1/js/pieceSlot.js:24-26 | true exactly when a piece is held, and then exactly when the group has a child |
| Printing.CreatePieceGeometry | js/printer.js:103-113 | succeeds exactly for the two tags; "excrution" calls the extrusion builder with height, width, resolution, angle, percentage and sample count, "revolution" the lathe with height, width, resolution and percentage; any other tag fails with the message 'Unsupported geomBuilder type: ' + tag |
| Printing.NextProgressStep | js/printer.js:89-100 | from a multiple of 5 below 100 the next progress is p + 5, or 0 exactly when p + 5 reaches 100; it stays a multiple of 5 below 100 |
| Printing.PercentagesStep | js/printer.js:89-100 | the first remaining step builds at p + 5, and the steps after it are those of the next progress |
| Printing.PercentagesOfJob | js/printer.js:88-101 | from progress p a job takes (100 − p) / 5 more steps, the k-th building at p + 5 (k + 1) |
| Printing.JobFromRest | js/printer.js:88-101 | a job started at rest runs exactly 20 steps, at 5, 10, …, 100 % |
| Printing.Printer.constructor | js/printer.js:18-24 | a new printer has progress 0, nothing scheduled and an empty slot |
| Printing.Printer.InProgress | js/printer.js:115-117 | true exactly when progress is not 0, which it always is while a callback is pending |
| Printing.Printer.RenderPiece | js/printer.js:80-86 | while a job runs nothing changes; otherwise the first step runs with the sample count defaulting to 50, raising progress to 5 and either replacing the slot's piece with the 5 % geometry and scheduling the rest, or failing on an unknown tag; only the slot's piece and attached meshes change, never its position |
| Printing.Printer.RenderPieceStep | js/printer.js:88-101 | progress rises by 5 and the geometry is built at the new percentage; on success the slot's piece is replaced and progress returns to 0 at 100 (finished) or the job is rescheduled; a failure leaves progress raised and nothing scheduled; progress stays a multiple of 5 in [0, 95]; the slot's position never changes |
| Printing.Printer.FireTimer | js/printer.js:99 | the pending step runs with its saved arguments: the slot holds the piece built by the job's own builder call, with every saved argument, at the next percentage, and progress and scheduling move on as in a step; the slot's position never changes |
| Forklifts.NextLift | js/forklift.js:220-232 | no move when stopped, at the bottom going down or at the top going up; otherwise the plate moves by the lift speed, clamped to [LIFT_MIN, height]; a plate in range stays in range |
| Forklifts.LiftStaysInRange | js/forklift.js:220-232 | however many frames pass at a fixed lift speed, a plate in [LIFT_MIN, height] stays there |
| Forklifts.NearestIn | js/forklift.js:138-147 | None exactly when no slot is eligible; otherwise an eligible slot at minimal distance, with every earlier eligible slot strictly farther |
| Forklifts.ChooseSlot | js/forklift.js:138-147 | the search loop finds the first eligible slot of strictly minimal distance |
| Forklifts.Eligible | js/forklift.js:141 | a slot is eligible exactly when its fullness differs from the plate's |
| Forklifts.Forklift.constructor | js/forklift.js:15-22 | a new forklift is still, with its lift plate at LIFT_MIN and its plate slot empty |
| Forklifts.Forklift.StartForward | js/forklift.js:162-164 | speed becomes 2 and nothing else changes |
| Forklifts.Forklift.StartBackwards | js/forklift.js:166-168 | speed becomes −2 and nothing else changes |
| Forklifts.Forklift.Stop | js/forklift.js:170-172 | speed becomes 0 and nothing else changes |
| Forklifts.Forklift.RotateRight | js/forklift.js:188-190 | the turn speed becomes −0.02 and nothing else changes |
| Forklifts.Forklift.RotateLeft | js/forklift.js:192-194 | the turn speed becomes 0.02 and nothing else changes |
| Forklifts.Forklift.StopRot | js/forklift.js:196-198 | the turn speed becomes 0 and nothing else changes |
| Forklifts.Forklift.StartLiftUp | js/forklift.js:208-210 | the lift speed becomes 1 and nothing else changes |
| Forklifts.Forklift.StartLiftDown | js/forklift.js:212-214 | the lift speed becomes −1 and nothing else changes |
| Forklifts.Forklift.StopLift | js/forklift.js:216-218 | the lift speed becomes 0 and nothing else changes |
| Forklifts.Forklift.MoveLift | js/forklift.js:220-232 | one frame moves the plate as `NextLift` says and keeps it in [LIFT_MIN, height] |
| Forklifts.Forklift.HandlePiece | js/forklift.js:135-160 | the chosen slot is the nearest of those with the other fullness; beyond 50, or with no candidate, nothing changes; otherwise the piece moves between the plate and that slot, which is never the plate itself, and every other slot is untouched; only pieces and attached meshes change, never a slot's position |
| App.AvailableSlots | js/main.js:139-145 | the shelf slots, followed by the printer's slot exactly when the printer is idle |
| App.HandOff | js/main.js:125 | the hand-off key picks the nearest eligible available slot; beyond reach nothing changes, otherwise the piece moves between the plate and that slot, consistency is kept and no other slot changes; only pieces and attached meshes change, never a slot's position; the printer's slot is untouched while it prints |
| Shelving.SlotIndexIsProduct | js/shelves.js:15-22 | the slot of column i, row j is pushed as number i · height + j |
| Shelving.SlotIndexBijective | js/shelves.js:15-22 | within the grid, distinct (column, row) pairs get distinct list indices, all below width · height |
| Shelving.GridPositionAt | js/shelves.js:15-23 | the list has width · height slots, and the one at i · height + j sits at x = 20 i + 10, y = 20 + 40 j |
| Shelving.PostsLength | js/shelves.js:31-43 | there are two posts per column boundary |
| Shelving.PostsAt | js/shelves.js:28-43 | the posts at boundary i are at x = 20 i, z = +10 then −10, y = half of the post height 20 + 40 · height |
| Shelving.BoardsLength | js/shelves.js:45-50 | there is one board per row boundary |
| Shelving.BoardsAt | js/shelves.js:45-50 | board j is at x = 10 · width, y = 20 + 40 j |
| Shelving.ColumnPositions | js/shelves.js:16-19 | column i's slots, bottom to top, are at x = 20 i + 10, y = 20 + 40 j |
| Shelving.Shelves.BuildColumn | js/shelves.js:16-22 | the inner loop creates `height` distinct new empty slots at their column positions |
| Shelving.Shelves.BuildSlots | js/shelves.js:15-23 | the slot loops create width · height distinct new empty slots whose positions are the grid, column after column |
| Shelving.Shelves.BuildPosts | js/shelves.js:31-43 | the post loop places a front and a back post at each of the width + 1 column boundaries |
| Shelving.Shelves.BuildBoards | js/shelves.js:45-50 | the board loop places a board at each of the height + 1 row boundaries |
| Shelving.Shelves.constructor | js/shelves.js:11-50 | a new unit has width · height distinct empty slots in column-major grid order, 2 (width + 1) posts and height + 1 boards |

## Left out

- Curves and their sampling (`createA1Curve` … `createB4Curve`, `getSpacedPoints`): library path objects evaluated with trigonometry. The base points of the extrusion stand for the curveSampleCount + 1 points of `getSpacedPoints(curveSampleCount)` (js/geometries.js:57), and the revolution profile for those of `getSpacedPoints(resolution)` (js/geometries.js:24).
- `THREE.LatheGeometry`: a library routine. The model keeps the profile and segment count passed to it and the uv buffer it is given.
- `applyAxisAngle`, `normalize`: floating-point trigonometry and square roots. They are uninterpreted function parameters. Subtraction and the cross product are exact real arithmetic.
- Floating point: doubles are reals, and uv quotients are unevaluated fractions. A zero denominator, which the host turns into NaN or infinity, is kept as a fraction with denominator 0.
- `Float32Array`, `BufferAttribute` and `BufferGeometry` packaging, and mesh construction in every file. A piece is modelled as the build call of its geometry plus its material.
- ComputeNormals: the source writes each normal into `normal` at an offset with `toArray`. The model appends, which gives the same buffer because the writes happen in order.
- `setTimeout` scheduling: each callback is an explicit `FireTimer` call. The 50 ms interval and concurrency with other events are not modelled.
- The printer head's height formula and every other scene placement: float layout only.
- Forklift `move`, `rotate` and `update`: scene-graph transforms and wheel spin. `createMesh`, `createLift` and `createWheels` are not modelled either.
- `PieceSlot.getPosition` and `PieceSlot.distance`: world-position vector maths. The distances are inputs to `HandlePiece`.
- Reparenting on mesh `add`: adding an attached mesh to another group detaches it from the old one. The end state of a hand-off is the same with or without it.
- The shelf unit's world transform (`position.copy`, `rotateY(π/2)`): positions are in the unit's own frame.
- The scene, cameras, GUI, key-binding wiring other than the hand-off key, lights, textures and the warehouse.
- Forklift.constructor: the plate's starting height LIFT_MIN is set in `createLift`. `Valid` is promised only for a lift at least LIFT_MIN tall, since the source accepts any height.
- StepCount, SweepReachesTop, UvInUnitRange, ExtrusionUvInUnitRange, CreateExtrusion: the resolution is a natural, so the model covers whole-number resolutions only. The GUI starts it at 100 (js/main.js:37) and sets it from a 20..60 slider with no step (js/main.js:155), so it can be fractional, such as 41.5. The source then builds `ceil(resolution · percentage / 100)` layers: 42 at 100 % (js/geometries.js:59). The last top ring overshoots the height, at 42 · height / 41.5 (line 71), and the top v is 42 / 41.5 > 1 (lines 84-91). None of that is modelled.
- RenderPieceStep: an unknown builder tag leaves progress at 5 with nothing scheduled. No later job can start, which is the source's behaviour.
