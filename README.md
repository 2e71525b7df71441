# Terrain mesh of the TopoSight demo, in Dafny

The TopoSight site has one interactive piece: a 3D terrain mesh that moves
between a "present" and a "future" height field. The mesh keeps its vertices
in a flat position buffer of `[x, y, z]` triples, stride 3, so slot `i` holds x,
y or the height z as `i % 3` is 0, 1 or 2. The `TerrainMesh` component does four
things with that buffer:

1. **Base field** (`Relief`). Overwrites the z slot of every vertex with a sum
   of three sine-cosine layers of that vertex's own x and y. The amplitudes
   are 1.5, 0.5 and 0.2.
2. **Future field** (`Erosion`). Builds a new buffer of the same length. It
   copies x and y and lowers each height by a band rule with one random draw
   per vertex:
   - below 0.3: −0.5 − 0.3r
   - below 1.0: −0.2 − 0.2r
   - otherwise: −0.4 − 0.3r
   
   A further −0.3 applies to vertices farther than 3.5 from the centre and
   lower than 0.5.
3. **Frame step** (`Smoothing`, `Terrain.TerrainMesh.Step`). Every frame
   moves each height of the rendered mesh 5% of the way toward the target
   buffer. The target is the future buffer in future mode and the base buffer
   otherwise.
4. **Colours** (`Palette`). Writes one of four RGB triples per vertex into a
   colour buffer at the vertex's own three slots. The bands are water (< 0),
   coastal (< 0.5), land (< 1.0) and highlands.

`Terrain.TerrainMesh` puts these together. Its constructor is the component
mounting. It raises the base field in the plane geometry's buffer, derives
the future buffer and paints the colours, each exactly once. `Attach` is
the mesh ref being set. `Step` is one call of the frame callback.

The files:

- `layout.dfy`: slot arithmetic of the stride-3 buffer.
- `scaling.dfy`: facts about multiplying reals by a positive factor.
- `relief.dfy`, `erosion.dfy`, `smoothing.dfy`, `palette.dfy`: the four
  stages.
- `terrain.dfy`: the component.

What is proved, beyond each loop meeting its specification function:

- Base heights:
  - They stay within [−2.2, 2.2] when sine and cosine stay within [−1, 1].
  - Each depends only on its own vertex's x and y.
  - The pass is idempotent.
- Future heights:
  - They lie strictly below the base heights, by at least 0.2 and less
    than 1.1.
  - The change falls in the band given in the source.
  - The coastal drop applies exactly to far, low vertices. It never applies
    at 0.5 or above.
- Frame step:
  - A step keeps each height between its old value and the target.
  - A step shrinks the gap to the target to exactly 95% of what it was.
  - It leaves a height already at the target alone.
  - It leaves x and y slots and the length unchanged.
- Over repeated frames toward a fixed target:
  - The gap after n frames is 0.95^n times the starting gap.
  - Each frame strictly narrows a nonzero gap, and the gap never closes.
  - The height comes within any ε > 0 of the target.
- Colours:
  - The four bands are disjoint and cover every height. 0.0 is coastal,
    0.5 is land and 1.0 is highlands.
  - Every vertex's three colour slots decode to exactly the colour of its
    band.

## Model

| member | source | states |
|---|---|---|
| `Relief.Height` | src/components/TerrainVisualization.tsx:24-28 | the noise height of a vertex is the sum of three sine–cosine layers of its x and y with amplitudes 1.5, 0.5 and 0.2; its bound is `HeightBounded` |
| `Relief.HeightBounded` | src/components/TerrainVisualization.tsx:24-28 | with sine and cosine in [−1, 1], the summed noise height lies in [−2.2, 2.2] |
| `Relief.Raise` | src/components/TerrainVisualization.tsx:19-29 | the base-field pass keeps the buffer length and leaves every x and y slot as it was |
| `Relief.RaiseIsLocal` | src/components/TerrainVisualization.tsx:20-28 | a raised height depends only on its own vertex's x and y, not on its old height, other vertices or its position in the buffer |
| `Relief.RaiseIdempotent` | src/components/TerrainVisualization.tsx:19-29 | running the base-field pass again over its own output changes nothing |
| `Relief.RaiseInPlace` | src/components/TerrainVisualization.tsx:19-29 | the in-place loop leaves the buffer equal to `Raise` of its old contents |
| `Erosion.Change` | src/components/TerrainVisualization.tsx:46-59 | for a draw in [0, 1) the change is in (−0.8, −0.5] below 0.3, in (−0.4, −0.2] from 0.3 below 1.0, and in (−0.7, −0.4] from 1.0 |
| `Erosion.Coastal` | src/components/TerrainVisualization.tsx:62-63 | a vertex is coastal when it is farther than 3.5 from the centre (as a squared test, see `DistanceTest`) and below 0.5 |
| `Erosion.DistanceTest` | src/components/TerrainVisualization.tsx:62-63 | for the square root d of x² + y², d > 3.5 holds exactly when x² + y² > 12.25, so the model's squared test is the source's test |
| `Erosion.FutureHeight` | src/components/TerrainVisualization.tsx:41-69 | the future height is below the band change exactly when the vertex is coastal (far and below 0.5), differs from it by 0 or −0.3 only, equals it from 0.5 up, and lies in (h − 1.1, h − 0.2] |
| `Erosion.FutureSlot` | src/components/TerrainVisualization.tsx:67-69 | one slot of the future buffer: x and y slots are copied, and a z slot holding h becomes a height in (h − 1.1, h − 0.2] |
| `Erosion.Erode` | src/components/TerrainVisualization.tsx:38-70 | the future buffer has the position buffer's length and its x and y slots, and every future height is at least 0.2 and less than 1.1 below its base height |
| `Erosion.DeriveFuture` | src/components/TerrainVisualization.tsx:36-73 | the loop fills a new buffer equal to `Erode` of the positions, reading the position buffer and never writing it |
| `Smoothing.Approach` | src/components/TerrainVisualization.tsx:85 | one frame keeps a height between itself and its target, scales its gap to the target by exactly 0.95, and leaves it unchanged exactly when it is at the target |
| `Smoothing.StepToward` | src/components/TerrainVisualization.tsx:84-86 | a frame keeps the buffer length and every x and y slot |
| `Smoothing.StepAtTarget` | src/components/TerrainVisualization.tsx:84-86 | a buffer whose heights equal the target's is unchanged by a frame |
| `Smoothing.Frames` | src/components/TerrainVisualization.tsx:75-86 | any number of frames keeps the buffer length and every x and y slot |
| `Smoothing.FramesThenStep` | src/components/TerrainVisualization.tsx:75-86 | one more step after n frames is n + 1 frames |
| `Smoothing.FramesAt` | src/components/TerrainVisualization.tsx:84-86 | after n frames each z slot holds its own height settled n times toward its own target, independent of other slots |
| `Smoothing.SettleGap` | src/components/TerrainVisualization.tsx:85 | after n frames toward a fixed target the gap is 0.95^n times the starting gap |
| `Smoothing.SettleApproachesStrictly` | src/components/TerrainVisualization.tsx:85 | a nonzero gap shrinks strictly with every frame and never reaches zero |
| `Smoothing.SettleConverges` | src/components/TerrainVisualization.tsx:85 | for every ε > 0 some number of frames brings the height within ε of its target |
| `Palette.Classify` | src/components/TerrainVisualization.tsx:102-124 | water exactly below 0, coastal exactly in [0, 0.5), land exactly in [0.5, 1.0), highlands exactly from 1.0; so the bands are disjoint and cover all heights |
| `Palette.ColourOf` | src/components/TerrainVisualization.tsx:101-124 | each band's triple decodes back to that band, so the four triples are distinct |
| `Palette.Paint` | src/components/TerrainVisualization.tsx:95-125 | the colour buffer has the position buffer's length |
| `Palette.PaintDecodes` | src/components/TerrainVisualization.tsx:97-124 | every vertex's three colour slots hold one of the four triples, namely the one of the band of that vertex's height |
| `Palette.PaintVertices` | src/components/TerrainVisualization.tsx:93-128 | the loop fills a new buffer equal to `Paint` of the positions, reading the position buffer and never writing it |
| `Palette.Boundaries` | src/components/TerrainVisualization.tsx:102-114 | 0.0 is coastal, 0.5 is land and 1.0 is highlands, since the comparisons are strict |
| `Terrain.TerrainMesh.constructor` | src/components/TerrainVisualization.tsx:14-128 | mounting raises the base field in place in the geometry's buffer, then builds the future buffer and the colour buffer from the base heights, once each, with no mesh attached yet |
| `Terrain.TerrainMesh.Attach` | src/components/TerrainVisualization.tsx:130-138 | attaching the mesh gives it a position buffer holding the base positions |
| `Terrain.TerrainMesh.Target` | src/components/TerrainVisualization.tsx:81 | the future buffer if `showFuture`, the base buffer otherwise; in a valid mesh it has the base buffer's length, which the rendered buffer shares, and is never the rendered buffer itself |
| `Terrain.TerrainMesh.Step` | src/components/TerrainVisualization.tsx:75-90 | with no mesh nothing changes; otherwise the rendered buffer becomes `StepToward` of itself toward the future buffer if `showFuture` and toward the base buffer if not, and the base, future and colour buffers are unchanged |

## Left out

- Sine and cosine are parameters (`Relief.Trig`). Dafny cannot evaluate
  them. Only their range [−1, 1] is used, and only by `HeightBounded`.
- `Math.random()` is replaced by a sequence of draws, one per vertex in loop
  order, each in [0, 1). Randomness itself is not modelled.
- `Math.sqrt` is replaced by comparing x² + y² with 12.25.
  `Erosion.DistanceTest` shows the two tests agree.
- Heights are reals, not Float32 values. The exact 0.95 contraction, the
  strict decrease of the gap and the claim that a target is never reached
  hold over the reals. Float32 rounding can stall or land the step.
- three.js and react-three-fiber:
  - The vertex layout of `PlaneGeometry` is not modelled. The constructor
    takes any position buffer whose length is a multiple of 3, as the
    geometry's always is.
  - `computeVertexNormals`, `needsUpdate`, the canvas, camera, lights, fog,
    grid helper and orbit controls are not modelled.
- React hooks:
  - Each `useMemo` is one step of the constructor.
  - The `useFrame` callback is `Step`. How often it is called is up to the
    host.
  - `showFuture` is a parameter of `Step`.
- Terrain.TerrainMesh.Attach: gives the rendered mesh its own copy of the
  base positions, because whether the rendered attribute shares the
  geometry's array is library behaviour. Line 136 passes that same array.
  - If the library does not copy it, the frame step moves the base buffer
    itself.
  - Stepping toward the base is then stepping toward itself. By
    `StepAtTarget` that changes nothing, so present mode would not restore
    heights already moved toward the future.
- Palette.Paint: colours are painted once, from the base heights, when the
  component mounts. That is what the code does: the colour memo depends
  only on the geometry (line 128), so the colours are not recomputed as the
  heights animate.
- The page sections, navigation, contact form and other components are
  static layout. They hold no logic and are not part of this model.
