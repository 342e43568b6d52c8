# Bunny mark: a Dafny model of the simulation, atlas layout and sprite shader

The bunny mark animates a large, fixed population of sprites ("bunnies")
under simple physics and draws them as instanced textured quads from a
shared sprite atlas. This project models its computational core and proves
what that core promises:

- `constants.dfy` (module `Constants`) covers the configuration of
  `src/constants.ts`. It includes the `bunny-count` URL parameter with
  JavaScript's `parseInt` and the clamp to [1000, 2000000], the count
  presets, the 4 x 3 sprite grid, the walls, the sprite scale and the frame
  time.
- `physics.dfy` (module `Physics`) covers the simulation engine of
  `src/physics.ts`:
  - The xorshift32 generator `fastRandom` is a class `FastRandom`. Its seed
    is a `bv32` field that `Next` updates.
  - `createPhysicsState` and `createStaticData` are methods that fill arrays
    of reals.
  - `updatePhysics` is a method that steps every body in place in the
    `physics` array and mirrors its position into the `positions` array.
    It is proved equal to a functional specification, `Advance`, which is
    built from the one-body step `StepBody`. The physical properties are
    proved as lemmas about `StepBody` and `Advance`: walls, bounces,
    jitter, generator draws, the zero step and per-body independence.
- `spritesheet.dfy` (module `Spritesheet`) covers `src/spritesheet.ts`:
  - `calculateLayout` is a loop over the image map.
  - The frame loop of `createSpritesheet` numbers the present images and
    places each one centred in its grid cell.
  - `getFrame` is a map lookup.
- `renderer.dfy` (module `Renderer`) covers `mainVertex` of
  `src/renderer.ts`: the quad table, the world position and the atlas UV.
  It also covers the layouts of the two storage buffers and the instanced
  `draw(6, SPRITE_COUNT)`.
- `wrappers.dfy` (module `Wrappers`) holds `Option`.

Numbers (JavaScript doubles, `Float32Array` entries, WGSL `f32`) are exact
reals. The only machine-integer behaviour that matters, the int32/uint32 bit
pattern of the xorshift seed, is modelled as `bv32`. `Math.random` draws
become a sequence parameter of values in [0, 1). The population size
`SPRITE_COUNT` becomes a parameter `count`, and `CountFromURL` shows which
values it can take.

Three details of the code shape the model:

- The floor-bounce impulse is `(r1 * 0.006 + 0.003) * (r2 > 0.5 ? 1 : 0)`, so
  it is either 0 or in [0.003, 0.009] (`Physics.Jitter`,
  `Physics.FloorBounce`).
- Gravity is added to vy before the wall comparisons, so a bounce negates
  the post-gravity velocity, at the ceiling as well as at the floor.
- The renderer has a single position buffer, with no ring of buffers, no
  device-loss state and no aspect-ratio uniform.

## Model

| member | source | states |
|---|---|---|
| Constants.ClampCount | src/constants.ts:10 | the result lies in [1000, 2000000]; it is the parsed value when that is in range, 1000 below the range and 2000000 above it |
| Constants.ClampCountIdempotent | src/constants.ts:10 | clamping a clamped count changes nothing |
| Constants.CountFromURL | src/constants.ts:3-11 | always in [1000, 2000000]; the default 100000 for a missing or empty parameter and for one parseInt rejects (NaN); otherwise the clamp of the parsed integer |
| Constants.CountFromURLDecimal | src/constants.ts:3-11 | the decimal rendering of any count in range is read back as exactly that count |
| Constants.DigitValue | src/constants.ts:7 | a decimal digit's value is below 10 |
| Constants.DigitPrefix | src/constants.ts:7 | parseInt's digit run is the longest prefix of digits: all digits, and followed by a non-digit or the end |
| Constants.TrimStart | src/constants.ts:7 | parseInt's leading-whitespace skip drops a prefix made only of whitespace and leaves a suffix of the input that starts with no whitespace |
| Constants.DecimalString | src/ui.ts:16 | the template literal's rendering of a count is a non-empty digit string that starts with '0' only when the count is 0 |
| Constants.DecimalStringValue | src/ui.ts:16 | the digits of that rendering have the rendered value |
| Constants.ParseInt | src/constants.ts:7 | `parseInt(count, 10)`: skip leading whitespace, take an optional sign, then the longest run of decimal digits; None (NaN) when that run is empty. No contract of its own; its properties are TrimStart, DigitPrefix, ParseIntOfDigits and ParseIntDecimal |
| Constants.DigitPrefixOfDigits | src/constants.ts:7 | on a digit string the digit run is the whole string |
| Constants.ParseIntOfDigits | src/constants.ts:7 | parseInt of a non-empty digit string is its decimal value |
| Constants.ParseIntDecimal | src/constants.ts:7 | round trip: parseInt reads back the decimal rendering of every natural number |
| Constants.PresetsInRange | src/constants.ts:15-24 | every preset lies in the clamp range and the presets are strictly increasing |
| Constants.PresetLinksRoundTrip | src/ui.ts:16 | the count read from a preset's `?bunny-count=` link is that preset's value |
| Constants.SpriteConstantsAgree | src/constants.ts:26-59 | SPRITE_TYPES = SPRITE_COLUMNS * SPRITE_ROWS = the number of bunny names, and the names are pairwise distinct |
| Constants.BoundsNonEmpty | src/constants.ts:32-41 | the walls a sprite's corner moves between, [-1, 1 - SCALE_X] by [-1, 1 - SCALE_Y], are non-empty intervals |
| Physics.XorShift | src/physics.ts:21-23 | one xorshift32 step on the 32-bit seed: `^= << 13`, `^= >>> 17`, `^= << 5`. No contract of its own; its properties are the four XorShift…NonZero lemmas and FastRandom.Next |
| Physics.XorShift13NonZero | src/physics.ts:21 | the first xorshift stage maps a non-zero seed to a non-zero one |
| Physics.XorShift17NonZero | src/physics.ts:22 | so does the second (unsigned shift right by 17) |
| Physics.XorShift5NonZero | src/physics.ts:23 | so does the third |
| Physics.XorShiftNonZero | src/physics.ts:20-23 | a non-zero seed never becomes 0, so the generator never gets stuck at 0 |
| Physics.UnitOf | src/physics.ts:24 | the value drawn, seed as unsigned / 0xffffffff, lies in [0, 1] |
| Physics.UnitOfEnds | src/physics.ts:24 | the draw is 0 exactly for seed 0 and 1 exactly for seed 0xffffffff |
| Physics.FastRandom.constructor | src/physics.ts:18 | the generator starts from seed 0xdeadbeef |
| Physics.FastRandom.Next | src/physics.ts:20-25 | a draw advances the seed by one xorshift step and returns the new seed's unit value |
| Physics.Rand | src/physics.ts:27 | `min + u * (max - min)` for a draw u. No contract of its own; the ranges of the values drawn with it are stated at InitialBody and SpriteIndex |
| Physics.InitialBody | src/physics.ts:35-38 | a created body has x, y in [-0.95, 0.95), vx in [-0.015, 0.015), vy in [-0.01, 0.01), and is inside the walls |
| Physics.InitialBuffer | src/physics.ts:30-39 | the initial physics buffer of n bodies holds 4n floats |
| Physics.CreatePhysicsState | src/physics.ts:29-46 | two fresh, distinct buffers of 4 * count and 2 * count floats; body i is built from draws 4i .. 4i + 3; positions mirror x and y of every body |
| Physics.CreateBody | src/physics.ts:34-42 | one iteration of the creation loop extends the filled prefix and its mirror by body i |
| Physics.InitialBufferAt | src/physics.ts:33-38 | body j of the initial buffer is the body built from draws 4j .. 4j + 3 |
| Physics.InitialInBounds | src/physics.ts:35-36 | every created body starts inside the walls |
| Physics.StoreBody | src/physics.ts:101-108 | writing body i changes exactly its four physics entries and its two position entries |
| Physics.StorePrefix | src/physics.ts:101-104 | helper: after writing body i the first i + 1 bodies are the old first i and body i |
| Physics.SpriteIndex | src/physics.ts:52 | floor(rand(0, 12)) is a sprite index below 12, the floor of u * 12 |
| Physics.StaticRecord | src/physics.ts:53-60 | the static record of sprite k is (SCALE_X, SCALE_Y, col / 4, row / 3) with col = k % 4, row = k / 4, so its UV offset is on the 4 x 3 grid |
| Physics.CreateStaticData | src/physics.ts:48-64 | a fresh buffer of 4 * count floats whose record i is the static record of the sprite drawn for body i |
| Physics.Jitter | src/physics.ts:95 | the floor impulse is 0 or in [0.003, 0.009], and non-zero exactly when the second draw exceeds 0.5 |
| Physics.StepLength | src/physics.ts:68 | the step length dt satisfies dt * (1000 / 60) = deltaTime, so it is deltaTime in units of the 60 Hz frame; it is 0 exactly when deltaTime is 0 |
| Physics.FallVelocity | src/physics.ts:79 | vy plus gravity * dt. No contract of its own; used by FloorBounce, CeilingBounce and FreeFlight |
| Physics.DriftX | src/physics.ts:81 | x integrated with vx over dt. No contract of its own; used by SideWalls |
| Physics.FallY | src/physics.ts:82 | y integrated with the post-gravity vy over dt. No contract of its own; used by FloorBounce, CeilingBounce and FreeFlight |
| Physics.HitsFloor | src/physics.ts:92 | the step takes the body below the floor. No contract of its own; used by FloorBounce, StepSeed and FloorHits |
| Physics.StepX | src/physics.ts:84-90 | the x half of a body's step. No contract of its own; its properties are SideWalls and StepInBounds |
| Physics.StepBody | src/physics.ts:76-99 | one body's step with the seed it leaves. No contract of its own; its properties are SideWalls, FloorBounce, CeilingBounce, FreeFlight, StepInBounds, StepSeed and ZeroStepBody, and MoveBody computes it |
| Physics.Advance | src/physics.ts:73-109 | a step of n bodies yields 4n floats |
| Physics.UpdatePhysics | src/physics.ts:66-110 | the physics buffer becomes its step of length deltaTime / (1000 / 60), body by body in buffer order; the seed moves on by the draws of the floor bounces; positions mirror the new buffer |
| Physics.MoveBody | src/physics.ts:76-99 | the loop body's arithmetic yields the specified one-body step and advances the generator as that step says |
| Physics.UpdateBody | src/physics.ts:74-108 | one loop iteration extends the stepped prefix, the seed and the mirror by body i |
| Physics.AdvanceNext | src/physics.ts:73-104 | writing body i's step over the half-stepped buffer gives the buffer stepped up to body i + 1 |
| Physics.MirroredStore | src/physics.ts:106-108 | writing body i's position extends the mirror by one body |
| Physics.AdvanceBodyAt | src/physics.ts:73-109 | per-body independence: body j after the step depends only on body j before it, dt and the seed left by the bodies before it |
| Physics.StepInBounds | src/physics.ts:84-99 | for any body and any step length, the stepped body is inside [-1, 1 - SCALE_X] by [-1, 1 - SCALE_Y] |
| Physics.SideWalls | src/physics.ts:84-90 | the side walls preserve abs(vx); past the right wall x is the wall and vx is negated, likewise at the left wall, otherwise x is integrated and vx kept |
| Physics.FloorBounce | src/physics.ts:92-95 | below the floor: y is the floor, vy is the post-gravity vy negated and damped by 0.85 plus 0 or 0.003 .. 0.009, and the generator advanced exactly twice |
| Physics.CeilingBounce | src/physics.ts:96-99 | above the ceiling: y is the ceiling, vy is the post-gravity vy negated without damping, and the generator is untouched |
| Physics.FreeFlight | src/physics.ts:79-99 | between floor and ceiling y and vy are the integrated values and the generator is untouched |
| Physics.ZeroStepBody | src/physics.ts:68-99 | a zero-length step leaves a body inside the walls, and the seed, unchanged |
| Physics.AdvanceInBounds | src/physics.ts:70-99 | after any step every body is inside the walls, whatever the input and dt |
| Physics.FloorHits | src/physics.ts:92-95 | at most n of n bodies hit the floor |
| Physics.StepSeed | src/physics.ts:92-95 | one body's step advances the seed twice on a floor hit and not at all otherwise |
| Physics.IterateTwice | src/physics.ts:95 | helper: two draws advance the seed by two xorshift steps |
| Physics.AdvanceSeedCount | src/physics.ts:73-109 | a whole step advances the seed exactly twice per body that hits the floor |
| Physics.IterateAdd | src/physics.ts:20-23 | helper: two more xorshift steps after k steps are k + 2 steps |
| Physics.AdvancePrefix | src/physics.ts:73-109 | the step of the first n bodies reads only their 4n floats |
| Physics.ZeroStep | src/physics.ts:68-99 | deltaTime 0 gives step length 0, and a zero step of bodies inside the walls returns buffer and seed unchanged |
| Physics.ZeroStepPrefix | src/physics.ts:73-109 | a zero step returns the in-bounds prefix it reads and the seed unchanged |
| Physics.MirrorUnique | src/physics.ts:106-108 | two position buffers that both mirror the same physics buffer are equal |
| Physics.ZeroStepNoOp | src/physics.ts:66-110 | updatePhysics with deltaTime 0 on bodies inside the walls leaves the physics buffer, the positions and the seed unchanged |
| Spritesheet.CeilSqrt | src/spritesheet.ts:34 | Math.ceil(Math.sqrt(n)) on naturals: the least c with c * c >= n |
| Spritesheet.CeilSqrtFrom | src/spritesheet.ts:34 | the search from c finds a c' >= c with c' * c' >= n that is the least such |
| Spritesheet.CeilDiv | src/spritesheet.ts:35 | Math.ceil(n / c): the least r with r * c >= n |
| Spritesheet.CalculateLayout | src/spritesheet.ts:25-38 | None exactly for no images; otherwise the cell is as wide as the widest image and as tall as the tallest (both attained), with ceil(sqrt n) columns and ceil(n / columns) rows |
| Spritesheet.GridCapacity | src/spritesheet.ts:34-35 | for n >= 1 the grid has a column, holds all n images, has no empty row, and no smaller square would hold them |
| Spritesheet.Grid12 | src/spritesheet.ts:34-35 | the 12 bunny images make a 4 x 3 grid |
| Spritesheet.CeilSqrtUnique | src/spritesheet.ts:34 | the least c with c * c >= n is unique |
| Spritesheet.SquareMonotone | src/spritesheet.ts:34 | helper: squaring is monotone on naturals |
| Spritesheet.Present | src/spritesheet.ts:57-59 | the names that have an image are at most as many as the names |
| Spritesheet.PresentMembers | src/spritesheet.ts:57-59 | a name is numbered exactly when it is in the name list and has an image |
| Spritesheet.FrameAt | src/spritesheet.ts:71-77 | frame k records number k and the whole cell's width and height |
| Spritesheet.CreateSpritesheet | src/spritesheet.ts:40-88 | None exactly for no images; otherwise the atlas is columns * cellWidth by rows * cellHeight, the present names get frames 0, 1, 2, ... in BUNNY_NAMES order, each at its cell, and each image is drawn centred in that cell |
| Spritesheet.NamesDistinct | src/constants.ts:46-59 | the bunny names are pairwise distinct |
| Spritesheet.PlaceFrames | src/spritesheet.ts:54-79 | after the loop the frame counter is the number of present names, `frames` maps exactly those names, the k-th to frame k, and the k-th draw is centred in cell k |
| Spritesheet.PlaceFrame | src/spritesheet.ts:58-78 | one iteration: a missing image is skipped without using a frame number; a present one gets the next frame and a centred draw |
| Spritesheet.VisitName | src/spritesheet.ts:58-78 | the loop state after name i follows from the state before it, with or without an image |
| Spritesheet.NotEarlier | src/constants.ts:46-59 | helper: in a list without repetitions no name occurs before its own place |
| Spritesheet.PresentSnoc | src/spritesheet.ts:57-59 | one more name adds it to the numbered names exactly when it has an image |
| Spritesheet.FramesExtend | src/spritesheet.ts:71-77 | `frames.set` of a new name adds the next frame and keeps the others |
| Spritesheet.CentreOffset | src/spritesheet.ts:66-67 | `Math.floor((cell - size) / 2)`. No contract of its own; its properties are Centring and ImageInsideCell |
| Spritesheet.PlacementAt | src/spritesheet.ts:66-69 | the `drawImage` position of frame k: its cell corner plus the centring offsets. No contract of its own; its properties are DrawsExtend, ImageInsideCell and CreateSpritesheet |
| Spritesheet.DrawsExtend | src/spritesheet.ts:66-69 | a new draw is centred in the next cell and the earlier draws stay |
| Spritesheet.GetFrame | src/spritesheet.ts:95-98 | a frame is found exactly for a name in `frames`, and it is that name's frame |
| Spritesheet.MulMono | src/spritesheet.ts:63-64 | helper: multiplying by a cell size is monotone |
| Spritesheet.MulCancel | src/spritesheet.ts:63-64 | helper: a non-zero cell size can be cancelled |
| Spritesheet.DistinctCells | src/spritesheet.ts:61-64 | different frame numbers get different (column, row) cells, and different atlas corners when the cell has an area |
| Spritesheet.CellInsideAtlas | src/spritesheet.ts:44-64 | each of the first n cells lies inside the columns * cellWidth by rows * cellHeight atlas |
| Spritesheet.SlotFits | src/spritesheet.ts:63-64 | helper: slot i of count slots ends within count slots |
| Spritesheet.RowInsideGrid | src/spritesheet.ts:62 | frame k < n falls in one of the ceil(n / columns) rows |
| Spritesheet.Centring | src/spritesheet.ts:66-67 | floor((cell - size) / 2) is non-negative, keeps the image inside the cell and splits the slack evenly within one pixel |
| Spritesheet.ImageInsideCell | src/spritesheet.ts:63-69 | an image no larger than the cell is drawn inside its frame's cell |
| Spritesheet.PresentDistinct | src/spritesheet.ts:57-59 | the numbered names are distinct |
| Spritesheet.DistinctCard | src/spritesheet.ts:71-77 | helper: a name list without repetitions has as many entries as names |
| Spritesheet.PresentCount | src/spritesheet.ts:54-79 | when every image is named once, there is one frame per image and the framed names are the image names |
| Spritesheet.FrameNumber | src/spritesheet.ts:55-78 | the frame number of a present name is the count of present names before it |
| Spritesheet.AllPresent | src/spritesheet.ts:57-59 | with every image present, the k-th frame is the k-th name |
| Spritesheet.SheetFrames | src/spritesheet.ts:95-98 | on a created sheet getFrame is None for a name without an image; otherwise it is the cell numbered by the present names before it, the size of the cell, inside the atlas |
| Spritesheet.BunnyFrames | src/spritesheet.ts:34-79 | with all 12 bunnies present the atlas is 4 x 3 and frame k is BUNNY_NAMES[k] at cell (k % 4, k / 4) |
| Renderer.QuadCorners | src/renderer.ts:106-114 | the quad table has one entry per vertex index 0 .. 5, every entry is a unit-square corner and every corner occurs |
| Renderer.QuadTriangles | src/renderer.ts:106-113 | the triangles (0,0),(1,0),(0,1) and (0,1),(1,0),(1,1) share the diagonal, and each turns counter-clockwise with twice its signed area equal to 1, so their areas add up to the square's |
| Renderer.BufferLayouts | src/renderer.ts:13-19 | position i is floats 2i, 2i + 1, where the simulation writes it; the scale and uvOffset of record i are floats 4i and 4i + 2, where createStaticData writes them; count entries are exactly 2 * count and 4 * count floats |
| Renderer.PositionAt | src/renderer.ts:116 | `positions[instanceId]`, floats 2i and 2i + 1 of the position buffer. No contract of its own; its properties are BufferLayouts and DrawIndices |
| Renderer.WorldPosition | src/renderer.ts:121 | `vec4f(localPos * scale + position, 0, 1)`. No contract of its own; its properties are WorldCorners and WorldWithin |
| Renderer.TexCoord | src/renderer.ts:123-127 | `(localPos.x, 1 - localPos.y) * uvScale + uvOffset`. No contract of its own; its properties are UvWithinCell, UvInRange and UvMatchesFrame |
| Renderer.MainVertex | src/renderer.ts:99-130 | the output position has z = 0 and w = 1 |
| Renderer.WorldCorners | src/renderer.ts:121 | corner (0, 0) lands on the body's position and corner (1, 1) on position + scale |
| Renderer.WorldWithin | src/renderer.ts:121 | with a non-negative scale every point of the quad lands between those corners |
| Renderer.ScaleWithin | src/renderer.ts:121 | helper: a coordinate in [0, 1] times a non-negative scale is in [0, scale] |
| Renderer.UvWithinCell | src/renderer.ts:123-127 | every UV of the quad lies in [uvOffset, uvOffset + (1/4, 1/3)], with local y flipped: the bottom edge samples the cell's bottom |
| Renderer.UvInRange | src/renderer.ts:123-127 | with a uvOffset on the 4 x 3 grid every UV lies in [0, 1]^2 |
| Renderer.UvMatchesFrame | src/renderer.ts:123-127 | in a 4 x 3 atlas, sprite k's uvOffset scaled to the atlas size is the corner of atlas frame k, and uvScale scaled to it is the cell size |
| Renderer.Draw | src/renderer.ts:175 | draw(6, count) produces 6 * count vertices |
| Renderer.DrawIndices | src/renderer.ts:114-117 | output 6i + v is vertex v of instance i, with v < 6 and i < count in range of the quad table and both buffers |
| Renderer.DrawOnScreen | src/renderer.ts:114-127 | for in-bounds bodies mirrored into the position buffer and static records on the grid, every drawn vertex is inside [-1, 1]^2 and samples its sprite's cell, inside [0, 1]^2 |

## Left out

- The WebGPU plumbing of `createRenderer` is not modelled. This covers
  device and context set-up, texture and sampler creation, the canvas
  resampling to 104 x 111, pipeline and blend state, `writeBuffer`,
  `uploadPositions`, `render`'s pass set-up and `resize`. These are
  foreign-library calls. The shader reads the positions array that
  `uploadPositions` copies, so the upload is modelled as that array being
  read directly.
- The fragment stage (`textureSample`) is not modelled.
- Image and DOM I/O in `src/spritesheet.ts` is not modelled: loading and
  downloading the images, canvas drawing, `getImageData`, the data-URL
  export and the JSON export. Each `ctx.drawImage` is recorded as a
  `Placement` in the sheet instead.
- `src/main.ts` is not part of this model. That includes the frame loop
  with `performance.now` and `requestAnimationFrame`, and its
  `Math.min(elapsed, 100)` clamp. The in-bounds properties hold for every
  deltaTime, so they do not depend on that clamp.
- `src/ui.ts` only builds DOM elements. Only its preset link format is
  used, in `Constants.PresetLinksRoundTrip`.
- `URLSearchParams.get` is an `Option<string>` parameter. `Math.random` is
  a parameter holding the sequence of draws in call order.
- `SPRITE_COUNT` is a parameter `count` of the methods, not the constant
  the module computes at load time.
- Float32 and f32 rounding are not modelled: all arithmetic is exact. Nor
  are the double result of `parseInt` for digit strings beyond 2^53 and the
  rounding of `1000 / 60`.
- Physics.AdvanceInBounds holds in exact arithmetic only. The walls 0.985
  and 0.98 are not Float32 values: Float32(0.985) = 0.98500001430511… and
  Float32(0.98) = 0.98000001907348…, both just past the wall. A body clamped
  at the right wall or the ceiling is therefore stored just outside the
  bounds.
- Physics.ZeroStep holds in exact arithmetic only. For a body stored at
  Float32(0.985) or Float32(0.98), a deltaTime-0 step finds it past the wall
  again and negates its vx or vy.
- Physics.ZeroStepNoOp holds in exact arithmetic only, for the same reason as
  Physics.ZeroStep.
- Physics.UpdatePhysics: `i << 2` and `i << 1` are written `4 * i` and
  `2 * i`. They are equal for every count the clamp allows.
- Spritesheet.CalculateLayout: with no images the source returns rows = 0 /
  0 (NaN). The model returns None, and `CreateSpritesheet` returns None
  with it.
- Spritesheet.CeilSqrt: computed exactly on naturals. `Math.ceil(Math.sqrt(n))`
  agrees with it for the image counts the program meets.
- Images are keyed by their name strings, as in the source's `Map`. Image
  sizes are naturals.
- The loop bodies of `updatePhysics`, `createPhysicsState` and
  `createSpritesheet` are written as the methods `UpdateBody`/`MoveBody`,
  `CreateBody` and `PlaceFrame`, each called once per iteration.
