# Colonize: a Dafny model of the voxel terrain core

Colonize is a voxel colony-simulation game. This project models its terrain
logic and a handful of small engine data structures, and proves properties
about them:

- **Terrain generation** (`Strata`, `Noise`, `Numeric`, `Voxel`). The samplers
  map each column's elevation and dirt-thickness noise to transition heights.
  Every column of a dense 3-D array is filled with stone, grass and air. A
  breadth-first water flood fill then runs from four seed columns at sea
  level: `(min_x or max_x - 1, sea_level - 1, min_z or max_z - 1)`. The array is an `array3` updated in place, and the fill's queue loop
  is a `while` loop with invariants.
- **Mesh cache and gold search** (`Terrain`). This covers the chunk map with
  ambient air and `find_nearest_gold`. It also covers the `generate_voxels`
  once-flag, `reset_world`, and `generate_meshes`' scheduling of unmeshed chunks
  and recording of results. `generate_mesh` groups the quads by material and
  then runs its empty-mesh fold. `flat_array_f32_to_points` is modelled too.
- **Chunked tile worlds** (`Area`, `LegacyWorld`, `TileChunk`, `BlockChunk`,
  `Tiles`). These map absolute coordinates to a chunk key and a local offset,
  and look tiles up in stored chunks. They also fill 16×16×16 chunks from a
  height map, and hold the tile and glyph tables.
- **Engine data structures**:
  - the scene stack (`SceneManager`);
  - index-shifting mesh concatenation (`FrameworkMesh`);
  - the bounded newest-first message log (`MessageWindow`);
  - the load-once resource cache (`Manager`);
  - key bindings (`Bindings`);
  - half-open bounds (`Bounds`);
  - direction vectors (`Direction`).

Rust semantics are written out where they matter:

- `/` and `%` truncate (`Common.TruncDiv`, `Common.TruncRem`).
- `>>` on `i32` floors (`Area.ShiftRight`).
- `f64::round` and `as i32` are `Numeric.Round` and `Numeric.Trunc`.
- A float cast `as usize` saturates at 0 (`TileChunk.ColumnHeight`).
- A negative `i32` cast `as u64` wraps (`MessageWindow.AsU64`).
- A `u16` add wraps as in a release build (`FrameworkMesh.WrapAdd`).
- A panic (a failed `assert!`, an out-of-range index, a short slice pattern)
  becomes an error result: `Result.Panicked`, `ok == false` or `None`.

Three behaviours of the code are kept as written:

- The flood fill's south step is guarded by `z > min_x`, not `z > min_z`
  (`Strata.WaterGenerator.Step`).
- `generate_map` builds the water generator with the extent's inclusive
  maximum (crates/core/src/terrain.rs:72-80), while `flood_fill` seeds at
  `max_x - 1` and `max_z - 1` and its west and north guards stop before
  `max - 1` (crates/core/src/terrain.rs:112-115, 135, 151). So three of the
  four seeds sit one column or row inside the extent's far edges, and the
  extent's last x column and last z row never get water
  (`Strata.FarEdgesStayDry`).
- `generate_mesh`'s fold named "all are empty" computes "some mesh is empty";
  see "## Findings".

Despite its name, `find_nearest_gold` does not return the nearest gold point
but the last one visited, because `replace` overwrites each earlier hit
(src/terrain.rs:114-118).

## Model

| member | source | states |
|---|---|---|
| Common.TruncDiv | src/world/world.rs:53-54 | Rust's `/` on `i32`: `q * d <= a < q * d + d` for non-negative `a` and `q * d - d < a <= q * d` for negative `a`, so the quotient is rounded toward zero |
| Common.TruncRem | world/src/area.rs:49-50 | Rust's `%` on `i32`: `a == (a / d) * d + r`, `-d < r < d`, and `r` takes the sign of `a` |
| Common.Truncate | backend/src/tcod.rs:48 | `Vec::truncate(n)`: keeps the first `min(len, n)` elements unchanged |
| Voxel.Collidable | crates/common/src/terrain.rs:16-21 | `collidable`: false for `Air` and `Water`, true for the solid voxels (the table is proved in `CollidableIffOpaque`) |
| Voxel.IsOpaque | crates/common/src/terrain.rs:33-39 | `is_opaque`: false for `Air` and `Water`, true for the solid voxels (proved in `OpaqueIffSolidMaterial`) |
| Voxel.IsEmpty | crates/common/src/terrain.rs:42-47 | `is_empty`: true for `Air` only (proved in `EmptyIffAir`) |
| Voxel.VoxelMergeValue | crates/common/src/terrain.rs:27-29 | the merge value of a voxel is the voxel itself |
| Voxel.EmptyIffAir | crates/common/src/terrain.rs:41-47 | `is_empty` holds exactly for `Air` |
| Voxel.OpaqueIffSolidMaterial | crates/common/src/terrain.rs:32-39 | `is_opaque` is false exactly for `Air` and `Water` |
| Voxel.CollidableIffOpaque | crates/common/src/terrain.rs:16-21 | `collidable` is false exactly for `Air` and `Water`, so it agrees with `is_opaque` on every voxel |
| Voxel.EmptyIsTransparent | crates/common/src/terrain.rs:16-47 | an empty voxel is neither opaque nor collidable; water is the only voxel that is neither empty nor opaque |
| Numeric.Scale | crates/core/src/terrain.rs:186-213 | `scale` returns (does not panic) exactly when the input lies in `[a_min, a_max]` and the ranges are well-formed; the result then lies in `[b_min, b_max]` |
| Numeric.AffineInRange | src/noise.rs:106-113 | for an input in range, the rescaled value lies in `[b_min, b_max]` exactly when `b_min <= b_max`, so the output assert fails on a reversed output range |
| Numeric.ScaleEndpointsAndOrder | crates/core/src/terrain.rs:186-213 | `scale` maps `a_min` to `b_min` and `a_max` to `b_max`, and preserves order |
| Numeric.AffineEndpoints | src/noise.rs:106-113 | the affine map sends the ends of the input range to the ends of the output range |
| Numeric.AffineMonotone | src/noise.rs:106-113 | the affine map is monotone when the output range is well-formed |
| Numeric.Trunc | src/noise.rs:72-74 | `as i32` on a float truncates toward zero: below by less than 1 for non-negative values, above by less than 1 for negative ones |
| Numeric.Round | src/noise.rs:30-35 | `f64::round`: the nearest integer, with halves rounded away from zero |
| Numeric.ConversionsStayInRange | crates/core/src/terrain.rs:26-31 | rounding and truncating a value between two integers stay between them |
| Noise.SampleElevation | src/noise.rs:30-35 | defined exactly for samples in `[-1, 1]`; the rounded height lies in `[-128, 128]`, with -1 giving -128 and 1 giving 128 |
| Noise.SampleDirtThickness | src/noise.rs:45-48 | defined exactly for samples in `[-1, 1]`; the thickness lies in `[-2, 5]` |
| Noise.TruncatedThicknessRange | crates/core/src/terrain.rs:50-58 | the truncated dirt thickness lies in `[-2, 5]` |
| Noise.SampleVoxel | src/noise.rs:93-101 | `sample_voxel`: stone up to the stone transition, grass up to the dirt transition, air above (proved in `SampleVoxelLayers` and `SampleVoxelMonotone`) |
| Noise.SampleVoxelLayers | src/noise.rs:93-101 | `sample_voxel` gives `Stone` iff `y <= stone`, `Grass` iff `stone < y <= dirt`, and `Air` iff `y` is above both transitions |
| Noise.SampleVoxelMonotone | src/noise.rs:93-101 | going up a column never goes down a layer (stone, then grass, then air) |
| Noise.ColumnItemsAt | src/noise.rs:86-88 | a column over `min_y..max_y` yields `max(0, max_y - min_y)` voxels, and the i-th is `sample_voxel(stone, dirt, min_y + i)` |
| Noise.ColumnItemsLayered | src/noise.rs:93-101 | the yielded sequence has the shape Stone* Grass* Air*: once air appears, every later item is air |
| Noise.VoxelColumn.constructor | src/noise.rs:75-79 | stores both transitions and the half-open height range |
| Noise.VoxelColumn.New | src/noise.rs:67-80 | panics exactly when a sample is outside `[-1, 1]`; otherwise dirt is the elevation, stone is dirt minus the truncated thickness, and the column yields `min_y..max_y` |
| Noise.VoxelColumn.Next | src/noise.rs:86-88 | yields the first remaining voxel and drops it; yields `None` once the range is exhausted |
| Strata.Put | crates/core/src/terrain.rs:137-140 | writing through `get_mut` changes the one target cell and no other |
| Strata.WaterGenerator.New | crates/core/src/terrain.rs:98-109 | the generator stores its bounds and turns `Air` (`src`) into `Water` (`dst`) |
| Strata.WaterGenerator.StepStaysInSpread | crates/core/src/terrain.rs:135-174 | every guarded move keeps the fill in the seed's bounding box, at or below `sea_level - 1` |
| Strata.WaterGenerator.SafeSpread | crates/core/src/terrain.rs:131-134 | under the no-panic conditions, every point of the seed's bounding box passes the loop's asserts and lies in the array |
| Strata.WaterGenerator.Visit | crates/core/src/terrain.rs:135-142 | one guarded neighbour: panics iff the neighbour is outside the array; a `src` cell becomes `dst` and is enqueued; nothing else changes |
| Strata.WaterGenerator.MovesInArrayIff | crates/core/src/terrain.rs:135-174 | the five-move check equals "every move lands in the array" |
| Strata.WaterGenerator.MovesSettledIff | crates/core/src/terrain.rs:135-174 | the five-move check equals "every move lands in the array on a non-`src` cell" |
| Strata.WaterGenerator.Move | crates/core/src/terrain.rs:143-150 | one move keeps the record of changed cells exact; on success the target is no longer `src`; non-`src` cells are untouched |
| Strata.WaterGenerator.ExpandX | crates/core/src/terrain.rs:135-150 | the west and east moves: only `src` cells change, into `dst`, and only neighbours are enqueued; on success each guarded neighbour is in the array and not `src`; no panic when both are in the array |
| Strata.WaterGenerator.ExpandZ | crates/core/src/terrain.rs:151-166 | the north and south moves, with the south guard `z > min_x`, as in `ExpandX` |
| Strata.WaterGenerator.Expand | crates/core/src/terrain.rs:135-174 | the five moves of one iteration: only `src` cells change, and only neighbours are enqueued; on success every move from the cell lands on a non-`src` cell; it cannot panic when every move stays in the array |
| Strata.WaterGenerator.ReachedStep | crates/core/src/terrain.rs:135-174 | the cells one iteration fills from a reached cell are reached too: each gets the walk of the dequeued cell extended by its move |
| Strata.WaterGenerator.ReachedUnion | crates/core/src/terrain.rs:111-116 | the walks of two fills together reach every cell of both, from the seeds of both |
| Strata.WaterGenerator.SettledAfterMoves | crates/core/src/terrain.rs:131-174 | a dequeued cell that passed the asserts and whose moves all landed on non-`src` cells is settled |
| Strata.WaterGenerator.SettledGrows | crates/core/src/terrain.rs:130-175 | a settled cell stays settled as more cells are filled |
| Strata.WaterGenerator.AllSettledClosed | crates/core/src/terrain.rs:135-174 | from a settled cell, no move reaches a `src` cell |
| Strata.WaterGenerator.Process | crates/core/src/terrain.rs:130-175 | one loop iteration keeps the record exact and the fill inside the seed's bounding box; every filled cell keeps a walk from the seed through filled cells; it fills a cell or shortens the queue; it keeps the queue invariant and cannot panic under the no-panic conditions |
| Strata.WaterGenerator.Drain | crates/core/src/terrain.rs:130-175 | running the loop to an empty queue settles every filled cell, keeps a walk from the seed to each of them through filled cells, and cannot panic under the no-panic conditions |
| Strata.WaterGenerator.FloodFillHorizontal | crates/core/src/terrain.rs:118-176 | only `src` cells change, into `dst`, inside the seed's bounding box. Every changed cell is reached from the seed by a walk of moves through changed cells, that is, through cells that held `src`. A seed outside the array panics with nothing changed; a non-`src` seed changes nothing. On return, every changed cell passed the asserts and each of its moves lands on a non-`src` cell. It never panics under the no-panic conditions |
| Strata.WaterGenerator.SeedSpreadInMapSpread | crates/core/src/terrain.rs:111-116 | the bounding box of any seed lies in the box of the whole fill |
| Strata.WaterGenerator.WateredGrows | crates/core/src/terrain.rs:111-116 | a watered seed cell stays watered as later fills run |
| Strata.WaterGenerator.SafeMapSeeds | crates/core/src/terrain.rs:111-116 | the map-wide no-panic conditions give the no-panic conditions of each of the four seed fills |
| Strata.WaterGenerator.FilledMeans | crates/core/src/terrain.rs:111-116 | the record of changed cells means: every changed cell went from `src` to `dst` inside the fill's box, and watered seed cells are not `src` |
| Strata.WaterGenerator.FillSeed | crates/core/src/terrain.rs:112-115 | one seed's fill extends the record, keeps every filled cell settled and reached from a seed through filled cells, and waters its seed |
| Strata.WaterGenerator.FillTwo | crates/core/src/terrain.rs:112-115 | two consecutive seed fills, as in `FillSeed` |
| Strata.WaterGenerator.FillSeeds | crates/core/src/terrain.rs:111-116 | the four fills leave every filled cell settled and reached from a seed through filled cells, and every seed cell watered; they cannot panic under the map-wide conditions |
| Strata.WaterGenerator.SeedCellsWatered | crates/core/src/terrain.rs:111-116 | watering the four seeds one by one waters every seed cell |
| Strata.WaterGenerator.InSeedCellsIff | crates/core/src/terrain.rs:111-116 | the seeds of `flood_fill` are exactly the four cells `(min_x or max_x - 1, sea_level - 1, min_z or max_z - 1)` |
| Strata.WaterGenerator.FloodFill | crates/core/src/terrain.rs:111-116 | only `Air` cells change, into `Water`, at or below `sea_level - 1` and below `max_x` and `max_z`. Every changed cell is reached from a seed by a walk of moves through changed cells, all of which were `Air`. On return no move from a water cell reaches air, and no seed is left as air. It never panics under the map-wide conditions |
| Strata.StrataAt | crates/core/src/terrain.rs:41-67 | the voxel the strata pass puts at a point is stone, grass or air, never water |
| Strata.StrataMatchesColumn | crates/core/src/terrain.rs:41-67 | the strata voxel at each height of a column equals the i-th voxel of the column iterator in src/noise.rs |
| Strata.FillColumn | crates/core/src/terrain.rs:59-67 | sets column `(x, z)` to stone, grass and air by the transition heights and leaves every other column unchanged |
| Strata.FillRow | crates/core/src/terrain.rs:41-67 | fills one row of columns; panics exactly when a thickness sample of the row is out of range |
| Strata.FillStrata | crates/core/src/terrain.rs:41-67 | fills every column; panics exactly when some thickness sample is out of range; on success every cell is the strata voxel of its point |
| Strata.MapWaterGenerator | crates/core/src/terrain.rs:72-81 | the generator of `generate_map` turns air into water, and its inclusive maxima are `minimum + shape - 1` |
| Strata.FloodStrata | crates/core/src/terrain.rs:70-81 | the water pass over an array holding the strata: on success the array is `Flooded` (see `GenerateMap`); no panic under the map-wide conditions |
| Strata.GenerateMap | crates/core/src/terrain.rs:12-84 | panics when an elevation or thickness sample is out of range; returns under the stated conditions. A result has the extent's shape and is `Flooded`: each voxel is the strata voxel or water where the strata gave air; water lies below sea level and short of `max_x` and `max_z`; no fill move from water reaches air; no seed is left as air; and every water voxel is reached from a seed by a walk of moves through water voxels |
| Strata.FarEdgesStayDry | crates/core/src/terrain.rs:72-80 | with `generate_map`'s inclusive maxima, the extent's last x column and last z row never hold water, because the seeds and guards of `flood_fill` stop one short of them |
| Terrain.ChunkKeyOf | src/terrain.rs:43 | the chunk key of a point is the multiple of the chunk size at or below it, on each axis |
| Terrain.ChunkMap.Get | src/terrain.rs:113-118 | the voxel the chunk reader sees at a point: the stored chunk's voxel, or the ambient `Air` where no chunk is stored (proved for the empty map in `EmptyChunkMapIsAir`) |
| Terrain.RegionGeneratesMap | src/terrain.rs:44-49 | the region that `generate_voxels` passes to `generate_map` (minimum `(-256, -512, -256)`, shape `(512, 768, 512)`, sea level 0) meets the conditions under which `generate_map` returns, given noise in `[-1, 1]` |
| Terrain.EmptyChunkMap | src/terrain.rs:123-138 | a new chunk map stores no chunks |
| Terrain.EmptyChunkMapIsAir | src/terrain.rs:123-138 | every point of an empty chunk map reads as the ambient `Air` |
| Terrain.Flatten | src/terrain.rs:351-357 | the mesher's groups as one list in visit order; no groups gives no entries |
| Terrain.QuadsOfNonEmpty | src/terrain.rs:351-357 | a material has at least one quad exactly when it occurs in the mesher's output |
| Terrain.GroupByMaterial | src/terrain.rs:351-357 | the per-material meshes have exactly the materials of the output as keys, and each mesh holds that material's quads in order |
| Terrain.AddGroup | src/terrain.rs:353-356 | the inner loop over one group keeps the grouping exact: afterwards each mesh holds exactly its material's quads of everything seen so far plus this group |
| Terrain.GroupedSnoc | src/terrain.rs:354-355 | `entry(..).or_insert(..)` followed by adding the quad keeps the grouping exact for one more quad |
| Terrain.AppendEntry | src/terrain.rs:351-357 | adding one quad adds its material and extends that material's mesh only |
| Terrain.FlattenSnoc | src/terrain.rs:351-357 | flattening one more group appends that group's quads |
| Terrain.GroupedMeshesNonEmpty | src/terrain.rs:351-369 | no mesh built by the grouping is empty |
| Terrain.SomeMeshEmpty | src/terrain.rs:360-363 | the fold is true exactly when some per-material mesh is empty |
| Terrain.GenerateMesh | src/terrain.rs:332-370 | returns the chunk key and `Some` of the grouped meshes, keyed by every material that occurs |
| Terrain.AllMeshesEmpty | src/terrain.rs:359-363 | the fold the comment intends: true exactly when every per-material mesh is empty |
| Terrain.GenerateMeshIntended | src/terrain.rs:332-370 | `generate_mesh` with the intended fold: `None` exactly when the chunk has no quads, else `Some` of the grouped meshes |
| Terrain.NoQuadsGivesEmptyMap | src/terrain.rs:360-369 | a chunk with no quads gives `Some` of an empty map |
| Terrain.FlattenOfEmptyGroups | src/terrain.rs:351-357 | groups with no quads flatten to nothing |
| Terrain.FlatArrayToPoints | src/terrain.rs:428-433 | defined exactly when the length is a multiple of 3; gives `len / 3` triples, the i-th being `(a[3i], a[3i+1], a[3i+2])` |
| Terrain.FlattenPoints | src/terrain.rs:428-433 | the flat layout of n triples has 3n entries |
| Terrain.FlattenPointsAt | src/terrain.rs:428-433 | entries `3i`, `3i+1` and `3i+2` of the flat layout are the parts of triple i |
| Terrain.PointsRoundTrip | src/terrain.rs:428-433 | splitting a flattened list of triples gives the list back |
| Terrain.TerrainResource.constructor | src/terrain.rs:123-138 | a new resource has an empty chunk map and no generated voxels |
| Terrain.TerrainResource.FindNearestGold | src/terrain.rs:106-120 | `None` iff the 10×10×10 box holds no gold; otherwise a gold point of the box, the last one in visit order |
| Terrain.TerrainResource.GenerateVoxels | src/terrain.rs:240-277 | does nothing once the flag is set; otherwise stores the generated chunks and sets the flag |
| Terrain.MeshResource.constructor | src/terrain.rs:145-151 | a new mesh resource records no chunk |
| Terrain.ResetWorld | src/terrain.rs:216-238 | empties the chunk map and the mesh map, clears the flag, and despawns exactly the recorded entities |
| Terrain.RecordMesh | src/terrain.rs:304-327 | records `None` for a chunk without meshes, or one spawned entity per material mesh; other keys are kept |
| Terrain.MeshChunk | src/terrain.rs:299-327 | meshes one chunk and records the result under its key; other keys are kept |
| Terrain.GenerateMeshes | src/terrain.rs:283-328 | records exactly the stored chunks that had no entry, each as meshing records it, and keeps every earlier entry |
| Terrain.AllRecordedExtend | src/terrain.rs:304-327 | recording one more key, with the rest kept, extends the set of recorded keys |
| Terrain.SpawnAll | src/terrain.rs:304-327 | spawns exactly one entity per material mesh |
| Tiles.NewTile | world/src/terrain.rs:43-47 | a new tile has the given type |
| Tiles.IsSolid | world/src/terrain.rs:11-16 | `is_solid`: true for `Wall` only (proved in `SolidIffWall`) |
| Tiles.GetGlyph | world/src/terrain.rs:18-24 | `get_glyph`'s table (proved in `GlyphTable`) |
| Tiles.GetLowerGlyph | world/src/terrain.rs:28-34 | `get_lower_glyph`'s table (proved in `LowerGlyphTable`) |
| Tiles.SolidIffWall | world/src/terrain.rs:11-16 | `is_solid` holds exactly for `Wall` |
| Tiles.GlyphTable | world/src/terrain.rs:18-24 | `get_glyph`: air is `' '`, out of bounds is `'?'`, wall is char 177; distinct types get distinct glyphs |
| Tiles.LowerGlyphTable | world/src/terrain.rs:28-34 | `get_lower_glyph`: air is `' '`, out of bounds is `'?'`, wall is `'.'`; distinct types get distinct glyphs |
| Tiles.GlyphsAgreeOffWalls | world/src/terrain.rs:18-34 | the two glyph tables agree exactly on the non-solid tiles |
| TileChunk.Array16x16x16 | world/src/chunk.rs:11-19 | builds a 16×16×16 array nested y, then z, then x, with `a[y][z][x] == f(x, y, z)` |
| TileChunk.ColumnHeight | world/src/chunk.rs:31 | `(h * 16) as usize`: truncates toward zero, and saturates at 0 below 1 |
| TileChunk.ColumnTile | world/src/chunk.rs:33-36 | the match of `generate`: air when the column height is below `y`, else wall (proved monotone in `GenerateColumnsMonotone`) |
| TileChunk.Generate | world/src/chunk.rs:26-40 | the tile at `(x, y, z)` is `Air` iff the column height is below `y`, else `Wall` |
| TileChunk.GenerateOnlyAirAndWall | src/world/chunk.rs:21-33 | generated tiles are never out of bounds, and are wall exactly up to the column height |
| TileChunk.GenerateColumnsMonotone | world/src/chunk.rs:33-36 | air at `y` implies air at every height above it in the column |
| TileChunk.GenerateBottomIsWall | world/src/chunk.rs:31-35 | layer 0 is always wall |
| BlockChunk.EmptyChunk | src/chunk.rs:18-20 | the empty chunk has value 0 in every block |
| BlockChunk.Generate | src/chunk.rs:33-45 | a block's value is 0 iff the column height is below `y`, else 1 |
| BlockChunk.Glyph | src/chunk.rs:50-54 | the glyph `render` draws: `' '` for 0, `'W'` for 1, `'?'` otherwise (proved in `RenderGeneratedNeverUnknown`) |
| BlockChunk.GenerateValues | src/chunk.rs:38-41 | generated values are 0 or 1, monotone up a column, and 1 at the bottom |
| BlockChunk.RenderGeneratedNeverUnknown | src/chunk.rs:47-58 | a generated block never renders as `'?'`; it renders as `' '` exactly above the column height |
| BlockChunk.RenderEmptyChunk | src/chunk.rs:47-58 | every block of the empty chunk renders as `' '` |
| Area.ShiftRight | world/src/area.rs:63-65 | the arithmetic shift `>>` as repeated floor halving (proved floor division in `ShiftRightIsFloorDiv`) |
| Area.ShiftRightIsFloorDiv | world/src/area.rs:63-65 | `v >> 4` is the floor of `v / 16`, for negatives too |
| Area.ChunkPos | world/src/area.rs:63-65 | each coordinate lies in the 16-wide span of its chunk key |
| Area.Offset | world/src/area.rs:49-50 | `((v % 16) + 16) % 16` lies in `[0, 16)` and is `v` mod 16 |
| Area.ChunkPosRoundTrip | world/src/area.rs:48-65 | `key * 16 + offset == p` on both axes, for every `p` |
| Area.ReadTile | world/src/area.rs:53 | indexing `tiles[height][tx][tz]` panics exactly when `height >= 16` |
| Area.Area.GetTile | world/src/area.rs:47-56 | a missing chunk gives `OutOfBounds`; otherwise the tile at the local offsets of the stored chunk |
| Area.Area.AddChunk | world/src/area.rs:43-45 | inserts or replaces the chunk at `(x, z)`; lookups in that chunk read the new chunk, and every other lookup is unchanged |
| Area.GetTileOutcomes | world/src/area.rs:47-56 | `OutOfBounds` for a missing chunk; for a stored chunk, a panic exactly when `height >= 16` |
| Area.GetTileOfGenerated | world/src/area.rs:53 | in a generated chunk the lookup reads the height map transposed: air iff `height` exceeds the column height at `(offset z, offset x)` |
| LegacyWorld.TruncatingChunkPos | src/world/world.rs:53-54 | the truncating key spans its 16 coordinates for non-negative coordinates |
| LegacyWorld.TruncatingRoundTripNonNegative | src/world/world.rs:53-56 | for non-negative points, `key * 16 + offset == p`, and the key equals the floor key |
| LegacyWorld.TruncatingRoundTripFailsAtMinusOne | src/world/world.rs:53-56 | at `x = -1` the key is 0 and the offset 15, so the round trip fails; the floor key is -1 |
| LegacyWorld.World.constructor | src/world/world.rs:33-38 | a new world has no chunks |
| LegacyWorld.World.GetTile | src/world/world.rs:52-62 | a missing chunk gives `OutOfBounds`; otherwise the tile at the floor offsets of the chunk at the truncating key |
| LegacyWorld.World.AddChunk | src/world/world.rs:40-42 | inserts or replaces the chunk at `(x, z)` and keeps every other key |
| LegacyWorld.GetTileMinusOneReadsFifteen | src/world/world.rs:53-56 | `x = -1` reads the same tile as `x = 15` |
| LegacyWorld.EmptyWorldOutOfBounds | src/world/world.rs:58-61 | every lookup in a world without chunks gives `OutOfBounds` |
| LegacyWorld.GetGlyph | src/world/world.rs:82-88 | the same glyph table as the world crate's `get_glyph` |
| Direction.ToVector | world/src/direction.rs:10-21 | `to_vector`'s table (proved unit and injective in `ToVectorIsUnit` and `ToVectorInjective`) |
| Direction.Opposite | world/src/direction.rs:13-20 | the pairs of the table whose vectors are negations (proved in `OppositeNegates`) |
| Direction.ToVectorIsUnit | world/src/direction.rs:10-21 | every direction vector has exactly one non-zero component, equal to ±1 |
| Direction.OppositeNegates | world/src/direction.rs:13-20 | opposite directions map to negated vectors |
| Direction.ToVectorInjective | world/src/direction.rs:13-20 | the six directions map to six distinct vectors |
| Bounds.New | utility/src/lib.rs:21-26 | stores `min = (a, b)` and `max = (c, d)`; width and height are the differences |
| Bounds.Bounds.Contains | utility/src/lib.rs:28-33 | `contains`: half-open on both axes (proved in `ContainsIffOffsetInSize`) |
| Bounds.Bounds.Width | utility/src/lib.rs:35-37 | `width`: `max.x - min.x` |
| Bounds.Bounds.Height | utility/src/lib.rs:39-41 | `height`: `max.y - min.y` |
| Bounds.ContainsIffOffsetInSize | utility/src/lib.rs:28-41 | `contains` is half-open: the offset from `min` lies in `[0, width) × [0, height)` |
| Bounds.Corners | utility/src/lib.rs:28-41 | the max corner is never contained; the min corner is contained iff width and height are positive |
| Bounds.DegenerateIsEmpty | utility/src/lib.rs:28-41 | bounds with no width or no height contain nothing |
| FrameworkMesh.WrapAdd | framework/src/rendering/mesh.rs:28 | the `u16` add is exact when it does not overflow |
| FrameworkMesh.ShiftedIndicesAt | framework/src/rendering/mesh.rs:26-30 | the appended indices are three per face, in face order, each shifted by the offset |
| FrameworkMesh.ShiftedIndicesInRange | framework/src/rendering/mesh.rs:21-30 | faces indexing their own `n` vertices, shifted by a non-overflowing offset, index `[offset, offset + n)` |
| FrameworkMesh.Mesh.constructor | framework/src/rendering/mesh.rs:15-17 | a new mesh has no vertices and no indices |
| FrameworkMesh.Mesh.Push | framework/src/rendering/mesh.rs:19-31 | panics, changing nothing, unless the vertex count stays below `u16::MAX`. Otherwise it appends the vertices and the shifted indices, keeping the old ones as a prefix. In-range indices stay in range |
| FrameworkMesh.ShiftByZero | framework/src/rendering/mesh.rs:19-31 | pushing onto an empty mesh appends the face indices unchanged |
| SceneManager.Pop | framework/src/scene_manager.rs:33-35 | removing the top keeps the rest as a prefix; an empty stack stays empty |
| SceneManager.Apply | framework/src/scene_manager.rs:49-66 | the stack after a command, as `handle_scene_command` leaves it (each case proved in `ApplyEffects`) |
| SceneManager.ApplyEffects | framework/src/scene_manager.rs:49-66 | each command's effect: set replaces the top, push adds one, pop removes one, clear empties, and no command changes nothing |
| SceneManager.PushThenPop | framework/src/scene_manager.rs:24-35 | a pop undoes a push, and a set after a push equals pushing the second scene |
| SceneManager.SceneManager.constructor | framework/src/scene_manager.rs:16-22 | a new manager has no scenes |
| SceneManager.SceneManager.SceneCount | framework/src/scene_manager.rs:20-22 | `scene_count`: the height of the stack |
| SceneManager.SceneManager.SetScene | framework/src/scene_manager.rs:24-27 | replaces the top; the count is unchanged, or becomes 1 on an empty stack |
| SceneManager.SceneManager.PushScene | framework/src/scene_manager.rs:29-31 | puts the scene on top; the count grows by one |
| SceneManager.SceneManager.PopScene | framework/src/scene_manager.rs:33-35 | returns and removes the top; returns `None` with nothing changed on an empty stack |
| SceneManager.SceneManager.Clear | framework/src/scene_manager.rs:37-39 | empties the stack |
| SceneManager.SceneManager.HandleSceneCommand | framework/src/scene_manager.rs:49-66 | applies each command as the operation of the same name; `None` changes nothing |
| SceneManager.SceneManager.HandleEvent | framework/src/scene_manager.rs:41-47 | does nothing on an empty stack; otherwise it puts back the top as the handler left it, then applies the returned command |
| MessageWindow.AsU64 | backend/src/tcod.rs:81 | a negative `i32` converted to `u64` wraps modulo 2^64 |
| MessageWindow.Blank | backend/src/tcod.rs:51-56 | `n` empty lines |
| MessageWindow.TcodWindow.constructor | backend/src/tcod.rs:64-83 | a window of height `max.y - min.y + 1 >= 0` starts with that many empty lines and keeps that many; a negative height keeps one empty line |
| MessageWindow.TcodWindow.BufferMessage | backend/src/tcod.rs:46-49 | puts the text first, moves the rest down and cuts to the maximum; a full log stays full |
| MessageWindow.TcodWindow.FlushMessageBuffer | backend/src/tcod.rs:51-56 | leaves exactly the maximum number of lines, all empty |
| MessageWindow.TcodWindow.GetMessages | backend/src/tcod.rs:58-60 | `get_messages`: the lines, newest first |
| MessageWindow.BufferedLog | backend/src/tcod.rs:46-49 | after buffering, the text is first, older lines follow in order, and the length is `min(old + 1, max)` |
| MessageWindow.BufferAllPrefix | backend/src/tcod.rs:46-49 | after buffering several texts into a full log, it is still full and begins with the texts, newest first |
| MessageWindow.BufferedLogForgets | backend/src/tcod.rs:46-49 | buffering as many texts as the log holds leaves exactly those texts, newest first |
| Manager.Join | framework/src/manager.rs:40 | `PathBuf::join` on Unix: an absolute key replaces the base; a relative key becomes a suffix after the base |
| Manager.Shared.constructor | framework/src/manager.rs:52 | a shared resource holds the loaded value |
| Manager.Manager.constructor | framework/src/manager.rs:29-35 | a new manager has an empty cache and nothing loaded |
| Manager.Manager.Load | framework/src/manager.rs:37-57 | a cached path returns the cached resource, with no load and nothing changed. An uncached path loads once, caches under the joined path and returns the new resource. Either way the cache maps the path to the result |
| Manager.JoinRelative | framework/src/manager.rs:40 | a relative key is joined with exactly one separator |
| Bindings.Bindings.AddBinding | src/bindings.rs:24-27 | binding a key adds it to the bound keys |
| Bindings.Bindings.GetActionFromBinding | src/bindings.rs:29-31 | the lookup is `Some` exactly for bound keys |
| Bindings.New | src/bindings.rs:17-22 | new bindings bind nothing |
| Bindings.NewBindsNothing | src/bindings.rs:34-38 | every lookup in new bindings gives `None` |
| Bindings.AddThenGet | src/bindings.rs:24-31 | a key looks up the action just bound to it; other keys are unchanged |
| Bindings.LaterBindingWins | src/bindings.rs:24-27 | a later binding of the same key overrides the earlier one |

## Left out

- Noise generation (ridged multifractal, open simplex, `surface_y`, `modify_config`, `world/src/mapgen.rs`) is not modelled. The samplers' outputs are function parameters.
- Entity spawning, mesh assets, materials and colliders (`generate_mesh_entity`, `setup`) are left out; a spawned entity is the result of a function parameter.
- The parallel tasks of `generate_meshes` are modelled as a sequential loop over the scheduled keys, with the order unspecified.
- The chunk storage library (compressed chunk map, caches, `copy_extent`, greedy meshing) is not visible:
  - storage is a map from chunk key to a voxel function, with ambient air;
  - the greedy mesher's output is an input list of quad groups;
  - the result of `copy_extent` is the `generated` parameter of `GenerateVoxels`.
- Iteration order of hash maps and of the extent visitor is left open: a choice in the loop, or an `order` parameter.
- Integer overflow of `i32` arithmetic on coordinates is not modelled; coordinates are unbounded integers.
- Rendering and console I/O (`Chunk::render`, `World::render`, the tcod console drawing, the offscreen console of `TcodWindow::new`) are left out; only the glyph each cell would print is modelled.
- `Area::new` and `World::generate_chunk` are not modelled: they need noise generation and a call whose arguments do not match its callee.
- `Strata.WaterGenerator.FloodFillHorizontal`: the no-panic condition (`SafeFill`) is sufficient, not necessary. An out-of-extent `get_mut` is modelled as a panic, because the array library's behaviour is not visible.
- `Strata.WaterGenerator.FloodFill`: the map-wide no-panic condition is likewise sufficient, not exact.
- `Strata.GenerateMap`: requires a non-negative shape, since the array's dimensions are unsigned. It returns `Ok` under sufficient conditions only. Water below `min_y` is excluded by the array's extent, not stated separately.
- `Strata.FillRow`: the contents of the array after a panic partway through a row are not stated.
- `Terrain.GenerateMesh`: the quads' geometry (positions, normals, the mesh layout of each quad) is not modelled; a mesh is the list of quads added to it.
- `Terrain.TerrainResource.FindNearestGold`: the visit order of the extent is an input, so which gold point is last is stated relative to that order.
- `FrameworkMesh.WrapAdd`: a debug build would panic on overflow instead of wrapping; with in-range indices no overflow happens (`ShiftedIndicesInRange`).
- Floating point is modelled as exact reals: `f32`/`f64` rounding, infinities and NaN are not. This affects `Numeric.Scale`, `Numeric.Round`, `Numeric.Trunc`, `TileChunk.ColumnHeight`, `Noise.SampleElevation`, `Noise.SampleDirtThickness` and `Noise.SampleVoxel`.
- `Manager.Join`: path component normalisation and Windows prefixes are not modelled.
- `Tiles.GetGlyph` and `Tiles.GetLowerGlyph` are modelled on the tile type; the `Tile` wrapper methods only forward.

## Findings

| source | as written | input that shows it | evidently intended | confidence | as-written member | corrected member |
|---|---|---|---|---|---|---|
| src/world/world.rs:53-56 | the chunk key uses truncating `/ 16`, while the local offset is floored into `[0, 16)` | `p.x = -1`: key 0, offset 15, so the lookup reads the tile at `x = 15` | floor the key too, as `abs_pos_to_chunk_pos` in world/src/area.rs does with `>> 4`, so that `key * 16 + offset == p` | not executed | LegacyWorld.TruncatingRoundTripFailsAtMinusOne | Area.ChunkPosRoundTrip |
| src/terrain.rs:359-368 | the fold named `all_are_empty` starts at `false` and keeps the first `true`, so it is true when SOME mesh is empty; the grouping never builds an empty mesh, so the result is always `Some` | a chunk of only air: no quads, an empty map, the fold gives `false`, and `generate_mesh` returns `Some` of the empty map where its comment says nothing should be returned | true exactly when every mesh is empty (a fold from `true` with `&&`), so an air-only chunk gives `None` | not executed | Terrain.GenerateMesh | Terrain.GenerateMeshIntended |

The mesh cache (`Terrain.MeshChunk`, `Terrain.GenerateMeshes`) keeps `generate_mesh` as written, since what it records must match what the code records; `Terrain.GenerateMeshIntended` stands beside it with the intended property.
