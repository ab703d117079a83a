# Hexaworld terrain generation, modelled in Dafny

Hexaworld builds a small island out of hexagonal prisms. The script sweeps
the integer tiles of [-100, 100)². It projects each tile onto the ground
plane with a brick-offset layout and drops tiles farther than 45 from the
origin. Each remaining tile gets a height from a simplex-noise sample.
`makeHex` then builds the tile's prism and merges it into one of five
material batches (stone, dirt, grass, sand, dirt2), chosen by height bands.
It may also add a decoration to a batch: a rock on stone and sand tiles,
which goes to the stone batch, or a tree on dirt tiles, which goes to the
grass batch. A separate pass scatters three-puff cloud clusters over the
island.

The model has six modules:

- `HexGrid` (`hexgrid.dfy`) models `tileToPosition`. It reproduces
  JavaScript's truncated `%`, so odd negative rows shift left. It also holds
  the radius cull.
- `Builder` (`builder.dfy`) models geometry. A geometry is a sequence of
  primitives (box, cylinder, sphere), each with its constructor parameters
  and its world centre. `translate` moves centres, and
  `mergeBufferGeometries` is concatenation. It holds the factories
  `hexGeometry`, `stone` and `tree`.
- `Rng` (`rng.dfy`) models `Math.random()` as a class. The class holds a
  fixed stream of draws and the index of the next one.
- `Terrain` (`terrain.dfy`) holds the height thresholds, the band
  classifier and the five batches. The batches appear twice: as a value
  (`Batches`, `State`), with the pure specification `MakeHexSpec`, and as
  the class `World`, whose five fields `MakeHex` reassigns in place.
- `Sweep` (`sweep.dfy`) models the nested generation loop as methods with
  loop invariants. The loop is specified row by row, in loop order. The
  number of prisms it creates is tied to the cardinality of the set of
  tiles the cull keeps.
- `Clouds` (`clouds.dfy`) models the cloud loop as a list of cluster
  records, using seven draws per cluster.

Heights and positions are `real`. Every constant of the source is an exact
decimal, and `10 * 0.8`, `10 * 0.7`, `10 * 0.5` and `10 * 0.3` are 8, 7, 5
and 3 exactly in binary floating point too. The noise field and
`Math.pow(·, 0.45)` are function parameters.

## Model

| member | source | states |
|---|---|---|
| HexGrid.JsRem2 | main.js:232 | `y % 2` as JavaScript computes it: congruent to `y` modulo 2, in [-1, 1], with the sign of the dividend |
| HexGrid.TileToPosition | main.js:231-233 | z is `y * 1.535`. x is `x * 1.77` on even rows, `(x + 0.5) * 1.77` on odd positive rows, and `(x - 0.5) * 1.77` on odd negative rows |
| HexGrid.TileToPositionInjective | main.js:231-233 | two tiles with the same position are the same tile |
| HexGrid.NeighbourRowsOffsetByHalf | main.js:232 | consecutive rows are offset by exactly half a tile, also across row 0 where the remainder changes sign |
| HexGrid.JsLayoutRelabelsColumns | main.js:232 | on odd negative rows the truncated remainder puts tile x where a Euclidean remainder would put tile x - 1. Every other row is unchanged, so the set of positions is the same lattice |
| HexGrid.WithinRadiusBounds | main.js:88 | `WithinRadius` is the test `length() <= 45` on squared lengths, and a point that passes it lies in the square [-45, 45]² |
| HexGrid.KeptTilesAreNearOrigin | main.js:85-89 | every tile the cull keeps has x in [-25, 25] and y in [-29, 29], so the sweep range [-100, 100) never cuts the island short. This is the contract of `Kept`, the cull applied to a tile |
| HexGrid.GridSamples | main.js:85-95 | the origin tile is kept and the sweep corner is not. Tile (0, 1) is at (0.885, 1.535), tile (0, -1) is at (-0.885, -1.535), and tile (2, -3) has x = 2.655 |
| Builder.TranslatePrimitive | main.js:198 | translating moves a primitive's centre by the offset |
| Builder.TranslatePrimitiveTwice | main.js:198 | two translations of a primitive equal one translation by the sum |
| Builder.Translate | main.js:196-201 | `geometry.translate` keeps length, order and shapes, and moves every primitive by the offset |
| Builder.TranslateTwice | main.js:285-294 | translating a geometry twice is one translation by the sum of the offsets |
| Builder.Merge | main.js:207 | merging nothing gives the empty geometry, and merging one geometry returns it |
| Builder.MergeAppend | main.js:289 | merging a concatenated list equals concatenating the merges of its parts |
| Builder.MergePair | main.js:207 | `mergeBufferGeometries([a, b])` is `a` followed by `b` |
| Builder.MergeTriple | main.js:272 | merging three geometries lays them out in order |
| Builder.PrismCountAppend | main.js:207 | the prisms of a merged geometry are those of its parts |
| Builder.NoPrisms | main.js:263-272 | a geometry with no six-sided cylinder holds no prism |
| Builder.HexGeometry | main.js:196-201 | one six-sided prism of radius 1 and the given height, spanning y in [0, height] above (position.x, position.y) |
| Builder.Rock | main.js:250-258 | a rock is one sphere and no prism |
| Builder.RockPlacement | main.js:250-257 | with draws in [0, 1), the rock's radius is in [0.1, 0.4), its centre is at y = height, and its jitter is in [0, 0.4) on both horizontal axes |
| Builder.Cone | main.js:263-270 | one cone of the tree: a three-sided cylinder with a pointed top, bottom radius 1.5, 1.15 or 0.8 by level, the shared height t, centred above the tile at height + t * (0, 0.6 or 1.25) + 1 |
| Builder.Tree | main.js:260-273 | a tree is three three-sided cones with pointed tops, and none of them is a prism |
| Builder.TreeShape | main.js:260-273 | the cone radii are 1.5, 1.15 and 0.8, with a shared height t in [1.25, 2.25). The cones sit above the tile centre with centres at height + 1, height + 0.6 t + 1 and height + 1.25 t + 1, so they rise strictly, and each base lies below the previous tip. The lowest base lies in (height - 0.125, height + 0.375] |
| Rng.Random.constructor | main.js:209 | a fresh stream starts at its first draw |
| Rng.Random.Next | main.js:251-254 | one `Math.random()` call returns the current draw and advances the index by one |
| Terrain.Classify | main.js:203-228 | the band is stone iff h > 8, dirt iff 7 < h <= 8, grass iff 5 < h <= 7, sand iff 3 < h <= 5, and dirt2 iff h <= 3 |
| Terrain.ClassifyMonotone | main.js:206-226 | a higher tile never gets a lower band |
| Terrain.ClassifyBoundaries | main.js:206-226 | threshold heights fall to the band below: 8 is dirt, 7 grass, 5 sand, 3 dirt2. Height 10 is stone and height 0 is dirt2 |
| Terrain.HeightFor | main.js:91-93 | noise in [-1, 1] gives a height in [0, 10]. Noise -1 gives 0 and noise 1 gives 10 |
| Terrain.HeightForMonotone | main.js:91-93 | more noise gives a strictly higher tile |
| Terrain.InitialBatchesHoldNoPrism | main.js:190-194 | the five seed boxes hold no prism |
| Terrain.MakeHexSpec | main.js:203-228 | one call consumes between 0 and 4 draws |
| Terrain.RockAt | main.js:208-224 | the rock a stone tile (line 210) or sand tile (line 224) gets from the three draws after its roll: one sphere whose centre is at the tile-top height, with a radius in [0.1, 0.4) when its radius draw is in [0, 1) |
| Terrain.MakeHexByMaterial | main.js:203-228 | the exact effect per band. Stone: prism to stone, and on a roll > 0.8 a rock to stone (4 draws, else 1). Dirt: prism to dirt, and on a roll > 0.8 a tree to grass (2 draws, else 1). Sand: prism to sand, and on a roll > 0.8 a rock to stone (4 draws, else 1). Grass and dirt2: prism only, no draw |
| Terrain.MakeHexAppends | main.js:207-227 | every batch keeps its old contents as a prefix. The tile's own batch continues with exactly its prism |
| Terrain.MakeHexLeavesOthers | main.js:206-228 | every batch other than the tile's own and its decoration's target is unchanged |
| Terrain.MakeHexAddsOnePrism | main.js:203-228 | the band's batch gains exactly one prism, every other batch gains none, and the total grows by one |
| Terrain.MakeHexKeepsGrounded | main.js:196-228 | for a height in [0, 10], every prism in every batch stays on the ground (bottom y = 0) with a height in [0, 10] |
| Terrain.GroundedAppend | main.js:207 | merging two grounded geometries gives a grounded geometry |
| Terrain.World.constructor | main.js:190-194 | each of the five batches starts as the zero-sized box |
| Terrain.World.MaybeAddRock | main.js:209-211 | one roll. On a roll > 0.8 the rock built from the next three draws is merged into stoneGeo. Other batches are unchanged |
| Terrain.World.MaybeAddTree | main.js:214-216 | one roll. On a roll > 0.8 the tree built from the next draw is merged into grassGeo. Other batches are unchanged |
| Terrain.World.MakeHex | main.js:203-228 | reassigning the five fields in place yields exactly the batches and draw index of `MakeHexSpec` |
| Sweep.TileHeight | main.js:91-93 | the tile's noise sample at (0.1 i, 0.1 j), if in [-1, 1], gives a height in [0, 10] |
| Sweep.VisitTileEffect | main.js:87-93 | `VisitTile`, one inner iteration: a culled tile leaves batches and draws unchanged, a kept tile is `makeHex` at its noise height, and at most four draws are used |
| Sweep.SweepRowDraws | main.js:86-94 | `SweepRow`, the inner loop over columns [-100, j): the draw index never decreases and grows by at most 4 per column |
| Sweep.SweepRowsDraws | main.js:85-95 | `SweepRows`, the outer loop over rows [-100, i): the draw index never decreases and grows by at most 800 per row |
| Sweep.BandsPartitionKeptTiles | main.js:85-95 | the five band sets cover the kept tiles and are pairwise disjoint |
| Sweep.RowCountIsSize | main.js:86-94 | the counted tiles of a partial row form a set of exactly that size |
| Sweep.GridSetSplit | main.js:85-95 | the tiles of rows [-100, i) are those of rows [-100, i - 1) plus row i - 1, disjointly |
| Sweep.GridCountStep | main.js:85-95 | one more row adds its counted tiles to the grid's count and set alike |
| Sweep.GridCountIsSize | main.js:85-95 | the counted tiles of the finished rows form a set of exactly that size |
| Sweep.SweepRowPrisms | main.js:86-94 | a partial row adds one prism per kept tile to the batch of that tile's band, and none for culled tiles |
| Sweep.SweepRowsStep | main.js:85-95 | finishing a row adds one prism per counted tile of that row |
| Sweep.SweepRowsPrisms | main.js:85-95 | the finished rows add one prism per counted tile, per band and in total |
| Sweep.SweepPrismTotal | main.js:85-95 | the whole sweep adds one prism per tile of [-100, 100)² within distance 45 of the origin |
| Sweep.GenerationCounts | main.js:85-95 | starting from the seed batches, the total prism count equals the number of kept tiles (distance exactly 45 included). Each band's batch holds exactly one prism per kept tile of that band |
| Sweep.SweepRowGrounded | main.js:86-94 | with noise in [-1, 1], every prism of a partial row is grounded, with a height in [0, 10] |
| Sweep.SweepRowsGrounded | main.js:85-95 | with noise in [-1, 1], every prism created by the pass is grounded, with a height in [0, 10] |
| Sweep.GenerateTile | main.js:87-93 | the loop body: a culled tile changes nothing; a kept tile is `makeHex` at height `(n + 1) * 0.5 * 10` |
| Sweep.Generate | main.js:85-95 | the nested loop ends in the state of its row-by-row specification, and the world's total prism count grows by the number of kept tiles |
| Clouds.CloudCount | main.js:277 | for a power in [0, 1), the layer has between 10 and 19 clusters |
| Clouds.CloudAtShape | main.js:281-294 | `CloudAt`, the cluster built from seven draws: whatever the draws, it is three spheres of radii 1.2, 1.5 and 0.9, spaced 1.85 apart along x at one shared z, and turned by its seventh draw |
| Clouds.CloudsFrom | main.js:280-299 | the layer has exactly the drawn number of clusters |
| Clouds.CloudsFromAt | main.js:280-299 | cluster c is built from the seven draws starting at 7c, so each cluster consumes exactly seven draws |
| Clouds.CloudShape | main.js:281-296 | a cluster is three spheres of radii 1.2, 1.5 and 0.9. Before the turn, their centres lie at y in [8, 16.3), x in [-36.85, 36.85) and z in [-35, 35). The turn draw is in [0, 1) |
| Clouds.CloudsWellPlaced | main.js:280-299 | with draws in [0, 1), every cluster of the layer is well placed |
| Clouds.PuffsPlaced | main.js:285-294 | merging the three lifted puffs and moving the merge puts each puff at its row offset plus lift, plus the cluster offset |
| Clouds.MakeCloud | main.js:281-296 | the loop body uses seven draws and builds the cluster `CloudAt` describes |
| Clouds.MakeCloudLayer | main.js:280-299 | the loop builds the first n clusters of the draw stream, in order, and advances the stream by 7n |
| Clouds.MakeClouds | main.js:275-299 | one draw sets the count, then that many clusters follow, seven draws each |

## Left out

- Renderer, camera, lights, shadows and orbit controls (main.js:25-56) are left out. They are rendering-library configuration.
- Environment-map and texture loading (main.js:68-82) is left out. It is asynchronous I/O.
- The animation loop and the resize handler (main.js:175-188) are left out. They are event-driven UI.
- `hexMesh`, the mesh wrapping of the batches, and the sea, basin-wall and basin-floor meshes (main.js:109-170, 235-248) are left out. They only pass constant parameters to Three.js constructors.
- Simplex noise (main.js:58, 91) is a foreign library. It is the parameter `noise2D`, assumed to lie in [-1, 1] where a lemma needs that.
- `Math.pow(·, 0.45)` (main.js:277) is the parameter `pow045`. Floating-point `Math.floor` becomes `real.Floor`.
- Vertex buffers are abstracted. A primitive records its constructor parameters and its centre, not its vertices, and `mergeBufferGeometries` is concatenation.
- Float rounding is not modelled. Arithmetic is exact over the reals, and the cull compares squared lengths instead of taking `sqrt`.
- Clouds.MakeClouds does not model the final `rotateY` (main.js:296). That is trigonometry. Each cluster keeps its turn as the draw that sets it, and positions are stated before the turn; the turn keeps heights.
- Clouds.MakeClouds returns the clusters as a list rather than merging them into one geometry with the zero-radius seed sphere (main.js:276, 298). Merging is concatenation, so the merge is the seed followed by the clusters' puffs in order.
- Terrain.MakeHexSpec does not call `stone()` and `tree()` with hidden randomness. The caller fetches their draws in the source's order (x jitter, z jitter, radius; tree height) and passes them in. The order of the draws in the stream is unchanged.
- Clouds.CloudCount states its range only for a power in [0, 1). `Math.pow` of a draw in [0, 1) stays in [0, 1), and `pow045` is not constrained.
