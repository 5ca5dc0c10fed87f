# Sparse dual grid of the marching-cubes reconstruction

This project models the sparse dual-grid builder of the marching-cubes
surface reconstruction library (`FastGrid`), and proves that it gives every
geometric box corner exactly one query point.

The builder covers a point cloud with boxes (dual cells) of edge length
`voxelsize`. Boxes are created lazily in a hash map keyed by the box's
integer cell coordinate. Every box holds eight corner slots. A slot holds
either -1 (unresolved) or the index of a query point in the append-only
`query_points` vector. A geometric corner is shared by up to eight boxes.
Before a new box allocates a query point for one of its corners, it probes
the seven other boxes that may share that corner. The static table
`shared_vertex_table` tells it where to look. Once the grid is built, every
query point receives the value of the distance function at its position.

The model has five modules:

- `Geometry` (`geometry.dfy`): integer triples (`Vec3`), used as cell
  coordinates and as exact corner positions in half-voxel units.
- `Tables` (`tables.dfy`): the two static tables.
  - `SharedVertexTable` holds 8 rows of 7 quadruples `(dx, dy, dz, q)`.
    These are the same 28 numbers per row as the source's flat rows.
  - `BoxCreationTable` holds 8 rows of 3 signs.
  - Lemmas prove the tables geometrically sound and complete.
- `GridState` (`grid_state.dfy`): the grid seen as values, and the invariant
  that construction keeps.
  - The boxes are a `map<Vec3, seq<int>>` of slot contents. Query points are
    a `seq<QueryPoint>`.
  - The invariant: every slot resolved, every index valid, every query point
    at the corner it stands for, no two query points at the same position.
  - One small lemma per construction step.
- `Grid` (`fast_grid.dfy`): the class `FastGrid`.
  - Fields `cells: map<Vec3, array<int>>` (one 8-slot array per box) and
    `queryPoints: seq<QueryPoint>`.
  - The imperative operations. `CreateGrid` (with its per-cell step
    `CreateBox`) and `CalcQueryPointValues` are proved to keep the invariant
    of `GridState`. `FindQueryPoint`'s result is specified through
    `Resolved` and `NeighbourSlot`. `CalcIndices` is specified through
    `Ceil` and `Max`.
  - The relation between the source's floating-point corner computation and
    the half-voxel integer positions, in exact arithmetic.
- `SinglePoint` (`single_point.dfy`): a single point with the unit-cube
  creation offsets gives 8 boxes and 27 query points, not 64.

Corner `k` of the box at cell `c` is at `Corner(c, k) == 2 * c +
BoxCreationTable[k]` in half-voxel units. The source computes it as
`(c * voxelsize + v_min) + box_creation_table[k] * voxelsize / 2`.
`BoxCornerIsHalfVoxelCorner` shows the two agree in exact arithmetic.
`WorldPositionInjective` shows that distinct half-voxel positions are
distinct points. Together they justify reasoning on integers.

`hashValue`, `calcIndex` and `HGCreateTable` reach `FastGrid.cpp` through
its `FastGrid.h` include; their definitions lie outside the modelled file.
The model therefore treats the hash as injective and keys the map by the
cell coordinate itself.
It takes input points already converted to integer cell coordinates, and
receives `HGCreateTable` as a parameter of eight offsets (`createTable`).

The distance function of the interpolator is a parameter
`distance: Vec3 -> real`.

The model follows the code in two places:

- The per-axis padding of the index bounds is +1, +2 and +3, as
  `calcIndices` writes it, not a uniform margin.
- A voxel size of zero or less is not reported as an error. The code
  divides by it without a check. The model only excludes zero, for which
  the division is undefined.

## Model

| member | source | states |
|---|---|---|
| Tables.SharedVertexTable | src/libmc/FastGrid.cpp:34-43 | 8 rows of 7 quadruples `(dx, dy, dz, q)`; the entries are those of `shared_vertex_table`, entry by entry and in the same order (the source's flat rows of 28 numbers, grouped in fours) |
| Tables.BoxCreationTable | src/libmc/FastGrid.cpp:48-57 | 8 rows of 3 signs; the entries are those of `box_creation_table`, entry by entry and in the same order |
| Tables.EntryIsConsistent | src/libmc/FastGrid.cpp:34-57 | every quadruple `(dx, dy, dz, q)` of row k names another corner `q != k`, and `2 * d + box_creation_table[q] == box_creation_table[k]` on each axis, so it is the same geometric corner |
| Tables.OccurrenceCounts | src/libmc/FastGrid.cpp:34-43 | row k lists every other corner q exactly once and never k itself |
| Tables.NeighbourSharesCorner | src/libmc/FastGrid.cpp:10-43 | soundness of the table: the box at `cell + (dx, dy, dz)` is a different, adjacent box (offset in {-1, 0, 1}, not zero) whose corner q is corner k of `cell` |
| Tables.SharedCornerListed | src/libmc/FastGrid.cpp:10-43 | completeness of the table: any other box that has corner k of `cell` as its corner q is named by some quadruple of row k |
| Tables.RowOffsetsDistinct | src/libmc/FastGrid.cpp:34-43 | the seven quadruples of a row name seven different boxes and seven different corner numbers |
| Tables.CornerOffsetIsDiagonal | src/libmc/FastGrid.cpp:46-57 | every corner lies half a voxel off the box centre on each axis (every entry is -1 or +1) |
| Tables.CornerOffsetInjective | src/libmc/FastGrid.cpp:48-57 | the eight corners of a box are eight different points |
| GridState.StartBox | src/libmc/FastGrid.cpp:147 | a new box, not yet in the map, starts the construction invariant with no corner resolved |
| GridState.ReuseCorner | src/libmc/FastGrid.cpp:151-152 | taking the index found in a neighbour's slot keeps the construction invariant: that query point is at corner k of the new box |
| GridState.CornerUnclaimed | src/libmc/FastGrid.cpp:150-156 | when no neighbour has corner k resolved, no existing query point is at that corner |
| GridState.NewCorner | src/libmc/FastGrid.cpp:153-161 | appending a query point at corner k with index `global_index == |query_points|` keeps the construction invariant, and positions stay pairwise distinct |
| GridState.FinishBox | src/libmc/FastGrid.cpp:164-165 | once all eight corners are resolved, inserting the box restores the grid invariant |
| GridState.SharedCornerSameIndex | src/libmc/FastGrid.cpp:10-12 | single ownership: two boxes that share a geometric corner hold the same query point index for it |
| GridState.PositionsAreCorners | src/libmc/FastGrid.cpp:150-164 | the query point positions are exactly the set of corners of the existing boxes |
| GridState.QueryPointCount | src/libmc/FastGrid.cpp:150-164 | there are exactly as many query points as distinct box corners |
| Grid.BoxCornerPosition | src/libmc/FastGrid.cpp:141-156 | corner k of a box is the box centre `cell * voxelsize + v_min` moved by exactly half a voxel, up or down, along each axis |
| Grid.BoxCornerIsHalfVoxelCorner | src/libmc/FastGrid.cpp:141-156 | the box centre plus `box_creation_table[k] * vsh` is the half-voxel corner `2 * c + box_creation_table[k]`, in exact arithmetic |
| Grid.WorldPositionInjective | src/libmc/FastGrid.cpp:154-156 | different half-voxel positions are different points in space, for any non-zero voxel size |
| Grid.DistinctWorldPositions | src/libmc/FastGrid.cpp:154-158 | query points with distinct half-voxel positions have distinct positions in space |
| Grid.MaxIndex | src/libmc/FastGrid.cpp:229-232 | `max_index` is the least integer not below (largest extent + 5 voxels) / voxelsize |
| Grid.Ceil | src/libmc/FastGrid.cpp:232-237 | `ceil` gives the least integer not below its argument |
| Grid.Max | src/libmc/FastGrid.cpp:229 | `max` is one of its arguments and not below either |
| Grid.MaxIndexCoversAxes | src/libmc/FastGrid.cpp:229-237 | for a positive voxel size, the overall bound (largest extent plus 5 voxels) is at least each per-axis extent plus 5 voxels |
| Grid.Evaluated | src/libmc/FastGrid.cpp:175-181 | same number of query points, same positions, each distance is the distance function at that position |
| Grid.EvaluatedKeepsInvariant | src/libmc/FastGrid.cpp:175-181 | evaluating the distances keeps the grid invariant |
| Grid.FastGrid.constructor | src/libmc/FastGrid.cpp:59-72 | after sizing, grid construction and evaluation: the grid invariant holds, the boxes are exactly the cells touched by the points, and every distance is evaluated |
| Grid.FastGrid.FindQueryPoint | src/libmc/FastGrid.cpp:81-103 | returns -1 exactly when none of the seven neighbours named by row `position` exists with that corner resolved; otherwise it returns the slot of the first one that does; nothing changes |
| Grid.FastGrid.CreateBox | src/libmc/FastGrid.cpp:137-166 | for an absent cell, inserts a new box whose slots extend the map, appends query points only, and keeps the grid invariant with `global_index == |query_points|`; for a present cell, changes nothing |
| Grid.FastGrid.FillBox | src/libmc/FastGrid.cpp:150-164 | resolves all eight corners of the new box without touching existing boxes |
| Grid.FastGrid.ResolveCorner | src/libmc/FastGrid.cpp:151-161 | gives corner k of the new box either the first neighbour's index or a new query point with the next global index |
| Grid.FastGrid.CreateGrid | src/libmc/FastGrid.cpp:105-171 | from an empty grid, creates exactly the cells `point + HGCreateTable[j]` and leaves the grid invariant holding |
| Grid.FastGrid.SharedCornersAgree | src/libmc/FastGrid.cpp:10-12 | in the built grid, two boxes sharing a geometric corner hold the same index in their slot arrays |
| Grid.FastGrid.OneQueryPointPerCorner | src/libmc/FastGrid.cpp:150-164 | in the built grid there is one query point per distinct box corner, and no two query points share a position |
| Grid.FastGrid.CalcQueryPointValues | src/libmc/FastGrid.cpp:173-183 | the query points become `Evaluated(old(query_points), distance)`, and the grid invariant is kept |
| Grid.FastGrid.CalcIndices | src/libmc/FastGrid.cpp:227-239 | `max_index` is the ceiling of (largest extent + 5 voxels) / voxelsize, `max_index_square == max_index * max_index`, the per-axis bounds are the ceilings plus 1, 2 and 3, and for a positive voxel size `max_index` is at least each of them |
| SinglePoint.CubeCornersAreLattice | src/libmc/FastGrid.cpp:48-57 | the corners of the eight unit-cube cells are exactly the 27 points of the 3 x 3 x 3 lattice |
| SinglePoint.SinglePointGrid | src/libmc/FastGrid.cpp:125-166 | a valid grid whose boxes are the cells touched by one point with the unit-cube offsets has 8 boxes and 27 query points |
| SinglePoint.SinglePointConstruction | src/libmc/FastGrid.cpp:59-72 | building the grid from one point with the unit-cube offsets yields 8 boxes and 27 query points |

## Left out

- `readPoints` and `getFieldsPerLine` (file input with token counting): I/O. The constructor takes the points, already as integer cell coordinates, and the bounding box as parameters.
- `calcIndex`, `hashValue` and `HGCreateTable`: not part of this model, because their bodies are outside the modelled file. The map is keyed by the cell coordinate, which amounts to an injective hash. The creation table is a parameter.
- The `StannInterpolator` construction and its nearest-neighbour distance: foreign code. The distance function is a parameter `Vec3 -> real` on the half-voxel position. The point in space determines the half-voxel position (`WorldPositionInjective`), so a distance on `Vec3` loses nothing.
- `createMesh` and `writeGrid`: mesh extraction through `FastBox::calcApproximation`, which is defined in `FastBox`, outside the modelled file, and file output.
- The destructor and all `cout` progress output.
- Floating-point arithmetic: box centres, `vsh` and the divisions by `voxelsize` are exact (half-voxel integers and reals). Rounding is not modelled.
- Grid.FastGrid.CalcIndices: does not model the 32-bit `int` overflow of `max_index_square`, or float rounding inside `ceil`. It uses unbounded integers and exact reals.
- `global_index`, the slot values and the cell coordinates are unbounded integers; the source's 32-bit `int` would wrap past 2^31 query points or at extreme coordinates.
- Grid.FastGrid.CreateGrid: requires an empty grid, because `global_index` is a local that starts at 0. The only caller, the constructor, calls it once on a fresh grid.
- Grid.FastGrid.ResolveCorner: a new query point gets distance 0.0. The `QueryPoint(position)` constructor is defined with `QueryPoint`, outside the modelled file. `CalcQueryPointValues` overwrites every distance afterwards.
- Grid.FastGrid.CreateBox: the initial contents of a new `FastBox` are set by the `FastBox` constructor, outside the modelled file. The model fills the new slot array with -1, but the proof does not depend on it, since every slot is written before the box is inserted.
- Order independence: the model does not prove that the result is independent of the order of the input points.
- SinglePoint.SinglePointConstruction: the unit-cube offsets stand in for `HGCreateTable`, which is defined outside the modelled file.
