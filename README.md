# shapecutter, modelled in Dafny

shapecutter cuts gridded data (iris cubes) to shapely geometries. The
geometries are looked up by an attribute reference in a geometry store: a
Cartopy shapefile reader or a GeoPandas frame. A cut has two stages. First
the cube's longitude axis is rolled onto the geometry's interval, (-180, 180)
or (0, 360), and the cube is cropped to the geometry's bounding box. Then,
optionally, every cell of the crop whose box does not meet the geometry is
masked.

This project models that engine (`shapecutter/cutter.py`) and the geometry
providers (`shapecutter/providers/geometry.py`), and proves the properties
they promise.

- `values.dfy`: the attribute values of a store, with Python's `str` and
  `repr` as far as the messages and cache keys need them.
- `errors.dfy`: the Python exceptions the code can raise, as an `Error`
  value inside a `Result`.
- `shapes.dfy`: a shapely geometry as a union of closed rectangles plus its
  bounds tuple; `box` and `intersects`.
- `indices.dfy`: index selection and permutations, used by extraction and
  re-wrapping.
- `grids.dfy`: an iris cube as one x and one y dimension coordinate (points
  and optional cell bounds), the shape of the other dimensions, and one
  horizontal field per index of the other dimensions. It also holds the iris
  operations the engine calls, stated by what they do to such a grid:
  `extract`, `intersection`, `guess_bounds` and the masked copy.
- `geometry_providers.dfy`: geometry references, the Cartopy provider as a
  class whose record scan fills a lookup cache, the GeoPandas provider over
  a frame value, and provider selection.
- `cutter.dfy`: the `Cutter` class and the functions that specify its
  methods.

In this model the `Cutter` methods change only the Cartopy provider's cache.
In the source, `guess_bounds` also adds bounds in place to the coordinates of
a crop that translation returned as it is (see "Left out"). Each method is
proved equal to a function of the grid and the provider state. That function
returns both the result and the new state, and the engine's properties are
lemmas about these functions.

Several lines of the source cannot run as written. The model follows their
evident intent, and the Findings table shows what the code as written does.
Four more defects are recorded here and in the header of `cutter.dfy`:

- `shapecutter/cutter.py:81` uses `iris`, and `shapecutter/cutter.py:112`
  uses `box`, but neither is imported. The model uses iris extraction and
  shapely's `box`.
- `shapecutter/cutter.py:94` passes the dataset to
  `_translate_cube_to_geometry`, which takes only the reference and always
  translates `self.data_source`. The model translates the dataset it is
  given.
- `shapecutter/cutter.py:17` calls `.next()` on iris's slice iterator. That
  is the Python 2 protocol. Whether it fails depends on the iris version:
  with an iris whose slice iterator has no `next` method it raises
  AttributeError. The model takes the first slice, as `next(...)` would.

## Model

| member | source | states |
|---|---|---|
| ShapeCutter.DatelineCentre | shapecutter/cutter.py:22-29 | for a longitude, the flag is set exactly when (-180, 180) cannot hold the maximum |
| ShapeCutter.IntervalOf | shapecutter/cutter.py:22-29 | an x axis is on (0, 360) exactly when its maximum exceeds 180, so a maximum of exactly 180 counts as (-180, 180); a longitude lies in the interval it indicates |
| ShapeCutter.TranslateToGeometry | shapecutter/cutter.py:47-62 | the grid is rolled only when its dateline flag (from its last x point) differs from the geometry's (from its maxx), and then onto the geometry's interval; otherwise it is returned unchanged; a grid with no x points raises IndexError; rolling keeps the y axis, the other dimensions and the number of x points |
| ShapeCutter.AgreeingIntervalsFailAsWritten | shapecutter/cutter.py:55-62 | when the flags agree the code as written raises UnboundLocalError where the intended code returns the grid; when they differ the two agree |
| ShapeCutter.TranslationReachesGeometryInterval | shapecutter/cutter.py:55-60 | when the grid's and the geometry's dateline flags differ, translation succeeds and every longitude in [-180, 360] ends on the geometry's interval, half-open as [Lo, Hi) |
| ShapeCutter.TranslateAsWritten | shapecutter/cutter.py:47-62 | as written, translation succeeds only when the flags differ; otherwise it raises IndexError (no x points) or UnboundLocalError |
| ShapeCutter.TranslateSpec | shapecutter/cutter.py:47-62 | translation first fetches the geometry's maxx, so the provider state afterwards is the one that lookup leaves; translation keeps the y axis and the x size |
| ShapeCutter.Cutter.TranslateCubeToGeometry | shapecutter/cutter.py:47-62 | the method returns what `TranslateSpec` gives on the provider's state before the call, and leaves the state it gives |
| ShapeCutter.BboxSpec | shapecutter/cutter.py:64-82 | a crop has at most the data source's x points, only y points of the data source, and its other dimensions |
| Grids.Extract | shapecutter/cutter.py:79-82 | a crop has no more x or y points than the cube and keeps its other dimensions and number of fields; its range test (`CellInRange`) is iris's `lo <= cell <= hi`, which compares a cell without bounds as its point and a bounded cell through its larger bound (`lo <= cell`) and smaller bound (`cell <= hi`) |
| ShapeCutter.Cutter.GeometryBboxDataset | shapecutter/cutter.py:64-82 | translate the data source, fetch the geometry's bounds, then crop: result and new provider state are those of `BboxSpec` |
| ShapeCutter.BboxWithinGeometryBounds | shapecutter/cutter.py:77-82 | every cell of a bounding-box crop passes the range test against the geometry's bounds, taken in shapely's (minx, miny, maxx, maxy) order: on an axis without bounds every point lies within them, on an axis with bounds every cell's bounds overlap them |
| ShapeCutter.LaterLookupsAgree | shapecutter/cutter.py:72-77 | after the maxx lookup, the bounds lookup and the geometry lookup of the same cut see the same geometry and leave the provider state as it was |
| ShapeCutter.BboxCutIdempotent | shapecutter/cutter.py:146-149 | cropping again from the provider state a crop left gives the same crop and the same state |
| Grids.ExtractIsInclusiveRangeFilter | shapecutter/cutter.py:77-82 | extraction keeps, in order, exactly the x and y cells that pass the range test, and each kept cell passes it in the crop; on an axis without bounds it keeps a point exactly when lo ≤ p ≤ hi; it carries each kept cell's data unchanged in every field; it gives None exactly when no x or no y cell passes |
| Grids.KeptIsRangeFilter | shapecutter/cutter.py:79-80 | the kept indices are, in ascending order, exactly the cells that pass the range test; on a coordinate without bounds a point survives exactly when it lies in [lo, hi] |
| Grids.KeptPasses | shapecutter/cutter.py:79-80 | the kept indices are ascending and are exactly the passing cells |
| Grids.PickedCellsPass | shapecutter/cutter.py:79-80 | each kept cell passes the range test in the cropped coordinate too |
| Grids.KeptPointsInRange | shapecutter/cutter.py:79-80 | on a coordinate without bounds a point is kept exactly when lo ≤ p ≤ hi |
| Grids.KeptEmpty | shapecutter/cutter.py:79-82 | the filter keeps nothing exactly when no cell passes |
| Grids.RewrapMovesColumns | shapecutter/cutter.py:56-60 | a roll permutes whole columns: each output column is one input column with its point moved by a whole turn and its data unchanged; points within a turn of the interval all land on its half-open form [Lo, Hi) |
| Grids.Wrap | shapecutter/cutter.py:60 | a longitude within a turn of the interval lands on [Lo, Hi), one already there stays, and the upper end itself becomes the lower end, as `wrap_lons` gives |
| Grids.UpperEndClasses | shapecutter/cutter.py:60 | against (-180, 180), the longitude 180 is classed with those that wrap down |
| Grids.UpperEndOrder | shapecutter/cutter.py:60 | rolling [0, 90, 180, 270] onto (-180, 180) puts the 180 and 270 columns first |
| Grids.UpperEndWrapsToFront | shapecutter/cutter.py:60 | rolling [0, 90, 180, 270] onto (-180, 180) gives [-180, -90, 0, 90] |
| Grids.WrapOrder | shapecutter/cutter.py:56-60 | the new column order lists every column exactly once |
| Grids.Rewrap | shapecutter/cutter.py:60 | a roll keeps the y axis, the other dimensions, the number of x points and whether x has bounds |
| Indices.PartitionOrderIsPermutation | shapecutter/cutter.py:60 | columns that wrap down, then those on the interval, then those that wrap up form a permutation of all columns |
| ShapeCutter.Field2DAndDims | shapecutter/cutter.py:8-19 | the first horizontal field, shaped (y, x), and the sorted positions of the y and x dimensions, which are the last two; a cube with no fields raises StopIteration |
| ShapeCutter.EnsureBounds | shapecutter/cutter.py:99-101 | a coordinate with bounds is left as it is; one without gets guessed bounds, one per point, and fewer than two points raises ValueError with iris's fixed text "Cannot guess bounds for a coordinate of length 1." |
| Grids.GuessBounds | shapecutter/cutter.py:101 | guessed bounds come one per point |
| Grids.GuessedBoundsTile | shapecutter/cutter.py:101 | guessed cells are contiguous, an inner cell spans the midpoints to its neighbours, and on ascending points each cell contains its point |
| Shapes.Box | shapecutter/cutter.py:112 | `box` gives a well-ordered rectangle with the given corners, whatever order they come in |
| Shapes.IntersectsWithinBounds | shapecutter/cutter.py:136-142 | a cell that meets the geometry overlaps its bounding box; this holds for cell boxes, while on an axis without bounds the crop tests points (see `StraddlingCellDroppedByCrop`) |
| ShapeCutter.StraddlingCellDroppedByCrop | shapecutter/cutter.py:77-82 | on axes without bounds the crop tests points: a guessed cell box that meets the geometry is dropped when its point lies outside the geometry's bounds |
| ShapeCutter.BoundedStraddlingCellKept | shapecutter/cutter.py:79-82 | on axes with bounds the crop keeps a cell whose point lies outside the geometry's bounds but whose bounds overlap them |
| ShapeCutter.BuildBoundaryMask | shapecutter/cutter.py:104-116 | the mask has y-size rows of x-size entries, and entry [yi][xi] holds exactly when the geometry meets box(x_lo, y_lo, x_hi, y_hi) from x bounds xi and y bounds yi |
| ShapeCutter.BoundaryMask | shapecutter/cutter.py:104-116 | the mask is shaped (y size, x size) |
| ShapeCutter.Reshape | shapecutter/cutter.py:116 | reshaping gives ny rows of nx entries |
| ShapeCutter.MeshCells | shapecutter/cutter.py:107-109 | the meshgrid walk visits nx × ny cells, each inside the grid |
| ShapeCutter.ReshapedMeshTests | shapecutter/cutter.py:107-116 | reshaping the answers collected in meshgrid order (x fastest) puts cell (xi, yi)'s answer at row yi, column xi |
| ShapeCutter.BoundaryMaskSpec | shapecutter/cutter.py:84-117 | a boundary mask, when built, is shaped like the dataset's (y, x) grid |
| ShapeCutter.Cutter.GeometryBoundaryMask | shapecutter/cutter.py:84-117 | translate, give both coordinates bounds, fetch the geometry, test every cell: result and new provider state are those of `BoundaryMaskSpec` |
| Grids.MaskedCopyKeepsOnlyMaskedIn | shapecutter/cutter.py:126-128 | after masking, a cell holds data exactly when its mask entry is true and it held data before, and then the same value, for every index of the other dimensions |
| Grids.MaskedCopy | shapecutter/cutter.py:126-128 | the masked copy has the same axes and the same number of fields |
| ShapeCutter.CutToBoundarySpec | shapecutter/cutter.py:119-130 | None when the crop is None, has no 2D field, or its mask fails; otherwise the crop masked by its boundary mask |
| ShapeCutter.CutToBoundaryOnlyMasks | shapecutter/cutter.py:119-130 | a boundary cut keeps the crop's axes, and every cell it keeps holds the crop's value |
| ShapeCutter.CutToBoundaryAsWritten | shapecutter/cutter.py:121-125 | as written, every call returns None and leaves the provider untouched |
| ShapeCutter.BoundaryCutIsNoneAsWritten | shapecutter/cutter.py:121-125 | on a 2 by 2 crop inside the geometry, the intended cut is the masked crop on the same axes, while the code as written returns None |
| ShapeCutter.Cutter.CutToBoundary | shapecutter/cutter.py:119-130 | the method returns what `CutToBoundarySpec` gives and leaves the state it gives |
| ShapeCutter.CutCubeSpec | shapecutter/cutter.py:132-158 | the crop always runs first and its failures propagate; "bbox" returns the crop, "boundary" the boundary cut, and any other `to` raises ValueError |
| ShapeCutter.ToMessage | shapecutter/cutter.py:155 | the ValueError message ends with the rejected `to` value and a period |
| ShapeCutter.ToMessageNamesBoth | shapecutter/cutter.py:155-156 | the ValueError message names both 'bbox' and 'boundary' |
| ShapeCutter.BoundaryCutWithinBboxCut | shapecutter/cutter.py:146-153 | the boundary cut fails exactly when the bounding-box cut fails, is None when the crop is None, and otherwise keeps only cells the bounding-box cut holds, with the same values on the same axes |
| ShapeCutter.Cutter.CutCube | shapecutter/cutter.py:132-158 | the method returns what `CutCubeSpec` gives and leaves the state it gives |
| ShapeCutter.Cutter.New | shapecutter/cutter.py:34-45 | the cutter keeps its data and geometry sources and selects a provider; an unsupported source raises TypeError; a Cartopy provider starts with an empty cache |
| GeometryProviders.HandleGeometryRef | shapecutter/providers/geometry.py:22-25 | a tuple or list gives its first two elements, a dict its first (key, value) pair, and too short a reference raises IndexError |
| GeometryProviders.HandleGeometryRefAsWritten | shapecutter/providers/geometry.py:22-25 | as written, a dict becomes its list of items, so key and value come back as item tuples |
| GeometryProviders.SingleEntryDictFailsAsWritten | shapecutter/providers/geometry.py:22-25 | a single-entry dict raises IndexError as written but yields its pair as intended |
| GeometryProviders.GeomUid | shapecutter/providers/geometry.py:68 | the cache key is the key's text, a comma, then the value's text |
| GeometryProviders.CacheKeyCollision | shapecutter/providers/geometry.py:68 | ("a,b", "c") and ("a", "b,c") have the same cache key |
| GeometryProviders.CollidingReferenceGetsCachedGeometry | shapecutter/providers/geometry.py:68-74 | because the keys collide, a reference that matches no record is served another reference's cached geometry |
| GeometryProviders.ScanRecords | shapecutter/providers/geometry.py:69-73 | a scan that raises raises KeyError for the key |
| GeometryProviders.ScanFoundIffFirstMatch | shapecutter/providers/geometry.py:69-73 | the scan finds a geometry exactly when it belongs to the first record whose attribute equals the value, all earlier records having the attribute |
| GeometryProviders.ScanNotFoundIffNoneMatch | shapecutter/providers/geometry.py:69-73 | the scan finds nothing exactly when every record has the attribute with another value |
| GeometryProviders.ScanFindsFirstMatch | shapecutter/providers/geometry.py:69-73 | the scan returns the geometry of the first record whose attribute equals the value; it finds nothing exactly when no record matches; a record without the attribute raises KeyError |
| GeometryProviders.Resolve | shapecutter/providers/geometry.py:66-74 | a cache hit returns the cached geometry without scanning; a miss scans and caches what it finds; no match raises KeyError for the cache key; a call adds at most the reference's own entry, changes no existing entry, and a failure leaves the cache unchanged |
| GeometryProviders.ResolveKeepsCacheSound | shapecutter/providers/geometry.py:69-73 | every cached geometry stays one a scan finds for some reference with that key |
| GeometryProviders.ResolveIdempotent | shapecutter/providers/geometry.py:69-74 | looking up again with the cache a lookup left gives the same answer and the same cache |
| GeometryProviders.CartopyGeometryProvider.constructor | shapecutter/providers/geometry.py:53-58 | a new provider holds the reader's records, an empty cache, the four bound names and their positions |
| GeometryProviders.CartopyGeometryProvider.GetItem | shapecutter/providers/geometry.py:66-74 | the loop with `break` returns and caches what `Resolve` gives on the cache before the call |
| GeometryProviders.CartopyGetItemAsWritten | shapecutter/providers/geometry.py:66-67 | as written, every lookup raises NameError for `key` |
| GeometryProviders.CartopyLookupFailsAsWritten | shapecutter/providers/geometry.py:66-67 | a reference the intended lookup resolves still fails as written |
| GeometryProviders.CartopyGeometryProvider.GetBoundsPoints | shapecutter/providers/geometry.py:79-81 | the bounds of the looked-up geometry, with the cache left as the lookup leaves it |
| GeometryProviders.NamedBoundsOf | shapecutter/providers/geometry.py:58 | the table has exactly the given names as keys, and maps each to a position that holds that name |
| GeometryProviders.NamedBoundPositions | shapecutter/providers/geometry.py:57-58 | the named-bound table maps minx, miny, maxx and maxy to 0, 1, 2 and 3 |
| GeometryProviders.IndexOf | shapecutter/providers/geometry.py:58 | `list.index`: the first position of a name in the list |
| GeometryProviders.CartopyNamedBound | shapecutter/providers/geometry.py:83-90 | the bounds are fetched first, so a lookup failure wins; each of the four names gives its bound; any other name raises ValueError |
| GeometryProviders.BoundNameMessage | shapecutter/providers/geometry.py:88 | the ValueError message ends with the `repr` of the rejected name and a period |
| GeometryProviders.BoundNameMessageListsNames | shapecutter/providers/geometry.py:88 | the ValueError message lists all four bound names |
| Values.ListReprShowsItems | shapecutter/providers/geometry.py:88 | a printed list of names shows each name in quotes |
| GeometryProviders.CartopyGeometryProvider.GetNamedBound | shapecutter/providers/geometry.py:83-90 | the method returns what `CartopyNamedBound` gives and leaves the cache it gives |
| GeometryProviders.MatchingRows | shapecutter/providers/geometry.py:106 | the filter keeps exactly the rows whose column equals the value, and no more rows than the frame has |
| GeometryProviders.MatchingRowsCounts | shapecutter/providers/geometry.py:106 | each matching row is kept as often as it occurs in the frame, and no other row is kept |
| GeometryProviders.MatchingRowsInOrder | shapecutter/providers/geometry.py:106 | the kept rows are a subsequence of the frame: they keep their order |
| GeometryProviders.FirstMatchingRowIsScanMatch | shapecutter/providers/geometry.py:104-107 | on a table where every row has the column, the first row the filter keeps is the Cartopy scan's first match, and the filter keeps nothing exactly when the scan finds nothing |
| GeometryProviders.GeoPandasGetItem | shapecutter/providers/geometry.py:104-107 | the geometries of the rows whose column equals the value, one per matching row and in the rows' order; a missing column raises KeyError |
| GeometryProviders.GeoPandasBoundsPoints | shapecutter/providers/geometry.py:112-115 | the bounds of the first matching row; no matching row raises IndexError |
| GeometryProviders.GeoPandasNamedBound | shapecutter/providers/geometry.py:117-119 | the named bound of the first matching row; a name that is not a bounds column raises KeyError |
| GeometryProviders.StateGeometries | shapecutter/providers/geometry.py:66-74 | `provider[ref]` on a provider state: a GeoPandas state is unchanged; a Cartopy lookup keeps the records and every cached entry, gives exactly one geometry, and changes nothing when it fails |
| GeometryProviders.StateBoundsPoints | shapecutter/providers/geometry.py:79-81 | `get_bounds_points`: the bounds of the first geometry that `provider[ref]` gives, with its state and its error |
| GeometryProviders.StateNamedBound | shapecutter/providers/geometry.py:83-90 | `get_named_bound`: the named component of `get_bounds_points`' bounds, with its state and its error; a name other than the four fails |
| GeometryProviders.ProviderGeometries | shapecutter/cutter.py:104 | the provider call `self.geometry_provider[geometry_ref]`: result and new state are `StateGeometries` of the old state |
| GeometryProviders.ProviderBoundsPoints | shapecutter/cutter.py:77 | the provider call `get_bounds_points`: result and new state are `StateBoundsPoints` of the old state |
| GeometryProviders.ProviderNamedBound | shapecutter/cutter.py:49 | the provider call `get_named_bound(geometry_ref, "maxx")`: result and new state are `StateNamedBound` of the old state |
| GeometryProviders.SelectBestGeometryProvider | shapecutter/providers/geometry.py:122-129 | a Fiona reader gets the Cartopy provider with an empty cache, a frame or a path string gets the GeoPandas provider, and anything else raises TypeError |

## Left out

- File loading: the `load` methods and the load-on-access `geometry_source` property read files through cartopy and geopandas. A path source is given together with the frame the file holds.
- `__getattr__` pass-through, the `__repr__` strings, the unimplemented base-class stubs, and `shapecutter/providers/data.py` (stubs, never wired in) are not part of this model.
- Polygon geometry: a geometry is a union of closed rectangles, and `intersects` is the closed overlap test. Floating point is modelled as real arithmetic.
- iris internals are modelled only by their input and output on the abstract grid. This covers `extract` with coordinate-value predicates, `intersection` on a cyclic axis, `guess_bounds` and `broadcast_to_shape`.
- Grids.Rewrap: moves each point by at most one whole turn, and keeps all columns. Points are wrapped onto the half-open interval [Lo, Lo + 360) as iris's `wrap_lons` does, so a point at the upper end moves to the lower end and to the front of the axis (Grids.UpperEndWrapsToFront). iris can also drop or duplicate columns at the seam when it selects the wrapped points against the closed extent, and those cases are not modelled.
- Grids.Extract: keeps one-point axes as dimensions. iris would collapse them to scalar coordinates. Then `_get_2d_field_and_dims` finds no x or no y dimension coordinate, the unpacking at cutter.py:11-12 raises, and `_cut_to_boundary` returns None. So in the source, a boundary cut of a crop with one x point or one y point is None, while the model masks it.
- ShapeCutter.CutToBoundarySpec: masks a crop with one x point or one y point; the source returns None for it (see the Grids.Extract line).
- ShapeCutter.CutToBoundaryOnlyMasks: "same axes" holds in the model only. In the source the x and y coordinates of the cut can carry guessed bounds the crop did not have (see the ShapeCutter.EnsureBounds line), and a crop with a one-point axis gives None.
- ShapeCutter.BoundaryCutWithinBboxCut: the same two differences as CutToBoundaryOnlyMasks. The points and the kept cell values agree; the guessed bounds do not.
- Grids.Extract: iris's `Cell` comparison with a number is modelled for dimension coordinates only, as the cell's point when it has no bounds and through its larger and smaller bound when it has. On an axis without bounds, a cell whose guessed box meets the geometry but whose point lies outside the geometry's bounds is not in the crop and never reaches the boundary mask (ShapeCutter.StraddlingCellDroppedByCrop).
- Grids.ExtractIsInclusiveRangeFilter: the statement about points (kept exactly when lo ≤ p ≤ hi) is made for axes without bounds only; an axis with bounds is filtered by bounds overlap, as iris does.
- ShapeCutter.BboxWithinGeometryBounds: points within the geometry's bounds are promised for axes without bounds only; on an axis with bounds a kept point may lie outside them, its bounds overlapping them.
- The horizontal dimensions of a grid are always its last two, y then x.
- ShapeCutter.EnsureBounds: returns the coordinate with bounds. iris adds them to the coordinate in place. When the dateline flags agree, translation returns the crop object itself, so `guess_bounds` at cutter.py:99-101 adds bounds to the crop's own coordinates. The boundary cut, a copy of the crop, then carries those bounds. The model's grids are values, so the cut keeps the crop's original coordinates, and in-place update and aliasing of the crop are not captured.
- ShapeCutter.BoundaryMaskSpec: a GeoPandas lookup that returns more or fewer than one geometry fails with one fixed ValueError message, not numpy's exact text.
- Values.Repr: string escaping is not modelled.
- ShapeCutter.Cutter.CutCube: takes `to` explicitly. The source's default, `to="bbox"` at cutter.py:132, is the call `CutCube(ref, "bbox")`.
- GeometryProviders.GeoPandasBoundsPoints: the frame's index labels are taken to be unique, so `bounds.index[0]` is the first matching row.
- The integration scripts call a `Cutter` constructor with an `ignore_errors` flag and a `cut_dataset` method. The code defines neither, so the model always swallows failures in `_cut_to_boundary`, as the code does.

## Findings

| source | as written | input that shows it | evidently intended | confidence | as-written member | corrected member |
|---|---|---|---|---|---|---|
| shapecutter/cutter.py:55-62 | `result` is assigned only when the intervals differ, so it is unbound otherwise | a grid and a geometry both on (-180, 180): UnboundLocalError | return the data source unchanged when the intervals agree | high, not executed | ShapeCutter.AgreeingIntervalsFailAsWritten | ShapeCutter.TranslateToGeometry |
| shapecutter/cutter.py:121-125 | `geometry_boundary_mask` is called without `self.`, and the bare `except` turns the NameError into `None`. With an iris whose slice iterator has no `next` method, line 122 fails before that, through `.next()` at cutter.py:17 | a 2 by 2 crop inside the geometry: `None` for any input | call `self.geometry_boundary_mask` at line 123 and mask the crop (and, with such an iris, take the slice with `next(...)` at line 17) | high, not executed | ShapeCutter.BoundaryCutIsNoneAsWritten | ShapeCutter.CutToBoundarySpec |
| shapecutter/providers/geometry.py:22-25 | a dict reference is turned into its list of items before elements 0 and 1 are taken | `{"name": "Indiana"}`: IndexError; a two-entry dict gives two item tuples | a dict yields its (key, value) pair | medium, not executed | GeometryProviders.SingleEntryDictFailsAsWritten | GeometryProviders.HandleGeometryRef |
| shapecutter/providers/geometry.py:66-67 | the parameter is `keys` but the body reads `key` | any reference, e.g. ("name", "Indiana"): NameError | look up the reference passed in | high, not executed | GeometryProviders.CartopyLookupFailsAsWritten | GeometryProviders.Resolve |
