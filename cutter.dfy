/**
 * The cutting engine (shapecutter/cutter.py): reconcile the longitude
 * interval of the grid with the geometry's, crop the grid to the geometry's
 * bounding box, and optionally mask the crop cell by cell to the geometry's
 * boundary.
 *
 * In this model the `Cutter` methods change nothing but the Cartopy
 * provider's lookup cache. (In the source, `guess_bounds` also adds bounds in
 * place to the coordinates of a crop that translation returned as it is;
 * grids here are values, so the cut carries the crop's own coordinates.)
 * Each method is specified by a function of the grid and the provider state
 * that returns the result and the new provider state; the properties of the
 * engine are lemmas about those functions.
 *
 * Where the code cannot run as written, the model follows the evident
 * intent, and the `...AsWritten` members record what the code does:
 *   - cutter.py:62 returns `result` even when nothing assigned it;
 *   - cutter.py:81 uses `iris` and cutter.py:112 uses `box`, neither of
 *     which is imported: the model uses iris extraction and shapely's box;
 *   - cutter.py:94 passes the dataset to a method that takes only the
 *     reference: the model translates the dataset it is given;
 *   - cutter.py:17 calls `.next()` on iris's slice iterator, the Python 2
 *     spelling; with an iris whose iterator has no `next` method it raises
 *     AttributeError: the model takes the first slice, as `next(...)` does;
 *   - cutter.py:123 calls `geometry_boundary_mask` without `self.`, so the
 *     bare `except` turns every boundary cut into `None` (with such an
 *     iris, line 122 fails first, through line 17).
 */
module ShapeCutter {
  import opened Values
  import opened Errors
  import opened Shapes
  import opened Grids
  import opened GeometryProviders

  // ---------------------------------------------------------------------------
  // Longitude-interval reconciliation

  /**
   * `_dateline_centre`: an x axis is on (0, 360) when its maximum exceeds 180,
   * and on (-180, 180) otherwise; a maximum of exactly 180 is (-180, 180).
   */
  function DatelineCentre(maxX: real): (c: bool)
    ensures -180.0 <= maxX <= 360.0 ==> (c <==> !(Pm180.Lo() <= maxX <= Pm180.Hi()))
  {
    maxX > 180.0
  }

  /** The interval a maximum x value indicates, which contains that value when it is a longitude. */
  function IntervalOf(maxX: real): (iv: XInterval)
    ensures iv == ZeroTo360 <==> maxX > 180.0
    ensures -180.0 <= maxX <= 360.0 ==> iv.Lo() <= maxX <= iv.Hi()
  {
    if DatelineCentre(maxX) then ZeroTo360 else Pm180
  }

  /**
   * `_translate_cube_to_geometry` as written: when the two intervals agree no
   * branch assigns `result`, and returning it raises UnboundLocalError.
   */
  function TranslateAsWritten(dataset: Grid, geomXmax: real): (r: Result<Grid>)
    ensures r.Ok? ==>
      && dataset.x.points != []
      && DatelineCentre(geomXmax) != DatelineCentre(dataset.x.points[|dataset.x.points| - 1])
    ensures r.Err? ==> r.error == IndexError || r.error == UnboundLocalError("result")
  {
    if dataset.x.points == [] then Err(IndexError)
    else
      var cubeXmax := dataset.x.points[|dataset.x.points| - 1];
      if DatelineCentre(geomXmax) != DatelineCentre(cubeXmax) then
        Ok(Rewrap(dataset, if DatelineCentre(cubeXmax) then Pm180 else ZeroTo360))
      else Err(UnboundLocalError("result"))
  }

  /**
   * The evident intent: the grid is rolled only when its interval (read from
   * its last x point) differs from the geometry's (read from the geometry's
   * maxx), and then always onto the geometry's interval; when they agree the
   * grid is returned as it is. A grid with no x points has no last point.
   */
  function TranslateToGeometry(dataset: Grid, geomXmax: real): (r: Result<Grid>)
    ensures r.Err? <==> dataset.x.points == []
    ensures r.Err? ==> r.error == IndexError
    ensures r.Ok? ==>
      var cubeXmax := dataset.x.points[|dataset.x.points| - 1];
      && (DatelineCentre(geomXmax) == DatelineCentre(cubeXmax) ==> r.value == dataset)
      && (DatelineCentre(geomXmax) != DatelineCentre(cubeXmax) ==> r.value == Rewrap(dataset, IntervalOf(geomXmax)))
    ensures r.Ok? ==> |r.value.x.points| == |dataset.x.points| && r.value.y == dataset.y
    ensures r.Ok? ==> r.value.otherShape == dataset.otherShape && |r.value.slices| == |dataset.slices|
  {
    if dataset.x.points == [] then Err(IndexError)
    else
      var cubeXmax := dataset.x.points[|dataset.x.points| - 1];
      if DatelineCentre(geomXmax) != DatelineCentre(cubeXmax) then
        Ok(Rewrap(dataset, if DatelineCentre(cubeXmax) then Pm180 else ZeroTo360))
      else Ok(dataset)
  }

  /**
   * When the intervals agree the code as written fails where the intended
   * code returns the grid unchanged; when they differ both roll the grid.
   */
  lemma AgreeingIntervalsFailAsWritten(dataset: Grid, geomXmax: real)
    requires dataset.x.points != []
    ensures var cubeXmax := dataset.x.points[|dataset.x.points| - 1];
      && (DatelineCentre(geomXmax) == DatelineCentre(cubeXmax) ==>
            TranslateAsWritten(dataset, geomXmax) == Err(UnboundLocalError("result")) &&
            TranslateToGeometry(dataset, geomXmax) == Ok(dataset))
      && (DatelineCentre(geomXmax) != DatelineCentre(cubeXmax) ==>
            TranslateAsWritten(dataset, geomXmax) == TranslateToGeometry(dataset, geomXmax))
  {
  }

  /** The translation step on a provider state: fetch the geometry's maxx, then translate. */
  function TranslateSpec(dataset: Grid, s: ProviderState, ref: GeometryRef): (res: (Result<Grid>, ProviderState))
    ensures res.1 == StateNamedBound(s, ref, "maxx").1
    ensures res.0.Ok? ==> |res.0.value.x.points| == |dataset.x.points| && res.0.value.y == dataset.y
  {
    var (geomXmax, s1) := StateNamedBound(s, ref, "maxx");
    if geomXmax.Err? then (Err(geomXmax.error), s1)
    else (TranslateToGeometry(dataset, geomXmax.value), s1)
  }

  // ---------------------------------------------------------------------------
  // Bounding-box extraction

  /** `geometry_bbox_dataset`: translate the data source, then crop it to the geometry's bounds. */
  function BboxSpec(dataset: Grid, s: ProviderState, ref: GeometryRef): (res: (Result<Option<Grid>>, ProviderState))
    ensures res.0.Ok? && res.0.value.Some? ==>
      var crop := res.0.value.value;
      && |crop.x.points| <= |dataset.x.points|
      && (forall p :: p in crop.y.points ==> p in dataset.y.points)
      && crop.otherShape == dataset.otherShape
  {
    var (cube, s1) := TranslateSpec(dataset, s, ref);
    if cube.Err? then (Err(cube.error), s1)
    else
      var (bounds, s2) := StateBoundsPoints(s1, ref);
      if bounds.Err? then (Err(bounds.error), s2)
      else
        ExtractIsInclusiveRangeFilter(cube.value, bounds.value);
        (Ok(Extract(cube.value, bounds.value)), s2)
  }

  // ---------------------------------------------------------------------------
  // The boundary mask

  /**
   * `_get_2d_field_and_dims`: the first horizontal field of the cube and the
   * sorted positions of its y and x dimensions, which are its last two. A
   * cube with no fields (a zero-length other dimension) has no first slice.
   * The first slice is taken as `next(...)` takes it; the source's `.next()`
   * is the Python 2 spelling, which works only with an iris whose slice
   * iterator still has a `next` method.
   */
  function Field2DAndDims(g: Grid): (r: Result<(Field, seq<nat>)>)
    ensures r.Err? <==> g.slices == []
    ensures r.Err? ==> r.error == StopIteration
    ensures r.Ok? ==> Rectangular(r.value.0, |g.y.points|, |g.x.points|) && r.value.0 == g.slices[0]
    ensures r.Ok? ==> var rank := |g.otherShape| + 2; r.value.1 == [rank - 2, rank - 1]
  {
    if g.slices == [] then Err(StopIteration)
    else Ok((g.slices[0], [|g.otherShape|, |g.otherShape| + 1]))
  }

  /** iris's `guess_bounds` complaint, which has the same text whatever the coordinate's length. */
  const GuessBoundsMessage: string := "Cannot guess bounds for a coordinate of length 1."

  /**
   * The loop at cutter.py:99-101: a coordinate without bounds gets guessed
   * bounds (iris needs two points for that), a coordinate with bounds is left
   * as it is.
   */
  function EnsureBounds(c: Coord): (r: Result<Coord>)
    requires CoordFits(c)
    ensures c.bounds.Some? ==> r == Ok(c)
    ensures c.bounds.None? ==> (r.Ok? <==> |c.points| >= 2)
    ensures r.Ok? ==> r.value.points == c.points && r.value.bounds.Some? && |r.value.bounds.value| == |c.points|
    ensures c.bounds.None? && r.Ok? ==> r.value.bounds.value == GuessBounds(c.points)
    ensures r.Err? ==> r.error == ValueError(GuessBoundsMessage)
  {
    if c.bounds.Some? then Ok(c)
    else if |c.points| < 2 then
      Err(ValueError(GuessBoundsMessage))
    else Ok(Coord(c.points, Some(GuessBounds(c.points))))
  }

  /** `box(x_lo, y_lo, x_hi, y_hi)` for the cell with these x and y bounds. */
  function CellBox(xb: CellBounds, yb: CellBounds): Bounds {
    Box(xb.0, yb.0, xb.1, yb.1)
  }

  /** Entry [yi][xi] tells whether the geometry meets cell (xi, yi). */
  function BoundaryMask(geometry: Geometry, xBounds: seq<CellBounds>, yBounds: seq<CellBounds>): (m: Mask)
    ensures Rectangular(m, |yBounds|, |xBounds|)
  {
    seq(|yBounds|, yi requires 0 <= yi < |yBounds| =>
      seq(|xBounds|, xi requires 0 <= xi < |xBounds| => CellTest(geometry, xBounds, yBounds, (xi, yi))))
  }

  /**
   * `zip(x_points.reshape(-1), y_points.reshape(-1))` over
   * `np.meshgrid(np.arange(nx), np.arange(ny))`: every cell (xi, yi) of the
   * grid, row by row, x varying fastest.
   */
  function MeshCells(nx: nat, ny: nat): (cells: seq<(nat, nat)>)
    ensures |cells| == nx * ny
    ensures forall k :: 0 <= k < |cells| ==> cells[k].0 < nx && cells[k].1 < ny
  {
    if ny == 0 then []
    else MeshCells(nx, ny - 1) + seq(nx, xi requires 0 <= xi < nx => (xi, ny - 1))
  }

  /** `np.array(flat).reshape(ny, nx)`: each run of nx consecutive entries is a row. */
  function Reshape(flat: seq<bool>, ny: nat, nx: nat): (m: Mask)
    requires |flat| == nx * ny
    ensures Rectangular(m, ny, nx)
  {
    if ny == 0 then []
    else Reshape(flat[..|flat| - nx], ny - 1, nx) + [flat[|flat| - nx..]]
  }

  /** The test of the box of cell (xi, yi) against the geometry. */
  function CellTest(geometry: Geometry, xBounds: seq<CellBounds>, yBounds: seq<CellBounds>, cell: (nat, nat)): bool
    requires cell.0 < |xBounds| && cell.1 < |yBounds|
  {
    Intersects(geometry, CellBox(xBounds[cell.0], yBounds[cell.1]))
  }

  /**
   * Testing the cells in meshgrid order and reshaping the answers puts the
   * answer for cell (xi, yi) at row yi, column xi.
   */
  lemma {:induction false} ReshapedMeshTests(geometry: Geometry, xBounds: seq<CellBounds>, yBounds: seq<CellBounds>,
                                             flat: seq<bool>, ny: nat)
    requires ny <= |yBounds| && |flat| == |xBounds| * ny
    requires forall k :: 0 <= k < |flat| ==>
      flat[k] == CellTest(geometry, xBounds, yBounds, MeshCells(|xBounds|, ny)[k])
    ensures forall yi, xi :: 0 <= yi < ny && 0 <= xi < |xBounds| ==>
      Reshape(flat, ny, |xBounds|)[yi][xi] == CellTest(geometry, xBounds, yBounds, (xi, yi))
  {
    if ny > 0 {
      var nx := |xBounds|;
      var cells := MeshCells(nx, ny);
      var front := flat[..|flat| - nx];
      assert cells == MeshCells(nx, ny - 1) + seq(nx, xi requires 0 <= xi < nx => (xi, ny - 1));
      forall k | 0 <= k < |front|
        ensures front[k] == CellTest(geometry, xBounds, yBounds, MeshCells(nx, ny - 1)[k])
      {
        assert front[k] == flat[k] && cells[k] == MeshCells(nx, ny - 1)[k];
      }
      ReshapedMeshTests(geometry, xBounds, yBounds, front, ny - 1);
      var last := flat[|flat| - nx..];
      forall xi | 0 <= xi < nx
        ensures last[xi] == CellTest(geometry, xBounds, yBounds, (xi, ny - 1))
      {
        assert cells[|flat| - nx + xi] == (xi, ny - 1);
      }
    }
  }

  /** A (y, x) table of the cell tests is the boundary mask. */
  lemma BoundaryMaskOfTests(geometry: Geometry, xBounds: seq<CellBounds>, yBounds: seq<CellBounds>, m: Mask)
    requires Rectangular(m, |yBounds|, |xBounds|)
    requires forall yi, xi :: 0 <= yi < |yBounds| && 0 <= xi < |xBounds| ==>
      m[yi][xi] == CellTest(geometry, xBounds, yBounds, (xi, yi))
    ensures m == BoundaryMask(geometry, xBounds, yBounds)
  {
    var expected := BoundaryMask(geometry, xBounds, yBounds);
    forall yi | 0 <= yi < |yBounds|
      ensures m[yi] == expected[yi]
    {
      assert |m[yi]| == |expected[yi]|;
      forall xi | 0 <= xi < |xBounds|
        ensures m[yi][xi] == expected[yi][xi]
      {
        assert expected[yi][xi] == CellTest(geometry, xBounds, yBounds, (xi, yi));
      }
    }
  }

  /**
   * The loop at cutter.py:105-116: walk every (x, y) cell in meshgrid order,
   * test the cell's box against the geometry, collect the answers in a flat
   * list and reshape it to (y, x). Entry [yi][xi] holds exactly when the
   * geometry meets the box of x bounds xi and y bounds yi.
   */
  method BuildBoundaryMask(geometry: Geometry, xBounds: seq<CellBounds>, yBounds: seq<CellBounds>) returns (mask: Mask)
    ensures Rectangular(mask, |yBounds|, |xBounds|)
    ensures forall yi, xi :: 0 <= yi < |yBounds| && 0 <= xi < |xBounds| ==>
      (mask[yi][xi] <==> Intersects(geometry, CellBox(xBounds[xi], yBounds[yi])))
    ensures mask == BoundaryMask(geometry, xBounds, yBounds)
  {
    var xShape, yShape := |xBounds|, |yBounds|;
    var cells := MeshCells(xShape, yShape);
    var flatMask: seq<bool> := [];
    var k := 0;
    while k < |cells|
      invariant 0 <= k <= |cells|
      invariant |flatMask| == k
      invariant forall j :: 0 <= j < k ==> flatMask[j] == CellTest(geometry, xBounds, yBounds, cells[j])
    {
      var (xi, yi) := cells[k];
      var cell := CellBox(xBounds[xi], yBounds[yi]);
      var maskPoint := Intersects(geometry, cell);
      assert maskPoint == CellTest(geometry, xBounds, yBounds, cells[k]);
      flatMask := flatMask + [maskPoint];
      k := k + 1;
    }
    mask := Reshape(flatMask, yShape, xShape);
    ReshapedMeshTests(geometry, xBounds, yBounds, flatMask, yShape);
    BoundaryMaskOfTests(geometry, xBounds, yBounds, mask);
  }

  /** numpy's complaint when the collected answers do not fit the (y, x) shape. */
  const ReshapeMessage: string := "cannot reshape array into the shape of the horizontal grid"

  /**
   * `geometry_boundary_mask` on a provider state: translate the dataset,
   * give its coordinates bounds, fetch the geometry, and test every cell.
   * A GeoPandas lookup yields a series; its per-cell answers reshape to the
   * grid only when it holds exactly one geometry (or the grid has no cells).
   */
  function BoundaryMaskSpec(dataset: Grid, s: ProviderState, ref: GeometryRef): (res: (Result<Mask>, ProviderState))
    ensures res.0.Ok? ==> Rectangular(res.0.value, |dataset.y.points|, |dataset.x.points|)
  {
    var (cube, s1) := TranslateSpec(dataset, s, ref);
    if cube.Err? then (Err(cube.error), s1)
    else
      var xc := EnsureBounds(cube.value.x);
      var yc := EnsureBounds(cube.value.y);
      if xc.Err? then (Err(xc.error), s1)
      else if yc.Err? then (Err(yc.error), s1)
      else
        var (gs, s2) := StateGeometries(s1, ref);
        var nx, ny := |xc.value.points|, |yc.value.points|;
        if gs.Err? then (Err(gs.error), s2)
        else if |gs.value| != 1 && nx * ny > 0 then (Err(ValueError(ReshapeMessage)), s2)
        else if |gs.value| != 1 then (Ok(seq(ny, yi => seq(nx, xi => false))), s2)
        else (Ok(BoundaryMask(gs.value[0], xc.value.bounds.value, yc.value.bounds.value)), s2)
  }

  // ---------------------------------------------------------------------------
  // Masking the crop, and the two-stage cut

  /**
   * `_cut_to_boundary`: `None` when the crop is `None`, has no 2D field, or
   * its mask cannot be built (the bare `except` swallows every failure);
   * otherwise a copy of the crop masked wherever the mask is false.
   */
  function CutToBoundarySpec(subset: Option<Grid>, s: ProviderState, ref: GeometryRef): (res: (Option<Grid>, ProviderState))
    ensures subset.None? ==> res == (None, s)
    ensures subset.Some? && Field2DAndDims(subset.value).Err? ==> res == (None, s)
    ensures subset.Some? && Field2DAndDims(subset.value).Ok? ==>
      var (m, s1) := BoundaryMaskSpec(subset.value, s, ref);
      && res.1 == s1
      && (m.Err? ==> res.0 == None)
      && (m.Ok? ==> res.0 == Some(MaskedCopy(subset.value, m.value)))
  {
    if subset.None? then (None, s)
    else if Field2DAndDims(subset.value).Err? then (None, s)
    else
      var (m, s1) := BoundaryMaskSpec(subset.value, s, ref);
      if m.Err? then (None, s1) else (Some(MaskedCopy(subset.value, m.value)), s1)
  }

  /**
   * `_cut_to_boundary` as written: `geometry_boundary_mask` is called without
   * `self.`, a NameError (with an iris whose slice iterator lacks `next`,
   * `_get_2d_field_and_dims` fails before it); the failure is swallowed, and
   * every call returns `None` without touching the provider.
   */
  function CutToBoundaryAsWritten(subset: Option<Grid>, s: ProviderState, ref: GeometryRef): (res: (Option<Grid>, ProviderState))
    ensures res == (None, s)
  {
    (None, s)
  }

  /**
   * A 2 by 2 crop inside a one-rectangle geometry: the intended cut is the
   * masked crop, the code as written returns `None`.
   */
  lemma BoundaryCutIsNoneAsWritten()
    ensures var g := Geometry([Bounds(0.0, 0.0, 1.0, 1.0)], Bounds(0.0, 0.0, 1.0, 1.0));
      var frame := GeoDataFrame({Str("name")}, [Record(map[Str("name") := Str("unit")], g)]);
      var axis := Coord([0.25, 0.75], Some([(0.0, 0.5), (0.5, 1.0)]));
      var grid: Grid := RawGrid(axis, axis, [], [[[Data(1.0), Data(2.0)], [Data(3.0), Data(4.0)]]]);
      var ref := Items([Str("name"), Str("unit")]);
      var cut := CutToBoundarySpec(Some(grid), GeoPandasState(frame), ref).0;
      && cut.Some? && cut.value.x == grid.x && cut.value.y == grid.y
      && CutToBoundaryAsWritten(Some(grid), GeoPandasState(frame), ref).0 == None
  {
    var g := Geometry([Bounds(0.0, 0.0, 1.0, 1.0)], Bounds(0.0, 0.0, 1.0, 1.0));
    var frame := GeoDataFrame({Str("name")}, [Record(map[Str("name") := Str("unit")], g)]);
    var axis := Coord([0.25, 0.75], Some([(0.0, 0.5), (0.5, 1.0)]));
    var grid: Grid := RawGrid(axis, axis, [], [[[Data(1.0), Data(2.0)], [Data(3.0), Data(4.0)]]]);
    var ref := Items([Str("name"), Str("unit")]);
    var s := GeoPandasState(frame);
    assert HandleGeometryRef(ref) == Ok((Str("name"), Str("unit")));
    assert MatchingRows(frame.rows, Str("name"), Str("unit")) == frame.rows by {
      assert frame.rows[1..] == [];
    }
    assert Geometries(frame.rows) == [g];
    assert GeoPandasGetItem(frame, ref) == Ok([g]);
    assert StateNamedBound(s, ref, "maxx") == (Ok(1.0), s);
    assert TranslateSpec(grid, s, ref) == (Ok(grid), s);
    assert StateGeometries(s, ref) == (Ok([g]), s);
    assert BoundaryMaskSpec(grid, s, ref).0 == Ok(BoundaryMask(g, axis.bounds.value, axis.bounds.value));
  }

  /** The ValueError message for an unknown `to`. */
  function ToMessage(to: string): (m: string)
    ensures |m| > |to| && m[|m| - |to| - 1..] == to + "."
  {
    var m := "`to` must be one of " + ListRepr(["bbox", "boundary"]) + ", got " + to + ".";
    assert m == ("`to` must be one of " + ListRepr(["bbox", "boundary"]) + ", got ") + (to + ".");
    m
  }

  /** The message names both allowed values. */
  lemma ToMessageNamesBoth(to: string)
    ensures Contains(ToMessage(to), "'bbox'") && Contains(ToMessage(to), "'boundary'")
  {
    ListReprShowsItems(["bbox", "boundary"]);
    var pre := "`to` must be one of ";
    var list := ListRepr(["bbox", "boundary"]);
    forall part | part == "'bbox'" || part == "'boundary'"
      ensures Contains(ToMessage(to), part)
    {
      assert part == "'" + "bbox" + "'" || part == "'" + "boundary" + "'";
      ContainsInSuffix(pre, list, part);
      ContainsInPrefix(pre + list, ", got ", part);
      ContainsInPrefix(pre + list + ", got ", to, part);
      ContainsInPrefix(pre + list + ", got " + to, ".", part);
    }
  }

  /**
   * `cut_cube`: the bounding-box crop always runs first and its failures
   * propagate; then "bbox" returns the crop, "boundary" returns the masked
   * crop (or `None`), and any other value raises ValueError.
   */
  function CutCubeSpec(dataset: Grid, s: ProviderState, ref: GeometryRef, to: string)
    : (res: (Result<Option<Grid>>, ProviderState))
    ensures BboxSpec(dataset, s, ref).0.Err? ==> res == BboxSpec(dataset, s, ref)
    ensures to == "bbox" ==> res == BboxSpec(dataset, s, ref)
    ensures to == "boundary" && BboxSpec(dataset, s, ref).0.Ok? ==>
      var (subset, s1) := BboxSpec(dataset, s, ref);
      res.0 == Ok(CutToBoundarySpec(subset.value, s1, ref).0) && res.1 == CutToBoundarySpec(subset.value, s1, ref).1
    ensures to != "bbox" && to != "boundary" && BboxSpec(dataset, s, ref).0.Ok? ==>
      res == (Err(ValueError(ToMessage(to))), BboxSpec(dataset, s, ref).1)
  {
    var (subset, s1) := BboxSpec(dataset, s, ref);
    if subset.Err? then (Err(subset.error), s1)
    else if to == "bbox" then (Ok(subset.value), s1)
    else if to == "boundary" then
      var (result, s2) := CutToBoundarySpec(subset.value, s1, ref);
      (Ok(result), s2)
    else (Err(ValueError(ToMessage(to))), s1)
  }

  // ---------------------------------------------------------------------------
  // Properties of a cut

  /**
   * After the maxx lookup, the bounds and geometry lookups of the same cut
   * see the geometry that lookup resolved: the Cartopy cache serves it, and
   * GeoPandas has no state to change.
   */
  lemma LaterLookupsAgree(s: ProviderState, ref: GeometryRef, name: string)
    ensures var s1 := StateNamedBound(s, ref, name).1;
      && StateBoundsPoints(s1, ref) == (StateBoundsPoints(s, ref).0, s1)
      && StateGeometries(s1, ref) == (StateGeometries(s, ref).0, s1)
      && StateBoundsPoints(s, ref).1 == s1
      && StateGeometries(s, ref).1 == s1
  {
    if s.CartopyState? {
      ResolveIdempotent(s.records, s.cache, ref);
    }
  }

  /**
   * A bounding-box crop keeps only cells that pass the range test against the
   * geometry's bounds, as the provider reports them: on an axis without
   * bounds every kept point lies between the bounds, both ends included; on
   * an axis with bounds every kept cell's bounds overlap them.
   */
  lemma BboxWithinGeometryBounds(dataset: Grid, s: ProviderState, ref: GeometryRef)
    ensures var r := BboxSpec(dataset, s, ref).0;
      r.Ok? && r.value.Some? ==>
        && StateBoundsPoints(s, ref).0.Ok?
        && var b := StateBoundsPoints(s, ref).0.value;
        && var crop := r.value.value;
        && (forall j :: 0 <= j < |crop.x.points| ==> CellInRange(crop.x, j, b.minx, b.maxx))
        && (forall j :: 0 <= j < |crop.y.points| ==> CellInRange(crop.y, j, b.miny, b.maxy))
        && (crop.x.bounds.None? ==> forall p :: p in crop.x.points ==> b.minx <= p <= b.maxx)
        && (crop.y.bounds.None? ==> forall p :: p in crop.y.points ==> b.miny <= p <= b.maxy)
  {
    var (cube, s1) := TranslateSpec(dataset, s, ref);
    LaterLookupsAgree(s, ref, "maxx");
    if cube.Ok? && StateBoundsPoints(s1, ref).0.Ok? {
      ExtractIsInclusiveRangeFilter(cube.value, StateBoundsPoints(s1, ref).0.value);
    }
  }

  /**
   * A crop does not depend on the lookups before it: cropping again with the
   * provider state the first crop left gives the same answer and the same
   * state.
   */
  lemma BboxCutIdempotent(dataset: Grid, s: ProviderState, ref: GeometryRef)
    ensures var (r1, s1) := CutCubeSpec(dataset, s, ref, "bbox");
      CutCubeSpec(dataset, s1, ref, "bbox") == (r1, s1)
  {
    if s.CartopyState? {
      var (records, cache) := (s.records, s.cache);
      ResolveIdempotent(records, cache, ref);
      var c1 := Resolve(records, cache, ref).1;
      ResolveIdempotent(records, c1, ref);
    }
  }

  /**
   * The boundary cut of a crop keeps the crop's axes and only ever masks:
   * every cell it keeps holds the crop's value.
   */
  lemma CutToBoundaryOnlyMasks(subset: Option<Grid>, s: ProviderState, ref: GeometryRef)
    ensures var r := CutToBoundarySpec(subset, s, ref).0;
      r.Some? ==>
        && subset.Some?
        && var cut, crop := r.value, subset.value;
        && cut.x == crop.x && cut.y == crop.y && cut.otherShape == crop.otherShape && |cut.slices| == |crop.slices|
        && forall k, yi, xi :: 0 <= k < |cut.slices| && 0 <= yi < |cut.y.points| && 0 <= xi < |cut.x.points| ==>
             cut.slices[k][yi][xi].Data? ==> cut.slices[k][yi][xi] == crop.slices[k][yi][xi]
  {
    if subset.Some? && Field2DAndDims(subset.value).Ok? {
      var m := BoundaryMaskSpec(subset.value, s, ref).0;
      if m.Ok? {
        MaskedCopyKeepsOnlyMaskedIn(subset.value, m.value);
      }
    }
  }

  /**
   * The boundary cut is the bounding-box cut with cells masked: the two fail
   * together, an empty crop stays `None`, and every cell the boundary cut
   * keeps holds the same value in the bounding-box cut, on the same axes.
   */
  lemma BoundaryCutWithinBboxCut(dataset: Grid, s: ProviderState, ref: GeometryRef)
    ensures var rb := CutCubeSpec(dataset, s, ref, "boundary").0;
      var rx := CutCubeSpec(dataset, s, ref, "bbox").0;
      && (rb.Err? <==> rx.Err?)
      && (rx.Ok? && rx.value.None? ==> rb == Ok(None))
      && (rb.Ok? && rb.value.Some? ==>
            && rx.Ok? && rx.value.Some?
            && var cut, crop := rb.value.value, rx.value.value;
            && cut.x == crop.x && cut.y == crop.y && cut.otherShape == crop.otherShape
            && forall k, yi, xi :: 0 <= k < |cut.slices| && 0 <= yi < |cut.y.points| && 0 <= xi < |cut.x.points| ==>
                 cut.slices[k][yi][xi].Data? ==> cut.slices[k][yi][xi] == crop.slices[k][yi][xi])
  {
    var (subset, s1) := BboxSpec(dataset, s, ref);
    assert CutCubeSpec(dataset, s, ref, "bbox").0 == subset;
    if subset.Ok? {
      assert CutCubeSpec(dataset, s, ref, "boundary").0 == Ok(CutToBoundarySpec(subset.value, s1, ref).0);
      CutToBoundaryOnlyMasks(subset.value, s1, ref);
    }
  }

  /**
   * When the grid's dateline flag differs from the geometry's, translation
   * succeeds and every longitude of the grid (each within [-180, 360]) ends
   * on the geometry's interval, taken half-open as [Lo, Hi) the way iris
   * wraps longitudes.
   */
  lemma TranslationReachesGeometryInterval(dataset: Grid, geomXmax: real)
    requires dataset.x.points != []
    requires DatelineCentre(geomXmax) != DatelineCentre(dataset.x.points[|dataset.x.points| - 1])
    requires forall i :: 0 <= i < |dataset.x.points| ==> -180.0 <= dataset.x.points[i] <= 360.0
    ensures var r := TranslateToGeometry(dataset, geomXmax);
      && r.Ok?
      && forall j :: 0 <= j < |r.value.x.points| ==>
           IntervalOf(geomXmax).Lo() <= r.value.x.points[j] < IntervalOf(geomXmax).Hi()
  {
    RewrapMovesColumns(dataset, IntervalOf(geomXmax));
  }

  /**
   * On an axis without bounds the crop tests grid points, while the boundary
   * mask tests the boxes of guessed cells: the guessed cell of x point 1.2
   * meets the unit square, yet the crop keeps only x point 0.5.
   */
  lemma StraddlingCellDroppedByCrop()
    ensures var g := Geometry([Bounds(0.0, 0.0, 1.0, 1.0)], Bounds(0.0, 0.0, 1.0, 1.0));
      var grid: Grid := RawGrid(Coord([0.5, 1.2], None), Coord([0.25, 0.75], None), [],
        [[[Data(1.0), Data(2.0)], [Data(3.0), Data(4.0)]]]);
      && Enclosed(g)
      && Intersects(g, CellBox(GuessBounds([0.5, 1.2])[1], GuessBounds([0.25, 0.75])[0]))
      && Extract(grid, g.bounds).Some?
      && Extract(grid, g.bounds).value.x.points == [0.5]
  {
    var g := Geometry([Bounds(0.0, 0.0, 1.0, 1.0)], Bounds(0.0, 0.0, 1.0, 1.0));
    assert GuessBounds([0.5, 1.2])[1] == (0.85, 1.55);
    assert GuessBounds([0.25, 0.75])[0] == (0.0, 0.5);
    assert Overlaps(g.parts[0], CellBox((0.85, 1.55), (0.0, 0.5)));
    assert InRange(Coord([0.5, 1.2], None), 0.0, 1.0) == [true, false];
    assert InRange(Coord([0.25, 0.75], None), 0.0, 1.0) == [true, true];
  }

  /**
   * On an axis with bounds the crop compares cells through their bounds: a
   * cell whose point 1.2 lies outside [0, 1] is kept because its bounds
   * (0.9, 1.5) overlap it.
   */
  lemma BoundedStraddlingCellKept()
    ensures var g := Geometry([Bounds(0.0, 0.0, 1.0, 1.0)], Bounds(0.0, 0.0, 1.0, 1.0));
      var grid: Grid := RawGrid(Coord([1.2], Some([(0.9, 1.5)])), Coord([0.5], Some([(0.0, 1.0)])), [], [[[Data(7.0)]]]);
      && Extract(grid, g.bounds).Some?
      && Extract(grid, g.bounds).value.x.points == [1.2]
  {
    var grid: Grid := RawGrid(Coord([1.2], Some([(0.9, 1.5)])), Coord([0.5], Some([(0.0, 1.0)])), [], [[[Data(7.0)]]]);
    assert InRange(grid.x, 0.0, 1.0) == [true];
    assert InRange(grid.y, 0.0, 1.0) == [true];
    assert Kept(grid.x, 0.0, 1.0) == [0];
    assert Kept(grid.y, 0.0, 1.0) == [0];
  }

  // ---------------------------------------------------------------------------
  // The Cutter

  /**
   * `Cutter(data_source, geometry_source)`: a grid to cut, the geometry
   * source, and the provider chosen for it. In this model cutting changes
   * nothing but the provider's cache.
   */
  class Cutter {
    var dataSource: Grid
    var geometrySource: GeometrySource
    var geometryProvider: GeometryProvider

    ghost predicate Valid()
      reads this, geometryProvider.Repr()
    {
      geometryProvider.Valid()
    }

    /** The state the provider's answers depend on. */
    ghost function State(): ProviderState
      reads this, geometryProvider.Repr()
    {
      geometryProvider.State()
    }

    constructor Make(dataSource: Grid, geometrySource: GeometrySource, geometryProvider: GeometryProvider)
      requires geometryProvider.Valid()
      ensures Valid()
      ensures this.dataSource == dataSource && this.geometrySource == geometrySource
      ensures this.geometryProvider == geometryProvider
    {
      this.dataSource := dataSource;
      this.geometrySource := geometrySource;
      this.geometryProvider := geometryProvider;
    }

    /**
     * `__init__`: the provider is selected from the source, so an
     * unsupported source raises TypeError; a new Cartopy provider starts
     * with an empty cache.
     */
    static method New(dataSource: Grid, geometrySource: GeometrySource) returns (r: Result<Cutter>)
      ensures r.Err? <==> geometrySource.Unsupported?
      ensures r.Err? ==> r.error == TypeError("No suitable geometry provider found.")
      ensures r.Ok? ==> fresh(r.value) && fresh(r.value.geometryProvider.Repr()) && r.value.Valid()
      ensures r.Ok? ==> r.value.dataSource == dataSource && r.value.geometrySource == geometrySource
      ensures geometrySource.FionaReader? ==>
        r.Ok? && r.value.State() == CartopyState(geometrySource.records, map[])
      ensures geometrySource.GeoPandasInput? ==>
        r.Ok? && r.value.State() == GeoPandasState(geometrySource.input.Loaded())
    {
      var provider := SelectBestGeometryProvider(geometrySource);
      if provider.Err? {
        return Err(provider.error);
      }
      var cutter := new Cutter.Make(dataSource, geometrySource, provider.value);
      r := Ok(cutter);
    }

    /** `_translate_cube_to_geometry`, with the intended result when the intervals agree. */
    method TranslateCubeToGeometry(dataset: Grid, ref: GeometryRef) returns (r: Result<Grid>)
      requires Valid()
      modifies geometryProvider.Repr()
      ensures Valid()
      ensures (r, State()) == TranslateSpec(dataset, old(State()), ref)
    {
      var geomXmax := ProviderNamedBound(geometryProvider, ref, "maxx");
      if geomXmax.Err? {
        return Err(geomXmax.error);
      }
      r := TranslateToGeometry(dataset, geomXmax.value);
    }

    /** `geometry_bbox_dataset`: the translated data source cropped to the geometry's bounds. */
    method GeometryBboxDataset(ref: GeometryRef) returns (r: Result<Option<Grid>>)
      requires Valid()
      modifies geometryProvider.Repr()
      ensures Valid()
      ensures (r, State()) == BboxSpec(dataSource, old(State()), ref)
    {
      var cube := TranslateCubeToGeometry(dataSource, ref);
      if cube.Err? {
        return Err(cube.error);
      }
      var bounds := ProviderBoundsPoints(geometryProvider, ref);
      if bounds.Err? {
        return Err(bounds.error);
      }
      r := Ok(Extract(cube.value, bounds.value));
    }

    /** `geometry_boundary_mask`: which cells of the translated dataset the geometry meets. */
    method GeometryBoundaryMask(dataset: Grid, ref: GeometryRef) returns (r: Result<Mask>)
      requires Valid()
      modifies geometryProvider.Repr()
      ensures Valid()
      ensures (r, State()) == BoundaryMaskSpec(dataset, old(State()), ref)
    {
      var cube := TranslateCubeToGeometry(dataset, ref);
      if cube.Err? {
        return Err(cube.error);
      }
      var xCoord := EnsureBounds(cube.value.x);
      var yCoord := EnsureBounds(cube.value.y);
      if xCoord.Err? {
        return Err(xCoord.error);
      }
      if yCoord.Err? {
        return Err(yCoord.error);
      }
      var geometries := ProviderGeometries(geometryProvider, ref);
      if geometries.Err? {
        return Err(geometries.error);
      }
      var nx, ny := |xCoord.value.points|, |yCoord.value.points|;
      if |geometries.value| != 1 {
        if nx * ny > 0 {
          return Err(ValueError(ReshapeMessage));
        }
        return Ok(seq(ny, yi => seq(nx, xi => false)));
      }
      var mask := BuildBoundaryMask(geometries.value[0], xCoord.value.bounds.value, yCoord.value.bounds.value);
      r := Ok(mask);
    }

    /** `_cut_to_boundary`, calling the mask method on `self` as intended. */
    method CutToBoundary(subset: Option<Grid>, ref: GeometryRef) returns (r: Option<Grid>)
      requires Valid()
      modifies geometryProvider.Repr()
      ensures Valid()
      ensures (r, State()) == CutToBoundarySpec(subset, old(State()), ref)
    {
      if subset.None? {
        return None;
      }
      var field := Field2DAndDims(subset.value);
      if field.Err? {
        return None;
      }
      var mask := GeometryBoundaryMask(subset.value, ref);
      if mask.Err? {
        return None;
      }
      r := Some(MaskedCopy(subset.value, mask.value));
    }

    /** `cut_cube(geometry_ref, to)`. */
    method CutCube(ref: GeometryRef, to: string) returns (r: Result<Option<Grid>>)
      requires Valid()
      modifies geometryProvider.Repr()
      ensures Valid()
      ensures (r, State()) == CutCubeSpec(dataSource, old(State()), ref, to)
    {
      var subset := GeometryBboxDataset(ref);
      if subset.Err? {
        return Err(subset.error);
      }
      if to == "bbox" {
        r := Ok(subset.value);
      } else if to == "boundary" {
        var cut := CutToBoundary(subset.value, ref);
        r := Ok(cut);
      } else {
        r := Err(ValueError(ToMessage(to)));
      }
    }
  }
}
