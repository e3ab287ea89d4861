/**
 * The iris cube operations the cutting engine uses, stated on an abstract
 * grid: `extract` with coordinate-value predicates, `intersection` (rolling
 * the cyclic x axis onto a longitude interval), `guess_bounds`, and a masked
 * copy of the data.
 *
 * A grid has one x and one y dimension coordinate, each with its points and
 * optional per-point (lo, hi) bounds, the shape of its other dimensions, and
 * its data as one horizontal field per index of the other dimensions. The
 * horizontal dimensions are the last two, y then x, so a field is indexed
 * [y][x].
 */
module Grids {
  import opened Errors
  import opened Shapes
  import opened Indices

  /** The (lo, hi) bounds of one coordinate cell. */
  type CellBounds = (real, real)

  /** A dimension coordinate: its points and, when it has them, their bounds. */
  datatype Coord = Coord(points: seq<real>, bounds: Option<seq<CellBounds>>)

  /** One data value of a masked array. */
  datatype Cell = Data(v: real) | Masked

  /** A horizontal field, indexed [y][x]. */
  type Field = seq<seq<Cell>>

  /** A 2D boolean mask, indexed [y][x]. */
  type Mask = seq<seq<bool>>

  datatype RawGrid = RawGrid(x: Coord, y: Coord, otherShape: seq<nat>, slices: seq<Field>)

  /** Number of horizontal fields a grid with these other dimensions holds. */
  function Product(shape: seq<nat>): nat {
    if shape == [] then 1 else shape[0] * Product(shape[1..])
  }

  /** Bounds, when present, come one per point. */
  predicate CoordFits(c: Coord) {
    c.bounds.Some? ==> |c.bounds.value| == |c.points|
  }

  predicate Rectangular<T>(rows: seq<seq<T>>, ny: nat, nx: nat) {
    |rows| == ny && forall yi :: 0 <= yi < ny ==> |rows[yi]| == nx
  }

  predicate WellFormed(g: RawGrid) {
    && CoordFits(g.x)
    && CoordFits(g.y)
    && |g.slices| == Product(g.otherShape)
    && forall k :: 0 <= k < |g.slices| ==> Rectangular(g.slices[k], |g.y.points|, |g.x.points|)
  }

  /** A cube: its shapes agree, as iris guarantees for every cube. */
  type Grid = g: RawGrid | WellFormed(g) witness RawGrid(Coord([], None), Coord([], None), [], [[]])

  // ---------------------------------------------------------------------------
  // cube.extract(Constraint(coord_values = {x: lo <= cell <= hi, y: ...}))

  /** The larger and the smaller end of a cell's bounds. */
  function Upper(b: CellBounds): real { if b.0 <= b.1 then b.1 else b.0 }
  function Lower(b: CellBounds): real { if b.0 <= b.1 then b.0 else b.1 }

  /**
   * `lo <= cell <= hi` on iris cell i of a coordinate. A cell without bounds
   * compares as its point. A bounded cell compares with a number through its
   * bounds: `lo <= cell` tests the larger bound and `cell <= hi` the smaller,
   * so a bounded cell passes exactly when its bounds overlap [lo, hi].
   */
  predicate CellInRange(c: Coord, i: nat, lo: real, hi: real)
    requires CoordFits(c) && i < |c.points|
  {
    match c.bounds
    case None => lo <= c.points[i] <= hi
    case Some(b) => lo <= Upper(b[i]) && Lower(b[i]) <= hi
  }

  /** Which cells of the coordinate pass the range test. */
  function InRange(c: Coord, lo: real, hi: real): (flags: seq<bool>)
    requires CoordFits(c)
    ensures |flags| == |c.points|
  {
    seq(|c.points|, i requires 0 <= i < |c.points| => CellInRange(c, i, lo, hi))
  }

  /** The ascending indices of the cells that pass the range test. */
  function Kept(c: Coord, lo: real, hi: real): (idx: seq<nat>)
    requires CoordFits(c)
    ensures forall j :: 0 <= j < |idx| ==> idx[j] < |c.points|
  {
    Select(InRange(c, lo, hi), |c.points|)
  }

  /** `idx` lists, in ascending order, exactly the cells of `c` that pass the range test. */
  predicate KeepsExactly(c: Coord, idx: seq<nat>, lo: real, hi: real)
    requires CoordFits(c)
  {
    && (forall j :: 0 <= j < |idx| ==> idx[j] < |c.points| && CellInRange(c, idx[j], lo, hi))
    && (forall j1, j2 :: 0 <= j1 < j2 < |idx| ==> idx[j1] < idx[j2])
    && (forall i :: 0 <= i < |c.points| && CellInRange(c, i, lo, hi) ==> i in idx)
  }

  function PickCoord(c: Coord, idx: seq<nat>): (r: Coord)
    requires CoordFits(c)
    requires forall j :: 0 <= j < |idx| ==> idx[j] < |c.points|
    ensures CoordFits(r) && |r.points| == |idx|
  {
    Coord(Pick(c.points, idx), if c.bounds.Some? then Some(Pick(c.bounds.value, idx)) else None)
  }

  /** The rows `ys` and, within them, the columns `xs` of a field. */
  function PickField(f: Field, ny: nat, nx: nat, ys: seq<nat>, xs: seq<nat>): (r: Field)
    requires Rectangular(f, ny, nx)
    requires forall j :: 0 <= j < |ys| ==> ys[j] < ny
    requires forall j :: 0 <= j < |xs| ==> xs[j] < nx
    ensures Rectangular(r, |ys|, |xs|)
  {
    seq(|ys|, j requires 0 <= j < |ys| => Pick(f[ys[j]], xs))
  }

  /**
   * The sub-cube of the cells whose x cell passes the range test for
   * [b.minx, b.maxx] and whose y cell passes it for [b.miny, b.maxy]; `None`
   * when no x or no y cell does, as `cube.extract` returns `None` when a
   * constraint matches nothing.
   */
  function Extract(g: Grid, b: Bounds): (r: Option<Grid>)
    ensures r.Some? ==> |r.value.x.points| <= |g.x.points| && |r.value.y.points| <= |g.y.points|
    ensures r.Some? ==> r.value.otherShape == g.otherShape && |r.value.slices| == |g.slices|
  {
    var xs := Kept(g.x, b.minx, b.maxx);
    var ys := Kept(g.y, b.miny, b.maxy);
    if xs == [] || ys == [] then None
    else
      var slices := seq(|g.slices|, k requires 0 <= k < |g.slices| =>
        PickField(g.slices[k], |g.y.points|, |g.x.points|, ys, xs));
      Some(RawGrid(PickCoord(g.x, xs), PickCoord(g.y, ys), g.otherShape, slices))
  }

  /** The range filter keeps exactly the passing cells, in ascending order. */
  lemma KeptPasses(c: Coord, lo: real, hi: real)
    requires CoordFits(c)
    ensures KeepsExactly(c, Kept(c, lo, hi), lo, hi)
  {
    var idx := Kept(c, lo, hi);
    var flags := InRange(c, lo, hi);
    forall j | 0 <= j < |idx|
      ensures CellInRange(c, idx[j], lo, hi)
    {
      assert flags[idx[j]];
    }
    forall i | 0 <= i < |c.points| && CellInRange(c, i, lo, hi)
      ensures i in idx
    {
      SelectComplete(flags, |c.points|, i);
    }
  }

  /** Each kept cell still passes the range test in the picked coordinate. */
  lemma PickedCellsPass(c: Coord, lo: real, hi: real)
    requires CoordFits(c)
    ensures var r := PickCoord(c, Kept(c, lo, hi));
      forall j :: 0 <= j < |r.points| ==> CellInRange(r, j, lo, hi)
  {
    var idx := Kept(c, lo, hi);
    var flags := InRange(c, lo, hi);
    var r := PickCoord(c, idx);
    forall j | 0 <= j < |r.points|
      ensures CellInRange(r, j, lo, hi)
    {
      assert flags[idx[j]];
      assert CellInRange(c, idx[j], lo, hi);
    }
  }

  /** On a coordinate without bounds a point survives exactly when it lies in [lo, hi]. */
  lemma KeptPointsInRange(c: Coord, lo: real, hi: real)
    requires CoordFits(c) && c.bounds.None?
    ensures forall p :: p in Pick(c.points, Kept(c, lo, hi)) <==> p in c.points && lo <= p <= hi
  {
    var idx := Kept(c, lo, hi);
    var flags := InRange(c, lo, hi);
    var kept := Pick(c.points, idx);
    forall p | p in c.points && lo <= p <= hi
      ensures p in kept
    {
      var i :| 0 <= i < |c.points| && c.points[i] == p;
      assert CellInRange(c, i, lo, hi);
      SelectComplete(flags, |c.points|, i);
      var j :| 0 <= j < |idx| && idx[j] == i;
      assert kept[j] == p;
    }
    forall p | p in kept
      ensures p in c.points && lo <= p <= hi
    {
      var j :| 0 <= j < |idx| && kept[j] == p;
      assert flags[idx[j]];
    }
  }

  /**
   * The range filter keeps exactly the passing cells, in order; each kept
   * cell still passes in the picked coordinate; on a coordinate without
   * bounds a point survives exactly when it lies in [lo, hi].
   */
  lemma KeptIsRangeFilter(c: Coord, lo: real, hi: real)
    requires CoordFits(c)
    ensures KeepsExactly(c, Kept(c, lo, hi), lo, hi)
    ensures var r := PickCoord(c, Kept(c, lo, hi));
      forall j :: 0 <= j < |r.points| ==> CellInRange(r, j, lo, hi)
    ensures forall p :: p in Pick(c.points, Kept(c, lo, hi)) ==> p in c.points
    ensures c.bounds.None? ==>
      forall p :: p in Pick(c.points, Kept(c, lo, hi)) <==> p in c.points && lo <= p <= hi
  {
    KeptPasses(c, lo, hi);
    PickedCellsPass(c, lo, hi);
    var idx := Kept(c, lo, hi);
    forall p | p in Pick(c.points, idx)
      ensures p in c.points
    {
      var j :| 0 <= j < |idx| && Pick(c.points, idx)[j] == p;
    }
    if c.bounds.None? {
      KeptPointsInRange(c, lo, hi);
    }
  }

  /** The range filter keeps nothing exactly when no cell passes. */
  lemma KeptEmpty(c: Coord, lo: real, hi: real)
    requires CoordFits(c)
    ensures Kept(c, lo, hi) == [] <==> forall i :: 0 <= i < |c.points| ==> !CellInRange(c, i, lo, hi)
  {
    var idx := Kept(c, lo, hi);
    var flags := InRange(c, lo, hi);
    if exists i :: 0 <= i < |c.points| && CellInRange(c, i, lo, hi) {
      var i :| 0 <= i < |c.points| && CellInRange(c, i, lo, hi);
      SelectComplete(flags, |c.points|, i);
    } else if |idx| > 0 {
      assert flags[idx[0]];
    }
  }

  /**
   * Bounding-box extraction is an inclusive range filter on the x and y
   * cells: it keeps, in order, exactly the cells that pass the range test,
   * each kept cell passes it in the crop, each kept cell's data is carried
   * over unchanged, and the result is `None` exactly when one of the axes
   * keeps nothing. On an axis without bounds this is the test of the points
   * themselves.
   */
  lemma ExtractIsInclusiveRangeFilter(g: Grid, b: Bounds)
    ensures Extract(g, b).None? <==>
      (forall i :: 0 <= i < |g.x.points| ==> !CellInRange(g.x, i, b.minx, b.maxx)) ||
      (forall i :: 0 <= i < |g.y.points| ==> !CellInRange(g.y, i, b.miny, b.maxy))
    ensures Extract(g, b).Some? ==>
      var r := Extract(g, b).value;
      var xs, ys := Kept(g.x, b.minx, b.maxx), Kept(g.y, b.miny, b.maxy);
      && KeepsExactly(g.x, xs, b.minx, b.maxx) && r.x == PickCoord(g.x, xs)
      && KeepsExactly(g.y, ys, b.miny, b.maxy) && r.y == PickCoord(g.y, ys)
      && (forall j :: 0 <= j < |r.x.points| ==> CellInRange(r.x, j, b.minx, b.maxx))
      && (forall j :: 0 <= j < |r.y.points| ==> CellInRange(r.y, j, b.miny, b.maxy))
      && (forall p :: p in r.y.points ==> p in g.y.points)
      && r.otherShape == g.otherShape
    ensures Extract(g, b).Some? ==>
      var r := Extract(g, b).value;
      && (g.x.bounds.None? ==> forall p :: p in r.x.points <==> p in g.x.points && b.minx <= p <= b.maxx)
      && (g.y.bounds.None? ==> forall p :: p in r.y.points <==> p in g.y.points && b.miny <= p <= b.maxy)
    ensures Extract(g, b).Some? ==>
      var r := Extract(g, b).value;
      var xs, ys := Kept(g.x, b.minx, b.maxx), Kept(g.y, b.miny, b.maxy);
      forall k, yj, xj :: 0 <= k < |r.slices| && 0 <= yj < |ys| && 0 <= xj < |xs| ==>
        r.slices[k][yj][xj] == g.slices[k][ys[yj]][xs[xj]]
  {
    KeptIsRangeFilter(g.x, b.minx, b.maxx);
    KeptIsRangeFilter(g.y, b.miny, b.maxy);
    KeptEmpty(g.x, b.minx, b.maxx);
    KeptEmpty(g.y, b.miny, b.maxy);
  }

  // ---------------------------------------------------------------------------
  // cube.intersection(x=(lo, hi)): rolling the cyclic x axis onto an interval

  /** The two longitude intervals a grid or geometry may use. */
  datatype XInterval = Pm180 | ZeroTo360 {
    function Lo(): real { if Pm180? then -180.0 else 0.0 }
    function Hi(): real { Lo() + 360.0 }
  }

  /**
   * The shift that brings `p` onto the half-open interval [Lo, Hi): a whole
   * turn down, up, or none. A point at the upper end moves down a turn.
   */
  function Delta(p: real, iv: XInterval): real {
    if p >= iv.Hi() then -360.0 else if p < iv.Lo() then 360.0 else 0.0
  }

  /**
   * `p` expressed on [Lo, Hi), as iris's `wrap_lons` expresses it: a point
   * within a turn of the interval lands on it, a point already on it stays,
   * and the upper end itself becomes the lower end.
   */
  function Wrap(p: real, iv: XInterval): (r: real)
    ensures iv.Lo() - 360.0 <= p < iv.Hi() + 360.0 ==> iv.Lo() <= r < iv.Hi()
    ensures iv.Lo() <= p < iv.Hi() ==> r == p
    ensures p == iv.Hi() ==> r == iv.Lo()
  {
    p + Delta(p, iv)
  }

  function Above(points: seq<real>, iv: XInterval): (f: seq<bool>) ensures |f| == |points| {
    seq(|points|, i requires 0 <= i < |points| => points[i] >= iv.Hi())
  }

  function Inside(points: seq<real>, iv: XInterval): (f: seq<bool>) ensures |f| == |points| {
    seq(|points|, i requires 0 <= i < |points| => iv.Lo() <= points[i] < iv.Hi())
  }

  function Below(points: seq<real>, iv: XInterval): (f: seq<bool>) ensures |f| == |points| {
    seq(|points|, i requires 0 <= i < |points| => points[i] < iv.Lo())
  }

  /** Every point is above, inside or below the interval, and only one of these. */
  lemma ClassesPartition(points: seq<real>, iv: XInterval)
    ensures Partition(Above(points, iv), Inside(points, iv), Below(points, iv), |points|)
  {
    var a, b, c := Above(points, iv), Inside(points, iv), Below(points, iv);
    forall i | 0 <= i < |points|
      ensures (a[i] && !b[i] && !c[i]) || (!a[i] && b[i] && !c[i]) || (!a[i] && !b[i] && c[i])
    {
      assert a[i] == (points[i] >= iv.Hi());
      assert b[i] == (iv.Lo() <= points[i] < iv.Hi());
      assert c[i] == (points[i] < iv.Lo());
    }
  }

  /**
   * The new column order: first the columns that wrap down a turn, then those
   * already on the interval, then those that wrap up, each group in its
   * original order. It lists every column exactly once.
   */
  function WrapOrder(points: seq<real>, iv: XInterval): (order: seq<nat>)
    ensures IsPermutation(order, |points|)
    ensures forall i :: 0 <= i < |points| ==> i in order
  {
    var n := |points|;
    ClassesPartition(points, iv);
    PartitionOrderIsPermutation(Above(points, iv), Inside(points, iv), Below(points, iv), n);
    Select(Above(points, iv), n) + Select(Inside(points, iv), n) + Select(Below(points, iv), n)
  }

  /**
   * The cube with its x axis rolled onto `iv`: every column keeps its data
   * and its y extent, its point and bounds move by the same whole turn, and
   * the columns are reordered by `WrapOrder`.
   */
  function Rewrap(g: Grid, iv: XInterval): (r: Grid)
    ensures r.y == g.y && r.otherShape == g.otherShape && |r.slices| == |g.slices|
    ensures |r.x.points| == |g.x.points| && r.x.bounds.Some? == g.x.bounds.Some?
  {
    var n := |g.x.points|;
    var order := WrapOrder(g.x.points, iv);
    var points := seq(n, j requires 0 <= j < n => Wrap(g.x.points[order[j]], iv));
    var bounds :=
      if g.x.bounds.None? then None
      else Some(seq(n, j requires 0 <= j < n =>
        var d := Delta(g.x.points[order[j]], iv);
        (g.x.bounds.value[order[j]].0 + d, g.x.bounds.value[order[j]].1 + d)));
    var slices := seq(|g.slices|, k requires 0 <= k < |g.slices| =>
      seq(|g.y.points|, yi requires 0 <= yi < |g.y.points| => Pick(g.slices[k][yi], order)));
    RawGrid(Coord(points, bounds), g.y, g.otherShape, slices)
  }

  /**
   * Rolling moves whole columns: output column j is input column
   * `WrapOrder[j]`, with its point wrapped onto the interval and its data
   * unchanged in every field; and when the points start within a turn of
   * the interval they all end on it.
   */
  lemma RewrapMovesColumns(g: Grid, iv: XInterval)
    ensures var r, order := Rewrap(g, iv), WrapOrder(g.x.points, iv);
      && IsPermutation(order, |g.x.points|)
      && (forall j :: 0 <= j < |order| ==> r.x.points[j] == Wrap(g.x.points[order[j]], iv))
      && (forall k, yi, j :: 0 <= k < |g.slices| && 0 <= yi < |g.y.points| && 0 <= j < |order| ==>
            r.slices[k][yi][j] == g.slices[k][yi][order[j]])
    ensures (forall i :: 0 <= i < |g.x.points| ==> iv.Lo() - 360.0 <= g.x.points[i] < iv.Hi() + 360.0) ==>
      forall j :: 0 <= j < |Rewrap(g, iv).x.points| ==> iv.Lo() <= Rewrap(g, iv).x.points[j] < iv.Hi()
  {
  }

  /** The classes of [0, 90, 180, 270] against (-180, 180): 180 counts as above. */
  lemma UpperEndClasses()
    ensures Above([0.0, 90.0, 180.0, 270.0], Pm180) == [false, false, true, true]
    ensures Inside([0.0, 90.0, 180.0, 270.0], Pm180) == [true, true, false, false]
    ensures Below([0.0, 90.0, 180.0, 270.0], Pm180) == [false, false, false, false]
  {
    var p := [0.0, 90.0, 180.0, 270.0];
    assert p[0] == 0.0 && p[1] == 90.0 && p[2] == 180.0 && p[3] == 270.0;
    assert Pm180.Lo() == -180.0 && Pm180.Hi() == 180.0;
    var a, i, b := Above(p, Pm180), Inside(p, Pm180), Below(p, Pm180);
    assert a[0] == false && a[1] == false && a[2] == true && a[3] == true;
    assert i[0] == true && i[1] == true && i[2] == false && i[3] == false;
    assert b[0] == false && b[1] == false && b[2] == false && b[3] == false;
  }

  /** The roll order of [0, 90, 180, 270] onto (-180, 180): 180 and 270 wrap down and lead. */
  lemma UpperEndOrder()
    ensures WrapOrder([0.0, 90.0, 180.0, 270.0], Pm180) == [2, 3, 0, 1]
  {
    var points := [0.0, 90.0, 180.0, 270.0];
    UpperEndClasses();
    var above: seq<bool> := [false, false, true, true];
    var inside: seq<bool> := [true, true, false, false];
    var below: seq<bool> := [false, false, false, false];
    assert Select(above, 2) == [] by {
      assert Select(above, 1) == Select(above, 0);
    }
    assert Select(above, 4) == [2, 3] by {
      assert Select(above, 3) == [2];
    }
    assert Select(inside, 4) == [0, 1] by {
      assert Select(inside, 1) == [0];
      assert Select(inside, 2) == [0, 1];
      assert Select(inside, 3) == [0, 1];
    }
    assert Select(below, 4) == [] by {
      assert Select(below, 1) == [];
      assert Select(below, 2) == [];
      assert Select(below, 3) == [];
    }
    assert WrapOrder(points, Pm180) == Select(above, 4) + Select(inside, 4) + Select(below, 4);
  }

  /**
   * Rolling [0, 90, 180, 270] onto (-180, 180): 180 is the upper end, so it
   * becomes -180 and leads the axis, followed by 270 as -90.
   */
  lemma UpperEndWrapsToFront()
    ensures var g: Grid := RawGrid(Coord([0.0, 90.0, 180.0, 270.0], None), Coord([0.0], None), [],
        [[[Data(1.0), Data(2.0), Data(3.0), Data(4.0)]]]);
      Rewrap(g, Pm180).x.points == [-180.0, -90.0, 0.0, 90.0]
  {
    var g: Grid := RawGrid(Coord([0.0, 90.0, 180.0, 270.0], None), Coord([0.0], None), [],
        [[[Data(1.0), Data(2.0), Data(3.0), Data(4.0)]]]);
    UpperEndOrder();
    var r := Rewrap(g, Pm180);
    assert r.x.points[0] == Wrap(180.0, Pm180) == -180.0;
    assert r.x.points[1] == Wrap(270.0, Pm180) == -90.0;
    assert r.x.points[2] == Wrap(0.0, Pm180) == 0.0;
    assert r.x.points[3] == Wrap(90.0, Pm180) == 90.0;
  }

  // ---------------------------------------------------------------------------
  // coord.guess_bounds(): bounds half-way between neighbouring points

  /** The gap used on each side of point i: the first and last gaps are repeated at the ends. */
  function Gap(points: seq<real>, i: nat): real
    requires |points| >= 2 && i <= |points|
  {
    if i == 0 then points[1] - points[0]
    else if i == |points| then points[|points| - 1] - points[|points| - 2]
    else points[i] - points[i - 1]
  }

  /** iris `guess_bounds()` at the default position 0.5. */
  function GuessBounds(points: seq<real>): (b: seq<CellBounds>)
    requires |points| >= 2
    ensures |b| == |points|
  {
    seq(|points|, i requires 0 <= i < |points| =>
      (points[i] - Gap(points, i) / 2.0, points[i] + Gap(points, i + 1) / 2.0))
  }

  /**
   * Guessed cells tile the axis: each cell ends where the next begins, an
   * inner cell spans the midpoints to its neighbours, and on ascending points
   * every cell contains its point.
   */
  lemma GuessedBoundsTile(points: seq<real>)
    requires |points| >= 2
    ensures var b := GuessBounds(points);
      && (forall i :: 0 <= i < |points| - 1 ==> b[i].1 == b[i + 1].0)
      && (forall i :: 0 < i < |points| - 1 ==>
            b[i] == ((points[i - 1] + points[i]) / 2.0, (points[i] + points[i + 1]) / 2.0))
    ensures (forall i :: 0 <= i < |points| - 1 ==> points[i] <= points[i + 1]) ==>
      forall i :: 0 <= i < |points| ==> GuessBounds(points)[i].0 <= points[i] <= GuessBounds(points)[i].1
  {
    var b := GuessBounds(points);
    var n := |points|;
    forall i | 0 <= i < n - 1
      ensures b[i].1 == b[i + 1].0
    {
      assert b[i].1 == points[i] + Gap(points, i + 1) / 2.0;
      assert b[i + 1].0 == points[i + 1] - Gap(points, i + 1) / 2.0;
      assert Gap(points, i + 1) == points[i + 1] - points[i];
    }
    forall i | 0 < i < n - 1
      ensures b[i] == ((points[i - 1] + points[i]) / 2.0, (points[i] + points[i + 1]) / 2.0)
    {
      assert Gap(points, i) == points[i] - points[i - 1];
      assert Gap(points, i + 1) == points[i + 1] - points[i];
    }
    if forall i :: 0 <= i < n - 1 ==> points[i] <= points[i + 1] {
      forall i | 0 <= i < n
        ensures b[i].0 <= points[i] <= b[i].1
      {
        assert Gap(points, i) >= 0.0 by {
          if i == 0 { assert points[0] <= points[1]; } else if i < n { assert points[i - 1] <= points[i]; }
        }
        assert Gap(points, i + 1) >= 0.0 by {
          if i + 1 == n { assert points[n - 2] <= points[n - 1]; } else { assert points[i] <= points[i + 1]; }
        }
      }
    }
  }

  // ---------------------------------------------------------------------------
  // np.ma.array(cube.data, mask=~broadcast(mask_2d)) and cube.copy(data=...)

  /**
   * A copy of the cube whose data is masked wherever the 2D mask is false, the
   * same in every field; cells already masked stay masked.
   */
  function MaskedCopy(g: Grid, m: Mask): (r: Grid)
    requires Rectangular(m, |g.y.points|, |g.x.points|)
    ensures r.x == g.x && r.y == g.y && r.otherShape == g.otherShape && |r.slices| == |g.slices|
  {
    var slices := seq(|g.slices|, k requires 0 <= k < |g.slices| =>
      seq(|g.y.points|, yi requires 0 <= yi < |g.y.points| =>
        seq(|g.x.points|, xi requires 0 <= xi < |g.x.points| =>
          if m[yi][xi] then g.slices[k][yi][xi] else Masked)));
    RawGrid(g.x, g.y, g.otherShape, slices)
  }

  /**
   * After masking, a cell holds data exactly when its mask entry is true and
   * it held data before, and then it holds the same value; this is the same
   * for every index of the other dimensions.
   */
  lemma MaskedCopyKeepsOnlyMaskedIn(g: Grid, m: Mask)
    requires Rectangular(m, |g.y.points|, |g.x.points|)
    ensures var r := MaskedCopy(g, m);
      forall k, yi, xi :: 0 <= k < |g.slices| && 0 <= yi < |g.y.points| && 0 <= xi < |g.x.points| ==>
        && (r.slices[k][yi][xi].Data? <==> m[yi][xi] && g.slices[k][yi][xi].Data?)
        && (r.slices[k][yi][xi].Data? ==> r.slices[k][yi][xi] == g.slices[k][yi][xi])
  {
  }
}
