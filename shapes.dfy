/**
 * The part of shapely the cutting engine relies on: a geometry's bounds
 * tuple, `box(...)` for a grid cell and `geometry.intersects(cell)`.
 * A geometry is modelled as a union of closed axis-aligned rectangles,
 * which makes `intersects` a concrete instance of the closed
 * rectangle-rectangle overlap test.
 */
module Shapes {

  /**
   * Four numbers in shapely's bounds order (minx, miny, maxx, maxy). Also
   * used for a closed rectangle with those extremes.
   */
  datatype Bounds = Bounds(minx: real, miny: real, maxx: real, maxy: real) {

    /** Position `i` of the bounds tuple. */
    function At(i: nat): real
      requires i < 4
    {
      if i == 0 then minx else if i == 1 then miny else if i == 2 then maxx else maxy
    }

    /** The rectangle has its corners the right way round. */
    predicate Normal() {
      minx <= maxx && miny <= maxy
    }

    /** This rectangle lies inside `outer`. */
    predicate Within(outer: Bounds) {
      outer.minx <= minx && maxx <= outer.maxx && outer.miny <= miny && maxy <= outer.maxy
    }
  }

  function Min(a: real, b: real): real { if a <= b then a else b }

  function Max(a: real, b: real): real { if a <= b then b else a }

  /**
   * shapely's `box(x0, y0, x1, y1)`: the rectangle with those corners, in
   * whichever order the corners are given (descending coordinates give
   * cell bounds with lo > hi).
   */
  function Box(x0: real, y0: real, x1: real, y1: real): (r: Bounds)
    ensures r.Normal()
    ensures (r.minx == x0 && r.maxx == x1) || (r.minx == x1 && r.maxx == x0)
    ensures (r.miny == y0 && r.maxy == y1) || (r.miny == y1 && r.maxy == y0)
  {
    Bounds(Min(x0, x1), Min(y0, y1), Max(x0, x1), Max(y0, y1))
  }

  /** Two closed rectangles share at least one point (touching counts). */
  predicate Overlaps(a: Bounds, b: Bounds) {
    a.minx <= b.maxx && b.minx <= a.maxx && a.miny <= b.maxy && b.miny <= a.maxy
  }

  /** A shapely geometry: the rectangles it is made of, and its bounds tuple. */
  datatype Geometry = Geometry(parts: seq<Bounds>, bounds: Bounds)

  /** `geometry.intersects(cell)`: some part of the geometry meets the cell. */
  predicate Intersects(g: Geometry, cell: Bounds) {
    exists i :: 0 <= i < |g.parts| && Overlaps(g.parts[i], cell)
  }

  /** The bounds tuple encloses every part, as shapely's computed bounds do. */
  predicate Enclosed(g: Geometry) {
    forall i :: 0 <= i < |g.parts| ==> g.parts[i].Normal() && g.parts[i].Within(g.bounds)
  }

  /**
   * A cell that meets the geometry meets its bounding box: only cells whose
   * boxes overlap the bounding box can be in a boundary mask. On an axis
   * without bounds the crop tests grid points, not the guessed cell boxes, so
   * it can still drop a cell whose box straddles the bounding box
   * (`ShapeCutter.StraddlingCellDroppedByCrop`).
   */
  lemma IntersectsWithinBounds(g: Geometry, cell: Bounds)
    requires Enclosed(g) && cell.Normal()
    ensures Intersects(g, cell) ==> Overlaps(g.bounds, cell)
  {
    if Intersects(g, cell) {
      var i :| 0 <= i < |g.parts| && Overlaps(g.parts[i], cell);
      assert g.parts[i].Within(g.bounds);
    }
  }
}
