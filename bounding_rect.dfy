/**
 * The axis-aligned bounding rectangle of a polygon
 * (algorithms/polygon_bounding_rectangle.py, `calculate_bounding_rectangle`).
 */
module BoundingRect {
  import opened Wrappers
  import opened Labels

  /** A box as (x1, y1, x2, y2). */
  datatype Bounds = Bounds(x1: real, y1: real, x2: real, y2: real)

  /**
   * `calculate_bounding_rectangle`: None is the ValueError raised for fewer
   * than three vertices; otherwise the four corners from the column minima
   * and maxima, in the order of the source.
   */
  function CalculateBoundingRectangle(pts: seq<Pt>): (r: Option<seq<Pt>>)
    ensures r.None? <==> |pts| < 3
    ensures r.Some? ==> |r.value| == 4
  {
    if |pts| < 3 then None
    else
      var xMin := MinOf(Xs(pts));
      var xMax := MaxOf(Xs(pts));
      var yMin := MinOf(Ys(pts));
      var yMax := MaxOf(Ys(pts));
      Some([Pt(xMin, yMin), Pt(xMax, yMin), Pt(xMax, yMax), Pt(xMin, yMax)])
  }

  /** Lower-left and upper-right corners of a rectangle in the source's corner order. */
  predicate CornerOrder(r: seq<Pt>)
  {
    |r| == 4 && r[1] == Pt(r[2].x, r[0].y) && r[3] == Pt(r[0].x, r[2].y)
  }

  /** Every vertex lies in [x_min, x_max] x [y_min, y_max]. */
  predicate Encloses(r: seq<Pt>, pts: seq<Pt>)
    requires |r| == 4
  {
    forall i :: 0 <= i < |pts| ==> r[0].x <= pts[i].x <= r[2].x && r[0].y <= pts[i].y <= r[2].y
  }

  /** Each of the four bounds is the coordinate of some vertex. */
  predicate BoundsAttained(r: seq<Pt>, pts: seq<Pt>)
    requires |r| == 4
  {
    (exists i :: 0 <= i < |pts| && pts[i].x == r[0].x)
    && (exists i :: 0 <= i < |pts| && pts[i].x == r[2].x)
    && (exists i :: 0 <= i < |pts| && pts[i].y == r[0].y)
    && (exists i :: 0 <= i < |pts| && pts[i].y == r[2].y)
  }

  /**
   * With three or more vertices the result is a well-ordered rectangle that
   * encloses every vertex and touches one on each side.
   */
  lemma BoundingRectangleIsTight(pts: seq<Pt>)
    requires |pts| >= 3
    ensures var r := CalculateBoundingRectangle(pts).value;
      CornerOrder(r) && Encloses(r, pts) && BoundsAttained(r, pts)
      && r[0].x <= r[2].x && r[0].y <= r[2].y
  {
    var r := CalculateBoundingRectangle(pts).value;
    MinOfIsLeast(Xs(pts));
    MaxOfIsGreatest(Xs(pts));
    MinOfIsLeast(Ys(pts));
    MaxOfIsGreatest(Ys(pts));
    var a :| 0 <= a < |pts| && Xs(pts)[a] == MinOf(Xs(pts));
    var b :| 0 <= b < |pts| && Xs(pts)[b] == MaxOf(Xs(pts));
    var c :| 0 <= c < |pts| && Ys(pts)[c] == MinOf(Ys(pts));
    var d :| 0 <= d < |pts| && Ys(pts)[d] == MaxOf(Ys(pts));
    assert pts[a].x == r[0].x && pts[b].x == r[2].x && pts[c].y == r[0].y && pts[d].y == r[2].y;
    assert Xs(pts)[0] == pts[0].x && Ys(pts)[0] == pts[0].y;
  }

  /** No smaller axis-aligned rectangle encloses the vertices. */
  lemma BoundingRectangleIsSmallest(pts: seq<Pt>, lo: Pt, hi: Pt)
    requires |pts| >= 3
    requires forall i :: 0 <= i < |pts| ==> lo.x <= pts[i].x <= hi.x && lo.y <= pts[i].y <= hi.y
    ensures var r := CalculateBoundingRectangle(pts).value;
      lo.x <= r[0].x && r[2].x <= hi.x && lo.y <= r[0].y && r[2].y <= hi.y
  {
    var r := CalculateBoundingRectangle(pts).value;
    BoundingRectangleIsTight(pts);
    assert BoundsAttained(r, pts);
  }
}
