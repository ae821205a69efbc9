/**
 * The shoelace area of an arbitrary polygon, as the two functions of
 * algorithms/calculate_anyone_polygoon_area.py compute it: the accumulator
 * pairs vertex i with its predecessor j = (i - 1) mod cnt and adds
 * (x_j + x_i) * (y_j - y_i); the area is abs(0.5 * sum), and fewer than three
 * vertices give 0.
 */
module PolygonArea {
  import opened Wrappers
  import opened PyNum
  import opened Labels

  /**
   * The three point representations `calculate_polygon_area` accepts: objects
   * with `x()`/`y()`, objects with `X()`/`Y()`, and tuples or lists.
   */
  datatype PointLike = WithXY(x: real, y: real) | WithUpperXY(px: real, py: real) | Indexable(items: seq<real>)

  /**
   * Reads `p` the way `style` is read. The branch is chosen by points[i] and is
   * then applied to points[j] too; None is the AttributeError or IndexError
   * Python raises when p does not fit that branch.
   */
  function Read(style: PointLike, p: PointLike): (r: Option<Pt>)
  {
    match style
    case WithXY(_, _) => if p.WithXY? then Some(Pt(p.x, p.y)) else None
    case WithUpperXY(_, _) => if p.WithUpperXY? then Some(Pt(p.px, p.py)) else None
    case Indexable(_) =>
      if p.Indexable? && |p.items| >= 2 then Some(Pt(p.items[0], p.items[1])) else None
  }

  /** `(i - 1) % cnt` with Python's non-negative remainder. */
  function Pred(i: nat, n: nat): (j: nat)
    requires i < n
    ensures j < n
    ensures j == if i == 0 then n - 1 else i - 1
  {
    ModBelow(i - 1 + n, n);
    (i - 1 + n) % n
  }

  lemma ModBelow(a: int, n: int)
    requires 0 <= a < 2 * n
    ensures a % n == if a < n then a else a - n
  {
    if a >= n {
      assert a == (a - n) + n;
    }
  }

  /** One trapezoid term of the accumulator. */
  function Term(pi: Pt, pj: Pt): real
  {
    (pj.x + pi.x) * (pj.y - pi.y)
  }

  /** The first k terms of the accumulator over already-read points. */
  function TrapPrefix(pts: seq<Pt>, k: nat): real
    requires k <= |pts|
  {
    if k == 0 then 0.0 else TrapPrefix(pts, k - 1) + Term(pts[k - 1], pts[Pred(k - 1, |pts|)])
  }

  /** The area the formula gives for a list of points. */
  function TrapArea(pts: seq<Pt>): (r: real)
    ensures r >= 0.0
    ensures |pts| < 3 ==> r == 0.0
  {
    if |pts| < 3 then 0.0 else AbsR(0.5 * TrapPrefix(pts, |pts|))
  }

  /** The first k terms of `calculate_polygon_area`'s loop, or None once a read fails. */
  function GeneralPrefix(points: seq<PointLike>, k: nat): Option<real>
    requires k <= |points|
  {
    if k == 0 then Some(0.0)
    else
      var i := k - 1;
      var pi := Read(points[i], points[i]);
      var pj := Read(points[i], points[Pred(i, |points|)]);
      match GeneralPrefix(points, i)
      case None => None
      case Some(s) => if pi.Some? && pj.Some? then Some(s + Term(pi.value, pj.value)) else None
  }

  /** `calculate_polygon_area`: None when some read raises. */
  function GeneralArea(points: seq<PointLike>): (r: Option<real>)
    ensures |points| < 3 ==> r == Some(0.0)
  {
    if |points| < 3 then Some(0.0)
    else
      match GeneralPrefix(points, |points|)
      case None => None
      case Some(s) => Some(AbsR(0.5 * s))
  }

  /** `calculate_polygon_area`, with the accumulator loop of the source. */
  method CalculatePolygonArea(points: seq<PointLike>) returns (r: Option<real>)
    ensures r == GeneralArea(points)
    ensures r.Some? ==> r.value >= 0.0
  {
    var cnt := |points|;
    if cnt < 3 {
      return Some(0.0);
    }
    var res := 0.0;
    for i := 0 to cnt
      invariant GeneralPrefix(points, i) == Some(res)
    {
      var j := (i - 1 + cnt) % cnt;
      assert j == Pred(i, cnt);
      var pi := Read(points[i], points[i]);
      var pj := Read(points[i], points[j]);
      if pi.None? || pj.None? {
        NoneSticks(points, i + 1);
        return None;
      }
      assert GeneralPrefix(points, i + 1) == Some(res + Term(pi.value, pj.value));
      res := res + (pj.value.x + pi.value.x) * (pj.value.y - pi.value.y);
    }
    return Some(AbsR(0.5 * res));
  }

  /** Once a read fails, every longer prefix fails too, so the whole call raises. */
  lemma {:induction false} NoneSticks(points: seq<PointLike>, k: nat)
    requires 0 < k <= |points|
    requires GeneralPrefix(points, k) == None
    ensures GeneralPrefix(points, |points|) == None
    decreases |points| - k
  {
    if k < |points| {
      NoneSticks(points, k + 1);
    }
  }

  /** A tuple or list point has at least the two coordinates the source indexes. */
  predicate TupleReadable(points: seq<seq<real>>)
  {
    forall i :: 0 <= i < |points| ==> |points[i]| >= 2
  }

  function TuplePts(points: seq<seq<real>>): (pts: seq<Pt>)
    requires TupleReadable(points)
    ensures |pts| == |points|
    ensures forall i :: 0 <= i < |points| ==> pts[i] == Pt(points[i][0], points[i][1])
  {
    seq(|points|, i requires 0 <= i < |points| => Pt(points[i][0], points[i][1]))
  }

  /**
   * `calculate_polygon_area_from_tuples`: None is the IndexError of a point
   * with fewer than two coordinates (only reached with three or more points).
   */
  method CalculatePolygonAreaFromTuples(points: seq<seq<real>>) returns (r: Option<real>)
    ensures |points| < 3 ==> r == Some(0.0)
    ensures |points| >= 3 ==> (r.Some? <==> TupleReadable(points))
    ensures r.Some? && TupleReadable(points) ==> r.value == TrapArea(TuplePts(points))
  {
    var cnt := |points|;
    if cnt < 3 {
      return Some(0.0);
    }
    var res := 0.0;
    for i := 0 to cnt
      invariant forall k :: 0 <= k < i ==> |points[k]| >= 2 && |points[Pred(k, cnt)]| >= 2
      invariant res == TupleRunning(points, i)
    {
      var j := (i - 1 + cnt) % cnt;
      assert j == Pred(i, cnt);
      if |points[i]| < 2 || |points[j]| < 2 {
        return None;
      }
      res := res + (points[j][0] + points[i][0]) * (points[j][1] - points[i][1]);
    }
    TupleRunningIsPrefix(points, cnt);
    return Some(AbsR(0.5 * res));
  }

  /** The tuple loop's running sum, read straight from the raw coordinates. */
  function TupleRunning(points: seq<seq<real>>, k: nat): real
    requires k <= |points|
    requires forall m :: 0 <= m < k ==> |points[m]| >= 2 && |points[Pred(m, |points|)]| >= 2
  {
    if k == 0 then 0.0
    else
      var i := k - 1;
      var j := Pred(i, |points|);
      TupleRunning(points, i) + (points[j][0] + points[i][0]) * (points[j][1] - points[i][1])
  }

  lemma {:induction false} TupleRunningIsPrefix(points: seq<seq<real>>, k: nat)
    requires k <= |points|
    requires TupleReadable(points)
    ensures TupleRunning(points, k) == TrapPrefix(TuplePts(points), k)
  {
    if k > 0 {
      TupleRunningIsPrefix(points, k - 1);
    }
  }

  // ---------------------------------------------------------------------
  // The two functions agree, and agree with the shoelace of ChildLabel
  // ---------------------------------------------------------------------

  function AsIndexable(points: seq<seq<real>>): (r: seq<PointLike>)
    ensures |r| == |points| && forall i :: 0 <= i < |points| ==> r[i] == Indexable(points[i])
  {
    seq(|points|, i requires 0 <= i < |points| => Indexable(points[i]))
  }

  lemma {:induction false} GeneralPrefixOnTuples(points: seq<seq<real>>, k: nat)
    requires k <= |points|
    requires TupleReadable(points)
    ensures GeneralPrefix(AsIndexable(points), k) == Some(TrapPrefix(TuplePts(points), k))
  {
    if k > 0 {
      GeneralPrefixOnTuples(points, k - 1);
    }
  }

  /** On tuple or list points both functions compute the same area. */
  lemma BothFormsAgree(points: seq<seq<real>>)
    requires TupleReadable(points)
    ensures GeneralArea(AsIndexable(points)) == Some(TrapArea(TuplePts(points)))
  {
    GeneralPrefixOnTuples(points, |points|);
  }

  /** The corner-product term x_i * y_i, which telescopes away around the polygon. */
  function Diag(p: Pt): real
  {
    p.x * p.y
  }

  lemma TermSplit(pi: Pt, pj: Pt)
    ensures Term(pi, pj) == Diag(pj) - Diag(pi) - Cross(pj, pi)
  {
  }

  lemma {:induction false} TrapPrefixClosed(pts: seq<Pt>, k: nat)
    requires 1 <= k <= |pts|
    ensures TrapPrefix(pts, k)
         == Term(pts[0], pts[|pts| - 1]) + Diag(pts[0]) - Diag(pts[k - 1]) - ShoelacePrefix(pts, k - 1)
  {
    if k > 1 {
      TrapPrefixClosed(pts, k - 1);
      assert Pred(k - 1, |pts|) == k - 2;
      ModBelow(k - 1, |pts|);
      TermSplit(pts[k - 1], pts[k - 2]);
    }
  }

  /** The predecessor-form accumulator is the negated successor-form shoelace sum. */
  lemma TrapIsNegatedShoelace(pts: seq<Pt>)
    requires |pts| >= 1
    ensures TrapPrefix(pts, |pts|) == -Shoelace(pts)
  {
    var n := |pts|;
    TrapPrefixClosed(pts, n);
    TermSplit(pts[0], pts[n - 1]);
    ModBelow(n, n);
    assert ShoelacePrefix(pts, n) == ShoelacePrefix(pts, n - 1) + Cross(pts[n - 1], pts[0]);
  }

  /**
   * The formula gives the same area as `ChildLabel.get_area` gives a polygon
   * child with those vertices: half the absolute shoelace sum.
   */
  lemma TrapAreaIsHalfShoelace(pts: seq<Pt>)
    requires |pts| >= 3
    ensures TrapArea(pts) == AbsR(Shoelace(pts)) / 2.0
  {
    TrapIsNegatedShoelace(pts);
  }

  lemma PolygonChildArea(c: Child)
    requires !c.isPlaceholder && (c.shape == Polygon || c.shape == PolygonMask)
    requires |c.polygonPoints| >= 3
    ensures AreaOf(c) == Finite(TrapArea(c.polygonPoints))
  {
    TrapAreaIsHalfShoelace(c.polygonPoints);
  }

  // ---------------------------------------------------------------------
  // The script's examples
  // ---------------------------------------------------------------------

  lemma RectangleExample()
    ensures TrapArea([Pt(0.0, 0.0), Pt(4.0, 0.0), Pt(4.0, 3.0), Pt(0.0, 3.0)]) == 12.0
  {
    var pts := [Pt(0.0, 0.0), Pt(4.0, 0.0), Pt(4.0, 3.0), Pt(0.0, 3.0)];
    TrapAreaIsHalfShoelace(pts);
    ShoelaceUnfold4(pts);
    ModBelow(4, 4);
    assert Cross(Pt(4.0, 0.0), Pt(4.0, 3.0)) == 12.0 && Cross(Pt(4.0, 3.0), Pt(0.0, 3.0)) == 12.0;
  }

  lemma TriangleExample()
    ensures TrapArea([Pt(0.0, 0.0), Pt(4.0, 0.0), Pt(2.0, 3.0)]) == 6.0
  {
    var pts := [Pt(0.0, 0.0), Pt(4.0, 0.0), Pt(2.0, 3.0)];
    TrapAreaIsHalfShoelace(pts);
    ModBelow(1, 3);
    ModBelow(2, 3);
    ModBelow(3, 3);
    assert Cross(Pt(0.0, 0.0), Pt(4.0, 0.0)) == 0.0;
    assert Cross(Pt(4.0, 0.0), Pt(2.0, 3.0)) == 12.0;
    assert Cross(Pt(2.0, 3.0), Pt(0.0, 0.0)) == 0.0;
    assert ShoelacePrefix(pts, 1) == 0.0;
    assert ShoelacePrefix(pts, 2) == 12.0;
    assert ShoelacePrefix(pts, 3) == 12.0;
  }

  /**
   * The hexagon example: the formula gives 12. The script's own comment
   * expects 14 for these vertices.
   */
  lemma HexagonExample()
    ensures TrapArea([Pt(0.0, 0.0), Pt(2.0, 0.0), Pt(3.0, 2.0), Pt(2.0, 4.0), Pt(0.0, 4.0), Pt(-1.0, 2.0)]) == 12.0
  {
    var pts := [Pt(0.0, 0.0), Pt(2.0, 0.0), Pt(3.0, 2.0), Pt(2.0, 4.0), Pt(0.0, 4.0), Pt(-1.0, 2.0)];
    TrapAreaIsHalfShoelace(pts);
    ShoelaceUnfold4(pts);
    ModBelow(5, 6);
    ModBelow(6, 6);
    assert ShoelacePrefix(pts, 6)
        == ShoelacePrefix(pts, 4) + Cross(pts[4], pts[5]) + Cross(pts[5], pts[0]);
  }

  lemma ShoelaceUnfold4(pts: seq<Pt>)
    requires |pts| >= 4
    ensures ShoelacePrefix(pts, 4)
         == Cross(pts[0], pts[1]) + Cross(pts[1], pts[2]) + Cross(pts[2], pts[3]) + Cross(pts[3], pts[4 % |pts|])
  {
    ModBelow(1, |pts|);
    ModBelow(2, |pts|);
    ModBelow(3, |pts|);
    ModBelow(4, |pts|);
    assert ShoelacePrefix(pts, 1) == Cross(pts[0], pts[1]);
    assert ShoelacePrefix(pts, 2) == ShoelacePrefix(pts, 1) + Cross(pts[1], pts[2]);
    assert ShoelacePrefix(pts, 3) == ShoelacePrefix(pts, 2) + Cross(pts[2], pts[3]);
  }
}
