/**
 * The Jarvis march of algorithms/minimum_bounding_rectangle.py
 * (`MinimumBoundingBox.calculate_convex_hull`, `_cross_product`) and the
 * input and two-point cases of `find_minimum_bounding_rectangle`.
 *
 * `_distance` is the square root of the squared distance; the march only
 * compares two distances, and the square root is monotone, so the model
 * compares squared distances.
 */
module ConvexHull {
  import opened Wrappers
  import opened Labels

  /** `_cross_product(p1, p2, p3)`: (p2 - p1) x (p3 - p1). */
  function CrossProduct(p1: Pt, p2: Pt, p3: Pt): real
  {
    (p2.x - p1.x) * (p3.y - p1.y) - (p2.y - p1.y) * (p3.x - p1.x)
  }

  function Dist2(p1: Pt, p2: Pt): (d: real)
    ensures d >= 0.0
  {
    SquareNonNegative(p2.x - p1.x);
    SquareNonNegative(p2.y - p1.y);
    (p2.x - p1.x) * (p2.x - p1.x) + (p2.y - p1.y) * (p2.y - p1.y)
  }

  /** Swapping the two far points negates the cross product. */
  lemma CrossProductAntisymmetric(p1: Pt, p2: Pt, p3: Pt)
    ensures CrossProduct(p1, p2, p3) == -CrossProduct(p1, p3, p2)
  {
    assert (p2.x - p1.x) * (p3.y - p1.y) == (p3.y - p1.y) * (p2.x - p1.x);
    assert (p2.y - p1.y) * (p3.x - p1.x) == (p3.x - p1.x) * (p2.y - p1.y);
  }

  /** The key order of `min(points, key=lambda p: (p[0], p[1]))`. */
  predicate LexLess(a: Pt, b: Pt)
  {
    a.x < b.x || (a.x == b.x && a.y < b.y)
  }

  /** The first point minimal by (x, then y). */
  function Leftmost(points: seq<Pt>): (r: Pt)
    requires |points| > 0
    ensures r in points
    ensures forall i :: 0 <= i < |points| ==> !LexLess(points[i], r)
  {
    if |points| == 1 then points[0]
    else
      var m := Leftmost(points[..|points| - 1]);
      var p := points[|points| - 1];
      assert forall i :: 0 <= i < |points| - 1 ==> points[i] == points[..|points| - 1][i];
      if LexLess(p, m) then p else m
  }

  /**
   * One pass of the inner loop: `point` replaces `next_point` when
   * next_point is still the current point, when it lies to the right
   * (negative cross product), or when it is collinear and strictly farther.
   */
  function Step(current: Pt, next: Pt, point: Pt): Pt
  {
    if next == current then point
    else
      var c := CrossProduct(current, next, point);
      if c < 0.0 || (c == 0.0 && Dist2(current, point) > Dist2(current, next)) then point else next
  }

  /** next_point after the inner loop has seen points[1..k]. */
  function NextFrom(points: seq<Pt>, current: Pt, k: nat): (r: Pt)
    requires 1 <= k <= |points|
    ensures r in points
  {
    if k == 1 then points[0] else Step(current, NextFrom(points, current, k - 1), points[k - 1])
  }

  /** The point the march moves to from `current`. */
  function NextPoint(points: seq<Pt>, current: Pt): Pt
    requires |points| > 0
  {
    NextFrom(points, current, |points|)
  }

  /** Once the candidate differs from the current point it never falls back to it. */
  lemma {:induction false} NextFromLeaves(points: seq<Pt>, current: Pt, k: nat, i: nat)
    requires i < k <= |points|
    requires points[i] != current
    ensures NextFrom(points, current, k) != current
  {
    if k - 1 > i {
      NextFromLeaves(points, current, k - 1, i);
      var n := NextFrom(points, current, k - 1);
      var p := points[k - 1];
      if p == current {
        assert CrossProduct(current, n, p) == 0.0;
        assert Dist2(current, p) == 0.0;
      }
    } else if k > 1 {
      assert NextFrom(points, current, k) == Step(current, NextFrom(points, current, k - 1), points[i]);
    }
  }

  /** The march advances whenever some input point differs from the current one. */
  lemma NextPointLeaves(points: seq<Pt>, current: Pt, i: nat)
    requires i < |points| && points[i] != current
    ensures NextPoint(points, current) != current
  {
    NextFromLeaves(points, current, |points|, i);
  }

  /** When every input point is the current one, the march stays put. */
  lemma {:induction false} NextFromStays(points: seq<Pt>, current: Pt, k: nat)
    requires 1 <= k <= |points|
    requires forall i :: 0 <= i < |points| ==> points[i] == current
    ensures NextFrom(points, current, k) == current
  {
    if k > 1 {
      NextFromStays(points, current, k - 1);
    }
  }

  function Prepend(h: seq<Pt>, rest: Option<seq<Pt>>): (r: Option<seq<Pt>>)
    ensures r.Some? <==> rest.Some?
    ensures r.Some? ==> r.value == h + rest.value
  {
    match rest
    case None => None
    case Some(t) => Some(h + t)
  }

  lemma PrependEmpty(rest: Option<seq<Pt>>)
    ensures Prepend([], rest) == rest
  {
    if rest.Some? {
      assert [] + rest.value == rest.value;
    }
  }

  lemma PrependTwice(a: seq<Pt>, b: seq<Pt>, rest: Option<seq<Pt>>)
    ensures Prepend(a, Prepend(b, rest)) == Prepend(a + b, rest)
  {
    if rest.Some? {
      assert a + (b + rest.value) == (a + b) + rest.value;
    }
  }

  /**
   * The outer `while True` loop from `current`, allowed `fuel` more vertices:
   * append the current point, move to the next, stop on returning to the
   * start. None is a march that has not closed within `fuel` vertices.
   */
  function March(points: seq<Pt>, start: Pt, current: Pt, fuel: nat): Option<seq<Pt>>
    requires |points| > 0
    decreases fuel
  {
    if fuel == 0 then None
    else
      var next := NextPoint(points, current);
      if next == start then Some([current]) else Prepend([current], March(points, start, next, fuel - 1))
  }

  /** The hull `calculate_convex_hull` returns, with at most `fuel` vertices. */
  function ConvexHullOf(points: seq<Pt>, fuel: nat): Option<seq<Pt>>
  {
    if |points| < 3 then Some(points)
    else March(points, Leftmost(points), Leftmost(points), fuel)
  }

  /**
   * `calculate_convex_hull` with the source's two nested loops. The outer
   * loop may add at most `fuel` vertices; None is a march that has not
   * closed by then.
   */
  method CalculateConvexHull(points: seq<Pt>, fuel: nat) returns (hull: Option<seq<Pt>>)
    ensures hull == ConvexHullOf(points, fuel)
  {
    if |points| < 3 {
      return Some(points);
    }
    var leftmost := Leftmost(points);
    var h: seq<Pt> := [];
    var current := leftmost;
    var steps := 0;
    PrependEmpty(March(points, leftmost, current, fuel));
    while steps < fuel
      invariant 0 <= steps <= fuel
      invariant March(points, leftmost, leftmost, fuel) == Prepend(h, March(points, leftmost, current, fuel - steps))
      decreases fuel - steps
    {
      ghost var before := h;
      h := h + [current];
      var next := points[0];
      for i := 1 to |points|
        invariant next == NextFrom(points, current, i)
      {
        var point := points[i];
        if next == current {
          next := point;
        } else {
          var cross := CrossProduct(current, next, point);
          if cross < 0.0 || (cross == 0.0 && Dist2(current, point) > Dist2(current, next)) {
            next := point;
          }
        }
      }
      assert next == NextPoint(points, current);
      current := next;
      steps := steps + 1;
      if current == leftmost {
        return Some(h);
      }
      PrependTwice(before, [h[|h| - 1]], March(points, leftmost, current, fuel - steps));
      assert before + [h[|h| - 1]] == h;
    }
    return None;
  }

  // ---------------------------------------------------------------------
  // What a closed march is
  // ---------------------------------------------------------------------

  /**
   * A closed march from `start`: it begins there, each vertex is the next
   * point of its predecessor, the start is not revisited, and the last
   * vertex leads back to the start.
   */
  ghost predicate IsMarch(points: seq<Pt>, start: Pt, h: seq<Pt>)
    requires |points| > 0
  {
    |h| >= 1 && h[0] == start
    && (forall k :: 0 <= k < |h| - 1 ==> h[k + 1] == NextPoint(points, h[k]))
    && (forall k :: 1 <= k < |h| ==> h[k] != start)
    && NextPoint(points, h[|h| - 1]) == start
  }

  /** Read as a march from `current` towards `start` (the tail of a closed march). */
  ghost predicate IsMarchTail(points: seq<Pt>, start: Pt, current: Pt, h: seq<Pt>)
    requires |points| > 0
  {
    |h| >= 1 && h[0] == current
    && (forall k :: 0 <= k < |h| - 1 ==> h[k + 1] == NextPoint(points, h[k]))
    && (forall k :: 1 <= k < |h| ==> h[k] != start)
    && NextPoint(points, h[|h| - 1]) == start
  }

  lemma {:induction false} MarchTail(points: seq<Pt>, start: Pt, current: Pt, fuel: nat)
    requires |points| > 0
    requires March(points, start, current, fuel).Some?
    ensures var h := March(points, start, current, fuel).value;
      IsMarchTail(points, start, current, h) && |h| <= fuel
      && forall k :: 0 <= k < |h| ==> k == 0 || h[k] in points
    decreases fuel
  {
    var next := NextPoint(points, current);
    if next != start {
      MarchTail(points, start, next, fuel - 1);
      var t := March(points, start, next, fuel - 1).value;
      var h := [current] + t;
      assert March(points, start, current, fuel).value == h;
      assert forall k :: 1 <= k < |h| ==> h[k] == t[k - 1];
      assert next in points;
    }
  }

  /** A closed march whose length is within the fuel is what March returns. */
  lemma {:induction false} MarchFindsTail(points: seq<Pt>, start: Pt, current: Pt, h: seq<Pt>, fuel: nat)
    requires |points| > 0
    requires IsMarchTail(points, start, current, h) && |h| <= fuel
    ensures March(points, start, current, fuel) == Some(h)
    decreases fuel
  {
    var next := NextPoint(points, current);
    if |h| == 1 {
      assert next == start && h == [current];
    } else {
      assert h[1] == next && next != start;
      assert IsMarchTail(points, start, next, h[1..]) by {
        assert forall k :: 1 <= k < |h| - 1 ==> h[1..][k] == h[k + 1];
      }
      MarchFindsTail(points, start, next, h[1..], fuel - 1);
      assert h == [current] + h[1..];
    }
  }

  /**
   * With three or more points, a returned hull is the closed march from the
   * leftmost point (minimal by x, then y) — it starts there, follows the
   * selection rule, stops on returning to it — and every vertex is an input point.
   */
  lemma ConvexHullIsMarch(points: seq<Pt>, fuel: nat)
    requires |points| >= 3
    requires ConvexHullOf(points, fuel).Some?
    ensures var h := ConvexHullOf(points, fuel).value;
      IsMarch(points, Leftmost(points), h) && |h| <= fuel
      && forall k :: 0 <= k < |h| ==> h[k] in points
  {
    MarchTail(points, Leftmost(points), Leftmost(points), fuel);
  }

  /** There is only one closed march from the leftmost point. */
  lemma MarchIsUnique(points: seq<Pt>, a: seq<Pt>, b: seq<Pt>)
    requires |points| > 0
    requires IsMarch(points, Leftmost(points), a) && IsMarch(points, Leftmost(points), b)
    ensures a == b
  {
    var l := Leftmost(points);
    var fuel := if |a| < |b| then |b| else |a|;
    MarchFindsTail(points, l, l, a, fuel);
    MarchFindsTail(points, l, l, b, fuel);
  }

  /** None means no closed march of at most `fuel` vertices exists. */
  lemma ConvexHullNoneMeansLonger(points: seq<Pt>, fuel: nat, h: seq<Pt>)
    requires |points| >= 3
    requires ConvexHullOf(points, fuel).None?
    requires IsMarch(points, Leftmost(points), h)
    ensures |h| > fuel
  {
    if |h| <= fuel {
      MarchFindsTail(points, Leftmost(points), Leftmost(points), h, fuel);
    }
  }

  /** A closed march is unique, so more fuel never changes a returned hull. */
  lemma ConvexHullFuelIndependent(points: seq<Pt>, fuel: nat, more: nat)
    requires |points| >= 3
    requires ConvexHullOf(points, fuel).Some? && fuel <= more
    ensures ConvexHullOf(points, more) == ConvexHullOf(points, fuel)
  {
    var l := Leftmost(points);
    MarchTail(points, l, l, fuel);
    MarchFindsTail(points, l, l, March(points, l, l, fuel).value, more);
  }

  /** Fewer than three points: the hull is a copy of the input. */
  lemma ConvexHullOfFewIsCopy(points: seq<Pt>, fuel: nat)
    requires |points| < 3
    ensures ConvexHullOf(points, fuel) == Some(points)
  {
  }

  /** Three or more copies of one point give a one-vertex hull. */
  lemma ConvexHullOfOnePoint(points: seq<Pt>, fuel: nat)
    requires |points| >= 3 && fuel >= 1
    requires forall i :: 0 <= i < |points| ==> points[i] == points[0]
    ensures ConvexHullOf(points, fuel) == Some([points[0]])
  {
    var l := Leftmost(points);
    assert l == points[0];
    NextFromStays(points, l, |points|);
  }

  // ---------------------------------------------------------------------
  // find_minimum_bounding_rectangle: input checks and the two-point hull
  // ---------------------------------------------------------------------

  datatype MinRectOutcome =
    | TooFewPoints            // ValueError: fewer than two points
    | HullTooSmall            // ValueError: a hull of fewer than two points
    | HullNotClosed           // the march did not close within the fuel
    | Segment(corners: seq<Pt>, height: real, area: real, center: Pt)
    | Calipers(hull: seq<Pt>) // three or more hull vertices: rotating calipers

  function FindMinimumBoundingRectangle(points: seq<Pt>, fuel: nat): (r: MinRectOutcome)
    ensures |points| < 2 <==> r == TooFewPoints
  {
    if |points| < 2 then TooFewPoints
    else
      match ConvexHullOf(points, fuel)
      case None => HullNotClosed
      case Some(hull) =>
        if |hull| < 2 then HullTooSmall
        else if |hull| == 2 then
          Segment([hull[0], hull[1], hull[1], hull[0]], 0.0, 0.0,
                  Pt((hull[0].x + hull[1].x) / 2.0, (hull[0].y + hull[1].y) / 2.0))
        else Calipers(hull)
  }

  /** Two input points give the degenerate rectangle [p1, p2, p2, p1] of height and area 0. */
  lemma TwoPointsGiveSegment(p1: Pt, p2: Pt, fuel: nat)
    ensures FindMinimumBoundingRectangle([p1, p2], fuel)
         == Segment([p1, p2, p2, p1], 0.0, 0.0, Pt((p1.x + p2.x) / 2.0, (p1.y + p2.y) / 2.0))
  {
  }

  /** Three or more copies of one point make the hull too small. */
  lemma OnePointHullTooSmall(points: seq<Pt>, fuel: nat)
    requires |points| >= 3 && fuel >= 1
    requires forall i :: 0 <= i < |points| ==> points[i] == points[0]
    ensures FindMinimumBoundingRectangle(points, fuel) == HullTooSmall
  {
    ConvexHullOfOnePoint(points, fuel);
  }

  /** A two-vertex hull yields exactly its two vertices, each twice, as corners. */
  lemma SegmentCorners(points: seq<Pt>, fuel: nat)
    requires FindMinimumBoundingRectangle(points, fuel).Segment?
    ensures var r := FindMinimumBoundingRectangle(points, fuel);
      |r.corners| == 4 && r.corners[0] == r.corners[3] && r.corners[1] == r.corners[2]
      && r.area == 0.0 && r.height == 0.0
      && forall k :: 0 <= k < 4 ==> r.corners[k] in points
  {
    if |points| >= 3 {
      ConvexHullIsMarch(points, fuel);
    }
  }
}
