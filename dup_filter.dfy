/**
 * The duplicate filter of sam_ops/auto_label_filter.py: a candidate box (or
 * the bounding box of a candidate polygon) is a duplicate when some visible
 * child of the selected parent on the same image overlaps it with an
 * intersection-over-union of at least 0.5.
 */
module DupFilter {
  import opened Wrappers
  import opened PyNum
  import opened Labels
  import opened LabelList
  import opened BoundingRect

  const DuplicateIoU: real := 0.5

  /** (min xs, min ys, max xs, max ys) of a non-empty polygon. */
  function PolygonBounds(pp: seq<Pt>): Bounds
    requires |pp| > 0
  {
    Bounds(MinOf(Xs(pp)), MinOf(Ys(pp)), MaxOf(Xs(pp)), MaxOf(Ys(pp)))
  }

  /**
   * The box compared against: from the first four corners of an 8-value
   * `points`, else from `polygon_points`, else from centre and size; None
   * for a child with none of them, which the loop skips.
   */
  function ChildBounds(c: Child): Option<Bounds>
  {
    if |c.points| >= 8 then
      var xs := [c.points[0], c.points[2], c.points[4], c.points[6]];
      var ys := [c.points[1], c.points[3], c.points[5], c.points[7]];
      Some(Bounds(MinOf(xs), MinOf(ys), MaxOf(xs), MaxOf(ys)))
    else if |c.polygonPoints| > 0 then
      Some(PolygonBounds(c.polygonPoints))
    else if BoxOf(c).Some? then
      var b := BoxOf(c).value;
      Some(Bounds(b.xc - b.w / 2.0, b.yc - b.h / 2.0, b.xc + b.w / 2.0, b.yc + b.h / 2.0))
    else
      None
  }

  /** A box's area with each side clamped at 0. */
  function ClampedArea(b: Bounds): real
  {
    MaxR(0.0, b.x2 - b.x1) * MaxR(0.0, b.y2 - b.y1)
  }

  function Intersection(b1: Bounds, b2: Bounds): real
  {
    OverlapLength(b1.x1, b1.x2, b2.x1, b2.x2) * OverlapLength(b1.y1, b1.y2, b2.y1, b2.y2)
  }

  /** inter / union, and 0 when the union is not positive. */
  function IoU(b1: Bounds, b2: Bounds): real
  {
    var inter := Intersection(b1, b2);
    var union := ClampedArea(b1) + ClampedArea(b2) - inter;
    if union > 0.0 then inter / union else 0.0
  }

  lemma ProductMono(a: real, b: real, c: real, d: real)
    requires 0.0 <= a <= c && 0.0 <= b <= d
    ensures 0.0 <= a * b <= c * d
  {
    assert (c - a) * b >= 0.0;
    assert c * (d - b) >= 0.0;
  }

  lemma QuotientAtMostOne(a: real, b: real)
    requires 0.0 <= a <= b && b > 0.0
    ensures 0.0 <= a / b <= 1.0
  {
    assert a / b * b == a;
  }

  /** The intersection never exceeds either clamped area. */
  lemma IntersectionBounded(b1: Bounds, b2: Bounds)
    ensures 0.0 <= Intersection(b1, b2) <= ClampedArea(b1)
    ensures Intersection(b1, b2) <= ClampedArea(b2)
  {
    IntersectionWithinFirst(b1, b2);
    IntersectionWithinFirst(b2, b1);
    IntersectionSymmetric(b1, b2);
  }

  lemma IntersectionWithinFirst(b1: Bounds, b2: Bounds)
    ensures 0.0 <= Intersection(b1, b2) <= ClampedArea(b1)
  {
    ProductMono(OverlapLength(b1.x1, b1.x2, b2.x1, b2.x2), OverlapLength(b1.y1, b1.y2, b2.y1, b2.y2),
                MaxR(0.0, b1.x2 - b1.x1), MaxR(0.0, b1.y2 - b1.y1));
  }

  lemma IntersectionSymmetric(b1: Bounds, b2: Bounds)
    ensures Intersection(b1, b2) == Intersection(b2, b1)
  {
    assert OverlapLength(b1.x1, b1.x2, b2.x1, b2.x2) == OverlapLength(b2.x1, b2.x2, b1.x1, b1.x2);
    assert OverlapLength(b1.y1, b1.y2, b2.y1, b2.y2) == OverlapLength(b2.y1, b2.y2, b1.y1, b1.y2);
  }

  /** The overlap of [lo1, hi1] and [lo2, hi2], clamped at 0, is no longer than either. */
  function OverlapLength(lo1: real, hi1: real, lo2: real, hi2: real): (r: real)
    ensures 0.0 <= r <= MaxR(0.0, hi1 - lo1) && r <= MaxR(0.0, hi2 - lo2)
  {
    MaxR(0.0, MinR(hi1, hi2) - MaxR(lo1, lo2))
  }

  /** IoU lies in [0, 1]. */
  lemma IoUInUnitRange(b1: Bounds, b2: Bounds)
    ensures 0.0 <= IoU(b1, b2) <= 1.0
  {
    IntersectionBounded(b1, b2);
    var inter := Intersection(b1, b2);
    var union := ClampedArea(b1) + ClampedArea(b2) - inter;
    if union > 0.0 {
      ProductMono(0.0, 0.0, MaxR(0.0, b2.x2 - b2.x1), MaxR(0.0, b2.y2 - b2.y1));
      QuotientAtMostOne(inter, union);
    }
  }

  /** A box of positive area overlaps itself completely. */
  lemma IoUSelf(b: Bounds)
    requires b.x1 < b.x2 && b.y1 < b.y2
    ensures IoU(b, b) == 1.0
  {
    var w, h := b.x2 - b.x1, b.y2 - b.y1;
    assert OverlapLength(b.x1, b.x2, b.x1, b.x2) == w && OverlapLength(b.y1, b.y2, b.y1, b.y2) == h;
    var a := w * h;
    assert a > 0.0;
    assert Intersection(b, b) == a && ClampedArea(b) == a;
    assert a / a == 1.0;
  }

  /** A visible child whose box overlaps `b1` with IoU >= 0.5. */
  predicate DuplicateOf(c: Child, b1: Bounds)
  {
    !c.isPlaceholder && ChildBounds(c).Some? && IoU(b1, ChildBounds(c).value) >= DuplicateIoU
  }

  /** Some visible child of the list overlaps the box with IoU at least 0.5. */
  predicate DuplicateAmong(children: seq<Child>, b1: Bounds)
  {
    exists i :: 0 <= i < |children| && DuplicateOf(children[i], b1)
  }

  /** The loop over the image's children, returning at the first duplicate. */
  method AnyDuplicate(children: seq<Child>, b1: Bounds) returns (found: bool)
    ensures found <==> exists i :: 0 <= i < |children| && DuplicateOf(children[i], b1)
  {
    for i := 0 to |children|
      invariant forall k :: 0 <= k < i ==> !DuplicateOf(children[k], b1)
    {
      var child := children[i];
      if child.isPlaceholder {
        continue;
      }
      var b2 := ChildBounds(child);
      if b2.None? {
        continue;
      }
      var iou := IoU(b1, b2.value);
      if iou >= DuplicateIoU {
        return true;
      }
    }
    return false;
  }

  /**
   * `is_duplicate_rect`. None for `bbox` is a value that is not a list or
   * tuple; the tolerance parameter is unused by the source.
   */
  method IsDuplicateRect(selectedParent: Option<Parent>, imageInfo: Option<string>,
                         bbox: Option<seq<real>>, tol: real) returns (dup: bool)
    ensures selectedParent.None? || !Truthy(imageInfo) || bbox.None? || |bbox.value| < 4 ==> !dup
    ensures selectedParent.Some? && Truthy(imageInfo) && bbox.Some? && |bbox.value| >= 4 ==>
      var b := bbox.value;
      var children := ImageChildren(selectedParent.value, imageInfo.value);
      (dup <==> exists i :: 0 <= i < |children| && DuplicateOf(children[i], Bounds(b[0], b[1], b[2], b[3])))
  {
    if selectedParent.None? || !Truthy(imageInfo) || bbox.None? || |bbox.value| < 4 {
      return false;
    }
    var b := bbox.value;
    var b1 := Bounds(b[0], b[1], b[2], b[3]);
    dup := AnyDuplicate(ImageChildren(selectedParent.value, imageInfo.value), b1);
  }

  /**
   * `is_duplicate_polygon`: the same test on the candidate polygon's
   * bounding box. The image size and tolerance parameters are unused.
   */
  method IsDuplicatePolygon(selectedParent: Option<Parent>, imageInfo: Option<string>, polygonPoints: seq<Pt>,
                            imageWidth: Option<real>, imageHeight: Option<real>, tolN: real) returns (dup: bool)
    ensures selectedParent.None? || !Truthy(imageInfo) || |polygonPoints| == 0 ==> !dup
    ensures selectedParent.Some? && Truthy(imageInfo) && |polygonPoints| > 0 ==>
      var children := ImageChildren(selectedParent.value, imageInfo.value);
      (dup <==> exists i :: 0 <= i < |children| && DuplicateOf(children[i], PolygonBounds(polygonPoints)))
  {
    if selectedParent.None? || !Truthy(imageInfo) || |polygonPoints| == 0 {
      return false;
    }
    var b1 := PolygonBounds(polygonPoints);
    dup := AnyDuplicate(ImageChildren(selectedParent.value, imageInfo.value), b1);
  }

  /**
   * A visible rectangle drawn from two corners is found again as a duplicate
   * when the same corners are offered once more.
   */
  lemma RectangleIsItsOwnDuplicate(parent: Parent, x1: real, y1: real, x2: real, y2: real, mode: Mode)
    requires x1 < x2 && y1 < y2
    ensures DuplicateOf(NewChild(parent, RectCorners(x1, y1, x2, y2), mode, false, Rectangle, [], 0.0, false),
                        Bounds(x1, y1, x2, y2))
  {
    var c := NewChild(parent, RectCorners(x1, y1, x2, y2), mode, false, Rectangle, [], 0.0, false);
    var p := RectCorners(x1, y1, x2, y2);
    assert [p[0], p[2], p[4], p[6]] == [x1, x2, x2, x1];
    assert [p[1], p[3], p[5], p[7]] == [y1, y1, y2, y2];
    Four(x1, x2, x2, x1);
    Four(y1, y1, y2, y2);
    assert ChildBounds(c) == Some(Bounds(x1, y1, x2, y2));
    IoUSelf(Bounds(x1, y1, x2, y2));
  }
}
