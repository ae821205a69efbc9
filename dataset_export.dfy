// Dataset export: which images are exported, how they are split into train
// and val, the progress the export reports, the mask gray levels and point
// clamps, and the label statistics the dialog shows.

module DatasetExport {
  import opened Wrappers
  import opened PyNum
  import opened Labels

  // ---------------------------------------------------------------------
  // Labeled images
  // ---------------------------------------------------------------------

  /** Some child in the list is not a placeholder. */
  predicate HasRealChild(cs: seq<Child>)
  {
    exists j :: 0 <= j < |cs| && !cs[j].isPlaceholder
  }

  /** The images of one parent that hold a non-placeholder child. */
  function LabeledIn(p: Parent): set<string>
  {
    set k | k in p.childrenByImage && HasRealChild(p.childrenByImage[k])
  }

  /** The images that hold a non-placeholder child under some parent. */
  function LabeledImages(ls: seq<Parent>): (r: set<string>)
  {
    if |ls| == 0 then {} else LabeledImages(ls[..|ls| - 1]) + LabeledIn(ls[|ls| - 1])
  }

  /** An image is collected exactly when some parent holds a non-placeholder child for it. */
  lemma {:induction false} LabeledImagesMembership(ls: seq<Parent>, k: string)
    ensures k in LabeledImages(ls) <==>
      exists i :: 0 <= i < |ls| && k in ls[i].childrenByImage && HasRealChild(ls[i].childrenByImage[k])
  {
    if |ls| > 0 {
      var init := ls[..|ls| - 1];
      LabeledImagesMembership(init, k);
      if exists i :: 0 <= i < |init| && k in init[i].childrenByImage && HasRealChild(init[i].childrenByImage[k]) {
        var i :| 0 <= i < |init| && k in init[i].childrenByImage && HasRealChild(init[i].childrenByImage[k]);
        assert ls[i] == init[i];
      }
      if exists i :: 0 <= i < |ls| && k in ls[i].childrenByImage && HasRealChild(ls[i].childrenByImage[k]) {
        var i :| 0 <= i < |ls| && k in ls[i].childrenByImage && HasRealChild(ls[i].childrenByImage[k]);
        if i < |init| {
          assert init[i] == ls[i];
        }
      }
    }
  }

  /** The innermost loop: stops at the first non-placeholder child. */
  method FindRealChild(cs: seq<Child>) returns (found: bool)
    ensures found == HasRealChild(cs)
  {
    var j := 0;
    while j < |cs|
      invariant 0 <= j <= |cs|
      invariant forall t :: 0 <= t < j ==> cs[t].isPlaceholder
    {
      if !cs[j].isPlaceholder {
        return true;
      }
      j := j + 1;
    }
    return false;
  }

  /** The images among `keys` whose list holds a non-placeholder child. */
  function LabeledAmong(m: map<string, seq<Child>>, keys: set<string>): set<string>
    requires keys <= m.Keys
  {
    set k | k in keys && HasRealChild(m[k])
  }

  /** Visiting one more image adds it exactly when it holds a non-placeholder child. */
  lemma LabeledAmongAdd(m: map<string, seq<Child>>, keys: set<string>, k: string)
    requires keys <= m.Keys && k in m
    ensures LabeledAmong(m, keys + {k}) == LabeledAmong(m, keys) + (if HasRealChild(m[k]) then {k} else {})
  {
  }

  /** The walk over one parent's dictionary, in whatever order it yields the images. */
  method CollectFromParent(p: Parent) returns (imgs: set<string>)
    ensures imgs == LabeledIn(p)
  {
    var m := p.childrenByImage;
    var keys := m.Keys;
    imgs := {};
    ghost var done: set<string> := {};
    while keys != {}
      invariant keys <= m.Keys && done == m.Keys - keys
      invariant imgs == LabeledAmong(m, done)
      decreases |keys|
    {
      var k :| k in keys;
      LabeledAmongAdd(m, done, k);
      var hasReal := FindRealChild(m[k]);
      if hasReal {
        imgs := imgs + {k};
      }
      keys := keys - {k};
      done := done + {k};
    }
  }

  /** `_collect_labeled_images`, as the set it builds before turning it into a list. */
  method CollectLabeledImages(ls: seq<Parent>) returns (imgs: set<string>)
    ensures imgs == LabeledImages(ls)
  {
    imgs := {};
    var i := 0;
    while i < |ls|
      invariant 0 <= i <= |ls|
      invariant imgs == LabeledImages(ls[..i])
    {
      var found := CollectFromParent(ls[i]);
      assert ls[..i + 1][..i] == ls[..i];
      imgs := imgs + found;
      i := i + 1;
    }
    assert ls[..i] == ls;
  }

  // ---------------------------------------------------------------------
  // Split and progress
  // ---------------------------------------------------------------------

  /** A Python slice bound: a negative k counts from the end, and either way it is cut to [0, n]. */
  function SliceBound(k: int, n: nat): (r: nat)
    ensures r <= n
  {
    if k < 0 then MaxI(0, n + k) else MinI(k, n)
  }

  /** `int(total * train_ratio)`, taken as a slice bound. */
  function SplitIndex(total: nat, ratio: real): (r: nat)
    ensures r <= total
  {
    SliceBound(Trunc(total as real * ratio), total)
  }

  /** With a ratio in [0, 1] the index is just the truncated product. */
  lemma SplitIndexInRange(total: nat, ratio: real)
    requires 0.0 <= ratio <= 1.0
    ensures SplitIndex(total, ratio) == Trunc(total as real * ratio)
  {
    assert total as real * ratio <= total as real * 1.0;
  }

  datatype Split = Train | Val

  /** What the export reports, in order. */
  datatype ExportEvent = Exported(image: string, split: Split) | Progress(value: int) | Finished(ok: bool)

  /** Progress after the (i+1)-th image of a split: train fills [0, 50], val [50, 100]. */
  function ProgressAt(base: int, i: nat, total: nat): int
    requires total > 0
  {
    base + Trunc((i + 1) as real / total as real * 50.0)
  }

  /** The export events of one split, from position i on. */
  function SplitEvents(imgs: seq<string>, i: nat, split: Split, base: int, total: nat): seq<ExportEvent>
    requires total > 0
    decreases |imgs| - i
  {
    if i >= |imgs| then []
    else [Exported(imgs[i], split), Progress(ProgressAt(base, i, total))] + SplitEvents(imgs, i + 1, split, base, total)
  }

  /** The events of `run`, given the collected images in their shuffled order. */
  function ExportEvents(order: seq<string>, ratio: real): seq<ExportEvent>
  {
    if |order| == 0 then [Finished(false)]
    else
      var k := SplitIndex(|order|, ratio);
      SplitEvents(order[..k], 0, Train, 0, |order|) + SplitEvents(order[k..], 0, Val, 50, |order|) + [Finished(true)]
  }

  /** The images exported into one split, in order. */
  function ExportedTo(es: seq<ExportEvent>, split: Split): seq<string>
  {
    if |es| == 0 then []
    else (if es[0].Exported? && es[0].split == split then [es[0].image] else []) + ExportedTo(es[1..], split)
  }

  /** The progress values reported, in order. */
  function ProgressValues(es: seq<ExportEvent>): seq<int>
  {
    if |es| == 0 then [] else (if es[0].Progress? then [es[0].value] else []) + ProgressValues(es[1..])
  }

  lemma {:induction false} ExportedToAppend(a: seq<ExportEvent>, b: seq<ExportEvent>, split: Split)
    ensures ExportedTo(a + b, split) == ExportedTo(a, split) + ExportedTo(b, split)
    decreases |a|
  {
    if |a| > 0 {
      assert (a + b)[0] == a[0];
      assert (a + b)[1..] == a[1..] + b;
      ExportedToAppend(a[1..], b, split);
    } else {
      assert a + b == b;
    }
  }

  lemma {:induction false} ProgressValuesAppend(a: seq<ExportEvent>, b: seq<ExportEvent>)
    ensures ProgressValues(a + b) == ProgressValues(a) + ProgressValues(b)
    decreases |a|
  {
    if |a| > 0 {
      assert (a + b)[0] == a[0];
      assert (a + b)[1..] == a[1..] + b;
      ProgressValuesAppend(a[1..], b);
    } else {
      assert a + b == b;
    }
  }

  lemma {:induction false} SplitEventsExport(imgs: seq<string>, i: nat, split: Split, other: Split, base: int, total: nat)
    requires total > 0 && i <= |imgs| && split != other
    ensures ExportedTo(SplitEvents(imgs, i, split, base, total), split) == imgs[i..]
    ensures ExportedTo(SplitEvents(imgs, i, split, base, total), other) == []
    decreases |imgs| - i
  {
    if i < |imgs| {
      var head := [Exported(imgs[i], split), Progress(ProgressAt(base, i, total))];
      SplitEventsExport(imgs, i + 1, split, other, base, total);
      ExportedToAppend(head, SplitEvents(imgs, i + 1, split, base, total), split);
      ExportedToAppend(head, SplitEvents(imgs, i + 1, split, base, total), other);
      assert imgs[i..] == [imgs[i]] + imgs[i + 1..];
    }
  }

  /**
   * The train split is the first int(total * ratio) images of the shuffled
   * list and val the rest, so every collected image is exported exactly once,
   * into exactly one split; an empty collection exports nothing and fails.
   */
  lemma ExportPartitions(order: seq<string>, ratio: real)
    ensures var es := ExportEvents(order, ratio);
      var k := SplitIndex(|order|, ratio);
      ExportedTo(es, Train) + ExportedTo(es, Val) == order
      && ExportedTo(es, Train) == order[..k] && ExportedTo(es, Val) == order[k..]
      && es[|es| - 1] == Finished(|order| > 0)
      && (|order| == 0 ==> es == [Finished(false)])
  {
    if |order| > 0 {
      var k := SplitIndex(|order|, ratio);
      var t := SplitEvents(order[..k], 0, Train, 0, |order|);
      var v := SplitEvents(order[k..], 0, Val, 50, |order|);
      SplitEventsExport(order[..k], 0, Train, Val, 0, |order|);
      SplitEventsExport(order[k..], 0, Val, Train, 50, |order|);
      ExportedToAppend(t, v, Train);
      ExportedToAppend(t, v, Val);
      ExportedToAppend(t + v, [Finished(true)], Train);
      ExportedToAppend(t + v, [Finished(true)], Val);
      assert order[..k][0..] == order[..k] && order[k..][0..] == order[k..];
      assert order[..k] + order[k..] == order;
    }
  }

  lemma ProgressBounds(i: nat, total: nat)
    requires i < total
    ensures 0 <= Trunc((i + 1) as real / total as real * 50.0) <= 50
  {
    var q := (i + 1) as real / total as real;
    assert q * total as real == (i + 1) as real;
    assert q <= 1.0;
    assert q * 50.0 <= 50.0;
  }

  lemma ProgressStep(i: nat, total: nat)
    requires total > 0
    ensures Trunc((i + 1) as real / total as real * 50.0) <= Trunc((i + 2) as real / total as real * 50.0)
  {
    var a := (i + 1) as real / total as real * 50.0;
    var b := (i + 2) as real / total as real * 50.0;
    assert b - a == 50.0 / total as real;
    assert a <= b;
  }

  /** The progress of the images of one split from position i on, one value per image. */
  function SplitProgressValues(n: nat, i: nat, base: int, total: nat): seq<int>
    requires total > 0 && i <= n
  {
    seq(n - i, j requires 0 <= j < n - i => ProgressAt(base, i + j, total))
  }

  lemma {:induction false} SplitEventsProgress(imgs: seq<string>, i: nat, split: Split, base: int, total: nat)
    requires total > 0 && i <= |imgs|
    ensures ProgressValues(SplitEvents(imgs, i, split, base, total)) == SplitProgressValues(|imgs|, i, base, total)
    decreases |imgs| - i
  {
    if i < |imgs| {
      var head := [Exported(imgs[i], split), Progress(ProgressAt(base, i, total))];
      SplitEventsProgress(imgs, i + 1, split, base, total);
      ProgressValuesAppend(head, SplitEvents(imgs, i + 1, split, base, total));
      assert ProgressValues(head) == [ProgressAt(base, i, total)];
    }
  }

  /** Within one split, progress stays in [base, base + 50] and never goes down. */
  lemma SplitProgressShape(n: nat, base: int, total: nat)
    requires 0 < total && n <= total
    ensures var ps := SplitProgressValues(n, 0, base, total);
      (forall j :: 0 <= j < |ps| ==> base <= ps[j] <= base + 50)
      && (forall j :: 0 <= j < |ps| - 1 ==> ps[j] <= ps[j + 1])
  {
    var ps := SplitProgressValues(n, 0, base, total);
    forall j | 0 <= j < |ps|
      ensures base <= ps[j] <= base + 50
    {
      ProgressBounds(j, total);
    }
    forall j | 0 <= j < |ps| - 1
      ensures ps[j] <= ps[j + 1]
    {
      ProgressStep(j, total);
    }
  }

  /**
   * The progress reported: train values in [0, 50], then val values in
   * [50, 100], never going down across the whole export.
   */
  lemma ExportProgress(order: seq<string>, ratio: real)
    ensures var ps := ProgressValues(ExportEvents(order, ratio));
      |ps| == |order|
      && (forall j :: 0 <= j < |ps| ==> 0 <= ps[j] <= 100)
      && (forall j :: 0 <= j < |ps| - 1 ==> ps[j] <= ps[j + 1])
  {
    if |order| > 0 {
      var k := SplitIndex(|order|, ratio);
      var t := SplitEvents(order[..k], 0, Train, 0, |order|);
      var v := SplitEvents(order[k..], 0, Val, 50, |order|);
      SplitEventsProgress(order[..k], 0, Train, 0, |order|);
      SplitEventsProgress(order[k..], 0, Val, 50, |order|);
      SplitProgressShape(k, 0, |order|);
      SplitProgressShape(|order| - k, 50, |order|);
      ProgressValuesAppend(t, v);
      ProgressValuesAppend(t + v, [Finished(true)]);
      assert ProgressValues([Finished(true)]) == [];
    }
  }

  /**
   * `run` from the shuffle on: the train images, then the val images, each
   * followed by its progress, then the final report. `order` is the shuffled
   * list of the collected images.
   */
  method Run(order: seq<string>, ratio: real) returns (events: seq<ExportEvent>)
    ensures events == ExportEvents(order, ratio)
  {
    var total := |order|;
    if total == 0 {
      return [Finished(false)];
    }
    var k := SplitIndex(total, ratio);
    var train := ExportSplit(order[..k], Train, 0, total);
    var val := ExportSplit(order[k..], Val, 50, total);
    events := train + val + [Finished(true)];
  }

  /** One of the two export loops of `run`: each image, then its progress. */
  method ExportSplit(imgs: seq<string>, split: Split, base: int, total: nat) returns (events: seq<ExportEvent>)
    requires total > 0
    ensures events == SplitEvents(imgs, 0, split, base, total)
  {
    events := [];
    var i := 0;
    while i < |imgs|
      invariant 0 <= i <= |imgs|
      invariant events + SplitEvents(imgs, i, split, base, total) == SplitEvents(imgs, 0, split, base, total)
    {
      events := events + [Exported(imgs[i], split), Progress(ProgressAt(base, i, total))];
      i := i + 1;
    }
  }

  // ---------------------------------------------------------------------
  // Mask gray levels and point clamps
  // ---------------------------------------------------------------------

  /** The gray level of the i-th parent: 50, 100, ..., capped at 255. */
  function GrayLevel(i: nat): (g: int)
    ensures 50 <= g <= 255
    ensures i <= 3 ==> g == 50 + 50 * i
    ensures i >= 5 ==> g == 255
  {
    MinI(50 + 50 * i, 255)
  }

  /** Parent id to gray level; a later parent with the same id overwrites an earlier one. */
  function GrayMap(ls: seq<Parent>): (m: map<int, int>)
    ensures m.Keys == set i | 0 <= i < |ls| :: ls[i].id
  {
    if |ls| == 0 then map[]
    else GrayMap(ls[..|ls| - 1])[ls[|ls| - 1].id := GrayLevel(|ls| - 1)]
  }

  /** With distinct ids, each parent's value is its own position's gray level. */
  lemma {:induction false} GrayMapLevels(ls: seq<Parent>, i: nat)
    requires i < |ls|
    requires forall a, b :: 0 <= a < b < |ls| ==> ls[a].id != ls[b].id
    ensures GrayMap(ls)[ls[i].id] == GrayLevel(i)
  {
    if i < |ls| - 1 {
      GrayMapLevels(ls[..|ls| - 1], i);
    }
  }

  /** The loop that fills the gray map. */
  method BuildGrayMap(ls: seq<Parent>) returns (m: map<int, int>)
    ensures m == GrayMap(ls)
  {
    m := map[];
    var i := 0;
    while i < |ls|
      invariant 0 <= i <= |ls|
      invariant m == GrayMap(ls[..i])
    {
      assert ls[..i + 1][..i] == ls[..i];
      m := m[ls[i].id := GrayLevel(i)];
      i := i + 1;
    }
    assert ls[..i] == ls;
  }

  /** The gray level a parent draws with: the map's, or 50 for an id it lacks. */
  function GrayOf(m: map<int, int>, id: int): int
  {
    if id in m then m[id] else 50
  }

  /** Every parent draws with a level in [50, 255]. */
  lemma {:induction false} GrayMapValues(ls: seq<Parent>, id: int)
    ensures 50 <= GrayOf(GrayMap(ls), id) <= 255
  {
    if |ls| > 0 {
      GrayMapValues(ls[..|ls| - 1], id);
    }
  }

  /** A coordinate clamped into [0, size - 1], so 0 on an empty axis. */
  function ClampPixel(v: int, size: int): (r: int)
    ensures 0 <= r && (size >= 1 ==> r <= size - 1)
    ensures size >= 1 && 0 <= v <= size - 1 ==> r == v
  {
    MaxI(0, MinI(v, size - 1))
  }

  /** An integer pixel position. */
  datatype Pixel = Pixel(x: int, y: int)

  /** `max(0, min(int(x), width - 1))` and the same for y. */
  function ClampVertex(p: Pt, w: int, h: int): Pixel
  {
    Pixel(ClampPixel(Trunc(p.x), w), ClampPixel(Trunc(p.y), h))
  }

  /** The vertex clamp of `_draw_polygon_on_mask`. */
  function ClampedVertices(ps: seq<Pt>, w: int, h: int): (r: seq<Pixel>)
    ensures |r| == |ps|
    ensures forall j :: 0 <= j < |ps| ==> r[j] == ClampVertex(ps[j], w, h)
  {
    seq(|ps|, j requires 0 <= j < |ps| => ClampVertex(ps[j], w, h))
  }

  /** The polygon filled on the mask: the clamped vertices, only when there are at least three. */
  function PolygonFill(ps: seq<Pt>, w: int, h: int): (r: Option<seq<Pixel>>)
    ensures r.Some? <==> |ps| >= 3
  {
    if |ps| >= 3 then Some(ClampedVertices(ps, w, h)) else None
  }

  /**
   * A filled polygon has one vertex per point, every vertex inside
   * [0, w - 1] x [0, h - 1], and a point whose truncation already lies in
   * the image keeps that truncation.
   */
  lemma PolygonFillInside(ps: seq<Pt>, w: int, h: int)
    requires w >= 1 && h >= 1 && |ps| >= 3
    ensures var r := PolygonFill(ps, w, h).value;
      |r| == |ps|
      && (forall j :: 0 <= j < |r| ==> 0 <= r[j].x <= w - 1 && 0 <= r[j].y <= h - 1)
      && (forall j :: 0 <= j < |r| && 0 <= Trunc(ps[j].x) <= w - 1 && 0 <= Trunc(ps[j].y) <= h - 1 ==>
            r[j] == Pixel(Trunc(ps[j].x), Trunc(ps[j].y)))
  {
  }

  /** The clamp loop of `_draw_polygon_on_mask`. */
  method ClampLoop(ps: seq<Pt>, w: int, h: int) returns (r: seq<Pixel>)
    ensures r == ClampedVertices(ps, w, h)
  {
    r := [];
    var j := 0;
    while j < |ps|
      invariant 0 <= j <= |ps| && |r| == j
      invariant forall t :: 0 <= t < j ==> r[t] == ClampVertex(ps[t], w, h)
    {
      r := r + [ClampVertex(ps[j], w, h)];
      j := j + 1;
    }
  }

  /** The bounding box of the filled circle of `_draw_circle_on_mask`. */
  datatype Ellipse = Ellipse(left: int, top: int, right: int, bottom: int)

  function CircleBox(cx: real, cy: real, radius: real, w: int, h: int): Ellipse
  {
    var x := ClampPixel(Trunc(cx), w);
    var y := ClampPixel(Trunc(cy), h);
    var r := MaxI(1, Trunc(radius));
    Ellipse(MaxI(0, x - r), MaxI(0, y - r), MinI(w - 1, x + r), MinI(h - 1, y + r))
  }

  /**
   * The circle's box lies in the image and contains the clamped centre; a
   * whole-pixel centre and radius that fit give exactly the box
   * (cx - r, cy - r, cx + r, cy + r).
   */
  lemma CircleBoxInside(cx: real, cy: real, radius: real, w: int, h: int)
    requires w >= 1 && h >= 1
    ensures var e := CircleBox(cx, cy, radius, w, h);
      var x := ClampPixel(Trunc(cx), w);
      var y := ClampPixel(Trunc(cy), h);
      0 <= e.left <= x <= e.right <= w - 1 && 0 <= e.top <= y <= e.bottom <= h - 1
  {
  }

  lemma CircleBoxExact(cx: int, cy: int, radius: int, w: int, h: int)
    requires 1 <= radius <= cx && cx + radius <= w - 1 && radius <= cy && cy + radius <= h - 1
    ensures CircleBox(cx as real, cy as real, radius as real, w, h) == Ellipse(cx - radius, cy - radius, cx + radius, cy + radius)
  {
    assert Trunc(cx as real) == cx && Trunc(cy as real) == cy && Trunc(radius as real) == radius;
  }

  // ---------------------------------------------------------------------
  // Statistics
  // ---------------------------------------------------------------------

  /** The dialog's counters: all labels, then one per type. */
  datatype Stats = Stats(total: nat, rectangle: nat, obb: nat, polygon: nat, polygonMask: nat,
                         point: nat, line: nat, circle: nat)

  /** The counter a label is added to, besides the total; `NoBucket` for a shape outside the table. */
  datatype Bucket = RectangleB | ObbB | PolygonB | PolygonMaskB | PointB | LineB | CircleB | NoBucket

  /** A child counts as an OBB when it carries corner points, or is a rotated rectangle. */
  predicate CountsAsObb(c: Child)
  {
    (c.isObb && |c.cornerPoints| > 0) || (c.shape == Rectangle && c.rotationAngle != 0.0)
  }

  /** OBB first; otherwise the shape's own counter, where the shape string "obb" also names one. */
  function BucketOf(c: Child): (b: Bucket)
    ensures CountsAsObb(c) ==> b == ObbB
    ensures b == NoBucket <==> !CountsAsObb(c) && c.shape.OtherShape? && c.shape.name != "obb"
  {
    if CountsAsObb(c) then ObbB
    else
      match c.shape
      case PolygonMask => PolygonMaskB
      case Rectangle => RectangleB
      case Polygon => PolygonB
      case Point => PointB
      case Line => LineB
      case Circle => CircleB
      case OtherShape(name) => if name == "obb" then ObbB else NoBucket
  }

  /** The counters of a collection of counted labels. */
  function StatsOf(ms: multiset<Bucket>): (s: Stats)
    ensures s.total == |ms|
  {
    Stats(|ms|, ms[RectangleB], ms[ObbB], ms[PolygonB], ms[PolygonMaskB], ms[PointB], ms[LineB], ms[CircleB])
  }

  /** One more label in bucket b. */
  function Bump(s: Stats, b: Bucket): Stats
  {
    var t := s.(total := s.total + 1);
    match b
    case RectangleB => t.(rectangle := s.rectangle + 1)
    case ObbB => t.(obb := s.obb + 1)
    case PolygonB => t.(polygon := s.polygon + 1)
    case PolygonMaskB => t.(polygonMask := s.polygonMask + 1)
    case PointB => t.(point := s.point + 1)
    case LineB => t.(line := s.line + 1)
    case CircleB => t.(circle := s.circle + 1)
    case NoBucket => t
  }

  lemma BumpCounts(ms: multiset<Bucket>, b: Bucket)
    ensures StatsOf(ms + multiset{b}) == Bump(StatsOf(ms), b)
  {
  }

  function Bucketed(s: Stats): nat
  {
    s.rectangle + s.obb + s.polygon + s.polygonMask + s.point + s.line + s.circle
  }

  /** The type counters add up to the total less the labels whose shape has no counter. */
  lemma {:induction false} BucketsAddUp(ms: multiset<Bucket>)
    ensures Bucketed(StatsOf(ms)) + ms[NoBucket] == |ms|
    decreases |ms|
  {
    if |ms| > 0 {
      var b :| b in ms;
      var rest := ms - multiset{b};
      assert ms == rest + multiset{b};
      BucketsAddUp(rest);
      BumpCounts(rest, b);
      BumpBucketed(StatsOf(rest), b);
      assert ms[NoBucket] == rest[NoBucket] + (if b == NoBucket then 1 else 0);
    }
  }

  lemma BumpBucketed(s: Stats, b: Bucket)
    ensures Bucketed(Bump(s, b)) == Bucketed(s) + (if b == NoBucket then 0 else 1)
  {
  }

  /** The counted labels of one image: each non-placeholder child's bucket. */
  function Counted(cs: seq<Child>): (ms: multiset<Bucket>)
  {
    if |cs| == 0 then multiset{}
    else Counted(cs[..|cs| - 1]) + (if cs[|cs| - 1].isPlaceholder then multiset{} else multiset{BucketOf(cs[|cs| - 1])})
  }

  /** The positions of the first n children that are not placeholders. */
  function RealPositions(cs: seq<Child>, n: nat): set<nat>
    requires n <= |cs|
  {
    set j: nat | j < n && !cs[j].isPlaceholder
  }

  /** One more child adds its position exactly when it is not a placeholder. */
  lemma RealPositionsSnoc(cs: seq<Child>, n: nat)
    requires n < |cs|
    ensures n !in RealPositions(cs, n)
    ensures RealPositions(cs, n + 1) == RealPositions(cs, n) + (if cs[n].isPlaceholder then {} else {n})
  {
  }

  /** The positions in a prefix are the same whether read in the prefix or in the whole list. */
  lemma RealPositionsPrefix(cs: seq<Child>, n: nat)
    requires n <= |cs|
    ensures RealPositions(cs[..n], n) == RealPositions(cs, n)
  {
  }

  /** Every non-placeholder child is counted once, and nothing else is. */
  lemma {:induction false} CountedSize(cs: seq<Child>)
    ensures |Counted(cs)| == |RealPositions(cs, |cs|)|
  {
    if |cs| > 0 {
      var n := |cs| - 1;
      CountedSize(cs[..n]);
      RealPositionsPrefix(cs, n);
      RealPositionsSnoc(cs, n);
    }
  }


  /** The counted labels over the images in `keys`, in whatever order the dictionary yields them. */
  ghost function CountedKeys(m: map<string, seq<Child>>, keys: set<string>): multiset<Bucket>
    requires keys <= m.Keys
    decreases |keys|
  {
    if keys == {} then multiset{}
    else
      var k :| k in keys;
      Counted(m[k]) + CountedKeys(m, keys - {k})
  }

  /** The order does not matter: any image can be taken out first. */
  lemma {:induction false} CountedKeysRemove(m: map<string, seq<Child>>, keys: set<string>, k: string)
    requires keys <= m.Keys && k in keys
    ensures CountedKeys(m, keys) == Counted(m[k]) + CountedKeys(m, keys - {k})
    decreases |keys|
  {
    var j :| j in keys && CountedKeys(m, keys) == Counted(m[j]) + CountedKeys(m, keys - {j});
    if j != k {
      CountedKeysRemove(m, keys - {j}, k);
      CountedKeysRemove(m, keys - {k}, j);
      assert keys - {j} - {k} == keys - {k} - {j};
    }
  }

  ghost function CountedParents(ls: seq<Parent>): multiset<Bucket>
  {
    if |ls| == 0 then multiset{}
    else
      var p := ls[|ls| - 1];
      CountedParents(ls[..|ls| - 1]) + CountedKeys(p.childrenByImage, p.childrenByImage.Keys)
  }

  lemma CountedSnoc(cs: seq<Child>, j: nat)
    requires j < |cs|
    ensures Counted(cs[..j + 1]) ==
      Counted(cs[..j]) + (if cs[j].isPlaceholder then multiset{} else multiset{BucketOf(cs[j])})
  {
    assert cs[..j + 1][..j] == cs[..j];
  }

  lemma HasRealSnoc(cs: seq<Child>, j: nat)
    requires j < |cs|
    ensures HasRealChild(cs[..j + 1]) == (HasRealChild(cs[..j]) || !cs[j].isPlaceholder)
  {
    if HasRealChild(cs[..j + 1]) {
      var t :| 0 <= t < j + 1 && !cs[..j + 1][t].isPlaceholder;
      if t < j {
        assert !cs[..j][t].isPlaceholder;
      }
    }
    if HasRealChild(cs[..j]) {
      var t :| 0 <= t < j && !cs[..j][t].isPlaceholder;
      assert !cs[..j + 1][t].isPlaceholder;
    }
    if !cs[j].isPlaceholder {
      assert !cs[..j + 1][j].isPlaceholder;
    }
  }

  /**
   * The innermost loop: bumps the counters once per non-placeholder child,
   * and notes whether the image has one.
   */
  method TallyChildren(cs: seq<Child>, s0: Stats, ghost acc: multiset<Bucket>) returns (s: Stats, hasReal: bool)
    requires s0 == StatsOf(acc)
    ensures s == StatsOf(acc + Counted(cs))
    ensures hasReal == HasRealChild(cs)
  {
    s := s0;
    hasReal := false;
    ghost var now := acc;
    var j := 0;
    while j < |cs|
      invariant 0 <= j <= |cs|
      invariant now == acc + Counted(cs[..j]) && s == StatsOf(now)
      invariant hasReal == HasRealChild(cs[..j])
    {
      CountedSnoc(cs, j);
      HasRealSnoc(cs, j);
      if !cs[j].isPlaceholder {
        BumpCounts(now, BucketOf(cs[j]));
        s := Bump(s, BucketOf(cs[j]));
        now := now + multiset{BucketOf(cs[j])};
        hasReal := true;
      }
      j := j + 1;
    }
    assert cs[..j] == cs;
  }

  /** Moving k from the images still to visit to the visited ones. */
  lemma VisitOne(all: set<string>, keys: set<string>, done: set<string>, k: string)
    requires keys <= all && done == all - keys && k in keys
    ensures keys - {k} <= all && done + {k} == all - (keys - {k}) && k !in done
  {
  }

  /** Counting image k after the images in `done` adds its children to their count. */
  lemma CountedKeysAdd(m: map<string, seq<Child>>, done: set<string>, k: string, acc: multiset<Bucket>)
    requires done <= m.Keys && k in m && k !in done
    ensures acc + CountedKeys(m, done + {k}) == acc + CountedKeys(m, done) + Counted(m[k])
  {
    CountedKeysRemove(m, done + {k}, k);
    assert done + {k} - {k} == done;
  }


  /** The walk over one parent's dictionary: its counters and its labeled images. */
  method TallyParent(p: Parent, s0: Stats, ghost acc: multiset<Bucket>) returns (stats: Stats, imgs: set<string>)
    requires s0 == StatsOf(acc)
    ensures stats == StatsOf(acc + CountedKeys(p.childrenByImage, p.childrenByImage.Keys))
    ensures imgs == LabeledIn(p)
  {
    var m := p.childrenByImage;
    var keys := m.Keys;
    stats := s0;
    imgs := {};
    ghost var done: set<string> := {};
    assert acc + CountedKeys(m, done) == acc;
    while keys != {}
      invariant keys <= m.Keys && done == m.Keys - keys
      invariant stats == StatsOf(acc + CountedKeys(m, done))
      invariant imgs == LabeledAmong(m, done)
      decreases |keys|
    {
      var k :| k in keys;
      LabeledAmongAdd(m, done, k);
      CountedKeysAdd(m, done, k, acc);
      VisitOne(m.Keys, keys, done, k);
      var hasReal;
      stats, hasReal := TallyChildren(m[k], stats, acc + CountedKeys(m, done));
      if hasReal {
        imgs := imgs + {k};
      }
      keys := keys - {k};
      done := done + {k};
    }
    assert done == m.Keys;
  }



  /**
   * The statistics of the export dialog: the counters of every
   * non-placeholder child, and the export's own collection of labeled images.
   */
  method Statistics(ls: seq<Parent>) returns (stats: Stats, images: set<string>)
    ensures stats == StatsOf(CountedParents(ls))
    ensures images == LabeledImages(ls)
  {
    stats := StatsOf(multiset{});
    images := {};
    var i := 0;
    while i < |ls|
      invariant 0 <= i <= |ls|
      invariant stats == StatsOf(CountedParents(ls[..i]))
      invariant images == LabeledImages(ls[..i])
    {
      var found;
      assert ls[..i + 1][..i] == ls[..i];
      stats, found := TallyParent(ls[i], stats, CountedParents(ls[..i]));
      images := images + found;
      i := i + 1;
    }
    assert ls[..i] == ls;
  }
}
