/**
 * The mask and oriented-box pens of sam_ops/Aotu_pen.py: SAM results are
 * turned into polygon-mask or four-corner polygon children of the selected
 * parent. Polygons with fewer than three vertices are skipped, and a key
 * made of the rounded normalised centre and the rounded area keeps one call
 * from creating the same shape twice.
 *
 * Contour extraction from a mask and the rotating-calipers rectangle are
 * parameters: a result carries the polygon extracted from each of its masks.
 */
module AutoPen {
  import opened Wrappers
  import opened PyNum
  import opened Labels
  import opened LabelList
  import opened BoundingRect
  import opened DupFilter

  const MinPolygonPoints: nat := 3
  const MinBboxArea: real := 0.0
  const DefaultMaskConfidence: real := 0.5

  /** One SAM result: the polygon extracted from each mask (None without masks) and the scores, if any. */
  datatype SamResult = SamResult(masks: Option<seq<seq<Pt>>>, scores: Option<seq<real>>)

  /** A rectangle around a polygon: four corners, centre and area. */
  datatype Obb = Obb(corners: seq<Pt>, center: Pt, area: real)

  /** (rounded normalised centre x, rounded normalised centre y, rounded area). */
  type DedupKey = (real, real, real)

  /** Python's `round(x, 3)` on the exact value. */
  function Round3(x: real): (r: real)
    ensures AbsR(r - x) <= 0.0005
  {
    RoundHalfEven(x * 1000.0) as real / 1000.0
  }

  /** `_extract_mask_confidence`: the score at the index when there is one, else 0.5. */
  function ExtractMaskConfidence(scores: Option<seq<real>>, index: nat): (c: real)
    ensures scores.Some? && index < |scores.value| ==> c == scores.value[index]
    ensures scores.None? || index >= |scores.value| ==> c == DefaultMaskConfidence
  {
    if scores.Some? && |scores.value| > index then scores.value[index] else DefaultMaskConfidence
  }

  /** The confidence as reported: clamped into [0, 1]. */
  function ReportedConfidence(c: Option<real>): (r: Option<real>)
    ensures r.Some? <==> c.Some?
    ensures r.Some? ==> 0.0 <= r.value <= 1.0 && (0.0 <= c.value <= 1.0 ==> r.value == c.value)
  {
    if c.Some? then Some(ClampR(c.value, 0.0, 1.0)) else None
  }

  /** The shoelace area `abs(sum) / 2` with successor j = (i + 1) % n. */
  function MaskAreaOf(poly: seq<Pt>): (a: real)
    ensures a >= 0.0
  {
    AbsR(Shoelace(poly)) / 2.0
  }

  /**
   * The area loop of `process_mask_sam_results`. It reuses the mask loop's
   * index variable, so `lastIndex`, which is what later reaches
   * `_extract_mask_confidence`, is the last vertex index.
   */
  method MaskArea(poly: seq<Pt>) returns (area: real, lastIndex: nat)
    requires |poly| >= 1
    ensures area == MaskAreaOf(poly)
    ensures lastIndex == |poly| - 1
  {
    area := 0.0;
    var n := |poly|;
    lastIndex := 0;
    for i := 0 to n
      invariant area == ShoelacePrefix(poly, i)
      invariant i > 0 ==> lastIndex == i - 1
    {
      var j := (i + 1) % n;
      area := area + poly[i].x * poly[j].y;
      area := area - poly[j].x * poly[i].y;
      lastIndex := i;
    }
    area := AbsR(area) / 2.0;
  }

  /** The de-duplication key of a shape with the given centre and area on a w-by-h image. */
  function KeyOf3(cx: real, cy: real, area: real, w: int, h: int): DedupKey
    requires w != 0 && h != 0
  {
    (Round3(cx / w as real), Round3(cy / h as real), RoundHalfEven(area) as real)
  }

  /** The centre and size of a box divided by the image size, each clamped into [0, 1]. */
  function NormalisedBox(b: Bounds, w: int, h: int): (r: (real, real, real, real))
    requires w != 0 && h != 0
    ensures 0.0 <= r.0 <= 1.0 && 0.0 <= r.1 <= 1.0 && 0.0 <= r.2 <= 1.0 && 0.0 <= r.3 <= 1.0
  {
    var fw, fh := w as real, h as real;
    var xc, yc, nw, nh := (b.x1 + b.x2) / 2.0 / fw, (b.y1 + b.y2) / 2.0 / fh, (b.x2 - b.x1) / fw, (b.y2 - b.y1) / fh;
    (ClampR(xc, 0.0, 1.0), ClampR(yc, 0.0, 1.0), ClampR(nw, 0.0, 1.0), ClampR(nh, 0.0, 1.0))
  }

  /** For a box inside the image the clamps change nothing: the values are the plain quotients. */
  lemma NormalisedBoxInsideImage(b: Bounds, w: int, h: int)
    requires w > 0 && h > 0 && 0.0 <= b.x1 <= b.x2 <= w as real && 0.0 <= b.y1 <= b.y2 <= h as real
    ensures NormalisedBox(b, w, h) == ((b.x1 + b.x2) / 2.0 / w as real, (b.y1 + b.y2) / 2.0 / h as real,
                                       (b.x2 - b.x1) / w as real, (b.y2 - b.y1) / h as real)
  {
    var fw, fh := w as real, h as real;
    QuotientInUnit((b.x1 + b.x2) / 2.0, fw);
    QuotientInUnit((b.y1 + b.y2) / 2.0, fh);
    QuotientInUnit(b.x2 - b.x1, fw);
    QuotientInUnit(b.y2 - b.y1, fh);
  }

  lemma QuotientInUnit(a: real, d: real)
    requires d > 0.0 && 0.0 <= a <= d
    ensures 0.0 <= a / d <= 1.0
  {
  }

  /** Width times height of a box. */
  function BoxArea(b: Bounds): real
  {
    (b.x2 - b.x1) * (b.y2 - b.y1)
  }

  /** The `create_child_label` call of `create_child_labels_from_polygon`. */
  function MaskRequest(n: (real, real, real, real), poly: seq<Pt>): ChildRequest
  {
    ChildRequest(Some(n.0), Some(n.1), Some(n.2), Some(n.3), Manual, PolygonMask, poly, 0.0, None, true)
  }

  /** The `create_child_label` call of `create_child_labels_from_obb`: a four-point polygon. */
  function ObbRequest(corners: seq<Pt>): ChildRequest
  {
    ChildRequest(None, None, None, None, Manual, Polygon, corners, 0.0, None, false)
  }

  /** The selected parent already holds a duplicate of the polygon's bounding box on that image. */
  predicate DuplicatePolygon(ls: seq<Parent>, imageInfo: string, poly: seq<Pt>)
    requires |poly| > 0
  {
    var p := SelectedParent(ls);
    p.Some? && imageInfo in p.value.childrenByImage && imageInfo != ""
    && DuplicateAmong(ImageChildren(p.value, imageInfo), PolygonBounds(poly))
  }

  /**
   * `create_child_labels_from_polygon`: nothing for fewer than three
   * vertices, a zero image side (the division raises), a duplicate or no
   * selected parent; else one polygon-mask child.
   */
  function PolygonChildOf(ls: seq<Parent>, poly: seq<Pt>, imageInfo: string, w: int, h: int)
    : (r: (seq<Parent>, Option<Child>))
    ensures |r.0| == |ls|
    ensures r.1.None? ==> r.0 == ls
  {
    if |poly| < MinPolygonPoints then (ls, None)
    else
      var b := PolygonBounds(poly);
      if BoxArea(b) < MinBboxArea then (ls, None)
      else if w == 0 || h == 0 then (ls, None)
      else if DuplicatePolygon(ls, imageInfo, poly) then (ls, None)
      else CreateFor(ls, imageInfo, MaskRequest(NormalisedBox(b, w, h), poly))
  }

  /**
   * `create_child_labels_from_obb`: nothing without a rectangle or an
   * image, for a non-positive image size, a too small area (also by the
   * contour area of the corners), a corner count other than four, a
   * duplicate or no selected parent; else one four-point polygon child.
   */
  function ObbChildOf(ls: seq<Parent>, obb: Option<Obb>, imageInfo: string, w: int, h: int,
                      contourArea: seq<Pt> -> real): (r: (seq<Parent>, Option<Child>))
    ensures |r.0| == |ls|
    ensures r.1.None? ==> r.0 == ls
    ensures obb.None? || imageInfo == "" || w <= 0 || h <= 0 ==> r.1.None?
    ensures obb.Some? && |obb.value.corners| != 4 ==> r.1.None?
  {
    if obb.None? || imageInfo == "" || w <= 0 || h <= 0 then (ls, None)
    else if obb.value.area < MinBboxArea && contourArea(obb.value.corners) < MinBboxArea then (ls, None)
    else if |obb.value.corners| != 4 then (ls, None)
    else if DuplicatePolygon(ls, imageInfo, obb.value.corners) then (ls, None)
    else CreateFor(ls, imageInfo, ObbRequest(obb.value.corners))
  }

  /** A created mask child is a polygon mask of the selected parent holding exactly the polygon. */
  lemma PolygonChildShape(ls: seq<Parent>, poly: seq<Pt>, imageInfo: string, w: int, h: int)
    requires PolygonChildOf(ls, poly, imageInfo, w, h).1.Some?
    ensures var c := PolygonChildOf(ls, poly, imageInfo, w, h).1.value;
      var k := FirstSelected(ls).value;
      |poly| >= MinPolygonPoints && w != 0 && h != 0 && !DuplicatePolygon(ls, imageInfo, poly)
      && c.shape == PolygonMask && c.polygonPoints == poly && c.hasMask
      && c.className == ls[k].name && c.classId == ls[k].id
      && PolygonChildOf(ls, poly, imageInfo, w, h).0[k].childrenByImage[imageInfo] == ImageChildren(ls[k], imageInfo) + [c]
  {
  }

  /** A created box child is a four-point polygon of the selected parent. */
  lemma ObbChildShape(ls: seq<Parent>, obb: Option<Obb>, imageInfo: string, w: int, h: int, contourArea: seq<Pt> -> real)
    requires ObbChildOf(ls, obb, imageInfo, w, h, contourArea).1.Some?
    ensures var c := ObbChildOf(ls, obb, imageInfo, w, h, contourArea).1.value;
      var k := FirstSelected(ls).value;
      obb.Some? && w > 0 && h > 0 && imageInfo != ""
      && c.shape == Polygon && c.polygonPoints == obb.value.corners && |c.polygonPoints| == 4 && !c.hasMask
      && c.className == ls[k].name && c.classId == ls[k].id
  {
  }

  /** The axis-aligned rectangle of the polygon, used when the window asks for one. */
  function AxisAlignedObb(poly: seq<Pt>): (r: Obb)
    requires |poly| > 0
    ensures |r.corners| == 4
  {
    var b := PolygonBounds(poly);
    Obb([Pt(b.x1, b.y1), Pt(b.x2, b.y1), Pt(b.x2, b.y2), Pt(b.x1, b.y2)],
        Pt((b.x1 + b.x2) / 2.0, (b.y1 + b.y2) / 2.0), (b.x2 - b.x1) * (b.y2 - b.y1))
  }

  /**
   * With three or more vertices the axis-aligned rectangle is the bounding
   * rectangle of the polygon: it encloses every vertex, touches one on each
   * side, its centre is the middle of its diagonal and its area is never
   * negative.
   */
  lemma AxisAlignedObbIsBoundingRectangle(poly: seq<Pt>)
    requires |poly| >= 3
    ensures var r := AxisAlignedObb(poly);
      r.corners == CalculateBoundingRectangle(poly).value
      && CornerOrder(r.corners) && Encloses(r.corners, poly) && BoundsAttained(r.corners, poly)
      && r.center == Pt((r.corners[0].x + r.corners[2].x) / 2.0, (r.corners[0].y + r.corners[2].y) / 2.0)
      && r.area == (r.corners[2].x - r.corners[0].x) * (r.corners[2].y - r.corners[0].y) && r.area >= 0.0
  {
    var r := AxisAlignedObb(poly);
    var c := CalculateBoundingRectangle(poly).value;
    assert r.corners == c;
    BoundingRectangleIsTight(poly);
    var dx, dy := c[2].x - c[0].x, c[2].y - c[0].y;
    assert dx >= 0.0 && dy >= 0.0;
    assert r.area == dx * dy;
  }

  // ---------------------------------------------------------------------
  // The per-call loops with their de-duplication keys
  // ---------------------------------------------------------------------

  /** The list of parents, the children created so far and the keys recorded so far. */
  datatype Tally = Tally(labels: seq<Parent>, made: seq<Child>, seen: set<DedupKey>)

  /**
   * One mask of `process_mask_sam_results`. The flag says that the division
   * by a zero image side raised, which abandons the rest of the result.
   */
  function MaskStep(t: Tally, poly: seq<Pt>, imageInfo: string, w: int, h: int): (r: (Tally, bool))
    ensures r.1 ==> r.0 == t
  {
    if |poly| < MinPolygonPoints then (t, false)
    else
      var area := MaskAreaOf(poly);
      if area < MinBboxArea then (t, false)
      else if w == 0 || h == 0 then (t, true)
      else
        var key := KeyOf3(Mean(Xs(poly)), Mean(Ys(poly)), area, w, h);
        if key in t.seen then (t, false)
        else
          var (ls, c) := PolygonChildOf(t.labels, poly, imageInfo, w, h);
          if c.Some? then (Tally(ls, t.made + [c.value], t.seen + {key}), false)
          else (t, false)
  }

  /** The masks of one result, stopping at an abandoning step. */
  function MasksFold(t: Tally, polys: seq<seq<Pt>>, imageInfo: string, w: int, h: int): (Tally, bool)
  {
    if |polys| == 0 then (t, false)
    else
      var (prev, stopped) := MasksFold(t, polys[..|polys| - 1], imageInfo, w, h);
      if stopped then (prev, true) else MaskStep(prev, polys[|polys| - 1], imageInfo, w, h)
  }

  /** All results of one call; a result without masks contributes nothing. */
  function MaskResultsFold(t: Tally, results: seq<SamResult>, imageInfo: string, w: int, h: int): Tally
  {
    if |results| == 0 then t
    else
      var prev := MaskResultsFold(t, results[..|results| - 1], imageInfo, w, h);
      var res := results[|results| - 1];
      if res.masks.None? then prev else MasksFold(prev, res.masks.value, imageInfo, w, h).0
  }

  /** Keys are recorded only for created children, and never twice: one key per created child. */
  lemma MaskStepCountsKeys(t: Tally, poly: seq<Pt>, imageInfo: string, w: int, h: int)
    requires |t.seen| == |t.made|
    ensures var r := MaskStep(t, poly, imageInfo, w, h).0;
      |r.seen| == |r.made| && t.seen <= r.seen && |r.made| >= |t.made| && r.made[..|t.made|] == t.made
  {
  }

  lemma {:induction false} MasksFoldCountsKeys(t: Tally, polys: seq<seq<Pt>>, imageInfo: string, w: int, h: int)
    requires |t.seen| == |t.made|
    ensures var r := MasksFold(t, polys, imageInfo, w, h).0;
      |r.seen| == |r.made| && t.seen <= r.seen && |r.made| >= |t.made| && r.made[..|t.made|] == t.made
  {
    if |polys| > 0 {
      MasksFoldCountsKeys(t, polys[..|polys| - 1], imageInfo, w, h);
      var (prev, stopped) := MasksFold(t, polys[..|polys| - 1], imageInfo, w, h);
      if !stopped {
        MaskStepCountsKeys(prev, polys[|polys| - 1], imageInfo, w, h);
      }
    }
  }

  /** Over a whole call, starting from no keys, there are exactly as many keys as created children. */
  lemma {:induction false} MaskResultsCountKeys(t: Tally, results: seq<SamResult>, imageInfo: string, w: int, h: int)
    requires |t.seen| == |t.made|
    ensures var r := MaskResultsFold(t, results, imageInfo, w, h);
      |r.seen| == |r.made| && t.seen <= r.seen && |r.made| >= |t.made| && r.made[..|t.made|] == t.made
  {
    if |results| > 0 {
      MaskResultsCountKeys(t, results[..|results| - 1], imageInfo, w, h);
      var prev := MaskResultsFold(t, results[..|results| - 1], imageInfo, w, h);
      var res := results[|results| - 1];
      if res.masks.Some? {
        MasksFoldCountsKeys(prev, res.masks.value, imageInfo, w, h);
      }
    }
  }

  /** A mask whose polygon has fewer than three vertices adds nothing. */
  lemma ShortPolygonSkipped(t: Tally, polys: seq<seq<Pt>>, poly: seq<Pt>, imageInfo: string, w: int, h: int)
    requires |poly| < MinPolygonPoints
    ensures MasksFold(t, polys + [poly], imageInfo, w, h).0 == MasksFold(t, polys, imageInfo, w, h).0
  {
    assert (polys + [poly])[..|polys|] == polys;
  }

  /** A mask whose key was already recorded in this call adds nothing. */
  lemma RepeatedKeySkipped(t: Tally, poly: seq<Pt>, imageInfo: string, w: int, h: int)
    requires |poly| >= MinPolygonPoints && w != 0 && h != 0
    requires KeyOf3(Mean(Xs(poly)), Mean(Ys(poly)), MaskAreaOf(poly), w, h) in t.seen
    ensures MaskStep(t, poly, imageInfo, w, h) == (t, false)
  {
  }

  /** One mask of `process_obb_sam_results`; the flag as in MaskStep. */
  function ObbStep(t: Tally, poly: seq<Pt>, imageInfo: string, w: int, h: int, useAxis: bool,
                   minRect: seq<Pt> -> Option<Obb>, contourArea: seq<Pt> -> real): (r: (Tally, bool))
    ensures r.1 ==> r.0 == t
  {
    if |poly| < MinPolygonPoints then (t, false)
    else
      var obb := if useAxis then Some(AxisAlignedObb(poly)) else minRect(poly);
      if obb.None? then (t, false)
      else if obb.value.area < MinBboxArea && contourArea(poly) < MinBboxArea then (t, false)
      else if w == 0 || h == 0 then (t, true)
      else
        var key := KeyOf3(obb.value.center.x, obb.value.center.y, obb.value.area, w, h);
        if key in t.seen then (t, false)
        else
          var (ls, c) := ObbChildOf(t.labels, obb, imageInfo, w, h, contourArea);
          if c.Some? then (Tally(ls, t.made + [c.value], t.seen + {key}), false)
          else (t, false)
  }

  function ObbsFold(t: Tally, polys: seq<seq<Pt>>, imageInfo: string, w: int, h: int, useAxis: bool,
                    minRect: seq<Pt> -> Option<Obb>, contourArea: seq<Pt> -> real): (Tally, bool)
  {
    if |polys| == 0 then (t, false)
    else
      var (prev, stopped) := ObbsFold(t, polys[..|polys| - 1], imageInfo, w, h, useAxis, minRect, contourArea);
      if stopped then (prev, true) else ObbStep(prev, polys[|polys| - 1], imageInfo, w, h, useAxis, minRect, contourArea)
  }

  function ObbResultsFold(t: Tally, results: seq<SamResult>, imageInfo: string, w: int, h: int, useAxis: bool,
                          minRect: seq<Pt> -> Option<Obb>, contourArea: seq<Pt> -> real): Tally
  {
    if |results| == 0 then t
    else
      var prev := ObbResultsFold(t, results[..|results| - 1], imageInfo, w, h, useAxis, minRect, contourArea);
      var res := results[|results| - 1];
      if res.masks.None? then prev else ObbsFold(prev, res.masks.value, imageInfo, w, h, useAxis, minRect, contourArea).0
  }

  /** Every child an OBB call creates is a four-point polygon, and the call is a no-op on a non-positive image size. */
  lemma {:induction false} ObbsFoldOnlyFourPoint(t: Tally, polys: seq<seq<Pt>>, imageInfo: string, w: int, h: int,
                                                 useAxis: bool, minRect: seq<Pt> -> Option<Obb>, contourArea: seq<Pt> -> real)
    ensures var r := ObbsFold(t, polys, imageInfo, w, h, useAxis, minRect, contourArea).0;
      |r.made| >= |t.made| && r.made[..|t.made|] == t.made
      && (forall i :: |t.made| <= i < |r.made| ==> r.made[i].shape == Polygon && |r.made[i].polygonPoints| == 4)
      && (w <= 0 || h <= 0 || imageInfo == "" ==> r == t)
  {
    if |polys| > 0 {
      ObbsFoldOnlyFourPoint(t, polys[..|polys| - 1], imageInfo, w, h, useAxis, minRect, contourArea);
      var (prev, stopped) := ObbsFold(t, polys[..|polys| - 1], imageInfo, w, h, useAxis, minRect, contourArea);
      if !stopped {
        var poly := polys[|polys| - 1];
        var r := ObbStep(prev, poly, imageInfo, w, h, useAxis, minRect, contourArea).0;
        if |r.made| > |prev.made| {
          var obb := if useAxis then Some(AxisAlignedObb(poly)) else minRect(poly);
          ObbChildShape(prev.labels, obb, imageInfo, w, h, contourArea);
          assert r.made == prev.made + [r.made[|r.made| - 1]];
        }
      }
    }
  }

  class AutoPenManager {
    var labelList: ParentLabelList

    constructor (labelList: ParentLabelList)
      ensures this.labelList == labelList
    {
      this.labelList := labelList;
    }

    /** `create_child_labels_from_polygon`; the confidence is only reported, clamped. */
    method CreateChildLabelsFromPolygon(poly: seq<Pt>, imageInfo: string, w: int, h: int, confidence: Option<real>)
      returns (child: Option<Child>)
      modifies labelList
      ensures (labelList.labels, child) == PolygonChildOf(old(labelList.labels), poly, imageInfo, w, h)
      ensures labelList.nameIdSet == old(labelList.nameIdSet) && labelList.currentImageInfo == old(labelList.currentImageInfo)
      ensures old(labelList.Valid()) ==> labelList.Valid()
    {
      if |poly| < MinPolygonPoints {
        return None;
      }
      var b := PolygonBounds(poly);
      var area := BoxArea(b);
      if area < MinBboxArea {
        return None;
      }
      if w == 0 || h == 0 {
        return None;
      }
      ghost var ls := labelList.labels;
      var n := NormalisedBox(b, w, h);
      var parent := labelList.GetSelected();
      var dup := false;
      if parent.Some? && imageInfo in parent.value.childrenByImage {
        dup := IsDuplicatePolygon(parent, Some(imageInfo), poly, Some(w as real), Some(h as real), 1.0);
      }
      assert dup == DuplicatePolygon(ls, imageInfo, poly);
      if dup {
        return None;
      }
      var reported := ReportedConfidence(confidence);
      child := labelList.CreateChildLabel(imageInfo, MaskRequest(n, poly));
      assert (labelList.labels, child) == CreateFor(ls, imageInfo, MaskRequest(n, poly));
    }

    /** `create_child_labels_from_obb`. */
    method CreateChildLabelsFromObb(obb: Option<Obb>, imageInfo: string, w: int, h: int, confidence: Option<real>,
                                    contourArea: seq<Pt> -> real) returns (child: Option<Child>)
      modifies labelList
      ensures (labelList.labels, child) == ObbChildOf(old(labelList.labels), obb, imageInfo, w, h, contourArea)
      ensures labelList.nameIdSet == old(labelList.nameIdSet) && labelList.currentImageInfo == old(labelList.currentImageInfo)
      ensures old(labelList.Valid()) ==> labelList.Valid()
    {
      if obb.None? || imageInfo == "" || w <= 0 || h <= 0 {
        return None;
      }
      var area := obb.value.area;
      if area < MinBboxArea && contourArea(obb.value.corners) < MinBboxArea {
        return None;
      }
      var corners := obb.value.corners;
      if |corners| != 4 {
        return None;
      }
      var reported := ReportedConfidence(confidence);
      ghost var ls := labelList.labels;
      var parent := labelList.GetSelected();
      var dup := false;
      if parent.Some? && imageInfo in parent.value.childrenByImage {
        dup := IsDuplicatePolygon(parent, Some(imageInfo), corners, Some(w as real), Some(h as real), 1.0);
      }
      assert dup == DuplicatePolygon(ls, imageInfo, corners);
      if dup {
        return None;
      }
      child := labelList.CreateChildLabel(imageInfo, ObbRequest(corners));
      assert (labelList.labels, child) == CreateFor(ls, imageInfo, ObbRequest(corners));
    }

    /** The inner loop of `process_mask_sam_results` over one result's masks. */
    method ProcessMasks(polys: seq<seq<Pt>>, scores: Option<seq<real>>, imageInfo: string, w: int, h: int,
                        confidence: Option<real>, t: Tally) returns (r: Tally)
      requires t.labels == labelList.labels
      modifies labelList
      ensures r == MasksFold(t, polys, imageInfo, w, h).0 && labelList.labels == r.labels
      ensures labelList.nameIdSet == old(labelList.nameIdSet) && labelList.currentImageInfo == old(labelList.currentImageInfo)
      ensures old(labelList.Valid()) ==> labelList.Valid()
    {
      r := t;
      for i := 0 to |polys|
        invariant (r, false) == MasksFold(t, polys[..i], imageInfo, w, h) && labelList.labels == r.labels
        invariant labelList.nameIdSet == old(labelList.nameIdSet) && labelList.currentImageInfo == old(labelList.currentImageInfo)
        invariant old(labelList.Valid()) ==> labelList.Valid()
      {
        assert polys[..i + 1][..i] == polys[..i];
        var poly := polys[i];
        if |poly| < MinPolygonPoints {
          continue;
        }
        var area, last := MaskArea(poly);
        if area < MinBboxArea {
          continue;
        }
        if w == 0 || h == 0 {
          assert MasksFold(t, polys, imageInfo, w, h) == (r, true) by {
            MasksFoldStops(t, polys, i, imageInfo, w, h);
          }
          return;
        }
        var key := KeyOf3(Mean(Xs(poly)), Mean(Ys(poly)), area, w, h);
        if key in r.seen {
          continue;
        }
        var conf := if confidence.Some? then confidence.value else ExtractMaskConfidence(scores, last);
        var child := CreateChildLabelsFromPolygon(poly, imageInfo, w, h, Some(conf));
        if child.Some? {
          r := Tally(labelList.labels, r.made + [child.value], r.seen + {key});
        }
      }
      assert polys[..|polys|] == polys;
    }

    /**
     * `process_mask_sam_results`: nothing for no results, else every mask of
     * every result in order, with keys shared across the whole call.
     */
    method ProcessMaskSamResults(results: seq<SamResult>, imageInfo: string, w: int, h: int, confidence: Option<real>)
      returns (created: seq<Child>)
      modifies labelList
      ensures results == [] ==> created == [] && labelList.labels == old(labelList.labels)
      ensures var r := MaskResultsFold(Tally(old(labelList.labels), [], {}), results, imageInfo, w, h);
        created == r.made && labelList.labels == r.labels
      ensures labelList.nameIdSet == old(labelList.nameIdSet) && labelList.currentImageInfo == old(labelList.currentImageInfo)
      ensures old(labelList.Valid()) ==> labelList.Valid()
    {
      if results == [] {
        return [];
      }
      ghost var t0 := Tally(labelList.labels, [], {});
      var t := Tally(labelList.labels, [], {});
      for i := 0 to |results|
        invariant t == MaskResultsFold(t0, results[..i], imageInfo, w, h) && labelList.labels == t.labels
        invariant labelList.nameIdSet == old(labelList.nameIdSet) && labelList.currentImageInfo == old(labelList.currentImageInfo)
        invariant old(labelList.Valid()) ==> labelList.Valid()
      {
        assert results[..i + 1][..i] == results[..i];
        var res := results[i];
        if res.masks.Some? {
          t := ProcessMasks(res.masks.value, res.scores, imageInfo, w, h, confidence, t);
        }
      }
      assert results[..|results|] == results;
      created := t.made;
    }

    /** The inner loop of `process_obb_sam_results` over one result's masks. */
    method ProcessObbs(polys: seq<seq<Pt>>, scores: Option<seq<real>>, imageInfo: string, w: int, h: int,
                       confidence: Option<real>, useAxis: bool, minRect: seq<Pt> -> Option<Obb>,
                       contourArea: seq<Pt> -> real, t: Tally) returns (r: Tally)
      requires t.labels == labelList.labels
      modifies labelList
      ensures r == ObbsFold(t, polys, imageInfo, w, h, useAxis, minRect, contourArea).0 && labelList.labels == r.labels
      ensures labelList.nameIdSet == old(labelList.nameIdSet) && labelList.currentImageInfo == old(labelList.currentImageInfo)
      ensures old(labelList.Valid()) ==> labelList.Valid()
    {
      r := t;
      for i := 0 to |polys|
        invariant (r, false) == ObbsFold(t, polys[..i], imageInfo, w, h, useAxis, minRect, contourArea)
        invariant labelList.labels == r.labels
        invariant labelList.nameIdSet == old(labelList.nameIdSet) && labelList.currentImageInfo == old(labelList.currentImageInfo)
        invariant old(labelList.Valid()) ==> labelList.Valid()
      {
        assert polys[..i + 1][..i] == polys[..i];
        var poly := polys[i];
        if |poly| < MinPolygonPoints {
          continue;
        }
        var obb := if useAxis then Some(AxisAlignedObb(poly)) else minRect(poly);
        if obb.None? {
          continue;
        }
        var area := obb.value.area;
        if area < MinBboxArea && contourArea(poly) < MinBboxArea {
          continue;
        }
        if w == 0 || h == 0 {
          assert ObbsFold(t, polys, imageInfo, w, h, useAxis, minRect, contourArea) == (r, true) by {
            ObbsFoldStops(t, polys, i, imageInfo, w, h, useAxis, minRect, contourArea);
          }
          return;
        }
        var key := KeyOf3(obb.value.center.x, obb.value.center.y, area, w, h);
        if key in r.seen {
          continue;
        }
        var conf := if confidence.Some? then confidence.value else ExtractMaskConfidence(scores, i);
        var child := CreateChildLabelsFromObb(obb, imageInfo, w, h, Some(conf), contourArea);
        if child.Some? {
          r := Tally(labelList.labels, r.made + [child.value], r.seen + {key});
        }
      }
      assert polys[..|polys|] == polys;
    }

    /** `process_obb_sam_results`. */
    method ProcessObbSamResults(results: seq<SamResult>, imageInfo: string, w: int, h: int, confidence: Option<real>,
                                useAxis: bool, minRect: seq<Pt> -> Option<Obb>, contourArea: seq<Pt> -> real)
      returns (created: seq<Child>)
      modifies labelList
      ensures results == [] ==> created == [] && labelList.labels == old(labelList.labels)
      ensures var r := ObbResultsFold(Tally(old(labelList.labels), [], {}), results, imageInfo, w, h, useAxis, minRect, contourArea);
        created == r.made && labelList.labels == r.labels
      ensures labelList.nameIdSet == old(labelList.nameIdSet) && labelList.currentImageInfo == old(labelList.currentImageInfo)
      ensures old(labelList.Valid()) ==> labelList.Valid()
    {
      if results == [] {
        return [];
      }
      ghost var t0 := Tally(labelList.labels, [], {});
      var t := Tally(labelList.labels, [], {});
      for i := 0 to |results|
        invariant t == ObbResultsFold(t0, results[..i], imageInfo, w, h, useAxis, minRect, contourArea)
        invariant labelList.labels == t.labels
        invariant labelList.nameIdSet == old(labelList.nameIdSet) && labelList.currentImageInfo == old(labelList.currentImageInfo)
        invariant old(labelList.Valid()) ==> labelList.Valid()
      {
        assert results[..i + 1][..i] == results[..i];
        var res := results[i];
        if res.masks.Some? {
          t := ProcessObbs(res.masks.value, res.scores, imageInfo, w, h, confidence, useAxis, minRect, contourArea, t);
        }
      }
      assert results[..|results|] == results;
      created := t.made;
    }
  }

  /** Once a step abandons the result, the fold over the whole result ends there. */
  lemma {:induction false} MasksFoldStops(t: Tally, polys: seq<seq<Pt>>, i: nat, imageInfo: string, w: int, h: int)
    requires i < |polys| && MasksFold(t, polys[..i], imageInfo, w, h).1 == false
    requires MaskStep(MasksFold(t, polys[..i], imageInfo, w, h).0, polys[i], imageInfo, w, h).1
    ensures MasksFold(t, polys, imageInfo, w, h) == (MasksFold(t, polys[..i], imageInfo, w, h).0, true)
    decreases |polys|
  {
    if |polys| == i + 1 {
      assert polys[..|polys| - 1] == polys[..i];
    } else {
      var pre := polys[..|polys| - 1];
      assert pre[..i] == polys[..i] && pre[i] == polys[i];
      MasksFoldStops(t, pre, i, imageInfo, w, h);
    }
  }

  lemma {:induction false} ObbsFoldStops(t: Tally, polys: seq<seq<Pt>>, i: nat, imageInfo: string, w: int, h: int,
                                         useAxis: bool, minRect: seq<Pt> -> Option<Obb>, contourArea: seq<Pt> -> real)
    requires i < |polys| && ObbsFold(t, polys[..i], imageInfo, w, h, useAxis, minRect, contourArea).1 == false
    requires ObbStep(ObbsFold(t, polys[..i], imageInfo, w, h, useAxis, minRect, contourArea).0, polys[i],
                     imageInfo, w, h, useAxis, minRect, contourArea).1
    ensures ObbsFold(t, polys, imageInfo, w, h, useAxis, minRect, contourArea)
         == (ObbsFold(t, polys[..i], imageInfo, w, h, useAxis, minRect, contourArea).0, true)
    decreases |polys|
  {
    if |polys| == i + 1 {
      assert polys[..|polys| - 1] == polys[..i];
    } else {
      var pre := polys[..|polys| - 1];
      assert pre[..i] == polys[..i] && pre[i] == polys[i];
      ObbsFoldStops(t, pre, i, imageInfo, w, h, useAxis, minRect, contourArea);
    }
  }
}
