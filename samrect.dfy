/**
 * The rectangle-prompt SAM session of sam_ops/IN_Sam_rect.py: one prompt box
 * per inference, and the polygon pass over detector boxes, which pads and
 * clamps each box before segmenting it and scales the mask polygon back to
 * image pixels.
 *
 * The background threads are modelled as calls; segmentation (model call,
 * contour extraction and polygon approximation) is a parameter.
 */
module SamRect {
  import opened Wrappers
  import opened PyNum
  import opened Labels

  /** The argument of `set_bbox`: a QRectF (left, top, width, height), or a list taken as it is. */
  datatype BoxArg = RectF(left: real, top: real, width: real, height: real) | BoxList(values: seq<real>)

  /** `[left, top, right, bottom]` of a QRectF, or the list itself. */
  function BoxValues(b: BoxArg): (r: seq<real>)
    ensures b.RectF? ==> r == [b.left, b.top, b.left + b.width, b.top + b.height]
    ensures b.BoxList? ==> r == b.values
  {
    match b
    case RectF(l, t, w, h) => [l, t, l + w, t + h]
    case BoxList(v) => v
  }

  datatype ErrorKind = ModelNotLoaded | NoImagePath | InferenceFailed

  /** The signals the manager emits, in order. */
  datatype Event = Error(kind: ErrorKind) | Started(imagePath: string, box: seq<real>) | Completed(box: seq<real>)
                 | PolygonDetected(points: seq<Pt>)

  /** The SAM box `[x1, y1, x2, y2]` in integer pixels. */
  datatype PixelBox = PixelBox(x1: int, y1: int, x2: int, y2: int)

  /** `max(3, int(0.02 * max(1, side)))`. */
  function Padding(lo: real, hi: real): (pad: int)
    ensures pad >= 3
    ensures hi - lo >= 1.0 ==> pad as real <= 0.02 * (hi - lo) || pad == 3
  {
    MaxI(3, Trunc(0.02 * MaxR(1.0, hi - lo)))
  }

  /**
   * The sanitised box of `_process_bboxes_thread`: padded and clamped to
   * the image when its size is known, else only rounded; None for a list
   * shorter than four or a box without positive width and height.
   */
  function SanitizeBox(b: seq<real>, imageSize: Option<(int, int)>): (r: Option<PixelBox>)
    ensures |b| < 4 ==> r.None?
    ensures r.Some? ==> r.value.x1 < r.value.x2 && r.value.y1 < r.value.y2
    ensures r.Some? && imageSize.Some? ==>
      0 <= r.value.x1 && r.value.x2 <= imageSize.value.0 - 1 && 0 <= r.value.y1 && r.value.y2 <= imageSize.value.1 - 1
  {
    if |b| < 4 then None
    else
      var (x1, y1, x2, y2) := (b[0], b[1], b[2], b[3]);
      var p := if imageSize.Some? then
        var (w, h) := imageSize.value;
        PixelBox(MaxI(0, Trunc(x1) - Padding(x1, x2)), MaxI(0, Trunc(y1) - Padding(y1, y2)),
                 MinI(w - 1, Trunc(x2) + Padding(x1, x2)), MinI(h - 1, Trunc(y2) + Padding(y1, y2)))
      else
        PixelBox(RoundHalfEven(x1), RoundHalfEven(y1), RoundHalfEven(x2), RoundHalfEven(y2));
      if p.x2 <= p.x1 || p.y2 <= p.y1 then None else Some(p)
  }

  /**
   * With the image size known, a box of positive size inside the image is
   * kept, and the sanitised box contains the original's truncated corners
   * with a margin of at least three pixels wherever the image allows.
   */
  lemma SanitizedBoxEnclosesPadded(b: seq<real>, w: int, h: int)
    requires |b| >= 4 && 0.0 <= b[0] && b[0] + 1.0 <= b[2] && b[2] < w as real
    requires 0.0 <= b[1] && b[1] + 1.0 <= b[3] && b[3] < h as real
    ensures SanitizeBox(b, Some((w, h))).Some?
    ensures var p := SanitizeBox(b, Some((w, h))).value;
      p.x1 <= Trunc(b[0]) - 3 || p.x1 == 0
    ensures var p := SanitizeBox(b, Some((w, h))).value;
      (p.x2 >= Trunc(b[2]) + 3 || p.x2 == w - 1) && (p.y1 <= Trunc(b[1]) - 3 || p.y1 == 0)
      && (p.y2 >= Trunc(b[3]) + 3 || p.y2 == h - 1)
  {
    var p0 := Trunc(b[0]);
    var p2 := Trunc(b[2]);
    assert p0 < p2 || p0 <= p2;
  }

  /** Without the image size each corner moves by at most half a pixel. */
  lemma RoundedBoxIsClose(b: seq<real>)
    requires SanitizeBox(b, None).Some?
    ensures var p := SanitizeBox(b, None).value;
      AbsR(p.x1 as real - b[0]) <= 0.5 && AbsR(p.y1 as real - b[1]) <= 0.5
      && AbsR(p.x2 as real - b[2]) <= 0.5 && AbsR(p.y2 as real - b[3]) <= 0.5
  {
  }

  /** The mask-to-image factor along one side: 1.0 for an empty mask side. */
  function ScaleFactor(imageSide: real, maskSide: int): real
  {
    if maskSide != 0 then imageSide / maskSide as real else 1.0
  }

  /** Every vertex of the mask polygon scaled to image pixels. */
  function ScalePolygon(pts: seq<Pt>, sx: real, sy: real): (r: seq<Pt>)
    ensures |r| == |pts|
    ensures forall i :: 0 <= i < |pts| ==> r[i] == Pt(pts[i].x * sx, pts[i].y * sy)
  {
    seq(|pts|, i requires 0 <= i < |pts| => Pt(pts[i].x * sx, pts[i].y * sy))
  }

  /** What segmentation of one box reports: the approximated contour and the mask's width and height. */
  datatype MaskPolygon = MaskPolygon(vertices: seq<Pt>, maskW: int, maskH: int)

  /**
   * The polygon emitted for one detector box, in image pixels: None when
   * the box is rejected, segmentation gives nothing or no vertex is left.
   * The image size falls back to the mask's own size.
   */
  function PolygonFor(b: seq<real>, imageSize: Option<(int, int)>, segment: PixelBox -> Option<MaskPolygon>): Option<seq<Pt>>
  {
    var box := SanitizeBox(b, imageSize);
    if box.None? then None
    else
      var m := segment(box.value);
      if m.None? || m.value.vertices == [] then None
      else
        var (iw, ih) := if imageSize.Some? then (imageSize.value.0 as real, imageSize.value.1 as real)
                        else (m.value.maskW as real, m.value.maskH as real);
        Some(ScalePolygon(m.value.vertices, ScaleFactor(iw, m.value.maskW), ScaleFactor(ih, m.value.maskH)))
  }

  /** A mask corner lands on the image corner, and with no image size nothing is rescaled. */
  lemma MaskCornerToImageCorner(m: MaskPolygon, w: int, h: int)
    requires m.maskW > 0 && m.maskH > 0
    ensures ScalePolygon([Pt(m.maskW as real, m.maskH as real)], ScaleFactor(w as real, m.maskW),
                         ScaleFactor(h as real, m.maskH)) == [Pt(w as real, h as real)]
    ensures ScalePolygon(m.vertices, ScaleFactor(m.maskW as real, m.maskW), ScaleFactor(m.maskH as real, m.maskH))
      == m.vertices
  {
    var mw, mh := m.maskW as real, m.maskH as real;
    var sx, sy := ScaleFactor(w as real, m.maskW), ScaleFactor(h as real, m.maskH);
    assert sx == w as real / mw && sy == h as real / mh;
    assert mw * sx == w as real && mh * sy == h as real;
    var c := ScalePolygon([Pt(mw, mh)], sx, sy);
    assert c[0] == Pt(mw * sx, mh * sy) == Pt(w as real, h as real);
    assert mw / mw == 1.0 && mh / mh == 1.0;
    var r := ScalePolygon(m.vertices, ScaleFactor(mw, m.maskW), ScaleFactor(mh, m.maskH));
    assert forall i :: 0 <= i < |r| ==> r[i] == m.vertices[i];
  }

  /** The polygons emitted for the boxes, in order. */
  function PolygonsFor(boxes: seq<seq<real>>, imageSize: Option<(int, int)>,
                       segment: PixelBox -> Option<MaskPolygon>): (r: seq<seq<Pt>>)
    ensures |r| <= |boxes|
  {
    if |boxes| == 0 then []
    else
      var last := PolygonFor(boxes[|boxes| - 1], imageSize, segment);
      PolygonsFor(boxes[..|boxes| - 1], imageSize, segment) + (if last.Some? then [last.value] else [])
  }

  /** A box shorter than four values emits nothing and leaves the others' polygons as they are. */
  lemma ShortBoxSkipped(boxes: seq<seq<real>>, b: seq<real>, imageSize: Option<(int, int)>,
                        segment: PixelBox -> Option<MaskPolygon>)
    requires |b| < 4
    ensures PolygonsFor(boxes + [b], imageSize, segment) == PolygonsFor(boxes, imageSize, segment)
  {
    assert (boxes + [b])[..|boxes|] == boxes;
  }

  /** Every emitted polygon has at least one vertex. */
  lemma {:induction false} EmittedPolygonsNonEmpty(boxes: seq<seq<real>>, imageSize: Option<(int, int)>,
                                                   segment: PixelBox -> Option<MaskPolygon>)
    ensures forall i :: 0 <= i < |PolygonsFor(boxes, imageSize, segment)| ==> |PolygonsFor(boxes, imageSize, segment)[i]| > 0
  {
    if |boxes| > 0 {
      EmittedPolygonsNonEmpty(boxes[..|boxes| - 1], imageSize, segment);
    }
  }

  class SamRectManager {
    /** Whether a SAM model was found. */
    var hasModel: bool
    var bbox: Option<seq<real>>
    var imagePath: Option<string>
    var running: bool
    var events: seq<Event>

    constructor (hasModel: bool)
      ensures this.hasModel == hasModel && bbox == None && imagePath == None && !running && events == []
    {
      this.hasModel := hasModel;
      bbox, imagePath := None, None;
      running := false;
      events := [];
    }

    /** `set_image_path`. */
    method SetImagePath(path: Option<string>)
      modifies this
      ensures imagePath == path
      ensures hasModel == old(hasModel) && bbox == old(bbox) && running == old(running) && events == old(events)
    {
      imagePath := path;
    }

    /** `clear_bbox`. */
    method ClearBbox()
      modifies this
      ensures bbox == None
      ensures hasModel == old(hasModel) && imagePath == old(imagePath) && running == old(running) && events == old(events)
    {
      bbox := None;
    }

    /** `reset_for_new_inference`: box cleared and running flag dropped. */
    method ResetForNewInference()
      modifies this
      ensures bbox == None && !running
      ensures hasModel == old(hasModel) && imagePath == old(imagePath) && events == old(events)
    {
      ClearBbox();
      running := false;
    }

    /** The box is set, and neither empty nor absent. */
    predicate HasBox()
      reads this
    {
      bbox.Some? && bbox.value != []
    }

    /**
     * `start_inference`. `fileExists` says whether the image path names an
     * existing file.
     */
    method StartInference(fileExists: bool)
      modifies this
      ensures bbox == old(bbox) && imagePath == old(imagePath) && hasModel == old(hasModel)
      ensures if !hasModel then events == old(events) + [Error(ModelNotLoaded)] && running == old(running)
              else if !HasBox() || old(running) then events == old(events) && running == old(running)
              else if imagePath.None? || imagePath.value == "" || !fileExists then
                events == old(events) + [Error(NoImagePath)] && running == old(running)
              else running && events == old(events) + [Started(imagePath.value, bbox.value)]
    {
      if !hasModel {
        events := events + [Error(ModelNotLoaded)];
        return;
      }
      if !HasBox() {
        return;
      }
      if running {
        return;
      }
      if imagePath.None? || imagePath.value == "" || !fileExists {
        events := events + [Error(NoImagePath)];
        return;
      }
      running := true;
      events := events + [Started(imagePath.value, bbox.value)];
    }

    /**
     * `set_bbox`: False without a model, else the box is stored and an
     * inference starts unless one runs, the box is empty or the image path
     * is missing or names nothing that exists.
     */
    method SetBbox(b: BoxArg, fileExists: bool) returns (ok: bool)
      modifies this
      ensures ok == hasModel && hasModel == old(hasModel) && imagePath == old(imagePath)
      ensures !hasModel ==> bbox == old(bbox) && running == old(running) && events == old(events) + [Error(ModelNotLoaded)]
      ensures hasModel ==> bbox == Some(BoxValues(b))
      ensures hasModel && old(running) ==> running && events == old(events)
      ensures hasModel && !old(running) && BoxValues(b) != [] && imagePath.Some? && imagePath.value != "" && fileExists ==>
        running && events == old(events) + [Started(imagePath.value, BoxValues(b))]
      ensures hasModel && !old(running) && BoxValues(b) == [] ==> !running && events == old(events)
      ensures hasModel && !old(running) && BoxValues(b) != [] && (imagePath.None? || imagePath.value == "" || !fileExists) ==>
        !running && events == old(events) + [Error(NoImagePath)]
    {
      if !hasModel {
        events := events + [Error(ModelNotLoaded)];
        return false;
      }
      bbox := Some(BoxValues(b));
      if !running {
        StartInference(fileExists);
      }
      return true;
    }

    /**
     * `_run_inference`: the completion signal with the box used, or an
     * error when there is no box or the model call fails (`modelSucceeds`);
     * the box is kept for further inferences and the running flag dropped
     * either way.
     */
    method RunInference(modelSucceeds: bool)
      modifies this
      ensures bbox.Some? && modelSucceeds ==> events == old(events) + [Completed(bbox.value)]
      ensures bbox.None? || !modelSucceeds ==> events == old(events) + [Error(InferenceFailed)]
      ensures bbox == old(bbox) && !running && hasModel == old(hasModel) && imagePath == old(imagePath)
    {
      if bbox.Some? && modelSucceeds {
        events := events + [Completed(bbox.value)];
      } else {
        events := events + [Error(InferenceFailed)];
      }
      running := false;
    }

    /**
     * `process_yolov_bboxes_for_polygon` with its worker loop: nothing
     * without boxes or a model, else one `polygon_detected` per box that
     * yields a polygon, in order.
     */
    method ProcessYolovBboxesForPolygon(boxes: seq<seq<real>>, imageSize: Option<(int, int)>,
                                        segment: PixelBox -> Option<MaskPolygon>)
      modifies this
      ensures boxes == [] || !hasModel ==> events == old(events)
      ensures boxes != [] && hasModel ==>
        events == old(events) + EventsOf(PolygonsFor(boxes, imageSize, segment))
      ensures bbox == old(bbox) && running == old(running) && hasModel == old(hasModel) && imagePath == old(imagePath)
    {
      if boxes == [] || !hasModel {
        return;
      }
      var polys := ProcessBboxes(boxes, imageSize, segment);
      events := events + EventsOf(polys);
    }
  }

  function EventsOf(polys: seq<seq<Pt>>): (r: seq<Event>)
    ensures |r| == |polys| && forall i :: 0 <= i < |polys| ==> r[i] == PolygonDetected(polys[i])
  {
    seq(|polys|, i requires 0 <= i < |polys| => PolygonDetected(polys[i]))
  }

  /** `_process_bboxes_thread`'s loop, skipping rejected boxes with `continue`. */
  method ProcessBboxes(boxes: seq<seq<real>>, imageSize: Option<(int, int)>,
                       segment: PixelBox -> Option<MaskPolygon>) returns (polys: seq<seq<Pt>>)
    ensures polys == PolygonsFor(boxes, imageSize, segment)
  {
    polys := [];
    for i := 0 to |boxes|
      invariant polys == PolygonsFor(boxes[..i], imageSize, segment)
    {
      assert boxes[..i + 1][..i] == boxes[..i];
      var sanitized := SanitizeBox(boxes[i], imageSize);
      if sanitized.None? {
        continue;
      }
      var m := segment(sanitized.value);
      if m.None? || m.value.vertices == [] {
        continue;
      }
      var iw, ih := m.value.maskW as real, m.value.maskH as real;
      if imageSize.Some? {
        iw, ih := imageSize.value.0 as real, imageSize.value.1 as real;
      }
      var sx := ScaleFactor(iw, m.value.maskW);
      var sy := ScaleFactor(ih, m.value.maskH);
      polys := polys + [ScalePolygon(m.value.vertices, sx, sy)];
    }
    assert boxes[..|boxes|] == boxes;
  }
}
