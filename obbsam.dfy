/**
 * The oriented-box SAM session of sam_ops/OBBSAM.py: a buffer of clicked
 * points (positive or negative) and an optional box, the guards that start
 * an inference, and the remote-sensing remap of the prompts into the visible
 * crop and of the resulting mask polygons back onto the image.
 *
 * The background thread is modelled as a call of `RunInference`; the model
 * is a parameter `predict(target, prompt)` giving the mask polygons
 * (`masks.xy`) it reports.
 */
module ObbSam {
  import opened Wrappers
  import opened PyNum
  import opened Labels
  import opened BoundingRect
  import opened DrawJk
  import opened Yolov

  /** The reasons `inference_error` is emitted with. */
  datatype ErrorKind = NoParentSelected | ModelNotLoaded | NoImagePath

  /** The visible-region facts the UI thread hands to the worker. */
  datatype UiCropInfo = UiCropInfo(shiftX: int, shiftY: int, cropW: int, cropH: int, imgW: int, imgH: int)

  /** The signals the manager emits, in order. */
  datatype Event = Error(kind: ErrorKind) | Started(imagePath: string, cropInfo: Option<UiCropInfo>)
                 | Completed(polygons: seq<seq<Pt>>)

  /** The prompt the model is called with: the box when there is one, else the points. */
  datatype SamPrompt = BoxPrompt(box: Bounds) | PointPrompt(points: seq<Pt>, labels: seq<int>)

  /** The worker's decision: the image, the prompt and the offset results are moved back by, if any. */
  datatype SamRun = SamRun(target: Target, prompt: SamPrompt, shiftBack: Option<(int, int)>)

  /**
   * The crop facts captured in `start_inference`: taken when remote sensing
   * is on, a pixmap is shown and the visible rectangle does not cover it.
   */
  function UiCropInfoOf(remoteEnabled: bool, canvas: Option<Canvas>): (info: Option<UiCropInfo>)
    ensures info.Some? ==> remoteEnabled && info.value.cropW > 0 && info.value.cropH > 0
  {
    if !remoteEnabled || canvas.None? || canvas.value.pixmap.None? then None
    else
      var pm := canvas.value.pixmap.value;
      var rect := VisibleImageRect(canvas.value.pixmap, canvas.value.sceneRect);
      if rect.None? || (rect.value.w >= pm.width && rect.value.h >= pm.height) then None
      else
        var r := rect.value;
        Some(UiCropInfo(r.x, r.y, r.w, r.h, pm.width, pm.height))
  }

  function PromptOf(points: seq<Pt>, labels: seq<int>, bbox: Option<Bounds>): SamPrompt
  {
    if bbox.Some? then BoxPrompt(bbox.value) else PointPrompt(points, labels)
  }

  /** `zip(points, labels)`: as many pairs as the shorter list has entries. */
  function Zip(points: seq<Pt>, labels: seq<int>): (r: seq<(Pt, int)>)
    ensures |r| == MinI(|points|, |labels|)
    ensures forall i :: 0 <= i < |r| ==> r[i] == (points[i], labels[i])
  {
    seq(MinI(|points|, |labels|), i requires 0 <= i < MinI(|points|, |labels|) => (points[i], labels[i]))
  }

  /** A point in crop pixels: the offset truncated toward zero. */
  function Moved(p: Pt, sx: int, sy: int): Pt
  {
    Pt(Trunc(p.x - sx as real) as real, Trunc(p.y - sy as real) as real)
  }

  predicate InCrop(p: Pt, cw: int, ch: int)
  {
    0.0 <= p.x < cw as real && 0.0 <= p.y < ch as real
  }

  /** The moved points that land in the crop, with their labels, in order. */
  function KeptPoints(pairs: seq<(Pt, int)>, sx: int, sy: int, cw: int, ch: int): (r: (seq<Pt>, seq<int>))
    ensures |r.0| == |r.1| <= |pairs|
    ensures forall i :: 0 <= i < |r.0| ==> InCrop(r.0[i], cw, ch)
  {
    if |pairs| == 0 then ([], [])
    else
      var before := KeptPoints(pairs[..|pairs| - 1], sx, sy, cw, ch);
      var (p, lab) := pairs[|pairs| - 1];
      var m := Moved(p, sx, sy);
      if InCrop(m, cw, ch) then (before.0 + [m], before.1 + [lab]) else before
  }

  /** Each kept point is a moved input point and keeps that point's label. */
  lemma {:induction false} KeptPointsFromInput(pairs: seq<(Pt, int)>, sx: int, sy: int, cw: int, ch: int, i: int)
    requires 0 <= i < |KeptPoints(pairs, sx, sy, cw, ch).0|
    ensures var r := KeptPoints(pairs, sx, sy, cw, ch);
      exists j :: 0 <= j < |pairs| && r.0[i] == Moved(pairs[j].0, sx, sy) && r.1[i] == pairs[j].1
  {
    var n := |pairs| - 1;
    var before := KeptPoints(pairs[..n], sx, sy, cw, ch);
    if i < |before.0| {
      KeptPointsFromInput(pairs[..n], sx, sy, cw, ch, i);
      var j :| 0 <= j < n && before.0[i] == Moved(pairs[..n][j].0, sx, sy) && before.1[i] == pairs[..n][j].1;
      assert pairs[..n][j] == pairs[j];
    } else {
      assert KeptPoints(pairs, sx, sy, cw, ch).0[i] == Moved(pairs[n].0, sx, sy);
    }
  }

  /** A point within a pixel to the left of or above the crop is truncated onto its edge and kept. */
  lemma SlightlyOutsideKept(p: Pt, sx: int, sy: int, cw: int, ch: int)
    requires sx as real - 1.0 < p.x < sx as real && sy as real <= p.y < (sy + ch) as real
    requires cw > 0
    ensures Moved(p, sx, sy).x == 0.0 && InCrop(Moved(p, sx, sy), cw, ch)
  {
  }

  /** A point on the pixel grid inside the crop maps back to itself. */
  lemma GridPointRoundTrip(x: int, y: int, sx: int, sy: int, cw: int, ch: int)
    requires sx <= x < sx + cw && sy <= y < sy + ch
    ensures var m := Moved(Pt(x as real, y as real), sx, sy);
      InCrop(m, cw, ch) && m.x + sx as real == x as real && m.y + sy as real == y as real
  {
    assert Trunc((x - sx) as real) == x - sx;
    assert Trunc((y - sy) as real) == y - sy;
  }

  lemma KeptPointsSnoc(pairs: seq<(Pt, int)>, i: int, sx: int, sy: int, cw: int, ch: int)
    requires 0 <= i < |pairs|
    ensures var before := KeptPoints(pairs[..i], sx, sy, cw, ch);
      var after := KeptPoints(pairs[..i + 1], sx, sy, cw, ch);
      var m := Moved(pairs[i].0, sx, sy);
      after.0 == (if InCrop(m, cw, ch) then before.0 + [m] else before.0)
      && after.1 == (if InCrop(m, cw, ch) then before.1 + [pairs[i].1] else before.1)
  {
    assert pairs[..i + 1][..i] == pairs[..i];
  }

  /** The zip loop that moves the points into the crop. */
  method RemapPoints(points: seq<Pt>, labels: seq<int>, sx: int, sy: int, cw: int, ch: int)
    returns (adjPoints: seq<Pt>, adjLabels: seq<int>)
    ensures adjPoints == KeptPoints(Zip(points, labels), sx, sy, cw, ch).0
    ensures adjLabels == KeptPoints(Zip(points, labels), sx, sy, cw, ch).1
  {
    var pairs := Zip(points, labels);
    adjPoints, adjLabels := [], [];
    for i := 0 to |pairs|
      invariant adjPoints == KeptPoints(pairs[..i], sx, sy, cw, ch).0
      invariant adjLabels == KeptPoints(pairs[..i], sx, sy, cw, ch).1
    {
      KeptPointsSnoc(pairs, i, sx, sy, cw, ch);
      var (p, lab) := pairs[i];
      var ax := Trunc(p.x - sx as real);
      var ay := Trunc(p.y - sy as real);
      if 0 <= ax < cw && 0 <= ay < ch {
        adjPoints := adjPoints + [Pt(ax as real, ay as real)];
        adjLabels := adjLabels + [lab];
      }
    }
    assert pairs[..|pairs|] == pairs;
  }

  /** The box moved into the crop, each coordinate clamped to [0, crop size]. */
  function ClipSamBox(b: Bounds, info: UiCropInfo): (r: Bounds)
    requires info.cropW >= 0 && info.cropH >= 0
    ensures 0.0 <= r.x1 <= info.cropW as real && 0.0 <= r.x2 <= info.cropW as real
    ensures 0.0 <= r.y1 <= info.cropH as real && 0.0 <= r.y2 <= info.cropH as real
  {
    Bounds(MaxR(0.0, MinR(b.x1 - info.shiftX as real, info.cropW as real)),
           MaxR(0.0, MinR(b.y1 - info.shiftY as real, info.cropH as real)),
           MaxR(0.0, MinR(b.x2 - info.shiftX as real, info.cropW as real)),
           MaxR(0.0, MinR(b.y2 - info.shiftY as real, info.cropH as real)))
  }

  /**
   * The remap of `_run_inference`. The crop is taken when a positive point
   * lands in it, or when the clipped box keeps a positive size; a degenerate
   * clipped box cancels the move back, though an image already cropped for
   * the points stays cropped.
   */
  function RemapOf(points: seq<Pt>, labels: seq<int>, bbox: Option<Bounds>, info: Option<UiCropInfo>,
                   remoteEnabled: bool, imageSize: Option<(int, int)>): SamRun
  {
    var plain := SamRun(WholeImage, PromptOf(points, labels, bbox), None);
    if !remoteEnabled || info.None? || info.value.cropW <= 0 || info.value.cropH <= 0 || imageSize.None? then plain
    else
      var i := info.value;
      var (w, h) := imageSize.value;
      var x0 := MaxI(0, MinI(i.shiftX, w - 1));
      var y0 := MaxI(0, MinI(i.shiftY, h - 1));
      var x1 := MaxI(0, MinI(i.shiftX + i.cropW, w));
      var y1 := MaxI(0, MinI(i.shiftY + i.cropH, h));
      if x1 <= x0 || y1 <= y0 then plain
      else
        CropRunOf(points, labels, bbox, i, Window(x0, y0, x1 - x0, y1 - y0))
  }

  /** The part of the remap that follows a non-empty crop window `win`. */
  function CropRunOf(points: seq<Pt>, labels: seq<int>, bbox: Option<Bounds>, i: UiCropInfo, win: Window): SamRun
    requires i.cropW > 0 && i.cropH > 0
  {
    var crop := CroppedImage(win);
    var adj := KeptPoints(Zip(points, labels), i.shiftX, i.shiftY, win.w, win.h);
    var byPoints := 1 in adj.1;
    var pointTarget := if byPoints then crop else WholeImage;
    if bbox.Some? then
      var cb := ClipSamBox(bbox.value, i);
      if cb.x2 <= cb.x1 || cb.y2 <= cb.y1 then SamRun(pointTarget, BoxPrompt(bbox.value), None)
      else SamRun(crop, BoxPrompt(cb), Some((i.shiftX, i.shiftY)))
    else if byPoints then SamRun(crop, PointPrompt(adj.0, adj.1), Some((i.shiftX, i.shiftY)))
    else SamRun(WholeImage, PointPrompt(points, labels), None)
  }

  /** The branches of `_run_inference` that choose the image and move the prompts. */
  method RemapPrompts(points: seq<Pt>, labels: seq<int>, bbox: Option<Bounds>, info: Option<UiCropInfo>,
                      remoteEnabled: bool, imageSize: Option<(int, int)>) returns (run: SamRun)
    ensures run == RemapOf(points, labels, bbox, info, remoteEnabled, imageSize)
  {
    run := SamRun(WholeImage, PromptOf(points, labels, bbox), None);
    if !remoteEnabled || info.None? || info.value.cropW <= 0 || info.value.cropH <= 0 || imageSize.None? {
      return;
    }
    var i := info.value;
    var (w, h) := imageSize.value;
    var x0 := MaxI(0, MinI(i.shiftX, w - 1));
    var y0 := MaxI(0, MinI(i.shiftY, h - 1));
    var x1 := MaxI(0, MinI(i.shiftX + i.cropW, w));
    var y1 := MaxI(0, MinI(i.shiftY + i.cropH, h));
    if x1 <= x0 || y1 <= y0 {
      return;
    }
    run := RemapInCrop(points, labels, bbox, i, Window(x0, y0, x1 - x0, y1 - y0));
  }

  /** The branches of `_run_inference` after a non-empty crop window was found. */
  method RemapInCrop(points: seq<Pt>, labels: seq<int>, bbox: Option<Bounds>, i: UiCropInfo, win: Window)
    returns (run: SamRun)
    requires i.cropW > 0 && i.cropH > 0
    ensures run == CropRunOf(points, labels, bbox, i, win)
  {
    var crop := CroppedImage(win);
    var target := WholeImage;
    var pts, labs := points, labels;
    var shift := None;
    var adjPoints, adjLabels := RemapPoints(points, labels, i.shiftX, i.shiftY, win.w, win.h);
    if 1 in adjLabels {
      pts, labs := adjPoints, adjLabels;
      target := crop;
      shift := Some((i.shiftX, i.shiftY));
    }
    var box := bbox;
    if bbox.Some? {
      var cb := ClipSamBox(bbox.value, i);
      if cb.x2 <= cb.x1 || cb.y2 <= cb.y1 {
        shift := None;
      } else {
        box := Some(cb);
        target := crop;
        shift := Some((i.shiftX, i.shiftY));
      }
    }
    run := SamRun(target, PromptOf(pts, labs, box), shift);
  }

  /** Results are moved back only when the model ran on the crop. */
  lemma ShiftBackOnlyFromCrop(points: seq<Pt>, labels: seq<int>, bbox: Option<Bounds>, info: Option<UiCropInfo>,
                              remoteEnabled: bool, imageSize: Option<(int, int)>)
    ensures var run := RemapOf(points, labels, bbox, info, remoteEnabled, imageSize);
      run.shiftBack.Some? ==>
        run.target.CroppedImage? && remoteEnabled && info.Some?
        && run.shiftBack.value == (info.value.shiftX, info.value.shiftY)
  {
  }

  /** A box prompt, when there is one, is always what the model receives. */
  lemma BoxTakesPrecedence(points: seq<Pt>, labels: seq<int>, b: Bounds, info: Option<UiCropInfo>,
                           remoteEnabled: bool, imageSize: Option<(int, int)>)
    ensures RemapOf(points, labels, Some(b), info, remoteEnabled, imageSize).prompt.BoxPrompt?
  {
  }

  /** A kept box lies in the crop with positive size. */
  lemma CroppedBoxInsideCrop(points: seq<Pt>, labels: seq<int>, b: Bounds, info: Option<UiCropInfo>,
                             remoteEnabled: bool, imageSize: Option<(int, int)>)
    requires RemapOf(points, labels, Some(b), info, remoteEnabled, imageSize).shiftBack.Some?
    ensures var p := RemapOf(points, labels, Some(b), info, remoteEnabled, imageSize).prompt.box;
      0.0 <= p.x1 < p.x2 <= info.value.cropW as real && 0.0 <= p.y1 < p.y2 <= info.value.cropH as real
  {
  }

  /** Without remote sensing the prompts go unchanged to the whole image. */
  lemma NoRemoteNoRemap(points: seq<Pt>, labels: seq<int>, bbox: Option<Bounds>, info: Option<UiCropInfo>,
                        imageSize: Option<(int, int)>)
    ensures RemapOf(points, labels, bbox, info, false, imageSize) == SamRun(WholeImage, PromptOf(points, labels, bbox), None)
  {
  }

  function ShiftPolygon(poly: seq<Pt>, dx: int, dy: int): (r: seq<Pt>)
    ensures |r| == |poly|
    ensures forall i :: 0 <= i < |poly| ==> r[i] == Pt(poly[i].x + dx as real, poly[i].y + dy as real)
  {
    seq(|poly|, i requires 0 <= i < |poly| => Pt(poly[i].x + dx as real, poly[i].y + dy as real))
  }

  function ShiftPolygons(polys: seq<seq<Pt>>, dx: int, dy: int): (r: seq<seq<Pt>>)
    ensures |r| == |polys|
  {
    seq(|polys|, i requires 0 <= i < |polys| => ShiftPolygon(polys[i], dx, dy))
  }

  /** The mask polygons the run reports, moved back when it ran on the crop. */
  function ResultOf(run: SamRun, predict: (Target, SamPrompt) -> seq<seq<Pt>>): seq<seq<Pt>>
  {
    var polys := predict(run.target, run.prompt);
    if run.shiftBack.Some? && |polys| > 0 then ShiftPolygons(polys, run.shiftBack.value.0, run.shiftBack.value.1)
    else polys
  }

  /** The loop over `masks.xy` that moves every vertex back by the crop's offset. */
  method ShiftPolygonsBack(polys: seq<seq<Pt>>, dx: int, dy: int) returns (r: seq<seq<Pt>>)
    ensures r == ShiftPolygons(polys, dx, dy)
  {
    r := [];
    for i := 0 to |polys|
      invariant r == ShiftPolygons(polys[..i], dx, dy)
    {
      r := r + [ShiftPolygon(polys[i], dx, dy)];
    }
    assert polys[..|polys|] == polys;
  }

  /** Moving a polygon into the crop and back gives it again. */
  lemma ShiftPolygonRoundTrip(poly: seq<Pt>, dx: int, dy: int)
    ensures ShiftPolygon(ShiftPolygon(poly, -dx, -dy), dx, dy) == poly
  {
    var r := ShiftPolygon(ShiftPolygon(poly, -dx, -dy), dx, dy);
    assert forall i :: 0 <= i < |poly| ==> r[i] == poly[i];
  }

  class SamObbManager {
    /** Whether the loader handed over a SAM model. */
    var hasModel: bool
    var points: seq<Pt>
    var labels: seq<int>
    var bbox: Option<Bounds>
    var running: bool
    var events: seq<Event>

    /** One label per point, each 1 (positive) or 0 (negative). */
    ghost predicate Valid()
      reads this
    {
      |points| == |labels| && forall i :: 0 <= i < |labels| ==> labels[i] == 0 || labels[i] == 1
    }

    constructor (hasModel: bool)
      ensures Valid()
      ensures this.hasModel == hasModel && points == [] && labels == [] && bbox == None
      ensures !running && events == []
    {
      this.hasModel := hasModel;
      points, labels, bbox := [], [], None;
      running := false;
      events := [];
    }

    /** `clear_points`. */
    method ClearPoints()
      modifies this
      ensures Valid()
      ensures points == [] && labels == [] && bbox == None
      ensures hasModel == old(hasModel) && running == old(running) && events == old(events)
    {
      points, labels, bbox := [], [], None;
    }

    /** `reset_for_new_inference`: the buffer cleared and the running flag dropped. */
    method ResetForNewInference()
      modifies this
      ensures Valid()
      ensures points == [] && labels == [] && bbox == None && !running
      ensures hasModel == old(hasModel) && events == old(events)
    {
      ClearPoints();
      running := false;
    }

    /**
     * `start_inference`. `imagePath` is the current image when the resource
     * list has one and its file exists.
     */
    method StartInference(imagePath: Option<string>, remoteEnabled: bool, canvas: Option<Canvas>)
      modifies this
      ensures points == old(points) && labels == old(labels) && bbox == old(bbox) && hasModel == old(hasModel)
      ensures if !hasModel then events == old(events) + [Error(ModelNotLoaded)] && running == old(running)
              else if (points == [] && bbox.None?) || old(running) then
                events == old(events) && running == old(running)
              else if imagePath.None? then events == old(events) + [Error(NoImagePath)] && running == old(running)
              else running && events == old(events) + [Started(imagePath.value, UiCropInfoOf(remoteEnabled, canvas))]
    {
      if !hasModel {
        events := events + [Error(ModelNotLoaded)];
        return;
      }
      if points == [] && bbox.None? {
        return;
      }
      if running {
        return;
      }
      if imagePath.None? {
        events := events + [Error(NoImagePath)];
        return;
      }
      running := true;
      events := events + [Started(imagePath.value, UiCropInfoOf(remoteEnabled, canvas))];
    }

    /**
     * `add_point`: refused without a selected parent or a model; otherwise
     * the point and its label are appended together, and an inference
     * starts when some label is positive and none is running.
     */
    method AddPoint(p: Pt, isPositive: bool, parentSelected: bool, imagePath: Option<string>, remoteEnabled: bool,
                    canvas: Option<Canvas>)
      requires Valid()
      modifies this
      ensures Valid()
      ensures !parentSelected ==>
        events == old(events) + [Error(NoParentSelected)]
        && points == old(points) && labels == old(labels) && running == old(running)
      ensures parentSelected && !hasModel ==>
        events == old(events) + [Error(ModelNotLoaded)]
        && points == old(points) && labels == old(labels) && running == old(running)
      ensures parentSelected && hasModel ==>
        points == old(points) + [p] && labels == old(labels) + [if isPositive then 1 else 0]
      ensures parentSelected && hasModel && (1 !in labels || old(running)) ==>
        events == old(events) && running == old(running)
      ensures parentSelected && hasModel && 1 in labels && !old(running) && imagePath.Some? ==>
        running && events == old(events) + [Started(imagePath.value, UiCropInfoOf(remoteEnabled, canvas))]
      ensures parentSelected && hasModel && 1 in labels && !old(running) && imagePath.None? ==>
        !running && events == old(events) + [Error(NoImagePath)]
      ensures bbox == old(bbox) && hasModel == old(hasModel)
    {
      if !parentSelected {
        events := events + [Error(NoParentSelected)];
        return;
      }
      if !hasModel {
        events := events + [Error(ModelNotLoaded)];
        return;
      }
      points := points + [p];
      labels := labels + [if isPositive then 1 else 0];
      if 1 in labels && !running {
        StartInference(imagePath, remoteEnabled, canvas);
      }
    }

    /** `add_bbox`: the same refusals, then the normalised box is stored and an inference starts when none runs. */
    method AddBbox(x1: real, y1: real, x2: real, y2: real, parentSelected: bool, imagePath: Option<string>,
                   remoteEnabled: bool, canvas: Option<Canvas>)
      requires Valid()
      modifies this
      ensures Valid()
      ensures !parentSelected ==>
        events == old(events) + [Error(NoParentSelected)] && bbox == old(bbox) && running == old(running)
      ensures parentSelected && !hasModel ==>
        events == old(events) + [Error(ModelNotLoaded)] && bbox == old(bbox) && running == old(running)
      ensures parentSelected && hasModel ==>
        bbox == Some(Bounds(MinR(x1, x2), MinR(y1, y2), MaxR(x1, x2), MaxR(y1, y2)))
      ensures parentSelected && hasModel && old(running) ==> events == old(events) && running
      ensures parentSelected && hasModel && !old(running) && imagePath.Some? ==>
        running && events == old(events) + [Started(imagePath.value, UiCropInfoOf(remoteEnabled, canvas))]
      ensures parentSelected && hasModel && !old(running) && imagePath.None? ==>
        !running && events == old(events) + [Error(NoImagePath)]
      ensures points == old(points) && labels == old(labels) && hasModel == old(hasModel)
    {
      if !parentSelected {
        events := events + [Error(NoParentSelected)];
        return;
      }
      if !hasModel {
        events := events + [Error(ModelNotLoaded)];
        return;
      }
      bbox := Some(Bounds(MinR(x1, x2), MinR(y1, y2), MaxR(x1, x2), MaxR(y1, y2)));
      if !running {
        StartInference(imagePath, remoteEnabled, canvas);
      }
    }

    /**
     * `_run_inference` on the prompts buffered when it starts: remap, model
     * call, move back, the completion signal, then the buffer cleared and the
     * running flag dropped. `imageSize` is the image file's (width, height),
     * None when it does not read.
     */
    method RunInference(info: Option<UiCropInfo>, remoteEnabled: bool, imageSize: Option<(int, int)>,
                        predict: (Target, SamPrompt) -> seq<seq<Pt>>) returns (polygons: seq<seq<Pt>>)
      modifies this
      ensures polygons == ResultOf(RemapOf(old(points), old(labels), old(bbox), info, remoteEnabled, imageSize), predict)
      ensures events == old(events) + [Completed(polygons)]
      ensures Valid() && points == [] && labels == [] && bbox == None && !running && hasModel == old(hasModel)
    {
      var run := RemapPrompts(points, labels, bbox, info, remoteEnabled, imageSize);
      polygons := predict(run.target, run.prompt);
      if run.shiftBack.Some? && |polygons| > 0 {
        polygons := ShiftPolygonsBack(polygons, run.shiftBack.value.0, run.shiftBack.value.1);
      }
      events := events + [Completed(polygons)];
      ClearPoints();
      running := false;
    }
  }
}
