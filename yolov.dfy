/**
 * The two-stage YOLO detector of inference/yolov_moon.py. Stage one keeps the
 * confident detections whose centre falls in one of the user's prompt boxes;
 * stage two keeps every confident detection; the answer is the stage-two
 * boxes whose class stage one saw. In remote-sensing mode the image is first
 * cropped to the part the canvas shows, the prompts are moved into the crop
 * and the answers are moved back.
 *
 * The detector itself is a parameter: `stageOne(t)` and `stageTwo(t)` are the
 * detections the loaded model reports on target `t`, and `retry(prompts, t)`
 * is the loader's attempt with the other weight files.
 */
module Yolov {
  import opened Wrappers
  import opened PyNum
  import opened Seqs
  import opened BoundingRect
  import opened DrawJk

  const YoloConfidenceThreshold: real := 0.5

  /** One reported detection: box (x1, y1, x2, y2), confidence and class. */
  datatype Detection = Detection(bbox: Bounds, confidence: real, classId: int)

  predicate Confident(d: Detection)
  {
    d.confidence >= YoloConfidenceThreshold
  }

  /** The centre of `b` lies in `p`, edges included. */
  predicate CentreIn(b: Bounds, p: Bounds)
  {
    p.x1 <= (b.x1 + b.x2) / 2.0 <= p.x2 && p.y1 <= (b.y1 + b.y2) / 2.0 <= p.y2
  }

  predicate InSomePrompt(prompts: seq<Bounds>, d: Detection)
  {
    exists k :: 0 <= k < |prompts| && CentreIn(d.bbox, prompts[k])
  }

  /** `[round(coord, 2) for coord in bbox]`. */
  function RoundBox(b: Bounds): Bounds
  {
    Bounds(Round2(b.x1), Round2(b.y1), Round2(b.x2), Round2(b.y2))
  }

  /** A detection with its box rounded to two decimals. */
  function Rounded(d: Detection): Detection
  {
    d.(bbox := RoundBox(d.bbox))
  }

  /** The rounded box's centre lies within 0.005 of the reported box's centre on each axis. */
  lemma RoundedCentreClose(b: Bounds)
    ensures AbsR((RoundBox(b).x1 + RoundBox(b).x2) / 2.0 - (b.x1 + b.x2) / 2.0) <= 0.005
    ensures AbsR((RoundBox(b).y1 + RoundBox(b).y2) / 2.0 - (b.y1 + b.y2) / 2.0) <= 0.005
  {
    var r := RoundBox(b);
    assert AbsR(r.x1 - b.x1) <= 0.005 && AbsR(r.x2 - b.x2) <= 0.005;
    assert AbsR(r.y1 - b.y1) <= 0.005 && AbsR(r.y2 - b.y2) <= 0.005;
    assert (r.x1 + r.x2) / 2.0 - (b.x1 + b.x2) / 2.0 == ((r.x1 - b.x1) + (r.x2 - b.x2)) / 2.0;
    assert (r.y1 + r.y2) / 2.0 - (b.y1 + b.y2) / 2.0 == ((r.y1 - b.y1) + (r.y2 - b.y2)) / 2.0;
  }

  function RoundedAll(ds: seq<Detection>): (r: seq<Detection>)
    ensures |r| == |ds| && forall i :: 0 <= i < |ds| ==> r[i] == Rounded(ds[i])
  {
    seq(|ds|, i requires 0 <= i < |ds| => Rounded(ds[i]))
  }

  /** The stage-one condition: confident, and the rounded box centred in some prompt. */
  function KeptBy(prompts: seq<Bounds>): Detection -> bool
  {
    (d: Detection) => Confident(d) && InSomePrompt(prompts, Rounded(d))
  }

  /**
   * Stage one's output: the kept detections with their boxes rounded, or the
   * retry's detections when none are kept and the retry reports success.
   */
  function StageOneOf(prompts: seq<Bounds>, boxes: seq<Detection>, retry: (bool, seq<Detection>)): seq<Detection>
  {
    var kept := RoundedAll(Filter(KeptBy(prompts), boxes));
    if kept == [] && retry.0 then retry.1 else kept
  }

  /**
   * Every stage-one answer is a confident reported detection, rounded, whose
   * rounded centre lies in some prompt, or comes from a successful retry after
   * none was kept.
   */
  lemma StageOneSound(prompts: seq<Bounds>, boxes: seq<Detection>, retry: (bool, seq<Detection>), d: Detection)
    requires d in StageOneOf(prompts, boxes, retry)
    ensures (exists d0 :: d0 in boxes && Confident(d0) && InSomePrompt(prompts, d) && d == Rounded(d0))
         || (Filter(KeptBy(prompts), boxes) == [] && retry.0 && d in retry.1)
  {
    var kept := Filter(KeptBy(prompts), boxes);
    if d in RoundedAll(kept) {
      var i :| 0 <= i < |kept| && RoundedAll(kept)[i] == d;
      FilterMembership(KeptBy(prompts), boxes, kept[i]);
    }
  }

  /** Every confident detection whose rounded centre lies in a prompt is kept, rounded. */
  lemma StageOneComplete(prompts: seq<Bounds>, boxes: seq<Detection>, retry: (bool, seq<Detection>), d: Detection)
    requires d in boxes && Confident(d) && InSomePrompt(prompts, Rounded(d))
    ensures Rounded(d) in StageOneOf(prompts, boxes, retry)
  {
    var kept := Filter(KeptBy(prompts), boxes);
    assert KeptBy(prompts)(d);
    FilterMembership(KeptBy(prompts), boxes, d);
    RoundedMember(kept, d);
    assert RoundedAll(kept) != [];
  }

  lemma RoundedMember(s: seq<Detection>, d: Detection)
    requires d in s
    ensures Rounded(d) in RoundedAll(s)
  {
    var i :| 0 <= i < |s| && s[i] == d;
    assert RoundedAll(s)[i] == Rounded(d);
  }

  lemma RoundedAllSnoc(s: seq<Detection>, x: Detection)
    ensures RoundedAll(s + [x]) == RoundedAll(s) + [Rounded(x)]
  {
    var a, b := RoundedAll(s + [x]), RoundedAll(s) + [Rounded(x)];
    assert |a| == |b|;
    forall i | 0 <= i < |a|
      ensures a[i] == b[i]
    {
      if i < |s| {
        assert (s + [x])[i] == s[i];
      }
    }
  }

  lemma StageOneSnoc(prompts: seq<Bounds>, s: seq<Detection>, box: Detection)
    ensures RoundedAll(Filter(KeptBy(prompts), s + [box])) ==
      RoundedAll(Filter(KeptBy(prompts), s)) + (if KeptBy(prompts)(box) then [Rounded(box)] else [])
  {
    var p := KeptBy(prompts);
    FilterSnoc(p, s, box);
    if p(box) {
      RoundedAllSnoc(Filter(p, s), box);
    }
  }

  /** `yolov_one`'s two outcomes: the empty list of an unloaded model, or the list and its flag. */
  datatype StageOne = NotLoaded | Ran(output: seq<Detection>, success: bool)

  /** One pass of `yolov_one`'s inner loop: a confident box is kept at the first prompt holding its centre. */
  method KeepBox(prompts: seq<Bounds>, box: Detection) returns (hit: bool)
    ensures hit == KeptBy(prompts)(box)
  {
    hit := false;
    if box.confidence >= YoloConfidenceThreshold {
      var bbox := RoundBox(box.bbox);
      for j := 0 to |prompts|
        invariant !hit
        invariant forall k :: 0 <= k < j ==> !CentreIn(bbox, prompts[k])
      {
        if CentreIn(bbox, prompts[j]) {
          hit := true;
          break;
        }
      }
    }
  }

  /** One pass of the loop of `yolov_one` over the reported boxes: a kept box is added once, rounded. */
  method KeepStep(prompts: seq<Bounds>, done: seq<Detection>, box: Detection, output: seq<Detection>)
    returns (next: seq<Detection>)
    requires output == RoundedAll(Filter(KeptBy(prompts), done))
    ensures next == RoundedAll(Filter(KeptBy(prompts), done + [box]))
  {
    next := output;
    var hit := KeepBox(prompts, box);
    if hit {
      next := output + [Rounded(box)];
    }
    StageOneSnoc(prompts, done, box);
  }

  /** The loop of `yolov_one` over the reported boxes. */
  method KeepAll(prompts: seq<Bounds>, boxes: seq<Detection>) returns (output: seq<Detection>)
    ensures output == RoundedAll(Filter(KeptBy(prompts), boxes))
  {
    output := [];
    for i := 0 to |boxes|
      invariant output == RoundedAll(Filter(KeptBy(prompts), boxes[..i]))
    {
      output := KeepStep(prompts, boxes[..i], boxes[i], output);
      assert boxes[..i + 1] == boxes[..i] + [boxes[i]];
    }
    assert boxes[..|boxes|] == boxes;
  }

  /** `yolov_one`: the kept boxes, else the retry's answer when it succeeds. */
  method YolovOne(modelLoaded: bool, prompts: seq<Bounds>, boxes: seq<Detection>,
                  retry: (bool, seq<Detection>)) returns (r: StageOne)
    ensures !modelLoaded <==> r.NotLoaded?
    ensures r.Ran? ==> r.output == StageOneOf(prompts, boxes, retry) && (r.success <==> |r.output| > 0)
  {
    if !modelLoaded {
      return NotLoaded;
    }
    var output := KeepAll(prompts, boxes);
    if output == [] && retry.0 {
      output := retry.1;
    }
    return Ran(output, output != []);
  }

  /** `yolov_two`: every confident detection, or nothing from an unloaded model. */
  method YolovTwo(modelLoaded: bool, boxes: seq<Detection>) returns (output: seq<Detection>)
    ensures output == if modelLoaded then Filter(Confident, boxes) else []
  {
    output := [];
    if !modelLoaded {
      return;
    }
    for i := 0 to |boxes|
      invariant output == Filter(Confident, boxes[..i])
    {
      if boxes[i].confidence >= YoloConfidenceThreshold {
        output := output + [boxes[i]];
      }
      FilterSnoc(Confident, boxes[..i], boxes[i]);
      assert boxes[..i + 1] == boxes[..i] + [boxes[i]];
    }
    assert boxes[..|boxes|] == boxes;
  }

  /** The classes stage one reported. */
  function ClassIds(one: seq<Detection>): set<int>
  {
    set k | 0 <= k < |one| :: one[k].classId
  }

  function HasClassIn(ids: set<int>): Detection -> bool
  {
    (d: Detection) => d.classId in ids
  }

  /** `filter_results_by_class`: the stage-two detections of a class stage one reported, in order. */
  method FilterResultsByClass(one: seq<Detection>, two: seq<Detection>) returns (filtered: seq<Detection>)
    ensures filtered == Filter(HasClassIn(ClassIds(one)), two)
    ensures one == [] ==> filtered == []
  {
    var ids: set<int> := {};
    for i := 0 to |one|
      invariant ids == set k | 0 <= k < i :: one[k].classId
    {
      ids := ids + {one[i].classId};
    }
    if ids == {} {
      FilterNone(HasClassIn(ids), two);
      return [];
    }
    filtered := [];
    for i := 0 to |two|
      invariant filtered == Filter(HasClassIn(ids), two[..i])
    {
      if two[i].classId in ids {
        filtered := filtered + [two[i]];
      }
      FilterSnoc(HasClassIn(ids), two[..i], two[i]);
      assert two[..i + 1] == two[..i] + [two[i]];
    }
    assert two[..|two|] == two;
  }

  /** A detection survives the class filter exactly when stage two reports it and stage one saw its class. */
  lemma ClassFilterMembership(one: seq<Detection>, two: seq<Detection>, d: Detection)
    ensures d in Filter(HasClassIn(ClassIds(one)), two) <==>
      d in two && exists k :: 0 <= k < |one| && one[k].classId == d.classId
  {
    FilterMembership(HasClassIn(ClassIds(one)), two, d);
  }

  /** The file-level crop: its offset in the image and its size. */
  datatype Window = Window(shiftX: int, shiftY: int, w: int, h: int)

  /**
   * The crop window for a visible rectangle of an image of `imgW` x `imgH`
   * pixels: the offset clamped into the image, the size cut at the image's
   * edge; None when nothing is left.
   */
  function CropWindow(rect: IRect, imgW: int, imgH: int): (c: Option<Window>)
    ensures c.Some? ==> 0 <= c.value.shiftX && 0 < c.value.w && c.value.shiftX + c.value.w <= imgW
    ensures c.Some? ==> 0 <= c.value.shiftY && 0 < c.value.h && c.value.shiftY + c.value.h <= imgH
    ensures c.Some? ==> c.value.w <= rect.w && c.value.h <= rect.h
  {
    var sx := MaxI(0, MinI(rect.x, imgW - 1));
    var sy := MaxI(0, MinI(rect.y, imgH - 1));
    var cw := MinI(rect.w, imgW - sx);
    var ch := MinI(rect.h, imgH - sy);
    if cw > 0 && ch > 0 then Some(Window(sx, sy, cw, ch)) else None
  }

  /** A visible rectangle lying inside the image is cropped exactly. */
  lemma CropWindowOfInsideRect(rect: IRect, imgW: int, imgH: int)
    requires 0 <= rect.x && 0 < rect.w && rect.x + rect.w <= imgW
    requires 0 <= rect.y && 0 < rect.h && rect.y + rect.h <= imgH
    ensures CropWindow(rect, imgW, imgH) == Some(Window(rect.x, rect.y, rect.w, rect.h))
  {
  }

  /** What the canvas offers: its pixmap (None when missing or null) and the viewport's scene rectangle. */
  datatype Canvas = Canvas(pixmap: Option<Pixmap>, sceneRect: IRect)

  /**
   * Whether, and where, the image file is cropped: remote sensing is on, a
   * canvas with a pixmap exists, a visible rectangle exists and does not
   * cover the whole pixmap, and the file reads with size `imageSize`
   * (width, height).
   */
  function CropPlan(remoteEnabled: bool, canvas: Option<Canvas>, imageSize: Option<(int, int)>): (plan: Option<Window>)
    ensures plan.Some? ==> remoteEnabled && canvas.Some? && canvas.value.pixmap.Some? && imageSize.Some?
  {
    if !remoteEnabled || canvas.None? || canvas.value.pixmap.None? then None
    else
      var pm := canvas.value.pixmap.value;
      var rect := VisibleImageRect(canvas.value.pixmap, canvas.value.sceneRect);
      if rect.None? || (rect.value.w >= pm.width && rect.value.h >= pm.height) then None
      else if imageSize.None? then None
      else CropWindow(rect.value, imageSize.value.0, imageSize.value.1)
  }

  /** A visible rectangle that covers the whole pixmap is never cropped. */
  lemma FullViewNotCropped(canvas: Canvas, imageSize: Option<(int, int)>)
    requires canvas.pixmap.Some?
    requires var r := VisibleImageRect(canvas.pixmap, canvas.sceneRect);
      r.Some? && r.value.w >= canvas.pixmap.value.width && r.value.h >= canvas.pixmap.value.height
    ensures CropPlan(true, Some(canvas), imageSize) == None
  {
  }

  /** A box lies within [0, w] x [0, h] and has positive size. */
  predicate InsideCrop(b: Bounds, c: Window)
  {
    0.0 <= b.x1 < b.x2 <= c.w as real && 0.0 <= b.y1 < b.y2 <= c.h as real
  }

  /** A prompt moved into crop coordinates and cut at the crop's edges; None when nothing is left. */
  function ClipPrompt(b: Bounds, c: Window): (r: Option<Bounds>)
    ensures r.Some? ==> InsideCrop(r.value, c)
  {
    var nx1 := MaxR(0.0, b.x1 - c.shiftX as real);
    var ny1 := MaxR(0.0, b.y1 - c.shiftY as real);
    var nx2 := MinR(c.w as real, b.x2 - c.shiftX as real);
    var ny2 := MinR(c.h as real, b.y2 - c.shiftY as real);
    if nx2 > nx1 && ny2 > ny1 then Some(Bounds(nx1, ny1, nx2, ny2)) else None
  }

  /** The clipped prompts that are left, in order. */
  function ClippedAll(bboxes: seq<Bounds>, c: Window): (r: seq<Bounds>)
    ensures |r| <= |bboxes|
    ensures forall i :: 0 <= i < |r| ==> InsideCrop(r[i], c)
  {
    if |bboxes| == 0 then []
    else
      var last := ClipPrompt(bboxes[|bboxes| - 1], c);
      ClippedAll(bboxes[..|bboxes| - 1], c) + (if last.Some? then [last.value] else [])
  }

  /** The loop that moves the prompts into the crop. */
  method ClipPrompts(bboxes: seq<Bounds>, c: Window) returns (adjusted: seq<Bounds>)
    ensures adjusted == ClippedAll(bboxes, c)
  {
    adjusted := [];
    for i := 0 to |bboxes|
      invariant adjusted == ClippedAll(bboxes[..i], c)
    {
      var b := ClipPrompt(bboxes[i], c);
      if b.Some? {
        adjusted := adjusted + [b.value];
      }
      assert bboxes[..i + 1][..i] == bboxes[..i];
    }
    assert bboxes[..|bboxes|] == bboxes;
  }

  function Shifted(b: Bounds, dx: real, dy: real): Bounds
  {
    Bounds(b.x1 + dx, b.y1 + dy, b.x2 + dx, b.y2 + dy)
  }

  /** Every answer box moved back from crop to image coordinates. */
  function ShiftAll(list: seq<Bounds>, c: Window): (r: seq<Bounds>)
    ensures |r| == |list|
    ensures forall i :: 0 <= i < |list| ==> r[i] == Shifted(list[i], c.shiftX as real, c.shiftY as real)
  {
    seq(|list|, i requires 0 <= i < |list| => Shifted(list[i], c.shiftX as real, c.shiftY as real))
  }

  /** The loop that maps the answers back onto the original image. */
  method ShiftBack(list: seq<Bounds>, c: Window) returns (adjusted: seq<Bounds>)
    ensures adjusted == ShiftAll(list, c)
  {
    adjusted := [];
    for i := 0 to |list|
      invariant adjusted == ShiftAll(list[..i], c)
    {
      adjusted := adjusted + [Shifted(list[i], c.shiftX as real, c.shiftY as real)];
    }
    assert list[..|list|] == list;
  }

  /** A prompt lying within the crop window survives clipping, and shifting it back restores it. */
  lemma ClipThenShiftBack(b: Bounds, c: Window)
    requires c.shiftX as real <= b.x1 < b.x2 <= (c.shiftX + c.w) as real
    requires c.shiftY as real <= b.y1 < b.y2 <= (c.shiftY + c.h) as real
    ensures ClipPrompt(b, c).Some?
    ensures Shifted(ClipPrompt(b, c).value, c.shiftX as real, c.shiftY as real) == b
  {
  }

  /** A box inside a crop window of an image is, moved back, inside the image. */
  lemma ShiftedInsideImage(b: Bounds, c: Window, imgW: int, imgH: int)
    requires InsideCrop(b, c)
    requires 0 <= c.shiftX && c.shiftX + c.w <= imgW && 0 <= c.shiftY && c.shiftY + c.h <= imgH
    ensures var s := Shifted(b, c.shiftX as real, c.shiftY as real);
      0.0 <= s.x1 < s.x2 <= imgW as real && 0.0 <= s.y1 < s.y2 <= imgH as real
  {
  }

  /** The image the detector runs on. */
  datatype Target = WholeImage | CroppedImage(window: Window)

  function BoxesOf(ds: seq<Detection>): (r: seq<Bounds>)
    ensures |r| == |ds| && forall i :: 0 <= i < |ds| ==> r[i] == ds[i].bbox
  {
    seq(|ds|, i requires 0 <= i < |ds| => ds[i].bbox)
  }

  datatype Inference = Inference(boxes: seq<Bounds>, success: bool)

  /**
   * What `yolov_inference` answers. When a crop was planned but no prompt
   * survives clipping, the prompts are left as they were and nothing is
   * moved back, yet the detector still runs on the cropped image.
   */
  function InferenceOf(modelLoaded: bool, bboxes: seq<Bounds>, plan: Option<Window>,
                       stageOne: Target -> seq<Detection>, retry: (seq<Bounds>, Target) -> (bool, seq<Detection>),
                       stageTwo: Target -> seq<Detection>): Inference
  {
    if !modelLoaded then Inference([], false)
    else
      var target := if plan.Some? then CroppedImage(plan.value) else WholeImage;
      var clipped := if plan.Some? then ClippedAll(bboxes, plan.value) else [];
      var useCrop := plan.Some? && clipped != [];
      var prompts := if useCrop then clipped else bboxes;
      var one := StageOneOf(prompts, stageOne(target), retry(prompts, target));
      if one == [] then Inference([], false)
      else
        var list := BoxesOf(Filter(HasClassIn(ClassIds(one)), Filter(Confident, stageTwo(target))));
        var out := if useCrop then ShiftAll(list, plan.value) else list;
        Inference(out, out != [])
  }

  /** `yolov_inference`, with the crop decision taken from the canvas and the image file's size. */
  method YolovInference(modelLoaded: bool, bboxes: seq<Bounds>, remoteEnabled: bool, canvas: Option<Canvas>,
                        imageSize: Option<(int, int)>, stageOne: Target -> seq<Detection>,
                        retry: (seq<Bounds>, Target) -> (bool, seq<Detection>),
                        stageTwo: Target -> seq<Detection>) returns (boxes: seq<Bounds>, success: bool)
    ensures Inference(boxes, success)
      == InferenceOf(modelLoaded, bboxes, CropPlan(remoteEnabled, canvas, imageSize), stageOne, retry, stageTwo)
  {
    if !modelLoaded {
      return [], false;
    }
    var plan := CropPlan(remoteEnabled, canvas, imageSize);
    var prompts := bboxes;
    var target := WholeImage;
    var useCrop := false;
    if plan.Some? {
      target := CroppedImage(plan.value);
      var adjusted := ClipPrompts(bboxes, plan.value);
      if adjusted != [] {
        prompts := adjusted;
        useCrop := true;
      }
    }
    var one := YolovOne(modelLoaded, prompts, stageOne(target), retry(prompts, target));
    if !one.success {
      return [], false;
    }
    var two := YolovTwo(modelLoaded, stageTwo(target));
    var filtered := FilterResultsByClass(one.output, two);
    var list := BoxesOf(filtered);
    if useCrop {
      boxes := ShiftBack(list, plan.value);
      return boxes, boxes != [];
    }
    return list, list != [];
  }

  /** The flag says exactly whether any box came back. */
  lemma InferenceSuccessIffBoxes(modelLoaded: bool, bboxes: seq<Bounds>, plan: Option<Window>,
                                 stageOne: Target -> seq<Detection>,
                                 retry: (seq<Bounds>, Target) -> (bool, seq<Detection>),
                                 stageTwo: Target -> seq<Detection>)
    ensures var r := InferenceOf(modelLoaded, bboxes, plan, stageOne, retry, stageTwo);
      r.success <==> |r.boxes| > 0
  {
  }

  /**
   * Without a crop, every answer is the box of a confident stage-two
   * detection whose class stage one reported.
   */
  lemma InferenceBoxesFromStageTwo(modelLoaded: bool, bboxes: seq<Bounds>,
                                   stageOne: Target -> seq<Detection>,
                                   retry: (seq<Bounds>, Target) -> (bool, seq<Detection>),
                                   stageTwo: Target -> seq<Detection>, i: int)
    requires var r := InferenceOf(modelLoaded, bboxes, None, stageOne, retry, stageTwo); 0 <= i < |r.boxes|
    ensures var r := InferenceOf(modelLoaded, bboxes, None, stageOne, retry, stageTwo);
      var one := StageOneOf(bboxes, stageOne(WholeImage), retry(bboxes, WholeImage));
      exists d :: d in stageTwo(WholeImage) && Confident(d) && d.bbox == r.boxes[i]
        && exists k :: 0 <= k < |one| && one[k].classId == d.classId
  {
    var one := StageOneOf(bboxes, stageOne(WholeImage), retry(bboxes, WholeImage));
    var confident := Filter(Confident, stageTwo(WholeImage));
    var filtered := Filter(HasClassIn(ClassIds(one)), confident);
    var d := filtered[i];
    ClassFilterMembership(one, confident, d);
    FilterMembership(Confident, stageTwo(WholeImage), d);
  }

  /**
   * With a crop whose prompts survive, every answer is a confident stage-two
   * box on the crop, moved back by the crop's offset.
   */
  lemma InferenceBoxesMovedBack(modelLoaded: bool, bboxes: seq<Bounds>, c: Window,
                                stageOne: Target -> seq<Detection>,
                                retry: (seq<Bounds>, Target) -> (bool, seq<Detection>),
                                stageTwo: Target -> seq<Detection>, i: int)
    requires ClippedAll(bboxes, c) != []
    requires var r := InferenceOf(modelLoaded, bboxes, Some(c), stageOne, retry, stageTwo); 0 <= i < |r.boxes|
    ensures var r := InferenceOf(modelLoaded, bboxes, Some(c), stageOne, retry, stageTwo);
      exists d :: d in stageTwo(CroppedImage(c)) && Confident(d)
        && r.boxes[i] == Shifted(d.bbox, c.shiftX as real, c.shiftY as real)
  {
    var t := CroppedImage(c);
    var prompts := ClippedAll(bboxes, c);
    var one := StageOneOf(prompts, stageOne(t), retry(prompts, t));
    var confident := Filter(Confident, stageTwo(t));
    var filtered := Filter(HasClassIn(ClassIds(one)), confident);
    var d := filtered[i];
    ClassFilterMembership(one, confident, d);
    FilterMembership(Confident, stageTwo(t), d);
  }

  /**
   * A crop whose prompts all fall outside it is abandoned only halfway: the
   * detector still runs on the cropped image, with the original prompts, and
   * the answers stay in crop coordinates.
   */
  lemma AbandonedCropStillRunsOnCrop(modelLoaded: bool, bboxes: seq<Bounds>, c: Window,
                                     stageOne: Target -> seq<Detection>,
                                     retry: (seq<Bounds>, Target) -> (bool, seq<Detection>),
                                     stageTwo: Target -> seq<Detection>)
    requires modelLoaded && ClippedAll(bboxes, c) == []
    ensures var one := StageOneOf(bboxes, stageOne(CroppedImage(c)), retry(bboxes, CroppedImage(c)));
      InferenceOf(modelLoaded, bboxes, Some(c), stageOne, retry, stageTwo).boxes
        == if one == [] then []
           else BoxesOf(Filter(HasClassIn(ClassIds(one)), Filter(Confident, stageTwo(CroppedImage(c)))))
  {
  }
}
