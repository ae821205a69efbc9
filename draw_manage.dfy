/**
 * `LabelDrawManager` of app_ui/label_draw_manage.py: the mouse gestures that
 * draw labels by hand (rectangle, point, line, polygon and polygon-mask
 * anchors, circle), and the rectangles it adds from the boxes of an
 * inference result.
 *
 * The canvas is what the handlers read from the view: the UI lock, whether
 * an image item exists, the size of a non-null pixmap, the polygon mode and
 * the current image key. Positions arrive in scene coordinates. The
 * graphics items that preview a gesture are not part of the model.
 */
module DrawManage {
  import opened Wrappers
  import opened PyNum
  import opened Labels
  import opened LabelList

  /** A rectangle needs both sides longer than this. */
  const MinRectSide := 5
  /** A line needs |dx| + |dy| of at least this. */
  const MinLineLength := 3
  /** A polygon closes when its last anchor is nearer than 10 to the first; squared. */
  const SnapDistanceSquared := 100.0
  const MinCircleRadius := 3.0

  datatype Size = Size(width: nat, height: nat)

  datatype Canvas = Canvas(uiLocked: bool, hasImage: bool, pixmap: Option<Size>, polygonMode: bool,
                           imageInfo: Option<string>)

  datatype Button = LeftButton | RightButton | OtherButton

  /** A QPoint. */
  datatype IPt = IPt(x: int, y: int)

  /** QPoint truthiness: the null point (0, 0) is false. */
  predicate Nonnull(p: IPt)
  {
    p != IPt(0, 0)
  }

  /** `QPoint(int(x), int(y))` of a scene position. */
  function Pixel(p: Pt): IPt
  {
    IPt(Trunc(p.x), Trunc(p.y))
  }

  /** The rectangle press clamps the truncated start into [0, width] x [0, height]. */
  function OnImage(p: IPt, pixmap: Option<Size>): (r: IPt)
    ensures pixmap.Some? ==> 0 <= r.x <= pixmap.value.width && 0 <= r.y <= pixmap.value.height
    ensures pixmap.Some? && 0 <= p.x <= pixmap.value.width && 0 <= p.y <= pixmap.value.height ==> r == p
    ensures pixmap.None? ==> r == p
  {
    match pixmap
    case None => p
    case Some(s) => IPt(ClampI(p.x, 0, s.width), ClampI(p.y, 0, s.height))
  }

  /** Python `int()` of a value in [0, hi] is a whole number in [0, hi]. */
  lemma TruncInRange(v: real, hi: real)
    requires 0.0 <= v <= hi
    ensures 0.0 <= Trunc(v) as real <= hi
  {
  }

  /**
   * The rectangle move and release and the anchor presses clamp the position
   * into [0, width] x [0, height] and then truncate it; without a pixmap the
   * position is kept as it is.
   */
  function ScenePoint(p: Pt, pixmap: Option<Size>): (r: Pt)
    ensures pixmap.Some? ==> 0.0 <= r.x <= pixmap.value.width as real && 0.0 <= r.y <= pixmap.value.height as real
    ensures pixmap.None? ==> r == p
  {
    match pixmap
    case None => p
    case Some(s) =>
      var x := ClampR(p.x, 0.0, s.width as real);
      var y := ClampR(p.y, 0.0, s.height as real);
      TruncInRange(x, s.width as real);
      TruncInRange(y, s.height as real);
      Pt(Trunc(x) as real, Trunc(y) as real)
  }

  /** The point, line and circle handlers: `max(0, min(v, size - 1))` of the truncated position. */
  function InPixels(p: IPt, pixmap: Option<Size>): (r: IPt)
    ensures pixmap.Some? ==> 0 <= r.x && 0 <= r.y
    ensures pixmap.Some? && pixmap.value.width >= 1 ==> r.x < pixmap.value.width
    ensures pixmap.Some? && pixmap.value.height >= 1 ==> r.y < pixmap.value.height
    ensures pixmap.None? ==> r == p
  {
    match pixmap
    case None => p
    case Some(s) => IPt(MaxI(0, MinI(p.x, s.width - 1)), MaxI(0, MinI(p.y, s.height - 1)))
  }

  /** The handler state: the rectangle, line and circle gestures and the two anchor buffers. */
  datatype Gesture = Gesture(
    drawing: bool,
    rectStart: Option<IPt>,
    endPoint: Option<IPt>,
    drawingLine: bool,
    lineStart: Option<IPt>,
    polygonPoints: seq<Pt>,
    polygonMaskPoints: seq<Pt>,
    drawingCircle: bool,
    circleCenter: Option<IPt>)

  /** A gesture in progress knows where it started. */
  predicate Settled(g: Gesture)
  {
    (g.drawing ==> g.rectStart.Some?) && (g.drawingLine ==> g.lineStart.Some?) &&
    (g.drawingCircle ==> g.circleCenter.Some?)
  }

  /** A `create_child_label` call: the image key and the keyword arguments. */
  datatype Create = Create(imageInfo: string, request: ChildRequest)

  /** What a handler returns, the gesture state after it, and the label it asks for. */
  datatype Outcome = Outcome(handled: bool, gesture: Gesture, create: Option<Create>)

  /** The parents after the label a handler asked for, if any. */
  function Applied(ls: seq<Parent>, create: Option<Create>): seq<Parent>
  {
    if create.None? then ls else CreateFor(ls, create.value.imageInfo, create.value.request).0
  }

  /** The keyword arguments of a hand-drawn label. */
  function ManualRequest(points: seq<real>, shape: Shape, polygon: seq<Pt>): (q: ChildRequest)
    ensures q.points == Some(points) && q.shape == shape && q.mode == Manual && q.polygonPoints == polygon
  {
    ChildRequest(None, None, None, None, Manual, shape, polygon, 0.0, Some(points), false)
  }

  /** Every `_create_label_*` helper first needs a pixmap and a truthy image key. */
  function CreateIfImage(c: Canvas, q: ChildRequest): (r: Option<Create>)
    ensures r.Some? <==> c.pixmap.Some? && Truthy(c.imageInfo)
    ensures r.Some? ==> r.value == Create(c.imageInfo.value, q)
  {
    if c.pixmap.Some? && Truthy(c.imageInfo) then Some(Create(c.imageInfo.value, q)) else None
  }

  // ---------------------------------------------------------------------
  // Rectangle
  // ---------------------------------------------------------------------

  /** `_handle_mouse_press`. */
  function RectPress(g: Gesture, c: Canvas, ls: seq<Parent>, b: Button, pos: Pt): Outcome
  {
    if c.uiLocked || b != LeftButton || !c.hasImage || FirstSelected(ls).None? then Outcome(false, g, None)
    else Outcome(true, g.(drawing := true, rectStart := Some(OnImage(Pixel(pos), c.pixmap))), None)
  }

  /** The (x, y, w, h) of the dashed rectangle between the start and the current corner. */
  function RectPreview(start: IPt, end: IPt): (int, int, nat, nat)
  {
    (MinI(start.x, end.x), MinI(start.y, end.y), AbsI(end.x - start.x), AbsI(end.y - start.y))
  }

  /** `_handle_mouse_move`: the preview shown while a rectangle is drawn, if any. */
  function RectMove(g: Gesture, c: Canvas, pos: Pt): Option<(int, int, nat, nat)>
    requires Settled(g)
  {
    if c.uiLocked || !g.drawing || !c.hasImage then None
    else Some(RectPreview(g.rectStart.value, Pixel(ScenePoint(pos, c.pixmap))))
  }

  /** The four corners clockwise from the start corner, as `_create_label_from_rect` lists them. */
  function RectRequest(a: IPt, b: IPt): ChildRequest
  {
    ManualRequest(RectCorners(a.x as real, a.y as real, b.x as real, b.y as real), Rectangle, [])
  }

  /** `_handle_mouse_release`. */
  function RectRelease(g: Gesture, c: Canvas, pos: Pt): Outcome
    requires Settled(g)
  {
    if c.uiLocked || !g.drawing || !c.hasImage then Outcome(false, g, None)
    else
      var start := g.rectStart.value;
      var end := Pixel(ScenePoint(pos, c.pixmap));
      var g2 := g.(drawing := false, endPoint := Some(end));
      if AbsI(end.x - start.x) > MinRectSide && AbsI(end.y - start.y) > MinRectSide then
        Outcome(true, g2, CreateIfImage(c, RectRequest(start, end)))
      else Outcome(true, g2, None)
  }

  // ---------------------------------------------------------------------
  // Point and line
  // ---------------------------------------------------------------------

  /**
   * `point_huabi` on a press. The point, line and circle handlers test a
   * lock flag of the manager itself, which nothing sets, so the UI lock
   * does not stop them.
   */
  function PointPress(g: Gesture, c: Canvas, ls: seq<Parent>, b: Button, pos: Pt): Outcome
  {
    if b != LeftButton || !c.hasImage || FirstSelected(ls).None? then Outcome(false, g, None)
    else
      var p := InPixels(Pixel(pos), c.pixmap);
      Outcome(true, g, CreateIfImage(c, ManualRequest([p.x as real, p.y as real], Point, [])))
  }

  /** `line_huabi` on a press: a start at the null point (0, 0) is falsy and starts nothing. */
  function LinePress(g: Gesture, c: Canvas, ls: seq<Parent>, b: Button, pos: Pt): Outcome
  {
    if b != LeftButton || !c.hasImage || FirstSelected(ls).None? then Outcome(false, g, None)
    else
      var raw := Pixel(pos);
      var start := if c.pixmap.Some? && Nonnull(raw) then InPixels(raw, c.pixmap) else raw;
      var g2 := g.(lineStart := Some(start));
      if Nonnull(start) then Outcome(true, g2.(drawingLine := true), None)
      else Outcome(false, g2, None)
  }

  function LineRequest(a: IPt, b: IPt): ChildRequest
  {
    ManualRequest([a.x as real, a.y as real, b.x as real, b.y as real], Line, [])
  }

  /** `line_huabi` on a release. */
  function LineRelease(g: Gesture, c: Canvas, pos: Pt): Outcome
    requires Settled(g)
  {
    if !g.drawingLine || c.pixmap.None? then Outcome(false, g, None)
    else
      var start := g.lineStart.value;
      var end := InPixels(Pixel(pos), c.pixmap);
      var g2 := g.(drawingLine := false, lineStart := None);
      if AbsI(end.x - start.x) + AbsI(end.y - start.y) >= MinLineLength then
        Outcome(true, g2, CreateIfImage(c, LineRequest(start, end)))
      else Outcome(true, g2, None)
  }

  // ---------------------------------------------------------------------
  // Polygon and polygon-mask anchors
  // ---------------------------------------------------------------------

  /** The last anchor is within the closing distance of the first. */
  predicate Closes(first: Pt, last: Pt)
  {
    (first.x - last.x) * (first.x - last.x) + (first.y - last.y) * (first.y - last.y) < SnapDistanceSquared
  }

  /** The anchors as the flat x, y list a polygon child stores. */
  function FlatPoints(ps: seq<Pt>): (r: seq<real>)
    ensures |r| == 2 * |ps|
  {
    if |ps| == 0 then [] else FlatPoints(ps[..|ps| - 1]) + [ps[|ps| - 1].x, ps[|ps| - 1].y]
  }

  datatype AnchorOutcome = AnchorOutcome(handled: bool, anchors: seq<Pt>, create: Option<Create>)

  /**
   * `_handle_polygon_press` and `_handle_polygon_mask_press` on their anchor
   * buffer: a left press appends the clamped position and, once the polygon
   * closes, asks for the label and empties the buffer when a child was made;
   * a right press removes the last anchor.
   */
  function AnchorPress(anchors: seq<Pt>, shape: Shape, c: Canvas, ls: seq<Parent>, b: Button, pos: Pt): AnchorOutcome
  {
    if c.uiLocked || !c.hasImage || FirstSelected(ls).None? then AnchorOutcome(false, anchors, None)
    else if b == LeftButton then
      var pts := anchors + [ScenePoint(pos, c.pixmap)];
      if |pts| >= 3 && Closes(pts[0], pts[|pts| - 1]) then
        var create := CreateIfImage(c, ManualRequest(FlatPoints(pts), shape, pts));
        AnchorOutcome(true, if create.Some? then [] else pts, create)
      else AnchorOutcome(true, pts, None)
    else if b == RightButton && |anchors| > 0 then AnchorOutcome(true, anchors[..|anchors| - 1], None)
    else AnchorOutcome(false, anchors, None)
  }

  // ---------------------------------------------------------------------
  // Circle
  // ---------------------------------------------------------------------

  function SquaredDistance(a: IPt, b: IPt): nat
  {
    (b.x - a.x) * (b.x - a.x) + (b.y - a.y) * (b.y - a.y)
  }

  function CircleRequest(centre: IPt, radius: real): ChildRequest
  {
    ManualRequest([centre.x as real, centre.y as real, radius], Circle, [])
  }

  /**
   * `circle_huabi` on a press: the first left press sets the centre, the
   * second measures the radius with `sqrt`, asks for the circle when it is
   * long enough and resets; a right press while drawing cancels.
   */
  function CirclePress(g: Gesture, c: Canvas, ls: seq<Parent>, b: Button, pos: Pt, sqrt: real -> real): Outcome
    requires Settled(g)
  {
    if b == LeftButton && c.hasImage then
      if FirstSelected(ls).None? then Outcome(false, g, None)
      else
        var click := InPixels(Pixel(pos), c.pixmap);
        if !g.drawingCircle then Outcome(true, g.(drawingCircle := true, circleCenter := Some(click)), None)
        else
          var centre := g.circleCenter.value;
          var radius := sqrt(SquaredDistance(centre, click) as real);
          var g2 := g.(drawingCircle := false, circleCenter := None);
          if radius >= MinCircleRadius then Outcome(true, g2, CreateIfImage(c, CircleRequest(centre, radius)))
          else Outcome(true, g2, None)
    else if b == RightButton && g.drawingCircle then
      Outcome(true, g.(drawingCircle := false, circleCenter := None), None)
    else Outcome(false, g, None)
  }

  // ---------------------------------------------------------------------
  // Boxes from an inference result
  // ---------------------------------------------------------------------

  /** The `bbox` value of a detection: a list or tuple of numbers, or something else. */
  datatype BoxValue = BoxList(values: seq<real>) | OtherBox

  /** An element of a detection list: a dict with a `bbox`, a dict without one, or not a dict. */
  datatype Detection = WithBox(bbox: BoxValue) | WithoutBox | NotDict

  /** The `filtered_results` entry of a result dict. */
  datatype Filtered = FilteredList(dets: seq<Detection>) | NotAList

  /** The `yolov_result` entry: a dict with or without `filtered_results`, or not a dict. */
  datatype YolovField = YolovDict(filtered: Option<seq<Detection>>) | NotADict

  datatype InferenceResult =
    | NoResult
    | ListResult(dets: seq<Detection>)
    | DictResult(status: Option<string>, error: bool, filtered: Option<Filtered>, yolov: Option<YolovField>,
                 otherKeys: bool)
    | OtherResult(truthy: bool)

  predicate ResultTruthy(r: InferenceResult)
  {
    match r
    case NoResult => false
    case ListResult(dets) => |dets| > 0
    case DictResult(status, error, filtered, yolov, otherKeys) =>
      status.Some? || error || filtered.Some? || yolov.Some? || otherKeys
    case OtherResult(truthy) => truthy
  }

  /** A result still on its way, or one that reports an error: the handler returns at once. */
  predicate Ignored(r: InferenceResult)
  {
    !ResultTruthy(r) || (r.DictResult? && (r.status == Some("inference_started") || r.error))
  }

  /** The `bbox` of every dict that has one, in order. */
  function BoxesOf(dets: seq<Detection>): (boxes: seq<BoxValue>)
    ensures |boxes| <= |dets|
  {
    if |dets| == 0 then []
    else BoxesOf(dets[..|dets| - 1]) + (if dets[|dets| - 1].WithBox? then [dets[|dets| - 1].bbox] else [])
  }

  /** The boxes `_update_ui_with_inference_result` collects. */
  function ExtractedBoxes(r: InferenceResult): seq<BoxValue>
  {
    if Ignored(r) then []
    else match r
      case ListResult(dets) => BoxesOf(dets)
      case DictResult(_, _, filtered, yolov, _) =>
        if filtered.Some? && filtered.value.FilteredList? then BoxesOf(filtered.value.dets)
        else if yolov.Some? && yolov.value.YolovDict? then
          (if yolov.value.filtered.Some? then BoxesOf(yolov.value.filtered.value) else [])
        else []
      case _ => []
  }

  /** A box the rectangle loop uses: a list with at least four values. */
  predicate Usable(b: BoxValue)
  {
    b.BoxList? && |b.values| >= 4
  }

  /** An inferred rectangle from a box's first four values. */
  function AutoRequest(v: seq<real>): (q: ChildRequest)
    requires |v| >= 4
    ensures q.points == Some(RectCorners(v[0], v[1], v[2], v[3])) && q.shape == Rectangle && q.mode == Auto
  {
    ChildRequest(None, None, None, None, Auto, Rectangle, [], 0.0, Some(RectCorners(v[0], v[1], v[2], v[3])), false)
  }

  /** The rectangle loop over the boxes: one `create_child_label` per usable box. */
  function AutoRects(ls: seq<Parent>, key: string, boxes: seq<BoxValue>): (r: seq<Parent>)
    ensures |r| == |ls|
  {
    if |boxes| == 0 then ls
    else
      var prev := AutoRects(ls, key, boxes[..|boxes| - 1]);
      var b := boxes[|boxes| - 1];
      if Usable(b) then CreateFor(prev, key, AutoRequest(b.values)).0 else prev
  }

  /**
   * The labels after an inference result. Outside the polygon flow the
   * boxes become rectangles on the current image; in the polygon flow they
   * are handed to the SAM box pipeline, which is not part of this model.
   */
  function InferenceLabels(ls: seq<Parent>, r: InferenceResult, childIsPolygon: bool, c: Canvas): seq<Parent>
  {
    var boxes := ExtractedBoxes(r);
    if boxes == [] || childIsPolygon || c.polygonMode then ls
    else if !Truthy(c.imageInfo) || FirstSelected(ls).None? then ls
    else AutoRects(ls, c.imageInfo.value, boxes)
  }

  // ---------------------------------------------------------------------
  // Properties of the gestures
  // ---------------------------------------------------------------------

  /**
   * A rectangle press is taken exactly when the UI is unlocked and the left
   * button goes down on an image with a parent selected; it then starts
   * drawing from a corner inside the image, and otherwise changes nothing.
   */
  lemma RectPressStartsInside(g: Gesture, c: Canvas, ls: seq<Parent>, b: Button, pos: Pt)
    ensures var o := RectPress(g, c, ls, b, pos);
      (o.handled <==> !c.uiLocked && b == LeftButton && c.hasImage && FirstSelected(ls).Some?)
      && o.create.None? && (!o.handled ==> o.gesture == g)
      && (o.handled ==>
            o.gesture == g.(drawing := true, rectStart := o.gesture.rectStart) && o.gesture.rectStart.Some?
            && (c.pixmap.Some? ==>
                  0 <= o.gesture.rectStart.value.x <= c.pixmap.value.width
                  && 0 <= o.gesture.rectStart.value.y <= c.pixmap.value.height))
  {
  }

  /**
   * Releasing a rectangle being drawn always ends the gesture, and asks for
   * a manual rectangle exactly when both sides exceed five pixels and the
   * canvas has a pixmap and an image key; its points are the four corners
   * starting at the press corner.
   */
  lemma RectReleaseCreatesIff(g: Gesture, c: Canvas, pos: Pt)
    requires Settled(g) && g.drawing && !c.uiLocked && c.hasImage
    ensures var o := RectRelease(g, c, pos);
      var s := g.rectStart.value;
      var e := Pixel(ScenePoint(pos, c.pixmap));
      o.handled && !o.gesture.drawing && o.gesture.endPoint == Some(e) && Settled(o.gesture)
      && (o.create.Some? <==> AbsI(e.x - s.x) > MinRectSide && AbsI(e.y - s.y) > MinRectSide
                              && c.pixmap.Some? && Truthy(c.imageInfo))
      && (o.create.Some? ==>
            o.create.value.request.points == Some([s.x as real, s.y as real, e.x as real, s.y as real,
                                                   e.x as real, e.y as real, s.x as real, e.y as real])
            && o.create.value.request.shape == Rectangle && o.create.value.request.mode == Manual)
  {
  }

  /**
   * The rectangle a release creates is the one the preview showed: its
   * centre is the preview's centre and its size the preview's |dx| by |dy|.
   */
  lemma ReleasedRectangleMatchesPreview(p: Parent, start: IPt, end: IPt)
    ensures var (x, y, w, h) := RectPreview(start, end);
      var c := BuildChild(p, RectRequest(start, end));
      c.shape == Rectangle && c.mode == Manual
      && BoxOf(c) == Some(Box(x as real + w as real / 2.0, y as real + h as real / 2.0, w as real, h as real))
  {
    var x1, y1, x2, y2 := start.x as real, start.y as real, end.x as real, end.y as real;
    RectangleFromCorners(p, x1, y1, x2, y2, Manual, [], 0.0, false);
    var (x, y, w, h) := RectPreview(start, end);
    assert (x1 + x2) / 2.0 == x as real + w as real / 2.0;
    assert (y1 + y2) / 2.0 == y as real + h as real / 2.0;
  }

  /**
   * A point press on an image with a parent selected asks for a manual
   * point exactly when there is a pixmap and an image key, at a pixel inside
   * the image; nothing else is taken.
   */
  lemma PointPressInsideImage(g: Gesture, c: Canvas, ls: seq<Parent>, b: Button, pos: Pt)
    requires c.pixmap.Some? ==> c.pixmap.value.width >= 1 && c.pixmap.value.height >= 1
    ensures var o := PointPress(g, c, ls, b, pos);
      o.gesture == g
      && (o.handled <==> b == LeftButton && c.hasImage && FirstSelected(ls).Some?)
      && (o.create.Some? <==> o.handled && c.pixmap.Some? && Truthy(c.imageInfo))
      && (o.create.Some? ==> var q := o.create.value.request;
            q.shape == Point && q.points.Some? && |q.points.value| == 2
            && 0.0 <= q.points.value[0] < c.pixmap.value.width as real
            && 0.0 <= q.points.value[1] < c.pixmap.value.height as real)
  {
  }

  /**
   * A line press starts the line exactly when its clamped start is not the
   * null point (0, 0), which a QPoint treats as false; a started line is
   * anchored at that start.
   */
  lemma LinePressStarts(g: Gesture, c: Canvas, ls: seq<Parent>, b: Button, pos: Pt)
    requires b == LeftButton && c.hasImage && FirstSelected(ls).Some?
    ensures var o := LinePress(g, c, ls, b, pos);
      var raw := Pixel(pos);
      var start := if c.pixmap.Some? && Nonnull(raw) then InPixels(raw, c.pixmap) else raw;
      o.create.None? && o.gesture.lineStart == Some(start)
      && (o.handled <==> start != IPt(0, 0))
      && (o.handled ==> o.gesture.drawingLine)
      && (!o.handled ==> o.gesture.drawingLine == g.drawingLine)
  {
  }

  /**
   * Releasing a line being drawn on a pixmap always resets the gesture, and
   * asks for a line with both endpoints exactly when |dx| + |dy| is at least
   * three and there is an image key; the end lies inside the image.
   */
  lemma LineReleaseResets(g: Gesture, c: Canvas, pos: Pt)
    requires Settled(g) && g.drawingLine && c.pixmap.Some?
    requires c.pixmap.value.width >= 1 && c.pixmap.value.height >= 1
    ensures var o := LineRelease(g, c, pos);
      var s := g.lineStart.value;
      var e := InPixels(Pixel(pos), c.pixmap);
      o.handled && !o.gesture.drawingLine && o.gesture.lineStart.None?
      && 0 <= e.x < c.pixmap.value.width && 0 <= e.y < c.pixmap.value.height
      && (o.create.Some? <==> AbsI(e.x - s.x) + AbsI(e.y - s.y) >= MinLineLength && Truthy(c.imageInfo))
      && (o.create.Some? ==> o.create.value.request.points == Some([s.x as real, s.y as real, e.x as real, e.y as real])
                             && o.create.value.request.shape == Line)
  {
  }

  /** Without a line in progress, or without a pixmap, a release does nothing. */
  lemma LineReleaseIdle(g: Gesture, c: Canvas, pos: Pt)
    requires Settled(g) && (!g.drawingLine || c.pixmap.None?)
    ensures LineRelease(g, c, pos) == Outcome(false, g, None)
  {
  }

  /** The flat list holds each anchor's x then y, in order. */
  lemma {:induction false} FlatPointsCoordinates(ps: seq<Pt>)
    ensures forall i :: 0 <= i < |ps| ==> FlatPoints(ps)[2 * i] == ps[i].x && FlatPoints(ps)[2 * i + 1] == ps[i].y
  {
    if |ps| > 0 {
      FlatPointsCoordinates(ps[..|ps| - 1]);
    }
  }

  /** The presses an anchor buffer takes: an unlocked canvas with an image and a selected parent. */
  predicate AnchorsLive(c: Canvas, ls: seq<Parent>)
  {
    !c.uiLocked && c.hasImage && FirstSelected(ls).Some?
  }

  /** A left press that does not close the polygon appends exactly the clamped position. */
  lemma AnchorLeftPressAppends(anchors: seq<Pt>, shape: Shape, c: Canvas, ls: seq<Parent>, pos: Pt)
    requires AnchorsLive(c, ls)
    requires var pts := anchors + [ScenePoint(pos, c.pixmap)]; !(|pts| >= 3 && Closes(pts[0], pts[|pts| - 1]))
    ensures AnchorPress(anchors, shape, c, ls, LeftButton, pos)
         == AnchorOutcome(true, anchors + [ScenePoint(pos, c.pixmap)], None)
  {
  }

  /** A right press removes the last anchor, and is not taken on an empty buffer. */
  lemma AnchorRightPressPops(anchors: seq<Pt>, shape: Shape, c: Canvas, ls: seq<Parent>, pos: Pt)
    requires AnchorsLive(c, ls)
    ensures var o := AnchorPress(anchors, shape, c, ls, RightButton, pos);
      o.create.None? && (o.handled <==> |anchors| > 0)
      && (|anchors| > 0 ==> o.anchors == anchors[..|anchors| - 1])
      && (|anchors| == 0 ==> o.anchors == [])
  {
  }

  /** Undoing an anchor just placed gives back the buffer as it was. */
  lemma AnchorUndoRestores(anchors: seq<Pt>, shape: Shape, c: Canvas, ls: seq<Parent>, pos: Pt, pos2: Pt)
    requires AnchorsLive(c, ls)
    requires var pts := anchors + [ScenePoint(pos, c.pixmap)]; !(|pts| >= 3 && Closes(pts[0], pts[|pts| - 1]))
    ensures var first := AnchorPress(anchors, shape, c, ls, LeftButton, pos);
      AnchorPress(first.anchors, shape, c, Applied(ls, first.create), RightButton, pos2).anchors == anchors
  {
    AnchorLeftPressAppends(anchors, shape, c, ls, pos);
    var pts := anchors + [ScenePoint(pos, c.pixmap)];
    assert pts[..|pts| - 1] == anchors;
  }

  /**
   * A left press that closes the polygon (three or more anchors, the last
   * within distance 10 of the first) asks for the label exactly when there
   * is a pixmap and an image key; the label gets every anchor, the child is
   * then made, and the buffer is emptied exactly when it was.
   */
  lemma AnchorClosingCreates(anchors: seq<Pt>, shape: Shape, c: Canvas, ls: seq<Parent>, pos: Pt)
    requires AnchorsLive(c, ls)
    requires var pts := anchors + [ScenePoint(pos, c.pixmap)]; |pts| >= 3 && Closes(pts[0], pts[|pts| - 1])
    ensures var pts := anchors + [ScenePoint(pos, c.pixmap)];
      var o := AnchorPress(anchors, shape, c, ls, LeftButton, pos);
      o.handled
      && (o.create.Some? <==> c.pixmap.Some? && Truthy(c.imageInfo))
      && (o.anchors == [] <==> o.create.Some?)
      && (o.create.None? ==> o.anchors == pts)
      && (o.create.Some? ==>
            o.create.value.request == ManualRequest(FlatPoints(pts), shape, pts)
            && CreateFor(ls, o.create.value.imageInfo, o.create.value.request).1.Some?)
  {
  }

  /** A buffer is emptied only by a press that made its label; otherwise it grows or shrinks by one at most. */
  lemma AnchorsClearedOnlyOnCreate(anchors: seq<Pt>, shape: Shape, c: Canvas, ls: seq<Parent>, b: Button, pos: Pt)
    ensures var o := AnchorPress(anchors, shape, c, ls, b, pos);
      (o.create.Some? ==> o.anchors == [] && CreateFor(ls, o.create.value.imageInfo, o.create.value.request).1.Some?)
      && (o.create.None? ==>
            o.anchors == anchors || o.anchors == anchors + [ScenePoint(pos, c.pixmap)]
            || (|anchors| > 0 && o.anchors == anchors[..|anchors| - 1]))
  {
  }

  /** For a non-negative r, r >= 3 exactly when r * r >= 9. */
  lemma SquareThreshold(r: real)
    requires r >= 0.0
    ensures r >= MinCircleRadius <==> r * r >= MinCircleRadius * MinCircleRadius
  {
    if r >= MinCircleRadius {
      assert r * r >= MinCircleRadius * r >= MinCircleRadius * MinCircleRadius;
    } else {
      assert r * r <= MinCircleRadius * r;
      assert MinCircleRadius * r < MinCircleRadius * MinCircleRadius;
    }
  }

  /** The first left press of a circle sets the centre at the clamped click. */
  lemma CircleFirstPressSetsCentre(g: Gesture, c: Canvas, ls: seq<Parent>, pos: Pt, sqrt: real -> real)
    requires Settled(g) && !g.drawingCircle && c.hasImage && FirstSelected(ls).Some?
    ensures CirclePress(g, c, ls, LeftButton, pos, sqrt)
         == Outcome(true, g.(drawingCircle := true, circleCenter := Some(InPixels(Pixel(pos), c.pixmap))), None)
  {
  }

  /**
   * The second left press always ends the gesture and, with `sqrt` a square
   * root at the measured distance, asks for the circle [cx, cy, r] exactly
   * when the squared radius is at least 9 and there is a pixmap and an image
   * key.
   */
  lemma CircleSecondPress(g: Gesture, c: Canvas, ls: seq<Parent>, pos: Pt, sqrt: real -> real)
    requires Settled(g) && g.drawingCircle && c.hasImage && FirstSelected(ls).Some?
    requires var d := SquaredDistance(g.circleCenter.value, InPixels(Pixel(pos), c.pixmap)) as real;
      sqrt(d) >= 0.0 && sqrt(d) * sqrt(d) == d
    ensures var centre := g.circleCenter.value;
      var d := SquaredDistance(centre, InPixels(Pixel(pos), c.pixmap));
      var o := CirclePress(g, c, ls, LeftButton, pos, sqrt);
      o.handled && !o.gesture.drawingCircle && o.gesture.circleCenter.None?
      && (o.create.Some? <==> d >= 9 && c.pixmap.Some? && Truthy(c.imageInfo))
      && (o.create.Some? ==>
            o.create.value.request.points == Some([centre.x as real, centre.y as real, sqrt(d as real)])
            && o.create.value.request.shape == Circle)
  {
    var d := SquaredDistance(g.circleCenter.value, InPixels(Pixel(pos), c.pixmap)) as real;
    SquareThreshold(sqrt(d));
  }

  /** A right press cancels a circle in progress, and is not taken otherwise. */
  lemma CircleRightPressCancels(g: Gesture, c: Canvas, ls: seq<Parent>, pos: Pt, sqrt: real -> real)
    requires Settled(g)
    ensures CirclePress(g, c, ls, RightButton, pos, sqrt)
         == if g.drawingCircle then Outcome(true, g.(drawingCircle := false, circleCenter := None), None)
            else Outcome(false, g, None)
  {
  }

  // ---------------------------------------------------------------------
  // Properties of the inference update
  // ---------------------------------------------------------------------

  /** The collected boxes are exactly the `bbox` values of the dicts that have one. */
  lemma {:induction false} BoxesOfMembership(dets: seq<Detection>, b: BoxValue)
    ensures b in BoxesOf(dets) <==> WithBox(b) in dets
  {
    if |dets| > 0 {
      var init := dets[..|dets| - 1];
      BoxesOfMembership(init, b);
      assert dets == init + [dets[|dets| - 1]];
    }
  }

  /**
   * The boxes come from a list result itself, else from a dict's
   * `filtered_results` list, else from a `yolov_result` dict's
   * `filtered_results`; a result still on its way, an error or a falsy
   * result gives none.
   */
  lemma ExtractionPriority(r: InferenceResult)
    ensures Ignored(r) ==> ExtractedBoxes(r) == []
    ensures !Ignored(r) && r.ListResult? ==> ExtractedBoxes(r) == BoxesOf(r.dets)
    ensures !Ignored(r) && r.DictResult? && r.filtered.Some? && r.filtered.value.FilteredList? ==>
      ExtractedBoxes(r) == BoxesOf(r.filtered.value.dets)
    ensures !Ignored(r) && r.DictResult? && (r.filtered.None? || r.filtered.value.NotAList?) ==>
      ExtractedBoxes(r) ==
        (if r.yolov.Some? && r.yolov.value.YolovDict? && r.yolov.value.filtered.Some?
         then BoxesOf(r.yolov.value.filtered.value) else [])
    ensures r.OtherResult? ==> ExtractedBoxes(r) == []
  {
  }

  /** A result still on its way, an error or no boxes at all leaves the labels as they are. */
  lemma IgnoredResultsAddNothing(ls: seq<Parent>, r: InferenceResult, childIsPolygon: bool, c: Canvas)
    requires Ignored(r) || ExtractedBoxes(r) == []
    ensures InferenceLabels(ls, r, childIsPolygon, c) == ls
  {
  }

  /** The rectangles the loop adds to a parent: one per usable box, in order. */
  function AutoChildren(p: Parent, boxes: seq<BoxValue>): (cs: seq<Child>)
    ensures |cs| <= |boxes|
  {
    if |boxes| == 0 then []
    else
      var b := boxes[|boxes| - 1];
      AutoChildren(p, boxes[..|boxes| - 1]) + (if Usable(b) then [BuildChild(p, AutoRequest(b.values))] else [])
  }

  /**
   * With parent k selected, the loop appends one inferred rectangle per
   * usable box to k's list for the image, in box order, keeps k selected
   * and leaves every other parent alone.
   */
  lemma {:induction false} AutoRectsAppend(ls: seq<Parent>, key: string, boxes: seq<BoxValue>, k: nat)
    requires FirstSelected(ls) == Some(k)
    ensures var r := AutoRects(ls, key, boxes);
      FirstSelected(r) == Some(k) && KeyOf(r[k]) == KeyOf(ls[k])
      && ImageChildren(r[k], key) == ImageChildren(ls[k], key) + AutoChildren(ls[k], boxes)
      && r[k].childrenByImage.Keys <= ls[k].childrenByImage.Keys + {key}
      && forall j :: 0 <= j < |ls| && j != k ==> r[j] == ls[j]
  {
    if |boxes| > 0 {
      var init := boxes[..|boxes| - 1];
      AutoRectsAppend(ls, key, init, k);
      var prev := AutoRects(ls, key, init);
      var b := boxes[|boxes| - 1];
      if Usable(b) {
        var c := BuildChild(prev[k], AutoRequest(b.values));
        assert c == BuildChild(ls[k], AutoRequest(b.values));
        var p2 := AppendChild(prev[k], key, c);
        FirstSelectedUpdate(prev, k, p2);
      }
    }
  }

  // ---------------------------------------------------------------------
  // The manager
  // ---------------------------------------------------------------------

  class LabelDrawManager {
    const labelList: ParentLabelList
    var drawing: bool
    var rectStart: Option<IPt>
    var endPoint: Option<IPt>
    var drawingLine: bool
    var lineStart: Option<IPt>
    var polygonPoints: seq<Pt>
    var polygonMaskPoints: seq<Pt>
    var drawingCircle: bool
    var circleCenter: Option<IPt>

    function GestureOf(): Gesture
      reads this
    {
      Gesture(drawing, rectStart, endPoint, drawingLine, lineStart, polygonPoints, polygonMaskPoints,
              drawingCircle, circleCenter)
    }

    ghost predicate Valid()
      reads this
    {
      Settled(GestureOf())
    }

    /** No gesture in progress; the anchor buffers start empty. */
    constructor (labelList: ParentLabelList)
      ensures this.labelList == labelList
      ensures GestureOf() == Gesture(false, None, None, false, None, [], [], false, None)
      ensures Valid()
    {
      this.labelList := labelList;
      drawing := false;
      rectStart := None;
      endPoint := None;
      drawingLine := false;
      lineStart := None;
      polygonPoints := [];
      polygonMaskPoints := [];
      drawingCircle := false;
      circleCenter := None;
    }

    /** The `_create_label_*` helpers: a pixmap and an image key, then `create_child_label`. */
    method CreateLabel(c: Canvas, q: ChildRequest) returns (child: Option<Child>)
      modifies labelList
      ensures var create := CreateIfImage(c, q);
        if create.None? then child.None? && labelList.labels == old(labelList.labels)
        else (labelList.labels, child) == CreateFor(old(labelList.labels), create.value.imageInfo, q)
      ensures labelList.nameIdSet == old(labelList.nameIdSet)
      ensures labelList.currentImageInfo == old(labelList.currentImageInfo)
      ensures old(labelList.Valid()) ==> labelList.Valid()
    {
      if c.pixmap.None? {
        return None;
      }
      if !Truthy(c.imageInfo) {
        return None;
      }
      child := labelList.CreateChildLabel(c.imageInfo.value, q);
    }

    /** `_handle_mouse_press`. */
    method HandleMousePress(c: Canvas, b: Button, pos: Pt) returns (handled: bool)
      requires Valid()
      modifies this
      ensures var o := RectPress(old(GestureOf()), c, labelList.labels, b, pos);
        handled == o.handled && GestureOf() == o.gesture
      ensures Valid()
    {
      if c.uiLocked {
        return false;
      }
      var parent := labelList.GetSelected();
      if b == LeftButton && c.hasImage && parent.Some? {
        drawing := true;
        rectStart := Some(OnImage(Pixel(pos), c.pixmap));
        return true;
      }
      return false;
    }

    /** `_handle_mouse_move`: the preview rectangle, if one is shown. */
    method HandleMouseMove(c: Canvas, pos: Pt) returns (preview: Option<(int, int, nat, nat)>)
      requires Valid()
      ensures preview == RectMove(GestureOf(), c, pos)
    {
      if c.uiLocked || !drawing || !c.hasImage {
        return None;
      }
      var p := Pixel(ScenePoint(pos, c.pixmap));
      var x1, y1 := rectStart.value.x, rectStart.value.y;
      var x2, y2 := p.x, p.y;
      return Some((MinI(x1, x2), MinI(y1, y2), AbsI(x2 - x1), AbsI(y2 - y1)));
    }

    /** `_handle_mouse_release`. */
    method HandleMouseRelease(c: Canvas, pos: Pt) returns (handled: bool)
      requires Valid()
      modifies this, labelList
      ensures var o := RectRelease(old(GestureOf()), c, pos);
        handled == o.handled && GestureOf() == o.gesture && labelList.labels == Applied(old(labelList.labels), o.create)
      ensures labelList.nameIdSet == old(labelList.nameIdSet)
      ensures old(labelList.Valid()) ==> labelList.Valid()
      ensures Valid()
    {
      if c.uiLocked || !drawing || !c.hasImage {
        return false;
      }
      drawing := false;
      var p := Pixel(ScenePoint(pos, c.pixmap));
      var x1, y1 := rectStart.value.x, rectStart.value.y;
      var x2, y2 := p.x, p.y;
      endPoint := Some(p);
      if AbsI(x2 - x1) > MinRectSide && AbsI(y2 - y1) > MinRectSide {
        var child := CreateLabel(c, RectRequest(IPt(x1, y1), p));
      }
      return true;
    }

    /** `point_huabi`. */
    method PointHuabi(c: Canvas, b: Button, pos: Pt) returns (handled: bool)
      modifies labelList
      ensures var o := PointPress(GestureOf(), c, old(labelList.labels), b, pos);
        handled == o.handled && labelList.labels == Applied(old(labelList.labels), o.create)
      ensures labelList.nameIdSet == old(labelList.nameIdSet)
      ensures old(labelList.Valid()) ==> labelList.Valid()
    {
      var parent := labelList.GetSelected();
      if b != LeftButton || !c.hasImage || parent.None? {
        return false;
      }
      var p := InPixels(Pixel(pos), c.pixmap);
      var child := CreateLabel(c, ManualRequest([p.x as real, p.y as real], Point, []));
      return true;
    }

    /** `line_huabi` on a press. */
    method LineHuabiPress(c: Canvas, b: Button, pos: Pt) returns (handled: bool)
      requires Valid()
      modifies this
      ensures var o := LinePress(old(GestureOf()), c, labelList.labels, b, pos);
        handled == o.handled && GestureOf() == o.gesture
      ensures Valid()
    {
      var parent := labelList.GetSelected();
      if b != LeftButton || !c.hasImage || parent.None? {
        return false;
      }
      var start := Pixel(pos);
      if c.pixmap.Some? && Nonnull(start) {
        start := InPixels(start, c.pixmap);
      }
      lineStart := Some(start);
      if Nonnull(start) {
        drawingLine := true;
        return true;
      }
      return false;
    }

    /** `line_huabi` on a release. */
    method LineHuabiRelease(c: Canvas, pos: Pt) returns (handled: bool)
      requires Valid()
      modifies this, labelList
      ensures var o := LineRelease(old(GestureOf()), c, pos);
        handled == o.handled && GestureOf() == o.gesture && labelList.labels == Applied(old(labelList.labels), o.create)
      ensures labelList.nameIdSet == old(labelList.nameIdSet)
      ensures old(labelList.Valid()) ==> labelList.Valid()
      ensures Valid()
    {
      if !drawingLine || c.pixmap.None? {
        return false;
      }
      var end := InPixels(Pixel(pos), c.pixmap);
      var start := lineStart.value;
      if AbsI(end.x - start.x) + AbsI(end.y - start.y) >= MinLineLength {
        var child := CreateLabel(c, LineRequest(start, end));
      }
      drawingLine := false;
      lineStart := None;
      return true;
    }

    /** One anchor press on a buffer; the caller stores the buffer back. */
    method PressAnchors(anchors: seq<Pt>, shape: Shape, c: Canvas, b: Button, pos: Pt)
      returns (handled: bool, result: seq<Pt>)
      modifies labelList
      ensures var o := AnchorPress(anchors, shape, c, old(labelList.labels), b, pos);
        handled == o.handled && result == o.anchors && labelList.labels == Applied(old(labelList.labels), o.create)
      ensures labelList.nameIdSet == old(labelList.nameIdSet)
      ensures old(labelList.Valid()) ==> labelList.Valid()
    {
      result := anchors;
      if c.uiLocked {
        return false, result;
      }
      var parent := labelList.GetSelected();
      if !c.hasImage || parent.None? {
        return false, result;
      }
      if b == LeftButton {
        result := result + [ScenePoint(pos, c.pixmap)];
        if |result| >= 3 && Closes(result[0], result[|result| - 1]) {
          var child := CreateLabel(c, ManualRequest(FlatPoints(result), shape, result));
          if child.Some? {
            result := [];
          }
        }
        return true, result;
      }
      if b == RightButton && |result| > 0 {
        result := result[..|result| - 1];
        return true, result;
      }
      return false, result;
    }

    /** `_handle_polygon_press`. */
    method HandlePolygonPress(c: Canvas, b: Button, pos: Pt) returns (handled: bool)
      requires Valid()
      modifies this, labelList
      ensures var o := AnchorPress(old(polygonPoints), Polygon, c, old(labelList.labels), b, pos);
        handled == o.handled && GestureOf() == old(GestureOf()).(polygonPoints := o.anchors)
        && labelList.labels == Applied(old(labelList.labels), o.create)
      ensures labelList.nameIdSet == old(labelList.nameIdSet)
      ensures old(labelList.Valid()) ==> labelList.Valid()
      ensures Valid()
    {
      handled, polygonPoints := PressAnchors(polygonPoints, Polygon, c, b, pos);
    }

    /** `_handle_polygon_mask_press`. */
    method HandlePolygonMaskPress(c: Canvas, b: Button, pos: Pt) returns (handled: bool)
      requires Valid()
      modifies this, labelList
      ensures var o := AnchorPress(old(polygonMaskPoints), PolygonMask, c, old(labelList.labels), b, pos);
        handled == o.handled && GestureOf() == old(GestureOf()).(polygonMaskPoints := o.anchors)
        && labelList.labels == Applied(old(labelList.labels), o.create)
      ensures labelList.nameIdSet == old(labelList.nameIdSet)
      ensures old(labelList.Valid()) ==> labelList.Valid()
      ensures Valid()
    {
      handled, polygonMaskPoints := PressAnchors(polygonMaskPoints, PolygonMask, c, b, pos);
    }

    /** `circle_huabi` on a press; `sqrt` is `math.sqrt`. */
    method CircleHuabiPress(c: Canvas, b: Button, pos: Pt, sqrt: real -> real) returns (handled: bool)
      requires Valid()
      modifies this, labelList
      ensures var o := CirclePress(old(GestureOf()), c, old(labelList.labels), b, pos, sqrt);
        handled == o.handled && GestureOf() == o.gesture && labelList.labels == Applied(old(labelList.labels), o.create)
      ensures labelList.nameIdSet == old(labelList.nameIdSet)
      ensures old(labelList.Valid()) ==> labelList.Valid()
      ensures Valid()
    {
      if b == LeftButton && c.hasImage {
        var parent := labelList.GetSelected();
        if parent.None? {
          return false;
        }
        var click := InPixels(Pixel(pos), c.pixmap);
        if !drawingCircle {
          circleCenter := Some(click);
          drawingCircle := true;
          return true;
        }
        var centre := circleCenter.value;
        var radius := sqrt(SquaredDistance(centre, click) as real);
        if radius >= MinCircleRadius {
          var child := CreateLabel(c, CircleRequest(centre, radius));
        }
        drawingCircle := false;
        circleCenter := None;
        return true;
      } else if b == RightButton && drawingCircle {
        drawingCircle := false;
        circleCenter := None;
        return true;
      }
      return false;
    }

    /** The loop of `_update_ui_with_inference_result` that adds one rectangle per usable box. */
    method AddAutoRects(key: string, boxes: seq<BoxValue>)
      modifies labelList
      ensures labelList.labels == AutoRects(old(labelList.labels), key, boxes)
      ensures labelList.nameIdSet == old(labelList.nameIdSet)
      ensures labelList.currentImageInfo == old(labelList.currentImageInfo)
      ensures old(labelList.Valid()) ==> labelList.Valid()
    {
      ghost var ls := labelList.labels;
      ghost var valid := labelList.Valid();
      for i := 0 to |boxes|
        invariant labelList.labels == AutoRects(ls, key, boxes[..i])
        invariant labelList.nameIdSet == old(labelList.nameIdSet)
        invariant labelList.currentImageInfo == old(labelList.currentImageInfo)
        invariant valid ==> labelList.Valid()
      {
        assert boxes[..i + 1][..i] == boxes[..i];
        var b := boxes[i];
        if b.BoxList? && |b.values| >= 4 {
          var child := labelList.CreateChildLabel(key, AutoRequest(b.values));
        }
      }
      assert boxes[..|boxes|] == boxes;
    }

    /** `_update_ui_with_inference_result` outside the polygon flow. */
    method UpdateUiWithInferenceResult(r: InferenceResult, childIsPolygon: bool, c: Canvas)
      modifies labelList
      ensures labelList.labels == InferenceLabels(old(labelList.labels), r, childIsPolygon, c)
      ensures labelList.nameIdSet == old(labelList.nameIdSet)
      ensures old(labelList.Valid()) ==> labelList.Valid()
    {
      if Ignored(r) {
        return;
      }
      var boxes := ExtractedBoxes(r);
      if boxes == [] || childIsPolygon || c.polygonMode {
        return;
      }
      if !Truthy(c.imageInfo) {
        return;
      }
      var parent := labelList.GetSelected();
      if parent.None? {
        return;
      }
      AddAutoRects(c.imageInfo.value, boxes);
    }
  }
}
