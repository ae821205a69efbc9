/**
 * The annotation data model of app_ui/labelsgl.py: parent labels (classes) and
 * the child labels (shapes) drawn under them, with the per-shape geometry rules
 * of ChildLabel — constructor normalisation, move, scale, rotation angle
 * normalisation, area and hit testing.
 */
module Labels {
  import opened Wrappers
  import opened PyNum

  /** Angles are kept in [MinRotationAngle, MaxRotationAngle). */
  const MinRotationAngle: real := 0.0
  const MaxRotationAngle: real := 360.0
  /** Python's `math.pi` as a decimal. */
  const Pi: real := 3.141592653589793
  /** Pixel tolerance of the point and line hit tests. */
  const HitTolerance: real := 5.0
  /** Key under which every parent keeps its hidden placeholder child. */
  const PlaceholderKey: string := "__placeholder__"

  datatype Pt = Pt(x: real, y: real)

  /** The `shape_type` strings; any other string is kept verbatim. */
  datatype Shape = Rectangle | Polygon | PolygonMask | Line | Point | Circle | OtherShape(name: string)

  /** Provenance: `'manual'` for hand-drawn labels, `'auto'` for model output. */
  datatype Mode = Manual | Auto

  datatype Child = Child(
    className: string,
    classId: int,
    mode: Mode,
    shape: Shape,
    points: seq<real>,            // flat x,y list; a circle stores [cx, cy, r]
    xCenter: Option<real>,
    yCenter: Option<real>,
    width: Option<real>,
    height: Option<real>,
    radius: Option<real>,
    isPlaceholder: bool,
    polygonPoints: seq<Pt>,
    rotationAngle: real,
    hasMask: bool,                // mask_data is not None
    isObb: bool,
    cornerPoints: seq<Pt>)

  datatype Parent = Parent(
    name: string,
    id: int,
    selected: bool,
    children: seq<Child>,
    childrenByImage: map<string, seq<Child>>)

  /** A freshly constructed ParentLabel: unselected, no children. */
  function NewParent(name: string, id: int): (p: Parent)
    ensures p.name == name && p.id == id && !p.selected
    ensures p.children == [] && p.childrenByImage == map[]
  {
    Parent(name, id, false, [], map[])
  }

  // ---------------------------------------------------------------------
  // Sequence helpers: sums, extremes and the x / y halves of a flat list
  // ---------------------------------------------------------------------

  function SumR(s: seq<real>): real
  {
    if |s| == 0 then 0.0 else SumR(s[..|s| - 1]) + s[|s| - 1]
  }

  function MinOf(s: seq<real>): (r: real)
    requires |s| > 0
  {
    if |s| == 1 then s[0] else MinR(MinOf(s[..|s| - 1]), s[|s| - 1])
  }

  function MaxOf(s: seq<real>): (r: real)
    requires |s| > 0
  {
    if |s| == 1 then s[0] else MaxR(MaxOf(s[..|s| - 1]), s[|s| - 1])
  }

  function Mean(s: seq<real>): real
    requires |s| > 0
  {
    SumR(s) / |s| as real
  }

  /** `points[0::2]`: the x coordinates of a flat list. */
  function XsOf(p: seq<real>): (xs: seq<real>)
    ensures |xs| == (|p| + 1) / 2
    ensures forall i :: 0 <= i < |xs| ==> xs[i] == p[2 * i]
  {
    seq((|p| + 1) / 2, i requires 0 <= i < (|p| + 1) / 2 => p[2 * i])
  }

  /** `[points[i + 1] for i in range(0, n, 2)]` for an even-length list. */
  function YsOf(p: seq<real>): (ys: seq<real>)
    ensures |ys| == |p| / 2
    ensures forall i :: 0 <= i < |ys| ==> ys[i] == p[2 * i + 1]
  {
    seq(|p| / 2, i requires 0 <= i < |p| / 2 => p[2 * i + 1])
  }

  function Shifted(s: seq<real>, d: real): (r: seq<real>)
    ensures |r| == |s| && forall i :: 0 <= i < |s| ==> r[i] == s[i] + d
  {
    seq(|s|, i requires 0 <= i < |s| => s[i] + d)
  }

  /**
   * Multiplication by a scale factor, named so that the scaling lemmas reason
   * about it through the few facts they need.
   */
  function Mul(a: real, f: real): real
  {
    a * f
  }

  function Scaled(s: seq<real>, f: real): (r: seq<real>)
    ensures |r| == |s| && forall i :: 0 <= i < |s| ==> r[i] == Mul(s[i], f)
  {
    seq(|s|, i requires 0 <= i < |s| => Mul(s[i], f))
  }

  // ---------------------------------------------------------------------
  // Rotation angle
  // ---------------------------------------------------------------------

  /**
   * `angle % 360`, followed in the source by `+ 360` when negative; Python's
   * float `%` by a positive divisor is never negative, so that step never fires.
   */
  function NormalizeAngle(angle: real): (r: real)
    ensures MinRotationAngle <= r < MaxRotationAngle
    ensures ((angle - r) / MaxRotationAngle).Floor as real == (angle - r) / MaxRotationAngle
  {
    FMod(angle, MaxRotationAngle)
  }

  lemma {:induction false} NormalizeAngleFixesRange(angle: real)
    requires MinRotationAngle <= angle < MaxRotationAngle
    ensures NormalizeAngle(angle) == angle
  {
    var r := NormalizeAngle(angle);
    var k := ((angle - r) / MaxRotationAngle).Floor;
    assert (angle - r) / MaxRotationAngle == k as real;
    assert -1.0 < (angle - r) / MaxRotationAngle < 1.0;
  }

  lemma NormalizeAngleIdempotent(angle: real)
    ensures NormalizeAngle(NormalizeAngle(angle)) == NormalizeAngle(angle)
  {
    NormalizeAngleFixesRange(NormalizeAngle(angle));
  }

  function SetRotationAngle(c: Child, angle: real): (r: Child)
    ensures MinRotationAngle <= r.rotationAngle < MaxRotationAngle
    ensures r == c.(rotationAngle := r.rotationAngle)
  {
    c.(rotationAngle := NormalizeAngle(angle))
  }

  /** `rotate`: add `delta` degrees and normalise again. */
  function Rotate(c: Child, delta: real): (r: Child)
    ensures MinRotationAngle <= r.rotationAngle < MaxRotationAngle
    ensures r == c.(rotationAngle := r.rotationAngle)
  {
    c.(rotationAngle := NormalizeAngle(c.rotationAngle + delta))
  }

  lemma {:induction false} RotateFullTurn(c: Child)
    requires MinRotationAngle <= c.rotationAngle < MaxRotationAngle
    ensures Rotate(c, MaxRotationAngle) == c
  {
    var r := NormalizeAngle(c.rotationAngle + MaxRotationAngle);
    var k := ((c.rotationAngle + MaxRotationAngle - r) / MaxRotationAngle).Floor;
    assert (c.rotationAngle + MaxRotationAngle - r) / MaxRotationAngle == k as real;
    assert 0.0 < (c.rotationAngle + MaxRotationAngle - r) / MaxRotationAngle < 2.0;
    assert k == 1;
  }

  // ---------------------------------------------------------------------
  // Construction
  // ---------------------------------------------------------------------

  /** Centre and extent of a flat corner list: the mean and the max - min of each half. */
  datatype Box = Box(xc: real, yc: real, w: real, h: real)

  function BoxFromPoints(p: seq<real>): Box
    requires |p| >= 8
  {
    var xs, ys := XsOf(p), YsOf(p);
    Box(Mean(xs), Mean(ys), MaxOf(xs) - MinOf(xs), MaxOf(ys) - MinOf(ys))
  }

  /** The centre and size fields of a label, when all four are set. */
  function BoxOf(c: Child): Option<Box>
  {
    if c.xCenter.Some? && c.yCenter.Some? && c.width.Some? && c.height.Some? then
      Some(Box(c.xCenter.value, c.yCenter.value, c.width.value, c.height.value))
    else None
  }

  /** `_update_center_and_size_from_points` for a list of at least 8 values. */
  function CenterAndSizeFromPoints(c: Child): (r: Child)
    requires |c.points| >= 8
    ensures r == c.(xCenter := r.xCenter, yCenter := r.yCenter, width := r.width, height := r.height)
    ensures BoxOf(r) == Some(BoxFromPoints(c.points))
  {
    var b := BoxFromPoints(c.points);
    c.(xCenter := Some(b.xc), yCenter := Some(b.yc), width := Some(b.w), height := Some(b.h))
  }

  /** ChildLabel.__init__: copy the parent's class, derive centre and size from `points`. */
  function NewChild(parent: Parent, points: seq<real>, mode: Mode, isPlaceholder: bool,
                    shape: Shape, polygonPoints: seq<Pt>, rotationAngle: real, hasMask: bool): (c: Child)
    ensures c.className == parent.name && c.classId == parent.id
    ensures c.points == points && c.polygonPoints == polygonPoints && c.shape == shape
    ensures c.mode == mode && c.isPlaceholder == isPlaceholder && c.hasMask == hasMask
    ensures MinRotationAngle <= c.rotationAngle < MaxRotationAngle
    ensures !c.isObb && c.cornerPoints == []
    ensures c.radius.Some? <==> shape == Circle && |points| >= 3
  {
    var base := Child(parent.name, parent.id, mode, shape, points, None, None, None, None, None,
                      isPlaceholder, polygonPoints, NormalizeAngle(rotationAngle), hasMask, false, []);
    if shape == Rectangle && |points| >= 8 then
      CenterAndSizeFromPoints(base)
    else if shape == Line && |points| >= 4 then
      base.(xCenter := Some((points[0] + points[2]) / 2.0), yCenter := Some((points[1] + points[3]) / 2.0),
            width := Some(AbsR(points[2] - points[0])), height := Some(AbsR(points[3] - points[1])))
    else if shape == Point && |points| >= 2 then
      base.(xCenter := Some(points[0]), yCenter := Some(points[1]), width := Some(0.0), height := Some(0.0))
    else if shape == Circle && |points| >= 3 then
      base.(xCenter := Some(points[0]), yCenter := Some(points[1]), radius := Some(points[2]),
            width := Some(points[2] * 2.0), height := Some(points[2] * 2.0))
    else
      base
  }

  /** The placeholder child every parent carries: no geometry at all. */
  function Placeholder(parent: Parent): (c: Child)
    ensures c.isPlaceholder && c.points == [] && c.shape == Rectangle && c.mode == Manual
    ensures c.className == parent.name && c.classId == parent.id
  {
    NewChild(parent, [], Manual, true, Rectangle, [], 0.0, false)
  }

  /** The flat corner list [x1,y1, x2,y1, x2,y2, x1,y2] every rectangle gesture produces. */
  function RectCorners(x1: real, y1: real, x2: real, y2: real): (p: seq<real>)
    ensures |p| == 8 && XsOf(p) == [x1, x2, x2, x1] && YsOf(p) == [y1, y1, y2, y2]
  {
    [x1, y1, x2, y1, x2, y2, x1, y2]
  }

  /**
   * A rectangle built from two opposite corners gets the midpoint as centre and
   * |x2 - x1| by |y2 - y1| as size.
   */
  lemma {:induction false} RectangleFromCorners(parent: Parent, x1: real, y1: real, x2: real, y2: real,
                                                 mode: Mode, polygonPoints: seq<Pt>, angle: real, hasMask: bool)
    ensures var c := NewChild(parent, RectCorners(x1, y1, x2, y2), mode, false, Rectangle, polygonPoints, angle, hasMask);
      BoxOf(c) == Some(Box((x1 + x2) / 2.0, (y1 + y2) / 2.0, AbsR(x2 - x1), AbsR(y2 - y1)))
  {
    CornersBox(x1, y1, x2, y2);
  }

  lemma CornersBox(x1: real, y1: real, x2: real, y2: real)
    ensures BoxFromPoints(RectCorners(x1, y1, x2, y2)) ==
            Box((x1 + x2) / 2.0, (y1 + y2) / 2.0, AbsR(x2 - x1), AbsR(y2 - y1))
  {
    Four(x1, x2, x2, x1);
    Four(y1, y1, y2, y2);
  }

  /** Sum and extremes of a four-element list. */
  lemma Four(a: real, b: real, c: real, d: real)
    ensures SumR([a, b, c, d]) == a + b + c + d
    ensures MinOf([a, b, c, d]) == MinR(MinR(MinR(a, b), c), d)
    ensures MaxOf([a, b, c, d]) == MaxR(MaxR(MaxR(a, b), c), d)
  {
    assert [a][..0] == [];
    assert SumR([a]) == a;
    assert [a, b][..1] == [a];
    assert SumR([a, b]) == a + b;
    assert MinOf([a, b]) == MinR(a, b) && MaxOf([a, b]) == MaxR(a, b);
    assert [a, b, c][..2] == [a, b];
    assert SumR([a, b, c]) == a + b + c;
    assert MinOf([a, b, c]) == MinR(MinR(a, b), c) && MaxOf([a, b, c]) == MaxR(MaxR(a, b), c);
    assert [a, b, c, d][..3] == [a, b, c];
  }

  lemma {:induction false} MinLeMax(s: seq<real>)
    requires |s| > 0
    ensures MinOf(s) <= MaxOf(s)
    decreases |s|
  {
    if |s| > 1 {
      MinLeMax(s[..|s| - 1]);
    }
  }

  /** `min` of a non-empty list is a lower bound that some element attains. */
  lemma {:induction false} MinOfIsLeast(s: seq<real>)
    requires |s| > 0
    ensures forall i :: 0 <= i < |s| ==> MinOf(s) <= s[i]
    ensures exists i :: 0 <= i < |s| && s[i] == MinOf(s)
    decreases |s|
  {
    if |s| > 1 {
      var init := s[..|s| - 1];
      MinOfIsLeast(init);
      var i :| 0 <= i < |init| && init[i] == MinOf(init);
      assert s[i] == init[i];
      assert forall k :: 0 <= k < |init| ==> s[k] == init[k];
    } else {
      assert s[0] == MinOf(s);
    }
  }

  /** `max` of a non-empty list is an upper bound that some element attains. */
  lemma {:induction false} MaxOfIsGreatest(s: seq<real>)
    requires |s| > 0
    ensures forall i :: 0 <= i < |s| ==> s[i] <= MaxOf(s)
    ensures exists i :: 0 <= i < |s| && s[i] == MaxOf(s)
    decreases |s|
  {
    if |s| > 1 {
      var init := s[..|s| - 1];
      MaxOfIsGreatest(init);
      var i :| 0 <= i < |init| && init[i] == MaxOf(init);
      assert s[i] == init[i];
      assert forall k :: 0 <= k < |init| ==> s[k] == init[k];
    } else {
      assert s[0] == MaxOf(s);
    }
  }

  /** Width and height taken from corners are max - min, never negative. */
  lemma SizeFromPointsNonNegative(p: seq<real>)
    requires |p| >= 8
    ensures BoxFromPoints(p).w >= 0.0 && BoxFromPoints(p).h >= 0.0
  {
    MinLeMax(XsOf(p));
    MinLeMax(YsOf(p));
  }

  // ---------------------------------------------------------------------
  // Consistency of the derived centre / size with the points
  // ---------------------------------------------------------------------

  /** The derived fields agree with `points` as the constructor computes them. */
  ghost predicate Consistent(c: Child)
  {
    match c.shape
    case Rectangle =>
      |c.points| >= 8 && |c.points| % 2 == 0 ==> BoxOf(c) == Some(BoxFromPoints(c.points))
    case Line =>
      |c.points| >= 4 ==>
        c.xCenter == Some((c.points[0] + c.points[2]) / 2.0) &&
        c.yCenter == Some((c.points[1] + c.points[3]) / 2.0) &&
        c.width == Some(AbsR(c.points[2] - c.points[0])) && c.height == Some(AbsR(c.points[3] - c.points[1]))
    case Point =>
      |c.points| >= 2 ==> c.xCenter == Some(c.points[0]) && c.yCenter == Some(c.points[1])
    case Circle =>
      |c.points| >= 3 ==>
        c.xCenter == Some(c.points[0]) && c.yCenter == Some(c.points[1]) && c.radius == Some(c.points[2])
    case _ => true
  }

  lemma NewChildConsistent(parent: Parent, points: seq<real>, mode: Mode, isPlaceholder: bool,
                           shape: Shape, polygonPoints: seq<Pt>, rotationAngle: real, hasMask: bool)
    ensures Consistent(NewChild(parent, points, mode, isPlaceholder, shape, polygonPoints, rotationAngle, hasMask))
  {}

  // ---------------------------------------------------------------------
  // Move
  // ---------------------------------------------------------------------

  /** Every even position moves by dx, every odd one by dy. */
  function ShiftFlat(p: seq<real>, dx: real, dy: real): (r: seq<real>)
    ensures |r| == |p|
    ensures forall i :: 0 <= i < |p| ==> r[i] == p[i] + (if i % 2 == 0 then dx else dy)
  {
    seq(|p|, i requires 0 <= i < |p| => p[i] + (if i % 2 == 0 then dx else dy))
  }

  function ShiftPts(ps: seq<Pt>, dx: real, dy: real): (r: seq<Pt>)
    ensures |r| == |ps|
    ensures forall i :: 0 <= i < |ps| ==> r[i] == Pt(ps[i].x + dx, ps[i].y + dy)
  {
    seq(|ps|, i requires 0 <= i < |ps| => Pt(ps[i].x + dx, ps[i].y + dy))
  }

  function AddOpt(o: Option<real>, d: real): Option<real>
  {
    if o.Some? then Some(o.value + d) else None
  }

  /** ChildLabel.move. */
  function Move(c: Child, dx: real, dy: real): (r: Child)
    ensures r.xCenter == AddOpt(c.xCenter, dx) && r.yCenter == AddOpt(c.yCenter, dy)
    ensures |r.points| == |c.points|
    ensures c.shape == Circle && |c.points| >= 2 ==>
      r.points == [c.points[0] + dx, c.points[1] + dy] + c.points[2..]
    ensures c.shape != Circle && |c.points| >= 2 ==>
      forall i :: 0 <= i < |c.points| ==> r.points[i] == c.points[i] + (if i % 2 == 0 then dx else dy)
    ensures |c.points| < 2 ==> r.points == c.points
    ensures r.polygonPoints == ShiftPts(c.polygonPoints, dx, dy)
    ensures r.width == c.width && r.height == c.height && r.radius == c.radius
    ensures r.rotationAngle == c.rotationAngle && r.shape == c.shape
    ensures r.className == c.className && r.classId == c.classId && r.isPlaceholder == c.isPlaceholder
    ensures r.cornerPoints == c.cornerPoints && r.isObb == c.isObb
  {
    var pts :=
      if |c.points| >= 2 then
        (if c.shape == Circle then [c.points[0] + dx, c.points[1] + dy] + c.points[2..]
         else ShiftFlat(c.points, dx, dy))
      else c.points;
    c.(xCenter := AddOpt(c.xCenter, dx), yCenter := AddOpt(c.yCenter, dy), points := pts,
       polygonPoints := ShiftPts(c.polygonPoints, dx, dy))
  }

  /** Moving back by the opposite delta restores the label exactly. */
  lemma {:induction false} MoveInverse(c: Child, dx: real, dy: real)
    ensures Move(Move(c, dx, dy), -dx, -dy) == c
  {
    var m := Move(Move(c, dx, dy), -dx, -dy);
    assert m.points == c.points;
    assert m.polygonPoints == c.polygonPoints;
    assert m.xCenter == c.xCenter && m.yCenter == c.yCenter;
  }

  lemma {:induction false} SumShifted(s: seq<real>, d: real)
    ensures SumR(Shifted(s, d)) == SumR(s) + |s| as real * d
    decreases |s|
  {
    if |s| > 0 {
      assert Shifted(s, d)[..|s| - 1] == Shifted(s[..|s| - 1], d);
      SumShifted(s[..|s| - 1], d);
    }
  }

  lemma {:induction false} MinMaxShifted(s: seq<real>, d: real)
    requires |s| > 0
    ensures MinOf(Shifted(s, d)) == MinOf(s) + d && MaxOf(Shifted(s, d)) == MaxOf(s) + d
    decreases |s|
  {
    if |s| > 1 {
      assert Shifted(s, d)[..|s| - 1] == Shifted(s[..|s| - 1], d);
      MinMaxShifted(s[..|s| - 1], d);
    }
  }

  lemma MeanShifted(s: seq<real>, d: real)
    requires |s| > 0
    ensures Mean(Shifted(s, d)) == Mean(s) + d
  {
    SumShifted(s, d);
    var n := |s| as real;
    assert (SumR(s) + n * d) / n == SumR(s) / n + d;
  }

  lemma HalvesShifted(p: seq<real>, dx: real, dy: real)
    ensures XsOf(ShiftFlat(p, dx, dy)) == Shifted(XsOf(p), dx)
    ensures YsOf(ShiftFlat(p, dx, dy)) == Shifted(YsOf(p), dy)
  {
    var q := ShiftFlat(p, dx, dy);
    assert forall i :: 0 <= i < |XsOf(q)| ==> XsOf(q)[i] == q[2 * i] == p[2 * i] + dx;
    assert forall i :: 0 <= i < |YsOf(q)| ==> YsOf(q)[i] == q[2 * i + 1] == p[2 * i + 1] + dy;
  }

  lemma HalvesScaled(p: seq<real>, f: real)
    ensures XsOf(Scaled(p, f)) == Scaled(XsOf(p), f)
    ensures YsOf(Scaled(p, f)) == Scaled(YsOf(p), f)
  {
    var q := Scaled(p, f);
    var xs, ys := XsOf(p), YsOf(p);
    assert forall i :: 0 <= i < |XsOf(q)| ==> XsOf(q)[i] == q[2 * i] == Mul(p[2 * i], f) == Scaled(xs, f)[i];
    assert forall i :: 0 <= i < |YsOf(q)| ==> YsOf(q)[i] == q[2 * i + 1] == Mul(p[2 * i + 1], f) == Scaled(ys, f)[i];
  }

  lemma {:induction false} MoveRectangleConsistent(c: Child, dx: real, dy: real)
    requires c.shape == Rectangle && |c.points| >= 8 && |c.points| % 2 == 0 && Consistent(c)
    ensures Consistent(Move(c, dx, dy))
  {
    var m := Move(c, dx, dy);
    assert m.points == ShiftFlat(c.points, dx, dy);
    BoxShifted(c.points, dx, dy);
  }

  /** Shifting a flat list shifts the centre of its box and keeps the extent. */
  lemma BoxShifted(p: seq<real>, dx: real, dy: real)
    requires |p| >= 8
    ensures var b := BoxFromPoints(p);
      BoxFromPoints(ShiftFlat(p, dx, dy)) == Box(b.xc + dx, b.yc + dy, b.w, b.h)
  {
    var xs, ys := XsOf(p), YsOf(p);
    HalvesShifted(p, dx, dy);
    MeanShifted(xs, dx);
    MeanShifted(ys, dy);
    MinMaxShifted(xs, dx);
    MinMaxShifted(ys, dy);
  }

  /** Moving keeps centre and size in agreement with the points. */
  lemma {:induction false} MovePreservesConsistency(c: Child, dx: real, dy: real)
    requires Consistent(c)
    ensures Consistent(Move(c, dx, dy))
  {
    var m := Move(c, dx, dy);
    if c.shape == Rectangle && |c.points| >= 8 && |c.points| % 2 == 0 {
      MoveRectangleConsistent(c, dx, dy);
    } else if c.shape == Line && |c.points| >= 4 {
      assert m.points[0] == c.points[0] + dx && m.points[2] == c.points[2] + dx;
      assert m.points[1] == c.points[1] + dy && m.points[3] == c.points[3] + dy;
    }
  }

  // ---------------------------------------------------------------------
  // Scale
  // ---------------------------------------------------------------------

  function MulOpt(o: Option<real>, f: real): Option<real>
  {
    if o.Some? then Some(Mul(o.value, f)) else None
  }

  function ScalePts(ps: seq<Pt>, f: real): (r: seq<Pt>)
    ensures |r| == |ps|
    ensures forall i :: 0 <= i < |ps| ==> r[i] == Pt(Mul(ps[i].x, f), Mul(ps[i].y, f))
  {
    seq(|ps|, i requires 0 <= i < |ps| => Pt(Mul(ps[i].x, f), Mul(ps[i].y, f)))
  }

  /** The x coordinates of a point list. */
  function Xs(pts: seq<Pt>): (xs: seq<real>)
    ensures |xs| == |pts| && forall i :: 0 <= i < |pts| ==> xs[i] == pts[i].x
  {
    seq(|pts|, i requires 0 <= i < |pts| => pts[i].x)
  }

  /** The y coordinates of a point list. */
  function Ys(pts: seq<Pt>): (ys: seq<real>)
    ensures |ys| == |pts| && forall i :: 0 <= i < |pts| ==> ys[i] == pts[i].y
  {
    seq(|pts|, i requires 0 <= i < |pts| => pts[i].y)
  }

  /**
   * ChildLabel.scale(factor): placeholders are untouched; the centre is scaled
   * first and then, per shape, recomputed from the scaled geometry.
   */
  function Scale(c: Child, f: real): (r: Child)
    ensures c.isPlaceholder ==> r == c
    ensures r.shape == c.shape && r.className == c.className && r.classId == c.classId
    ensures r.rotationAngle == c.rotationAngle && r.isPlaceholder == c.isPlaceholder
    ensures |r.points| == |c.points|
    ensures !c.isPlaceholder ==> r.cornerPoints == ScalePts(c.cornerPoints, f)
    ensures !c.isPlaceholder && c.shape == Rectangle && |c.points| >= 8 ==>
      r.points[..8] == Scaled(c.points[..8], f) && r.points[8..] == c.points[8..]
    ensures !c.isPlaceholder && (c.shape == Polygon || c.shape == PolygonMask) ==>
      r.polygonPoints == ScalePts(c.polygonPoints, f)
  {
    if c.isPlaceholder then c
    else
      var s := c.(xCenter := MulOpt(c.xCenter, f), yCenter := MulOpt(c.yCenter, f),
                  cornerPoints := ScalePts(c.cornerPoints, f));
      match c.shape
      case Circle =>
        var rad := MulOpt(c.radius, f);
        var pts :=
          if |c.points| >= 3 then
            [s.xCenter.GetOr(c.points[0]), s.yCenter.GetOr(c.points[1]), rad.GetOr(c.points[2])] + c.points[3..]
          else c.points;
        s.(radius := rad, points := pts,
           width := if rad.Some? then Some(rad.value * 2.0) else c.width,
           height := if rad.Some? then Some(rad.value * 2.0) else c.height)
      case Rectangle =>
        if |c.points| >= 8 then
          CenterAndSizeFromPoints(s.(points := Scaled(c.points[..8], f) + c.points[8..]))
        else
          s.(width := MulOpt(c.width, f), height := MulOpt(c.height, f))
      case Polygon => ScalePolygon(s, f)
      case PolygonMask => ScalePolygon(s, f)
      case Line =>
        if |c.points| >= 4 then
          var x1, y1, x2, y2 := Mul(c.points[0], f), Mul(c.points[1], f), Mul(c.points[2], f), Mul(c.points[3], f);
          s.(points := [x1, y1, x2, y2] + c.points[4..],
             xCenter := Some((x1 + x2) / 2.0), yCenter := Some((y1 + y2) / 2.0),
             width := Some(AbsR(x2 - x1)), height := Some(AbsR(y2 - y1)))
        else s
      case Point => s
      case OtherShape(_) => s
  }

  function ScalePolygon(s: Child, f: real): (r: Child)
    ensures r.polygonPoints == ScalePts(s.polygonPoints, f)
    ensures r.points == s.points && r.shape == s.shape && r.cornerPoints == s.cornerPoints
    ensures r.className == s.className && r.classId == s.classId
    ensures r.rotationAngle == s.rotationAngle && r.isPlaceholder == s.isPlaceholder
  {
    if |s.polygonPoints| > 0 then
      var pp := ScalePts(s.polygonPoints, f);
      var xs, ys := Xs(pp), Ys(pp);
      s.(polygonPoints := pp, xCenter := Some(Mean(xs)), yCenter := Some(Mean(ys)),
         width := Some(MaxOf(xs) - MinOf(xs)), height := Some(MaxOf(ys) - MinOf(ys)))
    else s
  }

  lemma ScaledPrefix(s: seq<real>, f: real, k: nat)
    requires k <= |s|
    ensures Scaled(s, f)[..k] == Scaled(s[..k], f)
  {
    assert forall i :: 0 <= i < k ==> Scaled(s, f)[..k][i] == Mul(s[i], f) == Scaled(s[..k], f)[i];
  }

  lemma {:induction false} SumScaled(s: seq<real>, f: real)
    ensures SumR(Scaled(s, f)) == Mul(SumR(s), f)
    decreases |s|
  {
    if |s| > 0 {
      var init := s[..|s| - 1];
      ScaledPrefix(s, f, |s| - 1);
      SumScaled(init, f);
      MulDistributes(SumR(init), s[|s| - 1], f);
    }
  }

  lemma MulDistributes(a: real, b: real, f: real)
    ensures Mul(a, f) + Mul(b, f) == Mul(a + b, f)
  {}

  lemma MulMono(a: real, b: real, f: real)
    requires a <= b && f >= 0.0
    ensures Mul(a, f) <= Mul(b, f)
  {
    assert b * f - a * f == (b - a) * f;
  }

  lemma {:induction false} MinMaxScaled(s: seq<real>, f: real)
    requires |s| > 0 && f >= 0.0
    ensures MinOf(Scaled(s, f)) == Mul(MinOf(s), f) && MaxOf(Scaled(s, f)) == Mul(MaxOf(s), f)
    decreases |s|
  {
    if |s| > 1 {
      var init := s[..|s| - 1];
      ScaledPrefix(s, f, |s| - 1);
      MinMaxScaled(init, f);
      var last := s[|s| - 1];
      if MinOf(init) <= last { MulMono(MinOf(init), last, f); } else { MulMono(last, MinOf(init), f); }
      if MaxOf(init) <= last { MulMono(MaxOf(init), last, f); } else { MulMono(last, MaxOf(init), f); }
    }
  }

  lemma MeanScaled(s: seq<real>, f: real)
    requires |s| > 0
    ensures Mean(Scaled(s, f)) == Mul(Mean(s), f)
  {
    SumScaled(s, f);
    var n := |s| as real;
    assert (SumR(s) * f) / n == (SumR(s) / n) * f;
  }

  lemma MulDifference(a: real, b: real, f: real)
    ensures Mul(a, f) - Mul(b, f) == Mul(a - b, f)
  {}

  /** Scaling a flat list by f >= 0 scales its box by f. */
  lemma BoxScaled(p: seq<real>, f: real)
    requires |p| >= 8 && f >= 0.0
    ensures var b := BoxFromPoints(p);
      BoxFromPoints(Scaled(p, f)) == Box(Mul(b.xc, f), Mul(b.yc, f), Mul(b.w, f), Mul(b.h, f))
  {
    var xs, ys := XsOf(p), YsOf(p);
    HalvesScaled(p, f);
    MeanScaled(xs, f);
    MeanScaled(ys, f);
    ExtentScaled(xs, f);
    ExtentScaled(ys, f);
    var q := Scaled(p, f);
    assert XsOf(q) == Scaled(xs, f) && YsOf(q) == Scaled(ys, f);
    var b := BoxFromPoints(p);
    assert b == Box(Mean(xs), Mean(ys), MaxOf(xs) - MinOf(xs), MaxOf(ys) - MinOf(ys));
    assert BoxFromPoints(q) == Box(Mean(Scaled(xs, f)), Mean(Scaled(ys, f)),
      MaxOf(Scaled(xs, f)) - MinOf(Scaled(xs, f)), MaxOf(Scaled(ys, f)) - MinOf(Scaled(ys, f)));
  }

  /** Scaling a list by f >= 0 scales its extent, max minus min, by f. */
  lemma ExtentScaled(s: seq<real>, f: real)
    requires |s| > 0 && f >= 0.0
    ensures MaxOf(Scaled(s, f)) - MinOf(Scaled(s, f)) == Mul(MaxOf(s) - MinOf(s), f)
  {
    MinMaxScaled(s, f);
    MulDifference(MaxOf(s), MinOf(s), f);
  }

  /**
   * Scaling an 8-point rectangle by a non-negative factor (image_resize enlarges
   * by a positive factor) scales its corners, its centre and its size by that factor.
   */
  lemma {:induction false} ScaleRectangle(c: Child, f: real)
    requires !c.isPlaceholder && c.shape == Rectangle && |c.points| == 8 && Consistent(c) && f >= 0.0
    ensures var r := Scale(c, f);
      r.points == Scaled(c.points, f) && Consistent(r) &&
      BoxOf(r) == Some(Box(Mul(c.xCenter.value, f), Mul(c.yCenter.value, f),
                           Mul(c.width.value, f), Mul(c.height.value, f)))
  {
    var r := Scale(c, f);
    assert c.points[..8] == c.points && c.points[8..] == [];
    assert r.points == Scaled(c.points, f);
    BoxScaled(c.points, f);
  }

  /** Scaling by f >= 0 keeps the midpoint and the absolute difference of two values in step. */
  lemma MidAndSpanScaled(a: real, b: real, f: real)
    requires f >= 0.0
    ensures (Mul(a, f) + Mul(b, f)) / 2.0 == Mul((a + b) / 2.0, f)
    ensures AbsR(Mul(b, f) - Mul(a, f)) == Mul(AbsR(b - a), f)
  {
    MulDifference(b, a, f);
    if b - a < 0.0 {
      MulMono(b - a, 0.0, f);
    } else {
      MulMono(0.0, b - a, f);
    }
  }

  /**
   * The shapes whose centre `scale` does not recompute from the geometry (a
   * circle, a point, a rectangle with fewer than 8 values, a line with fewer
   * than 4, a polygon without vertices, an unknown shape) keep the centre
   * scaled by the factor.
   */
  lemma ScaleCentreOnly(c: Child, f: real)
    requires !c.isPlaceholder
    requires c.shape == Circle || c.shape == Point || c.shape.OtherShape?
      || (c.shape == Rectangle && |c.points| < 8) || (c.shape == Line && |c.points| < 4)
      || ((c.shape == Polygon || c.shape == PolygonMask) && |c.polygonPoints| == 0)
    ensures Scale(c, f).xCenter == MulOpt(c.xCenter, f) && Scale(c, f).yCenter == MulOpt(c.yCenter, f)
  {
  }

  /**
   * Scaling a consistent circle scales its centre and radius, writes them back
   * as the first three values and makes the diameter its width and height.
   */
  lemma {:induction false} ScaleCircle(c: Child, f: real)
    requires !c.isPlaceholder && c.shape == Circle && |c.points| >= 3 && Consistent(c)
    ensures var r := Scale(c, f);
      r.points == Scaled(c.points[..3], f) + c.points[3..] && Consistent(r)
      && r.radius == Some(Mul(c.points[2], f))
      && r.width == Some(Mul(c.points[2], f) * 2.0) && r.height == r.width
  {
    var r := Scale(c, f);
    assert r.points[..3] == Scaled(c.points[..3], f);
    assert r.points == r.points[..3] + r.points[3..];
  }

  /**
   * Scaling a consistent line by f >= 0 scales both endpoints; the recomputed
   * centre and size are the old ones scaled, and the line stays consistent.
   */
  lemma {:induction false} ScaleLine(c: Child, f: real)
    requires !c.isPlaceholder && c.shape == Line && |c.points| >= 4 && Consistent(c) && f >= 0.0
    ensures var r := Scale(c, f);
      r.points == Scaled(c.points[..4], f) + c.points[4..] && Consistent(r)
      && r.xCenter == MulOpt(c.xCenter, f) && r.yCenter == MulOpt(c.yCenter, f)
      && r.width == MulOpt(c.width, f) && r.height == MulOpt(c.height, f)
  {
    var r := Scale(c, f);
    var p := c.points;
    MidAndSpanScaled(p[0], p[2], f);
    MidAndSpanScaled(p[1], p[3], f);
    assert r.points[..4] == Scaled(p[..4], f);
    assert r.points == r.points[..4] + r.points[4..];
  }

  /** A rectangle with fewer than 8 values keeps its points; its centre and size are scaled. */
  lemma ScaleShortRectangle(c: Child, f: real)
    requires !c.isPlaceholder && c.shape == Rectangle && |c.points| < 8
    ensures var r := Scale(c, f);
      r.points == c.points && r.xCenter == MulOpt(c.xCenter, f) && r.yCenter == MulOpt(c.yCenter, f)
      && r.width == MulOpt(c.width, f) && r.height == MulOpt(c.height, f)
  {
  }

  /**
   * A point label's centre is scaled but its points are not: a consistent
   * point away from the origin is no longer consistent after any scaling
   * other than by 1.
   */
  lemma {:induction false} ScalePointKeepsPoints(c: Child, f: real)
    requires !c.isPlaceholder && c.shape == Point
    ensures Scale(c, f).points == c.points
    ensures Scale(c, f).xCenter == MulOpt(c.xCenter, f) && Scale(c, f).yCenter == MulOpt(c.yCenter, f)
    ensures Consistent(c) && |c.points| >= 2 && c.points[0] != 0.0 && f != 1.0 ==> !Consistent(Scale(c, f))
  {
    if Consistent(c) && |c.points| >= 2 && c.points[0] != 0.0 && f != 1.0 {
      var r := Scale(c, f);
      assert r.xCenter == Some(c.points[0] * f);
    }
  }

  lemma ScalePtsXsYs(ps: seq<Pt>, f: real)
    ensures Xs(ScalePts(ps, f)) == Scaled(Xs(ps), f) && Ys(ScalePts(ps, f)) == Scaled(Ys(ps), f)
  {
  }

  /**
   * Scaling a polygon by f >= 0 scales every vertex, and the recomputed centre
   * and size are the vertex centroid and the vertex extent, scaled.
   */
  lemma {:induction false} ScalePolygonBox(c: Child, f: real)
    requires !c.isPlaceholder && (c.shape == Polygon || c.shape == PolygonMask) && |c.polygonPoints| > 0 && f >= 0.0
    ensures var r := Scale(c, f);
      var xs, ys := Xs(c.polygonPoints), Ys(c.polygonPoints);
      r.polygonPoints == ScalePts(c.polygonPoints, f)
      && r.xCenter == Some(Mul(Mean(xs), f)) && r.yCenter == Some(Mul(Mean(ys), f))
      && r.width == Some(Mul(MaxOf(xs) - MinOf(xs), f)) && r.height == Some(Mul(MaxOf(ys) - MinOf(ys), f))
  {
    var xs, ys := Xs(c.polygonPoints), Ys(c.polygonPoints);
    ScalePtsXsYs(c.polygonPoints, f);
    MeanScaled(xs, f);
    MeanScaled(ys, f);
    ExtentScaled(xs, f);
    ExtentScaled(ys, f);
  }

  // ---------------------------------------------------------------------
  // Accessors
  // ---------------------------------------------------------------------

  /** get_rectangle_points: the four corners of a rectangle, else nothing. */
  function RectanglePoints(c: Child): (r: seq<Pt>)
    ensures |r| == 0 || |r| == 4
    ensures |r| == 4 <==> c.shape == Rectangle && |c.points| >= 8
    ensures |r| == 4 ==> forall k :: 0 <= k < 4 ==> r[k] == Pt(c.points[2 * k], c.points[2 * k + 1])
  {
    if c.shape != Rectangle || |c.points| < 8 then []
    else [Pt(c.points[0], c.points[1]), Pt(c.points[2], c.points[3]),
          Pt(c.points[4], c.points[5]), Pt(c.points[6], c.points[7])]
  }

  /** get_polygon_points: the polygon only for polygon shapes. */
  function PolygonPointsOf(c: Child): (r: seq<Pt>)
    ensures (c.shape == Polygon || c.shape == PolygonMask) ==> r == c.polygonPoints
    ensures !(c.shape == Polygon || c.shape == PolygonMask) ==> r == []
  {
    if c.shape == Polygon || c.shape == PolygonMask then c.polygonPoints else []
  }

  // ---------------------------------------------------------------------
  // Area
  // ---------------------------------------------------------------------

  /** A label's area or Python's `float('inf')`. */
  datatype Area = Finite(v: real) | Infinite

  predicate AreaLe(a: Area, b: Area)
  {
    b.Infinite? || (a.Finite? && a.v <= b.v)
  }

  function Cross(a: Pt, b: Pt): real
  {
    a.x * b.y - b.x * a.y
  }

  /** The first k terms of the shoelace sum with successor j = (i + 1) % n. */
  function ShoelacePrefix(pts: seq<Pt>, k: nat): real
    requires k <= |pts|
  {
    if k == 0 then 0.0 else ShoelacePrefix(pts, k - 1) + Cross(pts[k - 1], pts[k % |pts|])
  }

  function Shoelace(pts: seq<Pt>): real
  {
    ShoelacePrefix(pts, |pts|)
  }

  /** ChildLabel.get_area as a value (the source computes it with a loop; see GetArea). */
  function AreaOf(c: Child): (a: Area)
    ensures c.isPlaceholder ==> a == Infinite
    ensures !c.isPlaceholder && (c.shape == Line || c.shape == Point) ==> a == Finite(0.0)
    ensures a.Finite? && (c.shape == Polygon || c.shape == PolygonMask) ==> a.v >= 0.0
  {
    if c.isPlaceholder then Infinite
    else if (c.shape == Polygon || c.shape == PolygonMask) && |c.polygonPoints| > 0 then
      if |c.polygonPoints| < 3 then Infinite
      else Finite(AbsR(Shoelace(c.polygonPoints)) / 2.0)
    else if c.shape == Rectangle then
      if c.width.None? || c.height.None? then Infinite else Finite(c.width.value * c.height.value)
    else if c.shape == Circle then
      if c.radius.None? || c.radius.value <= 0.0 then Infinite
      else Finite(Pi * c.radius.value * c.radius.value)
    else if c.shape == Line || c.shape == Point then Finite(0.0)
    else Infinite
  }

  /** ChildLabel.get_area, with the shoelace accumulator loop of the source. */
  method GetArea(c: Child) returns (a: Area)
    ensures a == AreaOf(c)
  {
    if c.isPlaceholder {
      return Infinite;
    }
    if (c.shape == Polygon || c.shape == PolygonMask) && |c.polygonPoints| > 0 {
      var pts := c.polygonPoints;
      if |pts| < 3 {
        return Infinite;
      }
      var area := 0.0;
      var n := |pts|;
      var i := 0;
      while i < n
        invariant 0 <= i <= n
        invariant area == ShoelacePrefix(pts, i)
      {
        var j := (i + 1) % n;
        area := area + pts[i].x * pts[j].y;
        area := area - pts[j].x * pts[i].y;
        i := i + 1;
      }
      return Finite(AbsR(area) / 2.0);
    } else if c.shape == Rectangle {
      if c.width.None? || c.height.None? {
        return Infinite;
      }
      return Finite(c.width.value * c.height.value);
    } else if c.shape == Circle {
      if c.radius.None? || c.radius.value <= 0.0 {
        return Infinite;
      }
      return Finite(Pi * c.radius.value * c.radius.value);
    } else if c.shape == Line || c.shape == Point {
      return Finite(0.0);
    }
    return Infinite;
  }

  // ---------------------------------------------------------------------
  // Hit testing
  // ---------------------------------------------------------------------

  /** One edge p1 -> p2 of the ray cast of `_point_in_polygon` toggles the result. */
  predicate EdgeToggles(p1: Pt, p2: Pt, x: real, y: real)
  {
    y > MinR(p1.y, p2.y) && y <= MaxR(p1.y, p2.y) && x <= MaxR(p1.x, p2.x) &&
    // y strictly above the lower end and not above the upper one forces p1.y != p2.y,
    // so the intersection is always freshly computed here
    (p1.x == p2.x || x <= XIntersect(p1.x, p1.y, p2.x, p2.y, y))
  }

  /** The x where the edge crosses the horizontal line at height y. */
  function XIntersect(p1x: real, p1y: real, p2x: real, p2y: real, y: real): real
    requires p1y != p2y
  {
    (y - p1y) * (p2x - p1x) / (p2y - p1y) + p1x
  }

  lemma ModWrap(i: int, n: int)
    requires 0 < n && 0 <= i <= n
    ensures i % n == if i == n then 0 else i
  {}

  /** The toggle state after the edges ending at vertices 1..k (vertex n is vertex 0). */
  function RayCast(poly: seq<Pt>, x: real, y: real, k: nat): bool
    requires 0 < |poly| && k <= |poly|
  {
    if k == 0 then false
    else RayCast(poly, x, y, k - 1) != EdgeToggles(poly[k - 1], poly[k % |poly|], x, y)
  }

  /**
   * `_point_in_polygon`. The source indexes `polygon[0]` first, so an empty
   * polygon raises there; every caller passes a non-empty one.
   */
  method PointInPolygon(x: real, y: real, poly: seq<Pt>) returns (inside: bool)
    requires |poly| > 0
    ensures inside == RayCast(poly, x, y, |poly|)
  {
    var n := |poly|;
    inside := false;
    var p1x, p1y := poly[0].x, poly[0].y;
    var xinters := 0.0;
    var i := 1;
    while i < n + 1
      invariant 1 <= i <= n + 1
      invariant i <= n ==> p1x == poly[i - 1].x && p1y == poly[i - 1].y
      invariant inside == RayCast(poly, x, y, i - 1)
    {
      var p2x, p2y := poly[i % n].x, poly[i % n].y;
      ModWrap(i, n);
      var toggled := false;
      if y > MinR(p1y, p2y) {
        if y <= MaxR(p1y, p2y) {
          if x <= MaxR(p1x, p2x) {
            if p1y != p2y {
              xinters := XIntersect(p1x, p1y, p2x, p2y, y);
            }
            if p1x == p2x || x <= xinters {
              toggled := true;
            }
          }
        }
      }
      assert toggled == EdgeToggles(Pt(p1x, p1y), Pt(p2x, p2y), x, y);
      if toggled {
        inside := !inside;
      }
      p1x, p1y := p2x, p2y;
      i := i + 1;
    }
  }

  function PointInPolygonSpec(x: real, y: real, poly: seq<Pt>): bool
  {
    if |poly| == 0 then false else RayCast(poly, x, y, |poly|)
  }

  /**
   * On an axis-aligned rectangle listed corner by corner, the ray cast accepts
   * exactly the half-open box (x1, x2] x (y1, y2].
   */
  lemma {:induction false} RayCastRectangle(x1: real, y1: real, x2: real, y2: real, x: real, y: real)
    requires x1 < x2 && y1 < y2
    ensures PointInPolygonSpec(x, y, [Pt(x1, y1), Pt(x2, y1), Pt(x2, y2), Pt(x1, y2)]) ==
            (x1 < x <= x2 && y1 < y <= y2)
  {
    var poly := [Pt(x1, y1), Pt(x2, y1), Pt(x2, y2), Pt(x1, y2)];
    assert !EdgeToggles(poly[0], poly[1], x, y);
    assert EdgeToggles(poly[1], poly[2], x, y) == (y1 < y <= y2 && x <= x2);
    assert !EdgeToggles(poly[2], poly[3], x, y);
    assert EdgeToggles(poly[3], poly[0], x, y) == (y1 < y <= y2 && x <= x1);
    assert RayCast(poly, x, y, 1) == false;
    assert RayCast(poly, x, y, 2) == (y1 < y <= y2 && x <= x2);
    assert RayCast(poly, x, y, 3) == RayCast(poly, x, y, 2);
    assert RayCast(poly, x, y, 4) == (RayCast(poly, x, y, 3) != EdgeToggles(poly[3], poly[0], x, y));
  }

  /** A point above every vertex is outside: no edge reaches its height. */
  lemma {:induction false} RayCastAboveIsOutside(poly: seq<Pt>, x: real, y: real, k: nat)
    requires 0 < |poly| && k <= |poly|
    requires forall i :: 0 <= i < |poly| ==> poly[i].y < y
    ensures !RayCast(poly, x, y, k)
  {
    if k > 0 {
      RayCastAboveIsOutside(poly, x, y, k - 1);
      assert !EdgeToggles(poly[k - 1], poly[k % |poly|], x, y);
    }
  }

  /** Squared distance from (px, py) to the segment a-b, as dist_to_seg computes it before hypot. */
  function SqNorm(a: real, b: real): (r: real)
    ensures r >= 0.0
  {
    SquareNonNegative(a);
    SquareNonNegative(b);
    a * a + b * b
  }

  lemma SquareNonNegative(a: real)
    ensures a * a >= 0.0
  {
    if a < 0.0 {
      assert a * a == (-a) * (-a);
    }
  }

  /** Squared distance from (px, py) to the point at parameter t on the segment s-e. */
  function SegPointDist2(px: real, py: real, sx: real, sy: real, ex: real, ey: real, t: real): real
  {
    SqNorm(px - (sx + t * (ex - sx)), py - (sy + t * (ey - sy)))
  }

  /**
   * `dist_to_seg` before `hypot`: the projection parameter of p onto the
   * segment, cut to the nearer end when it falls outside [0, 1], and the
   * squared distance to the point it picks.
   */
  function SegDist2(px: real, py: real, sx: real, sy: real, ex: real, ey: real): (d: real)
    ensures d >= 0.0
  {
    var vx, vy := ex - sx, ey - sy;
    var wx, wy := px - sx, py - sy;
    var c1 := vx * wx + vy * wy;
    var c2 := vx * vx + vy * vy;
    if c1 <= 0.0 || c2 <= 0.0 then SqNorm(wx, wy)
    else
      var t := c1 / c2;
      if t >= 1.0 then SqNorm(px - ex, py - ey)
      else SqNorm(px - (sx + t * vx), py - (sy + t * vy))
  }

  /** The quadratic n - 2 t c1 + t^2 c2 that the squared distance along a segment follows. */
  function Quad(n: real, c1: real, c2: real, t: real): real
  {
    n - 2.0 * t * c1 + t * t * c2
  }

  /** |w|^2, v . w and |v|^2 for v = e - s and w = p - s, as `dist_to_seg` names them. */
  function SegN(px: real, py: real, sx: real, sy: real): real
  {
    (px - sx) * (px - sx) + (py - sy) * (py - sy)
  }

  function SegC1(px: real, py: real, sx: real, sy: real, ex: real, ey: real): real
  {
    (ex - sx) * (px - sx) + (ey - sy) * (py - sy)
  }

  function SegC2(sx: real, sy: real, ex: real, ey: real): (r: real)
    ensures r >= 0.0
  {
    SquareNonNegative(ex - sx);
    SquareNonNegative(ey - sy);
    (ex - sx) * (ex - sx) + (ey - sy) * (ey - sy)
  }

  /** The squared distance along the segment as a quadratic in t. */
  lemma SegPointDist2Expand(px: real, py: real, sx: real, sy: real, ex: real, ey: real, t: real)
    ensures SegPointDist2(px, py, sx, sy, ex, ey, t)
      == Quad(SegN(px, py, sx, sy), SegC1(px, py, sx, sy, ex, ey), SegC2(sx, sy, ex, ey), t)
  {
    var vx, vy, wx, wy := ex - sx, ey - sy, px - sx, py - sy;
    assert px - (sx + t * vx) == wx - t * vx;
    assert py - (sy + t * vy) == wy - t * vy;
    assert (wx - t * vx) * (wx - t * vx) == wx * wx - 2.0 * t * (vx * wx) + t * t * (vx * vx);
    assert (wy - t * vy) * (wy - t * vy) == wy * wy - 2.0 * t * (vy * wy) + t * t * (vy * vy);
  }

  /**
   * A segment whose ends coincide has no projection slope: since the squared
   * distance to every point of the line is non-negative, v . w must vanish.
   */
  lemma {:induction false} DegenerateSegment(px: real, py: real, sx: real, sy: real, ex: real, ey: real)
    requires SegC2(sx, sy, ex, ey) <= 0.0
    ensures SegC1(px, py, sx, sy, ex, ey) == 0.0 && SegC2(sx, sy, ex, ey) == 0.0
  {
    var c1, c2, n := SegC1(px, py, sx, sy, ex, ey), SegC2(sx, sy, ex, ey), SegN(px, py, sx, sy);
    var k := if c1 == 0.0 then 0.0 else (n + 1.0) / (2.0 * c1);
    SegPointDist2Expand(px, py, sx, sy, ex, ey, k);
    assert Quad(n, c1, c2, k) >= 0.0;
    assert c2 == 0.0;
    assert k * k * c2 == 0.0;
    assert 2.0 * k * c1 == (if c1 == 0.0 then 0.0 else n + 1.0);
  }

  lemma ProductSign(a: real, b: real)
    requires a >= 0.0
    ensures b >= 0.0 ==> a * b >= 0.0
    ensures b <= 0.0 ==> a * b <= 0.0
  {
    if b < 0.0 {
      assert a * b == -(a * (-b));
    }
  }

  /** Below 0 the quadratic only grows along t >= 0. */
  lemma QuadraticLeastAtZero(n: real, c1: real, c2: real, t: real)
    requires c1 <= 0.0 && c2 >= 0.0 && t >= 0.0
    ensures Quad(n, c1, c2, 0.0) <= Quad(n, c1, c2, t)
  {
    ProductSign(t, c1);
    SquareNonNegative(t);
    ProductSign(t * t, c2);
  }

  /** Past 1 the quadratic only falls along t <= 1. */
  lemma QuadraticLeastAtOne(n: real, c1: real, c2: real, t: real)
    requires c1 >= c2 >= 0.0 && t <= 1.0
    ensures Quad(n, c1, c2, 1.0) <= Quad(n, c1, c2, t)
  {
    var g := -2.0 * c1 + (t + 1.0) * c2;
    assert Quad(n, c1, c2, t) - Quad(n, c1, c2, 1.0) == (t - 1.0) * g;
    ProductSign(2.0 - (t + 1.0), c2);
    assert g <= 0.0;
    ProductSign(1.0 - t, g);
    assert (t - 1.0) * g == -((1.0 - t) * g);
  }

  /** The quadratic is least at its vertex c1 / c2. */
  lemma QuadraticLeastAtVertex(n: real, c1: real, c2: real, t: real)
    requires c2 > 0.0
    ensures Quad(n, c1, c2, c1 / c2) <= Quad(n, c1, c2, t)
  {
    var s := c1 / c2;
    assert c1 == s * c2;
    assert Quad(n, c1, c2, t) - Quad(n, c1, c2, s) == c2 * ((t - s) * (t - s));
    SquareNonNegative(t - s);
    ProductSign((t - s) * (t - s), c2);
  }

  /** The parameter `dist_to_seg` picks: the projection of p onto the segment, cut to [0, 1]. */
  function SegParam(px: real, py: real, sx: real, sy: real, ex: real, ey: real): (t: real)
    ensures 0.0 <= t <= 1.0
  {
    var c1 := SegC1(px, py, sx, sy, ex, ey);
    var c2 := SegC2(sx, sy, ex, ey);
    if c1 <= 0.0 || c2 <= 0.0 then 0.0
    else if c1 / c2 >= 1.0 then 1.0
    else c1 / c2
  }

  /** `SegDist2` is the squared distance to the point at the cut projection. */
  lemma {:induction false} SegDist2AtParam(px: real, py: real, sx: real, sy: real, ex: real, ey: real)
    ensures SegDist2(px, py, sx, sy, ex, ey) == SegPointDist2(px, py, sx, sy, ex, ey, SegParam(px, py, sx, sy, ex, ey))
  {
    var c1 := (ex - sx) * (px - sx) + (ey - sy) * (py - sy);
    var c2 := (ex - sx) * (ex - sx) + (ey - sy) * (ey - sy);
    if c1 <= 0.0 || c2 <= 0.0 {
      assert SegParam(px, py, sx, sy, ex, ey) == 0.0;
      assert px - (sx + 0.0 * (ex - sx)) == px - sx;
      assert py - (sy + 0.0 * (ey - sy)) == py - sy;
    } else if c1 / c2 >= 1.0 {
      assert SegParam(px, py, sx, sy, ex, ey) == 1.0;
      assert px - (sx + 1.0 * (ex - sx)) == px - ex;
      assert py - (sy + 1.0 * (ey - sy)) == py - ey;
    }
  }

  /** Some point of the segment is exactly at the distance `SegDist2` reports: the cut projection. */
  lemma SegDist2Attained(px: real, py: real, sx: real, sy: real, ex: real, ey: real)
    ensures exists t :: 0.0 <= t <= 1.0 && SegDist2(px, py, sx, sy, ex, ey) == SegPointDist2(px, py, sx, sy, ex, ey, t)
  {
    SegDist2AtParam(px, py, sx, sy, ex, ey);
  }

  /** The cut projection is the nearest point of the segment's parameter range. */
  lemma {:induction false} SegParamLeast(px: real, py: real, sx: real, sy: real, ex: real, ey: real, t: real)
    requires 0.0 <= t <= 1.0
    ensures var n, c1, c2 := SegN(px, py, sx, sy), SegC1(px, py, sx, sy, ex, ey), SegC2(sx, sy, ex, ey);
      Quad(n, c1, c2, SegParam(px, py, sx, sy, ex, ey)) <= Quad(n, c1, c2, t)
  {
    var n, c1, c2 := SegN(px, py, sx, sy), SegC1(px, py, sx, sy, ex, ey), SegC2(sx, sy, ex, ey);
    if c2 <= 0.0 {
      DegenerateSegment(px, py, sx, sy, ex, ey);
    } else if c1 <= 0.0 {
      QuadraticLeastAtZero(n, c1, c2, t);
    } else if c1 / c2 >= 1.0 {
      assert c1 >= c2 by {
        assert c1 == (c1 / c2) * c2;
        ProductSign(c1 / c2 - 1.0, c2);
      }
      QuadraticLeastAtOne(n, c1, c2, t);
    } else {
      QuadraticLeastAtVertex(n, c1, c2, t);
    }
  }

  /** No point of the segment is nearer to p than the distance `SegDist2` reports. */
  lemma SegDist2Minimal(px: real, py: real, sx: real, sy: real, ex: real, ey: real, t: real)
    requires 0.0 <= t <= 1.0
    ensures SegDist2(px, py, sx, sy, ex, ey) <= SegPointDist2(px, py, sx, sy, ex, ey, t)
  {
    SegDist2AtParam(px, py, sx, sy, ex, ey);
    SegPointDist2Expand(px, py, sx, sy, ex, ey, t);
    SegPointDist2Expand(px, py, sx, sy, ex, ey, SegParam(px, py, sx, sy, ex, ey));
    SegParamLeast(px, py, sx, sy, ex, ey, t);
  }

  /**
   * ChildLabel.is_point_inside. `other` decides the branches that need
   * trigonometry (a rotated line, rectangle or polygon) or mask pixels (a
   * polygon_mask that carries mask data).
   */
  predicate IsPointInside(c: Child, x: real, y: real, other: (Child, real, real) -> bool)
  {
    if c.isPlaceholder then false
    else if c.shape == Point then
      if c.xCenter.None? || c.yCenter.None? then
        |c.points| >= 2 && (x - c.points[0]) * (x - c.points[0]) + (y - c.points[1]) * (y - c.points[1])
                           <= HitTolerance * HitTolerance
      else
        (x - c.xCenter.value) * (x - c.xCenter.value) + (y - c.yCenter.value) * (y - c.yCenter.value)
          <= HitTolerance * HitTolerance
    else if c.shape == Line then
      if |c.points| < 4 then false
      else if c.rotationAngle != 0.0 && c.xCenter.Some? && c.yCenter.Some? then other(c, x, y)
      else SegDist2(x, y, c.points[0], c.points[1], c.points[2], c.points[3]) <= HitTolerance * HitTolerance
    else if c.isObb && |c.cornerPoints| > 0 then
      PointInPolygonSpec(x, y, c.cornerPoints)
    else if (c.shape == Polygon || c.shape == PolygonMask) && |c.polygonPoints| > 0 then
      if c.shape == PolygonMask && c.hasMask then other(c, x, y)
      else if c.rotationAngle != 0.0 then other(c, x, y)
      else PointInPolygonSpec(x, y, c.polygonPoints)
    else if c.shape == Rectangle then
      if c.rotationAngle != 0.0 then other(c, x, y)
      else if c.xCenter.None? || c.yCenter.None? || c.width.None? || c.height.None? then false
      else
        c.xCenter.value - c.width.value / 2.0 <= x <= c.xCenter.value + c.width.value / 2.0 &&
        c.yCenter.value - c.height.value / 2.0 <= y <= c.yCenter.value + c.height.value / 2.0
    else false
  }

  /**
   * An unrotated rectangle drawn from two corners contains exactly the closed
   * box between them.
   */
  lemma {:induction false} RectangleHitInclusive(parent: Parent, x1: real, y1: real, x2: real, y2: real,
                                                  mode: Mode, x: real, y: real, other: (Child, real, real) -> bool)
    ensures var c := NewChild(parent, RectCorners(x1, y1, x2, y2), mode, false, Rectangle, [], 0.0, false);
      IsPointInside(c, x, y, other) ==
        (MinR(x1, x2) <= x <= MaxR(x1, x2) && MinR(y1, y2) <= y <= MaxR(y1, y2))
  {
    RectangleFromCorners(parent, x1, y1, x2, y2, mode, [], 0.0, false);
    NormalizeAngleFixesRange(0.0);
  }

  /** A point label is hit exactly within 5 pixels of its position. */
  lemma {:induction false} PointHitRadius(parent: Parent, px: real, py: real, mode: Mode,
                                          x: real, y: real, other: (Child, real, real) -> bool)
    ensures var c := NewChild(parent, [px, py], mode, false, Point, [], 0.0, false);
      IsPointInside(c, x, y, other) == ((x - px) * (x - px) + (y - py) * (y - py) <= 25.0)
  {}
}
