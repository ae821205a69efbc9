// The process-wide model registry: the weight-path safety check, the guards
// on loading and switching models, and the search for a detector weight
// that finds something inside given boxes.

module ModelLoader {
  import opened Wrappers
  import opened PyNum

  // ---------------------------------------------------------------------
  // Paths
  // ---------------------------------------------------------------------

  /** A path as written, split at its separators; `absolute` when it starts at the root. */
  datatype PathArg = PathArg(absolute: bool, parts: seq<string>)

  /** The empty string, the only path Python treats as false. */
  predicate IsEmptyPath(p: PathArg)
  {
    !p.absolute && p.parts == []
  }

  /** A component that names a directory entry, not "", "." or "..". */
  predicate Plain(c: string)
  {
    c != "" && c != "." && c != ".."
  }

  /**
   * `normpath` on the components of an absolute path: empty and "."
   * components vanish and ".." removes the one before it (none at the root).
   */
  function Normalize(parts: seq<string>): (r: seq<string>)
    ensures forall i :: 0 <= i < |r| ==> Plain(r[i])
  {
    if |parts| == 0 then []
    else
      var prev := Normalize(parts[..|parts| - 1]);
      var c := parts[|parts| - 1];
      if c == "" || c == "." then prev
      else if c == ".." then (if |prev| > 0 then prev[..|prev| - 1] else prev)
      else prev + [c]
  }

  /** Normalising twice changes nothing more. */
  lemma {:induction false} NormalizeIdempotent(parts: seq<string>)
    ensures Normalize(Normalize(parts)) == Normalize(parts)
  {
    PlainNormalized(Normalize(parts));
  }

  lemma {:induction false} PlainNormalized(parts: seq<string>)
    requires forall i :: 0 <= i < |parts| ==> Plain(parts[i])
    ensures Normalize(parts) == parts
  {
    if |parts| > 0 {
      PlainNormalized(parts[..|parts| - 1]);
    }
  }

  /** `os.path.abspath`: a relative path is joined to the working directory, then normalised. */
  function AbsPath(p: PathArg, cwd: seq<string>): (r: seq<string>)
    ensures forall i :: 0 <= i < |r| ==> Plain(r[i])
  {
    Normalize(if p.absolute then p.parts else cwd + p.parts)
  }

  predicate IsPrefix(a: seq<string>, b: seq<string>)
  {
    |a| <= |b| && b[..|a|] == a
  }

  /** `os.path.commonpath` of two absolute normalised paths: their longest shared leading run. */
  function CommonPath(a: seq<string>, b: seq<string>): (r: seq<string>)
    ensures |r| <= |a| && |r| <= |b|
  {
    if |a| == 0 || |b| == 0 || a[0] != b[0] then [] else [a[0]] + CommonPath(a[1..], b[1..])
  }

  /** The common path is the directory itself exactly when the directory is a leading run of the path. */
  lemma {:induction false} CommonPathIsDir(path: seq<string>, dir: seq<string>)
    ensures CommonPath(path, dir) == dir <==> IsPrefix(dir, path)
  {
    if |path| > 0 && |dir| > 0 && path[0] == dir[0] {
      CommonPathIsDir(path[1..], dir[1..]);
      assert dir == [dir[0]] + dir[1..];
      if IsPrefix(dir, path) {
        assert path[1..][..|dir| - 1] == path[..|dir|][1..];
      }
      if IsPrefix(dir[1..], path[1..]) {
        assert path[..|dir|] == [path[0]] + path[1..][..|dir| - 1];
      }
    } else if |dir| > 0 {
      if |path| > 0 && |dir| <= |path| {
        assert path[..|dir|][0] == path[0];
      }
    }
  }

  /** The last component, "" for the root. */
  function Basename(parts: seq<string>): string
  {
    if |parts| == 0 then "" else parts[|parts| - 1]
  }

  /** Index of the last "." in `s`, if any. */
  function LastDot(s: string): (r: Option<nat>)
    ensures r.Some? ==> r.value < |s| && s[r.value] == '.' && forall j :: r.value < j < |s| ==> s[j] != '.'
    ensures r.None? ==> forall j :: 0 <= j < |s| ==> s[j] != '.'
  {
    if |s| == 0 then None
    else if s[|s| - 1] == '.' then Some(|s| - 1)
    else LastDot(s[..|s| - 1])
  }

  /**
   * `os.path.splitext(...)[1]` of a file name: from the last dot on, unless
   * only dots come before it (a leading-dot name has no extension).
   */
  function Extension(name: string): (e: string)
    ensures e == "" || (e[0] == '.' && exists k :: 0 <= k < |name| && name[k] != '.')
  {
    match LastDot(name)
    case None => ""
    case Some(i) =>
      if forall j :: 0 <= j < i ==> name[j] == '.' then "" else name[i..]
  }

  /** What the checks ask of the machine: the working directory, the file system and the frozen-build directories. */
  datatype Env = Env(
    cwd: seq<string>,
    exists_: seq<string> -> bool,
    isFile: seq<string> -> bool,
    extraDirs: seq<PathArg>)

  /** The directories a weight may come from: the given ones, then the frozen build's. */
  function SearchDirs(allowed: seq<PathArg>, env: Env): seq<PathArg>
  {
    allowed + env.extraDirs
  }

  /** Some directory of `dirs` is a leading run of the absolute path `ap`. */
  predicate UnderSome(ap: seq<string>, dirs: seq<PathArg>, cwd: seq<string>)
  {
    exists i :: 0 <= i < |dirs| && CommonPath(ap, AbsPath(dirs[i], cwd)) == AbsPath(dirs[i], cwd)
  }

  /** `_is_safe_weight`. */
  predicate SafeWeight(path: PathArg, allowed: seq<PathArg>, exts: set<string>, env: Env)
  {
    var ap := AbsPath(path, env.cwd);
    !IsEmptyPath(path) && env.isFile(ap) && LowerAscii(Extension(Basename(ap))) in exts
    && UnderSome(ap, SearchDirs(allowed, env), env.cwd)
  }

  /**
   * An accepted weight is a file with an allowed extension (in any ASCII
   * case) whose normalised absolute path, free of "." and "..", lies under an
   * allowed directory; the empty path is never accepted.
   */
  lemma SafeWeightContained(path: PathArg, allowed: seq<PathArg>, exts: set<string>, env: Env)
    ensures SafeWeight(path, allowed, exts, env) <==>
      var ap := AbsPath(path, env.cwd);
      var dirs := SearchDirs(allowed, env);
      !IsEmptyPath(path) && env.isFile(ap) && LowerAscii(Extension(Basename(ap))) in exts
      && exists i :: 0 <= i < |dirs| && IsPrefix(AbsPath(dirs[i], env.cwd), ap)
    ensures var ap := AbsPath(path, env.cwd); forall i :: 0 <= i < |ap| ==> Plain(ap[i])
  {
    var ap := AbsPath(path, env.cwd);
    var dirs := SearchDirs(allowed, env);
    forall i | 0 <= i < |dirs|
      ensures CommonPath(ap, AbsPath(dirs[i], env.cwd)) == AbsPath(dirs[i], env.cwd)
          <==> IsPrefix(AbsPath(dirs[i], env.cwd), ap)
    {
      CommonPathIsDir(ap, AbsPath(dirs[i], env.cwd));
    }
  }

  /** "../" cannot climb out: a rect weight reached through ".." is judged where it really is. */
  lemma DotDotJudgedWhereItLands(dir: seq<string>, outside: string, env: Env)
    requires forall i :: 0 <= i < |dir| ==> Plain(dir[i])
    requires |dir| > 0 && Plain(outside) && outside != dir[|dir| - 1]
    ensures AbsPath(PathArg(true, dir + ["..", outside]), env.cwd) == dir[..|dir| - 1] + [outside]
    ensures !IsPrefix(dir, AbsPath(PathArg(true, dir + ["..", outside]), env.cwd))
  {
    var p := dir + ["..", outside];
    assert p[..|p| - 1] == dir + [".."];
    assert (dir + [".."])[..|dir|] == dir;
    PlainNormalized(dir);
    var r := dir[..|dir| - 1] + [outside];
    assert Normalize(dir + [".."]) == dir[..|dir| - 1];
    assert Normalize(p) == Normalize(dir + [".."]) + [outside];
    assert AbsPath(PathArg(true, p), env.cwd) == r;
  }

  /** The directory loop of `_is_safe_weight`, returning at the first directory that contains the path. */
  method ScanAllowed(ap: seq<string>, dirs: seq<PathArg>, cwd: seq<string>) returns (found: bool)
    ensures found == UnderSome(ap, dirs, cwd)
  {
    var i := 0;
    while i < |dirs|
      invariant 0 <= i <= |dirs|
      invariant forall j :: 0 <= j < i ==> CommonPath(ap, AbsPath(dirs[j], cwd)) != AbsPath(dirs[j], cwd)
    {
      var ad := AbsPath(dirs[i], cwd);
      if CommonPath(ap, ad) == ad {
        return true;
      }
      i := i + 1;
    }
    return false;
  }

  /** `_is_safe_weight`, step by step. */
  method IsSafeWeight(path: PathArg, allowed: seq<PathArg>, exts: set<string>, env: Env) returns (ok: bool)
    ensures ok == SafeWeight(path, allowed, exts, env)
  {
    if IsEmptyPath(path) {
      return false;
    }
    var ap := AbsPath(path, env.cwd);
    if !env.isFile(ap) {
      return false;
    }
    if LowerAscii(Extension(Basename(ap))) !in exts {
      return false;
    }
    ok := ScanAllowed(ap, SearchDirs(allowed, env), env.cwd);
  }

  // ---------------------------------------------------------------------
  // Models and detector output
  // ---------------------------------------------------------------------

  /** A loaded model; `pt` is its `pt` attribute, the weight it came from, when it has one. */
  datatype Model = Model(id: int, pt: Option<PathArg>)

  /** The model constructors of the detection library, by class name; `None` when construction fails. */
  type Builder = (string, PathArg) -> Option<Model>

  /** One detector box: corners, confidence and class, as the model reports them. */
  datatype RawBox = RawBox(x1: real, y1: real, x2: real, y2: real, conf: real, cls: real)

  /** One kept detection: the corners rounded to two decimals, the confidence and the class id. */
  datatype Found = Found(bbox: seq<real>, confidence: real, classId: int)

  function Rounded(b: RawBox): (r: seq<real>)
    ensures |r| == 4
  {
    [Round2(b.x1), Round2(b.y1), Round2(b.x2), Round2(b.y2)]
  }

  /** The point (cx, cy) lies in the input box [x1, y1, x2, y2], edges included. */
  predicate InBox(q: seq<real>, cx: real, cy: real)
    requires |q| == 4
  {
    q[0] <= cx <= q[2] && q[1] <= cy <= q[3]
  }

  predicate AllQuads(qs: seq<seq<real>>)
  {
    forall k :: 0 <= k < |qs| ==> |qs[k]| == 4
  }

  predicate CentreInSome(qs: seq<seq<real>>, cx: real, cy: real)
    requires AllQuads(qs)
  {
    exists k :: 0 <= k < |qs| && InBox(qs[k], cx, cy)
  }

  /** A box is kept when it is confident enough and its rounded centre lies in one of the input boxes. */
  predicate Keeps(qs: seq<seq<real>>, threshold: real, b: RawBox)
    requires AllQuads(qs)
  {
    var r := Rounded(b);
    b.conf >= threshold && CentreInSome(qs, (r[0] + r[2]) / 2.0, (r[1] + r[3]) / 2.0)
  }

  function ToFound(b: RawBox): Found
  {
    Found(Rounded(b), b.conf, Trunc(b.cls))
  }

  /** The detections the search keeps, in the detector's order. */
  function KeptBoxes(boxes: seq<RawBox>, qs: seq<seq<real>>, threshold: real): (r: seq<Found>)
    requires AllQuads(qs)
    ensures |r| <= |boxes|
  {
    if |boxes| == 0 then []
    else
      var b := boxes[|boxes| - 1];
      KeptBoxes(boxes[..|boxes| - 1], qs, threshold) + (if Keeps(qs, threshold, b) then [ToFound(b)] else [])
  }

  /** A detection is kept exactly when some detector box it comes from passes the confidence and centre tests. */
  lemma {:induction false} KeptBoxesMembership(boxes: seq<RawBox>, qs: seq<seq<real>>, threshold: real, f: Found)
    requires AllQuads(qs)
    ensures f in KeptBoxes(boxes, qs, threshold) <==>
      exists j :: 0 <= j < |boxes| && Keeps(qs, threshold, boxes[j]) && f == ToFound(boxes[j])
  {
    if f in KeptBoxes(boxes, qs, threshold) {
      var j := KeptBoxSource(boxes, qs, threshold, f);
    }
    if exists j :: 0 <= j < |boxes| && Keeps(qs, threshold, boxes[j]) && f == ToFound(boxes[j]) {
      var j :| 0 <= j < |boxes| && Keeps(qs, threshold, boxes[j]) && f == ToFound(boxes[j]);
      KeptBoxKept(boxes, qs, threshold, j);
    }
  }

  /** The detector box a kept detection comes from. */
  lemma {:induction false} KeptBoxSource(boxes: seq<RawBox>, qs: seq<seq<real>>, threshold: real, f: Found)
    returns (j: nat)
    requires AllQuads(qs) && f in KeptBoxes(boxes, qs, threshold)
    ensures j < |boxes| && Keeps(qs, threshold, boxes[j]) && f == ToFound(boxes[j])
  {
    var init, b := boxes[..|boxes| - 1], boxes[|boxes| - 1];
    var tail := if Keeps(qs, threshold, b) then [ToFound(b)] else [];
    assert KeptBoxes(boxes, qs, threshold) == KeptBoxes(init, qs, threshold) + tail;
    if f in KeptBoxes(init, qs, threshold) {
      j := KeptBoxSource(init, qs, threshold, f);
      assert boxes[j] == init[j];
    } else {
      assert f in tail;
      j := |boxes| - 1;
    }
  }

  /** A detector box that passes the tests is kept. */
  lemma {:induction false} KeptBoxKept(boxes: seq<RawBox>, qs: seq<seq<real>>, threshold: real, j: nat)
    requires AllQuads(qs) && j < |boxes| && Keeps(qs, threshold, boxes[j])
    ensures ToFound(boxes[j]) in KeptBoxes(boxes, qs, threshold)
  {
    var init, b := boxes[..|boxes| - 1], boxes[|boxes| - 1];
    var tail := if Keeps(qs, threshold, b) then [ToFound(b)] else [];
    assert KeptBoxes(boxes, qs, threshold) == KeptBoxes(init, qs, threshold) + tail;
    if j < |init| {
      assert init[j] == boxes[j];
      KeptBoxKept(init, qs, threshold, j);
    } else {
      assert tail == [ToFound(boxes[j])];
    }
  }

  /** Every kept detection is confident enough and centred in an input box. */
  lemma KeptBoxesSound(boxes: seq<RawBox>, qs: seq<seq<real>>, threshold: real, f: Found)
    requires AllQuads(qs) && f in KeptBoxes(boxes, qs, threshold)
    ensures |f.bbox| == 4 && f.confidence >= threshold
    ensures CentreInSome(qs, (f.bbox[0] + f.bbox[2]) / 2.0, (f.bbox[1] + f.bbox[3]) / 2.0)
  {
    KeptBoxesMembership(boxes, qs, threshold, f);
  }

  /** The loop that turns the detector's boxes into kept detections. */
  method CollectFound(boxes: seq<RawBox>, qs: seq<seq<real>>, threshold: real) returns (out: seq<Found>)
    requires AllQuads(qs)
    ensures out == KeptBoxes(boxes, qs, threshold)
  {
    out := [];
    var i := 0;
    while i < |boxes|
      invariant 0 <= i <= |boxes|
      invariant out == KeptBoxes(boxes[..i], qs, threshold)
    {
      var b := boxes[i];
      assert boxes[..i + 1][..i] == boxes[..i];
      if b.conf >= threshold {
        var r := Rounded(b);
        var cx, cy := (r[0] + r[2]) / 2.0, (r[1] + r[3]) / 2.0;
        var k := 0;
        var hit := false;
        while k < |qs| && !hit
          invariant 0 <= k <= |qs|
          invariant hit ==> CentreInSome(qs, cx, cy)
          invariant !hit ==> forall j :: 0 <= j < k ==> !InBox(qs[j], cx, cy)
        {
          if InBox(qs[k], cx, cy) {
            hit := true;
          }
          k := k + 1;
        }
        if hit {
          out := out + [ToFound(b)];
        }
      }
      i := i + 1;
    }
    assert boxes[..i] == boxes;
  }

  // ---------------------------------------------------------------------
  // Switching the detector
  // ---------------------------------------------------------------------

  predicate OccursAt(s: string, t: string, i: int)
  {
    0 <= i && i + |t| <= |s| && s[i..i + |t|] == t
  }

  predicate Contains(s: string, t: string)
  {
    exists i :: 0 <= i <= |s| && OccursAt(s, t, i)
  }

  /** RT-DETR weights (named "rtdetr", or misspelt "rtdtr") get their own class; anything else is a YOLO. */
  function DetectorClass(w: PathArg): (cls: string)
    ensures cls == "RTDETR" || cls == "YOLO"
  {
    var name := LowerAscii(Basename(w.parts));
    if Contains(name, "rtdetr") || Contains(name, "rtdtr") then "RTDETR" else "YOLO"
  }

  /** The guards of `switch_yolov_model`: a non-empty existing path, safe as a ".pt" under a rect directory. */
  predicate DetectorSwitchable(w: PathArg, rectDirs: seq<PathArg>, env: Env)
  {
    !IsEmptyPath(w) && env.exists_(AbsPath(w, env.cwd)) && SafeWeight(w, rectDirs, {".pt"}, env)
  }

  /** `switch_yolov_model` on the registry: whether it succeeded and the registry it leaves. */
  function SwitchDetector(m: map<string, Model>, w: PathArg, rectDirs: seq<PathArg>, env: Env, build: Builder)
    : (r: (bool, map<string, Model>))
    ensures r.0 <==> DetectorSwitchable(w, rectDirs, env) && build(DetectorClass(w), w).Some?
    ensures r.1 == (if r.0 then m["yolov" := build(DetectorClass(w), w).value] else m)
  {
    if !DetectorSwitchable(w, rectDirs, env) then (false, m)
    else
      var model := build(DetectorClass(w), w);
      if model.None? then (false, m) else (true, m["yolov" := model.value])
  }

  /** A path that is empty, missing or unsafe never replaces the detector. */
  lemma UnsafeWeightRejected(m: map<string, Model>, w: PathArg, rectDirs: seq<PathArg>, env: Env, build: Builder)
    requires IsEmptyPath(w) || !env.exists_(AbsPath(w, env.cwd)) || !SafeWeight(w, rectDirs, {".pt"}, env)
    ensures SwitchDetector(m, w, rectDirs, env, build) == (false, m)
  {
  }

  // ---------------------------------------------------------------------
  // The weight search
  // ---------------------------------------------------------------------

  /** The fixed inputs of one search. */
  datatype Search = Search(
    weights: seq<PathArg>,
    rectDirs: seq<PathArg>,
    env: Env,
    build: Builder,
    detect: Model -> Option<seq<RawBox>>,
    boxes: seq<seq<real>>,
    threshold: real)

  /** What the detector finds with the current registry: nothing without a "yolov" model. */
  function Detect(m: map<string, Model>, s: Search): Option<seq<RawBox>>
  {
    if "yolov" in m then s.detect(m["yolov"]) else None
  }

  /** The kept detections of one inference: none when it returned nothing. */
  function Outputs(m: map<string, Model>, s: Search): seq<Found>
    requires AllQuads(s.boxes)
  {
    var d := Detect(m, s);
    if d.None? then [] else KeptBoxes(d.value, s.boxes, s.threshold)
  }

  /**
   * The weight loop from position i on: tried weights are skipped, a weight
   * that fails to switch is skipped without being recorded, and the first
   * weight whose inference keeps something ends the search.
   */
  function TryFrom(s: Search, i: nat, tried: seq<PathArg>, m: map<string, Model>)
    : (r: (bool, seq<Found>, map<string, Model>))
    requires AllQuads(s.boxes)
    decreases |s.weights| - i
  {
    if i >= |s.weights| then (false, [], m)
    else
      var w := s.weights[i];
      if w in tried then TryFrom(s, i + 1, tried, m)
      else
        var sw := SwitchDetector(m, w, s.rectDirs, s.env, s.build);
        if !sw.0 then TryFrom(s, i + 1, tried, m)
        else
          var out := Outputs(sw.1, s);
          if |out| > 0 then (true, out, sw.1) else TryFrom(s, i + 1, tried + [w], sw.1)
  }

  /** The weight the current detector came from, when it is known and not empty. */
  function CurrentWeight(m: map<string, Model>): Option<PathArg>
  {
    if "yolov" in m && m["yolov"].pt.Some? && !IsEmptyPath(m["yolov"].pt.value) then m["yolov"].pt else None
  }

  /** `try_different_yolov_weights`: found or not, the detections, and the registry afterwards. */
  function TryDifferent(s: Search, m: map<string, Model>): (bool, seq<Found>, map<string, Model>)
    requires AllQuads(s.boxes)
  {
    if |s.weights| == 0 then (false, [], m)
    else
      var cur := CurrentWeight(m);
      var r := TryFrom(s, 0, if cur.Some? then [cur.value] else [], m);
      if r.0 then r
      else if cur.Some? then (false, [], SwitchDetector(r.2, cur.value, s.rectDirs, s.env, s.build).1)
      else (false, [], r.2)
  }

  /** A weight the search can switch to: it passes the guards and the library builds a model from it. */
  predicate Loadable(s: Search, w: PathArg)
  {
    DetectorSwitchable(w, s.rectDirs, s.env) && s.build(DetectorClass(w), w).Some?
  }

  /** The model the library builds from a loadable weight. */
  function BuiltFrom(s: Search, w: PathArg): Model
    requires Loadable(s, w)
  {
    s.build(DetectorClass(w), w).value
  }

  /** `m1` is `m0`, or `m0` with its detector rebuilt from one of the weights that passed the guards. */
  predicate DetectorFromSafe(m0: map<string, Model>, m1: map<string, Model>, s: Search)
  {
    m1 == m0
    || exists j :: 0 <= j < |s.weights| && Loadable(s, s.weights[j]) && m1 == m0["yolov" := BuiltFrom(s, s.weights[j])]
  }

  lemma UpdateTwice(m: map<string, Model>, k: string, a: Model, b: Model)
    ensures m[k := a][k := b] == m[k := b]
  {
  }

  lemma DetectorFromSafeStep(s: Search, i: nat, m: map<string, Model>, m1: map<string, Model>)
    requires i < |s.weights| && Loadable(s, s.weights[i])
    requires DetectorFromSafe(m["yolov" := BuiltFrom(s, s.weights[i])], m1, s)
    ensures DetectorFromSafe(m, m1, s)
  {
    var m2 := m["yolov" := BuiltFrom(s, s.weights[i])];
    if m1 == m2 {
      assert Loadable(s, s.weights[i]) && m1 == m["yolov" := BuiltFrom(s, s.weights[i])];
    } else {
      var j :| 0 <= j < |s.weights| && Loadable(s, s.weights[j]) && m1 == m2["yolov" := BuiltFrom(s, s.weights[j])];
      UpdateTwice(m, "yolov", BuiltFrom(s, s.weights[i]), BuiltFrom(s, s.weights[j]));
    }
  }

  /** The loop reports success only with a non-empty list of detections made by the detector it leaves. */
  lemma {:induction false} TryFromOutputs(s: Search, i: nat, tried: seq<PathArg>, m: map<string, Model>)
    requires AllQuads(s.boxes)
    ensures var r := TryFrom(s, i, tried, m);
      (r.0 ==> |r.1| > 0 && r.1 == Outputs(r.2, s)) && (!r.0 ==> r.1 == [])
    decreases |s.weights| - i
  {
    if i < |s.weights| {
      var w := s.weights[i];
      var r := TryFrom(s, i, tried, m);
      if w in tried || !Loadable(s, w) {
        var next := TryFrom(s, i + 1, tried, m);
        assert r == next;
        TryFromOutputs(s, i + 1, tried, m);
      } else {
        var m2 := m["yolov" := s.build(DetectorClass(w), w).value];
        assert SwitchDetector(m, w, s.rectDirs, s.env, s.build).1 == m2;
        if |Outputs(m2, s)| == 0 {
          var next := TryFrom(s, i + 1, tried + [w], m2);
          assert r == next;
          TryFromOutputs(s, i + 1, tried + [w], m2);
        } else {
          assert r.0 && r.1 == Outputs(m2, s) && r.2 == m2;
        }
      }
    }
  }

  /** The loop only ever replaces the detector, and only with a model built from a weight that passed the guards. */
  lemma {:induction false} TryFromSafe(s: Search, i: nat, tried: seq<PathArg>, m: map<string, Model>)
    requires AllQuads(s.boxes)
    ensures DetectorFromSafe(m, TryFrom(s, i, tried, m).2, s)
    decreases |s.weights| - i
  {
    if i < |s.weights| {
      var w := s.weights[i];
      if w in tried {
        TryFromSafe(s, i + 1, tried, m);
      } else if !Loadable(s, w) {
        TryFromSafe(s, i + 1, tried, m);
      } else {
        var m2 := m["yolov" := BuiltFrom(s, w)];
        if |Outputs(m2, s)| == 0 {
          TryFromSafe(s, i + 1, tried + [w], m2);
        }
        DetectorFromSafeStep(s, i, m, TryFrom(s, i, tried, m).2);
      }
    }
  }

  /** With no weights to try, nothing is found and nothing changes. */
  lemma NoWeightsNothingFound(s: Search, m: map<string, Model>)
    requires AllQuads(s.boxes) && |s.weights| == 0
    ensures TryDifferent(s, m) == (false, [], m)
  {
  }

  lemma TryDifferentOutputs(s: Search, m: map<string, Model>)
    requires AllQuads(s.boxes)
    ensures var r := TryDifferent(s, m);
      (r.0 ==> |r.1| > 0 && r.1 == Outputs(r.2, s)) && (!r.0 ==> r.1 == [])
  {
    if |s.weights| > 0 {
      var cur := CurrentWeight(m);
      TryFromOutputs(s, 0, if cur.Some? then [cur.value] else [], m);
    }
  }

  /**
   * A successful search returns detections that are confident enough and
   * centred in one of the input boxes, all made by the detector it leaves in
   * place; a failed one returns nothing.
   */
  lemma TryDifferentSound(s: Search, m: map<string, Model>)
    requires AllQuads(s.boxes)
    ensures var r := TryDifferent(s, m);
      (r.0 ==> |r.1| > 0 && r.1 == Outputs(r.2, s)
               && (forall f :: f in r.1 ==>
                     |f.bbox| == 4 && f.confidence >= s.threshold
                     && CentreInSome(s.boxes, (f.bbox[0] + f.bbox[2]) / 2.0, (f.bbox[1] + f.bbox[3]) / 2.0)))
      && (!r.0 ==> r.1 == [])
  {
    TryDifferentOutputs(s, m);
    var r := TryDifferent(s, m);
    if r.0 {
      var d := Detect(r.2, s);
      forall f | f in r.1
        ensures |f.bbox| == 4 && f.confidence >= s.threshold
          && CentreInSome(s.boxes, (f.bbox[0] + f.bbox[2]) / 2.0, (f.bbox[1] + f.bbox[3]) / 2.0)
      {
        KeptBoxesSound(d.value, s.boxes, s.threshold, f);
      }
    }
  }

  /**
   * Whatever the search does, it leaves every other model alone and the
   * detector either as it was or built from a listed weight or the original
   * one, each of which passed the guards.
   */
  lemma TryDifferentOnlySafe(s: Search, m: map<string, Model>)
    requires AllQuads(s.boxes)
    ensures var r := TryDifferent(s, m).2;
      DetectorFromSafe(m, r, s)
      || (CurrentWeight(m).Some? && Loadable(s, CurrentWeight(m).value)
          && r == m["yolov" := BuiltFrom(s, CurrentWeight(m).value)])
  {
    if |s.weights| > 0 {
      var cur := CurrentWeight(m);
      var tried := if cur.Some? then [cur.value] else [];
      TryFromSafe(s, 0, tried, m);
      var loop := TryFrom(s, 0, tried, m);
      if !loop.0 && cur.Some? && Loadable(s, cur.value) {
        if loop.2 != m {
          var j :| 0 <= j < |s.weights| && Loadable(s, s.weights[j]) && loop.2 == m["yolov" := BuiltFrom(s, s.weights[j])];
          UpdateTwice(m, "yolov", BuiltFrom(s, s.weights[j]), BuiltFrom(s, cur.value));
        }
      }
    }
  }

  /**
   * When no weight finds anything and the detector came from a known weight
   * that still passes the guards, the detector is rebuilt from that weight.
   */
  lemma FailedSearchSwitchesBack(s: Search, m: map<string, Model>)
    requires AllQuads(s.boxes) && |s.weights| > 0
    requires CurrentWeight(m).Some?
    ensures var w := CurrentWeight(m).value;
      var r := TryDifferent(s, m);
      !r.0 && DetectorSwitchable(w, s.rectDirs, s.env) && s.build(DetectorClass(w), w).Some? ==>
        "yolov" in r.2 && r.2["yolov"] == s.build(DetectorClass(w), w).value
  {
  }

  // ---------------------------------------------------------------------
  // The registry
  // ---------------------------------------------------------------------

  /** The SAM variants the registry can hold next to the active "sam" entry. */
  predicate SamKind(kind: string)
  {
    kind == "sam2" || kind == "sam3"
  }

  /** A SAM weight whose file name starts with "sam3" (in any ASCII case) is a SAM 3 checkpoint. */
  function IsSam3(w: PathArg): bool
  {
    var name := LowerAscii(Basename(w.parts));
    |name| >= 4 && name[..4] == "sam3"
  }

  class GlobalModelLoader {
    var models: map<string, Model>
    var samPaths: map<string, Option<PathArg>>
    var activeSamType: Option<string>
    var isLoading: bool

    /** The active SAM kind names a loaded variant, and "sam" is that very model. */
    predicate Valid()
      reads this
    {
      activeSamType.Some? ==>
        SamKind(activeSamType.value) && activeSamType.value in models && "sam" in models
        && models["sam"] == models[activeSamType.value]
    }

    constructor ()
      ensures models == map[] && samPaths == map["sam2" := None, "sam3" := None]
      ensures activeSamType == None && !isLoading && Valid()
    {
      models := map[];
      samPaths := map["sam2" := None, "sam3" := None];
      activeSamType := None;
      isLoading := false;
    }

    /**
     * `load_all_models`: starts the background load only when no load is
     * running and none of "sam", "yoloe" and "yolov" is present.
     */
    method LoadAllModels() returns (started: bool)
      modifies this
      ensures started <==> !old(isLoading) && "sam" !in old(models) && "yoloe" !in old(models) && "yolov" !in old(models)
      ensures isLoading == (old(isLoading) || started)
      ensures models == old(models) && samPaths == old(samPaths) && activeSamType == old(activeSamType)
    {
      started := false;
      if isLoading {
        return;
      }
      if "sam" in models || "yoloe" in models || "yolov" in models {
        return;
      }
      isLoading := true;
      started := true;
    }

    /** `get_model`: the model under that name, `None` when there is none. */
    function GetModel(name: string): (r: Option<Model>)
      reads this
      ensures r.Some? <==> name in models
      ensures r.Some? ==> r.value == models[name]
    {
      if name in models then Some(models[name]) else None
    }

    /** `is_model_loaded`: membership of the name, so exactly when `get_model` finds something. */
    function IsModelLoaded(name: string): (b: bool)
      reads this
      ensures b <==> GetModel(name).Some?
    {
      name in models
    }

    /** `switch_yolov_model`: the detector is replaced only by a model built from a safe, existing weight. */
    method SwitchYolovModel(w: PathArg, rectDirs: seq<PathArg>, env: Env, build: Builder) returns (ok: bool)
      modifies this
      ensures (ok, models) == SwitchDetector(old(models), w, rectDirs, env, build)
      ensures samPaths == old(samPaths) && activeSamType == old(activeSamType) && isLoading == old(isLoading)
      ensures old(Valid()) ==> Valid()
    {
      if IsEmptyPath(w) || !env.exists_(AbsPath(w, env.cwd)) {
        return false;
      }
      var safe := IsSafeWeight(w, rectDirs, {".pt"}, env);
      if !safe {
        return false;
      }
      var model := build(DetectorClass(w), w);
      if model.None? {
        return false;
      }
      models := models["yolov" := model.value];
      ok := true;
    }

    /**
     * `try_different_yolov_weights`: without weights, nothing; otherwise each
     * untried weight in turn, stopping at the first whose inference keeps a
     * detection, and switching back to the original weight when none does.
     */
    method TryDifferentYolovWeights(s: Search) returns (found: bool, out: seq<Found>)
      requires AllQuads(s.boxes)
      modifies this
      ensures (found, out, models) == TryDifferent(s, old(models))
      ensures samPaths == old(samPaths) && activeSamType == old(activeSamType) && isLoading == old(isLoading)
    {
      if |s.weights| == 0 {
        return false, [];
      }
      ghost var m0 := models;
      var cur := CurrentWeight(models);
      var tried: seq<PathArg> := if cur.Some? then [cur.value] else [];
      ghost var r := TryFrom(s, 0, tried, m0);
      var i := 0;
      while i < |s.weights|
        invariant 0 <= i <= |s.weights|
        invariant TryFrom(s, i, tried, models) == r
        invariant samPaths == old(samPaths) && activeSamType == old(activeSamType) && isLoading == old(isLoading)
      {
        var w := s.weights[i];
        if w !in tried {
          var ok := SwitchYolovModel(w, s.rectDirs, s.env, s.build);
          if ok {
            tried := tried + [w];
            var detected := Detect(models, s);
            var kept: seq<Found> := [];
            if detected.Some? {
              kept := CollectFound(detected.value, s.boxes, s.threshold);
            }
            if |kept| > 0 {
              return true, kept;
            }
          }
        }
        i := i + 1;
      }
      if cur.Some? {
        var back := SwitchYolovModel(cur.value, s.rectDirs, s.env, s.build);
      }
      return false, [];
    }

    /** `select_active_sam`: only "sam2" or "sam3", and only when that variant is loaded. */
    method SelectActiveSam(kind: string) returns (ok: bool)
      modifies this
      ensures ok <==> SamKind(kind) && kind in old(models)
      ensures ok ==> models == old(models)["sam" := old(models)[kind]] && activeSamType == Some(kind)
      ensures !ok ==> models == old(models) && activeSamType == old(activeSamType)
      ensures samPaths == old(samPaths) && isLoading == old(isLoading)
      ensures ok ==> Valid()
      ensures old(Valid()) ==> Valid()
    {
      if !SamKind(kind) {
        return false;
      }
      if kind !in models {
        return false;
      }
      models := models["sam" := models[kind]];
      activeSamType := Some(kind);
      ok := true;
    }

    /**
     * `switch_sam_model`: a non-empty existing weight, safe as a ".pt" under
     * a SAM directory, is loaded as SAM 3 or SAM 2 by its name and becomes
     * both that variant and the active "sam".
     */
    method SwitchSamModel(w: PathArg, samDirs: seq<PathArg>, env: Env, build: (bool, PathArg) -> Option<Model>)
      returns (ok: bool)
      modifies this
      ensures ok <==> !IsEmptyPath(w) && env.exists_(AbsPath(w, env.cwd)) && SafeWeight(w, samDirs, {".pt"}, env)
                      && build(IsSam3(w), w).Some?
      ensures ok ==>
        var kind := if IsSam3(w) then "sam3" else "sam2";
        var model := build(IsSam3(w), w).value;
        models == old(models)[kind := model]["sam" := model] && samPaths == old(samPaths)[kind := Some(w)]
        && activeSamType == Some(kind)
      ensures !ok ==> models == old(models) && samPaths == old(samPaths) && activeSamType == old(activeSamType)
      ensures isLoading == old(isLoading)
      ensures ok ==> Valid()
      ensures old(Valid()) ==> Valid()
    {
      if IsEmptyPath(w) || !env.exists_(AbsPath(w, env.cwd)) {
        return false;
      }
      var safe := IsSafeWeight(w, samDirs, {".pt"}, env);
      if !safe {
        return false;
      }
      var sam3 := IsSam3(w);
      var model := build(sam3, w);
      if model.None? {
        return false;
      }
      InstallSam(if sam3 then "sam3" else "sam2", model.value, w);
      ok := true;
    }

    /** The successful end of `switch_sam_model`: the model becomes its variant and the active "sam". */
    method InstallSam(kind: string, model: Model, w: PathArg)
      requires SamKind(kind)
      modifies this
      ensures models == old(models)[kind := model]["sam" := model] && samPaths == old(samPaths)[kind := Some(w)]
      ensures activeSamType == Some(kind) && isLoading == old(isLoading)
      ensures Valid()
    {
      models := models[kind := model]["sam" := model];
      samPaths := samPaths[kind := Some(w)];
      activeSamType := Some(kind);
    }
  }
}
