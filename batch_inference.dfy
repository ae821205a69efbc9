/**
 * The batch entry points of inference/inference_batch_moon.py: the two
 * YOLO stages run over a list of resource images, with YOLOE as the
 * fallback when stage one finds nothing, and a YOLOE batch that runs a
 * reference image's visual prompts over every resource image.
 *
 * The detectors are parameters: stage one, stage two and the whole
 * single-image YOLOV pipeline are functions, and YOLOE's `predict` is a
 * function of the image, the reference image, the boxes and the class ids.
 */
module BatchInference {
  import opened Wrappers
  import opened PyNum
  import opened Seqs
  import opened BoundingRect
  import opened Yolov

  // ---------------------------------------------------------------------
  // Prompt arguments
  // ---------------------------------------------------------------------

  /** A value stored under one of the prompt keys: a list of boxes, or something else of some truthiness. */
  datatype BoxesValue = BoxList(boxes: seq<seq<real>>) | NotAList(truthy: bool)

  /** `bboxes_prompts`: a plain value, or a dict with optional prompt keys and `resource_list`. */
  datatype PromptArg =
    | PromptValue(value: BoxesValue)
    | PromptDict(bboxes: Option<BoxesValue>, prompts: Option<BoxesValue>, rects: Option<BoxesValue>,
                 resourceList: Option<seq<string>>)

  predicate Truthy(v: Option<BoxesValue>)
  {
    v.Some? && match v.value
      case BoxList(b) => b != []
      case NotAList(t) => t
  }

  /** `d.get("bboxes") or d.get("prompts") or d.get("rects") or []`, or the plain value. */
  function ChosenBoxes(arg: PromptArg): (v: BoxesValue)
    ensures arg.PromptDict? ==>
      if Truthy(arg.bboxes) then v == arg.bboxes.value
      else if Truthy(arg.prompts) then v == arg.prompts.value
      else if Truthy(arg.rects) then v == arg.rects.value
      else v == BoxList([])
  {
    match arg
    case PromptValue(x) => x
    case PromptDict(b, p, r, _) =>
      if Truthy(b) then b.value else if Truthy(p) then p.value else if Truthy(r) then r.value else BoxList([])
  }

  /** `d.get("resource_list") or []`; a plain value has none. */
  function ResourceListOf(arg: PromptArg): seq<string>
  {
    if arg.PromptDict? && arg.resourceList.Some? then arg.resourceList.value else []
  }

  /** The boxes when they form a non-empty list, else None (the "no valid prompt boxes" error). */
  function ValidBoxes(arg: PromptArg): (r: Option<seq<seq<real>>>)
    ensures r.Some? <==> ChosenBoxes(arg).BoxList? && ChosenBoxes(arg).boxes != []
    ensures r.Some? ==> r.value == ChosenBoxes(arg).boxes && r.value != []
  {
    var v := ChosenBoxes(arg);
    if v.BoxList? && v.boxes != [] then Some(v.boxes) else None
  }

  /** A prompt dict takes its boxes from the first non-empty of its three keys, in key order. */
  lemma PromptKeyPriority(b: Option<BoxesValue>, p: Option<BoxesValue>, r: Option<BoxesValue>, res: Option<seq<string>>)
    ensures var arg := PromptDict(b, p, r, res);
      (b == Some(BoxList([])) ==> ChosenBoxes(arg) == ChosenBoxes(PromptDict(None, p, r, res)))
      && (p == Some(BoxList([])) ==> ChosenBoxes(arg) == ChosenBoxes(PromptDict(b, None, r, res)))
      && (b.None? && p.None? && r.None? ==> ValidBoxes(arg).None?)
      && (res.None? || res == Some([]) ==> ResourceListOf(arg) == [])
  {
  }

  // ---------------------------------------------------------------------
  // batch_yoloe_inference
  // ---------------------------------------------------------------------

  /** One box reported by YOLOE: its confidence when readable, and its corners (empty when unreadable). */
  datatype RawBox = RawBox(conf: Option<real>, xyxy: seq<real>)

  /** One `predict` call: raised, or the boxes of the first result (None without results or boxes) and the mask count. */
  datatype Prediction = Raised | Predicted(boxes: Option<seq<RawBox>>, maskCount: Option<nat>)

  type Predictor = (string, string, seq<seq<real>>, seq<int>) -> Prediction

  /** The YOLOE model: loaded, loaded after one `initialize_global_models`, and its predictor. */
  datatype YoloeEnv = YoloeEnv(loaded: bool, loadedAfterInit: bool, predict: Predictor)

  /** One detection as stored in `results_map`. */
  datatype YoloeItem = YoloeItem(bbox: seq<real>, confidence: real, hasMask: bool)

  datatype YoloeError = NoPrompts | ModelNotLoaded

  datatype YoloeBatch = YoloeBatch(success: bool, referImage: string, bboxes: seq<seq<real>>,
                                   resultsMap: map<string, seq<YoloeItem>>, processed: nat, total: nat,
                                   error: Option<YoloeError>)

  function Rounded2(s: seq<real>): (r: seq<real>)
    ensures |r| == |s| && forall k :: 0 <= k < |s| ==> r[k] == Round2(s[k])
  {
    seq(|s|, k requires 0 <= k < |s| => Round2(s[k]))
  }

  /** The item made from box i: rounded corners, 0.0 for an unreadable confidence, a mask only for an index below the mask count. */
  function ItemOf(b: RawBox, i: nat, maskCount: Option<nat>): (it: YoloeItem)
    ensures it.bbox == Rounded2(b.xyxy)
    ensures it.confidence == if b.conf.Some? then b.conf.value else 0.0
    ensures it.hasMask <==> maskCount.Some? && i < maskCount.value
  {
    YoloeItem(Rounded2(b.xyxy), if b.conf.Some? then b.conf.value else 0.0, maskCount.Some? && i < maskCount.value)
  }

  /** The items of one image: boxes without corners are dropped. */
  function ItemsOf(boxes: seq<RawBox>, maskCount: Option<nat>): seq<YoloeItem>
  {
    if |boxes| == 0 then []
    else
      var b := boxes[|boxes| - 1];
      ItemsOf(boxes[..|boxes| - 1], maskCount) + (if |b.xyxy| > 0 then [ItemOf(b, |boxes| - 1, maskCount)] else [])
  }

  /** Every stored item comes from a box with corners, at its own index. */
  lemma {:induction false} ItemsComeFromBoxes(boxes: seq<RawBox>, maskCount: Option<nat>, it: YoloeItem)
    requires it in ItemsOf(boxes, maskCount)
    ensures exists i :: 0 <= i < |boxes| && |boxes[i].xyxy| > 0 && it == ItemOf(boxes[i], i, maskCount)
  {
    var init := boxes[..|boxes| - 1];
    if it in ItemsOf(init, maskCount) {
      ItemsComeFromBoxes(init, maskCount, it);
      var i :| 0 <= i < |init| && |init[i].xyxy| > 0 && it == ItemOf(init[i], i, maskCount);
      assert boxes[i] == init[i];
    } else {
      assert it == ItemOf(boxes[|boxes| - 1], |boxes| - 1, maskCount);
    }
  }

  /** Every box with corners gives an item. */
  lemma {:induction false} BoxesWithCornersKept(boxes: seq<RawBox>, maskCount: Option<nat>, i: nat)
    requires i < |boxes| && |boxes[i].xyxy| > 0
    ensures ItemOf(boxes[i], i, maskCount) in ItemsOf(boxes, maskCount)
  {
    var init := boxes[..|boxes| - 1];
    if i < |init| {
      BoxesWithCornersKept(init, maskCount, i);
      assert init[i] == boxes[i];
    }
  }

  /** What one image contributes to `results_map`; a failed prediction gives the empty list. */
  function ImageItems(env: YoloeEnv, path: string, refer: string, bboxes: seq<seq<real>>, cls: seq<int>): seq<YoloeItem>
  {
    match env.predict(path, refer, bboxes, cls)
    case Raised => []
    case Predicted(boxes, mc) => if boxes.None? then [] else ItemsOf(boxes.value, mc)
  }

  /** `cls_ids`, or one 0 per box when absent or of the wrong length. */
  function AlignedClsIds(clsIds: Option<seq<int>>, n: nat): (r: seq<int>)
    ensures |r| == n
    ensures clsIds.Some? && |clsIds.value| == n ==> r == clsIds.value
    ensures clsIds.None? || |clsIds.value| != n ==> forall k :: 0 <= k < n ==> r[k] == 0
  {
    if clsIds.Some? && |clsIds.value| == n then clsIds.value else seq(n, k => 0)
  }

  /** The images run: the resource list, or the reference image alone when it is empty. */
  function RunList(resourceList: seq<string>, refer: string): (r: seq<string>)
    ensures |r| >= 1
  {
    if |resourceList| > 0 then resourceList else [refer]
  }

  /** `results_map` after the first images of the run. */
  function ResultsMapOf(paths: seq<string>, env: YoloeEnv, refer: string, bboxes: seq<seq<real>>, cls: seq<int>)
    : map<string, seq<YoloeItem>>
  {
    if |paths| == 0 then map[]
    else
      var p := paths[|paths| - 1];
      ResultsMapOf(paths[..|paths| - 1], env, refer, bboxes, cls)[p := ImageItems(env, p, refer, bboxes, cls)]
  }

  /** The keys are exactly the images run, each holding that image's items. */
  lemma {:induction false} ResultsMapContents(paths: seq<string>, env: YoloeEnv, refer: string,
                                              bboxes: seq<seq<real>>, cls: seq<int>)
    ensures var m := ResultsMapOf(paths, env, refer, bboxes, cls);
      m.Keys == PathSet(paths)
      && forall p :: p in m ==> m[p] == ImageItems(env, p, refer, bboxes, cls)
  {
    if |paths| > 0 {
      var init := paths[..|paths| - 1];
      ResultsMapContents(init, env, refer, bboxes, cls);
      assert PathSet(paths) == PathSet(init) + {paths[|paths| - 1]};
    }
  }

  /** The images of a list, as a set. */
  function PathSet(paths: seq<string>): (r: set<string>)
    ensures forall k :: 0 <= k < |paths| ==> paths[k] in r
    ensures forall p :: p in r ==> exists k :: 0 <= k < |paths| && paths[k] == p
  {
    set p | p in paths
  }

  predicate AnyNonEmpty<K>(m: map<K, seq<YoloeItem>>)
  {
    exists p :: p in m && m[p] != []
  }

  /** The answer of `batch_yoloe_inference`. */
  function YoloeBatchOf(refer: string, arg: PromptArg, resourceList: seq<string>, clsIds: Option<seq<int>>,
                        env: YoloeEnv): YoloeBatch
  {
    var boxes := ValidBoxes(arg);
    if boxes.None? then YoloeBatch(false, refer, [], map[], 0, |resourceList|, Some(NoPrompts))
    else if !env.loaded && !env.loadedAfterInit then
      YoloeBatch(false, refer, boxes.value, map[], 0, |resourceList|, Some(ModelNotLoaded))
    else
      var cls := AlignedClsIds(clsIds, |boxes.value|);
      var runs := RunList(resourceList, refer);
      var m := ResultsMapOf(runs, env, refer, boxes.value, cls);
      YoloeBatch(AnyNonEmpty(m), refer, boxes.value, m, |runs|, |runs|, None)
  }

  /** `batch_yoloe_inference`: the loop over the images, counting each one, failed or not. */
  method BatchYoloeInference(refer: string, arg: PromptArg, resourceList: seq<string>, clsIds: Option<seq<int>>,
                             env: YoloeEnv) returns (r: YoloeBatch)
    ensures r == YoloeBatchOf(refer, arg, resourceList, clsIds, env)
  {
    var boxes := ValidBoxes(arg);
    if boxes.None? {
      return YoloeBatch(false, refer, [], map[], 0, |resourceList|, Some(NoPrompts));
    }
    var loaded := env.loaded;
    if !loaded {
      loaded := env.loadedAfterInit;
      if !loaded {
        return YoloeBatch(false, refer, boxes.value, map[], 0, |resourceList|, Some(ModelNotLoaded));
      }
    }
    var cls := AlignedClsIds(clsIds, |boxes.value|);
    var runs := if |resourceList| > 0 then resourceList else [refer];
    var resultsMap: map<string, seq<YoloeItem>> := map[];
    var processed := 0;
    var total := |runs|;
    for i := 0 to |runs|
      invariant resultsMap == ResultsMapOf(runs[..i], env, refer, boxes.value, cls)
      invariant processed == i
    {
      assert runs[..i + 1][..i] == runs[..i];
      var path := runs[i];
      var items: seq<YoloeItem> := [];
      var prediction := env.predict(path, refer, boxes.value, cls);
      match prediction {
        case Raised =>
        case Predicted(bs, mc) =>
          if bs.Some? {
            items := CollectItems(bs.value, mc);
          }
      }
      resultsMap := resultsMap[path := items];
      processed := processed + 1;
    }
    assert runs[..|runs|] == runs;
    var success := exists p :: p in resultsMap && resultsMap[p] != [];
    r := YoloeBatch(success, refer, boxes.value, resultsMap, processed, total, None);
  }

  /** The loop over one image's boxes. */
  method CollectItems(boxes: seq<RawBox>, maskCount: Option<nat>) returns (items: seq<YoloeItem>)
    ensures items == ItemsOf(boxes, maskCount)
  {
    items := [];
    for i := 0 to |boxes|
      invariant items == ItemsOf(boxes[..i], maskCount)
    {
      assert boxes[..i + 1][..i] == boxes[..i];
      var b := boxes[i];
      var conf := if b.conf.Some? then b.conf.value else 0.0;
      var xyxy := Rounded2(b.xyxy);
      if |xyxy| > 0 {
        var hasMask := maskCount.Some? && i < maskCount.value;
        items := items + [YoloeItem(xyxy, conf, hasMask)];
      }
    }
    assert boxes[..|boxes|] == boxes;
  }

  /**
   * Without an error, every image of the run is counted: processed equals
   * total equals the run's length, the keys are exactly the images run, and
   * success says that some image has an item.
   */
  lemma YoloeBatchBookkeeping(refer: string, arg: PromptArg, resourceList: seq<string>, clsIds: Option<seq<int>>,
                              env: YoloeEnv)
    ensures var r := YoloeBatchOf(refer, arg, resourceList, clsIds, env);
      var runs := RunList(resourceList, refer);
      (r.error.None? <==> ValidBoxes(arg).Some? && (env.loaded || env.loadedAfterInit))
      && (r.error.Some? ==> !r.success && r.processed == 0 && r.total == |resourceList| && r.resultsMap == map[])
      && (r.error.None? ==>
            r.processed == r.total == |runs|
            && r.resultsMap.Keys == PathSet(runs)
            && (r.success <==> exists k :: 0 <= k < |runs| && r.resultsMap[runs[k]] != []))
  {
    var boxes := ValidBoxes(arg);
    if boxes.Some? && (env.loaded || env.loadedAfterInit) {
      var cls := AlignedClsIds(clsIds, |boxes.value|);
      var runs := RunList(resourceList, refer);
      ResultsMapContents(runs, env, refer, boxes.value, cls);
      var m := ResultsMapOf(runs, env, refer, boxes.value, cls);
      if AnyNonEmpty(m) {
        var p :| p in m && m[p] != [];
        assert p in PathSet(runs);
        var k :| 0 <= k < |runs| && runs[k] == p;
      }
      if exists k :: 0 <= k < |runs| && m[runs[k]] != [] {
        var k :| 0 <= k < |runs| && m[runs[k]] != [];
        assert runs[k] in PathSet(runs);
      }
    }
  }

  /** The predictor sees one class id per prompt box: the given ids when they fit, else zeros. */
  lemma YoloePredictorArguments(refer: string, arg: PromptArg, resourceList: seq<string>, clsIds: Option<seq<int>>,
                                env: YoloeEnv, p: string)
    requires YoloeBatchOf(refer, arg, resourceList, clsIds, env).error.None?
    requires p in YoloeBatchOf(refer, arg, resourceList, clsIds, env).resultsMap
    ensures var boxes := ValidBoxes(arg).value;
      YoloeBatchOf(refer, arg, resourceList, clsIds, env).resultsMap[p]
        == ImageItems(env, p, refer, boxes, AlignedClsIds(clsIds, |boxes|))
  {
    var boxes := ValidBoxes(arg).value;
    ResultsMapContents(RunList(resourceList, refer), env, refer, boxes, AlignedClsIds(clsIds, |boxes|));
  }

  // ---------------------------------------------------------------------
  // batch_yolov_inference
  // ---------------------------------------------------------------------

  /** The YOLOV detectors: stage one on the prompts, stage two on a path (None: raised), the single-image pipeline (None: raised). */
  datatype YolovEnv = YolovEnv(
    stageOne: seq<seq<real>> -> (seq<Detection>, bool),
    stageTwo: string -> Option<seq<Detection>>,
    pipeline: seq<seq<real>> -> Option<(seq<Bounds>, bool)>)

  /** `two_results` / `filtered`: a list, a list per resource image, or YOLOE's `results_map`. */
  datatype Listing = Flat(items: seq<Detection>) | PerImage(byImage: map<string, seq<Detection>>)
                   | YoloeMap(results: map<string, seq<YoloeItem>>)

  datatype YolovBatch = YolovBatch(success: bool, bboxList: seq<seq<real>>, oneResults: seq<Detection>,
                                   twoResults: Listing, filtered: Listing, error: bool, fallback: Option<YoloeBatch>)

  function OrEmpty(o: Option<seq<Detection>>): seq<Detection>
  {
    if o.Some? then o.value else []
  }

  function Corners(b: Bounds): seq<real>
  {
    [b.x1, b.y1, b.x2, b.y2]
  }

  function CornersAll(bs: seq<Bounds>): (r: seq<seq<real>>)
    ensures |r| == |bs| && forall k :: 0 <= k < |bs| ==> r[k] == Corners(bs[k])
  {
    seq(|bs|, k requires 0 <= k < |bs| => Corners(bs[k]))
  }

  function ItemBoxes(items: seq<YoloeItem>): (r: seq<seq<real>>)
    ensures |r| == |items| && forall k :: 0 <= k < |items| ==> r[k] == items[k].bbox
  {
    seq(|items|, k requires 0 <= k < |items| => items[k].bbox)
  }

  /** Stage two per resource image (a raising call counts as no detections). */
  function TwoMapOf(paths: seq<string>, env: YolovEnv): map<string, seq<Detection>>
  {
    if |paths| == 0 then map[]
    else
      var p := paths[|paths| - 1];
      TwoMapOf(paths[..|paths| - 1], env)[p := OrEmpty(env.stageTwo(p))]
  }

  /** The class-filtered stage two per resource image. */
  function FilteredMapOf(paths: seq<string>, one: seq<Detection>, env: YolovEnv): map<string, seq<Detection>>
  {
    if |paths| == 0 then map[]
    else
      var p := paths[|paths| - 1];
      FilteredMapOf(paths[..|paths| - 1], one, env)[p := Filter(HasClassIn(ClassIds(one)), OrEmpty(env.stageTwo(p)))]
  }

  /** The answer of `batch_yolov_inference`; None when the final `yolov_two` raises out of it. */
  function YolovBatchOf(imagePath: string, arg: PromptArg, env: YolovEnv, yoloe: YoloeEnv): Option<YolovBatch>
  {
    var boxes := ValidBoxes(arg);
    var resources := ResourceListOf(arg);
    if boxes.None? then
      var empty := if resources == [] then Flat([]) else PerImage(map[]);
      Some(YolovBatch(false, [], [], empty, empty, true, None))
    else
      var (one, oneOk) := env.stageOne(boxes.value);
      if !oneOk then
        if resources != [] then
          var y := YoloeBatchOf(imagePath, PromptValue(BoxList(boxes.value)), resources, None, yoloe);
          Some(YolovBatch(y.success, [], one, YoloeMap(y.resultsMap), PerImage(map[]), false, Some(y)))
        else
          var y := YoloeBatchOf(imagePath, PromptValue(BoxList(boxes.value)), [imagePath], None, yoloe);
          var items := if imagePath in y.resultsMap then y.resultsMap[imagePath] else [];
          var list := ItemBoxes(items);
          Some(YolovBatch(|list| > 0, list, one, Flat([]), Flat([]), false, Some(y)))
      else if resources != [] then
        var f := FilteredMapOf(resources, one, env);
        Some(YolovBatch(exists p :: p in f && f[p] != [], [], one, PerImage(TwoMapOf(resources, env)), PerImage(f),
                        false, None))
      else
        var (list, ok) := if env.pipeline(boxes.value).Some? then env.pipeline(boxes.value).value else ([], false);
        var two := env.stageTwo(imagePath);
        if two.None? then None
        else Some(YolovBatch(ok, CornersAll(list), one, Flat(two.value),
                             Flat(Filter(HasClassIn(ClassIds(one)), two.value)), false, None))
  }

  /** `batch_yolov_inference`. */
  method BatchYolovInference(imagePath: string, arg: PromptArg, env: YolovEnv, yoloe: YoloeEnv)
    returns (r: Option<YolovBatch>)
    ensures r == YolovBatchOf(imagePath, arg, env, yoloe)
  {
    var boxes := ValidBoxes(arg);
    var resources := ResourceListOf(arg);
    if boxes.None? {
      var empty := if resources == [] then Flat([]) else PerImage(map[]);
      return Some(YolovBatch(false, [], [], empty, empty, true, None));
    }
    var (one, oneOk) := env.stageOne(boxes.value);
    if !oneOk {
      if resources != [] {
        var y := BatchYoloeInference(imagePath, PromptValue(BoxList(boxes.value)), resources, None, yoloe);
        return Some(YolovBatch(y.success, [], one, YoloeMap(y.resultsMap), PerImage(map[]), false, Some(y)));
      }
      var y := BatchYoloeInference(imagePath, PromptValue(BoxList(boxes.value)), [imagePath], None, yoloe);
      var items := if imagePath in y.resultsMap then y.resultsMap[imagePath] else [];
      var list := ItemBoxes(items);
      return Some(YolovBatch(|list| > 0, list, one, Flat([]), Flat([]), false, Some(y)));
    }
    if resources != [] {
      var twoMap: map<string, seq<Detection>> := map[];
      var filteredMap: map<string, seq<Detection>> := map[];
      for i := 0 to |resources|
        invariant twoMap == TwoMapOf(resources[..i], env)
        invariant filteredMap == FilteredMapOf(resources[..i], one, env)
      {
        assert resources[..i + 1][..i] == resources[..i];
        var path := resources[i];
        var two := OrEmpty(env.stageTwo(path));
        twoMap := twoMap[path := two];
        var filtered := FilterResultsByClass(one, two);
        filteredMap := filteredMap[path := filtered];
      }
      assert resources[..|resources|] == resources;
      var anyBox := exists p :: p in filteredMap && filteredMap[p] != [];
      return Some(YolovBatch(anyBox, [], one, PerImage(twoMap), PerImage(filteredMap), false, None));
    }
    var outcome := env.pipeline(boxes.value);
    var list, ok := [], false;
    if outcome.Some? {
      list, ok := outcome.value.0, outcome.value.1;
    }
    var two := env.stageTwo(imagePath);
    if two.None? {
      return None;
    }
    var filtered := FilterResultsByClass(one, two.value);
    return Some(YolovBatch(ok, CornersAll(list), one, Flat(two.value), Flat(filtered), false, None));
  }

  lemma PathSetSnoc(paths: seq<string>)
    requires |paths| > 0
    ensures PathSet(paths) == PathSet(paths[..|paths| - 1]) + {paths[|paths| - 1]}
  {
    var init := paths[..|paths| - 1];
    forall p | p in PathSet(paths)
      ensures p in PathSet(init) + {paths[|paths| - 1]}
    {
      var k :| 0 <= k < |paths| && paths[k] == p;
      if k < |init| {
        assert init[k] == p;
      }
    }
  }

  /** The stage-two map has exactly the resource images as keys, each with its own stage-two list. */
  lemma {:induction false} TwoMapContents(paths: seq<string>, env: YolovEnv)
    ensures TwoMapOf(paths, env).Keys == PathSet(paths)
    ensures forall p :: p in TwoMapOf(paths, env) ==> TwoMapOf(paths, env)[p] == OrEmpty(env.stageTwo(p))
  {
    if |paths| > 0 {
      TwoMapContents(paths[..|paths| - 1], env);
      PathSetSnoc(paths);
    }
  }

  /** The filtered map has exactly the resource images as keys, each with its class-filtered list. */
  lemma {:induction false} FilteredMapContents(paths: seq<string>, one: seq<Detection>, env: YolovEnv)
    ensures FilteredMapOf(paths, one, env).Keys == PathSet(paths)
    ensures forall p :: p in FilteredMapOf(paths, one, env) ==>
      FilteredMapOf(paths, one, env)[p] == Filter(HasClassIn(ClassIds(one)), OrEmpty(env.stageTwo(p)))
  {
    if |paths| > 0 {
      FilteredMapContents(paths[..|paths| - 1], one, env);
      PathSetSnoc(paths);
    }
  }

  /** Both per-image maps have exactly the resource images as keys, with each image's own lists. */
  lemma PerImageMapsContents(paths: seq<string>, one: seq<Detection>, env: YolovEnv)
    ensures TwoMapOf(paths, env).Keys == PathSet(paths)
    ensures FilteredMapOf(paths, one, env).Keys == PathSet(paths)
    ensures forall p :: p in TwoMapOf(paths, env) ==> TwoMapOf(paths, env)[p] == OrEmpty(env.stageTwo(p))
    ensures forall p :: p in FilteredMapOf(paths, one, env) ==>
      FilteredMapOf(paths, one, env)[p] == Filter(HasClassIn(ClassIds(one)), OrEmpty(env.stageTwo(p)))
  {
    TwoMapContents(paths, env);
    FilteredMapContents(paths, one, env);
  }

  /** Missing or empty prompt boxes give no success, empty results and the error flag. */
  lemma MissingBoxesFail(imagePath: string, arg: PromptArg, env: YolovEnv, yoloe: YoloeEnv)
    requires ValidBoxes(arg).None?
    ensures var r := YolovBatchOf(imagePath, arg, env, yoloe);
      r.Some? && !r.value.success && r.value.error && r.value.bboxList == [] && r.value.oneResults == []
      && (ResourceListOf(arg) == [] ==> r.value.twoResults == Flat([]) && r.value.filtered == Flat([]))
      && (ResourceListOf(arg) != [] ==> r.value.twoResults == PerImage(map[]) && r.value.filtered == PerImage(map[]))
  {
  }

  /**
   * When stage one fails the answer comes from YOLOE and is tagged with
   * it: over the resource images when there are some, else over the image
   * alone, whose boxes become `bbox_list`.
   */
  lemma StageOneFailureFallsBack(imagePath: string, arg: PromptArg, env: YolovEnv, yoloe: YoloeEnv)
    requires ValidBoxes(arg).Some? && !env.stageOne(ValidBoxes(arg).value).1
    ensures var r := YolovBatchOf(imagePath, arg, env, yoloe);
      var boxes := ValidBoxes(arg).value;
      var resources := ResourceListOf(arg);
      r.Some? && r.value.fallback.Some? && !r.value.error
      && (resources != [] ==>
            r.value.fallback.value == YoloeBatchOf(imagePath, PromptValue(BoxList(boxes)), resources, None, yoloe)
            && r.value.success == r.value.fallback.value.success
            && r.value.twoResults == YoloeMap(r.value.fallback.value.resultsMap))
      && (resources == [] ==>
            var y := YoloeBatchOf(imagePath, PromptValue(BoxList(boxes)), [imagePath], None, yoloe);
            r.value.fallback.value == y
            && (r.value.success <==> imagePath in y.resultsMap && y.resultsMap[imagePath] != []))
  {
  }

  /**
   * With a resource list and a successful stage one, the keys of both maps
   * are exactly the resource images, and success says that some image has
   * a class-matching detection.
   */
  lemma ResourceMapsAndSuccess(imagePath: string, arg: PromptArg, env: YolovEnv, yoloe: YoloeEnv)
    requires ValidBoxes(arg).Some? && env.stageOne(ValidBoxes(arg).value).1 && ResourceListOf(arg) != []
    ensures var r := YolovBatchOf(imagePath, arg, env, yoloe);
      var res := ResourceListOf(arg);
      var one := env.stageOne(ValidBoxes(arg).value).0;
      r.Some? && r.value.fallback.None? && r.value.twoResults.PerImage? && r.value.filtered.PerImage?
      && r.value.twoResults.byImage.Keys == PathSet(res)
      && r.value.filtered.byImage.Keys == PathSet(res)
      && (r.value.success <==>
            exists k :: 0 <= k < |res| && Filter(HasClassIn(ClassIds(one)), OrEmpty(env.stageTwo(res[k]))) != [])
  {
    var res := ResourceListOf(arg);
    var one := env.stageOne(ValidBoxes(arg).value).0;
    PerImageMapsContents(res, one, env);
    var f := FilteredMapOf(res, one, env);
    if exists p :: p in f && f[p] != [] {
      var p :| p in f && f[p] != [];
      assert p in PathSet(res);
      var k :| 0 <= k < |res| && res[k] == p;
    }
    if exists k :: 0 <= k < |res| && Filter(HasClassIn(ClassIds(one)), OrEmpty(env.stageTwo(res[k]))) != [] {
      var k :| 0 <= k < |res| && Filter(HasClassIn(ClassIds(one)), OrEmpty(env.stageTwo(res[k]))) != [];
      assert res[k] in PathSet(res);
    }
  }
}
