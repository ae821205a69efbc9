/**
 * The visual-prompt YOLOE detector of inference/yoloe_moon.py: prompt boxes
 * with class ids (and, for the semantic variant, descriptions and weights)
 * go to the model, the detections above the confidence floor come back with
 * the mask of the same index, and in remote-sensing mode the prompts are
 * moved into the visible crop and the results moved back onto the image.
 *
 * The model is a parameter: `predict(t, ...)` is what `model.predict`
 * reports on target `t`, None when both predictor calls raise.
 */
module Yoloe {
  import opened Wrappers
  import opened PyNum
  import opened Seqs
  import opened BoundingRect
  import opened DrawJk
  import opened Yolov

  const YoloeConfidenceThreshold: real := 0.03
  const DefaultPromptWeight: real := 0.8

  /** Prompt boxes and their class ids, as handed to the model. */
  datatype Prompts = Prompts(boxes: seq<Bounds>, classIds: seq<int>)

  /**
   * The crop clip of the prompts, carrying the class id of each surviving
   * box whose index has one.
   */
  function ClipWithClasses(bboxes: seq<Bounds>, clsIds: seq<int>, c: Window): (r: Prompts)
    ensures r.boxes == ClippedAll(bboxes, c)
    ensures |r.classIds| <= |r.boxes|
  {
    if |bboxes| == 0 then Prompts([], [])
    else
      var i := |bboxes| - 1;
      var before := ClipWithClasses(bboxes[..i], clsIds, c);
      var b := ClipPrompt(bboxes[i], c);
      if b.None? then before
      else Prompts(before.boxes + [b.value], before.classIds + (if i < |clsIds| then [clsIds[i]] else []))
  }

  /** With a class id for every prompt, every surviving box keeps its id. */
  lemma {:induction false} ClipKeepsEveryClass(bboxes: seq<Bounds>, clsIds: seq<int>, c: Window)
    requires |clsIds| >= |bboxes|
    ensures |ClipWithClasses(bboxes, clsIds, c).classIds| == |ClipWithClasses(bboxes, clsIds, c).boxes|
  {
    if |bboxes| > 0 {
      ClipKeepsEveryClass(bboxes[..|bboxes| - 1], clsIds, c);
    }
  }

  /** The enumerate loop that clips the prompts and carries their class ids. */
  method ClipPromptsWithClasses(bboxes: seq<Bounds>, clsIds: seq<int>, c: Window) returns (r: Prompts)
    ensures r == ClipWithClasses(bboxes, clsIds, c)
  {
    var boxes: seq<Bounds> := [];
    var ids: seq<int> := [];
    for i := 0 to |bboxes|
      invariant Prompts(boxes, ids) == ClipWithClasses(bboxes[..i], clsIds, c)
    {
      var b := ClipPrompt(bboxes[i], c);
      if b.Some? {
        boxes := boxes + [b.value];
        if i < |clsIds| {
          ids := ids + [clsIds[i]];
        }
      }
      assert bboxes[..i + 1][..i] == bboxes[..i];
    }
    assert bboxes[..|bboxes|] == bboxes;
    return Prompts(boxes, ids);
  }

  /** One weight per surviving box: the given weight of that index, else the default. */
  function CarriedWeights(n: nat, weights: seq<real>): seq<real>
  {
    seq(n, i => if 0 <= i < |weights| then weights[i] else DefaultPromptWeight)
  }

  /** The loop that re-aligns the prompt weights to the surviving boxes. */
  method AdjustPromptWeights(adjusted: seq<Bounds>, weights: seq<real>) returns (r: seq<real>)
    ensures r == CarriedWeights(|adjusted|, weights)
    ensures |r| == |adjusted|
    ensures forall i :: 0 <= i < |r| ==> r[i] == (if i < |weights| then weights[i] else DefaultPromptWeight)
  {
    r := [];
    for i := 0 to |adjusted|
      invariant r == CarriedWeights(i, weights)
    {
      if i < |weights| {
        r := r + [weights[i]];
      } else {
        r := r + [DefaultPromptWeight];
      }
    }
  }

  /** `[x] * n`. */
  function Repeat<T>(x: T, n: nat): (r: seq<T>)
    ensures |r| == n && forall i :: 0 <= i < n ==> r[i] == x
  {
    seq(n, _ => x)
  }

  /**
   * The alignment of a description or weight list to `n` boxes: unchanged
   * when there are no boxes or the lengths agree, a single entry repeated,
   * otherwise `(l + l[:n])[:n]`.
   */
  function Align<T>(l: seq<T>, n: nat): seq<T>
  {
    if n > 0 && |l| != n then
      if |l| == 1 then Repeat(l[0], n)
      else
        var doubled := l + l[..MinI(n, |l|)];
        doubled[..MinI(n, |doubled|)]
    else l
  }

  /**
   * Aligning never yields more than `n` entries when there are boxes, yields
   * exactly `n` from a single entry or from at least `n` entries, and lists
   * the input cyclically.
   */
  lemma AlignShape<T>(l: seq<T>, n: nat)
    ensures n > 0 ==> |Align(l, n)| <= n
    ensures n > 0 && (|l| == 1 || |l| >= n) ==> |Align(l, n)| == n
    ensures forall i :: 0 <= i < |Align(l, n)| ==> |l| > 0 && Align(l, n)[i] == l[i % |l|]
  {
    if n > 0 && |l| != n && |l| != 1 {
      var doubled := l + l[..MinI(n, |l|)];
      assert |doubled| == |l| + MinI(n, |l|);
      assert |Align(l, n)| == MinI(n, |doubled|);
    }
    var r := Align(l, n);
    forall i | 0 <= i < |r|
      ensures |l| > 0 && r[i] == l[i % |l|]
    {
      AlignAt(l, n, i);
    }
  }

  /** Entry i of the aligned list is entry i mod |l| of the input. */
  lemma AlignAt<T>(l: seq<T>, n: nat, i: nat)
    requires i < |Align(l, n)|
    ensures |l| > 0 && Align(l, n)[i] == l[i % |l|]
  {
    if n > 0 && |l| != n && |l| != 1 {
      var m := MinI(n, |l|);
      var doubled := l + l[..m];
      assert |doubled| == |l| + m;
      assert Align(l, n) == doubled[..MinI(n, |doubled|)];
      assert i < |l| + m && Align(l, n)[i] == doubled[i];
      if i < |l| {
        ModSmall(i, |l|);
      } else {
        assert doubled[i] == l[i - |l|];
        ModBelow(i, |l|);
      }
    } else if n > 0 && |l| == 1 {
      assert i % 1 == 0;
    } else {
      ModSmall(i, |l|);
    }
  }

  lemma ModSmall(a: int, n: int)
    requires 0 <= a < n
    ensures a % n == a
  {
  }

  lemma ModBelow(a: int, n: int)
    requires 0 < n && n <= a < 2 * n
    ensures a % n == a - n
  {
  }

  /** The description argument: one string, or a list of them. */
  datatype Descriptions = Text(s: string) | TextList(items: seq<string>)

  function DescriptionList(d: Descriptions): seq<string>
  {
    match d
    case Text(s) => [s]
    case TextList(items) => items
  }

  /** The prompt dictionary of the semantic call. */
  datatype VisualPrompts = VisualPrompts(boxes: seq<Bounds>, classIds: seq<int>, descriptions: seq<string>,
                                         weights: seq<real>)

  /**
   * The prompts `inference_with_semantic_prompts` builds without a crop:
   * default weights for absent ones, then descriptions and weights aligned
   * to the boxes.
   */
  function SemanticPromptsOf(p: Prompts, weights: Option<seq<real>>, descs: Descriptions): (v: VisualPrompts)
    ensures v.boxes == p.boxes && v.classIds == p.classIds
  {
    var n := |p.boxes|;
    var w := if weights.None? then Repeat(DefaultPromptWeight, n) else weights.value;
    VisualPrompts(p.boxes, p.classIds, Align(DescriptionList(descs), n), Align(w, n))
  }

  /** A single description, or absent weights, give one entry per box. */
  lemma SemanticPromptsOneEach(p: Prompts, weights: Option<seq<real>>, s: string)
    requires |p.boxes| > 0
    requires weights.None? || |weights.value| == 1
    ensures var v := SemanticPromptsOf(p, weights, Text(s));
      |v.descriptions| == |v.boxes| && |v.weights| == |v.boxes|
      && forall i :: 0 <= i < |v.boxes| ==> v.descriptions[i] == s
  {
    var n := |p.boxes|;
    AlignShape([s], n);
    AlignShape(if weights.None? then Repeat(DefaultPromptWeight, n) else weights.value, n);
  }

  /** The array shape of a mask: as the model reports it, or pasted into a full-image mask. */
  datatype Mask = Raw(h: int, w: int) | Pasted(h: int, w: int, region: Paste)

  /** The rows [yStart, yEnd) and columns [xStart, xEnd) a crop mask is pasted into. */
  datatype Paste = Paste(xStart: int, yStart: int, xEnd: int, yEnd: int)

  /** One reported box with its confidence. */
  datatype Reported = Reported(bbox: Bounds, confidence: real)

  /** What the model reports: the boxes, and the masks when it reports any. */
  datatype Prediction = Prediction(boxes: seq<Reported>, masks: Option<seq<Mask>>)

  /** One result entry: box, confidence and, when present, mask. */
  datatype Item = Item(bbox: Bounds, confidence: real, mask: Option<Mask>)

  /** Box `i`, rounded to two decimals, as an entry, with mask `i` attached when there are that many masks. */
  function Candidates(p: Prediction): (r: seq<Item>)
    ensures |r| == |p.boxes|
  {
    seq(|p.boxes|, i requires 0 <= i < |p.boxes| =>
      Item(RoundBox(p.boxes[i].bbox), p.boxes[i].confidence,
           if p.masks.Some? && i < |p.masks.value| then Some(p.masks.value[i]) else None))
  }

  predicate AboveFloor(it: Item)
  {
    it.confidence >= YoloeConfidenceThreshold
  }

  /** The enumerate loop over the reported boxes. */
  method CollectDetections(p: Prediction) returns (output: seq<Item>)
    ensures output == Filter(AboveFloor, Candidates(p))
  {
    output := [];
    var cands := Candidates(p);
    for i := 0 to |p.boxes|
      invariant output == Filter(AboveFloor, cands[..i])
    {
      var box := p.boxes[i];
      if box.confidence >= YoloeConfidenceThreshold {
        var mask := None;
        if p.masks.Some? && i < |p.masks.value| {
          mask := Some(p.masks.value[i]);
        }
        output := output + [Item(RoundBox(box.bbox), box.confidence, mask)];
      }
      FilterSnoc(AboveFloor, cands[..i], cands[i]);
      assert cands[..i + 1] == cands[..i] + [cands[i]];
    }
    assert cands[..|cands|] == cands;
  }

  /**
   * An entry is reported exactly when some box has a confidence of at least
   * 0.03 and the entry holds that box rounded to two decimals, its confidence
   * and the mask of the same index, if any.
   */
  lemma DetectionMembership(p: Prediction, it: Item)
    ensures it in Filter(AboveFloor, Candidates(p)) <==>
      exists i :: 0 <= i < |p.boxes| && p.boxes[i].confidence >= YoloeConfidenceThreshold
        && it == Item(RoundBox(p.boxes[i].bbox), p.boxes[i].confidence,
                      if p.masks.Some? && i < |p.masks.value| then Some(p.masks.value[i]) else None)
  {
    FilterMembership(AboveFloor, Candidates(p), it);
    if it in Candidates(p) {
      var i :| 0 <= i < |Candidates(p)| && Candidates(p)[i] == it;
    }
    if exists i :: 0 <= i < |p.boxes| && p.boxes[i].confidence >= YoloeConfidenceThreshold
        && it == Item(RoundBox(p.boxes[i].bbox), p.boxes[i].confidence,
                      if p.masks.Some? && i < |p.masks.value| then Some(p.masks.value[i]) else None) {
      var i :| 0 <= i < |p.boxes| && p.boxes[i].confidence >= YoloeConfidenceThreshold
        && it == Item(RoundBox(p.boxes[i].bbox), p.boxes[i].confidence,
                      if p.masks.Some? && i < |p.masks.value| then Some(p.masks.value[i]) else None);
      assert Candidates(p)[i] == it;
    }
  }

  /** The paste rectangle of a crop mask into an `origW` x `origH` mask. */
  function PasteRegion(c: Window, origW: int, origH: int): (p: Paste)
    ensures p.xStart == c.shiftX && p.yStart == c.shiftY
    ensures p.xEnd <= origW && p.xEnd <= c.shiftX + c.w
    ensures p.yEnd <= origH && p.yEnd <= c.shiftY + c.h
  {
    Paste(c.shiftX, c.shiftY, MinI(c.shiftX + c.w, origW), MinI(c.shiftY + c.h, origH))
  }

  /** The pasted width and height, never negative. */
  function PasteSize(p: Paste): (r: (int, int))
    ensures r.0 >= 0 && r.1 >= 0
  {
    (MaxI(0, p.xEnd - p.xStart), MaxI(0, p.yEnd - p.yStart))
  }

  /** A non-empty paste lies within the image and within the crop window. */
  lemma PasteInsideImage(c: Window, origW: int, origH: int)
    requires 0 <= c.shiftX && 0 <= c.shiftY
    ensures var p := PasteRegion(c, origW, origH); var sz := PasteSize(p);
      sz.0 > 0 && sz.1 > 0 ==>
        0 <= p.xStart && p.xStart + sz.0 <= origW && sz.0 <= c.w
        && 0 <= p.yStart && p.yStart + sz.1 <= origH && sz.1 <= c.h
  {
  }

  /** A window inside the image is pasted back whole. */
  lemma PasteWholeWindow(c: Window, origW: int, origH: int)
    requires 0 < c.w && c.shiftX + c.w <= origW && 0 < c.h && c.shiftY + c.h <= origH
    ensures PasteSize(PasteRegion(c, origW, origH)) == (c.w, c.h)
  {
  }

  /** An entry moved back onto the image; its mask becomes a full-image mask holding the crop's. */
  function ShiftItem(it: Item, c: Window, origW: int, origH: int): Item
  {
    Item(Shifted(it.bbox, c.shiftX as real, c.shiftY as real), it.confidence,
         if it.mask.Some? then Some(Pasted(origH, origW, PasteRegion(c, origW, origH))) else None)
  }

  function ShiftItems(items: seq<Item>, c: Window, origW: int, origH: int): (r: seq<Item>)
    ensures |r| == |items|
  {
    seq(|items|, i requires 0 <= i < |items| => ShiftItem(items[i], c, origW, origH))
  }

  /** The loop that maps the entries back onto the original image. */
  method ShiftBackItems(items: seq<Item>, c: Window, origW: int, origH: int) returns (r: seq<Item>)
    ensures r == ShiftItems(items, c, origW, origH)
    ensures forall i :: 0 <= i < |r| ==>
      r[i].bbox == Shifted(items[i].bbox, c.shiftX as real, c.shiftY as real)
      && r[i].confidence == items[i].confidence && (r[i].mask.Some? <==> items[i].mask.Some?)
  {
    r := [];
    for i := 0 to |items|
      invariant r == ShiftItems(items[..i], c, origW, origH)
    {
      var it := items[i];
      var mask := None;
      if it.mask.Some? {
        mask := Some(Pasted(origH, origW, PasteRegion(c, origW, origH)));
      }
      r := r + [Item(Shifted(it.bbox, c.shiftX as real, c.shiftY as real), it.confidence, mask)];
    }
    assert items[..|items|] == items;
  }

  /**
   * Where the prompts go and whether results are moved back: with a planned
   * crop the model runs on it, with the clipped prompts when some survive,
   * else with the prompts as given.
   */
  function CropTarget(plan: Option<Window>): Target
  {
    if plan.Some? then CroppedImage(plan.value) else WholeImage
  }

  function PromptsFor(bboxes: seq<Bounds>, clsIds: seq<int>, plan: Option<Window>): Prompts
  {
    if plan.Some? && ClipWithClasses(bboxes, clsIds, plan.value).boxes != [] then
      ClipWithClasses(bboxes, clsIds, plan.value)
    else Prompts(bboxes, clsIds)
  }

  /** The kept entries, moved back whenever the model ran on a crop. */
  function Answer(pred: Option<Prediction>, plan: Option<Window>, imageSize: Option<(int, int)>): seq<Item>
  {
    if pred.None? then []
    else
      var items := Filter(AboveFloor, Candidates(pred.value));
      if plan.Some? && imageSize.Some? then ShiftItems(items, plan.value, imageSize.value.0, imageSize.value.1)
      else items
  }

  /** What `yoloe_inference` answers. */
  function YoloeOf(modelLoaded: bool, bboxes: seq<Bounds>, clsIds: seq<int>, plan: Option<Window>,
                   imageSize: Option<(int, int)>,
                   predict: (Target, Prompts) -> Option<Prediction>): seq<Item>
  {
    if !modelLoaded then []
    else Answer(predict(CropTarget(plan), PromptsFor(bboxes, clsIds, plan)), plan, imageSize)
  }

  /**
   * `yoloe_inference`. `imageSize` is the size of the image file (width,
   * height), None when it does not read.
   */
  method YoloeInference(modelLoaded: bool, bboxes: seq<Bounds>, clsIds: seq<int>, remoteEnabled: bool,
                        canvas: Option<Canvas>, imageSize: Option<(int, int)>,
                        predict: (Target, Prompts) -> Option<Prediction>) returns (items: seq<Item>)
    ensures items == YoloeOf(modelLoaded, bboxes, clsIds, CropPlan(remoteEnabled, canvas, imageSize), imageSize, predict)
  {
    if !modelLoaded {
      return [];
    }
    var plan := CropPlan(remoteEnabled, canvas, imageSize);
    var prompts := Prompts(bboxes, clsIds);
    var target := WholeImage;
    if plan.Some? {
      target := CroppedImage(plan.value);
      var adjusted := ClipPromptsWithClasses(bboxes, clsIds, plan.value);
      if adjusted.boxes != [] {
        prompts := adjusted;
      }
    }
    var pred := predict(target, prompts);
    if pred.None? {
      return [];
    }
    items := CollectDetections(pred.value);
    if plan.Some? {
      items := ShiftBackItems(items, plan.value, imageSize.value.0, imageSize.value.1);
    }
  }

  /**
   * A crop whose prompts all fall outside it still runs on the cropped image
   * with the prompts as given, and its results are still moved back by the
   * crop's offset.
   */
  lemma AbandonedCropStillShifted(bboxes: seq<Bounds>, clsIds: seq<int>, c: Window, w: int, h: int,
                                  predict: (Target, Prompts) -> Option<Prediction>)
    requires ClippedAll(bboxes, c) == []
    requires predict(CroppedImage(c), Prompts(bboxes, clsIds)).Some?
    ensures var items := Filter(AboveFloor, Candidates(predict(CroppedImage(c), Prompts(bboxes, clsIds)).value));
      YoloeOf(true, bboxes, clsIds, Some(c), Some((w, h)), predict) == ShiftItems(items, c, w, h)
  {
  }

  /** Every entry of a crop run is a confident box of the crop, rounded and moved back. */
  lemma CropEntriesMovedBack(modelLoaded: bool, bboxes: seq<Bounds>, clsIds: seq<int>, c: Window, w: int, h: int,
                             predict: (Target, Prompts) -> Option<Prediction>, i: int)
    requires 0 <= i < |YoloeOf(modelLoaded, bboxes, clsIds, Some(c), Some((w, h)), predict)|
    ensures var pred := predict(CroppedImage(c), PromptsFor(bboxes, clsIds, Some(c))).value;
      var it := YoloeOf(modelLoaded, bboxes, clsIds, Some(c), Some((w, h)), predict)[i];
      it.confidence >= YoloeConfidenceThreshold
      && exists k :: 0 <= k < |pred.boxes| && it.bbox == Shifted(RoundBox(pred.boxes[k].bbox), c.shiftX as real, c.shiftY as real)
  {
    var pred := predict(CroppedImage(c), PromptsFor(bboxes, clsIds, Some(c))).value;
    var items := Filter(AboveFloor, Candidates(pred));
    var src := items[i];
    DetectionMembership(pred, src);
  }

  /** The semantic prompts after the crop: clipped boxes, carried ids and weights re-aligned to them. */
  function SemanticCropPrompts(bboxes: seq<Bounds>, clsIds: seq<int>, weights: Option<seq<real>>,
                               plan: Option<Window>): (Prompts, Option<seq<real>>)
  {
    var p := PromptsFor(bboxes, clsIds, plan);
    var moved := plan.Some? && ClipWithClasses(bboxes, clsIds, plan.value).boxes != [];
    (p, if moved && weights.Some? && weights.value != [] then Some(CarriedWeights(|p.boxes|, weights.value))
        else weights)
  }

  /** What `yoloe_semantic_inference` answers. */
  function YoloeSemanticOf(modelLoaded: bool, description: string, bboxes: seq<Bounds>, clsIds: seq<int>,
                           weights: Option<seq<real>>, plan: Option<Window>, imageSize: Option<(int, int)>,
                           predict: (Target, VisualPrompts) -> Option<Prediction>): seq<Item>
  {
    var (p, w) := SemanticCropPrompts(bboxes, clsIds, weights, plan);
    var n := |p.boxes|;
    var w2 := if w.None? then Repeat(DefaultPromptWeight, n) else w.value;
    var descs := if n > 0 then Repeat(description, n) else [description];
    if !modelLoaded then []
    else Answer(predict(CropTarget(plan), SemanticPromptsOf(p, Some(w2), TextList(descs))), plan, imageSize)
  }

  /**
   * `yoloe_semantic_inference`: the crop as in `yoloe_inference` with the
   * weights carried along, one copy of the description per box, then
   * `inference_with_semantic_prompts` on the chosen image.
   */
  method YoloeSemanticInference(modelLoaded: bool, description: string, bboxes: seq<Bounds>, clsIds: seq<int>,
                                weights: Option<seq<real>>, remoteEnabled: bool, canvas: Option<Canvas>,
                                imageSize: Option<(int, int)>,
                                predict: (Target, VisualPrompts) -> Option<Prediction>) returns (items: seq<Item>)
    ensures items == YoloeSemanticOf(modelLoaded, description, bboxes, clsIds, weights,
                                     CropPlan(remoteEnabled, canvas, imageSize), imageSize, predict)
  {
    var plan := CropPlan(remoteEnabled, canvas, imageSize);
    var prompts := Prompts(bboxes, clsIds);
    var w := weights;
    var target := WholeImage;
    if plan.Some? {
      target := CroppedImage(plan.value);
      var adjusted := ClipPromptsWithClasses(bboxes, clsIds, plan.value);
      if adjusted.boxes != [] {
        prompts := adjusted;
        if w.Some? && w.value != [] {
          var carried := AdjustPromptWeights(adjusted.boxes, w.value);
          w := Some(carried);
        }
      }
    }
    var n := |prompts.boxes|;
    if w.None? {
      w := Some(Repeat(DefaultPromptWeight, n));
    }
    var descs := if n > 0 then Repeat(description, n) else [description];
    if !modelLoaded {
      return [];
    }
    var pred := predict(target, SemanticPromptsOf(prompts, w, TextList(descs)));
    if pred.None? {
      return [];
    }
    items := CollectDetections(pred.value);
    if plan.Some? {
      items := ShiftBackItems(items, plan.value, imageSize.value.0, imageSize.value.1);
    }
  }

  /** The semantic call gives the model one description and one weight per prompt box. */
  lemma SemanticPromptsAligned(description: string, bboxes: seq<Bounds>, clsIds: seq<int>,
                               weights: Option<seq<real>>, plan: Option<Window>)
    requires var (p, w) := SemanticCropPrompts(bboxes, clsIds, weights, plan);
      |p.boxes| > 0 && (w.None? || |w.value| == 1 || |w.value| >= |p.boxes|)
    ensures var (p, w) := SemanticCropPrompts(bboxes, clsIds, weights, plan);
      var n := |p.boxes|;
      var w2 := if w.None? then Repeat(DefaultPromptWeight, n) else w.value;
      var v := SemanticPromptsOf(p, Some(w2), TextList(Repeat(description, n)));
      |v.descriptions| == n && |v.weights| == n && forall i :: 0 <= i < n ==> v.descriptions[i] == description
  {
    var (p, w) := SemanticCropPrompts(bboxes, clsIds, weights, plan);
    var n := |p.boxes|;
    var w2 := if w.None? then Repeat(DefaultPromptWeight, n) else w.value;
    AlignShape(Repeat(description, n), n);
    AlignShape(w2, n);
  }
}
