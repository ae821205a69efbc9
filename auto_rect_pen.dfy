/**
 * The automatic rectangle pen of sam_ops/aotu_rect_pen.py: it polls the
 * inference queue and turns the boxes found in a result into `'auto'`
 * rectangle children of the selected parent, skipping malformed boxes,
 * polygon mode and duplicates, and restoring the user's selection
 * afterwards.
 *
 * The queue, the timer and the canvas redraw are left to the caller; the
 * polygon-mode hand-off to SAM is not part of this model.
 */
module AutoRectPen {
  import opened Wrappers
  import opened Labels
  import opened LabelList
  import opened BoundingRect
  import opened DupFilter

  const DefaultMaskDetailLevel: real := 0.001
  const MinMaskDetailLevel: real := 0.0001
  const MaxMaskDetailLevel: real := 0.01

  /** A box argument: a Python list of numbers, or any other value (a tuple, None, ...). */
  datatype BoxArg = BoxList(values: seq<real>) | NotAList

  /**
   * A dict result: its `status`, whether it has an `'error'` key, and the
   * boxes its detector branches hand to `_create_label_from_bbox`.
   */
  datatype DictResult = DictResult(status: Option<string>, hasError: bool, boxes: seq<BoxArg>)

  /** An entry of a list result. */
  datatype Item = DictItem(d: DictResult) | ListItem(values: seq<real>) | OtherItem

  datatype InferenceResult = DictRes(d: DictResult) | ListRes(items: seq<Item>) | OtherRes

  /** The `create_child_label` call for a box: an automatic rectangle with the four corners. */
  function RectRequest(x1: real, y1: real, x2: real, y2: real): ChildRequest
  {
    ChildRequest(None, None, None, None, Auto, Rectangle, [], 0.0, Some(RectCorners(x1, y1, x2, y2)), false)
  }

  /** The cases in which `_create_label_from_bbox` returns without creating anything. */
  predicate Rejected(p: Parent, imageInfo: string, polygonMode: bool, b: BoxArg)
  {
    b.NotAList? || |b.values| < 4
    || b.values[0] >= b.values[2] || b.values[1] >= b.values[3]
    || polygonMode
    || (imageInfo != "" && DuplicateAmong(ImageChildren(p, imageInfo), Bounds(b.values[0], b.values[1], b.values[2], b.values[3])))
  }

  /**
   * `_create_label_from_bbox` on the parent list: the target is selected
   * alone for `create_child_label`, then the parent selected before (if
   * any) is selected alone again. Returns the new list and the child.
   */
  function CreateFromBbox(ls: seq<Parent>, target: nat, imageInfo: string, polygonMode: bool, b: BoxArg)
    : (r: (seq<Parent>, Option<Child>))
    requires target < |ls|
    ensures |r.0| == |ls|
    ensures r.1.None? <==> Rejected(ls[target], imageInfo, polygonMode, b)
    ensures r.1.None? ==> r.0 == ls
  {
    if Rejected(ls[target], imageInfo, polygonMode, b) then (ls, None)
    else
      var v := b.values;
      var s := SelectOnly(ls, target);
      var c := BuildChild(s[target], RectRequest(v[0], v[1], v[2], v[3]));
      var t := s[target := AppendChild(s[target], imageInfo, c)];
      var original := FirstSelected(ls);
      (if original.Some? then SelectOnly(t, original.value) else t, Some(c))
  }

  /** The list of a created child, empty when none was. */
  function OptList(c: Option<Child>): (r: seq<Child>)
    ensures |r| <= 1 && (c.Some? ==> r == [c.value]) && (c.None? ==> r == [])
  {
    if c.Some? then [c.value] else []
  }

  /** The making of the new child: an automatic rectangle of the target's class with the box as centre and size. */
  lemma CreatedChildIsBox(ls: seq<Parent>, target: nat, imageInfo: string, polygonMode: bool, b: BoxArg)
    requires target < |ls| && !Rejected(ls[target], imageInfo, polygonMode, b)
    ensures var c := CreateFromBbox(ls, target, imageInfo, polygonMode, b).1.value;
      var v := b.values;
      c.className == ls[target].name && c.classId == ls[target].id && c.mode == Auto && c.shape == Rectangle
      && !c.isPlaceholder && c.points == [v[0], v[1], v[2], v[1], v[2], v[3], v[0], v[3]]
      && BoxOf(c) == Some(Box((v[0] + v[2]) / 2.0, (v[1] + v[3]) / 2.0, v[2] - v[0], v[3] - v[1]))
  {
    var v := b.values;
    RectangleFromCorners(SelectOnly(ls, target)[target], v[0], v[1], v[2], v[3], Auto, [], 0.0, false);
  }

  /**
   * After a creation exactly one parent is selected: the one selected
   * before when there was one, else the target.
   */
  lemma SelectionRestored(ls: seq<Parent>, target: nat, imageInfo: string, polygonMode: bool, b: BoxArg)
    requires target < |ls| && !Rejected(ls[target], imageInfo, polygonMode, b)
    ensures var r := CreateFromBbox(ls, target, imageInfo, polygonMode, b).0;
      var k := if FirstSelected(ls).Some? then FirstSelected(ls).value else target;
      FirstSelected(r) == Some(k) && forall i :: 0 <= i < |r| ==> (r[i].selected <==> i == k)
  {
    var v := b.values;
    var s := SelectOnly(ls, target);
    var c := BuildChild(s[target], RectRequest(v[0], v[1], v[2], v[3]));
    var t := s[target := AppendChild(s[target], imageInfo, c)];
    SelectOnlyExactlyOne(ls, target);
    if FirstSelected(ls).Some? {
      SelectOnlyExactlyOne(t, FirstSelected(ls).value);
    } else {
      assert forall i :: 0 <= i < |t| ==> (t[i].selected <==> i == target);
      assert t[target].selected;
      var f := FirstSelected(t);
      assert f.Some?;
      assert t[f.value].selected;
    }
  }

  /**
   * Only the target's list for the image gains a child, at its end; every
   * other list of every parent, and every name and id, is as before.
   */
  lemma OnlyTargetImageGrows(ls: seq<Parent>, target: nat, imageInfo: string, polygonMode: bool, b: BoxArg)
    requires target < |ls| && !Rejected(ls[target], imageInfo, polygonMode, b)
    ensures var (r, c) := CreateFromBbox(ls, target, imageInfo, polygonMode, b);
      r[target].childrenByImage[imageInfo] == ImageChildren(ls[target], imageInfo) + [c.value]
      && r[target].childrenByImage.Keys == ls[target].childrenByImage.Keys + {imageInfo}
      && (forall key :: key in ls[target].childrenByImage && key != imageInfo ==>
            r[target].childrenByImage[key] == ls[target].childrenByImage[key])
      && (forall i :: 0 <= i < |ls| && i != target ==> r[i].childrenByImage == ls[i].childrenByImage)
      && (forall i :: 0 <= i < |ls| ==> KeyOf(r[i]) == KeyOf(ls[i]))
  {
  }

  /** The parents' pairs, and their distinctness, survive a creation. */
  lemma CreateKeepsKeys(ls: seq<Parent>, target: nat, imageInfo: string, polygonMode: bool, b: BoxArg)
    requires target < |ls|
    ensures Keys(CreateFromBbox(ls, target, imageInfo, polygonMode, b).0) == Keys(ls)
    ensures KeysDistinct(ls) ==> KeysDistinct(CreateFromBbox(ls, target, imageInfo, polygonMode, b).0)
  {
    var r := CreateFromBbox(ls, target, imageInfo, polygonMode, b).0;
    if !Rejected(ls[target], imageInfo, polygonMode, b) {
      OnlyTargetImageGrows(ls, target, imageInfo, polygonMode, b);
    }
    assert forall i :: 0 <= i < |ls| ==> KeyOf(r[i]) == KeyOf(ls[i]);
    KeysSame(ls, r);
  }

  /** Offering the same box twice creates one label: the second time it is its own duplicate. */
  lemma SameBoxTwiceCreatesOne(ls: seq<Parent>, target: nat, imageInfo: string, polygonMode: bool, b: BoxArg)
    requires target < |ls| && imageInfo != "" && !Rejected(ls[target], imageInfo, polygonMode, b)
    ensures var r := CreateFromBbox(ls, target, imageInfo, polygonMode, b).0;
      CreateFromBbox(r, target, imageInfo, polygonMode, b) == (r, None)
  {
    var (r, c) := CreateFromBbox(ls, target, imageInfo, polygonMode, b);
    var v := b.values;
    OnlyTargetImageGrows(ls, target, imageInfo, polygonMode, b);
    RectangleIsItsOwnDuplicate(SelectOnly(ls, target)[target], v[0], v[1], v[2], v[3], Auto);
    var children := ImageChildren(r[target], imageInfo);
    assert children[|children| - 1] == c.value;
    assert DuplicateAmong(children, Bounds(v[0], v[1], v[2], v[3]));
  }

  /** A run of `_create_label_from_bbox` calls over a list of boxes, in order. */
  function CreateAll(ls: seq<Parent>, target: nat, imageInfo: string, polygonMode: bool, bs: seq<BoxArg>)
    : (r: (seq<Parent>, seq<Child>))
    requires target < |ls|
    ensures |r.0| == |ls| && |r.1| <= |bs|
  {
    if |bs| == 0 then (ls, [])
    else
      var prev := CreateAll(ls, target, imageInfo, polygonMode, bs[..|bs| - 1]);
      var step := CreateFromBbox(prev.0, target, imageInfo, polygonMode, bs[|bs| - 1]);
      (step.0, prev.1 + OptList(step.1))
  }

  lemma CreateAllSnoc(ls: seq<Parent>, target: nat, imageInfo: string, polygonMode: bool, bs: seq<BoxArg>, i: nat)
    requires target < |ls| && i < |bs|
    ensures var prev := CreateAll(ls, target, imageInfo, polygonMode, bs[..i]);
      var step := CreateFromBbox(prev.0, target, imageInfo, polygonMode, bs[i]);
      var next := CreateAll(ls, target, imageInfo, polygonMode, bs[..i + 1]);
      next.0 == step.0 && next.1 == prev.1 + OptList(step.1)
  {
    assert bs[..i + 1][..i] == bs[..i];
  }

  /** In polygon mode no box creates a label. */
  lemma {:induction false} PolygonModeCreatesNothing(ls: seq<Parent>, target: nat, imageInfo: string, bs: seq<BoxArg>)
    requires target < |ls|
    ensures CreateAll(ls, target, imageInfo, true, bs) == (ls, [])
  {
    if |bs| > 0 {
      PolygonModeCreatesNothing(ls, target, imageInfo, bs[..|bs| - 1]);
    }
  }

  /** `_process_dict_result`: a started status or an error key creates nothing. */
  function DictEffect(ls: seq<Parent>, target: nat, imageInfo: string, polygonMode: bool, d: DictResult)
    : (r: (seq<Parent>, seq<Child>))
    requires target < |ls|
    ensures |r.0| == |ls|
    ensures d.status == Some("inference_started") || d.hasError ==> r == (ls, [])
  {
    if d.status == Some("inference_started") || d.hasError then (ls, [])
    else CreateAll(ls, target, imageInfo, polygonMode, d.boxes)
  }

  /** `_process_list_result`: dict entries are processed as dict results, lists of four or more as boxes. */
  function ListEffect(ls: seq<Parent>, target: nat, imageInfo: string, polygonMode: bool, items: seq<Item>)
    : (r: (seq<Parent>, seq<Child>))
    requires target < |ls|
    ensures |r.0| == |ls|
  {
    if |items| == 0 then (ls, [])
    else
      var prev := ListEffect(ls, target, imageInfo, polygonMode, items[..|items| - 1]);
      var step := ItemEffect(prev.0, target, imageInfo, polygonMode, items[|items| - 1]);
      (step.0, prev.1 + step.1)
  }

  lemma AppendAssoc<T>(a: seq<T>, b: seq<T>, c: seq<T>)
    ensures a + b + c == a + (b + c)
  {
  }

  /** One more entry: the list effect of the first i + 1 entries is that of the first i, then the entry's own. */
  lemma ListEffectSnoc(ls: seq<Parent>, target: nat, imageInfo: string, polygonMode: bool, items: seq<Item>, i: nat)
    requires target < |ls| && i < |items|
    ensures var prev := ListEffect(ls, target, imageInfo, polygonMode, items[..i]);
      var step := ItemEffect(prev.0, target, imageInfo, polygonMode, items[i]);
      var next := ListEffect(ls, target, imageInfo, polygonMode, items[..i + 1]);
      next.0 == step.0 && next.1 == prev.1 + step.1
  {
    assert items[..i + 1][..i] == items[..i];
  }

  function ItemEffect(ls: seq<Parent>, target: nat, imageInfo: string, polygonMode: bool, item: Item)
    : (r: (seq<Parent>, seq<Child>))
    requires target < |ls|
    ensures |r.0| == |ls|
    ensures item.OtherItem? || (item.ListItem? && |item.values| < 4) ==> r == (ls, [])
  {
    match item
    case DictItem(d) => DictEffect(ls, target, imageInfo, polygonMode, d)
    case ListItem(v) =>
      if |v| >= 4 then
        var step := CreateFromBbox(ls, target, imageInfo, polygonMode, BoxList(v));
        (step.0, OptList(step.1))
      else (ls, [])
    case OtherItem => (ls, [])
  }

  /** Entries that are neither dicts nor lists of four numbers leave the list result's effect as it was. */
  lemma IgnoredItemsChangeNothing(ls: seq<Parent>, target: nat, imageInfo: string, polygonMode: bool,
                                  items: seq<Item>, item: Item)
    requires target < |ls| && (item.OtherItem? || (item.ListItem? && |item.values| < 4))
    ensures ListEffect(ls, target, imageInfo, polygonMode, items + [item])
         == ListEffect(ls, target, imageInfo, polygonMode, items)
  {
    assert (items + [item])[..|items|] == items;
    var (prev, made) := ListEffect(ls, target, imageInfo, polygonMode, items);
    assert ItemEffect(prev, target, imageInfo, polygonMode, item) == (prev, []);
    assert made + [] == made;
  }

  /**
   * `_process_inference_result`: nothing without a truthy image or a
   * selected parent, else the dict or list result is processed for the
   * first selected parent.
   */
  function ResultEffect(ls: seq<Parent>, imageInfo: Option<string>, polygonMode: bool, result: InferenceResult)
    : (r: (seq<Parent>, seq<Child>))
    ensures !Truthy(imageInfo) || FirstSelected(ls).None? || result.OtherRes? ==> r == (ls, [])
  {
    if !Truthy(imageInfo) || FirstSelected(ls).None? then (ls, [])
    else
      var k := FirstSelected(ls).value;
      match result
      case DictRes(d) => DictEffect(ls, k, imageInfo.value, polygonMode, d)
      case ListRes(items) => ListEffect(ls, k, imageInfo.value, polygonMode, items)
      case OtherRes => (ls, [])
  }

  class AutoRectPen {
    var labelList: ParentLabelList
    var enabled: bool
    var processing: bool
    var maskDetailLevel: real
    /** `canvas_view.polygon_mode`. */
    var polygonMode: bool
    /** The children announced by `new_label_created`, in order. */
    var created: seq<Child>

    constructor (labelList: ParentLabelList, polygonMode: bool)
      ensures this.labelList == labelList && this.polygonMode == polygonMode
      ensures enabled && !processing && maskDetailLevel == DefaultMaskDetailLevel && created == []
    {
      this.labelList := labelList;
      this.polygonMode := polygonMode;
      enabled := true;
      processing := false;
      maskDetailLevel := DefaultMaskDetailLevel;
      created := [];
    }

    method SetEnabled(on: bool)
      modifies this
      ensures enabled == on
      ensures labelList == old(labelList) && processing == old(processing) && maskDetailLevel == old(maskDetailLevel)
      ensures polygonMode == old(polygonMode) && created == old(created)
    {
      enabled := on;
    }

    /** `set_mask_detail_level`: values outside [0.0001, 0.01] are refused. */
    method SetMaskDetailLevel(level: real)
      modifies this
      ensures maskDetailLevel == if MinMaskDetailLevel <= level <= MaxMaskDetailLevel then level else old(maskDetailLevel)
      ensures MinMaskDetailLevel <= old(maskDetailLevel) <= MaxMaskDetailLevel ==>
        MinMaskDetailLevel <= maskDetailLevel <= MaxMaskDetailLevel
      ensures labelList == old(labelList) && enabled == old(enabled) && processing == old(processing)
      ensures polygonMode == old(polygonMode) && created == old(created)
    {
      if MinMaskDetailLevel <= level <= MaxMaskDetailLevel {
        maskDetailLevel := level;
      }
    }

    /** `_create_label_from_bbox` for the parent at index `target`. */
    method CreateLabelFromBbox(b: BoxArg, imageInfo: string, target: nat) returns (child: Option<Child>)
      requires target < |labelList.labels|
      modifies this, labelList
      ensures labelList.labels == CreateFromBbox(old(labelList.labels), target, imageInfo, polygonMode, b).0
      ensures child == CreateFromBbox(old(labelList.labels), target, imageInfo, polygonMode, b).1
      ensures created == old(created) + OptList(child)
      ensures labelList == old(labelList) && enabled == old(enabled) && processing == old(processing)
      ensures maskDetailLevel == old(maskDetailLevel) && polygonMode == old(polygonMode)
      ensures labelList.nameIdSet == old(labelList.nameIdSet) && labelList.currentImageInfo == old(labelList.currentImageInfo)
      ensures old(labelList.Valid()) ==> labelList.Valid()
    {
      ghost var ls := labelList.labels;
      if b.NotAList? || |b.values| < 4 {
        return None;
      }
      var x1, y1, x2, y2 := b.values[0], b.values[1], b.values[2], b.values[3];
      if x1 >= x2 || y1 >= y2 {
        return None;
      }
      if polygonMode {
        return None;
      }
      var dup := IsDuplicateRect(Some(labelList.labels[target]), Some(imageInfo), Some(b.values), 1.0);
      if dup {
        return None;
      }
      var c := AddRectChild(b, imageInfo, target);
      child := Some(c);
      created := created + [c];
    }

    /** The accepted branch of `_create_label_from_bbox`: select the target, add the child, restore the selection. */
    method AddRectChild(b: BoxArg, imageInfo: string, target: nat) returns (c: Child)
      requires target < |labelList.labels|
      requires !Rejected(labelList.labels[target], imageInfo, polygonMode, b)
      modifies labelList
      ensures labelList.labels == CreateFromBbox(old(labelList.labels), target, imageInfo, polygonMode, b).0
      ensures Some(c) == CreateFromBbox(old(labelList.labels), target, imageInfo, polygonMode, b).1
      ensures labelList.nameIdSet == old(labelList.nameIdSet) && labelList.currentImageInfo == old(labelList.currentImageInfo)
      ensures old(labelList.Valid()) ==> labelList.Valid()
    {
      ghost var ls := labelList.labels;
      CreateKeepsKeys(ls, target, imageInfo, polygonMode, b);
      var x1, y1, x2, y2 := b.values[0], b.values[1], b.values[2], b.values[3];
      var original := labelList.SelectedIndex();
      labelList.SetSelection(target);
      ghost var s := SelectOnly(ls, target);
      assert labelList.labels == s;
      SelectOnlyExactlyOne(ls, target);
      var child := labelList.CreateChildLabel(imageInfo, RectRequest(x1, y1, x2, y2));
      ghost var made := BuildChild(s[target], RectRequest(x1, y1, x2, y2));
      assert child == Some(made) && labelList.labels == s[target := AppendChild(s[target], imageInfo, made)];
      c := child.value;
      if original.Some? {
        labelList.SetSelection(original.value);
      }
    }

    /** The boxes of one dict result, one call each. */
    method CreateLabelsFromBoxes(bs: seq<BoxArg>, imageInfo: string, target: nat)
      requires target < |labelList.labels|
      modifies this, labelList
      ensures labelList.labels == CreateAll(old(labelList.labels), target, imageInfo, polygonMode, bs).0
      ensures created == old(created) + CreateAll(old(labelList.labels), target, imageInfo, polygonMode, bs).1
      ensures labelList == old(labelList) && enabled == old(enabled) && processing == old(processing)
      ensures maskDetailLevel == old(maskDetailLevel) && polygonMode == old(polygonMode)
      ensures labelList.nameIdSet == old(labelList.nameIdSet) && labelList.currentImageInfo == old(labelList.currentImageInfo)
      ensures old(labelList.Valid()) ==> labelList.Valid()
    {
      ghost var ls0, pm, wasValid := labelList.labels, polygonMode, labelList.Valid();
      assert created == created + CreateAll(ls0, target, imageInfo, pm, bs[..0]).1;
      for i := 0 to |bs|
        invariant labelList == old(labelList) && polygonMode == pm && |labelList.labels| == |ls0|
        invariant labelList.labels == CreateAll(ls0, target, imageInfo, pm, bs[..i]).0
        invariant created == old(created) + CreateAll(ls0, target, imageInfo, pm, bs[..i]).1
        invariant enabled == old(enabled) && processing == old(processing) && maskDetailLevel == old(maskDetailLevel)
        invariant labelList.nameIdSet == old(labelList.nameIdSet) && labelList.currentImageInfo == old(labelList.currentImageInfo)
        invariant wasValid ==> labelList.Valid()
      {
        CreateEntry(bs, i, imageInfo, target, ls0, old(created));
      }
      assert bs[..|bs|] == bs;
    }

    /** One box of `_process_dict_result`'s loop, as a step of the run over all boxes. */
    method CreateEntry(bs: seq<BoxArg>, i: nat, imageInfo: string, target: nat,
                       ghost ls0: seq<Parent>, ghost base: seq<Child>)
      requires i < |bs| && target < |ls0|
      requires labelList.labels == CreateAll(ls0, target, imageInfo, polygonMode, bs[..i]).0
      requires created == base + CreateAll(ls0, target, imageInfo, polygonMode, bs[..i]).1
      modifies this, labelList
      ensures labelList.labels == CreateAll(ls0, target, imageInfo, polygonMode, bs[..i + 1]).0
      ensures created == base + CreateAll(ls0, target, imageInfo, polygonMode, bs[..i + 1]).1
      ensures labelList == old(labelList) && enabled == old(enabled) && processing == old(processing)
      ensures maskDetailLevel == old(maskDetailLevel) && polygonMode == old(polygonMode)
      ensures labelList.nameIdSet == old(labelList.nameIdSet) && labelList.currentImageInfo == old(labelList.currentImageInfo)
      ensures old(labelList.Valid()) ==> labelList.Valid()
    {
      CreateAllSnoc(ls0, target, imageInfo, polygonMode, bs, i);
      ghost var made := CreateAll(ls0, target, imageInfo, polygonMode, bs[..i]).1;
      var c := CreateLabelFromBbox(bs[i], imageInfo, target);
      AppendAssoc(base, made, OptList(c));
    }

    /** `_process_dict_result`, up to its early exits and the boxes it passes on. */
    method ProcessDictResult(d: DictResult, imageInfo: string, target: nat)
      requires target < |labelList.labels|
      modifies this, labelList
      ensures labelList.labels == DictEffect(old(labelList.labels), target, imageInfo, polygonMode, d).0
      ensures created == old(created) + DictEffect(old(labelList.labels), target, imageInfo, polygonMode, d).1
      ensures labelList == old(labelList) && enabled == old(enabled) && processing == old(processing)
      ensures maskDetailLevel == old(maskDetailLevel) && polygonMode == old(polygonMode)
      ensures labelList.nameIdSet == old(labelList.nameIdSet) && labelList.currentImageInfo == old(labelList.currentImageInfo)
      ensures old(labelList.Valid()) ==> labelList.Valid()
    {
      assert created == created + [];
      if d.status == Some("inference_started") {
        return;
      }
      if d.hasError {
        return;
      }
      CreateLabelsFromBoxes(d.boxes, imageInfo, target);
    }

    /**
     * Entry i of `_process_list_result`, after entries 0..i-1 took the
     * parents from `ls0` to the current ones and announced their children
     * after `base`: a dict is processed as a dict result, a list of four or
     * more as a box.
     */
    method ProcessEntry(items: seq<Item>, i: nat, imageInfo: string, target: nat,
                        ghost ls0: seq<Parent>, ghost base: seq<Child>)
      requires i < |items| && target < |ls0|
      requires labelList.labels == ListEffect(ls0, target, imageInfo, polygonMode, items[..i]).0
      requires created == base + ListEffect(ls0, target, imageInfo, polygonMode, items[..i]).1
      modifies this, labelList
      ensures labelList.labels == ListEffect(ls0, target, imageInfo, polygonMode, items[..i + 1]).0
      ensures created == base + ListEffect(ls0, target, imageInfo, polygonMode, items[..i + 1]).1
      ensures labelList == old(labelList) && enabled == old(enabled) && processing == old(processing)
      ensures maskDetailLevel == old(maskDetailLevel) && polygonMode == old(polygonMode)
      ensures labelList.nameIdSet == old(labelList.nameIdSet) && labelList.currentImageInfo == old(labelList.currentImageInfo)
      ensures old(labelList.Valid()) ==> labelList.Valid()
    {
      ListEffectSnoc(ls0, target, imageInfo, polygonMode, items, i);
      ghost var made := ListEffect(ls0, target, imageInfo, polygonMode, items[..i]).1;
      ghost var more := ProcessItem(items[i], imageInfo, target);
      AppendAssoc(base, made, more);
    }

    /** One entry of `_process_list_result`: a dict is processed as a dict result, a list of four or more as a box. */
    method ProcessItem(item: Item, imageInfo: string, target: nat) returns (ghost more: seq<Child>)
      requires target < |labelList.labels|
      modifies this, labelList
      ensures created == old(created) + more
      ensures labelList.labels == ItemEffect(old(labelList.labels), target, imageInfo, polygonMode, item).0
      ensures more == ItemEffect(old(labelList.labels), target, imageInfo, polygonMode, item).1
      ensures labelList == old(labelList) && enabled == old(enabled) && processing == old(processing)
      ensures maskDetailLevel == old(maskDetailLevel) && polygonMode == old(polygonMode)
      ensures labelList.nameIdSet == old(labelList.nameIdSet) && labelList.currentImageInfo == old(labelList.currentImageInfo)
      ensures old(labelList.Valid()) ==> labelList.Valid()
    {
      more := [];
      match item
      case DictItem(d) =>
        ProcessDictResult(d, imageInfo, target);
        more := created[|old(created)|..];
        assert created == old(created) + more;
      case ListItem(v) =>
        if |v| >= 4 {
          var c := CreateLabelFromBbox(BoxList(v), imageInfo, target);
          more := OptList(c);
        }
      case OtherItem =>
    }

    /** `_process_list_result`. */
    method ProcessListResult(items: seq<Item>, imageInfo: string, target: nat)
      requires target < |labelList.labels|
      modifies this, labelList
      ensures |created| >= |old(created)| && created[..|old(created)|] == old(created)
      ensures (labelList.labels, created[|old(created)|..]) == ListEffect(old(labelList.labels), target, imageInfo, polygonMode, items)
      ensures labelList == old(labelList) && enabled == old(enabled) && processing == old(processing)
      ensures maskDetailLevel == old(maskDetailLevel) && polygonMode == old(polygonMode)
      ensures labelList.nameIdSet == old(labelList.nameIdSet) && labelList.currentImageInfo == old(labelList.currentImageInfo)
      ensures old(labelList.Valid()) ==> labelList.Valid()
    {
      ghost var ls0, pm, wasValid := labelList.labels, polygonMode, labelList.Valid();
      assert created == created + ListEffect(ls0, target, imageInfo, pm, items[..0]).1;
      for i := 0 to |items|
        invariant labelList == old(labelList) && polygonMode == pm && |labelList.labels| == |ls0|
        invariant labelList.labels == ListEffect(ls0, target, imageInfo, pm, items[..i]).0
        invariant created == old(created) + ListEffect(ls0, target, imageInfo, pm, items[..i]).1
        invariant enabled == old(enabled) && processing == old(processing) && maskDetailLevel == old(maskDetailLevel)
        invariant labelList.nameIdSet == old(labelList.nameIdSet) && labelList.currentImageInfo == old(labelList.currentImageInfo)
        invariant wasValid ==> labelList.Valid()
      {
        ProcessEntry(items, i, imageInfo, target, ls0, old(created));
      }
      assert items[..|items|] == items;
      assert created[|old(created)|..] == ListEffect(ls0, target, imageInfo, pm, items).1;
    }

    /**
     * `_check_inference_results` with `_process_inference_result`: nothing
     * while disabled or already processing, or when the queue is empty
     * (`result` None); otherwise the result is processed and `processing`
     * is cleared again.
     */
    method CheckInferenceResults(result: Option<InferenceResult>, imageInfo: Option<string>)
      modifies this, labelList
      ensures !old(enabled) || old(processing) || result.None? ==>
        labelList.labels == old(labelList.labels) && created == old(created) && processing == old(processing)
      ensures old(enabled) && !old(processing) && result.Some? ==>
        !processing && |created| >= |old(created)| && created[..|old(created)|] == old(created)
        && (labelList.labels, created[|old(created)|..]) == ResultEffect(old(labelList.labels), imageInfo, polygonMode, result.value)
      ensures labelList == old(labelList) && enabled == old(enabled)
      ensures maskDetailLevel == old(maskDetailLevel) && polygonMode == old(polygonMode)
      ensures labelList.nameIdSet == old(labelList.nameIdSet) && labelList.currentImageInfo == old(labelList.currentImageInfo)
      ensures old(labelList.Valid()) ==> labelList.Valid()
    {
      if !enabled || processing {
        return;
      }
      if result.None? {
        return;
      }
      processing := true;
      assert created[|created|..] == [];
      if !Truthy(imageInfo) {
        processing := false;
        return;
      }
      var k := labelList.SelectedIndex();
      if k.None? {
        processing := false;
        return;
      }
      match result.value {
        case DictRes(d) =>
          ProcessDictResult(d, imageInfo.value, k.value);
        case ListRes(items) =>
          ProcessListResult(items, imageInfo.value, k.value);
        case OtherRes =>
      }
      processing := false;
    }
  }
}
