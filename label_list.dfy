/**
 * ParentLabelList of app_ui/labelsgl.py: the ordered list of parent labels,
 * the set of (name, id) pairs used for uniqueness, the single-selection
 * discipline, and the per-image child lists every drawing tool appends to.
 * The list widget and the child-label page widget are not modelled.
 */
module LabelList {
  import opened Wrappers
  import opened PyNum
  import opened Labels

  /** The (name, id) pair that identifies a parent label. */
  type Key = (string, int)

  function KeyOf(p: Parent): Key
  {
    (p.name, p.id)
  }

  /** The pairs of a list of parents, as `name_id_set` should hold them. */
  function Keys(ls: seq<Parent>): set<Key>
  {
    if |ls| == 0 then {} else Keys(ls[..|ls| - 1]) + {KeyOf(ls[|ls| - 1])}
  }

  /** A pair is in Keys(ls) exactly when some parent of ls carries it. */
  lemma {:induction false} KeysMembership(ls: seq<Parent>)
    ensures forall k :: k in Keys(ls) <==> exists i :: 0 <= i < |ls| && KeyOf(ls[i]) == k
  {
    if |ls| > 0 {
      var pre := ls[..|ls| - 1];
      KeysMembership(pre);
      assert forall i :: 0 <= i < |pre| ==> pre[i] == ls[i];
    }
  }

  lemma {:induction false} KeyIn(ls: seq<Parent>, i: nat)
    requires i < |ls|
    ensures KeyOf(ls[i]) in Keys(ls)
  {
    var pre := ls[..|ls| - 1];
    if i < |pre| {
      assert pre[i] == ls[i];
      KeyIn(pre, i);
    }
  }

  /** The position of a parent carrying a given pair. */
  lemma {:induction false} KeyWitness(ls: seq<Parent>, key: Key) returns (i: nat)
    requires key in Keys(ls)
    ensures i < |ls| && KeyOf(ls[i]) == key
  {
    var pre := ls[..|ls| - 1];
    if key == KeyOf(ls[|ls| - 1]) {
      i := |ls| - 1;
    } else {
      i := KeyWitness(pre, key);
      assert pre[i] == ls[i];
    }
  }

  lemma KeysAppend(ls: seq<Parent>, p: Parent)
    ensures Keys(ls + [p]) == Keys(ls) + {KeyOf(p)}
  {
    assert (ls + [p])[..|ls|] == ls;
  }

  /** Lists that agree on every parent's pair have the same pairs. */
  lemma KeysSame(a: seq<Parent>, b: seq<Parent>)
    requires |a| == |b| && forall i :: 0 <= i < |a| ==> KeyOf(a[i]) == KeyOf(b[i])
    ensures Keys(a) == Keys(b) && (KeysDistinct(a) ==> KeysDistinct(b))
  {
    forall key | key in Keys(a)
      ensures key in Keys(b)
    {
      var i := KeyWitness(a, key);
      KeyIn(b, i);
    }
    forall key | key in Keys(b)
      ensures key in Keys(a)
    {
      var i := KeyWitness(b, key);
      KeyIn(a, i);
    }
  }

  predicate KeysDistinct(ls: seq<Parent>)
  {
    forall i, j :: 0 <= i < |ls| && 0 <= j < |ls| && i != j ==> KeyOf(ls[i]) != KeyOf(ls[j])
  }

  /** The stronger uniqueness add_label enforces: no name and no id occurs twice. */
  predicate NamesAndIdsDistinct(ls: seq<Parent>)
  {
    forall i, j :: 0 <= i < |ls| && 0 <= j < |ls| && i != j ==> ls[i].name != ls[j].name && ls[i].id != ls[j].id
  }

  predicate NameOrIdTaken(ls: seq<Parent>, name: string, id: int)
  {
    exists i :: 0 <= i < |ls| && (ls[i].name == name || ls[i].id == id)
  }

  /** Python truthiness of an image key: None and "" are both false. */
  predicate Truthy(o: Option<string>)
  {
    o.Some? && o.value != ""
  }

  // ---------------------------------------------------------------------
  // Selection
  // ---------------------------------------------------------------------

  /** The index of the first selected parent, as every selection scan finds it. */
  function FirstSelected(ls: seq<Parent>): (r: Option<nat>)
    ensures r.Some? ==> r.value < |ls| && ls[r.value].selected &&
                        forall j :: 0 <= j < r.value ==> !ls[j].selected
    ensures r.None? ==> forall j :: 0 <= j < |ls| ==> !ls[j].selected
  {
    if |ls| == 0 then None
    else if ls[0].selected then Some(0)
    else
      match FirstSelected(ls[1..])
      case None => None
      case Some(k) => Some(k + 1)
  }

  /** get_selected. */
  function SelectedParent(ls: seq<Parent>): (r: Option<Parent>)
    ensures r.Some? <==> exists i :: 0 <= i < |ls| && ls[i].selected
    ensures r.Some? ==> r.value.selected && r.value in ls
  {
    match FirstSelected(ls)
    case None => None
    case Some(k) => Some(ls[k])
  }

  /** Every parent's `selected` becomes `i == k`; k outside the list deselects all. */
  function SelectOnly(ls: seq<Parent>, k: int): seq<Parent>
  {
    seq(|ls|, i requires 0 <= i < |ls| => ls[i].(selected := i == k))
  }

  /** After SelectOnly(ls, k) exactly parent k is selected, and nothing else about the list changed. */
  lemma SelectOnlyExactlyOne(ls: seq<Parent>, k: int)
    requires 0 <= k < |ls|
    ensures FirstSelected(SelectOnly(ls, k)) == Some(k)
    ensures forall i :: 0 <= i < |ls| ==> (SelectOnly(ls, k)[i].selected <==> i == k)
  {
    var r := SelectOnly(ls, k);
    assert forall i :: 0 <= i < |r| ==> (r[i].selected <==> i == k);
    assert r[k].selected;
    var f := FirstSelected(r);
    assert f.Some?;
    assert r[f.value].selected;
  }

  lemma SelectOnlyKeepsKeys(ls: seq<Parent>, k: int)
    ensures Keys(SelectOnly(ls, k)) == Keys(ls)
    ensures KeysDistinct(ls) ==> KeysDistinct(SelectOnly(ls, k))
    ensures NamesAndIdsDistinct(ls) ==> NamesAndIdsDistinct(SelectOnly(ls, k))
  {
    var r := SelectOnly(ls, k);
    assert forall i :: 0 <= i < |ls| ==> KeyOf(r[i]) == KeyOf(ls[i]);
    KeysSame(ls, r);
  }

  /** select_next's target: 0 when nothing is selected, else the successor modulo the length. */
  function NextIndex(ls: seq<Parent>): (k: nat)
    requires |ls| > 0
    ensures k < |ls|
  {
    match FirstSelected(ls)
    case None => 0
    case Some(c) => (c + 1) % |ls|
  }

  /** select_previous's target: the last parent when nothing is selected, else the predecessor. */
  function PreviousIndex(ls: seq<Parent>): (k: nat)
    requires |ls| > 0
    ensures k < |ls|
  {
    match FirstSelected(ls)
    case None => |ls| - 1
    case Some(c) => (c - 1 + |ls|) % |ls|
  }

  /** The cycle: the successor of the last parent is the first one, and vice versa. */
  lemma NextAndPreviousWrap(ls: seq<Parent>, k: int)
    requires 0 <= k < |ls|
    ensures NextIndex(SelectOnly(ls, k)) == if k == |ls| - 1 then 0 else k + 1
    ensures PreviousIndex(SelectOnly(ls, k)) == if k == 0 then |ls| - 1 else k - 1
  {
    SelectOnlyExactlyOne(ls, k);
    var n := |ls|;
    assert FirstSelected(SelectOnly(ls, k)) == Some(k);
    ModWrap(k + 1, n);
    ModBelow(k - 1 + n, n);
  }

  lemma ModBelow(a: int, n: int)
    requires 0 < n && 0 <= a < 2 * n
    ensures a % n == if a < n then a else a - n
  {}

  /** select_previous undoes select_next, and select_next undoes select_previous. */
  lemma {:induction false} PreviousUndoesNext(ls: seq<Parent>, k: int)
    requires 0 <= k < |ls|
    ensures var s := SelectOnly(ls, k);
      PreviousIndex(SelectOnly(s, NextIndex(s))) == k &&
      NextIndex(SelectOnly(s, PreviousIndex(s))) == k
  {
    var s := SelectOnly(ls, k);
    NextAndPreviousWrap(ls, k);
    NextAndPreviousWrap(s, NextIndex(s));
    NextAndPreviousWrap(s, PreviousIndex(s));
    assert forall i :: 0 <= i < |s| ==> SelectOnly(s, i) == SelectOnly(ls, i);
  }

  // ---------------------------------------------------------------------
  // add_label
  // ---------------------------------------------------------------------

  /** The parent add_label creates: its only child is the hidden placeholder. */
  function NewLabel(name: string, id: int): (p: Parent)
    ensures KeyOf(p) == (name, id) && !p.selected && p.children == []
    ensures p.childrenByImage.Keys == {PlaceholderKey}
    ensures |p.childrenByImage[PlaceholderKey]| == 1 && p.childrenByImage[PlaceholderKey][0].isPlaceholder
  {
    var p := NewParent(name, id);
    p.(childrenByImage := map[PlaceholderKey := [Placeholder(p)]])
  }

  /**
   * add_label on a consistent list: one parent more, its pair added, it is the
   * only selected one, and uniqueness of pairs (and of names and ids) holds on.
   */
  lemma {:induction false} AddLabelResult(ls: seq<Parent>, name: string, id: int)
    requires KeysDistinct(ls) && !NameOrIdTaken(ls, name, id)
    ensures var r := SelectOnly(ls + [NewLabel(name, id)], |ls|);
      |r| == |ls| + 1 && KeyOf(r[|ls|]) == (name, id) &&
      Keys(r) == Keys(ls) + {(name, id)} && KeysDistinct(r) &&
      (NamesAndIdsDistinct(ls) ==> NamesAndIdsDistinct(r)) &&
      FirstSelected(r) == Some(|ls|) &&
      forall i :: 0 <= i < |ls| ==> r[i] == ls[i].(selected := false)
  {
    var a := ls + [NewLabel(name, id)];
    SelectOnlyExactlyOne(a, |ls|);
    SelectOnlyKeepsKeys(a, |ls|);
    assert forall i :: 0 <= i < |ls| ==> a[i] == ls[i];
    KeysAppend(ls, NewLabel(name, id));
  }

  // ---------------------------------------------------------------------
  // set_labels
  // ---------------------------------------------------------------------

  /** One entry of set_labels' argument: name, id and (possibly empty) children. */
  datatype Entry = Entry(name: string, id: int, children: seq<Child>)

  /** `old_map`: each pair's per-image children; a later parent with the same pair wins. */
  function OldMap(ls: seq<Parent>): (m: map<Key, map<string, seq<Child>>>)
    ensures m.Keys == Keys(ls)
  {
    if |ls| == 0 then map[]
    else OldMap(ls[..|ls| - 1])[KeyOf(ls[|ls| - 1]) := ls[|ls| - 1].childrenByImage]
  }

  /** The parent built for one entry, with its per-image children restored. */
  function Restore(e: Entry, om: map<Key, map<string, seq<Child>>>): Parent
  {
    Parent(e.name, e.id, false, e.children, if (e.name, e.id) in om then om[(e.name, e.id)] else map[])
  }

  /** The list set_labels builds: entries in order, a repeated pair skipped. */
  function SetLabelsResult(es: seq<Entry>, om: map<Key, map<string, seq<Child>>>): seq<Parent>
  {
    if |es| == 0 then []
    else
      var prev := SetLabelsResult(es[..|es| - 1], om);
      var e := es[|es| - 1];
      if (e.name, e.id) in Keys(prev) then prev else prev + [Restore(e, om)]
  }

  function EntryKeys(es: seq<Entry>): (r: set<Key>)
    ensures forall k :: k in r <==> exists i :: 0 <= i < |es| && (es[i].name, es[i].id) == k
  {
    if |es| == 0 then {} else EntryKeys(es[..|es| - 1]) + {(es[|es| - 1].name, es[|es| - 1].id)}
  }

  /** set_labels yields one parent per distinct pair of the entries, no pair twice. */
  lemma {:induction false} SetLabelsKeys(es: seq<Entry>, om: map<Key, map<string, seq<Child>>>)
    ensures KeysDistinct(SetLabelsResult(es, om)) && Keys(SetLabelsResult(es, om)) == EntryKeys(es)
  {
    if |es| > 0 {
      var pre := es[..|es| - 1];
      SetLabelsKeys(pre, om);
      var prev := SetLabelsResult(pre, om);
      var e := es[|es| - 1];
      assert forall j :: 0 <= j < |pre| ==> es[j] == pre[j];
      assert EntryKeys(es) == EntryKeys(pre) + {(e.name, e.id)};
      if (e.name, e.id) !in Keys(prev) {
        var r := prev + [Restore(e, om)];
        forall i | 0 <= i < |prev|
          ensures r[i] == prev[i] && KeyOf(prev[i]) != (e.name, e.id)
        {
          KeyIn(prev, i);
        }
        KeysAppend(prev, Restore(e, om));
      }
    }
  }

  /** Every parent set_labels yields is unselected and built from one of the entries. */
  lemma {:induction false} SetLabelsOrigin(es: seq<Entry>, om: map<Key, map<string, seq<Child>>>)
    ensures forall i :: 0 <= i < |SetLabelsResult(es, om)| ==>
      !SetLabelsResult(es, om)[i].selected &&
      exists j :: 0 <= j < |es| && SetLabelsResult(es, om)[i] == Restore(es[j], om)
  {
    if |es| > 0 {
      var pre := es[..|es| - 1];
      SetLabelsOrigin(pre, om);
      var prev := SetLabelsResult(pre, om);
      var r := SetLabelsResult(es, om);
      forall i | 0 <= i < |r|
        ensures !r[i].selected && exists j :: 0 <= j < |es| && r[i] == Restore(es[j], om)
      {
        if i < |prev| {
          assert r[i] == prev[i];
          var j :| 0 <= j < |pre| && prev[i] == Restore(pre[j], om);
          assert pre[j] == es[j];
        } else {
          assert r[i] == Restore(es[|es| - 1], om);
        }
      }
    }
  }

  /** A parent that keeps its pair across set_labels gets its per-image children back. */
  lemma {:induction false} SetLabelsRestores(ls: seq<Parent>, i: nat, e: Entry)
    requires KeysDistinct(ls) && i < |ls| && (e.name, e.id) == KeyOf(ls[i])
    ensures KeyOf(ls[i]) in OldMap(ls) && Restore(e, OldMap(ls)).childrenByImage == ls[i].childrenByImage
    decreases |ls|
  {
    var last := |ls| - 1;
    var pre := ls[..last];
    assert OldMap(ls) == OldMap(pre)[KeyOf(ls[last]) := ls[last].childrenByImage];
    if i < last {
      assert pre[i] == ls[i];
      assert KeyOf(ls[last]) != KeyOf(ls[i]);
      assert KeysDistinct(pre) by {
        forall a, b | 0 <= a < |pre| && 0 <= b < |pre| && a != b
          ensures KeyOf(pre[a]) != KeyOf(pre[b])
        {
          assert pre[a] == ls[a] && pre[b] == ls[b];
        }
      }
      SetLabelsRestores(pre, i, e);
    }
  }

  // ---------------------------------------------------------------------
  // delete_selected_label
  // ---------------------------------------------------------------------

  function RemoveAt(ls: seq<Parent>, k: nat): (r: seq<Parent>)
    requires k < |ls|
    ensures |r| == |ls| - 1
  {
    ls[..k] + ls[k + 1..]
  }

  /** The removed parent as returned: every image list emptied and `children` cleared. */
  function Cleared(p: Parent): (r: Parent)
    ensures r.childrenByImage.Keys == p.childrenByImage.Keys
    ensures forall key :: key in r.childrenByImage ==> r.childrenByImage[key] == []
    ensures r.children == [] && KeyOf(r) == KeyOf(p) && r.selected == p.selected
  {
    p.(children := [], childrenByImage := map key | key in p.childrenByImage :: [])
  }

  /**
   * Removing parent k from a consistent list removes exactly its pair, and
   * after reselecting the last one a non-empty list has exactly that one selected.
   */
  lemma {:induction false} DeleteLabelResult(ls: seq<Parent>, k: nat)
    requires KeysDistinct(ls) && k < |ls|
    ensures var rest := RemoveAt(ls, k);
      Keys(rest) == Keys(ls) - {KeyOf(ls[k])} && KeysDistinct(rest) &&
      (forall i :: 0 <= i < |rest| ==> rest[i] == (if i < k then ls[i] else ls[i + 1])) &&
      (|rest| > 0 ==> FirstSelected(SelectOnly(rest, |rest| - 1)) == Some(|rest| - 1))
  {
    var rest := RemoveAt(ls, k);
    RemoveAtIndex(ls, k);
    RemoveAtKeys(ls, k);
    if |rest| > 0 {
      SelectOnlyExactlyOne(rest, |rest| - 1);
    }
  }

  lemma RemoveAtIndex(ls: seq<Parent>, k: nat)
    requires k < |ls|
    ensures forall i :: 0 <= i < |RemoveAt(ls, k)| ==> RemoveAt(ls, k)[i] == (if i < k then ls[i] else ls[i + 1])
  {
    var rest := RemoveAt(ls, k);
    forall i | 0 <= i < |rest|
      ensures rest[i] == (if i < k then ls[i] else ls[i + 1])
    {
      if i < k {
        assert rest[i] == ls[..k][i];
      } else {
        assert rest[i] == ls[k + 1..][i - k];
      }
    }
  }

  lemma RemoveAtKeys(ls: seq<Parent>, k: nat)
    requires KeysDistinct(ls) && k < |ls|
    ensures Keys(RemoveAt(ls, k)) == Keys(ls) - {KeyOf(ls[k])} && KeysDistinct(RemoveAt(ls, k))
  {
    RemoveAtDistinct(ls, k);
    RemoveAtLoses(ls, k);
    RemoveAtKeeps(ls, k);
  }

  lemma RemoveAtDistinct(ls: seq<Parent>, k: nat)
    requires KeysDistinct(ls) && k < |ls|
    ensures KeysDistinct(RemoveAt(ls, k))
  {
    var rest := RemoveAt(ls, k);
    forall a, b | 0 <= a < |rest| && 0 <= b < |rest| && a != b
      ensures KeyOf(rest[a]) != KeyOf(rest[b])
    {
      var a', b' := if a < k then a else a + 1, if b < k then b else b + 1;
      assert rest[a] == ls[a'] && rest[b] == ls[b'];
    }
  }

  lemma RemoveAtLoses(ls: seq<Parent>, k: nat)
    requires KeysDistinct(ls) && k < |ls|
    ensures Keys(RemoveAt(ls, k)) <= Keys(ls) - {KeyOf(ls[k])}
  {
    var rest := RemoveAt(ls, k);
    forall key | key in Keys(rest)
      ensures key in Keys(ls) && key != KeyOf(ls[k])
    {
      var i := KeyWitness(rest, key);
      var j := if i < k then i else i + 1;
      assert rest[i] == ls[j] && j != k;
      KeyIn(ls, j);
    }
  }

  lemma RemoveAtKeeps(ls: seq<Parent>, k: nat)
    requires k < |ls|
    ensures Keys(ls) - {KeyOf(ls[k])} <= Keys(RemoveAt(ls, k))
  {
    var rest := RemoveAt(ls, k);
    forall key | key in Keys(ls) && key != KeyOf(ls[k])
      ensures key in Keys(rest)
    {
      var i := KeyWitness(ls, key);
      var j := if i < k then i else i - 1;
      assert rest[j] == ls[i];
      KeyIn(rest, j);
    }
  }

  // ---------------------------------------------------------------------
  // Children per image
  // ---------------------------------------------------------------------

  /** `children_by_image.get(key, [])`. */
  function ImageChildren(p: Parent, key: string): seq<Child>
  {
    if key in p.childrenByImage then p.childrenByImage[key] else []
  }

  /** Every visible child of a parent carries the parent's class name and id. */
  ghost predicate CarriesClass(p: Parent)
  {
    forall key, i :: (key in p.childrenByImage && 0 <= i < |p.childrenByImage[key]| &&
      !p.childrenByImage[key][i].isPlaceholder) ==>
        p.childrenByImage[key][i].className == p.name && p.childrenByImage[key][i].classId == p.id
  }

  /** The keyword arguments of create_child_label that decide the new child. */
  datatype ChildRequest = ChildRequest(
    xCenter: Option<real>,
    yCenter: Option<real>,
    width: Option<real>,
    height: Option<real>,
    mode: Mode,
    shape: Shape,
    polygonPoints: seq<Pt>,
    rotationAngle: real,
    points: Option<seq<real>>,
    hasMask: bool)

  /** The four corners of a box given by centre and size, clockwise from top-left. */
  function CentreCorners(xc: real, yc: real, w: real, h: real): seq<real>
  {
    RectCorners(xc - w / 2.0, yc - h / 2.0, xc + w / 2.0, yc + h / 2.0)
  }

  /** The child create_child_label builds for a parent. */
  function BuildChild(parent: Parent, q: ChildRequest): (c: Child)
    ensures c.className == parent.name && c.classId == parent.id && !c.isPlaceholder && c.mode == q.mode
    ensures q.points.Some? ==> c.points == q.points.value && c.shape == q.shape
    ensures q.points.None? && q.shape == Point && q.xCenter.Some? && q.yCenter.Some? ==>
      c.points == [q.xCenter.value, q.yCenter.value] && c.polygonPoints == [] && !c.hasMask
  {
    if q.points.Some? then
      NewChild(parent, q.points.value, q.mode, false, q.shape, q.polygonPoints, q.rotationAngle, q.hasMask)
    else if q.shape == Rectangle && q.xCenter.Some? && q.yCenter.Some? && q.width.Some? && q.height.Some? then
      NewChild(parent, CentreCorners(q.xCenter.value, q.yCenter.value, q.width.value, q.height.value),
               q.mode, false, q.shape, q.polygonPoints, q.rotationAngle, q.hasMask)
    else if q.shape == Point && q.xCenter.Some? && q.yCenter.Some? then
      NewChild(parent, [q.xCenter.value, q.yCenter.value], q.mode, false, Point, [], q.rotationAngle, false)
    else
      NewChild(parent, [], q.mode, false, q.shape, q.polygonPoints, q.rotationAngle, q.hasMask)
  }

  /**
   * The centre/size form turns into the four corners and back: the new
   * rectangle's centre is the requested one and its size is |width| by |height|.
   */
  lemma {:induction false} CentreFormRoundTrip(parent: Parent, q: ChildRequest)
    requires q.points.None? && q.shape == Rectangle
    requires q.xCenter.Some? && q.yCenter.Some? && q.width.Some? && q.height.Some?
    ensures var xc, yc, w, h := q.xCenter.value, q.yCenter.value, q.width.value, q.height.value;
      BuildChild(parent, q).points ==
        [xc - w / 2.0, yc - h / 2.0, xc + w / 2.0, yc - h / 2.0, xc + w / 2.0, yc + h / 2.0, xc - w / 2.0, yc + h / 2.0] &&
      BoxOf(BuildChild(parent, q)) == Some(Box(xc, yc, AbsR(w), AbsR(h)))
  {
    var xc, yc, w, h := q.xCenter.value, q.yCenter.value, q.width.value, q.height.value;
    RectangleFromCorners(parent, xc - w / 2.0, yc - h / 2.0, xc + w / 2.0, yc + h / 2.0,
                         q.mode, q.polygonPoints, q.rotationAngle, q.hasMask);
    assert (xc + w / 2.0) - (xc - w / 2.0) == w;
    assert (yc + h / 2.0) - (yc - h / 2.0) == h;
  }

  /** Appending a child to the list under `key`, creating the list when it is missing. */
  function AppendChild(p: Parent, key: string, c: Child): (r: Parent)
    ensures r.childrenByImage.Keys == p.childrenByImage.Keys + {key}
    ensures r.childrenByImage[key] == ImageChildren(p, key) + [c]
    ensures forall k :: k in p.childrenByImage && k != key ==> r.childrenByImage[k] == p.childrenByImage[k]
    ensures KeyOf(r) == KeyOf(p) && r.selected == p.selected && r.children == p.children
  {
    p.(childrenByImage := p.childrenByImage[key := ImageChildren(p, key) + [c]])
  }

  /** Children made by create_child_label keep the parent's class on every visible child. */
  lemma {:induction false} CreateChildKeepsClass(p: Parent, key: string, q: ChildRequest)
    requires CarriesClass(p)
    ensures CarriesClass(AppendChild(p, key, BuildChild(p, q)))
  {
    var c := BuildChild(p, q);
    var r := AppendChild(p, key, c);
    forall k, i | k in r.childrenByImage && 0 <= i < |r.childrenByImage[k]| && !r.childrenByImage[k][i].isPlaceholder
      ensures r.childrenByImage[k][i].className == r.name && r.childrenByImage[k][i].classId == r.id
    {
      if k == key {
        if i < |ImageChildren(p, key)| {
          assert r.childrenByImage[k][i] == p.childrenByImage[k][i];
        } else {
          assert r.childrenByImage[k][i] == c;
        }
      }
    }
  }

  /** The first position of c in s, as `list.remove` finds it. */
  function IndexOf(s: seq<Child>, c: Child): (i: nat)
    requires c in s
    ensures i < |s| && s[i] == c && c !in s[..i]
  {
    if s[0] == c then 0
    else
      assert s == [s[0]] + s[1..];
      var k := IndexOf(s[1..], c);
      assert s[..k + 1] == [s[0]] + s[1..][..k];
      k + 1
  }

  /** `list.remove(c)`: drop the first occurrence. */
  function RemoveFirst(s: seq<Child>, c: Child): seq<Child>
    requires c in s
  {
    var i := IndexOf(s, c);
    s[..i] + s[i + 1..]
  }

  /** Removing a child takes away exactly one copy of it and keeps the order of the rest. */
  lemma RemoveFirstOneCopy(s: seq<Child>, c: Child)
    requires c in s
    ensures |RemoveFirst(s, c)| == |s| - 1
    ensures multiset(RemoveFirst(s, c)) == multiset(s) - multiset{c}
    ensures var i := IndexOf(s, c); RemoveFirst(s, c) == s[..i] + s[i + 1..]
  {
    var i := IndexOf(s, c);
    var a, b := s[..i], s[i + 1..];
    assert s == a + [c] + b;
    assert multiset(s) == multiset(a) + multiset{c} + multiset(b);
    assert multiset(a + b) == multiset(a) + multiset(b);
  }

  /** A parent holds c under key. */
  predicate Holds(p: Parent, key: string, c: Child)
  {
    key in p.childrenByImage && c in p.childrenByImage[key]
  }

  /** The first parent holding c under key, as delete_child_label searches. */
  function Owner(ls: seq<Parent>, key: string, c: Child): (r: Option<nat>)
    ensures r.Some? ==> r.value < |ls| && Holds(ls[r.value], key, c) &&
                        forall j :: 0 <= j < r.value ==> !Holds(ls[j], key, c)
    ensures r.None? ==> forall j :: 0 <= j < |ls| ==> !Holds(ls[j], key, c)
  {
    if |ls| == 0 then None
    else if Holds(ls[0], key, c) then Some(0)
    else
      match Owner(ls[1..], key, c)
      case None => None
      case Some(k) => Some(k + 1)
  }

  function RemoveChild(p: Parent, key: string, c: Child): (r: Parent)
    requires Holds(p, key, c)
    ensures r.childrenByImage.Keys == p.childrenByImage.Keys
    ensures forall k :: k in p.childrenByImage && k != key ==> r.childrenByImage[k] == p.childrenByImage[k]
    ensures KeyOf(r) == KeyOf(p) && r.selected == p.selected && r.children == p.children
  {
    p.(childrenByImage := p.childrenByImage[key := RemoveFirst(p.childrenByImage[key], c)])
  }

  /** Deleting a child keeps every visible child carrying its parent's class. */
  lemma {:induction false} RemoveChildKeepsClass(p: Parent, key: string, c: Child)
    requires Holds(p, key, c) && CarriesClass(p)
    ensures CarriesClass(RemoveChild(p, key, c))
  {
    var s := p.childrenByImage[key];
    var i := IndexOf(s, c);
    var t := RemoveFirst(s, c);
    assert forall j :: 0 <= j < |t| ==> t[j] == (if j < i then s[j] else s[j + 1]);
  }

  // ---------------------------------------------------------------------
  // update_label
  // ---------------------------------------------------------------------

  function RenameChild(c: Child, name: string, id: int): Child
  {
    if c.isPlaceholder then c else c.(className := name, classId := id)
  }

  function RenameAll(cs: seq<Child>, name: string, id: int): seq<Child>
  {
    seq(|cs|, i requires 0 <= i < |cs| => RenameChild(cs[i], name, id))
  }

  /** update_label's effect on one parent: new pair, visible children renamed. */
  function Renamed(p: Parent, name: string, id: int): Parent
  {
    p.(name := name, id := id,
       childrenByImage := map key | key in p.childrenByImage :: RenameAll(p.childrenByImage[key], name, id))
  }

  /**
   * Renaming rewrites the class of every visible child under every image,
   * leaves placeholders and all other fields alone and keeps every list's length.
   */
  lemma RenamedChildren(p: Parent, name: string, id: int, key: string, i: int)
    requires key in p.childrenByImage && 0 <= i < |p.childrenByImage[key]|
    ensures var r := Renamed(p, name, id); var c := p.childrenByImage[key][i];
      r.childrenByImage.Keys == p.childrenByImage.Keys &&
      |r.childrenByImage[key]| == |p.childrenByImage[key]| &&
      (c.isPlaceholder ==> r.childrenByImage[key][i] == c) &&
      (!c.isPlaceholder ==> r.childrenByImage[key][i] == c.(className := name, classId := id)) &&
      r.selected == p.selected && r.children == p.children
  {}

  /** After renaming, every visible child carries the new class. */
  lemma {:induction false} RenamedCarriesClass(p: Parent, name: string, id: int)
    ensures CarriesClass(Renamed(p, name, id))
  {
    var r := Renamed(p, name, id);
    forall key, i | key in r.childrenByImage && 0 <= i < |r.childrenByImage[key]| && !r.childrenByImage[key][i].isPlaceholder
      ensures r.childrenByImage[key][i].className == name && r.childrenByImage[key][i].classId == id
    {
      RenamedChildren(p, name, id, key, i);
    }
  }

  /** Renaming back to the old pair restores a parent whose visible children carry its class. */
  lemma {:induction false} RenameRoundTrip(p: Parent, name: string, id: int)
    requires CarriesClass(p)
    ensures Renamed(Renamed(p, name, id), p.name, p.id) == p
  {
    var r := Renamed(Renamed(p, name, id), p.name, p.id);
    assert r.childrenByImage.Keys == p.childrenByImage.Keys;
    forall key | key in p.childrenByImage
      ensures r.childrenByImage[key] == p.childrenByImage[key]
    {
      var s := p.childrenByImage[key];
      assert |r.childrenByImage[key]| == |s|;
      forall i | 0 <= i < |s|
        ensures r.childrenByImage[key][i] == s[i]
      {
        RenamedChildren(p, name, id, key, i);
        RenamedChildren(Renamed(p, name, id), p.name, p.id, key, i);
      }
    }
    assert r.childrenByImage == p.childrenByImage;
  }

  /**
   * update_label keeps the pairs consistent with the set `discard(old); add(new)`
   * computes, and keeps them distinct unless the new pair is another row's.
   */
  lemma {:induction false} UpdateLabelKeys(ls: seq<Parent>, row: nat, name: string, id: int)
    requires KeysDistinct(ls) && row < |ls|
    ensures var r := ls[row := Renamed(ls[row], name, id)];
      Keys(r) == Keys(ls) - {KeyOf(ls[row])} + {(name, id)} &&
      ((name, id) !in Keys(ls) - {KeyOf(ls[row])} ==> KeysDistinct(r))
  {
    var r := ls[row := Renamed(ls[row], name, id)];
    assert KeyOf(r[row]) == (name, id);
    assert forall i :: 0 <= i < |ls| && i != row ==> r[i] == ls[i];
    forall k | k in Keys(ls) - {KeyOf(ls[row])}
      ensures k in Keys(r)
    {
      var i := KeyWitness(ls, k);
      assert r[i] == ls[i];
      KeyIn(r, i);
    }
    forall k | k in Keys(r) && k != (name, id)
      ensures k in Keys(ls) - {KeyOf(ls[row])}
    {
      var i := KeyWitness(r, k);
      assert r[i] == ls[i];
      KeyIn(ls, i);
    }
    KeyIn(r, row);
    forall i | 0 <= i < |ls| && i != row
      ensures KeyOf(ls[i]) in Keys(ls) - {KeyOf(ls[row])}
    {
      KeyIn(ls, i);
    }
  }

  // ---------------------------------------------------------------------
  // get_child_labels_at_point
  // ---------------------------------------------------------------------

  /** The visible children of one list that contain the point, in order. */
  function HitsIn(cs: seq<Child>, x: real, y: real, other: (Child, real, real) -> bool): seq<Child>
  {
    if |cs| == 0 then []
    else
      var c := cs[|cs| - 1];
      HitsIn(cs[..|cs| - 1], x, y, other) + (if !c.isPlaceholder && IsPointInside(c, x, y, other) then [c] else [])
  }

  /** The collected hits over the parents in order. */
  function Hits(ls: seq<Parent>, key: string, x: real, y: real, other: (Child, real, real) -> bool): seq<Child>
  {
    if |ls| == 0 then []
    else Hits(ls[..|ls| - 1], key, x, y, other) + HitsIn(ImageChildren(ls[|ls| - 1], key), x, y, other)
  }

  lemma {:induction false} HitsInMembership(cs: seq<Child>, x: real, y: real, other: (Child, real, real) -> bool, c: Child)
    ensures c in HitsIn(cs, x, y, other) <==> c in cs && !c.isPlaceholder && IsPointInside(c, x, y, other)
  {
    if |cs| > 0 {
      HitsInMembership(cs[..|cs| - 1], x, y, other, c);
      assert cs == cs[..|cs| - 1] + [cs[|cs| - 1]];
    }
  }

  /**
   * A child is collected exactly when some parent holds it under the image,
   * it is not a placeholder and it contains the point.
   */
  lemma {:induction false} HitsMembership(ls: seq<Parent>, key: string, x: real, y: real,
                                          other: (Child, real, real) -> bool, c: Child)
    ensures c in Hits(ls, key, x, y, other) <==>
      (exists i :: 0 <= i < |ls| && c in ImageChildren(ls[i], key)) && !c.isPlaceholder && IsPointInside(c, x, y, other)
  {
    if |ls| > 0 {
      var pre := ls[..|ls| - 1];
      HitsMembership(pre, key, x, y, other, c);
      HitsInMembership(ImageChildren(ls[|ls| - 1], key), x, y, other, c);
      assert forall i :: 0 <= i < |pre| ==> pre[i] == ls[i];
      if c in ImageChildren(ls[|ls| - 1], key) {
        assert exists i :: 0 <= i < |ls| && c in ImageChildren(ls[i], key);
      }
      if exists i :: 0 <= i < |ls| && c in ImageChildren(ls[i], key) {
        var i :| 0 <= i < |ls| && c in ImageChildren(ls[i], key);
        if i < |pre| {
          assert c in ImageChildren(pre[i], key);
        }
      }
    }
  }

  /** `a.get_area() <= b.get_area()`. */
  predicate AreaBefore(a: Child, b: Child)
  {
    AreaLe(AreaOf(a), AreaOf(b))
  }

  lemma AreaBeforeTransitive(a: Child, b: Child, c: Child)
    requires AreaBefore(a, b) && AreaBefore(b, c)
    ensures AreaBefore(a, c)
  {}

  lemma AreaBeforeTotal(a: Child, b: Child)
    requires !AreaBefore(a, b)
    ensures AreaBefore(b, a)
  {}

  /** Ascending area order, as `sorted(..., key=get_area)` leaves it. */
  predicate SortedByArea(s: seq<Child>)
  {
    forall i, j :: 0 <= i < j < |s| ==> AreaBefore(s[i], s[j])
  }

  /** Put c before the first element whose area is not smaller, so equal areas keep their order. */
  function InsertByArea(c: Child, s: seq<Child>): (r: seq<Child>)
    ensures multiset(r) == multiset(s) + multiset{c}
  {
    if |s| == 0 then [c]
    else if AreaBefore(c, s[0]) then [c] + s
    else
      assert s == [s[0]] + s[1..];
      [s[0]] + InsertByArea(c, s[1..])
  }

  /** A sorted list stays sorted with an element in front that is not larger than any of it. */
  lemma SortedCons(x: Child, t: seq<Child>)
    requires SortedByArea(t) && forall j :: 0 <= j < |t| ==> AreaBefore(x, t[j])
    ensures SortedByArea([x] + t)
  {
    var r := [x] + t;
    forall i, j | 0 <= i < j < |r|
      ensures AreaBefore(r[i], r[j])
    {
      assert r[j] == t[j - 1];
      if i > 0 {
        assert r[i] == t[i - 1];
      }
    }
  }

  lemma SortedTail(s: seq<Child>)
    requires SortedByArea(s) && |s| > 0
    ensures SortedByArea(s[1..])
  {
    var tail := s[1..];
    forall i, j | 0 <= i < j < |tail|
      ensures AreaBefore(tail[i], tail[j])
    {
      assert tail[i] == s[i + 1] && tail[j] == s[j + 1];
    }
  }

  lemma {:induction false} InsertSorted(c: Child, s: seq<Child>)
    requires SortedByArea(s)
    ensures SortedByArea(InsertByArea(c, s))
  {
    if |s| == 0 {
    } else if AreaBefore(c, s[0]) {
      forall j | 0 <= j < |s|
        ensures AreaBefore(c, s[j])
      {
        if j > 0 {
          AreaBeforeTransitive(c, s[0], s[j]);
        }
      }
      SortedCons(c, s);
    } else {
      var tail := s[1..];
      SortedTail(s);
      InsertSorted(c, tail);
      var t := InsertByArea(c, tail);
      forall j | 0 <= j < |t|
        ensures AreaBefore(s[0], t[j])
      {
        assert t[j] in multiset(t);
        if t[j] == c {
          AreaBeforeTotal(c, s[0]);
        } else {
          assert t[j] in multiset(tail);
          var m :| 0 <= m < |tail| && tail[m] == t[j];
          assert s[m + 1] == t[j];
        }
      }
      SortedCons(s[0], t);
    }
  }

  /** A stable insertion sort by area, standing for Python's `sorted`. */
  function SortByArea(s: seq<Child>): (r: seq<Child>)
    ensures multiset(r) == multiset(s)
  {
    if |s| == 0 then []
    else
      assert s == [s[0]] + s[1..];
      InsertByArea(s[0], SortByArea(s[1..]))
  }

  /** The sort's output is in ascending area order and a permutation of its input. */
  lemma {:induction false} SortByAreaSorted(s: seq<Child>)
    ensures SortedByArea(SortByArea(s)) && multiset(SortByArea(s)) == multiset(s)
  {
    if |s| > 0 {
      SortByAreaSorted(s[1..]);
      InsertSorted(s[0], SortByArea(s[1..]));
    }
  }

  /**
   * The sort is stable at its head: the first element of the sorted list is
   * the first element of the input that no earlier element ties or beats.
   */
  lemma {:induction false} SortByAreaHead(s: seq<Child>)
    requires |s| > 0
    ensures exists i :: 0 <= i < |s| && s[i] == SortByArea(s)[0] && forall j :: 0 <= j < i ==> !AreaBefore(s[j], s[i])
  {
    if |s| == 1 {
      assert s[0] == SortByArea(s)[0];
    } else {
      var t := SortByArea(s[1..]);
      SortByAreaHead(s[1..]);
      var k :| 0 <= k < |s[1..]| && s[1..][k] == t[0] && forall j :: 0 <= j < k ==> !AreaBefore(s[1..][j], s[1..][k]);
      if AreaBefore(s[0], t[0]) {
        assert SortByArea(s)[0] == s[0];
      } else {
        assert SortByArea(s)[0] == t[0] == s[k + 1];
        forall j | 0 <= j < k + 1
          ensures !AreaBefore(s[j], s[k + 1])
        {
          if j > 0 {
            assert s[j] == s[1..][j - 1];
          }
        }
      }
    }
  }

  /**
   * get_smallest_child_label_at_point's choice: the head of the sorted hits,
   * which `sorted` being stable makes the first hit of least area.
   */
  function Smallest(hits: seq<Child>): (r: Option<Child>)
    ensures r.None? <==> |hits| == 0
    ensures r.Some? ==> r.value in hits && forall c :: c in hits ==> AreaBefore(r.value, c)
    ensures r.Some? ==> exists i :: 0 <= i < |hits| && hits[i] == r.value && forall j :: 0 <= j < i ==> !AreaBefore(hits[j], hits[i])
  {
    var s := SortByArea(hits);
    if |s| == 0 then None
    else
      SortByAreaSorted(hits);
      SortByAreaHead(hits);
      assert s[0] in multiset(hits);
      assert forall c :: c in hits ==> c in multiset(s);
      assert forall m :: 0 < m < |s| ==> AreaBefore(s[0], s[m]);
      Some(s[0])
  }

  // ---------------------------------------------------------------------
  // The list itself
  // ---------------------------------------------------------------------

  /** Replacing a parent by one with the same selection flag keeps the first selected index. */
  lemma {:induction false} FirstSelectedUpdate(ls: seq<Parent>, k: nat, p: Parent)
    requires k < |ls| && p.selected == ls[k].selected
    ensures FirstSelected(ls[k := p]) == FirstSelected(ls)
    decreases |ls|
  {
    if k > 0 {
      assert ls[k := p][1..] == ls[1..][k - 1 := p];
      FirstSelectedUpdate(ls[1..], k - 1, p);
    }
  }

  /** `create_child_label` for the first selected parent; nothing without one. */
  function CreateFor(ls: seq<Parent>, imageInfo: string, q: ChildRequest): (r: (seq<Parent>, Option<Child>))
    ensures |r.0| == |ls|
    ensures r.1.None? <==> FirstSelected(ls).None?
    ensures r.1.None? ==> r.0 == ls
    ensures r.1.Some? ==> var k := FirstSelected(ls).value;
      r.1.value == BuildChild(ls[k], q) && r.0 == ls[k := AppendChild(ls[k], imageInfo, r.1.value)]
  {
    match FirstSelected(ls)
    case None => (ls, None)
    case Some(k) =>
      var c := BuildChild(ls[k], q);
      (ls[k := AppendChild(ls[k], imageInfo, c)], Some(c))
  }

  class ParentLabelList {
    var labels: seq<Parent>
    var nameIdSet: set<Key>
    var currentImageInfo: Option<string>

    /** `name_id_set` holds exactly the parents' pairs and no pair occurs twice. */
    ghost predicate Valid()
      reads this
    {
      nameIdSet == Keys(labels) && KeysDistinct(labels)
    }

    constructor ()
      ensures labels == [] && nameIdSet == {} && currentImageInfo == None
      ensures Valid()
    {
      labels := [];
      nameIdSet := {};
      currentImageInfo := None;
    }

    method SetCurrentImageInfo(imageInfo: Option<string>)
      modifies this
      ensures currentImageInfo == imageInfo
      ensures labels == old(labels) && nameIdSet == old(nameIdSet)
    {
      currentImageInfo := imageInfo;
    }

    /** The scan `for idx, label in enumerate(labels): if label.selected: ... break`. */
    method SelectedIndex() returns (k: Option<nat>)
      ensures k == FirstSelected(labels)
    {
      var i := 0;
      while i < |labels|
        invariant 0 <= i <= |labels|
        invariant forall j :: 0 <= j < i ==> !labels[j].selected
      {
        if labels[i].selected {
          return Some(i);
        }
        i := i + 1;
      }
      return None;
    }

    /** get_selected. */
    method GetSelected() returns (r: Option<Parent>)
      ensures r == SelectedParent(labels)
    {
      var k := SelectedIndex();
      if k.None? {
        return None;
      }
      return Some(labels[k.value]);
    }

    /** The loop `for i, label in enumerate(labels): label.selected = (i == k)`. */
    method SetSelection(k: int)
      modifies this
      ensures labels == SelectOnly(old(labels), k)
      ensures nameIdSet == old(nameIdSet) && currentImageInfo == old(currentImageInfo)
    {
      var i := 0;
      while i < |labels|
        invariant 0 <= i <= |labels| && |labels| == |old(labels)|
        invariant forall j :: 0 <= j < i ==> labels[j] == old(labels)[j].(selected := j == k)
        invariant forall j :: i <= j < |labels| ==> labels[j] == old(labels)[j]
        invariant nameIdSet == old(nameIdSet) && currentImageInfo == old(currentImageInfo)
      {
        labels := labels[i := labels[i].(selected := i == k)];
        i := i + 1;
      }
    }

    /** add_label. */
    method AddLabel(name: string, id: int) returns (ok: bool)
      modifies this
      ensures ok <==> (name, id) !in old(nameIdSet) && !NameOrIdTaken(old(labels), name, id)
      ensures !ok ==> labels == old(labels) && nameIdSet == old(nameIdSet)
      ensures ok ==> labels == SelectOnly(old(labels) + [NewLabel(name, id)], |old(labels)|)
      ensures ok ==> nameIdSet == old(nameIdSet) + {(name, id)}
      ensures currentImageInfo == old(currentImageInfo)
      ensures old(Valid()) ==> Valid()
    {
      if (name, id) in nameIdSet {
        return false;
      }
      var i := 0;
      while i < |labels|
        invariant 0 <= i <= |labels|
        invariant forall j :: 0 <= j < i ==> labels[j].name != name && labels[j].id != id
      {
        if labels[i].name == name || labels[i].id == id {
          return false;
        }
        i := i + 1;
      }
      ghost var before := labels;
      labels := labels + [NewLabel(name, id)];
      nameIdSet := nameIdSet + {(name, id)};
      SetSelection(|labels| - 1);
      if old(Valid()) {
        assert Valid() by {
          AddLabelResult(before, name, id);
        }
      }
      return true;
    }

    /** set_labels: rebuild the list from entries, keeping per-image children by pair. */
    method SetLabels(entries: seq<Entry>)
      modifies this
      ensures labels == SetLabelsResult(entries, OldMap(old(labels)))
      ensures nameIdSet == Keys(labels) && currentImageInfo == old(currentImageInfo)
      ensures Valid()
    {
      var om := OldMap(labels);
      labels := [];
      nameIdSet := {};
      var i := 0;
      while i < |entries|
        invariant 0 <= i <= |entries|
        invariant labels == SetLabelsResult(entries[..i], om)
        invariant nameIdSet == Keys(labels) && currentImageInfo == old(currentImageInfo)
      {
        var e := entries[i];
        assert entries[..i + 1][..i] == entries[..i];
        if (e.name, e.id) !in nameIdSet {
          var target := Restore(e, om);
          KeysAppend(labels, target);
          labels := labels + [target];
          nameIdSet := nameIdSet + {(e.name, e.id)};
          assert forall j :: 0 <= j < |labels| - 1 ==> labels[..|labels| - 1][j] == labels[j];
          assert labels[..|labels| - 1] == SetLabelsResult(entries[..i], om);
        }
        i := i + 1;
      }
      assert entries[..|entries|] == entries;
      SetLabelsKeys(entries, om);
    }

    /** select_next. */
    method SelectNext() returns (ok: bool)
      modifies this
      ensures ok <==> |old(labels)| > 0
      ensures !ok ==> labels == old(labels)
      ensures ok ==> labels == SelectOnly(old(labels), NextIndex(old(labels)))
      ensures nameIdSet == old(nameIdSet) && currentImageInfo == old(currentImageInfo)
      ensures old(Valid()) ==> Valid()
    {
      if |labels| == 0 {
        return false;
      }
      var current := SelectedIndex();
      var next := if current.None? then 0 else (current.value + 1) % |labels|;
      assert next == NextIndex(labels);
      SetSelection(next);
      if old(Valid()) {
        assert Valid() by {
          SelectOnlyKeepsKeys(old(labels), next);
        }
      }
      return true;
    }

    /** select_previous. */
    method SelectPrevious() returns (ok: bool)
      modifies this
      ensures ok <==> |old(labels)| > 0
      ensures !ok ==> labels == old(labels)
      ensures ok ==> labels == SelectOnly(old(labels), PreviousIndex(old(labels)))
      ensures nameIdSet == old(nameIdSet) && currentImageInfo == old(currentImageInfo)
      ensures old(Valid()) ==> Valid()
    {
      if |labels| == 0 {
        return false;
      }
      var current := SelectedIndex();
      var prev := if current.None? then |labels| - 1 else (current.value - 1 + |labels|) % |labels|;
      assert prev == PreviousIndex(labels);
      SetSelection(prev);
      if old(Valid()) {
        assert Valid() by {
          SelectOnlyKeepsKeys(old(labels), prev);
        }
      }
      return true;
    }

    /** delete_selected_label. */
    method DeleteSelectedLabel() returns (removed: Option<Parent>)
      modifies this
      ensures FirstSelected(old(labels)).None? ==>
        removed.None? && labels == old(labels) && nameIdSet == old(nameIdSet)
      ensures FirstSelected(old(labels)).Some? ==>
        var k := FirstSelected(old(labels)).value;
        var rest := RemoveAt(old(labels), k);
        removed == Some(Cleared(old(labels)[k])) &&
        labels == SelectOnly(rest, |rest| - 1) &&
        nameIdSet == old(nameIdSet) - {KeyOf(old(labels)[k])}
      ensures currentImageInfo == old(currentImageInfo)
      ensures old(Valid()) ==> Valid()
    {
      var k := SelectedIndex();
      if k.None? {
        return None;
      }
      var idx := k.value;
      var target := labels[idx];
      labels := labels[..idx] + labels[idx + 1..];
      nameIdSet := nameIdSet - {KeyOf(target)};
      var m := ClearImageLists(target.childrenByImage);
      target := target.(childrenByImage := m, children := []);
      ghost var rest := labels;
      assert rest == RemoveAt(old(labels), idx);
      if |labels| > 0 {
        SetSelection(|labels| - 1);
      } else {
        assert labels == SelectOnly(rest, -1);
      }
      assert labels == SelectOnly(rest, |rest| - 1);
      if old(Valid()) {
        assert Valid() by {
          DeleteLabelResult(old(labels), idx);
          SelectOnlyKeepsKeys(rest, |rest| - 1);
        }
      }
      return Some(target);
    }

    /** The loop of delete_selected_label that empties every image list of the removed parent. */
    static method ClearImageLists(m0: map<string, seq<Child>>) returns (m: map<string, seq<Child>>)
      ensures m == map key | key in m0 :: []
    {
      m := m0;
      var todo := m.Keys;
      while todo != {}
        invariant todo <= m.Keys && m.Keys == m0.Keys
        invariant forall key :: key in m && key !in todo ==> m[key] == []
        decreases todo
      {
        var key :| key in todo;
        m := m[key := []];
        todo := todo - {key};
      }
    }

    /** create_child_label. */
    method CreateChildLabel(imageInfo: string, q: ChildRequest) returns (child: Option<Child>)
      modifies this
      ensures FirstSelected(old(labels)).None? ==> child.None? && labels == old(labels)
      ensures FirstSelected(old(labels)).Some? ==>
        var k := FirstSelected(old(labels)).value;
        child == Some(BuildChild(old(labels)[k], q)) &&
        labels == old(labels)[k := AppendChild(old(labels)[k], imageInfo, child.value)]
      ensures (labels, child) == CreateFor(old(labels), imageInfo, q)
      ensures nameIdSet == old(nameIdSet) && currentImageInfo == old(currentImageInfo)
      ensures old(Valid()) ==> Valid()
    {
      var k := SelectedIndex();
      if k.None? {
        return None;
      }
      var parent := labels[k.value];
      var c := BuildChild(parent, q);
      if imageInfo !in parent.childrenByImage {
        parent := parent.(childrenByImage := parent.childrenByImage[imageInfo := []]);
      }
      parent := parent.(childrenByImage := parent.childrenByImage[imageInfo := parent.childrenByImage[imageInfo] + [c]]);
      assert parent == AppendChild(labels[k.value], imageInfo, c);
      labels := labels[k.value := parent];
      if old(Valid()) {
        assert Valid() by {
          assert forall i :: 0 <= i < |labels| ==> KeyOf(labels[i]) == KeyOf(old(labels)[i]);
          KeysSame(old(labels), labels);
        }
      }
      return Some(c);
    }

    /** delete_child_label; a missing image argument means the current image. */
    method DeleteChildLabel(c: Child, imageInfo: Option<string>) returns (ok: bool)
      modifies this
      ensures var key := if imageInfo.None? then old(currentImageInfo) else imageInfo;
        ok <==> Truthy(key) && Owner(old(labels), key.value, c).Some?
      ensures !ok ==> labels == old(labels)
      ensures ok ==>
        var key := (if imageInfo.None? then old(currentImageInfo) else imageInfo).value;
        var k := Owner(old(labels), key, c).value;
        labels == old(labels)[k := RemoveChild(old(labels)[k], key, c)]
      ensures nameIdSet == old(nameIdSet) && currentImageInfo == old(currentImageInfo)
      ensures old(Valid()) ==> Valid()
    {
      var key := if imageInfo.None? then currentImageInfo else imageInfo;
      if !Truthy(key) {
        return false;
      }
      var i := 0;
      while i < |labels|
        invariant 0 <= i <= |labels|
        invariant forall j :: 0 <= j < i ==> !Holds(labels[j], key.value, c)
      {
        if Holds(labels[i], key.value, c) {
          labels := labels[i := RemoveChild(labels[i], key.value, c)];
          if old(Valid()) {
            assert Valid() by {
              assert forall j :: 0 <= j < |labels| ==> KeyOf(labels[j]) == KeyOf(old(labels)[j]);
              KeysSame(old(labels), labels);
            }
          }
          return true;
        }
        i := i + 1;
      }
      return false;
    }

    /** update_label. */
    method UpdateLabel(row: int, newName: string, newId: int) returns (ok: bool)
      modifies this
      ensures ok <==> 0 <= row < |old(labels)|
      ensures !ok || KeyOf(old(labels)[row]) == (newName, newId) ==>
        labels == old(labels) && nameIdSet == old(nameIdSet)
      ensures ok && KeyOf(old(labels)[row]) != (newName, newId) ==>
        labels == old(labels)[row := Renamed(old(labels)[row], newName, newId)] &&
        nameIdSet == old(nameIdSet) - {KeyOf(old(labels)[row])} + {(newName, newId)}
      ensures currentImageInfo == old(currentImageInfo)
      ensures old(Valid()) && 0 <= row < |old(labels)| && (newName, newId) !in old(nameIdSet) - {KeyOf(old(labels)[row])} ==>
        Valid()
    {
      if row < 0 || row >= |labels| {
        return false;
      }
      var target := labels[row];
      if target.name == newName && target.id == newId {
        return true;
      }
      var m := target.childrenByImage;
      var todo := m.Keys;
      while todo != {}
        invariant todo <= m.Keys && m.Keys == target.childrenByImage.Keys
        invariant forall key :: key in m ==>
          m[key] == if key in todo then target.childrenByImage[key] else RenameAll(target.childrenByImage[key], newName, newId)
        invariant labels == old(labels) && target == old(labels)[row]
        invariant nameIdSet == old(nameIdSet) && currentImageInfo == old(currentImageInfo)
        decreases todo
      {
        var key :| key in todo;
        var renamed := RenameChildren(m[key], newName, newId);
        m := m[key := renamed];
        todo := todo - {key};
      }
      assert m == Renamed(target, newName, newId).childrenByImage;
      nameIdSet := nameIdSet - {KeyOf(target)} + {(newName, newId)};
      labels := labels[row := target.(name := newName, id := newId, childrenByImage := m)];
      if old(Valid()) && (newName, newId) !in old(nameIdSet) - {KeyOf(target)} {
        assert Valid() by {
          UpdateLabelKeys(old(labels), row, newName, newId);
        }
      }
      return true;
    }

    /** The inner loop of update_label over one image's children. */
    static method RenameChildren(cs: seq<Child>, name: string, id: int) returns (r: seq<Child>)
      ensures r == RenameAll(cs, name, id)
    {
      r := [];
      var i := 0;
      while i < |cs|
        invariant 0 <= i <= |cs|
        invariant r == RenameAll(cs[..i], name, id)
      {
        r := r + [RenameChild(cs[i], name, id)];
        i := i + 1;
      }
      assert cs[..|cs|] == cs;
    }

    /** get_child_labels_at_point; a missing image argument means the current image. */
    method ChildLabelsAtPoint(x: real, y: real, imageInfo: Option<string>, other: (Child, real, real) -> bool)
      returns (r: seq<Child>)
      ensures var key := if imageInfo.None? then currentImageInfo else imageInfo;
        r == if Truthy(key) then SortByArea(Hits(labels, key.value, x, y, other)) else []
    {
      var key := if imageInfo.None? then currentImageInfo else imageInfo;
      if !Truthy(key) {
        return [];
      }
      var found := [];
      var i := 0;
      while i < |labels|
        invariant 0 <= i <= |labels|
        invariant found == Hits(labels[..i], key.value, x, y, other)
      {
        var cs := ImageChildren(labels[i], key.value);
        var j := 0;
        while j < |cs|
          invariant 0 <= j <= |cs|
          invariant found == Hits(labels[..i], key.value, x, y, other) + HitsIn(cs[..j], x, y, other)
        {
          var c := cs[j];
          assert cs[..j + 1][..j] == cs[..j];
          if !c.isPlaceholder && IsPointInside(c, x, y, other) {
            found := found + [c];
          }
          j := j + 1;
        }
        assert cs[..|cs|] == cs;
        assert labels[..i + 1][..i] == labels[..i];
        i := i + 1;
      }
      assert labels[..|labels|] == labels;
      return SortByArea(found);
    }

    /** get_smallest_child_label_at_point. */
    method SmallestChildLabelAtPoint(x: real, y: real, imageInfo: Option<string>, other: (Child, real, real) -> bool)
      returns (r: Option<Child>)
      ensures var key := if imageInfo.None? then currentImageInfo else imageInfo;
        r == if Truthy(key) then Smallest(Hits(labels, key.value, x, y, other)) else None
    {
      var hits := ChildLabelsAtPoint(x, y, imageInfo, other);
      if |hits| == 0 {
        return None;
      }
      return Some(hits[0]);
    }
  }
}
