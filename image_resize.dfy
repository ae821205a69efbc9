// Enlarging the current image up to a resolution threshold, and rescaling
// its labels by the same factor once the enlarged image is saved.

module ImageResize {
  import opened Wrappers
  import opened PyNum
  import opened Labels
  import opened LabelList

  /** The largest pixel count the enlargement may produce. */
  const PixelBudget: int := 50_000_000

  // ---------------------------------------------------------------------
  // The threshold setting
  // ---------------------------------------------------------------------

  /** The target resolution of a threshold name; any name not in the table means 1080p. */
  function TargetFor(threshold: string): (t: (int, int))
    ensures t.0 >= 1536 && t.1 >= 864
  {
    var name := LowerAscii(threshold);
    if name == "1080p" then (1920, 1080)
    else if name == "1.5k" then (1536, 864)
    else if name == "2k" then (2560, 1440)
    else if name == "4k" then (3840, 2160)
    else if name == "8k" then (7680, 4320)
    else if name == "16k" then (15360, 8640)
    else (1920, 1080)
  }

  /** The names are matched without regard to ASCII case, and an unknown one falls back to 1920 x 1080. */
  lemma TargetForCases(threshold: string)
    ensures TargetFor(threshold) == TargetFor(LowerAscii(threshold))
    ensures LowerAscii(threshold) !in {"1080p", "1.5k", "2k", "4k", "8k", "16k"} ==> TargetFor(threshold) == (1920, 1080)
    ensures TargetFor("16K") == (15360, 8640) && TargetFor("4K") == (3840, 2160)
  {
    var l := LowerAscii(threshold);
    assert LowerAscii(l) == l;
    assert LowerAscii("16K") == "16k";
    assert LowerAscii("4K") == "4k";
  }

  // ---------------------------------------------------------------------
  // Factor and size
  // ---------------------------------------------------------------------

  /** The uniform factor that fits the image inside the target: the smaller of the two ratios. */
  function Factor(origW: nat, origH: nat, targetW: int, targetH: int): real
  {
    MinR(targetW as real / MaxI(1, origW) as real, targetH as real / MaxI(1, origH) as real)
  }

  /** `int(orig * factor)`. */
  function NewSide(orig: nat, f: real): int
  {
    Trunc(orig as real * f)
  }

  lemma MulMonotone(a: real, b: real, c: real)
    requires a >= 0.0 && b <= c
    ensures a * b <= a * c
  {
  }

  /** One side scaled by a factor no larger than target / orig stays within the target. */
  lemma SideWithinTarget(orig: nat, target: int, f: real)
    requires target > 0 && f <= target as real / MaxI(1, orig) as real
    ensures NewSide(orig, f) <= target
  {
    if orig >= 1 {
      MulMonotone(orig as real, f, target as real / orig as real);
      assert orig as real * (target as real / orig as real) == target as real;
    }
  }

  /** The enlarged image never exceeds the target in either dimension. */
  lemma NewSizeWithinTarget(origW: nat, origH: nat, targetW: int, targetH: int)
    requires targetW > 0 && targetH > 0
    ensures var f := Factor(origW, origH, targetW, targetH);
      0 <= NewSide(origW, f) <= targetW && 0 <= NewSide(origH, f) <= targetH
  {
    var f := Factor(origW, origH, targetW, targetH);
    SideWithinTarget(origW, targetW, f);
    SideWithinTarget(origH, targetH, f);
  }

  lemma RatioAboveOne(orig: nat, target: int)
    requires orig < target && 1 < target
    ensures target as real / MaxI(1, orig) as real > 1.0
  {
    var m := MaxI(1, orig) as real;
    var q := target as real / m;
    assert q * m == target as real;
    if q <= 1.0 {
      MulMonotone(m, q, 1.0);
    }
  }

  lemma SideGrows(orig: nat, f: real)
    requires f >= 1.0
    ensures NewSide(orig, f) >= orig
  {
    MulMonotone(orig as real, 1.0, f);
    var x := orig as real * f;
    assert x >= orig as real;
  }

  /** Below the threshold in both dimensions the factor exceeds one, so no side shrinks. */
  lemma BelowThresholdEnlarges(origW: nat, origH: nat, targetW: int, targetH: int)
    requires origW < targetW && origH < targetH && 1 < targetW && 1 < targetH
    ensures var f := Factor(origW, origH, targetW, targetH);
      f > 1.0 && NewSide(origW, f) >= origW && NewSide(origH, f) >= origH
  {
    var f := Factor(origW, origH, targetW, targetH);
    RatioAboveOne(origW, targetW);
    RatioAboveOne(origH, targetH);
    SideGrows(origW, f);
    SideGrows(origH, f);
  }

  /** The dimension whose ratio decides the factor lands on its target exactly. */
  lemma BindingSideMeetsTarget(origW: nat, origH: nat, targetW: int, targetH: int)
    requires origW >= 1 && origH >= 1 && targetW > 0 && targetH > 0
    ensures var f := Factor(origW, origH, targetW, targetH);
      (targetW as real / origW as real <= targetH as real / origH as real ==> NewSide(origW, f) == targetW)
      && (targetH as real / origH as real <= targetW as real / origW as real ==> NewSide(origH, f) == targetH)
  {
    assert origW as real * (targetW as real / origW as real) == targetW as real;
    assert origH as real * (targetH as real / origH as real) == targetH as real;
  }

  lemma ProductMonotone(a: int, b: int, c: int, d: int)
    requires 0 <= a <= c && 0 <= b <= d
    ensures a * b <= c * d
  {
    assert a * b <= c * b;
    assert c * b <= c * d;
  }

  /**
   * Only the 16k threshold can exceed the pixel budget: every other target
   * has at most 50,000,000 pixels, and the new size never exceeds the target.
   */
  lemma BudgetBindsOnlyAt16k(origW: nat, origH: nat, threshold: string)
    requires TargetFor(threshold) != (15360, 8640)
    ensures var (tw, th) := TargetFor(threshold);
      var f := Factor(origW, origH, tw, th);
      NewSide(origW, f) * NewSide(origH, f) <= PixelBudget
  {
    var (tw, th) := TargetFor(threshold);
    var f := Factor(origW, origH, tw, th);
    NewSizeWithinTarget(origW, origH, tw, th);
    ProductMonotone(NewSide(origW, f), NewSide(origH, f), tw, th);
  }

  // ---------------------------------------------------------------------
  // The adjustment command
  // ---------------------------------------------------------------------

  /**
   * What the command reads from the window, the settings and the file system.
   * `backupRaised` says whether `img.save` of the backup raised an exception;
   * a save that fails by returning False goes unnoticed, since the command
   * ignores that value.
   */
  datatype Request = Request(
    remoteSensing: bool,
    hasImageItem: bool,
    pixmapNull: bool,
    origW: nat,
    origH: nat,
    threshold: string,
    imagePath: Option<string>,
    pathExists: bool,
    backupExists: bool,
    backupRaised: bool)

  /** How the command ended: the reason it stopped, or the worker it started. */
  datatype Decision =
    | NeedsRemoteSensing
    | NoImage
    | NullPixmap
    | AlreadyAtThreshold(targetW: int, targetH: int)
    | TooLarge
    | NoImagePath
    | BackupFailed
    | Started(targetW: int, targetH: int)

  /** `adjust_current_image_to_1080p`, up to starting the resize worker. */
  function Adjust(q: Request): Decision
  {
    if !q.remoteSensing then NeedsRemoteSensing
    else if !q.hasImageItem then NoImage
    else if q.pixmapNull then NullPixmap
    else
      var (tw, th) := TargetFor(q.threshold);
      if q.origW >= tw || q.origH >= th then AlreadyAtThreshold(tw, th)
      else
        var f := Factor(q.origW, q.origH, tw, th);
        if NewSide(q.origW, f) * NewSide(q.origH, f) > PixelBudget then TooLarge
        else if q.imagePath.None? || q.imagePath.value == "" || !q.pathExists then NoImagePath
        else if !q.backupExists && q.backupRaised then BackupFailed
        else Started(tw, th)
  }

  /** The command's boolean answer. */
  function AdjustStarted(q: Request): (b: bool)
  {
    Adjust(q).Started?
  }

  /**
   * The worker is started exactly when remote-sensing mode is on, an image is
   * shown, it is smaller than the threshold in both dimensions, the enlarged
   * size is within the pixel budget, the image file exists and the backup
   * either exists already or its save raised nothing; the target is then the
   * threshold's.
   */
  lemma AdjustStartsIff(q: Request)
    ensures var (tw, th) := TargetFor(q.threshold);
      var f := Factor(q.origW, q.origH, tw, th);
      AdjustStarted(q) <==>
        q.remoteSensing && q.hasImageItem && !q.pixmapNull && q.origW < tw && q.origH < th
        && NewSide(q.origW, f) * NewSide(q.origH, f) <= PixelBudget
        && q.imagePath.Some? && q.imagePath.value != "" && q.pathExists && (q.backupExists || !q.backupRaised)
    ensures AdjustStarted(q) ==> Adjust(q) == Started(TargetFor(q.threshold).0, TargetFor(q.threshold).1)
  {
  }

  /** An image already at the threshold in some dimension is left alone. */
  lemma NoResizeAtThreshold(q: Request)
    requires q.remoteSensing && q.hasImageItem && !q.pixmapNull
    requires q.origW >= TargetFor(q.threshold).0 || q.origH >= TargetFor(q.threshold).1
    ensures Adjust(q) == AlreadyAtThreshold(TargetFor(q.threshold).0, TargetFor(q.threshold).1)
  {
  }

  /** A 7680 x 4320 image at the 16k threshold doubles to 15360 x 8640, which the budget refuses. */
  lemma SixteenKCanBeRefused()
    ensures Adjust(Request(true, true, false, 7680, 4320, "16k", Some("a.png"), true, true, true)) == TooLarge
  {
    assert LowerAscii("16k") == "16k";
    var f := Factor(7680, 4320, 15360, 8640);
    assert f == 2.0;
    assert NewSide(7680, f) == 15360;
    assert NewSide(4320, f) == 8640;
  }

  // ---------------------------------------------------------------------
  // The worker
  // ---------------------------------------------------------------------

  datatype WorkerEvent = Done(newW: int, newH: int, factor: real) | Failed

  /** `_ResizeWorker.run`: the same factor and sizes; a null scaled image is a failure. */
  function WorkerRun(origW: nat, origH: nat, targetW: int, targetH: int, scaledNull: bool): (e: WorkerEvent)
    ensures e.Failed? <==> scaledNull
  {
    var f := Factor(origW, origH, targetW, targetH);
    if scaledNull then Failed else Done(NewSide(origW, f), NewSide(origH, f), f)
  }

  /**
   * The worker the command starts reports the size the command checked
   * against the pixel budget: larger than the image, within the target and
   * within the budget.
   */
  lemma WorkerMatchesPlan(q: Request)
    requires AdjustStarted(q)
    ensures var d := Adjust(q);
      var e := WorkerRun(q.origW, q.origH, d.targetW, d.targetH, false);
      e.Done? && e.factor == Factor(q.origW, q.origH, d.targetW, d.targetH) && e.factor > 1.0
      && q.origW <= e.newW <= d.targetW && q.origH <= e.newH <= d.targetH
      && e.newW * e.newH <= PixelBudget
  {
    var d := Adjust(q);
    NewSizeWithinTarget(q.origW, q.origH, d.targetW, d.targetH);
    BelowThresholdEnlarges(q.origW, q.origH, d.targetW, d.targetH);
  }

  // ---------------------------------------------------------------------
  // Rescaling the labels
  // ---------------------------------------------------------------------

  /** Every child except placeholders scaled by f, in place and in order. */
  function ScaleAll(cs: seq<Child>, f: real): (r: seq<Child>)
    ensures |r| == |cs|
    ensures forall i :: 0 <= i < |cs| ==> r[i] == (if cs[i].isPlaceholder then cs[i] else Scale(cs[i], f))
  {
    seq(|cs|, i requires 0 <= i < |cs| => if cs[i].isPlaceholder then cs[i] else Scale(cs[i], f))
  }

  /** A parent with the children of image `key`, if it has any, rescaled. */
  function RescaleParent(p: Parent, key: string, f: real): (r: Parent)
    ensures KeyOf(r) == KeyOf(p) && r.selected == p.selected && r.children == p.children
    ensures r.childrenByImage.Keys == p.childrenByImage.Keys
    ensures forall k :: k in p.childrenByImage && k != key ==> r.childrenByImage[k] == p.childrenByImage[k]
    ensures key in p.childrenByImage ==> r.childrenByImage[key] == ScaleAll(p.childrenByImage[key], f)
  {
    if key in p.childrenByImage then p.(childrenByImage := p.childrenByImage[key := ScaleAll(p.childrenByImage[key], f)])
    else p
  }

  function RescaledLabels(ls: seq<Parent>, key: string, f: real): (r: seq<Parent>)
    ensures |r| == |ls| && forall i :: 0 <= i < |ls| ==> r[i] == RescaleParent(ls[i], key, f)
  {
    seq(|ls|, i requires 0 <= i < |ls| => RescaleParent(ls[i], key, f))
  }

  /**
   * Rescaling keeps every placeholder and every other image's labels, keeps
   * each parent's pair, and scales a non-placeholder rectangle's corners by f.
   */
  lemma RescaleTouchesOnlyThatImage(ls: seq<Parent>, key: string, f: real, i: nat, k: string, j: nat)
    requires i < |ls| && k in ls[i].childrenByImage && j < |ls[i].childrenByImage[k]|
    ensures var c := ls[i].childrenByImage[k][j];
      var c2 := RescaledLabels(ls, key, f)[i].childrenByImage[k][j];
      (k != key || c.isPlaceholder ==> c2 == c)
      && (k == key && !c.isPlaceholder ==> c2 == Scale(c, f))
      && (k == key && !c.isPlaceholder && c.shape == Rectangle && |c.points| >= 8 ==> c2.points[..8] == Scaled(c.points[..8], f))
  {
  }

  /** The inner loop over one image's children. */
  method ScaleChildren(cs: seq<Child>, f: real) returns (r: seq<Child>)
    ensures r == ScaleAll(cs, f)
  {
    r := cs;
    var i := 0;
    while i < |cs|
      invariant 0 <= i <= |cs| && |r| == |cs|
      invariant forall j :: 0 <= j < i ==> r[j] == (if cs[j].isPlaceholder then cs[j] else Scale(cs[j], f))
      invariant r[i..] == cs[i..]
    {
      if !cs[i].isPlaceholder {
        r := r[i := Scale(cs[i], f)];
      }
      assert r[i + 1..] == cs[i + 1..] by {
        assert forall j :: i + 1 <= j < |cs| ==> r[j] == cs[j];
      }
      i := i + 1;
    }
  }

  /**
   * `on_done`: once the enlarged image is saved over the original, every
   * non-placeholder child of that image, under every parent, is scaled by
   * the worker's factor; a failed save changes nothing.
   */
  method OnDone(list: ParentLabelList, imagePath: string, saved: bool, f: real)
    modifies list
    ensures list.labels == (if saved then RescaledLabels(old(list.labels), imagePath, f) else old(list.labels))
    ensures list.nameIdSet == old(list.nameIdSet) && list.currentImageInfo == old(list.currentImageInfo)
    ensures old(list.Valid()) ==> list.Valid()
  {
    if !saved {
      return;
    }
    ghost var ls0 := list.labels;
    var i := 0;
    while i < |list.labels|
      invariant 0 <= i <= |list.labels| == |ls0|
      invariant forall j :: 0 <= j < i ==> list.labels[j] == RescaleParent(ls0[j], imagePath, f)
      invariant list.labels[i..] == ls0[i..]
      invariant list.nameIdSet == old(list.nameIdSet) && list.currentImageInfo == old(list.currentImageInfo)
    {
      var p := list.labels[i];
      assert p == ls0[i];
      if imagePath in p.childrenByImage {
        var scaled := ScaleChildren(p.childrenByImage[imagePath], f);
        list.labels := list.labels[i := p.(childrenByImage := p.childrenByImage[imagePath := scaled])];
      }
      assert list.labels[i + 1..] == ls0[i + 1..] by {
        assert forall j :: i + 1 <= j < |ls0| ==> list.labels[j] == ls0[j];
      }
      i := i + 1;
    }
    assert list.labels == RescaledLabels(ls0, imagePath, f);
    KeysSame(ls0, list.labels);
  }
}
