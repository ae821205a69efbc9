// Pan mode: dragging the annotation under the cursor, with the drag delta
// clamped so that the dragged item stays inside the image.

module MoveIt {
  import opened Wrappers
  import opened PyNum
  import opened Labels

  /** An axis-aligned extent: the smallest and largest x and y of an item. */
  datatype Extent = Extent(minX: real, minY: real, maxX: real, maxY: real)

  /** Width and height of the canvas pixmap, in pixels. */
  datatype Size = Size(width: int, height: int)

  /**
   * The graphics item being dragged. The hit test only returns rectangle,
   * polygon, ellipse and line items, and each of them answers `setPos`,
   * `pos` and `boundingRect`, so the move handler always takes its first
   * branch: the item is its position and its bounding rectangle in item
   * coordinates.
   */
  datatype Item = Item(pos: Pt, rect: Extent)

  // ---------------------------------------------------------------------
  // Extents
  // ---------------------------------------------------------------------

  function Shift(e: Extent, dx: real, dy: real): Extent
  {
    Extent(e.minX + dx, e.minY + dy, e.maxX + dx, e.maxY + dy)
  }

  /** The extent the move handler measures: the bounding rectangle placed at the item's position. */
  function ItemExtent(it: Item): Extent
  {
    Shift(it.rect, it.pos.x, it.pos.y)
  }

  /** The item after `setPos(pos() + (dx, dy))`. */
  function MovedItem(it: Item, dx: real, dy: real): Item
  {
    it.(pos := Pt(it.pos.x + dx, it.pos.y + dy))
  }

  /** Moving an item by (dx, dy) moves the extent the handler measures by the same amount. */
  lemma MovedItemExtent(it: Item, dx: real, dy: real)
    ensures ItemExtent(MovedItem(it, dx, dy)) == Shift(ItemExtent(it), dx, dy)
  {
  }

  // ---------------------------------------------------------------------
  // The clamp
  // ---------------------------------------------------------------------

  /**
   * One axis of the boundary check: a move past the near edge is cut back to
   * reach it exactly; otherwise a move past the far edge is cut back to reach
   * that one; otherwise the move stands.
   */
  function ClampAxis(lo: real, hi: real, d: real, size: real): real
  {
    if lo + d < 0.0 then -lo
    else if hi + d > size then size - hi
    else d
  }

  /** A move that crosses neither edge is left as it is. */
  lemma ClampAxisKeepsInnerMoves(lo: real, hi: real, d: real, size: real)
    requires 0.0 <= lo + d && hi + d <= size
    ensures ClampAxis(lo, hi, d, size) == d
  {
  }

  /**
   * An item no wider than the image ends inside [0, size] whatever the move,
   * and flush with the edge it would have crossed.
   */
  lemma ClampAxisKeepsInside(lo: real, hi: real, d: real, size: real)
    requires lo <= hi <= lo + size
    ensures var r := ClampAxis(lo, hi, d, size);
      0.0 <= lo + r && hi + r <= size
      && (lo + d < 0.0 ==> lo + r == 0.0)
      && (0.0 <= lo + d && hi + d > size ==> hi + r == size)
  {
  }

  /** The delta's sign is kept or the delta shrinks to a cut-back: it never pushes past where it was going. */
  lemma ClampAxisNoOvershoot(lo: real, hi: real, d: real, size: real)
    requires 0.0 <= lo && hi <= size
    ensures var r := ClampAxis(lo, hi, d, size);
      (d >= 0.0 ==> 0.0 <= r <= d) && (d <= 0.0 ==> d <= r <= 0.0)
  {
  }

  /**
   * The delta the handler applies: the mouse delta, clamped on each axis
   * independently when the pixmap has a positive size.
   */
  function DragDelta(e: Extent, pixmap: Option<Size>, dx: real, dy: real): (real, real)
  {
    if pixmap.Some? && pixmap.value.width > 0 && pixmap.value.height > 0 then
      (ClampAxis(e.minX, e.maxX, dx, pixmap.value.width as real),
       ClampAxis(e.minY, e.maxY, dy, pixmap.value.height as real))
    else (dx, dy)
  }

  /** Without a pixmap of positive size nothing is clamped. */
  lemma DragDeltaUnclamped(e: Extent, pixmap: Option<Size>, dx: real, dy: real)
    requires pixmap.None? || pixmap.value.width <= 0 || pixmap.value.height <= 0
    ensures DragDelta(e, pixmap, dx, dy) == (dx, dy)
  {
  }

  /** An item that fits the image (no wider, no taller) lies inside it after every drag step. */
  lemma DragKeepsItemInside(it: Item, w: int, h: int, dx: real, dy: real)
    requires w > 0 && h > 0
    requires var e := ItemExtent(it);
      e.minX <= e.maxX <= e.minX + w as real && e.minY <= e.maxY <= e.minY + h as real
    ensures var d := DragDelta(ItemExtent(it), Some(Size(w, h)), dx, dy);
      var e2 := ItemExtent(MovedItem(it, d.0, d.1));
      0.0 <= e2.minX && e2.maxX <= w as real && 0.0 <= e2.minY && e2.maxY <= h as real
  {
    var e := ItemExtent(it);
    var d := DragDelta(e, Some(Size(w, h)), dx, dy);
    ClampAxisKeepsInside(e.minX, e.maxX, dx, w as real);
    ClampAxisKeepsInside(e.minY, e.maxY, dy, h as real);
    MovedItemExtent(it, d.0, d.1);
  }

  // ---------------------------------------------------------------------
  // The child label
  // ---------------------------------------------------------------------

  /**
   * A drag moves the child label with `ChildLabel.move` alone, which leaves an
   * OBB's corner points where they were; since the hit test of an OBB reads
   * those corners, the dragged OBB is still hit exactly where it was hit
   * before the drag, whatever the delta.
   */
  lemma {:induction false} DragLeavesObbHitArea(c: Child, dx: real, dy: real, x: real, y: real,
                                                other: (Child, real, real) -> bool)
    requires c.isObb && |c.cornerPoints| > 0 && c.shape != Point && c.shape != Line
    ensures Move(c, dx, dy).cornerPoints == c.cornerPoints
    ensures IsPointInside(Move(c, dx, dy), x, y, other) == IsPointInside(c, x, y, other)
    ensures !c.isPlaceholder ==> IsPointInside(c, x, y, other) == PointInPolygonSpec(x, y, c.cornerPoints)
  {
    var m := Move(c, dx, dy);
    assert m.isPlaceholder == c.isPlaceholder && m.shape == c.shape;
    assert m.isObb && m.cornerPoints == c.cornerPoints;
  }

  /** The drag step of `mouseMoveEvent`, clamped so the item's extent stays on a pixmap of positive size. */
  method ClampDrag(it: Item, pixmap: Option<Size>, dx0: real, dy0: real) returns (dx: real, dy: real)
    ensures (dx, dy) == DragDelta(ItemExtent(it), pixmap, dx0, dy0)
  {
    dx, dy := dx0, dy0;
    var w, h := 0, 0;
    if pixmap.Some? {
      w, h := pixmap.value.width, pixmap.value.height;
    }
    if w > 0 && h > 0 {
      var minX, minY := it.pos.x + it.rect.minX, it.pos.y + it.rect.minY;
      var maxX, maxY := it.pos.x + it.rect.maxX, it.pos.y + it.rect.maxY;
      if minX + dx < 0.0 {
        dx := -minX;
      } else if maxX + dx > w as real {
        dx := w as real - maxX;
      }
      if minY + dy < 0.0 {
        dy := -minY;
      } else if maxY + dy > h as real {
        dy := h as real - maxY;
      }
    }
  }

  // ---------------------------------------------------------------------
  // The move-mode state
  // ---------------------------------------------------------------------

  /** The module-level drag state of pan mode. */
  class MoveSession {
    var isMoving: bool
    var item: Option<Item>
    var child: Option<Child>
    var lastMousePos: Option<Pt>
    var originalItemPos: Option<Pt>

    function StateOf(): (bool, Option<Item>, Option<Child>, Option<Pt>, Option<Pt>)
      reads this
    {
      (isMoving, item, child, lastMousePos, originalItemPos)
    }

    /** No drag in progress and nothing tracked. */
    predicate Idle()
      reads this
    {
      !isMoving && item.None? && child.None? && lastMousePos.None? && originalItemPos.None?
    }

    /** The guard of a drag step: moving, with an item, its label and a last position. */
    predicate Dragging()
      reads this
    {
      isMoving && item.Some? && child.Some? && lastMousePos.Some?
    }

    /** Entering pan mode starts from nothing tracked. */
    constructor ()
      ensures Idle()
    {
      isMoving := false;
      item := None;
      child := None;
      lastMousePos := None;
      originalItemPos := None;
    }

    /** Re-entering or leaving pan mode forgets any drag. */
    method Reset()
      modifies this
      ensures Idle()
    {
      isMoving := false;
      item := None;
      child := None;
      lastMousePos := None;
      originalItemPos := None;
    }

    /**
     * A press in pan mode on an item that carries a child label starts a drag
     * of it from the click; anything else is passed on and changes nothing.
     * `target` is the labelled item the hit test picks under the cursor.
     */
    method HandlePress(panMode: bool, pos: Pt, target: Option<(Item, Child)>) returns (handled: bool)
      modifies this
      ensures handled <==> panMode && target.Some?
      ensures handled ==>
        isMoving && item == Some(target.value.0) && child == Some(target.value.1)
        && lastMousePos == Some(pos) && originalItemPos == Some(target.value.0.pos)
      ensures !handled ==> StateOf() == old(StateOf())
    {
      handled := false;
      if !panMode || target.None? {
        return;
      }
      var (it, c) := target.value;
      isMoving := true;
      item := Some(it);
      child := Some(c);
      lastMousePos := Some(pos);
      originalItemPos := Some(it.pos);
      handled := true;
    }

    /**
     * A drag step: the mouse delta since the last position, clamped against
     * the pixmap, moves the item and its child label, and the current
     * position becomes the last one. Outside a drag the event is passed on.
     */
    method HandleMove(panMode: bool, pos: Pt, pixmap: Option<Size>) returns (handled: bool)
      modifies this
      ensures handled <==> panMode && old(Dragging())
      ensures !handled ==> StateOf() == old(StateOf())
      ensures handled ==>
        var it := old(item.value);
        var d := DragDelta(ItemExtent(it), pixmap, pos.x - old(lastMousePos.value.x), pos.y - old(lastMousePos.value.y));
        isMoving && item == Some(MovedItem(it, d.0, d.1))
        && child == Some(Move(old(child.value), d.0, d.1))
        && child.value.cornerPoints == old(child.value.cornerPoints)
        && lastMousePos == Some(pos) && originalItemPos == old(originalItemPos)
    {
      handled := false;
      if !panMode || !Dragging() {
        return;
      }
      var it := item.value;
      var dx, dy := ClampDrag(it, pixmap, pos.x - lastMousePos.value.x, pos.y - lastMousePos.value.y);
      item := Some(MovedItem(it, dx, dy));
      child := Some(Move(child.value, dx, dy));
      lastMousePos := Some(pos);
      handled := true;
    }

    /** A release in pan mode ends a drag and forgets what it tracked. */
    method HandleRelease(panMode: bool)
      modifies this
      ensures panMode && old(isMoving) ==> Idle()
      ensures !(panMode && old(isMoving)) ==> StateOf() == old(StateOf())
    {
      if panMode && isMoving {
        isMoving := false;
        item := None;
        child := None;
        lastMousePos := None;
        originalItemPos := None;
      }
    }
  }

  /**
   * A whole drag: press on a labelled item, one step, release. The step moves
   * the item by the clamped delta, and the release leaves nothing tracked.
   */
  method DragOnce(s: MoveSession, start: Pt, to: Pt, it: Item, c: Child, pixmap: Option<Size>)
    returns (moved: Child)
    modifies s
    ensures var d := DragDelta(ItemExtent(it), pixmap, to.x - start.x, to.y - start.y);
      moved == Move(c, d.0, d.1) && moved.cornerPoints == c.cornerPoints
    ensures s.Idle()
  {
    var pressed := s.HandlePress(true, start, Some((it, c)));
    var stepped := s.HandleMove(true, to, pixmap);
    moved := s.child.value;
    s.HandleRelease(true);
  }
}
