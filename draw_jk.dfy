/**
 * The visible-region crop of app_ui/draw_jk.py: the part of the image the
 * canvas viewport shows, in integer image pixels, and the session cache of
 * crops taken from the current image.
 */
module DrawJk {
  import opened Wrappers

  /** An integer rectangle as Qt's QRect(x, y, width, height). */
  datatype IRect = IRect(x: int, y: int, w: int, h: int)

  predicate Contains(r: IRect, px: int, py: int)
  {
    r.x <= px < r.x + r.w && r.y <= py < r.y + r.h
  }

  function Max(a: int, b: int): int { if a >= b then a else b }
  function Min(a: int, b: int): int { if a <= b then a else b }

  /**
   * `QRect.intersected` followed by the emptiness test of the caller: None
   * when the overlap has no positive width or height.
   */
  function Intersected(a: IRect, b: IRect): (r: Option<IRect>)
    ensures r.Some? ==> r.value.w > 0 && r.value.h > 0
  {
    var x := Max(a.x, b.x);
    var y := Max(a.y, b.y);
    var w := Min(a.x + a.w, b.x + b.w) - x;
    var h := Min(a.y + a.h, b.y + b.h) - y;
    if w <= 0 || h <= 0 then None else Some(IRect(x, y, w, h))
  }

  /** The pixels of the overlap are exactly the pixels both rectangles contain. */
  lemma IntersectedExact(a: IRect, b: IRect, px: int, py: int)
    requires Intersected(a, b).Some?
    ensures Contains(Intersected(a, b).value, px, py) <==> Contains(a, px, py) && Contains(b, px, py)
  {
  }

  /** No overlap is reported only when no pixel lies in both rectangles. */
  lemma IntersectedNoneMeansDisjoint(a: IRect, b: IRect, px: int, py: int)
    requires Intersected(a, b).None?
    ensures !(Contains(a, px, py) && Contains(b, px, py))
  {
  }

  /** The loaded pixmap's size, when one is loaded and not null. */
  datatype Pixmap = Pixmap(width: int, height: int)

  function ImageRect(p: Pixmap): IRect
  {
    IRect(0, 0, p.width, p.height)
  }

  /**
   * `_get_visible_image_rect`: the viewport's scene rectangle (already
   * converted to integers by `toRect`) intersected with the image rectangle.
   */
  function VisibleImageRect(pixmap: Option<Pixmap>, sceneRect: IRect): (r: Option<IRect>)
    ensures pixmap.None? ==> r.None?
    ensures r.Some? ==> r.value.w > 0 && r.value.h > 0
  {
    if pixmap.None? then None else Intersected(sceneRect, ImageRect(pixmap.value))
  }

  /** Any returned rectangle lies within the image and within the viewport's scene rectangle. */
  lemma VisibleRectInsideImage(pixmap: Option<Pixmap>, sceneRect: IRect)
    requires VisibleImageRect(pixmap, sceneRect).Some?
    ensures var r := VisibleImageRect(pixmap, sceneRect).value;
      0 <= r.x && r.x + r.w <= pixmap.value.width && 0 <= r.y && r.y + r.h <= pixmap.value.height
      && sceneRect.x <= r.x && r.x + r.w <= sceneRect.x + sceneRect.w
      && sceneRect.y <= r.y && r.y + r.h <= sceneRect.y + sceneRect.h
  {
  }

  /** The rectangle `crop_canvas_visible_image` crops, before any caching. */
  function CropRect(pixmap: Option<Pixmap>, viewportW: int, viewportH: int, sceneRect: IRect,
                    triggerOnlyIfLarger: bool): (r: Option<IRect>)
    ensures pixmap.None? ==> r.None?
  {
    if pixmap.None? then None
    else if triggerOnlyIfLarger && pixmap.value.width <= viewportW && pixmap.value.height <= viewportH then
      Some(ImageRect(pixmap.value))
    else VisibleImageRect(pixmap, sceneRect)
  }

  /** An image that fits the viewport is taken whole when cropping only larger images. */
  lemma SmallImageTakenWhole(p: Pixmap, viewportW: int, viewportH: int, sceneRect: IRect)
    requires p.width <= viewportW && p.height <= viewportH
    ensures CropRect(Some(p), viewportW, viewportH, sceneRect, true) == Some(IRect(0, 0, p.width, p.height))
  {
  }

  /**
   * The module-level crop cache: crops of the current image keyed by
   * (x, y, w, h), and the path they were taken from.
   */
  class CropCache<Img(==)> {
    var cache: map<IRect, Img>
    var cachedImagePath: Option<string>

    constructor ()
      ensures cache == map[] && cachedImagePath == None
    {
      cache := map[];
      cachedImagePath := None;
    }

    /**
     * Every stored crop is what cropping the cached image at that rectangle
     * gives, where `copyAt(path, rect)` is the crop of the image shown for `path`.
     */
    ghost predicate Coherent(copyAt: (Option<string>, IRect) -> Option<Img>)
      reads this
    {
      forall r :: r in cache ==>
        cachedImagePath.Some? && cachedImagePath.value != "" && copyAt(cachedImagePath, r) == Some(cache[r])
    }

    /**
     * `crop_canvas_visible_image`. `copyAt(currentPath, rect)` stands for
     * `pixmap.copy(rect)` followed by `toImage()`, None for a null result;
     * `currentPath` is the path from `get_image_info_func`, None when
     * unavailable. A coherent cache is transparent: the result is always the
     * fresh crop, hit or miss.
     */
    method CropCanvasVisibleImage(pixmap: Option<Pixmap>, viewportW: int, viewportH: int, sceneRect: IRect,
                                  triggerOnlyIfLarger: bool, currentPath: Option<string>,
                                  copyAt: (Option<string>, IRect) -> Option<Img>) returns (img: Option<Img>)
      requires Coherent(copyAt)
      modifies this
      ensures Coherent(copyAt)
      ensures var rect := CropRect(pixmap, viewportW, viewportH, sceneRect, triggerOnlyIfLarger);
        img == if rect.None? then None else copyAt(currentPath, rect.value)
      ensures var rect := CropRect(pixmap, viewportW, viewportH, sceneRect, triggerOnlyIfLarger);
        if rect.None? then
          img.None? && cache == old(cache) && cachedImagePath == old(cachedImagePath)
        else
          var usesCache := currentPath.Some? && currentPath.value != "";
          var changed := usesCache && currentPath != old(cachedImagePath);
          var before := if changed then map[] else old(cache);
          && cachedImagePath == (if changed then currentPath else old(cachedImagePath))
          && (if usesCache && rect.value in before then
                img == Some(before[rect.value]) && cache == before
              else
                img == copyAt(currentPath, rect.value)
                && cache == (if usesCache && img.Some? then before[rect.value := img.value] else before))
    {
      var rect := CropRect(pixmap, viewportW, viewportH, sceneRect, triggerOnlyIfLarger);
      if rect.None? {
        return None;
      }
      var usesCache := currentPath.Some? && currentPath.value != "";
      if usesCache && currentPath != cachedImagePath {
        cache := map[];
        cachedImagePath := currentPath;
      }
      if usesCache && rect.value in cache {
        return Some(cache[rect.value]);
      }
      img := copyAt(currentPath, rect.value);
      if img.None? {
        return None;
      }
      if usesCache {
        cache := cache[rect.value := img.value];
      }
    }
  }
}
