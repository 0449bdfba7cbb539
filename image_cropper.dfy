/**
 * The crop-rectangle controller of the upload step: a rectangle of the
 * device's aspect ratio, fitted into the loaded photo, that the user drags
 * around and then commits. All coordinates are in image pixels; the
 * conversion from screen coordinates is `PointerPos`.
 */
module Cropping {
  import opened Wrappers
  import opened JsMath
  import opened Canvas2D

  datatype Point = Point(x: real, y: real)

  datatype CropRect = CropRect(x: real, y: real, w: real, h: real)

  /** Where a drag began: the pointer (`x`, `y`) and the rectangle's origin then (`cx`, `cy`). */
  datatype DragStart = DragStart(x: real, y: real, cx: real, cy: real)

  /**
   * What a commit hands on: an offscreen canvas of `width` x `height` onto
   * which the `source` region of the photo is copied at `dest`.
   */
  datatype CropOutput = CropOutput(width: real, height: real, source: CropRect, dest: CropRect)

  /** The on-screen canvas is at most 600 px wide, and 48 px narrower than the window. */
  function CanvasScale(innerWidth: real, img: Raster): (sc: real)
    requires Decoded(img)
    ensures sc * img.width as real == Min(600.0, innerWidth - 48.0)
  {
    Min(600.0, innerWidth - 48.0) / img.width as real
  }

  /** A client position, relative to the canvas's top-left corner, in image pixels. */
  function PointerPos(clientX: real, clientY: real, left: real, top: real, scale: real): (p: Point)
    requires scale != 0.0
    ensures p.x * scale == clientX - left && p.y * scale == clientY - top
  {
    Point((clientX - left) / scale, (clientY - top) / scale)
  }

  /** The hit test of pointer-down; every edge counts as inside. */
  predicate Inside(p: Point, c: CropRect)
  {
    c.x <= p.x <= c.x + c.w && c.y <= p.y <= c.y + c.h
  }

  predicate FitsIn(c: CropRect, img: Raster)
  {
    0.0 <= c.x && c.x + c.w <= img.width as real && 0.0 <= c.y && c.y + c.h <= img.height as real
  }

  /**
   * The initial crop: as large as the ratio allows, centred. A photo wider
   * than the ratio keeps its full height, any other keeps its full width.
   */
  function InitialCrop(img: Raster, ratio: real): (c: CropRect)
    requires Decoded(img) && ratio > 0.0
    ensures c.w == c.h * ratio && c.w > 0.0
    ensures (c.h == img.height as real && c.w <= img.width as real)
         || (c.w == img.width as real && c.h <= img.height as real)
    ensures FitsIn(c, img)
    ensures c.x == img.width as real - (c.x + c.w) && c.y == img.height as real - (c.y + c.h)
  {
    var iw := img.width as real;
    var ih := img.height as real;
    if iw / ih > ratio then
      WiderThanRatio(iw, ih, ratio);
      CropRect((iw - ih * ratio) / 2.0, 0.0, ih * ratio, ih)
    else
      NarrowerThanRatio(iw, ih, ratio);
      CropRect(0.0, (ih - iw / ratio) / 2.0, iw, iw / ratio)
  }

  lemma WiderThanRatio(iw: real, ih: real, ratio: real)
    requires ih > 0.0 && iw / ih > ratio
    ensures ih * ratio < iw
  {
    assert (iw / ih) * ih == iw;
    assert ratio * ih < (iw / ih) * ih;
  }

  lemma NarrowerThanRatio(iw: real, ih: real, ratio: real)
    requires ih > 0.0 && ratio > 0.0 && iw / ih <= ratio
    ensures iw / ratio <= ih && (iw / ratio) * ratio == iw
  {
    assert (iw / ih) * ih == iw;
    assert iw <= ratio * ih;
    assert (iw / ratio) * ratio <= ih * ratio;
  }

  /** No rectangle of the same ratio that fits the photo is larger than the initial crop. */
  lemma InitialCropIsLargest(img: Raster, ratio: real, w: real, h: real)
    requires Decoded(img) && ratio > 0.0
    requires w == h * ratio && 0.0 < w <= img.width as real && 0.0 < h <= img.height as real
    ensures w <= InitialCrop(img, ratio).w && h <= InitialCrop(img, ratio).h
  {
    var c := InitialCrop(img, ratio);
    if c.h == img.height as real {
      assert h * ratio <= c.h * ratio;
    } else {
      assert c.w == img.width as real;
      assert h * ratio <= c.h * ratio;
    }
  }

  /**
   * The rectangle after a pointer move: translated by the pointer's offset
   * from the drag start, then clamped into the photo. Size is untouched.
   */
  function Dragged(start: DragStart, p: Point, c: CropRect, img: Raster): (r: CropRect)
    ensures r.w == c.w && r.h == c.h
    ensures 0.0 <= r.x && 0.0 <= r.y
    ensures c.w <= img.width as real ==> r.x + r.w <= img.width as real
    ensures c.h <= img.height as real ==> r.y + r.h <= img.height as real
    ensures 0.0 <= start.cx + (p.x - start.x) <= img.width as real - c.w ==> r.x == start.cx + (p.x - start.x)
    ensures 0.0 <= start.cy + (p.y - start.y) <= img.height as real - c.h ==> r.y == start.cy + (p.y - start.y)
    ensures start.cx + (p.x - start.x) < 0.0 ==> r.x == 0.0
    ensures start.cx + (p.x - start.x) > img.width as real - c.w ==> r.x == Max(0.0, img.width as real - c.w)
    ensures start.cy + (p.y - start.y) < 0.0 ==> r.y == 0.0
    ensures start.cy + (p.y - start.y) > img.height as real - c.h ==> r.y == Max(0.0, img.height as real - c.h)
  {
    var nx := start.cx + (p.x - start.x);
    var ny := start.cy + (p.y - start.y);
    c.(x := Max(0.0, Min(nx, img.width as real - c.w)), y := Max(0.0, Min(ny, img.height as real - c.h)))
  }

  /** A move depends only on the latest pointer position: earlier moves of the same drag leave no trace. */
  lemma DraggedForgetsEarlierMoves(start: DragStart, p1: Point, p2: Point, c: CropRect, img: Raster)
    ensures Dragged(start, p2, Dragged(start, p1, c, img), img) == Dragged(start, p2, c, img)
  {
  }

  /** Moving the pointer back onto the drag start puts a rectangle that fits back where it was. */
  lemma DraggedBackToStart(p: Point, c: CropRect, img: Raster)
    requires FitsIn(c, img)
    ensures Dragged(DragStart(p.x, p.y, c.x, c.y), p, c, img) == c
  {
  }

  class ImageCropper {
    const aspectRatio: real
    var img: Option<Raster>
    var crop: CropRect
    var dragging: bool
    var dragStart: DragStart
    var canvasWidth: real
    var canvasHeight: real
    var scale: real

    /** Once a photo is loaded the crop has the target ratio and lies inside the photo. */
    ghost predicate Valid()
      reads this
    {
      && aspectRatio > 0.0
      && (img.Some? ==>
            && Decoded(img.value)
            && FitsIn(crop, img.value)
            && crop.w == crop.h * aspectRatio
            && crop.w > 0.0)
    }

    constructor (aspectRatio: real)
      requires aspectRatio > 0.0
      ensures Valid()
      ensures this.aspectRatio == aspectRatio && img.None? && !dragging
      ensures crop == CropRect(0.0, 0.0, 0.0, 0.0) && dragStart == DragStart(0.0, 0.0, 0.0, 0.0)
      ensures canvasWidth == 0.0 && canvasHeight == 0.0 && scale == 1.0
    {
      this.aspectRatio := aspectRatio;
      img := None;
      crop := CropRect(0.0, 0.0, 0.0, 0.0);
      dragging := false;
      dragStart := DragStart(0.0, 0.0, 0.0, 0.0);
      canvasWidth, canvasHeight := 0.0, 0.0;
      scale := 1.0;
    }

    /** The photo has decoded: size the canvas to the window and fit the initial crop. */
    method OnImageLoad(image: Raster, innerWidth: real)
      requires Valid() && Decoded(image)
      modifies this
      ensures Valid()
      ensures img == Some(image)
      ensures scale == CanvasScale(innerWidth, image)
      ensures canvasWidth == image.width as real * scale && canvasHeight == image.height as real * scale
      ensures crop == InitialCrop(image, aspectRatio)
      ensures dragging == old(dragging) && dragStart == old(dragStart)
    {
      var maxW := Min(600.0, innerWidth - 48.0);
      var sc := maxW / image.width as real;
      canvasWidth, canvasHeight := image.width as real * sc, image.height as real * sc;
      scale := sc;
      var iw := image.width as real;
      var ih := image.height as real;
      var cropW: real, cropH: real;
      if iw / ih > aspectRatio {
        cropH := ih;
        cropW := cropH * aspectRatio;
      } else {
        cropW := iw;
        cropH := cropW / aspectRatio;
      }
      crop := CropRect((iw - cropW) / 2.0, (ih - cropH) / 2.0, cropW, cropH);
      img := Some(image);
      assert crop == InitialCrop(image, aspectRatio);
    }

    /** A press inside the rectangle (edges included) starts a drag anchored at the press; elsewhere nothing happens. */
    method PointerDown(p: Point)
      modifies this`dragging, this`dragStart
      ensures Inside(p, crop) ==> dragging && dragStart == DragStart(p.x, p.y, crop.x, crop.y)
      ensures !Inside(p, crop) ==> dragging == old(dragging) && dragStart == old(dragStart)
    {
      if crop.x <= p.x && p.x <= crop.x + crop.w && crop.y <= p.y && p.y <= crop.y + crop.h {
        dragging := true;
        dragStart := DragStart(p.x, p.y, crop.x, crop.y);
      }
    }

    /** While dragging a loaded photo, the rectangle follows the pointer, clamped into the photo. */
    method PointerMove(p: Point)
      requires Valid()
      modifies this`crop
      ensures Valid()
      ensures !dragging || img.None? ==> crop == old(crop)
      ensures dragging && img.Some? ==> crop == Dragged(dragStart, p, old(crop), img.value)
    {
      if !dragging || img.None? {
        return;
      }
      var image := img.value;
      var nx := dragStart.cx + (p.x - dragStart.x);
      var ny := dragStart.cy + (p.y - dragStart.y);
      nx := Max(0.0, Min(nx, image.width as real - crop.w));
      ny := Max(0.0, Min(ny, image.height as real - crop.h));
      crop := crop.(x := nx, y := ny);
    }

    method PointerUp()
      modifies this`dragging
      ensures !dragging
    {
      dragging := false;
    }

    /**
     * Confirm the crop. Without a photo nothing is produced; otherwise the
     * output is exactly the crop's size and copies the crop's region.
     */
    method Commit() returns (out: Option<CropOutput>)
      requires Valid()
      ensures img.None? <==> out.None?
      ensures out.Some? ==>
        && out.value.width == crop.w && out.value.height == crop.h
        && out.value.source == crop
        && out.value.dest == CropRect(0.0, 0.0, out.value.width, out.value.height)
        && FitsIn(out.value.source, img.value)
        && out.value.width == out.value.height * aspectRatio
    {
      if img.None? {
        return None;
      }
      out := Some(CropOutput(crop.w, crop.h, crop, CropRect(0.0, 0.0, crop.w, crop.h)));
    }
  }
}
