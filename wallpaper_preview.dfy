/**
 * The on-screen preview (app/components/WallpaperPreview.tsx): the display
 * scale that fits the device into the viewport, and the draw effect that
 * paints background, island overlay and sticker at that scale.
 */
module Preview {
  import opened Wrappers
  import opened JsMath
  import opened Devices
  import opened Animals
  import opened Canvas2D

  const IslandFill := "rgba(0,0,0,0.5)"
  const StickerShadowColor := "rgba(0, 0, 0, 0.35)"

  /** The sticker's drop shadow at scale `s`: blur 4 and downward offset 2, both scaled. */
  function StickerShadow(s: real): Shadow
  {
    Shadow(StickerShadowColor, 4.0 * s, 0.0, 2.0 * s)
  }

  /**
   * `updateScale`: the largest scale at which the device fits both within
   * `min(360, innerWidth - 48)` wide and within 60% of the viewport height.
   */
  function DisplayScale(device: DeviceTemplate, innerWidth: real, innerHeight: real): (s: real)
    requires device.width > 0 && device.height > 0
    ensures s * device.width as real <= Min(360.0, innerWidth - 48.0)
    ensures s * device.height as real <= innerHeight * 0.6
    ensures s * device.width as real == Min(360.0, innerWidth - 48.0) || s * device.height as real == innerHeight * 0.6
  {
    var maxH := innerHeight * 0.6;
    var maxW := Min(360.0, innerWidth - 48.0);
    var sw, sh := maxW / device.width as real, maxH / device.height as real;
    assert sw * device.width as real == maxW;
    assert sh * device.height as real == maxH;
    Min(sw, sh)
  }

  /** The island rectangle scaled component-wise. */
  function ScaledIsland(device: DeviceTemplate, s: real): Rect
  {
    Rect(device.islandRect.x as real * s, device.islandRect.y as real * s,
         device.islandRect.w as real * s, device.islandRect.h as real * s)
  }

  /** The sticker placement both renderers ask for: default height, ratio = percent / 100. */
  function StickerPlacement(device: DeviceTemplate, sticker: Raster, stickerXPercent: real): Placement
    requires Decoded(sticker)
  {
    GetStickerPosition(device, AspectWH(sticker), StickerHNative as real, stickerXPercent / 100.0)
  }

  /** The placement scaled to the display: positions rounded, sizes rounded and floored at 1. */
  function ScaledStickerRect(pos: Placement, s: real): Rect
  {
    Rect(Round(pos.x as real * s) as real, Round(pos.y as real * s) as real,
         MaxInt(1, Round(pos.w as real * s)) as real, MaxInt(1, Round(pos.h as real * s)) as real)
  }

  /** The sticker layer: shadow and nearest-neighbour sampling set just before the draw, shadow reset just after. */
  function StickerLayer(dest: Rect, shadow: Shadow): seq<Command>
  {
    [SetShadow(shadow), SetImageSmoothing(false), DrawImage(Sticker, dest), SetShadow(NoShadow)]
  }

  function IslandOverlay(device: DeviceTemplate, s: real): seq<Command>
  {
    [SetFillStyle(IslandFill), FillRoundRect(ScaledIsland(device, s), ScaledIsland(device, s).h / 2.0)]
  }

  /** Size the canvas, then stretch the background over all of it. */
  function BackgroundLayer(w: real, h: real): seq<Command>
  {
    [SetSize(w, h), DrawImage(Background, Rect(0.0, 0.0, w, h))]
  }

  function PreviewStickerPart(device: DeviceTemplate, s: real, sticker: Option<Raster>, stickerXPercent: real): seq<Command>
    requires sticker.Some? ==> Decoded(sticker.value)
  {
    if sticker.Some?
    then StickerLayer(ScaledStickerRect(StickerPlacement(device, sticker.value, stickerXPercent), s), StickerShadow(s))
    else []
  }

  /** What the draw effect issues once the background has loaded. */
  function PreviewCommands(device: DeviceTemplate, s: real, sticker: Option<Raster>, stickerXPercent: real): seq<Command>
    requires sticker.Some? ==> Decoded(sticker.value)
  {
    BackgroundLayer(device.width as real * s, device.height as real * s)
    + IslandOverlay(device, s)
    + PreviewStickerPart(device, s, sticker, stickerXPercent)
  }

  /** Whatever the canvas held, the background layer leaves a reset context and the background alone. */
  lemma ReplayBackgroundLayer(surface: Surface, w: real, h: real)
    ensures Replay(surface, BackgroundLayer(w, h)) ==
      Surface(w, h, DefaultContext, [ImagePaint(Background, Rect(0.0, 0.0, w, h), NoShadow, true)])
  {
    var cmds := BackgroundLayer(w, h);
    assert cmds[1..] == [cmds[1]];
    var s1 := Apply(surface, cmds[0]);
    calc {
      Replay(surface, cmds);
      Replay(s1, cmds[1..]);
      Replay(Apply(s1, cmds[1]), []);
    }
  }

  /** The island overlay paints one rounded rectangle, radius half its height, in the overlay colour. */
  lemma ReplayIslandOverlay(surface: Surface, device: DeviceTemplate, s: real)
    ensures var r := ScaledIsland(device, s);
      Replay(surface, IslandOverlay(device, s)) ==
        surface.(ctx := surface.ctx.(fill := IslandFill),
                 paints := surface.paints + [ShapePaint(r, r.h / 2.0, IslandFill, surface.ctx.shadow)])
  {
    var cmds := IslandOverlay(device, s);
    assert cmds[1..] == [cmds[1]];
    var s1 := Apply(surface, cmds[0]);
    calc {
      Replay(surface, cmds);
      Replay(s1, cmds[1..]);
      Replay(Apply(s1, cmds[1]), []);
    }
  }

  /** Replaying the sticker layer paints the sticker once with the given shadow and leaves the shadow off. */
  lemma ReplayStickerLayer(surface: Surface, dest: Rect, shadow: Shadow)
    ensures Replay(surface, StickerLayer(dest, shadow)) ==
      surface.(ctx := surface.ctx.(shadow := NoShadow, smoothing := false),
               paints := surface.paints + [ImagePaint(Sticker, dest, shadow, false)])
  {
    var cmds := StickerLayer(dest, shadow);
    var s1 := Apply(surface, cmds[0]);
    var s2 := Apply(s1, cmds[1]);
    var s3 := Apply(s2, cmds[2]);
    var s4 := Apply(s3, cmds[3]);
    assert cmds[1..] == [cmds[1], cmds[2], cmds[3]];
    assert cmds[1..][1..] == [cmds[2], cmds[3]];
    assert cmds[1..][1..][1..] == [cmds[3]];
    calc {
      Replay(surface, cmds);
      Replay(s1, cmds[1..]);
      Replay(s2, cmds[1..][1..]);
      Replay(s3, cmds[1..][1..][1..]);
      Replay(s4, []);
    }
  }

  /**
   * Whatever the canvas held before, the preview leaves exactly: the
   * background over the whole canvas, then the island as a rounded rectangle
   * with radius half its height, then (if loaded) the sticker with the scaled
   * shadow and smoothing off; the shadow is off again afterwards.
   */
  lemma PreviewPaints(before: Surface, device: DeviceTemplate, s: real, sticker: Option<Raster>, stickerXPercent: real)
    requires sticker.Some? ==> Decoded(sticker.value)
    ensures var dw, dh := device.width as real * s, device.height as real * s;
      var island := ScaledIsland(device, s);
      var after := Replay(before, PreviewCommands(device, s, sticker, stickerXPercent));
      && after.width == dw && after.height == dh
      && after.ctx.shadow == NoShadow
      && after.paints ==
        [ImagePaint(Background, Rect(0.0, 0.0, dw, dh), NoShadow, true),
         ShapePaint(island, island.h / 2.0, IslandFill, NoShadow)]
        + (if sticker.Some?
           then [ImagePaint(Sticker, ScaledStickerRect(StickerPlacement(device, sticker.value, stickerXPercent), s), StickerShadow(s), false)]
           else [])
  {
    var dw, dh := device.width as real * s, device.height as real * s;
    var bg := BackgroundLayer(dw, dh);
    var island := IslandOverlay(device, s);
    var rest := PreviewStickerPart(device, s, sticker, stickerXPercent);
    assert PreviewCommands(device, s, sticker, stickerXPercent) == bg + island + rest by {
      var c := PreviewCommands(device, s, sticker, stickerXPercent);
      assert |c| == |bg + island + rest|;
      assert forall i :: 0 <= i < |c| ==> c[i] == (bg + island + rest)[i];
    }
    ReplayConcat(before, bg + island, rest);
    ReplayConcat(before, bg, island);
    ReplayBackgroundLayer(before, dw, dh);
    var s1 := Replay(before, bg);
    ReplayIslandOverlay(s1, device, s);
    var s2 := Replay(before, bg + island);
    var r := ScaledIsland(device, s);
    assert s2.width == dw && s2.height == dh && s2.ctx.shadow == NoShadow;
    assert s2.paints == [ImagePaint(Background, Rect(0.0, 0.0, dw, dh), NoShadow, true), ShapePaint(r, r.h / 2.0, IslandFill, NoShadow)];
    if sticker.Some? {
      ReplayStickerLayer(s2, ScaledStickerRect(StickerPlacement(device, sticker.value, stickerXPercent), s), StickerShadow(s));
    } else {
      assert rest == [];
      assert Replay(s2, rest) == s2;
    }
  }

  /**
   * The drawn sticker is within one display pixel of the exact scaled
   * placement: positions within half a pixel, sizes within one pixel.
   */
  lemma ScaledStickerWithinOnePixel(pos: Placement, s: real)
    requires s > 0.0 && pos.w >= 1 && pos.h >= 1
    ensures var r := ScaledStickerRect(pos, s);
      && pos.x as real * s - 0.5 < r.x <= pos.x as real * s + 0.5
      && pos.y as real * s - 0.5 < r.y <= pos.y as real * s + 0.5
      && pos.w as real * s - 0.5 < r.w <= pos.w as real * s + 1.0
      && pos.h as real * s - 0.5 < r.h <= pos.h as real * s + 1.0
  {
    assert pos.w as real * s > 0.0 && pos.h as real * s > 0.0;
  }

  /** At scale 1 the scaled rectangle is the native placement itself. */
  lemma ScaledStickerAtNativeScale(pos: Placement)
    requires pos.w >= 1 && pos.h >= 1
    ensures ScaledStickerRect(pos, 1.0) == Rect(pos.x as real, pos.y as real, pos.w as real, pos.h as real)
  {
    RoundOfInteger(pos.x);
    RoundOfInteger(pos.y);
    RoundOfInteger(pos.w);
    RoundOfInteger(pos.h);
  }

  /** The preview component's state: the display scale, the two loaded images and its canvas. */
  class WallpaperPreview {
    var displayScale: real
    var bgImg: Option<Raster>
    var animalImg: Option<Raster>
    const canvas: Canvas

    ghost predicate Valid()
      reads this
    {
      animalImg.Some? ==> Decoded(animalImg.value)
    }

    constructor ()
      ensures Valid() && fresh(canvas)
      ensures displayScale == 1.0 && bgImg == None && animalImg == None
      ensures canvas.commands == []
    {
      displayScale, bgImg, animalImg := 1.0, None, None;
      canvas := new Canvas();
    }

    /** `updateScale`, run on mount and on every resize, without debouncing. */
    method UpdateScale(device: DeviceTemplate, innerWidth: real, innerHeight: real)
      requires device.width > 0 && device.height > 0
      modifies this`displayScale
      ensures displayScale == DisplayScale(device, innerWidth, innerHeight)
    {
      var maxH := innerHeight * 0.6;
      var maxW := Min(360.0, innerWidth - 48.0);
      displayScale := Min(maxW / device.width as real, maxH / device.height as real);
    }

    /** The background's `onload`. */
    method OnBackgroundLoad(img: Raster)
      modifies this`bgImg
      ensures bgImg == Some(img)
    {
      bgImg := Some(img);
    }

    /**
     * The sticker loading effect: an id missing from the catalogue loads
     * nothing; otherwise the decoded asset becomes the sticker image.
     */
    method LoadSticker(animalId: string, decoded: Raster)
      requires Valid() && Decoded(decoded)
      modifies this`animalImg
      ensures Valid()
      ensures animalImg == if GetAnimalById(animalId).Some? then Some(decoded) else old(animalImg)
    {
      var animal := GetAnimalById(animalId);
      if animal.None? {
        return;
      }
      animalImg := Some(decoded);
    }

    /** The draw effect: nothing until the background has loaded. */
    method Draw(device: DeviceTemplate, stickerXPercent: real)
      requires Valid()
      modifies canvas
      ensures bgImg.None? ==> unchanged(canvas)
      ensures bgImg.Some? ==>
        && canvas.commands == old(canvas.commands) + PreviewCommands(device, displayScale, animalImg, stickerXPercent)
        && canvas.width == device.width as real * displayScale
        && canvas.height == device.height as real * displayScale
    {
      if bgImg.None? {
        return;
      }
      ghost var before := canvas.commands;
      var sc := displayScale;
      var dw := device.width as real * sc;
      var dh := device.height as real * sc;
      canvas.Resize(dw, dh);
      canvas.Emit(DrawImage(Background, Rect(0.0, 0.0, dw, dh)));
      assert canvas.commands == before + BackgroundLayer(dw, dh);
      DrawIsland(device, sc);
      ghost var drawn := BackgroundLayer(dw, dh) + IslandOverlay(device, sc);
      assert canvas.commands == before + drawn;
      if animalImg.Some? {
        DrawSticker(device, sc, animalImg.value, stickerXPercent);
      }
      assert canvas.commands == before + drawn + PreviewStickerPart(device, sc, animalImg, stickerXPercent);
      assert PreviewCommands(device, sc, animalImg, stickerXPercent) == drawn + PreviewStickerPart(device, sc, animalImg, stickerXPercent) by {
        var c := PreviewCommands(device, sc, animalImg, stickerXPercent);
        var layers := drawn + PreviewStickerPart(device, sc, animalImg, stickerXPercent);
        assert |c| == |layers|;
        assert forall i :: 0 <= i < |c| ==> c[i] == layers[i];
      }
    }

    /** The Dynamic Island overlay: a translucent rounded rectangle, scaled component-wise. */
    method DrawIsland(device: DeviceTemplate, sc: real)
      modifies canvas`commands
      ensures canvas.commands == old(canvas.commands) + IslandOverlay(device, sc)
    {
      var ir := device.islandRect;
      var irX := ir.x as real * sc;
      var irY := ir.y as real * sc;
      var irW := ir.w as real * sc;
      var irH := ir.h as real * sc;
      canvas.Emit(SetFillStyle(IslandFill));
      canvas.Emit(FillRoundRect(Rect(irX, irY, irW, irH), irH / 2.0));
      assert ScaledIsland(device, sc) == Rect(irX, irY, irW, irH);
    }

    /** The sticker with its drop shadow, drawn unsmoothed; the shadow is reset afterwards. */
    method DrawSticker(device: DeviceTemplate, sc: real, sticker: Raster, stickerXPercent: real)
      requires Decoded(sticker)
      modifies canvas`commands
      ensures canvas.commands == old(canvas.commands)
        + StickerLayer(ScaledStickerRect(StickerPlacement(device, sticker, stickerXPercent), sc), StickerShadow(sc))
    {
      ghost var before := canvas.commands;
      var pos := StickerPlacement(device, sticker, stickerXPercent);
      var dest := ScaledStickerRect(pos, sc);
      var shadow := Shadow(StickerShadowColor, 4.0 * sc, 0.0, 2.0 * sc);
      canvas.Emit(SetShadow(shadow));
      canvas.Emit(SetImageSmoothing(false));
      canvas.Emit(DrawImage(Sticker, dest));
      canvas.Emit(SetShadow(NoShadow));
      assert shadow == StickerShadow(sc);
      assert canvas.commands == before + StickerLayer(dest, shadow);
    }
  }
}
