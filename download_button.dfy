/**
 * The PNG export: the wallpaper drawn once more at the device's native
 * resolution on a fresh canvas, and the name of the downloaded file.
 */
module Export {
  import opened Wrappers
  import opened JsMath
  import opened Devices
  import opened Animals
  import opened Canvas2D
  import opened Preview

  /** The export's shadow: the preview's at scale 1, written with literal numbers. */
  const ExportShadow := Shadow(StickerShadowColor, 4.0, 0.0, 2.0)

  /** A placement used as a drawing rectangle, unscaled. */
  function NativeRect(pos: Placement): Rect
  {
    Rect(pos.x as real, pos.y as real, pos.w as real, pos.h as real)
  }

  /**
   * What the export issues: the canvas sized to the device and the
   * background filling it; then, only for a known animal, the sticker at its
   * native placement between a shadow set and a shadow reset. No island.
   */
  function ExportCommands(device: DeviceTemplate, animalId: string, sticker: Raster, stickerXPercent: real): seq<Command>
    requires Decoded(sticker)
  {
    BackgroundLayer(device.width as real, device.height as real)
    + (if GetAnimalById(animalId).Some?
       then StickerLayer(NativeRect(StickerPlacement(device, sticker, stickerXPercent)), ExportShadow)
       else [])
  }

  /** `wallpaper_{id}_{width}x{height}.png`. */
  function DownloadFileName(device: DeviceTemplate): string
  {
    "wallpaper_" + device.id + "_" + DecimalString(device.width) + "x" + DecimalString(device.height) + ".png"
  }

  /**
   * The download handler, with both image loads already settled and the
   * sticker's natural size given. It returns what was drawn and, when the
   * export reaches the download, the file name.
   */
  method HandleDownload(device: DeviceTemplate, animalId: string, stickerXPercent: real, sticker: Raster)
    returns (commands: seq<Command>, fileName: Option<string>)
    requires Decoded(sticker)
    ensures commands == ExportCommands(device, animalId, sticker, stickerXPercent)
    ensures fileName.Some? <==> GetAnimalById(animalId).Some?
    ensures fileName.Some? ==> fileName.value == DownloadFileName(device)
  {
    var canvas := new Canvas();
    canvas.Resize(device.width as real, device.height as real);
    canvas.Emit(DrawImage(Background, Rect(0.0, 0.0, device.width as real, device.height as real)));
    ghost var drawn := BackgroundLayer(device.width as real, device.height as real);
    assert canvas.commands == drawn;
    var animal := GetAnimalById(animalId);
    if animal.None? {
      assert drawn + [] == drawn;
      return canvas.commands, None;
    }
    var pos := GetStickerPosition(device, AspectWH(sticker), StickerHNative as real, stickerXPercent / 100.0);
    var dest := Rect(pos.x as real, pos.y as real, pos.w as real, pos.h as real);
    canvas.Emit(SetShadow(Shadow(StickerShadowColor, 4.0, 0.0, 2.0)));
    canvas.Emit(SetImageSmoothing(false));
    canvas.Emit(DrawImage(Sticker, dest));
    canvas.Emit(SetShadow(NoShadow));
    assert canvas.commands == drawn + StickerLayer(dest, ExportShadow);
    commands := canvas.commands;
    fileName := Some(DownloadFileName(device));
  }

  /**
   * Replayed on any canvas, the export leaves a canvas of exactly the device's
   * native size holding the background and, for a known animal, the shadowed
   * unsmoothed sticker: at most two images and no shape.
   */
  lemma ExportPaints(before: Surface, device: DeviceTemplate, animalId: string, sticker: Raster, stickerXPercent: real)
    requires Decoded(sticker)
    ensures var w, h := device.width as real, device.height as real;
      var after := Replay(before, ExportCommands(device, animalId, sticker, stickerXPercent));
      && after.width == w && after.height == h
      && after.ctx.shadow == NoShadow
      && after.paints ==
        [ImagePaint(Background, Rect(0.0, 0.0, w, h), NoShadow, true)]
        + (if GetAnimalById(animalId).Some?
           then [ImagePaint(Sticker, NativeRect(StickerPlacement(device, sticker, stickerXPercent)), ExportShadow, false)]
           else [])
  {
    var w, h := device.width as real, device.height as real;
    var bg := BackgroundLayer(w, h);
    var rest := if GetAnimalById(animalId).Some?
      then StickerLayer(NativeRect(StickerPlacement(device, sticker, stickerXPercent)), ExportShadow)
      else [];
    assert ExportCommands(device, animalId, sticker, stickerXPercent) == bg + rest;
    ReplayConcat(before, bg, rest);
    ReplayBackgroundLayer(before, w, h);
    var s1 := Replay(before, bg);
    if GetAnimalById(animalId).Some? {
      ReplayStickerLayer(s1, NativeRect(StickerPlacement(device, sticker, stickerXPercent)), ExportShadow);
    } else {
      assert rest == [];
    }
  }

  /**
   * Preview and export agree at scale 1: the preview's paints are the
   * export's with the island overlay between background and sticker, and
   * the sticker lands on the same rectangle with the same shadow.
   */
  lemma PreviewMatchesExportAtNativeScale(device: DeviceTemplate, animalId: string, sticker: Raster, stickerXPercent: real)
    requires Decoded(sticker) && GetAnimalById(animalId).Some?
    ensures var ex := Replay(BlankCanvas, ExportCommands(device, animalId, sticker, stickerXPercent)).paints;
      var pv := Replay(BlankCanvas, PreviewCommands(device, 1.0, Some(sticker), stickerXPercent)).paints;
      var island := ScaledIsland(device, 1.0);
      |ex| == 2 && pv == [ex[0], ShapePaint(island, island.h / 2.0, IslandFill, NoShadow), ex[1]]
  {
    var pos := StickerPlacement(device, sticker, stickerXPercent);
    ExportPaints(BlankCanvas, device, animalId, sticker, stickerXPercent);
    PreviewPaints(BlankCanvas, device, 1.0, Some(sticker), stickerXPercent);
    ScaledStickerAtNativeScale(pos);
    assert StickerShadow(1.0) == ExportShadow;
    assert ScaledStickerRect(pos, 1.0) == NativeRect(pos);
  }

  /** An unknown animal ends the export after the background: one image, and no file. */
  lemma UnknownAnimalStopsAfterBackground(device: DeviceTemplate, animalId: string, sticker: Raster, stickerXPercent: real)
    requires Decoded(sticker) && GetAnimalById(animalId).None?
    ensures ExportCommands(device, animalId, sticker, stickerXPercent) == BackgroundLayer(device.width as real, device.height as real)
    ensures |Replay(BlankCanvas, ExportCommands(device, animalId, sticker, stickerXPercent)).paints| == 1
  {
    ExportPaints(BlankCanvas, device, animalId, sticker, stickerXPercent);
    assert BackgroundLayer(device.width as real, device.height as real) + [] == BackgroundLayer(device.width as real, device.height as real);
  }

  /**
   * The file name reads `wallpaper_`, the id, `_`, then the width and the
   * height in decimal around an `x`, then `.png`; both numbers read back.
   */
  lemma FileNameEncodesResolution(device: DeviceTemplate)
    ensures var name := DownloadFileName(device);
      var prefix := "wallpaper_" + device.id + "_";
      var ws := DecimalString(device.width);
      var hs := DecimalString(device.height);
      && |name| == |prefix| + |ws| + 1 + |hs| + 4
      && name[..|prefix|] == prefix
      && DecimalValue(name[|prefix|..|prefix| + |ws|]) == device.width
      && name[|prefix| + |ws|] == 'x'
      && DecimalValue(name[|prefix| + |ws| + 1..|name| - 4]) == device.height
      && name[|name| - 4..] == ".png"
  {
    var name := DownloadFileName(device);
    var prefix := "wallpaper_" + device.id + "_";
    var ws := DecimalString(device.width);
    var hs := DecimalString(device.height);
    assert name == prefix + ws + "x" + hs + ".png";
    assert name[|prefix|..|prefix| + |ws|] == ws;
    assert name[|prefix| + |ws| + 1..|name| - 4] == hs;
    DecimalRoundTrip(device.width);
    DecimalRoundTrip(device.height);
  }

  lemma FileNameExample()
    ensures DownloadFileName(DeviceTemplates[2]) == "wallpaper_16pro_1206x2622.png"
  {
    assert DecimalString(1206) == "1206";
    assert DecimalString(2622) == "2622";
  }
}
