# iPhone wallpaper composer — verified model of its geometry

The application is a browser tool. It takes a photo, crops it to an
iPhone's native aspect ratio, and places a small pixel-art animal sticker
just above the phone's Dynamic Island. It shows a scaled preview and
exports a PNG at the device's native resolution. This project models
the tool's logic in Dafny and proves what that logic promises.

- `Devices` (`devices.dfy`) models the device registry:
  - ten iPhone templates and their island rectangles;
  - `groupDevices`, as a loop over a map plus the order in which buckets are created (the record's key order for labels that are not integer-like, as the registry's are);
  - `getStickerPosition`, the native-pixel sticker placement.

  JavaScript numbers are exact reals. `Math.round` is `JsMath.Round`, which rounds halves up.
- `Animals` (`animals.dfy`) models the sticker catalogue and its first-match lookup. The generic search is in `Seqs`.
- `Cropping` (`image_cropper.dfy`) models the crop controller as a class:
  - the initial largest centred fit;
  - an inclusive hit test on pointer-down;
  - translate-then-clamp on pointer-move;
  - pointer-up;
  - a commit that yields nothing without an image.

  Pointer positions arrive already in image coordinates. `PointerPos` is the conversion.
- `Canvas2D` (`canvas2d.dfy`) is an abstract 2D canvas.
  - Drawing appends commands.
  - `Replay` gives their meaning: the ordered paints, each with the shadow and smoothing in force.
  - Assigning the size clears the canvas and resets the context.
- `Preview` (`wallpaper_preview.dfy`) models the preview component:
  - the display-scale formula;
  - the loading effects;
  - the draw effect, as a method that appends commands to the canvas.
- `Export` (`download_button.dfy`) models the native-resolution export sequence and the download file name.
- `Wizard` (`editor_page.dfy`) models the five-step editor page:
  - normalisation of the restored session state, over a JSON value datatype;
  - the initial state;
  - the forward handlers, the step bar and the back button;
  - which view is shown.

## Model

| member | source | states |
|---|---|---|
| Devices.RegistryIslandsInside | app/lib/devices.ts:28-124 | every template's island has positive size and lies inside the screen (`x+w <= width`, `y+h <= height`); every screen has positive size |
| Devices.RegistryIdsDistinct | app/lib/devices.ts:40-124 | template ids are pairwise distinct |
| Devices.SameResolutionSameIsland | app/lib/devices.ts:28-38 | two templates with the same native resolution carry the same island rectangle |
| Devices.FindDevice | app/page.tsx:67 | a found template is in the registry and has the id; nothing is found exactly when no template has the id |
| Devices.GroupDevices | app/lib/devices.ts:127-134 | the keys are exactly the group labels, in first-appearance order; each bucket holds the templates with that label, in registry order |
| Devices.GroupLabelsComplete | app/lib/devices.ts:127-134 | a label is a key exactly when some template carries it |
| Devices.GroupLabelsDistinct | app/lib/devices.ts:127-134 | no label becomes a key twice |
| Devices.BucketPositions | app/lib/devices.ts:129-132 | a bucket is the list filtered to its label: it comes from increasing positions, exactly those whose template has the label, so each template lands in exactly one bucket |
| Devices.RegistryGroups | app/lib/devices.ts:127-134 | the registry gives the groups "iPhone 16", "iPhone 15", "iPhone 14", in that order |
| Devices.GetStickerPosition | app/lib/devices.ts:145-171 | `h = max(1, round(chosenH))`; `w = max(1, round(h*aspect))`, both at least 1; `y = max(0, island.y - h - 2)`, never negative; `x` lies in `[island.x, max(island.x, island.x+island.w-w)]` |
| Devices.ClampRatio | app/lib/devices.ts:163 | the ratio is clamped into [0, 1]: kept when inside, 0 below, 1 above |
| Devices.InterpolateX | app/lib/devices.ts:158-167 | the rounded, clamped interpolation stays between its two bounds |
| Devices.StickerYIndependentOfRatio | app/lib/devices.ts:152-168 | `y`, `w` and `h` do not depend on the horizontal ratio |
| Devices.StickerXInterpolates | app/lib/devices.ts:158-167 | when the sticker is no wider than the island, `x = round(island.x + t*(island.w - w))` with `t` the clamped ratio |
| Devices.StickerXMonotonic | app/lib/devices.ts:158-167 | `x` never decreases as the ratio grows |
| Devices.StickerEndpoints | app/lib/devices.ts:158-167 | for a sticker no wider than the island, ratio 0 (or less) gives `island.x`, ratio 1 (or more) gives `island.x+island.w-w`, and the sticker never extends past the island's right edge |
| Devices.StickerPinnedWhenWide | app/lib/devices.ts:158-162 | a sticker wider than the island sits at `island.x` for every ratio |
| Devices.DefaultHeightTopsOut | app/lib/devices.ts:140-168 | with the default height 32, every registry device gives `y = 0` |
| Devices.WorkedExample | app/lib/devices.ts:145-171 | 1179x2556, aspect 0.8, height 32, ratio 0.5 gives `{x: 577, y: 0, w: 26, h: 32}` |
| JsMath.Round | app/lib/devices.ts:152-168 | `Math.round`: the result is within half a unit of the argument; a tie goes up |
| JsMath.DecimalString | app/components/DownloadButton.tsx:76 | the text interpolated for a number is non-empty and all digits, with a leading zero only for zero |
| JsMath.DecimalRoundTrip | app/components/DownloadButton.tsx:76 | reading the decimal text back gives the number |
| Seqs.Find | app/lib/animals.ts:17 | `find`: a result is an element that satisfies the predicate; there is no result exactly when no element does |
| Seqs.FindIsFirst | app/lib/animals.ts:17 | `find` returns the earliest element that satisfies the predicate |
| Animals.GetAnimalById | app/lib/animals.ts:16-18 | a result is a catalogue entry whose id equals the query; `undefined` exactly when no entry has that id |
| Animals.GetAnimalByIdFirst | app/lib/animals.ts:17 | the result is the first matching entry in catalogue order |
| Animals.CatalogueWellFormed | app/lib/animals.ts:7-14 | catalogue ids are distinct, and every `src` is `"/animals/" + id + ".png"` |
| Animals.EveryStickerFound | app/lib/animals.ts:7-18 | every catalogue entry is found by its own id |
| Canvas2D.AspectWH | app/components/WallpaperPreview.tsx:86 | the sticker aspect is positive, and aspect times natural height equals natural width |
| Preview.DisplayScale | app/components/WallpaperPreview.tsx:31-35 | the scaled device fits both `min(360, innerWidth-48)` and `0.6*innerHeight`, and meets one of the two bounds exactly |
| Preview.WallpaperPreview.constructor | app/components/WallpaperPreview.tsx:24-27 | the preview starts at scale 1, with no images and an empty canvas |
| Preview.WallpaperPreview.UpdateScale | app/components/WallpaperPreview.tsx:31-36 | the display scale becomes the formula's value on every call; there is no threshold or debounce |
| Preview.WallpaperPreview.OnBackgroundLoad | app/components/WallpaperPreview.tsx:43-47 | the loaded background is recorded |
| Preview.WallpaperPreview.LoadSticker | app/components/WallpaperPreview.tsx:50-56 | an id missing from the catalogue never loads a sticker; a known id records its decoded image |
| Preview.WallpaperPreview.Draw | app/components/WallpaperPreview.tsx:59-113 | without a loaded background the canvas is untouched; otherwise it is sized `width*s x height*s` and receives background, island overlay and (if loaded) the sticker layer, in that order |
| Preview.WallpaperPreview.DrawIsland | app/components/WallpaperPreview.tsx:72-82 | appends the fill colour and the island rectangle, scaled component-wise by `s`, with radius half its scaled height |
| Preview.WallpaperPreview.DrawSticker | app/components/WallpaperPreview.tsx:85-111 | appends the shadow (blur `4s`, offset `(0, 2s)`), smoothing off, the sticker at the scaled placement, then the shadow reset |
| Preview.ReplayBackgroundLayer | app/components/WallpaperPreview.tsx:64-70 | sizing the canvas resets its context, and the background then fills it as the only paint |
| Preview.ReplayIslandOverlay | app/components/WallpaperPreview.tsx:72-82 | the overlay adds one rounded-rectangle paint in the overlay colour, radius half its height |
| Preview.ReplayStickerLayer | app/components/WallpaperPreview.tsx:98-111 | the sticker is painted with the shadow just set and smoothing off, and the context ends with no shadow |
| Preview.PreviewPaints | app/components/WallpaperPreview.tsx:59-113 | the preview leaves a canvas of the scaled size, no shadow in force, and exactly these paints: background (no shadow, smoothed), island (no shadow), then the sticker (its shadow, unsmoothed) only if loaded |
| Preview.ScaledStickerWithinOnePixel | app/components/WallpaperPreview.tsx:93-96 | the drawn rectangle is within half a pixel of `pos*s` in position, and within one pixel in size |
| Preview.ScaledStickerAtNativeScale | app/components/WallpaperPreview.tsx:93-96 | at scale 1 the drawn rectangle is the native placement itself |
| Cropping.CanvasScale | app/components/ImageCropper.tsx:31-32 | scale times the image width is `min(600, innerWidth-48)` |
| Cropping.PointerPos | app/components/ImageCropper.tsx:105-114 | the image-space point, multiplied by the scale, gives the client offset from the canvas's corner |
| Cropping.InitialCrop | app/components/ImageCropper.tsx:38-53 | `w = h*ratio`; one side spans the full image dimension; the rectangle fits inside the image and is centred |
| Cropping.InitialCropIsLargest | app/components/ImageCropper.tsx:38-53 | no rectangle with the same ratio that fits the image is wider or taller than the initial crop |
| Cropping.Dragged | app/components/ImageCropper.tsx:137-143 | `w` and `h` are kept; the origin is never negative and keeps the rectangle inside when it fits; within range the origin follows the pointer's offset from the anchor exactly; an overshoot sticks to the nearest edge (0, or `imgW-w` / `imgH-h` floored at 0) |
| Cropping.DraggedForgetsEarlierMoves | app/components/ImageCropper.tsx:137-142 | a move depends only on the latest pointer position relative to the anchor, not on earlier moves |
| Cropping.DraggedBackToStart | app/components/ImageCropper.tsx:137-142 | returning the pointer to the anchor restores a fitting rectangle |
| Cropping.ImageCropper.constructor | app/components/ImageCropper.tsx:17-22 | no image, a zero rectangle, not dragging, scale 1 |
| Cropping.ImageCropper.OnImageLoad | app/components/ImageCropper.tsx:27-54 | records the image, sets the canvas scale and size, and sets the initial crop; the crop invariant (ratio and fit) holds afterwards |
| Cropping.ImageCropper.PointerDown | app/components/ImageCropper.tsx:116-131 | a press inside the rectangle, edges included, starts a drag anchored at the press and the current origin; elsewhere nothing changes |
| Cropping.ImageCropper.PointerMove | app/components/ImageCropper.tsx:133-146 | does nothing unless dragging with an image loaded; otherwise only the origin changes, as `Dragged` says, and the crop invariant is kept |
| Cropping.ImageCropper.PointerUp | app/components/ImageCropper.tsx:148-150 | dragging is always cleared |
| Cropping.ImageCropper.Commit | app/components/ImageCropper.tsx:152-160 | nothing without an image; otherwise a `crop.w x crop.h` output copied from source region `(crop.x, crop.y, crop.w, crop.h)`, inside the image and with the target ratio |
| Export.HandleDownload | app/components/DownloadButton.tsx:24-80 | issues exactly the export sequence; a file name is produced exactly when the animal id is known, and it is `wallpaper_{id}_{width}x{height}.png` |
| Export.ExportPaints | app/components/DownloadButton.tsx:25-68 | the export canvas is exactly `width x height`; the paints are the background filling it, then (for a known id only) the sticker at its native placement with blur 4 and offset `(0, 2)`, unsmoothed; there is no island and the shadow is cleared at the end |
| Export.PreviewMatchesExportAtNativeScale | app/components/DownloadButton.tsx:47-62 | at scale 1 the preview's paints are the export's two paints with the island between them: same sticker rectangle, same shadow |
| Export.UnknownAnimalStopsAfterBackground | app/components/DownloadButton.tsx:39-40 | an unknown id stops the export after the background: one paint |
| Export.FileNameEncodesResolution | app/components/DownloadButton.tsx:76 | the name is `wallpaper_` + id + `_`, then the width, `x`, the height and `.png`; both numbers read back from it |
| Export.FileNameExample | app/components/DownloadButton.tsx:76 | the iPhone 16 Pro file is `wallpaper_16pro_1206x2622.png` |
| Wizard.StepIndex | app/page.tsx:23 | `STEP_ORDER.indexOf` is in range and points back at the step |
| Wizard.StepIndexInjective | app/page.tsx:23 | the order lists each step once |
| Wizard.ParseStep | app/page.tsx:34-36 | `isStep` on a string: a result's name is the string; there is no result exactly when no step has that name |
| Wizard.ParseStepName | app/page.tsx:34-36 | every step name is accepted as its own step |
| Wizard.StringOrNull | app/page.tsx:48-52 | a string field is kept; anything else becomes null |
| Wizard.NumberOr50 | app/page.tsx:53-54 | a number is kept; anything else becomes 50 |
| Wizard.Normalise | app/page.tsx:44-55 | null exactly when `step` is not a valid step name; otherwise each field is coerced as above |
| Wizard.ReadPersistedEditorState | app/page.tsx:38-59 | outside the browser, with a missing or empty stored string, or with unparsable text, the result is null; otherwise it is the normalised parse |
| Wizard.NormaliseSerialise | app/page.tsx:84-94 | the record the persistence effect writes normalises back to itself |
| Wizard.ResolveDevice | app/page.tsx:65-68 | a restored device is the registry template with the stored id; a missing, empty or unknown id gives null |
| Wizard.FindRegisteredDevice | app/page.tsx:67 | looking up a registered template's id finds that template |
| Wizard.StepBarTarget | app/page.tsx:142-144 | the step bar never moves forward; it jumps to button `i` only when `i` is strictly earlier, and otherwise keeps the step |
| Wizard.BackTarget | app/page.tsx:231-234 | back moves exactly one step back, and stays put on the first step |
| Wizard.BackIsPreviousStepBarButton | app/page.tsx:229-234 | where the back button is shown, it does the same as the step-bar button just before the current step |
| Wizard.NextStep | app/page.tsx:23 | every step but the last has a successor, at the next index |
| Wizard.CurrentView | app/page.tsx:172-227 | the cropper shows exactly when the step is crop with a device and a non-empty raw image, with ratio `width/height`; the preview shows exactly when the step is preview with a device, a non-empty cropped image and an animal id |
| Wizard.SliderRatio | app/page.tsx:201-207 | a slider position 0..100 divided by 100 lies in [0, 1], so the placement's clamp keeps it |
| Wizard.Editor.constructor | app/page.tsx:62-80 | with nothing restored: step device, percent 50, everything else null; otherwise the restored fields, with the device resolved through the registry, so it is a registry template |
| Wizard.Editor.Snapshot | app/page.tsx:84-91 | the persisted record carries the step, the device's id (or null) and the other fields unchanged |
| Wizard.Editor.SelectDevice | app/page.tsx:102-105 | stores the device and goes to upload, the step after device; nothing else changes; the held device stays a registry template |
| Wizard.Editor.ImageLoaded | app/page.tsx:107-110 | stores the raw image and goes to crop, the step after upload; nothing else changes |
| Wizard.Editor.CropDone | app/page.tsx:112-115 | stores the cropped image and goes to animal, the step after crop; nothing else changes |
| Wizard.Editor.SelectAnimal | app/page.tsx:117-120 | stores the animal id and goes to preview, the step after animal; nothing else changes |
| Wizard.Editor.SetStickerXPercent | app/page.tsx:201-207 | the slider's integer value 0..100 becomes the percent |
| Wizard.Editor.StepBarClick | app/page.tsx:139-145 | the step becomes the step-bar target |
| Wizard.Editor.Back | app/page.tsx:229-234 | the step moves exactly one back |
| Wizard.ReloadRestores | app/page.tsx:62-98 | after a reload, the written record reads back unchanged and the stored device id resolves to the same registry device |

## Behaviour worth knowing

The model states what the code does in these places, which a reader might expect to be otherwise:

- The worked sticker example gives `x = 577`, which is `466 + 0.5 * 222`.
- Committing a crop before the image has loaded returns silently. `onCropDone` is not called and no error is signalled.
- The display scale is recomputed on every resize. There is no debounce and no change threshold.
- The preview draws the island overlay. The export does not draw it (app/components/DownloadButton.tsx:36-62).

## Left out

- Pixels are not modelled: image resampling, rounded-rectangle filling, shadow blur, PNG encoding, data URLs, blobs and the anchor-click download. Drawing is an abstract command list.
- Three groups of canvas calls are each one command:
  - the four `shadow*` assignments are one shadow command;
  - `beginPath`/`roundRect`/`fill` are one rounded-rectangle command;
  - the `width` and `height` assignments are one size command.
- Browsers truncate a canvas size that is not an integer. This is not modelled, and sizes stay exact reals.
- Image loading is asynchronous. Images are inputs here, already decoded, with positive natural sizes. The source has no error handler, so a failed decode leaves the awaits pending forever. No error path is invented.
- I/O is left out:
  - the session-storage read and write, and the swallowing of quota errors;
  - the `JSON.parse` and `JSON.stringify` text formats (parsing is a function parameter);
  - window listeners and viewport reads (viewport sizes are parameters);
  - pointer capture, and the canvas bounding rectangle (its corner is a parameter of `PointerPos`).
- Floating point is left out: numbers are exact reals, so NaN, infinities and rounding error are absent. `typeof x === "number"` would accept NaN.
- Cropping.PointerPos: requires a non-zero scale. A window 48 px wide or narrower gives a scale of zero or less, which the source divides by.
- Cropping.InitialCrop: requires a positive target ratio. The page always passes `device.width / device.height` of a registry device.
- Wizard.CurrentView: requires the device to be a registry device. Devices come only from the selector or from the registry lookup.
- Wizard.Editor.SelectDevice: requires the picked device to be a registry template. The device selector, which is not part of this model, offers only those.
- Wizard.Editor.Back: requires the back button to be shown, i.e. the step is not the first. The button is not rendered on the first step.
- Export.HandleDownload: returns the file name whenever the sticker was drawn. The case where `toBlob` yields no blob, so nothing is downloaded, is not modelled.
- The cropper's own draw effect is not modelled: the dimming, clipping, border and rule-of-thirds grid at app/components/ImageCropper.tsx:58-103. It is display-only and feeds nothing back into the state.
- Markup and styling are not modelled: the step labels, the header, the step-bar colours and the rounded percent label.
- Pixel-animal rendering, the view page, the uploader, the selectors, the layout and the credits page are not part of this model.
