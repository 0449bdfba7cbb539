/**
 * The device template registry and the sticker placement rule
 * (app/lib/devices.ts): ten iPhone templates with their native resolution and
 * Dynamic Island rectangle, grouping of templates by label, and the pure
 * computation of the sticker rectangle in native pixels.
 */
module Devices {
  import opened Wrappers
  import opened Seqs
  import opened JsMath

  /** The Dynamic Island at native resolution, measured from the top-left corner. */
  datatype IslandRect = IslandRect(x: int, y: int, w: int, h: int)

  datatype DeviceTemplate = DeviceTemplate(
    id: string,
    name: string,
    width: nat,
    height: nat,
    group: string,
    islandRect: IslandRect)

  /** A sticker rectangle in native device pixels. */
  datatype Placement = Placement(x: int, y: int, w: int, h: int)

  // One island constant per native resolution, shared by every template of that size.
  const Island1179 := IslandRect(466, 30, 248, 72)
  const Island1290 := IslandRect(509, 33, 272, 78)
  const Island1206 := IslandRect(479, 30, 248, 72)
  const Island1320 := IslandRect(524, 33, 272, 78)

  const DeviceTemplates: seq<DeviceTemplate> := [
    DeviceTemplate("16", "iPhone 16", 1179, 2556, "iPhone 16", Island1179),
    DeviceTemplate("16plus", "iPhone 16 Plus", 1290, 2796, "iPhone 16", Island1290),
    DeviceTemplate("16pro", "iPhone 16 Pro", 1206, 2622, "iPhone 16", Island1206),
    DeviceTemplate("16promax", "iPhone 16 Pro Max", 1320, 2868, "iPhone 16", Island1320),
    DeviceTemplate("15", "iPhone 15", 1179, 2556, "iPhone 15", Island1179),
    DeviceTemplate("15plus", "iPhone 15 Plus", 1290, 2796, "iPhone 15", Island1290),
    DeviceTemplate("15pro", "iPhone 15 Pro", 1179, 2556, "iPhone 15", Island1179),
    DeviceTemplate("15promax", "iPhone 15 Pro Max", 1290, 2796, "iPhone 15", Island1290),
    DeviceTemplate("14pro", "iPhone 14 Pro", 1179, 2556, "iPhone 14", Island1179),
    DeviceTemplate("14promax", "iPhone 14 Pro Max", 1290, 2796, "iPhone 14", Island1290)
  ]

  /** Default sticker height in native pixels. */
  const StickerHNative: int := 32
  /** Gap between the sticker's bottom edge and the island's top edge (negative: above it). */
  const YOffsetPx: int := -2

  ghost predicate IslandInsideScreen(d: DeviceTemplate)
  {
    && 0 <= d.islandRect.x && 0 <= d.islandRect.y
    && 0 < d.islandRect.w && 0 < d.islandRect.h
    && d.islandRect.x + d.islandRect.w <= d.width
    && d.islandRect.y + d.islandRect.h <= d.height
  }

  /** Every island lies inside its screen, and every screen has positive size. */
  lemma RegistryIslandsInside()
    ensures forall i :: 0 <= i < |DeviceTemplates| ==>
      IslandInsideScreen(DeviceTemplates[i]) && DeviceTemplates[i].width > 0 && DeviceTemplates[i].height > 0
  {
  }

  /** Template ids are pairwise distinct, so a lookup by id is unambiguous. */
  lemma RegistryIdsDistinct()
    ensures forall i, j :: 0 <= i < j < |DeviceTemplates| ==> DeviceTemplates[i].id != DeviceTemplates[j].id
  {
  }

  /** Templates with the same native resolution carry the same island value. */
  lemma SameResolutionSameIsland()
    ensures forall i, j ::
      (0 <= i < |DeviceTemplates| && 0 <= j < |DeviceTemplates| &&
       DeviceTemplates[i].width == DeviceTemplates[j].width &&
       DeviceTemplates[i].height == DeviceTemplates[j].height) ==>
        DeviceTemplates[i].islandRect == DeviceTemplates[j].islandRect
  {
  }

  /** The template with the given id, if any (the first one, as `find` returns it). */
  function FindDevice(id: string): (r: Option<DeviceTemplate>)
    ensures r.Some? ==> r.value in DeviceTemplates && r.value.id == id
    ensures r.None? <==> forall i :: 0 <= i < |DeviceTemplates| ==> DeviceTemplates[i].id != id
  {
    Find(DeviceTemplates, (d: DeviceTemplate) => d.id == id)
  }

  // ---- groupDevices ----

  /** Group labels in order of first appearance. */
  function GroupLabels(ds: seq<DeviceTemplate>): seq<string>
  {
    if ds == [] then []
    else
      var prev := GroupLabels(ds[..|ds| - 1]);
      var g := ds[|ds| - 1].group;
      if g in prev then prev else prev + [g]
  }

  /** The templates carrying label `g`, in registry order. */
  function Bucket(ds: seq<DeviceTemplate>, g: string): seq<DeviceTemplate>
  {
    if ds == [] then []
    else Bucket(ds[..|ds| - 1], g) + (if ds[|ds| - 1].group == g then [ds[|ds| - 1]] else [])
  }

  /**
   * `groupDevices`: one bucket per label, filled in a single pass. `order` is
   * the order in which the buckets are created. JavaScript lists a record's
   * keys in that order only when none is integer-like (such keys come
   * first, ascending); the registry's labels are not integer-like.
   */
  method GroupDevices(ds: seq<DeviceTemplate>) returns (groups: map<string, seq<DeviceTemplate>>, order: seq<string>)
    ensures order == GroupLabels(ds)
    ensures forall g :: g in groups <==> g in order
    ensures forall g :: g in groups ==> groups[g] == Bucket(ds, g)
  {
    groups, order := map[], [];
    for i := 0 to |ds|
      invariant order == GroupLabels(ds[..i])
      invariant forall g :: g in groups <==> g in order
      invariant forall g :: g in groups ==> groups[g] == Bucket(ds[..i], g)
      invariant forall g :: g !in groups ==> Bucket(ds[..i], g) == []
    {
      var d := ds[i];
      assert ds[..i + 1][..i] == ds[..i];
      if d.group !in groups {
        groups := groups[d.group := []];
        order := order + [d.group];
      }
      groups := groups[d.group := groups[d.group] + [d]];
    }
    assert ds[..|ds|] == ds;
  }

  /** A label is a key exactly when some template carries it. */
  lemma {:induction false} GroupLabelsComplete(ds: seq<DeviceTemplate>, g: string)
    ensures g in GroupLabels(ds) <==> exists i :: 0 <= i < |ds| && ds[i].group == g
  {
    if ds != [] {
      var n := |ds| - 1;
      GroupLabelsComplete(ds[..n], g);
      if g in GroupLabels(ds[..n]) {
        var i :| 0 <= i < n && ds[..n][i].group == g;
        assert ds[i].group == g;
      }
      if exists i :: 0 <= i < |ds| && ds[i].group == g {
        var i :| 0 <= i < |ds| && ds[i].group == g;
        if i < n { assert ds[..n][i].group == g; }
      }
    }
  }

  /** Each label is a key once: the buckets are created in first-appearance order without repeats. */
  lemma {:induction false} GroupLabelsDistinct(ds: seq<DeviceTemplate>)
    ensures forall i, j :: 0 <= i < j < |GroupLabels(ds)| ==> GroupLabels(ds)[i] != GroupLabels(ds)[j]
  {
    if ds != [] {
      GroupLabelsDistinct(ds[..|ds| - 1]);
    }
  }

  /**
   * The bucket for `g` is the registry filtered to label `g`, in order: the
   * positions it comes from increase, and they are exactly the positions
   * whose template carries `g`. So every template lands in exactly one bucket.
   */
  lemma {:induction false} BucketPositions(ds: seq<DeviceTemplate>, g: string) returns (idx: seq<int>)
    ensures |idx| == |Bucket(ds, g)|
    ensures forall k :: 0 <= k < |idx| ==> 0 <= idx[k] < |ds| && ds[idx[k]] == Bucket(ds, g)[k]
    ensures forall k, l :: 0 <= k < l < |idx| ==> idx[k] < idx[l]
    ensures forall j :: 0 <= j < |ds| ==> (ds[j].group == g <==> j in idx)
  {
    if ds == [] {
      idx := [];
    } else {
      var n := |ds| - 1;
      var prev := BucketPositions(ds[..n], g);
      assert forall k :: 0 <= k < |prev| ==> ds[prev[k]] == ds[..n][prev[k]];
      assert forall j :: 0 <= j < n ==> ds[j] == ds[..n][j];
      if ds[n].group == g {
        idx := prev + [n];
      } else {
        idx := prev;
      }
    }
  }

  lemma LabelsStep(ds: seq<DeviceTemplate>, d: DeviceTemplate)
    ensures GroupLabels(ds + [d]) ==
      if d.group in GroupLabels(ds) then GroupLabels(ds) else GroupLabels(ds) + [d.group]
  {
    assert (ds + [d])[..|ds|] == ds;
  }

  /** The registry yields three groups, newest first. */
  lemma RegistryGroups()
    ensures GroupLabels(DeviceTemplates) == ["iPhone 16", "iPhone 15", "iPhone 14"]
  {
    var t := DeviceTemplates;
    LabelsStep(t[..0], t[0]); assert t[..1] == t[..0] + [t[0]];
    LabelsStep(t[..1], t[1]); assert t[..2] == t[..1] + [t[1]];
    LabelsStep(t[..2], t[2]); assert t[..3] == t[..2] + [t[2]];
    LabelsStep(t[..3], t[3]); assert t[..4] == t[..3] + [t[3]];
    LabelsStep(t[..4], t[4]); assert t[..5] == t[..4] + [t[4]];
    LabelsStep(t[..5], t[5]); assert t[..6] == t[..5] + [t[5]];
    LabelsStep(t[..6], t[6]); assert t[..7] == t[..6] + [t[6]];
    LabelsStep(t[..7], t[7]); assert t[..8] == t[..7] + [t[7]];
    LabelsStep(t[..8], t[8]); assert t[..9] == t[..8] + [t[8]];
    LabelsStep(t[..9], t[9]); assert t[..10] == t[..9] + [t[9]];
    assert t[..10] == t;
  }

  // ---- getStickerPosition ----

  /**
   * `getStickerPosition`: the sticker's height and width are rounded and
   * floored at 1; its top sits `-YOffsetPx` pixels above the island's top,
   * clamped only at the top of the screen; its left edge is interpolated by the
   * clamped `xRatio` between the island's left edge and the rightmost position
   * that keeps it inside the island's span (pinned left if it is wider).
   */
  function GetStickerPosition(device: DeviceTemplate, stickerAspectWH: real, chosenH: real, xRatio: real): (p: Placement)
    ensures p.h == MaxInt(1, Round(chosenH)) && p.h >= 1
    ensures p.w == MaxInt(1, Round(p.h as real * stickerAspectWH)) && p.w >= 1
    ensures p.y == MaxInt(0, device.islandRect.y - p.h + YOffsetPx) && p.y >= 0
    ensures device.islandRect.x <= p.x <= MaxInt(device.islandRect.x, device.islandRect.x + device.islandRect.w - p.w)
  {
    var ir := device.islandRect;
    var h := MaxInt(1, Round(chosenH));
    var w := MaxInt(1, Round(h as real * stickerAspectWH));
    var yRaw := ir.y - h + YOffsetPx;
    var minX := ir.x;
    var maxX := MaxInt(minX, ir.x + ir.w - w);
    var x := InterpolateX(minX, maxX, xRatio);
    var y := Round(Max(0.0, yRaw as real));
    RoundOfInteger(MaxInt(0, yRaw));
    Placement(x, y, w, h)
  }

  /** The horizontal step of `getStickerPosition`: interpolate by the clamped ratio, clamp, round. */
  function InterpolateX(minX: int, maxX: int, xRatio: real): (x: int)
    requires minX <= maxX
    ensures minX <= x <= maxX
  {
    var c := ClampedX(minX, maxX, xRatio);
    RoundOfInteger(minX);
    RoundOfInteger(maxX);
    RoundMonotonic(minX as real, c);
    RoundMonotonic(c, maxX as real);
    Round(c)
  }

  /** `max(minX, min(minX + t * (maxX - minX), maxX))` before rounding. */
  function ClampedX(minX: int, maxX: int, xRatio: real): (c: real)
    requires minX <= maxX
    ensures minX as real <= c <= maxX as real
  {
    var xRaw := minX as real + ClampRatio(xRatio) * (maxX - minX) as real;
    Max(minX as real, Min(xRaw, maxX as real))
  }

  /** The interpolation weight: `xRatio` clamped to [0, 1]. */
  function ClampRatio(xRatio: real): (t: real)
    ensures 0.0 <= t <= 1.0
    ensures 0.0 <= xRatio <= 1.0 ==> t == xRatio
    ensures xRatio < 0.0 ==> t == 0.0
    ensures xRatio > 1.0 ==> t == 1.0
  {
    Max(0.0, Min(1.0, xRatio))
  }

  /** Size and vertical position do not depend on the horizontal ratio. */
  lemma StickerYIndependentOfRatio(d: DeviceTemplate, aspect: real, chosenH: real, r1: real, r2: real)
    ensures GetStickerPosition(d, aspect, chosenH, r1).y == GetStickerPosition(d, aspect, chosenH, r2).y
    ensures GetStickerPosition(d, aspect, chosenH, r1).w == GetStickerPosition(d, aspect, chosenH, r2).w
    ensures GetStickerPosition(d, aspect, chosenH, r1).h == GetStickerPosition(d, aspect, chosenH, r2).h
  {
  }

  /** When the sticker fits in the island, `x` is the rounded linear interpolation. */
  lemma StickerXInterpolates(d: DeviceTemplate, aspect: real, chosenH: real, xRatio: real)
    requires GetStickerPosition(d, aspect, chosenH, xRatio).w <= d.islandRect.w
    ensures var p := GetStickerPosition(d, aspect, chosenH, xRatio);
      p.x == Round(d.islandRect.x as real + ClampRatio(xRatio) * (d.islandRect.w - p.w) as real)
  {
    var p := GetStickerPosition(d, aspect, chosenH, xRatio);
    var ir := d.islandRect;
    var minX, maxX := ir.x, MaxInt(ir.x, ir.x + ir.w - p.w);
    assert maxX == ir.x + ir.w - p.w;
    var t := ClampRatio(xRatio);
    var span := (maxX - minX) as real;
    assert 0.0 <= t * span <= span by {
      assert span >= 0.0;
    }
    assert ClampedX(minX, maxX, xRatio) == minX as real + t * span;
    assert p.x == InterpolateX(minX, maxX, xRatio);
  }

  /** Moving the slider right never moves the sticker left. */
  lemma StickerXMonotonic(d: DeviceTemplate, aspect: real, chosenH: real, r1: real, r2: real)
    requires r1 <= r2
    ensures GetStickerPosition(d, aspect, chosenH, r1).x <= GetStickerPosition(d, aspect, chosenH, r2).x
  {
    var ir := d.islandRect;
    var w := GetStickerPosition(d, aspect, chosenH, r1).w;
    InterpolateXMonotonic(ir.x, MaxInt(ir.x, ir.x + ir.w - w), r1, r2);
  }

  lemma InterpolateXMonotonic(minX: int, maxX: int, r1: real, r2: real)
    requires minX <= maxX && r1 <= r2
    ensures InterpolateX(minX, maxX, r1) <= InterpolateX(minX, maxX, r2)
  {
    var t1, t2 := ClampRatio(r1), ClampRatio(r2);
    ClampRatioMonotonic(r1, r2);
    var span := (maxX - minX) as real;
    ScaleMonotonic(t1, t2, span);
    var a1, a2 := minX as real + t1 * span, minX as real + t2 * span;
    assert a1 <= a2;
    assert Min(a1, maxX as real) <= Min(a2, maxX as real);
    assert ClampedX(minX, maxX, r1) == Max(minX as real, Min(a1, maxX as real));
    assert ClampedX(minX, maxX, r2) == Max(minX as real, Min(a2, maxX as real));
    RoundMonotonic(ClampedX(minX, maxX, r1), ClampedX(minX, maxX, r2));
  }

  lemma ClampRatioMonotonic(r1: real, r2: real)
    requires r1 <= r2
    ensures ClampRatio(r1) <= ClampRatio(r2)
  {
    assert Min(1.0, r1) <= Min(1.0, r2);
  }

  lemma ScaleMonotonic(a: real, b: real, c: real)
    requires a <= b && 0.0 <= c
    ensures a * c <= b * c
  {
  }

  /**
   * A sticker no wider than the island starts at the island's left edge for
   * ratio 0, ends at its right edge for ratio 1, and never leaves its span.
   */
  lemma StickerEndpoints(d: DeviceTemplate, aspect: real, chosenH: real, xRatio: real)
    requires GetStickerPosition(d, aspect, chosenH, xRatio).w <= d.islandRect.w
    ensures var p := GetStickerPosition(d, aspect, chosenH, xRatio);
      && p.x + p.w <= d.islandRect.x + d.islandRect.w
      && (xRatio <= 0.0 ==> p.x == d.islandRect.x)
      && (xRatio >= 1.0 ==> p.x == d.islandRect.x + d.islandRect.w - p.w)
  {
    var ir := d.islandRect;
    var p := GetStickerPosition(d, aspect, chosenH, xRatio);
    if xRatio <= 0.0 {
      RoundOfInteger(ir.x);
    }
    if xRatio >= 1.0 {
      RoundOfInteger(ir.x + ir.w - p.w);
    }
  }

  /** A sticker wider than the island is pinned to the island's left edge for every ratio. */
  lemma StickerPinnedWhenWide(d: DeviceTemplate, aspect: real, chosenH: real, xRatio: real)
    requires GetStickerPosition(d, aspect, chosenH, xRatio).w > d.islandRect.w
    ensures GetStickerPosition(d, aspect, chosenH, xRatio).x == d.islandRect.x
  {
  }

  /** With the default height every registry device puts the sticker at the top of the screen. */
  lemma DefaultHeightTopsOut(aspect: real, xRatio: real)
    ensures forall i :: 0 <= i < |DeviceTemplates| ==>
      GetStickerPosition(DeviceTemplates[i], aspect, StickerHNative as real, xRatio).y == 0
  {
    RoundOfInteger(StickerHNative);
  }

  /** The worked example: iPhone 16, aspect 0.8, height 32, centred. */
  lemma WorkedExample()
    ensures GetStickerPosition(DeviceTemplates[0], 0.8, 32.0, 0.5) == Placement(577, 0, 26, 32)
  {
    RoundOfInteger(32);
    RoundOfInteger(577);
    assert Round(32.0 * 0.8) == 26;
  }
}
