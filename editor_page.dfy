/**
 * The editor page: a five-step wizard (device, upload, crop, animal,
 * preview) whose state survives a reload through session storage. The
 * stored text is parsed elsewhere; this module validates and normalises the
 * parsed value, resolves the initial state, and moves between steps.
 */
module Wizard {
  import opened Wrappers
  import opened Devices

  datatype Step = Device | Upload | Crop | Animal | Preview

  const StepOrder: seq<Step> := [Device, Upload, Crop, Animal, Preview]

  /** The name a step is stored under. */
  function StepName(s: Step): string
  {
    match s
    case Device => "device"
    case Upload => "upload"
    case Crop => "crop"
    case Animal => "animal"
    case Preview => "preview"
  }

  /** `STEP_ORDER.indexOf(step)`. */
  function StepIndex(s: Step): (i: nat)
    ensures i < |StepOrder| && StepOrder[i] == s
  {
    match s
    case Device => 0
    case Upload => 1
    case Crop => 2
    case Animal => 3
    case Preview => 4
  }

  /** Each step appears once in the order, so the index identifies the step. */
  lemma StepIndexInjective(s: Step, t: Step)
    ensures StepIndex(s) == StepIndex(t) <==> s == t
  {
  }

  /** The step a stored name denotes, if any: `isStep` on a string. */
  function ParseStep(name: string): (r: Option<Step>)
    ensures r.Some? ==> StepName(r.value) == name
    ensures r.None? <==> forall s: Step :: StepName(s) != name
  {
    if name == "device" then Some(Device)
    else if name == "upload" then Some(Upload)
    else if name == "crop" then Some(Crop)
    else if name == "animal" then Some(Animal)
    else if name == "preview" then Some(Preview)
    else None
  }

  lemma ParseStepName(s: Step)
    ensures ParseStep(StepName(s)) == Some(s)
  {
  }

  /** A value as `JSON.parse` produces it. */
  datatype Json =
    | JNull
    | JBool(b: bool)
    | JNumber(n: real)
    | JString(str: string)
    | JArray(items: seq<Json>)
    | JObject(fields: map<string, Json>)

  /** `value.key`: only an object has properties. */
  function Field(v: Json, key: string): Option<Json>
  {
    if v.JObject? && key in v.fields then Some(v.fields[key]) else None
  }

  /** `isStep`: a string naming one of the five steps. */
  predicate IsStep(v: Option<Json>)
  {
    v.Some? && v.value.JString? && ParseStep(v.value.str).Some?
  }

  /** `typeof v === "string" ? v : null`. */
  function StringOrNull(v: Option<Json>): (r: Option<string>)
    ensures r.Some? <==> v.Some? && v.value.JString?
    ensures r.Some? ==> v.value.str == r.value
  {
    if v.Some? && v.value.JString? then Some(v.value.str) else None
  }

  /** `typeof v === "number" ? v : 50`. */
  function NumberOr50(v: Option<Json>): (r: real)
    ensures v.Some? && v.value.JNumber? ==> r == v.value.n
    ensures !(v.Some? && v.value.JNumber?) ==> r == 50.0
  {
    if v.Some? && v.value.JNumber? then v.value.n else 50.0
  }

  datatype PersistedState = PersistedState(
    step: Step,
    deviceId: Option<string>,
    rawImage: Option<string>,
    croppedImage: Option<string>,
    animalId: Option<string>,
    stickerXPercent: real)

  /** The normalisation after parsing: a valid step is required, every other field is coerced. */
  function Normalise(parsed: Json): (r: Option<PersistedState>)
    ensures r.None? <==> !IsStep(Field(parsed, "step"))
    ensures r.Some? ==>
      && StepName(r.value.step) == Field(parsed, "step").value.str
      && r.value.deviceId == StringOrNull(Field(parsed, "deviceId"))
      && r.value.rawImage == StringOrNull(Field(parsed, "rawImage"))
      && r.value.croppedImage == StringOrNull(Field(parsed, "croppedImage"))
      && r.value.animalId == StringOrNull(Field(parsed, "animalId"))
      && r.value.stickerXPercent == NumberOr50(Field(parsed, "stickerXPercent"))
  {
    var step := Field(parsed, "step");
    if !IsStep(step) then None
    else Some(PersistedState(
      ParseStep(step.value.str).value,
      StringOrNull(Field(parsed, "deviceId")),
      StringOrNull(Field(parsed, "rawImage")),
      StringOrNull(Field(parsed, "croppedImage")),
      StringOrNull(Field(parsed, "animalId")),
      NumberOr50(Field(parsed, "stickerXPercent"))))
  }

  /**
   * `readPersistedEditorState`. `inBrowser` is whether `window` exists,
   * `stored` what session storage holds under the editor's key, and `parse`
   * stands for `JSON.parse` (`None` where it throws).
   */
  function ReadPersistedEditorState(inBrowser: bool, stored: Option<string>, parse: string -> Option<Json>): (r: Option<PersistedState>)
    ensures r.Some? ==> inBrowser && stored.Some? && stored.value != "" && parse(stored.value).Some?
    ensures r.Some? ==> r == Normalise(parse(stored.value).value)
    ensures inBrowser && stored.Some? && stored.value != "" && parse(stored.value).Some? ==>
      r == Normalise(parse(stored.value).value)
  {
    if !inBrowser then None
    else if stored.None? || stored.value == "" then None
    else
      match parse(stored.value)
      case None => None
      case Some(parsed) => Normalise(parsed)
  }

  /** An absent id is stored as JSON `null`. */
  function StringOrJNull(s: Option<string>): Json
  {
    if s.Some? then JString(s.value) else JNull
  }

  /** The object the persistence effect writes (before `JSON.stringify`). */
  function Serialise(st: PersistedState): Json
  {
    JObject(map[
      "step" := JString(StepName(st.step)),
      "deviceId" := StringOrJNull(st.deviceId),
      "rawImage" := StringOrJNull(st.rawImage),
      "croppedImage" := StringOrJNull(st.croppedImage),
      "animalId" := StringOrJNull(st.animalId),
      "stickerXPercent" := JNumber(st.stickerXPercent)])
  }

  /** What the persistence effect writes, the normalisation reads back unchanged. */
  lemma NormaliseSerialise(st: PersistedState)
    ensures Normalise(Serialise(st)) == Some(st)
  {
    var j := Serialise(st);
    ParseStepName(st.step);
    assert Field(j, "step") == Some(JString(StepName(st.step)));
    assert Field(j, "deviceId") == Some(StringOrJNull(st.deviceId));
    assert Field(j, "rawImage") == Some(StringOrJNull(st.rawImage));
    assert Field(j, "croppedImage") == Some(StringOrJNull(st.croppedImage));
    assert Field(j, "animalId") == Some(StringOrJNull(st.animalId));
    assert Field(j, "stickerXPercent") == Some(JNumber(st.stickerXPercent));
  }

  /** The device of the initial state: a stored id that is empty or not in the registry gives none. */
  function ResolveDevice(init: Option<PersistedState>): (d: Option<DeviceTemplate>)
    ensures d.Some? ==> d.value in DeviceTemplates && init.Some? && init.value.deviceId == Some(d.value.id)
    ensures d.None? <==>
      || init.None? || init.value.deviceId.None? || init.value.deviceId.value == ""
      || forall i :: 0 <= i < |DeviceTemplates| ==> DeviceTemplates[i].id != init.value.deviceId.value
  {
    if init.None? || init.value.deviceId.None? || init.value.deviceId.value == "" then None
    else FindDevice(init.value.deviceId.value)
  }

  /** Registry ids are distinct, so looking up a registered device's id finds that device. */
  lemma FindRegisteredDevice(d: DeviceTemplate)
    requires d in DeviceTemplates
    ensures FindDevice(d.id) == Some(d)
  {
    RegistryIdsDistinct();
    var r := FindDevice(d.id);
    var i :| 0 <= i < |DeviceTemplates| && DeviceTemplates[i] == d;
    assert r.Some?;
    var j :| 0 <= j < |DeviceTemplates| && DeviceTemplates[j] == r.value;
    assert i == j;
  }

  /** A step-bar button jumps only to a strictly earlier step; any other click keeps the step. */
  function StepBarTarget(current: Step, i: nat): (t: Step)
    requires i < |StepOrder|
    ensures StepIndex(t) <= StepIndex(current)
    ensures i < StepIndex(current) ==> StepIndex(t) == i
    ensures i >= StepIndex(current) ==> t == current
  {
    if i < StepIndex(current) then StepOrder[i] else current
  }

  /** The back button: exactly one step back; on the first step there is no button and nothing to go back to. */
  function BackTarget(current: Step): (t: Step)
    ensures current == Device ==> t == Device
    ensures current != Device ==> StepIndex(t) + 1 == StepIndex(current)
  {
    var idx := StepIndex(current);
    if idx > 0 then StepOrder[idx - 1] else current
  }

  predicate BackButtonShown(current: Step) { current != Device }

  /** Going back is the same as clicking the previous step in the bar. */
  lemma BackIsPreviousStepBarButton(current: Step)
    requires BackButtonShown(current)
    ensures BackTarget(current) == StepBarTarget(current, StepIndex(current) - 1)
  {
  }

  /** The successor of a step in the order, if any. */
  function NextStep(s: Step): (r: Option<Step>)
    ensures r.Some? <==> s != Preview
    ensures r.Some? ==> StepIndex(r.value) == StepIndex(s) + 1
  {
    var idx := StepIndex(s);
    if idx + 1 < |StepOrder| then Some(StepOrder[idx + 1]) else None
  }

  /** A string is truthy in JavaScript unless it is absent or empty. */
  predicate Truthy(s: Option<string>) { s.Some? && s.value != "" }

  /** What the main area shows. */
  datatype View =
    | DeviceSelectorView(selectedId: Option<string>)
    | UploaderView
    | CropperView(imageSrc: string, aspectRatio: real)
    | AnimalSelectorView(selectedId: Option<string>)
    | PreviewView(device: DeviceTemplate, croppedSrc: string, animalId: string, stickerXPercent: real)
    | NothingShown

  /**
   * The main area for a state: the crop step needs a device and a raw image,
   * the preview step a device, a cropped image and an animal.
   */
  function CurrentView(step: Step, device: Option<DeviceTemplate>, rawImage: Option<string>,
                       croppedImage: Option<string>, animalId: Option<string>, stickerXPercent: real): (v: View)
    requires device.Some? ==> device.value in DeviceTemplates
    ensures v.DeviceSelectorView? <==> step == Device
    ensures v.UploaderView? <==> step == Upload
    ensures v.AnimalSelectorView? <==> step == Animal
    ensures v.CropperView? <==> step == Crop && device.Some? && Truthy(rawImage)
    ensures v.CropperView? ==>
      v.imageSrc == rawImage.value && v.aspectRatio * device.value.height as real == device.value.width as real
    ensures v.PreviewView? <==> step == Preview && device.Some? && Truthy(croppedImage) && Truthy(animalId)
    ensures v.PreviewView? ==>
      v == PreviewView(device.value, croppedImage.value, animalId.value, stickerXPercent)
    ensures v.NothingShown? <==> !(v.DeviceSelectorView? || v.UploaderView? || v.CropperView? || v.AnimalSelectorView? || v.PreviewView?)
  {
    match step
    case Device => DeviceSelectorView(if device.Some? then Some(device.value.id) else None)
    case Upload => UploaderView
    case Crop =>
      if device.Some? && Truthy(rawImage)
      then CropperView(rawImage.value, device.value.width as real / device.value.height as real)
      else NothingShown
    case Animal => AnimalSelectorView(animalId)
    case Preview =>
      if device.Some? && Truthy(croppedImage) && Truthy(animalId)
      then PreviewView(device.value, croppedImage.value, animalId.value, stickerXPercent)
      else NothingShown
  }

  /** The ratio a slider position hands to the placement: already in [0, 1], so the clamp keeps it. */
  function SliderRatio(percent: int): (r: real)
    requires 0 <= percent <= 100
    ensures 0.0 <= r <= 1.0 && ClampRatio(r) == r
    ensures r * 100.0 == percent as real
  {
    percent as real / 100.0
  }

  /** The page component's state. */
  class Editor {
    var step: Step
    var device: Option<DeviceTemplate>
    var rawImage: Option<string>
    var croppedImage: Option<string>
    var animalId: Option<string>
    var stickerXPercent: real

    /** The device always comes from the registry: the selector lists it, or a restored id resolved in it. */
    ghost predicate Valid()
      reads this
    {
      device.Some? ==> device.value in DeviceTemplates
    }

    /** The initial state, from what was restored (if anything). */
    constructor (init: Option<PersistedState>)
      ensures Valid()
      ensures init.None? ==>
        && step == Device && device.None? && rawImage.None? && croppedImage.None?
        && animalId.None? && stickerXPercent == 50.0
      ensures init.Some? ==>
        && step == init.value.step
        && rawImage == init.value.rawImage && croppedImage == init.value.croppedImage
        && animalId == init.value.animalId && stickerXPercent == init.value.stickerXPercent
      ensures device == ResolveDevice(init)
    {
      step := if init.Some? then init.value.step else Device;
      if init.None? || init.value.deviceId.None? || init.value.deviceId.value == "" {
        device := None;
      } else {
        device := FindDevice(init.value.deviceId.value);
      }
      rawImage := if init.Some? then init.value.rawImage else None;
      croppedImage := if init.Some? then init.value.croppedImage else None;
      animalId := if init.Some? then init.value.animalId else None;
      stickerXPercent := if init.Some? then init.value.stickerXPercent else 50.0;
    }

    /** The record the persistence effect writes for the current state. */
    function Snapshot(): (st: PersistedState)
      reads this
      ensures st.step == step
      ensures st.deviceId.Some? <==> device.Some?
      ensures device.Some? ==> st.deviceId.value == device.value.id
      ensures st.rawImage == rawImage && st.croppedImage == croppedImage && st.animalId == animalId
      ensures st.stickerXPercent == stickerXPercent
    {
      PersistedState(step, if device.Some? then Some(device.value.id) else None,
                     rawImage, croppedImage, animalId, stickerXPercent)
    }

    /** What the main area shows now. */
    function View(): View
      reads this
      requires Valid()
    {
      CurrentView(step, device, rawImage, croppedImage, animalId, stickerXPercent)
    }

    /** A device picked in the selector, which lists the registry. */
    method SelectDevice(d: DeviceTemplate)
      requires d in DeviceTemplates
      modifies this
      ensures Valid()
      ensures device == Some(d) && step == Upload
      ensures old(step) == Device ==> NextStep(old(step)) == Some(step)
      ensures rawImage == old(rawImage) && croppedImage == old(croppedImage)
      ensures animalId == old(animalId) && stickerXPercent == old(stickerXPercent)
    {
      device := Some(d);
      step := Upload;
    }

    method ImageLoaded(dataUrl: string)
      requires Valid()
      ensures Valid()
      modifies this
      ensures rawImage == Some(dataUrl) && step == Crop
      ensures old(step) == Upload ==> NextStep(old(step)) == Some(step)
      ensures device == old(device) && croppedImage == old(croppedImage)
      ensures animalId == old(animalId) && stickerXPercent == old(stickerXPercent)
    {
      rawImage := Some(dataUrl);
      step := Crop;
    }

    method CropDone(dataUrl: string)
      requires Valid()
      ensures Valid()
      modifies this
      ensures croppedImage == Some(dataUrl) && step == Animal
      ensures old(step) == Crop ==> NextStep(old(step)) == Some(step)
      ensures device == old(device) && rawImage == old(rawImage)
      ensures animalId == old(animalId) && stickerXPercent == old(stickerXPercent)
    {
      croppedImage := Some(dataUrl);
      step := Animal;
    }

    method SelectAnimal(id: string)
      requires Valid()
      ensures Valid()
      modifies this
      ensures animalId == Some(id) && step == Preview
      ensures old(step) == Animal ==> NextStep(old(step)) == Some(step)
      ensures device == old(device) && rawImage == old(rawImage)
      ensures croppedImage == old(croppedImage) && stickerXPercent == old(stickerXPercent)
    {
      animalId := Some(id);
      step := Preview;
    }

    /** The slider: integers 0 to 100. */
    method SetStickerXPercent(value: int)
      requires Valid()
      ensures Valid()
      requires 0 <= value <= 100
      modifies this`stickerXPercent
      ensures stickerXPercent == value as real
      ensures 0.0 <= stickerXPercent <= 100.0
    {
      stickerXPercent := value as real;
    }

    /** A click on the `i`-th step-bar button. */
    method StepBarClick(i: nat)
      requires Valid()
      ensures Valid()
      requires i < |StepOrder|
      modifies this`step
      ensures step == StepBarTarget(old(step), i)
    {
      var currentStepIdx := StepIndex(step);
      if i < currentStepIdx {
        step := StepOrder[i];
      }
    }

    /** A click on the back button, which is only shown after the first step. */
    method Back()
      requires Valid()
      ensures Valid()
      requires BackButtonShown(step)
      modifies this`step
      ensures step == BackTarget(old(step))
      ensures StepIndex(step) + 1 == StepIndex(old(step))
    {
      var idx := StepIndex(step);
      if idx > 0 {
        step := StepOrder[idx - 1];
      }
    }
  }

  /**
   * After a reload the editor comes back as it was: what it wrote reads back
   * through the normalisation, and the stored device id resolves to the
   * same registry device.
   */
  lemma ReloadRestores(st: PersistedState, device: Option<DeviceTemplate>)
    requires device.Some? ==> device.value in DeviceTemplates
    requires st.deviceId == (if device.Some? then Some(device.value.id) else None)
    ensures Normalise(Serialise(st)) == Some(st)
    ensures ResolveDevice(Some(st)) == device
  {
    NormaliseSerialise(st);
    if device.Some? {
      FindRegisteredDevice(device.value);
      assert device.value.id != "";
    }
  }
}
