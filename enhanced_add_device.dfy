/**
 * The enhanced add-device modal (enhanced-add-device.js): the global
 * `addDeviceState` as a class, its seven-step wizard (0-based; Next
 * validates, Back never does, step labels only go back), the profile
 * templates offered for the chosen type, and the save into the stored
 * custom device list.
 *
 * The text typed into the 'Basic Information' inputs is a parameter; the
 * inputs exist only while that step is shown, and an input that is not on
 * the page reads as the empty text. The three catalogue fetches are one
 * parameter, `None` when they fail.
 */
module EnhancedAddDevice {

  import opened Common

  /** The wizard's step titles, in order. */
  const StepNames: seq<string> := [
    "Device Type", "Profile Selection", "Basic Information", "Connection Details",
    "Point Map Configuration", "Capabilities", "Validation"]

  /** The index of the last step. */
  const LastStep := |StepNames| - 1

  datatype DeviceTypeInfo = DeviceTypeInfo(value: string, title: string, icon: string)

  /** A profile template offered on the profile step. */
  datatype Template = Template(id: string, deviceType: string)

  /** The four required fields of the 'Basic Information' step, as typed. */
  datatype BasicForm = BasicForm(deviceId: string, plantId: string, make: string, model: string)

  /** The configuration `collectDeviceConfiguration` assembles, reduced to what the save checks and records. */
  datatype DeviceConfig = DeviceConfig(
    id: string, plantId: string, deviceType: Option<string>, make: string, model: string, profileId: Option<string>)

  /** JavaScript truthiness of a nullable text. */
  predicate Given(s: Option<string>)
  {
    s.Some? && s.value != ""
  }

  /** Whether the current step lets Next through: only 'Device Type' and 'Basic Information' check anything. */
  function StepPasses(step: nat, deviceType: Option<string>, form: BasicForm): (ok: bool)
    requires step <= LastStep
    ensures StepNames[step] == "Device Type" ==> (ok <==> Given(deviceType))
    ensures StepNames[step] == "Basic Information" ==>
      (ok <==> form.deviceId != "" && form.plantId != "" && form.make != "" && form.model != "")
    ensures StepNames[step] != "Device Type" && StepNames[step] != "Basic Information" ==> ok
  {
    if StepNames[step] == "Device Type" then Given(deviceType)
    else if StepNames[step] == "Basic Information" then
      form.deviceId != "" && form.plantId != "" && form.make != "" && form.model != ""
    else true
  }

  /** The step after Next, given whether the current step passed. */
  function NextStep(step: nat, passed: bool): (r: nat)
    ensures r == step || (passed && step < LastStep && r == step + 1)
    ensures step <= LastStep ==> r <= LastStep
  {
    if passed && step < LastStep then step + 1 else step
  }

  /** The step after Back. */
  function BackStep(step: nat): (r: nat)
    ensures step > 0 ==> r == step - 1
    ensures step == 0 ==> r == 0
  {
    if step > 0 then step - 1 else step
  }

  /** The step after clicking the label at `index`: only labels at or before the current step respond. */
  function LabelStep(step: nat, index: nat): (r: nat)
    ensures r <= step
    ensures index <= step ==> r == index
  {
    if index <= step then index else step
  }

  /** A user action on the wizard. */
  datatype Event = Next(passed: bool) | Back | Label(index: nat)

  /** The step after a run of events. */
  function Run(start: nat, events: seq<Event>): nat
  {
    if |events| == 0 then start
    else
      var step := Run(start, events[..|events| - 1]);
      match events[|events| - 1]
      case Next(passed) => NextStep(step, passed)
      case Back => BackStep(step)
      case Label(i) => LabelStep(step, i)
  }

  /** How many Next presses passed their step's check. */
  function PassedNexts(events: seq<Event>): nat
  {
    if |events| == 0 then 0
    else PassedNexts(events[..|events| - 1]) + (if events[|events| - 1] == Next(true) then 1 else 0)
  }

  /**
   * From the first step, every run stays within the seven steps, and the
   * step never exceeds the number of validated Next presses: no label click
   * skips a step forward.
   */
  lemma {:induction false} RunStaysBehindValidation(events: seq<Event>)
    ensures Run(0, events) <= LastStep
    ensures Run(0, events) <= PassedNexts(events)
  {
    if |events| > 0 {
      RunStaysBehindValidation(events[..|events| - 1]);
    }
  }

  /** `profiles.filter(p => p.device_type === deviceType)`. */
  function TemplatesFor(profiles: seq<Template>, deviceType: Option<string>): (r: seq<Template>)
    ensures |r| <= |profiles|
    ensures forall k :: 0 <= k < |r| ==> r[k] in profiles && deviceType == Some(r[k].deviceType)
    ensures forall k :: 0 <= k < |profiles| && deviceType == Some(profiles[k].deviceType) ==> profiles[k] in r
  {
    if |profiles| == 0 then []
    else
      var rest := TemplatesFor(profiles[1..], deviceType);
      assert forall k :: 1 <= k < |profiles| ==> profiles[k] == profiles[1..][k - 1];
      if deviceType == Some(profiles[0].deviceType) then [profiles[0]] + rest else rest
  }

  /** Offering from a concatenation offers from each part, so the offered profiles keep their catalogue order. */
  lemma {:induction false} TemplatesForAppend(a: seq<Template>, b: seq<Template>, deviceType: Option<string>)
    ensures TemplatesFor(a + b, deviceType) == TemplatesFor(a, deviceType) + TemplatesFor(b, deviceType)
  {
    if |a| == 0 {
      assert a + b == b;
    } else {
      assert (a + b)[0] == a[0] && (a + b)[1..] == a[1..] + b;
      TemplatesForAppend(a[1..], b, deviceType);
    }
  }

  /** `availableProfiles.find(p => p.id === id)`. */
  function FindTemplate(profiles: seq<Template>, id: string): (r: Option<Template>)
    ensures r.Some? ==> r.value in profiles && r.value.id == id
    ensures r.None? <==> forall k :: 0 <= k < |profiles| ==> profiles[k].id != id
    ensures forall k :: 0 <= k < |profiles| && profiles[k].id == id && (forall j :: 0 <= j < k ==> profiles[j].id != id) ==>
      r == Some(profiles[k])
  {
    if |profiles| == 0 then None
    else if profiles[0].id == id then Some(profiles[0])
    else
      var rest := FindTemplate(profiles[1..], id);
      assert forall k :: 1 <= k < |profiles| ==> profiles[k] == profiles[1..][k - 1];
      rest
  }

  /** The device types used when the catalogue fetch fails. */
  function FallbackDeviceTypes(): seq<DeviceTypeInfo>
  {
    [DeviceTypeInfo("inverter", "Solar Inverter", "\U{26A1}"),
     DeviceTypeInfo("meter", "Energy Meter", "\U{1F4CA}"),
     DeviceTypeInfo("weather", "Weather Station", "\U{1F324}")]
  }

  /** `collectDeviceConfiguration`: the typed fields, the chosen type and the template's id. */
  function Configuration(form: BasicForm, deviceType: Option<string>, template: Option<Template>): (c: DeviceConfig)
    ensures c.id == form.deviceId && c.plantId == form.plantId && c.make == form.make && c.model == form.model
    ensures c.deviceType == deviceType
    ensures c.profileId.Some? <==> template.Some? && template.value.id != ""
  {
    DeviceConfig(form.deviceId, form.plantId, deviceType, form.make, form.model,
                 if template.Some? && template.value.id != "" then Some(template.value.id) else None)
  }

  /** The form with every input missing. */
  const NoInputs := BasicForm("", "", "", "")

  /**
   * What `document.getElementById(..)?.value` reads for the four basic
   * inputs at a step: the typed text while 'Basic Information' is shown,
   * nothing on every other step, whose body does not render those inputs.
   */
  function InputsOnPage(step: nat, typed: BasicForm): (f: BasicForm)
    requires step <= LastStep
    ensures StepNames[step] == "Basic Information" ==> f == typed
    ensures StepNames[step] != "Basic Information" ==> f == NoInputs
  {
    if StepNames[step] == "Basic Information" then typed else NoInputs
  }

  /** A key of the device data, or the empty text when it was never written. */
  function DataOr(data: map<string, string>, key: string): (v: string)
    ensures key in data ==> v == data[key]
    ensures key !in data ==> v == ""
  {
    if key in data then data[key] else ""
  }

  /** The basic fields as the wizard recorded them in its device data. */
  function RecordedForm(data: map<string, string>): (f: BasicForm)
    ensures f.deviceId == DataOr(data, "id") && f.plantId == DataOr(data, "plant_id")
    ensures f.make == DataOr(data, "make") && f.model == DataOr(data, "model")
  {
    BasicForm(DataOr(data, "id"), DataOr(data, "plant_id"), DataOr(data, "make"), DataOr(data, "model"))
  }

  /** The four keys a passing 'Basic Information' step writes. */
  function WithBasics(data: map<string, string>, form: BasicForm): map<string, string>
  {
    data["id" := form.deviceId]["plant_id" := form.plantId]["make" := form.make]["model" := form.model]
  }

  /** The device data read back after the basic step wrote it gives the typed form. */
  lemma RecordedAfterBasics(data: map<string, string>, form: BasicForm)
    ensures RecordedForm(WithBasics(data, form)) == form
  {
    var d := WithBasics(data, form);
    assert d["id"] == form.deviceId && d["plant_id"] == form.plantId;
    assert d["make"] == form.make && d["model"] == form.model;
  }

  /** Whether the save accepts a configuration. */
  predicate Complete(c: DeviceConfig)
  {
    c.id != "" && c.plantId != "" && c.make != "" && c.model != ""
  }

  class AddDeviceState {
    var step: nat
    var deviceType: Option<string>
    var profileTemplate: Option<Template>
    var deviceData: map<string, string>
    /** The loaded catalogues; `None` once the modal was closed, which drops them. */
    var deviceTypes: Option<seq<DeviceTypeInfo>>
    var availableProfiles: Option<seq<Template>>
    var availablePointMaps: Option<seq<string>>
    /** `localStorage['customDevices']`. */
    var customDevices: seq<DeviceConfig>

    predicate Valid()
      reads this
    {
      step <= LastStep
    }

    /** The page-load state: first step, nothing chosen, empty profile and point-map lists, no device types yet. */
    constructor (stored: seq<DeviceConfig>)
      ensures Valid() && step == 0 && deviceType.None? && profileTemplate.None? && deviceData == map[]
      ensures deviceTypes.None? && availableProfiles == Some([]) && availablePointMaps == Some([])
      ensures customDevices == stored
    {
      step := 0;
      deviceType := None;
      profileTemplate := None;
      deviceData := map[];
      deviceTypes := None;
      availableProfiles := Some([]);
      availablePointMaps := Some([]);
      customDevices := stored;
    }

    /** `loadDeviceTypesAndProfiles`: the fetched catalogues, or the fallback types and no profiles or maps. */
    method LoadCatalogues(fetched: Option<(seq<DeviceTypeInfo>, seq<Template>, seq<string>)>)
      modifies this
      ensures fetched.Some? ==>
        deviceTypes == Some(fetched.value.0) && availableProfiles == Some(fetched.value.1)
        && availablePointMaps == Some(fetched.value.2)
      ensures fetched.None? ==>
        deviceTypes == Some(FallbackDeviceTypes()) && availableProfiles == Some([]) && availablePointMaps == Some([])
      ensures step == old(step) && deviceType == old(deviceType) && profileTemplate == old(profileTemplate)
      ensures deviceData == old(deviceData) && customDevices == old(customDevices)
    {
      if fetched.Some? {
        deviceTypes := Some(fetched.value.0);
        availableProfiles := Some(fetched.value.1);
        availablePointMaps := Some(fetched.value.2);
      } else {
        deviceTypes := Some(FallbackDeviceTypes());
        availableProfiles := Some([]);
        availablePointMaps := Some([]);
      }
    }

    /** `openEnhancedAddModal`: a fresh wizard for the suggested type that keeps the loaded catalogues (empty ones after a close). */
    method Open(suggested: Option<string>)
      modifies this
      ensures Valid() && step == 0 && deviceType == suggested && profileTemplate.None? && deviceData == map[]
      ensures deviceTypes == Some(if old(deviceTypes).Some? then old(deviceTypes).value else [])
      ensures availableProfiles == Some(if old(availableProfiles).Some? then old(availableProfiles).value else [])
      ensures availablePointMaps == Some(if old(availablePointMaps).Some? then old(availablePointMaps).value else [])
      ensures customDevices == old(customDevices)
    {
      step := 0;
      deviceType := suggested;
      profileTemplate := None;
      deviceData := map[];
      if deviceTypes.None? { deviceTypes := Some([]); }
      if availableProfiles.None? { availableProfiles := Some([]); }
      if availablePointMaps.None? { availablePointMaps := Some([]); }
    }

    /** `closeEnhancedAddModal`: the state is reset and the catalogues are dropped. */
    method Close()
      modifies this
      ensures Valid() && step == 0 && deviceType.None? && profileTemplate.None? && deviceData == map[]
      ensures deviceTypes.None? && availableProfiles.None? && availablePointMaps.None?
      ensures customDevices == old(customDevices)
    {
      step := 0;
      deviceType := None;
      profileTemplate := None;
      deviceData := map[];
      deviceTypes := None;
      availableProfiles := None;
      availablePointMaps := None;
    }

    /** `selectDeviceType`. */
    method SelectDeviceType(value: string)
      modifies this
      ensures deviceType == Some(value)
      ensures step == old(step) && profileTemplate == old(profileTemplate) && deviceData == old(deviceData)
      ensures deviceTypes == old(deviceTypes) && availableProfiles == old(availableProfiles)
      ensures availablePointMaps == old(availablePointMaps) && customDevices == old(customDevices)
    {
      deviceType := Some(value);
    }

    /** The templates the profile step lists for the chosen type. */
    function OfferedTemplates(): (r: seq<Template>)
      reads this
      requires availableProfiles.Some?
      ensures forall k :: 0 <= k < |r| ==> deviceType == Some(r[k].deviceType)
    {
      TemplatesFor(availableProfiles.value, deviceType)
    }

    /**
     * `selectProfileTemplate`: the empty id clears the template; any other
     * id selects the first catalogue entry with it, or none. Without a
     * catalogue the lookup fails and nothing changes.
     */
    method SelectProfileTemplate(profileId: string)
      modifies this
      ensures profileId == "" ==> profileTemplate.None?
      ensures profileId != "" && old(availableProfiles).Some? ==>
        profileTemplate == FindTemplate(old(availableProfiles).value, profileId)
      ensures profileId != "" && old(availableProfiles).None? ==> profileTemplate == old(profileTemplate)
      ensures step == old(step) && deviceType == old(deviceType) && deviceData == old(deviceData)
      ensures deviceTypes == old(deviceTypes) && availableProfiles == old(availableProfiles)
      ensures availablePointMaps == old(availablePointMaps) && customDevices == old(customDevices)
    {
      if profileId == "" {
        profileTemplate := None;
      } else if availableProfiles.Some? {
        profileTemplate := FindTemplate(availableProfiles.value, profileId);
      }
    }

    /** `validateCurrentStep`: passing 'Basic Information' copies exactly its four fields into the device data. */
    method ValidateCurrentStep(form: BasicForm) returns (ok: bool)
      requires Valid()
      modifies this
      ensures step == old(step) && deviceType == old(deviceType) && profileTemplate == old(profileTemplate)
      ensures ok == StepPasses(step, deviceType, form)
      ensures StepNames[step] == "Basic Information" && ok ==> deviceData == WithBasics(old(deviceData), form)
      ensures !(StepNames[step] == "Basic Information" && ok) ==> deviceData == old(deviceData)
      ensures deviceTypes == old(deviceTypes) && availableProfiles == old(availableProfiles)
      ensures availablePointMaps == old(availablePointMaps) && customDevices == old(customDevices)
    {
      ok := StepPasses(step, deviceType, form);
      if StepNames[step] == "Basic Information" && ok {
        deviceData := WithBasics(deviceData, form);
      }
    }

    /** `nextAddDeviceStep`: one step forward, only when the current step passes and it is not the last. */
    method NextStepPressed(form: BasicForm)
      requires Valid()
      modifies this
      ensures Valid()
      ensures step == NextStep(old(step), StepPasses(old(step), old(deviceType), form))
      ensures StepNames[old(step)] == "Basic Information" && StepPasses(old(step), old(deviceType), form) ==>
        deviceData == WithBasics(old(deviceData), form)
      ensures !(StepNames[old(step)] == "Basic Information" && StepPasses(old(step), old(deviceType), form)) ==>
        deviceData == old(deviceData)
      ensures deviceType == old(deviceType) && profileTemplate == old(profileTemplate)
      ensures deviceTypes == old(deviceTypes) && availableProfiles == old(availableProfiles)
      ensures availablePointMaps == old(availablePointMaps) && customDevices == old(customDevices)
    {
      var ok := ValidateCurrentStep(form);
      if !ok {
        return;
      }
      if step < LastStep {
        step := step + 1;
      }
    }

    /** `previousAddDeviceStep`: one step back unless on the first; nothing is validated. */
    method BackPressed()
      requires Valid()
      modifies this
      ensures Valid() && step == BackStep(old(step))
      ensures deviceType == old(deviceType) && profileTemplate == old(profileTemplate) && deviceData == old(deviceData)
      ensures deviceTypes == old(deviceTypes) && availableProfiles == old(availableProfiles)
      ensures availablePointMaps == old(availablePointMaps) && customDevices == old(customDevices)
    {
      if step > 0 {
        step := step - 1;
      }
    }

    /** The step-label handler: a label at or before the current step is jumped to, later ones are ignored. */
    method LabelClicked(index: nat)
      requires Valid() && index <= LastStep
      modifies this
      ensures Valid() && step == LabelStep(old(step), index)
      ensures deviceType == old(deviceType) && profileTemplate == old(profileTemplate) && deviceData == old(deviceData)
      ensures deviceTypes == old(deviceTypes) && availableProfiles == old(availableProfiles)
      ensures availablePointMaps == old(availablePointMaps) && customDevices == old(customDevices)
    {
      if index <= step {
        step := index;
      }
    }

    /**
     * `saveNewEnhancedDevice`: the configuration is collected from the
     * inputs on the page; an incomplete one is refused and nothing changes,
     * otherwise it is appended once and the modal closes. Save is offered
     * only on the last step, where the basic inputs are not on the page.
     */
    method SaveNewDevice(typed: BasicForm) returns (saved: bool)
      requires Valid()
      modifies this
      ensures var c := Configuration(InputsOnPage(old(step), typed), old(deviceType), old(profileTemplate));
        saved == Complete(c)
        && (saved ==> customDevices == old(customDevices) + [c])
      ensures StepNames[old(step)] != "Basic Information" ==> !saved
      ensures saved ==> (step == 0 && deviceType.None? && profileTemplate.None? && deviceData == map[]
                         && deviceTypes.None? && availableProfiles.None? && availablePointMaps.None?)
      ensures !saved ==> (customDevices == old(customDevices) && step == old(step) && deviceType == old(deviceType)
                          && profileTemplate == old(profileTemplate) && deviceData == old(deviceData)
                          && deviceTypes == old(deviceTypes) && availableProfiles == old(availableProfiles)
                          && availablePointMaps == old(availablePointMaps))
    {
      var c := Configuration(InputsOnPage(step, typed), deviceType, profileTemplate);
      if !Complete(c) {
        return false;
      }
      customDevices := customDevices + [c];
      Close();
      saved := true;
    }

    /**
     * The save as evidently intended: the configuration is collected from
     * the fields the 'Basic Information' step recorded in the device data.
     */
    method SaveRecordedDevice() returns (saved: bool)
      modifies this
      ensures var c := Configuration(RecordedForm(old(deviceData)), old(deviceType), old(profileTemplate));
        saved == Complete(c)
        && (saved ==> customDevices == old(customDevices) + [c])
      ensures saved ==> (step == 0 && deviceType.None? && profileTemplate.None? && deviceData == map[]
                         && deviceTypes.None? && availableProfiles.None? && availablePointMaps.None?)
      ensures !saved ==> (customDevices == old(customDevices) && step == old(step) && deviceType == old(deviceType)
                          && profileTemplate == old(profileTemplate) && deviceData == old(deviceData)
                          && deviceTypes == old(deviceTypes) && availableProfiles == old(availableProfiles)
                          && availablePointMaps == old(availablePointMaps))
    {
      var c := Configuration(RecordedForm(deviceData), deviceType, profileTemplate);
      if !Complete(c) {
        return false;
      }
      customDevices := customDevices + [c];
      Close();
      saved := true;
    }
  }

  /**
   * The save accepts the page's inputs exactly when 'Basic Information' is
   * shown and would let them through; on every other step it refuses.
   */
  lemma SaveOnlyOnBasicStep(step: nat, typed: BasicForm, deviceType: Option<string>, template: Option<Template>)
    requires step <= LastStep
    ensures Complete(Configuration(InputsOnPage(step, typed), deviceType, template))
        <==> StepNames[step] == "Basic Information" && StepPasses(step, deviceType, typed)
  {
  }

  /** So pressing Save, which is offered only on the last step, never adds a device. */
  lemma SaveFromLastStepRefused(typed: BasicForm, deviceType: Option<string>, template: Option<Template>)
    ensures !Complete(Configuration(InputsOnPage(LastStep, typed), deviceType, template))
  {
    assert StepNames[LastStep] == "Validation";
  }

  /**
   * The intended save accepts after a passing 'Basic Information' step,
   * and records what was typed there.
   */
  lemma RecordedSaveAccepts(data: map<string, string>, typed: BasicForm, deviceType: Option<string>,
                            template: Option<Template>)
    requires StepPasses(2, deviceType, typed)
    ensures var c := Configuration(RecordedForm(WithBasics(data, typed)), deviceType, template);
      Complete(c) && c.id == typed.deviceId && c.plantId == typed.plantId && c.make == typed.make
      && c.model == typed.model
  {
    assert StepNames[2] == "Basic Information";
    RecordedAfterBasics(data, typed);
  }
}
