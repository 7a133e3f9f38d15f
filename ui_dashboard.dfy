/**
 * The fleet dashboard script (ui.js): the section switch, the badges and
 * marker colours of the fleet table and map, the site search, and the
 * seven-step add-device modal with its save into the stored device list.
 *
 * Sites in local storage are a parameter (`None` when their JSON does not
 * parse); typed form values are parameters, and which inputs the current
 * step's page holds is modelled (`NameOnPage`, `HostOnPage`).
 */
module UiDashboard {

  import opened Common
  import opened Strings

  /** The keys of the dashboard's sections. */
  const ViewKeys: set<string> := {"fleet", "site", "analytics", "control", "reports", "settings"}

  /** `showView`: every present section is hidden, then the one named by the key, if it is present, is shown. */
  function ShownSections(key: string, present: set<string>): (shown: set<string>)
    ensures shown <= present * ViewKeys
    ensures |shown| <= 1
    ensures key in ViewKeys && key in present ==> shown == {key}
    ensures !(key in ViewKeys && key in present) ==> shown == {}
  {
    if key in ViewKeys && key in present then {key} else {}
  }

  /** The chip styles `makeBadge` knows, one per kind. */
  const GreenStyle := "bg-green-100 text-green-800 dark:bg-green-500/20 dark:text-green-300"
  const AmberStyle := "bg-amber-100 text-amber-800 dark:bg-amber-500/20 dark:text-amber-300"
  const RedStyle := "bg-red-100 text-red-800 dark:bg-red-500/20 dark:text-red-300"
  const GrayStyle := "bg-gray-200 text-gray-800 dark:bg-gray-700 dark:text-gray-200"

  /** The style of a chip: the known style of its kind, the gray style for any other kind. */
  function BadgeStyle(kind: string): (style: string)
    ensures kind == "green" ==> style == GreenStyle
    ensures kind == "amber" ==> style == AmberStyle
    ensures kind == "red" ==> style == RedStyle
    ensures kind !in {"green", "amber", "red"} ==> style == GrayStyle
  {
    if kind == "green" then GreenStyle
    else if kind == "amber" then AmberStyle
    else if kind == "red" then RedStyle
    else GrayStyle
  }

  /** A chip of the fleet table: its text and its kind. */
  datatype Chip = Chip(text: string, kind: string)

  /** `makeBadge`: the chip as a rounded span in its kind's style. */
  function MakeBadge(chip: Chip): string
  {
    "<span class=\"inline-flex items-center px-2 py-0.5 rounded-full text-xs font-medium " + BadgeStyle(chip.kind) + "\">" + chip.text + "</span>"
  }

  /** The performance-ratio chip's kind. */
  function PrKind(pr: real): (kind: string)
    ensures kind == "green" <==> pr >= 85.0
    ensures kind == "amber" <==> 70.0 <= pr < 85.0
    ensures kind == "red" <==> pr < 70.0
  {
    if pr >= 85.0 then "green" else if pr >= 70.0 then "amber" else "red"
  }

  /** The alarm chip: a raised count shows in red as the count itself; none shows a gray '0'. */
  function AlarmChip(alarms: int): (chip: Chip)
    ensures chip.kind == "red" <==> alarms > 0
    ensures chip.kind == "gray" <==> alarms <= 0
    ensures alarms > 0 ==> chip.text == IntToString(alarms) && chip.text != "0"
    ensures alarms <= 0 ==> chip.text == "0"
  {
    if alarms > 0 then
      NatToStringNonZero(alarms);
      Chip(IntToString(alarms), "red")
    else Chip("0", "gray")
  }

  /** The map marker colour for a site status. */
  function MarkerColour(status: string): (colour: string)
    ensures status == "online" <==> colour == "green"
    ensures status == "degraded" <==> colour == "orange"
    ensures status != "online" && status != "degraded" <==> colour == "red"
  {
    if status == "online" then "green" else if status == "degraded" then "orange" else "red"
  }

  datatype FleetSite = FleetSite(id: string, name: string, lat: real, lng: real, status: string, capacity: real, soc: Option<int>)

  /** The demo site always placed first. */
  function DemoSite(): FleetSite
  {
    FleetSite("site-1", "Demo Site", 39.9, 32.85, "online", 5.0, Some(72))
  }

  /** The search test: the lowercased name contains the lowercased query. */
  predicate NameMatches(site: FleetSite, query: string)
  {
    Contains(Lower(site.name), Lower(query))
  }

  /** The matching sites, in order. */
  function Matching(sites: seq<FleetSite>, query: string): (r: seq<FleetSite>)
    ensures |r| <= |sites|
    ensures forall k :: 0 <= k < |r| ==> r[k] in sites && NameMatches(r[k], query)
    ensures forall k :: 0 <= k < |sites| && NameMatches(sites[k], query) ==> sites[k] in r
  {
    if |sites| == 0 then []
    else
      var rest := Matching(sites[1..], query);
      assert forall k :: 1 <= k < |sites| ==> sites[k] == sites[1..][k - 1];
      if NameMatches(sites[0], query) then [sites[0]] + rest else rest
  }

  /** Matching a concatenation matches each part, so the kept sites stay in their list order. */
  lemma {:induction false} MatchingAppend(a: seq<FleetSite>, b: seq<FleetSite>, query: string)
    ensures Matching(a + b, query) == Matching(a, query) + Matching(b, query)
  {
    if |a| == 0 {
      assert a + b == b;
    } else {
      assert (a + b)[0] == a[0] && (a + b)[1..] == a[1..] + b;
      MatchingAppend(a[1..], b, query);
    }
  }

  /**
   * `filterSites`: the demo site, then the stored sites (none when their
   * JSON fails), kept when their name matches: the demo site when it
   * matches, followed by every matching stored site in stored order.
   */
  function FilterSites(query: string, stored: Option<seq<FleetSite>>): (r: seq<FleetSite>)
    ensures NameMatches(DemoSite(), query) ==> |r| > 0 && r[0] == DemoSite()
    ensures forall k :: 0 <= k < |r| ==> NameMatches(r[k], query)
    ensures r == (if NameMatches(DemoSite(), query) then [DemoSite()] else [])
                 + Matching(if stored.Some? then stored.value else [], query)
  {
    var sites := if stored.Some? then stored.value else [];
    MatchingAppend([DemoSite()], sites, query);
    assert [DemoSite()][1..] == [];
    Matching([DemoSite()] + sites, query)
  }

  /** An empty search keeps every site, the demo one first. */
  lemma {:induction false} EmptySearchKeepsAll(sites: seq<FleetSite>)
    ensures Matching(sites, "") == sites
  {
    if |sites| > 0 {
      assert At(Lower(sites[0].name), "", 0);
      EmptySearchKeepsAll(sites[1..]);
      assert [sites[0]] + sites[1..] == sites;
    }
  }

  /** The add-device modal's step titles. */
  const AddSteps: seq<string> := ["Basics", "Connection", "Discovery", "Telemetry", "Control", "Alarms", "Commissioning"]

  const LastStep := |AddSteps| - 1

  datatype Device = Device(kind: Option<string>, name: string, endpoint: string, meta: map<string, string>)

  /** `${type}`: a missing type prints as 'null'. */
  function KindText(kind: Option<string>): string
  {
    if kind.Some? then kind.value else "null"
  }

  /**
   * The name given when the name field is empty: the type text, a dash, and
   * the decimal digits of the new list length.
   */
  function DefaultName(kind: Option<string>, count: nat): (name: string)
    ensures |name| > |KindText(kind)| + 1 && name[..|KindText(kind)| + 1] == KindText(kind) + "-"
    ensures var digits := name[|KindText(kind)| + 1..];
      (forall i :: 0 <= i < |digits| ==> IsAsciiDigit(digits[i])) && DecimalValue(digits) == count + 1
  {
    var p := KindText(kind) + "-";
    var name := p + NatToString(count + 1);
    assert name[..|p|] == p && name[|p|..] == NatToString(count + 1);
    DecimalRoundTrip(count + 1);
    name
  }

  /** Default names given at different list lengths differ, so unnamed devices saved one after another never share a name. */
  lemma DefaultNamesDiffer(kind: Option<string>, n: nat, m: nat)
    requires n != m
    ensures DefaultName(kind, n) != DefaultName(kind, m)
  {
  }

  /** The device types the add buttons open the modal with; each has its own protocol list on the 'Connection' step. */
  const DeviceKinds: set<string> := {"Inverter", "Transformer & Grid", "BMS", "Breakers", "Analyzers", "Facility", "Security"}

  /** What `#devName` reads at a step: the typed text on 'Basics', whose body renders it, and missing on any other step. */
  function NameOnPage(step: nat, typed: string): (r: Option<string>)
    requires step <= LastStep
    ensures r.Some? <==> AddSteps[step] == "Basics"
    ensures r.Some? ==> r.value == typed
  {
    if AddSteps[step] == "Basics" then Some(typed) else None
  }

  /**
   * What `#host` reads at a step: the typed text on 'Connection' for the seven
   * device types, whose protocol forms render it, and missing on any other step.
   */
  function HostOnPage(step: nat, kind: Option<string>, typed: string): (r: Option<string>)
    requires step <= LastStep
    ensures r.Some? <==> AddSteps[step] == "Connection" && kind.Some? && kind.value in DeviceKinds
    ensures r.Some? ==> r.value == typed
  {
    if AddSteps[step] == "Connection" && kind.Some? && kind.value in DeviceKinds then Some(typed) else None
  }

  /** The device `saveNewDevice` stores. */
  function NewDevice(kind: Option<string>, data: map<string, string>, devName: Option<string>, host: Option<string>, count: nat): (d: Device)
    ensures devName.Some? && devName.value != "" ==> d.name == devName.value
    ensures !(devName.Some? && devName.value != "") ==> d.name == DefaultName(kind, count)
    ensures d.kind == kind && d.meta == data
    ensures d.endpoint == if host.Some? then host.value else ""
  {
    Device(kind, if devName.Some? && devName.value != "" then devName.value else DefaultName(kind, count),
           if host.Some? then host.value else "", data)
  }

  class AddModal {
    var kind: Option<string>
    var step: nat
    var data: map<string, string>
    var open: bool
    /** `localStorage['emsDevices']`. */
    var devices: seq<Device>
    /** The corrected flow's name and host, recorded while their steps are on the page. */
    var recordedName: Option<string>
    var recordedHost: Option<string>

    predicate Valid()
      reads this
    {
      step <= LastStep
    }

    constructor (stored: seq<Device>)
      ensures Valid() && kind.None? && step == 0 && data == map[] && !open && devices == stored
      ensures recordedName.None? && recordedHost.None?
    {
      kind := None;
      step := 0;
      data := map[];
      open := false;
      devices := stored;
      recordedName := None;
      recordedHost := None;
    }

    /** `openAddModal`: a fresh first step for the type (and, in the corrected flow, nothing recorded yet). */
    method OpenAddModal(kind: string)
      modifies this
      ensures Valid() && this.kind == Some(kind) && step == 0 && data == map[] && open
      ensures devices == old(devices)
      ensures recordedName.None? && recordedHost.None?
    {
      recordedName := None;
      recordedHost := None;
      this.kind := Some(kind);
      step := 0;
      data := map[];
      open := true;
    }

    /** `closeAddModal`: only hides the modal. */
    method CloseAddModal()
      modifies this
      ensures !open
      ensures kind == old(kind) && step == old(step) && data == old(data) && devices == old(devices)
      ensures recordedName == old(recordedName) && recordedHost == old(recordedHost)
    {
      open := false;
    }

    /** The Next button: forward while not on the last step; nothing is validated. */
    method NextPressed()
      requires Valid()
      modifies this
      ensures Valid() && step == if old(step) < LastStep then old(step) + 1 else old(step)
      ensures kind == old(kind) && data == old(data) && open == old(open) && devices == old(devices)
      ensures recordedName == old(recordedName) && recordedHost == old(recordedHost)
    {
      if step < LastStep {
        step := step + 1;
      }
    }

    /** The Back button: back while not on the first step. */
    method BackPressed()
      requires Valid()
      modifies this
      ensures Valid() && step == if old(step) > 0 then old(step) - 1 else old(step)
      ensures kind == old(kind) && data == old(data) && open == old(open) && devices == old(devices)
      ensures recordedName == old(recordedName) && recordedHost == old(recordedHost)
    {
      if step > 0 {
        step := step - 1;
      }
    }

    /** A step label: any step, directly. */
    method LabelClicked(index: nat)
      requires index <= LastStep
      modifies this
      ensures Valid() && step == index
      ensures kind == old(kind) && data == old(data) && open == old(open) && devices == old(devices)
      ensures recordedName == old(recordedName) && recordedHost == old(recordedHost)
    {
      step := index;
    }

    /**
     * `saveNewDevice` as written: it reads `#devName` and `#host` from the
     * step on the page, appends exactly one device, then hides the modal.
     */
    method SaveNewDevice(typedName: string, typedHost: string)
      requires Valid()
      modifies this
      ensures devices == old(devices) + [NewDevice(old(kind), old(data), NameOnPage(old(step), typedName),
                                                   HostOnPage(old(step), old(kind), typedHost), |old(devices)|)]
      ensures !open && kind == old(kind) && step == old(step) && data == old(data)
      ensures recordedName == old(recordedName) && recordedHost == old(recordedHost)
    {
      var dev := NewDevice(kind, data, NameOnPage(step, typedName), HostOnPage(step, kind, typedHost), |devices|);
      devices := devices + [dev];
      CloseAddModal();
    }

    /** The corrected flow: the name and host on the page are kept when the user moves on. */
    method RecordInputs(typedName: string, typedHost: string)
      requires Valid()
      modifies this
      ensures recordedName == Remember(old(recordedName), NameOnPage(old(step), typedName))
      ensures recordedHost == Remember(old(recordedHost), HostOnPage(old(step), old(kind), typedHost))
      ensures kind == old(kind) && step == old(step) && data == old(data) && open == old(open) && devices == old(devices)
    {
      recordedName := Remember(recordedName, NameOnPage(step, typedName));
      recordedHost := Remember(recordedHost, HostOnPage(step, kind, typedHost));
    }

    /** The corrected save: the device is built from the recorded name and host rather than from the last step's page. */
    method SaveRecordedDevice()
      modifies this
      ensures devices == old(devices) + [NewDevice(old(kind), old(data), old(recordedName), old(recordedHost), |old(devices)|)]
      ensures !open && kind == old(kind) && step == old(step) && data == old(data)
    {
      var dev := NewDevice(kind, data, recordedName, recordedHost, |devices|);
      devices := devices + [dev];
      CloseAddModal();
    }
  }

  /** A value read from the page replaces the recorded one; a missing input keeps it. */
  function Remember(recorded: Option<string>, onPage: Option<string>): (r: Option<string>)
    ensures onPage.Some? ==> r == onPage
    ensures onPage.None? ==> r == recorded
  {
    if onPage.Some? then onPage else recorded
  }

  /**
   * As written, a save from 'Commissioning', the only step that shows Save,
   * ignores whatever was typed: the name is the default one and the endpoint is empty.
   */
  lemma SaveFromLastStepIgnoresTyping(kind: Option<string>, data: map<string, string>, typedName: string, typedHost: string, count: nat)
    ensures var d := NewDevice(kind, data, NameOnPage(LastStep, typedName), HostOnPage(LastStep, kind, typedHost), count);
      d.name == DefaultName(kind, count) && d.endpoint == ""
  {
    assert AddSteps[LastStep] == "Commissioning";
  }

  /** A name typed as "Inverter A" on 'Basics' is saved as "Inverter-1" into an empty list. */
  lemma TypedNameLost()
    ensures NewDevice(Some("Inverter"), map[], NameOnPage(LastStep, "Inverter A"), HostOnPage(LastStep, Some("Inverter"), "10.0.0.5"), 0)
      == Device(Some("Inverter"), "Inverter-1", "", map[])
  {
    SaveFromLastStepIgnoresTyping(Some("Inverter"), map[], "Inverter A", "10.0.0.5", 0);
    assert NatToString(1) == "1";
  }

  /**
   * The corrected save keeps what was typed: a non-empty name recorded on
   * 'Basics' and a host recorded on 'Connection', whatever came before,
   * become the device's name and endpoint.
   */
  lemma RecordedSaveKeepsTyping(kind: string, data: map<string, string>, before: Option<string>, beforeHost: Option<string>,
                                typedName: string, typedHost: string, count: nat)
    requires kind in DeviceKinds && typedName != ""
    ensures var name := Remember(before, NameOnPage(0, typedName));
      var host := Remember(beforeHost, HostOnPage(1, Some(kind), typedHost));
      var d := NewDevice(Some(kind), data, name, host, count);
      d.name == typedName && d.endpoint == typedHost
  {
    assert AddSteps[0] == "Basics" && AddSteps[1] == "Connection";
  }
}
