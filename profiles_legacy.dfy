/**
 * The older driver-profile page (profiles.js): the global profile list
 * `window.driverProfiles`, the selected id and the reset snapshot, and the
 * create, select, save, reset and delete handlers that change them.
 *
 * `prompt`/`confirm` answers, `Date.now()` and the form values are
 * parameters; `parseInt` results are `Option<int>` (None for NaN).
 */
module ProfilesLegacy {

  import opened Common
  import opened Strings

  /** The six control capability flags. */
  datatype Capabilities = Capabilities(
    setActivePowerLimit: bool, openBreaker: bool, closeBreaker: bool,
    emergencyStop: bool, reactivePowerControl: bool, frequencyControl: bool)

  datatype DriverProfile = DriverProfile(
    id: string, name: string, description: string, pointMapFile: string,
    pollInterval: Option<int>, timeout: Option<int>, retries: Option<int>,
    protocol: string, capabilities: Capabilities, preview: seq<string>)

  /** The values the save handler reads from the form. */
  datatype ProfileFields = ProfileFields(
    name: string, pointMapFile: string, pollInterval: Option<int>, timeout: Option<int>,
    retries: Option<int>, protocol: string, capabilities: Capabilities)

  /** `findIndex(p => p.id === id)`: the first position holding the id. */
  function IndexOf(profiles: seq<DriverProfile>, id: string): (r: Option<nat>)
    ensures r.Some? ==> (r.value < |profiles| && profiles[r.value].id == id
                         && forall j :: 0 <= j < r.value ==> profiles[j].id != id)
    ensures r.None? <==> forall j :: 0 <= j < |profiles| ==> profiles[j].id != id
  {
    if |profiles| == 0 then None
    else if profiles[0].id == id then Some(0)
    else match IndexOf(profiles[1..], id)
      case None =>
        assert forall j :: 1 <= j < |profiles| ==> profiles[j] == profiles[1..][j - 1];
        None
      case Some(k) => Some(k + 1)
  }

  /** A profile appended under an id no earlier profile carries is the one found for it. */
  lemma {:induction false} AppendedIsFound(profiles: seq<DriverProfile>, p: DriverProfile)
    requires forall j :: 0 <= j < |profiles| ==> profiles[j].id != p.id
    ensures IndexOf(profiles + [p], p.id) == Some(|profiles|)
  {
    if |profiles| > 0 {
      AppendedIsFound(profiles[1..], p);
      assert (profiles + [p])[1..] == profiles[1..] + [p];
    }
  }

  /** `driverProfiles.filter(p => p.id !== id)`. */
  function WithoutId(profiles: seq<DriverProfile>, id: string): (r: seq<DriverProfile>)
    ensures |r| <= |profiles|
    ensures forall k :: 0 <= k < |r| ==> r[k].id != id && r[k] in profiles
    ensures forall k :: 0 <= k < |profiles| && profiles[k].id != id ==> profiles[k] in r
  {
    if |profiles| == 0 then []
    else
      var rest := WithoutId(profiles[1..], id);
      assert forall k :: 1 <= k < |profiles| ==> profiles[k] == profiles[1..][k - 1];
      if profiles[0].id == id then rest else [profiles[0]] + rest
  }

  /** Deleting from two halves of the list keeps the survivors of the first half before those of the second. */
  lemma {:induction false} WithoutIdKeepsOrder(a: seq<DriverProfile>, b: seq<DriverProfile>, id: string)
    ensures WithoutId(a + b, id) == WithoutId(a, id) + WithoutId(b, id)
  {
    if |a| == 0 {
      assert a + b == b;
    } else {
      assert (a + b)[0] == a[0] && (a + b)[1..] == a[1..] + b;
      WithoutIdKeepsOrder(a[1..], b, id);
    }
  }

  /** Deleting removes every entry with the id and keeps each other profile as many times as it occurred. */
  lemma {:induction false} WithoutIdCount(profiles: seq<DriverProfile>, id: string, p: DriverProfile)
    requires p.id != id
    ensures multiset(WithoutId(profiles, id))[p] == multiset(profiles)[p]
  {
    if |profiles| > 0 {
      var rest := profiles[1..];
      WithoutIdCount(rest, id, p);
      WithoutIdStep(profiles, id);
      var head := if profiles[0].id == id then [] else [profiles[0]];
      assert multiset(WithoutId(profiles, id)) == multiset(head) + multiset(WithoutId(rest, id));
      assert profiles == [profiles[0]] + rest;
      assert multiset(profiles) == multiset([profiles[0]]) + multiset(rest);
      assert multiset(head)[p] == multiset([profiles[0]])[p];
    }
  }

  /** One step of the filter: the first profile, unless it has the id, then the filtered rest. */
  lemma WithoutIdStep(profiles: seq<DriverProfile>, id: string)
    requires |profiles| > 0
    ensures WithoutId(profiles, id) == (if profiles[0].id == id then [] else [profiles[0]]) + WithoutId(profiles[1..], id)
  {
    if profiles[0].id == id {
      assert [] + WithoutId(profiles[1..], id) == WithoutId(profiles[1..], id);
    }
  }

  /** The form's values over the profile: six scalar fields and the six flags; id, description and preview stay. */
  function Updated(p: DriverProfile, form: ProfileFields): (r: DriverProfile)
    ensures r.id == p.id && r.description == p.description && r.preview == p.preview
    ensures r.name == form.name && r.pointMapFile == form.pointMapFile && r.protocol == form.protocol
    ensures r.pollInterval == form.pollInterval && r.timeout == form.timeout && r.retries == form.retries
    ensures r.capabilities == form.capabilities
  {
    p.(name := form.name, pointMapFile := form.pointMapFile, pollInterval := form.pollInterval,
       timeout := form.timeout, retries := form.retries, protocol := form.protocol,
       capabilities := form.capabilities)
  }

  /** The profile `createNewProfile` makes. */
  function NewProfile(name: string, now: nat): (r: DriverProfile)
    ensures r.id == "profile-" + NatToString(now) && r.name == name
    ensures r.protocol == "modbus_tcp" && r.pollInterval == Some(30) && r.timeout == Some(3000) && r.retries == Some(3)
    ensures r.capabilities == Capabilities(false, false, false, false, false, false)
  {
    DriverProfile("profile-" + NatToString(now), name, "Custom profile", "pointmaps/custom.yaml",
                  Some(30), Some(3000), Some(3), "modbus_tcp",
                  Capabilities(false, false, false, false, false, false),
                  ["# New profile - configure point map"])
  }

  /** The snapshot after `selectProfile(id)`: a copy of the first profile with the id, or the old snapshot when none has it. */
  function SnapshotFor(profiles: seq<DriverProfile>, id: string, previous: Option<DriverProfile>): (r: Option<DriverProfile>)
    ensures IndexOf(profiles, id).None? ==> r == previous
    ensures IndexOf(profiles, id).Some? ==> r == Some(profiles[IndexOf(profiles, id).value]) && r.value.id == id
  {
    match IndexOf(profiles, id)
    case None => previous
    case Some(k) => Some(profiles[k])
  }

  class DriverProfiles {
    var profiles: seq<DriverProfile>
    var selectedId: Option<string>
    var snapshot: Option<DriverProfile>

    constructor (catalogue: seq<DriverProfile>)
      ensures profiles == catalogue && selectedId.None? && snapshot.None?
    {
      profiles := catalogue;
      selectedId := None;
      snapshot := None;
    }

    /** JavaScript truthiness of `selectedProfileId`. */
    predicate HasSelection()
      reads this
    {
      selectedId.Some? && selectedId.value != ""
    }

    /** `selectProfile`: the id is selected even when no profile carries it; the snapshot changes only when one does. */
    method SelectProfile(id: string)
      modifies this
      ensures selectedId == Some(id)
      ensures snapshot == SnapshotFor(profiles, id, old(snapshot))
      ensures profiles == old(profiles)
    {
      selectedId := Some(id);
      var k := IndexOf(profiles, id);
      if k.Some? {
        snapshot := Some(profiles[k.value]);
      }
    }

    /** `createNewProfile`: an empty or cancelled name changes nothing; otherwise one new profile is appended and selected. */
    method CreateNewProfile(answer: Option<string>, now: nat)
      modifies this
      ensures answer.None? || answer.value == "" ==>
        profiles == old(profiles) && selectedId == old(selectedId) && snapshot == old(snapshot)
      ensures answer.Some? && answer.value != "" ==>
        var created := NewProfile(answer.value, now);
        profiles == old(profiles) + [created] && selectedId == Some(created.id)
        && snapshot == SnapshotFor(profiles, created.id, old(snapshot))
    {
      if answer.None? || answer.value == "" {
        return;
      }
      var created := NewProfile(answer.value, now);
      profiles := profiles + [created];
      SelectProfile(created.id);
    }

    /**
     * `saveProfile`: without a selected, existing profile nothing changes;
     * otherwise exactly the first profile with the selected id takes the
     * form's values, and re-selecting makes it the new snapshot.
     */
    method SaveProfile(form: ProfileFields)
      modifies this
      ensures !old(HasSelection()) || IndexOf(old(profiles), old(selectedId).value).None? ==>
        profiles == old(profiles) && selectedId == old(selectedId) && snapshot == old(snapshot)
      ensures old(HasSelection()) && IndexOf(old(profiles), old(selectedId).value).Some? ==>
        var k := IndexOf(old(profiles), old(selectedId).value).value;
        profiles == old(profiles)[k := Updated(old(profiles)[k], form)]
        && selectedId == old(selectedId) && snapshot == Some(profiles[k])
    {
      if !HasSelection() {
        return;
      }
      var id := selectedId.value;
      var k := IndexOf(profiles, id);
      if k.None? {
        return;
      }
      profiles := profiles[k.value := Updated(profiles[k.value], form)];
      SelectProfile(id);
    }

    /** `resetProfile`: once confirmed, the first profile with the selected id is replaced by the snapshot; nothing else changes. */
    method ResetProfile(confirmed: bool)
      modifies this
      ensures !(old(HasSelection()) && old(snapshot).Some? && confirmed && IndexOf(old(profiles), old(selectedId).value).Some?) ==>
        profiles == old(profiles) && selectedId == old(selectedId) && snapshot == old(snapshot)
      ensures old(HasSelection()) && old(snapshot).Some? && confirmed && IndexOf(old(profiles), old(selectedId).value).Some? ==>
        var k := IndexOf(old(profiles), old(selectedId).value).value;
        profiles == old(profiles)[k := old(snapshot).value]
        && selectedId == old(selectedId) && snapshot == SnapshotFor(profiles, selectedId.value, old(snapshot))
    {
      if !HasSelection() || snapshot.None? || !confirmed {
        return;
      }
      var id := selectedId.value;
      var k := IndexOf(profiles, id);
      if k.None? {
        return;
      }
      profiles := profiles[k.value := snapshot.value];
      SelectProfile(id);
    }

    /** `deleteProfile`: once confirmed, every profile with the selected id goes, and the selection and snapshot are cleared. */
    method DeleteProfile(confirmed: bool)
      modifies this
      ensures !(old(HasSelection()) && confirmed && IndexOf(old(profiles), old(selectedId).value).Some?) ==>
        profiles == old(profiles) && selectedId == old(selectedId) && snapshot == old(snapshot)
      ensures old(HasSelection()) && confirmed && IndexOf(old(profiles), old(selectedId).value).Some? ==>
        profiles == WithoutId(old(profiles), old(selectedId).value) && selectedId.None? && snapshot.None?
    {
      if !HasSelection() {
        return;
      }
      var id := selectedId.value;
      if IndexOf(profiles, id).None? || !confirmed {
        return;
      }
      profiles := WithoutId(profiles, id);
      selectedId := None;
      snapshot := None;
    }
  }

  /** A snapshot taken by selecting carries the selected id, so resetting puts back a profile under the same id. */
  lemma ResetKeepsId(profiles: seq<DriverProfile>, id: string, previous: Option<DriverProfile>)
    requires IndexOf(profiles, id).Some?
    ensures SnapshotFor(profiles, id, previous).Some? && SnapshotFor(profiles, id, previous).value.id == id
  {
  }

  /** Saving and then resetting leaves the saved values: the save re-selects, so the snapshot already holds them. */
  lemma {:induction false} ResetAfterSaveKeepsSave(profiles: seq<DriverProfile>, id: string, form: ProfileFields)
    requires IndexOf(profiles, id).Some?
    ensures var k := IndexOf(profiles, id).value;
      var saved := profiles[k := Updated(profiles[k], form)];
      IndexOf(saved, id) == Some(k) && SnapshotFor(saved, id, None) == Some(saved[k])
      && saved[k := SnapshotFor(saved, id, None).value] == saved
  {
    var k := IndexOf(profiles, id).value;
    var saved := profiles[k := Updated(profiles[k], form)];
    assert forall j :: 0 <= j < k ==> saved[j] == profiles[j];
    IndexOfFirst(saved, id, k);
  }

  /** The first position with the id is the one `IndexOf` finds. */
  lemma {:induction false} IndexOfFirst(profiles: seq<DriverProfile>, id: string, k: nat)
    requires k < |profiles| && profiles[k].id == id
    requires forall j :: 0 <= j < k ==> profiles[j].id != id
    ensures IndexOf(profiles, id) == Some(k)
  {
    if k > 0 {
      IndexOfFirst(profiles[1..], id, k - 1);
    }
  }
}
