/**
 * The device-profile editor (profiles-new.js): the list filter, saving a
 * profile from the form (validation, tags, insert-or-replace in the stored
 * list), deleting, resetting and copying it, and the point-map checks: the
 * structural validation, the status line and the preview's truncation.
 *
 * `localStorage['deviceProfiles']` is the field `stored` (None while nothing
 * was stored); the built-in profile catalogue is the parameter `defaults`;
 * form values, `confirm`/`prompt` answers and `Date.now()` are parameters.
 */
module ProfilesEditor {

  import opened Common
  import opened Strings

  datatype Profile = Profile(
    id: string, name: string, description: string, deviceType: string, protocol: string,
    defaultPointMap: string, pollInterval: Option<int>, connection: map<string, string>,
    capabilities: map<string, bool>, tags: seq<string>)

  /** The list filter: the search in name or description, then the type and protocol filters; an empty box lets everything through. */
  predicate Listed(p: Profile, searchBox: string, typeFilter: string, protocolFilter: string)
  {
    var term := Lower(searchBox);
    (term == "" || Contains(Lower(p.name), term) || Contains(Lower(p.description), term))
    && (typeFilter == "" || p.deviceType == typeFilter)
    && (protocolFilter == "" || p.protocol == protocolFilter)
  }

  /** `renderProfilesList`'s filtered list, in catalogue order. */
  function ListedProfiles(profiles: seq<Profile>, searchBox: string, typeFilter: string, protocolFilter: string): (r: seq<Profile>)
    ensures |r| <= |profiles|
    ensures forall k :: 0 <= k < |r| ==> r[k] in profiles && Listed(r[k], searchBox, typeFilter, protocolFilter)
    ensures forall k :: 0 <= k < |profiles| && Listed(profiles[k], searchBox, typeFilter, protocolFilter) ==> profiles[k] in r
  {
    if |profiles| == 0 then []
    else
      var rest := ListedProfiles(profiles[1..], searchBox, typeFilter, protocolFilter);
      assert forall k :: 1 <= k < |profiles| ==> profiles[k] == profiles[1..][k - 1];
      if Listed(profiles[0], searchBox, typeFilter, protocolFilter) then [profiles[0]] + rest else rest
  }

  /** Listing a concatenation lists each part, so the listed profiles keep their catalogue order. */
  lemma {:induction false} ListedProfilesAppend(a: seq<Profile>, b: seq<Profile>, searchBox: string, typeFilter: string, protocolFilter: string)
    ensures ListedProfiles(a + b, searchBox, typeFilter, protocolFilter)
      == ListedProfiles(a, searchBox, typeFilter, protocolFilter) + ListedProfiles(b, searchBox, typeFilter, protocolFilter)
  {
    if |a| == 0 {
      assert a + b == b;
    } else {
      assert (a + b)[0] == a[0] && (a + b)[1..] == a[1..] + b;
      ListedProfilesAppend(a[1..], b, searchBox, typeFilter, protocolFilter);
    }
  }

  /** With every box empty the whole catalogue is listed. */
  lemma {:induction false} NoFilterListsAll(profiles: seq<Profile>)
    ensures ListedProfiles(profiles, "", "", "") == profiles
  {
    if |profiles| > 0 {
      NoFilterListsAll(profiles[1..]);
      assert Lower("") == "";
      assert [profiles[0]] + profiles[1..] == profiles;
    }
  }

  /** The trimmed, non-empty pieces, in order. */
  function NonEmptyTrimmed(pieces: seq<string>): (r: seq<string>)
    ensures |r| <= |pieces|
    ensures forall k :: 0 <= k < |r| ==> r[k] != "" && !IsJsSpace(r[k][0]) && !IsJsSpace(r[k][|r[k]| - 1])
  {
    if |pieces| == 0 then []
    else
      var t := JsTrim(pieces[0]);
      var rest := NonEmptyTrimmed(pieces[1..]);
      if t == "" then rest else [t] + rest
  }

  /** `value.split(',').map(t => t.trim()).filter(t => t)`. */
  function ParseTags(text: string): (tags: seq<string>)
    ensures forall k :: 0 <= k < |tags| ==> tags[k] != "" && !IsJsSpace(tags[k][0]) && !IsJsSpace(tags[k][|tags[k]| - 1])
  {
    NonEmptyTrimmed(Split(text, ","))
  }

  /** Tags that are trimmed, non-empty and comma-free come back unchanged from their comma-joined text. */
  lemma TagsRoundTrip(tags: seq<string>)
    requires forall k :: 0 <= k < |tags| ==> tags[k] != "" && !IsJsSpace(tags[k][0]) && !IsJsSpace(tags[k][|tags[k]| - 1])
    requires forall k :: 0 <= k < |tags| ==> ',' !in tags[k]
    ensures ParseTags(Join(tags, ",")) == tags
  {
    if |tags| == 0 {
      assert !Contains("", ",");
      assert JsTrim("") == "";
    } else {
      SplitJoin(tags, ',');
      AllTrimmedKept(tags);
    }
  }

  lemma {:induction false} AllTrimmedKept(pieces: seq<string>)
    requires forall k :: 0 <= k < |pieces| ==> pieces[k] != "" && !IsJsSpace(pieces[k][0]) && !IsJsSpace(pieces[k][|pieces[k]| - 1])
    ensures NonEmptyTrimmed(pieces) == pieces
  {
    if |pieces| > 0 {
      TrimByNoSpaceEnds(pieces[0], IsJsSpace);
      AllTrimmedKept(pieces[1..]);
      assert [pieces[0]] + pieces[1..] == pieces;
    }
  }

  /** The values read from the profile form. */
  datatype ProfileForm = ProfileForm(
    name: string, description: string, deviceType: string, protocol: string, defaultPointMap: string,
    pollInterval: Option<int>, connection: map<string, string>, capabilities: map<string, bool>, tagsText: string)

  /** The first validation message `saveProfile` shows, if any. */
  function FormProblem(form: ProfileForm): (r: Option<string>)
    ensures r.None? <==> form.name != "" && form.deviceType != "" && form.protocol != ""
    ensures form.name == "" ==> r == Some("Profile name is required")
  {
    if form.name == "" then Some("Profile name is required")
    else if form.deviceType == "" then Some("Device type is required")
    else if form.protocol == "" then Some("Protocol is required")
    else None
  }

  /** `Object.assign(currentProfile, formData)`: the form's fields replace the profile's; the id stays. */
  function WithForm(p: Profile, form: ProfileForm): (r: Profile)
    ensures r.id == p.id && r.name == form.name && r.deviceType == form.deviceType && r.protocol == form.protocol
    ensures r.description == form.description && r.defaultPointMap == form.defaultPointMap
    ensures r.pollInterval == form.pollInterval && r.connection == form.connection && r.capabilities == form.capabilities
    ensures r.tags == ParseTags(form.tagsText)
  {
    Profile(p.id, form.name, form.description, form.deviceType, form.protocol, form.defaultPointMap,
            form.pollInterval, form.connection, form.capabilities, ParseTags(form.tagsText))
  }

  /** Insert-or-replace by id: the first profile with the id (`findIndex`) is replaced in place, or the profile is appended. */
  function SavedInto(profiles: seq<Profile>, p: Profile): (r: seq<Profile>)
    ensures (exists k :: 0 <= k < |profiles| && profiles[k].id == p.id) ==> |r| == |profiles|
    ensures (forall k :: 0 <= k < |profiles| ==> profiles[k].id != p.id) ==> r == profiles + [p]
    ensures forall k :: 0 <= k < |profiles| && profiles[k].id != p.id ==> r[k] == profiles[k]
    ensures forall k :: 0 <= k < |profiles| && profiles[k].id == p.id && (forall j :: 0 <= j < k ==> profiles[j].id != p.id) ==> r[k] == p
    ensures forall j, k :: 0 <= j < k < |profiles| && profiles[j].id == p.id ==> r[k] == profiles[k]
  {
    match IndexWhere(profiles, (q: Profile) => q.id == p.id)
    case Some(i) => profiles[i := p]
    case None => profiles + [p]
  }

  /** The first profile with the saved id is the saved profile. */
  function FirstWithId(profiles: seq<Profile>, id: string): Option<Profile>
  {
    if |profiles| == 0 then None
    else if profiles[0].id == id then Some(profiles[0])
    else FirstWithId(profiles[1..], id)
  }

  /** Looking a saved profile up by its id finds what was saved. */
  lemma SavedIsFound(profiles: seq<Profile>, p: Profile)
    ensures FirstWithId(SavedInto(profiles, p), p.id) == Some(p)
  {
    var r := SavedInto(profiles, p);
    match IndexWhere(profiles, (q: Profile) => q.id == p.id)
    case Some(i) =>
      FirstWithIdAt(r, p.id, i);
    case None =>
      FirstWithIdAt(r, p.id, |profiles|);
  }

  /** `find` by id returns the element at the first position holding the id. */
  lemma {:induction false} FirstWithIdAt(profiles: seq<Profile>, id: string, k: nat)
    requires k < |profiles| && profiles[k].id == id
    requires forall j :: 0 <= j < k ==> profiles[j].id != id
    ensures FirstWithId(profiles, id) == Some(profiles[k])
  {
    if k > 0 {
      FirstWithIdAt(profiles[1..], id, k - 1);
    }
  }

  /** `profiles.filter(p => p.id !== id)`. */
  function WithoutProfile(profiles: seq<Profile>, id: string): (r: seq<Profile>)
    ensures |r| <= |profiles|
    ensures forall k :: 0 <= k < |r| ==> r[k].id != id && r[k] in profiles
    ensures forall k :: 0 <= k < |profiles| && profiles[k].id != id ==> profiles[k] in r
  {
    if |profiles| == 0 then []
    else
      var rest := WithoutProfile(profiles[1..], id);
      assert forall k :: 1 <= k < |profiles| ==> profiles[k] == profiles[1..][k - 1];
      if profiles[0].id == id then rest else [profiles[0]] + rest
  }

  /** Deleting an id nothing carries changes nothing. */
  lemma {:induction false} WithoutAbsentProfile(profiles: seq<Profile>, id: string)
    requires forall k :: 0 <= k < |profiles| ==> profiles[k].id != id
    ensures WithoutProfile(profiles, id) == profiles
  {
    if |profiles| > 0 {
      WithoutAbsentProfile(profiles[1..], id);
      assert [profiles[0]] + profiles[1..] == profiles;
    }
  }

  /** Why `saveProfile` stopped, or that it saved. */
  datatype SaveOutcome = NoProfile | Refused(message: string) | Saved

  class ProfileEditor {
    var currentProfile: Option<Profile>
    var originalProfileData: Option<Profile>
    var stored: Option<seq<Profile>>

    constructor (stored: Option<seq<Profile>>)
      ensures currentProfile.None? && originalProfileData.None? && this.stored == stored
    {
      currentProfile := None;
      originalProfileData := None;
      this.stored := stored;
    }

    /** The stored list, or the built-in catalogue while nothing is stored. */
    function StoredOr(defaults: seq<Profile>): seq<Profile>
      reads this
    {
      if stored.Some? then stored.value else defaults
    }

    /** `selectProfile`: the profile becomes current and a copy of it the reset snapshot. */
    method SelectProfile(p: Profile)
      modifies this
      ensures currentProfile == Some(p) && originalProfileData == Some(p)
      ensures stored == old(stored)
    {
      currentProfile := Some(p);
      originalProfileData := Some(p);
    }

    /**
     * `saveProfile`: without a current profile, or with an empty name, type
     * or protocol, nothing changes; otherwise the form is applied to the
     * current profile, which is saved into the stored list (the catalogue
     * when nothing was stored) and becomes the new reset snapshot.
     */
    method SaveProfile(form: ProfileForm, defaults: seq<Profile>) returns (outcome: SaveOutcome)
      modifies this
      ensures old(currentProfile).None? ==> outcome == NoProfile
      ensures outcome.Refused? <==> old(currentProfile).Some? && FormProblem(form).Some?
      ensures outcome.Refused? ==> outcome.message == FormProblem(form).value
      ensures !outcome.Saved? ==>
        currentProfile == old(currentProfile) && originalProfileData == old(originalProfileData) && stored == old(stored)
      ensures outcome.Saved? ==>
        var updated := WithForm(old(currentProfile).value, form);
        currentProfile == Some(updated) && originalProfileData == Some(updated)
        && stored == Some(SavedInto(old(StoredOr(defaults)), updated))
    {
      if currentProfile.None? {
        return NoProfile;
      }
      var problem := FormProblem(form);
      if problem.Some? {
        return Refused(problem.value);
      }
      var updated := WithForm(currentProfile.value, form);
      currentProfile := Some(updated);
      var profiles := StoredOr(defaults);
      stored := Some(SavedInto(profiles, updated));
      originalProfileData := Some(updated);
      outcome := Saved;
    }

    /** `deleteProfile`: once confirmed, every stored profile with the current id goes and nothing stays selected. */
    method DeleteProfile(confirmed: bool)
      modifies this
      ensures old(currentProfile).None? || !confirmed ==>
        currentProfile == old(currentProfile) && originalProfileData == old(originalProfileData) && stored == old(stored)
      ensures old(currentProfile).Some? && confirmed ==>
        stored == Some(WithoutProfile(old(StoredOr([])), old(currentProfile).value.id))
        && currentProfile.None? && originalProfileData.None?
    {
      if currentProfile.None? || !confirmed {
        return;
      }
      stored := Some(WithoutProfile(StoredOr([]), currentProfile.value.id));
      currentProfile := None;
      originalProfileData := None;
    }

    /** `resetProfile`: once confirmed, the snapshot becomes the current profile again. */
    method ResetProfile(confirmed: bool)
      modifies this
      ensures old(currentProfile).Some? && old(originalProfileData).Some? && confirmed ==>
        currentProfile == old(originalProfileData)
      ensures !(old(currentProfile).Some? && old(originalProfileData).Some? && confirmed) ==>
        currentProfile == old(currentProfile)
      ensures originalProfileData == old(originalProfileData) && stored == old(stored)
    {
      if currentProfile.Some? && originalProfileData.Some? && confirmed {
        currentProfile := originalProfileData;
      }
    }

    /** `copyProfile`: a named copy with the id 'profile-<now>' is appended to the stored list; an empty or cancelled name copies nothing. */
    method CopyProfile(answer: Option<string>, now: nat, defaults: seq<Profile>)
      modifies this
      ensures old(currentProfile).None? || answer.None? || answer.value == "" ==> stored == old(stored)
      ensures old(currentProfile).Some? && answer.Some? && answer.value != "" ==>
        stored == Some(old(StoredOr(defaults)) + [old(currentProfile).value.(id := "profile-" + NatToString(now), name := answer.value)])
      ensures currentProfile == old(currentProfile) && originalProfileData == old(originalProfileData)
    {
      if currentProfile.None? || answer.None? || answer.value == "" {
        return;
      }
      var copy := currentProfile.value.(id := "profile-" + NatToString(now), name := answer.value);
      stored := Some(StoredOr(defaults) + [copy]);
    }
  }

  /** A value read from a YAML document: absent, null, a text, or a number. */
  datatype Field = Missing | Null | Text(s: string) | Number(n: int)

  /** JavaScript truthiness of a field: an empty text and zero are false. */
  predicate Truthy(f: Field)
  {
    match f
    case Missing => false
    case Null => false
    case Text(s) => s != ""
    case Number(n) => n != 0
  }

  datatype Metadata = Metadata(name: Field, version: Field)
  datatype MapPoint = MapPoint(name: Field, fc: Field, address: Field, kind: Field, unit: Field, scale: Field)

  /** A parsed point map: `metadata` absent when missing, `points` absent when missing or not an array. */
  datatype PointMapDoc = PointMapDoc(metadata: Option<Metadata>, points: Option<seq<MapPoint>>)

  /** The errors of one point, numbered from 1. */
  function PointErrors(p: MapPoint, number: nat): (r: seq<string>)
    ensures |r| <= 3
    ensures |r| == 0 <==> Truthy(p.name) && !p.address.Missing? && Truthy(p.kind)
  {
    var prefix := "Point " + NatToString(number) + ": ";
    (if !Truthy(p.name) then [prefix + "missing name"] else [])
    + (if p.address.Missing? then [prefix + "missing address"] else [])
    + (if !Truthy(p.kind) then [prefix + "missing type"] else [])
  }

  /** The errors of the points from position `from` on. */
  function PointsErrors(points: seq<MapPoint>, from: nat): (r: seq<string>)
    requires from <= |points|
    ensures |r| == 0 <==> forall k :: from <= k < |points| ==> Truthy(points[k].name) && !points[k].address.Missing? && Truthy(points[k].kind)
    decreases |points| - from
  {
    if from == |points| then []
    else PointErrors(points[from], from + 1) + PointsErrors(points, from + 1)
  }

  /** The errors `validatePointMap` reports for the metadata. */
  function MetadataErrors(m: Option<Metadata>): (r: seq<string>)
    ensures |r| == 0 <==> m.Some? && Truthy(m.value.name) && Truthy(m.value.version)
  {
    match m
    case None => ["Missing metadata section"]
    case Some(md) =>
      (if !Truthy(md.name) then ["Missing metadata.name"] else [])
      + (if !Truthy(md.version) then ["Missing metadata.version"] else [])
  }

  /** A point map the editor accepts. */
  predicate WellFormed(doc: PointMapDoc)
  {
    doc.metadata.Some? && Truthy(doc.metadata.value.name) && Truthy(doc.metadata.value.version)
    && doc.points.Some?
    && forall k :: 0 <= k < |doc.points.value| ==>
         Truthy(doc.points.value[k].name) && !doc.points.value[k].address.Missing? && Truthy(doc.points.value[k].kind)
  }

  /**
   * `validatePointMap`: the metadata errors, then one error for a missing
   * points array or up to three per point, collected point by point.
   */
  method ValidatePointMap(doc: PointMapDoc) returns (errors: seq<string>)
    ensures |errors| == 0 <==> WellFormed(doc)
    ensures doc.points.None? ==> errors == MetadataErrors(doc.metadata) + ["Missing or invalid points array"]
    ensures doc.points.Some? ==> errors == MetadataErrors(doc.metadata) + PointsErrors(doc.points.value, 0)
  {
    errors := MetadataErrors(doc.metadata);
    if doc.points.None? {
      errors := errors + ["Missing or invalid points array"];
      return;
    }
    var points := doc.points.value;
    var i := 0;
    while i < |points|
      invariant 0 <= i <= |points|
      invariant errors + PointsErrors(points, i) == MetadataErrors(doc.metadata) + PointsErrors(points, 0)
    {
      errors := errors + PointErrors(points[i], i + 1);
      i := i + 1;
    }
  }

  datatype PointMapEntry = PointMapEntry(path: string, name: string, filename: string)

  datatype PointMapStatus = NoneSelected | Known(title: string) | Unverified(file: string) | NotFound

  /** The name a path is compared with: 'pointmaps/' and '.yaml' taken out once each. */
  function BareName(path: string): string
  {
    ReplaceFirst(ReplaceFirst(path, "pointmaps/", ""), ".yaml", "")
  }

  predicate Matches(pm: PointMapEntry, path: string)
  {
    pm.path == path || pm.name == BareName(path)
  }

  /** The first known point map matching the path. */
  function FindPointMap(maps: seq<PointMapEntry>, path: string): (r: Option<PointMapEntry>)
    ensures r.Some? ==> r.value in maps && Matches(r.value, path)
    ensures r.None? <==> forall k :: 0 <= k < |maps| ==> !Matches(maps[k], path)
    ensures forall k :: 0 <= k < |maps| && Matches(maps[k], path) && (forall j :: 0 <= j < k ==> !Matches(maps[j], path)) ==>
      r == Some(maps[k])
  {
    FindEntry(maps, path, BareName(path))
  }

  /** The first map whose path is `path` or whose name is `bare`. */
  function FindEntry(maps: seq<PointMapEntry>, path: string, bare: string): (r: Option<PointMapEntry>)
    ensures r.Some? ==> r.value in maps && (r.value.path == path || r.value.name == bare)
    ensures r.None? <==> forall k :: 0 <= k < |maps| ==> !(maps[k].path == path || maps[k].name == bare)
    ensures forall k :: 0 <= k < |maps| && (maps[k].path == path || maps[k].name == bare)
                        && (forall j :: 0 <= j < k ==> !(maps[j].path == path || maps[j].name == bare)) ==>
      r == Some(maps[k])
  {
    if |maps| == 0 then None
    else if maps[0].path == path || maps[0].name == bare then Some(maps[0])
    else
      var rest := FindEntry(maps[1..], path, bare);
      assert forall k :: 1 <= k < |maps| ==> maps[k] == maps[1..][k - 1];
      rest
  }

  /** `updatePointMapStatus`. */
  function StatusOf(maps: seq<PointMapEntry>, path: string): (r: PointMapStatus)
    ensures r.NoneSelected? <==> JsTrim(path) == ""
    ensures r.Known? <==> JsTrim(path) != "" && exists k :: 0 <= k < |maps| && Matches(maps[k], path)
    ensures r.Unverified? <==> (JsTrim(path) != "" && (forall k :: 0 <= k < |maps| ==> !Matches(maps[k], path))
                                && (Contains(path, ".yaml") || Contains(path, ".yml")))
    ensures r.Unverified? ==> r.file == Last(Split(path, "/"))
  {
    if JsTrim(path) == "" then NoneSelected
    else match FindPointMap(maps, path)
      case Some(pm) => Known(if pm.filename != "" then pm.filename else pm.name)
      case None =>
        if Contains(path, ".yaml") || Contains(path, ".yml") then Unverified(Last(Split(path, "/")))
        else NotFound
  }

  /** A field as the preview prints it, with `fallback` for a false value. */
  function Shown(f: Field, fallback: string): string
  {
    match f
    case Text(s) => if s != "" then s else fallback
    case Number(n) => if n != 0 then IntToString(n) else fallback
    case Missing => fallback
    case Null => fallback
  }

  /** One preview line. */
  function PreviewLine(p: MapPoint): string
  {
    Shown(p.name, "unnamed") + ": fc=" + Shown(p.fc, "N/A") + ", addr=" + Shown(p.address, "N/A")
    + ", type=" + Shown(p.kind, "N/A")
    + (if Truthy(p.scale) then ", scale=" + Shown(p.scale, "") else "")
    + (if Truthy(p.unit) then ", unit=" + Shown(p.unit, "") else "")
  }

  /** The lines for a list of points. */
  function PreviewLines(points: seq<MapPoint>): (r: seq<string>)
    ensures |r| == |points|
    ensures forall k :: 0 <= k < |points| ==> r[k] == PreviewLine(points[k])
  {
    seq(|points|, k requires 0 <= k < |points| => PreviewLine(points[k]))
  }

  /** How many points the preview lists. */
  const PreviewLimit := 10

  /** The points part of `updatePointMapPreview`: a count, the first ten points, and a line for the rest. */
  function PointsPreview(points: seq<MapPoint>): (r: seq<string>)
    ensures |points| <= PreviewLimit ==> |r| == 1 + |points|
    ensures |points| > PreviewLimit ==> (|r| == 2 + PreviewLimit
      && r[|r| - 1] == "... and " + NatToString(|points| - PreviewLimit) + " more points")
    ensures r[0] == "# Points (" + NatToString(|points|) + " total):"
    ensures forall k :: 0 <= k < |points| && k < PreviewLimit ==> r[k + 1] == PreviewLine(points[k])
  {
    var shown := if |points| > PreviewLimit then points[..PreviewLimit] else points;
    ["# Points (" + NatToString(|points|) + " total):"]
    + PreviewLines(shown)
    + (if |points| > PreviewLimit then ["... and " + NatToString(|points| - PreviewLimit) + " more points"] else [])
  }
}
