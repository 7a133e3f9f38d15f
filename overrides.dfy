/**
 * Per-device parameter overrides (overrides.js): a map from field name to
 * value kept in browser storage under `overrides_<deviceId>`, the info bar
 * that summarises it, and the revert-to-profile action.
 *
 * Browser storage is a map from storage key to the stored object; the JSON
 * text in between is not modelled, because `JSON.parse(JSON.stringify(o))`
 * gives back `o` for the values stored here.
 */
module Overrides {

  /** The JSON values an override can hold. */
  datatype JsValue = JNum(num: real) | JStr(str: string) | JBool(b: bool) | JNull

  type OverrideMap = map<string, JsValue>

  /** JavaScript truthiness for these values: 0, '', false and null are falsy. */
  predicate Truthy(v: JsValue)
  {
    match v
    case JNum(x) => x != 0.0
    case JStr(s) => s != ""
    case JBool(b) => b
    case JNull => false
  }

  /** The storage key of a device's overrides. */
  function StorageKey(deviceId: string): (k: string)
    ensures |k| == 10 + |deviceId| && k[..10] == "overrides_" && k[10..] == deviceId
  {
    "overrides_" + deviceId
  }

  lemma StorageKeyInjective(d1: string, d2: string)
    ensures StorageKey(d1) == StorageKey(d2) ==> d1 == d2
  {
    if StorageKey(d1) == StorageKey(d2) {
      assert d1 == StorageKey(d1)[10..];
    }
  }

  /** `loadOverrides`: what is stored for the device, or the empty map. */
  function Load(storage: map<string, OverrideMap>, deviceId: string): (o: OverrideMap)
    ensures StorageKey(deviceId) !in storage ==> o == map[]
  {
    if StorageKey(deviceId) in storage then storage[StorageKey(deviceId)] else map[]
  }

  /** `saveOverrides`. */
  function Save(storage: map<string, OverrideMap>, deviceId: string, o: OverrideMap): map<string, OverrideMap>
  {
    storage[StorageKey(deviceId) := o]
  }

  /** Loading returns what was last saved for that device, and saving for one device does not disturb another. */
  lemma LoadAfterSave(storage: map<string, OverrideMap>, deviceId: string, o: OverrideMap, other: string)
    ensures Load(Save(storage, deviceId, o), deviceId) == o
    ensures other != deviceId ==> Load(Save(storage, deviceId, o), other) == Load(storage, other)
  {
    StorageKeyInjective(deviceId, other);
  }

  /** The name the info bar shows: `_profile` when truthy, otherwise the generic SunSpec profile. */
  function ProfileLabel(o: OverrideMap): (r: JsValue)
    ensures "_profile" in o && Truthy(o["_profile"]) ==> r == o["_profile"]
    ensures !("_profile" in o && Truthy(o["_profile"])) ==> r == JStr("Generic SunSpec-103 v1.2")
  {
    if "_profile" in o && Truthy(o["_profile"]) then o["_profile"] else JStr("Generic SunSpec-103 v1.2")
  }

  /** The info bar's override count: every key, `_profile` included. */
  function OverrideCount(o: OverrideMap): (n: nat)
    ensures n == 0 <==> o == map[]
    ensures "_profile" in o ==> n >= 1
  {
    assert o != map[] ==> exists k :: k in o;
    |o.Keys|
  }

  /** One row of the overrides modal. */
  datatype Field = Field(name: string, profileDefault: real, unit: string)

  function Fields(): seq<Field>
  {
    [ Field("poll_interval_s", 60.0, "s"),
      Field("timeout_ms", 2000.0, "ms"),
      Field("retries", 3.0, ""),
      Field("scale_factor", 1.0, "") ]
  }

  /** `overrides[name] || profileDefault`: a missing or falsy override (0 included) shows the default. */
  function Current(o: OverrideMap, f: Field): (v: JsValue)
    ensures f.name in o && Truthy(o[f.name]) ==> v == o[f.name]
    ensures !(f.name in o && Truthy(o[f.name])) ==> v == JNum(f.profileDefault)
  {
    if f.name in o && Truthy(o[f.name]) then o[f.name] else JNum(f.profileDefault)
  }

  /** The 'Overridden' badge: the shown value is not strictly equal to the default. */
  predicate IsOverridden(o: OverrideMap, f: Field)
  {
    Current(o, f) != JNum(f.profileDefault)
  }

  /** A field shows 'Overridden' exactly when a truthy override differs from the default, so an override of 0 reads as 'Default'. */
  lemma OverriddenIff(o: OverrideMap, f: Field)
    requires f in Fields()
    ensures IsOverridden(o, f) <==> f.name in o && Truthy(o[f.name]) && o[f.name] != JNum(f.profileDefault)
    ensures f.name in o && o[f.name] == JNum(0.0) ==> !IsOverridden(o, f)
  {
  }

  /** `delete overrides[fieldName]`. */
  function Reverted(o: OverrideMap, fieldName: string): (r: OverrideMap)
    ensures fieldName !in r
    ensures forall k :: k in o && k != fieldName ==> k in r && r[k] == o[k]
    ensures forall k :: k in r ==> k in o
  {
    o - {fieldName}
  }

  /** After a revert the field shows its profile default. */
  lemma RevertShowsDefault(o: OverrideMap, f: Field)
    ensures Current(Reverted(o, f.name), f) == JNum(f.profileDefault)
    ensures !IsOverridden(Reverted(o, f.name), f)
  {
  }

  class OverridesManager {
    /** Browser storage, as far as the override keys go. */
    var storage: map<string, OverrideMap>

    constructor (storage0: map<string, OverrideMap>)
      ensures storage == storage0
    {
      storage := storage0;
    }

    method LoadOverrides(deviceId: string) returns (o: OverrideMap)
      ensures StorageKey(deviceId) in storage ==> o == storage[StorageKey(deviceId)]
      ensures StorageKey(deviceId) !in storage ==> o == map[]
    {
      o := Load(storage, deviceId);
    }

    method SaveOverrides(deviceId: string, o: OverrideMap)
      modifies this
      ensures storage == Save(old(storage), deviceId, o)
    {
      storage := storage[StorageKey(deviceId) := o];
    }

    /** `revertField`: loads, drops exactly the named key, stores the result back. */
    method RevertField(deviceId: string, fieldName: string)
      modifies this
      ensures storage == Save(old(storage), deviceId, Reverted(Load(old(storage), deviceId), fieldName))
      ensures Load(storage, deviceId) == Reverted(Load(old(storage), deviceId), fieldName)
    {
      var o := LoadOverrides(deviceId);
      o := o - {fieldName};
      SaveOverrides(deviceId, o);
      LoadAfterSave(old(storage), deviceId, o, deviceId);
    }
  }
}
