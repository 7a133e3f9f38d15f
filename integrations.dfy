/**
 * The API-key table of the integrations settings page
 * (integrations-crud.js), next to the webhook list that the key operations
 * leave alone.  Prompt and confirm answers, the random key suffix and the
 * expiry date computed from the clock are parameters.
 */
module Integrations {

  import opened Common
  import opened JsTables

  datatype ApiKey = ApiKey(id: Id, name: string, key: string, scope: string, ip: string, expiry: string)

  datatype Webhook = Webhook(id: Id, name: string, url: string, secret: string, events: string)

  function SeedKeys(): seq<ApiKey>
  {
    [ ApiKey(Num(1), "Production API", "****abcd", "read", "10.0.0.0/8", "2026-01-01"),
      ApiKey(Num(2), "Dashboard API", "****efgh", "read,write", "192.168.1.0/24", "2025-12-31") ]
  }

  function SeedWebhooks(): seq<Webhook>
  {
    [ Webhook(Num(1), "Alert Webhook", "https://example.com/webhook", "****xyz", "alarms,controls") ]
  }

  function Ids(keys: seq<ApiKey>): (r: seq<Id>)
    ensures |r| == |keys| && forall i :: 0 <= i < |keys| ==> r[i] == keys[i].id
  {
    seq(|keys|, i requires 0 <= i < |keys| => keys[i].id)
  }

  /**
   * The key `newAPIKey` appends.  `suffix` stands for the four characters
   * taken from `Math.random().toString(36)`, `expiry` for the date one year
   * from now.
   */
  function NewKey(keys: seq<ApiKey>, name: Option<string>, scope: Option<string>, ip: Option<string>,
                  suffix: string, expiry: string): (r: ApiKey)
    ensures |r.key| == 4 + |suffix| && r.key[..4] == "****" && r.key[4..] == suffix
    ensures r.name == PromptOr(name, "New API Key")
    ensures r.scope == PromptOr(scope, "read")
    ensures r.ip == PromptOr(ip, "0.0.0.0/0")
  {
    ApiKey(NextId(Ids(keys)), PromptOr(name, "New API Key"), "****" + suffix,
           PromptOr(scope, "read"), PromptOr(ip, "0.0.0.0/0"), expiry)
  }

  /** While some key has a numeric id, the new key's id differs from every existing one. */
  lemma NewKeyIdFresh(keys: seq<ApiKey>, name: Option<string>, scope: Option<string>, ip: Option<string>,
                      suffix: string, expiry: string)
    requires exists i :: 0 <= i < |keys| && keys[i].id.Num?
    ensures NewKey(keys, name, scope, ip, suffix, expiry).id.Num?
    ensures forall i :: 0 <= i < |keys| ==> keys[i].id != NewKey(keys, name, scope, ip, suffix, expiry).id
  {
    var ids := Ids(keys);
    var k :| 0 <= k < |keys| && keys[k].id.Num?;
    assert ids[k].Num?;
    NextIdFresh(ids);
  }

  /** `editAPIKey`: scope and ip of the first key with the id change independently, each only when its prompt was answered. */
  function EditedKeys(keys: seq<ApiKey>, id: Id, scope: Option<string>, ip: Option<string>): (r: seq<ApiKey>)
    ensures |r| == |keys|
    ensures scope.None? && ip.None? ==> r == keys
    ensures forall i :: 0 <= i < |keys| ==>
      r[i].id == keys[i].id && r[i].name == keys[i].name && r[i].key == keys[i].key && r[i].expiry == keys[i].expiry
    ensures forall i :: 0 <= i < |keys| && keys[i].id == id && (forall j :: 0 <= j < i ==> keys[j].id != id) ==>
      r[i].scope == (if scope.Some? then scope.value else keys[i].scope) &&
      r[i].ip == (if ip.Some? then ip.value else keys[i].ip) &&
      forall j :: 0 <= j < |keys| && j != i ==> r[j] == keys[j]
    ensures (forall i :: 0 <= i < |keys| ==> keys[i].id != id) ==> r == keys
  {
    match IndexWhere(keys, (x: ApiKey) => x.id == id)
    case None => keys
    case Some(i) =>
      var k := keys[i];
      var k1 := if scope.Some? then k.(scope := scope.value) else k;
      var k2 := if ip.Some? then k1.(ip := ip.value) else k1;
      keys[i := k2]
  }

  /** `apiKeys.filter(k => k.id !== id)`. */
  function WithoutKey(keys: seq<ApiKey>, id: Id): (r: seq<ApiKey>)
    ensures forall i :: 0 <= i < |r| ==> r[i].id != id && r[i] in keys
    ensures forall i :: 0 <= i < |keys| && keys[i].id != id ==> keys[i] in r
  {
    Filter(keys, (x: ApiKey) => x.id != id)
  }

  class IntegrationTables {
    var apiKeys: seq<ApiKey>
    var webhooks: seq<Webhook>

    constructor ()
      ensures apiKeys == SeedKeys() && webhooks == SeedWebhooks()
    {
      apiKeys := SeedKeys();
      webhooks := SeedWebhooks();
    }

    /** `newAPIKey`: exactly one key is appended; the webhooks stay as they were. */
    method NewAPIKey(name: Option<string>, scope: Option<string>, ip: Option<string>, suffix: string, expiry: string)
      modifies this
      ensures apiKeys == old(apiKeys) + [NewKey(old(apiKeys), name, scope, ip, suffix, expiry)]
      ensures webhooks == old(webhooks)
    {
      apiKeys := apiKeys + [NewKey(apiKeys, name, scope, ip, suffix, expiry)];
    }

    /** `editAPIKey`: both prompts are asked for an existing id, and each answer is applied on its own. */
    method EditAPIKey(id: Id, scope: Option<string>, ip: Option<string>)
      modifies this
      ensures apiKeys == EditedKeys(old(apiKeys), id, scope, ip)
      ensures webhooks == old(webhooks)
    {
      var found := IndexWhere(apiKeys, (x: ApiKey) => x.id == id);
      if found.None? {
        return;
      }
      var i := found.value;
      if scope.Some? {
        apiKeys := apiKeys[i := apiKeys[i].(scope := scope.value)];
      }
      if ip.Some? {
        apiKeys := apiKeys[i := apiKeys[i].(ip := ip.value)];
      }
    }

    /** `deleteAPIKey`: the confirmation comes first; when given, every key with the id goes. */
    method DeleteAPIKey(id: Id, confirmed: bool)
      modifies this
      ensures apiKeys == if confirmed then WithoutKey(old(apiKeys), id) else old(apiKeys)
      ensures webhooks == old(webhooks)
    {
      if !confirmed {
        return;
      }
      apiKeys := WithoutKey(apiKeys, id);
    }
  }
}
