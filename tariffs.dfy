/**
 * The tariff-rule table of the tariffs settings page (tariffs-crud.js):
 * seasonal time-of-use prices, added, re-priced and deleted through
 * `prompt`/`confirm` dialogs whose answers are parameters here.
 */
module Tariffs {

  import opened Common
  import opened JsTables

  /** A rule; the source's `type` field is `kind` here. */
  datatype TariffRule = TariffRule(id: Id, season: string, timeRange: string, price: string, kind: string)

  function SeedRules(): seq<TariffRule>
  {
    [ TariffRule(Num(1), "Yaz", "10:00–18:00", "2.1 TRY/kWh", "peak"),
      TariffRule(Num(2), "Yaz", "18:00–22:00", "1.8 TRY/kWh", "mid"),
      TariffRule(Num(3), "Kış", "07:00–19:00", "1.9 TRY/kWh", "peak") ]
  }

  function Ids(rules: seq<TariffRule>): (r: seq<Id>)
    ensures |r| == |rules| && forall i :: 0 <= i < |rules| ==> r[i] == rules[i].id
  {
    seq(|rules|, i requires 0 <= i < |rules| => rules[i].id)
  }

  /** The rule `newTariff` appends: each empty or cancelled answer falls back to its default, and the type is 'custom'. */
  function NewRule(rules: seq<TariffRule>, season: Option<string>, timeRange: Option<string>, price: Option<string>): (r: TariffRule)
    ensures r.kind == "custom"
    ensures r.season == PromptOr(season, "Yaz")
    ensures r.timeRange == PromptOr(timeRange, "00:00–23:59")
    ensures r.price == PromptOr(price, "1.5")
  {
    TariffRule(NextId(Ids(rules)), PromptOr(season, "Yaz"), PromptOr(timeRange, "00:00–23:59"), PromptOr(price, "1.5"), "custom")
  }

  /** While some rule has a numeric id, the new rule's id differs from every existing one. */
  lemma NewRuleIdFresh(rules: seq<TariffRule>, season: Option<string>, timeRange: Option<string>, price: Option<string>)
    requires exists i :: 0 <= i < |rules| && rules[i].id.Num?
    ensures NewRule(rules, season, timeRange, price).id.Num?
    ensures forall i :: 0 <= i < |rules| ==> rules[i].id != NewRule(rules, season, timeRange, price).id
  {
    var ids := Ids(rules);
    var k :| 0 <= k < |rules| && rules[k].id.Num?;
    assert ids[k].Num?;
    NextIdFresh(ids);
  }

  /** `editTariff`: only the price of the first rule with the id changes; an unknown id or a cancelled prompt changes nothing. */
  function Repriced(rules: seq<TariffRule>, id: Id, price: Option<string>): (r: seq<TariffRule>)
    ensures |r| == |rules|
    ensures price.None? ==> r == rules
    ensures forall i :: 0 <= i < |rules| ==> r[i] == rules[i] || (r[i] == rules[i].(price := price.value) && rules[i].id == id)
    ensures price.Some? ==> forall i :: 0 <= i < |rules| && rules[i].id == id && (forall j :: 0 <= j < i ==> rules[j].id != id) ==>
      r[i] == rules[i].(price := price.value) && forall j :: 0 <= j < |rules| && j != i ==> r[j] == rules[j]
  {
    match IndexWhere(rules, (x: TariffRule) => x.id == id)
    case None => rules
    case Some(i) => if price.None? then rules else rules[i := rules[i].(price := price.value)]
  }

  /** `tariffRules.filter(t => t.id !== id)`. */
  function WithoutRule(rules: seq<TariffRule>, id: Id): (r: seq<TariffRule>)
    ensures forall i :: 0 <= i < |r| ==> r[i].id != id && r[i] in rules
    ensures forall i :: 0 <= i < |rules| && rules[i].id != id ==> rules[i] in r
  {
    Filter(rules, (x: TariffRule) => x.id != id)
  }

  /** Deleting an id that no rule carries leaves the table as it was. */
  lemma WithoutAbsentRule(rules: seq<TariffRule>, id: Id)
    requires forall i :: 0 <= i < |rules| ==> rules[i].id != id
    ensures WithoutRule(rules, id) == rules
  {
    FilterAllKept(rules, (x: TariffRule) => x.id != id);
  }

  class TariffTable {
    var tariffRules: seq<TariffRule>

    constructor ()
      ensures tariffRules == SeedRules()
    {
      tariffRules := SeedRules();
    }

    /** `newTariff`: the three prompt answers; exactly one rule is appended. */
    method NewTariff(season: Option<string>, timeRange: Option<string>, price: Option<string>)
      modifies this
      ensures tariffRules == old(tariffRules) + [NewRule(old(tariffRules), season, timeRange, price)]
    {
      tariffRules := tariffRules + [NewRule(tariffRules, season, timeRange, price)];
    }

    /** `editTariff`: `price` is the prompt's answer, asked only for an existing id. */
    method EditTariff(id: Id, price: Option<string>)
      modifies this
      ensures tariffRules == Repriced(old(tariffRules), id, price)
    {
      var found := IndexWhere(tariffRules, (x: TariffRule) => x.id == id);
      if found.None? {
        return;
      }
      if price.Some? {
        var i := found.value;
        tariffRules := tariffRules[i := tariffRules[i].(price := price.value)];
      }
    }

    /** `deleteTariff`: the confirmation comes first; when given, every rule with the id goes. */
    method DeleteTariff(id: Id, confirmed: bool)
      modifies this
      ensures tariffRules == if confirmed then WithoutRule(old(tariffRules), id) else old(tariffRules)
    {
      if !confirmed {
        return;
      }
      tariffRules := WithoutRule(tariffRules, id);
    }
  }
}
