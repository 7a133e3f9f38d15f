/**
 * The conventions shared by the settings pages' in-memory tables
 * (roles, tariff rules, API keys): numeric row ids allocated as
 * `Math.max(...ids) + 1`, and prompt answers defaulted with `||`.
 *
 * `Math.max()` of no arguments is `-Infinity`, and `-Infinity + 1` is
 * `-Infinity` again, so an id is either an integer or negative infinity.
 */
module JsTables {

  import opened Common

  datatype Id = Num(n: int) | NegInfinity

  /** The numeric order on ids: negative infinity is below every integer. */
  predicate AtMost(a: Id, b: Id)
  {
    a.NegInfinity? || (b.Num? && a.n <= b.n)
  }

  /** `Math.max(...ids)`. */
  function MaxId(ids: seq<Id>): (m: Id)
    ensures forall i :: 0 <= i < |ids| ==> AtMost(ids[i], m)
    ensures m.Num? ==> m in ids
    ensures (exists i :: 0 <= i < |ids| && ids[i].Num?) ==> m.Num?
  {
    if |ids| == 0 then NegInfinity
    else
      var rest := MaxId(ids[1..]);
      assert forall i :: 1 <= i < |ids| ==> ids[i] == ids[1..][i - 1];
      if AtMost(ids[0], rest) then rest else ids[0]
  }

  /** `x + 1` on an id. */
  function Succ(x: Id): Id
  {
    match x
    case Num(n) => Num(n + 1)
    case NegInfinity => NegInfinity
  }

  /** The id a new row receives: `Math.max(...ids) + 1`. */
  function NextId(ids: seq<Id>): Id
  {
    Succ(MaxId(ids))
  }

  /** As long as the table holds a row with a numeric id, the new id is numeric and differs from every existing id. */
  lemma NextIdFresh(ids: seq<Id>)
    requires exists i :: 0 <= i < |ids| && ids[i].Num?
    ensures NextId(ids).Num?
    ensures forall i :: 0 <= i < |ids| ==> ids[i] != NextId(ids)
  {
  }

  /**
   * Once a table has been emptied, the next row gets id `-Infinity`, and so
   * does every row added after it: ids stop being distinct.
   */
  lemma NextIdAfterEmptying(k: nat)
    ensures NextId([]) == NegInfinity
    ensures NextId(seq(k, i => NegInfinity)) == NegInfinity
  {
    var ids := seq(k, i => NegInfinity);
    assert forall i :: 0 <= i < |ids| ==> ids[i].NegInfinity?;
  }

  /** `prompt(question) || fallback`: a cancelled (null) or empty answer gives the fallback. */
  function PromptOr(answer: Option<string>, fallback: string): (r: string)
    ensures answer.Some? && answer.value != "" ==> r == answer.value
    ensures answer.None? || answer.value == "" ==> r == fallback
  {
    if answer.Some? && answer.value != "" then answer.value else fallback
  }
}
