/** JavaScript values as the connector sees them: a property that may be
    missing is an Option, whose None stands for both `undefined` and `null`
    (the two are not told apart), and `||` picks its left operand when that
    operand is truthy. */
module JsValues {

  datatype Option<+T> = None | Some(value: T)

  /** A string property is truthy when it is present and not empty. */
  predicate Truthy(o: Option<string>)
  {
    o.Some? && o.value != ""
  }

  /** A number property is truthy when it is present and not zero. */
  predicate TruthyNumber(o: Option<nat>)
  {
    o.Some? && o.value != 0
  }

  /** JavaScript `a || b` on two optional strings. */
  function Or(a: Option<string>, b: Option<string>): (r: Option<string>)
    ensures r == a || r == b
    ensures Truthy(r) <==> Truthy(a) || Truthy(b)
  {
    if Truthy(a) then a else b
  }

  /** The chain `c0 || c1 || … || fallback`: the first truthy candidate,
      or the fallback (returned as it is, truthy or not) when none is. */
  function Coalesce(candidates: seq<Option<string>>, fallback: Option<string>): (r: Option<string>)
    ensures (forall i | 0 <= i < |candidates| :: !Truthy(candidates[i])) ==> r == fallback
    ensures forall k | 0 <= k < |candidates| ::
              Truthy(candidates[k]) && (forall j | 0 <= j < k :: !Truthy(candidates[j])) ==> r == candidates[k]
    ensures r == fallback || r in candidates
  {
    if candidates == [] then fallback
    else Or(candidates[0], Coalesce(candidates[1..], fallback))
  }

  /** A two-candidate chain `a || b || fallback`, case by case. */
  lemma CoalescePair(a: Option<string>, b: Option<string>, fallback: Option<string>)
    ensures Coalesce([a, b], fallback) == if Truthy(a) then a else if Truthy(b) then b else fallback
  {
    assert [a, b][1..] == [b];
    assert [b][1..] == [];
  }

  /** A chain that ends in `|| null` never yields an empty string. */
  lemma {:induction false} CoalesceToNullIsTruthyOrNone(candidates: seq<Option<string>>)
    ensures var r := Coalesce(candidates, None); r == None || Truthy(r)
  {
    if candidates != [] {
      CoalesceToNullIsTruthyOrNone(candidates[1..]);
    }
  }
}
