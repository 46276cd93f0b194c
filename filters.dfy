/**
 * The billing-query filter built by `format_filter`: a Cost Explorer
 * expression that ANDs two dimension clauses, one on the linked account
 * and one on the region. `Matches` gives an expression its meaning over
 * the dimension values of one cost line item.
 */
module Filters {

  const LINKED_ACCOUNT := "LINKED_ACCOUNT"
  const REGION := "REGION"

  datatype Expression =
    | And(operands: seq<Expression>)
    | Dimensions(key: string, values: seq<string>)

  /** A cost line item, described by its dimension values, is selected by `e`. */
  predicate Matches(e: Expression, item: map<string, string>)
    decreases e
  {
    match e
    case And(ops) => forall i :: 0 <= i < |ops| ==> Matches(ops[i], item)
    case Dimensions(k, vs) => k in item && item[k] in vs
  }

  /** The filter that scopes one forecast request to one (account, region) pair. */
  function FormatFilter(account: string, region: string): (f: Expression)
    ensures forall item :: Matches(f, item) <==>
      LINKED_ACCOUNT in item && item[LINKED_ACCOUNT] == account &&
      REGION in item && item[REGION] == region
  {
    var f := And([Dimensions(LINKED_ACCOUNT, [account]), Dimensions(REGION, [region])]);
    assert forall item :: Matches(f, item) <==>
      Matches(f.operands[0], item) && Matches(f.operands[1], item);
    f
  }

  /** Distinct pairs get distinct filters, so no two pairs share a forecast query. */
  lemma FormatFilterInjective(a1: string, r1: string, a2: string, r2: string)
    requires FormatFilter(a1, r1) == FormatFilter(a2, r2)
    ensures a1 == a2 && r1 == r2
  {
    var f := FormatFilter(a1, r1);
    assert f.operands[0].values[0] == a1 && f.operands[1].values[0] == r1;
  }
}
