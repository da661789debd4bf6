/**
 * The bank's JSON answer as both scripts see it after `request` returns.
 * A rate record is a JSON object, modelled as a map from field name to an
 * opaque value, so that a missing field is a `KeyError` the model can follow.
 */
module Rates {
  import opened Wrappers

  /** One element of the `exchangeRate` list, e.g. "currency", "purchaseRate", "saleRateNB". */
  type Record = map<string, string>

  /**
   * What `request` hands back: `None` (bad status or connection error), or a
   * decoded JSON object that may or may not carry the `exchangeRate` list;
   * `otherFields` says whether it has any other key.
   */
  datatype Response =
    | NoResponse
    | Body(exchangeRate: Option<seq<Record>>, otherFields: bool)

  /** Python truthiness of the response: `None` and `{}` are falsy. */
  predicate Truthy(resp: Response)
    ensures Truthy(resp) ==> resp.Body?
    ensures resp.Body? && resp.exchangeRate.Some? ==> Truthy(resp)
  {
    resp.Body? && (resp.exchangeRate.Some? || resp.otherFields)
  }

  /** `exc["currency"] == code`, for a record that has the field. */
  predicate IsCurrency(exc: Record, code: string) {
    "currency" in exc && exc["currency"] == code
  }

  /** Every record carries a "currency" field, so reading it never raises. */
  predicate AllTagged(rates: seq<Record>) {
    forall k :: 0 <= k < |rates| ==> "currency" in rates[k]
  }

  /** The quote line both scripts print: `<code> - buy: <buy>, sale: <sale>. Date: <date>`. */
  function QuoteLine(code: string, buy: string, sale: string, date: string): (line: string)
    ensures StartsWithCode(line, code)
    ensures |date| <= |line| && line[|line| - |date|..] == date
  {
    code + " - buy: " + buy + ", sale: " + sale + ". Date: " + date
  }

  predicate StartsWithCode(line: string, code: string) {
    |code| + 8 <= |line| && line[..|code| + 8] == code + " - buy: "
  }
}
