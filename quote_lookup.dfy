/**
 * The chat server's on-demand quote: a linear search of the bank's rate
 * records for the first one whose currency equals the requested code.
 * The bank's answer and the date string fixed at start-up are parameters.
 */
module QuoteLookup {
  import opened Wrappers
  import opened Rates

  const FailedText := "Failed to retrieve data"

  /** The reply built from the matching record; a missing NB rate is a caught `KeyError`. */
  function Reply(exc: Record, code: string, date: string): (r: string)
    ensures r == FailedText <==> !("purchaseRateNB" in exc && "saleRateNB" in exc)
  {
    if "purchaseRateNB" in exc && "saleRateNB" in exc then
      QuoteLine(code, exc["purchaseRateNB"], exc["saleRateNB"], date)
    else FailedText
  }

  /**
   * The search over the list: the first record whose currency is `code`
   * answers; a record without a "currency" field reached before that raises
   * (`Failed to retrieve data`); running off the end gives `None`.
   */
  function Search(rates: seq<Record>, code: string, date: string): (r: Option<string>)
    ensures r.Some? ==> r.value == FailedText
                        || exists k :: 0 <= k < |rates| && IsCurrency(rates[k], code)
                                       && r.value == Reply(rates[k], code, date)
  {
    if rates == [] then None
    else if "currency" !in rates[0] then Some(FailedText)
    else if rates[0]["currency"] == code then Some(Reply(rates[0], code, date))
    else Search(rates[1..], code, date)
  }

  /** `get_exchange(currency)` of the server, with the bank's answer given. */
  function Quote(resp: Response, code: string, date: string): (r: Option<string>)
    ensures !Truthy(resp) ==> r == Some(FailedText)
    ensures resp.Body? && resp.exchangeRate.None? ==> r == Some(FailedText)
  {
    if !Truthy(resp) then Some(FailedText)
    else if resp.exchangeRate.None? then Some(FailedText)
    else Search(resp.exchangeRate.value, code, date)
  }

  /** The search loop with its early returns. */
  method GetExchange(resp: Response, currency: string, date: string) returns (r: Option<string>)
    ensures r == Quote(resp, currency, date)
  {
    if !Truthy(resp) {
      return Some(FailedText);
    }
    if resp.exchangeRate.None? {
      return Some(FailedText);
    }
    var rates := resp.exchangeRate.value;
    var i := 0;
    while i < |rates|
      invariant 0 <= i <= |rates|
      invariant Search(rates, currency, date) == Search(rates[i..], currency, date)
    {
      var exc := rates[i];
      assert rates[i..][0] == exc && rates[i..][1..] == rates[i + 1..];
      if "currency" !in exc {
        return Some(FailedText);
      }
      if exc["currency"] == currency {
        return Some(Reply(exc, currency, date));
      }
      i := i + 1;
    }
    return None;
  }

  /**
   * The first record whose currency is `code`, when every record before it
   * carries another currency, decides the answer.
   */
  lemma {:induction false} FirstMatchAnswers(rates: seq<Record>, code: string, date: string, k: nat)
    requires k < |rates| && IsCurrency(rates[k], code)
    requires forall j :: 0 <= j < k ==> "currency" in rates[j] && rates[j]["currency"] != code
    ensures Search(rates, code, date) == Some(Reply(rates[k], code, date))
  {
    if k > 0 {
      FirstMatchAnswers(rates[1..], code, date, k - 1);
    }
  }

  /**
   * A record without a "currency" field, reached before any match, raises
   * `KeyError`; the handler turns it into the failure text.
   */
  lemma {:induction false} UntaggedBeforeMatchFails(rates: seq<Record>, code: string, date: string, k: nat)
    requires k < |rates| && "currency" !in rates[k]
    requires forall j :: 0 <= j < k ==> "currency" in rates[j] && rates[j]["currency"] != code
    ensures Search(rates, code, date) == Some(FailedText)
  {
    if k > 0 {
      UntaggedBeforeMatchFails(rates[1..], code, date, k - 1);
    }
  }

  /** `None` comes back exactly when every record is tagged and none carries `code`. */
  lemma {:induction false} SearchNoneIff(rates: seq<Record>, code: string, date: string)
    ensures Search(rates, code, date) == None
            <==> AllTagged(rates) && forall k :: 0 <= k < |rates| ==> rates[k]["currency"] != code
  {
    if rates != [] {
      SearchNoneIff(rates[1..], code, date);
      if AllTagged(rates[1..]) && "currency" in rates[0] {
        assert forall k :: 0 < k < |rates| ==> rates[k] == rates[1..][k - 1];
      }
    }
  }

  /** The server's quote: failure text for a falsy answer, first match, or `None`. */
  lemma QuoteCases(resp: Response, code: string, date: string)
    ensures Quote(resp, code, date) == None
            <==> Truthy(resp) && resp.exchangeRate.Some?
                 && AllTagged(resp.exchangeRate.value)
                 && forall k :: 0 <= k < |resp.exchangeRate.value| ==> resp.exchangeRate.value[k]["currency"] != code
  {
    if Truthy(resp) && resp.exchangeRate.Some? {
      SearchNoneIff(resp.exchangeRate.value, code, date);
    }
  }
}
