/**
 * The batch fetcher: for one date, pick the USD, EUR and requested-currency
 * records out of the bank's list and format them; plus the list of dates
 * and the normalisation of the currency argument done by `main`.
 * Dates are day numbers; the bank's answer is a parameter.
 */
module ExchangeRate {
  import opened Wrappers
  import opened Text
  import opened Rates

  /** The three locals `usd_rate`, `eur_rate`, `cur_rate` of the selection loop. */
  datatype Slots = Slots(usd: Option<Record>, eur: Option<Record>, cur: Option<Record>)

  /** What `get_exchange(date, currency)` returns: nothing, a pair or a triple of lines. */
  datatype Batch =
    | Nothing
    | Pair(usd: string, eur: string)
    | Triple(usd: string, eur: string, cur: string)

  /** One pass of the `if/elif` chain: USD first, then EUR, then the requested currency. */
  function Assign(s: Slots, exc: Record, currency: string): (t: Slots)
    requires "currency" in exc
    ensures t.usd == if IsCurrency(exc, "USD") then Some(exc) else s.usd
    ensures t.eur == if IsCurrency(exc, "EUR") then Some(exc) else s.eur
    ensures t.cur == if IsCurrency(exc, currency) && currency != "USD" && currency != "EUR" then Some(exc) else s.cur
  {
    if exc["currency"] == "USD" then s.(usd := Some(exc))
    else if exc["currency"] == "EUR" then s.(eur := Some(exc))
    else if exc["currency"] == currency then s.(cur := Some(exc))
    else s
  }

  /**
   * The slots after the loop has seen all of `rates`; `None` when some record
   * lacks "currency", where the loop raises `KeyError`.
   */
  function Fill(rates: seq<Record>, currency: string): (r: Option<Slots>)
    ensures r.Some? && r.value.usd.Some? ==> r.value.usd.value in rates && IsCurrency(r.value.usd.value, "USD")
    ensures r.Some? && r.value.eur.Some? ==> r.value.eur.value in rates && IsCurrency(r.value.eur.value, "EUR")
    ensures r.Some? && r.value.cur.Some? ==> r.value.cur.value in rates && IsCurrency(r.value.cur.value, currency)
                                             && currency != "USD" && currency != "EUR"
    decreases |rates|
  {
    if rates == [] then Some(Slots(None, None, None))
    else
      var prev := Fill(rates[..|rates| - 1], currency);
      var exc := rates[|rates| - 1];
      if prev.None? || "currency" !in exc then None
      else Some(Assign(prev.value, exc, currency))
  }

  /** The last record of `rates` whose currency is `code`, read front to back. */
  function LastWith(rates: seq<Record>, code: string): (r: Option<Record>)
    ensures r.Some? ==> exists k :: 0 <= k < |rates| && rates[k] == r.value && IsCurrency(r.value, code)
                                    && forall j :: k < j < |rates| ==> !IsCurrency(rates[j], code)
    ensures r.None? ==> forall k :: 0 <= k < |rates| ==> !IsCurrency(rates[k], code)
  {
    if rates == [] then None
    else
      var later := LastWith(rates[1..], code);
      if later.Some? then later
      else if IsCurrency(rates[0], code) then Some(rates[0])
      else None
  }

  predicate HasRates(exc: Record) {
    "purchaseRate" in exc && "saleRate" in exc
  }

  /** A formatted line from a record's cash rates (not the NB rates the server uses). */
  function Line(code: string, exc: Record, date: string): (line: string)
    requires HasRates(exc)
    ensures StartsWithCode(line, code)
  {
    QuoteLine(code, exc["purchaseRate"], exc["saleRate"], date)
  }

  /**
   * The tuple building after the loop. A record without its cash rates makes
   * the f-string raise `KeyError`, which ends in `None` and not in the `elif`.
   */
  function Select(s: Slots, date: string, currency: string): (b: Batch)
    ensures b.Triple? <==> s.usd.Some? && s.eur.Some? && s.cur.Some?
                           && HasRates(s.usd.value) && HasRates(s.eur.value) && HasRates(s.cur.value)
    ensures b.Pair? <==> s.usd.Some? && s.eur.Some? && s.cur.None?
                         && HasRates(s.usd.value) && HasRates(s.eur.value)
    ensures b.Triple? ==> StartsWithCode(b.usd, "USD") && StartsWithCode(b.eur, "EUR") && StartsWithCode(b.cur, currency)
    ensures b.Pair? ==> StartsWithCode(b.usd, "USD") && StartsWithCode(b.eur, "EUR")
  {
    if s.usd.Some? && s.eur.Some? && s.cur.Some? then
      if HasRates(s.usd.value) && HasRates(s.eur.value) && HasRates(s.cur.value) then
        Triple(Line("USD", s.usd.value, date), Line("EUR", s.eur.value, date), Line(currency, s.cur.value, date))
      else Nothing
    else if s.usd.Some? && s.eur.Some? then
      if HasRates(s.usd.value) && HasRates(s.eur.value) then
        Pair(Line("USD", s.usd.value, date), Line("EUR", s.eur.value, date))
      else Nothing
    else Nothing
  }

  /** `get_exchange(date, currency)` as a function of the bank's answer. */
  function BatchOf(resp: Response, date: string, currency: string): (b: Batch)
    ensures !(Truthy(resp) && resp.exchangeRate.Some?) ==> b == Nothing
    ensures b.Triple? ==> currency != "USD" && currency != "EUR"
  {
    if !(Truthy(resp) && resp.exchangeRate.Some?) then Nothing
    else
      match Fill(resp.exchangeRate.value, currency)
      case None => Nothing
      case Some(s) => Select(s, date, currency)
  }

  /** The selection loop over `result["exchangeRate"]`, then the tuple. */
  method GetExchange(resp: Response, date: string, currency: string) returns (b: Batch)
    ensures b == BatchOf(resp, date, currency)
  {
    if !(Truthy(resp) && resp.exchangeRate.Some?) {
      return Nothing;
    }
    var rates := resp.exchangeRate.value;
    var usdRate: Option<Record> := None;
    var eurRate: Option<Record> := None;
    var curRate: Option<Record> := None;
    var i := 0;
    while i < |rates|
      invariant 0 <= i <= |rates|
      invariant Fill(rates[..i], currency) == Some(Slots(usdRate, eurRate, curRate))
    {
      var exc := rates[i];
      assert rates[..i + 1][..i] == rates[..i];
      if "currency" !in exc {
        // KeyError, caught: the function falls through to `None`
        assert Fill(rates[..i + 1], currency) == None;
        FillStaysNone(rates, i + 1, currency);
        return Nothing;
      }
      if exc["currency"] == "USD" {
        usdRate := Some(exc);
      } else if exc["currency"] == "EUR" {
        eurRate := Some(exc);
      } else if exc["currency"] == currency {
        curRate := Some(exc);
      }
      i := i + 1;
    }
    assert rates[..|rates|] == rates;
    b := Select(Slots(usdRate, eurRate, curRate), date, currency);
  }

  /** Once a record without "currency" has been read, the loop has raised for good. */
  lemma {:induction false} FillStaysNone(rates: seq<Record>, i: nat, currency: string)
    requires i <= |rates| && Fill(rates[..i], currency) == None
    ensures Fill(rates, currency) == None
    decreases |rates| - i
  {
    if i < |rates| {
      assert rates[..i + 1][..i] == rates[..i];
      FillStaysNone(rates, i + 1, currency);
    } else {
      assert rates[..i] == rates;
    }
  }

  lemma {:induction false} LastWithSnoc(rates: seq<Record>, exc: Record, code: string)
    ensures LastWith(rates + [exc], code) == if IsCurrency(exc, code) then Some(exc) else LastWith(rates, code)
  {
    if rates == [] {
      assert [] + [exc] == [exc];
    } else {
      assert (rates + [exc])[1..] == rates[1..] + [exc];
      LastWithSnoc(rates[1..], exc, code);
    }
  }

  /**
   * The loop keeps, in each slot, the LAST record of its currency; the
   * requested-currency slot never takes a USD or EUR record, since the
   * earlier branches of the chain claim those.
   */
  lemma {:induction false} FillIsLastWins(rates: seq<Record>, currency: string)
    requires AllTagged(rates)
    ensures Fill(rates, currency)
            == Some(Slots(LastWith(rates, "USD"), LastWith(rates, "EUR"),
                          if currency == "USD" || currency == "EUR" then None else LastWith(rates, currency)))
    decreases |rates|
  {
    if rates != [] {
      var init := rates[..|rates| - 1];
      var exc := rates[|rates| - 1];
      assert init + [exc] == rates;
      assert AllTagged(init) by {
        assert forall k :: 0 <= k < |init| ==> init[k] == rates[k];
      }
      FillIsLastWins(init, currency);
      LastWithSnoc(init, exc, "USD");
      LastWithSnoc(init, exc, "EUR");
      LastWithSnoc(init, exc, currency);
    }
  }

  /** A record without "currency" anywhere in the list makes the loop raise. */
  lemma {:induction false} FillNoneIff(rates: seq<Record>, currency: string)
    ensures Fill(rates, currency).None? <==> !AllTagged(rates)
    decreases |rates|
  {
    if rates != [] {
      var init := rates[..|rates| - 1];
      assert forall k :: 0 <= k < |init| ==> init[k] == rates[k];
      FillNoneIff(init, currency);
    }
  }

  /** USD, EUR and the requested currency all present: three lines, in that order. */
  lemma ThreeLines(rates: seq<Record>, other: bool, date: string, currency: string)
    requires AllTagged(rates) && currency != "USD" && currency != "EUR"
    requires LastWith(rates, "USD").Some? && HasRates(LastWith(rates, "USD").value)
    requires LastWith(rates, "EUR").Some? && HasRates(LastWith(rates, "EUR").value)
    requires LastWith(rates, currency).Some? && HasRates(LastWith(rates, currency).value)
    ensures BatchOf(Body(Some(rates), other), date, currency)
            == Triple(Line("USD", LastWith(rates, "USD").value, date),
                      Line("EUR", LastWith(rates, "EUR").value, date),
                      Line(currency, LastWith(rates, currency).value, date))
  {
    FillIsLastWins(rates, currency);
  }

  /** USD and EUR present but not the requested currency: the pair of lines. */
  lemma TwoLines(rates: seq<Record>, other: bool, date: string, currency: string)
    requires AllTagged(rates)
    requires LastWith(rates, "USD").Some? && HasRates(LastWith(rates, "USD").value)
    requires LastWith(rates, "EUR").Some? && HasRates(LastWith(rates, "EUR").value)
    requires LastWith(rates, currency).None? || currency == "USD" || currency == "EUR"
    ensures BatchOf(Body(Some(rates), other), date, currency)
            == Pair(Line("USD", LastWith(rates, "USD").value, date),
                    Line("EUR", LastWith(rates, "EUR").value, date))
  {
    FillIsLastWins(rates, currency);
  }

  /** No answer, no list, an untagged record, or USD or EUR missing: `None`. */
  lemma NoLines(resp: Response, date: string, currency: string)
    requires || !Truthy(resp) || resp.exchangeRate.None?
             || !AllTagged(resp.exchangeRate.value)
             || LastWith(resp.exchangeRate.value, "USD").None?
             || LastWith(resp.exchangeRate.value, "EUR").None?
    ensures BatchOf(resp, date, currency) == Nothing
  {
    if Truthy(resp) && resp.exchangeRate.Some? {
      FillNoneIff(resp.exchangeRate.value, currency);
      if AllTagged(resp.exchangeRate.value) {
        FillIsLastWins(resp.exchangeRate.value, currency);
      }
    }
  }

  /** Asking for USD or EUR never gives three lines. */
  lemma NeverTripleForUsdOrEur(resp: Response, date: string, currency: string)
    requires currency == "USD" || currency == "EUR"
    ensures !BatchOf(resp, date, currency).Triple?
  {
    if Truthy(resp) && resp.exchangeRate.Some? && AllTagged(resp.exchangeRate.value) {
      FillIsLastWins(resp.exchangeRate.value, currency);
    } else if Truthy(resp) && resp.exchangeRate.Some? {
      FillNoneIff(resp.exchangeRate.value, currency);
    }
  }

  /** `[today - timedelta(days=i) for i in range(days)]`, dates as day numbers. */
  function Dates(today: int, days: int): (ds: seq<int>)
    ensures |ds| == if days > 0 then days else 0
    ensures forall i :: 0 <= i < |ds| ==> ds[i] == today - i
    ensures forall i, j :: 0 <= i < j < |ds| ==> ds[j] < ds[i]
  {
    if days <= 0 then [] else Dates(today, days - 1) + [today - (days - 1)]
  }

  /**
   * `str(sys.argv[2]).upper().strip()`: the upper-cased argument without its
   * surrounding whitespace.
   */
  function NormalizeCurrency(arg: string): (code: string)
    ensures exists i, j :: 0 <= i <= j <= |arg| && code == Upper(arg[i..j])
                           && (forall k :: 0 <= k < i ==> IsSpace(arg[k]))
                           && (forall k :: j <= k < |arg| ==> IsSpace(arg[k]))
    ensures forall i :: 0 <= i < |code| ==> !('a' <= code[i] <= 'z')
    ensures code != [] ==> !IsSpace(code[0]) && !IsSpace(code[|code| - 1])
  {
    NormalizeIsStrippedUpper(arg);
    Strip(Upper(arg))
  }

  lemma NormalizeIsStrippedUpper(arg: string)
    ensures exists i, j :: 0 <= i <= j <= |arg| && Strip(Upper(arg)) == Upper(arg[i..j])
                           && (forall k :: 0 <= k < i ==> IsSpace(arg[k]))
                           && (forall k :: j <= k < |arg| ==> IsSpace(arg[k]))
    ensures forall i :: 0 <= i < |Strip(Upper(arg))| ==> !('a' <= Strip(Upper(arg))[i] <= 'z')
  {
    StripUpper(arg);
    var i, j := StripBounds(arg);
    assert Strip(Upper(arg)) == Upper(arg[i..j]);
  }

  /** Normalising an already normalised code changes nothing. */
  lemma NormalizeIdempotent(arg: string)
    ensures NormalizeCurrency(NormalizeCurrency(arg)) == NormalizeCurrency(arg)
  {
    var code := NormalizeCurrency(arg);
    UpperOfUpper(code);
    StripOfTrimmed(code);
  }
}
