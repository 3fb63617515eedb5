/** The single-market quote clients: extraction of a bid/ask quote from a
    market payload by a fixed key priority, the order-book fallback, and the
    classification of a response into a `QuoteResponse`. */
module Clients {
  import opened JsonValue

  /** `datetime.fromisoformat`, which is not part of this model: it maps the
      text to a time in seconds, or fails. */
  type IsoParser = string -> Option<int>

  /** A top-of-book quote; the source timestamp is in seconds. */
  datatype Quote = Quote(bid: real, ask: real, sourceTimestamp: Option<int>)

  // ---------- _parse_iso_timestamp ----------

  /** A trailing `Z` is rewritten as `+00:00`; other text is unchanged. */
  function IsoText(value: string): (r: string)
    ensures value != [] && value[|value| - 1] == 'Z' ==> r == value[..|value| - 1] + "+00:00"
    ensures !(value != [] && value[|value| - 1] == 'Z') ==> r == value
  {
    if value != [] && value[|value| - 1] == 'Z' then value[..|value| - 1] + "+00:00" else value
  }

  /** What reaches the ISO parser never ends in `Z`, so rewriting twice
      changes nothing more. */
  lemma IsoTextNormalised(value: string)
    ensures var r := IsoText(value); r == [] || r[|r| - 1] != 'Z'
    ensures IsoText(IsoText(value)) == IsoText(value)
  {
  }

  /** `_parse_iso_timestamp(value)`: no timestamp for a falsy value; text is
      rewritten and parsed; a truthy non-string fails on `.endswith`, which
      is not the `ValueError` the source catches. */
  function ParseIsoTimestamp(value: Option<Json>, fromIso: IsoParser): (r: Raising<Option<int>>)
    ensures !TruthyOpt(value) ==> r == Returns(None)
    ensures TruthyOpt(value) && value.value.JStr? ==> r == Returns(fromIso(IsoText(value.value.s)))
    ensures TruthyOpt(value) && !value.value.JStr? ==> r == Raises
  {
    if !TruthyOpt(value) then Returns(None)
    else if !value.value.JStr? then Raises
    else Returns(fromIso(IsoText(value.value.s)))
  }

  // ---------- _first_price ----------

  /** An order-book entry that is an object with a numeric `price`. */
  predicate HasNumericPrice(entry: Json) {
    var p := Field(entry, "price");
    p.Some? && IsNumber(p.value)
  }

  function PriceOf(entry: Json): real
    requires HasNumericPrice(entry)
  {
    NumberValue(entry.fields["price"])
  }

  function FirstPriceIn(entries: seq<Json>): Option<real> {
    if entries == [] then None
    else if HasNumericPrice(entries[0]) then Some(PriceOf(entries[0]))
    else FirstPriceIn(entries[1..])
  }

  /** `_first_price`, the same in both clients: nothing for a non-list,
      otherwise the price of the first entry that has a numeric one. */
  function FirstPrice(entries: Option<Json>): (r: Option<real>)
    ensures !(entries.Some? && entries.value.JArr?) ==> r == None
  {
    if entries.Some? && entries.value.JArr? then FirstPriceIn(entries.value.items) else None
  }

  lemma {:induction false} FirstPriceSkips(entries: seq<Json>, k: nat)
    requires k <= |entries|
    requires forall j :: 0 <= j < k ==> !HasNumericPrice(entries[j])
    ensures FirstPriceIn(entries) == FirstPriceIn(entries[k..])
  {
    if k > 0 {
      assert entries[1..][k - 1..] == entries[k..];
      FirstPriceSkips(entries[1..], k - 1);
    }
  }

  /** The price found is that of the first entry with a numeric price; with
      no such entry there is none. */
  lemma FirstPriceIsFirstNumeric(entries: seq<Json>, k: nat)
    requires k <= |entries|
    requires forall j :: 0 <= j < k ==> !HasNumericPrice(entries[j])
    ensures k == |entries| ==> FirstPriceIn(entries) == None
    ensures k < |entries| && HasNumericPrice(entries[k]) ==> FirstPriceIn(entries) == Some(PriceOf(entries[k]))
  {
    FirstPriceSkips(entries, k);
  }

  // ---------- key-priority extraction ----------

  /** Both keys of a pair hold numbers (`isinstance(x, (float, int))`). */
  predicate NumericPair(payload: map<string, Json>, keys: (string, string)) {
    var b, a := Get(payload, keys.0), Get(payload, keys.1);
    b.Some? && IsNumber(b.value) && a.Some? && IsNumber(a.value)
  }

  function PairPrices(payload: map<string, Json>, keys: (string, string)): (real, real)
    requires NumericPair(payload, keys)
  {
    (NumberValue(payload[keys.0]), NumberValue(payload[keys.1]))
  }

  /** The prices of the first key pair whose two values are both numeric. */
  function FirstNumericPair(payload: map<string, Json>, pairs: seq<(string, string)>): Option<(real, real)> {
    if pairs == [] then None
    else if NumericPair(payload, pairs[0]) then Some(PairPrices(payload, pairs[0]))
    else FirstNumericPair(payload, pairs[1..])
  }

  lemma {:induction false} FirstNumericPairSkips(payload: map<string, Json>, pairs: seq<(string, string)>, k: nat)
    requires k <= |pairs|
    requires forall j :: 0 <= j < k ==> !NumericPair(payload, pairs[j])
    ensures FirstNumericPair(payload, pairs) == FirstNumericPair(payload, pairs[k..])
  {
    if k > 0 {
      assert pairs[1..][k - 1..] == pairs[k..];
      FirstNumericPairSkips(payload, pairs[1..], k - 1);
    }
  }

  /** Prices come from the first numeric pair in priority order; with none
      there are no prices. */
  lemma FirstNumericPairIsFirst(payload: map<string, Json>, pairs: seq<(string, string)>, k: nat)
    requires k <= |pairs|
    requires forall j :: 0 <= j < k ==> !NumericPair(payload, pairs[j])
    ensures k == |pairs| ==> FirstNumericPair(payload, pairs) == None
    ensures k < |pairs| && NumericPair(payload, pairs[k]) ==>
      FirstNumericPair(payload, pairs) == Some(PairPrices(payload, pairs[k]))
  {
    FirstNumericPairSkips(payload, pairs, k);
  }

  /** The quote from a bid and an ask and the timestamp value, if both prices exist. */
  function QuoteWith(prices: Option<(real, real)>, tsValue: Option<Json>, fromIso: IsoParser): (r: Raising<Option<Quote>>)
    ensures prices.None? ==> r == Returns(None)
    ensures r.Returns? && r.value.Some? ==> prices.Some? && r.value.value.bid == prices.value.0 && r.value.value.ask == prices.value.1
  {
    match prices
    case None => Returns(None)
    case Some(p) =>
      match ParseIsoTimestamp(tsValue, fromIso)
      case Raises => Raises
      case Returns(ts) => Returns(Some(Quote(p.0, p.1, ts)))
  }

  /** Both order-book sides priced. */
  function BookPrices(book: map<string, Json>): Option<(real, real)> {
    var bid, ask := FirstPrice(Get(book, "bids")), FirstPrice(Get(book, "asks"));
    if bid.Some? && ask.Some? then Some((bid.value, ask.value)) else None
  }

  // ---------- Polymarket ----------

  const POLY_PRICE_KEYS: seq<(string, string)> :=
    [("bestBid", "bestAsk"), ("bestBidYes", "bestAskYes"), ("yesBid", "yesAsk"), ("bestYesBid", "bestYesAsk")]

  function PolyTimestampValue(payload: map<string, Json>): Option<Json> {
    Or(Get(payload, "updatedAt"), Get(payload, "lastTradeTime"))
  }

  /** Polymarket `_extract_quote`: the first numeric key pair; otherwise the
      `yes`/`YES`/`Yes` book of `orderbooks` (which must be an object, or the
      lookup raises) when both of its sides have a price. */
  function PolyExtractQuote(payload: map<string, Json>, fromIso: IsoParser): (r: Raising<Option<Quote>>)
    ensures FirstNumericPair(payload, POLY_PRICE_KEYS).Some? ==>
      r == QuoteWith(FirstNumericPair(payload, POLY_PRICE_KEYS), PolyTimestampValue(payload), fromIso)
  {
    var listed := FirstNumericPair(payload, POLY_PRICE_KEYS);
    if listed.Some? then QuoteWith(listed, PolyTimestampValue(payload), fromIso)
    else
      var books := Or(Get(payload, "orderbooks"), Some(JObj(map[])));
      if !books.value.JObj? then Raises
      else
        var f := books.value.fields;
        var yes := Or(Get(f, "yes"), Or(Get(f, "YES"), Get(f, "Yes")));
        if !(yes.Some? && yes.value.JObj?) then Returns(None)
        else QuoteWith(BookPrices(yes.value.fields), PolyTimestampValue(payload), fromIso)
  }

  /** Without a numeric key pair and without a usable yes book there is no quote. */
  lemma PolyNoQuoteWithoutPrices(payload: map<string, Json>, fromIso: IsoParser)
    requires FirstNumericPair(payload, POLY_PRICE_KEYS).None?
    requires "orderbooks" !in payload
    ensures PolyExtractQuote(payload, fromIso) == Returns(None)
  {
  }

  /** A yes book with a priced side each gives their first prices as the quote. */
  lemma PolyBookFallback(payload: map<string, Json>, fromIso: IsoParser, book: map<string, Json>)
    requires FirstNumericPair(payload, POLY_PRICE_KEYS).None?
    requires Get(payload, "orderbooks") == Some(JObj(map["yes" := JObj(book)]))
    requires book != map[]
    ensures PolyExtractQuote(payload, fromIso) == QuoteWith(BookPrices(book), PolyTimestampValue(payload), fromIso)
  {
    var f := map["yes" := JObj(book)];
    assert Truthy(JObj(f)) by { assert "yes" in f; }
    assert Get(f, "yes") == Some(JObj(book));
  }

  // ---------- Kalshi ----------

  const KALSHI_PRICE_KEYS: seq<(string, string)> :=
    [("yes_bid", "yes_ask"), ("best_yes_bid", "best_yes_ask"), ("bid", "ask")]

  function KalshiTimestampValue(market: map<string, Json>): Option<Json> {
    Or(Get(market, "updated_time"), Get(market, "last_traded_time"))
  }

  /** Kalshi `_extract_quote`: the first numeric key pair; otherwise the
      `yes` side of an `orderbook` object (a truthy non-object there raises). */
  function KalshiExtractQuote(market: map<string, Json>, fromIso: IsoParser): (r: Raising<Option<Quote>>)
    ensures FirstNumericPair(market, KALSHI_PRICE_KEYS).Some? ==>
      r == QuoteWith(FirstNumericPair(market, KALSHI_PRICE_KEYS), KalshiTimestampValue(market), fromIso)
    ensures FirstNumericPair(market, KALSHI_PRICE_KEYS).None? && !(Get(market, "orderbook").Some? && market["orderbook"].JObj?) ==>
      r == Returns(None)
  {
    var listed := FirstNumericPair(market, KALSHI_PRICE_KEYS);
    if listed.Some? then QuoteWith(listed, KalshiTimestampValue(market), fromIso)
    else
      var orderbook := Get(market, "orderbook");
      if !(orderbook.Some? && orderbook.value.JObj?) then Returns(None)
      else
        var yes := Or(Get(orderbook.value.fields, "yes"), Some(JObj(map[])));
        if !yes.value.JObj? then Raises
        else QuoteWith(BookPrices(yes.value.fields), KalshiTimestampValue(market), fromIso)
  }

  // ---------- get_quote ----------

  /** The `error` text of a `QuoteResponse`, by kind. */
  datatype QuoteError =
    | Transport(message: string)
    | EmptyResponse
    | InvalidJson
    | HttpStatus(code: int)
    | MissingMarket
    | NoQuote

  datatype QuoteResponse = QuoteResponse(
    ok: bool, quote: Option<Quote>, status: Option<int>, error: Option<QuoteError>, raw: Option<Json>)

  function Failure(status: Option<int>, error: QuoteError, raw: Option<Json>): QuoteResponse {
    QuoteResponse(false, None, status, Some(error), raw)
  }

  /** The steps common to both `get_quote`s before the payload is inspected:
      `Some` response when one of them already decides the answer. */
  function Precheck(response: HttpOutcome): Option<QuoteResponse> {
    match response
    case TransportError(message) =>
      // `if error:` is false for an empty message; the response is then None.
      Some(if message != "" then Failure(None, Transport(message), None) else Failure(None, EmptyResponse, None))
    case Response(status, body) =>
      if body.None? then Some(Failure(Some(status), InvalidJson, None))
      else if status != 200 then Some(Failure(Some(status), HttpStatus(status), body))
      else None
  }

  /** A response is `ok` exactly when it carries a quote, has no error, and
      came with status 200 and a decoded body. */
  predicate WellClassified(response: HttpOutcome, r: Raising<QuoteResponse>) {
    r.Returns? ==>
      && (r.value.ok <==> r.value.quote.Some?)
      && (r.value.ok <==> r.value.error.None?)
      && (r.value.ok ==> r.value.status == Some(200) && response.Response? && response.status == 200 && response.body.Some?)
  }

  function Finish(raw: Json, extracted: Raising<Option<Quote>>): (r: Raising<QuoteResponse>)
    ensures r.Returns? ==> r.value.raw == Some(raw) && r.value.status == Some(200)
    ensures r.Returns? ==> (r.value.ok <==> r.value.quote.Some?) && (r.value.ok <==> r.value.error.None?)
    ensures extracted.Returns? && extracted.value.Some? ==> r == Returns(QuoteResponse(true, extracted.value, Some(200), None, Some(raw)))
  {
    match extracted
    case Raises => Raises
    case Returns(None) => Returns(Failure(Some(200), NoQuote, Some(raw)))
    case Returns(Some(q)) => Returns(QuoteResponse(true, Some(q), Some(200), None, Some(raw)))
  }

  /** Polymarket `get_quote` on a received response. */
  function PolyGetQuote(response: HttpOutcome, fromIso: IsoParser): (r: Raising<QuoteResponse>)
    ensures WellClassified(response, r)
    ensures Precheck(response).Some? ==> r == Returns(Precheck(response).value)
  {
    match Precheck(response)
    case Some(early) => Returns(early)
    case None =>
      var raw := response.body.value;
      if !raw.JObj? then Raises
      else Finish(raw, PolyExtractQuote(raw.fields, fromIso))
  }

  /** Kalshi `get_quote` on a received response: the quote is read from the
      `market` object of the payload. */
  function KalshiGetQuote(response: HttpOutcome, fromIso: IsoParser): (r: Raising<QuoteResponse>)
    ensures WellClassified(response, r)
    ensures Precheck(response).Some? ==> r == Returns(Precheck(response).value)
  {
    match Precheck(response)
    case Some(early) => Returns(early)
    case None =>
      var raw := response.body.value;
      if !raw.JObj? then Raises
      else
        var market := Get(raw.fields, "market");
        if !(market.Some? && market.value.JObj?) then Returns(Failure(Some(200), MissingMarket, Some(raw)))
        else Finish(raw, KalshiExtractQuote(market.value.fields, fromIso))
  }

  /** Transport errors, undecodable bodies and non-200 statuses are never
      `ok`, and keep the status they came with. */
  lemma FailuresAreNotOk(response: HttpOutcome, fromIso: IsoParser)
    requires response.TransportError? || response.body.None? || response.status != 200
    ensures PolyGetQuote(response, fromIso).Returns? && !PolyGetQuote(response, fromIso).value.ok
    ensures KalshiGetQuote(response, fromIso).Returns? && !KalshiGetQuote(response, fromIso).value.ok
    ensures response.Response? ==> PolyGetQuote(response, fromIso).value.status == Some(response.status)
  {
  }
}
