/** The Kalshi events client: parsing of an event payload into normalised
    markets, and the retry counter that drives polling-interval extension. */
module KalshiClient {
  import opened JsonValue
  import opened PyText
  import opened BaseClient

  const RATE_LIMIT_STATUS: int := 429
  /** Retries only suggest a longer interval while the last one is this recent. */
  const COOLDOWN_SECONDS: int := 300
  /** Retries needed before a longer polling interval is suggested. */
  const EXTEND_AFTER_RETRIES: int := 5
  /** Keys tried, in order, for a market's display title. */
  const TITLE_KEYS: seq<string> := ["title", "subtitle", "yes_sub_title", "no_sub_title", "ticker"]

  // ---------- _parse_market ----------

  /** `to_float(value, default)`: missing or null gives the default, as does
      text that does not parse after stripping double quotes; numbers are
      taken as they are. `str(True)` is "True", which does not parse. */
  function ToFloat(value: Option<Json>, default: real): (r: real)
    ensures value.None? || value.value.JNull? || value.value.JBool? ==> r == default
    ensures value.Some? && value.value.JInt? ==> r == value.value.i as real
    ensures value.Some? && value.value.JFloat? ==> r == value.value.r
  {
    match value
    case None => default
    case Some(JInt(i)) => i as real
    case Some(JFloat(x)) => x
    case Some(JStr(s)) =>
      (match ParseFloat(StripChars(s, {'"'}))
       case Some(v) => v
       case None => default)
    case Some(_) => default
  }

  /** Python's `s.strip().replace("$", "").strip()`. */
  function CleanTitle(s: string): (r: string)
    ensures '$' !in r
    ensures r != [] ==> !IsSpace(r[0]) && !IsSpace(r[|r| - 1])
  {
    var t := Replace(Strip(s), "$", "");
    ReplaceRemovesChar(Strip(s), '$');
    StripIsInfix(t);
    Strip(t)
  }

  /** Replacing every `c` by nothing leaves no `c`. */
  lemma {:induction false} ReplaceRemovesChar(s: string, c: char)
    ensures c !in Replace(s, [c], "")
    decreases |s|
  {
    if |s| >= 1 {
      ReplaceRemovesChar(s[1..], c);
    }
  }

  /** A title candidate: a string that is not blank. */
  predicate IsTitleCandidate(v: Option<Json>) {
    v.Some? && v.value.JStr? && !IsBlank(v.value.s)
  }

  function PickTitleFrom(entry: map<string, Json>, keys: seq<string>): string {
    if keys == [] then "Unknown"
    else
      var candidate := Get(entry, keys[0]);
      if IsTitleCandidate(candidate) then CleanTitle(candidate.value.s)
      else PickTitleFrom(entry, keys[1..])
  }

  /** `pick_title`. */
  function PickTitle(entry: map<string, Json>): string {
    PickTitleFrom(entry, TITLE_KEYS)
  }

  /** Keys before the first title candidate are skipped. */
  lemma {:induction false} PickTitleSkips(entry: map<string, Json>, keys: seq<string>, k: nat)
    requires k <= |keys|
    requires forall j :: 0 <= j < k ==> !IsTitleCandidate(Get(entry, keys[j]))
    ensures PickTitleFrom(entry, keys) == PickTitleFrom(entry, keys[k..])
  {
    if k > 0 {
      assert !IsTitleCandidate(Get(entry, keys[0]));
      assert keys[1..][k - 1..] == keys[k..];
      PickTitleSkips(entry, keys[1..], k - 1);
    }
  }

  /** The title comes from the first key holding a non-blank string, cleaned;
      with no such key it is "Unknown". */
  lemma PickTitleIsFirstCandidate(entry: map<string, Json>, k: nat)
    requires k <= |TITLE_KEYS|
    requires forall j :: 0 <= j < k ==> !IsTitleCandidate(Get(entry, TITLE_KEYS[j]))
    ensures k == |TITLE_KEYS| ==> PickTitle(entry) == "Unknown"
    ensures k < |TITLE_KEYS| && IsTitleCandidate(Get(entry, TITLE_KEYS[k])) ==>
      PickTitle(entry) == CleanTitle(entry[TITLE_KEYS[k]].s)
  {
    PickTitleSkips(entry, TITLE_KEYS, k);
  }

  /** `_parse_market`: bid defaults to 0.0 and ask to 1.0; the market is kept
      only with both prices in [0, 1] and bid <= ask. */
  function ParseMarket(m: map<string, Json>): (r: Option<Market>)
    ensures var bid, ask := ToFloat(Get(m, "yes_bid_dollars"), 0.0), ToFloat(Get(m, "yes_ask_dollars"), 1.0);
      && (r.Some? <==> ValidQuote(bid, ask))
      && (r.Some? ==> r.value == Market(JStr(PickTitle(m)), bid, ask, JObj(m)))
  {
    var bid := ToFloat(Get(m, "yes_bid_dollars"), 0.0);
    var ask := ToFloat(Get(m, "yes_ask_dollars"), 1.0);
    if !ValidQuote(bid, ask) then None
    else Some(Market(JStr(PickTitle(m)), bid, ask, JObj(m)))
  }

  /** A market with neither price passes the filter as bid 0, ask 1. */
  lemma MissingPricesDefaultToFullRange(m: map<string, Json>)
    requires "yes_bid_dollars" !in m && "yes_ask_dollars" !in m
    ensures ParseMarket(m) == Some(Market(JStr(PickTitle(m)), 0.0, 1.0, JObj(m)))
  {
  }

  /** What `_parse_market` makes of one entry, as a list of zero or one
      markets; an entry that is not an object contributes nothing here. */
  function KeptOne(m: Json): seq<Market> {
    if m.JObj? && ParseMarket(m.fields).Some? then [ParseMarket(m.fields).value] else []
  }

  /** The markets `_parse_market` keeps, in input order. */
  function Kept(ms: seq<Json>): seq<Market> {
    if ms == [] then [] else KeptOne(ms[0]) + Kept(ms[1..])
  }

  /** `[m for m in map(_parse_market, markets) if m]`; `None` when an entry is
      not an object (`.get` raises). */
  function ParseMarketList(ms: seq<Json>): (r: Option<seq<Market>>)
    ensures r.Some? ==> |r.value| <= |ms|
    ensures r.Some? ==> forall i :: 0 <= i < |r.value| ==> ValidQuote(r.value[i].bid, r.value[i].ask)
    ensures r.None? <==> exists i :: 0 <= i < |ms| && !ms[i].JObj?
    ensures r.Some? ==> r.value == Kept(ms)
  {
    if ms == [] then Some([])
    else if !ms[0].JObj? then None
    else
      match ParseMarketList(ms[1..])
      case None => None
      case Some(rest) =>
        match ParseMarket(ms[0].fields)
        case None => Some(rest)
        case Some(market) => Some([market] + rest)
  }

  /** Nothing valid is dropped: every entry `_parse_market` keeps is in the
      list, and every listed market is one that `_parse_market` kept. */
  lemma {:induction false} KeptIsExactlyParsed(ms: seq<Json>)
    ensures forall i :: 0 <= i < |ms| && ms[i].JObj? && ParseMarket(ms[i].fields).Some? ==>
      ParseMarket(ms[i].fields).value in Kept(ms)
    ensures forall m :: m in Kept(ms) ==> exists i :: 0 <= i < |ms| && ms[i].JObj? && ParseMarket(ms[i].fields) == Some(m)
    decreases |ms|
  {
    if ms != [] {
      KeptIsExactlyParsed(ms[1..]);
      assert Kept(ms) == KeptOne(ms[0]) + Kept(ms[1..]);
      forall i | 0 <= i < |ms| && ms[i].JObj? && ParseMarket(ms[i].fields).Some?
        ensures ParseMarket(ms[i].fields).value in Kept(ms)
      {
        if i > 0 {
          assert ms[i] == ms[1..][i - 1];
        }
      }
      forall m | m in Kept(ms)
        ensures exists i :: 0 <= i < |ms| && ms[i].JObj? && ParseMarket(ms[i].fields) == Some(m)
      {
        if m in KeptOne(ms[0]) {
          assert ms[0].JObj? && ParseMarket(ms[0].fields) == Some(m);
        } else {
          assert m in Kept(ms[1..]);
          var j :| 0 <= j < |ms[1..]| && ms[1..][j].JObj? && ParseMarket(ms[1..][j].fields) == Some(m);
          assert ms[j + 1] == ms[1..][j];
        }
      }
    }
  }

  /** `(response.json() or {}).get("markets") or []`: `None` when the body is
      a truthy non-object, on which `.get` raises. */
  function MarketsField(body: Json): Option<Json> {
    var d := if Truthy(body) then body else JObj(map[]);
    if !d.JObj? then None
    else
      var ms := Get(d.fields, "markets");
      Some(if TruthyOpt(ms) then ms.value else JArr([]))
  }

  /** The parsed markets of a decoded body; `None` where the source raises
      (a truthy non-list `markets` fails when iterated element by element). */
  function ParseEventPayload(body: Json): (r: Option<seq<Market>>)
    ensures MarketsField(body).None? ==> r.None?
    ensures MarketsField(body).Some? && !MarketsField(body).value.JArr? ==> r.None?
    ensures MarketsField(body).Some? && MarketsField(body).value.JArr? ==>
      var ms := MarketsField(body).value.items;
      (r.None? <==> exists i :: 0 <= i < |ms| && !ms[i].JObj?) && (r.Some? ==> r.value == Kept(ms))
  {
    match MarketsField(body)
    case None => None
    case Some(JArr(ms)) => ParseMarketList(ms)
    case Some(_) => None
  }

  // ---------- retry counter ----------

  /** The shared `retry_count`/`last_429_time` and Kalshi's `last_retry_ts`. */
  datatype RetryState = RetryState(backoff: Backoff, lastRetryTs: int)

  /** `_register_retry`. */
  function RegisterRetry(s: RetryState, now: int): (r: RetryState)
    ensures r.backoff.retryCount == s.backoff.retryCount + 1
    ensures r.backoff.last429Time == s.backoff.last429Time && r.lastRetryTs == now
  {
    RetryState(s.backoff.(retryCount := s.backoff.retryCount + 1), now)
  }

  /** `should_extend_interval`. */
  predicate ShouldExtend(s: RetryState, now: int) {
    s.backoff.retryCount >= EXTEND_AFTER_RETRIES && now - s.lastRetryTs < COOLDOWN_SECONDS
  }

  /** The 429 branch exactly as written: `_register_retry` and then
      `handle_rate_limit` both advance the same counter. */
  function On429AsWritten(s: RetryState, now: int): (r: (RetryState, nat))
    ensures r.0.lastRetryTs == now && r.1 in {30, 60, 120}
    ensures NoAnchor(s.backoff.last429Time) ==> r.0.backoff == Backoff(1, Some(now)) && r.1 == 30
    ensures !NoAnchor(s.backoff.last429Time) && now - s.backoff.last429Time.value < ESCALATION_WINDOW_SECONDS ==>
      r.0.backoff == Backoff(s.backoff.retryCount + 2, s.backoff.last429Time)
      && r.1 == WaitFor(s.backoff.retryCount + 2)
    ensures !NoAnchor(s.backoff.last429Time) && now - s.backoff.last429Time.value >= ESCALATION_WINDOW_SECONDS ==>
      r.0.backoff == Backoff(1, s.backoff.last429Time) && r.1 == 30
  {
    var r := RegisterRetry(s, now);
    var step := RateLimitStepAsWritten(r.backoff, now);
    (RetryState(step.0, r.lastRetryTs), step.1)
  }

  /** The 429 branch counting each hit once: the back-off controller advances
      the counter and the retry timestamp is recorded. */
  function On429(s: RetryState, now: int): (r: (RetryState, nat))
    ensures r.0.lastRetryTs == now && r.1 in {30, 60, 120}
  {
    var step := RateLimitStep(s.backoff, now);
    (RetryState(step.0, now), step.1)
  }

  /** What one `fetch_event_markets` call does to the state, what it returns,
      and how long it waits. */
  datatype FetchResult = FetchResult(state: RetryState, markets: seq<Market>, wait: Option<nat>)

  function Fetch(s: RetryState, response: HttpOutcome, now: int): FetchResult {
    match response
    case TransportError(_) => FetchResult(RegisterRetry(s, now), [], None)
    case Response(status, body) =>
      if status == RATE_LIMIT_STATUS then
        var hit := On429AsWritten(s, now);
        FetchResult(hit.0, [], Some(hit.1))
      else if 400 <= status < 600 || body.None? then FetchResult(RegisterRetry(s, now), [], None)
      else
        match ParseEventPayload(body.value)
        case None => FetchResult(RegisterRetry(s, now), [], None)
        case Some(ms) => FetchResult(s.(backoff := s.backoff.(retryCount := 0)), ms, None)
  }

  /** A fetch either succeeds, resets the counter and returns only valid
      markets, or returns nothing. A 429 takes the as-written 429 branch and
      waits; every other failure (transport error, 4xx/5xx status, an
      undecodable body, a payload that does not parse) counts one retry and
      does not wait. */
  lemma FetchOutcomes(s: RetryState, response: HttpOutcome, now: int)
    ensures var f := Fetch(s, response, now);
      forall i :: 0 <= i < |f.markets| ==> ValidQuote(f.markets[i].bid, f.markets[i].ask)
    ensures var f := Fetch(s, response, now);
      f.markets != [] ==> f.state.backoff.retryCount == 0 && f.wait.None?
    ensures var f := Fetch(s, response, now);
      response.TransportError? ==> f.state == RegisterRetry(s, now) && f.markets == [] && f.wait.None?
    ensures var f := Fetch(s, response, now);
      response.Response? && response.status == RATE_LIMIT_STATUS ==>
        f.markets == [] && f.wait == Some(On429AsWritten(s, now).1) && f.state == On429AsWritten(s, now).0
    ensures var f := Fetch(s, response, now);
      response.Response? && response.status != RATE_LIMIT_STATUS
      && (400 <= response.status < 600 || response.body.None?) ==>
        f.state == RegisterRetry(s, now) && f.markets == [] && f.wait.None?
    ensures var f := Fetch(s, response, now);
      response.Response? && response.status != RATE_LIMIT_STATUS && !(400 <= response.status < 600)
      && response.body.Some? && ParseEventPayload(response.body.value).None? ==>
        f.state == RegisterRetry(s, now) && f.markets == [] && f.wait.None?
    ensures var f := Fetch(s, response, now);
      response.Response? && response.status != RATE_LIMIT_STATUS && !(400 <= response.status < 600)
      && response.body.Some? && ParseEventPayload(response.body.value).Some? ==>
        f.markets == ParseEventPayload(response.body.value).value && f.wait.None?
        && f.state == RetryState(s.backoff.(retryCount := 0), s.lastRetryTs)
  {
  }

  /** A first-ever 429 leaves the counter at 1 and waits 30 s, in both the
      as-written and the corrected 429 branch. */
  lemma FirstRateLimitHit(s: RetryState, now: int)
    requires s.backoff.last429Time.None?
    ensures On429(s, now).0.backoff.retryCount == 1 && On429(s, now).1 == 30
    ensures On429AsWritten(s, now).0.backoff.retryCount == 1 && On429AsWritten(s, now).1 == 30
  {
  }

  /** Consecutive 429s at the given times. */
  function Replay429(s: RetryState, times: seq<int>): (r: (RetryState, seq<nat>))
    ensures |r.1| == |times|
    decreases |times|
  {
    if times == [] then (s, [])
    else
      var step := On429(s, times[0]);
      var rest := Replay429(step.0, times[1..]);
      (rest.0, [step.1] + rest.1)
  }

  function Replay429AsWritten(s: RetryState, times: seq<int>): (r: (RetryState, seq<nat>))
    ensures |r.1| == |times|
    decreases |times|
  {
    if times == [] then (s, [])
    else
      var step := On429AsWritten(s, times[0]);
      var rest := Replay429AsWritten(step.0, times[1..]);
      (rest.0, [step.1] + rest.1)
  }

  /** Within one escalation window, counting each hit once: `n` hits leave the
      counter `n` higher and the retry timestamp at the last hit. */
  lemma {:induction false} BurstCountsEachHitOnce(s: RetryState, anchor: int, times: seq<int>)
    requires anchor != 0 && s.backoff.last429Time == Some(anchor)
    requires forall i :: 0 <= i < |times| ==> times[i] - anchor < ESCALATION_WINDOW_SECONDS
    ensures Replay429(s, times).0.backoff == Backoff(s.backoff.retryCount + |times|, Some(anchor))
    ensures times != [] ==> Replay429(s, times).0.lastRetryTs == times[|times| - 1]
    decreases |times|
  {
    if times != [] {
      var next := On429(s, times[0]).0;
      BurstCountsEachHitOnce(next, anchor, times[1..]);
      if |times| > 1 {
        assert times[1..][|times[1..]| - 1] == times[|times| - 1];
      }
    }
  }

  /** From a fresh client, a burst of 429s inside the cooldown suggests a
      longer interval exactly from the fifth hit on. */
  lemma ExtendsFromFifthHit(times: seq<int>, now: int)
    requires |times| >= 1 && times[0] != 0
    requires forall i :: 0 <= i < |times| ==> times[i] - times[0] < ESCALATION_WINDOW_SECONDS
    requires now - times[|times| - 1] < COOLDOWN_SECONDS
    ensures ShouldExtend(Replay429(RetryState(Backoff(0, None), 0), times).0, now) <==> |times| >= 5
  {
    var first := On429(RetryState(Backoff(0, None), 0), times[0]).0;
    assert first.backoff == Backoff(1, Some(times[0]));
    BurstCountsEachHitOnce(first, times[0], times[1..]);
    if |times| > 1 {
      assert times[1..][|times[1..]| - 1] == times[|times| - 1];
    }
  }

  /** As written, within one escalation window every 429 after the first
      advances the counter by two. */
  lemma {:induction false} AsWrittenBurstCountsTwice(s: RetryState, anchor: int, times: seq<int>)
    requires anchor != 0 && s.backoff.last429Time == Some(anchor)
    requires forall i :: 0 <= i < |times| ==> times[i] - anchor < ESCALATION_WINDOW_SECONDS
    ensures Replay429AsWritten(s, times).0.backoff == Backoff(s.backoff.retryCount + 2 * |times|, Some(anchor))
    ensures times != [] ==> Replay429AsWritten(s, times).0.lastRetryTs == times[|times| - 1]
    decreases |times|
  {
    if times != [] {
      var next := On429AsWritten(s, times[0]).0;
      AsWrittenBurstCountsTwice(next, anchor, times[1..]);
      if |times| > 1 {
        assert times[1..][|times[1..]| - 1] == times[|times| - 1];
      }
    }
  }

  /** As written, from a fresh client a burst of 429s inside the cooldown
      suggests a longer interval exactly from the third hit on (the counter
      reads 1, 3, 5, ...). */
  lemma AsWrittenExtendsFromThirdHit(times: seq<int>, now: int)
    requires |times| >= 1 && times[0] != 0
    requires forall i :: 0 <= i < |times| ==> times[i] - times[0] < ESCALATION_WINDOW_SECONDS
    requires now - times[|times| - 1] < COOLDOWN_SECONDS
    ensures Replay429AsWritten(RetryState(Backoff(0, None), 0), times).0.backoff.retryCount == 2 * |times| - 1
    ensures ShouldExtend(Replay429AsWritten(RetryState(Backoff(0, None), 0), times).0, now) <==> |times| >= 3
  {
    var first := On429AsWritten(RetryState(Backoff(0, None), 0), times[0]).0;
    assert first.backoff == Backoff(1, Some(times[0]));
    AsWrittenBurstCountsTwice(first, times[0], times[1..]);
    if |times| > 1 {
      assert times[1..][|times[1..]| - 1] == times[|times| - 1];
    }
  }

  /** Two 429s ten seconds apart on a fresh client: as written the second
      already waits 120 s and the counter stands at 3; once per hit it waits
      60 s with the counter at 2. */
  lemma DoubleCountCounterexample()
    ensures var r := Replay429AsWritten(RetryState(Backoff(0, None), 0), [1000, 1010]);
      r.1 == [30, 120] && r.0.backoff.retryCount == 3
    ensures var r := Replay429(RetryState(Backoff(0, None), 0), [1000, 1010]);
      r.1 == [30, 60] && r.0.backoff.retryCount == 2
  {
    var a := On429AsWritten(RetryState(Backoff(0, None), 0), 1000);
    assert a.0 == RetryState(Backoff(1, Some(1000)), 1000) && a.1 == 30;
    var b := On429AsWritten(a.0, 1010);
    assert b.0.backoff.retryCount == 3 && b.1 == 120;
    assert [1010][1..] == [];
    assert Replay429AsWritten(b.0, []) == (b.0, []);
    assert Replay429AsWritten(a.0, [1010]).0 == b.0;
    assert Replay429AsWritten(a.0, [1010]).1 == [120];
    var c := On429(RetryState(Backoff(0, None), 0), 1000);
    var d := On429(c.0, 1010);
    assert d.0.backoff.retryCount == 2 && d.1 == 60;
    assert Replay429(d.0, []) == (d.0, []);
    assert Replay429(c.0, [1010]).0 == d.0;
    assert Replay429(c.0, [1010]).1 == [60];
  }

  /** As written, three 429s inside the cooldown already suggest a longer
      interval (the counter goes 1, 3, 5). */
  lemma AsWrittenExtendsAfterThreeHits()
    ensures ShouldExtend(Replay429AsWritten(RetryState(Backoff(0, None), 0), [1000, 1010, 1020]).0, 1030)
    ensures !ShouldExtend(Replay429(RetryState(Backoff(0, None), 0), [1000, 1010, 1020]).0, 1030)
  {
    var a := On429AsWritten(RetryState(Backoff(0, None), 0), 1000);
    var b := On429AsWritten(a.0, 1010);
    var c := On429AsWritten(b.0, 1020);
    assert c.0.backoff.retryCount == 5 && c.0.lastRetryTs == 1020;
    assert [1020][1..] == [] && [1010, 1020][1..] == [1020];
    assert Replay429AsWritten(b.0, [1020]).0 == c.0;
    assert Replay429AsWritten(a.0, [1010, 1020]).0 == c.0;
    var d := On429(RetryState(Backoff(0, None), 0), 1000);
    var e := On429(d.0, 1010);
    var f := On429(e.0, 1020);
    assert f.0.backoff.retryCount == 3;
    assert Replay429(e.0, [1020]).0 == f.0;
    assert Replay429(d.0, [1010, 1020]).0 == f.0;
  }

  /** `KalshiClient`. Python's `self.retry_count` is the attribute that the
      base client's back-off also updates, so it lives in `base`. */
  class KalshiClient {
    const base: ApiClient
    const apiKey: Option<string>
    var lastRetryTs: int

    constructor (pollingInterval: int, apiKey: Option<string>)
      ensures fresh(base) && base.State() == Backoff(0, None) && lastRetryTs == 0
      ensures this.apiKey == apiKey
    {
      base := new ApiClient("Kalshi", pollingInterval);
      this.apiKey := apiKey;
      lastRetryTs := 0;
    }

    function State(): RetryState
      reads this, base
    {
      RetryState(base.State(), lastRetryTs)
    }

    method RegisterRetryNow(now: int)
      modifies this, base
      ensures State() == RegisterRetry(old(State()), now)
    {
      base.retryCount := base.retryCount + 1;
      lastRetryTs := now;
    }

    function ShouldExtendInterval(now: int): bool
      reads this, base
    {
      ShouldExtend(State(), now)
    }

    /** `fetch_event_markets` on an already-received response. */
    method FetchEventMarkets(response: HttpOutcome, now: int) returns (markets: seq<Market>, wait: Option<nat>)
      modifies this, base
      ensures FetchResult(State(), markets, wait) == Fetch(old(State()), response, now)
    {
      markets, wait := [], None;
      match response
      case TransportError(_) =>
        RegisterRetryNow(now);
      case Response(status, body) =>
        if status == RATE_LIMIT_STATUS {
          RegisterRetryNow(now);
          var w := base.HandleRateLimit(now);
          wait := Some(w);
        } else if 400 <= status < 600 || body.None? {
          RegisterRetryNow(now);
        } else {
          var parsed := ParseEventPayload(body.value);
          if parsed.None? {
            RegisterRetryNow(now);
          } else {
            base.retryCount := 0;
            markets := parsed.value;
          }
        }
    }
  }
}
