/** The Polymarket events client: normalisation of an event's markets into
    `{title, bid, ask, raw}` records, with the outcome-price fallback. */
module PolymarketClient {
  import opened JsonValue
  import opened PyText
  import opened BaseClient

  const RATE_LIMIT_STATUS: int := 429

  /** What the loop body does with one market: the whole fetch fails (an
      exception escapes), the market is skipped (`continue`), or it is kept. */
  datatype Step = Raise | Skip | Keep(market: Market)

  // ---------- min/max of the parsed outcome prices ----------

  function MinOf(xs: seq<real>): (m: real)
    requires xs != []
    ensures m in xs && forall i :: 0 <= i < |xs| ==> m <= xs[i]
  {
    if |xs| == 1 then xs[0]
    else var rest := MinOf(xs[1..]); if xs[0] <= rest then xs[0] else rest
  }

  function MaxOf(xs: seq<real>): (m: real)
    requires xs != []
    ensures m in xs && forall i :: 0 <= i < |xs| ==> xs[i] <= m
  {
    if |xs| == 1 then xs[0]
    else var rest := MaxOf(xs[1..]); if xs[0] >= rest then xs[0] else rest
  }

  /** `[float(x) for x in parts if x.strip() != ""]`: `None` when some
      non-blank part does not parse. */
  function ParseValues(parts: seq<string>): (r: Option<seq<real>>)
    ensures r.Some? ==> |r.value| <= |parts|
  {
    if parts == [] then Some([])
    else
      match ParseValues(parts[1..])
      case None => None
      case Some(rest) =>
        if IsBlank(parts[0]) then Some(rest)
        else
          match ParseFloat(parts[0])
          case None => None
          case Some(v) => Some([v] + rest)
  }

  /** The numbers in an `outcomePrices` text such as `["0.4","0.6"]`, already
      stripped: `None` unless it starts with `[` and every piece parses. */
  function OutcomeValues(op: string): Option<seq<real>> {
    if op == [] || op[0] != '[' then None
    else ParseValues(Split(Replace(StripChars(op, {'[', ']'}), "\"", ""), ','))
  }

  /** The fallback's `(min, max)` when at least two values were parsed. */
  function OutcomeRange(op: string): (r: Option<(real, real)>)
    ensures r.Some? ==> r.value.0 <= r.value.1
  {
    match OutcomeValues(op)
    case Some(vals) =>
      if |vals| >= 2 then Some((MinOf(vals), MaxOf(vals))) else None
    case None => None
  }

  /** `m.get(k) is None`: the key is missing or holds JSON null. */
  predicate IsNone(v: Option<Json>) {
    v.None? || v.value.JNull?
  }

  /** `m.get("groupItemTitle") or m.get("question") or m.get("slug") or str(m.get("id"))`. */
  function Title(m: map<string, Json>): (t: Json)
    ensures TruthyOpt(Get(m, "groupItemTitle")) ==> t == m["groupItemTitle"]
    ensures !TruthyOpt(Get(m, "groupItemTitle")) && TruthyOpt(Get(m, "question")) ==> t == m["question"]
    ensures !TruthyOpt(Get(m, "groupItemTitle")) && !TruthyOpt(Get(m, "question")) && TruthyOpt(Get(m, "slug")) ==>
      t == m["slug"]
    ensures !TruthyOpt(Get(m, "groupItemTitle")) && !TruthyOpt(Get(m, "question")) && !TruthyOpt(Get(m, "slug")) ==>
      t == JStr(PyStr(if "id" in m then m["id"] else JNull))
  {
    var chosen := Or(Get(m, "groupItemTitle"), Or(Get(m, "question"), Get(m, "slug")));
    if TruthyOpt(chosen) then chosen.value
    else JStr(PyStr(if "id" in m then m["id"] else JNull))
  }

  /** `(m.get("outcomePrices") or "").strip()`: `None` when `.strip()` raises
      on a truthy non-string. */
  function OutcomeText(op: Option<Json>): (r: Option<string>)
    ensures !TruthyOpt(op) ==> r == Some("")
    ensures TruthyOpt(op) && op.value.JStr? ==> r == Some(Strip(op.value.s))
    ensures TruthyOpt(op) && !op.value.JStr? ==> r == None
  {
    if !TruthyOpt(op) then Some("")
    else if op.value.JStr? then Some(Strip(op.value.s))
    else None
  }

  /** `bestBid`/`bestAsk` after the `outcomePrices` fallback; `None` when the
      fallback raises. The fallback is read only when a price is missing, and
      replaces both prices. */
  function Prices(m: map<string, Json>): Option<(Option<Json>, Option<Json>)> {
    var bid0, ask0 := Get(m, "bestBid"), Get(m, "bestAsk");
    if !(IsNone(bid0) || IsNone(ask0)) then Some((bid0, ask0))
    else
      match OutcomeText(Get(m, "outcomePrices"))
      case None => None
      case Some(text) =>
        match OutcomeRange(text)
        case Some(range) => Some((Some(JFloat(range.0)), Some(JFloat(range.1))))
        case None => Some((bid0, ask0))
  }

  /** The skip tests and the conversion with `float()`. */
  function Convert(title: Json, bid: Option<Json>, ask: Option<Json>, raw: Json): (r: Step)
    ensures r.Keep? ==> ValidQuote(r.market.bid, r.market.ask) && r.market.raw == raw && r.market.title == title
    ensures IsNone(bid) || IsNone(ask) ==> r == Skip
    ensures r != Raise
  {
    if IsNone(bid) || IsNone(ask) then Skip
    else
      match (PyFloat(bid.value), PyFloat(ask.value))
      case (Some(b), Some(a)) =>
        if ValidQuote(b, a) then Keep(Market(title, b, a, raw)) else Skip
      case _ => Skip
  }

  /** The loop body for one market. */
  function NormaliseMarket(j: Json): (r: Step)
    ensures !j.JObj? ==> r == Raise
    ensures r.Keep? ==> ValidQuote(r.market.bid, r.market.ask) && r.market.raw == j
    ensures r.Keep? ==> r.market.title == Title(j.fields)
  {
    if !j.JObj? then Raise
    else
      match Prices(j.fields)
      case None => Raise
      case Some(p) => Convert(Title(j.fields), p.0, p.1, j)
  }

  /** Both listed prices present and convertible: they are used as they are. */
  lemma ListedPricesUsed(m: map<string, Json>)
    requires !IsNone(Get(m, "bestBid")) && !IsNone(Get(m, "bestAsk"))
    requires PyFloat(m["bestBid"]).Some? && PyFloat(m["bestAsk"]).Some?
    ensures var b, a := PyFloat(m["bestBid"]).value, PyFloat(m["bestAsk"]).value;
      NormaliseMarket(JObj(m)) == if ValidQuote(b, a) then Keep(Market(Title(m), b, a, JObj(m))) else Skip
  {
  }

  /** A missing price with an `outcomePrices` text yielding at least two
      values: bid and ask become their minimum and maximum. */
  lemma OutcomePricesFallback(m: map<string, Json>, s: string)
    requires IsNone(Get(m, "bestBid")) || IsNone(Get(m, "bestAsk"))
    requires Get(m, "outcomePrices") == Some(JStr(s))
    requires OutcomeValues(Strip(s)).Some? && |OutcomeValues(Strip(s)).value| >= 2
    ensures var vals := OutcomeValues(Strip(s)).value;
      var b, a := MinOf(vals), MaxOf(vals);
      NormaliseMarket(JObj(m)) == if ValidQuote(b, a) then Keep(Market(Title(m), b, a, JObj(m))) else Skip
  {
    var vals := OutcomeValues(Strip(s)).value;
    var b, a := MinOf(vals), MaxOf(vals);
    FallbackRange(s, vals);
    FallbackPrices(m, s, b, a);
    PricesConverted(m, b, a);
  }

  lemma FallbackRange(s: string, vals: seq<real>)
    requires OutcomeValues(Strip(s)) == Some(vals) && |vals| >= 2
    ensures OutcomeRange(Strip(s)) == Some((MinOf(vals), MaxOf(vals)))
  {
  }

  lemma FallbackPrices(m: map<string, Json>, s: string, b: real, a: real)
    requires IsNone(Get(m, "bestBid")) || IsNone(Get(m, "bestAsk"))
    requires Get(m, "outcomePrices") == Some(JStr(s))
    requires OutcomeRange(Strip(s)) == Some((b, a))
    ensures Prices(m) == Some((Some(JFloat(b)), Some(JFloat(a))))
  {
    assert |Strip(s)| <= |s|;
    assert OutcomeText(Get(m, "outcomePrices")) == Some(Strip(s));
  }

  lemma PricesConverted(m: map<string, Json>, b: real, a: real)
    requires Prices(m) == Some((Some(JFloat(b)), Some(JFloat(a))))
    ensures NormaliseMarket(JObj(m)) == if ValidQuote(b, a) then Keep(Market(Title(m), b, a, JObj(m))) else Skip
  {
    assert NormaliseMarket(JObj(m)) == Convert(Title(m), Some(JFloat(b)), Some(JFloat(a)), JObj(m));
    assert PyFloat(JFloat(b)) == Some(b) && PyFloat(JFloat(a)) == Some(a);
  }

  /** A missing price without a usable fallback: the market is skipped. */
  lemma MissingPriceSkipped(m: map<string, Json>)
    requires IsNone(Get(m, "bestBid")) || IsNone(Get(m, "bestAsk"))
    requires !TruthyOpt(Get(m, "outcomePrices"))
    ensures NormaliseMarket(JObj(m)) == Skip
  {
    assert OutcomeRange("") == None;
  }

  /** The loop body's verdict for each market, in order. */
  function Steps(ms: seq<Json>): (r: seq<Step>)
    ensures |r| == |ms| && forall i :: 0 <= i < |ms| ==> r[i] == NormaliseMarket(ms[i])
  {
    if ms == [] then [] else [NormaliseMarket(ms[0])] + Steps(ms[1..])
  }

  /** The markets one non-raising verdict contributes. */
  function KeptBy(step: Step): seq<Market> {
    if step.Keep? then [step.market] else []
  }

  /** The markets the verdicts keep, in order. */
  function KeptAll(steps: seq<Step>): seq<Market> {
    if steps == [] then [] else KeptBy(steps[0]) + KeptAll(steps[1..])
  }

  /** Nothing kept is dropped: every kept market is in `KeptAll`, and every
      market in it was kept by some verdict. */
  lemma {:induction false} KeptAllIsExactlyKept(steps: seq<Step>)
    ensures forall i :: 0 <= i < |steps| && steps[i].Keep? ==> steps[i].market in KeptAll(steps)
    ensures forall m :: m in KeptAll(steps) ==> exists i :: 0 <= i < |steps| && steps[i] == Keep(m)
    decreases |steps|
  {
    if steps != [] {
      KeptAllIsExactlyKept(steps[1..]);
      assert KeptAll(steps) == KeptBy(steps[0]) + KeptAll(steps[1..]);
      forall i | 0 <= i < |steps| && steps[i].Keep?
        ensures steps[i].market in KeptAll(steps)
      {
        if i > 0 {
          assert steps[i] == steps[1..][i - 1];
        }
      }
      forall m | m in KeptAll(steps)
        ensures exists i :: 0 <= i < |steps| && steps[i] == Keep(m)
      {
        if m in KeptBy(steps[0]) {
          assert steps[0] == Keep(m);
        } else {
          assert m in KeptAll(steps[1..]);
          var j :| 0 <= j < |steps[1..]| && steps[1..][j] == Keep(m);
          assert steps[j + 1] == steps[1..][j];
        }
      }
    }
  }

  /** Running the loop over precomputed verdicts: `None` as soon as one
      raises, otherwise the kept markets in order. */
  function Collect(steps: seq<Step>): (r: Option<seq<Market>>)
    ensures r.Some? ==> |r.value| <= |steps|
    ensures r.None? <==> exists i :: 0 <= i < |steps| && steps[i].Raise?
    ensures r.Some? ==> r.value == KeptAll(steps)
  {
    if steps == [] then Some([])
    else if steps[0].Raise? then None
    else
      match Collect(steps[1..])
      case None => assert steps[1..][0] == steps[1]; None
      case Some(rest) =>
        assert forall i :: 1 <= i < |steps| ==> steps[i] == steps[1..][i - 1];
        Some(if steps[0].Keep? then [steps[0].market] + rest else rest)
  }

  /** Every collected market was kept by some step, with its raw payload. */
  lemma {:induction false} CollectKeepsStepMarkets(steps: seq<Step>, raws: seq<Json>)
    requires |raws| == |steps|
    requires forall i :: 0 <= i < |steps| && steps[i].Keep? ==>
      ValidQuote(steps[i].market.bid, steps[i].market.ask) && steps[i].market.raw == raws[i]
    requires Collect(steps).Some?
    ensures forall i :: 0 <= i < |Collect(steps).value| ==>
      ValidQuote(Collect(steps).value[i].bid, Collect(steps).value[i].ask)
    ensures IsSubsequence(Raws(Collect(steps).value), raws)
  {
    if steps != [] {
      assert forall i :: 1 <= i < |steps| ==> steps[i] == steps[1..][i - 1] && raws[i] == raws[1..][i - 1];
      CollectKeepsStepMarkets(steps[1..], raws[1..]);
      var rest := Collect(steps[1..]).value;
      if steps[0].Keep? {
        assert Raws([steps[0].market] + rest) == [raws[0]] + Raws(rest);
        assert ([raws[0]] + Raws(rest))[1..] == Raws(rest);
      } else {
        assert Raws(Collect(steps).value) == Raws(rest);
      }
    }
  }

  /** The loop over all markets: `None` when some iteration raises. */
  function NormaliseAll(ms: seq<Json>): (r: Option<seq<Market>>)
    ensures r.None? <==> exists i :: 0 <= i < |ms| && NormaliseMarket(ms[i]).Raise?
    ensures r.Some? ==> |r.value| <= |ms|
    ensures r.Some? ==> r.value == KeptAll(Steps(ms))
  {
    var steps := Steps(ms);
    assert forall i :: 0 <= i < |ms| ==> steps[i] == NormaliseMarket(ms[i]);
    Collect(steps)
  }

  /** `xs` is `ys` with some elements dropped, order kept. */
  predicate IsSubsequence(xs: seq<Json>, ys: seq<Json>)
    decreases |ys|
  {
    if xs == [] then true
    else if ys == [] then false
    else (xs[0] == ys[0] && IsSubsequence(xs[1..], ys[1..])) || IsSubsequence(xs, ys[1..])
  }

  function Raws(ms: seq<Market>): (r: seq<Json>)
    ensures |r| == |ms| && forall i :: 0 <= i < |ms| ==> r[i] == ms[i].raw
  {
    if ms == [] then [] else [ms[0].raw] + Raws(ms[1..])
  }

  /** Every returned market is valid, and the returned markets are input
      markets, in input order. */
  lemma NormaliseAllValidInOrder(ms: seq<Json>)
    requires NormaliseAll(ms).Some?
    ensures forall i :: 0 <= i < |NormaliseAll(ms).value| ==>
      ValidQuote(NormaliseAll(ms).value[i].bid, NormaliseAll(ms).value[i].ask)
    ensures IsSubsequence(Raws(NormaliseAll(ms).value), ms)
  {
    CollectKeepsStepMarkets(Steps(ms), ms);
  }

  /** When the loop does not raise it returns every market the loop body
      keeps, and only those. */
  lemma NormaliseAllKeepsEveryValidMarket(ms: seq<Json>)
    requires NormaliseAll(ms).Some?
    ensures forall i :: 0 <= i < |ms| && NormaliseMarket(ms[i]).Keep? ==>
      NormaliseMarket(ms[i]).market in NormaliseAll(ms).value
    ensures forall m :: m in NormaliseAll(ms).value ==> exists i :: 0 <= i < |ms| && NormaliseMarket(ms[i]) == Keep(m)
  {
    var steps := Steps(ms);
    KeptAllIsExactlyKept(steps);
    forall m | m in NormaliseAll(ms).value
      ensures exists i :: 0 <= i < |ms| && NormaliseMarket(ms[i]) == Keep(m)
    {
      var i :| 0 <= i < |steps| && steps[i] == Keep(m);
      assert NormaliseMarket(ms[i]) == Keep(m);
    }
  }

  /** `data.get("markets") or []` on the decoded body, iterated; `None` when
      the body is not an object or `markets` is a truthy non-list. */
  function ParseEventPayload(body: Json): (r: Option<seq<Market>>)
    ensures r.Some? ==> forall i :: 0 <= i < |r.value| ==> ValidQuote(r.value[i].bid, r.value[i].ask)
    ensures !body.JObj? ==> r.None?
    ensures body.JObj? ==>
      var listed := Or(Get(body.fields, "markets"), Some(JArr([])));
      (!listed.value.JArr? ==> r.None?)
      && (listed.value.JArr? ==> r == NormaliseAll(listed.value.items))
  {
    if !body.JObj? then None
    else
      match Or(Get(body.fields, "markets"), Some(JArr([])))
      case Some(JArr(ms)) =>
        if NormaliseAll(ms).Some? then NormaliseAllValidInOrder(ms); NormaliseAll(ms) else None
      case _ => None
  }

  /** One `fetch_event_markets` call: the new back-off state, the markets,
      and the wait when rate-limited. A success leaves the counter alone. */
  function Fetch(b: Backoff, response: HttpOutcome, now: int): (r: (Backoff, seq<Market>, Option<nat>))
    ensures forall i :: 0 <= i < |r.1| ==> ValidQuote(r.1[i].bid, r.1[i].ask)
    ensures response.Response? && response.status == RATE_LIMIT_STATUS ==>
      r.1 == [] && r.2.Some? && (r.0, r.2.value) == RateLimitStepAsWritten(b, now)
    ensures !(response.Response? && response.status == RATE_LIMIT_STATUS) ==> r.0 == b && r.2.None?
    ensures response.TransportError? ==> r.1 == []
    ensures response.Response? && 400 <= response.status < 600 ==> r.1 == []
    ensures response.Response? && response.status != RATE_LIMIT_STATUS && !(400 <= response.status < 600) ==>
      r.1 == if response.body.Some? && ParseEventPayload(response.body.value).Some?
             then ParseEventPayload(response.body.value).value else []
  {
    match response
    case TransportError(_) => (b, [], None)
    case Response(status, body) =>
      if status == RATE_LIMIT_STATUS then
        var step := RateLimitStepAsWritten(b, now);
        (step.0, [], Some(step.1))
      else if 400 <= status < 600 || body.None? then (b, [], None)
      else
        match ParseEventPayload(body.value)
        case None => (b, [], None)
        case Some(ms) => (b, ms, None)
  }

  /** A market list containing a non-object entry makes the whole fetch
      return nothing, even when other entries are fine. */
  lemma NonObjectMarketEmptiesFetch(b: Backoff, fields: map<string, Json>, ms: seq<Json>, now: int, k: nat)
    requires "markets" in fields && fields["markets"] == JArr(ms)
    requires k < |ms| && !ms[k].JObj?
    ensures Fetch(b, Response(200, Some(JObj(fields))), now) == (b, [], None)
  {
    assert NormaliseMarket(ms[k]) == Raise;
  }


  /** One more non-raising verdict appends its market, if any. */
  lemma {:induction false} CollectSnoc(steps: seq<Step>, step: Step, kept: seq<Market>)
    requires Collect(steps) == Some(kept) && !step.Raise?
    ensures Collect(steps + [step]) == Some(kept + KeptBy(step))
    decreases |steps|
  {
    if steps == [] {
      assert [step][1..] == [];
      assert steps + [step] == [step];
      assert kept == [];
      assert Collect([step][1..]) == Some([]);
      assert KeptBy(step) + [] == KeptBy(step) == kept + KeptBy(step);
      assert Collect([step]) == Some(KeptBy(step));
    } else {
      var rest := Collect(steps[1..]).value;
      assert kept == KeptBy(steps[0]) + rest;
      CollectSnoc(steps[1..], step, rest);
      assert (steps + [step])[0] == steps[0];
      assert (steps + [step])[1..] == steps[1..] + [step];
      assert KeptBy(steps[0]) + (rest + KeptBy(step)) == kept + KeptBy(step);
    }
  }

  /** The loop of `fetch_event_markets` over the decoded market list, first
      market first. */
  method NormaliseMarkets(ms: seq<Json>) returns (out: Option<seq<Market>>)
    ensures out == NormaliseAll(ms)
  {
    ghost var steps := Steps(ms);
    var kept: seq<Market> := [];
    var i := 0;
    assert steps[..0] == [];
    while i < |ms|
      invariant 0 <= i <= |ms|
      invariant Collect(steps[..i]) == Some(kept)
    {
      var step := NormaliseMarket(ms[i]);
      if step.Raise? {
        assert steps[i].Raise?;
        out := None;
        return;
      }
      CollectSnoc(steps[..i], step, kept);
      assert steps[..i] + [step] == steps[..i + 1];
      assert kept + KeptBy(step) == if step.Keep? then kept + [step.market] else kept;
      if step.Keep? {
        kept := kept + [step.market];
      }
      i := i + 1;
    }
    assert steps[..|ms|] == steps;
    out := Some(kept);
  }

  /** `PolymarketClient`: the back-off state is the base client's. */
  class PolymarketClient {
    const base: ApiClient

    constructor (pollingInterval: int)
      ensures fresh(base) && base.State() == Backoff(0, None)
    {
      base := new ApiClient("Polymarket", pollingInterval);
    }

    method FetchEventMarkets(response: HttpOutcome, now: int) returns (markets: seq<Market>, wait: Option<nat>)
      modifies base
      ensures (base.State(), markets, wait) == Fetch(old(base.State()), response, now)
    {
      markets, wait := [], None;
      match response
      case TransportError(_) =>
      case Response(status, body) =>
        if status == RATE_LIMIT_STATUS {
          var w := base.HandleRateLimit(now);
          wait := Some(w);
        } else if !(400 <= status < 600) && body.Some? && body.value.JObj? {
          var listed := Or(Get(body.value.fields, "markets"), Some(JArr([])));
          if listed.Some? && listed.value.JArr? {
            var parsed := NormaliseMarkets(listed.value.items);
            if parsed.Some? {
              markets := parsed.value;
            }
          }
        }
    }
  }
}
