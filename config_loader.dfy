/** Validation of the JSON configuration into typed records: required
    fields, positivity of the monitoring values, the `duration_hours` alias,
    and the Telegram settings lookup. */
module ConfigLoader {
  import opened JsonValue
  import opened PyText
  import opened Models

  /** Why a configuration is rejected; the source raises `ValueError` with a
      message built from these parts. */
  datatype ConfigError =
    | MissingFields(context: string, fields: seq<string>)
    | PairsNotNonEmptyList
    | PairNotObject(index: int)
    | MonitoringNotObject
    | MonitoringNotIntegers
    | IntervalNotPositive
    | DurationNotPositive
    | CostNotObject
    | GasFeeNotNumber
    | GasFeeNegative
    | MissingMarketPairs
    | ConfigNotObject

  // ---------- sorted(): strings in code-point order ----------

  /** Python's `<=` on strings: lexicographic by code point. */
  predicate StrLe(a: string, b: string) {
    if a == [] then true
    else if b == [] then false
    else if a[0] != b[0] then a[0] < b[0]
    else StrLe(a[1..], b[1..])
  }

  lemma {:induction false} StrLeTotal(a: string, b: string)
    ensures StrLe(a, b) || StrLe(b, a)
  {
    if a != [] && b != [] && a[0] == b[0] {
      StrLeTotal(a[1..], b[1..]);
    }
  }

  lemma {:induction false} StrLeTransitive(a: string, b: string, c: string)
    requires StrLe(a, b) && StrLe(b, c)
    ensures StrLe(a, c)
  {
    if a != [] && b != [] && c != [] && a[0] == b[0] && b[0] == c[0] {
      StrLeTransitive(a[1..], b[1..], c[1..]);
    }
  }

  predicate Sorted(s: seq<string>) {
    forall i, j :: 0 <= i < j < |s| ==> StrLe(s[i], s[j])
  }

  function Insert(x: string, s: seq<string>): (r: seq<string>)
    requires Sorted(s)
    ensures Sorted(r) && multiset(r) == multiset(s) + multiset{x}
  {
    if s == [] then [x]
    else if StrLe(x, s[0]) then
      forall j | 0 <= j < |s| ensures StrLe(x, s[j]) {
        if j > 0 { StrLeTransitive(x, s[0], s[j]); }
      }
      [x] + s
    else
      StrLeTotal(x, s[0]);
      var rest := Insert(x, s[1..]);
      assert s == [s[0]] + s[1..];
      assert forall k :: 0 <= k < |rest| ==> rest[k] in multiset(s[1..]) + multiset{x};
      assert forall k :: 0 <= k < |rest| ==> StrLe(s[0], rest[k]) by {
        forall k | 0 <= k < |rest| ensures StrLe(s[0], rest[k]) {
          assert rest[k] in multiset(rest);
          if rest[k] != x {
            assert rest[k] in s[1..];
          }
        }
      }
      [s[0]] + rest
  }

  /** `sorted(xs)` on strings: the same strings, in order. */
  function SortStrings(xs: seq<string>): (r: seq<string>)
    ensures Sorted(r) && multiset(r) == multiset(xs)
  {
    if xs == [] then []
    else
      assert xs == [xs[0]] + xs[1..];
      Insert(xs[0], SortStrings(xs[1..]))
  }

  // ---------- _require ----------

  /** `[key for key in keys if key not in obj]`. */
  function MissingKeys(obj: map<string, Json>, keys: seq<string>): (r: seq<string>)
    ensures forall k :: k in r <==> k in keys && k !in obj
  {
    if keys == [] then []
    else (if keys[0] !in obj then [keys[0]] else []) + MissingKeys(obj, keys[1..])
  }

  /** `_require`: fails exactly when some key is absent, listing exactly the
      absent keys in sorted order. */
  function Require(obj: map<string, Json>, keys: seq<string>, context: string): (r: Option<ConfigError>)
    ensures r.None? <==> forall k :: k in keys ==> k in obj
    ensures r.Some? ==> r.value.MissingFields? && r.value.context == context
    ensures r.Some? ==> Sorted(r.value.fields) && forall k :: k in r.value.fields <==> k in keys && k !in obj
  {
    var missing := MissingKeys(obj, keys);
    if missing == [] then None
    else
      var sorted := SortStrings(missing);
      assert forall k :: k in sorted <==> k in multiset(sorted);
      assert forall k :: k in missing <==> k in multiset(missing);
      Some(MissingFields(context, sorted))
  }

  // ---------- _load_market_pairs ----------

  const PAIR_FIELDS: seq<string> :=
    ["id", "market_name", "polymarket_token", "polymarket_market_id", "kalshi_ticker", "kalshi_market_id", "settlement_date"]

  /** `entry.get(key) or None`. */
  function OrNone(entry: map<string, Json>, key: string): (r: Option<Json>)
    ensures r.Some? ==> key in entry && r.value == entry[key] && Truthy(r.value)
  {
    var v := Get(entry, key);
    if TruthyOpt(v) then v else None
  }

  /** All seven required fields are present. */
  predicate HasPairFields(f: map<string, Json>) {
    && "id" in f && "market_name" in f && "polymarket_token" in f && "polymarket_market_id" in f
    && "kalshi_ticker" in f && "kalshi_market_id" in f && "settlement_date" in f
  }

  lemma HasPairFieldsIsRequired(f: map<string, Json>)
    ensures HasPairFields(f) <==> forall k :: k in PAIR_FIELDS ==> k in f
  {
  }

  /** The pair built from an entry that has all required fields. */
  function BuildPair(entry: map<string, Json>): MarketPair
    requires HasPairFields(entry)
  {
    MarketPair(
      PyStr(entry["id"]), PyStr(entry["market_name"]), PyStr(entry["polymarket_token"]),
      PyStr(entry["polymarket_market_id"]), PyStr(entry["kalshi_ticker"]),
      PyStr(entry["kalshi_market_id"]), PyStr(entry["settlement_date"]),
      "manually_verified" in entry && Truthy(entry["manually_verified"]),
      OrNone(entry, "notes"), OrNone(entry, "polymarket_title"), OrNone(entry, "kalshi_title"))
  }

  /** An absent `manually_verified` means not verified. */
  lemma ManuallyVerifiedDefaultsFalse(entry: map<string, Json>)
    requires HasPairFields(entry)
    requires "manually_verified" !in entry
    ensures !BuildPair(entry).manuallyVerified
  {
  }

  /** The context `market_pairs[idx]` used in error messages. */
  function PairContext(idx: int): string {
    "market_pairs[" + IntToString(idx) + "]"
  }

  /** An entry the loop accepts: an object with every required field. */
  predicate GoodEntry(entry: Json) {
    entry.JObj? && HasPairFields(entry.fields)
  }

  /** One loop iteration, for the entry numbered `idx` (from 1). */
  function CheckEntry(entry: Json, idx: int): (r: Result<MarketPair, ConfigError>)
    ensures r.Ok? <==> GoodEntry(entry)
    ensures r.Ok? ==> r.value == BuildPair(entry.fields)
    ensures !entry.JObj? ==> r == Err(PairNotObject(idx))
  {
    if !entry.JObj? then Err(PairNotObject(idx))
    else if HasPairFields(entry.fields) then Ok(BuildPair(entry.fields))
    else Err(MissingPairFields(entry.fields, idx))
  }

  /** The `_require` error for an entry lacking a required field; `_require`
      passes exactly when all are present. */
  function MissingPairFields(f: map<string, Json>, idx: int): (e: ConfigError)
    requires !HasPairFields(f)
    ensures Require(f, PAIR_FIELDS, PairContext(idx)) == Some(e)
  {
    HasPairFieldsIsRequired(f);
    Require(f, PAIR_FIELDS, PairContext(idx)).value
  }

  /** The entries numbered from `idx`: one pair per entry, in order, or the
      error of the first bad entry. */
  function PairsFrom(entries: seq<Json>, idx: int): (r: Result<seq<MarketPair>, ConfigError>)
    ensures r.Ok? <==> forall i :: 0 <= i < |entries| ==> GoodEntry(entries[i])
    ensures r.Ok? ==> (|r.value| == |entries| &&
      forall i :: 0 <= i < |entries| ==> GoodEntry(entries[i]) && r.value[i] == BuildPair(entries[i].fields))
    decreases |entries|
  {
    if entries == [] then Ok([])
    else
      match CheckEntry(entries[0], idx)
      case Err(e) => Err(e)
      case Ok(p) =>
        var rest := PairsFrom(entries[1..], idx + 1);
        assert forall i :: 1 <= i < |entries| ==> entries[i] == entries[1..][i - 1];
        match rest
        case Err(e) => Err(e)
        case Ok(ps) => Ok([p] + ps)
  }

  /** The first bad entry decides the error. */
  lemma {:induction false} PairsFromFirstError(entries: seq<Json>, idx: int, k: nat)
    requires k < |entries| && !GoodEntry(entries[k])
    requires forall j :: 0 <= j < k ==> GoodEntry(entries[j])
    ensures PairsFrom(entries, idx) == Err(CheckEntry(entries[k], idx + k).error)
  {
    if k > 0 {
      assert forall j :: 0 <= j < k - 1 ==> entries[1..][j] == entries[j + 1];
      PairsFromFirstError(entries[1..], idx + 1, k - 1);
    }
  }

  /** `_load_market_pairs` on `raw["market_pairs"]`. */
  function LoadMarketPairs(raw: Json): (r: Result<seq<MarketPair>, ConfigError>)
    ensures !(raw.JArr? && raw.items != []) ==> r == Err(PairsNotNonEmptyList)
    ensures r.Ok? ==> raw.JArr? && |r.value| == |raw.items| && r.value != []
    ensures raw.JArr? && raw.items != [] ==> r == PairsFrom(raw.items, 1)
  {
    if !raw.JArr? || raw.items == [] then Err(PairsNotNonEmptyList)
    else PairsFrom(raw.items, 1)
  }

  function Prepend(ps: seq<MarketPair>, r: Result<seq<MarketPair>, ConfigError>): Result<seq<MarketPair>, ConfigError> {
    match r
    case Ok(rest) => Ok(ps + rest)
    case Err(e) => Err(e)
  }

  /** One step of `PairsFrom`: a bad first entry is the error, a good one is
      prepended to the rest. */
  lemma PairsFromCons(entries: seq<Json>, idx: int)
    requires entries != []
    ensures CheckEntry(entries[0], idx).Err? ==> PairsFrom(entries, idx) == Err(CheckEntry(entries[0], idx).error)
    ensures CheckEntry(entries[0], idx).Ok? ==>
      PairsFrom(entries, idx) == Prepend([CheckEntry(entries[0], idx).value], PairsFrom(entries[1..], idx + 1))
  {
  }

  lemma PrependTwice(ps: seq<MarketPair>, qs: seq<MarketPair>, r: Result<seq<MarketPair>, ConfigError>)
    ensures Prepend(ps, Prepend(qs, r)) == Prepend(ps + qs, r)
    ensures Prepend([], r) == r
  {
    if r.Ok? {
      assert ps + (qs + r.value) == (ps + qs) + r.value;
      assert [] + r.value == r.value;
    }
  }

  /** The loop of `_load_market_pairs`. */
  method LoadMarketPairsLoop(raw: Json) returns (r: Result<seq<MarketPair>, ConfigError>)
    ensures r == LoadMarketPairs(raw)
  {
    if !raw.JArr? || raw.items == [] {
      return Err(PairsNotNonEmptyList);
    }
    var entries := raw.items;
    var pairs: seq<MarketPair> := [];
    var i := 0;
    assert entries[0..] == entries;
    PrependTwice([], [], PairsFrom(entries, 1));
    while i < |entries|
      invariant 0 <= i <= |entries|
      invariant PairsFrom(entries, 1) == Prepend(pairs, PairsFrom(entries[i..], 1 + i))
    {
      ghost var here := entries[i..];
      assert here[1..] == entries[i + 1..];
      PairsFromCons(here, 1 + i);
      var checked := CheckEntry(entries[i], i + 1);
      if checked.Err? {
        return Err(checked.error);
      }
      PrependTwice(pairs, [checked.value], PairsFrom(entries[i + 1..], i + 2));
      pairs := pairs + [checked.value];
      i := i + 1;
    }
    assert entries[i..] == [];
    assert pairs + [] == pairs;
    return Ok(pairs);
  }

  // ---------- _load_monitoring ----------

  /** The `duration_hours` alias: moved to `monitoring_duration_hours` only
      when the canonical key is absent. */
  function WithDurationAlias(m: map<string, Json>): (r: map<string, Json>)
    ensures "monitoring_duration_hours" in m ==> r == m
    ensures "monitoring_duration_hours" !in m && "duration_hours" in m ==>
      r == (m - {"duration_hours"})["monitoring_duration_hours" := m["duration_hours"]]
    ensures "monitoring_duration_hours" !in m && "duration_hours" !in m ==> r == m
  {
    if "monitoring_duration_hours" !in m && "duration_hours" in m then
      (m - {"duration_hours"})["monitoring_duration_hours" := m["duration_hours"]]
    else m
  }

  /** `_load_monitoring`. */
  function LoadMonitoring(raw: Option<Json>): (r: Result<MonitoringConfig, ConfigError>)
    ensures r.Ok? ==> r.value.pollingIntervalSeconds > 0 && r.value.monitoringDurationHours > 0
    ensures r.Ok? ==> (raw.Some? && raw.value.JObj? &&
      var m := WithDurationAlias(raw.value.fields);
      && "polling_interval_seconds" in m && "monitoring_duration_hours" in m
      && PyInt(m["polling_interval_seconds"]) == Some(r.value.pollingIntervalSeconds)
      && PyInt(m["monitoring_duration_hours"]) == Some(r.value.monitoringDurationHours))
  {
    if !(raw.Some? && raw.value.JObj?) then Err(MonitoringNotObject)
    else
      var m := WithDurationAlias(raw.value.fields);
      match Require(m, ["polling_interval_seconds", "monitoring_duration_hours"], "monitoring")
      case Some(e) => Err(e)
      case None =>
        assert "polling_interval_seconds" in m && "monitoring_duration_hours" in m;
        var interval, duration := PyInt(m["polling_interval_seconds"]), PyInt(m["monitoring_duration_hours"]);
        if interval.None? || duration.None? then Err(MonitoringNotIntegers)
        else if interval.value <= 0 then Err(IntervalNotPositive)
        else if duration.value <= 0 then Err(DurationNotPositive)
        else Ok(MonitoringConfig(interval.value, duration.value))
  }

  /** Integer values that are not both positive are rejected, the interval
      being checked first. */
  lemma MonitoringRejectsNonPositive(fields: map<string, Json>, interval: int, duration: int)
    requires "polling_interval_seconds" in fields && fields["polling_interval_seconds"] == JInt(interval)
    requires "monitoring_duration_hours" in fields && fields["monitoring_duration_hours"] == JInt(duration)
    ensures interval <= 0 ==> LoadMonitoring(Some(JObj(fields))) == Err(IntervalNotPositive)
    ensures interval > 0 && duration <= 0 ==> LoadMonitoring(Some(JObj(fields))) == Err(DurationNotPositive)
    ensures interval > 0 && duration > 0 ==>
      LoadMonitoring(Some(JObj(fields))) == Ok(MonitoringConfig(interval, duration))
  {
  }

  /** A legacy `duration_hours` is honoured when the canonical key is absent. */
  lemma DurationAliasAccepted(interval: int, duration: int)
    requires interval > 0 && duration > 0
    ensures LoadMonitoring(Some(JObj(map["polling_interval_seconds" := JInt(interval), "duration_hours" := JInt(duration)])))
      == Ok(MonitoringConfig(interval, duration))
  {
    var m := map["polling_interval_seconds" := JInt(interval), "duration_hours" := JInt(duration)];
    var a := WithDurationAlias(m);
    assert "monitoring_duration_hours" !in m;
    assert a == (m - {"duration_hours"})["monitoring_duration_hours" := JInt(duration)];
    assert a["polling_interval_seconds"] == JInt(interval);
    assert Require(a, ["polling_interval_seconds", "monitoring_duration_hours"], "monitoring") == None;
  }

  // ---------- _load_cost_assumptions ----------

  /** `_load_cost_assumptions`: the gas fee as a float, not negative. */
  function LoadCostAssumptions(raw: Option<Json>): (r: Result<CostAssumptions, ConfigError>)
    ensures r.Ok? ==> r.value.gasFeePerTradeUsd >= 0.0
    ensures r.Ok? ==> (raw.Some? && raw.value.JObj? && "gas_fee_per_trade_usd" in raw.value.fields &&
      PyFloat(raw.value.fields["gas_fee_per_trade_usd"]) == Some(r.value.gasFeePerTradeUsd))
    ensures (raw.Some? && raw.value.JObj? && "gas_fee_per_trade_usd" in raw.value.fields &&
      PyFloat(raw.value.fields["gas_fee_per_trade_usd"]).Some? &&
      PyFloat(raw.value.fields["gas_fee_per_trade_usd"]).value >= 0.0) ==> r.Ok?
  {
    if !(raw.Some? && raw.value.JObj?) then Err(CostNotObject)
    else
      var m := raw.value.fields;
      match Require(m, ["gas_fee_per_trade_usd"], "cost_assumptions")
      case Some(e) => Err(e)
      case None =>
        assert "gas_fee_per_trade_usd" in m;
        match PyFloat(m["gas_fee_per_trade_usd"])
        case None => Err(GasFeeNotNumber)
        case Some(fee) => if fee < 0.0 then Err(GasFeeNegative) else Ok(CostAssumptions(fee))
  }

  // ---------- _load_telegram ----------

  /** `_load_telegram`: a nested `telegram` object wins, with `bot_token`
      falling back to `token`; otherwise the top-level keys are used. */
  function LoadTelegram(raw: map<string, Json>): (r: TelegramSettings)
    ensures "telegram" in raw && raw["telegram"].JObj? ==>
      var tele := raw["telegram"].fields;
      r == TelegramSettings(Or(Get(tele, "bot_token"), Get(tele, "token")), Get(tele, "chat_id"))
    ensures !("telegram" in raw && raw["telegram"].JObj?) ==>
      r == TelegramSettings(Get(raw, "telegram_bot_token"), Get(raw, "telegram_chat_id"))
  {
    if "telegram" in raw && raw["telegram"].JObj? then
      var tele := raw["telegram"].fields;
      TelegramSettings(Or(Get(tele, "bot_token"), Get(tele, "token")), Get(tele, "chat_id"))
    else TelegramSettings(Get(raw, "telegram_bot_token"), Get(raw, "telegram_chat_id"))
  }

  /** With a nested object, top-level credentials are ignored even when the
      nested object lacks them. */
  lemma NestedTelegramWins(raw: map<string, Json>)
    requires "telegram" in raw && raw["telegram"] == JObj(map[])
    ensures LoadTelegram(raw) == TelegramSettings(None, None) && !IsConfigured(LoadTelegram(raw))
  {
  }

  // ---------- load_config ----------

  /** `load_config` on the decoded file: the sections are checked in the
      source's order (market pairs, monitoring, cost assumptions), and the
      first failure is reported. The file is accepted exactly when all three
      sections load, and the settings are then those of the section loaders,
      with the Telegram settings and the optional Kalshi key beside them. */
  function LoadConfig(raw: Json): (r: Result<AppConfig, ConfigError>)
    ensures !raw.JObj? ==> r.Err?
    ensures raw.JObj? && "market_pairs" !in raw.fields ==> r == Err(MissingMarketPairs)
    ensures raw.JObj? && "market_pairs" in raw.fields ==>
      var m := raw.fields;
      && (r.Ok? <==> LoadMarketPairs(m["market_pairs"]).Ok? && LoadMonitoring(Get(m, "monitoring")).Ok?
                     && LoadCostAssumptions(Get(m, "cost_assumptions")).Ok?)
      && (LoadMarketPairs(m["market_pairs"]).Err? ==> r == Err(LoadMarketPairs(m["market_pairs"]).error))
      && (LoadMarketPairs(m["market_pairs"]).Ok? && LoadMonitoring(Get(m, "monitoring")).Err? ==>
            r == Err(LoadMonitoring(Get(m, "monitoring")).error))
      && (LoadMarketPairs(m["market_pairs"]).Ok? && LoadMonitoring(Get(m, "monitoring")).Ok?
          && LoadCostAssumptions(Get(m, "cost_assumptions")).Err? ==>
            r == Err(LoadCostAssumptions(Get(m, "cost_assumptions")).error))
      && (r.Ok? ==> r.value == AppConfig(LoadMarketPairs(m["market_pairs"]).value, LoadMonitoring(Get(m, "monitoring")).value,
                                         LoadCostAssumptions(Get(m, "cost_assumptions")).value,
                                         LoadTelegram(m), Get(m, "kalshi_api_key")))
    ensures r.Ok? ==> (r.value.marketPairs != []
      && r.value.monitoring.pollingIntervalSeconds > 0 && r.value.monitoring.monitoringDurationHours > 0
      && r.value.costAssumptions.gasFeePerTradeUsd >= 0.0)
  {
    if !raw.JObj? then Err(ConfigNotObject)
    else
      var m := raw.fields;
      if "market_pairs" !in m then Err(MissingMarketPairs)
      else
        match LoadMarketPairs(m["market_pairs"])
        case Err(e) => Err(e)
        case Ok(pairs) =>
          match LoadMonitoring(Get(m, "monitoring"))
          case Err(e) => Err(e)
          case Ok(monitoring) =>
            match LoadCostAssumptions(Get(m, "cost_assumptions"))
            case Err(e) => Err(e)
            case Ok(costs) => Ok(AppConfig(pairs, monitoring, costs, LoadTelegram(m), Get(m, "kalshi_api_key")))
  }
}
