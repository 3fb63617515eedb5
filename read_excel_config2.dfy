/** The pure parts of the Excel-to-config generator: the verified-status test,
    Kalshi ticker extraction, settlement-date choice, the greedy one-to-one
    matching of markets by title similarity, and the merge of generated event
    pairs into an existing configuration. Similarity is a parameter. */
module ExcelConfig {
  import opened JsonValue
  import opened PyText
  import opened BaseClient

  // ---------- ExcelRow.is_verified ----------

  /** The status markers that mean a row was checked by hand. */
  const VERIFIED_MARKERS: seq<string> := ["confirm", "✅", "✔", "√"]

  /** `marker in text` for some marker, on the lower-cased status. */
  predicate IsVerified(status: string) {
    exists i :: 0 <= i < |VERIFIED_MARKERS| && Contains(Lower(status), VERIFIED_MARKERS[i])
  }

  lemma LowerOfUpper(s: string)
    ensures Lower(Upper(s)) == Lower(s)
  {
    var a, b := Lower(Upper(s)), Lower(s);
    assert |a| == |b|;
    forall i | 0 <= i < |a|
      ensures a[i] == b[i]
    {
      assert a[i] == LowerChar(UpperChar(s[i]));
    }
  }

  /** The test ignores ASCII case: "CONFIRMED" and "confirmed" agree. */
  lemma IsVerifiedIgnoresCase(status: string)
    ensures IsVerified(Upper(status)) <==> IsVerified(status)
  {
    LowerOfUpper(status);
  }

  /** An empty status is never verified, and "Confirmed" is. */
  lemma IsVerifiedExamples()
    ensures !IsVerified("")
    ensures IsVerified("Confirmed")
  {
    assert Lower("") == "";
    forall i | 0 <= i < |VERIFIED_MARKERS|
      ensures !Contains("", VERIFIED_MARKERS[i])
    {
      assert |VERIFIED_MARKERS[i]| >= 1;
    }
    assert Lower("Confirmed") == "confirmed";
    assert "confirm" <= "confirmed";
    assert Contains(Lower("Confirmed"), VERIFIED_MARKERS[0]);
  }

  // ---------- extract_kalshi_ticker ----------

  datatype TickerError = EmptyUrl | NoTicker(url: string)

  /** The text after the last '/' once trailing slashes are removed, stripped. */
  function LastSegment(url: string): (seg: string)
    ensures '/' !in seg
  {
    FinalPiece(RStripChars(url, {'/'}))
  }

  /** The stripped text after the last '/' of `t`. */
  function FinalPiece(t: string): (seg: string)
    ensures '/' !in seg
  {
    var parts := Split(t, '/');
    SplitPiecesLackSeparator(t, '/');
    var last := parts[|parts| - 1];
    StripIsInfix(last);
    Strip(last)
  }

  /** `extract_kalshi_ticker`: the upper-cased last segment, or an error for
      an empty URL or an empty segment. */
  function ExtractKalshiTicker(url: string): (r: Result<string, TickerError>)
    ensures url == [] <==> r == Err(EmptyUrl)
    ensures r.Err? <==> url == [] || LastSegment(url) == []
    ensures r.Ok? ==> r.value == Upper(LastSegment(url))
    ensures r.Ok? ==> r.value != [] && '/' !in r.value
    ensures r.Ok? ==> forall i :: 0 <= i < |r.value| ==> !('a' <= r.value[i] <= 'z')
  {
    if url == [] then Err(EmptyUrl)
    else
      var seg := LastSegment(url);
      if seg == [] then Err(NoTicker(url))
      else
        var t := Upper(seg);
        assert forall i :: 0 <= i < |t| ==> t[i] != '/' by {
          forall i | 0 <= i < |t|
            ensures t[i] != '/'
          {
            assert t[i] == UpperChar(seg[i]);
            assert seg[i] != '/';
          }
        }
        Ok(t)
  }

  lemma LastSegmentTrailingSlash(url: string)
    ensures LastSegment(url + "/") == LastSegment(url)
  {
    var s := url + "/";
    assert s[..|s| - 1] == url;
    assert RStripChars(s, {'/'}) == RStripChars(url, {'/'});
    assert LastSegment(s) == FinalPiece(RStripChars(url, {'/'}));
  }

  /** A trailing slash does not change the ticker. */
  lemma TrailingSlashIgnored(url: string)
    requires url != []
    ensures ExtractKalshiTicker(url + "/").Ok? <==> ExtractKalshiTicker(url).Ok?
    ensures ExtractKalshiTicker(url).Ok? ==> ExtractKalshiTicker(url + "/") == ExtractKalshiTicker(url)
  {
    LastSegmentTrailingSlash(url);
  }

  // ---------- pick_settlement_date ----------

  /** The keys tried in order before `resolutionTime`. */
  const SETTLEMENT_KEYS: seq<string> := ["endDate", "settlementDate", "closeDate", "end_date"]

  function SettlementFrom(event: map<string, Json>, keys: seq<string>): string {
    if keys == [] then
      var fallback := Get(event, "resolutionTime");
      if TruthyOpt(fallback) then PyStr(fallback.value) else ""
    else if TruthyOpt(Get(event, keys[0])) then PyStr(event[keys[0]])
    else SettlementFrom(event, keys[1..])
  }

  /** `pick_settlement_date`. */
  function PickSettlementDate(event: map<string, Json>): string {
    SettlementFrom(event, SETTLEMENT_KEYS)
  }

  lemma {:induction false} SettlementSkips(event: map<string, Json>, keys: seq<string>, k: nat)
    requires k <= |keys|
    requires forall j :: 0 <= j < k ==> !TruthyOpt(Get(event, keys[j]))
    ensures SettlementFrom(event, keys) == SettlementFrom(event, keys[k..])
  {
    if k > 0 {
      assert !TruthyOpt(Get(event, keys[0]));
      assert keys[1..][k - 1..] == keys[k..];
      SettlementSkips(event, keys[1..], k - 1);
    }
  }

  /** The date is the first truthy value among the four keys, as text; with
      none it is `resolutionTime` when truthy, else "". */
  lemma PickSettlementDateIsFirst(event: map<string, Json>, k: nat)
    requires k <= |SETTLEMENT_KEYS|
    requires forall j :: 0 <= j < k ==> !TruthyOpt(Get(event, SETTLEMENT_KEYS[j]))
    ensures k < |SETTLEMENT_KEYS| && TruthyOpt(Get(event, SETTLEMENT_KEYS[k])) ==>
      PickSettlementDate(event) == PyStr(event[SETTLEMENT_KEYS[k]])
    ensures k == |SETTLEMENT_KEYS| && TruthyOpt(Get(event, "resolutionTime")) ==>
      PickSettlementDate(event) == PyStr(event["resolutionTime"])
    ensures k == |SETTLEMENT_KEYS| && !TruthyOpt(Get(event, "resolutionTime")) ==>
      PickSettlementDate(event) == ""
  {
    SettlementSkips(event, SETTLEMENT_KEYS, k);
  }

  // ---------- match_markets ----------

  /** One matched pair of titles. */
  datatype MarketMapping = MarketMapping(polymarketTitle: string, kalshiTitle: string)

  /** `SequenceMatcher(...).ratio()` on the normalised titles, left abstract. */
  type Similarity = (string, string) -> real

  /** `str(market.get("title") or "").strip()`, with the strip applied only
      where it can change anything (see `TitleTextIsStrippedStr`). */
  function TitleText(title: Json): string {
    if !Truthy(title) then "" else if title.JStr? then Strip(title.s) else PyStr(title)
  }

  lemma StripKeepsUnpadded(s: string)
    requires s != [] ==> !IsSpace(s[0]) && !IsSpace(s[|s| - 1])
    ensures Strip(s) == s
  {
  }

  /** `TitleText` is the stripped `str()` of a truthy title: the text of a
      non-string value has no surrounding whitespace. */
  lemma TitleTextIsStrippedStr(title: Json)
    ensures TitleText(title) == if Truthy(title) then Strip(PyStr(title)) else ""
  {
    if Truthy(title) && !title.JStr? {
      var t := PyStr(title);
      if title.JInt? || title.JFloat? {
        assert t != [] ==> t[0] == '-' || IsDigit(t[0]);
        assert t != [] ==> t[|t| - 1] == '0' || IsDigit(t[|t| - 1]);
      }
      StripKeepsUnpadded(t);
    }
  }

  /** The title text of every market, in order. */
  function Titles(ms: seq<Market>): (ts: seq<string>)
    ensures |ts| == |ms|
  {
    if ms == [] then [] else [TitleText(ms[0].title)] + Titles(ms[1..])
  }

  lemma {:induction false} TitlesAt(ms: seq<Market>, i: nat)
    requires i < |ms|
    ensures Titles(ms)[i] == TitleText(ms[i].title)
  {
    if i > 0 {
      TitlesAt(ms[1..], i - 1);
    }
  }

  /** A Kalshi index the inner loop may pick: unused, with a non-empty title. */
  predicate Eligible(kt: seq<string>, used: set<nat>, j: nat) {
    j < |kt| && j !in used && kt[j] != ""
  }

  /** The inner loop over the first `n` Kalshi titles: the index of the first
      strictly greatest score above the initial -1.0. */
  function BestAmong(pt: string, kt: seq<string>, used: set<nat>, sim: Similarity, n: nat): (b: Option<nat>)
    requires n <= |kt|
    ensures b.Some? ==> b.value < n && Eligible(kt, used, b.value)
  {
    if n == 0 then None
    else
      var b := BestAmong(pt, kt, used, sim, n - 1);
      var bestScore := if b.Some? then sim(pt, kt[b.value]) else -1.0;
      if Eligible(kt, used, n - 1) && sim(pt, kt[n - 1]) > bestScore then Some(n - 1) else b
  }

  /** One step of the inner loop: index `n` replaces the best so far only
      with a strictly greater score. */
  lemma BestAmongStep(pt: string, kt: seq<string>, used: set<nat>, sim: Similarity, n: nat)
    requires n < |kt|
    ensures var b := BestAmong(pt, kt, used, sim, n);
      var bestScore := if b.Some? then sim(pt, kt[b.value]) else -1.0;
      BestAmong(pt, kt, used, sim, n + 1) ==
        if Eligible(kt, used, n) && sim(pt, kt[n]) > bestScore then Some(n) else b
  {
  }

  /** The inner loop finds a candidate iff some eligible title scores above
      -1.0, and it picks the best score, the earliest index on ties. */
  lemma {:induction false} BestAmongIsArgmax(pt: string, kt: seq<string>, used: set<nat>, sim: Similarity, n: nat)
    requires n <= |kt|
    ensures BestAmong(pt, kt, used, sim, n).Some? <==>
      exists j :: 0 <= j < n && Eligible(kt, used, j) && sim(pt, kt[j]) > -1.0
    ensures BestAmong(pt, kt, used, sim, n).Some? ==>
      var b := BestAmong(pt, kt, used, sim, n).value;
      && sim(pt, kt[b]) > -1.0
      && forall j :: 0 <= j < n && Eligible(kt, used, j) ==>
           sim(pt, kt[j]) <= sim(pt, kt[b]) && (j < b ==> sim(pt, kt[j]) < sim(pt, kt[b]))
  {
    if n > 0 {
      BestAmongIsArgmax(pt, kt, used, sim, n - 1);
    }
  }

  /** The outcome of the outer loop: the mappings, and for each the Kalshi
      index chosen and the Polymarket index it came from. */
  datatype Matching = Matching(mappings: seq<MarketMapping>, chosen: seq<nat>, from: seq<nat>)

  function Used(chosen: seq<nat>): set<nat> {
    set j | j in chosen
  }

  lemma UsedAppend(chosen: seq<nat>, b: nat)
    ensures Used(chosen + [b]) == Used(chosen) + {b}
  {
    var l, r := Used(chosen + [b]), Used(chosen) + {b};
    forall x | x in l ensures x in r {
      var k :| 0 <= k < |chosen + [b]| && (chosen + [b])[k] == x;
      if k < |chosen| {
        assert chosen[k] == x;
      }
    }
    forall x | x in r ensures x in l {
      if x == b {
        assert (chosen + [b])[|chosen|] == b;
      } else {
        var k :| 0 <= k < |chosen| && chosen[k] == x;
        assert (chosen + [b])[k] == x;
      }
    }
  }

  /** The outer loop over the first `n` Polymarket titles. */
  function MatchPrefix(pt: seq<string>, kt: seq<string>, sim: Similarity, n: nat): (m: Matching)
    requires n <= |pt|
    ensures |m.mappings| == |m.chosen| == |m.from|
    decreases n
  {
    if n == 0 then Matching([], [], [])
    else
      var prev := MatchPrefix(pt, kt, sim, n - 1);
      var title := pt[n - 1];
      if title == "" then prev
      else
        match BestAmong(title, kt, Used(prev.chosen), sim, |kt|)
        case None => prev
        case Some(b) =>
          Matching(prev.mappings + [MarketMapping(title, kt[b])], prev.chosen + [b], prev.from + [n - 1])
  }

  /** One step of the outer loop. */
  lemma MatchPrefixStep(pt: seq<string>, kt: seq<string>, sim: Similarity, i: nat)
    requires i < |pt|
    ensures var prev := MatchPrefix(pt, kt, sim, i);
      var next := MatchPrefix(pt, kt, sim, i + 1);
      && (pt[i] == "" ==> next == prev)
      && (pt[i] != "" && BestAmong(pt[i], kt, Used(prev.chosen), sim, |kt|).None? ==> next == prev)
      && (pt[i] != "" && BestAmong(pt[i], kt, Used(prev.chosen), sim, |kt|).Some? ==>
            var b := BestAmong(pt[i], kt, Used(prev.chosen), sim, |kt|).value;
            next == Matching(prev.mappings + [MarketMapping(pt[i], kt[b])], prev.chosen + [b], prev.from + [i]))
  {
  }

  /** `match_markets` on the titles of the two market lists. */
  function MatchMarketsSpec(poly: seq<Market>, kalshi: seq<Market>, sim: Similarity): Matching {
    MatchPrefix(Titles(poly), Titles(kalshi), sim, |poly|)
  }

  /** Every mapping pairs the non-empty titles at its two indices. */
  predicate MappingsPairTitles(pt: seq<string>, kt: seq<string>, n: nat, m: Matching) {
    && |m.mappings| == |m.chosen| == |m.from|
    && forall k :: 0 <= k < |m.from| ==>
         m.from[k] < n && m.from[k] < |pt| && m.chosen[k] < |kt| && pt[m.from[k]] != "" && kt[m.chosen[k]] != ""
         && m.mappings[k] == MarketMapping(pt[m.from[k]], kt[m.chosen[k]])
  }

  /** Mappings follow the Polymarket order. */
  predicate FollowsPolymarketOrder(m: Matching) {
    forall a, b :: 0 <= a < b < |m.from| ==> m.from[a] < m.from[b]
  }

  /** No Kalshi index is used twice. */
  predicate OneToOne(m: Matching) {
    forall a, b :: 0 <= a < b < |m.chosen| ==> m.chosen[a] != m.chosen[b]
  }

  /** The facts every lemma below shares about one step of the outer loop. */
  lemma MatchPrefixAppends(pt: seq<string>, kt: seq<string>, sim: Similarity, n: nat)
    requires 0 < n <= |pt|
    ensures var prev := MatchPrefix(pt, kt, sim, n - 1);
      var m := MatchPrefix(pt, kt, sim, n);
      var best := BestAmong(pt[n - 1], kt, Used(prev.chosen), sim, |kt|);
      && (pt[n - 1] == "" || best.None? ==> m == prev)
      && (pt[n - 1] != "" && best.Some? ==>
            && m.chosen == prev.chosen + [best.value] && m.from == prev.from + [n - 1]
            && m.mappings == prev.mappings + [MarketMapping(pt[n - 1], kt[best.value])]
            && best.value !in prev.chosen && kt[best.value] != "" && best.value < |kt|)
  {
  }

  lemma {:induction false} MatchPrefixPairsTitles(pt: seq<string>, kt: seq<string>, sim: Similarity, n: nat)
    requires n <= |pt|
    ensures MappingsPairTitles(pt, kt, n, MatchPrefix(pt, kt, sim, n))
  {
    if n > 0 {
      MatchPrefixPairsTitles(pt, kt, sim, n - 1);
      MatchPrefixAppends(pt, kt, sim, n);
    }
  }

  /** Mappings come in Polymarket order. */
  lemma {:induction false} MatchPrefixInOrder(pt: seq<string>, kt: seq<string>, sim: Similarity, n: nat)
    requires n <= |pt|
    ensures FollowsPolymarketOrder(MatchPrefix(pt, kt, sim, n))
    ensures forall k :: 0 <= k < |MatchPrefix(pt, kt, sim, n).from| ==> MatchPrefix(pt, kt, sim, n).from[k] < n
  {
    if n > 0 {
      MatchPrefixInOrder(pt, kt, sim, n - 1);
      MatchPrefixAppends(pt, kt, sim, n);
    }
  }

  /** The matching never uses a Kalshi market twice. */
  lemma {:induction false} MatchPrefixOneToOne(pt: seq<string>, kt: seq<string>, sim: Similarity, n: nat)
    requires n <= |pt|
    ensures OneToOne(MatchPrefix(pt, kt, sim, n))
  {
    if n > 0 {
      MatchPrefixOneToOne(pt, kt, sim, n - 1);
      MatchPrefixAppends(pt, kt, sim, n);
    }
  }

  /** Each chosen Kalshi index is what the inner loop returns for its
      Polymarket title given the indices chosen before it. */
  predicate ChoicesAreBest(pt: seq<string>, kt: seq<string>, sim: Similarity, m: Matching) {
    forall k :: 0 <= k < |m.chosen| && k < |m.from| && m.from[k] < |pt| ==>
      BestAmong(pt[m.from[k]], kt, Used(m.chosen[..k]), sim, |kt|) == Some(m.chosen[k])
  }

  /** Each chosen Kalshi index is the best for its Polymarket title among the
      indices not chosen before it (see `BestAmongIsArgmax`). */
  lemma {:induction false} MatchPrefixPicksBest(pt: seq<string>, kt: seq<string>, sim: Similarity, n: nat)
    requires n <= |pt|
    ensures ChoicesAreBest(pt, kt, sim, MatchPrefix(pt, kt, sim, n))
  {
    if n > 0 {
      MatchPrefixPicksBest(pt, kt, sim, n - 1);
      var prev := MatchPrefix(pt, kt, sim, n - 1);
      var m := MatchPrefix(pt, kt, sim, n);
      var title := pt[n - 1];
      var best := BestAmong(title, kt, Used(prev.chosen), sim, |kt|);
      if title != "" && best.Some? {
        assert m.chosen == prev.chosen + [best.value] && m.from == prev.from + [n - 1];
        forall k | 0 <= k < |m.chosen| && k < |m.from| && m.from[k] < |pt|
          ensures BestAmong(pt[m.from[k]], kt, Used(m.chosen[..k]), sim, |kt|) == Some(m.chosen[k])
        {
          if k < |prev.chosen| {
            assert m.chosen[..k] == prev.chosen[..k];
            assert m.chosen[k] == prev.chosen[k] && m.from[k] == prev.from[k];
          } else {
            assert m.chosen[..k] == prev.chosen;
          }
        }
      } else {
        assert m == prev;
      }
    }
  }

  /** A non-empty Polymarket title without a mapping had no eligible Kalshi
      title scoring above -1.0 when its turn came. */
  lemma {:induction false} MatchPrefixSkipsOnlyUnmatchable(pt: seq<string>, kt: seq<string>, sim: Similarity, n: nat)
    requires n <= |pt|
    ensures forall p :: 0 <= p < n && pt[p] != "" && p !in MatchPrefix(pt, kt, sim, n).from ==>
      BestAmong(pt[p], kt, Used(MatchPrefix(pt, kt, sim, p).chosen), sim, |kt|) == None
  {
    if n > 0 {
      MatchPrefixSkipsOnlyUnmatchable(pt, kt, sim, n - 1);
      var prev := MatchPrefix(pt, kt, sim, n - 1);
      assert forall p :: p in prev.from ==> p in MatchPrefix(pt, kt, sim, n).from;
    }
  }

  function NonEmptyCount(ts: seq<string>): (c: nat)
    ensures c <= |ts|
  {
    if ts == [] then 0 else (if ts[0] != "" then 1 else 0) + NonEmptyCount(ts[1..])
  }

  lemma {:induction false} NonEmptyCountPrefix(ts: seq<string>, n: nat)
    requires n < |ts|
    ensures NonEmptyCount(ts[..n + 1]) == NonEmptyCount(ts[..n]) + (if ts[n] != "" then 1 else 0)
  {
    if n > 0 {
      assert ts[..n + 1][1..] == ts[1..][..n];
      assert ts[..n][1..] == ts[1..][..n - 1];
      NonEmptyCountPrefix(ts[1..], n - 1);
    } else {
      assert ts[..1][1..] == [];
    }
  }

  /** At most one mapping per non-empty Polymarket title. */
  lemma {:induction false} MatchPrefixCount(pt: seq<string>, kt: seq<string>, sim: Similarity, n: nat)
    requires n <= |pt|
    ensures |MatchPrefix(pt, kt, sim, n).mappings| <= NonEmptyCount(pt[..n])
  {
    if n > 0 {
      MatchPrefixCount(pt, kt, sim, n - 1);
      NonEmptyCountPrefix(pt, n - 1);
    }
  }

  lemma {:induction false} DistinctCardinality(s: seq<nat>)
    requires forall a, b :: 0 <= a < b < |s| ==> s[a] != s[b]
    ensures |Used(s)| == |s|
  {
    if s != [] {
      var init := s[..|s| - 1];
      DistinctCardinality(init);
      assert Used(s) == Used(init) + {s[|s| - 1]};
      assert s[|s| - 1] !in Used(init);
    }
  }

  lemma {:induction false} BoundedSetCardinality(u: set<nat>, n: nat)
    requires forall x :: x in u ==> x < n
    ensures |u| <= n
  {
    if n > 0 {
      BoundedSetCardinality(u - {n - 1}, n - 1);
    }
  }

  /** The matching is one-to-one into the Kalshi list, so it has at most as
      many mappings as there are Kalshi markets. */
  lemma MatchPrefixBoundedByKalshi(pt: seq<string>, kt: seq<string>, sim: Similarity, n: nat)
    requires n <= |pt|
    ensures |MatchPrefix(pt, kt, sim, n).mappings| <= |kt|
  {
    var m := MatchPrefix(pt, kt, sim, n);
    MatchPrefixOneToOne(pt, kt, sim, n);
    MatchPrefixPairsTitles(pt, kt, sim, n);
    DistinctCardinality(m.chosen);
    BoundedSetCardinality(Used(m.chosen), |kt|);
  }

  /** `str(markets[idx].get("title") or "").strip()`. */
  method MarketTitle(ms: seq<Market>, idx: nat) returns (t: string)
    requires idx < |ms|
    ensures t == Titles(ms)[idx]
  {
    TitlesAt(ms, idx);
    t := TitleText(ms[idx].title);
  }

  /** The inner loop of `match_markets`: the best unused Kalshi index for
      one Polymarket title. */
  method BestKalshiIndex(polyTitle: string, kalshi: seq<Market>, used: set<nat>, sim: Similarity)
    returns (bestIdx: Option<nat>)
    ensures bestIdx == BestAmong(polyTitle, Titles(kalshi), used, sim, |kalshi|)
  {
    ghost var kt := Titles(kalshi);
    bestIdx := None;
    var bestScore := -1.0;
    var idx := 0;
    while idx < |kalshi|
      invariant 0 <= idx <= |kalshi|
      invariant bestIdx == BestAmong(polyTitle, kt, used, sim, idx)
      invariant bestScore == if bestIdx.Some? then sim(polyTitle, kt[bestIdx.value]) else -1.0
    {
      BestAmongStep(polyTitle, kt, used, sim, idx);
      if idx !in used {
        var kalshiTitle := MarketTitle(kalshi, idx);
        if kalshiTitle != "" {
          var score := sim(polyTitle, kalshiTitle);
          if score > bestScore {
            bestIdx := Some(idx);
            bestScore := score;
          }
        }
      }
      idx := idx + 1;
    }
  }

  /** The outer loop of `match_markets`, with `used_indices` as a set. */
  method MatchMarkets(poly: seq<Market>, kalshi: seq<Market>, sim: Similarity)
    returns (mappings: seq<MarketMapping>)
    ensures mappings == MatchMarketsSpec(poly, kalshi, sim).mappings
  {
    ghost var pt := Titles(poly);
    ghost var kt := Titles(kalshi);
    ghost var chosen: seq<nat> := [];
    ghost var from: seq<nat> := [];
    var used: set<nat> := {};
    mappings := [];
    var i := 0;
    while i < |poly|
      invariant 0 <= i <= |poly|
      invariant Matching(mappings, chosen, from) == MatchPrefix(pt, kt, sim, i)
      invariant used == Used(chosen)
    {
      MatchPrefixStep(pt, kt, sim, i);
      var polyTitle := MarketTitle(poly, i);
      if polyTitle != "" {
        var bestIdx := BestKalshiIndex(polyTitle, kalshi, used, sim);
        if bestIdx.Some? {
          var b := bestIdx.value;
          var kalshiTitle := MarketTitle(kalshi, b);
          UsedAppend(chosen, b);
          used := used + {b};
          mappings := mappings + [MarketMapping(polyTitle, kalshiTitle)];
          chosen := chosen + [b];
          from := from + [i];
        }
      }
      i := i + 1;
    }
  }

  // ---------- merge_config ----------

  /** `DEFAULT_MONITORING`. */
  const DEFAULT_MONITORING: Json :=
    JObj(map["polling_interval_seconds" := JInt(2), "monitoring_duration_hours" := JInt(48)])
  /** `DEFAULT_COSTS`. */
  const DEFAULT_COSTS: Json := JObj(map["gas_fee_per_trade_usd" := JFloat(0.10)])
  /** `DEFAULT_ALERTING`. */
  const DEFAULT_ALERTING: Json :=
    JObj(map["enabled" := JBool(false), "telegram_bot_token" := JStr(""), "telegram_chat_id" := JStr("")])

  /** `d.setdefault(key, value)` for its effect on `d`. */
  function SetDefault(m: map<string, Json>, key: string, value: Json): (r: map<string, Json>)
    ensures key in r && r.Keys == m.Keys + {key}
    ensures forall k :: k in m ==> r[k] == m[k]
    ensures key !in m ==> r[key] == value
  {
    if key in m then m else m[key := value]
  }

  /** The three `setdefault` calls on an existing alerting object. */
  function FillAlerting(a: map<string, Json>): map<string, Json> {
    SetDefault(SetDefault(SetDefault(a, "enabled", JBool(false)), "telegram_bot_token", JStr("")),
      "telegram_chat_id", JStr(""))
  }

  /** The configuration before the alerting step. */
  function WithDefaults(existing: map<string, Json>, eventPairs: seq<Json>): (c: map<string, Json>)
    ensures c.Keys == existing.Keys + {"event_pairs", "monitoring", "cost_assumptions"}
    ensures "event_pairs" in c && "monitoring" in c && "cost_assumptions" in c
    ensures c["event_pairs"] == JArr(eventPairs)
    ensures forall k :: k in existing && k != "event_pairs" ==> c[k] == existing[k]
    ensures "monitoring" !in existing ==> c["monitoring"] == DEFAULT_MONITORING
    ensures "cost_assumptions" !in existing ==> c["cost_assumptions"] == DEFAULT_COSTS
  {
    var config := existing["event_pairs" := JArr(eventPairs)];
    var config := SetDefault(config, "monitoring", DEFAULT_MONITORING);
    SetDefault(config, "cost_assumptions", DEFAULT_COSTS)
  }

  /** `merge_config`: raises when an existing `alerting` is not an object. */
  function MergeConfig(existing: map<string, Json>, eventPairs: seq<Json>): (r: Raising<map<string, Json>>)
    ensures r.Raises? <==> "alerting" in existing && !existing["alerting"].JObj?
  {
    var config := WithDefaults(existing, eventPairs);
    if "alerting" !in config then Returns(config["alerting" := DEFAULT_ALERTING])
    else if !config["alerting"].JObj? then Raises
    else Returns(config["alerting" := JObj(FillAlerting(config["alerting"].fields))])
  }

  /** `event_pairs` is always replaced, monitoring and cost defaults are added
      only when absent, and every other key is kept. */
  lemma MergeConfigKeeps(existing: map<string, Json>, eventPairs: seq<Json>)
    requires MergeConfig(existing, eventPairs).Returns?
    ensures var out := MergeConfig(existing, eventPairs).value;
      && out.Keys == existing.Keys + {"event_pairs", "monitoring", "cost_assumptions", "alerting"}
      && out["event_pairs"] == JArr(eventPairs)
      && (forall k :: k in existing && k != "event_pairs" && k != "alerting" ==> out[k] == existing[k])
      && ("monitoring" !in existing ==> out["monitoring"] == DEFAULT_MONITORING)
      && ("cost_assumptions" !in existing ==> out["cost_assumptions"] == DEFAULT_COSTS)
  {
    var c := WithDefaults(existing, eventPairs);
    var out := MergeConfig(existing, eventPairs).value;
    assert out == c["alerting" := out["alerting"]];
  }

  /** Alerting: the defaults when absent; otherwise every existing field is
      kept and only the missing ones of the three are added. */
  lemma MergeConfigAlerting(existing: map<string, Json>, eventPairs: seq<Json>)
    ensures "alerting" !in existing ==>
      (MergeConfig(existing, eventPairs).Returns? &&
       MergeConfig(existing, eventPairs).value["alerting"] == DEFAULT_ALERTING)
    ensures "alerting" in existing && existing["alerting"].JObj? ==>
      var a := existing["alerting"].fields;
      var out := MergeConfig(existing, eventPairs).value["alerting"];
      && out.JObj?
      && out.fields.Keys == a.Keys + {"enabled", "telegram_bot_token", "telegram_chat_id"}
      && (forall k :: k in a ==> out.fields[k] == a[k])
      && ("enabled" !in a ==> out.fields["enabled"] == JBool(false))
      && ("telegram_bot_token" !in a ==> out.fields["telegram_bot_token"] == JStr(""))
      && ("telegram_chat_id" !in a ==> out.fields["telegram_chat_id"] == JStr(""))
  {
  }

  lemma FillAlertingIdempotent(a: map<string, Json>)
    ensures FillAlerting(FillAlerting(a)) == FillAlerting(a)
  {
  }

  lemma UpdateWithSameValue(m: map<string, Json>, key: string, value: Json)
    requires key in m && m[key] == value
    ensures m[key := value] == m
  {
  }

  /** The alerting object a merge produces already has all three fields. */
  lemma MergedAlertingIsFilled(existing: map<string, Json>, eventPairs: seq<Json>)
    requires MergeConfig(existing, eventPairs).Returns?
    ensures var al := MergeConfig(existing, eventPairs).value["alerting"];
      al.JObj? && FillAlerting(al.fields) == al.fields
  {
    if "alerting" in existing {
      FillAlertingIdempotent(existing["alerting"].fields);
    } else {
      var d := DEFAULT_ALERTING.fields;
      assert FillAlerting(d) == d;
    }
  }

  /** Merging the same event pairs again changes nothing. */
  lemma MergeConfigIdempotent(existing: map<string, Json>, eventPairs: seq<Json>)
    requires MergeConfig(existing, eventPairs).Returns?
    ensures MergeConfig(MergeConfig(existing, eventPairs).value, eventPairs) == MergeConfig(existing, eventPairs)
  {
    var once := MergeConfig(existing, eventPairs).value;
    MergeConfigKeeps(existing, eventPairs);
    MergedAlertingIsFilled(existing, eventPairs);
    UpdateWithSameValue(once, "event_pairs", JArr(eventPairs));
    assert WithDefaults(once, eventPairs) == once;
    UpdateWithSameValue(once, "alerting", JObj(FillAlerting(once["alerting"].fields)));
  }
}
