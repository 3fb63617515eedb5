// The monitor loop's decision logic: the per-source failure counter, title
// normalisation, locating a pair's market in a venue's list, the net spreads
// and the window calls they drive, the polling-interval back-off and the
// duration stop test. Fetching, the console table, logging and notification
// are outside the model; fetched market lists and the clock are parameters.

module Monitor {
  import opened JsonValue
  import opened PyText
  import opened Models
  import opened BaseClient
  import Fees
  import Spreads
  import opened MonitorWindows

  // ---------------------------------------------------------------------------
  // Consecutive-failure counter
  // ---------------------------------------------------------------------------

  const DEFAULT_FAILURE_THRESHOLD := 3

  /** `record_failure` on the counter table: the new table, and whether the
      threshold was reached (the source logs an error and resets to 0). */
  function FailureStep(counts: map<string, int>, key: string, threshold: int): (map<string, int>, bool) {
    var failures := (if key in counts then counts[key] else 0) + 1;
    if failures >= threshold then (counts[key := 0], true) else (counts[key := failures], false)
  }

  /** `n` consecutive `record_failure` calls for `key`; the flag is that of the last call. */
  function FailureRun(counts: map<string, int>, key: string, threshold: int, n: nat): (map<string, int>, bool) {
    if n == 0 then (counts, false) else FailureStep(FailureRun(counts, key, threshold, n - 1).0, key, threshold)
  }

  /** Every counter lies in [0, threshold - 1]. */
  predicate CountsBelow(counts: map<string, int>, threshold: int) {
    forall k :: k in counts ==> 0 <= counts[k] < threshold
  }

  /** A failure keeps every counter in [0, threshold - 1], touches no other
      key, and raises the alert exactly when the key's counter would reach
      the threshold, leaving it at 0. */
  lemma FailureCountsStayBelowThreshold(counts: map<string, int>, key: string, threshold: int)
    requires threshold >= 1 && CountsBelow(counts, threshold)
    ensures CountsBelow(FailureStep(counts, key, threshold).0, threshold)
    ensures FailureStep(counts, key, threshold).1 <==> (key in counts && counts[key] == threshold - 1) || (key !in counts && threshold == 1)
    ensures FailureStep(counts, key, threshold).1 ==> FailureStep(counts, key, threshold).0[key] == 0
    ensures forall k :: k in counts && k != key ==> FailureStep(counts, key, threshold).0[k] == counts[k]
  {
  }

  /** One more step of a counter that cycles modulo `t`: `n % t` follows `(n - 1) % t`. */
  lemma ModSuccessor(n: int, t: int)
    requires n >= 1 && t >= 1
    ensures (n - 1) % t + 1 < t ==> n % t == (n - 1) % t + 1
    ensures (n - 1) % t + 1 >= t ==> n % t == 0
  {
    var q, r := (n - 1) / t, (n - 1) % t;
    assert n - 1 == q * t + r && 0 <= r < t;
    if r + 1 < t {
      assert n == q * t + (r + 1);
      DivModUnique(n, t, q, r + 1);
    } else {
      assert n == (q + 1) * t + 0;
      DivModUnique(n, t, q + 1, 0);
    }
  }

  /** Division by a positive divisor has one quotient and one remainder. */
  lemma DivModUnique(n: int, t: int, q: int, r: int)
    requires t >= 1 && 0 <= r < t && n == q * t + r
    ensures n % t == r
  {
    var q0, r0 := n / t, n % t;
    assert n == q0 * t + r0 && 0 <= r0 < t;
    var d := q - q0;
    assert d * t == r0 - r;
    if d >= 1 {
      MulAtLeast(d, t);
    } else if d <= -1 {
      MulAtLeast(-d, t);
    }
  }

  /** A product with a positive factor is at least the other factor. */
  lemma {:induction false} MulAtLeast(d: int, t: int)
    requires d >= 1 && t >= 1
    ensures d * t >= t
    decreases d
  {
    if d > 1 {
      MulAtLeast(d - 1, t);
      assert d * t == (d - 1) * t + t;
    }
  }

  /** The counter after `n` failures from none, as a count that wraps to 0
      on reaching the threshold. */
  function Wrapped(n: nat, threshold: int): int {
    if n == 0 then 0 else if Wrapped(n - 1, threshold) + 1 >= threshold then 0 else Wrapped(n - 1, threshold) + 1
  }

  /** The wrapping count is the remainder modulo the threshold. */
  lemma {:induction false} WrappedIsRemainder(n: nat, threshold: int)
    requires threshold >= 1
    ensures Wrapped(n, threshold) == n % threshold
  {
    if n >= 1 {
      WrappedIsRemainder(n - 1, threshold);
      ModSuccessor(n, threshold);
    }
  }

  /** `n` failures from none leave the wrapping count, alerting when it wraps. */
  lemma {:induction false} FailureRunWraps(counts: map<string, int>, key: string, threshold: int, n: nat)
    requires key !in counts && n >= 1
    ensures FailureRun(counts, key, threshold, n).0 == counts[key := Wrapped(n, threshold)]
    ensures FailureRun(counts, key, threshold, n).1 <==> Wrapped(n - 1, threshold) + 1 >= threshold
  {
    if n > 1 {
      FailureRunWraps(counts, key, threshold, n - 1);
      var before := FailureRun(counts, key, threshold, n - 1).0;
      assert key in before && before[key] == Wrapped(n - 1, threshold);
      assert counts[key := Wrapped(n - 1, threshold)][key := Wrapped(n, threshold)] == counts[key := Wrapped(n, threshold)];
    }
  }

  /** Starting from no counter (as after `record_success`), `n` consecutive
      failures leave the counter at `n % threshold`, and the alert fires on
      every `threshold`-th one. */
  lemma FailureRunCycles(counts: map<string, int>, key: string, threshold: int, n: nat)
    requires key !in counts && threshold >= 1 && n >= 1
    ensures FailureRun(counts, key, threshold, n).0 == counts[key := n % threshold]
    ensures FailureRun(counts, key, threshold, n).1 <==> n % threshold == 0
  {
    FailureRunWraps(counts, key, threshold, n);
    WrappedIsRemainder(n, threshold);
    WrappedIsRemainder(n - 1, threshold);
    assert Wrapped(n, threshold) == 0 <==> Wrapped(n - 1, threshold) + 1 >= threshold
    by {
      assert 0 <= Wrapped(n - 1, threshold) < threshold;
    }
  }

  /** `FailureTracker`: a failure counter per data source. */
  class FailureTracker {
    const threshold: int
    var counts: map<string, int>

    constructor (threshold: int)
      ensures this.threshold == threshold && counts == map[]
    {
      this.threshold := threshold;
      counts := map[];
    }

    /** `record_failure`; `alerted` is whether the error is logged. */
    method RecordFailure(key: string) returns (alerted: bool)
      modifies this
      ensures (counts, alerted) == FailureStep(old(counts), key, threshold)
    {
      var failures := (if key in counts then counts[key] else 0) + 1;
      if failures >= threshold {
        counts := counts[key := 0];
        alerted := true;
      } else {
        counts := counts[key := failures];
        alerted := false;
      }
    }

    /** `record_success`: the key's counter is dropped, so the next failure counts from 1. */
    method RecordSuccess(key: string)
      modifies this
      ensures counts == old(counts) - {key}
    {
      counts := counts - {key};
    }
  }

  // ---------------------------------------------------------------------------
  // Title normalisation
  // ---------------------------------------------------------------------------

  const EN_DASH := "\U{2013}"
  const EM_DASH := "\U{2014}"
  const DEGREE := "\U{00B0}"

  /** `normalize_title` on a string: strip, lower-case, unify dashes and
      degree signs (in that order, each replacement over the whole text),
      then collapse whitespace runs to single spaces. */
  function NormalizeText(s: string): (r: string)
    ensures SingleSpaced(r)
  {
    var t := Lower(Strip(s));
    var t1 := Replace(t, EN_DASH, "-");
    var t2 := Replace(t1, EM_DASH, "-");
    var t3 := Replace(t2, DEGREE + "f", DEGREE);
    var t4 := Replace(t3, " " + DEGREE, DEGREE);
    CollapseSpacesSingleSpaced(t4);
    Join(Words(t4), " ")
  }

  /** `normalize_title`: a falsy title gives the empty string; a string is
      normalised; any other truthy value raises (it has no `strip`). */
  function NormalizeTitle(title: Option<Json>): (r: Raising<string>)
    ensures !TruthyOpt(title) ==> r == Returns("")
    ensures r.Raises? <==> TruthyOpt(title) && !title.value.JStr?
    ensures r.Returns? ==> SingleSpaced(r.value)
  {
    if !TruthyOpt(title) then Returns("")
    else if title.value.JStr? then Returns(NormalizeText(title.value.s))
    else Raises
  }

  /** Normalisation is not idempotent: the degree replacement runs before
      whitespace is collapsed, so a second pass can remove one more space. */
  lemma NormalizeTextNotIdempotent()
    ensures NormalizeText("a  " + DEGREE) == "a " + DEGREE
    ensures NormalizeText("a " + DEGREE) == "a" + DEGREE
  {
    var s, u, v := "a  " + DEGREE, "a " + DEGREE, "a" + DEGREE;
    UnchangedBeforeDegreeSpace(s);
    UnchangedBeforeDegreeSpace(u);
    assert NormalizeText(s) == Join(Words(Replace(s, " " + DEGREE, DEGREE)), " ");
    assert NormalizeText(u) == Join(Words(Replace(u, " " + DEGREE, DEGREE)), " ");
    ReplaceDegreeSpace();
    WordsOfSamples();
  }

  /** A lower-case text with no outer whitespace, no dash and no "°f" passes
      unchanged through every step before the " °" replacement. */
  lemma UnchangedBeforeDegreeSpace(s: string)
    requires s != [] && !IsSpace(s[0]) && !IsSpace(s[|s| - 1])
    requires forall i :: 0 <= i < |s| ==> !('A' <= s[i] <= 'Z') && s[i] != EN_DASH[0] && s[i] != EM_DASH[0] && s[i] != 'f'
    ensures Replace(Replace(Replace(Lower(Strip(s)), EN_DASH, "-"), EM_DASH, "-"), DEGREE + "f", DEGREE) == s
  {
    assert Strip(s) == s;
    assert Lower(s) == s;
    ReplaceAbsent(s, EN_DASH, "-");
    ReplaceAbsent(s, EM_DASH, "-");
    ReplaceWithoutLastChar(s, DEGREE + "f", DEGREE);
  }

  /** Replacing a character that does not occur changes nothing. */
  lemma {:induction false} ReplaceAbsent(s: string, needle: string, rep: string)
    requires |needle| == 1 && forall i :: 0 <= i < |s| ==> s[i] != needle[0]
    ensures Replace(s, needle, rep) == s
    decreases |s|
  {
    if |s| >= 1 {
      assert s[..1] != needle by { assert s[..1][0] == s[0]; }
      ReplaceAbsent(s[1..], needle, rep);
      assert [s[0]] + s[1..] == s;
    }
  }

  /** A text missing the needle's last character has no occurrence of it. */
  lemma {:induction false} ReplaceWithoutLastChar(s: string, needle: string, rep: string)
    requires needle != [] && forall i :: 0 <= i < |s| ==> s[i] != needle[|needle| - 1]
    ensures Replace(s, needle, rep) == s
    decreases |s|
  {
    if |s| >= |needle| {
      assert s[..|needle|] != needle by { assert s[..|needle|][|needle| - 1] == s[|needle| - 1]; }
      ReplaceWithoutLastChar(s[1..], needle, rep);
      assert [s[0]] + s[1..] == s;
    }
  }

  /** The " °" replacement on the two samples. */
  lemma ReplaceDegreeSpace()
    ensures Replace("a  " + DEGREE, " " + DEGREE, DEGREE) == "a " + DEGREE
    ensures Replace("a " + DEGREE, " " + DEGREE, DEGREE) == "a" + DEGREE
  {
    var n := " " + DEGREE;
    assert Replace(n, n, DEGREE) == DEGREE + Replace([], n, DEGREE);
    assert (" " + n)[..2] != n by { assert (" " + n)[..2][1] == ' '; }
    assert (" " + n)[1..] == n;
    assert Replace(" " + n, n, DEGREE) == " " + DEGREE;
    assert ("a" + " " + n)[..2] != n by { assert ("a" + " " + n)[..2][0] == 'a'; }
    assert ("a" + " " + n)[1..] == " " + n;
    assert "a  " + DEGREE == "a" + " " + n;
    assert ("a" + n)[..2] != n by { assert ("a" + n)[..2][0] == 'a'; }
    assert ("a" + n)[1..] == n;
    assert "a " + DEGREE == "a" + n;
  }

  /** Splitting and re-joining the two samples. */
  lemma WordsOfSamples()
    ensures Join(Words("a " + DEGREE), " ") == "a " + DEGREE
    ensures Join(Words("a" + DEGREE), " ") == "a" + DEGREE
  {
    var d := DEGREE;
    assert WordLength(d) == 1 by { assert d[1..] == []; }
    assert Words(d) == [d] by { assert d[..1] == d && d[1..] == []; }
    var u := "a " + d;
    assert WordLength(u) == 1 by { assert IsSpace(u[1..][0]); }
    assert u[..1] == "a" && u[1..] == " " + d && (" " + d)[1..] == d;
    assert Words(u) == ["a", d];
    var v := "a" + d;
    assert WordLength(v[2..]) == 0;
    assert WordLength(v[1..]) == 1;
    assert WordLength(v) == 2;
    assert v[..2] == v && v[2..] == [];
    assert Words(v) == [v];
  }

  // ---------------------------------------------------------------------------
  // Locating a pair's market
  // ---------------------------------------------------------------------------

  /** The first element whose test returns true, scanning in order; a test
      that raises stops the scan with that exception. */
  function FirstWhere(xs: seq<Market>, test: Market -> Raising<bool>): (r: Raising<Option<Market>>)
    ensures forall i :: 0 <= i < |xs| && test(xs[i]) == Returns(true)
                        && (forall j :: 0 <= j < i ==> test(xs[j]) == Returns(false))
                        ==> r == Returns(Some(xs[i]))
    ensures r == Returns(None) <==> forall i :: 0 <= i < |xs| ==> test(xs[i]) == Returns(false)
    ensures r.Returns? && r.value.Some? ==> r.value.value in xs && test(r.value.value) == Returns(true)
    ensures r.Raises? ==> exists i :: 0 <= i < |xs| && test(xs[i]).Raises?
  {
    if xs == [] then Returns(None)
    else
      match test(xs[0])
      case Raises => Raises
      case Returns(hit) =>
        if hit then Returns(Some(xs[0]))
        else
          var rest := FirstWhere(xs[1..], test);
          assert forall i :: 1 <= i < |xs| ==> xs[i] == xs[1..][i - 1];
          rest
  }

  /** The id a market offers for `id_key`: the raw record's value when
      truthy, else none (the normalised record has no such key). A truthy
      raw value that is not an object raises (it has no `get`). */
  function IdCandidate(m: Market, idKey: string): Raising<Option<Json>> {
    if !Truthy(m.raw) then Returns(None)
    else if !m.raw.JObj? then Raises
    else
      var v := Get(m.raw.fields, idKey);
      Returns(if TruthyOpt(v) then v else None)
  }

  /** Whether a market's id equals the lower-cased target, ignoring case. */
  function IdTest(m: Market, target: string, idKey: string): Raising<bool> {
    match IdCandidate(m, idKey)
    case Raises => Raises
    case Returns(c) => Returns(c.Some? && Lower(PyStr(c.value)) == target)
  }

  /** Whether a market's normalised title equals the normalised fallback. */
  function TitleTest(m: Market, fallback: string): Raising<bool> {
    match NormalizeTitle(Some(m.title))
    case Raises => Raises
    case Returns(t) => Returns(t == fallback)
  }

  /** `_find_market`: none for an empty target id; otherwise the first market
      whose id matches case-insensitively, and failing that, when the
      normalised fallback title is non-empty, the first market with that
      normalised title. */
  function FindMarket(markets: seq<Market>, targetId: string, fallbackTitle: Option<Json>, idKey: string)
    : (r: Raising<Option<Market>>)
    ensures targetId == "" ==> r == Returns(None)
    ensures r.Returns? && r.value.Some? ==> r.value.value in markets
    ensures targetId != "" ==>
              forall i :: 0 <= i < |markets| && IdTest(markets[i], Lower(targetId), idKey) == Returns(true)
                          && (forall j :: 0 <= j < i ==> IdTest(markets[j], Lower(targetId), idKey) == Returns(false))
                          ==> r == Returns(Some(markets[i]))
    ensures r.Returns? && r.value.Some? && IdTest(r.value.value, Lower(targetId), idKey) != Returns(true) ==>
              NormalizeTitle(fallbackTitle).Returns? && NormalizeTitle(fallbackTitle).value != ""
              && TitleTest(r.value.value, NormalizeTitle(fallbackTitle).value) == Returns(true)
  {
    if targetId == "" then Returns(None)
    else
      var target := Lower(targetId);
      var byId := FirstWhere(markets, m => IdTest(m, target, idKey));
      if byId != Returns(None) then byId
      else
        match NormalizeTitle(fallbackTitle)
        case Raises => Raises
        case Returns(fallback) =>
          if fallback == "" then Returns(None)
          else FirstWhere(markets, m => TitleTest(m, fallback))
  }

  // ---------------------------------------------------------------------------
  // Net spreads
  // ---------------------------------------------------------------------------

  /** The Kalshi fee for buying and selling once at `kalshiBid`, rounded to 4 places. */
  function FeeComponent(kalshiBid: real): (fee: real)
    ensures fee == 2.0 * Fees.KalshiFee(kalshiBid)
  {
    Fees.KalshiFeeWholeCents(kalshiBid);
    DoubleCentsRoundExactly(Fees.KalshiFee(kalshiBid));
    Round4(Fees.KalshiFee(kalshiBid) * 2.0)
  }

  /** Twice a whole number of cents is already rounded to 4 places. */
  lemma DoubleCentsRoundExactly(fee: real)
    requires fee * 100.0 == (fee * 100.0).Floor as real
    ensures Round4(fee * 2.0) == 2.0 * fee
  {
    var c := (fee * 100.0).Floor;
    assert fee * 2.0 * 10000.0 + 0.5 == (200 * c) as real + 0.5;
    assert (fee * 2.0 * 10000.0 + 0.5).Floor == 200 * c;
  }

  datatype NetSpreads = NetSpreads(buyKSellP: real, buyPSellK: real)

  /** The two net spreads `_evaluate_pair` computes from the quotes and the gas cost. */
  function NetSpreadsOf(polyBid: real, polyAsk: real, kalshiBid: real, kalshiAsk: real, gas: real): NetSpreads {
    var cost := gas + FeeComponent(kalshiBid);
    NetSpreads(polyBid - kalshiAsk - cost, kalshiBid - polyAsk - cost)
  }

  /** The monitor's spreads are `calc_spreads` with cost gas plus two Kalshi
      fees, but under swapped names: "buy K sell P" is `calc_spreads`'
      P-to-K entry and "buy P sell K" its K-to-P entry. */
  lemma NetSpreadsAreSwappedCalcSpreads(polyBid: real, polyAsk: real, kalshiBid: real, kalshiAsk: real, gas: real)
    ensures var s := Spreads.CalcSpreads(kalshiBid, kalshiAsk, polyBid, polyAsk, gas + 2.0 * Fees.KalshiFee(kalshiBid));
            NetSpreadsOf(polyBid, polyAsk, kalshiBid, kalshiAsk, gas) == NetSpreads(s.pToK, s.kToP)
  {
    assert FeeComponent(kalshiBid) == 2.0 * Fees.KalshiFee(kalshiBid);
  }

  // ---------------------------------------------------------------------------
  // Driving the windows
  // ---------------------------------------------------------------------------

  /** `f"{pair.id}::{pair.kalshi_market_id}::{pair.polymarket_market_id}"`. */
  function PairKey(pair: MarketPair): string {
    pair.id + "::" + pair.kalshiMarketId + "::" + pair.polymarketMarketId
  }

  /** One direction: a positive spread opens or extends its window,
      otherwise the window is closed if open. Table, log, raised flag. */
  function DriveDirection(ws: map<string, Window>, history: seq<WindowRow>, pairKey: string, direction: string,
                          marketLabel: string, spread: real, now: int, windowId: string)
    : (map<string, Window>, seq<WindowRow>, bool)
  {
    if spread > 0.0 then
      var u := OpenOrUpdateStep(ws, pairKey, direction, marketLabel, spread, now, windowId);
      (u.0, history, u.1)
    else CloseStep(ws, history, pairKey, direction, now, false)
  }

  /** Both directions in order, K-to-P first; a raise stops before the second. */
  function DriveWindows(ws: map<string, Window>, history: seq<WindowRow>, pairKey: string, marketLabel: string,
                        s: NetSpreads, now: int, kToPId: string, pToKId: string)
    : (map<string, Window>, seq<WindowRow>, bool)
  {
    var a := DriveDirection(ws, history, pairKey, K_TO_P, marketLabel, s.buyKSellP, now, kToPId);
    if a.2 then a
    else DriveDirection(a.0, a.1, pairKey, P_TO_K, marketLabel, s.buyPSellK, now, pToKId)
  }

  /** Every open window under `wk` has all its statistics. */
  predicate CompleteAt(ws: map<string, Window>, wk: string) {
    wk in ws ==> Complete(ws[wk])
  }

  /** With a complete window (or none) under the key, one direction does not
      raise; afterwards the window is open exactly when the spread is
      positive; no other key changes; a close logs one row exactly when a
      window was open, and an open logs nothing. */
  lemma DriveDirectionOpensIffPositive(ws: map<string, Window>, history: seq<WindowRow>, pairKey: string,
                                      direction: string, marketLabel: string, spread: real, now: int, windowId: string)
    requires CompleteAt(ws, WindowKey(pairKey, direction))
    ensures var d := DriveDirection(ws, history, pairKey, direction, marketLabel, spread, now, windowId);
            var wk := WindowKey(pairKey, direction);
            && !d.2
            && (wk in d.0 <==> spread > 0.0)
            && CompleteAt(d.0, wk)
            && (forall k :: k != wk ==> (k in d.0 <==> k in ws))
            && (forall k :: k != wk && k in ws ==> d.0[k] == ws[k])
            && |d.1| == |history| + (if spread <= 0.0 && wk in ws then 1 else 0)
            && d.1[..|history|] == history
  {
    var wk := WindowKey(pairKey, direction);
    if spread > 0.0 && wk in ws {
      ExtendCompleteWindow(ws[wk], spread, now);
    }
    var d := DriveDirection(ws, history, pairKey, direction, marketLabel, spread, now, windowId);
    assert d.1[..|history|] == history;
  }

  /** With complete windows (or none) for the pair, driving both directions
      does not raise; afterwards each direction's window is open exactly when
      its spread is positive, other pairs' windows are untouched, and at most
      one row per direction is logged, after the earlier log. */
  lemma DriveWindowsPerDirection(ws: map<string, Window>, history: seq<WindowRow>, pairKey: string, marketLabel: string,
                                 s: NetSpreads, now: int, kToPId: string, pToKId: string)
    requires CompleteAt(ws, WindowKey(pairKey, K_TO_P)) && CompleteAt(ws, WindowKey(pairKey, P_TO_K))
    ensures var d := DriveWindows(ws, history, pairKey, marketLabel, s, now, kToPId, pToKId);
            && !d.2
            && (WindowKey(pairKey, K_TO_P) in d.0 <==> s.buyKSellP > 0.0)
            && (WindowKey(pairKey, P_TO_K) in d.0 <==> s.buyPSellK > 0.0)
            && (forall k :: k != WindowKey(pairKey, K_TO_P) && k != WindowKey(pairKey, P_TO_K) ==>
                  (k in d.0 <==> k in ws) && (k in ws ==> d.0[k] == ws[k]))
            && |history| <= |d.1| <= |history| + 2
            && d.1[..|history|] == history
  {
    var kp, pk := WindowKey(pairKey, K_TO_P), WindowKey(pairKey, P_TO_K);
    DirectionsHaveSeparateKeys(pairKey);
    var a := DriveDirection(ws, history, pairKey, K_TO_P, marketLabel, s.buyKSellP, now, kToPId);
    DriveDirectionOpensIffPositive(ws, history, pairKey, K_TO_P, marketLabel, s.buyKSellP, now, kToPId);
    assert CompleteAt(a.0, pk);
    DriveDirectionOpensIffPositive(a.0, a.1, pairKey, P_TO_K, marketLabel, s.buyPSellK, now, pToKId);
    var d := DriveDirection(a.0, a.1, pairKey, P_TO_K, marketLabel, s.buyPSellK, now, pToKId);
    assert d.1[..|history|] == d.1[..|a.1|][..|history|];
  }

  // ---------------------------------------------------------------------------
  // Evaluating one pair
  // ---------------------------------------------------------------------------

  datatype SnapshotStatus = Failed | Skipped | Idle | Open

  datatype SnapshotRow = SnapshotRow(
    pair: MarketPair,
    status: SnapshotStatus,
    buyKSellP: Option<real>,
    buyPSellK: Option<real>,
    polyBid: Option<real>,
    polyAsk: Option<real>,
    kalshiBid: Option<real>,
    kalshiAsk: Option<real>)

  datatype ArbitrageSignal = ArbitrageSignal(
    pair: MarketPair,
    polyMarketId: string,
    kalshiMarketId: string,
    polyBid: real,
    polyAsk: real,
    kalshiBid: real,
    kalshiAsk: real,
    buyKSellP: real,
    buyPSellK: real)

  datatype Outcome = Outcome(row: SnapshotRow, signal: Option<ArbitrageSignal>)

  /** What `_evaluate_pair` returns (or raised), and the window table and log after it. */
  datatype Evaluation = Evaluation(outcome: Raising<Outcome>, windows: map<string, Window>, history: seq<WindowRow>)

  function BareRow(pair: MarketPair, status: SnapshotStatus): SnapshotRow {
    SnapshotRow(pair, status, None, None, None, None, None, None)
  }

  /** `_find_market` as `_evaluate_pair` calls it on the Polymarket list. */
  function FindPolyMarket(pair: MarketPair, markets: seq<Market>): Raising<Option<Market>> {
    FindMarket(markets, pair.polymarketMarketId, Or(pair.polymarketTitle, Some(JStr(pair.marketName))), "id")
  }

  /** `_find_market` as `_evaluate_pair` calls it on the Kalshi list. */
  function FindKalshiMarket(pair: MarketPair, markets: seq<Market>): Raising<Option<Market>> {
    FindMarket(markets, pair.kalshiMarketId, Or(pair.kalshiTitle, Some(JStr(pair.marketName))), "ticker")
  }

  /** The row and signal once both markets are found and the windows driven. */
  function Report(pair: MarketPair, p: Market, k: Market, s: NetSpreads): Outcome {
    var anyPositive := s.buyKSellP > 0.0 || s.buyPSellK > 0.0;
    var row := SnapshotRow(pair, if anyPositive then Open else Idle, Some(s.buyKSellP), Some(s.buyPSellK),
                           Some(p.bid), Some(p.ask), Some(k.bid), Some(k.ask));
    Outcome(row, if anyPositive then Some(ArbitrageSignal(pair, pair.polymarketMarketId, pair.kalshiMarketId,
                                                     p.bid, p.ask, k.bid, k.ask, s.buyKSellP, s.buyPSellK))
                 else None)
  }

  /** `_evaluate_pair` on values, with the fetched lists as inputs. */
  function Evaluate(pair: MarketPair, polyMarkets: seq<Market>, kalshiMarkets: seq<Market>, gas: real,
                    ws: map<string, Window>, history: seq<WindowRow>, now: int, kToPId: string, pToKId: string)
    : Evaluation
  {
    if polyMarkets == [] || kalshiMarkets == [] then Evaluation(Returns(Outcome(BareRow(pair, Failed), None)), ws, history)
    else
      var pm := FindPolyMarket(pair, polyMarkets);
      var km := FindKalshiMarket(pair, kalshiMarkets);
      if pm.Raises? || km.Raises? then Evaluation(Raises, ws, history)
      else if pm.value.None? || km.value.None? then Evaluation(Returns(Outcome(BareRow(pair, Skipped), None)), ws, history)
      else
        var p, k := pm.value.value, km.value.value;
        var s := NetSpreadsOf(p.bid, p.ask, k.bid, k.ask, gas);
        var d := DriveWindows(ws, history, PairKey(pair), pair.marketName, s, now, kToPId, pToKId);
        Evaluation(if d.2 then Raises else Returns(Report(pair, p, k, s)), d.0, d.1)
  }

  /** An empty fetch from either venue reports FAILED, with no signal and
      no window touched; a missing market reports SKIPPED likewise. */
  lemma EvaluateWithoutQuotes(pair: MarketPair, polyMarkets: seq<Market>, kalshiMarkets: seq<Market>, gas: real,
                              ws: map<string, Window>, history: seq<WindowRow>, now: int, kToPId: string, pToKId: string)
    ensures polyMarkets == [] || kalshiMarkets == [] ==>
              Evaluate(pair, polyMarkets, kalshiMarkets, gas, ws, history, now, kToPId, pToKId)
              == Evaluation(Returns(Outcome(BareRow(pair, Failed), None)), ws, history)
    ensures polyMarkets != [] && kalshiMarkets != []
            && FindPolyMarket(pair, polyMarkets).Returns? && FindKalshiMarket(pair, kalshiMarkets).Returns?
            && (FindPolyMarket(pair, polyMarkets).value.None? || FindKalshiMarket(pair, kalshiMarkets).value.None?) ==>
              Evaluate(pair, polyMarkets, kalshiMarkets, gas, ws, history, now, kToPId, pToKId)
              == Evaluation(Returns(Outcome(BareRow(pair, Skipped), None)), ws, history)
  {
  }

  /** Once both markets are found and the pair's open windows are complete:
      nothing raises; the status is OPEN exactly when some net spread is
      positive and IDLE otherwise; a signal is returned exactly when OPEN,
      carrying the same spreads; each direction's window is open afterwards
      exactly when its spread is positive, and other pairs' windows are
      untouched. */
  lemma EvaluateOpensIffPositive(pair: MarketPair, polyMarkets: seq<Market>, kalshiMarkets: seq<Market>, gas: real,
                                 ws: map<string, Window>, history: seq<WindowRow>, now: int, kToPId: string, pToKId: string,
                                 p: Market, k: Market)
    requires polyMarkets != [] && kalshiMarkets != []
    requires FindPolyMarket(pair, polyMarkets) == Returns(Some(p))
    requires FindKalshiMarket(pair, kalshiMarkets) == Returns(Some(k))
    requires CompleteAt(ws, WindowKey(PairKey(pair), K_TO_P)) && CompleteAt(ws, WindowKey(PairKey(pair), P_TO_K))
    ensures var e := Evaluate(pair, polyMarkets, kalshiMarkets, gas, ws, history, now, kToPId, pToKId);
            var s := NetSpreadsOf(p.bid, p.ask, k.bid, k.ask, gas);
            && e.outcome.Returns?
            && (e.outcome.value.row.status == Open <==> s.buyKSellP > 0.0 || s.buyPSellK > 0.0)
            && (e.outcome.value.row.status == Idle <==> s.buyKSellP <= 0.0 && s.buyPSellK <= 0.0)
            && (e.outcome.value.signal.Some? <==> e.outcome.value.row.status == Open)
            && (e.outcome.value.signal.Some? ==>
                  e.outcome.value.signal.value.buyKSellP == s.buyKSellP
                  && e.outcome.value.signal.value.buyPSellK == s.buyPSellK)
            && (WindowKey(PairKey(pair), K_TO_P) in e.windows <==> s.buyKSellP > 0.0)
            && (WindowKey(PairKey(pair), P_TO_K) in e.windows <==> s.buyPSellK > 0.0)
            && (forall key :: key != WindowKey(PairKey(pair), K_TO_P) && key != WindowKey(PairKey(pair), P_TO_K) ==>
                  (key in e.windows <==> key in ws) && (key in ws ==> e.windows[key] == ws[key]))
  {
    var s := NetSpreadsOf(p.bid, p.ask, k.bid, k.ask, gas);
    DriveWindowsPerDirection(ws, history, PairKey(pair), pair.marketName, s, now, kToPId, pToKId);
    var d := DriveWindows(ws, history, PairKey(pair), pair.marketName, s, now, kToPId, pToKId);
    assert Evaluate(pair, polyMarkets, kalshiMarkets, gas, ws, history, now, kToPId, pToKId)
        == Evaluation(Returns(Report(pair, p, k, s)), d.0, d.1);
  }

  // ---------------------------------------------------------------------------
  // Polling interval and duration
  // ---------------------------------------------------------------------------

  /** `_maybe_adjust_interval`, with the Kalshi client's `should_extend_interval()`
      and `retry_count` as inputs: the new interval and extended flag. */
  function AdjustInterval(current: int, base: int, extended: bool, shouldExtend: bool, retryCount: int): (int, bool) {
    if shouldExtend && !extended then
      (var c := Fees.Ceil(current as real * 1.5); if base >= c then base else c, true)
    else if extended && retryCount == 0 then (base, false)
    else (current, extended)
  }

  /** The interval is extended exactly when extension is requested and not
      already in force, to at least the base and at least 1.5 times the
      current interval; it is restored to the base exactly when extended and
      the retry count is back to zero; otherwise nothing changes. An interval
      at or above the base never drops below it. */
  lemma AdjustIntervalCases(current: int, base: int, extended: bool, shouldExtend: bool, retryCount: int)
    ensures var r := AdjustInterval(current, base, extended, shouldExtend, retryCount);
            && (!extended && r.1 <==> shouldExtend && !extended)
            && (shouldExtend && !extended ==> r.0 >= base && r.0 as real >= current as real * 1.5
                                              && (r.0 == base || (r.0 - 1) as real < current as real * 1.5))
            && (extended && !r.1 <==> extended && retryCount == 0)
            && (extended && retryCount == 0 ==> r.0 == base)
            && (!(shouldExtend && !extended) && !(extended && retryCount == 0) ==> r == (current, extended))
            && (current >= base ==> r.0 >= base)
  {
  }

  /** An extension from a positive interval makes it strictly longer. */
  lemma ExtensionLengthens(current: int, base: int, retryCount: int)
    requires current >= 1
    ensures AdjustInterval(current, base, false, true, retryCount).0 > current
  {
    assert current as real * 1.5 > current as real;
  }

  /** The stop test in `run`: elapsed hours reach the configured duration. */
  predicate ShouldStop(start: int, now: int, durationHours: int) {
    (now - start) as real / 3600.0 >= durationHours as real
  }

  /** The stop test in whole seconds. */
  lemma ShouldStopInSeconds(start: int, now: int, durationHours: int)
    ensures ShouldStop(start, now, durationHours) <==> now - start >= 3600 * durationHours
  {
    var e := (now - start) as real;
    assert e / 3600.0 * 3600.0 == e;
  }

  // ---------------------------------------------------------------------------
  // The monitor
  // ---------------------------------------------------------------------------

  /** `ArbitrageMonitor`, reduced to the state `_evaluate_pair` uses. */
  class ArbitrageMonitor {
    const config: AppConfig
    const windowManager: OpportunityWindowManager
    const failureTracker: FailureTracker

    constructor (config: AppConfig, history: seq<WindowRow>, stateFile: Option<StateFile>)
      ensures this.config == config && fresh(windowManager) && fresh(failureTracker)
      ensures windowManager.activeWindows == map[] && windowManager.history == history
      ensures windowManager.stateFile == stateFile
      ensures windowManager.checkpointIntervalSec == DEFAULT_CHECKPOINT_INTERVAL_SECONDS
      ensures failureTracker.threshold == DEFAULT_FAILURE_THRESHOLD && failureTracker.counts == map[]
    {
      this.config := config;
      windowManager := new OpportunityWindowManager(DEFAULT_CHECKPOINT_INTERVAL_SECONDS, history, stateFile);
      failureTracker := new FailureTracker(DEFAULT_FAILURE_THRESHOLD);
    }

    /** `_evaluate_pair` on the fetched lists at time `now`; the window ids
        the manager would mint for each direction are inputs. */
    method EvaluatePair(pair: MarketPair, polyMarkets: seq<Market>, kalshiMarkets: seq<Market>, now: int,
                        kToPId: string, pToKId: string)
      returns (outcome: Raising<Outcome>)
      modifies windowManager, failureTracker
      ensures var e := Evaluate(pair, polyMarkets, kalshiMarkets, config.costAssumptions.gasFeePerTradeUsd,
                                old(windowManager.activeWindows), old(windowManager.history), now, kToPId, pToKId);
              outcome == e.outcome && windowManager.activeWindows == e.windows && windowManager.history == e.history
      ensures polyMarkets == [] || kalshiMarkets == [] ==>
                failureTracker.counts == FailureStep(old(failureTracker.counts), pair.id, failureTracker.threshold).0
      ensures polyMarkets != [] && kalshiMarkets != [] ==>
                failureTracker.counts == old(failureTracker.counts) - {pair.id}
      ensures windowManager.stateFile == old(windowManager.stateFile)
      ensures windowManager.lastCheckpointTs == old(windowManager.lastCheckpointTs)
    {
      if polyMarkets == [] || kalshiMarkets == [] {
        var _ := failureTracker.RecordFailure(pair.id);
        return Returns(Outcome(BareRow(pair, Failed), None));
      }
      failureTracker.RecordSuccess(pair.id);
      var pm := FindPolyMarket(pair, polyMarkets);
      var km := FindKalshiMarket(pair, kalshiMarkets);
      if pm.Raises? || km.Raises? {
        return Raises;
      }
      if pm.value.None? || km.value.None? {
        return Returns(Outcome(BareRow(pair, Skipped), None));
      }
      var p, k := pm.value.value, km.value.value;
      var s := NetSpreadsOf(p.bid, p.ask, k.bid, k.ask, config.costAssumptions.gasFeePerTradeUsd);
      var pairKey := PairKey(pair);
      var raised;
      if s.buyKSellP > 0.0 {
        raised := windowManager.OpenOrUpdate(pairKey, K_TO_P, pair.marketName, s.buyKSellP, now, kToPId);
      } else {
        raised := windowManager.CloseIfOpen(pairKey, K_TO_P, now, false);
      }
      if raised {
        return Raises;
      }
      if s.buyPSellK > 0.0 {
        raised := windowManager.OpenOrUpdate(pairKey, P_TO_K, pair.marketName, s.buyPSellK, now, pToKId);
      } else {
        raised := windowManager.CloseIfOpen(pairKey, P_TO_K, now, false);
      }
      if raised {
        return Raises;
      }
      return Returns(Report(pair, p, k, s));
    }
  }
}
