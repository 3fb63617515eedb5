// Model of src/state.py: the per-direction opportunity window, its serialised
// form, and the per-pair runtime state that owns the active windows.
// Timestamps are whole seconds; the ISO text that the source writes and parses
// is abstracted away, and `uuid4` becomes a caller-supplied fresh id.

module State {
  import opened JsonValue
  import opened PyText

  /** The value held by an `OpportunityWindow`. */
  datatype Window = Window(
    marketPairId: string,
    direction: string,
    startTime: int,
    lastUpdate: int,
    observationCount: int,
    spreads: seq<real>,
    peakSpread: real,
    interrupted: bool,
    windowId: string)

  function Max(a: real, b: real): real {
    if a < b then b else a
  }

  /** The window right after `update(spread, timestamp)`. */
  function Updated(w: Window, spread: real, timestamp: int): Window {
    w.(lastUpdate := timestamp,
       observationCount := w.observationCount + 1,
       spreads := w.spreads + [spread],
       peakSpread := if spread > w.peakSpread then spread else w.peakSpread)
  }

  /** A run of `update` calls, one per observed spread, all at `timestamp`. */
  function UpdatedAll(w: Window, observed: seq<real>, timestamp: int): Window
    decreases |observed|
  {
    if observed == [] then w
    else Updated(UpdatedAll(w, observed[..|observed| - 1], timestamp), observed[|observed| - 1], timestamp)
  }

  /** After any run of updates the count grew by the number of observations,
      every observation was appended in order, and the peak is the largest of
      the old peak and every observation: it never decreases. */
  lemma {:induction false} UpdatesAccumulate(w: Window, observed: seq<real>, timestamp: int)
    ensures UpdatedAll(w, observed, timestamp).observationCount == w.observationCount + |observed|
    ensures UpdatedAll(w, observed, timestamp).spreads == w.spreads + observed
    ensures UpdatedAll(w, observed, timestamp).peakSpread >= w.peakSpread
    ensures forall i :: 0 <= i < |observed| ==> UpdatedAll(w, observed, timestamp).peakSpread >= observed[i]
    ensures UpdatedAll(w, observed, timestamp).peakSpread == w.peakSpread
         || exists i :: 0 <= i < |observed| && UpdatedAll(w, observed, timestamp).peakSpread == observed[i]
    ensures UpdatedAll(w, observed, timestamp).windowId == w.windowId
    ensures UpdatedAll(w, observed, timestamp).startTime == w.startTime
    decreases |observed|
  {
    if observed != [] {
      var front := observed[..|observed| - 1];
      UpdatesAccumulate(w, front, timestamp);
      var before := UpdatedAll(w, front, timestamp);
      assert (w.spreads + front) + [observed[|observed| - 1]] == w.spreads + observed;
      forall i | 0 <= i < |observed|
        ensures UpdatedAll(w, observed, timestamp).peakSpread >= observed[i]
      {
        if i < |observed| - 1 {
          assert front[i] == observed[i];
        }
      }
      if before.peakSpread != w.peakSpread && observed[|observed| - 1] <= before.peakSpread {
        var j :| 0 <= j < |front| && before.peakSpread == front[j];
        assert observed[j] == front[j];
      }
    }
  }

  function Sum(xs: seq<real>): real
    decreases |xs|
  {
    if xs == [] then 0.0 else Sum(xs[..|xs| - 1]) + xs[|xs| - 1]
  }

  /** `avg_spread`: 0.0 for no observations, otherwise the arithmetic mean. */
  function Average(spreads: seq<real>): real {
    if spreads == [] then 0.0 else Sum(spreads) / |spreads| as real
  }

  lemma {:induction false} SumBounds(xs: seq<real>, lo: real, hi: real)
    requires forall i :: 0 <= i < |xs| ==> lo <= xs[i] <= hi
    ensures |xs| as real * lo <= Sum(xs) <= |xs| as real * hi
    decreases |xs|
  {
    if xs != [] {
      var front := xs[..|xs| - 1];
      forall i | 0 <= i < |front| ensures lo <= front[i] <= hi {
        assert front[i] == xs[i];
      }
      SumBounds(front, lo, hi);
      var n := |front| as real;
      assert |xs| as real * lo == n * lo + lo && |xs| as real * hi == n * hi + hi;
      assert Sum(xs) == Sum(front) + xs[|xs| - 1];
    }
  }

  /** The mean of a non-empty run lies between any bounds of its members; an
      empty run averages to exactly 0.0. */
  lemma AverageWithinBounds(spreads: seq<real>, lo: real, hi: real)
    requires forall i :: 0 <= i < |spreads| ==> lo <= spreads[i] <= hi
    ensures spreads == [] ==> Average(spreads) == 0.0
    ensures spreads != [] ==> lo <= Average(spreads) <= hi
  {
    if spreads != [] {
      SumBounds(spreads, lo, hi);
      var n := |spreads| as real;
      assert Sum(spreads) / n >= lo by {
        assert Sum(spreads) >= n * lo;
      }
      assert Sum(spreads) / n <= hi by {
        assert Sum(spreads) <= n * hi;
      }
    }
  }

  /** The dict `to_state` writes and `from_state` reads, one optional entry per
      key (None is an absent key). The text fields and the timestamps are typed;
      the fields that `from_state` converts with int(), float() and bool() keep
      their JSON value. */
  datatype WindowState = WindowState(
    windowId: Option<string>,
    marketPairId: Option<string>,
    direction: Option<string>,
    startTime: Option<int>,
    lastUpdate: Option<int>,
    observationCount: Option<Json>,
    spreads: Option<Json>,
    peakSpread: Option<Json>,
    interrupted: Option<Json>)

  function FloatsOf(items: seq<Json>): Option<seq<real>>
    decreases |items|
  {
    if items == [] then Some([])
    else match (FloatsOf(items[..|items| - 1]), PyFloat(items[|items| - 1]))
      case (Some(front), Some(x)) => Some(front + [x])
      case _ => None
  }

  function ToJsonFloats(xs: seq<real>): seq<Json> {
    seq(|xs|, i requires 0 <= i < |xs| => JFloat(xs[i]))
  }

  /** `[float(x) for x in value]`: a list converts element by element and a
      string iterates over its characters. An object iterates over its keys:
      an empty one gives no spreads, and a non-empty one is taken to raise
      (it does whenever some key is not a number). Null, booleans and
      numbers cannot be iterated and raise. */
  function SpreadsOf(value: Json): Option<seq<real>> {
    match value
    case JArr(items) => FloatsOf(items)
    case JStr(s) => FloatsOf(seq(|s|, i requires 0 <= i < |s| => JStr([s[i]])))
    case JObj(fields) => if fields == map[] then Some([]) else None
    case _ => None
  }

  /** A list converts element by element, an empty object gives no spreads,
      and a value that cannot be iterated raises. */
  lemma SpreadsOfCases(value: Json)
    ensures value.JArr? ==> SpreadsOf(value) == FloatsOf(value.items)
    ensures value == JObj(map[]) ==> SpreadsOf(value) == Some([])
    ensures value.JNull? || value.JBool? || value.JInt? || value.JFloat? ==> SpreadsOf(value).None?
  {
  }

  /** `to_state`. */
  function ToState(w: Window): WindowState {
    WindowState(Some(w.windowId), Some(w.marketPairId), Some(w.direction),
                Some(w.startTime), Some(w.lastUpdate), Some(JInt(w.observationCount)),
                Some(JArr(ToJsonFloats(w.spreads))), Some(JFloat(w.peakSpread)),
                Some(JBool(w.interrupted)))
  }

  /** `from_state`: the four required keys raise KeyError when absent, the
      conversions raise when they fail, and a missing or empty window id is
      replaced by `freshId`. */
  function FromState(data: WindowState, freshId: string): (r: Raising<Window>)
    ensures r.Returns? ==> r.value.windowId != [] || freshId == []
  {
    if data.startTime.None? || data.lastUpdate.None? || data.marketPairId.None? || data.direction.None? then Raises
    else
      var count := PyInt(OrElse(data.observationCount, JInt(0)));
      var spreads := SpreadsOf(OrElse(data.spreads, JArr([])));
      var peak := PyFloat(OrElse(data.peakSpread, JFloat(0.0)));
      if count.None? || spreads.None? || peak.None? then Raises
      else
        var id := if data.windowId.Some? && data.windowId.value != [] then data.windowId.value else freshId;
        Returns(Window(data.marketPairId.value, data.direction.value, data.startTime.value,
                       data.lastUpdate.value, count.value, spreads.value, peak.value,
                       Truthy(OrElse(data.interrupted, JBool(false))), id))
  }

  lemma {:induction false} FloatsRoundTrip(xs: seq<real>)
    ensures FloatsOf(ToJsonFloats(xs)) == Some(xs)
    decreases |xs|
  {
    if xs != [] {
      var front := xs[..|xs| - 1];
      assert ToJsonFloats(xs)[..|xs| - 1] == ToJsonFloats(front);
      FloatsRoundTrip(front);
      assert front + [xs[|xs| - 1]] == xs;
    }
  }

  /** `from_state(to_state(w))` gives back `w` itself, except that an empty
      window id is replaced by the fresh one. */
  lemma FromStateInvertsToState(w: Window, freshId: string)
    ensures FromState(ToState(w), freshId)
         == Returns(if w.windowId != [] then w else w.(windowId := freshId))
  {
    FloatsRoundTrip(w.spreads);
  }

  /** Missing any of start_time, last_update, market_pair_id or direction
      raises; a dict with only those four gets a fresh id, no observations,
      a 0.0 peak and is not interrupted. */
  lemma FromStateDefaults(data: WindowState, freshId: string)
    ensures (data.startTime.None? || data.lastUpdate.None? || data.marketPairId.None? || data.direction.None?)
            ==> FromState(data, freshId) == Raises
    ensures (data.startTime.Some? && data.lastUpdate.Some? && data.marketPairId.Some? && data.direction.Some?
             && data.windowId.None? && data.observationCount.None? && data.spreads.None?
             && data.peakSpread.None? && data.interrupted.None?)
            ==> FromState(data, freshId)
                == Returns(Window(data.marketPairId.value, data.direction.value, data.startTime.value,
                                  data.lastUpdate.value, 0, [], 0.0, false, freshId))
  {
  }

  /** `OpportunityWindow`: a window whose statistics `update` changes in place. */
  class OpportunityWindow {
    var marketPairId: string
    var direction: string
    var startTime: int
    var lastUpdate: int
    var observationCount: int
    var spreads: seq<real>
    var peakSpread: real
    var interrupted: bool
    var windowId: string

    /** The dataclass defaults: no observations, a 0.0 peak, not interrupted. */
    constructor (marketPairId: string, direction: string, startTime: int, lastUpdate: int, windowId: string)
      ensures Value() == Window(marketPairId, direction, startTime, lastUpdate, 0, [], 0.0, false, windowId)
    {
      this.marketPairId := marketPairId;
      this.direction := direction;
      this.startTime := startTime;
      this.lastUpdate := lastUpdate;
      observationCount := 0;
      spreads := [];
      peakSpread := 0.0;
      interrupted := false;
      this.windowId := windowId;
    }

    function Value(): Window
      reads this
    {
      Window(marketPairId, direction, startTime, lastUpdate, observationCount, spreads,
             peakSpread, interrupted, windowId)
    }

    /** `update`: one more observation at `timestamp`. */
    method Update(spread: real, timestamp: int)
      modifies this
      ensures Value() == Updated(old(Value()), spread, timestamp)
      ensures observationCount == old(observationCount) + 1
      ensures spreads == old(spreads) + [spread]
      ensures peakSpread == Max(old(peakSpread), spread) && peakSpread >= old(peakSpread)
    {
      lastUpdate := timestamp;
      observationCount := observationCount + 1;
      spreads := spreads + [spread];
      if spread > peakSpread {
        peakSpread := spread;
      }
    }

    /** `avg_spread`. */
    function AvgSpread(): real
      reads this
    {
      Average(spreads)
    }

    /** `from_state`: a new window object, or the exception. */
    static method FromStateObject(data: WindowState, freshId: string) returns (r: Raising<OpportunityWindow>)
      ensures r.Returns? <==> FromState(data, freshId).Returns?
      ensures r.Returns? ==> fresh(r.value) && r.value.Value() == FromState(data, freshId).value
    {
      var v := FromState(data, freshId);
      if v.Raises? {
        return Raises;
      }
      var w := new OpportunityWindow(v.value.marketPairId, v.value.direction, v.value.startTime,
                                     v.value.lastUpdate, v.value.windowId);
      w.observationCount := v.value.observationCount;
      w.spreads := v.value.spreads;
      w.peakSpread := v.value.peakSpread;
      w.interrupted := v.value.interrupted;
      return Returns(w);
    }
  }

  const ERROR_THRESHOLD := 3

  /** The health part of `MarketRuntimeState`. */
  datatype Health = Health(consecutiveFailures: int, status: string, lastError: Option<string>, lastUpdated: Option<int>)

  datatype Outcome = Failure(message: string, at: int) | Success(at: int)

  function Mark(h: Health, e: Outcome): Health {
    match e
    case Failure(message, at) =>
      var n := h.consecutiveFailures + 1;
      Health(n, if n >= ERROR_THRESHOLD then "ERROR" else "MONITORING", Some(message), Some(at))
    case Success(at) => Health(0, "MONITORING", None, Some(at))
  }

  function Replay(h: Health, events: seq<Outcome>): Health
    decreases |events|
  {
    if events == [] then h else Mark(Replay(h, events[..|events| - 1]), events[|events| - 1])
  }

  /** The failures since the last success. */
  function TrailingFailures(events: seq<Outcome>): nat
    decreases |events|
  {
    if events == [] then 0
    else if events[|events| - 1].Success? then 0
    else TrailingFailures(events[..|events| - 1]) + 1
  }

  /** From a fresh state, the failure counter is the run of failures since the
      last success, and the status is "ERROR" exactly when that run is at least
      three long; the last error is that of the latest failure, cleared by a
      success. */
  lemma {:induction false} StatusFollowsFailureRun(events: seq<Outcome>)
    ensures Replay(Health(0, "MONITORING", None, None), events).consecutiveFailures == TrailingFailures(events)
    ensures Replay(Health(0, "MONITORING", None, None), events).status == "ERROR" <==> TrailingFailures(events) >= 3
    ensures Replay(Health(0, "MONITORING", None, None), events).status in {"ERROR", "MONITORING"}
    ensures events != [] ==>
              Replay(Health(0, "MONITORING", None, None), events).lastError
              == (match events[|events| - 1] case Failure(m, _) => Some(m) case Success(_) => None)
    decreases |events|
  {
    if events != [] {
      StatusFollowsFailureRun(events[..|events| - 1]);
    }
  }

  /** `MarketRuntimeState`. */
  class MarketRuntimeState {
    const marketPairId: string
    const kalshiTicker: string
    const polymarketToken: string
    var consecutiveFailures: int
    var status: string
    var lastError: Option<string>
    var lastUpdated: Option<int>
    var activeWindows: map<string, OpportunityWindow>

    constructor (marketPairId: string, kalshiTicker: string, polymarketToken: string)
      ensures this.marketPairId == marketPairId && this.kalshiTicker == kalshiTicker
      ensures this.polymarketToken == polymarketToken
      ensures HealthValue() == Health(0, "MONITORING", None, None) && activeWindows == map[]
    {
      this.marketPairId := marketPairId;
      this.kalshiTicker := kalshiTicker;
      this.polymarketToken := polymarketToken;
      consecutiveFailures := 0;
      status := "MONITORING";
      lastError := None;
      lastUpdated := None;
      activeWindows := map[];
    }

    function HealthValue(): Health
      reads this
    {
      Health(consecutiveFailures, status, lastError, lastUpdated)
    }

    /** `mark_failure`. */
    method MarkFailure(message: string, timestamp: int)
      modifies this
      ensures HealthValue() == Mark(old(HealthValue()), Failure(message, timestamp))
      ensures consecutiveFailures == old(consecutiveFailures) + 1
      ensures status == "ERROR" <==> consecutiveFailures >= ERROR_THRESHOLD
      ensures activeWindows == old(activeWindows)
    {
      consecutiveFailures := consecutiveFailures + 1;
      status := if consecutiveFailures >= ERROR_THRESHOLD then "ERROR" else "MONITORING";
      lastError := Some(message);
      lastUpdated := Some(timestamp);
    }

    /** `mark_success`. */
    method MarkSuccess(timestamp: int)
      modifies this
      ensures HealthValue() == Mark(old(HealthValue()), Success(timestamp))
      ensures consecutiveFailures == 0 && status == "MONITORING" && lastError == None
      ensures activeWindows == old(activeWindows)
    {
      consecutiveFailures := 0;
      status := "MONITORING";
      lastError := None;
      lastUpdated := Some(timestamp);
    }

    /** `activate_window`: a new empty window for `direction`, replacing any
        window already held for it. */
    method ActivateWindow(direction: string, timestamp: int, freshId: string) returns (w: OpportunityWindow)
      modifies this
      ensures fresh(w)
      ensures w.Value() == Window(marketPairId, direction, timestamp, timestamp, 0, [], 0.0, false, freshId)
      ensures activeWindows == old(activeWindows)[direction := w]
      ensures HealthValue() == old(HealthValue())
    {
      w := new OpportunityWindow(marketPairId, direction, timestamp, timestamp, freshId);
      activeWindows := activeWindows[direction := w];
    }

    /** `deactivate_window`: `pop(direction, None)`. */
    method DeactivateWindow(direction: string) returns (w: Option<OpportunityWindow>)
      modifies this
      ensures direction in old(activeWindows) ==>
                w == Some(old(activeWindows)[direction]) && activeWindows == old(activeWindows) - {direction}
      ensures direction !in old(activeWindows) ==> w == None && activeWindows == old(activeWindows)
      ensures HealthValue() == old(HealthValue())
    {
      if direction in activeWindows {
        w := Some(activeWindows[direction]);
        activeWindows := activeWindows - {direction};
      } else {
        w := None;
      }
    }
  }

  /** `restore_windows` on values: each item is decoded in order (item `i`
      draws the fresh id `freshId(i)`) and stored under its direction, so a
      later item overwrites an earlier one; any failing item raises. */
  function Restore(serialized: seq<WindowState>, freshId: nat -> string): Raising<map<string, Window>>
    decreases |serialized|
  {
    if serialized == [] then Returns(map[])
    else
      var n := |serialized| - 1;
      match (Restore(serialized[..n], freshId), FromState(serialized[n], freshId(n)))
      case (Returns(m), Returns(w)) => Returns(m[w.direction := w])
      case _ => Raises
  }

  /** The window item `i` decodes to (meaningful once it decodes). */
  function Decoded(serialized: seq<WindowState>, freshId: nat -> string, i: nat): Window
    requires i < |serialized|
  {
    var r := FromState(serialized[i], freshId(i));
    if r.Returns? then r.value else Window([], [], 0, 0, 0, [], 0.0, false, [])
  }

  /** One more item stores its window under its direction and leaves every
      other direction alone. */
  lemma RestoreStep(serialized: seq<WindowState>, freshId: nat -> string)
    requires serialized != []
    requires Restore(serialized, freshId).Returns?
    ensures Restore(serialized[..|serialized| - 1], freshId).Returns?
    ensures FromState(serialized[|serialized| - 1], freshId(|serialized| - 1)).Returns?
    ensures Restore(serialized, freshId).value
         == Restore(serialized[..|serialized| - 1], freshId).value[Decoded(serialized, freshId, |serialized| - 1).direction
              := Decoded(serialized, freshId, |serialized| - 1)]
  {
  }

  /** Item `i` of a list that restores decodes without raising. */
  lemma {:induction false} RestoreDecodesItem(serialized: seq<WindowState>, freshId: nat -> string, i: nat)
    requires Restore(serialized, freshId).Returns?
    requires i < |serialized|
    ensures FromState(serialized[i], freshId(i)).Returns?
    decreases |serialized|
  {
    var n := |serialized| - 1;
    RestoreStep(serialized, freshId);
    if i < n {
      RestoreDecodesItem(serialized[..n], freshId, i);
      assert serialized[..n][i] == serialized[i];
    }
  }

  /** Every item of a list that restores decodes without raising. */
  lemma RestoreDecodesEveryItem(serialized: seq<WindowState>, freshId: nat -> string)
    requires Restore(serialized, freshId).Returns?
    ensures forall i :: 0 <= i < |serialized| ==> FromState(serialized[i], freshId(i)).Returns?
  {
    forall i | 0 <= i < |serialized| ensures FromState(serialized[i], freshId(i)).Returns? {
      RestoreDecodesItem(serialized, freshId, i);
    }
  }

  /** The restored map is keyed by direction: each window sits under its
      own direction, and its keys are exactly the directions of the items. */
  lemma RestoreKeyedByDirection(serialized: seq<WindowState>, freshId: nat -> string)
    requires Restore(serialized, freshId).Returns?
    ensures forall d :: d in Restore(serialized, freshId).value ==>
              Restore(serialized, freshId).value[d].direction == d
    ensures forall d :: d in Restore(serialized, freshId).value <==> DirectionListed(serialized, freshId, d)
  {
    RestoreStoresUnderDirection(serialized, freshId);
    RestoreKeysAreDirections(serialized, freshId);
  }

  /** Each restored window sits under its own direction. */
  lemma {:induction false} RestoreStoresUnderDirection(serialized: seq<WindowState>, freshId: nat -> string)
    requires Restore(serialized, freshId).Returns?
    ensures forall d :: d in Restore(serialized, freshId).value ==>
              Restore(serialized, freshId).value[d].direction == d
    decreases |serialized|
  {
    if serialized != [] {
      var n := |serialized| - 1;
      RestoreStep(serialized, freshId);
      RestoreStoresUnderDirection(serialized[..n], freshId);
    }
  }

  /** Some item decodes to a window with direction `d`. */
  predicate DirectionListed(serialized: seq<WindowState>, freshId: nat -> string, d: string) {
    exists i :: 0 <= i < |serialized| && Decoded(serialized, freshId, i).direction == d
  }

  /** The directions of a list are those of its front and of its last item. */
  lemma DirectionListedSnoc(serialized: seq<WindowState>, freshId: nat -> string, d: string)
    requires serialized != []
    ensures DirectionListed(serialized, freshId, d) <==>
              DirectionListed(serialized[..|serialized| - 1], freshId, d)
              || Decoded(serialized, freshId, |serialized| - 1).direction == d
  {
    var n := |serialized| - 1;
    if DirectionListed(serialized[..n], freshId, d) {
      var i :| 0 <= i < n && Decoded(serialized[..n], freshId, i).direction == d;
      SameDecoded(serialized, freshId, n, i);
      assert 0 <= i < |serialized| && Decoded(serialized, freshId, i).direction == d;
    }
    if Decoded(serialized, freshId, n).direction == d {
      assert 0 <= n < |serialized| && Decoded(serialized, freshId, n).direction == d;
    }
    if DirectionListed(serialized, freshId, d) && Decoded(serialized, freshId, n).direction != d {
      var i :| 0 <= i < |serialized| && Decoded(serialized, freshId, i).direction == d;
      assert i < n;
      SameDecoded(serialized, freshId, n, i);
      assert 0 <= i < n && Decoded(serialized[..n], freshId, i).direction == d;
    }
  }

  /** The restored keys are exactly the directions of the items. */
  lemma {:induction false} RestoreKeysAreDirections(serialized: seq<WindowState>, freshId: nat -> string)
    requires Restore(serialized, freshId).Returns?
    ensures forall d :: d in Restore(serialized, freshId).value <==> DirectionListed(serialized, freshId, d)
    decreases |serialized|
  {
    if serialized != [] {
      var n := |serialized| - 1;
      RestoreStep(serialized, freshId);
      RestoreKeysAreDirections(serialized[..n], freshId);
      forall d ensures d in Restore(serialized, freshId).value <==> DirectionListed(serialized, freshId, d) {
        DirectionListedSnoc(serialized, freshId, d);
      }
    }
  }

  /** A prefix decodes its items as the whole list does. */
  lemma SameDecoded(serialized: seq<WindowState>, freshId: nat -> string, n: nat, i: nat)
    requires i < n <= |serialized|
    ensures Decoded(serialized[..n], freshId, i) == Decoded(serialized, freshId, i)
  {
    assert serialized[..n][i] == serialized[i];
  }

  /** A later item overwrites an earlier one: the window under a direction is
      the one decoded from the last item carrying that direction. */
  lemma {:induction false} RestoreKeepsLastPerDirection(serialized: seq<WindowState>, freshId: nat -> string, i: nat)
    requires Restore(serialized, freshId).Returns?
    requires i < |serialized|
    requires forall j :: i < j < |serialized| ==>
               Decoded(serialized, freshId, j).direction != Decoded(serialized, freshId, i).direction
    ensures Decoded(serialized, freshId, i).direction in Restore(serialized, freshId).value
    ensures Restore(serialized, freshId).value[Decoded(serialized, freshId, i).direction]
         == Decoded(serialized, freshId, i)
    decreases |serialized|
  {
    var n := |serialized| - 1;
    RestoreStep(serialized, freshId);
    if i < n {
      var front := serialized[..n];
      assert forall j :: 0 <= j < n ==> Decoded(front, freshId, j) == Decoded(serialized, freshId, j);
      RestoreKeepsLastPerDirection(front, freshId, i);
    }
  }

  /** `restore_windows`: a fresh window object per direction, or the
      exception of the first item that fails to decode. */
  method RestoreWindows(serialized: seq<WindowState>, freshId: nat -> string)
    returns (r: Raising<map<string, OpportunityWindow>>)
    ensures r.Returns? <==> Restore(serialized, freshId).Returns?
    ensures r.Returns? ==> r.value.Keys == Restore(serialized, freshId).value.Keys
    ensures r.Returns? ==> forall d :: d in r.value ==>
              fresh(r.value[d]) && r.value[d].Value() == Restore(serialized, freshId).value[d]
  {
    var result: map<string, OpportunityWindow> := map[];
    ghost var values: map<string, Window> := map[];
    var i := 0;
    while i < |serialized|
      invariant 0 <= i <= |serialized|
      invariant Restore(serialized[..i], freshId) == Returns(values)
      invariant result.Keys == values.Keys
      invariant forall d :: d in result ==> fresh(result[d]) && result[d].Value() == values[d]
    {
      assert serialized[..i + 1][..i] == serialized[..i];
      var item := OpportunityWindow.FromStateObject(serialized[i], freshId(i));
      if item.Raises? {
        RestoreRaisesOnPrefix(serialized, freshId, i + 1);
        return Raises;
      }
      result := result[item.value.direction := item.value];
      values := values[item.value.direction := item.value.Value()];
      i := i + 1;
    }
    assert serialized[..i] == serialized;
    return Returns(result);
  }

  /** Once a prefix raises, the whole list raises. */
  lemma {:induction false} RestoreRaisesOnPrefix(serialized: seq<WindowState>, freshId: nat -> string, k: nat)
    requires k <= |serialized|
    requires Restore(serialized[..k], freshId).Raises?
    ensures Restore(serialized, freshId).Raises?
    decreases |serialized| - k
  {
    if k < |serialized| {
      assert serialized[..k + 1][..k] == serialized[..k];
      RestoreRaisesOnPrefix(serialized, freshId, k + 1);
    } else {
      assert serialized[..k] == serialized;
    }
  }
}
