// Model of src/monitor_windows.py: `OpportunityWindowManager`, the tracker of
// open arbitrage windows that the monitor drives, its window log and its
// checkpoint file. Timestamps are whole seconds (the ISO text is abstracted),
// the clock is a `now` parameter, and the hash-and-clock window id is supplied
// by the caller. The window log is a ghost sequence of rows; the checkpoint
// file is an optional value.

module MonitorWindows {
  import opened JsonValue
  import opened PyText
  import State
  import PolymarketClient

  const K_TO_P := "K_to_P"
  const P_TO_K := "P_to_K"
  /** How old a checkpoint may be, in either direction, and still be resumed. */
  const RECOVERY_WINDOW_SECONDS := 300
  const DEFAULT_CHECKPOINT_INTERVAL_SECONDS := 300

  /** A live window. The six identifying fields are always present; the three
      statistics may be missing from a window reinstated from a checkpoint,
      and the source then raises KeyError as soon as it needs one. */
  datatype Window = Window(
    windowId: string,
    pairKey: string,
    marketPair: string,
    direction: string,
    startTime: int,
    lastTime: int,
    peakSpread: Option<real>,
    sumSpread: Option<real>,
    observationCount: Option<int>)

  predicate Complete(w: Window) {
    w.peakSpread.Some? && w.sumSpread.Some? && w.observationCount.Some?
  }

  /** A window as the checkpoint file holds it, one optional value per key. */
  datatype SavedWindow = SavedWindow(
    windowId: Option<string>,
    pairKey: Option<string>,
    marketPair: Option<string>,
    direction: Option<string>,
    startTime: Option<int>,
    lastTime: Option<int>,
    peakSpread: Option<real>,
    sumSpread: Option<real>,
    observationCount: Option<int>)

  /** The decoded checkpoint: `last_updated` (None when missing or falsy) and
      `active_windows` (None when not a list; a missing key reads as []). */
  datatype Snapshot = Snapshot(lastUpdated: Option<int>, activeWindows: Option<seq<SavedWindow>>)

  /** The checkpoint file: text that does not decode to such an object makes
      the whole recovery a no-op. */
  datatype StateFile = Unreadable | Saved(snapshot: Snapshot)

  /** A row of the window log. */
  datatype WindowRow = WindowRow(
    windowId: string,
    marketPair: string,
    startTime: int,
    endTime: int,
    durationSeconds: int,
    peakSpread: real,
    avgSpread: real,
    direction: string,
    observationCount: int,
    interrupted: bool)

  /** `_window_key`. */
  function WindowKey(pairKey: string, direction: string): string {
    pairKey + "::" + direction
  }

  /** The two directions of one pair are separate windows. */
  lemma DirectionsHaveSeparateKeys(pairKey: string)
    ensures WindowKey(pairKey, K_TO_P) != WindowKey(pairKey, P_TO_K)
  {
    var a, b := WindowKey(pairKey, K_TO_P), WindowKey(pairKey, P_TO_K);
    assert a[|pairKey| + 2] == 'K' && b[|pairKey| + 2] == 'P';
  }

  /** Over the two directions the monitor uses, a key names exactly one
      (pair key, direction): both directions are six characters long, so the
      suffix fixes the direction and the rest fixes the pair key. */
  lemma WindowKeyIdentifiesWindow(p1: string, d1: string, p2: string, d2: string)
    requires d1 == K_TO_P || d1 == P_TO_K
    requires d2 == K_TO_P || d2 == P_TO_K
    ensures WindowKey(p1, d1) == WindowKey(p2, d2) <==> p1 == p2 && d1 == d2
  {
    var k1, k2 := WindowKey(p1, d1), WindowKey(p2, d2);
    if k1 == k2 {
      assert |p1| == |p2|;
      assert p1 == k1[..|p1|] && p2 == k2[..|p2|];
      assert d1 == k1[|p1| + 2..] && d2 == k2[|p2| + 2..];
    }
  }

  /** For other direction strings the key is ambiguous: "::" may sit inside
      the pair key or inside the direction. */
  lemma WindowKeyAmbiguousForOtherDirections()
    ensures WindowKey("a::b", "c") == WindowKey("a", "b::c")
  {
  }

  /** `_dir_label`: every direction except "K_to_P" is labelled "P→K". */
  function DirLabel(direction: string): (text: string)
    ensures text == "K→P" <==> direction == K_TO_P
    ensures text == "P→K" <==> direction != K_TO_P
  {
    if direction == K_TO_P then "K→P" else "P→K"
  }

  /** `_new_window`: one observation, with the first spread as both peak and
      running sum, starting and last seen at `start`. */
  function NewWindow(pairKey: string, direction: string, marketLabel: string, start: int, firstSpread: real, windowId: string)
    : (w: Window)
    ensures Complete(w) && w.observationCount == Some(1)
    ensures w.peakSpread == w.sumSpread == Some(firstSpread)
    ensures w.startTime == w.lastTime == start
    ensures WindowKey(w.pairKey, w.direction) == WindowKey(pairKey, direction)
  {
    Window(windowId, pairKey, marketLabel, direction, start, start, Some(firstSpread), Some(firstSpread), Some(1))
  }

  /** The in-place updates of `open_or_update` on an existing window, and
      whether a KeyError escaped part-way (the updates before it stay). */
  function Extend(w: Window, spread: real, now: int): (Window, bool) {
    var w1 := w.(lastTime := now);
    if w1.observationCount.None? then (w1, true)
    else
      var w2 := w1.(observationCount := Some(w1.observationCount.value + 1));
      if w2.sumSpread.None? then (w2, true)
      else
        var w3 := w2.(sumSpread := Some(w2.sumSpread.value + spread));
        if w3.peakSpread.None? then (w3, true)
        else if spread > w3.peakSpread.value then (w3.(peakSpread := Some(spread)), false)
        else (w3, false)
  }

  /** On a complete window, an update counts one more observation, adds the
      spread to the sum, raises the peak to the spread when it is larger, and
      moves the last-seen time; nothing else changes and nothing raises. */
  lemma ExtendCompleteWindow(w: Window, spread: real, now: int)
    requires Complete(w)
    ensures !Extend(w, spread, now).1 && Complete(Extend(w, spread, now).0)
    ensures Extend(w, spread, now).0
         == w.(lastTime := now,
               observationCount := Some(w.observationCount.value + 1),
               sumSpread := Some(w.sumSpread.value + spread),
               peakSpread := Some(State.Max(w.peakSpread.value, spread)))
  {
  }

  /** `open_or_update` on the window table: the new table and whether it raised. */
  function OpenOrUpdateStep(ws: map<string, Window>, pairKey: string, direction: string, marketLabel: string,
                            spread: real, now: int, windowId: string): (map<string, Window>, bool)
  {
    var wk := WindowKey(pairKey, direction);
    if wk !in ws then (ws[wk := NewWindow(pairKey, direction, marketLabel, now, spread, windowId)], false)
    else
      var e := Extend(ws[wk], spread, now);
      (ws[wk := e.0], e.1)
  }

  /** The row `close_if_open` logs for `w` at `endTime`, or None when a
      statistic is missing and the source raises KeyError instead. */
  function CloseRow(w: Window, endTime: int, interrupted: bool): (r: Option<WindowRow>)
    ensures r.Some? <==> Complete(w)
    ensures r.Some? ==> r.value.durationSeconds >= 0 && r.value.interrupted == interrupted
    ensures r.Some? ==> r.value.durationSeconds >= endTime - w.startTime
                        && (r.value.durationSeconds == 0 || r.value.durationSeconds == endTime - w.startTime)
    ensures r.Some? ==> r.value.peakSpread == w.peakSpread.value
                        && r.value.observationCount == w.observationCount.value
    ensures r.Some? ==> var n := w.observationCount.value;
      r.value.avgSpread * (if n > 1 then n else 1) as real == w.sumSpread.value
  {
    if !Complete(w) then None
    else
      var n := w.observationCount.value;
      var d := (if n > 1 then n else 1) as real;
      assert w.sumSpread.value / d * d == w.sumSpread.value;
      Some(WindowRow(w.windowId, w.marketPair, w.startTime, endTime,
                     if endTime - w.startTime > 0 then endTime - w.startTime else 0,
                     w.peakSpread.value, w.sumSpread.value / (if n > 1 then n else 1) as real,
                     DirLabel(w.direction), n, interrupted))
  }

  /** The table and log after `close_if_open`, and whether it raised. The
      window is popped before anything can raise. */
  function CloseStep(ws: map<string, Window>, history: seq<WindowRow>, pairKey: string, direction: string,
                     endTime: int, interrupted: bool): (map<string, Window>, seq<WindowRow>, bool)
  {
    var wk := WindowKey(pairKey, direction);
    if wk !in ws then (ws, history, false)
    else
      match CloseRow(ws[wk], endTime, interrupted)
      case None => (ws - {wk}, history, true)
      case Some(row) => (ws - {wk}, history + [row], false)
  }

  /** Every window is stored under the key of its own pair key and direction. */
  predicate KeysConsistent(ws: map<string, Window>) {
    forall k :: k in ws ==> k == WindowKey(ws[k].pairKey, ws[k].direction)
  }

  /** Opening, updating and closing keep every window under its own key. */
  lemma StepsKeepKeysConsistent(ws: map<string, Window>, history: seq<WindowRow>, pairKey: string, direction: string,
                                marketLabel: string, spread: real, now: int, windowId: string, interrupted: bool)
    requires KeysConsistent(ws)
    ensures KeysConsistent(OpenOrUpdateStep(ws, pairKey, direction, marketLabel, spread, now, windowId).0)
    ensures KeysConsistent(CloseStep(ws, history, pairKey, direction, now, interrupted).0)
  {
  }

  /** A run of positive spreads for one (pair key, direction), observed at `times`. */
  function OpenRun(ws: map<string, Window>, pairKey: string, direction: string, marketLabel: string,
                   run: seq<real>, times: seq<int>, windowId: string): map<string, Window>
    requires |times| == |run|
    decreases |run|
  {
    if run == [] then ws
    else
      var n := |run| - 1;
      OpenOrUpdateStep(OpenRun(ws, pairKey, direction, marketLabel, run[..n], times[..n], windowId),
                       pairKey, direction, marketLabel, run[n], times[n], windowId).0
  }

  /** The window a run of spreads builds on a free key. */
  function RunWindow(pairKey: string, direction: string, marketLabel: string, run: seq<real>, times: seq<int>,
                     windowId: string): Window
    requires |times| == |run| && run != []
  {
    Window(windowId, pairKey, marketLabel, direction, times[0], times[|run| - 1],
           Some(PolymarketClient.MaxOf(run)), Some(State.Sum(run)), Some(|run|))
  }

  /** One more positive observation extends the run's window. */
  lemma RunWindowStep(pairKey: string, direction: string, marketLabel: string, run: seq<real>, times: seq<int>,
                      windowId: string)
    requires |times| == |run| && |run| >= 2
    ensures Extend(RunWindow(pairKey, direction, marketLabel, run[..|run| - 1], times[..|run| - 1], windowId),
                   run[|run| - 1], times[|run| - 1])
         == (RunWindow(pairKey, direction, marketLabel, run, times, windowId), false)
  {
    var n := |run| - 1;
    var front := run[..n];
    var w := RunWindow(pairKey, direction, marketLabel, front, times[..n], windowId);
    ExtendCompleteWindow(w, run[n], times[n]);
    MaxOfSnoc(front, run[n]);
    assert front + [run[n]] == run;
    assert run[..n] == front;
    assert State.Sum(run) == State.Sum(front) + run[n];
    assert times[..n][0] == times[0];
    var w2 := RunWindow(pairKey, direction, marketLabel, run, times, windowId);
    assert w.(lastTime := times[n],
              observationCount := Some(n + 1),
              sumSpread := Some(State.Sum(front) + run[n]),
              peakSpread := Some(State.Max(PolymarketClient.MaxOf(front), run[n]))) == w2;
  }

  /** A run opened on a free key builds one complete window: it started at
      the first observation, was last seen at the last one, counts the run,
      sums it and holds its maximum as peak; no other key changes. */
  lemma {:induction false} OpenRunBuildsWindow(ws: map<string, Window>, pairKey: string, direction: string, marketLabel: string,
                                               run: seq<real>, times: seq<int>, windowId: string)
    requires WindowKey(pairKey, direction) !in ws
    requires |times| == |run| && run != []
    ensures OpenRun(ws, pairKey, direction, marketLabel, run, times, windowId)
         == ws[WindowKey(pairKey, direction) := RunWindow(pairKey, direction, marketLabel, run, times, windowId)]
    decreases |run|
  {
    var n := |run| - 1;
    var wk := WindowKey(pairKey, direction);
    if n == 0 {
      assert run == [run[0]];
      MaxOfSingleton(run[0]);
      assert State.Sum(run) == State.Sum(run[..0]) + run[0];
      assert run[..0] == [] && times[..0] == [];
    } else {
      OpenRunBuildsWindow(ws, pairKey, direction, marketLabel, run[..n], times[..n], windowId);
      RunWindowStep(pairKey, direction, marketLabel, run, times, windowId);
      var before := ws[wk := RunWindow(pairKey, direction, marketLabel, run[..n], times[..n], windowId)];
      assert before[wk := RunWindow(pairKey, direction, marketLabel, run, times, windowId)]
          == ws[wk := RunWindow(pairKey, direction, marketLabel, run, times, windowId)];
    }
  }

  lemma MaxOfSingleton(x: real)
    ensures PolymarketClient.MaxOf([x]) == x
  {
  }

  /** The maximum of a list with one more element. */
  lemma MaxOfSnoc(xs: seq<real>, x: real)
    requires xs != []
    ensures PolymarketClient.MaxOf(xs + [x]) == State.Max(PolymarketClient.MaxOf(xs), x)
  {
    var ys := xs + [x];
    var m := State.Max(PolymarketClient.MaxOf(xs), x);
    var mx := PolymarketClient.MaxOf(ys);
    assert forall i :: 0 <= i < |xs| ==> ys[i] == xs[i];
    assert ys[|xs|] == x;
    var i :| 0 <= i < |ys| && ys[i] == mx;
    if m == x {
      assert mx >= ys[|xs|];
    } else {
      var j :| 0 <= j < |xs| && xs[j] == PolymarketClient.MaxOf(xs);
      assert mx >= ys[j];
    }
  }

  /** Opening a window with a run of positive spreads and closing it logs
      exactly one row: it counts the run, its peak is the run's largest
      spread, its average is the run's mean and its duration is never
      negative; the key is free again. */
  lemma RunThenCloseLogsOneRow(ws: map<string, Window>, history: seq<WindowRow>, pairKey: string, direction: string,
                               marketLabel: string, run: seq<real>, times: seq<int>, windowId: string,
                               endTime: int, interrupted: bool)
    requires WindowKey(pairKey, direction) !in ws
    requires |times| == |run| && run != []
    ensures CloseStep(OpenRun(ws, pairKey, direction, marketLabel, run, times, windowId), history, pairKey, direction,
                      endTime, interrupted)
         == (ws, history + [WindowRow(windowId, marketLabel, times[0], endTime,
                                       if endTime - times[0] > 0 then endTime - times[0] else 0,
                                       PolymarketClient.MaxOf(run), State.Average(run), DirLabel(direction),
                                       |run|, interrupted)], false)
  {
    OpenRunBuildsWindow(ws, pairKey, direction, marketLabel, run, times, windowId);
    var wk := WindowKey(pairKey, direction);
    var w := RunWindow(pairKey, direction, marketLabel, run, times, windowId);
    var row := WindowRow(windowId, marketLabel, times[0], endTime,
                         if endTime - times[0] > 0 then endTime - times[0] else 0,
                         PolymarketClient.MaxOf(run), State.Average(run), DirLabel(direction),
                         |run|, interrupted);
    assert CloseRow(w, endTime, interrupted) == Some(row) by {
      assert (if |run| > 1 then |run| else 1) == |run|;
      assert State.Average(run) == State.Sum(run) / |run| as real;
    }
    assert CloseStep(ws[wk := w], history, pairKey, direction, endTime, interrupted)
        == (ws[wk := w] - {wk}, history + [row], false);
    assert ws[wk := w] - {wk} == ws;
  }

  /** Whether a saved window has the six keys a resumed window needs. */
  predicate Reinstatable(sw: SavedWindow) {
    sw.windowId.Some? && sw.marketPair.Some? && sw.direction.Some?
    && sw.startTime.Some? && sw.lastTime.Some? && sw.pairKey.Some?
  }

  function Decode(sw: SavedWindow): Window
    requires Reinstatable(sw)
  {
    Window(sw.windowId.value, sw.pairKey.value, sw.marketPair.value, sw.direction.value,
           sw.startTime.value, sw.lastTime.value, sw.peakSpread, sw.sumSpread, sw.observationCount)
  }

  /** A window as `maybe_checkpoint` writes it. */
  function Encode(w: Window): (sw: SavedWindow)
    ensures Reinstatable(sw) && Decode(sw) == w
  {
    SavedWindow(Some(w.windowId), Some(w.pairKey), Some(w.marketPair), Some(w.direction),
                Some(w.startTime), Some(w.lastTime), w.peakSpread, w.sumSpread, w.observationCount)
  }

  function SavedKey(sw: SavedWindow): string
    requires Reinstatable(sw)
  {
    WindowKey(sw.pairKey.value, sw.direction.value)
  }

  /** The resumed table: each saved window with the six keys, in order,
      under its own key, so a later one replaces an earlier one. */
  function Reinstate(saved: seq<SavedWindow>): map<string, Window>
    decreases |saved|
  {
    if saved == [] then map[]
    else
      var n := |saved| - 1;
      var m := Reinstate(saved[..n]);
      if Reinstatable(saved[n]) then m[SavedKey(saved[n]) := Decode(saved[n])] else m
  }

  /** The resumed table is keyed consistently, its keys are exactly those of
      the reinstatable saved windows, and each key holds a saved window of
      that key. */
  lemma {:induction false} ReinstateIsExact(saved: seq<SavedWindow>)
    ensures KeysConsistent(Reinstate(saved))
    ensures forall k :: k in Reinstate(saved) <==>
              exists i :: 0 <= i < |saved| && Reinstatable(saved[i]) && SavedKey(saved[i]) == k
    ensures forall k :: k in Reinstate(saved) ==>
              exists i :: 0 <= i < |saved| && Reinstatable(saved[i]) && Reinstate(saved)[k] == Decode(saved[i])
    decreases |saved|
  {
    if saved != [] {
      var n := |saved| - 1;
      ReinstateIsExact(saved[..n]);
      assert forall i :: 0 <= i < n ==> saved[..n][i] == saved[i];
    }
  }

  /** `saved` lists the encodings of exactly the windows of `ws`. */
  predicate ListsWindows(saved: seq<SavedWindow>, ws: map<string, Window>) {
    (forall i :: 0 <= i < |saved| ==> IsSavedFrom(saved[i], ws))
    && (forall k :: k in ws ==> Encode(ws[k]) in saved)
  }

  /** `sw` is the encoding of some window of `ws`. */
  predicate IsSavedFrom(sw: SavedWindow, ws: map<string, Window>) {
    exists k :: k in ws && sw == Encode(ws[k])
  }

  /** Resuming a checkpoint gives back the very table it was written from,
      whatever order the windows were listed in. */
  lemma CheckpointRoundTrip(saved: seq<SavedWindow>, ws: map<string, Window>)
    requires KeysConsistent(ws) && ListsWindows(saved, ws)
    ensures Reinstate(saved) == ws
  {
    ReinstateCoversTable(saved, ws);
    ReinstateWithinTable(saved, ws);
    assert Reinstate(saved).Keys == ws.Keys;
  }

  /** Every window of the table is resumed under its own key. */
  lemma ReinstateCoversTable(saved: seq<SavedWindow>, ws: map<string, Window>)
    requires KeysConsistent(ws) && ListsWindows(saved, ws)
    ensures forall k :: k in ws ==> k in Reinstate(saved) && Reinstate(saved)[k] == ws[k]
  {
    ReinstateIsExact(saved);
    var r := Reinstate(saved);
    forall k | k in ws ensures k in r && r[k] == ws[k] {
      var i :| 0 <= i < |saved| && saved[i] == Encode(ws[k]);
      assert SavedKey(saved[i]) == k;
      var j :| 0 <= j < |saved| && Reinstatable(saved[j]) && r[k] == Decode(saved[j]);
      ListedWindowIsUnderItsKey(saved[j], ws);
    }
  }

  /** Nothing but the table's keys is resumed. */
  lemma ReinstateWithinTable(saved: seq<SavedWindow>, ws: map<string, Window>)
    requires KeysConsistent(ws) && ListsWindows(saved, ws)
    ensures forall k :: k in Reinstate(saved) ==> k in ws
  {
    ReinstateIsExact(saved);
    forall k | k in Reinstate(saved) ensures k in ws {
      var i :| 0 <= i < |saved| && Reinstatable(saved[i]) && SavedKey(saved[i]) == k;
      ListedWindowIsUnderItsKey(saved[i], ws);
    }
  }

  lemma ListedWindowIsUnderItsKey(sw: SavedWindow, ws: map<string, Window>)
    requires KeysConsistent(ws) && IsSavedFrom(sw, ws)
    ensures Reinstatable(sw) && SavedKey(sw) in ws && Decode(sw) == ws[SavedKey(sw)]
  {
    var k :| k in ws && sw == Encode(ws[k]);
  }

  /** The row an expired checkpoint logs for a saved window, or None when it
      has no start time (the KeyError is caught and the window skipped).
      Missing values take the defaults of the recovery loop. */
  function ForcedRow(sw: SavedWindow, now: int): Option<WindowRow> {
    if sw.startTime.None? then None
    else
      var start := sw.startTime.value;
      Some(WindowRow(
        OrElse(sw.windowId, "forced-" + IntToString(now)),
        OrElse(sw.marketPair, "Unknown"),
        start, now, if now - start > 0 then now - start else 0,
        OrElse(sw.peakSpread, 0.0),
        OrElse(sw.sumSpread, 0.0) / (var n := OrElse(sw.observationCount, 1); if n > 1 then n else 1) as real,
        DirLabel(OrElse(sw.direction, K_TO_P)),
        OrElse(sw.observationCount, 1),
        true))
  }

  /** The rows an expired checkpoint logs, in list order. */
  function ForcedRows(saved: seq<SavedWindow>, now: int): seq<WindowRow>
    decreases |saved|
  {
    if saved == [] then []
    else
      var n := |saved| - 1;
      var row := ForcedRow(saved[n], now);
      ForcedRows(saved[..n], now) + (if row.Some? then [row.value] else [])
  }

  /** A saved window that could have been resumed is logged exactly as
      `close_if_open` would have logged it, as interrupted at `now`. */
  lemma ForcedRowMatchesClose(sw: SavedWindow, now: int)
    requires Reinstatable(sw) && Complete(Decode(sw))
    ensures ForcedRow(sw, now) == CloseRow(Decode(sw), now, true)
  {
  }

  /** Every logged row of an expired checkpoint is interrupted and has a
      non-negative duration, and there is one per saved window with a start
      time. */
  lemma {:induction false} ForcedRowsAreInterrupted(saved: seq<SavedWindow>, now: int)
    ensures |ForcedRows(saved, now)| == |set i | 0 <= i < |saved| && saved[i].startTime.Some?|
    ensures forall r :: r in ForcedRows(saved, now) ==> r.interrupted && r.durationSeconds >= 0 && r.endTime == now
    decreases |saved|
  {
    if saved != [] {
      var n := |saved| - 1;
      ForcedRowsAreInterrupted(saved[..n], now);
      var before := set i | 0 <= i < n && saved[..n][i].startTime.Some?;
      var after := set i | 0 <= i < |saved| && saved[i].startTime.Some?;
      assert before == set i | 0 <= i < n && saved[i].startTime.Some?;
      if saved[n].startTime.Some? {
        assert after == before + {n};
      } else {
        assert after == before;
      }
    }
  }

  /** Whether a checkpoint saved at `savedAt` is resumed at `now`. */
  predicate IsResumable(savedAt: int, now: int) {
    (if now - savedAt < 0 then savedAt - now else now - savedAt) <= RECOVERY_WINDOW_SECONDS
  }

  /** `list(active_windows.values())`, encoded, in some order. */
  method ListSaved(ws: map<string, Window>) returns (saved: seq<SavedWindow>)
    ensures ListsWindows(saved, ws)
  {
    var remaining := ws.Keys;
    saved := [];
    ghost var keys: seq<string> := [];
    while remaining != {}
      invariant remaining <= ws.Keys
      invariant |keys| == |saved|
      invariant forall i :: 0 <= i < |saved| ==> keys[i] in ws && saved[i] == Encode(ws[keys[i]])
      invariant forall k :: k in ws ==> k in remaining || k in keys
      decreases remaining
    {
      var k :| k in remaining;
      saved := saved + [Encode(ws[k])];
      keys := keys + [k];
      remaining := remaining - {k};
    }
    forall i | 0 <= i < |saved| ensures IsSavedFrom(saved[i], ws) {
      assert keys[i] in ws && saved[i] == Encode(ws[keys[i]]);
    }
    forall k | k in ws ensures Encode(ws[k]) in saved {
      var i :| 0 <= i < |keys| && keys[i] == k;
      assert saved[i] == Encode(ws[k]);
    }
  }

  /** `OpportunityWindowManager`. */
  class OpportunityWindowManager {
    var activeWindows: map<string, Window>
    var lastCheckpointTs: int
    const checkpointIntervalSec: int
    ghost var history: seq<WindowRow>
    var stateFile: Option<StateFile>

    /** An empty manager over the existing window log and checkpoint file. */
    constructor (checkpointIntervalSec: int, history: seq<WindowRow>, stateFile: Option<StateFile>)
      ensures activeWindows == map[] && lastCheckpointTs == 0
      ensures this.checkpointIntervalSec == checkpointIntervalSec
      ensures this.history == history && this.stateFile == stateFile
    {
      activeWindows := map[];
      lastCheckpointTs := 0;
      this.checkpointIntervalSec := checkpointIntervalSec;
      this.history := history;
      this.stateFile := stateFile;
    }

    /** `open_or_update`. */
    method OpenOrUpdate(pairKey: string, direction: string, marketLabel: string, spread: real, now: int, windowId: string)
      returns (raised: bool)
      modifies this
      ensures (activeWindows, raised)
           == OpenOrUpdateStep(old(activeWindows), pairKey, direction, marketLabel, spread, now, windowId)
      ensures WindowKey(pairKey, direction) !in old(activeWindows) ==>
                activeWindows == old(activeWindows)[WindowKey(pairKey, direction)
                                   := NewWindow(pairKey, direction, marketLabel, now, spread, windowId)]
      ensures WindowKey(pairKey, direction) in old(activeWindows) && Complete(old(activeWindows)[WindowKey(pairKey, direction)]) ==>
                !raised && activeWindows.Keys == old(activeWindows).Keys
                && (var w := old(activeWindows)[WindowKey(pairKey, direction)];
                    activeWindows[WindowKey(pairKey, direction)]
                    == w.(lastTime := now,
                          observationCount := Some(w.observationCount.value + 1),
                          sumSpread := Some(w.sumSpread.value + spread),
                          peakSpread := Some(State.Max(w.peakSpread.value, spread))))
      ensures forall k :: k in old(activeWindows) && k != WindowKey(pairKey, direction) ==>
                k in activeWindows && activeWindows[k] == old(activeWindows)[k]
      ensures history == old(history) && stateFile == old(stateFile) && lastCheckpointTs == old(lastCheckpointTs)
    {
      var wk := WindowKey(pairKey, direction);
      if wk !in activeWindows {
        activeWindows := activeWindows[wk := NewWindow(pairKey, direction, marketLabel, now, spread, windowId)];
        return false;
      }
      var w := activeWindows[wk];
      if Complete(w) {
        ExtendCompleteWindow(w, spread, now);
      }
      w := w.(lastTime := now);
      raised := true;
      if w.observationCount.Some? {
        w := w.(observationCount := Some(w.observationCount.value + 1));
        if w.sumSpread.Some? {
          w := w.(sumSpread := Some(w.sumSpread.value + spread));
          if w.peakSpread.Some? {
            raised := false;
            if spread > w.peakSpread.value {
              w := w.(peakSpread := Some(spread));
            }
          }
        }
      }
      activeWindows := activeWindows[wk := w];
    }

    /** `close_if_open`: with no open window nothing happens; otherwise the
        window is removed and exactly one row is logged, unless a statistic
        is missing and the call raises. */
    method CloseIfOpen(pairKey: string, direction: string, endTime: int, interrupted: bool) returns (raised: bool)
      modifies this
      ensures (activeWindows, history, raised)
           == CloseStep(old(activeWindows), old(history), pairKey, direction, endTime, interrupted)
      ensures WindowKey(pairKey, direction) !in old(activeWindows) ==>
                activeWindows == old(activeWindows) && history == old(history) && !raised
      ensures WindowKey(pairKey, direction) in old(activeWindows) ==>
                activeWindows == old(activeWindows) - {WindowKey(pairKey, direction)}
                && (Complete(old(activeWindows)[WindowKey(pairKey, direction)]) ==>
                      !raised && |history| == |old(history)| + 1 && history[..|old(history)|] == old(history))
      ensures stateFile == old(stateFile) && lastCheckpointTs == old(lastCheckpointTs)
    {
      var wk := WindowKey(pairKey, direction);
      if wk !in activeWindows {
        return false;
      }
      var w := activeWindows[wk];
      activeWindows := activeWindows - {wk};
      var row := CloseRow(w, endTime, interrupted);
      if row.None? {
        return true;
      }
      history := history + [row.value];
      assert history[..|old(history)|] == old(history);
      return false;
    }

    /** `maybe_checkpoint`: unless the interval has not yet passed since the
        last checkpoint, write every open window (in some order) with `now`
        as the save time, and remember `now`. */
    method MaybeCheckpoint(now: int)
      modifies this
      ensures now - old(lastCheckpointTs) < checkpointIntervalSec ==>
                stateFile == old(stateFile) && lastCheckpointTs == old(lastCheckpointTs)
      ensures now - old(lastCheckpointTs) >= checkpointIntervalSec ==>
                lastCheckpointTs == now
                && stateFile.Some? && stateFile.value.Saved?
                && stateFile.value.snapshot.lastUpdated == Some(now)
                && stateFile.value.snapshot.activeWindows.Some?
                && ListsWindows(stateFile.value.snapshot.activeWindows.value, activeWindows)
      ensures activeWindows == old(activeWindows) && history == old(history)
    {
      if now - lastCheckpointTs < checkpointIntervalSec {
        return;
      }
      var saved := ListSaved(activeWindows);
      stateFile := Some(Saved(Snapshot(Some(now), Some(saved))));
      lastCheckpointTs := now;
    }

    /** `load_or_recover`. With no file, an unreadable one, a missing
        `last_updated` or a non-list `active_windows` nothing changes. A
        checkpoint at most 300 s away from `now` replaces the table by its
        reinstatable windows and stays on disk; an older one logs a forced,
        interrupted row per saved window with a start time, adds no window,
        and is deleted. */
    method LoadOrRecover(now: int)
      modifies this
      ensures var f := old(stateFile);
              (f.None? || f.value.Unreadable? || f.value.snapshot.lastUpdated.None?
               || f.value.snapshot.activeWindows.None?) ==>
                activeWindows == old(activeWindows) && history == old(history) && stateFile == f
      ensures var f := old(stateFile);
              (f.Some? && f.value.Saved? && f.value.snapshot.lastUpdated.Some? && f.value.snapshot.activeWindows.Some?
               && IsResumable(f.value.snapshot.lastUpdated.value, now)) ==>
                activeWindows == Reinstate(f.value.snapshot.activeWindows.value)
                && history == old(history) && stateFile == f
      ensures var f := old(stateFile);
              (f.Some? && f.value.Saved? && f.value.snapshot.lastUpdated.Some? && f.value.snapshot.activeWindows.Some?
               && !IsResumable(f.value.snapshot.lastUpdated.value, now)) ==>
                activeWindows == old(activeWindows)
                && history == old(history) + ForcedRows(f.value.snapshot.activeWindows.value, now)
                && stateFile == None
      ensures lastCheckpointTs == old(lastCheckpointTs)
    {
      if stateFile.None? || stateFile.value.Unreadable? {
        return;
      }
      var snapshot := stateFile.value.snapshot;
      if snapshot.lastUpdated.None? || snapshot.activeWindows.None? {
        return;
      }
      var saved := snapshot.activeWindows.value;
      if IsResumable(snapshot.lastUpdated.value, now) {
        var table: map<string, Window> := map[];
        var i := 0;
        while i < |saved|
          invariant 0 <= i <= |saved|
          invariant table == Reinstate(saved[..i])
        {
          assert saved[..i + 1][..i] == saved[..i];
          var w := saved[i];
          if Reinstatable(w) {
            table := table[WindowKey(w.pairKey.value, w.direction.value) := Decode(w)];
          }
          i := i + 1;
        }
        assert saved[..i] == saved;
        activeWindows := table;
        return;
      }
      var i := 0;
      while i < |saved|
        invariant 0 <= i <= |saved|
        invariant history == old(history) + ForcedRows(saved[..i], now)
        invariant activeWindows == old(activeWindows) && stateFile == old(stateFile)
        invariant lastCheckpointTs == old(lastCheckpointTs)
      {
        assert saved[..i + 1][..i] == saved[..i];
        var row := ForcedRow(saved[i], now);
        if row.Some? {
          history := history + [row.value];
        }
        i := i + 1;
      }
      assert saved[..i] == saved;
      stateFile := None;
    }
  }
}
