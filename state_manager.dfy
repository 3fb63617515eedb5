// Model of src/utils/state_manager.py: the per-pair window table of
// `WindowManager`, its closing records and its checkpoint file.
// Timestamps are whole seconds, `uuid4` is a caller-supplied fresh id, the
// window log is a ghost sequence of records and the checkpoint file is an
// optional value.

module StateManager {
  import opened JsonValue
  import PyText
  import State
  import PolymarketClient

  /** A spread list as the table holds it: an entry is created with one
      spread and only ever grows. */
  type Spreads = s: seq<real> | s != [] witness [0.0]

  /** One active entry, keyed in the table by its pair name. */
  datatype Entry = Entry(windowId: string, marketPair: string, startTime: int, direction: string, spreads: Spreads)

  /** A row handed to the window log. Records written by `close_window` have
      no `interrupted` key (None); those of an expired checkpoint carry True. */
  datatype WindowRecord = WindowRecord(
    windowId: string,
    marketPair: string,
    startTime: int,
    endTime: int,
    durationSeconds: int,
    peakSpread: real,
    avgSpread: real,
    direction: string,
    observationCount: nat,
    interrupted: Option<bool>)

  /** The checkpoint file: when it was written and the table at that time. */
  datatype Checkpoint = Checkpoint(lastUpdated: int, activeWindows: map<string, Entry>)

  /** The table and the log together. */
  datatype Table = Table(active: map<string, Entry>, log: seq<WindowRecord>)

  /** The record for the entry of `pairName` closed at `endTime`. The peak
      and the average are logged rounded to 4 places; `round(duration, 2)`
      leaves a whole number of seconds as it is. */
  function CloseRecord(pairName: string, e: Entry, endTime: int, interrupted: Option<bool>): WindowRecord {
    WindowRecord(e.windowId, pairName, e.startTime, endTime, endTime - e.startTime,
                 PyText.Round4(PolymarketClient.MaxOf(e.spreads)), PyText.Round4(State.Average(e.spreads)),
                 e.direction, |e.spreads|, interrupted)
  }

  function Min(xs: seq<real>): real
    requires xs != []
  {
    PolymarketClient.MinOf(xs)
  }

  /** A closed record counts every observation. Its peak is one of the
      spreads rounded to 4 places and is at least every rounded spread. Its
      average lies between the rounded smallest spread and the peak, and is
      within half a ten-thousandth of the exact mean. */
  lemma CloseRecordStatistics(pairName: string, e: Entry, endTime: int, interrupted: Option<bool>)
    ensures CloseRecord(pairName, e, endTime, interrupted).observationCount == |e.spreads| >= 1
    ensures exists i :: 0 <= i < |e.spreads| && CloseRecord(pairName, e, endTime, interrupted).peakSpread == PyText.Round4(e.spreads[i])
    ensures forall i :: 0 <= i < |e.spreads| ==> PyText.Round4(e.spreads[i]) <= CloseRecord(pairName, e, endTime, interrupted).peakSpread
    ensures PyText.Round4(Min(e.spreads)) <= CloseRecord(pairName, e, endTime, interrupted).avgSpread
                                         <= CloseRecord(pairName, e, endTime, interrupted).peakSpread
    ensures State.Average(e.spreads) - 0.00005 < CloseRecord(pairName, e, endTime, interrupted).avgSpread
                                              <= State.Average(e.spreads) + 0.00005
    ensures CloseRecord(pairName, e, endTime, interrupted).durationSeconds == endTime - e.startTime
  {
    var lo := PolymarketClient.MinOf(e.spreads);
    var hi := PolymarketClient.MaxOf(e.spreads);
    State.AverageWithinBounds(e.spreads, lo, hi);
    PyText.Round4Monotone(lo, State.Average(e.spreads));
    PyText.Round4Monotone(State.Average(e.spreads), hi);
    var k :| 0 <= k < |e.spreads| && e.spreads[k] == hi;
    forall i | 0 <= i < |e.spreads| ensures PyText.Round4(e.spreads[i]) <= PyText.Round4(hi) {
      PyText.Round4Monotone(e.spreads[i], hi);
    }
  }

  /** `update`: open, extend or close the entry of `pairName`. */
  function UpdateStep(t: Table, pairName: string, spread: real, direction: string, ts: int, freshId: string): Table {
    if spread > 0.0 then
      if pairName !in t.active then
        Table(t.active[pairName := Entry(freshId, pairName, ts, direction, [spread])], t.log)
      else
        var e := t.active[pairName];
        Table(t.active[pairName := e.(spreads := e.spreads + [spread])], t.log)
    else if pairName in t.active then CloseStep(t, pairName, ts)
    else t
  }

  /** `close_window`: pop the entry and log its record; no entry, no change. */
  function CloseStep(t: Table, pairName: string, endTime: int): Table {
    if pairName !in t.active then t
    else Table(t.active - {pairName}, t.log + [CloseRecord(pairName, t.active[pairName], endTime, None)])
  }

  /** A run of positive spreads for one pair, observed at `times`. */
  function UpdateRun(t: Table, pairName: string, run: seq<real>, times: seq<int>, direction: string, freshId: string): Table
    requires |times| == |run|
    decreases |run|
  {
    if run == [] then t
    else
      var n := |run| - 1;
      UpdateStep(UpdateRun(t, pairName, run[..n], times[..n], direction, freshId), pairName, run[n], direction, times[n], freshId)
  }

  predicate AllPositive(run: seq<real>) {
    forall i :: 0 <= i < |run| ==> run[i] > 0.0
  }

  /** While a run of positive spreads lasts, the pair holds one entry that
      started at the first observation, keeps the direction it was opened
      with, and lists every spread of the run; nothing is logged and no other
      pair is touched. */
  lemma {:induction false} RunBuildsOneEntry(t: Table, pairName: string, run: seq<real>, times: seq<int>, direction: string, freshId: string)
    requires pairName !in t.active
    requires |times| == |run| && run != [] && AllPositive(run)
    ensures UpdateRun(t, pairName, run, times, direction, freshId).active
         == t.active[pairName := Entry(freshId, pairName, times[0], direction, run)]
    ensures UpdateRun(t, pairName, run, times, direction, freshId).log == t.log
    decreases |run|
  {
    var n := |run| - 1;
    if n > 0 {
      assert AllPositive(run[..n]) by {
        forall i | 0 <= i < n ensures run[..n][i] > 0.0 { assert run[..n][i] == run[i]; }
      }
      RunBuildsOneEntry(t, pairName, run[..n], times[..n], direction, freshId);
      assert run[..n] + [run[n]] == run;
    } else {
      assert run[..0] == [];
      assert run == [run[0]];
    }
  }

  lemma MaxIsUnique(xs: seq<real>, m: real)
    requires xs != [] && m in xs
    requires forall i :: 0 <= i < |xs| ==> xs[i] <= m
    ensures PolymarketClient.MaxOf(xs) == m
  {
    var mx := PolymarketClient.MaxOf(xs);
    var i :| 0 <= i < |xs| && xs[i] == mx;
    var j :| 0 <= j < |xs| && xs[j] == m;
  }

  /** A run of positive spreads ended by a non-positive one logs exactly one
      record: it counts the run, its peak is the run's maximum and its average
      is the run's mean, and the pair no longer has an entry. */
  lemma RunThenCloseLogsOneRecord(t: Table, pairName: string, run: seq<real>, times: seq<int>, direction: string,
                                  freshId: string, endSpread: real, endTime: int)
    requires pairName !in t.active
    requires |times| == |run| && run != [] && AllPositive(run)
    requires endSpread <= 0.0
    ensures UpdateStep(UpdateRun(t, pairName, run, times, direction, freshId), pairName, endSpread, direction, endTime, freshId)
         == Table(t.active,
                  t.log + [WindowRecord(freshId, pairName, times[0], endTime, endTime - times[0],
                                        PyText.Round4(PolymarketClient.MaxOf(run)), PyText.Round4(State.Average(run)),
                                        direction, |run|, None)])
  {
    RunBuildsOneEntry(t, pairName, run, times, direction, freshId);
    assert t.active[pairName := Entry(freshId, pairName, times[0], direction, run)] - {pairName} == t.active;
  }

  /** The table is keyed by pair name alone: a positive spread for the other
      direction extends the open entry and keeps the direction it opened with. */
  lemma KeyedByPairOnly(t: Table, pairName: string, spread: real, direction: string, ts: int, freshId: string)
    requires pairName in t.active && spread > 0.0 && t.active[pairName].direction != direction
    ensures UpdateStep(t, pairName, spread, direction, ts, freshId).active[pairName].direction
         == t.active[pairName].direction != direction
    ensures UpdateStep(t, pairName, spread, direction, ts, freshId).active[pairName].spreads
         == t.active[pairName].spreads + [spread]
  {
  }

  /** Whether a checkpoint saved at `savedAt` is recent enough at `now`: its
      age in minutes is at most `timeoutMinutes`. */
  predicate IsRecent(savedAt: int, now: int, timeoutMinutes: int) {
    (now - savedAt) as real / 60.0 <= timeoutMinutes as real
  }

  /** The minute rule is the whole-second rule `now - savedAt <= 60 *
      timeoutMinutes`; a checkpoint from the future always counts as recent. */
  lemma IsRecentInSeconds(savedAt: int, now: int, timeoutMinutes: int)
    ensures IsRecent(savedAt, now, timeoutMinutes) <==> now - savedAt <= 60 * timeoutMinutes
    ensures timeoutMinutes >= 0 && now <= savedAt ==> IsRecent(savedAt, now, timeoutMinutes)
  {
    var age := (now - savedAt) as real;
    if age / 60.0 <= timeoutMinutes as real {
      assert age <= 60.0 * timeoutMinutes as real;
    }
    if now - savedAt <= 60 * timeoutMinutes {
      assert age <= (60 * timeoutMinutes) as real;
    }
  }

  /** The interrupted records of an expired checkpoint, in the order `keys`. */
  function StaleRecords(keys: seq<string>, windows: map<string, Entry>, now: int): seq<WindowRecord>
    requires forall i :: 0 <= i < |keys| ==> keys[i] in windows
    decreases |keys|
  {
    if keys == [] then []
    else
      var n := |keys| - 1;
      StaleRecords(keys[..n], windows, now) + [CloseRecord(keys[n], windows[keys[n]], now, Some(true))]
  }

  /** Each key yields one interrupted record of its own entry, ended now. */
  lemma {:induction false} StaleRecordsAreInterrupted(keys: seq<string>, windows: map<string, Entry>, now: int)
    requires forall i :: 0 <= i < |keys| ==> keys[i] in windows
    ensures |StaleRecords(keys, windows, now)| == |keys|
    ensures forall i :: 0 <= i < |keys| ==>
              StaleRecords(keys, windows, now)[i] == CloseRecord(keys[i], windows[keys[i]], now, Some(true))
    decreases |keys|
  {
    if keys != [] {
      var n := |keys| - 1;
      var front := keys[..n];
      StaleRecordsAreInterrupted(front, windows, now);
      var before := StaleRecords(front, windows, now);
      var rows := StaleRecords(keys, windows, now);
      assert rows == before + [CloseRecord(keys[n], windows[keys[n]], now, Some(true))];
      forall i | 0 <= i < |keys| ensures rows[i] == CloseRecord(keys[i], windows[keys[i]], now, Some(true)) {
        if i < n {
          assert rows[i] == before[i] && front[i] == keys[i];
        }
      }
    }
  }

  /** Keys listed once each, covering exactly the map's keys. */
  predicate ListsKeysOnce(keys: seq<string>, windows: map<string, Entry>) {
    (forall i :: 0 <= i < |keys| ==> keys[i] in windows)
    && (forall k :: k in windows ==> k in keys)
    && (forall i, j :: 0 <= i < j < |keys| ==> keys[i] != keys[j])
  }

  /** The interrupted records of every entry of `windows`, in the order
      `order` the keys were visited. */
  method StaleLog(windows: map<string, Entry>, now: int) returns (order: seq<string>, rows: seq<WindowRecord>)
    ensures ListsKeysOnce(order, windows) && rows == StaleRecords(order, windows, now)
  {
    order, rows := [], [];
    var remaining := windows.Keys;
    while remaining != {}
      invariant remaining <= windows.Keys
      invariant forall i :: 0 <= i < |order| ==> order[i] in windows && order[i] !in remaining
      invariant forall k :: k in windows ==> k in remaining || k in order
      invariant forall i, j :: 0 <= i < j < |order| ==> order[i] != order[j]
      invariant rows == StaleRecords(order, windows, now)
      decreases remaining
    {
      var k :| k in remaining;
      assert (order + [k])[..|order|] == order;
      rows := rows + [CloseRecord(k, windows[k], now, Some(true))];
      order := order + [k];
      remaining := remaining - {k};
    }
  }

  /** `WindowManager`: the table, the window log and the checkpoint file. */
  class WindowManager {
    var active: map<string, Entry>
    ghost var log: seq<WindowRecord>
    var checkpointFile: Option<Checkpoint>

    /** A manager over an empty table, with whatever checkpoint file exists. */
    constructor (checkpointFile: Option<Checkpoint>)
      ensures active == map[] && log == [] && this.checkpointFile == checkpointFile
    {
      active := map[];
      log := [];
      this.checkpointFile := checkpointFile;
    }

    ghost function Contents(): Table
      reads this
    {
      Table(active, log)
    }

    /** `update`. */
    method Update(pairName: string, spread: real, direction: string, ts: int, freshId: string)
      modifies this
      ensures Contents() == UpdateStep(old(Contents()), pairName, spread, direction, ts, freshId)
      ensures checkpointFile == old(checkpointFile)
    {
      if spread > 0.0 {
        if pairName !in active {
          active := active[pairName := Entry(freshId, pairName, ts, direction, [spread])];
        } else {
          var e := active[pairName];
          active := active[pairName := e.(spreads := e.spreads + [spread])];
        }
      } else if pairName in active {
        CloseWindow(pairName, ts);
      }
    }

    /** `close_window`. */
    method CloseWindow(pairName: string, endTime: int)
      modifies this
      ensures Contents() == CloseStep(old(Contents()), pairName, endTime)
      ensures checkpointFile == old(checkpointFile)
    {
      if pairName !in active {
        return;
      }
      var e := active[pairName];
      active := active - {pairName};
      log := log + [CloseRecord(pairName, e, endTime, None)];
    }

    /** `save_checkpoint`: the file now holds every active entry and nothing else. */
    method SaveCheckpoint(now: int)
      modifies this
      ensures checkpointFile == Some(Checkpoint(now, active))
      ensures active == old(active) && log == old(log)
    {
      checkpointFile := Some(Checkpoint(now, active));
    }

    /** `load_checkpoint`: with no file nothing happens; a recent checkpoint
        is merged into the table (its entries win) and the file stays; an
        expired one logs an interrupted record per saved entry, in the
        iteration order `order`, and the file is removed. */
    method LoadCheckpoint(now: int, timeoutMinutes: int) returns (ghost order: seq<string>)
      modifies this
      ensures old(checkpointFile).None? ==> active == old(active) && log == old(log) && checkpointFile == None
      ensures old(checkpointFile).Some? && IsRecent(old(checkpointFile).value.lastUpdated, now, timeoutMinutes) ==>
                active == old(active) + old(checkpointFile).value.activeWindows
                && log == old(log) && checkpointFile == old(checkpointFile)
      ensures old(checkpointFile).Some? && !IsRecent(old(checkpointFile).value.lastUpdated, now, timeoutMinutes) ==>
                ListsKeysOnce(order, old(checkpointFile).value.activeWindows)
                && log == old(log) + StaleRecords(order, old(checkpointFile).value.activeWindows, now)
                && active == old(active) && checkpointFile == None
    {
      order := [];
      if checkpointFile.None? {
        return;
      }
      var saved := checkpointFile.value;
      if IsRecent(saved.lastUpdated, now, timeoutMinutes) {
        active := active + saved.activeWindows;
        return;
      }
      var rows;
      order, rows := StaleLog(saved.activeWindows, now);
      log := log + rows;
      checkpointFile := None;
    }
  }
}
