# Polymarket / Kalshi arbitrage monitor — a Dafny model

This project models the decision logic of a monitor that compares prices for
the same event on Polymarket and on Kalshi. For each configured market pair it:

- fetches both venues' markets;
- finds the pair's market on each venue, by id and then by normalised title;
- computes the net spread of the two cross-venue trades after Kalshi fees,
  the Polymarket bid/ask gap and gas;
- tracks "opportunity windows" that open while a spread is positive and close
  when it is not;
- checkpoints the open windows so that a restart either resumes them or
  force-closes them as interrupted.

Around this sit other parts, all modelled here:

- Per-venue rate-limit back-off controllers.
- A failure counter per data source.
- The polling-interval adjustment.
- The JSON configuration validator.
- The Excel-to-config generator: ticker extraction, greedy title matching and
  config merging.
- The single-market quote clients.
- Two older window state machines (`state.py` and
  `utils/state_manager.py`).

The model works on values that have already been received: HTTP responses,
decoded JSON and the current time are inputs.

- Python's JSON values are a `Json` datatype (`json.dfy`), with Python
  truthiness and `isinstance(x, (int, float))` stated as predicates.
- The `str` operations used are in `pytext.dfy`.
- Time is an integer number of seconds.
- Prices, fees and spreads are `real`.
- A call that can raise returns `Raising<T>` (`Returns(v)` or `Raises`).
- Every CSV or JSON file the source writes is modelled as a ghost log (a
  sequence of rows) or as an optional snapshot value.

Where the source mutates objects (the window managers, the back-off state,
the failure tracker, `MarketRuntimeState`), the model is a `class` whose
methods are proved against value-level step functions. The lemmas about those
functions carry the properties.

The back-off controllers and the Kalshi 429 branch follow the code as
written. The corrected versions described under "## Findings" are separate
functions (`BaseClient.RateLimitStep`, `KalshiClient.On429`), each with its
own lemmas.

Modules, one per source file:

| module | file |
|---|---|
| `Monitor` | src/monitor.py |
| `MonitorWindows` | src/monitor_windows.py |
| `State` | src/state.py |
| `StateManager` | src/utils/state_manager.py |
| `BaseClient` | src/utils/base_client.py |
| `KalshiClient` | src/utils/kalshi_client.py |
| `PolymarketClient` | src/utils/polymarket_client.py |
| `Fees` | src/utils/fees.py |
| `Spreads` | src/utils/spreads.py |
| `ConfigLoader` | src/utils/config_loader.py |
| `ExcelConfig` | src/read_excel_config2.py |
| `Clients` | src/clients.py |
| `Models` | src/models.py |
| support: `JsonValue`, `PyText` | — |

## Model

| member | source | states |
|---|---|---|
| Monitor.FailureCountsStayBelowThreshold | src/monitor.py:117-132 | A failure keeps every counter in [0, threshold-1]. The alert fires exactly when the count reaches the threshold, and the counter is then reset to 0. Other keys are untouched. |
| Monitor.FailureRunCycles | src/monitor.py:117-135 | From no counter (as after a success), n failures leave the counter at n mod threshold. The alert fires exactly on every threshold-th failure. |
| Monitor.FailureStep | src/monitor.py:117-132 | Models `record_failure` on values. Its properties are in `FailureCountsStayBelowThreshold` and `FailureRunCycles`. |
| Monitor.FailureTracker.constructor | src/monitor.py:113-115 | A tracker with the given threshold and no counters. |
| Monitor.FailureTracker.RecordFailure | src/monitor.py:117-132 | The new counters and the alert flag are one failure step from the old counters. |
| Monitor.FailureTracker.RecordSuccess | src/monitor.py:134-135 | The key's counter is removed, and nothing else changes. |
| Monitor.NormalizeText | src/monitor.py:141-144 | The normalised title has no leading, trailing or doubled spaces. |
| Monitor.NormalizeTitle | src/monitor.py:138-144 | A falsy title gives "". A truthy non-string raises. A string gives a single-spaced result. |
| Monitor.NormalizeTextNotIdempotent | src/monitor.py:142-144 | Normalising "a  °" gives "a °", which normalises again to "a°". |
| Monitor.FirstWhere | src/monitor.py:329-341 | Returns the first element whose test is true, scanning in order. It returns nothing exactly when every test is false, and raises only if some test raises. |
| Monitor.FindMarket | src/monitor.py:317-342 | An empty target id gives none. Otherwise the result is the first market whose raw (or else top-level) id matches case-insensitively. Failing that, it is the first market whose normalised title equals a non-empty normalised fallback. |
| Monitor.FeeComponent | src/monitor.py:256 | `round(2*kalshi_fee(bid), 4)` is exactly twice the Kalshi fee. |
| Monitor.DoubleCentsRoundExactly | src/monitor.py:256 | Twice a whole number of cents is unchanged by rounding to 4 places. |
| PyText.Round4 | src/utils/state_manager.py:58-59 | `round(x, 4)`, rounding halves up. The result is a whole number of ten-thousandths within 0.00005 of x. |
| PyText.Round4Monotone | src/utils/state_manager.py:58-59 | Rounding to 4 places preserves order. |
| Monitor.NetSpreadsOf | src/monitor.py:256-260 | Models the cost and the two net spreads of `_evaluate_pair`. Its properties are in `NetSpreadsAreSwappedCalcSpreads` and `FeeComponent`. |
| Monitor.NetSpreadsAreSwappedCalcSpreads | src/monitor.py:256-260 | The monitor's buy-K-sell-P spread is `poly_bid - kalshi_ask - cost`, and buy-P-sell-K is `kalshi_bid - poly_ask - cost`, with cost = gas + 2 Kalshi fees. These are `calc_spreads` with the two directions swapped. |
| Monitor.PairKey | src/monitor.py:275 | Models the monitor's pair key. `WindowKeyIdentifiesWindow` is what keeps its two directions apart. |
| Monitor.DriveDirection | src/monitor.py:278-288 | Models one direction of the window driving. Its property is `DriveDirectionOpensIffPositive`. |
| Monitor.DriveWindows | src/monitor.py:275-288 | Models both directions, K-to-P first. Its property is `DriveWindowsPerDirection`. |
| Monitor.DriveDirectionOpensIffPositive | src/monitor.py:278-288 | One direction: a positive spread opens or extends that direction's window and logs nothing. A non-positive one closes it, logging one row if it was open. Other keys are untouched. |
| Monitor.DriveWindowsPerDirection | src/monitor.py:275-288 | Both directions are driven, K-to-P first, on separate keys. The second sees the first's table and log. |
| Monitor.EvaluateWithoutQuotes | src/monitor.py:231-235 | An empty fetch from either venue reports FAILED with no signal and no window change. |
| Monitor.EvaluateOpensIffPositive | src/monitor.py:250-315 | Once both markets are found, the status is OPEN iff some spread is positive, and a signal is returned exactly then. The row carries both quotes and both spreads. |
| Monitor.Evaluate | src/monitor.py:227-315 | Models `_evaluate_pair` on values. Its properties are in `EvaluateWithoutQuotes` and `EvaluateOpensIffPositive`. |
| Monitor.AdjustIntervalCases | src/monitor.py:399-409 | Returns `(max(base, ceil(1.5*current)), True)` exactly when extension is requested and the interval is not already extended. Returns `(base, False)` when extended and the retry count is 0. Otherwise returns the input unchanged. |
| Monitor.ExtensionLengthens | src/monitor.py:400-403 | An extension from a positive interval is strictly longer. |
| Monitor.AdjustInterval | src/monitor.py:399-409 | Models `_maybe_adjust_interval`. Its properties are in `AdjustIntervalCases` and `ExtensionLengthens`. |
| Monitor.ShouldStopInSeconds | src/monitor.py:199-202 | The stop test (elapsed hours ≥ duration) is elapsed seconds ≥ 3600 × duration. |
| Monitor.ShouldStop | src/monitor.py:199-202 | Models the stop test of `run`. `ShouldStopInSeconds` states it in whole seconds. |
| Monitor.ArbitrageMonitor.constructor | src/monitor.py:157-167 | An empty window manager with the 300 s checkpoint interval, and a failure tracker with threshold 3 and no counters. |
| Monitor.ArbitrageMonitor.EvaluatePair | src/monitor.py:227-315 | The outcome, window table and log are those of the value-level evaluation. The tracker records a failure on an empty fetch and a success otherwise. |
| MonitorWindows.DirectionsHaveSeparateKeys | src/monitor_windows.py:102-103 | The K-to-P and P-to-K windows of one pair have different keys. |
| MonitorWindows.WindowKey | src/monitor_windows.py:102-103 | Models `_window_key`. Its properties are in `DirectionsHaveSeparateKeys`, `WindowKeyIdentifiesWindow` and `WindowKeyAmbiguousForOtherDirections`. |
| MonitorWindows.WindowKeyIdentifiesWindow | src/monitor_windows.py:102-103 | Over the two directions, equal keys mean the same pair key and direction. |
| MonitorWindows.WindowKeyAmbiguousForOtherDirections | src/monitor_windows.py:102-103 | For direction strings containing "::", two different (pair, direction) pairs share a key. |
| MonitorWindows.DirLabel | src/monitor_windows.py:98-100 | "K→P" exactly for "K_to_P"; every other direction is "P→K". |
| MonitorWindows.NewWindow | src/monitor_windows.py:106-119 | One observation: peak = sum = first spread, start = last = now, and the key is that of its pair key and direction. |
| MonitorWindows.ExtendCompleteWindow | src/monitor_windows.py:128-133 | The count goes up by one and the spread is added to the sum. The peak becomes the maximum of the old peak and the spread, and the last time becomes now. |
| MonitorWindows.Extend | src/monitor_windows.py:128-133 | Models the in-place update of an existing window. `ExtendCompleteWindow` states its effect on a complete window. |
| MonitorWindows.OpenOrUpdateStep | src/monitor_windows.py:121-133 | Models `open_or_update` on the table. Its properties are in `NewWindow`, `ExtendCompleteWindow`, `StepsKeepKeysConsistent` and `OpenRunBuildsWindow`. |
| MonitorWindows.CloseStep | src/monitor_windows.py:135-157 | Models `close_if_open` on the table and log. Its properties are in `CloseRow`, `StepsKeepKeysConsistent` and `RunThenCloseLogsOneRow`. |
| MonitorWindows.CloseRow | src/monitor_windows.py:140-156 | A row exists exactly for a complete window. It carries the given interrupted flag and the window's peak and count. Its duration is max(0, end − start), and its average times max(1, count) is the window's sum. |
| MonitorWindows.StepsKeepKeysConsistent | src/monitor_windows.py:121-157 | Opening, updating and closing keep every window under the key of its own pair key and direction. |
| MonitorWindows.RunWindowStep | src/monitor_windows.py:128-133 | One more positive observation extends a run's window. |
| MonitorWindows.OpenRunBuildsWindow | src/monitor_windows.py:121-133 | A run of positive spreads on a free key builds one complete window. Its count is the run length, its sum is the run's sum and its peak is the run's maximum; start is the first time and last is the final time. |
| MonitorWindows.MaxOfSnoc | src/monitor_windows.py:132-133 | The running peak is the maximum of the list. |
| MonitorWindows.RunThenCloseLogsOneRow | src/monitor_windows.py:121-157 | Opening with a run of positive spreads and then closing removes the key. It appends exactly one row, built from that run. |
| MonitorWindows.Encode | src/monitor_windows.py:180-183 | Every window as the checkpoint writes it has the six required keys and decodes back to itself. |
| MonitorWindows.Decode | src/monitor_windows.py:205-211 | Models a resumed window read back from its saved record. `Encode` states the round trip. |
| MonitorWindows.Reinstate | src/monitor_windows.py:205-211 | Models the resume loop. Its properties are in `ReinstateIsExact`, `CheckpointRoundTrip`, `ReinstateCoversTable` and `ReinstateWithinTable`. |
| MonitorWindows.ReinstateIsExact | src/monitor_windows.py:205-211 | Resuming keeps exactly the saved windows with all six keys, each under its own key. A later duplicate key wins. |
| MonitorWindows.CheckpointRoundTrip | src/monitor_windows.py:176-211 | Resuming a checkpoint written from a table gives back that table. |
| MonitorWindows.ReinstateCoversTable | src/monitor_windows.py:176-211 | Every window of the table the checkpoint was written from is resumed under its own key. |
| MonitorWindows.ReinstateWithinTable | src/monitor_windows.py:176-211 | Resuming adds no key the table did not have. |
| MonitorWindows.ListedWindowIsUnderItsKey | src/monitor_windows.py:182 | A listed window is the table's window under its own key. |
| MonitorWindows.ForcedRowMatchesClose | src/monitor_windows.py:216-236 | A resumable saved window is force-logged exactly as closing it with interrupted = true would log it. |
| MonitorWindows.ForcedRow | src/monitor_windows.py:216-236 | Models one iteration of the forced-close loop. `ForcedRowMatchesClose` ties it to `close_if_open`. |
| MonitorWindows.ForcedRows | src/monitor_windows.py:213-242 | Models the forced-close loop. Its property is `ForcedRowsAreInterrupted`. |
| MonitorWindows.IsResumable | src/monitor_windows.py:200-205 | Models the resume test `abs(now − last_updated) <= 300`. `LoadOrRecover` uses it. |
| MonitorWindows.ForcedRowsAreInterrupted | src/monitor_windows.py:213-242 | An expired checkpoint logs one row per saved window that has a start time. Every row is interrupted, ends now and has a duration of at least 0. |
| MonitorWindows.ListSaved | src/monitor_windows.py:182 | The saved list holds exactly the encodings of the table's windows. |
| MonitorWindows.OpportunityWindowManager.constructor | src/monitor_windows.py:85-88 | No windows, a checkpoint timestamp of 0, and the given interval. |
| MonitorWindows.OpportunityWindowManager.OpenOrUpdate | src/monitor_windows.py:121-133 | An absent key gets a new window. An existing complete window is extended. Other keys, the log and the state file are unchanged. |
| MonitorWindows.OpportunityWindowManager.CloseIfOpen | src/monitor_windows.py:135-157 | With no window nothing changes. Otherwise the key is removed and one row is logged, or the call raises on an incomplete window. |
| MonitorWindows.OpportunityWindowManager.MaybeCheckpoint | src/monitor_windows.py:176-186 | Writes the file and sets the timestamp to now exactly when the interval has passed. Otherwise nothing changes. |
| MonitorWindows.OpportunityWindowManager.LoadOrRecover | src/monitor_windows.py:188-244 | With no file, an undecodable one, a falsy `last_updated` or a non-list, nothing changes. A checkpoint at most 300 s away reinstates exactly the well-formed windows. An older one logs the forced rows and deletes the file. |
| State.UpdatesAccumulate | src/state.py:25-30 | After any run of updates, the count grew by the number of observations and the spreads were appended. The peak is at least the old peak and every observation; the id and start are kept. |
| State.Updated | src/state.py:25-30 | Models `update` on values. Its property is `UpdatesAccumulate`; `OpportunityWindow.Update` is proved against it. |
| State.SumBounds | src/state.py:36 | The sum of values in [lo, hi] lies between n·lo and n·hi. |
| State.AverageWithinBounds | src/state.py:32-36 | The average is 0.0 for no spreads. Otherwise it lies within any bounds of the spreads. |
| State.Average | src/state.py:32-36 | Models `avg_spread`. Its property is `AverageWithinBounds`. |
| State.FloatsRoundTrip | src/state.py:62-79 | Converting the JSON list of floats back gives the spreads. |
| State.SpreadsOfCases | src/state.py:79 | A list gives its floats, and an empty object gives no spreads, as iterating its keys would. Null, booleans and numbers raise. |
| State.ToState | src/state.py:54-65 | Models `to_state`. `FromStateInvertsToState` states the round trip. |
| State.FromState | src/state.py:67-82 | A decoded window has a non-empty id unless the fresh id is empty. |
| State.FromStateInvertsToState | src/state.py:54-82 | `from_state(to_state(w))` is w, except that an empty id is replaced by the fresh one. |
| State.FromStateDefaults | src/state.py:68-81 | A missing required key raises. Missing optional keys default to 0, [], 0.0, false and a fresh id. |
| State.OpportunityWindow.constructor | src/state.py:14-23 | No observations, an empty spread list, a 0.0 peak, and not interrupted. |
| State.OpportunityWindow.Update | src/state.py:25-30 | The count goes up by one and the spread is appended. The peak becomes max(old peak, spread), and the last update becomes the timestamp. |
| State.OpportunityWindow.FromStateObject | src/state.py:67-82 | A fresh window holding the decoded value, or the exception. |
| State.StatusFollowsFailureRun | src/state.py:96-106 | The failure counter is the run of failures since the last success. The status is ERROR iff that run is at least 3, and the last error and time are those of the last event. |
| State.Mark | src/state.py:96-106 | Models `mark_failure` and `mark_success` on values. Its property is `StatusFollowsFailureRun`. |
| State.MarketRuntimeState.constructor | src/state.py:86-94 | Zero failures, MONITORING, no error and no windows. |
| State.MarketRuntimeState.MarkFailure | src/state.py:96-100 | Failures go up by one, and the status is ERROR iff they are at least 3. The message and time are recorded, and the windows are kept. |
| State.MarketRuntimeState.MarkSuccess | src/state.py:102-106 | The count becomes 0, the status MONITORING and there is no error. The time is recorded. |
| State.MarketRuntimeState.ActivateWindow | src/state.py:108-116 | A fresh empty window replaces any window for the direction. |
| State.MarketRuntimeState.DeactivateWindow | src/state.py:118-119 | Removes and returns the direction's window. If there is none, returns None and nothing changes. |
| State.RestoreStep | src/state.py:124-126 | One more item stores its window under its direction on top of the prefix's map. |
| State.Restore | src/state.py:122-127 | Models `restore_windows` on values. Its properties are in `RestoreKeyedByDirection`, `RestoreKeepsLastPerDirection` and `RestoreRaisesOnPrefix`. |
| State.RestoreDecodesEveryItem | src/state.py:124-125 | A list that restores decodes every item. |
| State.RestoreKeyedByDirection | src/state.py:122-127 | Each restored window sits under its own direction, and the keys are exactly the items' directions. |
| State.RestoreStoresUnderDirection | src/state.py:126 | Each restored window sits under its own direction. |
| State.DirectionListedSnoc | src/state.py:124-126 | The directions of a list are those of its front and of its last item. |
| State.RestoreKeysAreDirections | src/state.py:122-127 | The restored keys are exactly the decoded items' directions. |
| State.SameDecoded | src/state.py:124-125 | A prefix decodes its items as the whole list does. |
| State.RestoreKeepsLastPerDirection | src/state.py:124-126 | The window under a direction is that of the last item with that direction. |
| State.RestoreWindows | src/state.py:122-127 | Fresh window objects with the keys and values of the value-level restore, or the exception. |
| State.RestoreRaisesOnPrefix | src/state.py:124-125 | An item that raises makes the whole restore raise. |
| StateManager.CloseRecordStatistics | src/utils/state_manager.py:47-62 | The count is the number of spreads. The peak is one of the spreads rounded to 4 places, and no rounded spread exceeds it. The average lies between the rounded minimum and the peak, within 0.00005 of the exact mean. The duration is end − start. |
| StateManager.CloseRecord | src/utils/state_manager.py:47-62 | Models the record `close_window` logs. Its property is `CloseRecordStatistics`. |
| StateManager.UpdateStep | src/utils/state_manager.py:12-35 | Models `update` on the table and log. Its properties are in `RunBuildsOneEntry`, `KeyedByPairOnly` and `RunThenCloseLogsOneRecord`. |
| StateManager.CloseStep | src/utils/state_manager.py:37-64 | Models `close_window` on the table and log. `RunThenCloseLogsOneRecord` states its effect. |
| StateManager.RunBuildsOneEntry | src/utils/state_manager.py:18-32 | While a run of positive spreads lasts, the pair holds one entry. It keeps the first direction and start, and its spreads are the run; the log is unchanged. |
| StateManager.MaxIsUnique | src/utils/state_manager.py:50 | The maximum is the member that bounds all members. |
| StateManager.RunThenCloseLogsOneRecord | src/utils/state_manager.py:33-64 | A run ended by a non-positive spread removes the pair and logs exactly one record of that run, with its maximum and mean rounded to 4 places. |
| StateManager.KeyedByPairOnly | src/utils/state_manager.py:18-32 | A positive spread in the other direction extends the pair's entry but keeps its direction and start. |
| StateManager.IsRecentInSeconds | src/utils/state_manager.py:98-102 | The minute rule is `now − saved ≤ 60·timeout` in seconds, and a checkpoint from the future is always recent. |
| StateManager.IsRecent | src/utils/state_manager.py:98-102 | Models the minute rule of `load_checkpoint`. `IsRecentInSeconds` states it in seconds. |
| StateManager.StaleRecordsAreInterrupted | src/utils/state_manager.py:110-124 | Each listed key yields one interrupted record of its own entry, ended now. |
| StateManager.StaleRecords | src/utils/state_manager.py:110-124 | Models the records of the expired-checkpoint loop. Its property is `StaleRecordsAreInterrupted`. |
| StateManager.StaleLog | src/utils/state_manager.py:110-124 | The keys once each, with the records of an expired checkpoint in that order. |
| StateManager.WindowManager.constructor | src/utils/state_manager.py:8-10 | An empty table and log over the existing file. |
| StateManager.WindowManager.Update | src/utils/state_manager.py:12-35 | Table and log after one open, extend or close step. |
| StateManager.WindowManager.CloseWindow | src/utils/state_manager.py:37-64 | Pops the entry and logs its record, with the peak and mean rounded to 4 places. With no entry, nothing changes. |
| StateManager.WindowManager.SaveCheckpoint | src/utils/state_manager.py:66-82 | The file holds every active entry and nothing else, stamped now. |
| StateManager.WindowManager.LoadCheckpoint | src/utils/state_manager.py:84-126 | With no file, nothing changes. A recent file adds its entries to the table. An expired one logs each entry as an interrupted record, with the peak and mean rounded to 4 places, and removes the file. |
| BaseClient.WaitFor | src/utils/base_client.py:22 | The wait table: 30, 60, then 120 s. |
| BaseClient.RateLimitStepAsWritten | src/utils/base_client.py:13-27 | The code's controller, branch by branch. A first hit gives count 1, anchored now, and a wait of 30. A hit less than 1800 s after the anchor adds 1 to the count. A later hit sets the count to 1 and waits 30. An existing anchor is never moved, and the wait is 30, 60 or 120 as the new count says. |
| BaseClient.RateLimitStep | src/utils/base_client.py:13-27 | The corrected controller, where a reset re-anchors at the hit. The wait is 30, 60 or 120 and matches the new count, and an anchor is set. |
| BaseClient.RateLimitStepCases | src/utils/base_client.py:16-25 | Corrected controller: a first hit sets the count to 1 at now and waits 30. A hit within 1800 s increments the count. A later hit restarts the count at 1, anchored at now. |
| BaseClient.Replay | src/utils/base_client.py:13-27 | The corrected controller over a list of hits: one wait per hit. |
| BaseClient.ReplayAsWritten | src/utils/base_client.py:13-27 | The code's controller over a list of hits: one wait per hit. |
| BaseClient.BurstEscalates | src/utils/base_client.py:20-22 | Corrected controller: inside one window, the i-th further hit counts c+i+1 and waits accordingly. |
| BaseClient.FirstBurstWaits | src/utils/base_client.py:16-22 | Corrected controller: from a fresh client, hits within 30 minutes wait 30, 60, then 120. |
| BaseClient.BurstAfterResetEscalates | src/utils/base_client.py:23-25 | Corrected controller: a hit 1800 s or more after the anchor re-anchors at itself, so a second hit within 1800 s of it counts 2 and waits 60. |
| BaseClient.AsWrittenAgreesWithinWindow | src/utils/base_client.py:16-22 | While every hit falls less than 1800 s after the anchor, the code's controller and the corrected one give the same counts and waits. |
| BaseClient.AsWrittenFirstBurstWaits | src/utils/base_client.py:16-25 | As written, hits from a fresh client that fall within 1800 s of the first one wait 30, 60, then 120 for every later hit, and n hits leave the count at n. |
| BaseClient.AsWrittenNeverEscalatesAgain | src/utils/base_client.py:23-25 | As written, once a hit falls 1800 s after the anchor, every later hit waits 30. |
| BaseClient.StaleAnchorCounterexample | src/utils/base_client.py:23-25 | Hits at 100, 1900 and 1901 s wait 30, 30, 30 as written, but 30, 30, 60 when re-anchored. |
| BaseClient.ValidateTimestamp | src/utils/base_client.py:29-35 | Accepts iff \|now − ts\| ≤ 10 and returns ts unchanged. |
| BaseClient.ApiClient.constructor | src/utils/base_client.py:6-11 | Zero retries and no anchor. |
| BaseClient.ApiClient.HandleRateLimit | src/utils/base_client.py:13-27 | The state and wait after one hit are one step of the code's controller, so a reset sets the count to 1 and keeps the old anchor. |
| Fees.Ceil | src/utils/fees.py:4 | `math.ceil`: the least integer not below x. |
| Fees.KalshiFee | src/utils/fees.py:3-4 | Models `kalshi_fee`. Its properties are in `KalshiFeeWholeCents`, `KalshiFeeBounds` and `KalshiFeeSymmetric`. |
| Fees.KalshiFeeWholeCents | src/utils/fees.py:3-4 | The fee is a whole number of cents. |
| Fees.KalshiFeeBounds | src/utils/fees.py:3-4 | On [0, 1] the fee is between 0 and 0.02. It is at least 0.01 strictly inside and 0 at both ends. |
| Fees.KalshiFeeSymmetric | src/utils/fees.py:4 | fee(p) = fee(1 − p). |
| Fees.TotalCost | src/utils/fees.py:6-8 | Models `total_cost`. Its property is `TotalCostAtLeastGas`. |
| Spreads.CalcSpreads | src/utils/spreads.py:1-4 | Models `calc_spreads`. Its properties are in `SpreadsAreBidMinusAskMinusCost`, `CostShiftsBothSpreads` and `AtMostOneDirectionPositive`. |
| Fees.TotalCostAtLeastGas | src/utils/fees.py:6-8 | With an uncrossed Polymarket book and gas ≥ 0, the cost is at least 2·gas ≥ 0. |
| Spreads.SpreadsAreBidMinusAskMinusCost | src/utils/spreads.py:1-4 | K-to-P = kalshi bid − poly ask − cost; P-to-K = poly bid − kalshi ask − cost. |
| Spreads.CostShiftsBothSpreads | src/utils/spreads.py:2-3 | Raising the cost by d lowers both spreads by exactly d. |
| Spreads.AtMostOneDirectionPositive | src/utils/spreads.py:2-3 | With uncrossed books and cost ≥ 0, the spreads sum to at most −2·cost, so at most one is positive. |
| KalshiClient.ToFloat | src/utils/kalshi_client.py:81-87 | Missing, null or boolean values give the default; numbers give their value. |
| KalshiClient.CleanTitle | src/utils/kalshi_client.py:92 | The cleaned title has no `$` and no outer whitespace. |
| KalshiClient.ReplaceRemovesChar | src/utils/kalshi_client.py:92 | Removing a character leaves none of it. |
| KalshiClient.PickTitleSkips | src/utils/kalshi_client.py:89-94 | Keys before the first candidate are skipped. |
| KalshiClient.PickTitleIsFirstCandidate | src/utils/kalshi_client.py:89-94 | The title comes from the first key holding a non-blank string, cleaned, and is "Unknown" with none. |
| KalshiClient.PickTitle | src/utils/kalshi_client.py:89-94 | Models `pick_title`. Its properties are in `PickTitleSkips` and `PickTitleIsFirstCandidate`. |
| KalshiClient.ParseMarket | src/utils/kalshi_client.py:80-107 | Kept iff 0 ≤ bid ≤ ask ≤ 1, with bid defaulting to 0.0 and ask to 1.0. |
| KalshiClient.MissingPricesDefaultToFullRange | src/utils/kalshi_client.py:96-97 | A market with neither price is kept as bid 0, ask 1. |
| KalshiClient.ParseMarketList | src/utils/kalshi_client.py:45-48 | It fails exactly when some entry is not an object. Otherwise it returns exactly the markets `_parse_market` keeps, in input order, and all of them are valid. |
| KalshiClient.KeptIsExactlyParsed | src/utils/kalshi_client.py:47 | Every market `_parse_market` keeps is in the list, and every listed market is one it kept. |
| KalshiClient.ParseEventPayload | src/utils/kalshi_client.py:46-47 | A body that is a truthy non-object, or a `markets` value that is not a list, gives no result. A list fails exactly when some entry is not an object, and otherwise gives the markets `_parse_market` keeps, in order. |
| KalshiClient.RegisterRetry | src/utils/kalshi_client.py:75-77 | The count goes up by one and the last retry time becomes now. |
| KalshiClient.On429 | src/utils/kalshi_client.py:39-43 | The corrected 429 branch, each hit counted once. The last retry is now, and the wait is 30, 60 or 120. |
| KalshiClient.On429AsWritten | src/utils/kalshi_client.py:39-43 | The code's 429 branch: `_register_retry` and then the base step. A first-ever hit counts 1 and waits 30. A hit within the window adds 2 to the count, and the wait follows the count. A later hit counts 1, waits 30 and keeps the anchor. The last retry is now. |
| KalshiClient.Fetch | src/utils/kalshi_client.py:30-64 | Models `fetch_event_markets` on a received response. Its properties are in `FetchOutcomes`. |
| KalshiClient.FetchOutcomes | src/utils/kalshi_client.py:30-64 | A transport error registers a retry and returns nothing, with no wait. A 429 takes the code's 429 step and returns nothing with its wait. Any other 4xx or 5xx, a missing body, or a payload that does not parse registers a retry and returns nothing. A parsed payload resets the count and returns exactly its valid markets. |
| KalshiClient.FirstRateLimitHit | src/utils/kalshi_client.py:39-43 | A first-ever 429 leaves the count at 1 and waits 30. |
| KalshiClient.Replay429 | src/utils/kalshi_client.py:39-43 | The corrected 429 branch over a list of hits: one wait per hit. |
| KalshiClient.Replay429AsWritten | src/utils/kalshi_client.py:39-43 | The code's 429 branch over a list of hits: one wait per hit. |
| KalshiClient.BurstCountsEachHitOnce | src/utils/kalshi_client.py:39-43 | Corrected 429 branch: within one window, n hits add n to the count. |
| KalshiClient.AsWrittenBurstCountsTwice | src/utils/kalshi_client.py:39-43 | The code's 429 branch: within one window, n hits add 2n to the count, and the last retry is the last hit. |
| KalshiClient.ExtendsFromFifthHit | src/utils/kalshi_client.py:66-70 | Corrected 429 branch: from a fresh client, a burst of 429s suggests extension iff there were at least 5. |
| KalshiClient.AsWrittenExtendsFromThirdHit | src/utils/kalshi_client.py:66-70 | The code's 429 branch: from a fresh client, a burst of n hits leaves the count at 2n − 1, so extension is suggested iff n ≥ 3. |
| KalshiClient.ShouldExtend | src/utils/kalshi_client.py:66-70 | Models `should_extend_interval`. Its properties are in `ExtendsFromFifthHit` and `AsWrittenExtendsFromThirdHit`. |
| KalshiClient.DoubleCountCounterexample | src/utils/kalshi_client.py:39-43 | As written, the second of two 429s counts 3 and waits 120. Counted once, it counts 2 and waits 60. |
| KalshiClient.AsWrittenExtendsAfterThreeHits | src/utils/kalshi_client.py:66-70 | As written, three 429s already suggest extension. |
| KalshiClient.KalshiClient.constructor | src/utils/kalshi_client.py:24-28 | Zero retries, no anchor and no last retry. |
| KalshiClient.KalshiClient.RegisterRetryNow | src/utils/kalshi_client.py:75-77 | The state after `_register_retry`. |
| KalshiClient.KalshiClient.FetchEventMarkets | src/utils/kalshi_client.py:30-64 | The state, markets and wait are those of the value-level fetch. A 429 runs `_register_retry` and then the base back-off, as the code does. |
| PolymarketClient.MinOf | src/utils/polymarket_client.py:47 | The least member. |
| PolymarketClient.MaxOf | src/utils/polymarket_client.py:48 | The greatest member. |
| PolymarketClient.ParseValues | src/utils/polymarket_client.py:44-46 | At most one value per part. |
| PolymarketClient.OutcomeRange | src/utils/polymarket_client.py:41-50 | The minimum does not exceed the maximum. |
| PolymarketClient.Title | src/utils/polymarket_client.py:35 | The first truthy of groupItemTitle, question and slug, else `str(id)`. |
| PolymarketClient.OutcomeText | src/utils/polymarket_client.py:42 | "" for falsy values and the stripped string for strings; anything else raises. |
| PolymarketClient.Convert | src/utils/polymarket_client.py:52-69 | A missing price skips, a kept market is valid and carries its title and raw record, and nothing raises. |
| PolymarketClient.NormaliseMarket | src/utils/polymarket_client.py:34-69 | A non-object raises. A kept market is valid, with its raw record and title. |
| PolymarketClient.ListedPricesUsed | src/utils/polymarket_client.py:36-69 | Both listed prices present and convertible are used as they are. |
| PolymarketClient.OutcomePricesFallback | src/utils/polymarket_client.py:41-50 | A missing price with at least two outcome prices uses their minimum and maximum. |
| PolymarketClient.FallbackRange | src/utils/polymarket_client.py:46-48 | The fallback range is the minimum and maximum of the parsed values. |
| PolymarketClient.FallbackPrices | src/utils/polymarket_client.py:41-50 | The fallback's bid is the minimum and its ask is the maximum. |
| PolymarketClient.PricesConverted | src/utils/polymarket_client.py:55-69 | Converted prices are kept iff they are valid. |
| PolymarketClient.MissingPriceSkipped | src/utils/polymarket_client.py:52-53 | A missing price without a usable fallback is skipped. |
| PolymarketClient.Steps | src/utils/polymarket_client.py:34 | One verdict per market, in order. |
| PolymarketClient.Collect | src/utils/polymarket_client.py:34-69 | Fails exactly when some iteration raises. Otherwise it returns exactly the markets the iterations keep, in order. |
| PolymarketClient.KeptAllIsExactlyKept | src/utils/polymarket_client.py:64-69 | Every market an iteration keeps is in the result, and every market in it was kept by some iteration. |
| PolymarketClient.CollectKeepsStepMarkets | src/utils/polymarket_client.py:64-69 | Every collected market was kept by its step, and the output is a subsequence of the input. |
| PolymarketClient.NormaliseAll | src/utils/polymarket_client.py:34-69 | Fails exactly when some iteration raises. Otherwise it returns exactly the markets the loop body keeps, in input order. |
| PolymarketClient.NormaliseAllKeepsEveryValidMarket | src/utils/polymarket_client.py:34-69 | When no iteration raises, every market the loop body keeps is returned, and every returned market was kept by the loop body. |
| PolymarketClient.Raws | src/utils/polymarket_client.py:67 | The raw records, in order. |
| PolymarketClient.NormaliseAllValidInOrder | src/utils/polymarket_client.py:34-69 | Every returned market is valid, and the output is a subsequence of the input in order. |
| PolymarketClient.ParseEventPayload | src/utils/polymarket_client.py:31-69 | A body that is not an object, or a `markets` value that is not a list, gives no result. A list (`[]` when `markets` is falsy) gives the loop's result over it. Every returned market is valid. |
| PolymarketClient.Fetch | src/utils/polymarket_client.py:22-85 | A 429 takes one step of the code's back-off and returns nothing, with the wait. Any other status keeps the state. A transport error or a 4xx/5xx status gives the empty list. Any other status returns the parsed payload's markets, or the empty list when the body is missing or the parsing raises. |
| PolymarketClient.NonObjectMarketEmptiesFetch | src/utils/polymarket_client.py:54-85 | One non-object market makes the whole fetch return nothing. |
| PolymarketClient.NormaliseMarkets | src/utils/polymarket_client.py:34-69 | A forward loop, first market first, computes the normalised list. It fails as soon as one market raises. |
| PolymarketClient.PolymarketClient.constructor | src/utils/polymarket_client.py:19-20 | A fresh back-off state. |
| PolymarketClient.PolymarketClient.FetchEventMarkets | src/utils/polymarket_client.py:22-85 | The state, markets and wait are those of the value-level fetch, whose 429 branch is the code's back-off step. |
| Clients.IsoText | src/clients.py:16-17 | A trailing Z becomes +00:00; other text is unchanged. |
| Clients.IsoTextNormalised | src/clients.py:16-17 | The rewritten text never ends in Z, and rewriting is idempotent. |
| Clients.ParseIsoTimestamp | src/clients.py:10-20 | Falsy input gives none. A string is rewritten and parsed. A non-string raises. |
| Clients.FirstPrice | src/clients.py:122-130 | Gives none for a non-list. |
| Clients.FirstPriceSkips | src/clients.py:126-129 | Entries without a numeric price are skipped. |
| Clients.FirstPriceIsFirstNumeric | src/clients.py:122-130 | The price of the first entry with a numeric price; none with no such entry. |
| Clients.FirstNumericPairSkips | src/clients.py:104-107 | Pairs without two numbers are skipped. |
| Clients.FirstNumericPairIsFirst | src/clients.py:104-109 | The prices of the first key pair whose two values are numeric; none with no such pair. |
| Clients.QuoteWith | src/clients.py:108-109 | No prices give no quote, and a quote carries the prices. |
| Clients.PolyExtractQuote | src/clients.py:95-120 | A numeric key pair wins, in Polymarket's priority order. |
| Clients.PolyNoQuoteWithoutPrices | src/clients.py:111-120 | Without a numeric pair and without order books, there is no quote. |
| Clients.PolyBookFallback | src/clients.py:111-118 | A yes book gives the first prices of its two sides. |
| Clients.KalshiExtractQuote | src/clients.py:182-204 | A numeric key pair wins, in Kalshi's order. Without one and without an order-book object, there is no quote. |
| Clients.Finish | src/clients.py:84-93 | ok iff there is a quote iff there is no error, with status 200 and the raw body. |
| Clients.PolyGetQuote | src/clients.py:58-93 | ok only with a quote, status 200 and a decoded body. Transport and empty-response failures come first. |
| Clients.KalshiGetQuote | src/clients.py:136-180 | ok only with a quote, status 200 and a decoded body. Transport and empty-response failures come first. |
| Clients.FailuresAreNotOk | src/clients.py:61-82 | A transport error, an undecodable body or a non-200 status is never ok and keeps its status. |
| ConfigLoader.StrLeTotal | src/utils/config_loader.py:21 | Python string order is total. |
| ConfigLoader.StrLeTransitive | src/utils/config_loader.py:21 | Python string order is transitive. |
| ConfigLoader.Insert | src/utils/config_loader.py:21 | Insertion keeps the list sorted and adds exactly one element. |
| ConfigLoader.SortStrings | src/utils/config_loader.py:21 | `sorted`: a sorted permutation. |
| ConfigLoader.MissingKeys | src/utils/config_loader.py:19 | Exactly the keys missing from the object. |
| ConfigLoader.Require | src/utils/config_loader.py:18-22 | Fails iff some key is missing, listing exactly the missing keys, sorted. |
| ConfigLoader.OrNone | src/utils/config_loader.py:58-60 | A present value is the entry's truthy value. |
| ConfigLoader.HasPairFieldsIsRequired | src/utils/config_loader.py:34-46 | Having the seven fields is `_require` passing. |
| ConfigLoader.ManuallyVerifiedDefaultsFalse | src/utils/config_loader.py:57 | An absent `manually_verified` means false. |
| ConfigLoader.CheckEntry | src/utils/config_loader.py:31-62 | Accepted iff the entry is an object with the seven fields. A non-object is rejected with its index. |
| ConfigLoader.MissingPairFields | src/utils/config_loader.py:34-46 | The error is that of `_require`. |
| ConfigLoader.PairsFrom | src/utils/config_loader.py:30-64 | Succeeds iff every entry is good, with one pair per entry in order. |
| ConfigLoader.PairsFromFirstError | src/utils/config_loader.py:30-46 | The first bad entry decides the error. |
| ConfigLoader.LoadMarketPairs | src/utils/config_loader.py:25-64 | A non-list or an empty list is rejected. Otherwise the result is `PairsFrom` over the entries: the first bad entry's error, or one pair per entry in order. |
| ConfigLoader.PairsFromCons | src/utils/config_loader.py:30-62 | A bad first entry is the error; a good one is prepended. |
| ConfigLoader.PrependTwice | src/utils/config_loader.py:48-62 | Appending in two steps is appending once. |
| ConfigLoader.LoadMarketPairsLoop | src/utils/config_loader.py:25-64 | The loop computes `_load_market_pairs`. |
| ConfigLoader.WithDurationAlias | src/utils/config_loader.py:71-72 | `duration_hours` is renamed only when the canonical key is absent. |
| ConfigLoader.LoadMonitoring | src/utils/config_loader.py:67-94 | Success needs an object with both keys and gives values greater than 0. |
| ConfigLoader.MonitoringRejectsNonPositive | src/utils/config_loader.py:86-89 | A non-positive interval, then a non-positive duration, is the error; otherwise the values are returned. |
| ConfigLoader.DurationAliasAccepted | src/utils/config_loader.py:71-72 | A legacy `duration_hours` is honoured. |
| ConfigLoader.LoadCostAssumptions | src/utils/config_loader.py:97-111 | Success gives a gas fee of at least 0, and a negative fee is rejected. |
| ConfigLoader.LoadTelegram | src/utils/config_loader.py:114-125 | A nested object wins, with `bot_token` falling back to `token`. Otherwise the top-level keys are used. |
| ConfigLoader.NestedTelegramWins | src/utils/config_loader.py:115-120 | An empty nested object ignores top-level credentials and is not configured. |
| ConfigLoader.LoadConfig | src/utils/config_loader.py:128-147 | A missing `market_pairs` is the error. Otherwise the config loads iff all three sections do, and the error is that of the first failing section, in the order pairs, monitoring, cost. On success every field is its section's value, including the Telegram settings and `kalshi_api_key`. |
| ExcelConfig.LowerOfUpper | src/read_excel_config2.py:38 | Lower-casing undoes upper-casing. |
| ExcelConfig.IsVerified | src/read_excel_config2.py:37-39 | Models `is_verified`. Its properties are in `IsVerifiedIgnoresCase` and `IsVerifiedExamples`. |
| ExcelConfig.IsVerifiedIgnoresCase | src/read_excel_config2.py:37-39 | The status test ignores ASCII case. |
| ExcelConfig.IsVerifiedExamples | src/read_excel_config2.py:37-39 | "" is not verified; "Confirmed" is. |
| ExcelConfig.LastSegment | src/read_excel_config2.py:76 | The last segment holds no `/`. |
| ExcelConfig.FinalPiece | src/read_excel_config2.py:76 | The text after the last `/`, stripped, holds no `/`. |
| ExcelConfig.ExtractKalshiTicker | src/read_excel_config2.py:73-79 | Fails on an empty URL or an empty last segment. Otherwise it is the upper-cased last segment: non-empty, without `/` and without lower-case letters. |
| ExcelConfig.LastSegmentTrailingSlash | src/read_excel_config2.py:76 | A trailing slash does not change the last segment. |
| ExcelConfig.TrailingSlashIgnored | src/read_excel_config2.py:73-79 | A trailing slash does not change the ticker. |
| ExcelConfig.SettlementSkips | src/read_excel_config2.py:113-116 | Falsy keys are skipped. |
| ExcelConfig.PickSettlementDate | src/read_excel_config2.py:112-117 | Models `pick_settlement_date`. Its properties are in `SettlementSkips` and `PickSettlementDateIsFirst`. |
| ExcelConfig.PickSettlementDateIsFirst | src/read_excel_config2.py:112-117 | The first truthy of the four keys, as text; else `resolutionTime` or "". |
| ExcelConfig.StripKeepsUnpadded | src/read_excel_config2.py:130 | Strip leaves unpadded text alone. |
| ExcelConfig.TitleText | src/read_excel_config2.py:130 | Models the title text of `match_markets`. Its property is `TitleTextIsStrippedStr`. |
| ExcelConfig.TitleTextIsStrippedStr | src/read_excel_config2.py:130-140 | The title text is the stripped `str()` of a truthy title, otherwise "". |
| ExcelConfig.Titles | src/read_excel_config2.py:130-140 | One title per market. |
| ExcelConfig.TitlesAt | src/read_excel_config2.py:130-140 | The i-th title is that market's title text. |
| ExcelConfig.BestAmong | src/read_excel_config2.py:135-144 | The chosen index is in range, unused and non-empty. |
| ExcelConfig.BestAmongStep | src/read_excel_config2.py:138-144 | A later index replaces the best only on a strictly higher score. |
| ExcelConfig.BestAmongIsArgmax | src/read_excel_config2.py:133-144 | Some candidate is found iff one scores above −1. It then has the strictly greatest score, with ties going to the earliest index. |
| ExcelConfig.UsedAppend | src/read_excel_config2.py:147 | Adding an index to the used set. |
| ExcelConfig.MatchPrefix | src/read_excel_config2.py:129-149 | One chosen and one source index per mapping. |
| ExcelConfig.MatchPrefixStep | src/read_excel_config2.py:129-149 | One step of the outer loop. |
| ExcelConfig.MatchPrefixAppends | src/read_excel_config2.py:129-149 | One step appends at most one mapping. |
| ExcelConfig.MatchPrefixPairsTitles | src/read_excel_config2.py:147-149 | Every mapping pairs the non-empty titles at its two indices. |
| ExcelConfig.MatchPrefixInOrder | src/read_excel_config2.py:129-149 | Mappings follow the Polymarket order. |
| ExcelConfig.MatchPrefixOneToOne | src/read_excel_config2.py:126-147 | No Kalshi index is used twice. |
| ExcelConfig.MatchPrefixPicksBest | src/read_excel_config2.py:133-147 | Each chosen index is the best among those unused at its step. |
| ExcelConfig.MatchPrefixSkipsOnlyUnmatchable | src/read_excel_config2.py:145-146 | A non-empty title goes unmatched only when no eligible candidate remained. |
| ExcelConfig.NonEmptyCount | src/read_excel_config2.py:130-132 | At most the list length. |
| ExcelConfig.NonEmptyCountPrefix | src/read_excel_config2.py:130-132 | The count grows by one per non-empty title. |
| ExcelConfig.MatchPrefixCount | src/read_excel_config2.py:129-149 | At most one mapping per non-empty Polymarket title. |
| ExcelConfig.DistinctCardinality | src/read_excel_config2.py:147 | Distinct indices give a set of the same size. |
| ExcelConfig.BoundedSetCardinality | src/read_excel_config2.py:147 | A set of indices below n has at most n members. |
| ExcelConfig.MatchPrefixBoundedByKalshi | src/read_excel_config2.py:126-147 | At most one mapping per Kalshi market. |
| ExcelConfig.MarketTitle | src/read_excel_config2.py:130-140 | The market's title text. |
| ExcelConfig.BestKalshiIndex | src/read_excel_config2.py:133-144 | The inner loop computes the best unused index. |
| ExcelConfig.MatchMarkets | src/read_excel_config2.py:120-151 | The loops compute the greedy matching. |
| ExcelConfig.SetDefault | src/read_excel_config2.py:202-204 | `setdefault` adds the key only when it is absent and keeps the other values. |
| ExcelConfig.WithDefaults | src/read_excel_config2.py:192-197 | `event_pairs` is replaced and the monitoring and cost defaults are added when absent. Other keys are kept. |
| ExcelConfig.MergeConfig | src/read_excel_config2.py:191-206 | Raises iff an existing `alerting` is not an object. |
| ExcelConfig.MergeConfigKeeps | src/read_excel_config2.py:191-198 | `event_pairs` is always replaced, defaults are added only when absent, and every other key is kept. |
| ExcelConfig.MergeConfigAlerting | src/read_excel_config2.py:199-204 | Absent alerting gets the defaults. Otherwise missing fields are filled and existing ones are never overwritten. |
| ExcelConfig.FillAlerting | src/read_excel_config2.py:202-204 | Models the three `setdefault` calls. Its properties are in `FillAlertingIdempotent` and `MergeConfigAlerting`. |
| ExcelConfig.FillAlertingIdempotent | src/read_excel_config2.py:202-204 | Filling twice is filling once. |
| ExcelConfig.UpdateWithSameValue | src/read_excel_config2.py:193 | Storing a key's own value changes nothing. |
| ExcelConfig.MergedAlertingIsFilled | src/read_excel_config2.py:199-204 | A merged alerting object has all three fields. |
| ExcelConfig.MergeConfigIdempotent | src/read_excel_config2.py:191-206 | Merging the same event pairs again changes nothing. |

## Left out

- Network and HTTP: requests, sessions, `_get` and the fetch calls are not modelled. Each client works on an already-received `HttpOutcome` (a transport error, or a status and an optional decoded body).
- `time.sleep`, `asyncio.sleep`, the `Live` display and the async `run` loop are not modelled. The back-off returns the wait instead of sleeping, and the loop's stop test and interval adjustment are modelled as functions.
- ArbitrageMonitor: `_run_iteration`, `_emit_signal`, the Telegram notifier, `_build_table`, `_log_snapshot` and `write_snapshot` are not modelled; these are UI, logging and delivery. The class keeps only the state that `_evaluate_pair` uses. The fetched market lists, the time and the window ids are inputs.
- Monitor.AdjustInterval: takes `should_extend_interval()` and `retry_count` as inputs instead of reading the Kalshi client.
- Time: `datetime.fromisoformat`/`isoformat`, `time.time()` and `utcnow()` are not modelled. Times are integer seconds passed in. `_parse_iso_timestamp` takes the ISO parser as a function parameter, and only the trailing `Z` rewrite is modelled.
- Ids: `uuid.uuid4()` and `hash()` window ids are `freshId` parameters.
- Floating point: prices, fees, spreads and averages are `real`. IEEE rounding is not modelled, and neither are `round(x, 6)` on the logged values of `monitor_windows.py` nor `f"{x:.4f}"` formatting.
- PyText.Round4: `round(x, 4)`, in the fee component and in the records of `state_manager.py`, rounds halves up. Python rounds the binary float nearest a half to even. `round(duration, 2)` leaves whole seconds unchanged.
- State.SpreadsOf: a non-empty object makes the model raise. In Python, `float()` is applied to each key, so an object whose keys all read as floats yields those floats.
- `float()` and `int()` of strings are modelled as plain decimal parsers, without exponents, `inf` or `nan`.
- `str()` of a non-integral float, a list or an object gives "" in the model. Only strings, integers, booleans and null are turned into text faithfully.
- Strings: `lower`, `upper`, `strip` and `split` are ASCII-only. There is no Unicode case folding or Unicode whitespace.
- Monitor.NormalizeText: the normalisation is not idempotent; `NormalizeTextNotIdempotent` shows an input where a second pass changes the result, so only single spacing is proved.
- `difflib.SequenceMatcher` similarity is an uninterpreted function parameter. The regex-based `normalize_text` that feeds it is not modelled.
- Excel loading (`load_rows`, `_normalize_header`, `pick_polymarket_event`, `build_event_pair`, `main`) and `src/read_excel_config.py` are not modelled; they are I/O and API plumbing.
- CSV and JSON files: the window logs are ghost sequences of rows, and the checkpoint files are optional snapshot values. A JSON file that does not decode is a distinct value. Row formatting (`to_log_row`, `_append_csv_row`, `_ensure_csv`) and `_pair_key` (unused by the monitor) are not modelled.
- Checkpoint values of the wrong JSON type (for example a non-numeric `sum_spread`) cannot be represented: fields are typed options.
- StateManager: the spread lists of the checkpoint table are non-empty by type. The source would divide by zero on an empty one, and its own writer never produces one.
- Dictionary iteration order is unspecified in the model. `ListSaved`, `StaleLog` and `LoadCheckpoint` state their results for the order they pick, which lists each key once.
- MonitorWindows.LoadOrRecover: the code resumes when `abs(now − last_updated) <= 300`, so a checkpoint stamped in the future also resumes; the model does the same.
- Logging, `print` and the Telegram message contents are not modelled.
- src/models.py is transcribed as datatypes. `is_configured` is the predicate `Models.IsConfigured`.

## Findings

| source | as written | input that shows it | evidently intended | confidence | as-written member | corrected member |
|---|---|---|---|---|---|---|
| src/utils/base_client.py:23-25 | the reset branch sets `retry_count = 1` but leaves `last_429_time` at the first-ever hit, so after 30 minutes every hit counts as a reset | hits at 100 s, 1900 s, 1901 s wait 30, 30, 30 | a reset re-anchors the window at the hit, so the hit one second later escalates to 60 s | high (not executed) | BaseClient.StaleAnchorCounterexample | BaseClient.BurstAfterResetEscalates |
| src/utils/kalshi_client.py:39-43 | on a 429, `_register_retry` and then `handle_rate_limit` both increment the shared `retry_count` | two 429s 10 s apart on a fresh client: the second counts 3 and waits 120 s; three hits already suggest a longer interval | each hit counted once: the second waits 60 s and extension needs five hits | high (not executed) | KalshiClient.DoubleCountCounterexample | KalshiClient.BurstCountsEachHitOnce |
