# DipTank monitor: a Dafny model

DipTank watches water tanks: each tank has a location, a capacity in litres, a
current level, and minimum and maximum thresholds in percent. The desktop
monitor (`diptank_monitor_app.py`) does the following:

- shows the selected tank's fill percentage and its Low / Optimal / High status;
- rolls the levels up across all tanks, and per location, into Critical / Low / Optimal summaries;
- simulates a sensor reading on demand;
- runs a pump that adds 50 L per pass until the maximum threshold is reached.

The model has these modules:

- `TankLevels`: the tank row, the fill percentage and the per-tank status.
- `StringOrder`: Python's `<` on strings and `sorted` over distinct strings, used to order location names.
- `Rollups`: the global summary and the per-location rollup.
  - The defaultdict accumulation and the display loop are methods.
  - They are proved against recursive sums.
  - A partition lemma shows the location groups add up to the global totals.
- `PumpControl`: the monitor's state as a value, with one transition function per handler.
  - The state holds the selected tank id, the pump flag and the store.
  - The store is tank rows by id plus the append-only reading and alert tables.
  - The handlers are toggle, automatic check, one pump pass, the bounded pump loop, manual reading, clear, refresh and select.
  - Lemmas cover the state machine and worked scenarios.
- `Monitor`: the class `DiptankMonitor`.
  - Its fields are the process-wide globals and the store.
  - Its methods follow the handlers step by step.
  - Each method ends in the state its `PumpControl` transition describes.

Store failures are parameters: each store read says whether it succeeds. A
tank that does not exist and a store error are told apart by
`PumpControl.Lookup`. The random draw of the
manual reading is a parameter limited to [-0.05, 0.05].

## Model

| member | source | states |
|---|---|---|
| TankLevels.Percentage | diptank_monitor_app.py:236 | The percentage is 0 when the capacity is not positive. Otherwise percentage × capacity = level × 100. It lies in [0, 100] for a level within [0, capacity], and a full tank reads 100. |
| TankLevels.PercentageMonotone | diptank_monitor_app.py:236 | A higher level never gives a lower percentage. |
| TankLevels.Status | diptank_monitor_app.py:243-250 | Low exactly when pct < min. High exactly when min ≤ pct and pct > max. Optimal exactly when min ≤ pct ≤ max. With min ≤ max, High is exactly pct > max. |
| StringOrder.BelowTotal | diptank_monitor_app.py:328 | String `<` orders any two different location names one way or the other. |
| StringOrder.Sort | diptank_monitor_app.py:328 | The sorted names are strictly increasing and a permutation of the input. |
| StringOrder.SortSameStrings | diptank_monitor_app.py:328 | Sorting keeps the same names, once each, and the same count. |
| Rollups.SumsInBounds | diptank_monitor_app.py:275-276 | With every tank in bounds, 0 ≤ total volume ≤ total capacity. |
| Rollups.GlobalSummary | diptank_monitor_app.py:271-290 | A total capacity ≤ 0 gives 0% and Critical. An empty store gives zero totals, 0% and Critical. |
| Rollups.GlobalPercentageInBounds | diptank_monitor_app.py:275-281 | With every tank in bounds, the overall percentage lies in [0, 100]. |
| Rollups.Summarize | diptank_monitor_app.py:278-290 | The summary keeps its totals. A capacity ≤ 0 gives 0% and Critical. Otherwise percentage × capacity = volume × 100, and it lies in [0, 100] for in-bounds totals. Critical exactly below 20%, Optimal exactly at 50% or more. The same block recurs per location at lines 341-353. |
| Rollups.Classify | diptank_monitor_app.py:283-290 | Critical exactly below 20%, Low exactly in [20%, 50%), Optimal exactly at 50% or more. |
| Rollups.AtLocationExact | diptank_monitor_app.py:322-325 | A tank is in a location's group exactly when it is stored there. |
| Rollups.TotalAtIsGroupTotal | diptank_monitor_app.py:322-325 | A location's totals are the volume and capacity sums over exactly the tanks at that location. |
| Rollups.LocationsCover | diptank_monitor_app.py:322-328 | Every tank's location is among the locations. There are no locations exactly when there are no tanks. |
| Rollups.PartitionSum | diptank_monitor_app.py:322-325 | Summing the per-location sums over distinct locations that cover all tanks gives the global sum. Nothing is lost or counted twice. |
| Rollups.AggregateByLocation | diptank_monitor_app.py:322-325 | The loop yields one entry per location present, each equal to that location's volume and capacity totals. The keys are listed once each. |
| Rollups.SummarizeLocations | diptank_monitor_app.py:336-353 | There is one row per location, in the given order. Each row carries that location's totals, percentage and status, and the rows add up to the sum over those locations. |
| Rollups.RollupByLocation | diptank_monitor_app.py:311-353 | Row names are strictly increasing and are exactly the tanks' locations. Each row is that location's summary. The rows' volumes and capacities add up to the global totals. No rows exactly when no tanks. |
| PumpControl.Fetch | diptank_monitor_app.py:487 | A row is found exactly when the store is up and holds the id. A missing id with the store up is `DoesNotExist`. |
| PumpControl.Clamp | diptank_monitor_app.py:401-402 | For a non-negative capacity the result lies in [0, capacity]. A level already in range is unchanged. |
| PumpControl.Toggle | diptank_monitor_app.py:451-480 | Without a selection nothing changes. Otherwise the pump ends in the requested state and nothing else changes. |
| PumpControl.ToggleIdempotent | diptank_monitor_app.py:460-480 | Repeating a request changes nothing. |
| PumpControl.AutoCheck | diptank_monitor_app.py:482-503 | Only the pump flag can change. The pump starts only below the minimum from stopped, and stops only at or above the maximum or when the tank cannot be read. Both of these do happen whenever their conditions hold. |
| PumpControl.AutoCheckFollowsThresholds | diptank_monitor_app.py:488-493 | With min ≤ max, the check yields exactly the start, stop or no-change action the thresholds call for. |
| PumpControl.AutoCheckWithCrossedThresholds | diptank_monitor_app.py:490-493 | With min > max, a running pump below the minimum but at the maximum is stopped, against the thresholds' call to start. |
| PumpControl.Cycle | diptank_monitor_app.py:509-575 | The selection is kept, no tank is added or removed, and stored levels stay within [0, capacity]. The loop goes on exactly while the pump runs, and a stopped pump ends it untouched. A write changes only the selected tank and records one reading of its new level. Otherwise nothing is written. An alert is high-water and stops the loop. |
| PumpControl.CycleStopsOnLookupFailure | diptank_monitor_app.py:558-575 | A missing tank or a store error stops the pump and the loop, and nothing is written. |
| PumpControl.CycleStopsAtMaximum | diptank_monitor_app.py:518-523 | At or above the maximum the pass stops the pump without writing. |
| PumpControl.CycleFillsBelowMaximum | diptank_monitor_app.py:525-556 | The new level is min(capacity, level + 50): never lower, never above capacity. One reading of it is recorded. A high-water alert and a stop happen exactly when the new percentage exceeds the maximum. |
| PumpControl.Run | diptank_monitor_app.py:509-577 | Over any number of passes the selection is kept, no tank is added or removed, stored levels stay within [0, capacity], and the reading and alert tables only grow. |
| PumpControl.PumpStopsWhenFull | diptank_monitor_app.py:509-556 | The tank has positive capacity and a maximum ≤ 100%, and n × 50 L covers the space left. Then the pump has stopped after n + 1 passes. |
| PumpControl.PumpNeverStopsAboveFull | diptank_monitor_app.py:518-527 | With a maximum above 100%, a pump on a full tank keeps running for any number of passes and the store's levels stay as they are. |
| PumpControl.AlertsFor | diptank_monitor_app.py:416-429 | At most one alert. None exactly when the status is Optimal, low-water exactly when Low, high-water exactly when High. |
| PumpControl.Record | diptank_monitor_app.py:404-429 | Only the given tank's level changes, to the new level. One reading of it is appended. At most one alert is appended, and one is appended exactly when the new status is not Optimal. Selection and pump flag are kept. |
| PumpControl.Simulate | diptank_monitor_app.py:387-449 | The selection is kept and no tank is added or removed. Stored levels stay within [0, capacity] and at most one reading is appended. With no selection, a missing tank or a store error nothing changes (lines 390-392, 440-449). |
| PumpControl.ClampedStep | diptank_monitor_app.py:400-402 | The clamped new level lies in [0, capacity], within 5% of capacity of the old level. |
| PumpControl.SimulateEffect | diptank_monitor_app.py:394-438 | Only the selected tank's level changes, to a value in [0, capacity] at most 5% of capacity away. One reading of it is recorded, and any alert matches the new status. Then the automatic check runs on the new level. |
| PumpControl.ClearAsWritten | diptank_monitor_app.py:196-209 | Code as written: the selection becomes None and the pump flag is left as it was. |
| PumpControl.ClearAsWrittenLeavesPumpRunning | diptank_monitor_app.py:207-209 | Clearing while the pump runs leaves it running with no tank selected. |
| PumpControl.ClearCorrected | diptank_monitor_app.py:196-209 | Corrected: nothing is selected, the pump is off, and nothing else changes. |
| PumpControl.Refresh | diptank_monitor_app.py:226-269 | A readable selected tank leaves the state unchanged. No selection, a missing tank or a store error clears the selection as the code does, keeping the pump flag. |
| PumpControl.RefreshCorrected | diptank_monitor_app.py:226-269 | As `Refresh`, but a clear also turns the pump off. |
| PumpControl.Select | diptank_monitor_app.py:211-218 | The store is untouched. A tank the refresh can read is selected, and the automatic check runs on it with its own store read. Otherwise nothing is selected and the pump flag is kept. |
| PumpControl.SelectCorrected | diptank_monitor_app.py:211-218 | As `Select`, but when the refresh cannot read the tank the pump is also off. |
| PumpControl.SelectMissingTank | diptank_monitor_app.py:211-218 | Selecting an id not in the store leaves nothing selected and the pump flag as it was. |
| PumpControl.SelectMissingTankLeavesPumpRunning | diptank_monitor_app.py:207-209 | Pumping into tank 5 and then selecting the missing id 9 ends with nothing selected and the pump running. |
| PumpControl.SelectCorrectedMissingTank | diptank_monitor_app.py:209 | With the corrected clear, selecting a missing id leaves nothing selected and the pump off. |
| PumpControl.SelectThenCheckFails | diptank_monitor_app.py:497-500 | The refresh reads the tank but the automatic check meets a store error. The selection is kept and the pump is stopped. |
| PumpControl.TransitionsKeepPumpNeedsSelection | diptank_monitor_app.py:209 | Toggle, check, pass, reading, and the corrected refresh and select all keep "the pump runs only with a tank selected". |
| PumpControl.LowTankStartsPump | diptank_monitor_app.py:488-491 | 1000 of 10000 L with thresholds 20/90 reads Low, calls for a start, and the check starts the pump. |
| PumpControl.NearlyFullTankStopsWithoutWrite | diptank_monitor_app.py:518-523 | At 9980 of 10000 L with maximum 90% the pass stops with no reading and no alert. |
| PumpControl.OvershootRaisesHighWater | diptank_monitor_app.py:526-556 | At 80 of 100 L with maximum 90% one pass writes 100 L, records it, raises high-water and stops. |
| Monitor.DiptankMonitor.constructor | diptank_monitor_app.py:31-33 | Start-up: no tank selected and the pump off. |
| Monitor.DiptankMonitor.TogglePump | diptank_monitor_app.py:451-480 | The new state is `Toggle` of the old. The loop is started exactly when a selected, stopped pump is turned on. |
| Monitor.DiptankMonitor.CheckAndTogglePumpAuto | diptank_monitor_app.py:482-503 | The new state is `AutoCheck` of the old. |
| Monitor.DiptankMonitor.ClearSelectedTankDisplay | diptank_monitor_app.py:196-209 | The new state is `ClearAsWritten` of the old: no selection, pump flag kept. |
| Monitor.DiptankMonitor.UpdateSelectedTankDisplay | diptank_monitor_app.py:226-269 | The new state is `Refresh` of the old. |
| Monitor.DiptankMonitor.OnTankSelected | diptank_monitor_app.py:211-218 | The new state is `Select` of the old, with separate store reads for the refresh and the check. |
| Monitor.DiptankMonitor.SimulateSensorReading | diptank_monitor_app.py:387-449 | The new state is `Simulate` of the old with the same draw. |
| Monitor.DiptankMonitor.RecordReading | diptank_monitor_app.py:404-429 | The level is saved, one reading is recorded, and the alert the new status calls for is added. |
| Monitor.DiptankMonitor.PumpCycle | diptank_monitor_app.py:509-575 | The new state and the keep-running answer are those of `Cycle`. |
| Monitor.DiptankMonitor.PumpSimulationLoop | diptank_monitor_app.py:505-577 | The final state is `Run` of the old, over the given per-pass store availability. |

## Findings

| source | as written | input that shows it | evidently intended | confidence | as-written member | corrected member |
|---|---|---|---|---|---|---|
| diptank_monitor_app.py:207-209 | Clearing sets the selection to None and only then requests a pump stop. With no selection that request returns early, so the pump flag stays set. | The pump runs on tank 5 and the operator selects an id that is no longer in the store, or the store fails on refresh. Nothing is selected, yet the pump is still on. | The pump is off whenever no tank is selected, as the comment on line 209 says. | high; not executed | PumpControl.ClearAsWritten, PumpControl.SelectMissingTankLeavesPumpRunning | PumpControl.ClearCorrected, PumpControl.TransitionsKeepPumpNeedsSelection |

The handlers and the `Monitor` class follow the code as written:
`ClearAsWritten`, `Refresh` and `Select`. The corrected clear sets the flag
directly. `RefreshCorrected` and `SelectCorrected` are built on it, and the
invariant is proved for them. Only reordering the two steps would not be
enough: when the selector yields no id, the selection is already empty before
the clear starts.

## Behaviour worth knowing

A lemma shows each of these behaviours of the code:

- A pump pass that starts at or above the maximum stops before adding water. It records no reading and no alert (`PumpControl.NearlyFullTankStopsWithoutWrite`).
- The overshoot high-water alert of a pass does not need the level to reach capacity. It fires whenever one 50 L step carries the percentage from below the maximum to above it (`PumpControl.OvershootRaisesHighWater`).
- With a maximum above 100% the pump never stops on its own (`PumpControl.PumpNeverStopsAboveFull`).
- With a minimum above the maximum, the automatic check can stop a pump the thresholds call to start (`PumpControl.AutoCheckWithCrossedThresholds`). Thresholds are not validated in this file.

## Left out

- The Tkinter user interface is presentation and is not modelled. This covers labels, colours, progress bars, message boxes, status messages, the `manual_override` flag (which only chooses messages), and widget set-up in `create_widgets`.
- The alert message texts are not modelled: an alert is its tank and its kind.
- `_load_tanks_and_init_selection` is not modelled. It is the selector's display-name-to-id map and the initial selection, and it only reads the store. `OnTankSelected` takes the resulting id, or None, directly.
- `diptank/models.py` is not part of this model. A tank row is `TankLevels.Tank` and the store is a map from id to tank.
- `diptank/forms.py` and `diptank/urls.py` are web-form and routing context and are not modelled.
- Floating point becomes exact reals, so rounding in sums and percentages is not captured.
- `random.uniform(-0.05, 0.05)` becomes the `draw` parameter.
- The pump's background thread, `time.sleep`, and the interleaving of the thread with the UI handlers are not modelled. Each locked transaction is one atomic transition, so the lost-update freedom that `select_for_update` gives concurrent readings is assumed rather than shown.
- Calls deferred with `master.after` happen immediately in the model. In the code, the pump thread's stop requests and the check after a selection run later on the UI thread.
- Store errors are modelled only where a tank row is fetched, and the failed transaction changes nothing. The plain `Exception` branches act as store errors. Errors raised after a successful fetch, and the rollups' error labels, are not modelled. The rollups are computed over a list of tanks.
- Inside a manual reading, the display refresh and the automatic check run with the store available, as part of the same transaction.
- Monitor.DiptankMonitor.PumpSimulationLoop: runs at most `|availability|` passes, because the loop in the code is unbounded and paced by the clock. `PumpControl.PumpStopsWhenFull` bounds the number of passes the code needs.
- `_update_overall_summary_display` and `_update_overall_by_location_display` are modelled as the values they display (`Rollups.GlobalSummary`, `Rollups.RollupByLocation`). When there are no tanks, the "no tanks" label is `rows == []`.
