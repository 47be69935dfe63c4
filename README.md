# destilation-control — a verified model of the measurement bookkeeping

destilation-control is a desktop monitor for a laboratory distillation column. Its Rust (Tauri)
backend talks MODBUS to the column's instrument. It reads the bottom and top temperatures, or
replays a loaded recording. It interpolates one temperature per plate and derives a composition
per plate. Each resulting column entry goes into a measurement history and is emitted to the
frontend. The React frontend keeps the entries in a store and draws them as charts ("MM:SS"
elapsed labels, one line per plate). A header offers MODBUS connect/disconnect and file
play/pause; there is also a plate counter for the tower drawing and a settings form.

This Dafny project models that bookkeeping, one module per source file:

- `Backend` (`backend.dfy`): the shared state registered at start-up. This is the data source,
  which is either `Live` or `Playback` with a cursor; the transmission flag; and the history.
- `Calculations` (`calculations.dfy`): the older backend version. It covers the register read,
  plate interpolation, the placeholder compositions, the single-shot fetch/send and the flag
  commands.
- `DataManager` (`data_manager.dfy`): the newer `get_column_data`, with the per-plate
  composition fallback loop.
- `Emitter` (`emitter.rs`, in `emitter.dfy`): the send loop and the pause and cancel commands.
- `Export` (`export.dfy`): the spreadsheet export. The worksheet is a map from (row, column) to
  cell.
- `ModbusSerial` (`modbus_serial.dfy`): the connection guards, the 3-attempt probe loop, the
  read/write commands and the USB port filter.
- `DataStore`, `TemperaturesChart`, `DashboardChart`, `Header`, `Tower`, `SettingsHooks`: the
  frontend store, the two chart projections, the header's mode transitions, the plate counter
  and the settings updaters.
- `Wrappers` and `Text`: shared helpers (Result/Option, decimal rendering, `padStart`).

What the code does, and the model with it, differs in one respect from descriptions of this
system that speak of a bounded history keeping a time-zero anchor plus a sliding window. No such
bound exists in the code. `MeasurementHistory` keeps every entry it is given
(src-tauri/src/commands/emitter.rs:38-41). The frontend store replaces `columnData` wholesale.
The only window is the chart projection's `slice(-N)`, and its anchor is simply `columnData[0]`.
The model follows the code: `Backend.MeasurementHistory.Push` appends and never evicts, and
`Emitter.RunEffects` proves the history only grows.

## Model

| member | source | states |
|---|---|---|
| Backend.PlaybackReadsInOrder | src-tauri/src/commands/data_manager.rs:45-52 | k reads of a recording from cursor `index` yield `data[index]`, `data[index+1]`, … in order, then only "No more playback data available"; the cursor ends at min(index+k, len) and never passes the end |
| Backend.PlaybackNext | src-tauri/src/commands/data_manager.rs:45-51 | one read of the cursor; what successive reads return is stated by `Backend.PlaybackReadsInOrder` |
| Backend.DataSourceState.NextPlayback | src-tauri/src/commands/data_manager.rs:45-51 | in Playback, returns the entry under the cursor and advances it by one, or returns the exhaustion error with the cursor unchanged; the recording is never modified |
| Backend.DataSourceState.constructor | src-tauri/src/lib.rs:25 | the data source starts Live |
| Backend.TransmissionState.constructor | src-tauri/src/lib.rs:26 | the transmission flag starts cleared |
| Backend.MeasurementHistory.constructor | src-tauri/src/lib.rs:24 | the history starts empty |
| Backend.MeasurementHistory.Push | src-tauri/src/commands/emitter.rs:38-41 | appends exactly one entry at the end and removes nothing |
| Calculations.ReadTemperatures | src-tauri/src/commands/calculations.rs:33-62 | fails with "Error to get settings" without settings and with "Error in read temperatures " and the debug-rendered read error when the register read fails; otherwise returns exactly two temperatures, bottom first, each its register value divided by 100 |
| Calculations.LastPlateTemperature | src-tauri/src/commands/calculations.rs:70 | the interpolation formula gives the top temperature at the last plate |
| Calculations.FirstPlateTemperature | src-tauri/src/commands/calculations.rs:70 | the interpolation formula gives the bottom temperature at plate 0 |
| Calculations.Interpolated | src-tauri/src/commands/calculations.rs:64-74 | the interpolated vector has length 2 when num_plates ≤ 2 (also for 0 or 1 plates), num_plates otherwise; it starts at t1 and ends at tn |
| Calculations.PlateTemperaturesOrdered | src-tauri/src/commands/calculations.rs:70 | the plate temperatures stay between t1 and tn, non-decreasing along the column when t1 ≤ tn and non-increasing when tn ≤ t1 (the usual case of a hotter bottom) |
| Calculations.InterpolatedMonotone | src-tauri/src/commands/calculations.rs:64-74 | the interpolated vector is bounded by t1 and tn, sorted ascending when t1 ≤ tn and descending when tn ≤ t1 |
| Calculations.InterpolateTemperatures | src-tauri/src/commands/calculations.rs:64-74 | the push loop builds exactly the interpolated vector: `[t1, tn]` for ≤ 2 plates, else element i is t1 + i/(n-1)·(tn-t1) |
| Calculations.CalculateCompositions | src-tauri/src/commands/calculations.rs:122-124 | three zeros, whatever the temperatures |
| Calculations.LiveEntryShape | src-tauri/src/commands/calculations.rs:143-173 | a failed read gives "Failed to read temperatures", missing settings give "No settings found"; otherwise the entry carries the clock time, temperatures equal to `Interpolated` over the plate count from the bottom register / 100 to the top register / 100, and three zero compositions |
| Calculations.LiveEntry | src-tauri/src/commands/calculations.rs:143-173 | the Live branch of this version's fetch; what it returns is stated by `Calculations.LiveEntryShape` |
| Calculations.Fetch | src-tauri/src/commands/calculations.rs:126-176 | this version's fetch from either source; `Calculations.GetColumnData` is proved to compute it |
| Calculations.GetColumnData | src-tauri/src/commands/calculations.rs:126-176 | Playback advances the cursor as described above; Live returns the live entry and leaves the source Live |
| Calculations.SendColumnData | src-tauri/src/commands/calculations.rs:76-98 | a fetch error is returned with the history unchanged; otherwise the entry is appended to the history before emission, and the result is Ok with that entry emitted, or "Failed to emit data: …" |
| Calculations.ActiveColumnData | src-tauri/src/commands/calculations.rs:100-109 | sets the transmission flag, nothing else |
| Calculations.CancelColumnData | src-tauri/src/commands/calculations.rs:111-120 | clears the transmission flag, nothing else |
| DataManager.Compositions | src-tauri/src/commands/data_manager.rs:72-89 | one composition per interpolated temperature |
| DataManager.CarriedSource | src-tauri/src/commands/data_manager.rs:77-88 | each composition is the solver's value at the nearest plate at or before it where the solver succeeds, with failures in between; it is 0.0 when the solver fails on all plates up to it |
| DataManager.ComputeCompositions | src-tauri/src/commands/data_manager.rs:72-89 | the loop yields one value per plate: the solver's value where it succeeds, 0.0 on a failure at plate 0, the previous plate's composition on a failure at plate i > 0 |
| DataManager.LiveEntryShape | src-tauri/src/commands/data_manager.rs:53-107 | a failed read gives "Failed to read temperatures: " followed by the read error in debug form, missing settings give "No settings found"; otherwise the entry has the clock time, temperatures equal to `Calculations.Interpolated` over the plate count from the bottom register / 100 to the top register / 100, compositions equal to `DataManager.Compositions` of those temperatures (the solver fallback that `DataManager.CarriedSource` characterises) and percentage_complete 0.0 |
| DataManager.LiveEntry | src-tauri/src/commands/data_manager.rs:53-107 | the Live branch of the fetch; what it returns is stated by `DataManager.LiveEntryShape` |
| DataManager.Fetch | src-tauri/src/commands/data_manager.rs:37-109 | the fetch from either source; `DataManager.GetColumnData` is proved to compute it and `Emitter.Iteration` uses it |
| DataManager.GetColumnData | src-tauri/src/commands/data_manager.rs:37-109 | the cursor semantics of Playback and the live entry of Live, with the source unchanged on Live |
| Emitter.RunEffects | src-tauri/src/commands/emitter.rs:12-47 | from a set flag, the loop only appends to the history (new history = old + appended, one entry per iteration at most); it returns Ok only with the flag cleared and only if a pause or cancel ran in some turn; when it ends otherwise (an error, or an unfinished schedule) with the flag cleared, a pause or cancel ran between some flag check and the fetch after it |
| Emitter.IterationEffects | src-tauri/src/commands/emitter.rs:26-46 | one iteration from a set flag appends at most its own entry; a stop or a fetch error appends nothing, and the only way to end after appending is a failed emission, which returns "Failed to emit data: …" with the entry left in the history; it stops with Ok only after a pause or cancel ahead of its flag check, and leaves the flag cleared otherwise only when a pause or cancel ran between its flag check and its fetch |
| Emitter.HaltedRun | src-tauri/src/commands/emitter.rs:27-33 | once the flag is clear the loop appends nothing and keeps it clear; it returns Ok at the next flag check |
| Emitter.CancelBeforeFetchFails | src-tauri/src/commands/emitter.rs:33-36 | a cancel that lands after the flag check released its lock and before `get_column_data` locks the data source empties the recording: the loop returns "No more playback data available" with the flag already cleared and nothing appended |
| Emitter.Iteration | src-tauri/src/commands/emitter.rs:26-46 | one iteration: command slot, flag check, command slot, fetch, append, emit; what it guarantees is stated by `Emitter.IterationEffects` |
| Emitter.Run | src-tauri/src/commands/emitter.rs:26-46 | the loop over a schedule of turns; what it guarantees is stated by `Emitter.RunEffects`, `Emitter.RunQuietPlayback`, `Emitter.PlaybackDrains` and `Emitter.PauseResumes`, and `Emitter.SendColumnData` is proved to compute it |
| Emitter.RunQuietPlayback | src-tauri/src/commands/emitter.rs:26-46 | k undisturbed iterations over a recording append exactly the next k entries, in order, and advance the cursor by k |
| Emitter.PlaybackDrains | src-tauri/src/commands/emitter.rs:26-46 | undisturbed, the loop appends the rest of the recording in order and then ends with "No more playback data available", flag still set |
| Emitter.PauseResumes | src-tauri/src/commands/emitter.rs:69-77 | when the paused loop has returned before the next send starts, a pause stops the loop with Ok and keeps the cursor, and the later send resumes at the same entry, so the two runs together append the rest of the recording exactly once, in order |
| Emitter.CancelledPlaybackIsExhausted | src-tauri/src/commands/emitter.rs:49-67 | after a cancel, a new send on the (emptied) recording ends at once with the exhaustion error and appends nothing |
| Emitter.PauseColumnData | src-tauri/src/commands/emitter.rs:69-77 | clears the flag only |
| Emitter.CancelColumnData | src-tauri/src/commands/emitter.rs:49-67 | clears the flag; a recording is rewound to 0 and emptied, Live stays Live; the history is not touched |
| Emitter.SendIteration | src-tauri/src/commands/emitter.rs:26-46 | one loop iteration on the shared objects performs exactly the step `Emitter.Iteration` prescribes, running the scheduled commands in both slots, and if it continues it emitted the entry it appended |
| Emitter.SendColumnData | src-tauri/src/commands/emitter.rs:12-47 | sets the flag, then flag, source, history, outcome and appended entries are exactly those of `Emitter.Run` over the schedule |
| Export.Worksheet.constructor | src-tauri/src/commands/utils.rs:14-15 | a new worksheet has no cells |
| Export.Worksheet.Write | src-tauri/src/commands/utils.rs:23-25 | a write succeeds exactly inside the 1,048,576 × 16,384 worksheet and then sets only that cell |
| Export.ApplyConcat | src-tauri/src/commands/utils.rs:23-65 | writing two runs of cells is writing the first run, then the second |
| Export.ApplyLastWrite | src-tauri/src/commands/utils.rs:23-65 | a cell holds the value of the last write to it |
| Export.ExportWriteAt | src-tauri/src/commands/utils.rs:23-46 | write j ≤ 2n goes to (0,j) with the header text of column j ("Timestamp", then "Temperature i" for j = i ≤ n, then "Composition i" for j = n+i); every later write is below row 0 |
| Export.HeaderLayout | src-tauri/src/commands/utils.rs:23-46 | after the export, (0,0) is "Timestamp", (0,i) is "Temperature i" for 1 ≤ i ≤ n, and (0,n+i) is "Composition i", n being the first entry's temperature count |
| Export.RowsBelow | src-tauri/src/commands/utils.rs:49-50 | the writes for entry k and later land in rows k+1 up to the number of entries |
| Export.RowsPrefix | src-tauri/src/commands/utils.rs:49 | the data writes are those of the earlier entries followed by those from entry k on |
| Export.RowWriteAt | src-tauri/src/commands/utils.rs:49-64 | entry k's writes go to row k+1: timestamp in column 0, temperatures[i] in column i+1, compositions[i] in column n+i+1 |
| Export.RowCellsDistinct | src-tauri/src/commands/utils.rs:55-64 | when an entry has exactly n temperatures, no two writes of its row target the same cell |
| Export.LastInBlock | src-tauri/src/commands/utils.rs:49-65 | a write is the last to its cell when no later write of its row and no write of a later row reaches it |
| Export.RowCell | src-tauri/src/commands/utils.rs:49-65 | with every entry holding n temperatures, each write of a data row is the last to its cell |
| Export.RowLayout | src-tauri/src/commands/utils.rs:49-64 | with every entry holding n temperatures, row k+1 holds entry k's timestamp, temperatures and compositions in their columns |
| Export.RowsWithinLimits | src-tauri/src/commands/utils.rs:49-64 | fewer entries than worksheet rows and entries that fit the columns keep every data write inside the worksheet |
| Export.ExportWithinLimits | src-tauri/src/commands/utils.rs:8-74 | under those limits no write of the export fails |
| Export.AllInLimitsConcat | src-tauri/src/commands/utils.rs:23-65 | two runs of writes are all inside the worksheet exactly when each is |
| Export.Put | src-tauri/src/commands/utils.rs:23-25 | one write with its error mapped to "Xlsx error: …" |
| Export.PutAll | src-tauri/src/commands/utils.rs:32-36 | a header or data loop succeeds exactly when all its writes are inside the worksheet, and then the sheet is the old one with those writes applied in order |
| Export.WriteHeaders | src-tauri/src/commands/utils.rs:31-46 | the two header loops: success exactly when all header writes fit, then all applied |
| Export.WriteRow | src-tauri/src/commands/utils.rs:50-64 | one data-loop iteration: success exactly when the row's writes fit, then all applied |
| Export.WriteRows | src-tauri/src/commands/utils.rs:49-65 | the data loop: success exactly when all data writes fit, then all applied in order |
| Export.ExportData | src-tauri/src/commands/utils.rs:8-74 | empty history gives "No current data" with only "Timestamp" written and nothing saved; a write outside the worksheet gives "Xlsx error: …" and nothing saved; otherwise the sheet is exactly the header and data writes applied in order, the workbook is saved, and the result is Ok or the save error |
| ModbusSerial.CurrentConnection.constructor | src-tauri/src/commands/modbus_serial.rs:16-19 | starts with no connection |
| ModbusSerial.CurrentConnection.SetConnection | src-tauri/src/commands/modbus_serial.rs:22-24 | stores the channel, so `is_connected` holds |
| ModbusSerial.CurrentConnection.ClearConnection | src-tauri/src/commands/modbus_serial.rs:26-28 | drops the channel, so `is_connected` fails |
| ModbusSerial.ProbeWithRetries | src-tauri/src/commands/modbus_serial.rs:68-85 | 1 to 3 probes, stopping at the first success; success exactly when one of the 3 would succeed; sleeps only between attempts, so sleeps = attempts − 1 ≤ 2 |
| ModbusSerial.ConnectModbus | src-tauri/src/commands/modbus_serial.rs:35-88 | "Already connected" with the state unchanged when connected; an enable failure leaves it disconnected; otherwise the first successful probe stores the channel and returns "Connected successfully", three failures return "Failed to connect after 3 attempts" disconnected; Ok exactly when it went from disconnected to connected |
| ModbusSerial.IsConnectedCommand | src-tauri/src/commands/modbus_serial.rs:90-100 | "Connected" exactly when a channel is stored, else "No active connection" |
| ModbusSerial.DisconnectModbus | src-tauri/src/commands/modbus_serial.rs:102-114 | clears a stored channel with "Disconnected succesfully"; without one returns "No connection to disconnect"; afterwards there is no connection either way |
| ModbusSerial.ReadHoldingRegisters | src-tauri/src/commands/modbus_serial.rs:116-152 | without a connection returns "No active connection" and makes no request; otherwise "Read error: …", "No registers found" for an empty reply, or the first register |
| ModbusSerial.ChannelRequest | src-tauri/src/commands/modbus_serial.rs:154-238 | the guard shared by the write and coil commands: no request and "No active connection" when disconnected, otherwise the reply or the prefixed error |
| ModbusSerial.WriteSingleRegister | src-tauri/src/commands/modbus_serial.rs:154-180 | no request without a connection; otherwise the reply or "Write error: …" |
| ModbusSerial.WriteSingleCoil | src-tauri/src/commands/modbus_serial.rs:182-209 | no request without a connection; otherwise the reply or "Write error: …" |
| ModbusSerial.ReadCoils | src-tauri/src/commands/modbus_serial.rs:211-238 | no request without a connection; otherwise the reply or "Read error: …" |
| ModbusSerial.UsbPortNames | src-tauri/src/commands/modbus_serial.rs:244-250 | never lists more names than ports |
| ModbusSerial.AvailablePorts | src-tauri/src/commands/modbus_serial.rs:240-255 | Ok exactly when the enumeration succeeds; its error becomes "Failed to list serial ports: …" |
| ModbusSerial.UsbPortNamesConcat | src-tauri/src/commands/modbus_serial.rs:244-250 | the filter keeps enumeration order: names of two runs of ports are the names of each run in turn |
| ModbusSerial.UsbPortNamesMembers | src-tauri/src/commands/modbus_serial.rs:244-250 | a name is listed exactly when some USB port carries it |
| ModbusSerial.AllUsbPortsListed | src-tauri/src/commands/modbus_serial.rs:244-250 | when every port is USB, every name is listed, in order |
| DataStore.Store.constructor | src/hooks/useData.ts:19-22 | one placeholder entry {timestamp 0, [], []}, not connected, not loading |
| DataStore.Store.SetColumnData | src/hooks/useData.ts:23-25 | replaces the entries wholesale, nothing else |
| DataStore.Store.SetConnected | src/hooks/useData.ts:26 | changes only `connected` |
| DataStore.Store.SetLoading | src/hooks/useData.ts:27 | changes only `isLoading` |
| DataStore.Store.ClearData | src/hooks/useData.ts:28-29 | clears `connected` and `isLoading`, adds an empty `temperatures` key and leaves the entries as they were |
| DataStore.Cleared | src/hooks/useData.ts:28-29 | the cleared state keeps the entries and has both flags false |
| DataStore.ClearIdempotent | src/hooks/useData.ts:28-29 | clearing twice is clearing once |
| TemperaturesChart.JsRem | src/components/temperatures-chart.tsx:28 | JavaScript's remainder: the Euclidean one for non-negative times, in (−60, 0] for negative ones |
| TemperaturesChart.ElapsedLabelFormat | src/components/temperatures-chart.tsx:26-30 | for elapsed ≥ 0 the label is the padded minutes, ":", and exactly two second digits of e mod 60 |
| TemperaturesChart.Pad2 | src/components/temperatures-chart.tsx:30 | `String(x).padStart(2, "0")`; for 0 ≤ x < 100 it is exactly two digits (`TemperaturesChart.TwoDigits`), and it is injective there (`TemperaturesChart.Pad2Injective`) |
| TemperaturesChart.ElapsedLabel | src/components/temperatures-chart.tsx:26-30 | the "MM:SS" label of an elapsed time; its shape is stated by `TemperaturesChart.ElapsedLabelFormat`, its order by `TemperaturesChart.MinutesSecondsMonotone` and its injectivity by `TemperaturesChart.ElapsedLabelInjective` |
| TemperaturesChart.MinutesSecondsMonotone | src/components/temperatures-chart.tsx:26-28 | larger elapsed times give lexicographically larger or equal (minutes, seconds) |
| TemperaturesChart.Pad2Injective | src/components/temperatures-chart.tsx:30 | distinct minute counts get distinct padded renderings |
| TemperaturesChart.ElapsedLabelInjective | src/components/temperatures-chart.tsx:26-30 | distinct non-negative elapsed times get distinct labels |
| TemperaturesChart.TickFormatter | src/components/temperatures-chart.tsx:55-63 | shows a label exactly when it ends in "00" or "30", else "" |
| TemperaturesChart.TickFormatterIdempotent | src/components/temperatures-chart.tsx:55-63 | formatting a tick twice is formatting it once |
| TemperaturesChart.HalfMinuteSeconds | src/components/temperatures-chart.tsx:28 | a non-negative time is a multiple of 30 s exactly when its seconds part is 0 or 30 |
| TemperaturesChart.TickEveryHalfMinute | src/components/temperatures-chart.tsx:55-61 | for elapsed ≥ 0 the tick is shown exactly on multiples of 30 seconds |
| TemperaturesChart.PlateKeysDistinct | src/components/temperatures-chart.tsx:31-37 | the `plateK` keys are pairwise distinct and never "time" |
| TemperaturesChart.PlateFields | src/components/temperatures-chart.tsx:31-37 | one field per temperature: `plate{i+1}` holds temperatures[i] |
| TemperaturesChart.FormatRow | src/components/temperatures-chart.tsx:25-38 | one entry's chart row: its elapsed label from the anchor and its plate fields; `TemperaturesChart.FormatRowAt` and `TemperaturesChart.FormatRowsOrdered` state what the projection's rows are |
| TemperaturesChart.SliceLast | src/components/temperatures-chart.tsx:25 | `slice(-count)` keeps the last count elements in order, all of them when count is 0 or exceeds the length |
| TemperaturesChart.FormatWindow | src/components/temperatures-chart.tsx:21-40 | no data, no entries or a zero first timestamp give []; otherwise the last MAX_DATA_LENGTH entries in order, each labelled from `columnData[0]`, even when that entry is outside the window |
| TemperaturesChart.FormatColumnData | src/components/temperatures-chart.tsx:21-40 | `columnDataFormatted`; what it returns is stated by `TemperaturesChart.FormatWindow` |
| TemperaturesChart.FormatRowAt | src/components/temperatures-chart.tsx:25-39 | row j is the j-th entry of the window, labelled from the first stored entry |
| TemperaturesChart.FormatRowsOrdered | src/components/temperatures-chart.tsx:23-28 | with non-decreasing timestamps, rows j ≤ k are labelled a and b seconds after the anchor with 0 ≤ a ≤ b, so their (minutes, seconds) are non-decreasing |
| TemperaturesChart.Filter | src/components/temperatures-chart.tsx:44 | keeps exactly the keys other than the dropped one, never lengthens the list, and returns the list unchanged when the dropped key does not occur |
| TemperaturesChart.FilterConcat | src/components/temperatures-chart.tsx:44 | filtering a concatenation is filtering each part, so the kept keys stay in order with their repetitions |
| TemperaturesChart.RowPlateKeys | src/components/temperatures-chart.tsx:42-45 | the non-time keys of a row are `plate1`..`plateN` in order |
| TemperaturesChart.PlateKeysOfProjection | src/components/temperatures-chart.tsx:42-45 | the chart draws one line per temperature of its first row, keyed `plate1`..`plateN` |
| TemperaturesChart.PlateKeys | src/components/temperatures-chart.tsx:42-45 | `plateKeys`, [] for no rows; what it returns is stated by `TemperaturesChart.PlateKeysOfProjection` |
| DashboardChart.FormatColumnData | src/pages/dashboard/temperatures-chart.tsx:19-39 | at most 240 rows: min(len, 240) |
| DashboardChart.FormatRowAt | src/pages/dashboard/temperatures-chart.tsx:21-36 | row j is the j-th of the last 240 entries, labelled from `columnData[0]` |
| DashboardChart.FormatWindow | src/pages/dashboard/temperatures-chart.tsx:19-39 | every row is the entry at its place in the last 240, labelled from `columnData[0]` with no zero-anchor guard |
| DashboardChart.PlaceholderDiffers | src/pages/dashboard/temperatures-chart.tsx:21-28 | on the store's initial placeholder the dashboard draws one "00:00" row where the component chart draws nothing |
| DashboardChart.PlateKeysOfProjection | src/pages/dashboard/temperatures-chart.tsx:41-44 | for non-empty data the keys are `plate1`..`plateN` of the first row's entry |
| DashboardChart.PlateKeys | src/pages/dashboard/temperatures-chart.tsx:41-44 | `plateKeys`, defined only with a first row; what it returns is stated by `DashboardChart.PlateKeysOfProjection` |
| Header.Header.constructor | src/components/header.tsx:13-15 | the header reads the store's mode and progress |
| Header.Header.HandleFile | src/components/header.tsx:18-31 | no-op at 100 %; in "file" invokes pause and goes to "paused", or "none" on failure; otherwise goes to "file", invokes send, and "none" if that fails |
| Header.Header.HandleConnection | src/components/header.tsx:33-62 | in "modbus" invokes disconnect and on success ends with `clearData` (mode overwritten by `false`), on failure stays "modbus"; otherwise invokes connect and on success goes to "modbus" and invokes send, on failure leaves the mode unchanged |
| Header.AfterFile | src/components/header.tsx:18-31 | the mode after the play/pause button; `Header.Header.HandleFile` is proved to reach it, and `Header.PauseThenResume`, `Header.PlayLeavesModbus` and `Header.PausedOnlyFromFile` state its transitions |
| Header.AfterConnection | src/components/header.tsx:33-62 | the mode after the connection button; `Header.Header.HandleConnection` is proved to reach it, and `Header.ClearedActsAsNone` and `Header.PausedOnlyFromFile` state its transitions |
| Header.ClearedActsAsNone | src/components/header.tsx:18-62 | the `false` left by `clearData` is treated like "none" by both buttons |
| Header.PauseThenResume | src/components/header.tsx:18-31 | pausing a playback and pressing play again returns to "file" |
| Header.PlayLeavesModbus | src/components/header.tsx:18-31 | pressing play takes the mode out of "modbus" although nothing disconnects |
| Header.PausedOnlyFromFile | src/components/header.tsx:18-62 | "paused" is only reached by pausing a playback |
| Tower.Added | src/hooks/useTower.ts:6 | min(p+1, 6): one more below the maximum, 6 at or above it |
| Tower.Removed | src/hooks/useTower.ts:7 | max(p−1, 1): one less above 1, 1 at or below it |
| Tower.TowerState.constructor | src/hooks/useTower.ts:5 | one plate, inside 1..6 |
| Tower.TowerState.AddPlate | src/hooks/useTower.ts:6 | applies the add updater and keeps 1 ≤ plates ≤ 6 |
| Tower.TowerState.RemovePlate | src/hooks/useTower.ts:7 | applies the remove updater and keeps 1 ≤ plates ≤ 6 |
| Tower.AddRemoveInverse | src/hooks/useTower.ts:6-7 | add at 6 and remove at 1 are no-ops; inside the range each undoes the other |
| SettingsHooks.SetUsbPort | src/hooks/useSettings.ts:11-13 | sets `usbPort`, every other key unchanged |
| SettingsHooks.SetBaudrate | src/hooks/useSettings.ts:15-17 | sets the key `baudrate`, every other key — `baudRate` included — unchanged |
| SettingsHooks.SetTheme | src/hooks/useSettings.ts:39-41 | sets `theme`, every other key unchanged |
| SettingsHooks.SetTopAddress | src/hooks/useSettings.ts:19-27 | replaces `temperatureAddress.top`, keeping the address's other fields and every other key |
| SettingsHooks.SetBottomAddress | src/hooks/useSettings.ts:29-37 | replaces `temperatureAddress.bottom`, keeping the address's other fields and every other key |
| SettingsHooks.SettersIdempotent | src/hooks/useSettings.ts:11-41 | each setter applied twice with the same value equals applying it once |
| SettingsHooks.AddressSettersCommute | src/hooks/useSettings.ts:19-37 | the top and bottom address setters commute |
| SettingsHooks.FieldSettersCommute | src/hooks/useSettings.ts:11-17 | setters of different top-level fields commute |
| SettingsHooks.AddressCommutesWithFields | src/hooks/useSettings.ts:11-41 | the address setter commutes with the other field setters |
| SettingsHooks.DefaultsKeepBottom | src/constants.ts:3-14 | from the default settings, setting the top address keeps bottom = 100 |

## Left out

- MODBUS and serial I/O (rodbus channels, requests, `serialport::available_ports`) are outside the model. Their outcomes are parameters, with errors already rendered as text. The request parameters (unit id, timeout) only travel to the channel and are not modelled.
- `AddressRange::try_from(..).unwrap()` panics on an empty range or one past address 65535. `ModbusSerial.ReadHoldingRegisters` and `ModbusSerial.ReadCoils` require a valid range when connected, instead of modelling the panic.
- `Calculations.ReadTemperatures`: the code indexes a single register response as if it were a list. The model takes the read as a list of at least two register values, which is what the indexing needs.
- Floating point is idealised as reals. The `/ 100.0` scaling, the interpolation and all temperatures and compositions are exact. The composition solver (`calculate_composition`) is a parameter `real -> Option<real>`.
- The clock (`SystemTime::now`) is a parameter `now`; timestamps are naturals in the backend and integers in the frontend.
- Rust's `{:?}` of a `String` is modelled as the text between double quotes, without escaping inner characters.
- Concurrency in `emitter.rs`: pause and cancel running in other tasks are an explicit schedule. Each iteration has two command slots: one before its flag check, and one after the check has released the transmission lock and before `get_column_data` locks the data source (a command there is what lets the loop fail with the flag already cleared, `Emitter.CancelBeforeFetchFails`). A command landing after the fetch acts as the next iteration's first slot. `Emitter.SendColumnData` ends with the model-only outcome `Pending` when its schedule runs out. The one-second sleeps, lock fairness and the frontend's event delivery are not modelled.
- `Emitter.PauseResumes` assumes the paused run has returned before the next `send_column_data` starts. After a pause the old loop returns only at its next flag check, and it may still be in its one-second sleep (emitter.rs:45). A send issued then (the header resumes at once, header.tsx:29-30) sets the flag again (emitter.rs:23-24), and the old loop carries on. Two loops then drain the recording together, and because the fetch and the push take different locks (emitter.rs:35-41) their entries can enter the history out of cursor order. The model has one loop per run and does not capture this.
- `Emitter.RunEffects` and the other `Emitter` run lemmas describe one send loop at a time, with pause and cancel as the only interference. A second concurrent send, or one that revives a paused loop as above, is not in the schedule. Their history relation (new history = old history + this run's entries) can then fail, because another loop's entries interleave.
- The background loop spawned in `src-tauri/src/lib.rs` is scheduling, not bookkeeping, and is not part of this model.
- The xlsx library's own error texts are one constant; `workbook.save` is a parameter. `dialog_path` (utils.rs:76-83), the file pickers, settings persistence (`settings.rs`) and `loadSettings`/`getSettings`/`saveSettings` of useSettings.ts are file and dialog I/O and are not modelled.
- `SettingsHooks.SetTopAddress` and `SettingsHooks.SetBottomAddress` spread only an object value of `temperatureAddress`. A missing key or a number spreads to nothing. The character keys that spreading a string would produce are not modelled.
- JavaScript object key order is modelled only for chart rows, where it decides `plateKeys`. Settings are an unordered map.
- `Header.Header.HandleConnection` does not model the toast, the logger, or a failure of the `send_column_data` it starts without awaiting. `Header.Header.HandleFile` does not model what happens when the awaited send finishes long after the click. The header's `fileProgress` does not exist in the store (src/hooks/useData.ts:19-30), so in the program the percentage is always `undefined`: the early return at 100 % never fires and the `.toFixed(2)` of the progress display would throw when rendered. The model keeps the percentage as a real field of the header, which over-approximates this (every behaviour of the program is the model's behaviour at a percentage other than 100).
- `MAX_DATA_LENGTH` is not defined in the constants; it is a parameter of `TemperaturesChart.FormatColumnData`.
- Rendering and wiring (dialogs, tower and plate drawings, status LED, layout, `dashboard-page` listeners, `compositions-chart.tsx`, whose `formatData` always returns []) are not modelled.
