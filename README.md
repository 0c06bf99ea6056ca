# KM-LogViewer core in Dafny

KM-LogViewer is a PyQt desktop viewer for log files written one JSON record per line
(the `loguru` serialised format). This project models the logic under its widgets:

- **The record parser** (`utils.py`, and the copy inside `KM_Log_Viewer_v0.0.3.py`).
  - `format_timestamp` rewrites a trailing `Z` to `+00:00` and hands the string to the ISO 8601 parser. It reprints an accepted date-time as `YYYY-MM-DD HH:MM:SS.mmm`; a rejected string is returned as handed to the parser, that is with a trailing `Z` already rewritten.
  - `parse_log` turns one line into a list of coloured `(text, fg, bg)` parts and a level. Every missing key takes a default, and every failure becomes a single red part with level `ERROR`.
- **The ingestion loop** of `LogProcessingThread.run` (`KM_Log_Viewer_v0.0.3.py`). It skips blank lines and parses the others, stripped, in file order.
- **The batched render passes.** There are three versions, each modelled as its own class:
  - `LogViewer` in `KM_Log_Viewer_v0.0.3.py`.
  - `LogViewer` in `gui.py`.
  - `LogFilter` in `filters.py`.

  A pass starts with `process_logs`, `filter_logs` or `reset_filter`. It then advances ten records per timer tick in `process_next_batch` or `process_filtered_logs`:
  - records that pass the filter test are appended to the text widget;
  - the five per-level counters are incremented;
  - a progress value is reported.

  The versions differ in their counters:
  - the single-file version zeroes them when a file is loaded (`process_logs`) but not when a filter pass starts (`filter_logs`, `reset_filter`), so each filter pass counts the file again on top;
  - `gui.py` zeroes them at the start of every pass;
  - `LogFilter` rebinds them to fresh zeros and never counts.

Modules:

- `Wrappers`: `Option` and `Result`.
- `PyBuiltins`: the decoded JSON value and the few Python built-ins the parser relies on:
  - `dict.get`;
  - truthiness;
  - hashability;
  - type names in exception messages;
  - `str.strip`.
- `PyDateTime`: the fields of a `datetime` and the text `strftime("%Y-%m-%d %H:%M:%S.%f")` prints.
- `Utils`: `format_timestamp` and `parse_log` of `utils.py`.
- `Passes`: what a pass computes, shared by the three viewers as specification functions:
  - `Shown`, the records displayed;
  - `Tally` and `Count`, the counters;
  - `Range`, the indices visited;
  - `BatchEnd` and `Steps`, the step structure;
  - `Progress`, the reported value.
- `KmLogViewer`: the parser copy with its equivalence to `Utils`, the ingestion loop, and the single-file `LogViewer`.
- `Gui`: the `LogViewer` of `gui.py`.
- `Filters`: `LogFilter` of `filters.py`, with the text widget, the counter dictionary and the record list it shares by reference.

The library calls are parameters, gathered in `Utils.Env`:
- `json.loads`, which returns a `Result`;
- `datetime.fromisoformat`, which returns an `Option` of date-time fields;
- `json.dumps`;
- `str()` of a value that is not a string.

The widget is a sequence of appended records. The `QTimer.singleShot` self-rescheduling chain is a loop of step calls (`RunLoadPass`, `RunFilterPass`) that ends with the closing step, which finds the cursor at the end and changes nothing. Each class carries a ghost `visited` sequence of the indices the pass in flight has visited. Its invariant `visited == Range(0, cursor)` states in-order, exactly-once visiting.

## Model

| member | source | states |
|---|---|---|
| PyBuiltins.Get | utils.py:43-47 | `dict.get`: no value exactly when no entry has the key; a value found is one stored under that key |
| PyBuiltins.GetOr | utils.py:43-47 | `dict.get(key, default)`: the stored value when the key is present, the default otherwise (through `Get`) |
| PyBuiltins.Truthy | utils.py:68 | Python's truth value of a decoded value: `null`, `false`, 0, 0.0, the empty string, list and object are falsy |
| PyBuiltins.Strip | KM_Log_Viewer_v0.0.3.py:92-93 | `str.strip()` returns a contiguous slice of its input with no whitespace at either end, and drops only whitespace |
| PyBuiltins.StripEmptyIffBlank | KM_Log_Viewer_v0.0.3.py:92 | `line.strip()` is empty exactly when every character of the line is whitespace |
| PyDateTime.Strftime | utils.py:36 | `strftime("%Y-%m-%d %H:%M:%S.%f")` is 26 characters long |
| PyDateTime.ReadDigitsOfDigits | utils.py:36 | a zero-padded field of width w reads back as the number printed, for every number below 10^w |
| PyDateTime.MicrosToMillis | utils.py:36 | dropping the last three of the six `%f` digits leaves the microseconds divided by 1000, zero-padded to three digits |
| PyDateTime.StrftimeLayout | utils.py:36 | each field of the date-time sits at its fixed position in the `strftime` text, between the fixed separators |
| PyDateTime.DisplayShapeOfStrftime | utils.py:36 | `strftime(...)[:-3]` has the shape `YYYY-MM-DD HH:MM:SS.mmm` |
| PyDateTime.DisplayRoundTrip | utils.py:36 | `strftime(...)[:-3]` reads back as the wall-clock fields with milliseconds = microsecond div 1000; the UTC offset is neither applied nor printed |
| Utils.ZuluRewrite | utils.py:32-33 | the string handed to the ISO parser never ends in `Z`; every character of the input but the last is kept; when it differs from the input, the input ended in `Z` and the result is five characters longer and ends in `+00:00` |
| Utils.FormatTimestamp | utils.py:31-38 | when the ISO parser rejects the (rewritten) string, that rewritten string is returned; when it accepts, the result has the display shape and reads back as the parsed wall-clock time with milliseconds |
| Utils.UnknownTimeUnchanged | utils.py:45 | the default `"Unknown time"` passes through `format_timestamp` unchanged, for any ISO parser that accepts only strings starting with a digit |
| Utils.LevelFormat | utils.py:49-56 | the `level_formats` lookup with its default; `LevelFormatTable` states its table |
| Utils.Str | utils.py:60-64 | the text an f-string prints for a value: a string as it is, anything else through `str()` |
| Utils.ExtraParts | utils.py:67-73 | two parts per `extra` entry in insertion order: a blue label `"  key: "` and the black `json.dumps` text with a newline |
| Utils.Decode | utils.py:43-75 | a successful decode yields at least six parts, starting with the `"Timestamp: "` label |
| Utils.DecodeSucceeds | utils.py:43-75 | decoding succeeds exactly when the value is well shaped: the top level, `record`, `time` and `level` are objects when present; `repr` is a string when present; `level.name` is hashable; a truthy `extra` is an object |
| Utils.ParseLog | utils.py:40-81 | `parse_log` never fails: it returns either one part (red, level `ERROR`) or at least six parts |
| Utils.ParseLogInvalidJson | utils.py:76-77 | text that `json.loads` rejects gives exactly one red part `"Error parsing log string: " + message` on light grey, with level `ERROR` |
| Utils.ParseLogShape | utils.py:40-81 | a decoded value renders as a record (at least six parts) exactly when it is well shaped; otherwise it gives one red part starting `"An unexpected error occurred: "`, level `ERROR` |
| Utils.RecordPartsLayout | utils.py:58-73 | a record is the six fixed parts `Timestamp: `, ts, `Level: `, level, `Message: `, message, in that order and colours, then the label/value pair of each `extra` entry at positions 6+2k and 7+2k; its length is 6 + 2·entries |
| Utils.RecordPartsColours | utils.py:49-65 | only the level value takes the level's colours; all other labels are blue and values black, on light grey |
| Utils.ParseLogRecord | utils.py:43-75 | a well-shaped record renders from its own `time.repr`, `level.name`, `message` and, when truthy, `extra` entries; the level returned is `level.name` exactly as written, not case-normalised |
| Utils.ParseLogFields | utils.py:45-64 | the timestamp, level and message parts of a rendered record carry the formatted `repr`, `str(level)` with its table colours, and `str(message)` |
| Utils.LevelFormatTable | utils.py:49-56 | the five names take their table colours (INFO green, WARNING white on orange, ERROR white on red, CRITICAL white on magenta, DEBUG sky blue); every other level, including a differently cased name, is black on light grey |
| Utils.ParseLogDefaults | utils.py:43-47 | missing `time`, `level`, `message` and `extra` fall back to `"Unknown time"`, `"UNKNOWN"` (black on light grey), `"No message"` and no extra parts, and never make parsing fail |
| Utils.ParseLogEmptyRecord | utils.py:43-65 | `{}` renders as exactly the six default parts with level `UNKNOWN` |
| Utils.ParseLogNoKeyError | utils.py:78-79 | the `KeyError` branch is never taken: no output starts with `"Missing expected key: "` |
| Passes.FilterTests | gui.py:140 | the load pass treats an empty filter as no filter; the filter pass treats only `None` that way |
| Passes.Admits | gui.py:140 | the two filter tests: `not current_filter or level == current_filter` for the load pass and `current_filter is None or level == current_filter` for filter passes |
| Passes.Shown | gui.py:138-141 | the records a pass displays, in order; `ShownMembers` and `ShownCountsLevel` state which |
| Passes.ShownConcat | gui.py:135-150 | rendering in batches displays the same as rendering in one go |
| Passes.ShownMembers | gui.py:194-197 | a record is displayed exactly when some record passing the test carries it |
| Passes.ShownUnfiltered | gui.py:196 | with no filter, every record is displayed in order |
| Passes.ShownCountsLevel | gui.py:196 | a level filter displays as many records as carry that level |
| Passes.Count | gui.py:143-144 | the number of records carrying a level, never more than the records |
| Passes.Bump | gui.py:143-144 | counting one record adds no key to the counters; `TallyCounts` states how the values move |
| Passes.Tally | gui.py:138-144 | the counters after counting records in order; `TallyCounts` states the result |
| Passes.CountsSum | gui.py:199-200 | the five counts add up to the number of records with a known level, which is at most the number of records |
| Passes.TallyCounts | gui.py:199-200 | a pass adds to each existing counter the number of visited records with that level, and adds no key |
| Passes.TallyConcat | gui.py:135-150 | counting in batches counts the same as counting in one go |
| Passes.PassSnoc | gui.py:194-200 | visiting one more record appends it when it passes the test and bumps its level's counter |
| Passes.BatchAdvance | gui.py:185-206 | the display and counters after one more step are those of one pass over the longer prefix |
| Passes.WholePass | gui.py:116-150 | the synchronous first step followed by the remaining steps is one pass over all records |
| Passes.Range | gui.py:194 | the indices `lo..hi-1`, as many as the range holds |
| Passes.RangeAt | gui.py:194 | the k-th visited index is lo + k: each index once, in increasing order |
| Passes.RangeConcat | gui.py:192-204 | consecutive batches visit consecutive index ranges |
| Passes.BatchEnd | gui.py:192 | `min(cursor + 10, total)`: strictly past the cursor, at most ten records on, never past the total |
| Passes.StepsCeiling | gui.py:185-206 | a pass over r records makes ceil(r / 10) productive steps |
| Passes.Steps | gui.py:129-150 | the productive steps a pass makes before the closing step: none exactly when the cursor is already at the total |
| Passes.Progress | gui.py:146 | `int(end / total * 100)` in exact arithmetic; `ProgressBounds` and `ProgressMonotone` state its range and order |
| Passes.ProgressBounds | gui.py:202 | progress lies in 0..100 and is 100 exactly at the end |
| Passes.ProgressMonotone | gui.py:202 | progress never decreases as the cursor moves forward |
| Passes.ReportedStep | gui.py:202 | a step that moves the cursor forward keeps the reported values in 0..100, non-decreasing and not below the progress at the chain's start |
| Passes.ReportedDone | gui.py:202 | the last value a finished pass reports is 100 |
| Passes.ReportedPrepend | gui.py:127-146 | the load pass's first report followed by the chain's reports is still in 0..100 and non-decreasing |
| KmLogViewer.FormatTimestamp | KM_Log_Viewer_v0.0.3.py:106-113 | the single-file `format_timestamp` returns what `utils.format_timestamp` returns, for every input |
| KmLogViewer.ParseLogAgrees | KM_Log_Viewer_v0.0.3.py:115-156 | the single-file `parse_log` returns what `utils.parse_log` returns, for every input and every library behaviour |
| KmLogViewer.DecodeAgrees | KM_Log_Viewer_v0.0.3.py:117-150 | the single-file decoding agrees with `utils.py`'s on every decoded value |
| KmLogViewer.ParseLog | KM_Log_Viewer_v0.0.3.py:115-156 | never fails: one red `ERROR` part or at least six parts |
| KmLogViewer.Decode | KM_Log_Viewer_v0.0.3.py:117-150 | a successful decode yields at least six parts |
| KmLogViewer.NonBlank | KM_Log_Viewer_v0.0.3.py:91-92 | the lines kept are no more than the lines read, and each is a line of the file whose `strip()` is non-empty |
| KmLogViewer.NonBlankKeeps | KM_Log_Viewer_v0.0.3.py:92 | every line with a non-whitespace character is kept |
| KmLogViewer.Ingest | KM_Log_Viewer_v0.0.3.py:91-94 | the records ingestion collects: no more than the lines read, each with at least one part |
| KmLogViewer.IngestParsesNonBlank | KM_Log_Viewer_v0.0.3.py:91-94 | ingestion yields one record per non-blank line, each the parse of that line stripped, in file order |
| KmLogViewer.IngestLines | KM_Log_Viewer_v0.0.3.py:91-94 | the loop collects one record per non-blank line, in file order, each the parse of the stripped line with at least one part |
| KmLogViewer.LogViewer.constructor | KM_Log_Viewer_v0.0.3.py:159-164 | no filter, no records, the five counters at 0, an empty display |
| KmLogViewer.LogViewer.ProcessLogs | KM_Log_Viewer_v0.0.3.py:272-284 | zeroes the counters, copies the ingested records and renders the first batch; the filter is kept |
| KmLogViewer.LogViewer.ProcessNextBatch | KM_Log_Viewer_v0.0.3.py:286-311 | at the end it changes nothing; otherwise it visits `[cursor, min(cursor+10, total))` in order, displays the records passing `not current_filter or level == current_filter`, counts every visited known level, moves the cursor and reports `end*100/total` |
| KmLogViewer.LogViewer.FilterLogs | KM_Log_Viewer_v0.0.3.py:322-335 | with no records it changes nothing; otherwise it sets the filter, clears the display, sets cursor 0 and total = `len(full_logs)`, and leaves the counters as they are |
| KmLogViewer.LogViewer.ResetFilter | KM_Log_Viewer_v0.0.3.py:372-384 | as `filter_logs` with filter `None`; the counters are left as they are |
| KmLogViewer.LogViewer.ProcessFilteredLogs | KM_Log_Viewer_v0.0.3.py:347-370 | as `process_next_batch`, over `full_logs` with the test `current_filter is None or level == current_filter` |
| KmLogViewer.LogViewer.VisitBatch | KM_Log_Viewer_v0.0.3.py:296-302 | the batch loop appends `Shown` of the batch to the display, tallies every record of the batch, and visits its indices in order |
| KmLogViewer.LogViewer.VisitRecord | KM_Log_Viewer_v0.0.3.py:297-302 | one record is appended when it passes the test, and its level's counter is bumped whether or not it was displayed |
| KmLogViewer.LogViewer.RunLoadPass | KM_Log_Viewer_v0.0.3.py:286-311 | the timer chain ends with the cursor at the total after ceil(remaining/10) productive steps, having displayed and counted the remaining records; the reported values lie in 0..100, never decrease, end at 100, and none is below the progress already reached when the chain starts |
| KmLogViewer.LogViewer.RunFilterPass | KM_Log_Viewer_v0.0.3.py:347-370 | as `RunLoadPass`, for `process_filtered_logs` |
| KmLogViewer.LogViewer.OpenAndRender | KM_Log_Viewer_v0.0.3.py:257-311 | after loading, the display holds exactly the records the filter admits, in order, and each counter the number of records with its level; the whole load pass (the synchronous first step, then the chain) reports ceil(n/10) values, each in 0..100, never decreasing, the last 100 |
| KmLogViewer.LogViewer.FilterToCompletion | KM_Log_Viewer_v0.0.3.py:322-370 | a finished filter pass displays exactly the records of that level, in order, and adds the per-level counts of all records to the counters already there |
| KmLogViewer.LogViewer.ResetToCompletion | KM_Log_Viewer_v0.0.3.py:347-384 | a finished reset pass displays every record in order and adds the per-level counts again |
| KmLogViewer.CountsAfterLoadAndReset | KM_Log_Viewer_v0.0.3.py:272-384 | one INFO record, loaded and then reset: one record shown, INFO counter 2 |
| Gui.LogViewer.constructor | gui.py:11-15 | no filter, no records, the five counters at 0, an empty display |
| Gui.LogViewer.ResetStatistics | gui.py:223-225 | the counters become exactly the five names at 0 |
| Gui.LogViewer.ProcessLogs | gui.py:116-127 | resets the counters, copies the ingested records and renders the first batch; the filter is kept |
| Gui.LogViewer.ProcessNextBatch | gui.py:129-150 | at the end it changes nothing; otherwise it visits the next batch in order, displays records passing the falsy-or-equal test, counts every visited known level and moves the cursor to `min(cursor+10, total)` |
| Gui.LogViewer.FilterLogs | gui.py:161-174 | with no records it changes nothing; otherwise it sets the filter, zeroes the counters, clears the display and sets cursor 0 and total = `len(full_logs)` |
| Gui.LogViewer.ResetFilter | gui.py:208-221 | as `filter_logs` with filter `None` |
| Gui.LogViewer.ProcessFilteredLogs | gui.py:185-206 | as `process_next_batch`, over `full_logs` with the none-or-equal test |
| Gui.LogViewer.VisitBatch | gui.py:194-200 | the batch loop appends `Shown` of the batch, tallies every record of it, and visits its indices in order |
| Gui.LogViewer.VisitRecord | gui.py:195-200 | one record is appended when it passes the test, and its level is counted either way |
| Gui.LogViewer.RunLoadPass | gui.py:129-150 | the timer chain ends at the total after ceil(remaining/10) productive steps, with progress in 0..100, non-decreasing, ending at 100, and none below the progress already reached when the chain starts |
| Gui.LogViewer.RunFilterPass | gui.py:185-206 | as `RunLoadPass`, for `process_filtered_logs` |
| Gui.LogViewer.OpenAndRender | gui.py:102-150 | after loading, the display holds exactly the admitted records, in order, and each counter the number of records with its level; the whole load pass (the first step, then the chain) reports ceil(n/10) values, each in 0..100, never decreasing, the last 100 |
| Gui.LogViewer.FilterToCompletion | gui.py:161-206 | a finished filter pass displays exactly the records of that level, in order; each counter equals the number of records with its level, whatever the filter; the counters sum to the records with a known level |
| Gui.LogViewer.ResetToCompletion | gui.py:185-225 | a finished reset pass displays every record, in order; each counter equals the number of records with its level |
| Gui.CountsAfterLoadAndReset | gui.py:116-225 | one INFO record, loaded and then reset: one record shown, INFO counter 1 |
| Filters.TextView.Clear | filters.py:26 | the widget is emptied |
| Filters.TextView.Append | filters.py:53 | one record is appended at the end |
| Filters.LogFilter.constructor | filters.py:7-14 | keeps the references it is given; no filter, cursor and total 0 |
| Filters.LogFilter.ResetStatistics | filters.py:77-79 | the counters are rebound to a fresh dictionary of five zeros; the dictionary bound before is not modified |
| Filters.LogFilter.FilterLogs | filters.py:17-32 | with an empty list it changes nothing; otherwise it sets the filter, rebinds fresh zero counters, clears the widget and sets cursor 0 and total = `len(full_logs)` |
| Filters.LogFilter.ResetFilter | filters.py:61-75 | as `filter_logs` with filter `None` |
| Filters.LogFilter.ProcessFilteredLogs | filters.py:42-59 | at the end it changes nothing; otherwise it appends the batch's matching records, moves the cursor to `min(cursor+10, total)`, and leaves the counters and the list alone |
| Filters.LogFilter.VisitBatch | filters.py:50-53 | the batch loop appends `Shown` of the batch and visits its indices in order |
| Filters.LogFilter.VisitRecord | filters.py:51-53 | one record is appended when it passes `current_filter is None or level == current_filter` |
| Filters.LogFilter.RunFilterPass | filters.py:42-59 | the timer chain ends at the total after ceil(remaining/10) productive steps, with progress in 0..100, non-decreasing, ending at 100 |
| Filters.LogFilter.FilterToCompletion | filters.py:17-59 | a finished filter pass leaves exactly the records of that level in the widget, in order, with the counters at fresh zeros |
| Filters.LogFilter.ResetToCompletion | filters.py:42-75 | a finished reset pass leaves every record in the widget, in order, with the counters at fresh zeros |
| Filters.FilterLeavesCountsAlone | filters.py:17-79 | filtering two INFO records and one ERROR record for ERROR shows one record; the caller's counters keep their value and the filter's own stay at 0 |

## Left out

- Widgets are not modelled: windows, dialogs and progress bars; `append_log_parts`' character formats and its 80-dash separator line; `create_char_format`, `initUI` and `center`; and `update_statistics`' HTML text. The display is the sequence of appended part lists, and colours are tags.
- `QTimer.singleShot` and `QApplication.processEvents` are not modelled; a pass is a loop of step calls. A pass started while another chain is still scheduled shares its cursor; that interleaving is not modelled.
- The ingestion thread is not modelled: reading the file, the signals, error reporting and the ingestion progress value. `parser.py` is not part of this model; only the blank-line and parse loop is kept.
- `json.loads`, `json.dumps`, `datetime.fromisoformat` and `str()` of non-strings are inputs, not models of the library.
  - A JSON object is a sequence of key/value pairs, and lookups return the first pair with the key. `json.loads` keeps only the last of duplicated keys, so a decoded object never has duplicates.
- PyDateTime.Strftime: the year is printed zero-padded to four digits. The C library's `%Y` for years below 1000 depends on the platform.
- Passes.Progress: the value is `end*100/total` in exact arithmetic. Python computes `int(end/total*100)` in floating point, which can come out one lower (29/100*100 truncates to 28). Only bounds, monotonicity and the final 100 are claimed about the real value.
- `filters.py` keeps an `update_statistics` callback that it never calls. Its `print` debug lines are output only.
- `log_viewer.py` is not part of this model; its methods have empty bodies. `search_dialog.py` only forwards non-empty text to `filter_logs`.
- KmLogViewer.LogViewer.Valid and Gui.LogViewer.Valid: the thread's record list and `full_logs` are one fixed sequence while a pass runs. In the source, `open_file` rebinds `self.thread` (KM_Log_Viewer_v0.0.3.py:237, gui.py:83) before its ingestion finishes, and the load step reads `self.thread.logs[idx]` (KM_Log_Viewer_v0.0.3.py:297, gui.py:139). A load chain still scheduled when a second file is opened would read the new, still-growing list against the old total. That case is not modelled.
- PyBuiltins.Json has no `NaN`, `Infinity` or `-Infinity`, which `json.loads` accepts by default. A line such as `{"record":{"extra":NaN}}` gives "An unexpected error occurred: 'float' object has no attribute 'items'" in Python; the model cannot express that input.
- Utils.ParseLog: every failure of `json.loads` is rendered as "Error parsing log string: …". A `RecursionError` from deeply nested input is not a `JSONDecodeError`; it reaches the last handler (utils.py:80-81) as "An unexpected error occurred: …". The model does not tell that failure apart.
- Filters.LogFilter.Valid: the shared `full_logs` list is assumed unchanged by its owner while a pass is in flight. A list shortened under a running pass would raise `IndexError` in Python.

## Findings

| source | as written | input that shows it | evidently intended | confidence | as-written member | corrected member |
|---|---|---|---|---|---|---|
| KM_Log_Viewer_v0.0.3.py:322-335, 372-384 | `filter_logs` and `reset_filter` start a pass that counts every record again without zeroing `level_counts`, so the counters grow by the file's per-level counts on each pass | a file with one INFO record, opened and then RESET: one record shown, "INFO: 2" | each counter holds the number of records with its level, as in `gui.py`, whose passes call `reset_statistics` first | high; not executed | KmLogViewer.CountsAfterLoadAndReset | Gui.LogViewer.ResetToCompletion |
