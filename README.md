# RSSI spectrum viewer — a verified model

The repository shows the RSSI readings of an Airview spectrum analyser against frequency. It comes in three variants:

- a console script, `realtime_plot.py`;
- a basic PyQt window, `gui-untested.py`;
- an extended PyQt window, `gui_untested_too.py`. It adds logging, CSV export and a scan interval.

This project models the parts of those programs that are logic rather than widget glue.

- **The readings line and its parser** (module `RealtimePlot`, helpers in `PyText`).
  - `scan_callback` prints `Received N RSSI level readings: [a, b, ...]`.
  - `parse_rssi_input` reads such text back. It searches for the regular expression `Received \d+ RSSI level readings: \[(.*)\]`, splits the captured group at commas and converts every piece with `int()`.
  - Every failure becomes `[]`.
  - The search is modelled exactly:
    - the leftmost position where the pattern matches wins;
    - `\d+` takes the whole digit run;
    - the greedy `.*` stops at the last `]` before the first newline.
  - `int()` accepts an optional sign and decimal digits, surrounded by the whitespace it skips for an ASCII string: space, tab, line feed, vertical tab, form feed and carriage return.
  - Python's `str(list)`, `str.split`, `str(int)` and `int()` are modelled in `PyText`.
- **Frequency axes** (module `Axis`).
  - The step axis `start + i*step` is used by the console plot and the basic chart.
  - `np.linspace` is used by the extended chart and by logging and export.
  - Both are over exact reals, and both are paired with readings as `zip` does.
- **The port list** (module `Ports`). It is `sorted(set(acm + usb))`, or `['/dev/ttyACM0']` when nothing was found. The two glob results are inputs.
- **The scanner feed** (module `ScanFeed`).
  - Messages are tagged `rssi`, `__status__` or `__error__`.
  - `rssi` payloads go to the plot queue and the other two go to the status text.
  - Both GUIs route messages the same way.
  - A drain of the plot queue ends up showing the last non-empty list.
- **The basic window** (module `BasicGui`). The classes `SpectrumCanvas` and `MainWindow` keep the state their handlers change:
  - the window's and the chart's limits;
  - the plot queue;
  - the status text;
  - the two button flags;
  - the stop flag;
  - the port list;
  - the line currently drawn.
- **The extended window** (module `ExtendedGui`). It has the same state, plus:
  - the scan interval;
  - the logging switch;
  - `latest_data`;
  - whether `~/rssi_log.csv` exists;
  - the rows appended to that file.

  An export returns the rows it writes.

## Model

| member | source | states |
|---|---|---|
| RealtimePlot.ScanLine | realtime_plot.py:81 | the printed line is a single line (no newline in it) that opens with `Received ` and closes with the list's `]`, so the pattern can find it |
| RealtimePlot.ParseRssiInput | realtime_plot.py:21-38 | a non-empty result comes only from a successful search, and has one reading per comma-separated piece of the captured group |
| RealtimePlot.ReadingsOf | realtime_plot.py:29-38 | converting a group yields `[]` or one reading per piece: one more than the group's commas |
| RealtimePlot.Search | realtime_plot.py:27 | what the search captures never holds a newline, as `.` does not cross one |
| RealtimePlot.ScanLineRoundTrip | realtime_plot.py:81 | parsing the line `scan_callback` prints for any list of readings gives back exactly that list, the empty list included |
| RealtimePlot.ParseIgnoresCount | realtime_plot.py:27-32 | the count after `Received` is never checked: with any count, a printed readings list parses back to itself |
| RealtimePlot.ParseWithoutPattern | realtime_plot.py:27-28 | text in which `Received ` occurs nowhere parses to `[]` |
| RealtimePlot.ParseEmptyBrackets | realtime_plot.py:29-32 | a match whose brackets are empty gives `[]`, because `"".split(",")` is `[""]` and `int("")` fails |
| RealtimePlot.ReadingsOfGroup | realtime_plot.py:29-38 | on a match, the result is the integer of every comma-separated piece in order, so it has one more element than the group has commas; if any piece is not an integer literal, the result is `[]`, never a partial list |
| RealtimePlot.MatchRunsToLastBracket | realtime_plot.py:27 | the pattern matches `Received <digits> RSSI level readings: [g]rest` and captures all of `g`, even when `g` holds a `]`, provided `g` has no newline and the rest of the line has no `]` |
| RealtimePlot.MatchAtShape | realtime_plot.py:27 | anything the pattern matches has that shape: a non-empty digit count, a group without a newline, and no later `]` on the same line |
| RealtimePlot.MatchGroupShape | realtime_plot.py:27 | `(.*)\]` splits its text into the group, the bracket, and a rest whose first line has no `]` |
| RealtimePlot.SearchNone | realtime_plot.py:27-28 | the search fails exactly when the pattern matches at no position of the text |
| RealtimePlot.FirstMatchNone | realtime_plot.py:27-28 | trying the positions left to right finds nothing exactly when every attempt fails |
| RealtimePlot.SearchLeftmost | realtime_plot.py:27-29 | a successful search returns the match at the leftmost position where the pattern matches |
| RealtimePlot.FirstMatchLeftmost | realtime_plot.py:27-29 | trying the positions left to right returns the first successful attempt |
| RealtimePlot.Attempts | realtime_plot.py:27 | the search makes one attempt per position of the text, the end included |
| RealtimePlot.SearchAtStart | realtime_plot.py:27 | a match at the head of the text is the one the search reports |
| RealtimePlot.ReadingsOfRendered | realtime_plot.py:31 | the group of a printed list converts back to that list; the empty group converts to `[]` |
| RealtimePlot.DigitRun | realtime_plot.py:27 | `\d+` takes the longest run of digits at the head of the text |
| RealtimePlot.FirstLine | realtime_plot.py:27 | `.` ranges up to the first newline and never across it |
| RealtimePlot.LastIndexOf | realtime_plot.py:27 | the greedy `.*\]` stops at the last `]`; there is none exactly when `]` does not occur |
| RealtimePlot.Frequencies | realtime_plot.py:61-62 | the frequency list has exactly one entry per reading |
| RealtimePlot.FrequenciesWithinPlotRange | realtime_plot.py:52-62 | every point of a sweep lies inside the fixed x-range [2399, 2485] exactly when the sweep has at most 173 readings |
| PyText.NatToString | realtime_plot.py:81 | `str(n)` is a non-empty run of digits with no leading zero except for 0 |
| PyText.DigitsValueOfNatToString | realtime_plot.py:81 | reading the decimal digits of `str(n)` gives back `n` |
| PyText.IntToString | realtime_plot.py:81 | `str(x)` is non-empty, ends in a digit, and is all digits except for a leading `-`, which only a negative `x` has |
| PyText.ReprListOnOneLine | realtime_plot.py:81 | a printed list holds no newline and ends with `]` |
| PyText.JoinIntsCharacters | realtime_plot.py:81 | a printed list body holds only digits, `-`, `,` and spaces, so no `]` or newline |
| PyText.ParseInt | realtime_plot.py:31 | `int()` succeeds only on text that holds a decimal digit, so it fails on the empty string and on blank text |
| PyText.ParseIntOfRendered | realtime_plot.py:31 | `int()` of `str(x)` after any run of whitespace is `x` |
| PyText.StripLeft | realtime_plot.py:31 | leading whitespace is a prefix of the text that is all whitespace, and what follows does not start with whitespace |
| PyText.StripRight | realtime_plot.py:31 | trailing whitespace is removed in the same way at the end |
| PyText.Split | realtime_plot.py:31 | `str.split(",")` gives one more piece than there are commas, and no piece holds a comma |
| PyText.SplitJoin | realtime_plot.py:31 | splitting comma-joined pieces that hold no comma gives back those pieces |
| PyText.JoinSplit | realtime_plot.py:31 | joining the pieces of a split with the separator gives back the text |
| PyText.SplitReprList | realtime_plot.py:31 | splitting a printed non-empty list body at commas gives one piece per element (the element, preceded by a space from the second on), and each piece converts back to its element |
| PyText.ParseAll | realtime_plot.py:31-38 | `list(map(int, pieces))` either converts every piece, in order, or fails as a whole |
| Axis.StepAxis | gui-untested.py:84 | the step axis has exactly one frequency per reading |
| Axis.StepAxisSpacing | gui-untested.py:84 | consecutive step-axis frequencies are exactly one step apart |
| Axis.StepAxisIncreasing | gui-untested.py:84 | with a positive step, the step axis is strictly increasing |
| Axis.Linspace | gui_untested_too.py:87 | `np.linspace(start, stop, n)` has exactly `n` entries |
| Axis.LinspaceEndpoints | gui_untested_too.py:241 | linspace starts at `start` and, with two or more points, ends exactly at `stop` |
| Axis.LinspaceSpacing | gui_untested_too.py:87 | consecutive linspace points are `(stop - start) / (n - 1)` apart |
| Axis.LinspaceWithin | gui_untested_too.py:87 | for an ordered range, every linspace point lies within it |
| Axis.StepAxisIsLinspace | gui-untested.py:84-89 | when `(n - 1)` steps span exactly the range, the step axis and linspace coincide |
| Axis.Pairs | gui_untested_too.py:245 | `zip` stops at the shorter input |
| Axis.LinspacePoints | gui_untested_too.py:87-90 | pairing readings with their linspace axis keeps every reading in order, and the first and last points sit at `start` and `stop` |
| Ports.LessIrreflexive | gui-untested.py:268 | Python's string order is irreflexive |
| Ports.LessTransitive | gui-untested.py:268 | Python's string order is transitive |
| Ports.LessTotal | gui-untested.py:268 | of two different strings, one sorts before the other |
| Ports.Insert | gui-untested.py:268 | inserting into a strictly sorted list keeps it sorted and adds exactly that element |
| Ports.SortedDistinct | gui-untested.py:268 | `sorted(set(xs))` is strictly sorted and has exactly the members of `xs` |
| Ports.SortedListingUnique | gui-untested.py:268 | two strictly sorted lists with the same members are equal |
| Ports.NormalisePorts | gui-untested.py:267-274 | with no devices found, the list is exactly `['/dev/ttyACM0']`; otherwise it is strictly sorted, has exactly the found paths, and has no repeats |
| Ports.NormaliseIgnoresOrder | gui_untested_too.py:214-216 | the port list depends only on which paths were found, not on their order or repeats |
| ScanFeed.Enqueued | gui-untested.py:317-318 | one callback never changes what the queue already holds; it appends exactly its payload when tagged `rssi`, and nothing otherwise |
| ScanFeed.StatusAfter | gui-untested.py:319-322 | `__status__` shows its payload's text, `__error__` shows that text behind `ERROR: `, and any other tag leaves the status as it was |
| ScanFeed.FeedKeepsArrivalOrder | gui-untested.py:314-322 | after any run of callbacks, the queue is what it held plus every `rssi` payload in arrival order; status and error messages never reach it |
| ScanFeed.RssiPayloadsAppend | gui-untested.py:317-318 | one more message adds its payload to the `rssi` payloads only if it is tagged `rssi` |
| ScanFeed.LastPlottable | gui-untested.py:327-333 | there is no last non-empty list exactly when the queue holds none; otherwise it is non-empty, is in the queue, and no non-empty list follows it |
| ScanFeed.LastPlottableStep | gui_untested_too.py:279-283 | draining one more payload makes it the last shown list if it is non-empty, and otherwise changes nothing |
| BasicGui.LastUpdateText | gui-untested.py:333 | the status reads `Last update: ` and ` points` around a run of digits whose decimal value is the number of points drawn |
| BasicGui.SpectrumCanvas.constructor | gui-untested.py:50-58 | the chart starts with the given limits and no line |
| BasicGui.SpectrumCanvas.UpdateLimits | gui-untested.py:71-78 | the chart takes all five limits |
| BasicGui.SpectrumCanvas.PlotRssi | gui-untested.py:80-89 | an empty list changes nothing; otherwise the line has one point per reading at `start + i*step`, and the truncating and linspace branches never fire |
| BasicGui.MainWindow.constructor | gui-untested.py:149-174 | the window starts with the default limits, an empty queue, "Ready", Start enabled, Stop disabled and the normalised port list |
| BasicGui.MainWindow.RefreshPorts | gui-untested.py:265-274 | the combo box holds the normalised port list |
| BasicGui.MainWindow.UpdateLimitsFromUi | gui-untested.py:276-289 | the window's five fields always take the spin values; if start >= end, the status is "Start frequency must be < end frequency" and the chart is unchanged; if only min >= max, the status is "RSSI min must be < RSSI max" and the chart is unchanged; otherwise the chart takes the window's values; the chart's ranges stay ordered |
| BasicGui.MainWindow.OnStart | gui-untested.py:291-299 | clears the stop flag, disables Start, enables Stop and shows "Starting..." |
| BasicGui.MainWindow.OnStop | gui-untested.py:301-312 | sets the stop flag, enables Start, disables Stop and shows "Stopping..." |
| BasicGui.MainWindow.ScannerCallback | gui-untested.py:314-322 | an `rssi` payload is appended to the queue; `__status__` shows the payload; `__error__` shows it behind "ERROR: "; any other tag changes nothing |
| BasicGui.MainWindow.ProcessPlotQueue | gui-untested.py:324-335 | the queue is emptied; if it held a non-empty list, the last one is drawn and the status reads "Last update: N points" for it; otherwise the line and the status are unchanged |
| ExtendedGui.EntryRows | gui_untested_too.py:290-299 | one log row per reading, all with the call's timestamp; the first is (`start_freq`, first reading), and with two or more readings the last is (`end_freq`, last reading) |
| ExtendedGui.EntryRowsWithinRange | gui_untested_too.py:290-299 | for an ordered range, every row of a sweep is an entry with the call's timestamp whose frequency lies within [`start_freq`, `end_freq`] |
| ExtendedGui.EntryRowsSpacing | gui_untested_too.py:290-299 | consecutive rows of a sweep are logged exactly `(end_freq - start_freq) / (n - 1)` MHz apart |
| ExtendedGui.LogDataRows | gui_untested_too.py:293-299 | one `_log_data` call appends one row per reading, plus one header if the file did not exist; a header appears only as the first row, and only for a new file |
| ExtendedGui.DrainLogGrows | gui_untested_too.py:277-299 | while the queue is drained, drawing one more payload extends the log exactly as the drain log of the payloads taken so far grows |
| ExtendedGui.LoggedEntriesShape | gui_untested_too.py:279-285 | a drain logs exactly one entry row per reading of its non-empty lists, and no header |
| ExtendedGui.NothingLoggedWithoutData | gui_untested_too.py:281-285 | a queue without a non-empty list logs nothing |
| ExtendedGui.HeaderOnlyForNewLog | gui_untested_too.py:293-297 | within a drain, the header row appears only first, and only when the log did not exist before; the drain adds one row per reading plus that header |
| ExtendedGui.DrainLogStep | gui_untested_too.py:279-299 | draining one more payload appends what `_log_data` writes for it, if anything; the header goes with the first list logged into a new file |
| ExtendedGui.ExportRows | gui_untested_too.py:241-246 | an export is one header row, then one (frequency, reading) row per reading in order on the linspace axis; the first frequency is `start_freq`, and with two or more readings the last is `end_freq` |
| ExtendedGui.SpectrumCanvas.constructor | gui_untested_too.py:57-66 | the chart starts with the given limits and no line |
| ExtendedGui.SpectrumCanvas.UpdateLimits | gui_untested_too.py:77-82 | the chart takes all five limits |
| ExtendedGui.SpectrumCanvas.PlotRssi | gui_untested_too.py:84-91 | an empty list changes nothing; otherwise the line pairs every reading with its linspace frequency |
| ExtendedGui.MainWindow.constructor | gui_untested_too.py:130-153 | the window starts with the default limits, a 2.5 s interval, logging off, no latest data, an empty queue, "Ready", Start enabled and the normalised port list |
| ExtendedGui.MainWindow.RefreshPorts | gui_untested_too.py:213-216 | the combo box holds the normalised port list |
| ExtendedGui.MainWindow.UpdateConfig | gui_untested_too.py:218-225 | with no validation, the window takes all six spin values and the chart's limits equal the window's afterwards |
| ExtendedGui.MainWindow.ToggleLogging | gui_untested_too.py:227-232 | logging follows the truthiness of the check-box state, and the status says which |
| ExtendedGui.MainWindow.ExportCsv | gui_untested_too.py:234-247 | with no latest data, the status is "No data to export" and nothing is written; a cancelled dialog writes nothing and keeps the status; otherwise exactly the export rows of `latest_data` are written and the status names the path |
| ExtendedGui.MainWindow.StartScan | gui_untested_too.py:249-256 | clears the stop flag, disables Start, enables Stop and shows "Scanning..." |
| ExtendedGui.MainWindow.StopScan | gui_untested_too.py:258-267 | sets the stop flag, enables Start, disables Stop and shows "Stopped" |
| ExtendedGui.MainWindow.ScannerCallback | gui_untested_too.py:269-275 | routes a message exactly as the basic window does |
| ExtendedGui.MainWindow.LogData | gui_untested_too.py:289-299 | appends the header if the log did not exist, then one row per reading; afterwards the log exists |
| ExtendedGui.MainWindow.DrawPayload | gui_untested_too.py:280-285 | a non-empty list is drawn and becomes `latest_data`, and is logged while logging is on; anything else changes nothing |
| ExtendedGui.MainWindow.UpdatePlot | gui_untested_too.py:277-287 | the queue is emptied; `latest_data` and the line become the last non-empty list, or stay unchanged if there was none; while logging is on, the log grows by exactly the drain's rows and by nothing otherwise; the log exists afterwards if it existed or something was logged |

## Left out

- Widgets and drawing: the Qt widgets, layouts, timers and every matplotlib call. The status label, the button states and the port combo box are plain fields. The drawn line is the list of points it shows.
- The scanner threads (`ScannerThread.run`, `start_scan` in the console script) and `closeEvent`. They are thin wrappers over the `pyairview` library, which is not part of this model. They also involve a daemon thread, `threading.Event` and `time.sleep` polling. The calls to `pyairview.is_scanning`/`stop_scan` in `_on_stop`/`_stop_scan` are omitted for the same reason.
- `BasicGui.MainWindow.OnStart`, `ExtendedGui.MainWindow.StartScan`: do not model the thread they start, nor the port text and interval passed to it.
- Queue synchronisation: `queue.Queue` is a sequence that is drained sequentially.
- Status updates from the scanner thread: `QMetaObject.invokeMethod` with a queued connection defers them to the GUI thread. The model applies them at once.
- A `__status__` payload that is not text: it is shown in Python's list notation. Qt would reject it, but the scanner threads only ever send text.
- File and system I/O:
  - `open` and the text formatting done by `csv.writer`;
  - `os.path.expanduser`;
  - the save dialog, whose chosen path is an input (`""` when it is cancelled);
  - the existence of `~/rssi_log.csv`, which is a field set by the constructor;
  - the globs over `/dev`, whose results are inputs.
- `ExtendedGui.MainWindow.UpdatePlot`: takes one timestamp per drain, where the source reads the clock once per logged list. `datetime.now()` is an opaque string input.
- Floating point: frequencies are exact reals. Float rounding, the spin boxes' decimals and ranges, and the way floats print in CSV are not modelled.
- `PyText.ParseInt`: does not accept the underscores or non-ASCII digits and whitespace that Python's `int()` allows.
- `PyText.ParseInt`: does not model the limit on integer string conversion of Python 3.11 and later (and of the 3.7–3.10 security releases): `int()` of a literal with more than 4300 digits raises `ValueError`, which `parse_rssi_input` turns into `[]`. The model parses literals of any length.
- `PyText.IntToString`: does not model the same limit for `str()`: converting an integer of more than 4300 digits raises `ValueError`, so `scan_callback` would fail on such a reading. `RealtimePlot.ScanLineRoundTrip` therefore holds in the source only for readings of at most 4300 digits.
- `RealtimePlot.DigitRun`: `\d` is ASCII digits only, where Python's `re` also matches other Unicode decimal digits.
- Printed diagnostics from `print`, and the console script's global queue, its `while True` plot loop and `start_scan`.
