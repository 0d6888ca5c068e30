/**
 * gui_untested_too.py, the extended PyQt window: the basic window's state plus
 * the scan interval, the logging switch, the latest sweep kept for export, and
 * the rows of the CSV log.  The chart uses a linspace axis over the configured
 * range.  The log file on disk is represented by whether it exists and by the
 * rows this window appended to it; an export hands back the rows it writes.
 */
module ExtendedGui {
  import opened Wrappers
  import Axis
  import Ports
  import opened ScanFeed

  const DefaultStartFreq: real := 2399.0
  const DefaultEndFreq: real := 2485.0
  const DefaultFreqStep: real := 0.5
  const DefaultRssiMin: int := -100
  const DefaultRssiMax: int := -40
  const DefaultScanInterval: real := 2.5

  const NoDataText := "No data to export"

  datatype Limits = Limits(startFreq: real, endFreq: real, rssiMin: int, rssiMax: int, freqStep: real)

  /** A row of `~/rssi_log.csv`: the header, or (timestamp, frequency, RSSI). */
  datatype LogRow = LogHeader | LogEntry(timestamp: string, freq: real, rssi: int)

  /** A row of an exported CSV file: the header, or (frequency, RSSI). */
  datatype ExportRow = ExportHeader | ExportEntry(freq: real, rssi: int)

  /** The log rows `_log_data` writes for one sweep, all with one timestamp: one
    * per reading, the first at `start_freq` and the last at `end_freq`. */
  function EntryRows(data: seq<int>, start: real, stop: real, stamp: string): (rows: seq<LogRow>)
    ensures |rows| == |data|
    ensures |data| >= 1 ==> rows[0] == LogEntry(stamp, start, data[0])
    ensures |data| >= 2 ==> rows[|data| - 1] == LogEntry(stamp, stop, data[|data| - 1])
  {
    var freqs := Axis.Linspace(start, stop, |data|);
    Axis.LinspaceEndpoints(start, stop, |data|);
    seq(|data|, i requires 0 <= i < |data| => LogEntry(stamp, freqs[i], data[i]))
  }

  /** Every reading is logged, in order, beside its frequency on the linspace
    * axis of the configured range. */
  lemma EntryRowsPairing(data: seq<int>, start: real, stop: real, stamp: string)
    ensures forall i :: 0 <= i < |data| ==>
              EntryRows(data, start, stop, stamp)[i] == LogEntry(stamp, Axis.Linspace(start, stop, |data|)[i], data[i])
  {
  }

  /** The row of one reading. */
  lemma EntryRowAt(data: seq<int>, start: real, stop: real, stamp: string, i: nat)
    requires i < |data|
    ensures EntryRows(data, start, stop, stamp)[i] == LogEntry(stamp, Axis.Linspace(start, stop, |data|)[i], data[i])
  {
  }

  /** Over an ordered range, every reading of a sweep is logged as an entry
    * with the sweep's timestamp, at a frequency inside the configured range. */
  lemma EntryRowsWithinRange(data: seq<int>, start: real, stop: real, stamp: string)
    requires start <= stop
    ensures forall i :: 0 <= i < |data| ==>
              EntryRows(data, start, stop, stamp)[i].LogEntry? &&
              EntryRows(data, start, stop, stamp)[i].timestamp == stamp &&
              start <= EntryRows(data, start, stop, stamp)[i].freq <= stop
  {
    var rows := EntryRows(data, start, stop, stamp);
    EntryRowsPairing(data, start, stop, stamp);
    Axis.LinspaceWithin(start, stop, |data|);
    forall i | 0 <= i < |data|
      ensures rows[i].LogEntry? && rows[i].timestamp == stamp && start <= rows[i].freq <= stop
    {
      assert rows[i].freq == Axis.Linspace(start, stop, |data|)[i];
    }
  }

  /** Consecutive readings of a sweep are logged one linspace step apart. */
  lemma EntryRowsSpacing(data: seq<int>, start: real, stop: real, stamp: string)
    requires |data| >= 2
    ensures forall i {:trigger EntryRows(data, start, stop, stamp)[i]} :: 0 <= i < |data| - 1 ==>
              EntryRows(data, start, stop, stamp)[i].LogEntry? &&
              EntryRows(data, start, stop, stamp)[i + 1].LogEntry? &&
              EntryRows(data, start, stop, stamp)[i + 1].freq - EntryRows(data, start, stop, stamp)[i].freq ==
                Axis.LinspaceStep(start, stop, |data|)
  {
    var rows := EntryRows(data, start, stop, stamp);
    var f := Axis.Linspace(start, stop, |data|);
    EntryRowsPairing(data, start, stop, stamp);
    Axis.LinspaceSpacing(start, stop, |data|);
    forall i {:trigger rows[i]} | 0 <= i < |data| - 1
      ensures rows[i].LogEntry? && rows[i + 1].LogEntry? &&
              rows[i + 1].freq - rows[i].freq == Axis.LinspaceStep(start, stop, |data|)
    {
      assert rows[i].freq == f[i] && rows[i + 1].freq == f[i + 1];
    }
  }

  /** The rows one `_log_data` call appends: the header first if the file did
    * not exist yet, then one entry per reading. */
  function LogDataRows(existed: bool, data: seq<int>, start: real, stop: real, stamp: string): (rows: seq<LogRow>)
    ensures |rows| == |data| + (if existed then 0 else 1)
    ensures forall i :: 0 <= i < |rows| ==> (rows[i].LogHeader? <==> i == 0 && !existed)
  {
    var header: seq<LogRow> := if existed then [] else [LogHeader];
    var entries := EntryRows(data, start, stop, stamp);
    EntryRowsPairing(data, start, stop, stamp);
    assert forall i :: 0 <= i < |entries| ==> entries[i].LogEntry?;
    header + entries
  }

  lemma LogDataRowsParts(existed: bool, data: seq<int>, start: real, stop: real, stamp: string)
    ensures LogDataRows(existed, data, start, stop, stamp) ==
              (if existed then [] else [LogHeader]) + EntryRows(data, start, stop, stamp)
  {
  }

  /** The entry rows for every plottable list of a queue, in queue order. */
  function LoggedEntries(queue: seq<Payload>, start: real, stop: real, stamp: string): seq<LogRow>
  {
    if queue == [] then []
    else
      var last := queue[|queue| - 1];
      LoggedEntries(queue[..|queue| - 1], start, stop, stamp) +
        (if Plottable(last) then EntryRows(last.values, start, stop, stamp) else [])
  }

  /** The rows a full drain of `queue` appends to the log while logging is on. */
  function DrainLog(queue: seq<Payload>, existed: bool, start: real, stop: real, stamp: string): seq<LogRow>
  {
    (if !existed && LastPlottable(queue).Some? then [LogHeader] else []) +
      LoggedEntries(queue, start, stop, stamp)
  }

  /** The sum of the lengths of the plottable lists of a queue. */
  function ReadingCount(queue: seq<Payload>): nat
  {
    if queue == [] then 0
    else
      var last := queue[|queue| - 1];
      ReadingCount(queue[..|queue| - 1]) + (if Plottable(last) then |last.values| else 0)
  }

  /** The drained lists contribute one entry row per reading, and never a header. */
  lemma {:induction false} LoggedEntriesShape(queue: seq<Payload>, start: real, stop: real, stamp: string)
    ensures |LoggedEntries(queue, start, stop, stamp)| == ReadingCount(queue)
    ensures forall i :: 0 <= i < |LoggedEntries(queue, start, stop, stamp)| ==>
              LoggedEntries(queue, start, stop, stamp)[i].LogEntry?
  {
    if queue != [] {
      LoggedEntriesShape(queue[..|queue| - 1], start, stop, stamp);
    }
  }

  /** A queue without plottable lists logs nothing. */
  lemma {:induction false} NothingLoggedWithoutData(queue: seq<Payload>, start: real, stop: real, stamp: string)
    requires LastPlottable(queue).None?
    ensures LoggedEntries(queue, start, stop, stamp) == []
  {
    if queue != [] {
      NothingLoggedWithoutData(queue[..|queue| - 1], start, stop, stamp);
    }
  }

  /** The log header is written at most once per drain, only first, and only when
    * the log file did not exist before. */
  lemma HeaderOnlyForNewLog(queue: seq<Payload>, existed: bool, start: real, stop: real, stamp: string)
    ensures forall i :: 0 <= i < |DrainLog(queue, existed, start, stop, stamp)| ==>
                          DrainLog(queue, existed, start, stop, stamp)[i].LogHeader? ==> i == 0 && !existed
    ensures |DrainLog(queue, existed, start, stop, stamp)| ==
              (if !existed && LastPlottable(queue).Some? then 1 else 0) + ReadingCount(queue)
  {
    LoggedEntriesShape(queue, start, stop, stamp);
  }

  /** Draining one more payload appends what `_log_data` writes for it, if
    * anything; the header goes with the first list logged into a new file. */
  lemma DrainLogStep(seen: seq<Payload>, next: Payload, existed: bool, start: real, stop: real, stamp: string)
    ensures DrainLog(seen + [next], existed, start, stop, stamp) ==
              DrainLog(seen, existed, start, stop, stamp) +
              (if Plottable(next)
               then LogDataRows(existed || LastPlottable(seen).Some?, next.values, start, stop, stamp)
               else [])
  {
    var after := seen + [next];
    LoggedEntriesStep(seen, next, start, stop, stamp);
    LastPlottableStep(seen, next);
    if !Plottable(next) {
      DrainLogSkips(seen, after, existed, start, stop, stamp);
    } else if !existed && LastPlottable(seen).None? {
      NothingLoggedWithoutData(seen, start, stop, stamp);
      DrainLogOpens(seen, after, next.values, start, stop, stamp);
    } else {
      DrainLogAppends(seen, after, next.values, existed, start, stop, stamp);
    }
  }

  /** The drain log of a queue grown by nothing plottable stays the same. */
  lemma DrainLogSkips(before: seq<Payload>, after: seq<Payload>, existed: bool, start: real, stop: real, stamp: string)
    requires LastPlottable(after) == LastPlottable(before)
    requires LoggedEntries(after, start, stop, stamp) == LoggedEntries(before, start, stop, stamp)
    ensures DrainLog(after, existed, start, stop, stamp) == DrainLog(before, existed, start, stop, stamp)
  {
  }

  /** The first list logged into a new file brings the header with it. */
  lemma DrainLogOpens(before: seq<Payload>, after: seq<Payload>, values: seq<int>, start: real, stop: real, stamp: string)
    requires LastPlottable(before).None? && LastPlottable(after).Some?
    requires LoggedEntries(before, start, stop, stamp) == []
    requires LoggedEntries(after, start, stop, stamp) == EntryRows(values, start, stop, stamp)
    ensures DrainLog(after, false, start, stop, stamp) ==
              DrainLog(before, false, start, stop, stamp) + LogDataRows(false, values, start, stop, stamp)
  {
    var entries := EntryRows(values, start, stop, stamp);
    assert DrainLog(before, false, start, stop, stamp) == [];
    assert DrainLog(after, false, start, stop, stamp) == [LogHeader] + entries;
    assert LogDataRows(false, values, start, stop, stamp) == [LogHeader] + entries;
  }

  /** Once the file exists, or a list has been logged, a list adds its entries only. */
  lemma DrainLogAppends(before: seq<Payload>, after: seq<Payload>, values: seq<int>, existed: bool,
                        start: real, stop: real, stamp: string)
    requires existed || LastPlottable(before).Some?
    requires LastPlottable(after).Some?
    requires LoggedEntries(after, start, stop, stamp) ==
               LoggedEntries(before, start, stop, stamp) + EntryRows(values, start, stop, stamp)
    ensures DrainLog(after, existed, start, stop, stamp) ==
              DrainLog(before, existed, start, stop, stamp) + LogDataRows(true, values, start, stop, stamp)
  {
    var header: seq<LogRow> := if !existed then [LogHeader] else [];
    var logged := LoggedEntries(before, start, stop, stamp);
    var entries := EntryRows(values, start, stop, stamp);
    assert DrainLog(before, existed, start, stop, stamp) == header + logged;
    assert DrainLog(after, existed, start, stop, stamp) == header + (logged + entries);
    assert LogDataRows(true, values, start, stop, stamp) == entries;
    SeqAppendAssoc(header, logged, entries);
  }

  /** The entries logged for one more payload are appended behind the others. */
  lemma LoggedEntriesStep(seen: seq<Payload>, next: Payload, start: real, stop: real, stamp: string)
    ensures LoggedEntries(seen + [next], start, stop, stamp) ==
              LoggedEntries(seen, start, stop, stamp) +
              (if Plottable(next) then EntryRows(next.values, start, stop, stamp) else [])
  {
    var queue := seen + [next];
    assert queue[..|queue| - 1] == seen && queue[|queue| - 1] == next;
  }

  /** Appending in two steps appends the concatenation. */
  /** While the queue is drained, the log holds the drain log of the payloads
    * taken so far: drawing the next one extends both alike. */
  lemma DrainLogGrows(queue: seq<Payload>, taken: nat, existed: bool, logging: bool, start: real, stop: real,
                      stamp: string, rows0: seq<LogRow>, before: seq<LogRow>, after: seq<LogRow>, present: bool)
    requires taken < |queue|
    requires before == rows0 + (if logging then DrainLog(queue[..taken], existed, start, stop, stamp) else [])
    requires logging ==> present == (existed || LastPlottable(queue[..taken]).Some?)
    requires after == before +
               (if logging && Plottable(queue[taken])
                then LogDataRows(present, queue[taken].values, start, stop, stamp)
                else [])
    ensures after == rows0 + (if logging then DrainLog(queue[..taken + 1], existed, start, stop, stamp) else [])
  {
    var seen := queue[..taken];
    assert queue[..taken + 1] == seen + [queue[taken]];
    DrainLogStep(seen, queue[taken], existed, start, stop, stamp);
    if logging {
      var added := if Plottable(queue[taken])
                   then LogDataRows(existed || LastPlottable(seen).Some?, queue[taken].values, start, stop, stamp)
                   else [];
      SeqAppendAssoc(rows0, DrainLog(seen, existed, start, stop, stamp), added);
    }
  }

  lemma SeqAppendAssoc<T>(a: seq<T>, b: seq<T>, c: seq<T>)
    ensures (a + b) + c == a + (b + c)
  {
  }

  /** The rows `_export_csv` writes: the header, then one (frequency, RSSI) row
    * per reading in order, the frequencies running from `start_freq` to
    * `end_freq` on the linspace axis. */
  function ExportRows(data: seq<int>, start: real, stop: real): (rows: seq<ExportRow>)
    ensures |rows| == |data| + 1 && rows[0] == ExportHeader
    ensures forall i :: 0 <= i < |data| ==> rows[i + 1] == ExportEntry(Axis.Linspace(start, stop, |data|)[i], data[i])
    ensures |data| >= 1 ==> rows[1] == ExportEntry(start, data[0])
    ensures |data| >= 2 ==> rows[|data|] == ExportEntry(stop, data[|data| - 1])
  {
    var freqs := Axis.Linspace(start, stop, |data|);
    Axis.LinspaceEndpoints(start, stop, |data|);
    [ExportHeader] + seq(|data|, i requires 0 <= i < |data| => ExportEntry(freqs[i], data[i]))
  }

  /** The chart of this variant: a linspace axis over `[start_freq, end_freq]`. */
  class SpectrumCanvas {
    var startFreq: real
    var endFreq: real
    var rssiMin: int
    var rssiMax: int
    var freqStep: real
    /** The points of the line currently drawn; empty until the first sweep. */
    var curve: seq<Axis.Point>

    function Current(): Limits
      reads this
    {
      Limits(startFreq, endFreq, rssiMin, rssiMax, freqStep)
    }

    constructor (limits: Limits)
      ensures Current() == limits && curve == []
    {
      startFreq, endFreq := limits.startFreq, limits.endFreq;
      rssiMin, rssiMax := limits.rssiMin, limits.rssiMax;
      freqStep := limits.freqStep;
      curve := [];
    }

    /** `update_limits`. */
    method UpdateLimits(limits: Limits)
      modifies this`startFreq, this`endFreq, this`rssiMin, this`rssiMax, this`freqStep
      ensures Current() == limits
    {
      startFreq, endFreq := limits.startFreq, limits.endFreq;
      rssiMin, rssiMax := limits.rssiMin, limits.rssiMax;
      freqStep := limits.freqStep;
    }

    /** `plot_rssi`: an empty list is ignored; otherwise the line becomes one point
      * per reading, evenly spaced from `start_freq` to `end_freq`. */
    method PlotRssi(values: seq<int>)
      modifies this`curve
      ensures values == [] ==> curve == old(curve)
      ensures values != [] ==> curve == Axis.Pairs(Axis.Linspace(startFreq, endFreq, |values|), values)
    {
      if values == [] {
        return;
      }
      curve := Axis.Pairs(Axis.Linspace(startFreq, endFreq, |values|), values);
    }
  }

  class MainWindow {
    var startFreq: real
    var endFreq: real
    var freqStep: real
    var rssiMin: int
    var rssiMax: int
    var scanInterval: real
    var loggingEnabled: bool
    /** `latest_data`: the last non-empty sweep drawn, the one an export writes. */
    var latestData: seq<int>
    const canvas: SpectrumCanvas
    var plotQueue: seq<Payload>
    var status: string
    var startEnabled: bool
    var stopEnabled: bool
    var stopRequested: bool
    var ports: seq<string>
    /** Whether `~/rssi_log.csv` exists. */
    var logExists: bool
    /** The rows this window appended to `~/rssi_log.csv`, oldest first. */
    var logRows: seq<LogRow>

    /** Without validation the chart always carries the window's own limits, and
      * exactly one of the two buttons is enabled. */
    ghost predicate Valid()
      reads this, canvas
    {
      canvas.Current() == Settings() && startEnabled != stopEnabled
    }

    function Settings(): Limits
      reads this
    {
      Limits(startFreq, endFreq, rssiMin, rssiMax, freqStep)
    }

    /** The window as `__init__` leaves it, given the paths found by the two globs
      * and whether the log file is already on disk. */
    constructor (acmPorts: seq<string>, usbPorts: seq<string>, logOnDisk: bool)
      ensures Valid() && fresh(canvas)
      ensures Settings() == Limits(DefaultStartFreq, DefaultEndFreq, DefaultRssiMin, DefaultRssiMax, DefaultFreqStep)
      ensures scanInterval == DefaultScanInterval && !loggingEnabled && latestData == []
      ensures canvas.curve == [] && plotQueue == [] && status == "Ready"
      ensures startEnabled && !stopEnabled && !stopRequested
      ensures ports == Ports.NormalisePorts(acmPorts + usbPorts)
      ensures logExists == logOnDisk && logRows == []
    {
      startFreq, endFreq, freqStep := DefaultStartFreq, DefaultEndFreq, DefaultFreqStep;
      rssiMin, rssiMax := DefaultRssiMin, DefaultRssiMax;
      scanInterval := DefaultScanInterval;
      loggingEnabled := false;
      latestData := [];
      canvas := new SpectrumCanvas(Limits(DefaultStartFreq, DefaultEndFreq, DefaultRssiMin, DefaultRssiMax, DefaultFreqStep));
      plotQueue := [];
      status := "Ready";
      startEnabled, stopEnabled, stopRequested := true, false, false;
      ports := Ports.NormalisePorts(acmPorts + usbPorts);
      logExists, logRows := logOnDisk, [];
    }

    /** `_refresh_ports`: the found paths, sorted and without repeats, or the default port. */
    method RefreshPorts(acmPorts: seq<string>, usbPorts: seq<string>)
      modifies this`ports
      ensures ports == Ports.NormalisePorts(acmPorts + usbPorts)
    {
      ports := Ports.NormalisePorts(acmPorts + usbPorts);
    }

    /** `_update_config`: takes every spin-box value and passes the limits on to
      * the chart without checking their order. */
    method UpdateConfig(startSpin: real, endSpin: real, stepSpin: real, minSpin: int, maxSpin: int, intervalSpin: real)
      requires Valid()
      modifies this`startFreq, this`endFreq, this`freqStep, this`rssiMin, this`rssiMax, this`scanInterval
      modifies canvas`startFreq, canvas`endFreq, canvas`rssiMin, canvas`rssiMax, canvas`freqStep
      ensures Valid()
      ensures Settings() == Limits(startSpin, endSpin, minSpin, maxSpin, stepSpin)
      ensures scanInterval == intervalSpin
      ensures canvas.Current() == Limits(startSpin, endSpin, minSpin, maxSpin, stepSpin)
    {
      startFreq := startSpin;
      endFreq := endSpin;
      freqStep := stepSpin;
      rssiMin := minSpin;
      rssiMax := maxSpin;
      scanInterval := intervalSpin;
      canvas.UpdateLimits(Settings());
    }

    /** `_toggle_logging`: logging follows the truthiness of the check-box state. */
    method ToggleLogging(state: int)
      modifies this`loggingEnabled, this`status
      ensures loggingEnabled == (state != 0)
      ensures status == if state != 0 then "Logging enabled" else "Logging disabled"
    {
      loggingEnabled := state != 0;
      if loggingEnabled {
        status := "Logging enabled";
      } else {
        status := "Logging disabled";
      }
    }

    /** `_export_csv`, given the path the save dialog returned (`""` when it was
      * cancelled): the rows written, or `None` when nothing is written. */
    method ExportCsv(chosenPath: string) returns (written: Option<seq<ExportRow>>)
      modifies this`status
      ensures latestData == [] ==> written == None && status == NoDataText
      ensures latestData != [] && chosenPath == "" ==> written == None && status == old(status)
      ensures latestData != [] && chosenPath != "" ==>
                written == Some(ExportRows(latestData, startFreq, endFreq)) &&
                status == "Exported to " + chosenPath
    {
      if latestData == [] {
        status := NoDataText;
        return None;
      }
      if chosenPath == "" {
        return None;
      }
      var freqs := Axis.Linspace(startFreq, endFreq, |latestData|);
      ghost var expected := ExportRows(latestData, startFreq, endFreq);
      var rows := [ExportHeader];
      var i := 0;
      while i < |latestData|
        invariant 0 <= i <= |latestData|
        invariant rows == expected[..i + 1]
      {
        assert expected[i + 1] == ExportEntry(freqs[i], latestData[i]);
        assert expected[..i + 2] == expected[..i + 1] + [expected[i + 1]];
        rows := rows + [ExportEntry(freqs[i], latestData[i])];
        i := i + 1;
      }
      assert expected[..i + 1] == expected;
      written := Some(rows);
      status := "Exported to " + chosenPath;
    }

    /** `_start_scan`: clears the stop flag and swaps the buttons. Starting the
      * scanner thread itself is not modelled. */
    method StartScan()
      requires Valid()
      modifies this`stopRequested, this`startEnabled, this`stopEnabled, this`status
      ensures Valid()
      ensures !stopRequested && !startEnabled && stopEnabled && status == "Scanning..."
    {
      stopRequested := false;
      startEnabled := false;
      stopEnabled := true;
      status := "Scanning...";
    }

    /** `_stop_scan`: sets the stop flag and swaps the buttons back. */
    method StopScan()
      requires Valid()
      modifies this`stopRequested, this`startEnabled, this`stopEnabled, this`status
      ensures Valid()
      ensures stopRequested && startEnabled && !stopEnabled && status == "Stopped"
    {
      stopRequested := true;
      startEnabled := true;
      stopEnabled := false;
      status := "Stopped";
    }

    /** `_scanner_callback`: routes one message by its tag. */
    method ScannerCallback(tag: string, payload: Payload)
      modifies this`plotQueue, this`status
      ensures plotQueue == Enqueued(old(plotQueue), Message(tag, payload))
      ensures status == StatusAfter(old(status), Message(tag, payload))
    {
      if tag == RssiTag {
        plotQueue := plotQueue + [payload];
      } else if tag == StatusTag {
        status := TextOf(payload);
      } else if tag == ErrorTag {
        status := "ERROR: " + TextOf(payload);
      }
    }

    /** `_log_data`: appends the header if the log is new, then one row per
      * reading; afterwards the log exists. */
    method LogData(data: seq<int>, stamp: string)
      modifies this`logRows, this`logExists
      ensures logExists
      ensures logRows == old(logRows) + LogDataRows(old(logExists), data, startFreq, endFreq, stamp)
    {
      var start, stop := startFreq, endFreq;
      var freqs := Axis.Linspace(start, stop, |data|);
      ghost var entries := EntryRows(data, start, stop, stamp);
      ghost var header: seq<LogRow> := if logExists then [] else [LogHeader];
      LogDataRowsParts(logExists, data, start, stop, stamp);
      if !logExists {
        logRows := logRows + [LogHeader];
      }
      logExists := true;
      ghost var before := logRows;
      assert before == old(logRows) + header;
      var i := 0;
      while i < |data|
        invariant 0 <= i <= |data|
        invariant logExists
        invariant logRows == before + entries[..i]
      {
        EntryRowAt(data, start, stop, stamp, i);
        assert entries[..i + 1] == entries[..i] + [entries[i]];
        logRows := logRows + [LogEntry(stamp, freqs[i], data[i])];
        i := i + 1;
      }
      assert entries[..i] == entries;
      assert logRows == old(logRows) + (header + entries);
    }

    /** What the chart and `latest_data` hold once the list `v` has been drawn. */
    ghost predicate Shows(v: seq<int>)
      reads this, canvas
    {
      latestData == v &&
      canvas.curve == Axis.Pairs(Axis.Linspace(canvas.startFreq, canvas.endFreq, |v|), v)
    }

    /** One pass of `_update_plot`'s drain loop, for the payload just taken off
      * the queue: a non-empty list is drawn, becomes `latest_data` and, while
      * logging is on, is appended to the log; anything else is dropped. */
    method DrawPayload(data: Payload, stamp: string)
      modifies this`latestData, this`logRows, this`logExists, canvas`curve
      ensures Plottable(data) ==> Shows(data.values)
      ensures !Plottable(data) ==> latestData == old(latestData) && canvas.curve == old(canvas.curve)
      ensures logRows == old(logRows) +
                (if loggingEnabled && Plottable(data)
                 then LogDataRows(old(logExists), data.values, startFreq, endFreq, stamp)
                 else [])
      ensures logExists == (old(logExists) || (loggingEnabled && Plottable(data)))
    {
      if data.Readings? && data.values != [] {
        latestData := data.values;
        canvas.PlotRssi(data.values);
        if loggingEnabled {
          LogData(data.values, stamp);
        }
      }
    }

    /** `_update_plot`, with `stamp` the time `_log_data` reads: drains the queue;
      * each non-empty list is drawn, becomes `latest_data` and, while logging is
      * on, is appended to the log. */
    method UpdatePlot(stamp: string)
      requires Valid()
      modifies this`plotQueue, this`latestData, this`logRows, this`logExists, canvas`curve
      ensures Valid()
      ensures plotQueue == []
      ensures LastPlottable(old(plotQueue)).None? ==>
                latestData == old(latestData) && canvas.curve == old(canvas.curve)
      ensures LastPlottable(old(plotQueue)).Some? ==> Shows(LastPlottable(old(plotQueue)).value)
      ensures logRows == old(logRows) +
                (if loggingEnabled then DrainLog(old(plotQueue), old(logExists), startFreq, endFreq, stamp) else [])
      ensures logExists == (old(logExists) || (loggingEnabled && LastPlottable(old(plotQueue)).Some?))
    {
      ghost var queue := plotQueue;
      ghost var start, stop := startFreq, endFreq;
      ghost var taken := 0;
      while plotQueue != []
        invariant 0 <= taken <= |queue| && plotQueue == queue[taken..]
        invariant LastPlottable(queue[..taken]).None? ==>
                    latestData == old(latestData) && canvas.curve == old(canvas.curve)
        invariant LastPlottable(queue[..taken]).Some? ==> Shows(LastPlottable(queue[..taken]).value)
        invariant logRows == old(logRows) +
                    (if loggingEnabled then DrainLog(queue[..taken], old(logExists), start, stop, stamp) else [])
        invariant logExists == (old(logExists) || (loggingEnabled && LastPlottable(queue[..taken]).Some?))
        decreases |plotQueue|
      {
        var data := plotQueue[0];
        plotQueue := plotQueue[1..];
        assert queue[..taken + 1] == queue[..taken] + [data];
        LastPlottableStep(queue[..taken], data);
        ghost var logged, present := logRows, logExists;
        DrawPayload(data, stamp);
        DrainLogGrows(queue, taken, old(logExists), loggingEnabled, start, stop, stamp, old(logRows), logged, logRows, present);
        taken := taken + 1;
      }
      assert queue[..taken] == queue;
    }
  }
}
