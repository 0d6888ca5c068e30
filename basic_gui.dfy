/**
 * gui-untested.py, the basic PyQt window, reduced to the state its handlers
 * change: the plot limits of the window and of its chart, the plot queue, the
 * status text, the two button flags, the stop flag shared with the scanner
 * thread, and the port list.  Widgets and drawing are not modelled; the chart
 * is represented by the points it currently shows.
 */
module BasicGui {
  import opened Wrappers
  import PyText
  import Axis
  import Ports
  import opened ScanFeed

  const DefaultStartFreq: real := 2399.0
  const DefaultEndFreq: real := 2485.0
  const DefaultFreqStep: real := 0.5
  const DefaultRssiMin: int := -100
  const DefaultRssiMax: int := -40

  const StartAfterEndText := "Start frequency must be < end frequency"
  const RssiOrderText := "RSSI min must be < RSSI max"

  /** The chart's plot limits and axis step, as `update_limits` receives them. */
  datatype Limits = Limits(startFreq: real, endFreq: real, rssiMin: int, rssiMax: int, freqStep: real)

  /** `f'Last update: {len(data)} points'`: the count between the two words
    * is a run of digits that reads back as `n`. */
  function LastUpdateText(n: nat): (text: string)
    ensures |text| > 20 && text[..13] == "Last update: " && text[|text| - 7..] == " points"
    ensures PyText.AllDigits(text[13..|text| - 7]) && PyText.DigitsValue(text[13..|text| - 7]) == n
  {
    var count := PyText.NatToString(n);
    var text := "Last update: " + count + " points";
    assert text[13..|text| - 7] == count;
    PyText.DigitsValueOfNatToString(n);
    text
  }

  /** The chart of this variant: a step axis from `start_freq`. */
  class SpectrumCanvas {
    var startFreq: real
    var endFreq: real
    var rssiMin: int
    var rssiMax: int
    var freqStep: real
    /** The points of the line currently drawn; empty until the first sweep. */
    var curve: seq<Axis.Point>

    function Current(): Limits
      reads this
    {
      Limits(startFreq, endFreq, rssiMin, rssiMax, freqStep)
    }

    constructor (limits: Limits)
      ensures Current() == limits && curve == []
    {
      startFreq, endFreq := limits.startFreq, limits.endFreq;
      rssiMin, rssiMax := limits.rssiMin, limits.rssiMax;
      freqStep := limits.freqStep;
      curve := [];
    }

    /** `update_limits`: takes the new limits and step; the drawn line stays. */
    method UpdateLimits(limits: Limits)
      modifies this`startFreq, this`endFreq, this`rssiMin, this`rssiMax, this`freqStep
      ensures Current() == limits
    {
      startFreq, endFreq := limits.startFreq, limits.endFreq;
      rssiMin, rssiMax := limits.rssiMin, limits.rssiMax;
      freqStep := limits.freqStep;
    }

    /** `plot_rssi`: an empty list is ignored; otherwise the line becomes one point
      * per reading at `start_freq + i * freq_step`. */
    method PlotRssi(values: seq<int>)
      modifies this`curve
      ensures values == [] ==> curve == old(curve)
      ensures values != [] ==> curve == Axis.Pairs(Axis.StepAxis(startFreq, freqStep, |values|), values)
    {
      if values == [] {
        return;
      }
      var numPoints := |values|;
      var freqs := Axis.StepAxis(startFreq, freqStep, numPoints);
      // The truncating and the linspace fallback of the source can never fire:
      // the comprehension always yields exactly one frequency per reading.
      if |freqs| > numPoints {
        assert false;
      } else if |freqs| < numPoints {
        assert false;
      }
      curve := Axis.Pairs(freqs, values);
    }
  }

  class MainWindow {
    var startFreq: real
    var endFreq: real
    var freqStep: real
    var rssiMin: int
    var rssiMax: int
    const canvas: SpectrumCanvas
    /** `plot_queue`, oldest payload first. */
    var plotQueue: seq<Payload>
    var status: string
    var startEnabled: bool
    var stopEnabled: bool
    /** `scanner_stop_event`: set when the scanner thread is asked to stop. */
    var stopRequested: bool
    /** The items of the port combo box. */
    var ports: seq<string>

    /** The chart only ever receives validated limits, and exactly one of the two
      * buttons is enabled. */
    ghost predicate Valid()
      reads this, canvas
    {
      canvas.startFreq < canvas.endFreq && canvas.rssiMin < canvas.rssiMax &&
      startEnabled != stopEnabled
    }

    function Settings(): Limits
      reads this
    {
      Limits(startFreq, endFreq, rssiMin, rssiMax, freqStep)
    }

    /** The window as `__init__` leaves it, given the device paths found by the
      * two globs of `_refresh_ports`. */
    constructor (acmPorts: seq<string>, usbPorts: seq<string>)
      ensures Valid() && fresh(canvas)
      ensures Settings() == Limits(DefaultStartFreq, DefaultEndFreq, DefaultRssiMin, DefaultRssiMax, DefaultFreqStep)
      ensures canvas.Current() == Settings() && canvas.curve == []
      ensures plotQueue == [] && status == "Ready"
      ensures startEnabled && !stopEnabled && !stopRequested
      ensures ports == Ports.NormalisePorts(acmPorts + usbPorts)
    {
      startFreq, endFreq, freqStep := DefaultStartFreq, DefaultEndFreq, DefaultFreqStep;
      rssiMin, rssiMax := DefaultRssiMin, DefaultRssiMax;
      canvas := new SpectrumCanvas(Limits(DefaultStartFreq, DefaultEndFreq, DefaultRssiMin, DefaultRssiMax, DefaultFreqStep));
      plotQueue := [];
      status := "Ready";
      startEnabled, stopEnabled, stopRequested := true, false, false;
      ports := Ports.NormalisePorts(acmPorts + usbPorts);
    }

    /** `_refresh_ports`: the found paths, sorted and without repeats, or the default port. */
    method RefreshPorts(acmPorts: seq<string>, usbPorts: seq<string>)
      modifies this`ports
      ensures ports == Ports.NormalisePorts(acmPorts + usbPorts)
    {
      ports := Ports.NormalisePorts(acmPorts + usbPorts);
    }

    /** `_update_limits_from_ui`: the window takes the spin-box values first, then
      * the chart takes them only if both ranges are ordered; the frequency check
      * comes first. */
    method UpdateLimitsFromUi(startSpin: real, endSpin: real, stepSpin: real, minSpin: int, maxSpin: int)
      requires Valid()
      modifies this`startFreq, this`endFreq, this`freqStep, this`rssiMin, this`rssiMax, this`status
      modifies canvas`startFreq, canvas`endFreq, canvas`rssiMin, canvas`rssiMax, canvas`freqStep
      ensures Valid()
      ensures Settings() == Limits(startSpin, endSpin, minSpin, maxSpin, stepSpin)
      ensures startSpin >= endSpin ==>
                status == StartAfterEndText && canvas.Current() == old(canvas.Current())
      ensures startSpin < endSpin && minSpin >= maxSpin ==>
                status == RssiOrderText && canvas.Current() == old(canvas.Current())
      ensures startSpin < endSpin && minSpin < maxSpin ==>
                status == old(status) && canvas.Current() == Settings()
    {
      startFreq := startSpin;
      endFreq := endSpin;
      freqStep := stepSpin;
      rssiMin := minSpin;
      rssiMax := maxSpin;
      if startFreq >= endFreq {
        status := StartAfterEndText;
        return;
      }
      if rssiMin >= rssiMax {
        status := RssiOrderText;
        return;
      }
      canvas.UpdateLimits(Settings());
    }

    /** `_on_start`: clears the stop flag, swaps the buttons and reports the start.
      * Starting the scanner thread itself is not modelled. */
    method OnStart()
      requires Valid()
      modifies this`stopRequested, this`startEnabled, this`stopEnabled, this`status
      ensures Valid()
      ensures !stopRequested && !startEnabled && stopEnabled && status == "Starting..."
    {
      stopRequested := false;
      startEnabled := false;
      stopEnabled := true;
      status := "Starting...";
    }

    /** `_on_stop`: sets the stop flag, swaps the buttons back and reports the stop. */
    method OnStop()
      requires Valid()
      modifies this`stopRequested, this`startEnabled, this`stopEnabled, this`status
      ensures Valid()
      ensures stopRequested && startEnabled && !stopEnabled && status == "Stopping..."
    {
      stopRequested := true;
      startEnabled := true;
      stopEnabled := false;
      status := "Stopping...";
    }

    /** `_scanner_callback_from_thread`: routes one message by its tag. */
    method ScannerCallback(tag: string, payload: Payload)
      modifies this`plotQueue, this`status
      ensures plotQueue == Enqueued(old(plotQueue), Message(tag, payload))
      ensures status == StatusAfter(old(status), Message(tag, payload))
    {
      if tag == RssiTag {
        plotQueue := plotQueue + [payload];
      } else if tag == StatusTag {
        status := TextOf(payload);
      } else if tag == ErrorTag {
        status := "ERROR: " + TextOf(payload);
      }
    }

    /** What the chart and the status show once the list `v` has been drawn. */
    ghost predicate Shows(v: seq<int>)
      reads this, canvas
    {
      canvas.curve == Axis.Pairs(Axis.StepAxis(canvas.startFreq, canvas.freqStep, |v|), v) &&
      status == LastUpdateText(|v|)
    }

    /** `_process_plot_queue`: drains the queue, drawing every non-empty list in
      * turn; afterwards the last of them is on screen and the status counts its
      * points, and without one nothing visible changes. */
    method ProcessPlotQueue()
      requires Valid()
      modifies this`plotQueue, this`status, canvas`curve
      ensures Valid()
      ensures plotQueue == []
      ensures LastPlottable(old(plotQueue)).None? ==>
                canvas.curve == old(canvas.curve) && status == old(status)
      ensures LastPlottable(old(plotQueue)).Some? ==> Shows(LastPlottable(old(plotQueue)).value)
    {
      ghost var queue := plotQueue;
      ghost var taken := 0;
      while plotQueue != []
        invariant 0 <= taken <= |queue| && plotQueue == queue[taken..]
        invariant LastPlottable(queue[..taken]).None? ==>
                    canvas.curve == old(canvas.curve) && status == old(status)
        invariant LastPlottable(queue[..taken]).Some? ==> Shows(LastPlottable(queue[..taken]).value)
        decreases |plotQueue|
      {
        var data := plotQueue[0];
        plotQueue := plotQueue[1..];
        if data.Readings? && data.values != [] {
          canvas.PlotRssi(data.values);
          status := LastUpdateText(|data.values|);
        }
        assert queue[..taken + 1][..taken] == queue[..taken];
        taken := taken + 1;
      }
      assert queue[..taken] == queue;
    }
  }
}
