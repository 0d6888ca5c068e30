/**
 * What the scanner thread hands to a GUI window: tagged messages whose `rssi`
 * payloads go to the window's plot queue and whose `__status__`/`__error__`
 * payloads become the status text.  Shared by both GUI variants, whose callbacks
 * (gui-untested.py `_scanner_callback_from_thread`, gui_untested_too.py
 * `_scanner_callback`) route messages identically.
 */
module ScanFeed {
  import opened Wrappers
  import PyText

  /** A queued or delivered payload: a list of readings, or text. */
  datatype Payload = Readings(values: seq<int>) | Text(text: string)

  const RssiTag := "rssi"
  const StatusTag := "__status__"
  const ErrorTag := "__error__"

  datatype Message = Message(tag: string, payload: Payload)

  /** `f"{payload}"`: text as is, a list in Python's list notation. */
  function TextOf(payload: Payload): string
  {
    match payload
    case Text(s) => s
    case Readings(values) => PyText.ReprList(values)
  }

  /** The plot queue after one callback: only `rssi` payloads are appended. */
  function Enqueued(queue: seq<Payload>, m: Message): (q: seq<Payload>)
    ensures |q| == |queue| + (if m.tag == RssiTag then 1 else 0)
    ensures q[..|queue|] == queue
    ensures m.tag == RssiTag ==> q[|queue|] == m.payload
  {
    if m.tag == RssiTag then queue + [m.payload] else queue
  }

  /** The status text after one callback: status messages are shown as they are,
    * errors behind `ERROR: `, and every other tag leaves the text alone. */
  function StatusAfter(status: string, m: Message): (shown: string)
    ensures m.tag == StatusTag ==> shown == TextOf(m.payload)
    ensures m.tag == ErrorTag ==> |shown| >= 7 && shown[..7] == "ERROR: " && shown[7..] == TextOf(m.payload)
    ensures m.tag != StatusTag && m.tag != ErrorTag ==> shown == status
  {
    if m.tag == StatusTag then TextOf(m.payload)
    else if m.tag == ErrorTag then "ERROR: " + TextOf(m.payload)
    else status
  }

  /** The plot queue after a run of callbacks, one after the other. */
  function Feed(queue: seq<Payload>, ms: seq<Message>): seq<Payload>
  {
    if ms == [] then queue else Enqueued(Feed(queue, ms[..|ms| - 1]), ms[|ms| - 1])
  }

  /** The payloads of the `rssi` messages of `ms`, in order. */
  function RssiPayloads(ms: seq<Message>): (ps: seq<Payload>)
    ensures |ps| <= |ms|
  {
    if ms == [] then []
    else (if ms[0].tag == RssiTag then [ms[0].payload] else []) + RssiPayloads(ms[1..])
  }

  lemma {:induction false} RssiPayloadsAppend(ms: seq<Message>, m: Message)
    ensures RssiPayloads(ms + [m]) == RssiPayloads(ms) + RssiPayloads([m])
  {
    if ms != [] {
      assert (ms + [m])[1..] == ms[1..] + [m];
      RssiPayloadsAppend(ms[1..], m);
    } else {
      assert ms + [m] == [m];
    }
  }

  /** The queue keeps every `rssi` payload, in arrival order, behind what was
    * already queued; status and error messages never reach it. */
  lemma {:induction false} FeedKeepsArrivalOrder(queue: seq<Payload>, ms: seq<Message>)
    ensures Feed(queue, ms) == queue + RssiPayloads(ms)
  {
    if ms != [] {
      var init, last := ms[..|ms| - 1], ms[|ms| - 1];
      FeedKeepsArrivalOrder(queue, init);
      assert ms == init + [last];
      RssiPayloadsAppend(init, last);
    }
  }

  /** `isinstance(data, list) and data`: the drained items the GUIs draw. */
  predicate Plottable(p: Payload) { p.Readings? && p.values != [] }

  /** The last plottable list of a queue, the one a full drain leaves on screen. */
  function LastPlottable(queue: seq<Payload>): (r: Option<seq<int>>)
    ensures r.None? <==> forall i :: 0 <= i < |queue| ==> !Plottable(queue[i])
    ensures r.Some? ==> r.value != []
    ensures r.Some? ==>
              exists i :: 0 <= i < |queue| && queue[i] == Readings(r.value) &&
                          forall j :: i < j < |queue| ==> !Plottable(queue[j])
  {
    if queue == [] then None
    else if Plottable(queue[|queue| - 1]) then
      assert queue[|queue| - 1] == Readings(queue[|queue| - 1].values);
      Some(queue[|queue| - 1].values)
    else
      var r := LastPlottable(queue[..|queue| - 1]);
      assert forall i :: 0 <= i < |queue| - 1 ==> queue[..|queue| - 1][i] == queue[i];
      r
  }

  /** Receiving one more payload: it is the latest plottable list if it is
    * plottable at all, and otherwise the latest one stays what it was. */
  lemma LastPlottableStep(seen: seq<Payload>, next: Payload)
    ensures LastPlottable(seen + [next]) == if Plottable(next) then Some(next.values) else LastPlottable(seen)
  {
    assert (seen + [next])[..|seen|] == seen;
  }
}
