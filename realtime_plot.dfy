/**
 * realtime_plot.py, the console variant: the line `scan_callback` prints for
 * every sweep, the parser `parse_rssi_input` that reads such a line back, and the
 * frequency axis the plot loop puts under a sweep.
 *
 * The parser is `re.search(r"Received \d+ RSSI level readings: \[(.*)\]", text)`
 * followed by `list(map(int, group.split(",")))`, with every failure turned into
 * `[]`.  The search is modelled exactly: the leftmost position where the pattern
 * matches wins, `\d+` takes the whole digit run, and the greedy `.*` (which does
 * not cross a newline) captures up to the last `]` of that line.
 */
module RealtimePlot {
  import opened Wrappers
  import opened PyText
  import Axis

  // Fixed frequency range of the console variant.
  const StartFreq: real := 2399.0
  const EndFreq: real := 2485.0
  const FreqStep: real := 0.5

  const ReceivedWord := "Received "
  const ReadingsWord := " RSSI level readings: "
  /** The literal text the pattern needs between the count and the captured group. */
  const Opener := ReadingsWord + "["

  /** `f"Received {len(rssi_list)} RSSI level readings: {rssi_list}"`: one line,
    * opening with the word the pattern searches for and closing with the
    * list's `]`. */
  function ScanLine(readings: seq<int>): (line: string)
    ensures StartsWithWord(line)
    ensures '\n' !in line && line[|line| - 1] == ']'
  {
    var count := NatToString(|readings|);
    var list := ReprList(readings);
    DigitsOnOneLine(count);
    ReprListOnOneLine(readings);
    var line := ReceivedWord + count + ReadingsWord + list;
    assert line[..|ReceivedWord|] == ReceivedWord;
    assert line[|line| - 1] == list[|list| - 1];
    line
  }

  /** The length of the run of digits `\d+` can take at the head of `s`. */
  function DigitRun(s: string): (n: nat)
    ensures n <= |s| && AllDigits(s[..n])
    ensures n < |s| ==> !IsDigit(s[n])
  {
    if s != [] && IsDigit(s[0]) then
      var n := 1 + DigitRun(s[1..]);
      assert s[..n] == [s[0]] + s[1..][..n - 1];
      n
    else 0
  }

  /** What `.` may range over from the head of `s`: everything up to the first newline. */
  function FirstLine(s: string): (line: string)
    ensures |line| <= |s| && line == s[..|line|] && '\n' !in line
    ensures |line| < |s| ==> s[|line|] == '\n'
  {
    if s == [] || s[0] == '\n' then [] else [s[0]] + FirstLine(s[1..])
  }

  /** The position of the last `c` in `s`, where a greedy `.*` followed by `c` stops. */
  function LastIndexOf(s: string, c: char): (r: Option<nat>)
    ensures r.None? <==> c !in s
    ensures r.Some? ==> r.value < |s| && s[r.value] == c && c !in s[r.value + 1..]
  {
    if s == [] then None
    else if s[|s| - 1] == c then Some(|s| - 1)
    else
      var r := LastIndexOf(s[..|s| - 1], c);
      assert s == s[..|s| - 1] + [s[|s| - 1]];
      r
  }

  predicate StartsWithWord(s: string)
  {
    |ReceivedWord| <= |s| && s[..|ReceivedWord|] == ReceivedWord
  }

  /** The pattern anchored at the head of `s`: the captured group, or `None`. */
  function MatchAt(s: string): Option<string>
  {
    if StartsWithWord(s) then MatchCount(s[|ReceivedWord|..]) else None
  }

  /** `\d+ RSSI level readings: \[(.*)\]` at the head of `s`. */
  function MatchCount(s: string): Option<string>
  {
    var d := DigitRun(s);
    if d > 0 then MatchOpener(s[d..]) else None
  }

  /** ` RSSI level readings: \[(.*)\]` at the head of `s`. */
  function MatchOpener(s: string): Option<string>
  {
    if |Opener| <= |s| && s[..|Opener|] == Opener then MatchGroup(s[|Opener|..]) else None
  }

  /** `(.*)\]` at the head of `s`: the group runs to the last `]` before the first newline. */
  function MatchGroup(s: string): Option<string>
  {
    var line := FirstLine(s);
    match LastIndexOf(line, ']')
    case None => None
    case Some(k) => Some(line[..k])
  }

  /** The outcome of the pattern anchored at every position of `s`, the end
    * included: the attempts `re.search` makes, left to right. */
  function Attempts(s: string): (ms: seq<Option<string>>)
    ensures |ms| == |s| + 1
  {
    seq(|s| + 1, i requires 0 <= i <= |s| => MatchAt(s[i..]))
  }

  lemma AttemptAt(s: string, i: nat)
    requires i <= |s|
    ensures Attempts(s)[i] == MatchAt(s[i..])
  {
  }

  /** The first successful attempt from position `from` on. */
  function FirstMatch(ms: seq<Option<string>>, from: nat): Option<string>
    requires from <= |ms|
    decreases |ms| - from
  {
    if from == |ms| then None
    else if ms[from].Some? then ms[from]
    else FirstMatch(ms, from + 1)
  }

  /** The search fails exactly when no attempt succeeds. */
  lemma {:induction false} FirstMatchNone(ms: seq<Option<string>>, from: nat)
    requires from <= |ms|
    ensures FirstMatch(ms, from).None? <==> forall i :: from <= i < |ms| ==> ms[i].None?
    decreases |ms| - from
  {
    if from < |ms| && ms[from].None? {
      FirstMatchNone(ms, from + 1);
    }
  }

  /** A successful search returns the leftmost successful attempt. */
  lemma {:induction false} FirstMatchLeftmost(ms: seq<Option<string>>, from: nat)
    requires from <= |ms| && FirstMatch(ms, from).Some?
    ensures exists i :: from <= i < |ms| && ms[i] == FirstMatch(ms, from) &&
                        forall j :: from <= j < i ==> ms[j].None?
    decreases |ms| - from
  {
    if ms[from].None? {
      FirstMatchLeftmost(ms, from + 1);
      var i :| from + 1 <= i < |ms| && ms[i] == FirstMatch(ms, from + 1) &&
               forall j :: from + 1 <= j < i ==> ms[j].None?;
      assert forall j :: from <= j < i ==> ms[j].None?;
    }
  }

  /** `re.search(pattern, s)`: the match at the leftmost position where there is
    * one.  Since `.` stops at a newline, what it captures lies within one line. */
  function Search(s: string): (r: Option<string>)
    ensures r.Some? ==> '\n' !in r.value
  {
    var ms := Attempts(s);
    var r := FirstMatch(ms, 0);
    assert r.Some? ==> '\n' !in r.value by {
      if r.Some? {
        FirstMatchLeftmost(ms, 0);
        var i :| 0 <= i < |ms| && ms[i] == r && forall j :: 0 <= j < i ==> ms[j].None?;
        AttemptAt(s, i);
        MatchAtShape(s[i..]);
      }
    }
    r
  }

  /** The search fails exactly when the pattern matches at no position of `s`. */
  lemma SearchNone(s: string)
    ensures Search(s).None? <==> forall i :: 0 <= i <= |s| ==> MatchAt(s[i..]).None?
  {
    var ms := Attempts(s);
    FirstMatchNone(ms, 0);
    forall i | 0 <= i <= |s|
      ensures ms[i] == MatchAt(s[i..])
    {
      AttemptAt(s, i);
    }
  }

  /** A successful search reports the match at the leftmost matching position. */
  lemma SearchLeftmost(s: string)
    requires Search(s).Some?
    ensures exists i :: 0 <= i <= |s| && MatchAt(s[i..]) == Search(s) &&
                        forall j :: 0 <= j < i ==> MatchAt(s[j..]).None?
  {
    var ms := Attempts(s);
    FirstMatchLeftmost(ms, 0);
    var i :| 0 <= i < |ms| && ms[i] == FirstMatch(ms, 0) && forall j :: 0 <= j < i ==> ms[j].None?;
    AttemptAt(s, i);
    forall j | 0 <= j < i
      ensures MatchAt(s[j..]).None?
    {
      AttemptAt(s, j);
    }
  }

  /** `parse_rssi_input`: the readings of the first matching line, or `[]` when the
    * pattern is absent or any piece of the captured text is not an integer. */
  function ParseRssiInput(text: string): (readings: seq<int>)
    ensures readings != [] ==> Search(text).Some? && |readings| == Count(Search(text).value, ',') + 1
  {
    match Search(text)
    case None => []
    case Some(g) => ReadingsOf(g)
  }

  /** `list(map(int, group.split(",")))`, with the exception turned into `[]`. */
  function ReadingsOf(group: string): (r: seq<int>)
    ensures r != [] ==> |r| == Count(group, ',') + 1
  {
    match ParseAll(Split(group, ','))
    case None => []
    case Some(values) => values
  }

  /** The text the pattern matches, with the count written as `digits`, the
    * captured group `g`, and whatever follows the closing bracket. */
  function MatchedText(digits: string, g: string, rest: string): string
  {
    ReceivedWord + (digits + (Opener + (g + "]" + rest)))
  }

  lemma {:induction false} DigitRunOf(digits: string, tail: string)
    requires AllDigits(digits)
    requires tail != [] && !IsDigit(tail[0])
    ensures DigitRun(digits + tail) == |digits|
  {
    if digits != [] {
      assert (digits + tail)[1..] == digits[1..] + tail;
      DigitRunOf(digits[1..], tail);
    } else {
      assert digits + tail == tail;
    }
  }

  lemma {:induction false} FirstLineAppend(a: string, b: string)
    requires '\n' !in a
    ensures FirstLine(a + b) == a + FirstLine(b)
  {
    if a != [] {
      assert (a + b)[1..] == a[1..] + b;
      FirstLineAppend(a[1..], b);
      assert [a[0]] + (a[1..] + FirstLine(b)) == a + FirstLine(b);
    } else {
      assert a + b == b;
    }
  }

  lemma {:induction false} FirstLineSuffix(s: string, j: nat)
    requires j <= |FirstLine(s)|
    ensures FirstLine(s[j..]) == FirstLine(s)[j..]
  {
    if j > 0 {
      assert s[j..] == s[1..][j - 1..];
      FirstLineSuffix(s[1..], j - 1);
    }
  }

  lemma {:induction false} LastIndexAfter(a: string, c: char, b: string)
    requires c !in b
    ensures LastIndexOf(a + [c] + b, c) == Some(|a|)
  {
    if b != [] {
      var s := a + [c] + b;
      assert s[..|s| - 1] == a + [c] + b[..|b| - 1];
      LastIndexAfter(a, c, b[..|b| - 1]);
    }
  }

  /** The pattern matches text of the expected shape and captures everything up
    * to the LAST `]` on the line: a `]` inside the group does not end it. */
  lemma MatchRunsToLastBracket(digits: string, g: string, rest: string)
    requires digits != [] && AllDigits(digits)
    requires '\n' !in g
    requires ']' !in FirstLine(rest)
    ensures MatchAt(MatchedText(digits, g, rest)) == Some(g)
  {
    var body := g + "]" + rest;
    var afterWord := digits + (Opener + body);
    assert (ReceivedWord + afterWord)[..|ReceivedWord|] == ReceivedWord;
    assert (ReceivedWord + afterWord)[|ReceivedWord|..] == afterWord;
    DigitRunOf(digits, Opener + body);
    assert afterWord[|digits|..] == Opener + body;
    MatchGroupOf(g, rest);
    assert (Opener + body)[|Opener|..] == body;
    assert (Opener + body)[..|Opener|] == Opener;
  }

  lemma MatchGroupOf(g: string, rest: string)
    requires '\n' !in g
    requires ']' !in FirstLine(rest)
    ensures MatchGroup(g + "]" + rest) == Some(g)
  {
    FirstLineAppend(g + "]", rest);
    var line := FirstLine(g + "]" + rest);
    assert line == g + [']'] + FirstLine(rest);
    LastIndexAfter(g, ']', FirstLine(rest));
    assert line[..|g|] == g;
  }

  /** Whatever the pattern matches has that shape: a non-empty digit count, a
    * group without newlines, and no `]` later on the same line. */
  lemma MatchAtShape(s: string)
    requires MatchAt(s).Some?
    ensures '\n' !in MatchAt(s).value
    ensures exists digits, rest :: digits != [] && AllDigits(digits) && ']' !in FirstLine(rest) &&
                                  MatchedText(digits, MatchAt(s).value, rest) == s
  {
    var afterWord := s[|ReceivedWord|..];
    assert s == ReceivedWord + afterWord;
    var g := MatchCount(afterWord).value;
    var digits, rest := MatchCountShape(afterWord);
    assert MatchedText(digits, g, rest) == s;
  }

  lemma MatchCountShape(afterWord: string) returns (digits: string, rest: string)
    requires MatchCount(afterWord).Some?
    ensures digits != [] && AllDigits(digits)
    ensures '\n' !in MatchCount(afterWord).value && ']' !in FirstLine(rest)
    ensures afterWord == digits + (Opener + (MatchCount(afterWord).value + "]" + rest))
  {
    var d := DigitRun(afterWord);
    digits := afterWord[..d];
    var afterCount := afterWord[d..];
    var body := afterCount[|Opener|..];
    assert afterCount == Opener + body;
    assert MatchCount(afterWord) == MatchGroup(body);
    var g := MatchGroup(body).value;
    rest := MatchGroupShape(body);
    assert afterWord == digits + afterCount;
  }

  /** Splits what `(.*)\]` matched into the group and the text after its bracket. */
  lemma MatchGroupShape(body: string) returns (rest: string)
    requires MatchGroup(body).Some?
    ensures '\n' !in MatchGroup(body).value && ']' !in FirstLine(rest)
    ensures body == MatchGroup(body).value + "]" + rest
  {
    var line := FirstLine(body);
    var k := LastIndexOf(line, ']').value;
    var g := line[..k];
    rest := body[k + 1..];
    FirstLineSuffix(body, k + 1);
    assert FirstLine(rest) == line[k + 1..];
    assert body[..|line|] == line;
    assert body[..k] == g && body[k] == ']';
  }

  /** No `Received ` anywhere in the text: the result is `[]`. */
  lemma ParseWithoutPattern(text: string)
    requires forall i :: 0 <= i <= |text| ==> !StartsWithWord(text[i..])
    ensures ParseRssiInput(text) == []
  {
    forall i | 0 <= i <= |text|
      ensures MatchAt(text[i..]).None?
    {
    }
    SearchNone(text);
  }

  /** On a match the result is all or nothing: the integer of every comma-separated
    * piece of the group, in order (so one more than the commas), or `[]` as soon
    * as one piece is not an integer literal. */
  lemma ReadingsOfGroup(g: string)
    ensures var pieces := Split(g, ',');
            (forall i :: 0 <= i < |pieces| ==> ParseInt(pieces[i]).Some?) ==>
              |ReadingsOf(g)| == Count(g, ',') + 1 &&
              forall i :: 0 <= i < |pieces| ==> ParseInt(pieces[i]) == Some(ReadingsOf(g)[i])
    ensures var pieces := Split(g, ',');
            (exists i :: 0 <= i < |pieces| && ParseInt(pieces[i]).None?) ==> ReadingsOf(g) == []
  {
  }

  /** Empty brackets give `[]`: `"".split(",")` is `[""]` and `int("")` raises. */
  lemma ParseEmptyBrackets(digits: string, rest: string)
    requires digits != [] && AllDigits(digits)
    requires ']' !in FirstLine(rest)
    ensures ParseRssiInput(MatchedText(digits, "", rest)) == []
  {
    MatchRunsToLastBracket(digits, "", rest);
    assert Split("", ',') == [""];
    assert ParseInt("") == None;
  }

  /** The count after `Received` is never compared with the readings: any count
    * parses to the readings that follow it. */
  lemma ParseIgnoresCount(count: nat, readings: seq<int>)
    ensures ParseRssiInput(ReceivedWord + NatToString(count) + ReadingsWord + ReprList(readings)) == readings
  {
    var digits := NatToString(count);
    var g := JoinInts(readings);
    var text := ReceivedWord + NatToString(count) + ReadingsWord + ReprList(readings);
    RenderedLineShape(digits, g);
    assert FirstLine("") == "";
    JoinIntsCharacters(readings);
    MatchRunsToLastBracket(digits, g, "");
    SearchAtStart(text);
    ReadingsOfRendered(readings);
  }

  lemma RenderedLineShape(digits: string, g: string)
    ensures ReceivedWord + digits + ReadingsWord + ("[" + g + "]") == MatchedText(digits, g, "")
  {
    assert Opener + (g + "]" + "") == ReadingsWord + ("[" + g + "]");
  }

  /** A match at the head of the text is the one `re.search` reports. */
  lemma SearchAtStart(text: string)
    requires MatchAt(text).Some?
    ensures Search(text) == MatchAt(text)
  {
    AttemptAt(text, 0);
    assert text[0..] == text;
  }

  /** The group of a printed line converts back to the printed readings. */
  lemma ReadingsOfRendered(readings: seq<int>)
    ensures ReadingsOf(JoinInts(readings)) == readings
  {
    if readings == [] {
      assert Split("", ',') == [""];
      assert ParseInt("") == None;
    } else {
      SplitReprList(readings);
      var values := ParseAll(ReprPieces(readings)).value;
      assert |values| == |readings|;
      assert forall i :: 0 <= i < |readings| ==> values[i] == readings[i];
    }
  }

  /** Round trip: the parser reads back exactly the readings `scan_callback`
    * printed, the empty sweep included. */
  lemma ScanLineRoundTrip(readings: seq<int>)
    ensures ParseRssiInput(ScanLine(readings)) == readings
  {
    ParseIgnoresCount(|readings|, readings);
  }

  /** `[START_FREQ + i * FREQ_STEP for i in range(num_points)]` for a sweep of
    * `num_points` readings. */
  function Frequencies(numPoints: nat): (freqs: seq<real>)
    ensures |freqs| == numPoints
  {
    Axis.StepAxis(StartFreq, FreqStep, numPoints)
  }

  /** The plot's x-range is fixed at [START_FREQ, END_FREQ]: every point of a sweep
    * lies inside it exactly when the sweep has at most 173 readings. */
  lemma FrequenciesWithinPlotRange(numPoints: nat)
    ensures (forall i :: 0 <= i < numPoints ==> StartFreq <= Frequencies(numPoints)[i] <= EndFreq)
            <==> numPoints <= 173
  {
    var f := Frequencies(numPoints);
    if numPoints > 173 {
      assert f[173] == 2399.0 + 173.0 * 0.5;
    } else {
      forall i | 0 <= i < numPoints
        ensures StartFreq <= f[i] <= EndFreq
      {
        assert f[i] == 2399.0 + (i as real) * 0.5;
      }
    }
  }
}
