/**
 * The handful of Python text primitives the RSSI tools rely on: `str()` of an
 * integer, the `repr` of a list of integers, `int()` of a string and
 * `str.split(",")`.  Characters are compared by code point, as Python does.
 */
module PyText {
  import opened Wrappers

  predicate IsDigit(c: char) { '0' <= c <= '9' }

  predicate AllDigits(s: string) { forall i :: 0 <= i < |s| ==> IsDigit(s[i]) }

  /**
   * The characters Python's `int()` skips around an ASCII literal: space,
   * tab, line feed, vertical tab, form feed and carriage return.
   */
  predicate IsSpace(c: char) {
    var n := c as int;
    n == 32 || 9 <= n <= 13
  }

  function DigitValue(c: char): (d: nat)
    requires IsDigit(c)
    ensures d < 10
  {
    (c as int) - ('0' as int)
  }

  function DigitChar(d: nat): (c: char)
    requires d < 10
    ensures IsDigit(c) && DigitValue(c) == d
  {
    ('0' as int + d) as char
  }

  /** `str(n)` for a non-negative integer: its decimal digits, no leading zeros. */
  function NatToString(n: nat): (s: string)
    ensures s != [] && AllDigits(s)
    ensures s[0] != '0' || n == 0
    decreases n
  {
    if n < 10 then [DigitChar(n)] else NatToString(n / 10) + [DigitChar(n % 10)]
  }

  /** The value of a run of decimal digits, most significant first. */
  function DigitsValue(s: string): nat
    requires AllDigits(s)
  {
    if s == [] then 0 else 10 * DigitsValue(s[..|s| - 1]) + DigitValue(s[|s| - 1])
  }

  lemma {:induction false} DigitsValueOfNatToString(n: nat)
    ensures DigitsValue(NatToString(n)) == n
    decreases n
  {
    if n >= 10 {
      var s := NatToString(n);
      assert s[..|s| - 1] == NatToString(n / 10);
      DigitsValueOfNatToString(n / 10);
    }
  }

  /** `str(x)` for any integer. */
  function IntToString(x: int): (s: string)
    ensures s != [] && IsDigit(s[|s| - 1])
    ensures forall i :: 0 <= i < |s| ==> IsDigit(s[i]) || (i == 0 && s[i] == '-' && x < 0)
  {
    if x < 0 then "-" + NatToString(-x) else NatToString(x)
  }

  /** `", ".join(map(str, xs))`. */
  function JoinInts(xs: seq<int>): string
  {
    if xs == [] then ""
    else if |xs| == 1 then IntToString(xs[0])
    else IntToString(xs[0]) + ", " + JoinInts(xs[1..])
  }

  /** The rendered list holds only digits, signs, commas and spaces; in
    * particular no newline and no closing bracket. */
  lemma {:induction false} JoinIntsCharacters(xs: seq<int>)
    ensures forall c :: c in JoinInts(xs) ==> IsDigit(c) || c == '-' || c == ',' || c == ' '
  {
    if |xs| > 1 {
      JoinIntsCharacters(xs[1..]);
    }
  }

  /** `str(xs)` (and `f"{xs}"`) for a list of integers, e.g. `[-90, -85, -70]`. */
  function ReprList(xs: seq<int>): string
  {
    "[" + JoinInts(xs) + "]"
  }

  /** A run of digits holds no line break. */
  lemma DigitsOnOneLine(s: string)
    requires AllDigits(s)
    ensures '\n' !in s
  {
    forall i | 0 <= i < |s|
      ensures s[i] != '\n'
    {
      assert IsDigit(s[i]);
    }
  }

  /** A rendered list is one line that ends with its closing bracket. */
  lemma ReprListOnOneLine(xs: seq<int>)
    ensures '\n' !in ReprList(xs)
    ensures ReprList(xs)[|ReprList(xs)| - 1] == ']'
  {
    JoinIntsCharacters(xs);
    assert '\n' !in JoinInts(xs);
  }

  function StripLeft(s: string): (t: string)
    ensures |t| <= |s| && t == s[|s| - |t|..]
    ensures t != [] ==> !IsSpace(t[0])
    ensures forall i :: 0 <= i < |s| - |t| ==> IsSpace(s[i])
  {
    if s != [] && IsSpace(s[0]) then
      var t := StripLeft(s[1..]);
      assert s[1..][|s| - 1 - |t|..] == s[|s| - |t|..];
      assert forall i :: 1 <= i < |s| - |t| ==> s[i] == s[1..][i - 1];
      t
    else s
  }

  function StripRight(s: string): (t: string)
    ensures |t| <= |s| && t == s[..|t|]
    ensures t != [] ==> !IsSpace(t[|t| - 1])
    ensures forall i :: |t| <= i < |s| ==> IsSpace(s[i])
  {
    if s != [] && IsSpace(s[|s| - 1]) then
      var t := StripRight(s[..|s| - 1]);
      assert s[..|s| - 1][..|t|] == s[..|t|];
      t
    else s
  }

  /** Python's `int(s)` in base 10: surrounding whitespace, an optional sign and
    * at least one decimal digit; anything else raises, which is `None` here. */
  function ParseInt(s: string): (r: Option<int>)
    ensures r.Some? ==> exists i :: 0 <= i < |s| && IsDigit(s[i])
  {
    var l := StripLeft(s);
    var t := StripRight(l);
    var r := ParseLiteral(t);
    assert r.Some? ==> exists i :: 0 <= i < |s| && IsDigit(s[i]) by {
      if r.Some? {
        var j := LiteralDigit(t);
        StrippedIndex(s, j);
      }
    }
    r
  }

  /** Stripping keeps the characters it does not remove where they were. */
  lemma StrippedIndex(s: string, j: nat)
    requires j < |StripRight(StripLeft(s))|
    ensures |s| - |StripLeft(s)| + j < |s|
    ensures StripRight(StripLeft(s))[j] == s[|s| - |StripLeft(s)| + j]
  {
    var l := StripLeft(s);
    assert StripRight(l)[j] == l[j];
  }

  /** A literal `int()` accepts holds a digit. */
  lemma LiteralDigit(t: string) returns (j: nat)
    requires ParseLiteral(t).Some?
    ensures j < |t| && IsDigit(t[j])
  {
    j := if t[0] == '-' || t[0] == '+' then 1 else 0;
  }

  /** The stripped text of an integer literal: an optional sign, then digits. */
  function ParseLiteral(t: string): Option<int>
  {
    if t == [] then None
    else if t[0] == '-' || t[0] == '+' then
      var digits := t[1..];
      if digits != [] && AllDigits(digits) then
        var magnitude: int := DigitsValue(digits);
        Some(if t[0] == '-' then -magnitude else magnitude)
      else None
    else if AllDigits(t) then Some(DigitsValue(t))
    else None
  }

  /** `int()` reads back what `str()` writes, whatever whitespace precedes it. */
  lemma ParseIntOfRendered(pad: string, x: int)
    requires forall i :: 0 <= i < |pad| ==> IsSpace(pad[i])
    ensures ParseInt(pad + IntToString(x)) == Some(x)
  {
    var t := IntToString(x);
    StripLeftPadding(pad, t);
    StripRightRendered(x);
    ParseLiteralOfRendered(x);
    assert ParseInt(pad + t) == ParseLiteral(StripRight(StripLeft(pad + t)));
  }

  lemma StripRightRendered(x: int)
    ensures StripRight(IntToString(x)) == IntToString(x)
  {
    var t := IntToString(x);
    assert !IsSpace(t[|t| - 1]);
  }

  lemma ParseLiteralOfRendered(x: int)
    ensures ParseLiteral(IntToString(x)) == Some(x)
  {
    var t := IntToString(x);
    if x < 0 {
      var digits := NatToString(-x);
      assert t == "-" + digits && t[1..] == digits;
      DigitsValueOfNatToString(-x);
    } else {
      DigitsValueOfNatToString(x);
    }
  }

  lemma {:induction false} StripLeftPadding(pad: string, t: string)
    requires forall i :: 0 <= i < |pad| ==> IsSpace(pad[i])
    requires t != [] && !IsSpace(t[0])
    ensures StripLeft(pad + t) == t
  {
    if pad != [] {
      assert (pad + t)[1..] == pad[1..] + t;
      StripLeftPadding(pad[1..], t);
    } else {
      assert pad + t == t;
    }
  }

  /** The number of occurrences of `c` in `s`. */
  function Count(s: string, c: char): nat
  {
    if s == [] then 0 else (if s[0] == c then 1 else 0) + Count(s[1..], c)
  }

  /** Python's `s.split(sep)` for a one-character separator: the pieces between
    * separators, so always one more piece than there are separators. */
  function Split(s: string, sep: char): (pieces: seq<string>)
    ensures |pieces| == Count(s, sep) + 1
    ensures forall i :: 0 <= i < |pieces| ==> sep !in pieces[i]
  {
    if s == [] then [""]
    else
      var tail := Split(s[1..], sep);
      if s[0] == sep then [""] + tail
      else [[s[0]] + tail[0]] + tail[1..]
  }

  /** `sep.join(pieces)`. */
  function Join(pieces: seq<string>, sep: string): string
  {
    if pieces == [] then ""
    else if |pieces| == 1 then pieces[0]
    else pieces[0] + sep + Join(pieces[1..], sep)
  }

  lemma {:induction false} SplitOfPlain(a: string, sep: char)
    requires sep !in a
    ensures Split(a, sep) == [a]
  {
    if a != [] {
      SplitOfPlain(a[1..], sep);
      assert [a[0]] + a[1..] == a;
    }
  }

  lemma {:induction false} SplitAfterPiece(a: string, b: string, sep: char)
    requires sep !in a
    ensures Split(a + [sep] + b, sep) == [a] + Split(b, sep)
  {
    if a == [] {
      assert a + [sep] + b == [sep] + b;
      assert ([sep] + b)[1..] == b;
    } else {
      assert (a + [sep] + b)[1..] == a[1..] + [sep] + b;
      SplitAfterPiece(a[1..], b, sep);
      assert [a[0]] + a[1..] == a;
    }
  }

  /** Splitting what `join` produced gives back the pieces. */
  lemma {:induction false} SplitJoin(pieces: seq<string>, sep: char)
    requires pieces != []
    requires forall i :: 0 <= i < |pieces| ==> sep !in pieces[i]
    ensures Split(Join(pieces, [sep]), sep) == pieces
  {
    if |pieces| == 1 {
      SplitOfPlain(pieces[0], sep);
    } else {
      SplitJoin(pieces[1..], sep);
      SplitAfterPiece(pieces[0], Join(pieces[1..], [sep]), sep);
      assert pieces[0] + [sep] + Join(pieces[1..], [sep]) == Join(pieces, [sep]);
      assert [pieces[0]] + pieces[1..] == pieces;
    }
  }

  /** Joining what `split` produced gives back the text. */
  lemma {:induction false} JoinSplit(s: string, sep: char)
    ensures Join(Split(s, sep), [sep]) == s
  {
    if s != [] {
      var tail := Split(s[1..], sep);
      JoinSplit(s[1..], sep);
      if s[0] == sep {
        assert Split(s, sep) == [""] + tail;
        assert ([""] + tail)[1..] == tail;
        assert [sep] + s[1..] == s;
      } else {
        var pieces := Split(s, sep);
        assert pieces[1..] == tail[1..];
        if |tail| > 1 {
          assert Join(tail, [sep]) == tail[0] + [sep] + Join(tail[1..], [sep]);
          assert [s[0]] + (tail[0] + [sep] + Join(tail[1..], [sep])) == s;
        } else {
          assert [s[0]] + tail[0] == s;
        }
      }
    }
  }

  /** The pieces that `.split(",")` cuts out of `", ".join(map(str, xs))`: the
    * first is `str(xs[0])`, every later one `" " + str(xs[i])`. */
  function ReprPieces(xs: seq<int>): (pieces: seq<string>)
    requires xs != []
    ensures |pieces| == |xs|
  {
    seq(|xs|, i requires 0 <= i < |xs| => Padding(i) + IntToString(xs[i]))
  }

  /** The separator `", "` leaves a space at the head of every piece but the first. */
  function Padding(i: nat): string { if i == 0 then "" else " " }

  lemma {:induction false} JoinIntsAsPieces(xs: seq<int>)
    requires xs != []
    ensures JoinInts(xs) == Join(ReprPieces(xs), ",")
  {
    var all := ReprPieces(xs);
    assert all[0] == IntToString(xs[0]);
    if |xs| > 1 {
      var rest := ReprPieces(xs[1..]);
      JoinIntsAsPieces(xs[1..]);
      ReprPiecesTail(xs);
      calc {
        JoinInts(xs);
        IntToString(xs[0]) + ", " + JoinInts(xs[1..]);
        IntToString(xs[0]) + (", " + Join(rest, ","));
        { JoinPadFirst(rest); }
        IntToString(xs[0]) + ("," + Join([" " + rest[0]] + rest[1..], ","));
        all[0] + "," + Join(all[1..], ",");
        Join(all, ",");
      }
    }
  }

  /** Behind its first piece, a rendered list has the pieces of its tail with
    * the tail's first piece padded. */
  lemma ReprPiecesTail(xs: seq<int>)
    requires |xs| > 1
    ensures ReprPieces(xs)[1..] == [" " + ReprPieces(xs[1..])[0]] + ReprPieces(xs[1..])[1..]
  {
    var all := ReprPieces(xs);
    var rest := ReprPieces(xs[1..]);
    var padded := [" " + rest[0]] + rest[1..];
    assert rest[0] == IntToString(xs[1]);
    forall i | 0 <= i < |rest|
      ensures all[1..][i] == padded[i]
    {
      if i > 0 {
        assert all[i + 1] == " " + IntToString(xs[i + 1]);
        assert rest[i] == " " + IntToString(xs[1..][i]);
      }
    }
  }

  lemma {:induction false} JoinPadFirst(pieces: seq<string>)
    requires pieces != []
    ensures ", " + Join(pieces, ",") == "," + Join([" " + pieces[0]] + pieces[1..], ",")
  {
    var padded := [" " + pieces[0]] + pieces[1..];
    assert padded[1..] == pieces[1..];
  }

  /** Every piece of a rendered integer list reads back as its integer. */
  lemma SplitReprList(xs: seq<int>)
    requires xs != []
    ensures Split(JoinInts(xs), ',') == ReprPieces(xs)
    ensures forall i :: 0 <= i < |xs| ==> ParseInt(ReprPieces(xs)[i]) == Some(xs[i])
  {
    var pieces := ReprPieces(xs);
    forall i | 0 <= i < |xs|
      ensures ',' !in pieces[i] && ParseInt(pieces[i]) == Some(xs[i])
    {
      assert pieces[i] == Padding(i) + IntToString(xs[i]);
      RenderedPiece(i, xs[i]);
    }
    JoinIntsAsPieces(xs);
    SplitJoin(pieces, ',');
  }

  /** One piece of a rendered list holds no comma and reads back as its integer. */
  lemma RenderedPiece(i: nat, x: int)
    ensures ',' !in Padding(i) + IntToString(x)
    ensures ParseInt(Padding(i) + IntToString(x)) == Some(x)
  {
    RenderedPieceHasNoComma(i, x);
    ParseIntOfRendered(Padding(i), x);
  }

  lemma RenderedPieceHasNoComma(i: nat, x: int)
    ensures ',' !in Padding(i) + IntToString(x)
  {
    var digits := IntToString(x);
    assert forall k :: 0 <= k < |digits| ==> digits[k] != ',';
    assert ',' !in digits;
    assert ',' !in Padding(i);
  }

  /** `list(map(int, pieces))`: every piece converted, or `None` as soon as one
    * conversion raises. */
  function ParseAll(pieces: seq<string>): (r: Option<seq<int>>)
    ensures r.Some? <==> forall i :: 0 <= i < |pieces| ==> ParseInt(pieces[i]).Some?
    ensures r.Some? ==> |r.value| == |pieces| &&
                        forall i :: 0 <= i < |pieces| ==> ParseInt(pieces[i]) == Some(r.value[i])
  {
    var conversions := seq(|pieces|, i requires 0 <= i < |pieces| => ParseInt(pieces[i]));
    assert |conversions| == |pieces|;
    assert forall i :: 0 <= i < |pieces| ==> conversions[i] == ParseInt(pieces[i]);
    AllSome(conversions)
  }

  /** The values of a list of conversions if every one succeeded, else `None`. */
  function AllSome(rs: seq<Option<int>>): (r: Option<seq<int>>)
    ensures r.Some? <==> forall i :: 0 <= i < |rs| ==> rs[i].Some?
    ensures r.Some? ==> |r.value| == |rs| && forall i :: 0 <= i < |rs| ==> rs[i] == Some(r.value[i])
  {
    if rs == [] then Some([])
    else
      match rs[0]
      case None => None
      case Some(v) =>
        var rest := AllSome(rs[1..]);
        assert forall i :: 1 <= i < |rs| ==> rs[1..][i - 1] == rs[i];
        match rest
        case None => None
        case Some(vs) => Some([v] + vs)
  }
}
