/**
 * The serial-port list both GUIs show: the device paths found under `/dev`,
 * de-duplicated and sorted as Python sorts strings, or the single fallback
 * `/dev/ttyACM0` when nothing was found.
 */
module Ports {

  const DefaultPort := "/dev/ttyACM0"

  /** Python's `a < b` on strings: lexicographic by code point, a proper prefix first. */
  predicate Less(a: string, b: string)
    decreases |a|
  {
    if a == [] then b != []
    else if b == [] then false
    else if a[0] != b[0] then a[0] < b[0]
    else Less(a[1..], b[1..])
  }

  lemma {:induction false} LessIrreflexive(a: string)
    ensures !Less(a, a)
    decreases |a|
  {
    if a != [] {
      LessIrreflexive(a[1..]);
    }
  }

  lemma {:induction false} LessTransitive(a: string, b: string, c: string)
    requires Less(a, b) && Less(b, c)
    ensures Less(a, c)
    decreases |a|
  {
    if a != [] && a[0] == b[0] && b[0] == c[0] {
      LessTransitive(a[1..], b[1..], c[1..]);
    }
  }

  lemma {:induction false} LessTotal(a: string, b: string)
    requires a != b
    ensures Less(a, b) || Less(b, a)
    decreases |a|
  {
    if a != [] && b != [] && a[0] == b[0] {
      assert a == [a[0]] + a[1..] && b == [b[0]] + b[1..];
      LessTotal(a[1..], b[1..]);
    }
  }

  predicate StrictlySorted(s: seq<string>)
  {
    forall i, j :: 0 <= i < j < |s| ==> Less(s[i], s[j])
  }

  /** Adds `x` to a strictly sorted list unless it is already there. */
  function Insert(x: string, s: seq<string>): (r: seq<string>)
    requires StrictlySorted(s)
    ensures StrictlySorted(r)
    ensures forall p :: p in r <==> p == x || p in s
  {
    if s == [] then [x]
    else if x == s[0] then s
    else if Less(x, s[0]) then
      assert forall j :: 0 < j < |s| ==> Less(x, s[j]) by {
        forall j | 0 < j < |s| ensures Less(x, s[j]) { LessTransitive(x, s[0], s[j]); }
      }
      [x] + s
    else
      LessTotal(x, s[0]);
      var rest := Insert(x, s[1..]);
      assert forall p :: p in rest ==> Less(s[0], p);
      [s[0]] + rest
  }

  /** `sorted(set(xs))`. */
  function SortedDistinct(xs: seq<string>): (r: seq<string>)
    ensures StrictlySorted(r)
    ensures forall p :: p in r <==> p in xs
  {
    if xs == [] then []
    else
      var r := Insert(xs[|xs| - 1], SortedDistinct(xs[..|xs| - 1]));
      assert xs == xs[..|xs| - 1] + [xs[|xs| - 1]];
      r
  }

  /** A strictly sorted list is determined by the set of its elements: whatever
    * order the paths were found in, the listing is the same. */
  lemma {:induction false} SortedListingUnique(a: seq<string>, b: seq<string>)
    requires StrictlySorted(a) && StrictlySorted(b)
    requires forall p :: p in a <==> p in b
    ensures a == b
  {
    assert a == [] <==> b == [] by {
      if a != [] { assert a[0] in a; }
      if b != [] { assert b[0] in b; }
    }
    if a != [] {
      assert a[0] == b[0] by {
        if a[0] != b[0] {
          // each head occurs later in the other list, so each is below the other
          assert Less(a[0], b[0]) by { assert b[0] in a; }
          assert Less(b[0], a[0]) by { assert a[0] in b; }
          LessTransitive(a[0], b[0], a[0]);
          LessIrreflexive(a[0]);
        }
      }
      forall p ensures p in a[1..] <==> p in b[1..] {
        if p in a[1..] {
          assert Less(a[0], p);
          LessIrreflexive(p);
          assert p in b;
          var j :| 0 <= j < |b| && b[j] == p;
          assert j != 0;
          assert p in b[1..];
        }
        if p in b[1..] {
          assert Less(b[0], p);
          LessIrreflexive(p);
          assert p in a;
          var j :| 0 <= j < |a| && a[j] == p;
          assert j != 0;
          assert p in a[1..];
        }
      }
      SortedListingUnique(a[1..], b[1..]);
      assert a == [a[0]] + a[1..] && b == [b[0]] + b[1..];
    }
  }

  /** The items put in the port combo box: the sorted, duplicate-free list of
    * found paths, or only the default port when none was found. */
  function NormalisePorts(found: seq<string>): (ports: seq<string>)
    ensures found == [] ==> ports == [DefaultPort]
    ensures found != [] ==> StrictlySorted(ports) && forall p :: p in ports <==> p in found
    ensures forall i, j :: 0 <= i < j < |ports| ==> ports[i] != ports[j]
  {
    if found == [] then [DefaultPort]
    else
      var ports := SortedDistinct(found);
      assert forall i, j :: 0 <= i < j < |ports| ==> ports[i] != ports[j] by {
        forall i, j | 0 <= i < j < |ports| ensures ports[i] != ports[j] {
          LessIrreflexive(ports[i]);
        }
      }
      ports
  }

  /** The port list depends only on which paths were found, not on their order
    * or repetitions. */
  lemma NormaliseIgnoresOrder(xs: seq<string>, ys: seq<string>)
    requires forall p :: p in xs <==> p in ys
    ensures NormalisePorts(xs) == NormalisePorts(ys)
  {
    assert xs == [] <==> ys == [] by {
      if xs != [] { assert xs[0] in xs; }
      if ys != [] { assert ys[0] in ys; }
    }
    if xs != [] {
      SortedListingUnique(NormalisePorts(xs), NormalisePorts(ys));
    }
  }
}
