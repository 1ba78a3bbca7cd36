/**
 * String operations the sources rely on from their languages' runtimes:
 * writing a number in decimal, splitting on a one-character separator
 * (Python's str.split(sep) and JavaScript's String.prototype.split(sep)
 * agree for such a separator) and Python's str.strip().
 */
module Text {

  // ---------------------------------------------------------------------
  // Decimal numerals
  // ---------------------------------------------------------------------

  function Digit(d: nat): (c: char)
    requires d < 10
    ensures '0' <= c <= '9'
  {
    ('0' as int + d) as char
  }

  function DigitValue(c: char): (d: nat)
    requires '0' <= c <= '9'
    ensures d < 10 && Digit(d) == c
  {
    c as int - '0' as int
  }

  predicate IsDecimal(s: string) {
    forall i :: 0 <= i < |s| ==> '0' <= s[i] <= '9'
  }

  /** The value of a string of decimal digits. */
  function DecimalValue(s: string): nat
    requires IsDecimal(s)
  {
    if s == [] then 0 else DecimalValue(s[..|s| - 1]) * 10 + DigitValue(s[|s| - 1])
  }

  /**
   * The decimal numeral of n, as both runtimes write a non-negative integer:
   * digits only, and no leading zero unless the number is zero.
   */
  function NatToString(n: nat): (s: string)
    ensures |s| >= 1 && IsDecimal(s)
    ensures s[0] == '0' ==> n == 0
    ensures n >= 10 ==> |s| >= 2
    decreases n
  {
    if n < 10 then [Digit(n)] else NatToString(n / 10) + [Digit(n % 10)]
  }

  /** Reading the numeral back gives the number: NatToString loses nothing. */
  lemma {:induction false} DecimalRoundTrip(n: nat)
    ensures DecimalValue(NatToString(n)) == n
  {
    var s := NatToString(n);
    if n < 10 {
      assert s[..|s| - 1] == [];
    } else {
      assert s[..|s| - 1] == NatToString(n / 10);
      DecimalRoundTrip(n / 10);
    }
  }

  /** Distinct numbers have distinct numerals. */
  lemma NatToStringInjective(a: nat, b: nat)
    requires NatToString(a) == NatToString(b)
    ensures a == b
  {
    DecimalRoundTrip(a);
    DecimalRoundTrip(b);
  }

  /** An integer in decimal with a leading '-' when negative (Python's str(int)). */
  function IntToString(i: int): (s: string)
    ensures |s| >= 1
    ensures s[0] == '-' <==> i < 0
  {
    if i < 0 then "-" + NatToString(-i) else NatToString(i)
  }

  // ---------------------------------------------------------------------
  // Splitting on a separator
  // ---------------------------------------------------------------------

  /** The position of the first occurrence of c in s. */
  function IndexOf(s: string, c: char): (k: nat)
    requires c in s
    ensures k < |s| && s[k] == c && c !in s[..k]
  {
    if s[0] == c then 0
    else
      var k := IndexOf(s[1..], c);
      assert s[..k + 1] == [s[0]] + s[1..][..k];
      k + 1
  }

  /** A position holding c with no c before it is the first occurrence. */
  lemma IndexOfAt(s: string, c: char, j: nat)
    requires j < |s| && s[j] == c && c !in s[..j]
    ensures IndexOf(s, c) == j
  {
  }

  /** The text after the first occurrence of c (Python's s.split(c, 1)[1]). */
  function AfterFirst(s: string, c: char): (r: string)
    requires c in s
    ensures exists k :: 0 <= k < |s| && s[k] == c && c !in s[..k] && r == s[k + 1..]
  {
    var k := IndexOf(s, c);
    s[k + 1..]
  }

  /** The parts joined back with the separator between each two. */
  function Join(parts: seq<string>, sep: char): string
    requires |parts| >= 1
  {
    if |parts| == 1 then parts[0] else parts[0] + [sep] + Join(parts[1..], sep)
  }

  /**
   * The pieces of s between occurrences of sep, in order. There is always
   * at least one piece: the empty string splits into [""].
   */
  function Split(s: string, sep: char): (parts: seq<string>)
    ensures |parts| >= 1
    ensures forall i :: 0 <= i < |parts| ==> sep !in parts[i]
    ensures Join(parts, sep) == s
    decreases |s|
  {
    if sep !in s then [s]
    else
      var k := IndexOf(s, sep);
      var rest := Split(s[k + 1..], sep);
      assert ([s[..k]] + rest)[1..] == rest;
      assert s == s[..k] + [sep] + s[k + 1..];
      [s[..k]] + rest
  }

  /** Splitting undoes joining when no part contains the separator. */
  lemma {:induction false} SplitJoin(parts: seq<string>, sep: char)
    requires |parts| >= 1
    requires forall i :: 0 <= i < |parts| ==> sep !in parts[i]
    ensures Split(Join(parts, sep), sep) == parts
  {
    if |parts| > 1 {
      var p := parts[0];
      var rest := Join(parts[1..], sep);
      var s := Join(parts, sep);
      assert s == p + [sep] + rest;
      assert s[..|p|] == p && s[|p|] == sep && s[|p| + 1..] == rest;
      IndexOfAt(s, sep, |p|);
      SplitJoin(parts[1..], sep);
      calc {
        Split(s, sep);
        [s[..|p|]] + Split(s[|p| + 1..], sep);
        [p] + parts[1..];
        parts;
      }
    }
  }

  /** The last part of a join is a suffix of the joined string. */
  lemma {:induction false} JoinEndsWithLast(parts: seq<string>, sep: char)
    requires |parts| >= 1
    ensures |parts[|parts| - 1]| <= |Join(parts, sep)|
    ensures Join(parts, sep)[|Join(parts, sep)| - |parts[|parts| - 1]|..] == parts[|parts| - 1]
    ensures |parts| > 1 ==>
      (|parts[|parts| - 1]| < |Join(parts, sep)|
       && Join(parts, sep)[|Join(parts, sep)| - |parts[|parts| - 1]| - 1] == sep)
  {
    if |parts| > 1 {
      JoinEndsWithLast(parts[1..], sep);
      var j := Join(parts[1..], sep);
      var last := parts[|parts| - 1];
      assert last == parts[1..][|parts[1..]| - 1];
      var s := parts[0] + [sep] + j;
      assert s[|s| - |last|..] == j[|j| - |last|..];
      if |parts| == 2 {
        assert j == last;
      }
    }
  }

  /**
   * The last piece of s split on sep: JavaScript's s.split(sep).pop(), the
   * text after the last separator, or all of s when there is none.
   */
  function LastSegment(s: string, sep: char): (r: string)
    ensures sep !in r
    ensures |r| <= |s| && s[|s| - |r|..] == r
    ensures sep !in s ==> r == s
    ensures r == s || (|r| < |s| && s[|s| - |r| - 1] == sep)
  {
    var parts := Split(s, sep);
    JoinEndsWithLast(parts, sep);
    assert |parts| == 1 ==> Join(parts, sep) == parts[0];
    parts[|parts| - 1]
  }

  /** The last segment of a path that ends in a separator and a name without one is that name. */
  lemma LastSegmentOfPath(dir: string, sep: char, name: string)
    requires sep !in name
    ensures LastSegment(dir + [sep] + name, sep) == name
  {
    var s := dir + [sep] + name;
    var r := LastSegment(s, sep);
    assert s[|dir|] == sep;
    assert s[|s| - |name|..] == name;
  }

  // ---------------------------------------------------------------------
  // Python's str.strip()
  // ---------------------------------------------------------------------

  /** The characters for which Python's str.isspace() holds. */
  predicate IsPyWhitespace(c: char) {
    || '\t' <= c <= '\r'
    || '\U{1C}' <= c <= '\U{20}'
    || c == '\U{85}' || c == '\U{A0}' || c == '\U{1680}'
    || '\U{2000}' <= c <= '\U{200A}'
    || c == '\U{2028}' || c == '\U{2029}' || c == '\U{202F}'
    || c == '\U{205F}' || c == '\U{3000}'
  }

  lemma AppendAssociates<T>(a: seq<T>, b: seq<T>, c: seq<T>)
    ensures a + (b + c) == a + b + c
  {
  }

  /** s without its leading whitespace. */
  function LStrip(s: string): (r: string)
    ensures |r| <= |s| && r == s[|s| - |r|..]
    ensures r == [] || !IsPyWhitespace(r[0])
    ensures forall i :: 0 <= i < |s| - |r| ==> IsPyWhitespace(s[i])
  {
    if s != [] && IsPyWhitespace(s[0]) then
      var r := LStrip(s[1..]);
      assert forall i :: 1 <= i < |s| ==> s[1..][i - 1] == s[i];
      assert s[1..][|s| - 1 - |r|..] == s[|s| - |r|..];
      r
    else s
  }

  /** s without its trailing whitespace. */
  function RStrip(s: string): (r: string)
    ensures |r| <= |s| && r == s[..|r|]
    ensures r == [] || !IsPyWhitespace(r[|r| - 1])
    ensures forall i :: |r| <= i < |s| ==> IsPyWhitespace(s[i])
  {
    if s != [] && IsPyWhitespace(s[|s| - 1]) then
      var r := RStrip(s[..|s| - 1]);
      assert s[..|s| - 1][..|r|] == s[..|r|];
      r
    else s
  }

  /** Python's s.strip(): s without leading and trailing whitespace. */
  function Strip(s: string): (r: string)
    ensures r == [] || (!IsPyWhitespace(r[0]) && !IsPyWhitespace(r[|r| - 1]))
    ensures exists i, j ::
      && 0 <= i <= j <= |s| && r == s[i..j]
      && (forall k :: 0 <= k < i ==> IsPyWhitespace(s[k]))
      && (forall k :: j <= k < |s| ==> IsPyWhitespace(s[k]))
  {
    var l := LStrip(s);
    var r := RStrip(l);
    StripSlice(s, l, r);
    r
  }

  lemma PrefixOfSuffix<T>(s: seq<T>, i: nat, n: nat)
    requires i + n <= |s|
    ensures s[i..][..n] == s[i..i + n]
  {
    assert forall k :: 0 <= k < n ==> s[i..][..n][k] == s[i + k];
  }

  /** The facts LStrip and RStrip give, combined into one slice of the original. */
  lemma StripSlice(s: string, l: string, r: string)
    requires |l| <= |s| && l == s[|s| - |l|..]
    requires forall k :: 0 <= k < |s| - |l| ==> IsPyWhitespace(s[k])
    requires |r| <= |l| && r == l[..|r|]
    requires forall k :: |r| <= k < |l| ==> IsPyWhitespace(l[k])
    ensures var i := |s| - |l|;
      && r == s[i..i + |r|]
      && (forall k :: i + |r| <= k < |s| ==> IsPyWhitespace(s[k]))
  {
    var i := |s| - |l|;
    PrefixOfSuffix(s, i, |r|);
    forall k | i + |r| <= k < |s|
      ensures IsPyWhitespace(s[k])
    {
      assert s[k] == l[k - i];
    }
  }


  /** Every character of the stripped text occurs in the original. */
  lemma StripKeeps(s: string, c: char)
    requires c in Strip(s)
    ensures c in s
  {
    var l := LStrip(s);
    var r := RStrip(l);
    var j :| 0 <= j < |r| && r[j] == c;
    assert r == l[..|r|];
    assert l[j] == c;
    assert l == s[|s| - |l|..];
    assert s[|s| - |l| + j] == c;
  }
}
