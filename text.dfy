/**
 * The pieces of JavaScript's string and number behaviour the dashboard relies on:
 * `String(n)` for integers, reading digits back, `split` on one character and
 * `slice` with its clamping of out-of-range positions.
 */
module Text {
  import opened Prelude

  predicate IsDigit(c: char) {
    '0' <= c <= '9'
  }

  predicate AllDigits(s: string) {
    forall i :: 0 <= i < |s| ==> IsDigit(s[i])
  }

  function DigitChar(d: nat): (c: char)
    requires d < 10
    ensures IsDigit(c) && DigitValue(c) == d
  {
    ((('0' as int) + d) as char)
  }

  function DigitValue(c: char): (d: nat)
    requires IsDigit(c)
    ensures d < 10
  {
    (c as int) - ('0' as int)
  }

  /** The decimal numeral of a natural number, most significant digit first. */
  function NatDecimal(n: nat): (s: string)
    ensures 1 <= |s| && AllDigits(s)
    ensures s[0] == '0' ==> n == 0
    ensures n < 10 <==> |s| == 1
    decreases n
  {
    if n < 10 then [DigitChar(n)] else NatDecimal(n / 10) + [DigitChar(n % 10)]
  }

  /** `String(n)` for an integer `n`. */
  function Decimal(n: int): (s: string)
    ensures 1 <= |s|
    ensures n >= 0 ==> s == NatDecimal(n)
    ensures n < 0 ==> s == "-" + NatDecimal(-n)
  {
    if n < 0 then "-" + NatDecimal(-n) else NatDecimal(n)
  }

  /** The number a string of decimal digits denotes. */
  function ParseNat(s: string): nat
    requires AllDigits(s)
    decreases |s|
  {
    if s == [] then 0 else 10 * ParseNat(s[..|s| - 1]) + DigitValue(s[|s| - 1])
  }

  /** Reading a numeral back gives the number it was made from. */
  lemma {:induction false} ParseNatDecimal(n: nat)
    ensures ParseNat(NatDecimal(n)) == n
    decreases n
  {
    var s := NatDecimal(n);
    if n >= 10 {
      ParseNatDecimal(n / 10);
      assert s[..|s| - 1] == NatDecimal(n / 10);
    }
  }

  /** The numeral of `n` is the numeral of `n / 100` followed by its last two digits. */
  lemma {:induction false} NatDecimalLastTwo(n: nat)
    requires n >= 100
    ensures NatDecimal(n) == NatDecimal(n / 100) + [DigitChar((n / 10) % 10), DigitChar(n % 10)]
  {
    assert NatDecimal(n) == NatDecimal(n / 10) + [DigitChar(n % 10)];
    assert (n / 10) / 10 == n / 100;
    assert NatDecimal(n / 10) == NatDecimal(n / 100) + [DigitChar((n / 10) % 10)];
  }

  /** The number of decimal digits at the start of `s`. */
  function DigitSpan(s: string): (k: nat)
    ensures k <= |s|
    ensures AllDigits(s[..k])
    ensures k == |s| || !IsDigit(s[k])
    decreases |s|
  {
    if s == [] || !IsDigit(s[0]) then 0
    else
      var k := 1 + DigitSpan(s[1..]);
      assert s[..k] == [s[0]] + s[1..][..k - 1];
      k
  }

  /** A run of digits followed by a non-digit (or nothing) is read as exactly that run. */
  lemma {:induction false} DigitSpanPrefix(a: string, b: string)
    requires AllDigits(a)
    requires b == [] || !IsDigit(b[0])
    ensures DigitSpan(a + b) == |a|
    decreases |a|
  {
    if a != [] {
      assert (a + b)[1..] == a[1..] + b;
      DigitSpanPrefix(a[1..], b);
    }
  }

  /** JavaScript's `s.split(sep)` for a one-character separator. */
  function Split(s: string, sep: char): (parts: seq<string>)
    ensures 1 <= |parts|
    decreases |s|
  {
    if s == [] then [""]
    else if s[0] == sep then [""] + Split(s[1..], sep)
    else
      var rest := Split(s[1..], sep);
      [[s[0]] + rest[0]] + rest[1..]
  }

  /** Text without the separator splits into itself, glued to the first part of what follows. */
  lemma {:induction false} SplitPrefix(a: string, sep: char, b: string)
    requires sep !in a
    ensures Split(a + b, sep) == [a + Split(b, sep)[0]] + Split(b, sep)[1..]
    decreases |a|
  {
    if a == [] {
      assert a + b == b;
      assert a + Split(b, sep)[0] == Split(b, sep)[0];
      assert Split(b, sep) == [Split(b, sep)[0]] + Split(b, sep)[1..];
    } else {
      assert (a + b)[0] == a[0] != sep;
      assert (a + b)[1..] == a[1..] + b;
      SplitPrefix(a[1..], sep, b);
      assert [a[0]] + (a[1..] + Split(b, sep)[0]) == a + Split(b, sep)[0];
    }
  }

  /** Splitting `a`, separator, `b` gives `a` and then the parts of `b`. */
  lemma SplitAt(a: string, sep: char, b: string)
    requires sep !in a
    ensures Split(a + [sep] + b, sep) == [a] + Split(b, sep)
  {
    var t := [sep] + b;
    assert a + [sep] + b == a + t;
    assert t[0] == sep && t[1..] == b;
    assert Split(t, sep) == [""] + Split(b, sep);
    SplitPrefix(a, sep, t);
    assert a + "" == a;
  }

  /** Text without the separator is a single part. */
  lemma SplitWhole(a: string, sep: char)
    requires sep !in a
    ensures Split(a, sep) == [a]
  {
    assert a + "" == a;
    SplitPrefix(a, sep, "");
  }

  /** Cutting `s` at the first `sep`: what precedes it, and what follows it when it occurs. */
  function SplitFirst(s: string, sep: char): (r: (string, Option<string>))
    ensures r.1.None? <==> sep !in s
    decreases |s|
  {
    if s == [] then ("", None)
    else if s[0] == sep then ("", Some(s[1..]))
    else
      var (head, tail) := SplitFirst(s[1..], sep);
      ([s[0]] + head, tail)
  }

  /** The first `sep` after a separator-free prefix is the one right after that prefix. */
  lemma {:induction false} SplitFirstAt(a: string, sep: char, b: string)
    requires sep !in a
    ensures SplitFirst(a + [sep] + b, sep) == (a, Some(b))
    decreases |a|
  {
    if a != [] {
      assert (a + [sep] + b)[0] == a[0] != sep;
      assert (a + [sep] + b)[1..] == a[1..] + [sep] + b;
      SplitFirstAt(a[1..], sep, b);
      assert [a[0]] + a[1..] == a;
    } else {
      assert a + [sep] + b == [sep] + b;
    }
  }

  /** A string without the separator is kept whole. */
  lemma {:induction false} SplitFirstNone(a: string, sep: char)
    requires sep !in a
    ensures SplitFirst(a, sep) == (a, None)
    decreases |a|
  {
    if a != [] {
      SplitFirstNone(a[1..], sep);
      assert [a[0]] + a[1..] == a;
    }
  }

  function Min(a: nat, b: nat): nat {
    if a < b then a else b
  }

  /** JavaScript's `s.slice(start, end)` for non-negative positions: both are clamped to the length. */
  function Slice(s: string, start: nat, end: nat): (r: string)
    ensures |r| == if Min(end, |s|) < Min(start, |s|) then 0 else Min(end, |s|) - Min(start, |s|)
    ensures start <= end <= |s| ==> r == s[start..end]
  {
    var lo := Min(start, |s|);
    var hi := Min(end, |s|);
    if hi < lo then "" else s[lo..hi]
  }

  /** JavaScript's `a.join(sep)`. */
  function Join(parts: seq<string>, sep: string): string
    decreases |parts|
  {
    if parts == [] then ""
    else if |parts| == 1 then parts[0]
    else parts[0] + sep + Join(parts[1..], sep)
  }
}
