/**
 * The display formatters of the chart module (js/charts.js:166-182) and the
 * `parseInt` they and the overview loader rely on. Each is paired with a
 * reader that takes the display string back, so that what a formatter keeps
 * of its input is stated as a round trip.
 */
module Formatters {
  import opened Prelude
  import opened Text

  // ---------------------------------------------------------------- formatDate

  /** `formatDate(yyyymmdd)`: characters 4-5 and 6-7 of `String(yyyymmdd)`, joined by `/`. */
  function FormatDate(s: string): string {
    Slice(s, 4, 6) + "/" + Slice(s, 6, 8)
  }

  /** Two decimal digits of a number below 100, with a leading zero. */
  function TwoDigits(n: nat): (s: string)
    requires n < 100
    ensures |s| == 2 && AllDigits(s)
  {
    [DigitChar(n / 10), DigitChar(n % 10)]
  }

  /** A date string of eight or more characters shows its month and day positions. */
  lemma FormatDateOfString(s: string)
    requires |s| >= 8
    ensures FormatDate(s) == s[4..6] + "/" + s[6..8]
    ensures |FormatDate(s)| == 5 && FormatDate(s)[2] == '/'
  {
  }

  /** A shorter string loses the missing positions: `slice` clamps instead of failing. */
  lemma FormatDateShort(s: string)
    requires |s| <= 4
    ensures FormatDate(s) == "/"
  {
  }

  lemma {:induction false} FourDigitNumeral(n: nat)
    requires 1000 <= n <= 9999
    ensures |NatDecimal(n)| == 4
  {
    assert NatDecimal(n) == NatDecimal(n / 10) + [DigitChar(n % 10)];
    assert NatDecimal(n / 10) == NatDecimal(n / 100) + [DigitChar((n / 10) % 10)];
    assert NatDecimal(n / 100) == NatDecimal(n / 1000) + [DigitChar((n / 100) % 10)];
    assert |NatDecimal(n / 1000)| == 1;
  }

  lemma LastTwoDigits(n: nat)
    requires n >= 100
    ensures NatDecimal(n) == NatDecimal(n / 100) + TwoDigits(n % 100)
  {
    NatDecimalLastTwo(n);
    var a, b := n / 100, n % 100;
    var c, d := b / 10, b % 10;
    assert n == 100 * a + 10 * c + d && 0 <= d < 10 && 0 <= c < 10;
    assert n / 10 == 10 * a + c;
    assert (n / 10) % 10 == c && n % 10 == d;
  }

  /**
   * For a date given as the number YYYYMMDD, `formatDate` shows the month
   * `(n div 100) mod 100` and the day `n mod 100`, two digits each.
   */
  lemma FormatDateOfNumber(n: int)
    requires 10000000 <= n <= 99999999
    ensures FormatDate(Decimal(n)) == TwoDigits((n / 100) % 100) + "/" + TwoDigits(n % 100)
  {
    var m := n / 100;
    var year, month, day := NatDecimal(m / 100), TwoDigits(m % 100), TwoDigits(n % 100);
    var s := Decimal(n);
    assert s == NatDecimal(m) + day by { LastTwoDigits(n); }
    assert NatDecimal(m) == year + month by { LastTwoDigits(m); }
    assert |year| == 4 by {
      assert m / 100 == n / 10000;
      FourDigitNumeral(n / 10000);
    }
    assert s == year + month + day;
    assert s[4..6] == month;
    assert s[6..8] == day;
    FormatDateOfString(s);
  }

  lemma FormatDateExample()
    ensures FormatDate("20240115") == "01/15"
  {
    var s := "20240115";
    FormatDateOfString(s);
    assert s[4..6] == "01" && s[6..8] == "15";
  }

  // -------------------------------------------------------------- formatNumber

  /**
   * Tenths of `n / unit` rounded to the nearest, ties up: the integer reading
   * of `(n / unit).toFixed(1)` used here (see README, Left out).
   */
  function Tenths(n: nat, unit: nat): nat
    requires unit > 0
  {
    (10 * n + unit / 2) / unit
  }

  /** `(n / unit).toFixed(1)`: whole part, a point, one decimal. */
  function Fixed1(n: nat, unit: nat): string
    requires unit > 0
  {
    var q := Tenths(n, unit);
    NatDecimal(q / 10) + "." + [DigitChar(q % 10)]
  }

  /** `formatNumber(n)`: an `M` suffix from a million, a `K` suffix from a thousand, else `String(n)`. */
  function FormatNumber(n: int): string {
    if n >= 1000000 then Fixed1(n, 1000000) + "M"
    else if n >= 1000 then Fixed1(n, 1000) + "K"
    else Decimal(n)
  }

  /** The unit a display suffix stands for, if it is one. */
  function SuffixUnit(c: char): Option<nat> {
    if c == 'M' then Some(1000000) else if c == 'K' then Some(1000) else None
  }

  /** Reads a `formatNumber` display back into the integer it denotes. */
  function ReadCompact(t: string): Option<int> {
    if t == [] then None
    else
      var unit := SuffixUnit(t[|t| - 1]);
      if unit.Some? then
        var (whole, frac) := SplitFirst(t[..|t| - 1], '.');
        if whole != [] && AllDigits(whole) && frac.Some? && |frac.value| == 1 && IsDigit(frac.value[0])
        then Some(ParseNat(whole) * unit.value + DigitValue(frac.value[0]) * (unit.value / 10))
        else None
      else if t[0] == '-' && AllDigits(t[1..]) && |t| > 1 then Some(0 - ParseNat(t[1..]))
      else if AllDigits(t) then Some(ParseNat(t))
      else None
  }

  /** The suffix is `M` exactly from a million, `K` exactly from a thousand below that, else none. */
  lemma FormatNumberSuffix(n: int)
    ensures var t := FormatNumber(n);
      && |t| >= 1
      && (t[|t| - 1] == 'M' <==> n >= 1000000)
      && (t[|t| - 1] == 'K' <==> 1000 <= n < 1000000)
      && (n < 1000 ==> t == Decimal(n) && IsDigit(t[|t| - 1]))
  {
    var t := FormatNumber(n);
    if n < 1000 {
      if n < 0 {
        assert t[|t| - 1] == NatDecimal(-n)[|NatDecimal(-n)| - 1];
      }
    }
  }

  /** A numeral, a point, one digit and a suffix read back as the number they denote. */
  lemma ReadCompactSuffixed(w: string, d: char, c: char, unit: nat)
    requires w != [] && AllDigits(w) && IsDigit(d) && SuffixUnit(c) == Some(unit)
    ensures ReadCompact(w + ['.'] + [d] + [c]) == Some(ParseNat(w) * unit + DigitValue(d) * (unit / 10))
  {
    var t := w + ['.'] + [d] + [c];
    assert t[|t| - 1] == c;
    assert t[..|t| - 1] == w + ['.'] + [d];
    assert '.' !in w by {
      forall i | 0 <= i < |w| ensures w[i] != '.' {
        assert IsDigit(w[i]);
      }
    }
    SplitFirstAt(w, '.', [d]);
  }

  lemma TenthsSplit(q: nat, u: nat)
    ensures (q / 10) * (10 * u) + (q % 10) * u == q * u
  {
    calc {
      (q / 10) * (10 * u) + (q % 10) * u;
      == ((q / 10) * 10) * u + (q % 10) * u;
      == ((q / 10) * 10 + q % 10) * u;
      == q * u;
    }
  }

  lemma Fixed1Reading(n: nat, unit: nat, c: char)
    requires unit == 1000 || unit == 1000000
    requires SuffixUnit(c) == Some(unit)
    ensures var q := Tenths(n, unit); ReadCompact(Fixed1(n, unit) + [c]) == Some(q * (unit / 10))
  {
    var q := Tenths(n, unit);
    var whole := NatDecimal(q / 10);
    assert Fixed1(n, unit) + [c] == whole + ['.'] + [DigitChar(q % 10)] + [c];
    ReadCompactSuffixed(whole, DigitChar(q % 10), c, unit);
    ParseNatDecimal(q / 10);
    assert unit == 10 * (unit / 10);
    TenthsSplit(q, unit / 10);
  }

  lemma TenthsBounds(n: nat, unit: nat)
    requires unit == 1000 || unit == 1000000
    ensures var v := Tenths(n, unit) * (unit / 10);
      20 * (v - n) <= unit && 20 * (n - v) < unit
  {
    var q := Tenths(n, unit);
    var u := unit / 10;
    var x := 10 * n + unit / 2;
    assert q * unit <= x < q * unit + unit;
    assert q * unit == 10 * (q * u);
    assert unit / 2 == 5 * u;
  }

  /**
   * Reading a display back: below a thousand the number itself; from a thousand
   * on, a number within half a displayed decimal (a twentieth of the unit) of it.
   */
  lemma FormatNumberReadBack(n: int)
    ensures ReadCompact(FormatNumber(n)).Some?
    ensures n < 1000 ==> ReadCompact(FormatNumber(n)) == Some(n)
    ensures n >= 1000 ==> var unit := if n >= 1000000 then 1000000 else 1000;
      var v := ReadCompact(FormatNumber(n)).value;
      20 * (v - n) <= unit && 20 * (n - v) < unit
  {
    if n >= 1000000 {
      Fixed1Reading(n, 1000000, 'M');
      TenthsBounds(n, 1000000);
    } else if n >= 1000 {
      Fixed1Reading(n, 1000, 'K');
      TenthsBounds(n, 1000);
    } else {
      DecimalReading(n);
    }
  }

  lemma DecimalReading(n: int)
    ensures ReadCompact(Decimal(n)) == Some(n)
  {
    var t := Decimal(n);
    var digits := NatDecimal(if n < 0 then -n else n);
    ParseNatDecimal(if n < 0 then -n else n);
    assert IsDigit(digits[|digits| - 1]);
    assert t[|t| - 1] == digits[|digits| - 1];
    assert SuffixUnit(t[|t| - 1]).None?;
    if n < 0 {
      assert t[0] == '-' && t[1..] == digits;
    } else {
      assert t == digits;
    }
  }

  lemma FormatNumberExampleMillions()
    ensures FormatNumber(2500000) == "2.5M"
  {
  }

  lemma FormatNumberExampleThousands()
    ensures FormatNumber(1500) == "1.5K"
  {
  }

  /** Just below a million the rounding carries into a fifth digit instead of switching to `M`. */
  lemma FormatNumberExampleBoundary()
    ensures FormatNumber(999999) == "1000.0K"
  {
  }

  // ------------------------------------------------------------ formatDuration

  /** JavaScript's `a % b` for `b > 0`: the remainder takes the sign of `a`. */
  function JsRem(a: int, b: int): (r: int)
    requires b > 0
    ensures a >= 0 ==> 0 <= r < b
    ensures a < 0 ==> -b < r <= 0
    ensures (a - r) % b == 0
  {
    if a >= 0 then
      assert a - a % b == (a / b) * b;
      MultipleMod(a / b, b);
      a % b
    else
      var c := -a;
      assert a + c % b == -((c / b) * b);
      MultipleMod(-(c / b), b);
      -(c % b)
  }

  /** A multiple of `b` leaves no remainder. */
  lemma MultipleMod(q: int, b: int)
    requires b > 0
    ensures (q * b) % b == 0
  {
    var d, m := (q * b) / b, (q * b) % b;
    assert q * b == d * b + m && 0 <= m < b;
    var k := q - d;
    assert k * b == q * b - d * b;
    MultipleSign(k, b);
    assert k == 0;
  }

  lemma MultipleSign(k: int, b: int)
    requires b > 0
    ensures k >= 1 ==> k * b >= b
    ensures k <= -1 ==> k * b <= -b
  {
    if k >= 1 {
      assert k * b == (k - 1) * b + b;
      assert (k - 1) * b >= 0;
    } else if k <= -1 {
      assert k * b == (k + 1) * b - b;
      assert (k + 1) * b <= 0;
    }
  }

  /**
   * `formatDuration(s)` for an integer `s`: `Math.floor(s / 60)` minutes
   * (Dafny's `/` is floor division for a positive divisor) and `s % 60` seconds.
   */
  function FormatDuration(s: int): string {
    var m := s / 60;
    var rem := JsRem(s, 60);
    if m > 0 then Decimal(m) + "m " + Decimal(rem) + "s" else Decimal(rem) + "s"
  }

  /** Reads `"{m}m {r}s"` or `"{r}s"` back into seconds. */
  function ReadDuration(t: string): Option<nat> {
    if t == [] || t[|t| - 1] != 's' then None
    else ReadMinutesSeconds(SplitFirst(t[..|t| - 1], 'm'))
  }

  /** The numeral before `m` (or the whole text), then, after `m`, a space and the seconds. */
  function ReadMinutesSeconds(parts: (string, Option<string>)): Option<nat> {
    var first := ReadNumeral(parts.0);
    if first.None? || parts.1.None? then first
    else
      var rest := parts.1.value;
      if rest == [] || rest[0] != ' ' then None
      else
        match ReadNumeral(rest[1..])
        case None => None
        case Some(secs) => Some(first.value * 60 + secs)
  }

  /** A non-empty run of digits, read as a number. */
  function ReadNumeral(s: string): Option<nat> {
    if s != [] && AllDigits(s) then Some(ParseNat(s)) else None
  }

  lemma ReadNumeralDecimal(n: nat)
    ensures ReadNumeral(NatDecimal(n)) == Some(n)
  {
    ParseNatDecimal(n);
  }

  lemma NoLetterInNumeral(n: nat, c: char)
    requires !IsDigit(c)
    ensures c !in NatDecimal(n)
  {
    var s := NatDecimal(n);
    forall i | 0 <= i < |s| ensures s[i] != c {
      assert IsDigit(s[i]);
    }
  }

  lemma ReadDurationSeconds(r: nat)
    ensures ReadDuration(NatDecimal(r) + "s") == Some(r)
  {
    var t := NatDecimal(r) + "s";
    assert t[..|t| - 1] == NatDecimal(r);
    NoLetterInNumeral(r, 'm');
    SplitFirstNone(NatDecimal(r), 'm');
    ReadNumeralDecimal(r);
  }

  lemma ReadDurationSplit(mins: string, secs: string)
    requires 'm' !in mins
    ensures ReadDuration(mins + ['m'] + secs + "s") == ReadMinutesSeconds((mins, Some(secs)))
  {
    var t := mins + ['m'] + secs + "s";
    assert t[..|t| - 1] == mins + ['m'] + secs;
    SplitFirstAt(mins, 'm', secs);
  }

  lemma ReadMinutesSecondsOf(a: string, b: string, m: nat, r: nat)
    requires a == NatDecimal(m) && b == NatDecimal(r)
    ensures ReadMinutesSeconds((a, Some(" " + b))) == Some(m * 60 + r)
  {
    assert (" " + b)[1..] == b;
    ReadNumeralDecimal(m);
    ReadNumeralDecimal(r);
  }

  /** `"<m>m <r>s"` reads back as `m` minutes and `r` seconds. */
  lemma ReadDurationMinutes(a: string, b: string, m: nat, r: nat)
    requires a == NatDecimal(m) && b == NatDecimal(r)
    ensures ReadDuration(a + "m " + b + "s") == Some(m * 60 + r)
  {
    assert a + "m " + b + "s" == a + ['m'] + (" " + b) + "s";
    NoLetterInNumeral(m, 'm');
    ReadDurationSplit(a, " " + b);
    ReadMinutesSecondsOf(a, b, m, r);
  }

  /**
   * For `s >= 0` the display splits `s` into whole minutes and the seconds
   * left over (below 60); reading it back gives `s`.
   */
  lemma FormatDurationRoundTrip(s: int)
    requires s >= 0
    ensures FormatDuration(s) ==
      (if s >= 60 then Decimal(s / 60) + "m " else "") + Decimal(s % 60) + "s"
    ensures 0 <= s % 60 < 60 && (s / 60) * 60 + s % 60 == s
    ensures ReadDuration(FormatDuration(s)) == Some(s)
  {
    var m, rem := s / 60, s % 60;
    assert JsRem(s, 60) == rem;
    assert Decimal(rem) == NatDecimal(rem);
    if s >= 60 {
      assert m > 0 && Decimal(m) == NatDecimal(m);
      ReadDurationMinutes(NatDecimal(m), NatDecimal(rem), m, rem);
      assert m * 60 + rem == s;
    } else {
      assert m == 0;
      ReadDurationSeconds(rem);
    }
  }

  /** A negative duration loses its minutes: only the signed remainder is shown. */
  lemma FormatDurationNegative(s: int)
    requires s < 0
    ensures FormatDuration(s) == Decimal(-((-s) % 60)) + "s"
  {
  }

  lemma FormatDurationExampleMinutes()
    ensures FormatDuration(125) == "2m 5s"
  {
  }

  lemma FormatDurationExampleSeconds()
    ensures FormatDuration(45) == "45s"
  {
  }

  // ------------------------------------------------------------------ parseInt

  /** The characters `parseInt` skips before the number (ASCII white space). */
  predicate IsJsSpace(c: char) {
    c == ' ' || c == '\t' || c == '\n' || c == '\r' || c == '\U{000B}' || c == '\U{000C}'
  }

  function TrimStart(s: string): (r: string)
    ensures |r| <= |s| && r == s[|s| - |r|..]
    ensures r == [] || !IsJsSpace(r[0])
    decreases |s|
  {
    if s != [] && IsJsSpace(s[0]) then TrimStart(s[1..]) else s
  }

  /** The longest run of digits at the start, read as a number; `None` when there is none. */
  function LeadingNumber(body: string): (r: Option<int>)
    ensures r.Some? ==> r.value >= 0
  {
    var k := DigitSpan(body);
    if k == 0 then None else Some(ParseNat(body[..k]))
  }

  /** An optional sign, then the leading digits. */
  function SignedNumber(t: string): Option<int> {
    if t != [] && t[0] == '-' then
      match LeadingNumber(t[1..])
      case None => None
      case Some(v) => Some(0 - v)
    else if t != [] && t[0] == '+' then LeadingNumber(t[1..])
    else LeadingNumber(t)
  }

  /**
   * `parseInt(s)` in base ten: leading white space, an optional sign, then the
   * longest run of digits; `None` stands for `NaN` (no digit there).
   */
  function ParseInt(s: string): Option<int> {
    SignedNumber(TrimStart(s))
  }

  /** `parseInt(x) || 0` for a value that may be missing: `NaN` and absence both give 0. */
  function ParseIntOrZero(x: Option<string>): int {
    match x
    case None => 0
    case Some(s) => ParseInt(s).GetOr(0)
  }

  lemma LeadingDigits(digits: string, rest: string)
    requires AllDigits(digits) && digits != []
    requires rest == [] || !IsDigit(rest[0])
    ensures LeadingNumber(digits + rest) == Some(ParseNat(digits))
  {
    var body := digits + rest;
    DigitSpanPrefix(digits, rest);
    assert body[..|digits|] == digits;
  }

  /** A string that starts with a digit or a sign has no leading white space to trim. */
  lemma TrimStartKeeps(t: string)
    requires t != [] && (IsDigit(t[0]) || t[0] == '-')
    ensures TrimStart(t) == t
  {
  }

  lemma ParseIntUnsigned(digits: string, rest: string)
    requires AllDigits(digits) && digits != []
    requires rest == [] || !IsDigit(rest[0])
    ensures ParseInt(digits + rest) == Some(ParseNat(digits))
  {
    var t := digits + rest;
    assert t[0] == digits[0];
    TrimStartKeeps(t);
    LeadingDigits(digits, rest);
  }

  lemma ParseIntNegative(digits: string, rest: string)
    requires AllDigits(digits) && digits != []
    requires rest == [] || !IsDigit(rest[0])
    ensures ParseInt("-" + (digits + rest)) == Some(0 - ParseNat(digits))
  {
    var body := digits + rest;
    var t := "-" + body;
    assert t[0] == '-' && t[1..] == body;
    TrimStartKeeps(t);
    LeadingDigits(digits, rest);
  }

  lemma ParseIntNumeral(numeral: string, digits: string, n: int, rest: string)
    requires digits == NatDecimal(if n < 0 then -n else n)
    requires numeral == if n < 0 then "-" + digits else digits
    requires rest == [] || !IsDigit(rest[0])
    ensures ParseInt(numeral + rest) == Some(n)
  {
    var m: nat := if n < 0 then -n else n;
    ParseNatDecimal(m);
    if n < 0 {
      assert numeral + rest == "-" + (digits + rest);
      ParseIntNegative(digits, rest);
    } else {
      ParseIntUnsigned(digits, rest);
    }
  }

  /** `parseInt` reads back the numeral of an integer, whatever non-digit follows it. */
  lemma ParseIntDecimal(n: int, rest: string)
    requires rest == [] || !IsDigit(rest[0])
    ensures ParseInt(Decimal(n) + rest) == Some(n)
  {
    ParseIntNumeral(Decimal(n), NatDecimal(if n < 0 then -n else n), n, rest);
  }

  lemma ParseIntExampleNaN()
    ensures ParseInt("abc") == None
  {
  }
}
