/** Calendar dates as the routine builder reads them, and the "M - D - YYYY"
    text both screens show for a start date. */
module DateFormat {
  import opened Routine

  /** The three numbers a formatted date shows, in display order. */
  datatype Shown = Shown(month: int, day: int, year: int)

  const Separator: string := " - "

  predicate IsDigit(c: char) {
    '0' <= c <= '9'
  }

  function DigitChar(d: nat): (c: char)
    requires d < 10
    ensures IsDigit(c) && c as int - '0' as int == d
  {
    "0123456789"[d]
  }

  function DigitValue(c: char): (d: nat)
    requires IsDigit(c)
    ensures d < 10 && DigitChar(d) == c
  {
    c as int - '0' as int
  }

  /** Decimal digits of a natural number, most significant first, without
      leading zeros. */
  function NatToDecimal(n: nat): (s: string)
    ensures |s| >= 1
    ensures forall i :: 0 <= i < |s| ==> IsDigit(s[i])
    decreases n
  {
    if n < 10 then [DigitChar(n)] else NatToDecimal(n / 10) + [DigitChar(n % 10)]
  }

  /** How a template literal renders an integer: a minus sign for negatives,
      then the decimal digits. */
  function IntToDecimal(n: int): string {
    if n < 0 then "-" + NatToDecimal(-n) else NatToDecimal(n)
  }

  /** The start-date label: month (one-based), day of the month and full
      year, separated by " - ". */
  function FormatDate(date: Date): (text: string)
    ensures |text| == |IntToDecimal(date.month0 + 1)| + |IntToDecimal(date.day)| + |IntToDecimal(date.year)| + 2 * |Separator|
    ensures IntToDecimal(date.month0 + 1) + Separator <= text
    ensures Separator + IntToDecimal(date.year) == text[|text| - |IntToDecimal(date.year)| - |Separator|..]
  {
    IntToDecimal(date.month0 + 1) + Separator + IntToDecimal(date.day) + Separator + IntToDecimal(date.year)
  }

  // ---------------------------------------------------------------------------
  // An independent reader for the label, used to show that the label loses
  // nothing: it determines month, day and year.

  /** Length of the run of digits at the start of s. */
  function DigitRun(s: string): (k: nat)
    ensures k <= |s|
    ensures forall i :: 0 <= i < k ==> IsDigit(s[i])
    ensures k < |s| ==> !IsDigit(s[k])
  {
    if s != [] && IsDigit(s[0]) then 1 + DigitRun(s[1..]) else 0
  }

  /** Value of a string of decimal digits. */
  function DecimalValue(s: string): nat
    requires forall i :: 0 <= i < |s| ==> IsDigit(s[i])
  {
    if s == [] then 0 else DecimalValue(s[..|s| - 1]) * 10 + DigitValue(s[|s| - 1])
  }

  /** Reads an optional minus sign followed by a non-empty run of digits;
      returns the value and what follows. */
  function ParseInt(s: string): Option<(int, string)> {
    var negative := s != [] && s[0] == '-';
    var digits := if negative then s[1..] else s;
    var k := DigitRun(digits);
    if k == 0 then None
    else
      var v: int := DecimalValue(digits[..k]);
      Some((if negative then -v else v, digits[k..]))
  }

  /** Reads s as Separator followed by the rest. */
  function ParseSeparator(s: string): Option<string> {
    if |s| >= |Separator| && s[..|Separator|] == Separator then Some(s[|Separator|..]) else None
  }

  /** Reads a whole label "M - D - Y". */
  function ParseDate(s: string): Option<Shown> {
    match ParseInt(s)
    case None => None
    case Some((m, rest)) => ParseDayAndYear(m, rest)
  }

  /** Reads " - D - Y" after the month. */
  function ParseDayAndYear(m: int, s: string): Option<Shown> {
    match ParseSeparator(s)
    case None => None
    case Some(r) =>
      match ParseInt(r)
      case None => None
      case Some((d, rest)) => ParseYear(m, d, rest)
  }

  /** Reads " - Y" after the day, and nothing more. */
  function ParseYear(m: int, d: int, s: string): Option<Shown> {
    match ParseSeparator(s)
    case None => None
    case Some(r) =>
      match ParseInt(r)
      case None => None
      case Some((y, rest)) => if rest == [] then Some(Shown(m, d, y)) else None
  }

  lemma {:induction false} DecimalValueOfNat(n: nat)
    ensures DecimalValue(NatToDecimal(n)) == n
    decreases n
  {
    var s := NatToDecimal(n);
    if n >= 10 {
      assert s[..|s| - 1] == NatToDecimal(n / 10);
      DecimalValueOfNat(n / 10);
    }
  }

  lemma {:induction false} DigitRunAppend(a: string, rest: string)
    requires forall i :: 0 <= i < |a| ==> IsDigit(a[i])
    requires rest == [] || !IsDigit(rest[0])
    ensures DigitRun(a + rest) == |a|
  {
    if a != [] {
      assert (a + rest)[1..] == a[1..] + rest;
      DigitRunAppend(a[1..], rest);
    } else {
      assert a + rest == rest;
    }
  }

  /** The digits of k, then a non-digit or nothing: the digit run is
      exactly the digits of k, and its value is k. */
  lemma {:induction false} DigitsAppend(k: nat, rest: string)
    requires rest == [] || !IsDigit(rest[0])
    ensures DigitRun(NatToDecimal(k) + rest) == |NatToDecimal(k)|
    ensures (NatToDecimal(k) + rest)[..|NatToDecimal(k)|] == NatToDecimal(k)
    ensures (NatToDecimal(k) + rest)[|NatToDecimal(k)|..] == rest
    ensures DecimalValue(NatToDecimal(k)) == k
  {
    DigitRunAppend(NatToDecimal(k), rest);
    DecimalValueOfNat(k);
  }

  lemma {:induction false} ParseNegative(k: nat, rest: string)
    requires k > 0
    requires rest == [] || !IsDigit(rest[0])
    ensures ParseInt("-" + (NatToDecimal(k) + rest)) == Some((-(k as int), rest))
  {
    var a := NatToDecimal(k);
    var s := "-" + (a + rest);
    var digits := s[1..];
    assert s[0] == '-';
    assert digits == a + rest;
    DigitsAppend(k, rest);
    assert DigitRun(digits) == |a|;
    assert DecimalValue(digits[..|a|]) == k;
    assert digits[|a|..] == rest;
  }

  lemma {:induction false} ParseNonNegative(k: nat, rest: string)
    requires rest == [] || !IsDigit(rest[0])
    ensures ParseInt(NatToDecimal(k) + rest) == Some((k as int, rest))
  {
    var a := NatToDecimal(k);
    var s := a + rest;
    assert IsDigit(s[0]);
    DigitsAppend(k, rest);
    assert DigitRun(s) == |a|;
    assert DecimalValue(s[..|a|]) == k;
    assert s[|a|..] == rest;
  }

  /** Reading back a rendered integer followed by a non-digit gives the
      integer and the text after it. */
  lemma {:induction false} ParseIntAppend(n: int, rest: string)
    requires rest == [] || !IsDigit(rest[0])
    ensures ParseInt(IntToDecimal(n) + rest) == Some((n, rest))
  {
    if n < 0 {
      var k: nat := -n;
      assert IntToDecimal(n) == "-" + NatToDecimal(k);
      assert IntToDecimal(n) + rest == "-" + (NatToDecimal(k) + rest);
      ParseNegative(k, rest);
    } else {
      ParseNonNegative(n, rest);
    }
  }

  lemma {:induction false} ParseSeparatorAppend(rest: string)
    ensures ParseSeparator(Separator + rest) == Some(rest)
  {
    assert (Separator + rest)[..|Separator|] == Separator;
    assert (Separator + rest)[|Separator|..] == rest;
  }

  lemma {:induction false} ParseYearAppend(m: int, d: int, y: int)
    ensures ParseYear(m, d, Separator + IntToDecimal(y)) == Some(Shown(m, d, y))
  {
    ParseSeparatorAppend(IntToDecimal(y));
    ParseIntAppend(y, []);
    assert IntToDecimal(y) + [] == IntToDecimal(y);
  }

  lemma {:induction false} ParseDayAndYearAppend(m: int, d: int, y: int)
    ensures ParseDayAndYear(m, Separator + (IntToDecimal(d) + (Separator + IntToDecimal(y)))) == Some(Shown(m, d, y))
  {
    var tail := Separator + IntToDecimal(y);
    ParseSeparatorAppend(IntToDecimal(d) + tail);
    ParseIntAppend(d, tail);
    ParseYearAppend(m, d, y);
  }

  /** The label determines the date it shows: reading it back yields the
      one-based month, the day and the year. */
  lemma {:induction false} FormatDateRoundTrip(date: Date)
    ensures ParseDate(FormatDate(date)) == Some(Shown(date.month0 + 1, date.day, date.year))
  {
    var m, d, y := date.month0 + 1, date.day, date.year;
    var tail := Separator + (IntToDecimal(d) + (Separator + IntToDecimal(y)));
    assert FormatDate(date) == IntToDecimal(m) + tail;
    ParseIntAppend(m, tail);
    ParseDayAndYearAppend(m, d, y);
  }

  /** Two dates get the same label exactly when they agree on month, day and
      year; the time of day does not show. */
  lemma {:induction false} FormatDateInjective(a: Date, b: Date)
    ensures FormatDate(a) == FormatDate(b) <==> (a.month0 == b.month0 && a.day == b.day && a.year == b.year)
  {
    FormatDateRoundTrip(a);
    FormatDateRoundTrip(b);
  }
}
