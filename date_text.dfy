/**
 * The date texts both scripts produce and read back: `strftime('%d/%m/%Y')`,
 * `strftime('%d/%m')`, `strptime(text, '%d/%m/%Y')`, and the zero-padded and
 * plain decimal fields of f-strings (`{n:02d}`, `{year}`).
 */
module DateText {
  import opened Calendar

  datatype Option<T> = None | Some(value: T)

  predicate IsDigit(c: char) {
    '0' <= c <= '9'
  }

  predicate AllDigits(s: string) {
    forall i :: 0 <= i < |s| ==> IsDigit(s[i])
  }

  function DigitValue(c: char): int
    requires IsDigit(c)
  {
    c as int - '0' as int
  }

  function DigitChar(n: int): (c: char)
    requires 0 <= n <= 9
    ensures IsDigit(c) && DigitValue(c) == n
  {
    ('0' as int + n) as char
  }

  /** The value of a run of decimal digits. */
  function ReadDigits(s: string): int
    requires AllDigits(s)
  {
    if s == [] then 0 else 10 * ReadDigits(s[..|s| - 1]) + DigitValue(s[|s| - 1])
  }

  /** The value of a two-digit field. */
  function Value2(s: string): int
    requires |s| == 2 && AllDigits(s)
  {
    10 * DigitValue(s[0]) + DigitValue(s[1])
  }

  /** The value of a four-digit field. */
  function Value4(s: string): int
    requires |s| == 4 && AllDigits(s)
  {
    1000 * DigitValue(s[0]) + 100 * DigitValue(s[1]) + 10 * DigitValue(s[2]) + DigitValue(s[3])
  }

  /** A zero-padded two-digit field: `%d`, `%m`, `{n:02d}`. */
  function Pad2(n: int): (s: string)
    requires 0 <= n < 100
    ensures |s| == 2 && AllDigits(s) && Value2(s) == n
  {
    [DigitChar(n / 10), DigitChar(n % 10)]
  }

  /** A zero-padded four-digit field: `%Y` for the years `datetime` can hold. */
  function Pad4(n: int): (s: string)
    requires 0 <= n < 10000
    ensures |s| == 4 && AllDigits(s) && Value4(s) == n
  {
    var high, low := n / 100, n % 100;
    assert n == 100 * high + low;
    Pad2(high) + Pad2(low)
  }

  /** Plain decimal text of a number: `{year}` in an f-string. */
  function Decimal(n: nat): (s: string)
    ensures |s| >= 1 && AllDigits(s) && ReadDigits(s) == n
    ensures |s| > 1 ==> s[0] != '0'
  {
    if n < 10 then [DigitChar(n)]
    else
      var s := Decimal(n / 10) + [DigitChar(n % 10)];
      assert s[..|s| - 1] == Decimal(n / 10);
      s
  }

  /** `strftime('%d/%m/%Y')`. */
  function FormatDate(d: Date): (s: string)
    requires InRange(d)
  {
    Pad2(d.day) + "/" + Pad2(d.month) + "/" + Pad4(d.year)
  }

  /** `strftime('%d/%m')`. */
  function FormatDayMonth(d: Date): (s: string)
    requires ValidDate(d)
  {
    Pad2(d.day) + "/" + Pad2(d.month)
  }

  /** The date written as `DD/MM/YYYY` in `s`, if `s` has that shape and names a real date. */
  function ParseDate(s: string): (r: Option<Date>)
    ensures r.Some? ==> InRange(r.value) && FormatDate(r.value) == s
  {
    if |s| == 10 && s[2] == '/' && s[5] == '/'
       && AllDigits(s[..2]) && AllDigits(s[3..5]) && AllDigits(s[6..])
    then
      var d := Date(Value4(s[6..]), Value2(s[3..5]), Value2(s[..2]));
      if ValidDate(d) then
        FixedFieldRoundTrip(s[..2]);
        FixedFieldRoundTrip(s[3..5]);
        FixedFieldRoundTrip(s[6..]);
        assert s == s[..2] + "/" + s[3..5] + "/" + s[6..];
        Some(d)
      else None
    else None
  }

  /** Reading a fixed-width field and padding the value back gives the field. */
  lemma FixedFieldRoundTrip(s: string)
    requires AllDigits(s) && (|s| == 2 || |s| == 4)
    ensures |s| == 2 ==> 0 <= Value2(s) < 100 && Pad2(Value2(s)) == s
    ensures |s| == 4 ==> 0 <= Value4(s) < 10000 && Pad4(Value4(s)) == s
  {
    if |s| == 2 {
      var a, b := DigitValue(s[0]), DigitValue(s[1]);
      assert (10 * a + b) / 10 == a && (10 * a + b) % 10 == b;
      assert DigitChar(a) == s[0] && DigitChar(b) == s[1];
    } else {
      FixedFieldRoundTrip(s[..2]);
      FixedFieldRoundTrip(s[2..]);
      var n := Value4(s);
      assert n == 100 * Value2(s[..2]) + Value2(s[2..]);
      assert n / 100 == Value2(s[..2]) && n % 100 == Value2(s[2..]);
      assert s == s[..2] + s[2..];
    }
  }

  /** Round trip of the week table: `strptime(strftime(d, '%d/%m/%Y'), '%d/%m/%Y')` is `d`. */
  lemma ParseFormatDate(d: Date)
    requires InRange(d)
    ensures ParseDate(FormatDate(d)) == Some(d)
  {
    var s := FormatDate(d);
    assert s[..2] == Pad2(d.day) && s[3..5] == Pad2(d.month) && s[6..] == Pad4(d.year);
  }
}
