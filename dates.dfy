/**
 * The chart's date column: each value `f` is read as
 * `datetime(int(f[:4]), int(f[4:6]), int(f[6:8]))`.  Python's slicing
 * clamps to the string, `int` accepts surrounding whitespace, a sign and
 * single underscores between digits, and `datetime` rejects a day the
 * month does not have; each failure is a ValueError, here `None`.
 */
module Dates {
  import opened Wrappers

  datatype Date = Date(year: int, month: int, day: int)

  predicate IsLeap(y: int)
  {
    y % 4 == 0 && (y % 100 != 0 || y % 400 == 0)
  }

  function DaysInMonth(y: int, m: int): (n: int)
    requires 1 <= m <= 12
    ensures 28 <= n <= 31
    ensures n == 29 <==> m == 2 && IsLeap(y)
  {
    if m == 2 then (if IsLeap(y) then 29 else 28)
    else if m == 4 || m == 6 || m == 9 || m == 11 then 30
    else 31
  }

  /** The dates `datetime.datetime` accepts (MINYEAR is 1, MAXYEAR is 9999). */
  predicate ValidDate(d: Date)
  {
    1 <= d.year <= 9999 && 1 <= d.month <= 12 && 1 <= d.day <= DaysInMonth(d.year, d.month)
  }

  // ---------------------------------------------------------------------
  // `int(text)` for the characters up to U+00FF.
  // ---------------------------------------------------------------------

  /** The characters `int` skips around a number. */
  predicate IsSpace(c: char)
  {
    c == ' ' || ('\t' <= c <= '\r') || ('\U{1C}' <= c <= '\U{1F}') || c == '\U{85}' || c == '\U{A0}'
  }

  predicate IsDigit(c: char)
  {
    '0' <= c <= '9'
  }

  predicate AllDigits(s: string)
  {
    forall i :: 0 <= i < |s| ==> IsDigit(s[i])
  }

  function StripLeft(s: string): (r: string)
    ensures |r| <= |s|
  {
    if s != [] && IsSpace(s[0]) then StripLeft(s[1..]) else s
  }

  function StripRight(s: string): (r: string)
    ensures |r| <= |s|
  {
    if s != [] && IsSpace(s[|s| - 1]) then StripRight(s[..|s| - 1]) else s
  }

  /**
   * A run of decimal digits in which an underscore may stand only between
   * two digits.
   */
  predicate DigitGroups(t: string)
  {
    |t| > 0 && IsDigit(t[0]) &&
    (|t| == 1 || DigitGroups(t[1..]) || (t[1] == '_' && DigitGroups(t[2..])))
  }

  /** The digits of a digit run, without its underscores. */
  function Digits(t: string): (r: string)
    ensures |r| <= |t|
  {
    if t == [] then [] else (if t[0] == '_' then [] else [t[0]]) + Digits(t[1..])
  }

  function DigitValue(c: char): nat
  {
    if IsDigit(c) then (c as int) - ('0' as int) else 0
  }

  /** The number a string of decimal digits denotes. */
  function DecimalValue(ds: string): nat
  {
    if ds == [] then 0 else DecimalValue(ds[..|ds| - 1]) * 10 + DigitValue(ds[|ds| - 1])
  }

  /** `int(s)`: None where Python raises ValueError. */
  function ParseInt(s: string): Option<int>
  {
    var t := StripRight(StripLeft(s));
    if |t| > 0 && (t[0] == '+' || t[0] == '-') then
      (if DigitGroups(t[1..]) then
         var magnitude: int := DecimalValue(Digits(t[1..]));
         Some(if t[0] == '-' then -magnitude else magnitude)
       else None)
    else if DigitGroups(t) then Some(DecimalValue(Digits(t)))
    else None
  }

  /** `s[a:b]` for `0 <= a <= b`: the bounds are clamped to the string. */
  function Slice(s: string, a: nat, b: nat): (r: string)
    requires a <= b
    ensures |r| == (if b <= |s| then b - a else if a <= |s| then |s| - a else 0)
  {
    var lo := if a <= |s| then a else |s|;
    var hi := if b <= |s| then b else |s|;
    s[lo..hi]
  }

  /** `datetime(year, month, day)` on the three parsed pieces. */
  function Assemble(year: Option<int>, month: Option<int>, day: Option<int>): (r: Option<Date>)
    ensures r.Some? <==> year.Some? && month.Some? && day.Some? && ValidDate(Date(year.value, month.value, day.value))
    ensures r.Some? ==> r.value == Date(year.value, month.value, day.value)
  {
    if year.Some? && month.Some? && day.Some? && ValidDate(Date(year.value, month.value, day.value))
    then Some(Date(year.value, month.value, day.value))
    else None
  }

  /** `datetime(int(f[:4]), int(f[4:6]), int(f[6:8]))`; None where it raises ValueError. */
  function ParseDate(f: string): (r: Option<Date>)
    ensures r.Some? ==> ValidDate(r.value)
  {
    Assemble(ParseInt(Slice(f, 0, 4)), ParseInt(Slice(f, 4, 6)), ParseInt(Slice(f, 6, 8)))
  }

  // ---------------------------------------------------------------------
  // The `YYYYMMDD` form and the round trips.
  // ---------------------------------------------------------------------

  function DigitChar(n: nat): char
    requires n < 10
  {
    ('0' as int + n) as char
  }

  /** The last `w` decimal digits of `n`, with leading zeros. */
  function Pad(n: nat, w: nat): (r: string)
    ensures |r| == w && AllDigits(r)
  {
    if w == 0 then [] else Pad(n / 10, w - 1) + [DigitChar(n % 10)]
  }

  function Pow10(w: nat): nat
  {
    if w == 0 then 1 else 10 * Pow10(w - 1)
  }

  function FormatDate(d: Date): string
    requires ValidDate(d)
  {
    Pad(d.year, 4) + Pad(d.month, 2) + Pad(d.day, 2)
  }

  lemma {:induction false} PadValue(n: nat, w: nat)
    requires n < Pow10(w)
    ensures DecimalValue(Pad(n, w)) == n
  {
    if w > 0 {
      var init := Pad(n / 10, w - 1);
      assert (init + [DigitChar(n % 10)])[..|init|] == init;
      PadValue(n / 10, w - 1);
    }
  }

  lemma {:induction false} ValuePad(ds: string)
    requires AllDigits(ds)
    ensures DecimalValue(ds) < Pow10(|ds|)
    ensures Pad(DecimalValue(ds), |ds|) == ds
  {
    if ds != [] {
      var init := ds[..|ds| - 1];
      assert AllDigits(init);
      ValuePad(init);
      var v := DecimalValue(ds);
      assert v / 10 == DecimalValue(init) && v % 10 == DigitValue(ds[|ds| - 1]);
      assert ds == init + [ds[|ds| - 1]];
    }
  }

  lemma {:induction false} DigitsOfDigits(ds: string)
    requires AllDigits(ds)
    ensures Digits(ds) == ds
  {
    if ds != [] {
      assert AllDigits(ds[1..]);
      DigitsOfDigits(ds[1..]);
      assert ds == [ds[0]] + ds[1..];
    }
  }

  lemma {:induction false} DigitsAreGroups(ds: string)
    requires |ds| > 0 && AllDigits(ds)
    ensures DigitGroups(ds)
  {
    if |ds| > 1 {
      assert AllDigits(ds[1..]);
      DigitsAreGroups(ds[1..]);
    }
  }

  /** A non-empty string of digits is its own number for `int`. */
  lemma ParseIntDigits(ds: string)
    requires |ds| > 0 && AllDigits(ds)
    ensures ParseInt(ds) == Some(DecimalValue(ds))
  {
    assert StripLeft(ds) == ds;
    assert StripRight(ds) == ds;
    DigitsAreGroups(ds);
    DigitsOfDigits(ds);
  }

  lemma SplitDate(y: string, m: string, d: string)
    requires |y| == 4 && |m| == 2 && |d| == 2
    ensures Slice(y + m + d, 0, 4) == y && Slice(y + m + d, 4, 6) == m && Slice(y + m + d, 6, 8) == d
  {
    var f := y + m + d;
    assert f[0..4] == y;
    assert f[4..6] == m;
    assert f[6..8] == d;
  }

  /** Every valid date survives formatting and parsing. */
  lemma DateRoundTrip(d: Date)
    requires ValidDate(d)
    ensures ParseDate(FormatDate(d)) == Some(d)
  {
    var y, m, dd := Pad(d.year, 4), Pad(d.month, 2), Pad(d.day, 2);
    SplitDate(y, m, dd);
    assert Pow10(2) == 100 && Pow10(4) == 10000;
    PadValue(d.year, 4);
    PadValue(d.month, 2);
    PadValue(d.day, 2);
    ParseIntDigits(y);
    ParseIntDigits(m);
    ParseIntDigits(dd);
  }

  /**
   * An eight-digit string parses exactly when its pieces form a valid
   * date, and the date then formats back to the same string.
   */
  lemma EightDigitDate(f: string)
    requires |f| == 8 && AllDigits(f)
    ensures ParseDate(f).Some? <==>
            ValidDate(Date(DecimalValue(f[..4]), DecimalValue(f[4..6]), DecimalValue(f[6..])))
    ensures ParseDate(f).Some? ==> FormatDate(ParseDate(f).value) == f
  {
    var y, m, d := f[..4], f[4..6], f[6..];
    assert f == y + m + d;
    SplitDate(y, m, d);
    assert AllDigits(y) && AllDigits(m) && AllDigits(d);
    ParseIntDigits(y);
    ParseIntDigits(m);
    ParseIntDigits(d);
    ValuePad(y);
    ValuePad(m);
    ValuePad(d);
  }

  /**
   * A value of six characters or fewer leaves the day slice empty, and
   * `int('')` raises, whatever the characters are.
   */
  lemma ShortDateRejected(f: string)
    requires |f| <= 6
    ensures ParseDate(f) == None
  {
    assert Slice(f, 6, 8) == [];
  }
}
