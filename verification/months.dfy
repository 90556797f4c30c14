/** Calendar months as the source sees them: `strftime("%Y-%m")` of a parsed timestamp,
    and Python's `int(...)` applied to the `month` query argument. */
module Months {
  import opened Wrappers

  datatype YearMonth = YearMonth(year: int, month: int)

  /** What `datetime.strptime` can produce: a four-digit `%Y` year from 1 and a month 1..12. */
  type ValidYearMonth = ym: YearMonth | 1 <= ym.year <= 9999 && 1 <= ym.month <= 12 witness YearMonth(1, 1)

  function Pow10(w: nat): nat
  {
    if w == 0 then 1 else 10 * Pow10(w - 1)
  }

  predicate IsDigit(c: char)
  {
    '0' <= c <= '9'
  }

  predicate AllDigits(s: string)
  {
    forall i :: 0 <= i < |s| ==> IsDigit(s[i])
  }

  function DigitChar(d: nat): (c: char)
    requires d < 10
    ensures IsDigit(c) && c as int - '0' as int == d
  {
    ('0' as int + d) as char
  }

  /** The last `width` decimal digits of `n`, zero-padded (`%Y` has width 4, `%m` width 2). */
  function Fixed(n: nat, width: nat): (s: string)
    ensures |s| == width && AllDigits(s)
  {
    if width == 0 then [] else Fixed(n / 10, width - 1) + [DigitChar(n % 10)]
  }

  /** The number a string of decimal digits denotes. */
  function DigitsValue(s: string): nat
    requires AllDigits(s)
  {
    if s == [] then 0 else DigitsValue(s[..|s| - 1]) * 10 + (s[|s| - 1] as int - '0' as int)
  }

  /** Reading back a zero-padded number gives the number. */
  lemma {:induction false} FixedRoundTrip(n: nat, width: nat)
    requires n < Pow10(width)
    ensures DigitsValue(Fixed(n, width)) == n
  {
    if width > 0 {
      assert n / 10 < Pow10(width - 1);
      FixedRoundTrip(n / 10, width - 1);
      var s := Fixed(n, width);
      assert s[..|s| - 1] == Fixed(n / 10, width - 1);
    }
  }

  /** `strftime("%Y-%m")`. */
  function FormatYearMonth(ym: ValidYearMonth): (s: string)
    ensures |s| == 7 && s[4] == '-'
    ensures AllDigits(s[..4]) && AllDigits(s[5..])
  {
    Fixed(ym.year, 4) + "-" + Fixed(ym.month, 2)
  }

  /** Two timestamps fall in the same `"YYYY-MM"` string iff they have the same year and month,
      so the service's string comparison is a comparison of (year, month) pairs. */
  lemma FormatYearMonthInjective(a: ValidYearMonth, b: ValidYearMonth)
    ensures FormatYearMonth(a) == FormatYearMonth(b) <==> a == b
  {
    if FormatYearMonth(a) == FormatYearMonth(b) {
      var sa, sb := FormatYearMonth(a), FormatYearMonth(b);
      assert sa[..4] == Fixed(a.year, 4) && sb[..4] == Fixed(b.year, 4);
      assert sa[5..] == Fixed(a.month, 2) && sb[5..] == Fixed(b.month, 2);
      FixedRoundTrip(a.year, 4);
      FixedRoundTrip(b.year, 4);
      FixedRoundTrip(a.month, 2);
      FixedRoundTrip(b.month, 2);
    }
  }

  /** Python's `int(s)` for ASCII decimal digits behind an optional sign; `None` stands for
      the `ValueError` it raises on anything else. */
  function ParseInt(s: string): (r: Option<int>)
    ensures r.Some? <==> |s| > 0 && (AllDigits(s) || ((s[0] == '+' || s[0] == '-') && |s| > 1 && AllDigits(s[1..])))
    ensures r.Some? ==> r.value == (if s[0] == '-' then -(DigitsValue(s[1..]) as int)
                                    else if s[0] == '+' then DigitsValue(s[1..])
                                    else DigitsValue(s))
    ensures r.Some? ==> |s| > 0 && forall i :: 0 < i < |s| ==> IsDigit(s[i])
    ensures r.Some? && s[0] != '-' ==> r.value >= 0
    ensures r.Some? && s[0] == '-' ==> r.value <= 0
  {
    if |s| > 0 && (s[0] == '+' || s[0] == '-') then
      if |s| > 1 && AllDigits(s[1..]) then
        var magnitude: int := DigitsValue(s[1..]);
        Some(if s[0] == '-' then -magnitude else magnitude)
      else None
    else if |s| > 0 && AllDigits(s) then Some(DigitsValue(s))
    else None
  }

  /** `int` reads a zero-padded month back: `int("03") == 3`. */
  lemma ParseIntFixed(n: nat, width: nat)
    requires 0 < width && n < Pow10(width)
    ensures ParseInt(Fixed(n, width)) == Some(n)
  {
    FixedRoundTrip(n, width);
  }

  /** `int` refuses the `"YYYY-MM"` form: the separator is not a digit. */
  lemma ParseIntRejectsYearMonth(ym: ValidYearMonth)
    ensures ParseInt(FormatYearMonth(ym)) == None
  {
    var s := FormatYearMonth(ym);
    assert IsDigit(s[..4][0]);
    assert !IsDigit(s[4]);
  }

  /** `strftime("%Y-%m")` of March 2024. */
  lemma FormatMarch2024()
    ensures FormatYearMonth(YearMonth(2024, 3)) == "2024-03"
  {
    assert Fixed(2024, 4) == "2024";
    assert Fixed(3, 2) == "03";
  }
}
