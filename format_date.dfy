/** `formatarDataBr` (src/utils/formatDate.ts): a `YYYY-MM-DD` date shown
    the Brazilian way, `DD/MM/YYYY`. */
module FormatDate {
  import opened Types
  import opened JsBuiltins

  predicate IsLeapYear(y: int)
  {
    y % 4 == 0 && (y % 100 != 0 || y % 400 == 0)
  }

  function DaysInMonth(month: int, year: int): (n: int)
    requires 1 <= month <= 12
    ensures 28 <= n <= 31
  {
    if month == 2 then (if IsLeapYear(year) then 29 else 28)
    else if month in {4, 6, 9, 11} then 30
    else 31
  }

  /** A day of the Gregorian calendar with a four-digit year: for these
      `Date.UTC` needs no normalisation and the `pt-BR` year has four digits. */
  predicate CalendarDate(year: int, month: int, day: int)
  {
    1000 <= year <= 9999 && 1 <= month <= 12 && 1 <= day <= DaysInMonth(month, year)
  }

  /** Two digits, with a leading zero below ten. */
  function Pad2(n: nat): (s: string)
    requires n < 100
    ensures |s| == 2 && AllDigits(s) && DigitsValue(s) == n
  {
    var s := [DigitChar(n / 10), DigitChar(n % 10)];
    assert s[..1] == [DigitChar(n / 10)] && s[..1][..0] == [];
    assert DigitsValue(s[..1]) == n / 10;
    s
  }

  /** `toLocaleDateString('pt-BR', {day: '2-digit', month: '2-digit',
      year: 'numeric'})` of a calendar date. */
  function BrDate(year: int, month: int, day: int): (s: string)
    requires CalendarDate(year, month, day)
  {
    Pad2(day) + "/" + Pad2(month) + "/" + NatToString(year)
  }

  /** The ISO form `YYYY-MM-DD` of a calendar date. */
  function IsoDate(year: int, month: int, day: int): (s: string)
    requires CalendarDate(year, month, day)
  {
    NatToString(year) + "-" + Pad2(month) + "-" + Pad2(day)
  }

  /** `formatarDataBr(dateString)`. `None` is null or undefined. The three
      pieces are read with `parseInt`, the month lowered by one for
      `Date.UTC` and raised again by the formatter. A calendar date is
      formatted here; any other triple of numbers is left to `engine`, the
      JavaScript date machinery (`Date.UTC`'s normalisation of out-of-range
      fields and two-digit years, and the locale formatting), whose `None`
      is a time value of NaN. */
  function FormatarDataBr(input: Option<string>, engine: (int, int, int) -> Option<string>): (r: string)
    ensures input.None? || input == Some("") ==> r == ""
    ensures input.Some? && input.value != "" && |Split(input.value, '-')| != 3 ==> r == input.value
    ensures input.Some? && input.value != "" && |Split(input.value, '-')| == 3 ==>
      var parts := Split(input.value, '-');
      var (y, m, d) := (ParseInt(parts[0]), ParseInt(parts[1]), ParseInt(parts[2]));
      && (y.None? || m.None? || d.None? ==> r == input.value)
      && (y.Some? && m.Some? && d.Some? && CalendarDate(y.value, m.value, d.value) ==>
            r == BrDate(y.value, m.value, d.value))
      && (y.Some? && m.Some? && d.Some? && !CalendarDate(y.value, m.value, d.value) ==>
            r == match engine(y.value, m.value - 1, d.value) { case None => input.value case Some(s) => s })
  {
    match input
    case None => ""
    case Some(s) =>
      if s == "" then ""
      else
        var parts := Split(s, '-');
        if |parts| != 3 then s
        else
          var year := ParseInt(parts[0]);
          var month := ParseInt(parts[1]);
          var day := ParseInt(parts[2]);
          if year.None? || month.None? || day.None? then s
          else if CalendarDate(year.value, month.value, day.value) then
            BrDate(year.value, month.value, day.value)
          else
            match engine(year.value, month.value - 1, day.value)
            case None => s
            case Some(shown) => shown
  }

  /** Splitting three separator-free pieces joined by `sep` gives them back. */
  lemma SplitThree(a: string, b: string, c: string, sep: char)
    requires sep !in a && sep !in b && sep !in c
    ensures Split(a + [sep] + b + [sep] + c, sep) == [a, b, c]
  {
    assert a + [sep] + b + [sep] + c == a + [sep] + (b + [sep] + c);
    SplitConcat(a, b + [sep] + c, sep);
    SplitConcat(b, c, sep);
    SplitNoSeparator(c, sep);
  }

  /** A digit string contains no separator. */
  lemma DigitsHaveNo(s: string, sep: char)
    requires AllDigits(s) && !IsDigit(sep)
    ensures sep !in s
  {
    assert forall i :: 0 <= i < |s| ==> s[i] != sep;
  }

  /** The ISO form of a calendar date is shown as its Brazilian form,
      whatever the date engine would do with other inputs. */
  lemma {:induction false} IsoDateIsShownBrazilian(year: int, month: int, day: int,
                                                   engine: (int, int, int) -> Option<string>)
    requires CalendarDate(year, month, day)
    ensures FormatarDataBr(Some(IsoDate(year, month, day)), engine) == BrDate(year, month, day)
  {
    var (ys, ms, ds) := (NatToString(year), Pad2(month), Pad2(day));
    DigitsHaveNo(ys, '-');
    DigitsHaveNo(ms, '-');
    DigitsHaveNo(ds, '-');
    SplitThree(ys, ms, ds, '-');
    NatToStringRoundTrip(year);
    ParseIntDigits(ys);
    ParseIntDigits(ms);
    ParseIntDigits(ds);
  }

  /** The Brazilian form reads back, piece by piece, to the same day. */
  lemma {:induction false} BrDateReadsBack(year: int, month: int, day: int)
    requires CalendarDate(year, month, day)
    ensures var parts := Split(BrDate(year, month, day), '/');
      && |parts| == 3
      && ParseInt(parts[0]) == Some(day)
      && ParseInt(parts[1]) == Some(month)
      && ParseInt(parts[2]) == Some(year)
  {
    var (ys, ms, ds) := (NatToString(year), Pad2(month), Pad2(day));
    DigitsHaveNo(ys, '/');
    DigitsHaveNo(ms, '/');
    DigitsHaveNo(ds, '/');
    SplitThree(ds, ms, ys, '/');
    NatToStringRoundTrip(year);
    ParseIntDigits(ys);
    ParseIntDigits(ms);
    ParseIntDigits(ds);
  }

  /** Different calendar dates are shown differently. */
  lemma BrDateInjective(y1: int, m1: int, d1: int, y2: int, m2: int, d2: int)
    requires CalendarDate(y1, m1, d1) && CalendarDate(y2, m2, d2)
    requires BrDate(y1, m1, d1) == BrDate(y2, m2, d2)
    ensures y1 == y2 && m1 == m2 && d1 == d2
  {
    BrDateReadsBack(y1, m1, d1);
    BrDateReadsBack(y2, m2, d2);
  }
}
