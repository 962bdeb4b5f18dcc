/**
 The ledger's date keys: the `YYYY-MM-DD` string built from a calendar day
 (the app's `getTodayString`), and a parser for that format that serves as its
 inverse. Every record carries such a string, and the date scope compares these
 strings for equality, so the rendering must tell distinct days apart.
 */
module Dates {
  import opened Text

  /** A calendar day with a 1-based month. */
  datatype CalendarDay = CalendarDay(year: int, month: int, day: int)

  /** A number left-padded with zeros to at least two characters. */
  function TwoDigits(n: nat): string {
    PadStart(NatToDecimal(n), 2, '0')
  }

  /** Numbers below 100 render as exactly two digits that read back as the number. */
  lemma TwoDigitsRoundTrip(n: nat)
    requires n < 100
    ensures |TwoDigits(n)| == 2 && AllDigits(TwoDigits(n))
    ensures DecimalValue(TwoDigits(n)) == n
  {
    var s := NatToDecimal(n);
    NatDecimalRoundTrip(n);
    if n < 10 {
      assert TwoDigits(n) == "0" + s;
      LeadingZero(s);
    } else {
      assert |NatToDecimal(n / 10)| == 1;
    }
  }

  /**
   The string of a day as the app writes it: the year in decimal, then the
   1-based month and the day of the month, each zero-padded to two digits,
   joined by hyphens. `monthIndex` is 0-based, as a JavaScript `Date` reports it.
   */
  function TodayString(year: int, monthIndex: int, day: int): (r: string)
    requires 0 <= monthIndex <= 11
    requires 1 <= day <= 31
    ensures |r| == |IntToDecimal(year)| + 6
    ensures r[..|r| - 6] == IntToDecimal(year)
    ensures r[|r| - 6] == '-' && r[|r| - 3] == '-'
    ensures ParseDate(r) == Some(CalendarDay(year, monthIndex + 1, day))
  {
    TwoDigitsRoundTrip(monthIndex + 1);
    TwoDigitsRoundTrip(day);
    IntDecimalRoundTrip(year);
    ParseJoined(IntToDecimal(year), TwoDigits(monthIndex + 1), TwoDigits(day));
    Join(IntToDecimal(year), TwoDigits(monthIndex + 1), TwoDigits(day))
  }

  function Join(ys: string, mm: string, dd: string): string {
    ys + "-" + mm + "-" + dd
  }

  /** Joining a year and two two-digit fields with hyphens parses back into those parts. */
  lemma ParseJoined(ys: string, mm: string, dd: string)
    requires ParseInt(ys).Some?
    requires |mm| == 2 && AllDigits(mm)
    requires |dd| == 2 && AllDigits(dd)
    ensures |Join(ys, mm, dd)| == |ys| + 6
    ensures Join(ys, mm, dd)[..|ys|] == ys
    ensures ParseDate(Join(ys, mm, dd))
         == Some(CalendarDay(ParseInt(ys).value, DecimalValue(mm), DecimalValue(dd)))
  {
    var r := Join(ys, mm, dd);
    assert r[..|r| - 6] == ys;
    assert r[|r| - 5..|r| - 3] == mm;
    assert r[|r| - 2..] == dd;
    assert r[|r| - 6] == '-' && r[|r| - 3] == '-';
  }

  /** Reads `<year>-<MM>-<DD>`, the year optionally signed; `None` for anything else. */
  function ParseDate(s: string): (r: Option<CalendarDay>)
    ensures r.Some? ==> |s| >= 7 && s[|s| - 6] == '-' && s[|s| - 3] == '-'
    ensures r.Some? ==> 0 <= r.value.month < 100 && 0 <= r.value.day < 100
  {
    if |s| < 7 || s[|s| - 6] != '-' || s[|s| - 3] != '-' then None
    else
      var mm := s[|s| - 5..|s| - 3];
      var dd := s[|s| - 2..];
      match ParseInt(s[..|s| - 6])
      case None => None
      case Some(y) =>
        if AllDigits(mm) && AllDigits(dd) then
          TwoDigitValueBound(mm);
          TwoDigitValueBound(dd);
          Some(CalendarDay(y, DecimalValue(mm), DecimalValue(dd)))
        else None
  }

  /** Two digits never read as more than 99. */
  lemma TwoDigitValueBound(s: string)
    requires |s| == 2 && AllDigits(s)
    ensures DecimalValue(s) < 100
  {
    var head := s[..1];
    assert s[..|s| - 1] == head;
    assert head[..0] == [];
    assert DecimalValue(head) == DigitValue(s[0]);
    assert DecimalValue(s) == DigitValue(s[0]) * 10 + DigitValue(s[1]);
  }

  /** Distinct days never share a date string, so a date scope selects exactly one day. */
  lemma TodayStringInjective(y1: int, m1: int, d1: int, y2: int, m2: int, d2: int)
    requires 0 <= m1 <= 11 && 1 <= d1 <= 31
    requires 0 <= m2 <= 11 && 1 <= d2 <= 31
    ensures TodayString(y1, m1, d1) == TodayString(y2, m2, d2) <==> y1 == y2 && m1 == m2 && d1 == d2
  {
  }

  /** The years 1000 to 9999 render as exactly four digits. */
  lemma FourDigitYear(year: nat)
    requires 1000 <= year <= 9999
    ensures |NatToDecimal(year)| == 4
  {
    var a := year / 10;
    var b := a / 10;
    var c := b / 10;
    assert 100 <= a <= 999 && 10 <= b <= 99 && 1 <= c <= 9;
    assert |NatToDecimal(c)| == 1;
    assert |NatToDecimal(b)| == 2;
    assert |NatToDecimal(a)| == 3;
  }

  /** A four-digit year and two two-digit fields join into `YYYY-MM-DD`. */
  lemma JoinShape(ys: string, mm: string, dd: string)
    requires |ys| == 4 && AllDigits(ys)
    requires |mm| == 2 && AllDigits(mm)
    requires |dd| == 2 && AllDigits(dd)
    ensures |Join(ys, mm, dd)| == 10
    ensures Join(ys, mm, dd)[4] == '-' && Join(ys, mm, dd)[7] == '-'
    ensures forall i :: 0 <= i < 10 && i != 4 && i != 7 ==> IsDigit(Join(ys, mm, dd)[i])
  {
    var r := Join(ys, mm, dd);
    assert forall i :: 0 <= i < 4 ==> r[i] == ys[i];
    assert r[5] == mm[0] && r[6] == mm[1] && r[8] == dd[0] && r[9] == dd[1];
  }

  /** Years of four digits give the ten-character `YYYY-MM-DD` form of an HTML date input. */
  lemma FourDigitYearShape(year: int, monthIndex: int, day: int)
    requires 1000 <= year <= 9999
    requires 0 <= monthIndex <= 11
    requires 1 <= day <= 31
    ensures |TodayString(year, monthIndex, day)| == 10
    ensures TodayString(year, monthIndex, day)[4] == '-' && TodayString(year, monthIndex, day)[7] == '-'
    ensures forall i :: 0 <= i < 10 && i != 4 && i != 7 ==> IsDigit(TodayString(year, monthIndex, day)[i])
  {
    FourDigitYear(year);
    TwoDigitsRoundTrip(monthIndex + 1);
    TwoDigitsRoundTrip(day);
    JoinShape(NatToDecimal(year), TwoDigits(monthIndex + 1), TwoDigits(day));
  }
}
