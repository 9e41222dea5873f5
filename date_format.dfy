/**
  The text `DateTimeFormatter.ofPattern("dd/MM/yyyy HH:mm:ss")` writes for a `LocalDateTime`,
  and a reader for that text that recovers the fields it shows.
*/
module DateFormat {
  import opened Common

  /** Left-pads a digit string with zeros to at least `width` characters. */
  function ZeroPad(s: string, width: nat): (r: string)
    ensures |r| >= width && |r| >= |s|
    ensures |s| >= width ==> r == s
    decreases width - |s|
  {
    if |s| >= width then s else ZeroPad("0" + s, width)
  }

  /** Pattern letters `dd`, `MM`, `HH`, `mm`, `ss`: the value in (at least) two digits. */
  function TwoDigits(n: nat): (r: string)
    ensures |r| >= 2
  {
    ZeroPad(NatToDecimal(n), 2)
  }

  /** The year-of-era `yyyy` prints: years before year 1 count back from 1 BCE. */
  function YearOfEra(year: int): nat {
    if year >= 1 then year else 1 - year
  }

  /**
    Pattern `yyyy`: at least four digits, zero padded; a value needing more than four digits
    is printed with a leading `+` (sign style EXCEEDS_PAD). The era itself is not printed.
  */
  function YearText(year: int): (r: string)
    ensures |r| >= 4
  {
    var digits := NatToDecimal(YearOfEra(year));
    if |digits| > 4 then "+" + digits else ZeroPad(digits, 4)
  }

  /** `fecha.format(DateTimeFormatter.ofPattern("dd/MM/yyyy HH:mm:ss"))`; nanoseconds are not shown. */
  function FormatDateTime(d: DateTime): (text: string)
    ensures |text| >= 19
  {
    TwoDigits(d.day) + "/" + TwoDigits(d.month) + "/" + YearText(d.year) + " "
    + TwoDigits(d.hour) + ":" + TwoDigits(d.minute) + ":" + TwoDigits(d.second)
  }

  /** The fields the statement's date text shows. */
  datatype StatementDate = StatementDate(day: nat, month: nat, year: nat, hour: nat, minute: nat, second: nat)

  /** Reads back a date written for a year from 1 to 9999 (the nineteen-character form). */
  function ParseStatementDate(s: string): Option<StatementDate> {
    if && |s| == 19
       && s[2] == '/' && s[5] == '/' && s[10] == ' ' && s[13] == ':' && s[16] == ':'
       && AllDigits(s[0..2]) && AllDigits(s[3..5]) && AllDigits(s[6..10])
       && AllDigits(s[11..13]) && AllDigits(s[14..16]) && AllDigits(s[17..19])
    then Some(StatementDate(DecimalValue(s[0..2]), DecimalValue(s[3..5]), DecimalValue(s[6..10]),
                            DecimalValue(s[11..13]), DecimalValue(s[14..16]), DecimalValue(s[17..19])))
    else None
  }

  function Pow10(w: nat): nat {
    if w == 0 then 1 else 10 * Pow10(w - 1)
  }

  lemma {:induction false} DecimalLength(n: nat, w: nat)
    requires 1 <= w && n < Pow10(w)
    ensures |NatToDecimal(n)| <= w
    decreases w
  {
    if n >= 10 {
      assert w >= 2;
      assert n / 10 < Pow10(w - 1);
      DecimalLength(n / 10, w - 1);
    }
  }

  lemma {:induction false} LeadingZero(s: string)
    requires AllDigits(s)
    ensures AllDigits("0" + s) && DecimalValue("0" + s) == DecimalValue(s)
    decreases |s|
  {
    if s != [] {
      LeadingZero(s[..|s| - 1]);
      assert ("0" + s)[..|s|] == "0" + s[..|s| - 1];
    }
  }

  /** Padding changes the text, never the number it denotes. */
  lemma {:induction false} ZeroPadValue(s: string, width: nat)
    requires AllDigits(s)
    ensures AllDigits(ZeroPad(s, width))
    ensures |ZeroPad(s, width)| == if |s| >= width then |s| else width
    ensures DecimalValue(ZeroPad(s, width)) == DecimalValue(s)
    decreases width - |s|
  {
    if |s| < width {
      LeadingZero(s);
      ZeroPadValue("0" + s, width);
    }
  }

  lemma TwoDigitsValue(n: nat)
    requires n < 100
    ensures |TwoDigits(n)| == 2 && AllDigits(TwoDigits(n)) && DecimalValue(TwoDigits(n)) == n
  {
    DecimalLength(n, 2);
    DecimalRoundTrip(n);
    ZeroPadValue(NatToDecimal(n), 2);
  }

  lemma YearTextValue(year: int)
    requires 1 <= year <= 9999
    ensures |YearText(year)| == 4 && AllDigits(YearText(year)) && DecimalValue(YearText(year)) == year
  {
    assert Pow10(4) == 10000;
    DecimalLength(year, 4);
    DecimalRoundTrip(year);
    ZeroPadValue(NatToDecimal(year), 4);
  }

  /**
    For a valid date in years 1 to 9999 the text has the nineteen-character layout
    `dd/MM/yyyy HH:mm:ss` and shows exactly the date's day, month, year, hour, minute and second.
  */
  lemma FormatRoundTrip(d: DateTime)
    requires ValidDateTime(d) && 1 <= d.year <= 9999
    ensures |FormatDateTime(d)| == 19
    ensures ParseStatementDate(FormatDateTime(d))
            == Some(StatementDate(d.day, d.month, d.year, d.hour, d.minute, d.second))
  {
    TwoDigitsValue(d.day);
    TwoDigitsValue(d.month);
    YearTextValue(d.year);
    TwoDigitsValue(d.hour);
    TwoDigitsValue(d.minute);
    TwoDigitsValue(d.second);
    Layout(TwoDigits(d.day), TwoDigits(d.month), YearText(d.year),
           TwoDigits(d.hour), TwoDigits(d.minute), TwoDigits(d.second));
  }

  /** Where each field and separator of the nineteen-character form sits. */
  lemma Layout(dd: string, mo: string, yyyy: string, hh: string, mi: string, ss: string)
    requires |dd| == 2 && |mo| == 2 && |yyyy| == 4 && |hh| == 2 && |mi| == 2 && |ss| == 2
    ensures var s := dd + "/" + mo + "/" + yyyy + " " + hh + ":" + mi + ":" + ss;
            && |s| == 19 && s[2] == '/' && s[5] == '/' && s[10] == ' ' && s[13] == ':' && s[16] == ':'
            && s[0..2] == dd && s[3..5] == mo && s[6..10] == yyyy
            && s[11..13] == hh && s[14..16] == mi && s[17..19] == ss
  {
    var s := dd + "/" + mo + "/" + yyyy + " " + hh + ":" + mi + ":" + ss;
    assert s[0..2] == dd;
    assert s[3..5] == mo;
    assert s[6..10] == yyyy;
    assert s[11..13] == hh;
    assert s[14..16] == mi;
    assert s[17..19] == ss;
  }

  /** A year of five or more digits is printed with a plus sign, as EXCEEDS_PAD does. */
  lemma LongYearHasSign(year: int)
    requires year >= 10000
    ensures YearText(year) == "+" + NatToDecimal(year)
  {
    assert Pow10(4) == 10000;
    if |NatToDecimal(year)| <= 4 {
      ShortDecimalIsSmall(year, 4);
    }
  }

  lemma {:induction false} ShortDecimalIsSmall(n: nat, w: nat)
    requires |NatToDecimal(n)| <= w
    ensures n < Pow10(w)
    decreases w
  {
    if n >= 10 {
      ShortDecimalIsSmall(n / 10, w - 1);
    } else if w > 1 {
      ShortDecimalIsSmall(n, w - 1);
    }
  }
}
