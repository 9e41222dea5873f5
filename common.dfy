/**
  Vocabulary shared by the account service and the customer service: optional values (Java's
  nullable references), results (a value or the exception a reactive pipeline fails with),
  `java.time.LocalDateTime` and its ordering, decimal text of numbers, and
  `String.equalsIgnoreCase`.
*/
module Common {

  /** A nullable field or an empty `Mono`. */
  datatype Option<+T> = None | Some(value: T) {
    function GetOr(default: T): (r: T)
      ensures Some? ==> r == value
      ensures None? ==> r == default
    {
      if Some? then value else default
    }
  }

  /** A `Mono` that either emits a value or fails with an error. */
  datatype Result<+T, +E> = Success(value: T) | Failure(error: E)

  // ---------------------------------------------------------------------------------------------
  // LocalDateTime
  // ---------------------------------------------------------------------------------------------

  /** `java.time.LocalDateTime`: an ISO date and a time of day down to the nanosecond. */
  datatype DateTime = DateTime(year: int, month: nat, day: nat, hour: nat, minute: nat, second: nat, nano: nat)

  predicate IsLeapYear(year: int) {
    year % 4 == 0 && (year % 100 != 0 || year % 400 == 0)
  }

  function DaysInMonth(year: int, month: nat): nat {
    if month == 2 then (if IsLeapYear(year) then 29 else 28)
    else if month == 4 || month == 6 || month == 9 || month == 11 then 30
    else 31
  }

  /** The range of values `LocalDateTime` accepts. */
  predicate ValidDateTime(d: DateTime) {
    && -999999999 <= d.year <= 999999999
    && 1 <= d.month <= 12
    && 1 <= d.day <= DaysInMonth(d.year, d.month)
    && d.hour < 24 && d.minute < 60 && d.second < 60 && d.nano < 1000000000
  }

  /** `!a.isAfter(b)`: the chronological order `LocalDateTime.compareTo` defines. */
  predicate NotAfter(a: DateTime, b: DateTime) {
    if a.year != b.year then a.year < b.year
    else if a.month != b.month then a.month < b.month
    else if a.day != b.day then a.day < b.day
    else if a.hour != b.hour then a.hour < b.hour
    else if a.minute != b.minute then a.minute < b.minute
    else if a.second != b.second then a.second < b.second
    else a.nano <= b.nano
  }

  lemma NotAfterReflexive(a: DateTime)
    ensures NotAfter(a, a)
  {
  }

  lemma NotAfterTotal(a: DateTime, b: DateTime)
    ensures NotAfter(a, b) || NotAfter(b, a)
  {
  }

  lemma NotAfterTransitive(a: DateTime, b: DateTime, c: DateTime)
    requires NotAfter(a, b) && NotAfter(b, c)
    ensures NotAfter(a, c)
  {
  }

  // ---------------------------------------------------------------------------------------------
  // Decimal text
  // ---------------------------------------------------------------------------------------------

  predicate IsDigit(c: char) {
    '0' <= c <= '9'
  }

  predicate AllDigits(s: string) {
    forall i :: 0 <= i < |s| ==> IsDigit(s[i])
  }

  function DigitChar(d: nat): (c: char)
    requires d < 10
    ensures IsDigit(c)
  {
    (d + '0' as int) as char
  }

  function DigitValue(c: char): (d: nat)
    requires IsDigit(c)
    ensures d < 10 && DigitChar(d) == c
  {
    c as int - '0' as int
  }

  /** Decimal digits of `n` without leading zeros, as `Long.toString` writes a non-negative value. */
  function NatToDecimal(n: nat): (s: string)
    ensures |s| >= 1 && AllDigits(s)
    ensures n < 10 <==> |s| == 1
    decreases n
  {
    if n < 10 then [DigitChar(n)] else NatToDecimal(n / 10) + [DigitChar(n % 10)]
  }

  /** The number a string of decimal digits denotes. */
  function DecimalValue(s: string): nat
    requires AllDigits(s)
  {
    if s == [] then 0 else DecimalValue(s[..|s| - 1]) * 10 + DigitValue(s[|s| - 1])
  }

  lemma {:induction false} DecimalRoundTrip(n: nat)
    ensures DecimalValue(NatToDecimal(n)) == n
    decreases n
  {
    var s := NatToDecimal(n);
    if n >= 10 {
      DecimalRoundTrip(n / 10);
      assert s[..|s| - 1] == NatToDecimal(n / 10);
    }
  }

  /** `Long.toString(i)`, as string concatenation writes an identifier into a message. */
  function IntToDecimal(i: int): (s: string)
    ensures |s| >= 1
    ensures (s[0] == '-') <==> i < 0
    ensures i >= 0 ==> AllDigits(s) && DecimalValue(s) == i
    ensures i < 0 ==> AllDigits(s[1..]) && DecimalValue(s[1..]) == -i
  {
    if i < 0 then
      DecimalRoundTrip(-i);
      assert ("-" + NatToDecimal(-i))[1..] == NatToDecimal(-i);
      "-" + NatToDecimal(-i)
    else
      DecimalRoundTrip(i);
      NatToDecimal(i)
  }

  /** Distinct numbers are written as distinct texts. */
  lemma IntToDecimalInjective(a: int, b: int)
    ensures IntToDecimal(a) == IntToDecimal(b) ==> a == b
  {
  }

  /** The text after a fixed prefix of a text is the part that follows it. */
  lemma AfterPrefix(prefix: string, a: string, b: string)
    requires prefix + a == prefix + b
    ensures a == b
  {
    assert a == (prefix + a)[|prefix|..];
    assert b == (prefix + b)[|prefix|..];
  }

  lemma AroundInfix(prefix: string, a: string, b: string, suffix: string)
    requires prefix + a + suffix == prefix + b + suffix
    ensures a == b
  {
    assert |a| == |b|;
    assert a == (prefix + a + suffix)[|prefix|..|prefix| + |a|];
    assert b == (prefix + b + suffix)[|prefix|..|prefix| + |b|];
  }

  // ---------------------------------------------------------------------------------------------
  // String.equalsIgnoreCase
  // ---------------------------------------------------------------------------------------------

  /**
    `Character.toUpperCase` on the characters whose upper case is an ASCII letter: the ASCII
    lower-case letters, dotless i (U+0131) and long s (U+017F). Every other character is left
    as it is.
  */
  function ToUpperCase(c: char): char {
    if 'a' <= c <= 'z' then (c as int - 32) as char
    else if c == '\U{131}' then 'I'
    else if c == '\U{17F}' then 'S'
    else c
  }

  /**
    `Character.toLowerCase` on the characters whose lower case is an ASCII letter: the ASCII
    upper-case letters, dotted capital I (U+0130) and the Kelvin sign (U+212A).
  */
  function ToLowerCase(c: char): char {
    if 'A' <= c <= 'Z' then (c as int + 32) as char
    else if c == '\U{130}' then 'i'
    else if c == '\U{212A}' then 'k'
    else c
  }

  /** The per-character test of `String.regionMatches(true, ...)`. */
  predicate CharEqualsIgnoreCase(a: char, b: char) {
    || a == b
    || ToUpperCase(a) == ToUpperCase(b)
    || ToLowerCase(ToUpperCase(a)) == ToLowerCase(ToUpperCase(b))
  }

  /** `a.equalsIgnoreCase(b)` for a non-null `b`. */
  predicate EqualsIgnoreCase(a: string, b: string) {
    |a| == |b| && forall i :: 0 <= i < |a| ==> CharEqualsIgnoreCase(a[i], b[i])
  }

  predicate IsUpperAscii(s: string) {
    forall i :: 0 <= i < |s| ==> 'A' <= s[i] <= 'Z'
  }

  /** The characters that `equalsIgnoreCase` accepts in place of the ASCII capital letter `k`. */
  predicate SpellsLetter(k: char, c: char)
    requires 'A' <= k <= 'Z'
  {
    || c == k
    || c == (k as int + 32) as char
    || (k == 'I' && (c == '\U{130}' || c == '\U{131}'))
    || (k == 'S' && c == '\U{17F}')
    || (k == 'K' && c == '\U{212A}')
  }

  /**
    Against an upper-case ASCII keyword, `equalsIgnoreCase` accepts exactly the strings of the
    same length that spell each letter in either case (or with one of the four non-ASCII
    characters whose case mapping lands on that letter).
  */
  lemma {:induction false} KeywordMatch(keyword: string, s: string)
    requires IsUpperAscii(keyword)
    ensures EqualsIgnoreCase(keyword, s) <==>
              |s| == |keyword| && forall i :: 0 <= i < |s| ==> SpellsLetter(keyword[i], s[i])
  {
    if |s| == |keyword| {
      forall i | 0 <= i < |s|
        ensures CharEqualsIgnoreCase(keyword[i], s[i]) <==> SpellsLetter(keyword[i], s[i])
      {
        LetterMatch(keyword[i], s[i]);
      }
    }
  }

  lemma LetterMatch(k: char, c: char)
    requires 'A' <= k <= 'Z'
    ensures CharEqualsIgnoreCase(k, c) <==> SpellsLetter(k, c)
  {
  }
}
