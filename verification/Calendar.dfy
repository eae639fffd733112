/** Decimal numbers and calendar dates as the text that goes into a leg id. */
module Calendar {
  import opened Domain

  // ---------------------------------------------------------------- decimal numbers

  function Digits(n: nat): string {
    if n < 10 then ["0123456789"[n]] else Digits(n / 10) + ["0123456789"[n % 10]]
  }

  function FormatInt(n: int): string {
    if n < 0 then "-" + Digits(-n) else Digits(n)
  }

  function DigitsValue(s: string): int {
    if s == "" then 0 else 10 * DigitsValue(s[..|s| - 1]) + (s[|s| - 1] as int - '0' as int)
  }

  predicate AllDigits(s: string) { forall c :: c in s ==> '0' <= c <= '9' }

  lemma DigitChar(d: nat)
    requires d < 10
    ensures "0123456789"[d] as int == '0' as int + d
  {
  }

  lemma {:induction false} DigitsRoundTrip(n: nat)
    ensures DigitsValue(Digits(n)) == n
    ensures Digits(n) != "" && AllDigits(Digits(n))
  {
    DigitChar(n % 10);
    if n < 10 {
      assert Digits(n)[..0] == "";
    } else {
      DigitsRoundTrip(n / 10);
      assert Digits(n)[..|Digits(n)| - 1] == Digits(n / 10);
    }
  }

  lemma FormatIntInjective(a: int, b: int)
    requires FormatInt(a) == FormatInt(b)
    ensures a == b
  {
    var m, n := Abs(a), Abs(b);
    DigitsRoundTrip(m);
    DigitsRoundTrip(n);
    assert a < 0 ==> FormatInt(a)[0] == '-' && FormatInt(a)[1..] == Digits(m);
    assert b < 0 ==> FormatInt(b)[0] == '-' && FormatInt(b)[1..] == Digits(n);
    assert a >= 0 ==> FormatInt(a)[0] in Digits(m);
    assert b >= 0 ==> FormatInt(b)[0] in Digits(n);
  }

  /** Zero-padded to a width. */
  function Pad(n: nat, width: nat): string {
    Zeros(if |Digits(n)| < width then width - |Digits(n)| else 0) + Digits(n)
  }

  function Zeros(k: nat): (s: string)
    ensures |s| == k && AllDigits(s)
  {
    if k == 0 then "" else "0" + Zeros(k - 1)
  }

  lemma {:induction false} LeadingZero(s: string)
    ensures DigitsValue("0" + s) == DigitsValue(s)
  {
    if s == "" {
      assert "0"[..0] == "";
    } else {
      assert ("0" + s)[..|s|] == "0" + s[..|s| - 1];
      LeadingZero(s[..|s| - 1]);
    }
  }

  lemma {:induction false} ZerosValue(k: nat, s: string)
    ensures DigitsValue(Zeros(k) + s) == DigitsValue(s)
  {
    if k == 0 {
      assert Zeros(0) + s == s;
    } else {
      ZerosValue(k - 1, s);
      LeadingZero(Zeros(k - 1) + s);
      assert Zeros(k) + s == "0" + (Zeros(k - 1) + s);
    }
  }

  lemma PadFacts(n: nat, width: nat)
    ensures DigitsValue(Pad(n, width)) == n && AllDigits(Pad(n, width)) && Pad(n, width) != ""
    ensures n < 100 ==> |Pad(n, 2)| == 2
  {
    DigitsRoundTrip(n);
    ZerosValue(if |Digits(n)| < width then width - |Digits(n)| else 0, Digits(n));
    if 10 <= n < 100 { assert |Digits(n / 10)| == 1; }
  }

  // ---------------------------------------------------------------- dates

  datatype Date = Date(year: int, month: nat, day: nat)

  /** Days from 1 March of year 0 to 1 January of year 1, the zero date. */
  const SHIFT := 306

  /** The Gregorian date of a day number; years start in March while counting, so that leap days come last. */
  function DateOf(n: int): (date: Date)
    ensures 1 <= date.month <= 12 && 1 <= date.day <= 31
  {
    var z := n + SHIFT;
    var era, doe := z / 146_097, z % 146_097;
    var century := if doe / 36_524 == 4 then 3 else doe / 36_524;
    var doc := doe - 36_524 * century;
    var quad := doc / 1_461;
    var doq := doc - 1_461 * quad;
    var y := if doq / 365 == 4 then 3 else doq / 365;
    var doy := doq - 365 * y;
    var m := (5 * doy + 2) / 153;
    var month := if m < 10 then m + 3 else m - 9;
    Date(400 * era + 100 * century + 4 * quad + y + (if month <= 2 then 1 else 0), month, doy - (153 * m + 2) / 5 + 1)
  }

  /**
   The day number of a date: 365 days a year, a leap day every fourth but not every hundredth year, then
   every 400th.
   */
  function DayNumber(d: Date): int {
    var y := if d.month <= 2 then d.year - 1 else d.year;
    var m := if d.month > 2 then d.month - 3 else d.month + 9;
    var yoe := y % 400;
    146_097 * (y / 400) + 365 * yoe + yoe / 4 - yoe / 100 + (153 * m + 2) / 5 + d.day - 1 - SHIFT
  }

  /** Every day number is recovered from its date. */
  lemma DateRoundTrip(n: int)
    ensures DayNumber(DateOf(n)) == n
  {
    hide DayNumber;
    var z := n + SHIFT;
    var era, doe := z / 146_097, z % 146_097;
    var century := if doe / 36_524 == 4 then 3 else doe / 36_524;
    var doc := doe - 36_524 * century;
    var quad := doc / 1_461;
    var doq := doc - 1_461 * quad;
    assert 0 <= doc <= 36_524 && 0 <= doq <= 1_460;
    var y := if doq / 365 == 4 then 3 else doq / 365;
    var doy := doq - 365 * y;
    DayOfParts(era, century, quad, y, doy);
  }

  /** The date with these parts of the cycle, and its day number. */
  lemma DayOfParts(era: int, century: int, quad: int, y: int, doy: int)
    requires 0 <= century <= 3 && 0 <= quad <= 24 && 0 <= y <= 3 && 0 <= doy <= 365
    ensures var m := (5 * doy + 2) / 153;
            var month := if m < 10 then m + 3 else m - 9;
            && 1 <= month <= 12 && doy - (153 * m + 2) / 5 + 1 >= 1
            && DayNumber(Date(400 * era + 100 * century + 4 * quad + y + (if month <= 2 then 1 else 0), month,
                              doy - (153 * m + 2) / 5 + 1)) ==
               146_097 * era + 36_524 * century + 1_461 * quad + 365 * y + doy - SHIFT
  {
    YearParts(era, century, quad, y);
  }

  lemma YearParts(era: int, century: int, quad: int, y: int)
    requires 0 <= century <= 3 && 0 <= quad <= 24 && 0 <= y <= 3
    ensures var n := 400 * era + 100 * century + 4 * quad + y;
            && n / 400 == era && n % 400 == 100 * century + 4 * quad + y
            && (n % 400) / 4 == 25 * century + quad && (n % 400) / 100 == century
  {
  }

  function YearText(y: int): string { if y < 0 then "-" + Pad(-y, 4) else Pad(y, 4) }

  /** YYYY-MM-DD. */
  function DateText(n: int): string {
    var d := DateOf(n);
    YearText(d.year) + "-" + Pad(d.month, 2) + "-" + Pad(d.day, 2)
  }

  /** Day 0 is 1 January of year 1. */
  lemma DayZero(n: int)
    requires n == 0
    ensures DateOf(n) == Date(1, 1, 1)
  {
    assert n + SHIFT == 306 && 306 / 1_461 == 0 && 306 / 365 == 0 && (5 * 306 + 2) / 153 == 10;
  }

  lemma YearTextInjective(a: int, b: int)
    requires YearText(a) == YearText(b)
    ensures a == b
  {
    PadFacts(Abs(a), 4);
    PadFacts(Abs(b), 4);
    assert a < 0 ==> YearText(a)[0] == '-' && YearText(a)[1..] == Pad(-a, 4);
    assert b < 0 ==> YearText(b)[0] == '-' && YearText(b)[1..] == Pad(-b, 4);
    assert a >= 0 ==> YearText(a)[0] in Pad(a, 4);
    assert b >= 0 ==> YearText(b)[0] in Pad(b, 4);
  }

  /** The text determines the day. */
  lemma DateTextInjective(a: int, b: int)
    requires DateText(a) == DateText(b)
    ensures a == b
  {
    hide DateOf, DayNumber, Pad, YearText;
    var c, d := DateOf(a), DateOf(b);
    var s := DateText(a);
    PadFacts(c.month, 2);
    PadFacts(c.day, 2);
    PadFacts(d.month, 2);
    PadFacts(d.day, 2);
    assert Pad(c.day, 2) == s[|s| - 2..] == Pad(d.day, 2);
    assert Pad(c.month, 2) == s[|s| - 5..|s| - 3] == Pad(d.month, 2);
    assert YearText(c.year) == s[..|s| - 6] == YearText(d.year);
    YearTextInjective(c.year, d.year);
    DateRoundTrip(a);
    DateRoundTrip(b);
  }

  /** Dates and numbers are written with digits and hyphens only. */
  lemma PlainText(n: int)
    ensures forall c :: c in FormatInt(n) ==> c == '-' || '0' <= c <= '9'
    ensures forall c :: c in DateText(n) ==> c == '-' || '0' <= c <= '9'
  {
    hide DateOf, Pad;
    DigitsRoundTrip(Abs(n));
    var d := DateOf(n);
    PadFacts(Abs(d.year), 4);
    PadFacts(d.month, 2);
    PadFacts(d.day, 2);
  }
}
