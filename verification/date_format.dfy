/**
 * The local-date key of the activity log:
 * `${year}-${String(month + 1).padStart(2, "0")}-${String(day).padStart(2, "0")}`.
 */
module DateFormat {
  import opened Wrappers

  /** The calendar fields the application reads from a `Date`: `getMonth()` is 0-based. */
  datatype DateParts = DateParts(year: nat, monthIndex: nat, day: nat)

  /** A date a clock can produce, with a four-digit year. */
  predicate ValidDate(d: DateParts)
  {
    1000 <= d.year <= 9999 && d.monthIndex < 12 && 1 <= d.day <= 31
  }

  function Digit(n: nat): (c: char)
    requires n < 10
    ensures '0' <= c <= '9' && c as int - '0' as int == n
  {
    ('0' as int + n) as char
  }

  /** `String(n)` for a natural number: its decimal digits without leading zeros. */
  function Decimal(n: nat): (s: string)
    ensures |s| >= 1
    ensures forall i :: 0 <= i < |s| ==> '0' <= s[i] <= '9'
  {
    if n < 10 then [Digit(n)] else Decimal(n / 10) + [Digit(n % 10)]
  }

  /** `s.padStart(width, c)`. */
  function PadStart(s: string, width: nat, c: char): (r: string)
    ensures |r| == if |s| >= width then |s| else width
    ensures r[|r| - |s|..] == s
    ensures forall i :: 0 <= i < |r| - |s| ==> r[i] == c
  {
    if |s| >= width then s else seq(width - |s|, _ => c) + s
  }

  function TwoDigits(n: nat): string
  {
    PadStart(Decimal(n), 2, '0')
  }

  /** The `today` string of the daily practice component. */
  function DateKey(d: DateParts): string
  {
    Decimal(d.year) + "-" + TwoDigits(d.monthIndex + 1) + "-" + TwoDigits(d.day)
  }

  /** The number a string of decimal digits denotes. */
  function ValueOf(s: string): (v: int)
    ensures (forall i :: 0 <= i < |s| ==> '0' <= s[i] <= '9') ==> v >= 0
  {
    if s == [] then 0 else ValueOf(s[..|s| - 1]) * 10 + (s[|s| - 1] as int - '0' as int)
  }

  predicate AllDigits(s: string)
  {
    forall i :: 0 <= i < |s| ==> '0' <= s[i] <= '9'
  }

  /** Reads a `YYYY-MM-DD` key back into its date fields. */
  function ParseDateKey(s: string): (r: Option<DateParts>)
    ensures r.Some? ==> |s| == 10 && s[4] == '-' && s[7] == '-'
  {
    if |s| == 10 && AllDigits(s[..4]) && s[4] == '-' && AllDigits(s[5..7]) && s[7] == '-' && AllDigits(s[8..])
       && ValueOf(s[5..7]) >= 1
    then Some(DateParts(ValueOf(s[..4]), ValueOf(s[5..7]) - 1, ValueOf(s[8..])))
    else None
  }

  lemma {:induction false} DecimalValue(n: nat)
    ensures ValueOf(Decimal(n)) == n
  {
    if n >= 10 {
      var s := Decimal(n);
      assert s[..|s| - 1] == Decimal(n / 10);
      DecimalValue(n / 10);
    } else {
      assert [Digit(n)][..0] == [];
    }
  }

  lemma FourDigitYear(y: nat)
    requires 1000 <= y <= 9999
    ensures |Decimal(y)| == 4
  {
    var a, b, c := y / 10, y / 10 / 10, y / 10 / 10 / 10;
    assert 100 <= a <= 999 && 10 <= b <= 99 && 1 <= c <= 9;
    assert |Decimal(c)| == 1;
    assert |Decimal(b)| == |Decimal(c)| + 1;
    assert |Decimal(a)| == |Decimal(b)| + 1;
    assert |Decimal(y)| == |Decimal(a)| + 1;
  }

  /** Two characters that read back as `n`, a leading zero included. */
  lemma TwoDigitsValue(n: nat)
    requires n < 100
    ensures |TwoDigits(n)| == 2 && AllDigits(TwoDigits(n)) && ValueOf(TwoDigits(n)) == n
  {
    DecimalValue(n);
    var t := TwoDigits(n);
    if n < 10 {
      assert t == ['0', Digit(n)];
      assert t[..1] == ['0'] && ['0'][..0] == [];
    } else {
      assert 1 <= n / 10 <= 9;
      assert |Decimal(n / 10)| == 1;
    }
  }

  /** Where the three fields sit in `y-m-d` when they have widths 4, 2 and 2. */
  lemma {:induction false} KeyLayout(y: string, m: string, d: string)
    requires |y| == 4 && |m| == 2 && |d| == 2
    ensures var k := y + "-" + m + "-" + d;
            && |k| == 10 && k[4] == '-' && k[7] == '-'
            && k[..4] == y && k[5..7] == m && k[8..] == d
  {
    var k := y + "-" + m + "-" + d;
    assert k == y + (['-'] + m + ['-'] + d);
    assert (['-'] + m + ['-'] + d)[1..3] == m;
  }

  /** The key is `YYYY-MM-DD`: ten characters with dashes at 4 and 7 and digits elsewhere. */
  lemma DateKeyFormat(d: DateParts)
    requires ValidDate(d)
    ensures |DateKey(d)| == 10 && DateKey(d)[4] == '-' && DateKey(d)[7] == '-'
    ensures AllDigits(DateKey(d)[..4]) && AllDigits(DateKey(d)[5..7]) && AllDigits(DateKey(d)[8..])
    ensures DateKey(d)[..4] == Decimal(d.year)
    ensures DateKey(d)[5..7] == TwoDigits(d.monthIndex + 1)
    ensures DateKey(d)[8..] == TwoDigits(d.day)
  {
    FourDigitYear(d.year);
    TwoDigitsValue(d.monthIndex + 1);
    TwoDigitsValue(d.day);
    KeyLayout(Decimal(d.year), TwoDigits(d.monthIndex + 1), TwoDigits(d.day));
  }

  /** Parsing a key gives back the date it was made from. */
  lemma ParseDateKeyRoundTrip(d: DateParts)
    requires ValidDate(d)
    ensures ParseDateKey(DateKey(d)) == Some(d)
  {
    DateKeyFormat(d);
    DecimalValue(d.year);
    TwoDigitsValue(d.monthIndex + 1);
    TwoDigitsValue(d.day);
  }

  /** Two valid dates share a key only if they are the same date, so the key identifies the day. */
  lemma DateKeyInjective(a: DateParts, b: DateParts)
    requires ValidDate(a) && ValidDate(b) && DateKey(a) == DateKey(b)
    ensures a == b
  {
    ParseDateKeyRoundTrip(a);
    ParseDateKeyRoundTrip(b);
  }
}
