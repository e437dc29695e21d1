/**
 The date check behind `datetime.strptime(value, "%Y-%m-%d")`: Python turns
 the format into the pattern four digits, `-`, a month of one or two digits,
 `-`, a day of one or two digits (or a space and one digit), requires the
 whole string to match, and then refuses dates the calendar does not have
 (year 0, February 30, ...).
 */
module Strptime {
  import opened Wrappers
  import opened Strings

  datatype Date = Date(year: nat, month: nat, day: nat)

  /** The decimal value of a run of ASCII digits. */
  function DigitsValue(s: string): nat
    requires AllDigits(s)
  {
    if s == [] then 0 else 10 * DigitsValue(s[..|s| - 1]) + DigitValue(s[|s| - 1])
  }

  lemma DigitsValueOne(s: string)
    requires |s| == 1 && IsDigit(s[0])
    ensures AllDigits(s) && DigitsValue(s) == DigitValue(s[0])
  {
    assert s[..0] == [];
  }

  lemma DigitsValueTwo(s: string)
    requires |s| == 2 && IsDigit(s[0]) && IsDigit(s[1])
    ensures AllDigits(s) && DigitsValue(s) == 10 * DigitValue(s[0]) + DigitValue(s[1])
  {
    DigitsValueOne(s[..1]);
  }

  lemma DigitsValueFour(s: string)
    requires |s| == 4 && AllDigits(s)
    ensures DigitsValue(s) == 100 * DigitsValue(s[..2]) + DigitsValue(s[2..])
    ensures DigitsValue(s) <= 9999
  {
    var a, b := s[..2], s[2..];
    DigitsValueTwo(a);
    DigitsValueTwo(b);
    DigitsValueTwo(s[..3][..2]);
    assert s[..3][..2] == a;
    assert s[..3] == s[..4][..3];
    assert s[..4] == s;
    DigitsValueOne(s[..3][2..]);
    calc {
      DigitsValue(s);
      10 * DigitsValue(s[..3]) + DigitValue(s[3]);
      10 * (10 * DigitsValue(a) + DigitValue(s[2])) + DigitValue(s[3]);
    }
  }

  /** `%m`: `1[0-2]`, `0[1-9]` or `[1-9]`. */
  predicate MonthField(m: string) {
    || (|m| == 2 && m[0] == '1' && '0' <= m[1] <= '2')
    || (|m| == 2 && m[0] == '0' && '1' <= m[1] <= '9')
    || (|m| == 1 && '1' <= m[0] <= '9')
  }

  /** `%d`: `3[01]`, `[12]` and a digit, `0[1-9]`, `[1-9]`, or a space and `[1-9]`. */
  predicate DayField(d: string) {
    || (|d| == 2 && d[0] == '3' && '0' <= d[1] <= '1')
    || (|d| == 2 && '1' <= d[0] <= '2' && IsDigit(d[1]))
    || (|d| == 2 && d[0] == '0' && '1' <= d[1] <= '9')
    || (|d| == 1 && '1' <= d[0] <= '9')
    || (|d| == 2 && d[0] == ' ' && '1' <= d[1] <= '9')
  }

  function MonthValue(m: string): (n: nat)
    requires MonthField(m)
    ensures 1 <= n <= 12
  {
    if |m| == 1 then DigitsValueOne(m); DigitsValue(m)
    else DigitsValueTwo(m); DigitsValue(m)
  }

  /** The value of a day field, ignoring its leading space. */
  function DayValue(d: string): (n: nat)
    requires DayField(d)
    ensures 1 <= n <= 31
  {
    if d[0] == ' ' then DigitsValueOne(d[1..]); DigitsValue(d[1..])
    else if |d| == 1 then DigitsValueOne(d); DigitsValue(d)
    else DigitsValueTwo(d); DigitsValue(d)
  }

  /** The position of the first `-`, `|s|` when none. */
  function DashIndex(s: string): (i: nat)
    ensures i <= |s|
    ensures forall j :: 0 <= j < i ==> s[j] != '-'
    ensures i < |s| ==> s[i] == '-'
  {
    if s == [] then 0 else if s[0] == '-' then 0 else 1 + DashIndex(s[1..])
  }

  /** The fields the pattern captures, when the whole string matches it. */
  function ParseDate(s: string): (r: Option<Date>)
    ensures r.Some? ==> 8 <= |s| <= 10 && AllDigits(s[..4]) && s[4] == '-'
    ensures r.Some? ==> 1 <= r.value.month <= 12 && 1 <= r.value.day <= 31 && r.value.year <= 9999
  {
    if |s| < 5 || !AllDigits(s[..4]) || s[4] != '-' then None
    else
      var rest := s[5..];
      var k := DashIndex(rest);
      if k == |rest| then None
      else
        var m, d := rest[..k], rest[k + 1..];
        if MonthField(m) && DayField(d) then
          DigitsValueFour(s[..4]);
          Some(Date(DigitsValue(s[..4]), MonthValue(m), DayValue(d)))
        else None
  }

  predicate IsLeap(y: nat) {
    y % 4 == 0 && (y % 100 != 0 || y % 400 == 0)
  }

  function DaysInMonth(y: nat, m: nat): nat {
    if m == 2 then (if IsLeap(y) then 29 else 28)
    else if m == 4 || m == 6 || m == 9 || m == 11 then 30
    else 31
  }

  /** A date `datetime` accepts: years 1 to 9999, months 1 to 12, days within the month. */
  predicate ValidDate(d: Date) {
    1 <= d.year <= 9999 && 1 <= d.month <= 12 && 1 <= d.day <= DaysInMonth(d.year, d.month)
  }

  /** `strptime(s, "%Y-%m-%d")` returns instead of raising `ValueError`. */
  predicate Accepts(s: string) {
    ParseDate(s).Some? && ValidDate(ParseDate(s).value)
  }

  /** Two digits, zero-padded. */
  function Pad2(n: nat): (s: string)
    requires n < 100
    ensures |s| == 2 && AllDigits(s) && DigitsValue(s) == n
  {
    var s := [DigitChar(n / 10), DigitChar(n % 10)];
    DigitsValueTwo(s);
    s
  }

  /** Four digits, zero-padded. */
  function Pad4(n: nat): (s: string)
    requires n < 10000
    ensures |s| == 4 && AllDigits(s) && DigitsValue(s) == n
  {
    var s := Pad2(n / 100) + Pad2(n % 100);
    assert s[..2] == Pad2(n / 100) && s[2..] == Pad2(n % 100);
    DigitsValueFour(s);
    s
  }

  /** `date.isoformat()`: `YYYY-MM-DD`. */
  function FormatDate(d: Date): (s: string)
    requires ValidDate(d)
    ensures |s| == 10
  {
    Pad4(d.year) + "-" + Pad2(d.month) + "-" + Pad2(d.day)
  }

  /** Every valid date, written the ISO way, is read back as itself. */
  lemma ParseFormatDate(d: Date)
    requires ValidDate(d)
    ensures ParseDate(FormatDate(d)) == Some(d)
    ensures Accepts(FormatDate(d))
  {
    var s := FormatDate(d);
    var y, m, dd := Pad4(d.year), Pad2(d.month), Pad2(d.day);
    assert s[..4] == y;
    var rest := s[5..];
    assert rest == m + "-" + dd;
    assert rest[2] == '-' && rest[0] != '-' && rest[1] != '-';
    assert DashIndex(rest) == 2;
    assert rest[..2] == m && rest[3..] == dd;
    assert MonthValue(m) == d.month && DayValue(dd) == d.day;
  }

  /** The dates the library's tests pass are accepted. */
  lemma AcceptsEpoch()
    ensures Accepts("1970-01-01")
  {
    ParseFormatDate(Date(1970, 1, 1));
    assert FormatDate(Date(1970, 1, 1)) == "1970-01-01";
  }

  /** Text that is not a date is refused. */
  lemma RefusesText(s: string)
    requires s == "abc"
    ensures !Accepts(s)
  {
  }

  /** A well-formed string naming a day the month does not have is refused. */
  lemma RefusesFebruary30(s: string)
    requires s == "1970-02-30"
    ensures !Accepts(s)
  {
    var rest := s[5..];
    assert s[4] == '-' && rest == "02-30";
    assert rest[0] == '0' && rest[1] == '2' && rest[2] == '-';
    assert DashIndex(rest) == 2;
    assert rest[..2] == "02" && rest[3..] == "30";
    DigitsValueTwo("02");
    DigitsValueTwo("30");
  }

  /** Year 0 is refused. */
  lemma RefusesYearZero(s: string)
    requires s == "0000-01-01"
    ensures !Accepts(s)
  {
    assert s[..4] == "0000";
    DigitsValueFour("0000");
    DigitsValueTwo("00");
    assert "0000"[..2] == "00" && "0000"[2..] == "00";
  }
}
