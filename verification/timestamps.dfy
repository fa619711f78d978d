/**
 * Python `datetime` values with microsecond precision, the text that
 * `datetime.isoformat()` produces, and `datetime.strptime` applied to the one
 * format the engine reads back, "%Y-%m-%dT%H:%M:%S.%f".
 */
module Timestamps {
  import opened Wrappers
  import opened Values

  datatype DateTime = DateTime(year: int, month: int, day: int,
                               hour: int, minute: int, second: int, microsecond: int)

  predicate IsLeapYear(y: int) {
    y % 4 == 0 && (y % 100 != 0 || y % 400 == 0)
  }

  function DaysInMonth(y: int, m: int): int {
    if m == 2 then (if IsLeapYear(y) then 29 else 28)
    else if m == 4 || m == 6 || m == 9 || m == 11 then 30
    else 31
  }

  /** The ranges Python's datetime constructor enforces. */
  predicate ValidDateTime(d: DateTime) {
    && 1 <= d.year <= 9999
    && 1 <= d.month <= 12
    && 1 <= d.day <= DaysInMonth(d.year, d.month)
    && 0 <= d.hour < 24
    && 0 <= d.minute < 60
    && 0 <= d.second < 60
    && 0 <= d.microsecond < 1000000
  }

  /** A datetime object: every one that exists is within range. */
  type Timestamp = d: DateTime | ValidDateTime(d) witness DateTime(1, 1, 1, 0, 0, 0, 0)

  /** Chronological order of datetimes: lexicographic on the fields, largest unit first. */
  predicate Before(a: DateTime, b: DateTime) {
    if a.year != b.year then a.year < b.year
    else if a.month != b.month then a.month < b.month
    else if a.day != b.day then a.day < b.day
    else if a.hour != b.hour then a.hour < b.hour
    else if a.minute != b.minute then a.minute < b.minute
    else if a.second != b.second then a.second < b.second
    else a.microsecond < b.microsecond
  }

  /** `Before` is a strict total order: irreflexive, transitive, and any two distinct datetimes are comparable. */
  lemma BeforeStrictTotal(a: DateTime, b: DateTime, c: DateTime)
    ensures !Before(a, a)
    ensures Before(a, b) ==> !Before(b, a)
    ensures Before(a, b) && Before(b, c) ==> Before(a, c)
    ensures a != b ==> Before(a, b) || Before(b, a)
  {
  }

  function Pow10(n: nat): (p: nat)
    ensures p >= 1
  {
    if n == 0 then 1 else 10 * Pow10(n - 1)
  }

  /** The last `width` decimal digits of `n`, zero-padded (printf's %0<width>d for n < 10^width). */
  function Digits(n: nat, width: nat): (s: string)
    ensures |s| == width
  {
    if width == 0 then [] else Digits(n / 10, width - 1) + [DigitChar(n % 10)]
  }

  predicate AllDigits(s: string) {
    forall i :: 0 <= i < |s| ==> IsDigit(s[i])
  }

  /** The number a string of decimal digits denotes. */
  function DigitsValue(s: string): nat
    requires AllDigits(s)
  {
    if s == [] then 0 else DigitsValue(s[..|s| - 1]) * 10 + (s[|s| - 1] as int - '0' as int)
  }

  /** Padding a number that fits and reading it back gives the number. */
  lemma {:induction false} DigitsRoundTrip(n: nat, width: nat)
    requires n < Pow10(width)
    ensures AllDigits(Digits(n, width)) && DigitsValue(Digits(n, width)) == n
  {
    if width > 0 {
      DigitsRoundTrip(n / 10, width - 1);
      var s := Digits(n, width);
      assert s[..|s| - 1] == Digits(n / 10, width - 1);
    }
  }

  /** Reading a digit string and padding it back to its width gives the string. */
  lemma {:induction false} DigitsValueRoundTrip(s: string)
    requires AllDigits(s)
    ensures DigitsValue(s) < Pow10(|s|) && Digits(DigitsValue(s), |s|) == s
  {
    if s != [] {
      var init := s[..|s| - 1];
      DigitsValueRoundTrip(init);
      var d := s[|s| - 1] as int - '0' as int;
      var n := DigitsValue(s);
      assert n / 10 == DigitsValue(init) && n % 10 == d;
      assert DigitChar(d) == s[|s| - 1];
      assert init + [s[|s| - 1]] == s;
    }
  }

  /** "YYYY-MM-DDTHH:MM:SS", the part of isoformat() that is always present. */
  function IsoSeconds(t: Timestamp): (s: string)
    ensures |s| == 19
  {
    Digits(t.year, 4) + "-" + Digits(t.month, 2) + "-" + Digits(t.day, 2) + "T"
      + Digits(t.hour, 2) + ":" + Digits(t.minute, 2) + ":" + Digits(t.second, 2)
  }

  /** `datetime.isoformat()`: the fraction ".ffffff" is written only when the microsecond is not 0. */
  function IsoFormat(t: Timestamp): (s: string)
    ensures |s| == if t.microsecond == 0 then 19 else 26
    ensures s[..19] == IsoSeconds(t)
  {
    if t.microsecond == 0 then IsoSeconds(t) else IsoSeconds(t) + "." + Digits(t.microsecond, 6)
  }

  /** strptime's shape test for "%Y-%m-%dT%H:%M:%S.%f" with canonical field widths; literals match case-insensitively. */
  predicate IsoShape(s: string) {
    && 21 <= |s| <= 26
    && AllDigits(s[0..4]) && s[4] == '-' && AllDigits(s[5..7]) && s[7] == '-'
    && AllDigits(s[8..10]) && (s[10] == 'T' || s[10] == 't')
    && AllDigits(s[11..13]) && s[13] == ':' && AllDigits(s[14..16]) && s[16] == ':'
    && AllDigits(s[17..19]) && s[19] == '.' && AllDigits(s[20..])
  }

  /**
   * `datetime.strptime(s, "%Y-%m-%dT%H:%M:%S.%f")`: None where Python raises
   * ValueError. %f takes one to six digits and pads them on the right.
   */
  function Parse(s: string): (r: Option<Timestamp>)
    ensures r.Some? ==> IsoShape(s)
  {
    if !IsoShape(s) then None
    else
      var d := DateTime(DigitsValue(s[0..4]), DigitsValue(s[5..7]), DigitsValue(s[8..10]),
                        DigitsValue(s[11..13]), DigitsValue(s[14..16]), DigitsValue(s[17..19]),
                        DigitsValue(s[20..]) * Pow10(26 - |s|));
      if ValidDateTime(d) then Some(d) else None
  }

  /**
   * isoformat() text is read back by strptime exactly when the microsecond is
   * not 0; otherwise the fraction the format requires is missing.
   */
  lemma ParseIsoFormat(t: Timestamp)
    ensures t.microsecond != 0 ==> Parse(IsoFormat(t)) == Some(t)
    ensures t.microsecond == 0 ==> Parse(IsoFormat(t)) == None
  {
    if t.microsecond != 0 {
      ParseIsoFormatWithFraction(t);
    } else {
      assert |IsoFormat(t)| == 19;
    }
  }

  lemma ParseIsoFormatWithFraction(t: Timestamp)
    requires t.microsecond != 0
    ensures Parse(IsoFormat(t)) == Some(t)
  {
    var s := IsoFormat(t);
    var head := IsoSeconds(t);
    IsoSecondsFields(t);
    DigitsRoundTrip(t.microsecond, 6);
    assert s == head + "." + Digits(t.microsecond, 6);
    assert s[0..4] == head[0..4] && s[5..7] == head[5..7] && s[8..10] == head[8..10];
    assert s[11..13] == head[11..13] && s[14..16] == head[14..16] && s[17..19] == head[17..19];
    assert s[4] == head[4] && s[7] == head[7] && s[10] == head[10];
    assert s[13] == head[13] && s[16] == head[16];
    assert s[20..] == Digits(t.microsecond, 6);
    assert IsoShape(s);
    var d := DateTime(DigitsValue(s[0..4]), DigitsValue(s[5..7]), DigitsValue(s[8..10]),
                      DigitsValue(s[11..13]), DigitsValue(s[14..16]), DigitsValue(s[17..19]),
                      DigitsValue(s[20..]) * Pow10(26 - |s|));
    assert d == t;
  }

  /** Each field of IsoSeconds(t) sits at its fixed position and reads back as the field. */
  lemma IsoSecondsFields(t: Timestamp)
    ensures var s := IsoSeconds(t);
      && s[4] == '-' && s[7] == '-' && s[10] == 'T' && s[13] == ':' && s[16] == ':'
      && AllDigits(s[0..4]) && DigitsValue(s[0..4]) == t.year
      && AllDigits(s[5..7]) && DigitsValue(s[5..7]) == t.month
      && AllDigits(s[8..10]) && DigitsValue(s[8..10]) == t.day
      && AllDigits(s[11..13]) && DigitsValue(s[11..13]) == t.hour
      && AllDigits(s[14..16]) && DigitsValue(s[14..16]) == t.minute
      && AllDigits(s[17..19]) && DigitsValue(s[17..19]) == t.second
  {
    IsoSecondsDate(t);
    IsoSecondsTime(t);
  }

  /** The date half of `IsoSeconds`: year, month and day at their positions, with the '-' separators. */
  lemma IsoSecondsDate(t: Timestamp)
    ensures var s := IsoSeconds(t);
      && s[4] == '-' && s[7] == '-'
      && AllDigits(s[0..4]) && DigitsValue(s[0..4]) == t.year
      && AllDigits(s[5..7]) && DigitsValue(s[5..7]) == t.month
      && AllDigits(s[8..10]) && DigitsValue(s[8..10]) == t.day
  {
    var s := IsoSeconds(t);
    DigitsRoundTrip(t.year, 4);
    DigitsRoundTrip(t.month, 2);
    DigitsRoundTrip(t.day, 2);
    assert s[0..4] == Digits(t.year, 4);
    assert s[5..7] == Digits(t.month, 2);
    assert s[8..10] == Digits(t.day, 2);
  }

  /** The time half of `IsoSeconds`: hour, minute and second at their positions, after 'T' and with ':' between. */
  lemma IsoSecondsTime(t: Timestamp)
    ensures var s := IsoSeconds(t);
      && s[10] == 'T' && s[13] == ':' && s[16] == ':'
      && AllDigits(s[11..13]) && DigitsValue(s[11..13]) == t.hour
      && AllDigits(s[14..16]) && DigitsValue(s[14..16]) == t.minute
      && AllDigits(s[17..19]) && DigitsValue(s[17..19]) == t.second
  {
    var s := IsoSeconds(t);
    DigitsRoundTrip(t.hour, 2);
    DigitsRoundTrip(t.minute, 2);
    DigitsRoundTrip(t.second, 2);
    assert s[11..13] == Digits(t.hour, 2);
    assert s[14..16] == Digits(t.minute, 2);
    assert s[17..19] == Digits(t.second, 2);
  }

  /**
   * Conversely, a canonical 26-character text that strptime accepts, with a
   * non-zero fraction and an upper-case 'T', is exactly the isoformat() of what it parses to.
   */
  lemma IsoFormatOfParse(s: string, t: Timestamp)
    requires Parse(s) == Some(t) && |s| == 26 && s[10] == 'T' && t.microsecond != 0
    ensures IsoFormat(t) == s
  {
    assert t.year == DigitsValue(s[0..4]) && t.month == DigitsValue(s[5..7]) && t.day == DigitsValue(s[8..10]);
    assert t.hour == DigitsValue(s[11..13]) && t.minute == DigitsValue(s[14..16]) && t.second == DigitsValue(s[17..19]);
    assert t.microsecond == DigitsValue(s[20..]);
    DigitsValueRoundTrip(s[0..4]);
    DigitsValueRoundTrip(s[5..7]);
    DigitsValueRoundTrip(s[8..10]);
    DigitsValueRoundTrip(s[11..13]);
    DigitsValueRoundTrip(s[14..16]);
    DigitsValueRoundTrip(s[17..19]);
    DigitsValueRoundTrip(s[20..]);
    assert s[..5] == s[0..4] + "-";
    assert s[..8] == s[..5] + s[5..7] + "-";
    assert s[..11] == s[..8] + s[8..10] + "T";
    assert s[..14] == s[..11] + s[11..13] + ":";
    assert s[..17] == s[..14] + s[14..16] + ":";
    assert s[..19] == s[..17] + s[17..19];
    assert s == s[..19] + "." + s[20..];
  }

}
