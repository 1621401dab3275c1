/**
 * Names of the delays of the retry ladder.
 *
 * A delay is printed as the standard library prints durations and loses the zero seconds of whole
 * minutes. Reading a name back yields its delay, so different delays have different names.
 */
module DelayName {

  const MICROSECOND := 1_000
  const MILLISECOND := 1_000_000
  const SECOND := 1_000_000_000
  const MINUTE := 60_000_000_000
  const HOUR := 3600_000_000_000

  // Printing

  function Digit(d: nat): char
    requires d < 10
  {
    "0123456789"[d]
  }

  function Decimal(n: nat): string {
    if n < 10 then [Digit(n)] else Decimal(n / 10) + [Digit(n % 10)]
  }

  /** The last p digits. */
  function Padded(v: nat, p: nat): string {
    if p == 0 then "" else Padded(v / 10, p - 1) + [Digit(v % 10)]
  }

  /** The p digits of a fraction, without trailing zeros. */
  function Fraction(v: nat, p: nat): string {
    if v == 0 || p == 0 then ""
    else if v % 10 == 0 then Fraction(v / 10, p - 1)
    else Padded(v, p)
  }

  function Number(whole: nat, fraction: nat, p: nat): string {
    if fraction == 0 then Decimal(whole) else Decimal(whole) + "." + Fraction(fraction, p)
  }

  function Seconds(d: nat): string { Number(d / SECOND, d % SECOND, 9) + "s" }

  /** A duration of so many nanoseconds, in the largest units it has. */
  function Unsigned(d: nat): string {
    if d == 0 then "0s"
    else if d < MICROSECOND then Decimal(d) + "ns"
    else if d < MILLISECOND then Number(d / MICROSECOND, d % MICROSECOND, 3) + "\U{00B5}s"
    else if d < SECOND then Number(d / MILLISECOND, d % MILLISECOND, 6) + "ms"
    else if d < MINUTE then Seconds(d)
    else if d < HOUR then Decimal(d / MINUTE) + "m" + Seconds(d % MINUTE)
    else Decimal(d / HOUR) + "h" + (Decimal(d % HOUR / MINUTE) + "m" + Seconds(d % MINUTE))
  }

  function Printed(d: int): string {
    if d < 0 then "-" + Unsigned(-d) else Unsigned(d)
  }

  predicate EndsWith(s: string, suffix: string) {
    |s| >= |suffix| && s[|s| - |suffix|..] == suffix
  }

  function Trimmed(name: string): string {
    if EndsWith(name, "m0s") then name[..|name| - 2] else name
  }

  /** Short name of a delay: 5s, 30s, 5m. */
  function Name(d: int): string { Trimmed(Printed(d)) }

  // Reading

  predicate IsDigit(c: char) { '0' <= c <= '9' }

  predicate IsNumeric(c: char) { IsDigit(c) || c == '.' }

  predicate AllDigits(s: string) { forall i :: 0 <= i < |s| ==> IsDigit(s[i]) }

  function DigitsValue(s: string): int {
    if s == "" then 0 else 10 * DigitsValue(s[..|s| - 1]) + (s[|s| - 1] as int - '0' as int)
  }

  /** Length of the longest prefix that is numeric, or that is not. */
  function Span(s: string, numeric: bool): (n: nat)
    ensures n <= |s|
  {
    if s == "" || IsNumeric(s[0]) != numeric then 0 else 1 + Span(s[1..], numeric)
  }

  function PointAt(s: string): (n: nat)
    ensures n <= |s|
  {
    if s == "" || s[0] == '.' then 0 else 1 + PointAt(s[1..])
  }

  function Zeros(n: nat): string { if n == 0 then "" else Zeros(n - 1) + "0" }

  /** The whole part of a number, and its fraction in units of the p-th digit after the point. */
  function Parts(number: string, p: nat): (int, int) {
    var n := PointAt(number);
    var fraction := if n < |number| then number[n + 1..] else "";
    (DigitsValue(number[..n]), DigitsValue(fraction + if |fraction| <= p then Zeros(p - |fraction|) else ""))
  }

  function InNanoseconds(number: string, unit: string): int {
    if unit == "ns" then Parts(number, 0).0
    else if unit == "\U{00B5}s" then Parts(number, 3).0 * MICROSECOND + Parts(number, 3).1
    else if unit == "ms" then Parts(number, 6).0 * MILLISECOND + Parts(number, 6).1
    else if unit == "s" then Parts(number, 9).0 * SECOND + Parts(number, 9).1
    else if unit == "m" then Parts(number, 0).0 * MINUTE
    else Parts(number, 0).0 * HOUR
  }

  /** The sum of all numbers with their units. */
  function ReadUnsigned(s: string): int
    decreases |s|
  {
    var n := Span(s, true);
    var u := Span(s[n..], false);
    if n == 0 || u == 0 then 0
    else InNanoseconds(s[..n], s[n..n + u]) + ReadUnsigned(s[n + u..])
  }

  function Read(s: string): int {
    if s != "" && s[0] == '-' then -ReadUnsigned(s[1..]) else ReadUnsigned(s)
  }

  // Round trip of numbers

  lemma DigitsValueSnoc(s: string, c: char)
    ensures DigitsValue(s + [c]) == 10 * DigitsValue(s) + (c as int - '0' as int)
  {
    assert (s + [c])[..|s + [c]| - 1] == s;
  }

  lemma DigitIsDigit(d: nat)
    requires d < 10
    ensures IsDigit(Digit(d)) && Digit(d) as int - '0' as int == d
  {
  }

  lemma {:induction false} DecimalReadsBack(n: nat)
    ensures AllDigits(Decimal(n)) && Decimal(n) != "" && DigitsValue(Decimal(n)) == n
  {
    DigitIsDigit(n % 10);
    if n < 10 {
      DigitsValueSnoc("", Digit(n));
      assert "" + [Digit(n)] == Decimal(n);
    } else {
      DecimalReadsBack(n / 10);
      DigitsValueSnoc(Decimal(n / 10), Digit(n % 10));
    }
  }

  /** The value has at most p digits. */
  predicate Fits(v: nat, p: nat) { if p == 0 then v == 0 else Fits(v / 10, p - 1) }

  lemma DigitAfterReadsBack(s: string, v: nat)
    requires AllDigits(s) && DigitsValue(s) == v / 10
    ensures var s' := s + [Digit(v % 10)]; AllDigits(s') && |s'| == |s| + 1 && DigitsValue(s') == v
  {
    DigitIsDigit(v % 10);
    DigitsValueSnoc(s, Digit(v % 10));
  }

  lemma {:induction false} PaddedReadsBack(v: nat, p: nat)
    requires Fits(v, p)
    ensures AllDigits(Padded(v, p)) && |Padded(v, p)| == p && DigitsValue(Padded(v, p)) == v
  {
    if p > 0 {
      PaddedReadsBack(v / 10, p - 1);
      DigitAfterReadsBack(Padded(v / 10, p - 1), v);
    }
  }

  predicate ReadsAs(f: string, v: nat, p: nat) {
    AllDigits(f) && |f| <= p && DigitsValue(f + Zeros(p - |f|)) == v
  }

  lemma ZeroFollows(f: string, v: nat, p: nat)
    requires ReadsAs(f, v, p)
    ensures ReadsAs(f, 10 * v, p + 1)
  {
    assert f + Zeros(p + 1 - |f|) == (f + Zeros(p - |f|)) + "0";
    DigitsValueSnoc(f + Zeros(p - |f|), '0');
  }

  lemma {:induction false} FractionReadsBack(v: nat, p: nat)
    requires Fits(v, p)
    ensures ReadsAs(Fraction(v, p), v, p)
  {
    if v == 0 || p == 0 {
      NothingReadsAsZero(p);
    } else if v % 10 == 0 {
      FractionReadsBack(v / 10, p - 1);
      ZeroFollows(Fraction(v / 10, p - 1), v / 10, p - 1);
    } else {
      PaddedReadsBack(v, p);
      assert Padded(v, p) + Zeros(0) == Padded(v, p);
    }
  }

  lemma {:induction false} ZerosAreNothing(n: nat)
    ensures DigitsValue(Zeros(n)) == 0
  {
    if n > 0 {
      ZerosAreNothing(n - 1);
      DigitsValueSnoc(Zeros(n - 1), '0');
    }
  }

  lemma NothingReadsAsZero(p: nat)
    ensures DigitsValue("" + Zeros(p)) == 0
  {
    ZerosAreNothing(p);
    assert "" + Zeros(p) == Zeros(p);
  }

  lemma {:induction false} PointIsFound(a: string, b: string)
    requires AllDigits(a)
    ensures PointAt(a) == |a| && PointAt(a + "." + b) == |a|
    decreases |a|
  {
    if a != "" {
      assert (a + "." + b)[1..] == a[1..] + "." + b;
      PointIsFound(a[1..], b);
    }
  }

  predicate AllNumeric(s: string) { s != "" && forall i :: 0 <= i < |s| ==> IsNumeric(s[i]) }

  lemma WholeReadsBack(whole: nat, p: nat)
    ensures AllNumeric(Decimal(whole)) && Parts(Decimal(whole), p) == (whole, 0)
  {
    var s := Decimal(whole);
    DecimalReadsBack(whole);
    PointIsFound(s, "");
    NothingReadsAsZero(p);
    assert s[..|s|] == s;
  }

  lemma PointedIsNumeric(a: string, b: string)
    requires AllDigits(a) && AllDigits(b)
    ensures AllNumeric(a + "." + b)
  {
  }

  lemma PointedReadsBack(a: string, b: string, v: nat, p: nat)
    requires AllDigits(a) && |b| <= p && DigitsValue(b + Zeros(p - |b|)) == v
    ensures Parts(a + "." + b, p) == (DigitsValue(a), v)
  {
    var s := a + "." + b;
    assert PointAt(s) == |a| by { PointIsFound(a, b); }
    assert s[..|a|] == a;
    assert s[|a| + 1..] == b;
  }

  lemma NumberReadsBack(whole: nat, fraction: nat, p: nat)
    requires Fits(fraction, p)
    ensures AllNumeric(Number(whole, fraction, p)) && Parts(Number(whole, fraction, p), p) == (whole, fraction)
  {
    if fraction == 0 {
      WholeReadsBack(whole, p);
    } else {
      DecimalReadsBack(whole);
      FractionReadsBack(fraction, p);
      PointedReadsBack(Decimal(whole), Fraction(fraction, p), fraction, p);
      PointedIsNumeric(Decimal(whole), Fraction(fraction, p));
    }
  }

  // Round trip of durations

  lemma {:induction false} SpanOfPrefix(a: string, b: string, numeric: bool)
    requires forall i :: 0 <= i < |a| ==> IsNumeric(a[i]) == numeric
    requires b != "" ==> IsNumeric(b[0]) != numeric
    ensures Span(a + b, numeric) == |a|
    decreases |a|
  {
    if a == "" {
      assert a + b == b;
    } else {
      assert (a + b)[1..] == a[1..] + b;
      SpanOfPrefix(a[1..], b, numeric);
    }
  }

  /** A number and its unit are read off the front. */
  lemma ComponentReadsBack(number: string, unit: string, rest: string)
    requires AllNumeric(number)
    requires unit != "" && forall i :: 0 <= i < |unit| ==> !IsNumeric(unit[i])
    requires rest != "" ==> IsNumeric(rest[0])
    ensures ReadUnsigned(number + unit + rest) == InNanoseconds(number, unit) + ReadUnsigned(rest)
  {
    var s := number + unit + rest;
    assert s == number + (unit + rest);
    SpanOfPrefix(number, unit + rest, true);
    SpanOfPrefix(unit, rest, false);
    assert s[|number|..] == unit + rest;
    assert s[..|number|] == number && s[|number|..|number| + |unit|] == unit && s[|number| + |unit|..] == rest;
  }

  lemma LastComponentReadsBack(number: string, unit: string)
    requires AllNumeric(number)
    requires unit != "" && forall i :: 0 <= i < |unit| ==> !IsNumeric(unit[i])
    ensures ReadUnsigned(number + unit) == InNanoseconds(number, unit)
  {
    ComponentReadsBack(number, unit, "");
    assert number + unit + "" == number + unit;
  }

  lemma NineDigitsFit(v: nat)
    ensures v < MICROSECOND ==> Fits(v, 3)
    ensures v < MILLISECOND ==> Fits(v, 6)
    ensures v < SECOND ==> Fits(v, 9)
  {
    var v3 := v / 10 / 10 / 10;
    assert v3 == v / 1000;
    var v6 := v3 / 10 / 10 / 10;
    assert v6 == v3 / 1000;
    var v9 := v6 / 10 / 10 / 10;
    assert v9 == v6 / 1000;
    assert Fits(v, 3) == Fits(v3, 0) && Fits(v, 6) == Fits(v3, 3) && Fits(v, 9) == Fits(v3, 6) by {
      FitsByThree(v, 0);
      FitsByThree(v, 3);
      FitsByThree(v, 6);
    }
    FitsByThree(v3, 0);
    FitsByThree(v3, 3);
    FitsByThree(v6, 0);
  }

  lemma FitsByThree(v: nat, p: nat)
    ensures Fits(v, p + 3) == Fits(v / 10 / 10 / 10, p)
  {
    assert Fits(v, p + 3) == Fits(v / 10, p + 2);
    assert Fits(v / 10, p + 2) == Fits(v / 10 / 10, p + 1);
  }

  lemma SecondsReadBack(d: nat)
    requires d < MINUTE
    ensures ReadUnsigned(Seconds(d)) == d && Seconds(d) != "" && IsNumeric(Seconds(d)[0])
  {
    NineDigitsFit(d % SECOND);
    NumberReadsBack(d / SECOND, d % SECOND, 9);
    LastComponentReadsBack(Number(d / SECOND, d % SECOND, 9), "s");
  }

  lemma MinutesReadBack(m: nat, rest: string)
    requires rest != "" ==> IsNumeric(rest[0])
    ensures ReadUnsigned(Decimal(m) + "m" + rest) == m * MINUTE + ReadUnsigned(rest)
  {
    WholeReadsBack(m, 0);
    ComponentReadsBack(Decimal(m), "m", rest);
  }

  lemma HoursReadBack(h: nat, rest: string)
    requires rest != "" ==> IsNumeric(rest[0])
    ensures ReadUnsigned(Decimal(h) + "h" + rest) == h * HOUR + ReadUnsigned(rest)
  {
    WholeReadsBack(h, 0);
    ComponentReadsBack(Decimal(h), "h", rest);
  }

  lemma SubsecondReadsBack(d: nat)
    requires d < SECOND
    ensures ReadUnsigned(Unsigned(d)) == d
  {
    NineDigitsFit(d % MILLISECOND);
    NineDigitsFit(d % MICROSECOND);
    if d == 0 {
      SecondsReadBack(0);
      assert Seconds(0) == "0s";
    } else if d < MICROSECOND {
      WholeReadsBack(d, 0);
      LastComponentReadsBack(Decimal(d), "ns");
    } else if d < MILLISECOND {
      NumberReadsBack(d / MICROSECOND, d % MICROSECOND, 3);
      LastComponentReadsBack(Number(d / MICROSECOND, d % MICROSECOND, 3), "\U{00B5}s");
    } else {
      NumberReadsBack(d / MILLISECOND, d % MILLISECOND, 6);
      LastComponentReadsBack(Number(d / MILLISECOND, d % MILLISECOND, 6), "ms");
    }
  }

  lemma HoursAndMinutesReadBack(h: nat, m: nat, seconds: nat)
    requires seconds < MINUTE
    ensures ReadUnsigned(Decimal(h) + "h" + (Decimal(m) + "m" + Seconds(seconds))) == h * HOUR + m * MINUTE + seconds
  {
    var rest := Decimal(m) + "m" + Seconds(seconds);
    SecondsReadBack(seconds);
    MinutesReadBack(m, Seconds(seconds));
    assert rest != "" && IsNumeric(rest[0]) by { DecimalReadsBack(m); }
    HoursReadBack(h, rest);
  }

  lemma UnsignedReadsBack(d: nat)
    ensures ReadUnsigned(Unsigned(d)) == d
  {
    if d < SECOND {
      SubsecondReadsBack(d);
    } else if d < MINUTE {
      SecondsReadBack(d);
    } else if d < HOUR {
      SecondsReadBack(d % MINUTE);
      MinutesReadBack(d / MINUTE, Seconds(d % MINUTE));
    } else {
      assert d == d / HOUR * HOUR + d % HOUR / MINUTE * MINUTE + d % MINUTE;
      HoursAndMinutesReadBack(d / HOUR, d % HOUR / MINUTE, d % MINUTE);
    }
  }

  lemma DecimalStarts(n: nat, rest: string)
    ensures Decimal(n) + rest != "" && IsNumeric((Decimal(n) + rest)[0])
  {
    DecimalReadsBack(n);
  }

  lemma NumberStarts(whole: nat, fraction: nat, p: nat, unit: string)
    ensures Number(whole, fraction, p) + unit != "" && IsNumeric((Number(whole, fraction, p) + unit)[0])
  {
    DecimalStarts(whole, "");
  }

  lemma StartsNumeric(d: nat)
    ensures Unsigned(d) != "" && IsNumeric(Unsigned(d)[0])
  {
    if d == 0 {
    } else if d < MICROSECOND {
      DecimalStarts(d, "ns");
    } else if d < MILLISECOND {
      NumberStarts(d / MICROSECOND, d % MICROSECOND, 3, "\U{00B5}s");
    } else if d < SECOND {
      NumberStarts(d / MILLISECOND, d % MILLISECOND, 6, "ms");
    } else if d < MINUTE {
      NumberStarts(d / SECOND, d % SECOND, 9, "s");
    } else if d < HOUR {
      DecimalStarts(d / MINUTE, "m");
    } else {
      DecimalStarts(d / HOUR, "h");
    }
  }

  // Names

  lemma {:induction false} SpanEnds(s: string, numeric: bool)
    ensures forall i :: 0 <= i < Span(s, numeric) ==> IsNumeric(s[i]) == numeric
    ensures Span(s, numeric) < |s| ==> IsNumeric(s[Span(s, numeric)]) != numeric
    decreases |s|
  {
    if s != "" && IsNumeric(s[0]) == numeric {
      SpanEnds(s[1..], numeric);
    }
  }

  /** The first number of a string and its unit. */
  lemma FirstComponent(s: string) returns (number: string, unit: string, more: string)
    requires s != "" && IsNumeric(s[0]) && !IsNumeric(s[|s| - 1])
    ensures s == number + unit + more
    ensures AllNumeric(number) && unit != "" && (forall i :: 0 <= i < |unit| ==> !IsNumeric(unit[i]))
    ensures more != "" ==> IsNumeric(more[0]) && more[|more| - 1] == s[|s| - 1]
  {
    var n := Span(s, true);
    SpanEnds(s, true);
    var tail := s[n..];
    var u := Span(tail, false);
    SpanEnds(tail, false);
    number, unit, more := s[..n], tail[..u], tail[u..];
  }

  /** Reading adds up over a cut between a unit and the next number. */
  lemma {:induction false} ReadingAddsUp(s: string, rest: string)
    requires s != "" && IsNumeric(s[0]) && !IsNumeric(s[|s| - 1])
    requires rest != "" && IsNumeric(rest[0])
    ensures ReadUnsigned(s + rest) == ReadUnsigned(s) + ReadUnsigned(rest)
    decreases |s|
  {
    var number, unit, more := FirstComponent(s);
    assert s + rest == number + unit + (more + rest);
    assert ReadUnsigned(s) == InNanoseconds(number, unit) + ReadUnsigned(more)
      by { ComponentReadsBack(number, unit, more); }
    assert ReadUnsigned(s + rest) == InNanoseconds(number, unit) + ReadUnsigned(more + rest) by {
      ComponentReadsBack(number, unit, more + rest);
    }
    if more == "" {
      assert more + rest == rest;
    } else {
      ReadingAddsUp(more, rest);
    }
  }

  lemma ZeroSecondsAreNothing()
    ensures ReadUnsigned("0s") == 0
  {
    SecondsReadBack(0);
    assert Seconds(0) == "0s";
  }

  lemma WholeMinutesEnd(s: string)
    requires EndsWith(s, "m0s")
    ensures s == s[..|s| - 2] + "0s" && s[..|s| - 2][|s| - 3] == 'm'
  {
    assert s[|s| - 3..][0] == 'm' && s[|s| - 3..][1] == '0' && s[|s| - 3..][2] == 's';
  }

  /** Dropping the zero seconds of whole minutes does not change what a name says. */
  lemma TrimmedReadsBack(s: string)
    requires s != "" && IsNumeric(s[0])
    ensures ReadUnsigned(Trimmed(s)) == ReadUnsigned(s) && Trimmed(s) != "" && Trimmed(s)[0] == s[0]
  {
    if EndsWith(s, "m0s") {
      WholeMinutesEnd(s);
      ZeroSecondsAreNothing();
      ReadingAddsUp(s[..|s| - 2], "0s");
    }
  }

  lemma SignStays(s: string)
    ensures Trimmed("-" + s) == "-" + Trimmed(s)
  {
    var signed := "-" + s;
    if |s| >= 3 {
      assert signed[|signed| - 3..] == s[|s| - 3..];
      assert signed[..|signed| - 2] == "-" + s[..|s| - 2];
    } else if |s| == 2 {
      assert signed[|signed| - 3..][0] == '-';
    }
  }

  lemma EndOfWholeMinutes(s: string)
    ensures EndsWith(s, "m0s") ==> |s| >= 3 && s[|s| - 3] == 'm' && s[|s| - 2] == '0'
  {
    if EndsWith(s, "m0s") { assert s[|s| - 3..][0] == 'm' && s[|s| - 3..][1] == '0'; }
  }

  /** A number with its unit never ends like whole minutes. */
  lemma OneUnitIsNotTrimmed(number: string, unit: string)
    requires AllNumeric(number) && unit in ["ns", "\U{00B5}s", "ms", "s"]
    ensures Trimmed(number + unit) == number + unit
  {
    var s := number + unit;
    EndOfWholeMinutes(s);
    if unit == "s" {
      if |number| > 1 { assert s[|s| - 3] == number[|number| - 2]; }
    } else {
      assert s[|s| - 2] == unit[0];
    }
  }

  lemma SomeSecondsShow(seconds: nat)
    requires 0 < seconds < MINUTE
    ensures AllNumeric(Number(seconds / SECOND, seconds % SECOND, 9))
    ensures Number(seconds / SECOND, seconds % SECOND, 9) != "0"
  {
    NineDigitsFit(seconds % SECOND);
    NumberReadsBack(seconds / SECOND, seconds % SECOND, 9);
    WholeReadsBack(0, 9);
    assert Decimal(0) == "0";
  }

  /** Seconds after minutes are dropped exactly if there are none. */
  lemma ZeroSecondsAreTrimmed(before: string, seconds: nat)
    requires seconds < MINUTE
    ensures Trimmed(before + "m" + Seconds(seconds)) == before + "m" + if seconds == 0 then "" else Seconds(seconds)
  {
    var s := before + "m" + Seconds(seconds);
    if seconds == 0 {
      assert Seconds(0) == "0s";
      assert s[|s| - 3..] == "m0s" && s[..|s| - 2] == before + "m";
    } else {
      var number := Number(seconds / SECOND, seconds % SECOND, 9);
      SomeSecondsShow(seconds);
      EndOfWholeMinutes(s);
      assert s[|s| - 2] == number[|number| - 1];
      if |number| > 1 { assert s[|s| - 3] == number[|number| - 2]; }
    }
  }

  lemma ShortIsNotTrimmed(d: nat)
    requires d < MINUTE
    ensures Trimmed(Unsigned(d)) == Unsigned(d)
  {
    if d == 0 {
    } else if d < MICROSECOND {
      WholeReadsBack(d, 0);
      OneUnitIsNotTrimmed(Decimal(d), "ns");
    } else if d < MILLISECOND {
      NineDigitsFit(d % MICROSECOND);
      NumberReadsBack(d / MICROSECOND, d % MICROSECOND, 3);
      OneUnitIsNotTrimmed(Number(d / MICROSECOND, d % MICROSECOND, 3), "\U{00B5}s");
    } else if d < SECOND {
      NineDigitsFit(d % MILLISECOND);
      NumberReadsBack(d / MILLISECOND, d % MILLISECOND, 6);
      OneUnitIsNotTrimmed(Number(d / MILLISECOND, d % MILLISECOND, 6), "ms");
    } else {
      SomeSecondsShow(d);
      OneUnitIsNotTrimmed(Number(d / SECOND, d % SECOND, 9), "s");
    }
  }

  /** What comes before the minutes' unit. */
  function Minutes(d: nat): string {
    if d < HOUR then Decimal(d / MINUTE) else Decimal(d / HOUR) + "h" + Decimal(d % HOUR / MINUTE)
  }

  lemma MinutesFollowHours(hours: string, minutes: string, seconds: string)
    ensures hours + "h" + (minutes + "m" + seconds) == (hours + "h" + minutes) + "m" + seconds
  {
  }

  lemma LongHasMinutes(d: nat)
    requires d >= MINUTE
    ensures Unsigned(d) == Minutes(d) + "m" + Seconds(d % MINUTE)
  {
    if d >= HOUR { MinutesFollowHours(Decimal(d / HOUR), Decimal(d % HOUR / MINUTE), Seconds(d % MINUTE)); }
  }

  lemma UnsignedIsTrimmed(d: nat)
    ensures Trimmed(Unsigned(d)) ==
              if d < MINUTE then Unsigned(d)
              else Minutes(d) + "m" + if d % MINUTE == 0 then "" else Seconds(d % MINUTE)
  {
    if d < MINUTE {
      ShortIsNotTrimmed(d);
    } else {
      LongHasMinutes(d);
      ZeroSecondsAreTrimmed(Minutes(d), d % MINUTE);
    }
  }

  lemma UnsignedDropsZeroSeconds(d: nat)
    ensures d != 0 && d % MINUTE == 0 ==> Trimmed(Unsigned(d)) + "0s" == Unsigned(d)
    ensures d == 0 || d % MINUTE != 0 ==> Trimmed(Unsigned(d)) == Unsigned(d)
  {
    UnsignedIsTrimmed(d);
    if d >= MINUTE {
      LongHasMinutes(d);
      var minutes := Minutes(d) + "m";
      assert Seconds(0) == "0s";
      assert minutes + "" == minutes;
    }
  }

  /** The sign changes nothing about whole minutes. */
  lemma WholeMinutesHaveASign(d: int)
    requires d < 0
    ensures d % MINUTE == 0 <==> -d % MINUTE == 0
  {
  }

  /** Nothing but the zero seconds of whole minutes is missing from a name, and they always are. */
  lemma OnlyZeroSecondsAreDropped(d: int)
    ensures d != 0 && d % MINUTE == 0 ==> Name(d) + "0s" == Printed(d)
    ensures d == 0 || d % MINUTE != 0 ==> Name(d) == Printed(d)
  {
    if d < 0 {
      WholeMinutesHaveASign(d);
      SignedDropsZeroSeconds(-d, Unsigned(-d));
    } else {
      UnsignedDropsZeroSeconds(d);
    }
  }

  lemma SignedDropsZeroSeconds(d: nat, s: string)
    requires s == Unsigned(d)
    ensures d != 0 && d % MINUTE == 0 ==> Trimmed("-" + s) + "0s" == "-" + s
    ensures d == 0 || d % MINUTE != 0 ==> Trimmed("-" + s) == "-" + s
  {
    UnsignedDropsZeroSeconds(d);
    SignComesFirst(s, "0s");
  }

  lemma SignComesFirst(s: string, end: string)
    ensures Trimmed("-" + s) == "-" + Trimmed(s) && Trimmed("-" + s) + end == "-" + (Trimmed(s) + end)
  {
    SignStays(s);
    assert ("-" + Trimmed(s)) + end == "-" + (Trimmed(s) + end);
  }

  lemma WholeSecondsAreNamed(n: nat)
    requires 0 < n < 60
    ensures Name(n * SECOND) == Decimal(n) + "s"
  {
    var d := n * SECOND;
    assert SECOND <= d < MINUTE && d / SECOND == n && d % SECOND == 0;
    ShortIsNotTrimmed(d);
  }

  lemma WholeMinutesAreNamed(n: nat)
    requires 0 < n < 60
    ensures Name(n * MINUTE) == Decimal(n) + "m"
  {
    var d := n * MINUTE;
    assert MINUTE <= d < HOUR && d / MINUTE == n && d % MINUTE == 0;
    UnsignedIsTrimmed(d);
    assert Minutes(d) + "m" + "" == Decimal(n) + "m";
  }

  lemma WholeHoursAreNamed(n: nat)
    requires 0 < n
    ensures Name(n * HOUR) == Decimal(n) + "h0m"
  {
    var d := n * HOUR;
    assert d >= HOUR && d / HOUR == n && d % HOUR == 0 && d % MINUTE == 0;
    UnsignedIsTrimmed(d);
    assert Decimal(0) == "0";
    assert Minutes(d) + "m" + "" == Decimal(n) + "h0m";
  }

  /** The delays of the ladder as it comes: 5s, 30s, 5m. */
  lemma DefaultDelaysAreNamed()
    ensures Name(5 * SECOND) == "5s" && Name(30 * SECOND) == "30s" && Name(5 * MINUTE) == "5m"
  {
    WholeSecondsAreNamed(5);
    WholeSecondsAreNamed(30);
    WholeMinutesAreNamed(5);
    assert Decimal(5) == "5" && Decimal(30) == Decimal(3) + "0" && Decimal(3) == "3";
  }

  /** Reading the name of a delay yields the delay. */
  lemma NameReadsBack(d: int)
    ensures Read(Name(d)) == d
  {
    var u := if d < 0 then -d else d;
    UnsignedReadsBack(u);
    StartsNumeric(u);
    TrimmedReadsBack(Unsigned(u));
    if d < 0 {
      SignStays(Unsigned(u));
      assert ("-" + Trimmed(Unsigned(u)))[1..] == Trimmed(Unsigned(u));
    }
  }

  /** Different delays have different names. */
  lemma NamesAreDistinct(d: int, e: int)
    ensures Name(d) == Name(e) <==> d == e
  {
    NameReadsBack(d);
    NameReadsBack(e);
  }
}
