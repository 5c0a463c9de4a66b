/** The duration entry field: how a duration is written, and how what is typed is read. */
module DurationText {
  import opened Containers
  import opened Text

  const NANOS: nat := 1_000_000_000

  datatype Duration = Duration(secs: nat, nanos: nat)

  predicate Proper(d: Duration) {
    d.secs < U64 && d.nanos < NANOS
  }

  function SaturatingSub(a: nat, b: nat): nat {
    if a >= b then a - b else 0
  }

  function Format(d: Duration, showMillis: bool): string {
    var hrs := d.secs / 3600;
    var mins := SaturatingSub(d.secs / 60, 60 * hrs);
    var justSecs := SaturatingSub(SaturatingSub(d.secs, 60 * mins), 3600 * hrs);
    var millis := d.nanos / 1_000_000;
    (if hrs > 0 then Padded(hrs, 2) + ":" else "")
    + Padded(mins, 2) + ":" + Padded(justSecs, 2)
    + (if showMillis then "." + Padded(millis, 3) else "")
  }

  // ---- reading ----

  /** The components between colons, last first. */
  function ReverseSplit(s: string): (r: seq<string>)
    ensures |r| >= 1
  {
    if s == "" then [""]
    else
      var r := ReverseSplit(s[..|s| - 1]);
      if s[|s| - 1] == ':' then [""] + r else [r[0] + [s[|s| - 1]]] + r[1..]
  }

  function IndexOf(s: string, c: char, i: nat): (k: nat)
    requires i <= |s|
    ensures i <= k <= |s| && (k < |s| ==> s[k] == c) && forall j :: i <= j < k ==> s[j] != c
    decreases |s| - i
  {
    if i == |s| || s[i] == c then i else IndexOf(s, c, i + 1)
  }

  /** What digits after the point are worth. */
  function Fraction(part: string): real
    requires Digits(part)
  {
    NumberOf(part) as real / Power(10, |part|) as real
  }

  /** A decimal number: digits, with or without a point, at least one digit, exactly. */
  function ParseUnsigned(s: string): Option<real> {
    var k := IndexOf(s, '.', 0);
    var whole := s[..k];
    var part := if k < |s| then s[k + 1..] else "";
    if !Digits(whole) || !Digits(part) || whole + part == "" then None
    else Some(NumberOf(whole) as real + Fraction(part))
  }

  function ParseReal(s: string): Option<real> {
    if s != "" && (s[0] == '-' || s[0] == '+') then
      match ParseUnsigned(s[1..])
      case None => None
      case Some(v) => Some(if s[0] == '-' then -v else v)
    else ParseUnsigned(s)
  }

  /** Digits, perhaps after a plus, that fit 64 bits. */
  function ParseU64(s: string): Option<nat> {
    var t := if s != "" && s[0] == '+' then s[1..] else s;
    if t == "" || !Digits(t) || NumberOf(t) >= U64 then None else Some(NumberOf(t))
  }

  /** Casting to an unsigned integer of the given bound saturates. */
  function Cast(v: real, bound: nat): nat
    requires bound >= 1
  {
    if v < 0.0 then 0 else if v.Floor >= bound then bound - 1 else v.Floor
  }

  function Trunc(v: real): real {
    if v < 0.0 then -((-v).Floor as real) else v.Floor as real
  }

  function SecondsAndMillis(v: real): Duration {
    Duration(Cast(Trunc(v), U64), Cast((v - Trunc(v)) * 1000.0, 0x1_0000_0000) * 1_000_000)
  }

  function Parsed(s: string): Option<Duration> {
    var cs := ReverseSplit(s);
    match ParseReal(cs[0])
    case None => None
    case Some(v) =>
      var mins := if |cs| > 1 then ParseU64(cs[1]) else Some(0);
      var hrs := if |cs| > 2 then ParseU64(cs[2]) else Some(0);
      var base := SecondsAndMillis(v);
      if mins.None? || hrs.None? then None
      else Some(Duration(base.secs + mins.value * 60 + hrs.value * 3600, base.nanos))
  }

  lemma SplitNotEmpty(s: string)
    ensures |ReverseSplit(s)| >= 1
  {
  }

  method Parse(st: string) returns (d: Option<Duration>)
    ensures d == Parsed(st)
  {
    hide ReverseSplit, ParseReal, ParseU64, Cast;
    var components := ReverseSplit(st);
    assert |components| >= 1 by { SplitNotEmpty(st); }
    var secs, nanos := 0, 0;
    var secsAndMillis := ParseReal(components[0]);
    if secsAndMillis.None? {
      return None;
    }
    var s := Trunc(secsAndMillis.value);
    var ms := (secsAndMillis.value - s) * 1000.0;
    secs := secs + Cast(s, U64);
    nanos := nanos + Cast(ms, 0x1_0000_0000) * 1_000_000;
    if |components| > 1 {
      var mins := ParseU64(components[1]);
      if mins.None? {
        return None;
      }
      secs := secs + mins.value * 60;
    }
    if |components| > 2 {
      var hrs := ParseU64(components[2]);
      if hrs.None? {
        return None;
      }
      secs := secs + hrs.value * 3600;
    }
    d := Some(Duration(secs, nanos));
  }

  // ---- facts about components ----

  predicate NoColon(s: string) {
    ':' !in s
  }

  lemma {:induction false} ReverseSplitPlain(s: string)
    requires NoColon(s)
    ensures ReverseSplit(s) == [s]
  {
    if s != "" {
      ReverseSplitPlain(s[..|s| - 1]);
      assert s[..|s| - 1] + [s[|s| - 1]] == s;
    }
  }

  lemma {:induction false} ReverseSplitLast(a: string, b: string)
    requires NoColon(b)
    ensures ReverseSplit(a + ":" + b) == [b] + ReverseSplit(a)
  {
    var s := a + ":" + b;
    if b == "" {
      assert s[..|s| - 1] == a;
    } else {
      assert s[..|s| - 1] == a + ":" + b[..|b| - 1];
      ReverseSplitLast(a, b[..|b| - 1]);
      assert b[..|b| - 1] + [b[|b| - 1]] == b;
      assert ([b[..|b| - 1]] + ReverseSplit(a))[1..] == ReverseSplit(a);
    }
  }

  lemma DigitsNoColon(s: string)
    requires Digits(s)
    ensures NoColon(s)
  {
  }

  lemma {:induction false} NoPoint(s: string, t: string, i: nat)
    requires Digits(s) && i <= |s|
    ensures IndexOf(s + t, '.', i) == if t != "" && t[0] == '.' then |s| else IndexOf(s + t, '.', |s|)
    decreases |s| - i
  {
    if i < |s| {
      NoPoint(s, t, i + 1);
    }
  }

  lemma NoFraction()
    ensures Fraction("") == 0.0
  {
    assert Power(10, 0) == 1 && NumberOf("") == 0;
  }

  /** Digits alone are read as their number. */
  lemma ReadsWhole(s: string)
    requires Digits(s) && s != ""
    ensures ParseReal(s) == Some(NumberOf(s) as real)
  {
    assert s + "" == s && s[..|s|] == s;
    assert IndexOf(s, '.', 0) == |s| by { NoPoint(s, "", 0); }
    NoFraction();
    hide IndexOf, Fraction, NumberOf;
    assert ParseReal(s) == ParseUnsigned(s);
  }

  lemma Thousand()
    ensures Power(10, 3) == 1000
  {
    assert Power(10, 1) == 10 && Power(10, 2) == 100;
  }

  lemma Quotient(n: real, p: real)
    requires p == 1000.0
    ensures n / p == n / 1000.0
  {
  }

  lemma Thousandths(t: string)
    requires Digits(t) && |t| == 3
    ensures Fraction(t) == NumberOf(t) as real / 1000.0
  {
    Thousand();
    Quotient(NumberOf(t) as real, Power(10, |t|) as real);
  }

  lemma PointAfter(s: string, t: string)
    requires Digits(s)
    ensures var v := s + "." + t; IndexOf(v, '.', 0) == |s| < |v| && v[..|s|] == s && v[|s| + 1..] == t
  {
    assert s + "." + t == s + ("." + t);
    NoPoint(s, "." + t, 0);
  }

  lemma ReadsPoint(s: string, t: string)
    requires Digits(s) && Digits(t) && s + t != ""
    ensures ParseReal(s + "." + t) == Some(NumberOf(s) as real + Fraction(t)) && NoColon(s + "." + t)
  {
    hide IndexOf, Fraction, NumberOf;
    var v := s + "." + t;
    PointAfter(s, t);
    DigitsNoColon(s);
    DigitsNoColon(t);
    assert v[0] == if s == "" then '.' else s[0];
    assert ParseReal(v) == ParseUnsigned(v);
  }

  /** Three digits after the point are thousandths. */
  lemma ReadsMillis(s: string, t: string)
    requires Digits(s) && s != "" && Digits(t) && |t| == 3
    ensures ParseReal(s + "." + t) == Some(NumberOf(s) as real + NumberOf(t) as real / 1000.0)
  {
    hide ParseReal, Fraction, NumberOf;
    ReadsPoint(s, t);
    Thousandths(t);
  }

  lemma ReadsU64(n: nat, w: nat)
    requires n < U64
    ensures ParseU64(Padded(n, w)) == Some(n)
  {
    NumberOfPadded(n, w);
  }

  /** Whole seconds and thousandths come apart again. */
  lemma SplitsMillis(s: nat, m: nat)
    requires s < U64 && m < 1000
    ensures SecondsAndMillis(s as real + m as real / 1000.0) == Duration(s, m * 1_000_000)
  {
    var v := s as real + m as real / 1000.0;
    assert v.Floor == s;
    assert (v - Trunc(v)) * 1000.0 == m as real;
  }

  function HoursText(hrs: nat): string {
    if hrs > 0 then Padded(hrs, 2) + ":" else ""
  }

  function SecondsText(d: Duration, showMillis: bool): string {
    Padded(d.secs % 60, 2) + (if showMillis then "." + Padded(d.nanos / 1_000_000, 3) else "")
  }

  lemma FormatParts(d: Duration, showMillis: bool)
    ensures Format(d, showMillis)
            == (HoursText(d.secs / 3600) + Padded(d.secs / 60 % 60, 2)) + ":" + SecondsText(d, showMillis)
  {
    var hrs := d.secs / 3600;
    assert hrs == d.secs / 60 / 60;
    assert SaturatingSub(d.secs / 60, 60 * hrs) == d.secs / 60 % 60;
    assert SaturatingSub(SaturatingSub(d.secs, 60 * (d.secs / 60 % 60)), 3600 * hrs) == d.secs % 60;
  }

  lemma SecondsRead(d: Duration, showMillis: bool)
    requires Proper(d)
    ensures NoColon(SecondsText(d, showMillis))
    ensures ParseReal(SecondsText(d, showMillis)).Some?
    ensures SecondsAndMillis(ParseReal(SecondsText(d, showMillis)).value)
            == Duration(d.secs % 60, if showMillis then d.nanos / 1_000_000 * 1_000_000 else 0)
  {
    var s, m := d.secs % 60, d.nanos / 1_000_000;
    NumberOfPadded(s, 2);
    DigitsNoColon(Padded(s, 2));
    if showMillis {
      Thousand();
      FewDigits(m, 3);
      NumberOfPadded(m, 3);
      DigitsNoColon(Padded(m, 3));
      ReadsMillis(Padded(s, 2), Padded(m, 3));
      assert SecondsText(d, true) == Padded(s, 2) + "." + Padded(m, 3);
      SplitsMillis(s, m);
    } else {
      assert SecondsText(d, false) == Padded(s, 2);
      ReadsWhole(Padded(s, 2));
      SplitsMillis(s, 0);
    }
  }

  lemma ComponentsOf(d: Duration, showMillis: bool)
    requires Proper(d)
    ensures ReverseSplit(Format(d, showMillis))
            == [SecondsText(d, showMillis), Padded(d.secs / 60 % 60, 2)]
              + (if d.secs / 3600 > 0 then [Padded(d.secs / 3600, 2)] else [])
  {
    var hrs, mm := d.secs / 3600, Padded(d.secs / 60 % 60, 2);
    FormatParts(d, showMillis);
    SecondsRead(d, showMillis);
    ReverseSplitLast(HoursText(hrs) + mm, SecondsText(d, showMillis));
    DigitsNoColon(mm);
    if hrs > 0 {
      DigitsNoColon(Padded(hrs, 2));
      assert HoursText(hrs) + mm == Padded(hrs, 2) + ":" + mm;
      ReverseSplitLast(Padded(hrs, 2), mm);
      ReverseSplitPlain(Padded(hrs, 2));
    } else {
      assert HoursText(hrs) + mm == mm;
      ReverseSplitPlain(mm);
    }
  }

  lemma TwoDigits(n: nat)
    requires n < 60
    ensures |Padded(n, 2)| == 2
  {
    assert Power(10, 1) == 10 && Power(10, 2) == 100;
    FewDigits(n, 2);
  }

  /** Minutes and seconds take two digits, milliseconds three; hours are shown from one hour on. */
  lemma ShownWidths(d: Duration, showMillis: bool)
    requires Proper(d)
    ensures
      var cs := ReverseSplit(Format(d, showMillis));
      && |cs| == (if d.secs >= 3600 then 3 else 2)
      && (d.secs >= 3600 ==> |cs[2]| >= 2)
      && |cs[1]| == 2
      && (if showMillis then |cs[0]| == 6 && cs[0][2] == '.' else |cs[0]| == 2)
  {
    hide Format, ReverseSplit, Padded;
    ComponentsOf(d, showMillis);
    TwoDigits(d.secs / 60 % 60);
    TwoDigits(d.secs % 60);
    MillisWidth(d.nanos / 1_000_000);
  }

  lemma MillisWidth(m: nat)
    requires m < 1000
    ensures |Padded(m, 3)| == 3
  {
    Thousand();
    FewDigits(m, 3);
  }

  lemma PartsAddUp(secs: nat)
    ensures secs % 60 + secs / 60 % 60 * 60 + secs / 3600 * 3600 == secs
  {
    assert secs / 3600 == secs / 60 / 60;
  }

  /** What is written is read back: the seconds exactly, the milliseconds when they are shown. */
  lemma RoundTrip(d: Duration, showMillis: bool)
    requires Proper(d)
    ensures Parsed(Format(d, showMillis))
            == Some(Duration(d.secs, if showMillis then d.nanos / 1_000_000 * 1_000_000 else 0))
  {
    hide ReverseSplit, ParseReal, ParseU64, SecondsAndMillis, Format, SecondsText, Padded;
    ComponentsOf(d, showMillis);
    SecondsRead(d, showMillis);
    ReadsU64(d.secs / 60 % 60, 2);
    ReadsU64(d.secs / 3600, 2);
    PartsAddUp(d.secs);
  }

  // ---- what typed digits are read as ----

  /** Digits on both sides of the point: taken together, they count the last one's decimals. */
  lemma ReadsDecimals(s: string, t: string)
    requires Digits(s) && Digits(t) && s + t != ""
    ensures ParseReal(s + "." + t).Some? && Digits(s + t)
    ensures ParseReal(s + "." + t).value * Power(10, |t|) as real == NumberOf(s + t) as real
  {
    hide ParseReal, NumberOf, Power;
    ReadsPoint(s, t);
    NumberOfConcat(s, t);
    SharedDenominator(NumberOf(s), NumberOf(t), Power(10, |t|));
  }

  /** A number is read from digits with at most one point and at least one digit, and from nothing else. */
  lemma ReadableIff(x: string)
    ensures ParseUnsigned(x).Some? <==>
            && (forall i :: 0 <= i < |x| ==> Digit(x[i]) || x[i] == '.')
            && (forall i, j :: 0 <= i < j < |x| ==> Digit(x[i]) || Digit(x[j]))
            && (exists i :: 0 <= i < |x| && Digit(x[i]))
  {
    var k := IndexOf(x, '.', 0);
    var whole, part := x[..k], if k < |x| then x[k + 1..] else "";
    assert forall i :: 0 <= i < |x| && i != k ==> x[i] == if i < k then whole[i] else part[i - k - 1];
    assert forall i :: 0 <= i < |whole| ==> whole[i] == x[i];
    assert forall i :: 0 <= i < |part| ==> part[i] == x[k + 1 + i];
    assert k < |x| ==> !Digit(x[k]);
    assert whole + part != "" ==> Digits(whole) && Digits(part) ==>
      exists i :: 0 <= i < |x| && Digit(x[i]) by {
      if whole != "" { assert whole[0] == x[0]; } else if part != "" { assert part[0] == x[k + 1]; }
    }
  }

  // arithmetic of quotients

  lemma MulMonotone(a: nat, b: nat, p: nat)
    requires a <= b
    ensures a * p <= b * p
  {
  }

  lemma QuotientIs(n: nat, p: nat, q: nat)
    requires p >= 1 && q * p <= n < q * p + p
    ensures n / p == q
  {
    var d, r := n / p, n % p;
    assert n == d * p + r && d * p + p == (d + 1) * p && q * p + p == (q + 1) * p;
    if d < q {
      MulMonotone(d + 1, q, p);
    } else if d > q {
      MulMonotone(q + 1, d, p);
    }
  }

  lemma FractionTimes(b: real, p: real)
    requires p > 0.0
    ensures b / p * p == b
  {
  }

  lemma MulAtLeast(x: real, y: real)
    requires x >= 1.0 && y >= 0.0
    ensures x * y >= y
  {
    assert x * y == y + (x - 1.0) * y;
  }

  lemma MulSign(x: real, y: real)
    requires x < 0.0 && y > 0.0
    ensures x * y < 0.0
  {
  }

  lemma BelowOne(b: real, p: real)
    requires 0.0 <= b < p
    ensures 0.0 <= b / p < 1.0
  {
    FractionTimes(b, p);
    var f := b / p;
    if f >= 1.0 {
      MulAtLeast(f, p);
    } else if f < 0.0 {
      MulSign(f, p);
    }
  }

  lemma AddTimes(x: real, f: real, p: real)
    ensures (x + f) * p == x * p + f * p
  {
  }

  lemma SharedDenominator(a: nat, b: nat, p: nat)
    requires p >= 1
    ensures (a as real + b as real / p as real) * p as real == (a * p + b) as real
  {
    FractionTimes(b as real, p as real);
    AddTimes(a as real, b as real / p as real, p as real);
    assert (a * p) as real == a as real * p as real;
  }

  lemma SameProduct(x: real, y: real, p: real)
    requires p > 0.0 && x * p == y * p
    ensures x == y
  {
    FractionTimes(x * p, p);
    assert x * p / p == x && y * p / p == y;
  }

  lemma FloorOfQuotient(n: nat, p: nat)
    requires p >= 1
    ensures (n as real / p as real).Floor == n / p
  {
    var q, r := n / p, n % p;
    assert n == q * p + r;
    SharedDenominator(q, r, p);
    FractionTimes(n as real, p as real);
    SameProduct(n as real / p as real, q as real + r as real / p as real, p as real);
    BelowOne(r as real, p as real);
  }

  lemma TimesThousand(b: real, p: real)
    requires p > 0.0
    ensures b / p * 1000.0 == b * 1000.0 / p
  {
    FractionTimes(b, p);
    FractionTimes(b * 1000.0, p);
    assert (b / p * 1000.0) * p == (b / p * p) * 1000.0;
    SameProduct(b / p * 1000.0, b * 1000.0 / p, p);
  }

  /** Whole seconds saturate at 64 bits; the rest is cut off to milliseconds. */
  lemma SplitsDecimals(a: nat, b: nat, p: nat)
    requires b < p
    ensures SecondsAndMillis(a as real + b as real / p as real)
            == Duration(if a < U64 then a else U64 - 1, b * 1000 / p * 1_000_000)
  {
    var f := b as real / p as real;
    BelowOne(b as real, p as real);
    TimesThousand(b as real, p as real);
    FloorOfQuotient(b * 1000, p);
    ThousandBelow(b, p);
    SplitsAt(a, f, b * 1000 / p);
  }

  lemma SplitsAt(a: nat, f: real, ms: nat)
    requires 0.0 <= f < 1.0 && (f * 1000.0).Floor == ms < 1000
    ensures SecondsAndMillis(a as real + f) == Duration(if a < U64 then a else U64 - 1, ms * 1_000_000)
  {
    var v := a as real + f;
    assert v.Floor == a && Trunc(v) == a as real && v - Trunc(v) == f;
  }

  lemma ThousandBelow(b: nat, p: nat)
    requires b < p
    ensures b * 1000 / p < 1000
  {
    var q, r := b * 1000 / p, b * 1000 % p;
    assert b * 1000 == q * p + r;
    if q >= 1000 {
      MulMonotone(1000, q, p);
    }
  }

  lemma SplitsFraction(n: nat, t: string)
    requires Digits(t)
    ensures SecondsAndMillis(n as real + Fraction(t))
            == Duration(if n < U64 then n else U64 - 1, NumberOf(t) * 1000 / Power(10, |t|) * 1_000_000)
  {
    hide SecondsAndMillis, NumberOf, Power;
    NumberOfConcat("", t);
    SplitsDecimals(n, NumberOf(t), Power(10, |t|));
  }

  lemma ParsedPlain(v: string)
    requires NoColon(v) && ParseReal(v).Some?
    ensures Parsed(v) == Some(SecondsAndMillis(ParseReal(v).value))
  {
    hide ParseReal, SecondsAndMillis;
    ReverseSplitPlain(v);
  }

  /** What `s.t` is read as, for any number of digits before and after the point. */
  lemma ReadsSeconds(s: string, t: string)
    requires Digits(s) && Digits(t) && s + t != ""
    ensures Parsed(s + "." + t)
            == Some(Duration(if NumberOf(s) < U64 then NumberOf(s) else U64 - 1,
                             NumberOf(t) * 1000 / Power(10, |t|) * 1_000_000))
  {
    hide *;
    ReadsPoint(s, t);
    ParsedPlain(s + "." + t);
    SplitsFraction(NumberOf(s), t);
  }

  /** One digit after the point counts tenths of a second, two count hundredths, and of more than three
      only the first three count. */
  lemma ReadsTenths(s: string, t: string)
    requires Digits(s) && Digits(t) && s + t != ""
    ensures Parsed(s + "." + t).Some?
    ensures Parsed(s + "." + t).value.nanos ==
            if |t| == 0 then 0
            else if |t| == 1 then NumberOf(t) * 100_000_000
            else if |t| == 2 then NumberOf(t) * 10_000_000
            else NumberOf(t[..3]) * 1_000_000
  {
    hide Parsed;
    ReadsSeconds(s, t);
    FirstDecimals(t);
  }

  lemma FirstDecimals(t: string)
    requires Digits(t)
    ensures NumberOf(t) * 1000 / Power(10, |t|) ==
            if |t| == 0 then 0
            else if |t| == 1 then NumberOf(t) * 100
            else if |t| == 2 then NumberOf(t) * 10
            else NumberOf(t[..3])
  {
    hide NumberOf;
    if |t| >= 3 {
      assert t == t[..3] + t[3..];
      NumberOfConcat(t[..3], t[3..]);
      PowerSplits(|t| - 3);
      CutsOff(NumberOf(t[..3]), NumberOf(t[3..]), Power(10, |t| - 3));
    } else {
      NumberOfConcat("", t);
      assert Power(10, 1) == 10 && Power(10, 2) == 100;
    }
  }

  lemma PowerSplits(n: nat)
    ensures Power(10, n + 3) == 1000 * Power(10, n)
  {
    assert Power(10, n + 3) == 10 * Power(10, n + 2);
    assert Power(10, n + 2) == 10 * Power(10, n + 1);
  }

  lemma CutsOff(a: nat, b: nat, p: nat)
    requires b < p
    ensures (a * p + b) * 1000 / (1000 * p) == a
  {
    assert (a * p + b) * 1000 == a * (1000 * p) + b * 1000;
    QuotientIs((a * p + b) * 1000, 1000 * p, a);
  }

  /** A zero more after the point changes nothing. */
  lemma TrailingZero(s: string, t: string)
    requires Digits(s) && Digits(t) && s + t != ""
    ensures Parsed(s + "." + t + "0") == Parsed(s + "." + t)
  {
    hide Parsed, NumberOf, Power;
    assert s + "." + t + "0" == s + "." + (t + "0");
    ReadsSeconds(s, t);
    ZeroAfter(t);
    ReadsSeconds(s, t + "0");
    TenOverTen(NumberOf(t) * 1000, Power(10, |t|));
  }

  lemma ZeroAfter(t: string)
    requires Digits(t)
    ensures Digits(t + "0") && NumberOf(t + "0") == 10 * NumberOf(t) && Power(10, |t + "0"|) == 10 * Power(10, |t|)
  {
    assert (t + "0")[..|t|] == t;
  }

  lemma TenOverTen(n: nat, p: nat)
    requires p >= 1
    ensures 10 * n / (10 * p) == n / p
  {
    var q, r := n / p, n % p;
    assert n == q * p + r && 10 * n == q * (10 * p) + 10 * r;
    QuotientIs(10 * n, 10 * p, q);
  }

  /** Nothing negative is read: what follows a minus counts for nothing. */
  lemma NegativeReadsZero(x: string)
    requires NoColon(x) && ParseUnsigned(x).Some?
    ensures Parsed("-" + x) == Some(Duration(0, 0))
  {
    assert ("-" + x)[1..] == x;
    ReverseSplitPlain("-" + x);
    hide IndexOf, Fraction, NumberOf, ReverseSplit;
    var v := ParseUnsigned(x).value;
    assert v >= 0.0 by { UnsignedIsPositive(x); }
    hide ParseUnsigned;
    assert ParseReal("-" + x) == Some(-v);
  }

  lemma UnsignedIsPositive(x: string)
    requires ParseUnsigned(x).Some?
    ensures ParseUnsigned(x).value >= 0.0
  {
    hide IndexOf, NumberOf;
    var k := IndexOf(x, '.', 0);
    var part := if k < |x| then x[k + 1..] else "";
    assert Fraction(part) >= 0.0;
  }

  /** Minutes and hours, in digits that fit 64 bits, are added; any that do not fit refuse the whole. */
  lemma ReadsThreeParts(h: string, m: string, s: string, t: string)
    requires Digits(h) && h != "" && Digits(m) && m != "" && Digits(s) && Digits(t) && s + t != ""
    ensures Parsed(s + "." + t).Some?
    ensures Parsed(h + ":" + m + ":" + (s + "." + t)) ==
            if NumberOf(h) < U64 && NumberOf(m) < U64 then
              Some(Duration(Parsed(s + "." + t).value.secs + NumberOf(m) * 60 + NumberOf(h) * 3600,
                            Parsed(s + "." + t).value.nanos))
            else None
  {
    hide ParseReal, SecondsAndMillis, NumberOf, ParseU64, ReverseSplit, Fraction;
    var v := s + "." + t;
    ReadsPoint(s, t);
    ParsedPlain(v);
    DigitsNoColon(h);
    DigitsNoColon(m);
    ReverseSplitLast(h + ":" + m, v);
    ReverseSplitLast(h, m);
    ReverseSplitPlain(h);
    ReadsDigits(m);
    ReadsDigits(h);
  }

  lemma ReadsDigits(m: string)
    requires Digits(m) && m != ""
    ensures ParseU64(m) == if NumberOf(m) < U64 then Some(NumberOf(m)) else None
  {
    assert m[0] != '+';
  }

  // ---- what is shown and what is ignored ----

  /** Two durations are shown alike exactly when they agree to the millisecond. */
  lemma SameTextIff(a: Duration, b: Duration)
    requires Proper(a) && Proper(b)
    ensures Format(a, true) == Format(b, true) <==> a.secs == b.secs && a.nanos / 1_000_000 == b.nanos / 1_000_000
  {
    RoundTrip(a, true);
    RoundTrip(b, true);
  }

  lemma FirstThreeCount(a: string, b: string)
    requires |ReverseSplit(a)| >= 3 && |ReverseSplit(b)| >= 3
    requires ReverseSplit(a)[..3] == ReverseSplit(b)[..3]
    ensures Parsed(a) == Parsed(b)
  {
    var x, y := ReverseSplit(a), ReverseSplit(b);
    assert x[0] == x[..3][0] && x[1] == x[..3][1] && x[2] == x[..3][2];
    assert y[0] == y[..3][0] && y[1] == y[..3][1] && y[2] == y[..3][2];
  }

  /** Components before the hours are not looked at. */
  lemma DaysIgnored(days: string, hours: string, mins: string, secs: string)
    requires NoColon(hours) && NoColon(mins) && NoColon(secs)
    ensures Parsed(days + ":" + hours + ":" + mins + ":" + secs) == Parsed(hours + ":" + mins + ":" + secs)
  {
    ReverseSplitLast(days + ":" + hours + ":" + mins, secs);
    ReverseSplitLast(days + ":" + hours, mins);
    ReverseSplitLast(days, hours);
    ReverseSplitLast(hours + ":" + mins, secs);
    ReverseSplitLast(hours, mins);
    ReverseSplitPlain(hours);
    hide ReverseSplit, Parsed;
    FirstThreeCount(days + ":" + hours + ":" + mins + ":" + secs, hours + ":" + mins + ":" + secs);
  }
}
