/** Decimal numerals. */
module Text {
  predicate Digit(c: char) {
    '0' <= c <= '9'
  }

  predicate Digits(s: string) {
    forall i :: 0 <= i < |s| ==> Digit(s[i])
  }

  function DigitOf(n: nat): (c: char)
    requires n < 10
    ensures Digit(c)
  {
    ('0' as int + n) as char
  }

  function Decimal(n: nat): (s: string)
    ensures |s| >= 1 && Digits(s)
  {
    if n < 10 then [DigitOf(n)] else Decimal(n / 10) + [DigitOf(n % 10)]
  }

  /** The number a string of digits stands for; leading zeros change nothing. */
  function NumberOf(s: string): nat
    requires Digits(s)
  {
    if s == "" then 0 else 10 * NumberOf(s[..|s| - 1]) + (s[|s| - 1] as int - '0' as int)
  }

  lemma {:induction false} NumberOfDecimal(n: nat)
    ensures NumberOf(Decimal(n)) == n
  {
    var s := Decimal(n);
    if n >= 10 {
      NumberOfDecimal(n / 10);
      assert s[..|s| - 1] == Decimal(n / 10);
    } else {
      assert s[..|s| - 1] == "";
    }
  }

  /** At least w characters, zeros in front. */
  function Padded(n: nat, w: nat): (s: string)
    ensures |s| >= 1 && |s| >= w && Digits(s)
  {
    ZeroFilled(Decimal(n), w)
  }

  function ZeroFilled(s: string, w: nat): (r: string)
    requires Digits(s)
    ensures |r| >= |s| && |r| >= w && Digits(r)
    ensures |s| <= w ==> |r| == w
    decreases w - |s|
  {
    if |s| >= w then s else ZeroFilled("0" + s, w)
  }

  lemma {:induction false} LeadingZero(s: string)
    requires Digits(s)
    ensures Digits("0" + s) && NumberOf("0" + s) == NumberOf(s)
  {
    if s == "" {
      assert ("0" + s)[..0] == "";
    } else {
      LeadingZero(s[..|s| - 1]);
      assert ("0" + s)[..|s|] == "0" + s[..|s| - 1];
    }
  }

  lemma {:induction false} NumberOfZeroFilled(s: string, w: nat)
    requires Digits(s)
    ensures NumberOf(ZeroFilled(s, w)) == NumberOf(s)
    decreases w - |s|
  {
    if |s| < w {
      LeadingZero(s);
      NumberOfZeroFilled("0" + s, w);
    }
  }

  lemma NumberOfPadded(n: nat, w: nat)
    ensures NumberOf(Padded(n, w)) == n
  {
    NumberOfDecimal(n);
    NumberOfZeroFilled(Decimal(n), w);
  }

  lemma {:induction false} FewDigits(n: nat, w: nat)
    requires w >= 1 && n < Power(10, w)
    ensures |Decimal(n)| <= w
    decreases w
  {
    if n >= 10 {
      FewDigits(n / 10, w - 1);
    }
  }

  /** A numeral continued by further digits. */
  lemma {:induction false} NumberOfConcat(s: string, t: string)
    requires Digits(s) && Digits(t)
    ensures Digits(s + t) && NumberOf(s + t) == NumberOf(s) * Power(10, |t|) + NumberOf(t)
    ensures NumberOf(t) < Power(10, |t|)
  {
    if t == "" {
      assert s + t == s;
    } else {
      var init := t[..|t| - 1];
      NumberOfConcat(s, init);
      assert (s + t)[..|s + t| - 1] == s + init;
      assert NumberOf(s) * Power(10, |t|) == 10 * (NumberOf(s) * Power(10, |init|));
    }
  }

  function Power(b: nat, e: nat): (p: nat)
    ensures b >= 1 ==> p >= 1
  {
    if e == 0 then 1 else b * Power(b, e - 1)
  }
}
