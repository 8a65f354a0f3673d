/** Decimal text of non-negative integers as JavaScript produces and reads it:
    `String(n)`, `String.prototype.padStart(width, '0')` and `Number(s)` on a
    string of digits. */
module Decimal {
  import opened Wrappers

  predicate IsDigit(c: char) {
    '0' <= c <= '9'
  }

  predicate AllDigits(s: string) {
    forall i :: 0 <= i < |s| ==> IsDigit(s[i])
  }

  function DigitChar(d: nat): (c: char)
    requires d < 10
    ensures IsDigit(c) && c as int - '0' as int == d
  {
    ('0' as int + d) as char
  }

  /** `String(n)`: the shortest decimal numeral of `n`, without leading zeros. */
  function Digits(n: nat): (s: string)
    ensures 1 <= |s| && AllDigits(s)
    ensures s[0] == '0' ==> n == 0
  {
    if n < 10 then [DigitChar(n)] else Digits(n / 10) + [DigitChar(n % 10)]
  }

  /** The number a string of decimal digits denotes (leading zeros allowed). */
  function Value(s: string): (n: nat)
    requires AllDigits(s)
  {
    if s == [] then 0 else 10 * Value(s[..|s| - 1]) + (s[|s| - 1] as int - '0' as int)
  }

  /** `Number(s)`, defined here only on non-empty strings of digits; anything
      else is `None` (JavaScript gives `NaN`, or `0` for the empty string). */
  function Number(s: string): (r: Option<nat>)
    ensures r.Some? <==> |s| > 0 && AllDigits(s)
  {
    if |s| > 0 && AllDigits(s) then Some(Value(s)) else None
  }

  /** `s.padStart(width, fill)`: prefix copies of `fill` up to `width` characters;
      a string already that long is left alone. */
  function PadStart(s: string, width: nat, fill: char): (r: string)
    ensures |r| == if |s| >= width then |s| else width
    ensures r[|r| - |s|..] == s
    ensures forall i :: 0 <= i < |r| - |s| ==> r[i] == fill
  {
    if |s| >= width then s else seq(width - |s|, _ => fill) + s
  }

  lemma DigitsLength(n: nat)
    ensures n < 1000 ==> |Digits(n)| <= 3
  {
    if 10 <= n < 1000 {
      assert |Digits(n)| == |Digits(n / 10)| + 1;
      if n / 10 >= 10 {
        assert |Digits(n / 10)| == |Digits(n / 100)| + 1;
      }
    }
  }

  /** Reading back the numeral of `n` gives `n`. */
  lemma {:induction false} ValueOfDigits(n: nat)
    ensures Value(Digits(n)) == n
  {
    if n >= 10 {
      var s := Digits(n);
      assert s[..|s| - 1] == Digits(n / 10);
      ValueOfDigits(n / 10);
    }
  }

  /** Leading zeros do not change the value. */
  lemma {:induction false} ValueOfZeroPadded(k: nat, s: string)
    requires AllDigits(s)
    ensures AllDigits(seq(k, _ => '0') + s)
    ensures Value(seq(k, _ => '0') + s) == Value(s)
  {
    var z := seq(k, _ => '0');
    if s == [] {
      assert z + s == z;
      ZerosValue(k);
    } else {
      var init := s[..|s| - 1];
      assert (z + s)[..|z + s| - 1] == z + init;
      ValueOfZeroPadded(k, init);
    }
  }

  lemma {:induction false} ZerosValue(k: nat)
    ensures AllDigits(seq(k, _ => '0'))
    ensures Value(seq(k, _ => '0')) == 0
  {
    if k > 0 {
      assert seq(k, _ => '0')[..k - 1] == seq(k - 1, _ => '0');
      ZerosValue(k - 1);
    }
  }

  /** A zero-padded numeral still reads back as the number it was made from, so
      different numbers never get the same padded numeral. */
  lemma PaddedDigitsValue(n: nat, width: nat)
    ensures AllDigits(PadStart(Digits(n), width, '0'))
    ensures Value(PadStart(Digits(n), width, '0')) == n
  {
    var s := Digits(n);
    ValueOfDigits(n);
    if |s| < width {
      ValueOfZeroPadded(width - |s|, s);
    }
  }

  lemma PaddedDigitsInjective(m: nat, n: nat, width: nat)
    requires PadStart(Digits(m), width, '0') == PadStart(Digits(n), width, '0')
    ensures m == n
  {
    PaddedDigitsValue(m, width);
    PaddedDigitsValue(n, width);
  }

  /** `prefix` followed by `n` zero-padded to three digits, the shape of
      `P001` and `ACC001`. */
  function Numbered(prefix: string, n: nat): (s: string)
    ensures |s| >= |prefix| + 3
    ensures forall i :: 0 <= i < |prefix| ==> s[i] == prefix[i]
    ensures n < 1000 ==> |s| == |prefix| + 3
  {
    DigitsLength(n);
    prefix + PadStart(Digits(n), 3, '0')
  }

  /** Numbers written with the same prefix never collide. */
  lemma NumberedInjective(prefix: string, m: nat, n: nat)
    ensures Numbered(prefix, m) == Numbered(prefix, n) ==> m == n
  {
    DropPrefix(prefix, PadStart(Digits(m), 3, '0'));
    DropPrefix(prefix, PadStart(Digits(n), 3, '0'));
    if Numbered(prefix, m) == Numbered(prefix, n) {
      PaddedDigitsInjective(m, n, 3);
    }
  }

  lemma DropPrefix(p: string, t: string)
    ensures (p + t)[|p|..] == t
  {
  }
}
