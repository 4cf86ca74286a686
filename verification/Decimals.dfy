/** Decimal text: natural width, zero-padded, and parsed back. */
module Decimals {
  import opened Basics
  import opened Wrappers

  predicate IsDigit(c: char) {
    '0' <= c <= '9'
  }

  function Digit(d: nat): (c: char)
    requires d < 10
    ensures IsDigit(c) && c as int - '0' as int == d
  {
    ('0' as int + d) as char
  }

  function Value(c: char): (d: nat)
    requires IsDigit(c)
    ensures d < 10 && Digit(d) == c
  {
    c as int - '0' as int
  }

  ghost predicate AllDigits(s: string) {
    forall i :: 0 <= i < |s| ==> IsDigit(s[i])
  }

  /** The shortest decimal text of a number. */
  function Dec(n: nat): (s: string)
    ensures s != [] && AllDigits(s)
  {
    if n < 10 then [Digit(n)] else Dec(n / 10) + [Digit(n % 10)]
  }

  function Zeros(k: nat): (s: string)
    ensures |s| == k && forall i :: 0 <= i < k ==> s[i] == '0'
  {
    seq(k, i => '0')
  }

  /** Zero-padded to at least `width` digits; a longer number is not cut. */
  function Pad(n: nat, width: nat): (s: string)
    ensures AllDigits(s) && |s| >= width && s != []
  {
    if |Dec(n)| >= width then Dec(n) else Zeros(width - |Dec(n)|) + Dec(n)
  }

  /** The `width` lowest digits; higher digits are dropped. */
  function LowDigits(n: nat, width: nat): (s: string)
    ensures |s| == width && AllDigits(s)
  {
    if width == 0 then [] else LowDigits(n / 10, width - 1) + [Digit(n % 10)]
  }

  function Pow10(k: nat): (p: nat)
    ensures p > 0
  {
    if k == 0 then 1 else 10 * Pow10(k - 1)
  }

  /** The number of digits is the least power of ten that covers the number. */
  lemma {:induction false} WidthBounds(n: nat)
    ensures n < Pow10(|Dec(n)|)
    ensures |Dec(n)| > 1 ==> Pow10(|Dec(n)| - 1) <= n
  {
    if n < 10 {
      assert Pow10(1) == 10 * Pow10(0);
    } else {
      WidthBounds(n / 10);
      var w := |Dec(n / 10)|;
      assert |Dec(n)| == w + 1;
      assert Pow10(w + 1) == 10 * Pow10(w);
      if w == 1 {
        assert Pow10(1) == 10 * Pow10(0);
      } else {
        assert Pow10(w) == 10 * Pow10(w - 1);
      }
    }
  }

  lemma {:induction false} Pow10Monotone(a: nat, b: nat)
    requires a <= b
    ensures Pow10(a) <= Pow10(b)
  {
    if a < b {
      Pow10Monotone(a, b - 1);
    }
  }

  /** A number fits in a width exactly when it is below that power of ten. */
  lemma FitsWidth(n: nat, width: nat)
    requires width > 0
    ensures |Dec(n)| <= width <==> n < Pow10(width)
  {
    WidthBounds(n);
    if |Dec(n)| <= width {
      Pow10Monotone(|Dec(n)|, width);
    } else {
      Pow10Monotone(width, |Dec(n)| - 1);
    }
  }

  lemma {:induction false} LowDigitsPad(n: nat, width: nat)
    requires |Dec(n)| <= width
    ensures LowDigits(n, width) == Zeros(width - |Dec(n)|) + Dec(n)
  {
    if n < 10 {
      LowDigitsZero(width - 1);
      assert Dec(n) == [Digit(n)] && n / 10 == 0 && n % 10 == n;
    } else {
      LowDigitsPad(n / 10, width - 1);
      ConcatAssoc(Zeros(width - |Dec(n)|), Dec(n / 10), [Digit(n % 10)]);
    }
  }

  lemma {:induction false} LowDigitsZero(width: nat)
    ensures LowDigits(0, width) == Zeros(width)
  {
    if width > 0 {
      LowDigitsZero(width - 1);
      assert Zeros(width - 1) + ['0'] == Zeros(width);
    }
  }

  /** Writing the low digits is padding, as long as the number fits. */
  lemma LowDigitsIsPad(n: nat, width: nat)
    requires |Dec(n)| <= width
    ensures LowDigits(n, width) == Pad(n, width) && |Pad(n, width)| == width
  {
    LowDigitsPad(n, width);
    if |Dec(n)| == width {
      assert Zeros(0) + Dec(n) == Dec(n);
    }
  }

  /** The value of a digit string. */
  function NatOf(s: string): nat
    requires AllDigits(s)
  {
    if s == [] then 0 else 10 * NatOf(s[..|s| - 1]) + Value(s[|s| - 1])
  }

  function ParseNat(s: string): Option<nat> {
    if s != [] && forall i :: 0 <= i < |s| ==> IsDigit(s[i]) then Some(NatOf(s)) else None
  }

  lemma {:induction false} NatOfDec(n: nat)
    ensures NatOf(Dec(n)) == n
  {
    if n >= 10 {
      NatOfDec(n / 10);
      assert Dec(n)[..|Dec(n)| - 1] == Dec(n / 10);
    }
  }

  lemma {:induction false} NatOfZeros(k: nat, s: string)
    requires AllDigits(s)
    ensures AllDigits(Zeros(k) + s) && NatOf(Zeros(k) + s) == NatOf(s)
    decreases |s|, k
  {
    var t := Zeros(k) + s;
    if s != [] {
      NatOfZeros(k, s[..|s| - 1]);
      assert t[..|t| - 1] == Zeros(k) + s[..|s| - 1];
    } else if k > 0 {
      NatOfZeros(k - 1, s);
      assert t[..|t| - 1] == Zeros(k - 1) + s;
    }
  }

  /** Reading back a printed number gives the number. */
  lemma ParseDec(n: nat)
    ensures ParseNat(Dec(n)) == Some(n)
  {
    NatOfDec(n);
  }

  lemma ParsePad(n: nat, width: nat)
    ensures ParseNat(Pad(n, width)) == Some(n)
  {
    NatOfDec(n);
    if |Dec(n)| < width {
      NatOfZeros(width - |Dec(n)|, Dec(n));
    }
  }

  /** Different numbers print differently. */
  lemma DecInjective(m: nat, n: nat)
    requires Dec(m) == Dec(n)
    ensures m == n
  {
    NatOfDec(m);
    NatOfDec(n);
  }

  // ----- Fixed widths -----

  lemma LowTwo(n: nat)
    requires n < 100
    ensures LowDigits(n, 2) == [Digit(n / 10), Digit(n % 10)]
  {
    hide LowDigits;
    var a := n / 10;
    assert a % 10 == a;
    LowStep(a, 0);
    LowStep(n, 1);
  }

  lemma LowThree(n: nat)
    requires n < 1000
    ensures LowDigits(n, 3) == [Digit(n / 100), Digit(n / 10 % 10), Digit(n % 10)]
  {
    hide LowDigits;
    assert n / 10 / 10 == n / 100;
    LowTwo(n / 10);
    LowStep(n, 2);
  }

  lemma LowStep(n: nat, k: nat)
    ensures LowDigits(n, k + 1) == LowDigits(n / 10, k) + [Digit(n % 10)]
    ensures LowDigits(n, 0) == []
  {
  }

  lemma ThreeDigits(n: nat)
    requires n < 1000
    ensures LowDigits(n, 3) == Pad(n, 3) == [Digit(n / 100), Digit(n / 10 % 10), Digit(n % 10)]
  {
    hide LowDigits;
    hide Pad;
    assert Pow10(1) == 10 && Pow10(2) == 100 && Pow10(3) == 1000;
    FitsWidth(n, 3);
    LowDigitsIsPad(n, 3);
    LowThree(n);
  }

  lemma LowFour(n: nat)
    requires n < 10000
    ensures LowDigits(n, 4) == [Digit(n / 1000), Digit(n / 100 % 10), Digit(n / 10 % 10), Digit(n % 10)]
  {
    hide LowDigits;
    assert n / 10 / 100 == n / 1000 && n / 10 / 10 == n / 100;
    LowThree(n / 10);
    LowStep(n, 3);
  }

  lemma {:induction false} NatOfLow(n: nat, width: nat)
    requires n < Pow10(width)
    ensures NatOf(LowDigits(n, width)) == n
  {
    if width > 0 {
      NatOfLow(n / 10, width - 1);
      var s := LowDigits(n, width);
      assert s[..width - 1] == LowDigits(n / 10, width - 1);
    }
  }

  // ----- Byte order -----

  /** The strict lexicographic order of bytes. */
  predicate Lex(a: string, b: string) {
    b != [] && (a == [] || a[0] < b[0] || (a[0] == b[0] && Lex(a[1..], b[1..])))
  }

  lemma {:induction false} LexSelf(a: string)
    ensures !Lex(a, a)
  {
    if a != [] {
      LexSelf(a[1..]);
    }
  }

  /** Texts of equal length compare by their parts, the front part first. */
  lemma {:induction false} LexConcat(a: string, a': string, b: string, b': string)
    requires |a| == |a'|
    ensures Lex(a + b, a' + b') <==> Lex(a, a') || (a == a' && Lex(b, b'))
  {
    if a == [] {
      assert a + b == b && a' + b' == b';
    } else {
      LexConcat(a[1..], a'[1..], b, b');
      assert (a + b)[1..] == a[1..] + b && (a' + b')[1..] == a'[1..] + b';
      assert a == [a[0]] + a[1..] && a' == [a'[0]] + a'[1..];
    }
  }

  /** Padded numbers compare as numbers. */
  lemma {:induction false} LexLow(m: nat, n: nat, width: nat)
    requires m < Pow10(width) && n < Pow10(width)
    ensures Lex(LowDigits(m, width), LowDigits(n, width)) <==> m < n
    ensures LowDigits(m, width) == LowDigits(n, width) <==> m == n
  {
    NatOfLow(m, width);
    NatOfLow(n, width);
    if width > 0 {
      LexLow(m / 10, n / 10, width - 1);
      var x, y := Digit(m % 10), Digit(n % 10);
      LexConcat(LowDigits(m / 10, width - 1), LowDigits(n / 10, width - 1), [x], [y]);
      assert Lex([x], [y]) <==> x < y;
    }
  }
}
