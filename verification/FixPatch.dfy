/** Patching digits and the checksum of a frame in place. */
module FixPatch {
  import opened Basics
  import opened Decimals
  import opened Delimited
  import opened FixFrame

  // ----- In-place writes -----

  lemma DigitBefore(text: string, off: nat, i: nat, width: nat)
    requires 0 < i <= width && off + width <= |text|
    ensures text[off + i - 1..off + width] == [text[off + i - 1]] + text[off + i..off + width]
    ensures Sum(text[off + i - 1..off + width]) == text[off + i - 1] as int + Sum(text[off + i..off + width])
  {
    var s := text[off + i - 1..off + width];
    assert s[1..] == text[off + i..off + width];
  }

  /** The lowest `width - i` digits are written; `v` holds the digits to come. */
  ghost predicate Wrote(was: string, now: string, off: nat, width: nat, i: nat, value: nat, v: nat, o: nat, n: nat) {
    && i <= width && off + width <= |was| == |now|
    && LowDigits(v, i) + now[off + i..off + width] == LowDigits(value, width)
    && now[..off + i] == was[..off + i] && now[off + width..] == was[off + width..]
    && o == Sum(was[off + i..off + width]) && n == Sum(now[off + i..off + width])
  }

  lemma WroteStep(was: string, now: string, off: nat, width: nat, i: nat, value: nat, v: nat, o: nat, n: nat)
    requires Wrote(was, now, off, width, i, value, v, o, n) && i > 0
    ensures now[off + i - 1] == was[off + i - 1]
    ensures var b := Digit(v % 10);
            Wrote(was, now[off + i - 1 := b], off, width, i - 1, value, v / 10,
                  o + now[off + i - 1] as int, n + b as int)
  {
    var b := Digit(v % 10);
    var now' := now[off + i - 1 := b];
    var tail := now[off + i..off + width];
    assert now[off + i - 1] == now[..off + i][off + i - 1];
    DigitBefore(was, off, i, width);
    DigitBefore(now', off, i, width);
    assert now'[off + i..off + width] == tail;
    ConcatAssoc(LowDigits(v / 10, i - 1), [b], tail);
    assert now'[..off + i - 1] == now[..off + i][..off + i - 1];
    assert was[..off + i - 1] == was[..off + i][..off + i - 1];
    assert now'[off + width..] == now[off + width..];
  }

  /** Overwrites `width` decimal digits, last digit first, and adds up the bytes replaced. */
  method WritePadded(buf: array<char>, off: nat, width: nat, value: nat) returns (oldSum: nat, newSum: nat)
    requires off + width <= buf.Length
    modifies buf
    ensures buf[..] == Overwrite(old(buf[..]), off, LowDigits(value, width))
    ensures oldSum == Sum(old(buf[off..off + width])) && newSum == Sum(LowDigits(value, width))
  {
    ghost var was := buf[..];
    oldSum, newSum := 0, 0;
    var v: nat, i: nat := value, width;
    while i > 0
      invariant Wrote(was, buf[..], off, width, i, value, v, oldSum, newSum)
    {
      WroteStep(was, buf[..], off, width, i, value, v, oldSum, newSum);
      hide Wrote;
      ghost var now := buf[..];
      i := i - 1;
      var b := Digit(v % 10);
      oldSum := oldSum + buf[off + i] as int;
      newSum := newSum + b as int;
      buf[off + i] := b;
      v := v / 10;
      assert buf[..] == now[off + i := b];
    }
    assert buf[..] == buf[..off] + buf[off..off + width] + buf[off + width..];
    assert was[off..off + width] == old(buf[off..off + width]);
  }

  /** The checksum digits move by the difference of two byte sums. */
  function Moved(check: nat, oldSum: nat, newSum: nat): nat {
    (check + 256 + newSum % 256 - oldSum % 256) % 256
  }

  method ApplyChecksumDelta(buf: array<char>, off: nat, oldSum: nat, newSum: nat)
    requires off + 3 <= buf.Length && AllDigits(buf[off..off + 3])
    modifies buf
    ensures buf[..] == Overwrite(old(buf[..]), off, LowDigits(Moved(NatOf(old(buf[off..off + 3])), oldSum, newSum), 3))
  {
    ghost var was := buf[..];
    ghost var digits := buf[off..off + 3];
    assert digits == [buf[off], buf[off + 1], buf[off + 2]];
    assert IsDigit(digits[0]) && IsDigit(digits[1]) && IsDigit(digits[2]);
    var d1, d2, d3 := Value(buf[off]), Value(buf[off + 1]), Value(buf[off + 2]);
    var check := d1 * 100 + d2 * 10 + d3;
    NatOfThree(digits);
    var moved := (check + 256 + newSum % 256 - oldSum % 256) % 256;
    ThreeDigits(moved);
    hide LowDigits;
    hide NatOf;
    buf[off] := Digit(moved / 100);
    buf[off + 1] := Digit(moved / 10 % 10);
    buf[off + 2] := Digit(moved % 10);
    assert buf[..off] == was[..off] && buf[off + 3..] == was[off + 3..];
    assert buf[..] == buf[..off] + buf[off..off + 3] + buf[off + 3..];
  }

  lemma NatOfThree(s: string)
    requires |s| == 3 && AllDigits(s)
    ensures NatOf(s) == Value(s[0]) * 100 + Value(s[1]) * 10 + Value(s[2])
  {
    assert s[..2][..1] == s[..1] && s[..1][..0] == [];
    assert NatOf(s[..1]) == Value(s[0]);
    assert NatOf(s[..2]) == 10 * NatOf(s[..1]) + Value(s[1]);
  }

  // ----- A sealed frame -----

  /** A text closed by the checksum of its bytes. */
  function Sealed(head: string): string {
    head + Trailer(Sum(head))
  }

  lemma MovedIsSum(sum0: nat, sum: nat, o: nat, n: nat)
    requires sum + o == sum0 + n
    ensures Moved(sum0 % 256, o, n) == sum % 256
  {
  }

  lemma TrailerParts(head: string, sum: nat)
    ensures |Trailer(sum)| == 7
    ensures (head + Trailer(sum))[|head| + 3..|head| + 6] == CheckText(sum)
    ensures |CheckText(sum)| == 3 && NatOf(CheckText(sum)) == sum % 256
  {
    ThreeDigits(sum % 256);
    ParsePad(sum % 256, 3);
    hide Pad;
    var all := head + Trailer(sum);
    assert all[|head| + 3] == CheckText(sum)[0];
  }

  /** Moving the old checksum by the bytes exchanged seals the new text. */
  lemma Reseal(head0: string, head: string, o: nat, n: nat)
    requires |head| == |head0| && Sum(head) + o == Sum(head0) + n
    ensures var text := head + Trailer(Sum(head0));
            && |text| == |head| + 7
            && text[|head| + 3..|head| + 6] == CheckText(Sum(head0))
            && NatOf(CheckText(Sum(head0))) == Sum(head0) % 256
            && Overwrite(text, |head| + 3, LowDigits(Moved(Sum(head0) % 256, o, n), 3)) == Sealed(head)
  {
    TrailerParts(head, Sum(head0));
    TrailerParts(head, Sum(head));
    MovedIsSum(Sum(head0), Sum(head), o, n);
    ThreeDigits(Sum(head) % 256);
    hide LowDigits;
    hide Sum;
    hide Pad;
    hide Moved;
    Retrail(head, CheckText(Sum(head0)), CheckText(Sum(head)));
  }

  lemma Retrail(head: string, c0: string, c: string)
    requires |c0| == 3 && |c| == 3
    ensures Overwrite(head + ("10=" + c0 + [SOH]), |head| + 3, c) == head + ("10=" + c + [SOH])
  {
  }
}
