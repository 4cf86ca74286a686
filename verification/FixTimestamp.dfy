/** Stamping a rendered frame with its send time. */
module FixTimestamp {
  import opened Basics
  import opened Wrappers
  import opened Decimals
  import opened Delimited
  import opened Calendar
  import opened FixFrame
  import opened FixOffsets
  import opened FixPatch
  import opened FixTemplate

  const FIX_TIMESTAMP_LEN: nat := 21

  lemma SumStep(s: string, i: nat)
    requires i < |s|
    ensures Sum(s[..i + 1]) == Sum(s[..i]) + s[i] as int
  {
    assert s[..i + 1] == s[..i] + [s[i]];
    SumConcat(s[..i], [s[i]]);
    assert Sum([s[i]]) == s[i] as int;
  }

  /** Copies a text over part of the buffer and adds up the bytes replaced. */
  method CopyOver(bytes: array<char>, off: nat, ts: array<char>) returns (oldSum: nat, newSum: nat)
    requires off + ts.Length <= bytes.Length && bytes != ts
    modifies bytes
    ensures bytes[..] == Overwrite(old(bytes[..]), off, ts[..])
    ensures oldSum == Sum(old(bytes[off..off + ts.Length])) && newSum == Sum(ts[..])
  {
    ghost var was, text := bytes[..], ts[..];
    ghost var slot := was[off..off + ts.Length];
    oldSum, newSum := 0, 0;
    for i := 0 to ts.Length
      invariant ts[..] == text
      invariant bytes[..] == was[..off] + text[..i] + was[off + i..]
      invariant oldSum == Sum(slot[..i]) && newSum == Sum(text[..i])
    {
      SumStep(slot, i);
      SumStep(text, i);
      assert bytes[off + i] == bytes[..][off + i] == slot[i];
      assert text[..i + 1] == text[..i] + [text[i]];
      oldSum := oldSum + bytes[off + i] as int;
      newSum := newSum + ts[i] as int;
      bytes[off + i] := ts[i];
    }
    assert text[..ts.Length] == text && slot[..ts.Length] == slot;
  }

  /** Writes the send time into tag 52 and moves the checksum; a frame without the tag is left alone. */
  method PatchTimestamp(bytes: array<char>, offset: Option<nat>, now: nat) returns (ghost t: Stamp)
    requires now <= U64_MAX
    requires offset.Some? ==> && offset.value + FIX_TIMESTAMP_LEN + 4 <= bytes.Length
                              && AllDigits(bytes[bytes.Length - 4..bytes.Length - 1])
    modifies bytes
    ensures IsStamp(t) && t.date.year < 10000 && Millis(t) == now / 1_000_000
    ensures offset.None? ==> bytes[..] == old(bytes[..])
    ensures offset.Some? ==> bytes[..] == Stamped(old(bytes[..]), offset.value, Text(t))
  {
    hide Text;
    hide Millis;
    hide Decode;
    hide NatOf;
    hide LowDigits;
    var ts;
    ts, t := FormatFixTimestamp(now);
    if offset.Some? {
      ghost var was := bytes[..];
      var off, chk := offset.value, bytes.Length - 4;
      var o, n := CopyOver(bytes, off, ts);
      ghost var mid := bytes[..];
      CheckUntouched(was, off, Text(t));
      assert bytes[chk..chk + 3] == mid[chk..chk + 3];
      ApplyChecksumDelta(bytes, chk, o, n);
    }
  }

  /** A buffer with a new time and the checksum moved by the bytes exchanged. */
  ghost function Stamped(was: string, off: nat, ts: string): string
    requires off + |ts| + 4 <= |was| && AllDigits(was[|was| - 4..|was| - 1])
  {
    var mid := Overwrite(was, off, ts);
    Overwrite(mid, |was| - 4,
              LowDigits(Moved(NatOf(was[|was| - 4..|was| - 1]), Sum(was[off..off + |ts|]), Sum(ts)), 3))
  }

  lemma CheckUntouched(was: string, off: nat, ts: string)
    requires off + |ts| + 4 <= |was|
    ensures Overwrite(was, off, ts)[|was| - 4..|was| - 4 + 3] == was[|was| - 4..|was| - 1]
  {
  }

  /** Stamping a sealed text seals the stamped text: its checksum is right again. */
  lemma StampedSealed(head: string, off: nat, ts: string)
    requires off + |ts| <= |head|
    ensures var was := Sealed(head);
            && off + |ts| + 4 <= |was| && AllDigits(was[|was| - 4..|was| - 1])
            && Stamped(was, off, ts) == Sealed(Overwrite(head, off, ts))
  {
    hide Sum;
    hide LowDigits;
    hide NatOf;
    hide Moved;
    hide Pad;
    var was, head' := Sealed(head), Overwrite(head, off, ts);
    var a, m, b := head[..off], head[off..off + |ts|], head[off + |ts|..];
    assert head == a + m + b;
    OverwriteMiddle(a, m, b, ts);
    TrailerParts(head, Sum(head));
    OverwriteHead(head, Trailer(Sum(head)), off, ts);
    Reseal(head, head', Sum(m), Sum(ts));
  }

  /** A rendered frame with a new time is the frame of the new time. */
  lemma StampedFrame(l: Line, v: Values, ts: string)
    requires |v.time| == |ts|
    ensures var was, off := Frame(l, v), Offset(l, v, TimeSlot);
            && off + |ts| + 4 <= |was| && AllDigits(was[|was| - 4..|was| - 1])
            && Stamped(was, off, ts) == Frame(l, v.(time := ts))
  {
    hide Fields;
    hide Wire;
    hide Offset;
    hide Stamped;
    hide Sum;
    WriteFull(l, v, TimeSlot, ts);
    StampedSealed(Wire(Fields(l, v)), Offset(l, v, TimeSlot), ts);
  }
}
