/** Reusable FIX frames patched in place, and the cache that holds them. */
module FixTemplate {
  import opened Basics
  import opened Wrappers
  import opened Decimals
  import opened Delimited
  import opened FixFrame
  import opened FixOffsets
  import opened FixPatch

  const SMP_ID_NONE: nat := 0xffff_ffff

  /** One order to render. */
  datatype Args = Args(number: nat, qty: nat, price: nat, buy: bool, smp: nat)

  /** Machine words; the message number is the sequence number plus one. */
  predicate InRange(a: Args) {
    a.number < U64_MAX && a.qty <= U64_MAX && a.price <= U64_MAX && a.smp <= SMP_ID_NONE
  }

  function SideText(buy: bool): string {
    if buy then "1" else "2"
  }

  function SmpText(smp: nat): Option<string> {
    if smp == SMP_ID_NONE then None else Some(Pad(smp, SMP_ID_WIDTH))
  }

  /** The values of a frame built from scratch. */
  function Scratch(a: Args): Values {
    Values(Pad(a.number + 1, FIX_NUM_WIDTH), PLACEHOLDER, Dec(a.number), SideText(a.buy),
           Pad(a.qty, FIX_NUM_WIDTH), Pad(a.price, FIX_NUM_WIDTH), SmpText(a.smp))
  }

  /** The from-scratch render of an order. */
  function Render(l: Line, a: Args): string {
    Finalize(l.version, Wire(BodyFields(l, Scratch(a))))
  }

  // ----- The template as a value -----

  /** The values baked into the buffer and the self-match id they were written for. */
  datatype Baked = Baked(values: Values, smp: nat)

  predicate NeedsRebuild(w: Baked, a: Args) {
    |Dec(a.number)| != |w.values.clSeq| || (a.smp == SMP_ID_NONE) != w.values.smp.None?
  }

  /** A new self-match id overwrites the first three digits of the old text. */
  function PatchSmp(baked: Option<string>, id: nat, smp: nat): Option<string> {
    match baked
    case None => None
    case Some(text) =>
      if smp == id || |text| < SMP_ID_WIDTH then Some(text)
      else Some(LowDigits(smp, SMP_ID_WIDTH) + text[SMP_ID_WIDTH..])
  }

  function PatchBaked(w: Baked, a: Args): Baked {
    if NeedsRebuild(w, a) then Baked(Scratch(a), a.smp)
    else Baked(Scratch(a).(smp := PatchSmp(w.values.smp, w.smp, a.smp)), if w.values.smp.None? then w.smp else a.smp)
  }

  /** What every buffer keeps: the widths the patcher relies on. */
  ghost predicate Shape(v: Values) {
    && |v.number| == FIX_NUM_WIDTH && |v.qty| == FIX_NUM_WIDTH && |v.price| == FIX_NUM_WIDTH
    && |v.side| == 1 && v.time == PLACEHOLDER && AllDigits(v.number) && AllDigits(v.qty) && AllDigits(v.price)
    && AllDigits(v.clSeq) && AllDigits(v.side)
    && (v.smp.Some? ==> |v.smp.value| >= SMP_ID_WIDTH && AllDigits(v.smp.value))
  }

  lemma ShapeClean(v: Values)
    requires Shape(v)
    ensures CleanValues(v)
  {
    PlaceholderClean();
    DigitsClean(v.number);
    DigitsClean(v.qty);
    DigitsClean(v.price);
    DigitsClean(v.clSeq);
    DigitsClean(v.side);
    if v.smp.Some? {
      DigitsClean(v.smp.value);
    }
    hide CleanText;
  }

  lemma PlaceholderClean()
    ensures CleanText(PLACEHOLDER)
  {
  }

  /** Every machine word fits the padded width. */
  lemma WordFits(n: nat)
    requires n <= U64_MAX
    ensures |Dec(n)| <= FIX_NUM_WIDTH && LowDigits(n, FIX_NUM_WIDTH) == Pad(n, FIX_NUM_WIDTH)
    ensures |Pad(n, FIX_NUM_WIDTH)| == FIX_NUM_WIDTH
  {
    PowTwenty();
    FitsWidth(n, FIX_NUM_WIDTH);
    LowDigitsIsPad(n, FIX_NUM_WIDTH);
  }

  lemma PowTwenty()
    ensures Pow10(20) == 100_000_000_000_000_000_000
  {
    assert Pow10(4) == 10_000;
    assert Pow10(8) == 100_000_000;
    assert Pow10(12) == 1_000_000_000_000;
    assert Pow10(16) == 10_000_000_000_000_000;
  }

  lemma ScratchShape(a: Args)
    requires InRange(a)
    ensures Shape(Scratch(a))
  {
    WordFits(a.number + 1);
    WordFits(a.qty);
    WordFits(a.price);
    assert IsDigit('1') && IsDigit('2');
    hide Pad;
    hide Dec;
    hide LowDigits;
  }

  // ----- A buffer between two checksums -----

  /** The values are `v`, the checksum still that of `v0`, the byte sums tell the difference. */
  ghost predicate Mid(text: string, l: Line, v0: Values, v: Values, o: nat, n: nat) {
    var head0, head := Wire(Fields(l, v0)), Wire(Fields(l, v));
    && |head| == |head0|
    && text == head + Trailer(Sum(head0))
    && Sum(head) + o == Sum(head0) + n
  }

  lemma OverwriteHead(head: string, tail: string, off: nat, m: string)
    requires off + |m| <= |head|
    ensures Overwrite(head + tail, off, m) == Overwrite(head, off, m) + tail
    ensures (head + tail)[off..off + |m|] == head[off..off + |m|]
  {
  }

  lemma OverwritePart(text: string, off: nat, m: string, rest: string)
    requires off + |m| + |rest| <= |text| && text[off + |m|..off + |m| + |rest|] == rest
    ensures Overwrite(text, off, m + rest) == Overwrite(text, off, m)
  {
    assert text[off + |m|..] == rest + text[off + |m| + |rest|..];
  }

  /** The value after its first bytes are overwritten. */
  function Partly(value: string, m: string): (r: string)
    requires |m| <= |value|
    ensures |r| == |value|
  {
    m + value[|m|..]
  }

  lemma WriteFull(l: Line, v: Values, slot: Slot, full: string)
    requires Has(l, v, slot) && |full| == |Get(v, slot)|
    ensures var head, head', off := Wire(Fields(l, v)), Wire(Fields(l, Set(v, slot, full))), Offset(l, v, slot);
            && off + |full| <= |head|
            && head[off..off + |full|] == Get(v, slot)
            && head' == Overwrite(head, off, full)
            && Sum(head') + Sum(Get(v, slot)) == Sum(head) + Sum(full)
  {
    hide Fields;
    hide Wire;
    hide Place;
    hide Lead;
    hide Trail;
    hide Set;
    hide Get;
    hide Sum;
    hide Overwrite;
    SlotField(l, v, slot);
    SetField(l, v, slot, full);
    WireOverwrite(Fields(l, v), Place(l, slot), Lead(l, slot), Get(v, slot), Trail(l, slot), full);
  }

  lemma PartSum(value: string, m: string)
    requires |m| <= |value|
    ensures Sum(Partly(value, m)) + Sum(value[..|m|]) == Sum(value) + Sum(m)
  {
    var rest := value[|m|..];
    assert value == value[..|m|] + rest;
    SumConcat(value[..|m|], rest);
    SumConcat(m, rest);
  }

  lemma PartText(head: string, off: nat, value: string, m: string)
    requires off + |value| <= |head| && head[off..off + |value|] == value && |m| <= |value|
    ensures head[off..off + |m|] == value[..|m|]
    ensures Overwrite(head, off, Partly(value, m)) == Overwrite(head, off, m)
  {
    SliceParts(head, off, value, |m|);
    OverwritePart(head, off, m, value[|m|..]);
  }

  lemma SliceParts(head: string, off: nat, value: string, n: nat)
    requires off + |value| <= |head| && head[off..off + |value|] == value && n <= |value|
    ensures head[off..off + n] == value[..n] && head[off + n..off + |value|] == value[n..]
  {
    assert head[off..off + n] == head[off..off + |value|][..n];
    assert head[off + n..off + |value|] == head[off..off + |value|][n..];
  }

  lemma MidText(head: string, tail: string, off: nat, value: string, m: string)
    requires off + |value| <= |head| && head[off..off + |value|] == value && |m| <= |value|
    ensures off + |m| <= |head + tail|
    ensures (head + tail)[off..off + |m|] == value[..|m|]
    ensures Overwrite(head + tail, off, m) == Overwrite(head, off, Partly(value, m)) + tail
  {
    PartText(head, off, value, m);
    OverwriteHead(head, tail, off, m);
    hide Overwrite;
    hide Partly;
  }

  /** The bytes at a value's offset are the value. */
  lemma MidRead(text: string, l: Line, v0: Values, v: Values, o: nat, n: nat, slot: Slot, k: nat)
    requires Mid(text, l, v0, v, o, n) && Has(l, v, slot) && k <= |Get(v, slot)|
    ensures Offset(l, v, slot) + k <= |text|
    ensures text[Offset(l, v, slot)..Offset(l, v, slot) + k] == Get(v, slot)[..k]
  {
    var value := Get(v, slot);
    hide Fields;
    hide Wire;
    hide Sum;
    hide Trailer;
    hide Get;
    hide Offset;
    hide Overwrite;
    WriteFull(l, v, slot, value);
    MidText(Wire(Fields(l, v)), Trailer(Sum(Wire(Fields(l, v0)))), Offset(l, v, slot), value, value[..k]);
  }

  /** Overwriting a value, or its first bytes, moves the buffer to the new values. */
  lemma MidWrite(text: string, l: Line, v0: Values, v: Values, o: nat, n: nat, slot: Slot, m: string)
    requires Mid(text, l, v0, v, o, n) && Has(l, v, slot) && |m| <= |Get(v, slot)|
    requires Offset(l, v, slot) + |m| <= |text|
    ensures Mid(Overwrite(text, Offset(l, v, slot), m), l, v0, Set(v, slot, Partly(Get(v, slot), m)),
                o + Sum(Get(v, slot)[..|m|]), n + Sum(m))
  {
    hide Fields;
    hide Wire;
    hide Sum;
    hide Trailer;
    hide Set;
    hide Get;
    hide Offset;
    hide Overwrite;
    hide Partly;
    var value := Get(v, slot);
    WriteFull(l, v, slot, Partly(value, m));
    PartSum(value, m);
    MidText(Wire(Fields(l, v)), Trailer(Sum(Wire(Fields(l, v0)))), Offset(l, v, slot), value, m);
  }

  /** Applying the difference closes the frame of the new values. */
  lemma MidEnd(text: string, l: Line, v0: Values, v: Values, o: nat, n: nat)
    requires Mid(text, l, v0, v, o, n)
    ensures var off := |text| - 4;
            && 0 <= off && AllDigits(text[off..off + 3])
            && Overwrite(text, off, LowDigits(Moved(NatOf(text[off..off + 3]), o, n), 3)) == Frame(l, v)
  {
    var head0, head := Wire(Fields(l, v0)), Wire(Fields(l, v));
    hide Wire;
    hide Fields;
    Reseal(head0, head, o, n);
    hide Sum;
    hide LowDigits;
    hide Moved;
    hide NatOf;
  }

  lemma MidStart(l: Line, v: Values)
    ensures Mid(Frame(l, v), l, v, v, 0, 0)
  {
  }

  // ----- Locating the values -----

  datatype Offsets = Offsets(number: nat, time: nat, clSeq: nat, side: nat, qty: nat,
                             price: Option<nat>, smp: Option<nat>)

  function OffsetsOf(l: Line, v: Values): Offsets {
    Offsets(Offset(l, v, NumberSlot), Offset(l, v, TimeSlot), Offset(l, v, ClSeqSlot), Offset(l, v, SideSlot),
            Offset(l, v, QtySlot), if l.kind.New? then Some(Offset(l, v, PriceSlot)) else None,
            if v.smp.Some? then Some(Offset(l, v, SmpSlot)) else None)
  }

  lemma OffsetsStay(l: Line, v: Values, slot: Slot, text: string)
    requires Has(l, v, slot) && |text| == |Get(v, slot)|
    ensures OffsetsOf(l, Set(v, slot, text)) == OffsetsOf(l, v)
  {
    hide Offset;
    OffsetStays(l, v, slot, text, NumberSlot);
    OffsetStays(l, v, slot, text, TimeSlot);
    OffsetStays(l, v, slot, text, ClSeqSlot);
    OffsetStays(l, v, slot, text, SideSlot);
    OffsetStays(l, v, slot, text, QtySlot);
    if l.kind.New? {
      OffsetStays(l, v, slot, text, PriceSlot);
    }
    if v.smp.Some? {
      OffsetStays(l, v, slot, text, SmpSlot);
    }
  }

  /** Where a lead's value starts in a frame. */
  method After(text: string, l: Line, ghost v: Values, slot: Slot) returns (off: nat)
    requires CleanLine(l) && CleanValues(v) && text == Frame(l, v) && Has(l, v, slot)
    ensures off == Offset(l, v, slot)
  {
    FoundLead(l, v, slot);
    hide Frame;
    hide Offset;
    var needle := [SOH] + Lead(l, slot);
    off := Find(text, needle).value + |needle|;
  }

  /** Searches a fresh frame for each value. */
  method Locate(text: string, l: Line, smp: nat, ghost v: Values) returns (at: Offsets)
    requires CleanLine(l) && CleanValues(v) && text == Frame(l, v)
    requires v.time == PLACEHOLDER && (v.smp.Some? <==> smp != SMP_ID_NONE)
    ensures at == OffsetsOf(l, v)
  {
    hide Frame;
    hide Offset;
    hide CleanValues;
    var number := After(text, l, v, NumberSlot);
    var side := After(text, l, v, SideSlot);
    var qty := After(text, l, v, QtySlot);
    var price, id := None, None;
    if l.kind.New? {
      var off := After(text, l, v, PriceSlot);
      price := Some(off);
    }
    var clSeq := After(text, l, v, ClSeqSlot);
    FoundTime(l, v);
    var time := Find(text, "52=" + PLACEHOLDER).value + 3;
    if smp != SMP_ID_NONE {
      var off := After(text, l, v, SmpSlot);
      id := Some(off);
    }
    at := Offsets(number, time, clSeq, side, qty, price, id);
  }

  // ----- The values after a patch -----

  lemma FullPart(value: string, m: string)
    requires |m| == |value|
    ensures Partly(value, m) == m
  {
  }

  /** Writing the sequence number at its own width writes it as it prints. */
  lemma OwnWidth(n: nat)
    ensures LowDigits(n, |Dec(n)|) == Dec(n)
  {
    LowDigitsIsPad(n, |Dec(n)|);
  }

  lemma MarketPrice(l: Line, v: Values, price: string)
    requires l.kind.Market?
    ensures Fields(l, v.(price := price)) == Fields(l, v)
    ensures OffsetsOf(l, v.(price := price)) == OffsetsOf(l, v)
  {
    assert BodyFields(l, v.(price := price)) == BodyFields(l, v);
  }

  lemma MarketMid(text: string, l: Line, v0: Values, v: Values, o: nat, n: nat, price: string)
    requires l.kind.Market? && Mid(text, l, v0, v, o, n)
    ensures Mid(text, l, v0, v.(price := price), o, n)
    ensures OffsetsOf(l, v.(price := price)) == OffsetsOf(l, v)
  {
    MarketPrice(l, v, price);
    hide Fields;
    hide OffsetsOf;
  }

  lemma PatchShape(w: Baked, a: Args)
    requires Shape(w.values) && InRange(a) && !NeedsRebuild(w, a)
    ensures Shape(PatchBaked(w, a).values)
  {
    ScratchShape(a);
    hide Dec;
    hide Pad;
    hide LowDigits;
  }

  // ----- The template -----

  class Template {
    const line: Line
    var buf: array<char>
    var at: Offsets
    var width: nat
    var smpId: nat
    ghost var values: Values

    /** The buffer is the frame of its values, and the offsets are theirs. */
    ghost predicate Valid()
      reads this, buf
    {
      && CleanLine(line) && Shape(values)
      && buf[..] == Frame(line, values)
      && at == OffsetsOf(line, values)
      && width == |values.clSeq|
      && (values.smp.None? ==> smpId == SMP_ID_NONE)
    }

    ghost function Content(): Baked
      reads this
    {
      Baked(values, smpId)
    }

    constructor (line: Line, a: Args)
      requires CleanLine(line) && InRange(a)
      ensures Valid() && fresh(buf) && this.line == line && Content() == Baked(Scratch(a), a.smp)
    {
      this.line := line;
      buf := new char[0];
      new;
      Build(a);
    }

    method Build(a: Args)
      requires CleanLine(line) && InRange(a)
      modifies this
      ensures Valid() && fresh(buf) && Content() == Baked(Scratch(a), a.smp)
    {
      var v := Scratch(a);
      var text := Render(line, a);
      FrameIsFinalize(line, v);
      ScratchShape(a);
      ShapeClean(v);
      buf := new char[|text|](i requires 0 <= i < |text| => text[i]);
      assert buf[..] == text;
      at := Locate(text, line, a.smp, v);
      width := |Dec(a.number)|;
      smpId := a.smp;
      values := v;
    }

    /** Writes one value's digits and adds to the byte sums. */
    method Write(off: nat, width: nat, value: nat, oldSum: nat, newSum: nat, ghost slot: Slot, ghost v0: Values)
      returns (o: nat, n: nat)
      requires Has(line, values, slot) && width <= |Get(values, slot)| && off == Offset(line, values, slot)
      requires Mid(buf[..], line, v0, values, oldSum, newSum)
      modifies buf, this`values
      ensures values == Set(old(values), slot, Partly(Get(old(values), slot), LowDigits(value, width)))
      ensures Mid(buf[..], line, v0, values, o, n)
      ensures OffsetsOf(line, values) == OffsetsOf(line, old(values))
    {
      hide Mid;
      hide Offset;
      hide LowDigits;
      hide Partly;
      var m := LowDigits(value, width);
      MidRead(buf[..], line, v0, values, oldSum, newSum, slot, width);
      MidWrite(buf[..], line, v0, values, oldSum, newSum, slot, m);
      OffsetsStay(line, values, slot, Partly(Get(values, slot), m));
      assert buf[off..off + width] == buf[..][off..off + width];
      o, n := WritePadded(buf, off, width, value);
      o, n := oldSum + o, newSum + n;
      values := Set(values, slot, Partly(Get(values, slot), m));
    }

    /** Writes the side byte. */
    method WriteSide(off: nat, buy: bool, oldSum: nat, newSum: nat, ghost v0: Values) returns (o: nat, n: nat)
      requires |values.side| == 1 && off == Offset(line, values, SideSlot)
      requires Mid(buf[..], line, v0, values, oldSum, newSum)
      modifies buf, this`values
      ensures values == old(values).(side := SideText(buy))
      ensures Mid(buf[..], line, v0, values, o, n)
      ensures OffsetsOf(line, values) == OffsetsOf(line, old(values))
    {
      hide Mid;
      hide Offset;
      var m := SideText(buy);
      MidRead(buf[..], line, v0, values, oldSum, newSum, SideSlot, 1);
      MidWrite(buf[..], line, v0, values, oldSum, newSum, SideSlot, m);
      OffsetsStay(line, values, SideSlot, m);
      FullPart(values.side, m);
      ghost var was := buf[..];
      assert was[off..off + 1] == [buf[off]] == values.side;
      assert Sum([buf[off]]) == buf[off] as int && Sum(m) == m[0] as int;
      assert values.side[..1] == values.side;
      o, n := oldSum + buf[off] as int, newSum + m[0] as int;
      buf[off] := m[0];
      assert buf[..] == Overwrite(was, off, m);
      values := values.(side := m);
    }

    /** Writes a padded machine word. */
    method WriteWord(off: nat, value: nat, oldSum: nat, newSum: nat, ghost slot: Slot, ghost v0: Values)
      returns (o: nat, n: nat)
      requires slot.NumberSlot? || slot.QtySlot? || slot.PriceSlot?
      requires Has(line, values, slot) && |Get(values, slot)| == FIX_NUM_WIDTH && off == Offset(line, values, slot)
      requires value <= U64_MAX && Mid(buf[..], line, v0, values, oldSum, newSum)
      modifies buf, this`values
      ensures values == Set(old(values), slot, Pad(value, FIX_NUM_WIDTH))
      ensures |Pad(value, FIX_NUM_WIDTH)| == FIX_NUM_WIDTH
      ensures Mid(buf[..], line, v0, values, o, n)
      ensures OffsetsOf(line, values) == OffsetsOf(line, old(values))
    {
      hide Mid;
      hide Offset;
      WordFits(value);
      FullPart(Get(values, slot), LowDigits(value, FIX_NUM_WIDTH));
      hide Partly;
      hide LowDigits;
      o, n := Write(off, FIX_NUM_WIDTH, value, oldSum, newSum, slot, v0);
    }

    /** Writes the sequence number inside the client order id. */
    method WriteClSeq(number: nat, oldSum: nat, newSum: nat, ghost v0: Values) returns (o: nat, n: nat)
      requires width == |values.clSeq| == |Dec(number)| && at.clSeq == Offset(line, values, ClSeqSlot)
      requires Mid(buf[..], line, v0, values, oldSum, newSum)
      modifies buf, this`values
      ensures values == old(values).(clSeq := Dec(number))
      ensures Mid(buf[..], line, v0, values, o, n)
      ensures OffsetsOf(line, values) == OffsetsOf(line, old(values))
    {
      hide Mid;
      hide Offset;
      OwnWidth(number);
      FullPart(values.clSeq, Dec(number));
      hide Partly;
      hide LowDigits;
      hide Dec;
      o, n := Write(at.clSeq, width, number, oldSum, newSum, ClSeqSlot, v0);
    }

    /** Writes a changed self-match id over the first three digits of the old one. */
    method WriteSmp(smp: nat, oldSum: nat, newSum: nat, ghost v0: Values) returns (o: nat, n: nat)
      requires values.smp.Some? ==> |values.smp.value| >= SMP_ID_WIDTH && at.smp == Some(Offset(line, values, SmpSlot))
      requires values.smp.None? ==> at.smp == None
      requires Mid(buf[..], line, v0, values, oldSum, newSum)
      modifies buf, this`values, this`smpId
      ensures values == old(values).(smp := PatchSmp(old(values.smp), old(smpId), smp))
      ensures smpId == if old(values).smp.None? then old(smpId) else smp
      ensures Mid(buf[..], line, v0, values, o, n)
      ensures OffsetsOf(line, values) == OffsetsOf(line, old(values))
    {
      hide Mid;
      hide Offset;
      hide LowDigits;
      o, n := oldSum, newSum;
      if at.smp.Some? {
        if smp != smpId {
          o, n := Write(at.smp.value, SMP_ID_WIDTH, smp, oldSum, newSum, SmpSlot, v0);
          smpId := smp;
        }
      }
    }

    /** The numbers of an order, in the order the patcher writes them. */
    method WriteNumbers(a: Args, ghost v0: Values) returns (o: nat, n: nat)
      requires Valid() && InRange(a) && !NeedsRebuild(Content(), a) && Mid(buf[..], line, v0, values, 0, 0)
      modifies buf, this`values, this`smpId
      ensures values == old(values).(number := Pad(a.number + 1, FIX_NUM_WIDTH), clSeq := Dec(a.number),
                                     smp := PatchSmp(old(values.smp), old(smpId), a.smp))
      ensures smpId == PatchBaked(old(Content()), a).smp
      ensures Mid(buf[..], line, v0, values, o, n)
      ensures OffsetsOf(line, values) == OffsetsOf(line, old(values))
    {
      hide Mid;
      hide Offset;
      hide Dec;
      hide Frame;
      hide Pad;
      o, n := WriteWord(at.number, a.number + 1, 0, 0, NumberSlot, v0);
      o, n := WriteClSeq(a.number, o, n, v0);
      o, n := WriteSmp(a.smp, o, n, v0);
    }

    /** Side, quantity and price. */
    method WriteTerms(a: Args, oldSum: nat, newSum: nat, ghost v0: Values) returns (o: nat, n: nat)
      requires InRange(a) && at == OffsetsOf(line, values) && Mid(buf[..], line, v0, values, oldSum, newSum)
      requires |values.side| == 1 && |values.qty| == FIX_NUM_WIDTH && |values.price| == FIX_NUM_WIDTH
      modifies buf, this`values
      ensures values == old(values).(side := SideText(a.buy), qty := Pad(a.qty, FIX_NUM_WIDTH),
                                     price := Pad(a.price, FIX_NUM_WIDTH))
      ensures Mid(buf[..], line, v0, values, o, n)
      ensures OffsetsOf(line, values) == OffsetsOf(line, old(values))
    {
      hide Mid;
      hide Offset;
      hide Pad;
      o, n := WriteSide(at.side, a.buy, oldSum, newSum, v0);
      o, n := WriteWord(at.qty, a.qty, o, n, QtySlot, v0);
      if at.price.Some? {
        o, n := WriteWord(at.price.value, a.price, o, n, PriceSlot, v0);
      } else {
        MarketMid(buf[..], line, v0, values, o, n, Pad(a.price, FIX_NUM_WIDTH));
        values := values.(price := Pad(a.price, FIX_NUM_WIDTH));
      }
    }

    /** Moves the checksum to that of the new values. */
    method Seal(oldSum: nat, newSum: nat, ghost v0: Values)
      requires Mid(buf[..], line, v0, values, oldSum, newSum)
      modifies buf
      ensures buf[..] == Frame(line, values)
    {
      hide Mid, Frame, NatOf, Moved, LowDigits, Overwrite;
      MidEnd(buf[..], line, v0, values, oldSum, newSum);
      assert buf[buf.Length - 4..buf.Length - 4 + 3] == buf[..][buf.Length - 4..buf.Length - 4 + 3];
      ApplyChecksumDelta(buf, buf.Length - 4, oldSum, newSum);
    }

    /** Rewrites every value in place, then moves the checksum. */
    method PatchInPlace(a: Args)
      requires Valid() && InRange(a) && !NeedsRebuild(Content(), a)
      modifies buf, this`values, this`smpId
      ensures Valid() && Content() == PatchBaked(old(Content()), a)
    {
      ghost var v0 := values;
      MidStart(line, v0);
      PatchShape(Content(), a);
      assert |v0.side| == 1 && |v0.qty| == FIX_NUM_WIDTH && |v0.price| == FIX_NUM_WIDTH && v0.time == PLACEHOLDER;
      hide Shape;
      hide Mid;
      hide Offset;
      hide Dec;
      hide Pad;
      hide Frame;
      var o, n := WriteNumbers(a, v0);
      o, n := WriteTerms(a, o, n, v0);
      Seal(o, n, v0);
    }

    /** Renders an order and returns a copy of the bytes. */
    method Patch(a: Args) returns (bytes: array<char>)
      requires Valid() && InRange(a)
      modifies this, buf
      ensures Valid() && (buf == old(buf) || fresh(buf)) && Content() == PatchBaked(old(Content()), a)
      ensures fresh(bytes) && bytes != buf && bytes[..] == Frame(line, values)
    {
      hide Frame;
      hide Shape;
      if |Dec(a.number)| != width || (a.smp == SMP_ID_NONE) != at.smp.None? {
        Build(a);
      } else {
        PatchInPlace(a);
      }
      bytes := new char[buf.Length](i requires 0 <= i < buf.Length reads this, buf => buf[i]);
      assert bytes[..] == buf[..];
    }
  }
}
