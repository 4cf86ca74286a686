/** Reusable JSON orders patched in place at the width their numbers have. */
module JsonTemplate {
  import opened Wrappers
  import opened Decimals
  import opened Delimited
  import opened JsonText
  import opened JsonFrame
  import FixFrame
  import FixPatch
  import FixTemplate

  type Args = FixTemplate.Args

  const SMP_ID_NONE := FixTemplate.SMP_ID_NONE
  const SMP_ID_WIDTH := FixFrame.SMP_ID_WIDTH

  function SideName(buy: bool): string {
    if buy then "BUY" else "SELL"
  }

  /** The values of an order rendered from scratch: numbers as they print, never padded. */
  function Scratch(a: Args): Values {
    Values(Dec(a.number), SideName(a.buy), Dec(a.qty), Dec(a.price), FixTemplate.SmpText(a.smp))
  }

  datatype Baked = Baked(values: Values, smp: nat)

  function Fresh(a: Args): Baked {
    Baked(Scratch(a), a.smp)
  }

  /** A changed width, side length or self-match presence forces a new render. */
  predicate NeedsRebuild(kind: FixFrame.FrameKind, w: Baked, a: Args) {
    || |Dec(a.number)| != |w.values.clSeq|
    || |SideName(a.buy)| != |w.values.side|
    || |Dec(a.qty)| != |w.values.qty|
    || (kind.New? && |Dec(a.price)| != |w.values.price|)
    || (a.smp == SMP_ID_NONE) != w.values.smp.None?
  }

  function PatchBaked(kind: FixFrame.FrameKind, w: Baked, a: Args): Baked {
    if NeedsRebuild(kind, w, a) then Fresh(a)
    else Baked(Scratch(a).(smp := FixTemplate.PatchSmp(w.values.smp, w.smp, a.smp)),
               if w.values.smp.None? then w.smp else a.smp)
  }

  /** What every buffer keeps. */
  ghost predicate Shape(v: Values) {
    CleanValues(v) && (v.smp.Some? ==> |v.smp.value| >= SMP_ID_WIDTH)
  }

  lemma ScratchShape(a: Args)
    ensures Shape(Scratch(a))
  {
    hide Dec, Pad;
  }

  lemma PatchShape(kind: FixFrame.FrameKind, w: Baked, a: Args)
    requires Shape(w.values)
    ensures Shape(PatchBaked(kind, w, a).values)
  {
    hide Dec, LowDigits, Pad;
  }

  lemma SmpWide(v: Values)
    requires Shape(v)
    ensures v.smp.Some? ==> |v.smp.value| >= SMP_ID_WIDTH
  {
  }

  // ----- One write -----

  lemma Prefixed(pre: string, text: string, off: nat, m: string)
    requires off + |m| <= |text|
    ensures Overwrite(pre + text, |pre| + off, m) == pre + Overwrite(text, off, m)
  {
  }

  lemma WritePayload(l: Target, v: Values, slot: Slot, m: string)
    requires Has(l, v, slot) && |m| == |Get(v, slot)|
    ensures Place(l, slot) < |Pieces(l, v)|
    ensures var off := |Join(Pieces(l, v)[..Place(l, slot)])| + 1 + |Lead(l, slot)|;
      && off + |m| <= |Payload(l, v)|
      && Payload(l, v)[off..off + |m|] == Get(v, slot)
      && Payload(l, Set(v, slot, m)) == Overwrite(Payload(l, v), off, m)
  {
    hide Pieces, Join, Payload, Lead, Trail, Overwrite;
    SlotPiece(l, v, slot);
    SetPiece(l, v, slot, m);
    PayloadIsJoin(l, v);
    PayloadIsJoin(l, Set(v, slot, m));
    JoinOverwrite(Pieces(l, v), Place(l, slot), Lead(l, slot), Get(v, slot), Trail(l, v, slot), m);
  }

  /** Overwriting a value, or its first bytes, gives the bytes of the new values. */
  lemma WriteBytes(l: Target, v: Values, slot: Slot, m: string)
    requires Has(l, v, slot) && |m| <= |Get(v, slot)|
    ensures Offset(l, v, slot) + |m| <= |Bytes(l, v)|
    ensures Bytes(l, Set(v, slot, FixTemplate.Partly(Get(v, slot), m))) == Overwrite(Bytes(l, v), Offset(l, v, slot), m)
  {
    hide Pieces, Join, Payload, Lead, Prefix, Overwrite, Get;
    var value := Get(v, slot);
    WritePayload(l, v, slot, FixTemplate.Partly(value, m));
    var off := |Join(Pieces(l, v)[..Place(l, slot)])| + 1 + |Lead(l, slot)|;
    FixTemplate.PartText(Payload(l, v), off, value, m);
    Prefixed(Prefix(l, |Payload(l, v)|), Payload(l, v), off, m);
  }

  /** A write of the same length moves no value. */
  lemma OffsetStays(l: Target, v: Values, slot: Slot, m: string, other: Slot)
    requires Has(l, v, slot) && Has(l, v, other) && |m| == |Get(v, slot)|
    ensures Has(l, Set(v, slot, m), other) && Offset(l, Set(v, slot, m), other) == Offset(l, v, other)
  {
    hide Pieces, Join, Payload, Lead, Prefix, Overwrite, Trail;
    WritePayload(l, v, slot, m);
    SlotPiece(l, v, slot);
    SlotPiece(l, v, other);
    SetPiece(l, v, slot, m);
    SameLengths(Pieces(l, v)[..Place(l, other)], Pieces(l, Set(v, slot, m))[..Place(l, other)]);
  }

  // ----- Locating the values -----

  datatype Offsets = Offsets(clSeq: nat, side: nat, qty: nat, price: Option<nat>, smp: Option<nat>)

  function OffsetOf(l: Target, v: Values, slot: Slot): Option<nat> {
    if Has(l, v, slot) then Some(Offset(l, v, slot)) else None
  }

  function OffsetsOf(l: Target, v: Values): Offsets {
    Offsets(Offset(l, v, ClSeqSlot), Offset(l, v, SideSlot), Offset(l, v, QtySlot),
            OffsetOf(l, v, PriceSlot), OffsetOf(l, v, SmpSlot))
  }

  lemma OffsetsStay(l: Target, v: Values, slot: Slot, m: string)
    requires Has(l, v, slot) && |m| == |Get(v, slot)|
    ensures OffsetsOf(l, Set(v, slot, m)) == OffsetsOf(l, v)
  {
    hide Offset;
    OffsetStays(l, v, slot, m, ClSeqSlot);
    OffsetStays(l, v, slot, m, SideSlot);
    OffsetStays(l, v, slot, m, QtySlot);
    if l.kind.New? {
      OffsetStays(l, v, slot, m, PriceSlot);
    }
    if v.smp.Some? {
      OffsetStays(l, v, slot, m, SmpSlot);
    }
  }

  /** Searches the payload part of a fresh buffer for one value. */
  method After(json: string, start: nat, l: Target, slot: Slot, ghost v: Values) returns (off: Option<nat>)
    requires CleanTarget(l) && CleanValues(v) && json == Payload(l, v) && start == |Prefix(l, |json|)|
    requires slot.SmpSlot? ==> v.smp.Some?
    ensures off == OffsetOf(l, v, slot)
  {
    hide Offset, Payload, Prefix, Needle;
    Found(l, v, slot);
    var r := Find(json, Needle(l, slot));
    off := match r case None => None case Some(p) => Some(start + p + |Needle(l, slot)|);
  }

  method Locate(json: string, start: nat, l: Target, smp: nat, ghost v: Values) returns (at: Offsets)
    requires CleanTarget(l) && CleanValues(v) && json == Payload(l, v) && start == |Prefix(l, |json|)|
    requires v.smp.Some? <==> smp != SMP_ID_NONE
    ensures at == OffsetsOf(l, v)
  {
    hide Offset, Payload, Prefix;
    var side := After(json, start, l, SideSlot, v);
    var qty := After(json, start, l, QtySlot, v);
    var price := After(json, start, l, PriceSlot, v);
    var clSeq := After(json, start, l, ClSeqSlot, v);
    var id := None;
    if smp != SMP_ID_NONE {
      id := After(json, start, l, SmpSlot, v);
    }
    at := Offsets(clSeq.value, side.value, qty.value, price, id);
  }

  /** A market order's bytes do not depend on its price. */
  lemma MarketPrice(l: Target, v: Values, price: string)
    requires l.kind.Market?
    ensures Bytes(l, v.(price := price)) == Bytes(l, v)
    ensures OffsetsOf(l, v.(price := price)) == OffsetsOf(l, v)
  {
    hide Pieces, Payload, Prefix, Join, Lead;
    MarketPayload(l, v, price);
  }

  lemma MarketPayload(l: Target, v: Values, price: string)
    requires l.kind.Market?
    ensures Pieces(l, v.(price := price)) == Pieces(l, v) && Payload(l, v.(price := price)) == Payload(l, v)
  {
    hide Join;
    PayloadIsJoin(l, v);
    PayloadIsJoin(l, v.(price := price));
    hide Payload;
  }

  // ----- The template -----

  class Template {
    const target: Target
    var buf: array<char>
    var at: Offsets
    var clSeqWidth: nat
    var sideLen: nat
    var qtyWidth: nat
    var priceWidth: nat
    var smpId: nat
    ghost var values: Values

    ghost predicate Located()
      reads this
    {
      && at == OffsetsOf(target, values)
      && clSeqWidth == |values.clSeq| && sideLen == |values.side| && qtyWidth == |values.qty|
      && (target.kind.New? ==> priceWidth == |values.price|)
    }

    /** The buffer holds the bytes of its values, at the offsets and widths it remembers. */
    ghost predicate Valid()
      reads this, buf
    {
      && CleanTarget(target) && Shape(values) && Located()
      && buf[..] == Bytes(target, values)
      && (values.smp.None? ==> smpId == SMP_ID_NONE)
    }

    ghost function Content(): Baked
      reads this
    {
      Baked(values, smpId)
    }

    constructor (target: Target, a: Args)
      requires CleanTarget(target)
      ensures Valid() && fresh(buf) && this.target == target && Content() == Fresh(a)
    {
      this.target := target;
      buf := new char[0];
      new;
      Build(a);
    }

    /** Renders from scratch and searches the new payload for every value. */
    method Build(a: Args)
      requires CleanTarget(target)
      modifies this
      ensures Valid() && fresh(buf) && Content() == Fresh(a)
    {
      hide Payload, Prefix, Dec, Pad, OffsetsOf;
      var v := Scratch(a);
      ScratchShape(a);
      var json := Payload(target, v);
      var text := Prefix(target, |json|) + json;
      var start := |text| - |json|;
      buf := new char[|text|](i requires 0 <= i < |text| => text[i]);
      assert buf[..] == text;
      assert text[start..] == json;
      at := Locate(text[start..], start, target, a.smp, v);
      clSeqWidth, sideLen := |Dec(a.number)|, |SideName(a.buy)|;
      qtyWidth, priceWidth := |Dec(a.qty)|, |Dec(a.price)|;
      smpId := a.smp;
      values := v;
    }

    /** Writes digits over one value. */
    method Write(off: nat, width: nat, value: nat, ghost slot: Slot)
      requires Has(target, values, slot) && width <= |Get(values, slot)| && off == Offset(target, values, slot)
      requires buf[..] == Bytes(target, values)
      modifies buf, this`values
      ensures values == Set(old(values), slot, FixTemplate.Partly(Get(old(values), slot), LowDigits(value, width)))
      ensures buf[..] == Bytes(target, values)
      ensures OffsetsOf(target, values) == OffsetsOf(target, old(values))
    {
      hide Offset, OffsetsOf, LowDigits, FixTemplate.Partly, Bytes, Overwrite;
      ghost var m := LowDigits(value, width);
      WriteBytes(target, values, slot, m);
      OffsetsStay(target, values, slot, FixTemplate.Partly(Get(values, slot), m));
      var _, _ := FixPatch.WritePadded(buf, off, width, value);
      values := Set(values, slot, FixTemplate.Partly(Get(values, slot), m));
    }

    /** Writes a number at the width it has. */
    method WriteNumber(off: nat, width: nat, value: nat, ghost slot: Slot)
      requires Has(target, values, slot) && !slot.SmpSlot? && off == Offset(target, values, slot)
      requires width == |Dec(value)| == |Get(values, slot)| && buf[..] == Bytes(target, values)
      modifies buf, this`values
      ensures values == Set(old(values), slot, Dec(value))
      ensures buf[..] == Bytes(target, values)
      ensures OffsetsOf(target, values) == OffsetsOf(target, old(values))
    {
      hide Offset, OffsetsOf, LowDigits, FixTemplate.Partly, Bytes, Dec;
      FixTemplate.OwnWidth(value);
      FixTemplate.FullPart(Get(values, slot), Dec(value));
      Write(off, width, value, slot);
    }

    method WriteSmp(smp: nat)
      requires values.smp.Some? ==> |values.smp.value| >= SMP_ID_WIDTH
      requires at == OffsetsOf(target, values) && buf[..] == Bytes(target, values)
      modifies buf, this`values, this`smpId
      ensures values == old(values).(smp := FixTemplate.PatchSmp(old(values.smp), old(smpId), smp))
      ensures smpId == if old(values).smp.None? then old(smpId) else smp
      ensures buf[..] == Bytes(target, values)
      ensures OffsetsOf(target, values) == OffsetsOf(target, old(values))
    {
      hide Offset, LowDigits, Bytes;
      if at.smp.Some? {
        if smp != smpId {
          Write(at.smp.value, SMP_ID_WIDTH, smp, SmpSlot);
          smpId := smp;
        }
      }
    }

    /** Copies the side name over one of its length. */
    method WriteSide(buy: bool)
      requires sideLen == |SideName(buy)| == |values.side| && at.side == Offset(target, values, SideSlot)
      requires buf[..] == Bytes(target, values)
      modifies buf, this`values
      ensures values == old(values).(side := SideName(buy))
      ensures buf[..] == Bytes(target, values)
      ensures OffsetsOf(target, values) == OffsetsOf(target, old(values))
    {
      hide Offset, OffsetsOf, Bytes, SideName;
      var m := SideName(buy);
      WriteBytes(target, values, SideSlot, m);
      OffsetsStay(target, values, SideSlot, m);
      FixTemplate.FullPart(values.side, m);
      ghost var was := buf[..];
      forall i | 0 <= i < |m| {
        buf[at.side + i] := m[i];
      }
      assert buf[..] == Overwrite(was, at.side, m);
      values := values.(side := m);
    }

    method WritePrice(price: nat)
      requires at.price == OffsetOf(target, values, PriceSlot) && buf[..] == Bytes(target, values)
      requires target.kind.New? ==> priceWidth == |Dec(price)| == |values.price|
      modifies buf, this`values
      ensures values == old(values).(price := Dec(price))
      ensures buf[..] == Bytes(target, values)
      ensures OffsetsOf(target, values) == OffsetsOf(target, old(values))
    {
      hide Offset, OffsetsOf, Bytes, Dec;
      if at.price.Some? {
        WriteNumber(at.price.value, priceWidth, price, PriceSlot);
      } else {
        MarketPrice(target, values, Dec(price));
        values := values.(price := Dec(price));
      }
    }

    method PatchInPlace(a: Args)
      requires Valid() && !NeedsRebuild(target.kind, Content(), a)
      modifies buf, this`values, this`smpId
      ensures Valid() && Content() == PatchBaked(target.kind, old(Content()), a)
    {
      hide Offset, Bytes, Dec, FixTemplate.PatchSmp, Shape;
      PatchShape(target.kind, Content(), a);
      SmpWide(values);
      assert |values.clSeq| == |Dec(a.number)| && |values.qty| == |Dec(a.qty)|;
      WriteNumber(at.clSeq, clSeqWidth, a.number, ClSeqSlot);
      WriteSmp(a.smp);
      WriteNumber(at.qty, qtyWidth, a.qty, QtySlot);
      WritePrice(a.price);
      WriteSide(a.buy);
    }

    /** Renders an order and returns a copy of the bytes. */
    method Patch(a: Args) returns (bytes: array<char>)
      requires Valid()
      modifies this, buf
      ensures Valid() && (buf == old(buf) || fresh(buf)) && Content() == PatchBaked(target.kind, old(Content()), a)
      ensures fresh(bytes) && bytes != buf && bytes[..] == Bytes(target, values)
    {
      hide Offset, Bytes, Shape, Dec, FixTemplate.PatchSmp, Scratch;
      if |Dec(a.number)| != clSeqWidth || |SideName(a.buy)| != sideLen || |Dec(a.qty)| != qtyWidth
        || (at.price.Some? && |Dec(a.price)| != priceWidth) || (a.smp == SMP_ID_NONE) != at.smp.None? {
        Build(a);
      } else {
        PatchInPlace(a);
      }
      bytes := new char[buf.Length](i requires 0 <= i < buf.Length reads this, buf => buf[i]);
      assert bytes[..] == buf[..];
    }
  }
}
