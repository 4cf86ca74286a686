/** The order frames of the FIX 4.2 dialect: fields, trailer, and where each value sits. */
module FixFrame {
  import opened Wrappers
  import opened Decimals
  import opened Delimited

  const FIX_NUM_WIDTH: nat := 20
  const SMP_ID_WIDTH: nat := 3
  const PLACEHOLDER: string := "19700101-00:00:00.000"

  /** The kinds of order that are patched in place. */
  datatype FrameKind = New | Market

  /** What a template is built for. */
  datatype Line = Line(version: string, session: string, bot: nat, kind: FrameKind)

  /** The texts that change from one order to the next. */
  datatype Values = Values(number: string, time: string, clSeq: string, side: string,
                           qty: string, price: string, smp: Option<string>)

  predicate IdentifierChar(c: char) {
    'a' <= c <= 'z' || 'A' <= c <= 'Z' || '0' <= c <= '9' || c == '-' || c == '_' || c == '.'
  }

  ghost predicate Identifier(s: string) {
    s != [] && forall i :: 0 <= i < |s| ==> IdentifierChar(s[i])
  }

  function Letter(kind: FrameKind): string {
    match kind case New => "O" case Market => "M"
  }

  /** The client order id up to its sequence number. */
  function IdHead(l: Line): string {
    l.session + "_" + Dec(l.bot) + "_"
  }

  // ----- The frame -----

  function PriceFields(l: Line, v: Values): seq<string> {
    match l.kind case New => ["40=2", "44=" + v.price] case Market => ["40=1"]
  }

  function SmpFields(v: Values): seq<string> {
    match v.smp case None => [] case Some(id) => ["7928=" + id]
  }

  function Common(l: Line, v: Values): (fs: seq<string>)
    ensures |fs| == 10
  {
    ["35=D", "49=IICPC-BOT", "56=CONTESTANT", "34=" + v.number, "52=" + v.time,
     "11=" + IdHead(l) + v.clSeq + "_" + Letter(l.kind), "21=1", "55=IICPC", "54=" + v.side, "38=" + v.qty]
  }

  function BodyFields(l: Line, v: Values): seq<string> {
    Common(l, v) + PriceFields(l, v) + SmpFields(v) + ["59=0"]
  }

  /** Version and body length go before a body. */
  function Head(version: string, body: string): seq<string> {
    ["8=" + version, "9=" + Dec(|body|)]
  }

  function CheckText(sum: nat): string {
    Pad(sum % 256, 3)
  }

  /** A body becomes a frame: version, length, body, checksum. */
  function Finalize(version: string, body: string): string {
    var frame := "8=" + version + [SOH] + "9=" + Dec(|body|) + [SOH] + body;
    frame + "10=" + CheckText(Sum(frame)) + [SOH]
  }

  function Fields(l: Line, v: Values): seq<string> {
    Head(l.version, Wire(BodyFields(l, v))) + BodyFields(l, v)
  }

  function Trailer(sum: nat): string {
    "10=" + CheckText(sum) + [SOH]
  }

  function Frame(l: Line, v: Values): string {
    Wire(Fields(l, v)) + Trailer(Sum(Wire(Fields(l, v))))
  }

  lemma HeadWire(version: string, body: string)
    ensures Wire(Head(version, body)) == "8=" + version + [SOH] + "9=" + Dec(|body|) + [SOH]
  {
    hide Dec;
    WirePair("8=" + version, "9=" + Dec(|body|));
    Regroup("8=", version, "9=", Dec(|body|));
  }

  lemma WirePair(a: string, b: string)
    ensures Wire([a, b]) == a + [SOH] + (b + [SOH])
  {
    assert [a, b][1..] == [b];
    assert Wire([b]) == b + [SOH];
  }

  lemma Regroup(a: string, b: string, c: string, d: string)
    ensures (a + b) + [SOH] + ((c + d) + [SOH]) == a + b + [SOH] + c + d + [SOH]
  {
  }

  /** The frame is the finished body. */
  lemma FrameIsFinalize(l: Line, v: Values)
    ensures Frame(l, v) == Finalize(l.version, Wire(BodyFields(l, v)))
  {
    var body := Wire(BodyFields(l, v));
    WireConcat(Head(l.version, body), BodyFields(l, v));
    HeadWire(l.version, body);
    hide Wire;
    hide Sum;
    hide CheckText;
    var frame := "8=" + l.version + [SOH] + "9=" + Dec(|body|) + [SOH] + body;
    assert Wire(Fields(l, v)) == frame;
    assert frame + ("10=" + CheckText(Sum(frame)) + [SOH]) == frame + "10=" + CheckText(Sum(frame)) + [SOH];
  }

  // ----- The places of the values -----

  datatype Slot = NumberSlot | TimeSlot | ClSeqSlot | SideSlot | QtySlot | PriceSlot | SmpSlot

  predicate Has(l: Line, v: Values, slot: Slot) {
    match slot
    case PriceSlot => l.kind.New?
    case SmpSlot => v.smp.Some?
    case _ => true
  }

  function Get(v: Values, slot: Slot): string
    requires slot.SmpSlot? ==> v.smp.Some?
  {
    match slot
    case NumberSlot => v.number
    case TimeSlot => v.time
    case ClSeqSlot => v.clSeq
    case SideSlot => v.side
    case QtySlot => v.qty
    case PriceSlot => v.price
    case SmpSlot => v.smp.value
  }

  function Set(v: Values, slot: Slot, text: string): Values {
    match slot
    case NumberSlot => v.(number := text)
    case TimeSlot => v.(time := text)
    case ClSeqSlot => v.(clSeq := text)
    case SideSlot => v.(side := text)
    case QtySlot => v.(qty := text)
    case PriceSlot => v.(price := text)
    case SmpSlot => v.(smp := Some(text))
  }

  /** Which field of the frame holds the value. */
  function Place(l: Line, slot: Slot): nat {
    match slot
    case NumberSlot => 5
    case TimeSlot => 6
    case ClSeqSlot => 7
    case SideSlot => 10
    case QtySlot => 11
    case PriceSlot => 13
    case SmpSlot => if l.kind.New? then 14 else 13
  }

  /** What the search for the value looks for, and what stands before the value in its field. */
  function Lead(l: Line, slot: Slot): string {
    match slot
    case NumberSlot => "34="
    case TimeSlot => "52="
    case ClSeqSlot => "11=" + IdHead(l)
    case SideSlot => "54="
    case QtySlot => "38="
    case PriceSlot => "44="
    case SmpSlot => "7928="
  }

  function Trail(l: Line, slot: Slot): string {
    if slot.ClSeqSlot? then "_" + Letter(l.kind) else ""
  }

  lemma SlotField(l: Line, v: Values, slot: Slot)
    requires Has(l, v, slot)
    ensures Place(l, slot) < |Fields(l, v)| - 1
    ensures Fields(l, v)[Place(l, slot)] == Lead(l, slot) + Get(v, slot) + Trail(l, slot)
  {
    hide Wire;
    hide Dec;
    if slot.ClSeqSlot? {
      assert "11=" + IdHead(l) + v.clSeq + "_" + Letter(l.kind) ==
          ("11=" + IdHead(l)) + v.clSeq + ("_" + Letter(l.kind));
    }
  }

  /** Setting a value of the same length changes one field only: the length field stays. */
  lemma SetField(l: Line, v: Values, slot: Slot, text: string)
    requires Has(l, v, slot) && |text| == |Get(v, slot)|
    ensures Has(l, Set(v, slot, text), slot)
    ensures Fields(l, Set(v, slot, text)) == Fields(l, v)[Place(l, slot) := Lead(l, slot) + text + Trail(l, slot)]
  {
    hide Dec, Sum, Wire, BodyFields, Lead, Trail;
    var v' := Set(v, slot, text);
    var k := Place(l, slot) - 2;
    SetBody(l, v, slot, text);
    SlotField(l, v, slot);
    assert Fields(l, v)[k + 2] == BodyFields(l, v)[k];
    WireOverwrite(BodyFields(l, v), k, Lead(l, slot), Get(v, slot), Trail(l, slot), text);
    assert Head(l.version, Wire(BodyFields(l, v'))) == Head(l.version, Wire(BodyFields(l, v)));
  }

  lemma SetBody(l: Line, v: Values, slot: Slot, text: string)
    requires Has(l, v, slot)
    ensures Place(l, slot) - 2 < |BodyFields(l, v)|
    ensures BodyFields(l, Set(v, slot, text)) ==
            BodyFields(l, v)[Place(l, slot) - 2 := Lead(l, slot) + text + Trail(l, slot)]
  {
    if slot.PriceSlot? || slot.SmpSlot? {
      hide Common;
      assert Lead(l, slot) + text + "" == Lead(l, slot) + text;
      assert Common(l, Set(v, slot, text)) == Common(l, v) by { SetLate(l, v, slot, text); }
    } else {
      hide PriceFields, SmpFields;
      SetCommon(l, v, slot, text);
      hide Common, Lead, Trail;
    }
  }

  lemma SetLate(l: Line, v: Values, slot: Slot, text: string)
    requires slot.PriceSlot? || slot.SmpSlot?
    ensures Common(l, Set(v, slot, text)) == Common(l, v)
  {
  }

  lemma SetCommon(l: Line, v: Values, slot: Slot, text: string)
    requires !slot.PriceSlot? && !slot.SmpSlot?
    ensures Common(l, Set(v, slot, text)) == Common(l, v)[Place(l, slot) - 2 := Lead(l, slot) + text + Trail(l, slot)]
    ensures PriceFields(l, Set(v, slot, text)) == PriceFields(l, v) && SmpFields(Set(v, slot, text)) == SmpFields(v)
  {
    hide IdHead;
    if slot.ClSeqSlot? {
      assert "11=" + IdHead(l) + text + "_" + Letter(l.kind) == ("11=" + IdHead(l)) + text + ("_" + Letter(l.kind));
    } else {
      assert Lead(l, slot) + text + "" == Lead(l, slot) + text;
    }
  }
}
