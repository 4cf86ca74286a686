/** The searches that locate a frame's values find the fields they are meant to find. */
module FixOffsets {
  import opened Wrappers
  import opened Decimals
  import opened Delimited
  import opened FixFrame

  function Offset(l: Line, v: Values, slot: Slot): nat
    requires Has(l, v, slot)
  {
    SlotField(l, v, slot);
    |Wire(Fields(l, v)[..Place(l, slot)])| + |Lead(l, slot)|
  }

  ghost predicate CleanText(s: string) {
    SOH !in s && '=' !in s
  }

  /** Values hold no delimiter and no equals sign. */
  ghost predicate CleanValues(v: Values) {
    && CleanText(v.number) && CleanText(v.time) && CleanText(v.clSeq) && CleanText(v.side)
    && CleanText(v.qty) && CleanText(v.price) && (v.smp.Some? ==> CleanText(v.smp.value))
  }

  ghost predicate CleanLine(l: Line) {
    CleanText(l.version) && CleanText(l.session)
  }

  lemma IdentifierClean(s: string)
    requires Identifier(s)
    ensures CleanText(s)
  {
  }

  lemma DigitsClean(s: string)
    requires AllDigits(s)
    ensures CleanText(s)
  {
  }

  /** The frame as fields, trailer included. */
  function AllFields(l: Line, v: Values): seq<string> {
    Fields(l, v) + ["10=" + CheckText(Sum(Wire(Fields(l, v))))]
  }

  lemma FrameIsWire(l: Line, v: Values)
    ensures Frame(l, v) == Wire(AllFields(l, v))
  {
    var check := "10=" + CheckText(Sum(Wire(Fields(l, v))));
    WireConcat(Fields(l, v), [check]);
    assert Wire([check]) == check + [SOH];
    hide Wire;
    hide Fields;
  }

  /** How each field starts. */
  function Start(j: nat): string
    requires 1 <= j <= 13
  {
    match j
    case 1 => "9=" case 2 => "35" case 3 => "49" case 4 => "56" case 5 => "34" case 6 => "52" case 7 => "11"
    case 8 => "21" case 9 => "55" case 10 => "54" case 11 => "38" case 12 => "40" case _ => "44"
  }

  lemma Starts(l: Line, v: Values, j: nat)
    requires 1 <= j <= 12 || (j == 13 && l.kind.New?)
    ensures j < |Fields(l, v)| && |Fields(l, v)[j]| >= 2
    ensures Fields(l, v)[j][0] == Start(j)[0] && Fields(l, v)[j][1] == Start(j)[1]
  {
    hide Wire;
    hide Dec;
    hide IdHead;
  }

  lemma NotLead(l: Line, slot: Slot, j: nat, f: string)
    requires 1 <= j < Place(l, slot) && j <= 13 && |f| >= 2 && f[0] == Start(j)[0] && f[1] == Start(j)[1]
    requires slot.SmpSlot? || Place(l, slot) <= 13
    ensures !(Lead(l, slot) <= f)
  {
    var lead := Lead(l, slot);
    assert lead[0] != f[0] || lead[1] != f[1];
  }

  // ----- No delimiter inside a field -----

  lemma CleanCat(a: string, b: string)
    requires CleanText(b) && SOH !in a
    ensures SOH !in a + b
  {
  }

  lemma IdHeadClean(l: Line)
    requires CleanLine(l)
    ensures CleanText(IdHead(l))
  {
    DigitsClean(Dec(l.bot));
    hide Dec;
  }

  lemma CommonClean(l: Line, v: Values)
    requires CleanLine(l) && CleanValues(v)
    ensures Clean(Common(l, v))
  {
    IdHeadClean(l);
    hide IdHead;
    CleanCat("34=", v.number);
    CleanCat("52=", v.time);
    CleanCat("54=", v.side);
    CleanCat("38=", v.qty);
    assert CleanText("_" + Letter(l.kind));
    CleanCat("11=", IdHead(l));
    CleanCat("11=" + IdHead(l), v.clSeq);
    CleanCat("11=" + IdHead(l) + v.clSeq, "_");
    CleanCat("11=" + IdHead(l) + v.clSeq + "_", Letter(l.kind));
  }

  lemma CleanConcat(a: seq<string>, b: seq<string>)
    requires Clean(a) && Clean(b)
    ensures Clean(a + b)
  {
  }

  lemma OptionalClean(l: Line, v: Values)
    requires CleanValues(v)
    ensures Clean(PriceFields(l, v)) && Clean(SmpFields(v)) && Clean(["59=0"])
  {
    CleanCat("44=", v.price);
    if v.smp.Some? {
      CleanCat("7928=", v.smp.value);
    }
  }

  lemma AllClean(l: Line, v: Values)
    requires CleanLine(l) && CleanValues(v)
    ensures Clean(Fields(l, v)) && Clean(AllFields(l, v))
  {
    CommonClean(l, v);
    OptionalClean(l, v);
    hide Common;
    hide PriceFields;
    hide SmpFields;
    CleanConcat(Common(l, v), PriceFields(l, v));
    CleanConcat(Common(l, v) + PriceFields(l, v), SmpFields(v));
    CleanConcat(Common(l, v) + PriceFields(l, v) + SmpFields(v), ["59=0"]);
    var body, sum := Wire(BodyFields(l, v)), Sum(Wire(Fields(l, v)));
    HeadClean(l.version, body);
    CleanConcat(Head(l.version, body), BodyFields(l, v));
    DigitsClean(CheckText(sum));
    CleanCat("10=", CheckText(sum));
    CleanConcat(Fields(l, v), ["10=" + CheckText(sum)]);
  }

  lemma HeadClean(version: string, body: string)
    requires CleanText(version)
    ensures Clean(Head(version, body))
  {
    CleanCat("8=", version);
    DigitsClean(Dec(|body|));
    CleanCat("9=", Dec(|body|));
    hide Dec;
  }

  // ----- The searches -----

  lemma LeadClean(l: Line, slot: Slot)
    requires CleanLine(l)
    ensures SOH !in Lead(l, slot) && Lead(l, slot) != []
  {
    IdHeadClean(l);
    hide IdHead;
  }

  lemma EarlierDiffers(l: Line, v: Values, slot: Slot, j: nat)
    requires Has(l, v, slot) && 0 < j < Place(l, slot)
    ensures Place(l, slot) < |Fields(l, v)| && !(Lead(l, slot) <= Fields(l, v)[j])
  {
    SlotField(l, v, slot);
    Starts(l, v, j);
    hide Fields;
    NotLead(l, slot, j, Fields(l, v)[j]);
  }

  lemma IndexIs(fields: seq<string>, more: seq<string>, k: nat, key: string)
    requires 0 < k < |fields| && key <= fields[k] && forall j :: 0 < j < k ==> !(key <= fields[j])
    ensures KeyIndex(fields + more, key) == Some(k)
  {
    forall j | 0 < j < |fields| ensures (fields + more)[j] == fields[j] {}
  }

  /** The value's field is the first one that starts with its lead. */
  lemma LeadIndex(l: Line, v: Values, slot: Slot)
    requires Has(l, v, slot)
    ensures KeyIndex(AllFields(l, v), Lead(l, slot)) == Some(Place(l, slot))
  {
    var k, lead := Place(l, slot), Lead(l, slot);
    SlotField(l, v, slot);
    assert lead <= lead + Get(v, slot) + Trail(l, slot);
    hide Fields;
    forall j | 0 < j < k ensures !(lead <= Fields(l, v)[j]) {
      EarlierDiffers(l, v, slot, j);
    }
    hide Place;
    hide Lead;
    IndexIs(Fields(l, v), ["10=" + CheckText(Sum(Wire(Fields(l, v))))], k, lead);
  }

  /** Searching a frame for a delimited lead finds the value's offset. */
  lemma FoundLead(l: Line, v: Values, slot: Slot)
    requires CleanLine(l) && CleanValues(v) && Has(l, v, slot)
    ensures Find(Frame(l, v), [SOH] + Lead(l, slot)) == Some(Offset(l, v, slot) - |Lead(l, slot)| - 1)
  {
    AllClean(l, v);
    LeadClean(l, slot);
    LeadIndex(l, v, slot);
    FrameIsWire(l, v);
    SlotField(l, v, slot);
    hide CleanLine;
    hide CleanValues;
    hide Frame;
    FindField(AllFields(l, v), Lead(l, slot));
    assert AllFields(l, v)[..Place(l, slot)] == Fields(l, v)[..Place(l, slot)];
  }

  // ----- The timestamp is found by its text -----

  /** A needle without the delimiter is found in the first field that holds it. */
  lemma {:induction false} FindInFields(fields: seq<string>, k: nat, needle: string)
    requires SOH !in needle && needle != [] && k < |fields| && needle <= fields[k]
    requires forall j :: 0 <= j < k ==> Find(fields[j], needle).None?
    ensures Find(Wire(fields), needle) == Some(|Wire(fields[..k])|)
  {
    FindWithin(fields[0], SOH, Wire(fields[1..]), needle);
    if k == 0 {
      assert At(fields[0], needle, 0);
      FindIs(fields[0], needle, 0);
    } else {
      assert fields[1..][k - 1] == fields[k];
      forall j | 0 <= j < k - 1 ensures Find(fields[1..][j], needle).None? {
        assert fields[1..][j] == fields[j + 1];
      }
      FindInFields(fields[1..], k - 1, needle);
      assert fields[..k][1..] == fields[1..][..k - 1];
    }
  }

  /** A field of another tag, with one equals sign, does not hold the timestamp text. */
  lemma NoTime(tag: string, value: string, time: string)
    requires '=' !in value && '=' !in tag && |tag| <= 2 && tag != "52"
    ensures Find(tag + "=" + value, "52=" + time).None?
  {
    var f, needle := tag + "=" + value, "52=" + time;
    forall k | 0 <= k < |f| && k != |tag| ensures f[k] != '=' {
      if k < |tag| {
        assert tag[k] in tag;
      } else {
        assert value[k - |tag| - 1] in value;
      }
    }
    forall j: nat ensures !At(f, needle, j) {
      if j + 2 != |tag| {
        Differs(f, needle, j, 2);
      } else if f[0] != '5' {
        Differs(f, needle, j, 0);
      } else {
        assert tag == [tag[0], tag[1]];
        Differs(f, needle, j, 1);
      }
    }
  }

  /** The fields before the timestamp, as tag and value. */
  lemma EarlyField(l: Line, v: Values, j: nat) returns (tag: string, value: string)
    requires j < 6
    ensures |Fields(l, v)| > 6 && Fields(l, v)[j] == tag + "=" + value
    ensures '=' !in tag && |tag| <= 2 && tag != "52"
    ensures value in [l.version, Dec(|Wire(BodyFields(l, v))|), "D", "IICPC-BOT", "CONTESTANT", v.number]
  {
    hide Wire;
    hide Dec;
    tag, value := "34", v.number;
    if j == 0 {
      tag, value := "8", l.version;
    } else if j == 1 {
      tag, value := "9", Dec(|Wire(BodyFields(l, v))|);
    } else if j == 2 {
      tag, value := "35", "D";
    } else if j == 3 {
      tag, value := "49", "IICPC-BOT";
    } else if j == 4 {
      tag, value := "56", "CONTESTANT";
    }
  }

  lemma BeforeTime(l: Line, v: Values, j: nat)
    requires CleanLine(l) && CleanValues(v) && j < 6
    ensures |Fields(l, v)| > 6 && Find(Fields(l, v)[j], "52=" + v.time).None?
  {
    DigitsClean(Dec(|Wire(BodyFields(l, v))|));
    var tag, value := EarlyField(l, v, j);
    hide Fields;
    hide BodyFields;
    hide Wire;
    hide Dec;
    NoTime(tag, value, v.time);
  }

  lemma FoundTime(l: Line, v: Values)
    requires CleanLine(l) && CleanValues(v)
    ensures Find(Frame(l, v), "52=" + v.time) == Some(Offset(l, v, TimeSlot) - 3)
  {
    var needle := "52=" + v.time;
    SlotField(l, v, TimeSlot);
    assert needle + "" == needle;
    FrameIsWire(l, v);
    forall j | 0 <= j < 6 ensures Find(AllFields(l, v)[j], needle).None? {
      BeforeTime(l, v, j);
      assert AllFields(l, v)[j] == Fields(l, v)[j];
    }
    assert AllFields(l, v)[6] == Fields(l, v)[6];
    assert AllFields(l, v)[..6] == Fields(l, v)[..6];
    hide Frame;
    hide AllFields;
    hide Fields;
    CleanCat("52=", v.time);
    FindInFields(AllFields(l, v), 6, needle);
  }

  // ----- Offsets do not move when a value keeps its length -----

  lemma {:induction false} WireLength(fields: seq<string>, k: nat, f: string, p: nat)
    requires k < |fields| && |f| == |fields[k]| && p <= |fields|
    ensures |Wire(fields[k := f][..p])| == |Wire(fields[..p])|
  {
    var fields' := fields[k := f];
    if p <= k {
      assert fields'[..p] == fields[..p];
    } else {
      var a := fields[..p];
      assert fields'[..p] == a[k := f];
      assert a[k] == fields[k] && a[k] == [] + a[k] + [] && f == [] + f + [];
      WireOverwrite(a, k, [], a[k], [], f);
    }
  }

  lemma OffsetStays(l: Line, v: Values, slot: Slot, text: string, other: Slot)
    requires Has(l, v, slot) && |text| == |Get(v, slot)| && Has(l, v, other)
    ensures Has(l, Set(v, slot, text), other)
    ensures Offset(l, Set(v, slot, text), other) == Offset(l, v, other)
  {
    SetField(l, v, slot, text);
    SlotField(l, v, slot);
    SlotField(l, v, other);
    WireLength(Fields(l, v), Place(l, slot), Lead(l, slot) + text + Trail(l, slot), Place(l, other));
    hide Fields;
    hide Wire;
    hide Place;
    hide Lead;
    hide Trail;
  }
}
