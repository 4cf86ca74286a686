/** From an order to its FIX frame and back through the engine's parser. */
module OrderWire {
  import opened Wrappers
  import opened Decimals
  import opened OrderIds
  import opened Delimited
  import opened TaggedFields
  import opened PriceTimeBook
  import opened FixFrame
  import opened FixTemplate
  import opened FixOffsets

  /** Every tag an order message may carry, in wire order. */
  const BODY_TAGS: seq<string> :=
    ["35", "49", "56"] + (["34", "52", "11"] + (["41", "21", "55"] + (["54", "38", "40"] + ["44", "7928", "59"])))

  const TAGS: seq<string> := ["8", "9"] + BODY_TAGS + ["10"]

  lemma TagsAre()
    ensures TAGS == ["8", "9", "35", "49", "56", "34", "52", "11", "41", "21", "55", "54", "38", "40", "44", "7928",
            "59", "10"]
  {
  }

  lemma TagsDistinct()
    ensures TaggedFields.Distinct(TAGS) && forall i :: 0 <= i < |TAGS| ==> SOH !in TAGS[i]
  {
    TagsDiffer();
    TagsPlain();
  }

  lemma TagsDiffer()
    ensures forall i, j :: 0 <= i < j < |TAGS| ==> TAGS[i] != TAGS[j]
  {
    TagsAre();
  }

  lemma TagsPlain()
    ensures forall i :: 0 <= i < |TAGS| ==> '=' !in TAGS[i] && SOH !in TAGS[i]
  {
    TagsAre();
  }

  // ----- The engine's parser -----

  predicate IsSpace(c: char) {
    c == ' ' || '\t' <= c <= '\r'
  }

  function Trim(s: string): string {
    if s == [] then s
    else if IsSpace(s[0]) then Trim(s[1..])
    else if IsSpace(s[|s| - 1]) then Trim(s[..|s| - 1])
    else s
  }

  const U64_LIMIT: nat := 0x1_0000_0000_0000_0000
  const I64_LIMIT: nat := 0x8000_0000_0000_0000

  function ParseUnsigned(s: string, limit: nat): Option<nat> {
    var digits := if |s| > 1 && s[0] == '+' then s[1..] else s;
    match ParseNat(digits)
    case Some(n) => if n < limit then Some(n) else None
    case None => None
  }

  function ParseU64(s: string): Option<nat> {
    ParseUnsigned(Trim(s), U64_LIMIT)
  }

  function SignedI64(t: string): Option<int> {
    if |t| > 1 && t[0] == '-' then
      match ParseNat(t[1..])
      case Some(n) => if n <= I64_LIMIT then Some(0 - n) else None
      case None => None
    else
      match ParseUnsigned(t, I64_LIMIT)
      case Some(n) => Some(n)
      case None => None
  }

  function ParseI64(s: string): Option<int> {
    SignedI64(Trim(s))
  }

  function OrElse<T>(o: Option<T>, d: T): T {
    match o case Some(v) => v case None => d
  }

  function ReadU64(field: Option<string>): Option<nat> {
    match field case Some(s) => ParseU64(s) case None => None
  }

  function ReadI64(field: Option<string>): Option<int> {
    match field case Some(s) => ParseI64(s) case None => None
  }

  /** The order that the tags of a message describe. */
  function Interpret(mt: Option<string>, clId: Option<string>, side: Option<string>, orig: Option<string>,
                     qty: Option<string>, price: Option<string>, smp: Option<string>,
                     ordType: Option<string>): Option<Order>
  {
    match (mt, clId)
    case (Some(t), Some(id)) =>
      var order := Order(NewLimit, if side == Some("2") then Sell else Buy, OrElse(ReadI64(price), 0),
                         OrElse(ReadU64(qty), 0), id, OrElse(orig, ""),
                         match ReadU64(smp) case Some(n) => Some(n % U32_LIMIT) case None => None);
      if t == "D" then Some(order.(kind := if ordType == Some("1") then NewMarket else NewLimit))
      else if t == "F" then Some(order.(kind := Cancel))
      else if t == "G" then Some(order.(kind := Replace))
      else None
    case _ => None
  }

  /** The engine's reading of a message; anything but an order is ignored. */
  function ParseOrder(msg: string): Option<Order> {
    Interpret(ExtractTag(msg, "35"), ExtractTag(msg, "11"), ExtractTag(msg, "54"), ExtractTag(msg, "41"),
              ExtractTag(msg, "38"), ExtractTag(msg, "44"), ExtractTag(msg, "7928"), ExtractTag(msg, "40"))
  }

  // ----- The frames -----

  /** What the writer sends for one generated order. */
  datatype Action = Action(kind: Kind, side: Side, number: nat, qty: nat, price: nat, origId: string, smp: nat)

  function KindLetter(kind: Kind): char {
    match kind case NewLimit => 'O' case NewMarket => 'M' case Cancel => 'C' case Replace => 'R'
  }

  function MsgType(a: Action): string {
    if a.kind.Cancel? then "F" else if a.kind.Replace? then "G" else "D"
  }

  function SideTag(side: Side): string {
    if side == Buy then "1" else "2"
  }

  function ClOrdId(session: string, bot: nat, a: Action): string {
    JoinOrderId(session, bot, a.number, KindLetter(a.kind))
  }

  /** New and market orders are padded to a fixed width, cancels and replaces are not. */
  function NumText(kind: Kind, n: nat): string {
    if kind.NewLimit? || kind.NewMarket? then Pad(n, FIX_NUM_WIDTH) else Dec(n)
  }

  function Only(b: bool, s: string): Option<string> {
    if b then Some(s) else None
  }

  /** The values of the body tags, in order. */
  function BodyVals(session: string, bot: nat, a: Action, time: string): (vs: seq<Option<string>>)
    ensures |vs| == 15
  {
    var amended := a.kind.Cancel? || a.kind.Replace?;
    [Some(MsgType(a)), Some("IICPC-BOT"), Some("CONTESTANT")] +
    ([Some(NumText(a.kind, a.number + 1)), Some(time), Some(ClOrdId(session, bot, a))] +
    ([Only(amended, a.origId), Only(!a.kind.Cancel?, "1"), Some("IICPC")] +
    ([Some(SideTag(a.side)), Some(NumText(a.kind, a.qty)),
      Only(!a.kind.Cancel?, if a.kind.NewMarket? then "1" else "2")] +
     [Only(a.kind.NewLimit? || a.kind.Replace?, NumText(a.kind, a.price)), SmpText(a.smp), Only(!amended, "0")])))
  }

  function Body(session: string, bot: nat, a: Action, time: string): string {
    Wire(Present(BODY_TAGS, BodyVals(session, bot, a, time)))
  }

  /** The frame of an action. */
  function Encode(version: string, session: string, bot: nat, a: Action, time: string): string {
    Finalize(version, Body(session, bot, a, time))
  }

  // ----- A frame is one list of tags -----

  lemma {:induction false} PresentConcat(t: seq<string>, v: seq<Option<string>>, t': seq<string>,
      v': seq<Option<string>>)
    requires |t| == |v| && |t'| == |v'|
    ensures Present(t + t', v + v') == Present(t, v) + Present(t', v')
  {
    if t == [] {
      assert t + t' == t' && v + v' == v';
    } else {
      assert (t + t')[1..] == t[1..] + t' && (v + v')[1..] == v[1..] + v';
      PresentConcat(t[1..], v[1..], t', v');
      assert (t + t')[0] == t[0] && (v + v')[0] == v[0];
    }
  }

  /** All values of a message: version, length, body and checksum. */
  function MsgVals(version: string, vals: seq<Option<string>>): seq<Option<string>>
    requires |vals| == 15
  {
    var body := Wire(Present(BODY_TAGS, vals));
    var head := "8=" + version + [SOH] + "9=" + Dec(|body|) + [SOH] + body;
    [Some(version), Some(Dec(|body|))] + vals + [Some(CheckText(Sum(head)))]
  }

  lemma WireOne(f: string)
    ensures Wire([f]) == f + [SOH]
  {
    assert [f][1..] == [];
  }

  lemma MsgIsWire(version: string, vals: seq<Option<string>>)
    requires |vals| == 15
    ensures Finalize(version, Wire(Present(BODY_TAGS, vals))) == Wire(Present(TAGS, MsgVals(version, vals)))
  {
    hide Sum, CheckText, Dec, Wire, Present;
    var fields := Present(BODY_TAGS, vals);
    var body := Wire(fields);
    var front, len := [Some(version), Some(Dec(|body|))], Dec(|body|);
    var head := "8=" + version + [SOH] + "9=" + len + [SOH] + body;
    var check := CheckText(Sum(head));
    PresentConcat(["8", "9"], front, BODY_TAGS, vals);
    PresentConcat(["8", "9"] + BODY_TAGS, front + vals, ["10"], [Some(check)]);
    PresentPair(version, len);
    PresentOne(check);
    HeadWire(version, body);
    WireConcat(Head(version, body), fields);
    WireConcat(Head(version, body) + fields, ["10=" + check]);
    WireOne("10=" + check);
    assert head + ("10=" + check + [SOH]) == head + "10=" + check + [SOH];
  }

  lemma PresentPair(a: string, b: string)
    ensures Present(["8", "9"], [Some(a), Some(b)]) == ["8=" + a, "9=" + b]
  {
    assert ["8", "9"][1..] == ["9"] && [Some(a), Some(b)][1..] == [Some(b)];
    assert "8" + "=" == "8=" && "9" + "=" == "9=";
    assert Present(["9"], [Some(b)]) == ["9" + "=" + b];
  }

  lemma PresentOne(c: string)
    ensures Present(["10"], [Some(c)]) == ["10=" + c]
  {
    assert "10" + "=" == "10=";
  }

  // ----- No delimiter in a value -----

  ghost predicate CleanVals(vals: seq<Option<string>>) {
    forall i :: 0 <= i < |vals| && vals[i].Some? ==> SOH !in vals[i].value
  }

  lemma {:induction false} CleanPresent(tags: seq<string>, vals: seq<Option<string>>)
    requires |tags| == |vals| && CleanVals(vals) && forall i :: 0 <= i < |tags| ==> SOH !in tags[i]
    ensures Clean(Present(tags, vals))
  {
    if tags != [] {
      CleanPresent(tags[1..], vals[1..]);
    }
  }

  ghost predicate CleanAction(session: string, a: Action, time: string) {
    CleanText(session) && CleanText(a.origId) && CleanText(time)
  }

  lemma ClOrdIdClean(session: string, bot: nat, a: Action)
    requires CleanText(session)
    ensures SOH !in ClOrdId(session, bot, a)
  {
    DigitsClean(Dec(bot));
    DigitsClean(Dec(a.number));
    hide Dec;
  }

  lemma BodyValsClean(session: string, bot: nat, a: Action, time: string)
    requires CleanAction(session, a, time)
    ensures CleanVals(BodyVals(session, bot, a, time))
  {
    ClOrdIdClean(session, bot, a);
    DigitsClean(NumText(a.kind, a.number + 1));
    DigitsClean(NumText(a.kind, a.qty));
    DigitsClean(NumText(a.kind, a.price));
    if a.smp != SMP_ID_NONE {
      DigitsClean(Pad(a.smp, SMP_ID_WIDTH));
    }
    hide Pad;
    hide Dec;
    hide ClOrdId;
    hide NumText;
  }

  lemma MsgValsClean(version: string, vals: seq<Option<string>>)
    requires |vals| == 15 && CleanVals(vals) && CleanText(version)
    ensures CleanVals(MsgVals(version, vals))
  {
    hide Dec;
    hide Sum;
    hide CheckText;
    var body := Wire(Present(BODY_TAGS, vals));
    var head := "8=" + version + [SOH] + "9=" + Dec(|body|) + [SOH] + body;
    DigitsClean(Dec(|body|));
    CheckClean(Sum(head));
  }

  lemma CheckClean(sum: nat)
    ensures SOH !in CheckText(sum)
  {
    DigitsClean(CheckText(sum));
  }

  /** Every body tag of a frame reads as its value. */
  lemma TagReads(version: string, vals: seq<Option<string>>, k: nat)
    requires |vals| == 15 && CleanVals(vals) && CleanText(version) && k < 15
    ensures ExtractTag(Finalize(version, Wire(Present(BODY_TAGS, vals))), BODY_TAGS[k]) == vals[k]
  {
    hide Wire;
    hide Finalize;
    hide Present;
    hide ExtractTag;
    hide CleanVals;
    hide TaggedFields.Distinct;
    TagsDistinct();
    MsgIsWire(version, vals);
    MsgValsClean(version, vals);
    CleanPresent(TAGS, MsgVals(version, vals));
    MsgValAt(version, vals, k);
    ExtractByTag(TAGS, MsgVals(version, vals), k + 2);
  }

  lemma MsgValAt(version: string, vals: seq<Option<string>>, k: nat)
    requires |vals| == 15 && k < 15
    ensures |MsgVals(version, vals)| == |TAGS| == 18
    ensures MsgVals(version, vals)[0].Some? && MsgVals(version, vals)[k + 2] == vals[k] && TAGS[k + 2] == BODY_TAGS[k]
  {
    hide Wire;
    hide Sum;
    hide Dec;
    hide CheckText;
  }

  // ----- Numbers read back -----

  lemma DigitsTrim(s: string)
    requires AllDigits(s)
    ensures Trim(s) == s
  {
  }

  lemma ReadNumber(kind: Kind, n: nat)
    ensures ParseU64(NumText(kind, n)) == if n < U64_LIMIT then Some(n) else None
    ensures ParseI64(NumText(kind, n)) == if n < I64_LIMIT then Some(n) else None
  {
    var s := NumText(kind, n);
    ParseDec(n);
    ParsePad(n, FIX_NUM_WIDTH);
    ReadDigits(s, n);
  }

  lemma ReadDigits(s: string, n: nat)
    requires s != [] && AllDigits(s) && ParseNat(s) == Some(n)
    ensures ParseU64(s) == if n < U64_LIMIT then Some(n) else None
    ensures ParseI64(s) == if n < I64_LIMIT then Some(n) else None
  {
    DigitsTrim(s);
    assert IsDigit(s[0]);
  }

  lemma ReadSmp(smp: nat)
    requires smp <= SMP_ID_NONE
    ensures ReadU64(SmpText(smp)) == if smp == SMP_ID_NONE then None else Some(smp)
  {
    if smp != SMP_ID_NONE {
      var s := Pad(smp, SMP_ID_WIDTH);
      ParsePad(smp, SMP_ID_WIDTH);
      ReadDigits(s, smp);
    }
  }

  /** What the engine sees of an action: a price only where the message carries one that fits. */
  function Seen(session: string, bot: nat, a: Action): Order {
    Order(a.kind, a.side, if (a.kind.NewLimit? || a.kind.Replace?) && a.price < I64_LIMIT then a.price else 0, a.qty,
          ClOrdId(session, bot, a), if a.kind.Cancel? || a.kind.Replace? then a.origId else "",
          if a.smp == SMP_ID_NONE then None else Some(a.smp))
  }

  lemma BodyTagAt()
    ensures BODY_TAGS[0] == "35" && BODY_TAGS[5] == "11" && BODY_TAGS[6] == "41" && BODY_TAGS[9] == "54"
    ensures BODY_TAGS[10] == "38" && BODY_TAGS[11] == "40" && BODY_TAGS[12] == "44" && BODY_TAGS[13] == "7928"
  {
  }

  /** The parser reads the body values of a frame. */
  lemma ParseReads(version: string, vals: seq<Option<string>>)
    requires |vals| == 15 && CleanVals(vals) && CleanText(version)
    ensures ParseOrder(Finalize(version, Wire(Present(BODY_TAGS, vals)))) ==
            Interpret(vals[0], vals[5], vals[9], vals[6], vals[10], vals[12], vals[13], vals[11])
  {
    hide ExtractTag;
    hide Finalize;
    hide Wire;
    hide Present;
    hide Interpret;
    hide CleanVals;
    BodyTagAt();
    TagReads(version, vals, 0);
    TagReads(version, vals, 5);
    TagReads(version, vals, 6);
    TagReads(version, vals, 9);
    TagReads(version, vals, 10);
    TagReads(version, vals, 11);
    TagReads(version, vals, 12);
    TagReads(version, vals, 13);
  }

  lemma InterpretVals(session: string, bot: nat, a: Action, time: string)
    requires a.qty < U64_LIMIT && a.smp <= SMP_ID_NONE
    ensures var vals := BodyVals(session, bot, a, time);
            Interpret(vals[0], vals[5], vals[9], vals[6], vals[10], vals[12], vals[13], vals[11]) ==
            Some(Seen(session, bot, a))
  {
    hide ParseU64;
    hide ParseI64;
    hide NumText;
    hide ClOrdId;
    hide SmpText;
    ReadNumber(a.kind, a.qty);
    ReadNumber(a.kind, a.price);
    ReadSmp(a.smp);
  }

  /** Reading a rendered order gives the order back: kind, side, quantity, ids, self-match id, and price. */
  lemma ParseEncode(version: string, session: string, bot: nat, a: Action, time: string)
    requires CleanText(version) && CleanAction(session, a, time) && a.qty < U64_LIMIT && a.smp <= SMP_ID_NONE
    ensures ParseOrder(Encode(version, session, bot, a, time)) == Some(Seen(session, bot, a))
  {
    hide ParseOrder;
    hide Finalize;
    hide Interpret;
    hide BodyVals;
    hide Seen;
    hide Wire;
    hide Present;
    BodyValsClean(session, bot, a, time);
    ParseReads(version, BodyVals(session, bot, a, time));
    InterpretVals(session, bot, a, time);
  }

  // ----- The template renders this frame -----

  function LineFor(version: string, session: string, bot: nat, a: Action): Line {
    Line(version, session, bot, if a.kind.NewMarket? then Market else New)
  }

  function ArgsFor(a: Action): Args {
    Args(a.number, a.qty, a.price, a.side.Buy?, a.smp)
  }

  function Field(tag: string, val: Option<string>): seq<string> {
    if val.Some? then [tag + "=" + val.value] else []
  }

  lemma PresentThree(a: string, b: string, c: string, x: Option<string>, y: Option<string>, z: Option<string>)
    ensures Present([a, b, c], [x, y, z]) == Field(a, x) + Field(b, y) + Field(c, z)
  {
    assert [a, b, c][1..] == [b, c] && [x, y, z][1..] == [y, z];
    assert [b, c][1..] == [c] && [y, z][1..] == [z];
    assert Present([c], [z]) == Field(c, z);
    assert Present([b, c], [y, z]) == Field(b, y) + Field(c, z);
  }

  /** The body in groups of three tags. */
  lemma BodyGroups(session: string, bot: nat, a: Action, time: string)
    ensures var v := BodyVals(session, bot, a, time);
            Present(BODY_TAGS, v) ==
            Field("35", v[0]) + Field("49", v[1]) + Field("56", v[2]) +
            ((Field("34", v[3]) + Field("52", v[4]) + Field("11", v[5])) +
            ((Field("41", v[6]) + Field("21", v[7]) + Field("55", v[8])) +
            ((Field("54", v[9]) + Field("38", v[10]) + Field("40", v[11])) +
             (Field("44", v[12]) + Field("7928", v[13]) + Field("59", v[14])))))
  {
    hide Present;
    hide Field;
    hide NumText;
    hide ClOrdId;
    hide SmpText;
    var v := BodyVals(session, bot, a, time);
    var v1, v2, v3, v4, v5 := [v[0], v[1], v[2]], [v[3], v[4], v[5]], [v[6], v[7], v[8]], [v[9], v[10], v[11]],
        [v[12], v[13], v[14]];
    var t1, t2, t3, t4, t5 := ["35", "49", "56"], ["34", "52", "11"], ["41", "21", "55"], ["54", "38", "40"],
        ["44", "7928", "59"];
    assert v == v1 + (v2 + (v3 + (v4 + v5)));
    PresentConcat(t4, v4, t5, v5);
    PresentConcat(t3, v3, t4 + t5, v4 + v5);
    PresentConcat(t2, v2, t3 + (t4 + t5), v3 + (v4 + v5));
    PresentConcat(t1, v1, t2 + (t3 + (t4 + t5)), v2 + (v3 + (v4 + v5)));
    PresentThree("35", "49", "56", v[0], v[1], v[2]);
    PresentThree("34", "52", "11", v[3], v[4], v[5]);
    PresentThree("41", "21", "55", v[6], v[7], v[8]);
    PresentThree("54", "38", "40", v[9], v[10], v[11]);
    PresentThree("44", "7928", "59", v[12], v[13], v[14]);
  }

  lemma IdField(l: Line, number: nat, k: char)
    requires Letter(l.kind) == [k]
    ensures "11" + "=" + JoinOrderId(l.session, l.bot, number, k) ==
            "11=" + IdHead(l) + Dec(number) + "_" + Letter(l.kind)
  {
    hide Dec;
    var h, n := IdHead(l), Dec(number);
    assert JoinOrderId(l.session, l.bot, number, k) == h + n + "_" + [k];
    assert "11" + "=" == "11=";
    assert "11=" + (h + n + "_" + [k]) == "11=" + h + n + "_" + [k];
  }

  /** A field whose value is known to be there. */
  lemma OneField(tag: string, value: string, text: string)
    requires tag + "=" + value == text
    ensures Field(tag, Some(value)) == [text]
  {
  }

  lemma FixedFields()
    ensures Field("35", Some("D")) == ["35=D"] && Field("49", Some("IICPC-BOT")) == ["49=IICPC-BOT"]
    ensures Field("56", Some("CONTESTANT")) == ["56=CONTESTANT"] && Field("21", Some("1")) == ["21=1"]
    ensures Field("55", Some("IICPC")) == ["55=IICPC"] && Field("59", Some("0")) == ["59=0"]
    ensures Field("40", Some("1")) == ["40=1"] && Field("40", Some("2")) == ["40=2"]
  {
    assert "35" + "=" + "D" == "35=D" && "21" + "=" + "1" == "21=1" && "59" + "=" + "0" == "59=0";
    assert "40" + "=" + "1" == "40=1" && "40" + "=" + "2" == "40=2";
    assert "49" + "=" + "IICPC-BOT" == "49=IICPC-BOT";
    assert "56" + "=" + "CONTESTANT" == "56=CONTESTANT";
    assert "55" + "=" + "IICPC" == "55=IICPC";
  }

  lemma ValueField(tag: string, value: string, key: string)
    requires tag + "=" == key
    ensures Field(tag, Some(value)) == [key + value]
  {
  }

  lemma FirstGroups(l: Line, v: Values, id: string)
    requires "11" + "=" + id == "11=" + IdHead(l) + v.clSeq + "_" + Letter(l.kind)
    ensures Field("35", Some("D")) + Field("49", Some("IICPC-BOT")) + Field("56", Some("CONTESTANT")) ==
            Common(l, v)[..3]
    ensures Field("34", Some(v.number)) + Field("52", Some(v.time)) + Field("11", Some(id)) == Common(l, v)[3..6]
    ensures Field("41", None) + Field("21", Some("1")) + Field("55", Some("IICPC")) == Common(l, v)[6..8]
  {
    hide Field;
    hide IdHead;
    FixedFields();
    AbsentField("41");
    ValueField("34", v.number, "34=");
    ValueField("52", v.time, "52=");
    OneField("11", id, "11=" + IdHead(l) + v.clSeq + "_" + Letter(l.kind));
  }

  lemma LastGroups(l: Line, v: Values)
    ensures Field("54", Some(v.side)) + Field("38", Some(v.qty)) + Field("40", Some(if l.kind.New? then "2" else "1"))
            == Common(l, v)[8..] + PriceFields(l, v)[..1]
    ensures Field("44", Only(l.kind.New?, v.price)) + Field("7928", v.smp) + Field("59", Some("0"))
            == PriceFields(l, v)[1..] + SmpFields(v) + ["59=0"]
  {
    hide Field;
    FixedFields();
    AbsentField("44");
    AbsentField("7928");
    ValueField("54", v.side, "54=");
    ValueField("38", v.qty, "38=");
    ValueField("44", v.price, "44=");
    if v.smp.Some? {
      ValueField("7928", v.smp.value, "7928=");
    }
  }

  lemma Regather(c: seq<string>, p: seq<string>, s: seq<string>, t: seq<string>)
    requires |c| == 10 && |p| >= 1
    ensures c[..3] + (c[3..6] + (c[6..8] + ((c[8..] + p[..1]) + (p[1..] + s + t)))) == c + p + s + t
  {
  }

  /** New and market bodies are the template's fields. */
  lemma BodyIsTemplate(version: string, session: string, bot: nat, a: Action, time: string)
    requires a.kind.NewLimit? || a.kind.NewMarket?
    ensures Present(BODY_TAGS, BodyVals(session, bot, a, time)) ==
            BodyFields(LineFor(version, session, bot, a), Scratch(ArgsFor(a)).(time := time))
  {
    hide Present;
    hide Field;
    hide Pad;
    hide Dec;
    hide IdHead;
    hide JoinOrderId;
    hide Common;
    hide PriceFields;
    hide SmpFields;
    BodyGroups(session, bot, a, time);
    var l, v := LineFor(version, session, bot, a), Scratch(ArgsFor(a)).(time := time);
    IdField(l, a.number, KindLetter(a.kind));
    FirstGroups(l, v, ClOrdId(session, bot, a));
    LastGroups(l, v);
    PricePresent(l, v);
    Regather(Common(l, v), PriceFields(l, v), SmpFields(v), ["59=0"]);
  }

  lemma PricePresent(l: Line, v: Values)
    ensures |PriceFields(l, v)| >= 1
  {
  }

  lemma AbsentField(tag: string)
    ensures Field(tag, None) == []
  {
  }

  /** The patched template's bytes, once stamped, are the frame that the engine reads back. */
  lemma EncodeIsFrame(version: string, session: string, bot: nat, a: Action, time: string)
    requires a.kind.NewLimit? || a.kind.NewMarket?
    ensures Encode(version, session, bot, a, time) ==
            Frame(LineFor(version, session, bot, a), Scratch(ArgsFor(a)).(time := time))
  {
    hide Present;
    hide Wire;
    hide Finalize;
    hide Frame;
    hide BodyVals;
    hide BodyFields;
    hide Scratch;
    BodyIsTemplate(version, session, bot, a, time);
    FrameIsFinalize(LineFor(version, session, bot, a), Scratch(ArgsFor(a)).(time := time));
  }

  /** A stamped template frame reads back as its order. */
  lemma FrameReads(version: string, session: string, bot: nat, a: Action, time: string)
    requires a.kind.NewLimit? || a.kind.NewMarket?
    requires CleanText(version) && CleanAction(session, a, time) && a.qty < U64_LIMIT && a.smp <= SMP_ID_NONE
    ensures ParseOrder(Frame(LineFor(version, session, bot, a), Scratch(ArgsFor(a)).(time := time))) ==
            Some(Seen(session, bot, a))
  {
    hide ParseOrder;
    hide Frame;
    hide Encode;
    hide Scratch;
    EncodeIsFrame(version, session, bot, a, time);
    ParseEncode(version, session, bot, a, time);
  }
}
