/** The engine's JSON reader, and what it makes of a rendered order. */
module JsonWire {
  import opened Wrappers
  import opened Decimals
  import opened OrderIds
  import opened Delimited
  import opened PriceTimeBook
  import opened OrderWire
  import opened JsonText
  import opened JsonFrame
  import opened JsonTemplate
  import FixFrame
  import FixTemplate

  // ----- The reader -----

  /** The text between the quotes after a quoted key and a colon. */
  function JsonString(body: string, key: string): Option<string> {
    var needle := [QUOTE] + (key + [QUOTE] + ":\"");
    match Delimited.Find(body, needle)
    case None => None
    case Some(i) =>
      var rest := body[i + |needle|..];
      match Delimited.Find(rest, [QUOTE])
      case None => None
      case Some(j) => Some(rest[..j])
  }

  /** The position of the first comma or brace. */
  function EndOfNumber(s: string): Option<nat> {
    match (Delimited.Find(s, ","), Delimited.Find(s, "}"))
    case (None, e) => e
    case (e, None) => e
    case (Some(i), Some(j)) => Some(if i < j then i else j)
  }

  /** The trimmed text after a quoted key and a colon, up to a comma or brace. */
  function JsonNumber(body: string, key: string): Option<string> {
    var needle := [QUOTE] + (key + [QUOTE] + ":");
    match Delimited.Find(body, needle)
    case None => None
    case Some(i) =>
      var rest := body[i + |needle|..];
      match EndOfNumber(rest)
      case None => None
      case Some(j) => Some(Trim(rest[..j]))
  }

  function UpperChar(c: char): char {
    if 'a' <= c <= 'z' then (c as int - 32) as char else c
  }

  /** Equal up to ASCII case. */
  predicate SameWord(a: string, b: string) {
    |a| == |b| && forall i :: 0 <= i < |a| ==> UpperChar(a[i]) == UpperChar(b[i])
  }

  function ParseSide(s: string): Side {
    if SameWord(s, "SELL") then Sell else Buy
  }

  function ReadU32(field: Option<string>): Option<nat> {
    match field case Some(s) => ParseUnsigned(Trim(s), U32_LIMIT) case None => None
  }

  /** An untrimmed number, as the reader's number fields are already trimmed. */
  function PlainU64(field: Option<string>): Option<nat> {
    match field case Some(s) => ParseUnsigned(s, U64_LIMIT) case None => None
  }

  function PlainI64(field: Option<string>): Option<int> {
    match field case Some(s) => SignedI64(s) case None => None
  }

  /** Cancels and replaces carry an action; the rest are new orders. */
  function ParseOrderJson(body: string): Option<Order> {
    var smp := ReadU32(JsonString(body, "smp_id"));
    var orig := OrElse(JsonString(body, "orig_cl_ord_id"), "");
    var side, qty := JsonString(body, "side"), PlainU64(JsonNumber(body, "qty"));
    var price := OrElse(PlainI64(JsonNumber(body, "price")), 0);
    match JsonString(body, "cl_ord_id")
    case None => None
    case Some(id) =>
      var action := JsonString(body, "action");
      if action == Some("CANCEL") then Some(Order(Cancel, Buy, 0, 0, id, orig, smp))
      else if side.None? || qty.None? then None
      else if action == Some("REPLACE") then
        Some(Order(Replace, ParseSide(side.value), price, qty.value, id, orig, smp))
      else
        var kind := if JsonString(body, "ord_type") == Some("MARKET") then NewMarket else NewLimit;
        Some(Order(kind, ParseSide(side.value), price, qty.value, id, "", smp))
  }

  // ----- Reading pieces -----

  lemma SkipText(a: string, needle: string, rest: string)
    ensures (a + needle + rest)[|a| + |needle|..] == rest
  {
  }

  /** A string value is the piece after the colon. */
  lemma StringAt(pieces: seq<string>, key: string, k: nat)
    requires QuoteFree(pieces) && QUOTE !in key && WordIndex(pieces, key) == Some(k)
    requires k + 3 < |pieces| && pieces[k + 1] == ":"
    ensures JsonString(Join(pieces), key) == Some(pieces[k + 2])
  {
    hide Join, WordIndex, Delimited.Find;
    var needle := [QUOTE] + (key + [QUOTE] + ":\"");
    var rest := Join(pieces[k + 2..]);
    AfterColon(pieces, k);
    FindWord(pieces, key, ":\"");
    assert Join(pieces) == Join(pieces[..k]) + needle + rest;
    SkipText(Join(pieces[..k]), needle, rest);
    JoinTail(pieces[k + 2..]);
    var value := pieces[k + 2];
    assert value in pieces;
    FindKey(value, QUOTE, Join(pieces[k + 2..][1..]), []);
    assert [QUOTE] + [] == [QUOTE];
    assert rest[..|value|] == value;
  }

  /** The text around a key and its colon. */
  lemma AfterColon(pieces: seq<string>, k: nat)
    requires 0 < k && k + 2 < |pieces| && pieces[k + 1] == ":"
    ensures ":\"" <= Join(pieces[k + 1..])
    ensures Join(pieces) == Join(pieces[..k]) + ([QUOTE] + (pieces[k] + [QUOTE] + ":\"")) + Join(pieces[k + 2..])
  {
    hide Join;
    JoinSplit(pieces, k);
    JoinTail(pieces[k + 1..]);
    assert pieces[k + 1..][1..] == pieces[k + 2..];
    var rest := Join(pieces[k + 2..]);
    assert ":" + [QUOTE] == ":\"";
    assert Join(pieces[k + 1..]) == ":\"" + rest;
    Regather(Join(pieces[..k]), pieces[k], ":\"", rest);
  }

  lemma Regather(a: string, key: string, more: string, rest: string)
    ensures a + [QUOTE] + (key + ([QUOTE] + (more + rest))) == a + ([QUOTE] + (key + [QUOTE] + more)) + rest
  {
  }

  lemma StringAbsent(pieces: seq<string>, key: string)
    requires pieces != [] && QuoteFree(pieces) && QUOTE !in key && WordIndex(pieces, key).None?
    ensures JsonString(Join(pieces), key) == None
  {
    hide Join, WordIndex;
    FindWord(pieces, key, ":\"");
  }

  lemma NumberAbsent(pieces: seq<string>, key: string)
    requires pieces != [] && QuoteFree(pieces) && QUOTE !in key && WordIndex(pieces, key).None?
    ensures JsonNumber(Join(pieces), key) == None
  {
    hide Join, WordIndex;
    FindWord(pieces, key, ":");
  }

  /** A number ends at the first comma or brace. */
  lemma EndAt(value: string, end: char, rest: string)
    requires AllDigits(value) && (end == ',' || end == '}')
    ensures EndOfNumber(value + [end] + rest) == Some(|value|)
  {
    hide Delimited.Find;
    var text := value + [end] + rest;
    NoSuch(value, end);
    var other := if end == ',' then '}' else ',';
    NoSuch(value, other);
    FindKey(value, end, rest, []);
    assert [end] + [] == [end] && [other] + [] == [other] && "," == [','] && "}" == ['}'];
    NotBeforeEnd(value, end, rest, other);
  }

  lemma NoSuch(value: string, c: char)
    requires AllDigits(value) && (c == ',' || c == '}')
    ensures c !in value
  {
  }

  lemma NotBeforeEnd(value: string, end: char, rest: string, other: char)
    requires other !in value && other != end
    ensures var r := Delimited.Find(value + [end] + rest, [other]); r.Some? ==> r.value > |value|
  {
    var text := value + [end] + rest;
    var r := Delimited.Find(text, [other]);
    if r.Some? {
      assert text[r.value..r.value + 1][0] == other;
    }
  }

  /** A number is the digits that share the piece after its key. */
  lemma NumberAt(pieces: seq<string>, key: string, k: nat, value: string, end: char)
    requires QuoteFree(pieces) && QUOTE !in key && WordIndex(pieces, key) == Some(k) && k + 1 < |pieces|
    requires pieces[k + 1] == ":" + value + [end] && AllDigits(value) && (end == ',' || end == '}')
    ensures JsonNumber(Join(pieces), key) == Some(value)
  {
    hide Join, WordIndex, Delimited.Find, Trim, EndOfNumber, From;
    var needle := [QUOTE] + (key + [QUOTE] + ":");
    var tail := From(pieces, k + 1);
    var rest := value + [end] + tail;
    NumberAround(pieces, k, value, end);
    FindWord(pieces, key, ":");
    SkipText(Join(pieces[..k]), needle, rest);
    EndAt(value, end, tail);
    assert rest[..|value|] == value;
    DigitsTrim(value);
  }

  /** The text around a key and the number after its colon. */
  lemma NumberAround(pieces: seq<string>, k: nat, value: string, end: char)
    requires 0 < k && k + 1 < |pieces| && pieces[k + 1] == ":" + value + [end]
    ensures var rest := value + [end] + From(pieces, k + 1);
            && ":" <= Join(pieces[k + 1..])
            && Join(pieces) == Join(pieces[..k]) + ([QUOTE] + (pieces[k] + [QUOTE] + ":")) + rest
  {
    hide Join, From;
    var tail := From(pieces, k + 1);
    var rest := value + [end] + tail;
    JoinSplit(pieces, k);
    JoinFirst(pieces[k + 1..]);
    TailFrom(pieces, k + 1);
    ColonFirst(value, end, tail);
    Regather(Join(pieces[..k]), pieces[k], ":", rest);
  }

  lemma ColonFirst(value: string, end: char, tail: string)
    ensures (":" + value + [end]) + tail == ":" + (value + [end] + tail)
    ensures ":" <= (":" + value + [end]) + tail
  {
  }

  lemma TailFrom(pieces: seq<string>, k: nat)
    requires k < |pieces|
    ensures From(pieces[k..], 0) == From(pieces, k)
    ensures k > 0 ==> From(pieces, k - 1) == [QUOTE] + Join(pieces[k..])
  {
    if k + 1 < |pieces| {
      assert pieces[k..][1..] == pieces[k + 1..];
    }
  }

  // ----- New orders -----

  /** Where a key of the payload stands; a key it does not carry stands nowhere. */
  function KeyOf(l: Target, v: Values, key: string): Option<nat> {
    if key == "cl_ord_id" then Some(1)
    else if key == "symbol" then Some(5)
    else if key == "side" then Some(9)
    else if key == "qty" then Some(13)
    else if key == "price" && l.kind.New? then Some(15)
    else if key == "ord_type" && l.kind.Market? then Some(15)
    else if key == "smp_id" && v.smp.Some? then Some(if l.kind.New? then 17 else 19)
    else None
  }

  ghost predicate Asked(key: string) {
    || key == "cl_ord_id" || key == "side" || key == "qty" || key == "price" || key == "ord_type"
    || key == "smp_id" || key == "action" || key == "orig_cl_ord_id" || key == "symbol"
  }

  lemma AskedPlain(key: string)
    requires Asked(key)
    ensures !Plain(key) && QUOTE !in key
  {
  }

  lemma PieceCount(l: Target, v: Values)
    ensures |Pieces(l, v)| == (if l.kind.New? then 17 else 19) + if v.smp.Some? then 4 else 0
  {
  }

  lemma KeyFound(l: Target, v: Values, key: string)
    requires CleanValues(v) && Asked(key)
    ensures WordIndex(Pieces(l, v), key) == KeyOf(l, v, key)
  {
    hide Pieces, Plain;
    var ps, k := Pieces(l, v), KeyOf(l, v, key);
    AskedPlain(key);
    PieceCount(l, v);
    forall j | 0 < j < |ps| ensures ps[j] == key <==> k == Some(j) {
      PieceAt(l, v, j);
    }
  }

  /** A string field of a new order reads as the piece that holds it. */
  lemma StringReads(l: Target, v: Values, key: string)
    requires CleanTarget(l) && CleanValues(v) && Asked(key) && key != "qty" && key != "price"
    ensures JsonString(Payload(l, v), key) ==
            match key
            case "cl_ord_id" => Some(OrderId(l, v))
            case "symbol" => Some("IICPC")
            case "side" => Some(v.side)
            case "ord_type" => if l.kind.Market? then Some("MARKET") else None
            case "smp_id" => v.smp
            case _ => None
  {
    hide JsonString, Payload, Join, OrderId, CleanValues;
    var ps := Pieces(l, v);
    PayloadIsJoin(l, v);
    PiecesClean(l, v);
    KeyFound(l, v, key);
    AskedPlain(key);
    PieceCount(l, v);
    StringPieces(l, v);
    hide Pieces;
    if KeyOf(l, v, key).Some? {
      StringAt(ps, key, KeyOf(l, v, key).value);
    } else {
      StringAbsent(ps, key);
    }
  }

  lemma StringPieces(l: Target, v: Values)
    ensures var ps := Pieces(l, v);
            && |ps| >= 17 && ps[2] == ":" && ps[3] == OrderId(l, v) && ps[6] == ":" && ps[7] == "IICPC"
            && ps[10] == ":" && ps[11] == v.side
            && (l.kind.Market? ==> |ps| >= 19 && ps[16] == ":" && ps[17] == "MARKET")
            && (v.smp.Some? ==>
                  var k := if l.kind.New? then 17 else 19;
                  |ps| == k + 4 && ps[k + 1] == ":" && ps[k + 2] == v.smp.value)
  {
    hide OrderId;
  }

  lemma NumberReads(l: Target, v: Values)
    requires CleanTarget(l) && CleanValues(v)
    ensures JsonNumber(Payload(l, v), "qty") == Some(v.qty)
    ensures JsonNumber(Payload(l, v), "price") == if l.kind.New? then Some(v.price) else None
  {
    hide JsonNumber, Payload, Join, OrderId;
    var ps := Pieces(l, v);
    PayloadIsJoin(l, v);
    PiecesClean(l, v);
    KeyFound(l, v, "qty");
    KeyFound(l, v, "price");
    AskedPlain("qty");
    AskedPlain("price");
    PieceCount(l, v);
    NumberPieces(l, v);
    hide Pieces;
    NumberAt(ps, "qty", 13, v.qty, ',');
    if l.kind.New? {
      NumberAt(ps, "price", 15, v.price, if v.smp.Some? then ',' else '}');
    } else {
      NumberAbsent(ps, "price");
    }
  }

  lemma NumberPieces(l: Target, v: Values)
    ensures var ps := Pieces(l, v);
            && |ps| >= 17 && ps[14] == ":" + v.qty + [',']
            && (l.kind.New? ==> ps[16] == ":" + v.price + [if v.smp.Some? then ',' else '}'])
  {
    hide OrderId;
  }

  lemma DigitsRead(n: nat)
    ensures PlainU64(Some(Dec(n))) == if n < U64_LIMIT then Some(n) else None
    ensures PlainI64(Some(Dec(n))) == if n < I64_LIMIT then Some(n) else None
    ensures PlainI64(None) == None
  {
    ParseDec(n);
    assert IsDigit(Dec(n)[0]);
    hide Dec;
  }

  lemma SmpReads(smp: nat)
    requires smp <= FixTemplate.SMP_ID_NONE
    ensures ReadU32(FixTemplate.SmpText(smp)) == if smp == FixTemplate.SMP_ID_NONE then None else Some(smp)
  {
    if smp != FixTemplate.SMP_ID_NONE {
      ParsePad(smp, FixFrame.SMP_ID_WIDTH);
      var s := Pad(smp, FixFrame.SMP_ID_WIDTH);
      hide Pad;
      DigitsTrim(s);
      assert IsDigit(s[0]);
    }
  }

  lemma SideReads(buy: bool)
    ensures ParseSide(SideName(buy)) == if buy then Buy else Sell
  {
    assert SameWord("SELL", "SELL") && !SameWord("BUY", "SELL");
  }

  /** The order a render call stands for, as an engine should see it. */
  function Meant(l: Target, a: Args): Order {
    Order(if l.kind.New? then NewLimit else NewMarket, if a.buy then Buy else Sell,
          if l.kind.New? && a.price < I64_LIMIT then a.price else 0, a.qty,
          JoinOrderId(l.session, l.bot, a.number, if l.kind.New? then 'O' else 'M'), "",
          if a.smp == FixTemplate.SMP_ID_NONE then None else Some(a.smp))
  }

  lemma IdIs(l: Target, a: Args)
    ensures OrderId(l, Scratch(a)) == JoinOrderId(l.session, l.bot, a.number, if l.kind.New? then 'O' else 'M')
  {
    hide Dec;
    var n := Dec(a.number);
    var letter := if l.kind.New? then "O" else "M";
    assert IdHead(l) + n + ("_" + letter) == IdHead(l) + n + "_" + letter;
  }

  /** Reading a rendered payload gives the order back: kind, side, quantity, id, self-match id, and price. */
  lemma PayloadReads(l: Target, a: Args)
    requires CleanTarget(l) && a.qty < U64_LIMIT && a.smp <= FixTemplate.SMP_ID_NONE
    ensures ParseOrderJson(Payload(l, Scratch(a))) == Some(Meant(l, a))
  {
    hide JsonString, JsonNumber, Payload, OrderId, Dec, Pad, SideName, ParseSide, ReadU32, PlainU64, PlainI64,
         FixTemplate.SmpText, JoinOrderId;
    var v := Scratch(a);
    ScratchShape(a);
    StringReads(l, v, "cl_ord_id");
    StringReads(l, v, "side");
    StringReads(l, v, "ord_type");
    StringReads(l, v, "smp_id");
    StringReads(l, v, "action");
    NumberReads(l, v);
    DigitsRead(a.qty);
    DigitsRead(a.price);
    SmpReads(a.smp);
    SideReads(a.buy);
    IdIs(l, a);
  }
}
