/** The JSON body of an order, bare or inside a REST request, and where each value sits. */
module JsonFrame {
  import opened Wrappers
  import opened Decimals
  import opened Delimited
  import opened JsonText
  import FixFrame

  /** What a template is built for; a REST target has a host, a WebSocket has none. */
  datatype Target = Target(host: Option<string>, session: string, bot: nat, kind: FixFrame.FrameKind)

  /** The texts that change from one order to the next. */
  datatype Values = Values(clSeq: string, side: string, qty: string, price: string, smp: Option<string>)

  function IdHead(l: Target): string {
    l.session + "_" + Dec(l.bot) + "_"
  }

  function OrderId(l: Target, v: Values): string {
    IdHead(l) + v.clSeq + ("_" + FixFrame.Letter(l.kind))
  }

  function KindText(l: Target, v: Values): string {
    match l.kind case New => ",\"price\":" + v.price case Market => ",\"ord_type\":\"MARKET\""
  }

  function SmpField(v: Values): string {
    match v.smp case None => "" case Some(id) => ",\"smp_id\":\"" + id + "\""
  }

  function Payload(l: Target, v: Values): string {
    "{\"cl_ord_id\":\"" + OrderId(l, v) + "\",\"symbol\":\"IICPC\",\"side\":\"" + v.side + "\",\"qty\":" + v.qty
    + KindText(l, v) + SmpField(v) + "}"
  }

  const CRLF: string := "\r\n"

  function RequestHead(host: string, length: nat): string {
    "POST /orders HTTP/1.1" + CRLF + "Host: " + host + CRLF + "Content-Type: application/json" + CRLF +
    "Content-Length: " + Dec(length) + CRLF + "Connection: keep-alive" + CRLF + CRLF
  }

  function Prefix(l: Target, length: nat): string {
    match l.host case None => "" case Some(h) => RequestHead(h, length)
  }

  /** The bytes sent for an order. */
  function Bytes(l: Target, v: Values): string {
    Prefix(l, |Payload(l, v)|) + Payload(l, v)
  }

  // ----- The payload as pieces -----

  function Opening(l: Target, v: Values): (ps: seq<string>)
    ensures |ps| == 14
  {
    ["{", "cl_ord_id", ":", OrderId(l, v), ",", "symbol", ":", "IICPC", ",", "side", ":", v.side, ",", "qty"]
  }

  function Closing(l: Target, v: Values): seq<string> {
    match (l.kind, v.smp)
    case (New, None) => [":" + v.qty + ",", "price", ":" + v.price + "}"]
    case (New, Some(id)) => [":" + v.qty + ",", "price", ":" + v.price + ",", "smp_id", ":", id, "}"]
    case (Market, None) => [":" + v.qty + ",", "ord_type", ":", "MARKET", "}"]
    case (Market, Some(id)) => [":" + v.qty + ",", "ord_type", ":", "MARKET", ",", "smp_id", ":", id, "}"]
  }

  function Pieces(l: Target, v: Values): seq<string> {
    Opening(l, v) + Closing(l, v)
  }

  lemma Pair(a: string, b: string, rest: seq<string>)
    requires rest != []
    ensures Join([a, b] + rest) == a + [QUOTE] + (b + [QUOTE] + Join(rest))
  {
    var all := [a, b] + rest;
    assert all[1..] == [b] + rest;
    assert all[1..][1..] == rest;
  }

  lemma Four(a: string, b: string, c: string, d: string, rest: seq<string>)
    requires rest != []
    ensures Join([a, b, c, d] + rest) == a + [QUOTE] + (b + [QUOTE] + (c + [QUOTE] + (d + [QUOTE] + Join(rest))))
  {
    Pair(c, d, rest);
    assert [a, b] + ([c, d] + rest) == [a, b, c, d] + rest;
    Pair(a, b, [c, d] + rest);
  }

  lemma Two(a: string, b: string)
    ensures Join([a, b]) == a + [QUOTE] + b
  {
    assert [a, b][1..] == [b];
  }

  /** One quoted member of an object, the brace or comma before it included. */
  lemma Member(open: string, key: string, value: string, rest: seq<string>)
    requires rest != []
    ensures Join([open, key, ":", value] + rest) == open + "\"" + key + "\":\"" + value + "\"" + Join(rest)
  {
    Four(open, key, ":", value, rest);
  }

  lemma OpeningText(l: Target, v: Values)
    ensures Join(Opening(l, v)) ==
            "{\"cl_ord_id\":\"" + OrderId(l, v) + "\",\"symbol\":\"IICPC\",\"side\":\"" + v.side + "\",\"qty"
  {
    hide OrderId;
    var id := OrderId(l, v);
    var end := [",", "qty"];
    var side := [",", "side", ":", v.side] + end;
    var symbol := [",", "symbol", ":", "IICPC"] + side;
    Two(",", "qty");
    Member(",", "side", v.side, end);
    Member(",", "symbol", "IICPC", side);
    Member("{", "cl_ord_id", id, symbol);
    assert Opening(l, v) == ["{", "cl_ord_id", ":", id] + symbol;
    hide Join;
    OpeningLetters(id, v.side, Join(end));
  }

  lemma OpeningLetters(id: string, side: string, end: string)
    requires end == ",\"qty"
    ensures "{" + "\"" + "cl_ord_id" + "\":\"" + id + "\"" +
            ("," + "\"" + "symbol" + "\":\"" + "IICPC" + "\"" + ("," + "\"" + "side" + "\":\"" + side + "\"" + end))
         == "{\"cl_ord_id\":\"" + id + "\",\"symbol\":\"IICPC\",\"side\":\"" + side + "\",\"qty"
  {
    assert "{" + "\"" + "cl_ord_id" + "\":\"" == "{\"cl_ord_id\":\"";
    assert "\"" + ("," + "\"" + "symbol" + "\":\"" + "IICPC" + "\"" + ("," + "\"" + "side" + "\":\""))
        == "\",\"symbol\":\"IICPC\",\"side\":\"";
    assert "\"" + ",\"qty" == "\",\"qty";
  }

  /** A self-match member closes the object. */
  lemma SmpEnd(before: string, id: string)
    ensures Join([before + ",", "smp_id", ":", id, "}"]) == before + (",\"smp_id\":\"" + id + "\"") + "}"
  {
    Four(before + ",", "smp_id", ":", id, ["}"]);
    assert [before + ",", "smp_id", ":", id] + ["}"] == [before + ",", "smp_id", ":", id, "}"];
    assert "," + [QUOTE] + ("smp_id" + [QUOTE] + (":" + [QUOTE])) == ",\"smp_id\":\"";
  }

  lemma NewClosing(qty: string, rest: seq<string>)
    requires rest != []
    ensures Join([":" + qty + ",", "price"] + rest) == ":" + qty + ",\"price\"" + Join(rest)
  {
    Pair(":" + qty + ",", "price", rest);
    assert "," + [QUOTE] + ("price" + [QUOTE]) == ",\"price\"";
  }

  lemma MarketClosing(qty: string, rest: seq<string>)
    requires rest != []
    ensures Join([":" + qty + ",", "ord_type", ":", "MARKET"] + rest)
         == ":" + qty + ",\"ord_type\":\"MARKET\"" + Join(rest)
  {
    hide Join;
    Member(":" + qty + ",", "ord_type", "MARKET", rest);
    MarketLetters(":" + qty, Join(rest));
  }

  lemma MarketLetters(head: string, rest: string)
    ensures (head + ",") + "\"" + "ord_type" + "\":\"" + "MARKET" + "\"" + rest
         == head + ",\"ord_type\":\"MARKET\"" + rest
  {
    assert "," + "\"" + "ord_type" + "\":\"" + "MARKET" + "\"" == ",\"ord_type\":\"MARKET\"";
  }

  lemma NewText(l: Target, v: Values)
    requires l.kind.New?
    ensures Closing(l, v) != [] && Join(Closing(l, v)) == ":" + v.qty + KindText(l, v) + SmpField(v) + "}"
  {
    hide Join;
    var rest := if v.smp.None? then [":" + v.price + "}"] else [":" + v.price + ",", "smp_id", ":", v.smp.value, "}"];
    NewClosing(v.qty, rest);
    assert Closing(l, v) == [":" + v.qty + ",", "price"] + rest;
    if v.smp.None? {
      Single(rest[0]);
    } else {
      SmpEnd(":" + v.price, v.smp.value);
    }
    PriceLetters(":" + v.qty, v.price, SmpField(v));
  }

  lemma PriceLetters(head: string, price: string, smp: string)
    ensures head + ",\"price\"" + (":" + price + smp + "}") == head + (",\"price\":" + price) + smp + "}"
    ensures ":" + price + "" + "}" == ":" + price + "}"
  {
    assert ",\"price\"" + ":" == ",\"price\":";
  }

  lemma Single(a: string)
    ensures Join([a]) == a
  {
  }

  lemma MarketText(l: Target, v: Values)
    requires l.kind.Market?
    ensures Closing(l, v) != [] && Join(Closing(l, v)) == ":" + v.qty + KindText(l, v) + SmpField(v) + "}"
  {
    hide Join;
    var rest := if v.smp.None? then ["}"] else ["" + ",", "smp_id", ":", v.smp.value, "}"];
    assert "" + "," == ",";
    MarketClosing(v.qty, rest);
    assert Closing(l, v) == [":" + v.qty + ",", "ord_type", ":", "MARKET"] + rest;
    if v.smp.None? {
      Single("}");
    } else {
      SmpEnd("", v.smp.value);
    }
    EndLetters(":" + v.qty + KindText(l, v), SmpField(v));
  }

  lemma EndLetters(head: string, smp: string)
    ensures head + ("" + smp + "}") == head + smp + "}"
    ensures head + "}" == head + "" + "}"
  {
  }

  /** The payload is its pieces, joined. */
  lemma PayloadIsJoin(l: Target, v: Values)
    ensures Payload(l, v) == Join(Pieces(l, v))
  {
    hide Join, Opening, Closing, OrderId, KindText, SmpField;
    OpeningText(l, v);
    if l.kind.New? {
      NewText(l, v);
    } else {
      MarketText(l, v);
    }
    JoinConcat(Opening(l, v), Closing(l, v));
    Closed("{\"cl_ord_id\":\"" + OrderId(l, v), v.side, v.qty, KindText(l, v), SmpField(v));
  }

  lemma Closed(head: string, side: string, qty: string, kind: string, smp: string)
    ensures (head + "\",\"symbol\":\"IICPC\",\"side\":\"" + side + "\",\"qty") + [QUOTE] +
            (":" + qty + kind + smp + "}")
         == head + "\",\"symbol\":\"IICPC\",\"side\":\"" + side + "\",\"qty\":" + qty + kind + smp + "}"
  {
    assert "\",\"qty" + [QUOTE] + ":" == "\",\"qty\":";
  }

  // ----- The places of the values -----

  datatype Slot = ClSeqSlot | SideSlot | QtySlot | PriceSlot | SmpSlot

  predicate Has(l: Target, v: Values, slot: Slot) {
    match slot
    case PriceSlot => l.kind.New?
    case SmpSlot => v.smp.Some?
    case _ => true
  }

  function Get(v: Values, slot: Slot): string
    requires slot.SmpSlot? ==> v.smp.Some?
  {
    match slot
    case ClSeqSlot => v.clSeq
    case SideSlot => v.side
    case QtySlot => v.qty
    case PriceSlot => v.price
    case SmpSlot => v.smp.value
  }

  function Set(v: Values, slot: Slot, text: string): Values {
    match slot
    case ClSeqSlot => v.(clSeq := text)
    case SideSlot => v.(side := text)
    case QtySlot => v.(qty := text)
    case PriceSlot => v.(price := text)
    case SmpSlot => v.(smp := Some(text))
  }

  /** Which piece is the key that is searched for. */
  function KeyPlace(l: Target, slot: Slot): nat {
    match slot
    case ClSeqSlot => 1
    case SideSlot => 9
    case QtySlot => 13
    case PriceSlot => 15
    case SmpSlot => if l.kind.New? then 17 else 19
  }

  function Key(slot: Slot): string {
    match slot
    case ClSeqSlot => "cl_ord_id"
    case SideSlot => "side"
    case QtySlot => "qty"
    case PriceSlot => "price"
    case SmpSlot => "smp_id"
  }

  /** Which piece holds the value; a number shares the piece after its key. */
  function Place(l: Target, slot: Slot): nat {
    KeyPlace(l, slot) + if slot.QtySlot? || slot.PriceSlot? then 1 else 2
  }

  function Lead(l: Target, slot: Slot): string {
    match slot
    case ClSeqSlot => IdHead(l)
    case QtySlot => ":"
    case PriceSlot => ":"
    case _ => ""
  }

  function Trail(l: Target, v: Values, slot: Slot): string {
    match slot
    case ClSeqSlot => "_" + FixFrame.Letter(l.kind)
    case QtySlot => ","
    case PriceSlot => if v.smp.Some? then "," else "}"
    case _ => ""
  }

  /** What the search looks for after the quoted key. */
  function More(l: Target, slot: Slot): string {
    match slot
    case ClSeqSlot => ":\"" + IdHead(l)
    case QtySlot => ":"
    case PriceSlot => ":"
    case _ => ":\""
  }

  function Needle(l: Target, slot: Slot): string {
    [QUOTE] + (Key(slot) + [QUOTE] + More(l, slot))
  }

  lemma SlotPiece(l: Target, v: Values, slot: Slot)
    requires Has(l, v, slot)
    ensures Place(l, slot) < |Pieces(l, v)|
    ensures Pieces(l, v)[Place(l, slot)] == Lead(l, slot) + Get(v, slot) + Trail(l, v, slot)
    ensures Pieces(l, v)[KeyPlace(l, slot)] == Key(slot)
    ensures Place(l, slot) == KeyPlace(l, slot) + 2 ==> Pieces(l, v)[KeyPlace(l, slot) + 1] == ":"
  {
    hide IdHead;
    assert slot.SideSlot? || slot.SmpSlot? ==> "" + Get(v, slot) + "" == Get(v, slot);
  }

  lemma SetOpening(l: Target, v: Values, slot: Slot, text: string)
    requires slot.ClSeqSlot? || slot.SideSlot?
    ensures Opening(l, Set(v, slot, text)) == Opening(l, v)[Place(l, slot) := Lead(l, slot) + text + Trail(l, v, slot)]
    ensures Closing(l, Set(v, slot, text)) == Closing(l, v)
  {
    hide IdHead;
    assert "" + text + "" == text;
  }

  lemma SetClosing(l: Target, v: Values, slot: Slot, text: string)
    requires Has(l, v, slot) && !slot.ClSeqSlot? && !slot.SideSlot?
    ensures Place(l, slot) - 14 < |Closing(l, v)|
    ensures Opening(l, Set(v, slot, text)) == Opening(l, v)
    ensures Closing(l, Set(v, slot, text)) ==
            Closing(l, v)[Place(l, slot) - 14 := Lead(l, slot) + text + Trail(l, v, slot)]
  {
    hide IdHead;
    assert "" + text + "" == text;
  }

  /** Setting a value changes one piece. */
  lemma SetPiece(l: Target, v: Values, slot: Slot, text: string)
    requires Has(l, v, slot)
    ensures Has(l, Set(v, slot, text), slot) && Place(l, slot) < |Pieces(l, v)|
    ensures Pieces(l, Set(v, slot, text)) == Pieces(l, v)[Place(l, slot) := Lead(l, slot) + text + Trail(l, v, slot)]
  {
    hide Opening, Closing, Lead, Trail;
    if slot.ClSeqSlot? || slot.SideSlot? {
      SetOpening(l, v, slot, text);
    } else {
      SetClosing(l, v, slot, text);
    }
  }

  // ----- The searches -----

  ghost predicate CleanTarget(l: Target) {
    QUOTE !in l.session
  }

  ghost predicate CleanValues(v: Values) {
    && AllDigits(v.clSeq) && (v.side == "BUY" || v.side == "SELL") && AllDigits(v.qty) && AllDigits(v.price)
    && (v.smp.Some? ==> AllDigits(v.smp.value))
  }

  /** Keys end in a small letter; no other piece does. */
  ghost predicate Plain(t: string) {
    t != [] ==> !('a' <= t[|t| - 1] <= 'z')
  }

  function KeyAt(l: Target, j: nat): string {
    match j
    case 1 => "cl_ord_id" case 5 => "symbol" case 9 => "side" case 13 => "qty"
    case 15 => if l.kind.New? then "price" else "ord_type"
    case _ => "smp_id"
  }

  predicate IsKeyPlace(l: Target, j: nat) {
    j == 1 || j == 5 || j == 9 || j == 13 || j == 15 || j == if l.kind.New? then 17 else 19
  }

  lemma DigitsPlain(s: string)
    requires AllDigits(s)
    ensures Plain(s) && QUOTE !in s
  {
  }

  lemma OpeningAt(l: Target, v: Values, j: nat)
    requires CleanValues(v) && j < 14
    ensures if IsKeyPlace(l, j) then Opening(l, v)[j] == KeyAt(l, j) else Plain(Opening(l, v)[j])
  {
    hide IdHead;
  }

  lemma ClosingAt(l: Target, v: Values, j: nat)
    requires CleanValues(v) && 14 <= j < 14 + |Closing(l, v)|
    ensures if IsKeyPlace(l, j) then Closing(l, v)[j - 14] == KeyAt(l, j) else Plain(Closing(l, v)[j - 14])
  {
    if v.smp.Some? {
      DigitsPlain(v.smp.value);
    }
  }

  lemma PieceAt(l: Target, v: Values, j: nat)
    requires CleanValues(v) && j < |Pieces(l, v)|
    ensures if IsKeyPlace(l, j) then Pieces(l, v)[j] == KeyAt(l, j) else Plain(Pieces(l, v)[j])
  {
    hide Opening, Closing, Plain, KeyAt, IsKeyPlace;
    if j < 14 {
      OpeningAt(l, v, j);
    } else {
      ClosingAt(l, v, j);
    }
  }

  lemma KeysPlain(slot: Slot)
    ensures !Plain(Key(slot)) && QUOTE !in Key(slot)
  {
  }

  lemma OpeningClean(l: Target, v: Values)
    requires CleanTarget(l) && CleanValues(v)
    ensures QuoteFree(Opening(l, v))
  {
    DigitsPlain(v.clSeq);
    DigitsPlain(Dec(l.bot));
    hide Dec;
    assert QUOTE !in OrderId(l, v);
  }

  lemma ClosingClean(l: Target, v: Values)
    requires CleanValues(v)
    ensures QuoteFree(Closing(l, v))
  {
    DigitsPlain(v.qty);
    DigitsPlain(v.price);
    if v.smp.Some? {
      DigitsPlain(v.smp.value);
    }
  }

  lemma PiecesClean(l: Target, v: Values)
    requires CleanTarget(l) && CleanValues(v)
    ensures QuoteFree(Pieces(l, v))
  {
    hide Opening, Closing;
    OpeningClean(l, v);
    ClosingClean(l, v);
  }

  /** A slot's key is found at its own place, and only a limit order has a price key. */
  lemma KeyIndex(l: Target, v: Values, slot: Slot)
    requires CleanValues(v) && (slot.SmpSlot? ==> v.smp.Some?)
    ensures WordIndex(Pieces(l, v), Key(slot)) == if Has(l, v, slot) then Some(KeyPlace(l, slot)) else None
  {
    hide Pieces, Plain;
    var ps := Pieces(l, v);
    KeysPlain(slot);
    forall j | 0 < j < |ps| && (Has(l, v, slot) ==> j < KeyPlace(l, slot)) ensures ps[j] != Key(slot) {
      PieceAt(l, v, j);
    }
    if Has(l, v, slot) {
      SlotPiece(l, v, slot);
    }
  }

  lemma MoreFollows(l: Target, v: Values, slot: Slot)
    requires Has(l, v, slot)
    ensures KeyPlace(l, slot) + 1 < |Pieces(l, v)| && More(l, slot) <= Join(Pieces(l, v)[KeyPlace(l, slot) + 1..])
    ensures |Join(Pieces(l, v)[..Place(l, slot)])| + 1 + |Lead(l, slot)| ==
            |Join(Pieces(l, v)[..KeyPlace(l, slot)])| + |Needle(l, slot)|
  {
    hide Pieces, IdHead;
    var ps, k := Pieces(l, v), KeyPlace(l, slot);
    SlotPiece(l, v, slot);
    JoinFirst(ps[k + 1..]);
    JoinLast(ps, k);
    if Place(l, slot) == k + 2 {
      JoinLast(ps, k + 1);
      JoinFirst(ps[k + 2..]);
      assert ps[k + 1..][1..] == ps[k + 2..];
      assert ":" + ([QUOTE] + Join(ps[k + 2..])) == ":\"" + Join(ps[k + 2..]);
    }
  }

  lemma JoinLast(ps: seq<string>, k: nat)
    requires 0 < k < |ps|
    ensures |Join(ps[..k + 1])| == |Join(ps[..k])| + 1 + |ps[k]|
  {
    assert ps[..k + 1] == ps[..k] + [ps[k]];
    JoinConcat(ps[..k], [ps[k]]);
  }

  /** Where a value starts, the request head included. */
  function Offset(l: Target, v: Values, slot: Slot): nat
    requires Has(l, v, slot)
  {
    SlotPiece(l, v, slot);
    |Prefix(l, |Payload(l, v)|)| + |Join(Pieces(l, v)[..Place(l, slot)])| + 1 + |Lead(l, slot)|
  }

  /** The search in the payload ends where the value starts. */
  lemma Found(l: Target, v: Values, slot: Slot)
    requires CleanTarget(l) && CleanValues(v) && (slot.SmpSlot? ==> v.smp.Some?)
    ensures var r := Find(Payload(l, v), Needle(l, slot));
      if Has(l, v, slot) then
        r.Some? && |Prefix(l, |Payload(l, v)|)| + r.value + |Needle(l, slot)| == Offset(l, v, slot)
      else r.None?
  {
    hide Pieces, Join, Payload, Prefix, Lead, More, Find;
    PayloadIsJoin(l, v);
    PiecesClean(l, v);
    KeyIndex(l, v, slot);
    KeysPlain(slot);
    if Has(l, v, slot) {
      MoreFollows(l, v, slot);
    }
    NotEmpty(l, v);
    FindWord(Pieces(l, v), Key(slot), More(l, slot));
  }

  lemma NotEmpty(l: Target, v: Values)
    ensures Pieces(l, v) != []
  {
  }
}
