/** The engine reads the orders that the JSON templates send. */
module JsonReads {
  import opened Wrappers
  import opened PriceTimeBook
  import opened OrderWire
  import opened JsonFrame
  import opened JsonTemplate
  import opened JsonCache
  import opened JsonWire
  import opened HttpRequests
  import FixTemplate
  import FixCache

  /** The text an order is read from: the body of a REST request, or the text of a WebSocket frame. */
  function TextOf(l: Target, bytes: string): Option<string> {
    if l.host.None? then Some(bytes)
    else match ParseRequest(bytes) case None => None case Some(r) => if r.upgrade then None else Some(r.body)
  }

  function ReadOrder(l: Target, bytes: string): Option<Order> {
    match TextOf(l, bytes) case None => None case Some(text) => ParseOrderJson(text)
  }

  /** A host that fits a header line, and a payload whose length is a machine word. */
  ghost predicate Sendable(l: Target, a: Args) {
    && CleanTarget(l) && |Payload(l, Scratch(a))| < U64_LIMIT
    && (l.host.Some? ==> '\r' !in l.host.value && '\n' !in l.host.value)
  }

  /** An order rendered from scratch reads back as itself: kind, side, quantity, id, self-match id, and price. */
  lemma BytesRead(l: Target, a: Args)
    requires Sendable(l, a) && a.qty < U64_LIMIT && a.smp <= FixTemplate.SMP_ID_NONE
    ensures ReadOrder(l, Bytes(l, Scratch(a))) == Some(Meant(l, a))
  {
    hide Payload, Scratch, ParseOrderJson, ParseRequest, RequestHead, Meant;
    var body := Payload(l, Scratch(a));
    PayloadReads(l, a);
    if l.host.Some? {
      RequestReads(l.host.value, body, "");
      assert RequestHead(l.host.value, |body|) + body + "" == RequestHead(l.host.value, |body|) + body;
    } else {
      assert "" + body == body;
    }
  }

  /** With at most 1000 self-match ids: after any calls, what the cache sends for an order is read by the
      engine as that order. */
  lemma CacheReads(w: Owner, calls: seq<Call>, c: Call)
    requires OwnerOk(w) && w.count <= 1000 && FixCache.CallOk(c) && Sendable(TargetOf(w, c.kind), ArgsOf(w, c))
    ensures ReadOrder(TargetOf(w, c.kind), Output(w, JsonCache.After(w, calls), c)) ==
            Some(Meant(TargetOf(w, c.kind), ArgsOf(w, c)))
  {
    hide ReadOrder, Sendable, Bytes, Scratch, JsonCache.After, Step, Meant;
    AfterSynced(w, calls);
    StepExact(w, JsonCache.After(w, calls), c);
    BytesRead(TargetOf(w, c.kind), ArgsOf(w, c));
  }

  /** What that order is, in terms of the call. */
  lemma MeantIs(w: Owner, c: Call)
    requires OwnerOk(w)
    ensures var o := Meant(TargetOf(w, c.kind), ArgsOf(w, c));
            && (o.kind == NewLimit <==> c.kind.New?) && (o.kind == NewMarket <==> c.kind.Market?)
            && (o.side == Buy <==> c.buy) && o.qty == c.qty && o.origId == ""
            && (c.kind.New? && c.price < I64_LIMIT ==> o.price == c.price)
            && (o.smp == None <==> w.count <= 1) && (w.count > 1 ==> o.smp == Some(c.number % w.count))
  {
  }
}
