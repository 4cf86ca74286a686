/** The bytes a fleet puts on the wire, from the template caches and the timestamp patch, as the engine reads them. */
module FleetWire {
  import opened Wrappers
  import opened Delimited
  import opened OrderWire
  import opened FixFrame
  import opened FixOffsets
  import opened FixTemplate
  import opened FixCache
  import opened Calendar
  import opened FixTimestamp
  import opened OrderStamp
  import opened Fleet

  /** The template cache of one task. */
  function OwnerOf(s: Session, t: nat): Owner {
    Owner(s.version, s.id, t, s.count)
  }

  /** Limit and market orders go through the cache. */
  predicate Templated(a: Action) {
    a.kind.NewLimit? || a.kind.NewMarket?
  }

  function CallOf(a: Action): Call {
    if a.kind.NewMarket? then Call(Market, a.number, a.qty, 0, a.side.Buy?)
    else Call(New, a.number, a.qty, a.price, a.side.Buy?)
  }

  /** The render calls behind a stretch of a task's orders. */
  function CallsOf(actions: seq<Action>): seq<Call> {
    if actions == [] then []
    else
      var a := actions[|actions| - 1];
      CallsOf(actions[..|actions| - 1]) + if Templated(a) then [CallOf(a)] else []
  }

  /** Rendered bytes and where their time is. */
  datatype Rendered = Rendered(bytes: string, timeAt: Option<nat>)

  /** Cancels and replaces are rendered from scratch and searched for the placeholder. */
  function FromScratch(s: Session, t: nat, a: Action): Rendered {
    var bytes := Encode(s.version, s.id, t, a, PLACEHOLDER);
    Rendered(bytes, Shift(Find(bytes, "52=" + PLACEHOLDER), 3))
  }

  /** Limit and market orders are patched into the template the earlier calls left behind. */
  function FromCache(s: Session, t: nat, earlier: seq<Call>, c: Call): Rendered {
    var w := OwnerOf(s, t);
    var m := FixCache.After(w, earlier);
    Rendered(Output(w, m, c), Some(Offset(LineOf(w, c.kind), Step(w, m, c)[c.kind].values, TimeSlot)))
  }

  /** What a task renders for its k-th order, given all it rendered before. */
  function RenderOrder(s: Session, t: nat, k: nat): Rendered
    requires t < |s.tasks| && k < |Stream(s, t)|
  {
    var a := Stream(s, t)[k];
    if Templated(a) then FromCache(s, t, CallsOf(Stream(s, t)[..k]), CallOf(a)) else FromScratch(s, t, a)
  }

  ghost predicate Stampable(r: Rendered, ts: string) {
    && r.timeAt.Some? && r.timeAt.value + |ts| + 4 <= |r.bytes|
    && Decimals.AllDigits(r.bytes[|r.bytes| - 4..|r.bytes| - 1])
  }

  /** The bytes after the timestamp patch. */
  ghost function OnWire(r: Rendered, ts: string): string
    requires Stampable(r, ts)
  {
    Stamped(r.bytes, r.timeAt.value, ts)
  }

  lemma PlaceholderText()
    ensures CleanText(PLACEHOLDER) && |PLACEHOLDER| == 21
  {
    PlaceholderClean();
  }

  lemma ScratchReads(s: Session, t: nat, a: Action, ts: string)
    requires CleanText(s.version) && CleanAction(s.id, a, ts) && |ts| == 21
    requires a.qty < U64_LIMIT && a.smp <= SMP_ID_NONE
    ensures Stampable(FromScratch(s, t, a), ts)
    ensures ParseOrder(OnWire(FromScratch(s, t, a), ts)) == Some(OrderWire.Seen(s.id, t, a))
  {
    hide Encode, ParseOrder, Find, Stamped, OrderWire.Seen, CleanText;
    PlaceholderText();
    StampEncode(s.version, s.id, t, a, PLACEHOLDER, ts);
    ParseEncode(s.version, s.id, t, a, ts);
  }

  /** A market order's price plays no part. */
  function Priced(a: Action): Action {
    if a.kind.NewMarket? then a.(price := 0) else a
  }

  lemma CacheReads(s: Session, t: nat, earlier: seq<Call>, a: Action, ts: string)
    requires CleanText(s.version) && CleanAction(s.id, a, ts) && |ts| == 21
    requires a.qty < U64_LIMIT && s.count <= 1000 && Templated(a) && a.smp == SmpFor(s.count, a.number) <= SMP_ID_NONE
    ensures Stampable(FromCache(s, t, earlier, CallOf(a)), ts)
    ensures ParseOrder(OnWire(FromCache(s, t, earlier, CallOf(a)), ts)) == Some(OrderWire.Seen(s.id, t, a))
  {
    hide ParseOrder, Stamped, Frame, Offset, FixCache.After, Step, CleanText;
    var w, c, a' := OwnerOf(s, t), CallOf(a), Priced(a);
    AfterSynced(w, earlier);
    StepExact(w, FixCache.After(w, earlier), c);
    var l, v := LineOf(w, c.kind), Scratch(ArgsOf(w, c));
    assert l == LineFor(s.version, s.id, t, a') && ArgsOf(w, c) == ArgsFor(a');
    hide Scratch;
    ScratchTime(ArgsFor(a'));
    StampedFrame(l, v, ts);
    FrameReads(s.version, s.id, t, a', ts);
    assert OrderWire.Seen(s.id, t, a') == OrderWire.Seen(s.id, t, a);
  }

  lemma ScratchTime(a: Args)
    ensures |Scratch(a).time| == 21
  {
    PlaceholderText();
  }

  lemma StampClean(t: Stamp)
    requires IsStamp(t)
    ensures CleanText(Text(t))
  {
  }

  /** With at most 1000 self-match ids: whatever the interleaving, the cached or scratch-built bytes of every
      order, stamped with any send time, are read by the engine as the order the generator meant. */
  lemma FleetReads(s: Session, arrivals: seq<Arrival>, i: nat, time: Stamp)
    requires SessionOk(s) && s.count <= 1000 && Interleaving(s, arrivals) && i < |arrivals| && IsStamp(time)
    ensures var r := RenderOrder(s, arrivals[i].task, arrivals[i].k);
            Stampable(r, Text(time)) && ParseOrder(OnWire(r, Text(time))) == Some(Orders(s, arrivals)[i])
  {
    hide ParseOrder, OnWire, Stampable, FromCache, FromScratch, Stream, Text, CleanText;
    var t, k := arrivals[i].task, arrivals[i].k;
    var a := Stream(s, t)[k];
    IdentifierClean(s.version);
    IdentifierClean(s.id);
    StreamClean(s, t, k);
    StampClean(time);
    if Templated(a) {
      StreamSmp(s, t, k);
      CacheReads(s, t, CallsOf(Stream(s, t)[..k]), a, Text(time));
    } else {
      ScratchReads(s, t, a, Text(time));
    }
  }

  lemma StreamSmp(s: Session, t: nat, k: nat)
    requires t < |s.tasks| && k < |Stream(s, t)|
    ensures Stream(s, t)[k].smp == SmpFor(s.count, Stream(s, t)[k].number)
  {
  }
}
