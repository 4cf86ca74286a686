/** The cache of FIX templates over whole sequences of orders. */
module FixCache {
  import opened Basics
  import opened Wrappers
  import opened Decimals
  import opened Delimited
  import opened FixFrame
  import opened FixOffsets
  import opened FixTemplate

  /** One render call. */
  datatype Call = Call(kind: FrameKind, number: nat, qty: nat, price: nat, buy: bool)

  /** What the cache is made for; `count` self-match ids rotate. */
  datatype Owner = Owner(version: string, session: string, bot: nat, count: nat)

  function LineOf(w: Owner, kind: FrameKind): Line {
    Line(w.version, w.session, w.bot, kind)
  }

  /** The self-match id of a sequence number. */
  function SmpFor(count: nat, number: nat): nat {
    if count <= 1 then SMP_ID_NONE else number % count
  }

  function ArgsOf(w: Owner, c: Call): Args {
    Args(c.number, c.qty, c.price, c.buy, SmpFor(w.count, c.number))
  }

  predicate CallOk(c: Call) {
    c.number < U64_MAX && c.qty <= U64_MAX && c.price <= U64_MAX
  }

  ghost predicate OwnerOk(w: Owner) {
    Identifier(w.version) && Identifier(w.session) && w.count <= SMP_ID_NONE
  }

  lemma ArgsOk(w: Owner, c: Call)
    requires OwnerOk(w) && CallOk(c)
    ensures InRange(ArgsOf(w, c)) && CleanLine(LineOf(w, c.kind))
  {
    IdentifierClean(w.version);
    IdentifierClean(w.session);
  }

  // ----- The cache as a value -----

  type Cached = map<FrameKind, Baked>

  function Fresh(a: Args): Baked {
    Baked(Scratch(a), a.smp)
  }

  /** A first order builds the template; every order then patches it. */
  function Step(w: Owner, m: Cached, c: Call): Cached {
    var a := ArgsOf(w, c);
    m[c.kind := PatchBaked(if c.kind in m then m[c.kind] else Fresh(a), a)]
  }

  function Output(w: Owner, m: Cached, c: Call): string {
    Frame(LineOf(w, c.kind), Step(w, m, c)[c.kind].values)
  }

  function After(w: Owner, calls: seq<Call>): Cached {
    if calls == [] then map[] else Step(w, After(w, calls[..|calls| - 1]), calls[|calls| - 1])
  }

  /** The bytes of every call of a sequence. */
  function Outputs(w: Owner, calls: seq<Call>): seq<string> {
    if calls == [] then []
    else
      var before := calls[..|calls| - 1];
      Outputs(w, before) + [Output(w, After(w, before), calls[|calls| - 1])]
  }

  /** The same calls, each rendered from scratch. */
  function References(w: Owner, calls: seq<Call>): seq<string> {
    if calls == [] then []
    else
      var c := calls[|calls| - 1];
      References(w, calls[..|calls| - 1]) + [Render(LineOf(w, c.kind), ArgsOf(w, c))]
  }

  // ----- Up to a thousand ids the cache is exact -----

  /** The baked self-match text is the padded id. */
  ghost predicate Synced(b: Baked) {
    && (b.values.smp.None? <==> b.smp == SMP_ID_NONE)
    && b.values.smp == SmpText(b.smp)
    && (b.smp != SMP_ID_NONE ==> b.smp < 1000)
  }

  lemma FitsThree(n: nat)
    ensures n < 1000 <==> |Dec(n)| <= 3
    ensures n < 1000 ==> LowDigits(n, 3) == Pad(n, 3) && |Pad(n, 3)| == 3
  {
    assert Pow10(1) == 10 && Pow10(2) == 100 && Pow10(3) == 1000;
    FitsWidth(n, 3);
    if n < 1000 {
      LowDigitsIsPad(n, 3);
    }
  }

  /** Below a thousand ids, patching gives the values of a frame built from scratch. */
  lemma PatchExact(b: Baked, a: Args)
    requires Synced(b) && (a.smp == SMP_ID_NONE || a.smp < 1000)
    ensures PatchBaked(b, a) == Fresh(a) && Synced(PatchBaked(b, a))
  {
    FitsThree(a.smp);
    FitsThree(b.smp);
    hide Dec;
    hide Pad;
    hide LowDigits;
    if b.values.smp.Some? && !NeedsRebuild(b, a) && a.smp != b.smp {
      assert b.values.smp.value[3..] == [];
      assert LowDigits(a.smp, 3) + [] == LowDigits(a.smp, 3);
    }
  }

  ghost predicate AllSynced(m: Cached) {
    forall k :: k in m ==> Synced(m[k])
  }

  lemma {:induction false} AfterSynced(w: Owner, calls: seq<Call>)
    requires w.count <= 1000
    ensures AllSynced(After(w, calls))
  {
    if calls != [] {
      var m, c := After(w, calls[..|calls| - 1]), calls[|calls| - 1];
      AfterSynced(w, calls[..|calls| - 1]);
      StepExact(w, m, c);
    }
  }

  lemma StepExact(w: Owner, m: Cached, c: Call)
    requires w.count <= 1000 && AllSynced(m)
    ensures Step(w, m, c)[c.kind] == Fresh(ArgsOf(w, c)) && AllSynced(Step(w, m, c))
  {
    var a := ArgsOf(w, c);
    hide Scratch;
    FreshSynced(a);
    PatchExact(if c.kind in m then m[c.kind] else Fresh(a), a);
    hide PatchBaked;
    hide Synced;
  }

  lemma FreshSynced(a: Args)
    requires a.smp == SMP_ID_NONE || a.smp < 1000
    ensures Synced(Fresh(a))
  {
  }

  /** Every call sequence renders as from scratch. */
  lemma {:induction false} CacheExact(w: Owner, calls: seq<Call>)
    requires w.count <= 1000
    ensures Outputs(w, calls) == References(w, calls)
  {
    if calls != [] {
      var before, c := calls[..|calls| - 1], calls[|calls| - 1];
      CacheExact(w, before);
      AfterSynced(w, before);
      StepExact(w, After(w, before), c);
      FrameIsFinalize(LineOf(w, c.kind), Scratch(ArgsOf(w, c)));
      hide Frame;
      hide Step;
      hide After;
    }
  }

  // ----- Beyond a thousand ids some call goes wrong -----

  lemma SmpTag(l: Line, v: Values)
    requires CleanLine(l) && CleanValues(v) && v.smp.Some?
    ensures ExtractTag(Frame(l, v), "7928") == Some(v.smp.value)
  {
    hide Frame;
    hide Fields;
    hide Clean;
    hide ExtractTag;
    hide CleanValues;
    AllClean(l, v);
    FrameIsWire(l, v);
    LeadIndex(l, v, SmpSlot);
    SlotField(l, v, SmpSlot);
    var fs, k := AllFields(l, v), Place(l, SmpSlot);
    assert fs[k] == "7928=" + v.smp.value + "";
    hide AllFields;
    hide Place;
    assert "7928" + "=" == "7928=";
    ExtractField(fs, "7928");
    assert fs[k][5..] == v.smp.value;
  }

  /** Frames with different self-match texts differ. */
  lemma SmpTells(l: Line, v: Values, v': Values)
    requires CleanLine(l) && CleanValues(v) && CleanValues(v') && v.smp.Some? && v'.smp.Some? && v.smp != v'.smp
    ensures Frame(l, v) != Frame(l, v')
  {
    SmpTag(l, v);
    SmpTag(l, v');
    hide Frame;
    hide ExtractTag;
    hide CleanValues;
  }

  const FIRST := Call(New, 1000, 1, 1, true)
  const SECOND := Call(New, 1001, 1, 1, true)

  lemma FourDigitTexts()
    ensures Dec(1000) == "1000" && Dec(1001) == "1001" && Pad(1000, 3) == "1000" && Pad(1001, 3) == "1001"
    ensures |Dec(0)| == 1 && |Pad(0, 3)| == 3
  {
    assert Dec(1) == "1";
    assert Dec(10) == "10";
    assert Dec(100) == "100";
  }

  /** Patching a template with the order it was built for changes nothing. */
  lemma PatchSame(a: Args)
    requires InRange(a)
    ensures PatchBaked(Fresh(a), a) == Fresh(a)
  {
    hide Pad;
    hide Dec;
  }

  /** Three digits written over the text of id 1000 are never the text of the next id. */
  lemma FourthDigitStays(smp: nat)
    requires smp == 0 || smp == 1001
    ensures LowDigits(smp, 3) + "1000"[3..] != Pad(smp, 3)
  {
    FourDigitTexts();
    hide Pad;
    hide Dec;
    var text := LowDigits(smp, 3) + "1000"[3..];
    hide LowDigits;
    assert "1000"[3..] == "0";
    assert |text| == 4 && text[3] == '0';
  }

  lemma PatchOver(b: Baked, a: Args, text: string)
    requires !NeedsRebuild(b, a) && b.values.smp == Some(text) && |text| >= SMP_ID_WIDTH && a.smp != b.smp
    ensures PatchBaked(b, a).values == Scratch(a).(smp := Some(LowDigits(a.smp, 3) + text[3..]))
  {
    hide Scratch;
    hide Dec;
    hide LowDigits;
  }

  lemma BothCalls(w: Owner)
    requires w.count > 1000
    ensures ArgsOf(w, FIRST).smp == 1000 && ArgsOf(w, SECOND).smp == if w.count == 1001 then 0 else 1001
    ensures var b := Fresh(ArgsOf(w, FIRST));
            b.values.clSeq == "1000" && b.values.smp == Some("1000") && b.smp == 1000
    ensures Scratch(ArgsOf(w, SECOND)).smp == Some(Pad(ArgsOf(w, SECOND).smp, 3))
    ensures ArgsOf(w, SECOND).number == 1001
  {
    hide Dec, Pad, SmpFor;
    FourDigitTexts();
    Rotated(w.count);
  }

  lemma Rotated(count: nat)
    requires count > 1000
    ensures SmpFor(count, 1000) == 1000
    ensures SmpFor(count, 1001) == if count == 1001 then 0 else 1001
  {
  }

  /** Order 1001 patches three digits of the four that order 1000 wrote. */
  lemma SecondPatch(w: Owner)
    requires w.count > 1000
    ensures var a, b := ArgsOf(w, SECOND), Fresh(ArgsOf(w, FIRST));
            && a.smp != SMP_ID_NONE && !NeedsRebuild(b, a)
            && PatchBaked(b, a).values.smp == Some(LowDigits(a.smp, 3) + "1000"[3..])
            && Scratch(a).smp.Some?
            && PatchBaked(b, a).values.smp != Scratch(a).smp
  {
    var a, b := ArgsOf(w, SECOND), Fresh(ArgsOf(w, FIRST));
    FourDigitTexts();
    BothCalls(w);
    FourthDigitStays(a.smp);
    hide Scratch;
    hide Fresh;
    hide ArgsOf;
    hide Dec;
    hide Pad;
    hide LowDigits;
    PatchOver(b, a, "1000");
  }

  lemma PatchedClean(w: Owner)
    requires OwnerOk(w) && w.count > 1000
    ensures var a, b := ArgsOf(w, SECOND), Fresh(ArgsOf(w, FIRST));
            CleanValues(PatchBaked(b, a).values) && CleanValues(Scratch(a))
  {
    var a, b := ArgsOf(w, SECOND), Fresh(ArgsOf(w, FIRST));
    ArgsOk(w, FIRST);
    ArgsOk(w, SECOND);
    SecondPatch(w);
    ScratchShape(ArgsOf(w, FIRST));
    ScratchShape(a);
    PatchShape(b, a);
    hide Shape;
    hide PatchBaked;
    hide Scratch;
    ShapeClean(PatchBaked(b, a).values);
    ShapeClean(Scratch(a));
  }

  lemma OneMore(w: Owner, calls: seq<Call>, c: Call)
    ensures After(w, calls + [c]) == Step(w, After(w, calls), c)
    ensures Outputs(w, calls + [c]) == Outputs(w, calls) + [Output(w, After(w, calls), c)]
    ensures References(w, calls + [c]) == References(w, calls) + [Render(LineOf(w, c.kind), ArgsOf(w, c))]
  {
    assert (calls + [c])[..|calls|] == calls;
    hide Output;
    hide Step;
    hide Render;
  }

  lemma TwoCalls(w: Owner)
    ensures Outputs(w, [FIRST, SECOND]) == [Output(w, map[], FIRST), Output(w, Step(w, map[], FIRST), SECOND)]
    ensures References(w, [FIRST, SECOND]) ==
            [Render(LineOf(w, New), ArgsOf(w, FIRST)), Render(LineOf(w, New), ArgsOf(w, SECOND))]
  {
    hide Output;
    hide Outputs;
    hide References;
    hide After;
    hide Step;
    hide Render;
    hide ArgsOf;
    NoCalls(w);
    OneMore(w, [], FIRST);
    assert [] + [FIRST] == [FIRST];
    OneMore(w, [FIRST], SECOND);
    assert [FIRST] + [SECOND] == [FIRST, SECOND];
  }

  lemma NoCalls(w: Owner)
    ensures After(w, []) == map[] && Outputs(w, []) == [] && References(w, []) == []
  {
  }

  /** With more ids than three digits hold, orders 1000 and 1001 already disagree. */
  lemma CacheWrong(w: Owner)
    requires OwnerOk(w) && w.count > 1000
    ensures Outputs(w, [FIRST, SECOND]) != References(w, [FIRST, SECOND])
  {
    var l, a, b := LineOf(w, New), ArgsOf(w, SECOND), Fresh(ArgsOf(w, FIRST));
    ArgsOk(w, FIRST);
    ArgsOk(w, SECOND);
    TwoCalls(w);
    PatchSame(ArgsOf(w, FIRST));
    SecondPatch(w);
    PatchedClean(w);
    FrameIsFinalize(l, Scratch(a));
    hide PatchBaked;
    hide Scratch;
    hide Frame;
    hide LowDigits;
    SmpTells(l, PatchBaked(b, a).values, Scratch(a));
    assert Output(w, Step(w, map[], FIRST), SECOND) == Frame(l, PatchBaked(b, a).values);
    assert Outputs(w, [FIRST, SECOND])[1] != References(w, [FIRST, SECOND])[1];
  }

  /** The cache renders every call sequence as from scratch exactly when the ids fit three digits. */
  lemma CacheExactIff(w: Owner)
    requires OwnerOk(w)
    ensures (forall calls :: (forall c :: c in calls ==> CallOk(c)) ==> Outputs(w, calls) == References(w, calls))
            <==> w.count <= 1000
  {
    if w.count <= 1000 {
      forall calls ensures Outputs(w, calls) == References(w, calls) {
        CacheExact(w, calls);
      }
    } else {
      CacheWrong(w);
      assert forall c :: c in [FIRST, SECOND] ==> CallOk(c);
    }
  }

  // ----- The cache object -----

  /** The two slots as a map. */
  function Slots(news: Option<Baked>, markets: Option<Baked>): Cached {
    (if news.Some? then map[New := news.value] else map[]) +
    (if markets.Some? then map[Market := markets.value] else map[])
  }

  /** A call touches its own kind's slot. */
  lemma SlotStep(w: Owner, news: Option<Baked>, markets: Option<Baked>, c: Call)
    ensures var a := ArgsOf(w, c);
            Step(w, Slots(news, markets), c) ==
            if c.kind.New? then Slots(Some(PatchBaked(news.UnwrapOr(Fresh(a)), a)), markets)
            else Slots(news, Some(PatchBaked(markets.UnwrapOr(Fresh(a)), a)))
    ensures var a := ArgsOf(w, c);
            Output(w, Slots(news, markets), c) ==
            Frame(LineOf(w, c.kind), PatchBaked((if c.kind.New? then news else markets).UnwrapOr(Fresh(a)), a).values)
  {
    hide Frame;
    hide PatchBaked;
    hide Fresh;
  }

  ghost function Seen(t: Template?): Option<Baked>
    reads t
  {
    if t == null then None else Some(t.Content())
  }

  /** Patches a template, building it first when there is none. */
  method Take(t: Template?, l: Line, a: Args) returns (r: Template, bytes: array<char>)
    requires CleanLine(l) && InRange(a) && (t != null ==> t.Valid() && t.line == l)
    modifies t, if t != null then {t.buf} else {}
    ensures r.Valid() && r.line == l && (if t != null then r == t else fresh(r))
    ensures fresh(r.buf) || (t != null && r.buf == old(t.buf))
    ensures r.Content() == PatchBaked(old(Seen(t)).UnwrapOr(Fresh(a)), a)
    ensures fresh(bytes) && bytes != r.buf && bytes[..] == Frame(l, r.values)
  {
    hide Frame;
    hide Shape;
    hide PatchBaked;
    hide Scratch;
    if t == null {
      r := new Template(l, a);
    } else {
      r := t;
    }
    bytes := r.Patch(a);
  }

  class TemplateCache {
    const owner: Owner
    var news: Template?
    var markets: Template?

    ghost predicate Holds(t: Template, kind: FrameKind)
      reads t, t.buf
    {
      t.Valid() && t.line == LineOf(owner, kind)
    }

    ghost predicate Valid()
      reads this, news, markets, if news != null then {news.buf} else {}, if markets != null then {markets.buf} else {}
    {
      && OwnerOk(owner)
      && (news != null ==> Holds(news, New))
      && (markets != null ==> Holds(markets, Market))
      && (news != null && markets != null ==> news != markets && news.buf != markets.buf)
    }

    ghost function Content(): Cached
      reads this, news, markets
    {
      Slots(Seen(news), Seen(markets))
    }

    constructor (owner: Owner)
      requires OwnerOk(owner)
      ensures Valid() && this.owner == owner && Content() == map[]
    {
      this.owner := owner;
      news, markets := null, null;
    }

    method RenderNew(number: nat, price: nat, qty: nat, buy: bool) returns (bytes: array<char>)
      requires Valid() && CallOk(Call(New, number, qty, price, buy))
      modifies this, news, if news != null then {news.buf} else {}
      ensures Valid() && Content() == Step(owner, old(Content()), Call(New, number, qty, price, buy))
      ensures fresh(bytes) && bytes[..] == Output(owner, old(Content()), Call(New, number, qty, price, buy))
    {
      hide Frame;
      hide Shape;
      hide PatchBaked;
      hide OffsetsOf;
      hide CleanLine;
      hide Step;
      hide Output;
      hide Slots;
      hide ArgsOf;
      var a := ArgsOf(owner, Call(New, number, qty, price, buy));
      ArgsOk(owner, Call(New, number, qty, price, buy));
      SlotStep(owner, Seen(news), Seen(markets), Call(New, number, qty, price, buy));
      news, bytes := Take(news, LineOf(owner, New), a);
      assert Seen(markets) == old(Seen(markets));
    }

    method RenderMarket(number: nat, qty: nat, buy: bool) returns (bytes: array<char>)
      requires Valid() && CallOk(Call(Market, number, qty, 0, buy))
      modifies this, markets, if markets != null then {markets.buf} else {}
      ensures Valid() && Content() == Step(owner, old(Content()), Call(Market, number, qty, 0, buy))
      ensures fresh(bytes) && bytes[..] == Output(owner, old(Content()), Call(Market, number, qty, 0, buy))
    {
      hide Frame;
      hide Shape;
      hide PatchBaked;
      hide OffsetsOf;
      hide CleanLine;
      hide Step;
      hide Output;
      hide Slots;
      hide ArgsOf;
      var a := ArgsOf(owner, Call(Market, number, qty, 0, buy));
      ArgsOk(owner, Call(Market, number, qty, 0, buy));
      SlotStep(owner, Seen(news), Seen(markets), Call(Market, number, qty, 0, buy));
      markets, bytes := Take(markets, LineOf(owner, Market), a);
      assert Seen(news) == old(Seen(news));
    }
  }
}
