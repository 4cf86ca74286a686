/** The cache of JSON templates over whole sequences of orders. */
module JsonCache {
  import opened Wrappers
  import opened Decimals
  import opened JsonText
  import opened JsonFrame
  import opened JsonTemplate
  import FixFrame
  import FixTemplate
  import FixCache

  type Call = FixCache.Call

  /** What the cache is made for; `count` self-match ids rotate. */
  datatype Owner = Owner(host: Option<string>, session: string, bot: nat, count: nat)

  function TargetOf(w: Owner, kind: FixFrame.FrameKind): Target {
    Target(w.host, w.session, w.bot, kind)
  }

  function ArgsOf(w: Owner, c: Call): Args {
    FixTemplate.Args(c.number, c.qty, c.price, c.buy, FixCache.SmpFor(w.count, c.number))
  }

  ghost predicate OwnerOk(w: Owner) {
    FixFrame.Identifier(w.session) && w.count <= SMP_ID_NONE
  }

  lemma SessionClean(w: Owner, kind: FixFrame.FrameKind)
    requires OwnerOk(w)
    ensures CleanTarget(TargetOf(w, kind))
  {
  }

  // ----- The cache as a value -----

  type Cached = map<FixFrame.FrameKind, Baked>

  function Step(w: Owner, m: Cached, c: Call): Cached {
    var a := ArgsOf(w, c);
    m[c.kind := PatchBaked(c.kind, if c.kind in m then m[c.kind] else Fresh(a), a)]
  }

  function Output(w: Owner, m: Cached, c: Call): string {
    Bytes(TargetOf(w, c.kind), Step(w, m, c)[c.kind].values)
  }

  function After(w: Owner, calls: seq<Call>): Cached {
    if calls == [] then map[] else Step(w, After(w, calls[..|calls| - 1]), calls[|calls| - 1])
  }

  /** The bytes of every call of a sequence. */
  function Outputs(w: Owner, calls: seq<Call>): seq<string> {
    if calls == [] then []
    else
      var before := calls[..|calls| - 1];
      Outputs(w, before) + [Output(w, After(w, before), calls[|calls| - 1])]
  }

  /** The same calls, each rendered from scratch. */
  function References(w: Owner, calls: seq<Call>): seq<string> {
    if calls == [] then []
    else
      var c := calls[|calls| - 1];
      References(w, calls[..|calls| - 1]) + [Bytes(TargetOf(w, c.kind), Scratch(ArgsOf(w, c)))]
  }

  // ----- Up to a thousand ids the cache is exact -----

  ghost predicate Synced(b: Baked) {
    b.values.smp == FixTemplate.SmpText(b.smp) && (b.smp != SMP_ID_NONE ==> b.smp < 1000)
  }

  lemma PatchExact(kind: FixFrame.FrameKind, b: Baked, a: Args)
    requires Synced(b) && (a.smp == SMP_ID_NONE || a.smp < 1000)
    ensures PatchBaked(kind, b, a) == Fresh(a) && Synced(Fresh(a))
  {
    hide Dec, Pad, LowDigits;
    FixCache.FitsThree(a.smp);
    FixCache.FitsThree(b.smp);
    if b.values.smp.Some? && !NeedsRebuild(kind, b, a) && a.smp != b.smp {
      assert b.values.smp.value[3..] == [];
      assert LowDigits(a.smp, 3) + [] == LowDigits(a.smp, 3);
    }
  }

  lemma FreshSynced(a: Args)
    requires a.smp == SMP_ID_NONE || a.smp < 1000
    ensures Synced(Fresh(a))
  {
  }

  ghost predicate AllSynced(m: Cached) {
    forall k :: k in m ==> Synced(m[k])
  }

  lemma StepExact(w: Owner, m: Cached, c: Call)
    requires w.count <= 1000 && AllSynced(m)
    ensures Step(w, m, c)[c.kind] == Fresh(ArgsOf(w, c)) && AllSynced(Step(w, m, c))
  {
    hide Fresh, PatchBaked, Synced;
    var a := ArgsOf(w, c);
    FreshSynced(a);
    PatchExact(c.kind, if c.kind in m then m[c.kind] else Fresh(a), a);
  }

  lemma {:induction false} AfterSynced(w: Owner, calls: seq<Call>)
    requires w.count <= 1000
    ensures AllSynced(After(w, calls))
  {
    if calls != [] {
      AfterSynced(w, calls[..|calls| - 1]);
      StepExact(w, After(w, calls[..|calls| - 1]), calls[|calls| - 1]);
    }
  }

  /** Every call sequence renders as from scratch. */
  lemma {:induction false} CacheExact(w: Owner, calls: seq<Call>)
    requires w.count <= 1000
    ensures Outputs(w, calls) == References(w, calls)
  {
    hide Bytes, Step, After, Scratch;
    if calls != [] {
      var before, c := calls[..|calls| - 1], calls[|calls| - 1];
      CacheExact(w, before);
      AfterSynced(w, before);
      StepExact(w, After(w, before), c);
    }
  }

  // ----- Beyond a thousand ids some call goes wrong -----

  lemma WiderDec(m: nat, n: nat)
    requires m <= n
    ensures |Dec(m)| <= |Dec(n)|
  {
    hide Dec;
    WidthBounds(m);
    WidthBounds(n);
    if |Dec(n)| < |Dec(m)| {
      Pow10Monotone(|Dec(n)|, |Dec(m)| - 1);
      assert false;
    }
  }

  /** A request's bytes determine its payload, the length being part of the head. */
  lemma BytesPayload(l: Target, p: string, q: string)
    requires Prefix(l, |p|) + p == Prefix(l, |q|) + q
    ensures p == q
  {
    hide Dec;
    var a, b := Prefix(l, |p|), Prefix(l, |q|);
    if |p| <= |q| {
      WiderDec(|p|, |q|);
    } else {
      WiderDec(|q|, |p|);
    }
    assert |p| == |q|;
    assert p == (a + p)[|a|..] && q == (b + q)[|b|..];
  }

  /** Orders with different self-match texts differ on the wire. */
  lemma SmpTells(l: Target, v: Values, v': Values)
    requires CleanTarget(l) && CleanValues(v) && CleanValues(v') && v.smp.Some? && v'.smp.Some? && v.smp != v'.smp
    ensures Bytes(l, v) != Bytes(l, v')
  {
    hide Pieces, Join, Payload, Prefix;
    if Bytes(l, v) == Bytes(l, v') {
      BytesPayload(l, Payload(l, v), Payload(l, v'));
      PayloadIsJoin(l, v);
      PayloadIsJoin(l, v');
      PiecesClean(l, v);
      PiecesClean(l, v');
      NotEmpty(l, v);
      NotEmpty(l, v');
      JoinInjective(Pieces(l, v), Pieces(l, v'));
      SmpPiece(l, v);
      SmpPiece(l, v');
      assert false;
    }
  }

  lemma SmpPiece(l: Target, v: Values)
    requires v.smp.Some?
    ensures Place(l, SmpSlot) < |Pieces(l, v)| && Pieces(l, v)[Place(l, SmpSlot)] == v.smp.value
  {
    hide Pieces;
    SlotPiece(l, v, SmpSlot);
    assert "" + v.smp.value + "" == v.smp.value;
  }

  lemma PatchSame(kind: FixFrame.FrameKind, a: Args)
    ensures PatchBaked(kind, Fresh(a), a) == Fresh(a)
  {
    hide Dec, Pad;
  }

  lemma BothCalls(w: Owner)
    requires w.count > 1000
    ensures ArgsOf(w, FixCache.FIRST).smp == 1000
    ensures ArgsOf(w, FixCache.SECOND).smp == if w.count == 1001 then 0 else 1001
    ensures var b := Fresh(ArgsOf(w, FixCache.FIRST));
      b.smp == 1000 && b.values == Values("1000", "BUY", Dec(1), Dec(1), Some("1000"))
    ensures Scratch(ArgsOf(w, FixCache.SECOND)) ==
            Values("1001", "BUY", Dec(1), Dec(1), Some(Pad(ArgsOf(w, FixCache.SECOND).smp, 3)))
  {
    hide Dec, Pad, FixCache.SmpFor;
    FixCache.FourDigitTexts();
    FixCache.Rotated(w.count);
  }

  /** Order 1001 patches three digits of the four that order 1000 wrote. */
  lemma SecondPatch(w: Owner)
    requires w.count > 1000
    ensures var a, b := ArgsOf(w, FixCache.SECOND), Fresh(ArgsOf(w, FixCache.FIRST));
      var v := PatchBaked(FixFrame.New, b, a).values;
      v.smp.Some? && Scratch(a).smp.Some? && v.smp != Scratch(a).smp
  {
    hide Dec, Pad, LowDigits, Scratch;
    var a := ArgsOf(w, FixCache.SECOND);
    BothCalls(w);
    FixCache.FourDigitTexts();
    FixCache.FourthDigitStays(a.smp);
  }

  lemma OneMore(w: Owner, calls: seq<Call>, c: Call)
    ensures After(w, calls + [c]) == Step(w, After(w, calls), c)
    ensures Outputs(w, calls + [c]) == Outputs(w, calls) + [Output(w, After(w, calls), c)]
    ensures References(w, calls + [c]) == References(w, calls) + [Bytes(TargetOf(w, c.kind), Scratch(ArgsOf(w, c)))]
  {
    hide Output, Step, Bytes, Scratch;
    assert (calls + [c])[..|calls|] == calls;
  }

  lemma NoCalls(w: Owner)
    ensures After(w, []) == map[] && Outputs(w, []) == [] && References(w, []) == []
  {
  }

  lemma TwoCalls(w: Owner)
    ensures var first, second := FixCache.FIRST, FixCache.SECOND;
      && Outputs(w, [first, second]) == [Output(w, map[], first), Output(w, Step(w, map[], first), second)]
      && References(w, [first, second]) == [Bytes(TargetOf(w, FixFrame.New), Scratch(ArgsOf(w, first))),
                                            Bytes(TargetOf(w, FixFrame.New), Scratch(ArgsOf(w, second)))]
  {
    hide Output, Outputs, References, After, Step, Bytes, Scratch, ArgsOf;
    NoCalls(w);
    OneMore(w, [], FixCache.FIRST);
    assert [] + [FixCache.FIRST] == [FixCache.FIRST];
    OneMore(w, [FixCache.FIRST], FixCache.SECOND);
    assert [FixCache.FIRST] + [FixCache.SECOND] == [FixCache.FIRST, FixCache.SECOND];
  }

  /** With more ids than three digits hold, orders 1000 and 1001 already disagree. */
  lemma CacheWrong(w: Owner)
    requires OwnerOk(w) && w.count > 1000
    ensures Outputs(w, [FixCache.FIRST, FixCache.SECOND]) != References(w, [FixCache.FIRST, FixCache.SECOND])
  {
    hide Bytes, PatchBaked, Scratch, ArgsOf, TargetOf;
    var l, a, b := TargetOf(w, FixFrame.New), ArgsOf(w, FixCache.SECOND), Fresh(ArgsOf(w, FixCache.FIRST));
    TwoCalls(w);
    PatchSame(FixFrame.New, ArgsOf(w, FixCache.FIRST));
    SecondPatch(w);
    SessionClean(w, FixFrame.New);
    ScratchShape(a);
    ScratchShape(ArgsOf(w, FixCache.FIRST));
    PatchShape(FixFrame.New, b, a);
    SmpTells(l, PatchBaked(FixFrame.New, b, a).values, Scratch(a));
    assert Output(w, Step(w, map[], FixCache.FIRST), FixCache.SECOND) ==
        Bytes(l, PatchBaked(FixFrame.New, b, a).values);
    assert Outputs(w, [FixCache.FIRST, FixCache.SECOND])[1] != References(w, [FixCache.FIRST, FixCache.SECOND])[1];
  }

  /** The cache renders every call sequence as from scratch exactly when the ids fit three digits. */
  lemma CacheExactIff(w: Owner)
    requires OwnerOk(w)
    ensures (forall calls :: (forall c :: c in calls ==> FixCache.CallOk(c)) ==>
               Outputs(w, calls) == References(w, calls))
            <==> w.count <= 1000
  {
    hide Outputs, References;
    if w.count <= 1000 {
      forall calls ensures Outputs(w, calls) == References(w, calls) {
        CacheExact(w, calls);
      }
    } else {
      CacheWrong(w);
      assert forall c :: c in [FixCache.FIRST, FixCache.SECOND] ==> FixCache.CallOk(c);
    }
  }

  // ----- The cache object -----

  function Slots(news: Option<Baked>, markets: Option<Baked>): Cached {
    (if news.Some? then map[FixFrame.New := news.value] else map[])
    + (if markets.Some? then map[FixFrame.Market := markets.value] else map[])
  }

  /** A call touches its own kind's slot. */
  lemma SlotStep(w: Owner, news: Option<Baked>, markets: Option<Baked>, c: Call)
    ensures var a := ArgsOf(w, c);
      Step(w, Slots(news, markets), c) ==
      if c.kind.New? then Slots(Some(PatchBaked(c.kind, news.UnwrapOr(Fresh(a)), a)), markets)
      else Slots(news, Some(PatchBaked(c.kind, markets.UnwrapOr(Fresh(a)), a)))
    ensures var a := ArgsOf(w, c);
      Output(w, Slots(news, markets), c) ==
      Bytes(TargetOf(w, c.kind),
            PatchBaked(c.kind, (if c.kind.New? then news else markets).UnwrapOr(Fresh(a)), a).values)
  {
    hide Bytes, PatchBaked, Fresh;
  }

  ghost function Seen(t: Template?): Option<Baked>
    reads t
  {
    if t == null then None else Some(t.Content())
  }

  /** Patches a template, building it first when there is none. */
  method Take(t: Template?, l: Target, a: Args) returns (r: Template, bytes: array<char>)
    requires CleanTarget(l) && (t != null ==> t.Valid() && t.target == l)
    modifies t, if t != null then {t.buf} else {}
    ensures r.Valid() && r.target == l && (if t != null then r == t else fresh(r))
    ensures fresh(r.buf) || (t != null && r.buf == old(t.buf))
    ensures r.Content() == PatchBaked(l.kind, old(Seen(t)).UnwrapOr(Fresh(a)), a)
    ensures fresh(bytes) && bytes != r.buf && bytes[..] == Bytes(l, r.values)
  {
    hide Bytes, Shape, PatchBaked, Fresh, OffsetsOf;
    if t == null {
      r := new Template(l, a);
    } else {
      r := t;
    }
    bytes := r.Patch(a);
  }

  class TemplateCache {
    const owner: Owner
    var news: Template?
    var markets: Template?

    ghost predicate Holds(t: Template, kind: FixFrame.FrameKind)
      reads t, t.buf
    {
      t.Valid() && t.target == TargetOf(owner, kind)
    }

    ghost predicate Valid()
      reads this, news, markets, if news != null then {news.buf} else {}, if markets != null then {markets.buf} else {}
    {
      && OwnerOk(owner)
      && (news != null ==> Holds(news, FixFrame.New))
      && (markets != null ==> Holds(markets, FixFrame.Market))
      && (news != null && markets != null ==> news != markets && news.buf != markets.buf)
    }

    ghost function Content(): Cached
      reads this, news, markets
    {
      Slots(Seen(news), Seen(markets))
    }

    constructor (owner: Owner)
      requires OwnerOk(owner)
      ensures Valid() && this.owner == owner && Content() == map[]
    {
      this.owner := owner;
      news, markets := null, null;
    }

    method RenderNew(number: nat, price: nat, qty: nat, buy: bool) returns (bytes: array<char>)
      requires Valid()
      modifies this, news, if news != null then {news.buf} else {}
      ensures Valid() && Content() == Step(owner, old(Content()), FixCache.Call(FixFrame.New, number, qty, price, buy))
      ensures fresh(bytes)
      ensures bytes[..] == Output(owner, old(Content()), FixCache.Call(FixFrame.New, number, qty, price, buy))
    {
      hide Bytes, Shape, PatchBaked, OffsetsOf, CleanTarget, Step, Output, Slots, ArgsOf, Fresh;
      var c := FixCache.Call(FixFrame.New, number, qty, price, buy);
      SessionClean(owner, FixFrame.New);
      SlotStep(owner, Seen(news), Seen(markets), c);
      news, bytes := Take(news, TargetOf(owner, FixFrame.New), ArgsOf(owner, c));
      assert Seen(markets) == old(Seen(markets));
    }

    method RenderMarket(number: nat, qty: nat, buy: bool) returns (bytes: array<char>)
      requires Valid()
      modifies this, markets, if markets != null then {markets.buf} else {}
      ensures Valid() && Content() == Step(owner, old(Content()), FixCache.Call(FixFrame.Market, number, qty, 0, buy))
      ensures fresh(bytes)
      ensures bytes[..] == Output(owner, old(Content()), FixCache.Call(FixFrame.Market, number, qty, 0, buy))
    {
      hide Bytes, Shape, PatchBaked, OffsetsOf, CleanTarget, Step, Output, Slots, ArgsOf, Fresh;
      var c := FixCache.Call(FixFrame.Market, number, qty, 0, buy);
      SessionClean(owner, FixFrame.Market);
      SlotStep(owner, Seen(news), Seen(markets), c);
      markets, bytes := Take(markets, TargetOf(owner, FixFrame.Market), ArgsOf(owner, c));
      assert Seen(news) == old(Seen(news));
    }
  }
}
