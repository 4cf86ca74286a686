/** What the insert-then-match book keeps over every run, and how it agrees with greedy matching. */
module InsertFirstRuns {
  import opened Wrappers
  import opened PriceTimeBook
  import opened EngineSpec
  import opened BookInvariants
  import opened CrossedBook
  import opened InsertFirstSpec

  /** Does an order at this price agree with a resting one at that price? */
  predicate Agrees(side: Side, mine: int, other: int) {
    if side == Buy then mine >= other else mine <= other
  }

  ghost predicate Apart(side: Side, mine: seq<Resting>, other: seq<Resting>) {
    forall m, h :: m in mine && h in other ==> !Agrees(side, m.price, h.price)
  }

  /** Crossing, seen from the incoming side. */
  function CrossFor(side: Side, mine: seq<Resting>, other: seq<Resting>): Crossed {
    if side == Buy then Cross(mine, other) else Cross(other, mine)
  }

  function AsCrossed(side: Side, trades: seq<Execution>, mine: seq<Resting>, other: seq<Resting>,
                     filled: seq<string>): Crossed
  {
    if side == Buy then Crossed(trades, mine, other, filled) else Crossed(trades, other, mine, filled)
  }

  function Exec(side: Side, o: Resting, h: Resting, q: nat): Execution {
    if side == Buy then Execute(o, h, q) else Execute(h, o, q)
  }

  function Both(side: Side, a: seq<string>, b: seq<string>): seq<string> {
    if side == Buy then a + b else b + a
  }

  lemma CrossStops(side: Side, mine: seq<Resting>, other: seq<Resting>)
    requires mine == [] || other == [] || !Agrees(side, mine[0].price, other[0].price)
    ensures CrossFor(side, mine, other) == AsCrossed(side, [], mine, other, [])
  {
  }

  lemma CrossTrades(side: Side, o: Resting, mine: seq<Resting>, h: Resting, other: seq<Resting>)
    requires Agrees(side, o.price, h.price)
    ensures var q := Min(o.remaining, h.remaining);
            var r := CrossFor(side, Left(o, q) + mine, Left(h, q) + other);
            CrossFor(side, [o] + mine, [h] + other) ==
            Crossed([Exec(side, o, h, q)] + r.trades, r.bids, r.asks, Both(side, Gone(o, q), Gone(h, q)) + r.filled)
  {
    assert ([o] + mine)[1..] == mine && ([h] + other)[1..] == other;
  }

  /** The executions of a greedy match, from its fill pairs. */
  function Executions(side: Side, o: Resting, fills: seq<Fill>): seq<Execution> {
    if |fills| < 2 then []
    else
      var h := fills[1];
      [if side == Buy then Execution(o.id, o.price, h.id, h.price, h.qty)
       else Execution(h.id, h.price, o.id, o.price, h.qty)] +
      Executions(side, o, fills[2..])
  }

  /** The limit order that an incoming order stands for. */
  function Limit(o: Incoming): Order {
    Order(NewLimit, o.side, o.price, o.qty, o.id, "", None)
  }

  ghost predicate Ranked(side: Side, list: seq<Resting>) {
    forall i, j :: 0 <= i < j < |list| ==> Rank(side, list[i].price) <= Rank(side, list[j].price)
  }

  lemma NoneEligible(side: Side, o: Order, other: seq<Resting>)
    requires Ranked(Opposite(side), other) && o.side == side && o.kind == NewLimit
    requires other != [] && !Agrees(side, o.price, other[0].price)
    ensures forall m :: m in other ==> !Eligible(o, m)
  {
    forall m | m in other ensures !Eligible(o, m) {
      var i :| 0 <= i < |other| && other[i] == m;
      assert i > 0 ==> Rank(Opposite(side), other[0].price) <= Rank(Opposite(side), other[i].price);
    }
  }

  function Mine(side: Side, c: Crossed): seq<Resting> {
    if side == Buy then c.bids else c.asks
  }

  function Other(side: Side, c: Crossed): seq<Resting> {
    if side == Buy then c.asks else c.bids
  }

  function Rest(o: Resting, left: nat): seq<Resting> {
    if left == 0 then [] else [o.(remaining := left)]
  }

  /** Crossing did what the greedy walk does: same executions, same rest, same book. */
  ghost predicate Agreed(side: Side, c: Crossed, o: Resting, mine: seq<Resting>, g: Match) {
    && c.trades == Executions(side, o, g.fills)
    && Mine(side, c) == Rest(o, g.remaining) + mine && Other(side, c) == g.book
    && Ids(c.filled) == Ids(g.done) + (if g.remaining == 0 then {o.id} else {})
  }

  lemma AgreedNoTrade(o: Resting, lim: Order, mine: seq<Resting>, other: seq<Resting>)
    requires lim.kind == NewLimit && lim.price == o.price && o.remaining > 0 && Ranked(Opposite(lim.side), other)
    requires other == [] || !Agrees(lim.side, o.price, other[0].price)
    ensures Agreed(lim.side, CrossFor(lim.side, [o] + mine, other), o, mine, Greedy(other, lim, o.remaining))
  {
    CrossStops(lim.side, [o] + mine, other);
    if other != [] {
      NoneEligible(lim.side, lim, other);
    }
    GreedyNoneEligible(other, lim, o.remaining);
    assert o.(remaining := o.remaining) == o;
    assert Ids([]) == {};
  }

  lemma {:induction false} ExecutionsOf(side: Side, o: Resting, o': Resting, fills: seq<Fill>)
    requires o.id == o'.id && o.price == o'.price
    ensures Executions(side, o, fills) == Executions(side, o', fills)
  {
    if |fills| >= 2 {
      ExecutionsOf(side, o, o', fills[2..]);
    }
  }

  lemma ExecutionsCons(o: Resting, lim: Order, h: Resting, q: nat, fills: seq<Fill>)
    ensures Executions(lim.side, o, Trade(lim, h, q) + fills) ==
            [Exec(lim.side, o, h, q)] + Executions(lim.side, o, fills)
  {
    assert (Trade(lim, h, q) + fills)[2..] == fills;
  }

  lemma IdsBoth(side: Side, a: seq<string>, b: seq<string>, c: seq<string>)
    ensures Ids(Both(side, a, b) + c) == Ids(a) + Ids(b) + Ids(c)
  {
  }

  lemma IdsGone(m: Resting, q: nat)
    ensures Ids(Gone(m, q)) == if q >= m.remaining then {m.id} else {}
  {
  }

  /** The greedy walk's first step, when the first maker is taken. */
  lemma GreedyTakes(h: Resting, rest: seq<Resting>, lim: Order, want: nat)
    requires want > 0 && Eligible(lim, h)
    ensures var q := Min(want, h.remaining);
            var g := Greedy(rest, lim, want - q);
            Greedy([h] + rest, lim, want) ==
            Match(Trade(lim, h, q) + g.fills, Gone(h, q) + g.done, Left(h, q) + g.book, g.remaining)
  {
    assert ([h] + rest)[1..] == rest;
  }

  lemma GreedyWantsNothing(makers: seq<Resting>, lim: Order)
    ensures Greedy(makers, lim, 0) == Match([], [], makers, 0)
  {
  }

  /** The incoming order is filled by the first maker. */
  lemma AgreedFilled(o: Resting, lim: Order, mine: seq<Resting>, h: Resting, rest: seq<Resting>)
    requires lim.kind == NewLimit && lim.price == o.price && lim.id == o.id && lim.smp == None
    requires Agrees(lim.side, o.price, h.price) && Apart(lim.side, mine, [h] + rest) && 0 < o.remaining <= h.remaining
    ensures Agreed(lim.side, CrossFor(lim.side, [o] + mine, [h] + rest), o, mine, Greedy([h] + rest, lim, o.remaining))
  {
    hide Cross;
    hide Greedy;
    hide Ids;
    var q := o.remaining;
    GreedyTakes(h, rest, lim, q);
    GreedyWantsNothing(rest, lim);
    CrossTrades(lim.side, o, mine, h, rest);
    LeftApart(lim.side, mine, h, rest, q);
    assert Left(o, q) + mine == mine;
    CrossStops(lim.side, mine, Left(h, q) + rest);
    ExecutionsCons(o, lim, h, q, []);
    IdsBoth(lim.side, Gone(o, q), Gone(h, q), []);
    IdsNone();
    IdsGone(o, q);
    assert Gone(h, q) + [] == Gone(h, q);
    assert Executions(lim.side, o, []) == [];
    assert [Exec(lim.side, o, h, q)] + [] == [Exec(lim.side, o, h, q)];
    assert [] + mine == mine;
  }

  lemma IdsNone()
    ensures Ids([]) == {}
  {
  }

  lemma LeftApart(side: Side, mine: seq<Resting>, h: Resting, rest: seq<Resting>, q: nat)
    requires Apart(side, mine, [h] + rest)
    ensures Apart(side, mine, Left(h, q) + rest)
    ensures mine == [] || Left(h, q) + rest == [] || !Agrees(side, mine[0].price, (Left(h, q) + rest)[0].price)
  {
    var all := Left(h, q) + rest;
    forall m, x | m in mine && x in all ensures !Agrees(side, m.price, x.price) {
      if x in rest {
        assert x in [h] + rest;
      } else {
        assert h in [h] + rest;
      }
    }
    if mine != [] && all != [] {
      assert mine[0] in mine && all[0] in all;
    }
  }

  /** The first maker is used up and the walk goes on. */
  lemma AgreedStep(o: Resting, lim: Order, mine: seq<Resting>, h: Resting, rest: seq<Resting>)
    requires lim.kind == NewLimit && lim.price == o.price && lim.id == o.id && lim.smp == None
    requires Agrees(lim.side, o.price, h.price) && h.remaining < o.remaining
    requires var o' := o.(remaining := o.remaining - h.remaining);
             Agreed(lim.side, CrossFor(lim.side, [o'] + mine, rest), o', mine, Greedy(rest, lim, o'.remaining))
    ensures Agreed(lim.side, CrossFor(lim.side, [o] + mine, [h] + rest), o, mine, Greedy([h] + rest, lim, o.remaining))
  {
    hide Cross;
    hide Greedy;
    hide Ids;
    var q := h.remaining;
    var o' := o.(remaining := o.remaining - q);
    var g := Greedy(rest, lim, o'.remaining);
    GreedyTakes(h, rest, lim, o.remaining);
    CrossTrades(lim.side, o, mine, h, rest);
    assert Left(o, q) == [o'] && Left(h, q) + rest == rest;
    ExecutionsCons(o, lim, h, q, g.fills);
    ExecutionsOf(lim.side, o, o', g.fills);
    var c := CrossFor(lim.side, [o'] + mine, rest);
    IdsBoth(lim.side, Gone(o, q), Gone(h, q), c.filled);
    IdsGone(o, q);
    DoneConcat(Gone(h, q), g.done);
    assert [] + g.book == g.book;
  }

  /** The incoming order at the front of its side trades as the greedy walk does, and nobody else trades. */
  lemma {:induction false} CrossIsGreedy(o: Resting, lim: Order, mine: seq<Resting>, other: seq<Resting>)
    requires lim.kind == NewLimit && lim.price == o.price && lim.id == o.id && lim.smp == None && o.remaining > 0
    requires Apart(lim.side, mine, other) && Ranked(Opposite(lim.side), other)
    ensures Agreed(lim.side, CrossFor(lim.side, [o] + mine, other), o, mine, Greedy(other, lim, o.remaining))
    decreases |other|
  {
    hide Agreed;
    if other == [] || !Agrees(lim.side, o.price, other[0].price) {
      AgreedNoTrade(o, lim, mine, other);
    } else {
      var h, rest := other[0], other[1..];
      assert other == [h] + rest;
      if o.remaining <= h.remaining {
        AgreedFilled(o, lim, mine, h, rest);
      } else {
        CrossIsGreedy(o.(remaining := o.remaining - h.remaining), lim, mine, rest);
        AgreedStep(o, lim, mine, h, rest);
      }
    }
  }

  // ----- The book between commands -----

  ghost predicate Plain(list: seq<Resting>) {
    forall e :: e in list ==> e.smp == None
  }

  /** Lists and id map agree, no bid reaches an ask, and only good-till-cancelled orders rest. */
  ghost predicate Tidy(s: Book) {
    && Ok(s.state) && NoForeignCross(s.state) && Plain(s.state.bids) && Plain(s.state.asks)
    && s.types.Keys == s.state.index.Keys
    && forall id :: id in s.types ==> s.types[id] == GoodTillCancel
  }

  /** The best bid stays below the best ask. */
  lemma TidyUncrossed(s: Book)
    requires Tidy(s)
    ensures forall b, a :: b in s.state.bids && a in s.state.asks ==> b.price < a.price
  {
  }

  lemma TidyApart(s: Book, side: Side)
    requires Tidy(s)
    ensures Apart(side, s.state.On(side), s.state.On(Opposite(side)))
    ensures Ranked(Opposite(side), s.state.On(Opposite(side)))
  {
    TidyUncrossed(s);
    var list := s.state.On(Opposite(side));
    forall i, j | 0 <= i < j < |list|
      ensures Rank(Opposite(side), list[i].price) <= Rank(Opposite(side), list[j].price)
    {
      assert Before(Opposite(side), list[i], list[j]);
    }
  }

  function Placed(s: Book, o: Incoming, left: nat): Resting {
    Resting(o.id, o.price, left, None, s.state.stamp + 1)
  }

  function Matched(s: Book, o: Incoming): Match {
    Greedy(s.state.On(Opposite(o.side)), Limit(o), o.qty)
  }

  /** The reference: match greedily, then rest what is left or drop it. */
  function Settle(s: Book, o: Incoming, keep: bool): Book {
    var g := Matched(s, o);
    var base := s.state.Put(Opposite(o.side), g.book).(index := s.state.index - Ids(g.done));
    if keep && g.remaining > 0 then
      Book(Insert(base, o.id, o.side, o.price, g.remaining, None), (s.types - Ids(g.done))[o.id := o.orderType])
    else
      Book(base.(stamp := s.state.stamp + 1), s.types - Ids(g.done))
  }

  lemma InsertFirst(list: seq<Resting>, side: Side, e: Resting)
    requires list == [] || Rank(side, e.price) < Rank(side, list[0].price)
    ensures InsertSorted(list, side, e) == [e] + list
  {
  }

  /** An order that meets the other side is better than all of its own side. */
  lemma ReachesFirst(s: Book, o: Incoming)
    requires Tidy(s) && InsertFirstSpec.CanMatch(s, o.side, o.price)
    ensures var own := s.state.On(o.side); own == [] || Rank(o.side, o.price) < Rank(o.side, own[0].price)
  {
    TidyUncrossed(s);
    var own, away := s.state.On(o.side), s.state.On(Opposite(o.side));
    assert away[0] in away;
    if own != [] {
      assert own[0] in own;
    }
  }

  /** The two lists after inserting and crossing. */
  lemma CrossInserted(s: Book, o: Incoming)
    requires Tidy(s) && o.qty > 0
    ensures var g, own := Matched(s, o), s.state.On(o.side);
            var c := CrossFor(o.side, InsertSorted(own, o.side, Placed(s, o, o.qty)), s.state.On(Opposite(o.side)));
            && c.trades == Executions(o.side, Placed(s, o, o.qty), g.fills)
            && Mine(o.side, c) ==
               (if g.remaining > 0 then InsertSorted(own, o.side, Placed(s, o, g.remaining)) else own)
            && Other(o.side, c) == g.book
            && Ids(c.filled) == Ids(g.done) + (if g.remaining == 0 then {o.id} else {})
  {
    hide Tidy;
    hide Cross;
    hide Greedy;
    var own, away, e := s.state.On(o.side), s.state.On(Opposite(o.side)), Placed(s, o, o.qty);
    TidyApart(s, o.side);
    if InsertFirstSpec.CanMatch(s, o.side, o.price) {
      ReachesFirst(s, o);
      InsertFirst(own, o.side, e);
      CrossIsGreedy(e, Limit(o), own, away);
      var g := Matched(s, o);
      if g.remaining > 0 {
        InsertFirst(own, o.side, Placed(s, o, g.remaining));
      }
      assert [] + own == own;
    } else {
      NoMeeting(s, o);
    }
  }

  lemma NoMeeting(s: Book, o: Incoming)
    requires Tidy(s) && o.qty > 0 && !InsertFirstSpec.CanMatch(s, o.side, o.price)
    ensures var own, away := s.state.On(o.side), s.state.On(Opposite(o.side));
            var list := InsertSorted(own, o.side, Placed(s, o, o.qty));
            && Matched(s, o) == Match([], [], away, o.qty)
            && CrossFor(o.side, list, away) == AsCrossed(o.side, [], list, away, [])
            && Executions(o.side, Placed(s, o, o.qty), []) == [] && Ids([]) == {}
  {
    hide Cross;
    hide Tidy;
    var own, away, e := s.state.On(o.side), s.state.On(Opposite(o.side)), Placed(s, o, o.qty);
    TidyApart(s, o.side);
    if away != [] {
      NoneEligible(o.side, Limit(o), away);
      HeadsApart(o.side, own, away, e);
    }
    GreedyNoneEligible(away, Limit(o), o.qty);
    CrossStops(o.side, InsertSorted(own, o.side, e), away);
    IdsNone();
  }

  lemma HeadsApart(side: Side, own: seq<Resting>, away: seq<Resting>, e: Resting)
    requires away != [] && Apart(side, own, away) && !Agrees(side, e.price, away[0].price)
    ensures var list := InsertSorted(own, side, e); list != [] && !Agrees(side, list[0].price, away[0].price)
  {
    assert away[0] in away;
    if own != [] {
      assert own[0] in own;
    }
  }

  // ----- Adding an order is the reference -----

  lemma AddThenForget<T>(m: map<string, T>, id: string, v: T, gone: set<string>)
    requires id !in m && id !in gone
    ensures m[id := v] - gone == (m - gone)[id := v]
    ensures m[id := v] - (gone + {id}) == m - gone
    ensures (m - gone)[id := v] - {id} == m - gone
  {
  }

  lemma DoneIndexed(s: Book, o: Incoming)
    requires Tidy(s) && o.id !in s.state.index
    ensures o.id !in Ids(Matched(s, o).done)
  {
    hide Ok;
    hide Greedy;
    MatchOk(s.state, Limit(o), o.qty);
  }

  /** Inserting first and matching after gives the greedy result with the rest in place. */
  lemma MatchInserted(s: Book, o: Incoming)
    requires Tidy(s) && o.id !in s.state.index && o.qty > 0
    ensures MatchAll(InsertOrder(s, o)) ==
            (Settle(s, o, true), Executions(o.side, Placed(s, o, o.qty), Matched(s, o).fills))
  {
    hide Cross;
    hide Greedy;
    hide Ok;
    hide NoForeignCross;
    hide Ids;
    hide InsertSorted;
    hide Executions;
    CrossInserted(s, o);
    DoneIndexed(s, o);
    var g := Matched(s, o);
    AddThenForget(s.state.index, o.id, (o.side, o.price), Ids(g.done));
    AddThenForget(s.types, o.id, o.orderType, Ids(g.done));
    assert Ids(g.done) + {} == Ids(g.done);
  }

  lemma NoKill(s: Book, side: Side)
    requires var list := s.state.On(side); list == [] || (list[0].id in s.types ==> !s.types[list[0].id].FillAndKill?)
    ensures KillFront(s, side) == s
  {
  }

  /** Removing the front order by its id. */
  lemma CancelFirst(s: Book, side: Side, e: Resting, rest: seq<Resting>)
    requires s.state.On(side) == [e] + rest && e.id in s.state.index && s.state.index[e.id] == (side, e.price)
    ensures CancelOrder(s, e.id) == Book(s.state.Put(side, rest).(index := s.state.index - {e.id}), s.types - {e.id})
  {
    var list := [e] + rest;
    assert Find(list, e.id, e.price) == 0;
    assert list[..0] + list[1..] == rest;
  }

  lemma SettledTypes(s: Book, o: Incoming, keep: bool, id: string)
    requires Tidy(s) && o.id !in s.state.index && id in Settle(s, o, keep).types
    ensures Settle(s, o, keep).types[id] == if id == o.id then o.orderType else GoodTillCancel
    ensures id == o.id ==> keep && Matched(s, o).remaining > 0
  {
    hide Greedy;
    hide Ok;
    hide NoForeignCross;
    hide Insert;
  }

  /** The other side's front is never the incoming order. */
  lemma AwayKept(s: Book, o: Incoming, keep: bool)
    requires Tidy(s) && o.id !in s.state.index
    ensures KillFront(Settle(s, o, keep), Opposite(o.side)) == Settle(s, o, keep)
  {
    hide Greedy;
    hide NoForeignCross;
    hide InsertSorted;
    var r, g, away := Settle(s, o, keep), Matched(s, o), Opposite(o.side);
    assert r.state.On(away) == g.book;
    if g.book != [] {
      var m := GreedyKeepsSlots(s.state.On(away), Limit(o), o.qty, g.book[0]);
      assert m.id in s.state.index;
      if g.book[0].id in r.types {
        SettledTypes(s, o, keep, g.book[0].id);
      }
    }
    NoKill(r, away);
  }

  /** Nothing is killed when the order is good till cancelled. */
  lemma GoodStays(s: Book, o: Incoming, side: Side)
    requires Tidy(s) && o.id !in s.state.index && o.orderType == GoodTillCancel
    ensures KillFront(Settle(s, o, true), side) == Settle(s, o, true)
  {
    hide Settle;
    hide Tidy;
    var r := Settle(s, o, true);
    var list := r.state.On(side);
    if list != [] && list[0].id in r.types {
      SettledTypes(s, o, true, list[0].id);
    }
    NoKill(r, side);
  }

  /** A fill-and-kill order that met the other side loses its rest. */
  lemma RestKilled(s: Book, o: Incoming)
    requires Tidy(s) && o.id !in s.state.index && o.orderType == FillAndKill
    requires InsertFirstSpec.CanMatch(s, o.side, o.price)
    ensures KillFront(Settle(s, o, true), o.side) == Settle(s, o, false)
  {
    hide Greedy;
    hide Ok;
    hide NoForeignCross;
    var r, g := Settle(s, o, true), Matched(s, o);
    var own := s.state.On(o.side);
    DoneIndexed(s, o);
    if g.remaining > 0 {
      var e := Placed(s, o, g.remaining);
      ReachesFirst(s, o);
      InsertFirst(own, o.side, e);
      assert r.state.On(o.side) == [e] + own;
      CancelFirst(r, o.side, e, own);
      AddThenForget(s.state.index, o.id, (o.side, o.price), Ids(g.done));
      AddThenForget(s.types, o.id, o.orderType, Ids(g.done));
    } else {
      OwnFrontGood(s, o);
    }
  }

  lemma OwnFrontGood(s: Book, o: Incoming)
    requires Tidy(s) && o.id !in s.state.index && Matched(s, o).remaining == 0
    ensures Settle(s, o, true) == Settle(s, o, false) && KillFront(Settle(s, o, true), o.side) == Settle(s, o, true)
  {
    hide Greedy;
    hide Ok;
    hide NoForeignCross;
    var r := Settle(s, o, true);
    var list := r.state.On(o.side);
    if list != [] && list[0].id in r.types {
      SettledTypes(s, o, true, list[0].id);
    }
    NoKill(r, o.side);
  }

  /** Adding an order to a tidy book: greedy executions, then the rest stays or is killed. */
  lemma AddIsGreedy(s: Book, o: Incoming)
    requires Tidy(s) && o.id !in s.state.index && o.qty > 0 && !o.orderType.MarketOrder?
    ensures AddPriced(s, o) ==
            if o.orderType.FillAndKill? && !InsertFirstSpec.CanMatch(s, o.side, o.price) then (s, [])
            else (Settle(s, o, o.orderType == GoodTillCancel),
                  Executions(o.side, Placed(s, o, o.qty), Matched(s, o).fills))
  {
    hide MatchAll;
    hide InsertOrder;
    hide KillFront;
    hide Settle;
    hide Executions;
    hide Tidy;
    MatchInserted(s, o);
    if o.orderType == GoodTillCancel {
      GoodStays(s, o, Buy);
      GoodStays(s, o, Sell);
    } else if InsertFirstSpec.CanMatch(s, o.side, o.price) {
      RestKilled(s, o);
      AwayKept(s, o, true);
      AwayKept(s, o, false);
    }
  }

  // ----- What every command keeps -----

  lemma StampOk(s: State, stamp: nat)
    requires Ok(s) && stamp >= s.stamp
    ensures Ok(s.(stamp := stamp))
  {
  }

  lemma PlainGreedy(list: seq<Resting>, o: Order, want: nat)
    requires Plain(list)
    ensures Plain(Greedy(list, o, want).book)
  {
    forall e | e in Greedy(list, o, want).book ensures e.smp == None {
      var m := GreedyKeepsSlots(list, o, want, e);
    }
  }

  lemma PlainInsert(list: seq<Resting>, side: Side, e: Resting)
    requires Plain(list) && e.smp == None
    ensures Plain(InsertSorted(list, side, e))
  {
    forall x | x in InsertSorted(list, side, e) ensures x.smp == None {
      InsertMembers(list, side, e, x);
    }
  }

  lemma SettledOk(s: Book, o: Incoming, keep: bool)
    requires Tidy(s) && o.id !in s.state.index
    ensures Ok(Settle(s, o, keep).state)
  {
    hide Ok;
    hide Greedy;
    hide NoForeignCross;
    hide InsertSorted;
    var g := Matched(s, o);
    var base := s.state.Put(Opposite(o.side), g.book).(index := s.state.index - Ids(g.done));
    MatchOk(s.state, Limit(o), o.qty);
    if keep && g.remaining > 0 {
      InsertOk(base, o.id, o.side, o.price, g.remaining, None);
    } else {
      StampOk(base, s.state.stamp + 1);
    }
  }

  lemma SettledPlain(s: Book, o: Incoming, keep: bool)
    requires Tidy(s)
    ensures var r := Settle(s, o, keep).state; Plain(r.bids) && Plain(r.asks)
  {
    hide Ok;
    hide Greedy;
    hide NoForeignCross;
    hide InsertSorted;
    hide Plain;
    var g, own := Matched(s, o), s.state.On(o.side);
    PlainGreedy(s.state.On(Opposite(o.side)), Limit(o), o.qty);
    PlainInsert(own, o.side, Resting(o.id, o.price, g.remaining, None, s.state.stamp + 1));
  }

  lemma SettledUncrossed(s: Book, o: Incoming, keep: bool)
    requires Tidy(s)
    ensures NoForeignCross(Settle(s, o, keep).state)
  {
    hide Ok;
    hide Greedy;
    hide NoForeignCross;
    hide InsertSorted;
    hide Within;
    var g := Matched(s, o);
    if keep && g.remaining > 0 {
      SubmitCross(s.state, Limit(o));
    } else {
      GreedyWithin(s.state.On(Opposite(o.side)), Limit(o), o.qty);
      RefWithin(s.state.On(o.side));
      WithinNoCross(s.state, Settle(s, o, keep).state);
    }
  }

  lemma SettledTidy(s: Book, o: Incoming, keep: bool)
    requires Tidy(s) && o.id !in s.state.index && (keep ==> o.orderType == GoodTillCancel)
    ensures Tidy(Settle(s, o, keep))
  {
    SettledOk(s, o, keep);
    SettledPlain(s, o, keep);
    SettledUncrossed(s, o, keep);
    SettledKeys(s, o, keep);
  }

  lemma SettledKeys(s: Book, o: Incoming, keep: bool)
    requires Tidy(s) && o.id !in s.state.index && (keep ==> o.orderType == GoodTillCancel)
    ensures var r := Settle(s, o, keep);
            r.types.Keys == r.state.index.Keys && forall id :: id in r.types ==> r.types[id] == GoodTillCancel
  {
    hide Ok;
    hide Greedy;
    hide NoForeignCross;
    hide InsertSorted;
    var r := Settle(s, o, keep);
    forall id | id in r.types ensures r.types[id] == GoodTillCancel {
      SettledTypes(s, o, keep, id);
    }
  }

  lemma CancelTidy(s: Book, id: string)
    requires Tidy(s)
    ensures Tidy(CancelOrder(s, id)) && id !in CancelOrder(s, id).state.index
  {
    hide Ok;
    hide NoForeignCross;
    hide Without;
    if id in s.state.index {
      RemoveOk(s.state, id);
      RemoveCross(s.state, id);
      var (side, price) := s.state.index[id];
      PlainWithout(s.state.On(side), id, price);
    }
  }

  lemma PlainWithout(list: seq<Resting>, id: string, price: int)
    requires Plain(list)
    ensures Plain(Without(list, id, price))
  {
  }

  // ----- An order for nothing -----

  /** An order for nothing that meets nobody rests as it is. */
  lemma ZeroRests(s: Book, o: Incoming)
    requires Tidy(s) && o.id !in s.state.index && o.qty == 0 && !InsertFirstSpec.CanMatch(s, o.side, o.price)
    ensures MatchAll(InsertOrder(s, o)) == (InsertOrder(s, o), [])
  {
    hide Tidy;
    hide Cross;
    var own, away, e := s.state.On(o.side), s.state.On(Opposite(o.side)), Placed(s, o, 0);
    TidyApart(s, o.side);
    if away != [] {
      HeadsApart(o.side, own, away, e);
    }
    CrossStops(o.side, InsertSorted(own, o.side, e), away);
    hide InsertSorted;
    ForgetNone(InsertOrder(s, o).state.index);
    ForgetNone(InsertOrder(s, o).types);
  }

  lemma ZeroTidy(s: Book, o: Incoming)
    requires Tidy(s) && o.id !in s.state.index && !InsertFirstSpec.CanMatch(s, o.side, o.price)
    requires o.orderType == GoodTillCancel
    ensures Tidy(InsertOrder(s, o))
  {
    hide Ok;
    hide InsertSorted;
    var own, away, e := s.state.On(o.side), s.state.On(Opposite(o.side)), Placed(s, o, o.qty);
    InsertOk(s.state, o.id, o.side, o.price, o.qty, None);
    PlainInsert(own, o.side, e);
    TidyApart(s, o.side);
    if away != [] {
      NoneEligible(o.side, Limit(o), away);
    }
    forall m, h | m in InsertSorted(own, o.side, e) && h in away ensures !Agrees(o.side, m.price, h.price) {
      InsertMembers(own, o.side, e, m);
    }
  }

  /** What the first maker is left as when it gives nothing. */
  function Prodded(s: Book, side: Side): Book {
    var away := s.state.On(Opposite(side));
    if away != [] && away[0].remaining == 0 then CancelOrder(s, away[0].id) else s
  }

  lemma ZeroCross(s: Book, o: Incoming)
    requires Tidy(s) && o.qty == 0 && InsertFirstSpec.CanMatch(s, o.side, o.price)
    ensures var own, away, e := s.state.On(o.side), s.state.On(Opposite(o.side)), Placed(s, o, 0);
            var c := CrossFor(o.side, InsertSorted(own, o.side, e), away);
            && c.trades == [Exec(o.side, e, away[0], 0)] && Mine(o.side, c) == own
            && Other(o.side, c) == (if away[0].remaining == 0 then away[1..] else away)
            && Ids(c.filled) == (if away[0].remaining == 0 then {away[0].id} else {}) + {o.id}
  {
    hide Tidy;
    hide Cross;
    hide Ids;
    var own, away, e := s.state.On(o.side), s.state.On(Opposite(o.side)), Placed(s, o, 0);
    var h, rest := away[0], away[1..];
    assert away == [h] + rest;
    ReachesFirst(s, o);
    InsertFirst(own, o.side, e);
    TidyApart(s, o.side);
    CrossTrades(o.side, e, own, h, rest);
    LeftApart(o.side, own, h, rest, 0);
    assert Left(e, 0) + own == own;
    assert Left(h, 0) + rest == if h.remaining == 0 then rest else away;
    CrossStops(o.side, own, Left(h, 0) + rest);
    IdsBoth(o.side, Gone(e, 0), Gone(h, 0), []);
    IdsGone(e, 0);
    IdsGone(h, 0);
    IdsNone();
  }

  lemma ForgetBoth<T>(m: map<string, T>, id: string, v: T, gone: set<string>)
    requires id !in m
    ensures m[id := v] - (gone + {id}) == m - gone
  {
  }

  lemma ForgetNoIds<T>(m: map<string, T>)
    ensures m - {} == m
  {
  }

  lemma TidyHead(s: Book, side: Side)
    requires Tidy(s) && s.state.On(side) != []
    ensures var list := s.state.On(side);
            && list == [list[0]] + list[1..]
            && list[0].id in s.state.index && s.state.index[list[0].id] == (side, list[0].price)
            && s.types.Keys == s.state.index.Keys
  {
    hide NoForeignCross;
    assert s.state.On(side)[0] in s.state.On(side);
  }

  lemma ZeroMatches(s: Book, o: Incoming)
    requires Tidy(s) && o.id !in s.state.index && o.qty == 0 && InsertFirstSpec.CanMatch(s, o.side, o.price)
    ensures var r := Prodded(s, o.side);
            MatchAll(InsertOrder(s, o)) ==
            (Book(r.state.(stamp := s.state.stamp + 1), r.types),
             [Exec(o.side, Placed(s, o, 0), s.state.On(Opposite(o.side))[0], 0)])
  {
    hide Cross, Ids, InsertSorted, CancelOrder, Tidy;
    var away := s.state.On(Opposite(o.side));
    var h := away[0];
    ZeroCross(s, o);
    TidyHead(s, Opposite(o.side));
    if h.remaining == 0 {
      CancelFirst(s, Opposite(o.side), h, away[1..]);
      ForgetBoth(s.state.index, o.id, (o.side, o.price), {h.id});
      ForgetBoth(s.types, o.id, o.orderType, {h.id});
    } else {
      ForgetBoth(s.state.index, o.id, (o.side, o.price), {});
      ForgetBoth(s.types, o.id, o.orderType, {});
      ForgetNoIds(s.state.index);
      ForgetNoIds(s.types);
    }
  }

  lemma TidyKillsNothing(s: Book, side: Side)
    requires Tidy(s)
    ensures KillFront(s, side) == s
  {
    NoKill(s, side);
  }

  lemma ProddedTidy(s: Book, side: Side)
    requires Tidy(s)
    ensures var r := Prodded(s, side); Tidy(Book(r.state.(stamp := s.state.stamp + 1), r.types))
  {
    hide Ok;
    hide CancelOrder;
    var away := s.state.On(Opposite(side));
    var r := Prodded(s, side);
    if away != [] && away[0].remaining == 0 {
      CancelTidy(s, away[0].id);
      CancelStamp(s, away[0].id);
    }
    StampOk(r.state, s.state.stamp + 1);
  }

  lemma CancelStamp(s: Book, id: string)
    ensures CancelOrder(s, id).state.stamp == s.state.stamp
  {
  }

  /** Adding an order for nothing keeps the book tidy, and trades nothing with at most one maker. */
  lemma AddZero(s: Book, o: Incoming)
    requires Tidy(s) && o.id !in s.state.index && o.qty == 0 && !o.orderType.MarketOrder?
    ensures Tidy(AddPriced(s, o).0)
    ensures AddPriced(s, o).1 ==
            if InsertFirstSpec.CanMatch(s, o.side, o.price) then
              [Exec(o.side, Placed(s, o, 0), s.state.On(Opposite(o.side))[0], 0)]
            else []
  {
    hide MatchAll;
    hide InsertOrder;
    hide KillFront;
    hide Tidy;
    hide Prodded;
    if InsertFirstSpec.CanMatch(s, o.side, o.price) {
      var r := Prodded(s, o.side);
      var m := Book(r.state.(stamp := s.state.stamp + 1), r.types);
      ZeroMatches(s, o);
      ProddedTidy(s, o.side);
      TidyKillsNothing(m, Buy);
      TidyKillsNothing(m, Sell);
    } else if o.orderType == GoodTillCancel {
      ZeroRests(s, o);
      ZeroTidy(s, o);
      TidyKillsNothing(InsertOrder(s, o), Buy);
      TidyKillsNothing(InsertOrder(s, o), Sell);
    }
  }

  lemma AddTidy(s: Book, o: Incoming)
    requires Tidy(s)
    ensures Tidy(AddOrder(s, o).0)
  {
    hide Tidy;
    hide AddPriced;
    hide Settle;
    if o.id !in s.state.index {
      match Priced(s, o) {
        case None =>
        case Some(p) =>
          if p.qty == 0 {
            AddZero(s, p);
          } else {
            AddIsGreedy(s, p);
            SettledTidy(s, p, p.orderType == GoodTillCancel);
          }
      }
    }
  }

  // ----- Every run -----

  datatype Op = Add(o: Incoming) | Drop(id: string) | Modify(id: string, side: Side, price: int, qty: nat)

  function Apply(s: Book, op: Op): (Book, seq<Execution>) {
    match op
    case Add(o) => AddOrder(s, o)
    case Drop(id) => (CancelOrder(s, id), [])
    case Modify(id, side, price, qty) => ModifyOrder(s, id, side, price, qty)
  }

  function RunOps(ops: seq<Op>): Book {
    if ops == [] then NOTHING else Apply(RunOps(ops[..|ops| - 1]), ops[|ops| - 1]).0
  }

  lemma ApplyTidy(s: Book, op: Op)
    requires Tidy(s)
    ensures Tidy(Apply(s, op).0)
  {
    hide Tidy;
    hide AddOrder;
    hide CancelOrder;
    match op {
      case Add(o) => AddTidy(s, o);
      case Drop(id) => CancelTidy(s, id);
      case Modify(id, side, price, qty) =>
        CancelTidy(s, id);
        if id in s.types {
          AddTidy(CancelOrder(s, id), Incoming(id, s.types[id], side, price, qty));
        }
    }
  }

  /** After every sequence of adds, cancels and modifies: no bid reaches an ask, no fill-and-kill order
      rests, and the id map names exactly the resting orders. */
  lemma {:induction false} RunTidy(ops: seq<Op>)
    ensures Tidy(RunOps(ops))
    ensures var s := RunOps(ops).state; forall b, a :: b in s.bids && a in s.asks ==> b.price < a.price
  {
    if ops != [] {
      RunTidy(ops[..|ops| - 1]);
      ApplyTidy(RunOps(ops[..|ops| - 1]), ops[|ops| - 1]);
    }
    TidyUncrossed(RunOps(ops));
  }

  /** The incoming order is on exactly one side of an execution, at prices that agree. */
  predicate OneSided(x: Execution, id: string, side: Side) {
    && (x.bidId == id <==> side == Buy) && (x.askId == id <==> side == Sell)
    && x.bidPrice >= x.askPrice
  }

  lemma {:induction false} FillsOneSided(o: Resting, lim: Order, makers: seq<Resting>, want: nat)
    requires lim.kind == NewLimit && lim.id == o.id && lim.price == o.price
    requires forall m :: m in makers ==> m.id != o.id
    ensures forall x :: x in Executions(lim.side, o, Greedy(makers, lim, want).fills) ==> OneSided(x, o.id, lim.side)
  {
    if makers != [] && want > 0 {
      var h, rest := makers[0], makers[1..];
      assert makers == [h] + rest;
      if Eligible(lim, h) {
        var q := Min(want, h.remaining);
        GreedyTakes(h, rest, lim, want);
        FillsOneSided(o, lim, rest, want - q);
        ExecutionsCons(o, lim, h, q, Greedy(rest, lim, want - q).fills);
      } else {
        FillsOneSided(o, lim, rest, want);
      }
    }
  }

  /** Every execution of an add has the incoming order on exactly one side. */
  lemma AddOneSided(s: Book, o: Incoming)
    requires Tidy(s)
    ensures forall x :: x in AddOrder(s, o).1 ==> OneSided(x, o.id, o.side)
  {
    hide Settle;
    hide AddPriced;
    if o.id !in s.state.index {
      match Priced(s, o) {
        case None =>
        case Some(p) =>
          var makers := s.state.On(Opposite(p.side));
          forall m | m in makers ensures m.id != p.id {
            assert m.id in s.state.index;
          }
          if p.qty == 0 {
            AddZero(s, p);
          } else {
            AddIsGreedy(s, p);
            FillsOneSided(Placed(s, p, p.qty), Limit(p), makers, p.qty);
          }
      }
    }
  }
}
