/** Quantity is conserved: what an id was filled and what it still rests never exceed what was
    submitted under it, and nothing of a limit order is lost until it is cancelled or replaced. */
module Conservation {
  import opened PriceTimeBook
  import opened EngineSpec
  import opened BookInvariants

  /** Total quantity filled under an id. */
  function Filled(fills: seq<Fill>, id: string): nat {
    if fills == [] then 0
    else (if fills[0].id == id then fills[0].qty else 0) + Filled(fills[1..], id)
  }

  /** Total quantity traded by takers or by makers. */
  function Traded(fills: seq<Fill>, liquidity: nat): nat {
    if fills == [] then 0
    else (if fills[0].liquidity == liquidity then fills[0].qty else 0) + Traded(fills[1..], liquidity)
  }

  /** Total quantity resting under an id in a list. */
  function QtyOf(list: seq<Resting>, id: string): nat {
    if list == [] then 0
    else (if list[0].id == id then list[0].remaining else 0) + QtyOf(list[1..], id)
  }

  function Rested(s: State, id: string): nat {
    QtyOf(s.bids, id) + QtyOf(s.asks, id)
  }

  lemma {:induction false} FilledConcat(a: seq<Fill>, b: seq<Fill>, id: string)
    ensures Filled(a + b, id) == Filled(a, id) + Filled(b, id)
  {
    if a == [] {
      assert a + b == b;
    } else {
      assert (a + b)[1..] == a[1..] + b;
      FilledConcat(a[1..], b, id);
    }
  }

  lemma {:induction false} TradedConcat(a: seq<Fill>, b: seq<Fill>, liquidity: nat)
    ensures Traded(a + b, liquidity) == Traded(a, liquidity) + Traded(b, liquidity)
  {
    if a == [] {
      assert a + b == b;
    } else {
      assert (a + b)[1..] == a[1..] + b;
      TradedConcat(a[1..], b, liquidity);
    }
  }

  lemma {:induction false} QtyConcat(a: seq<Resting>, b: seq<Resting>, id: string)
    ensures QtyOf(a + b, id) == QtyOf(a, id) + QtyOf(b, id)
  {
    if a == [] {
      assert a + b == b;
    } else {
      assert (a + b)[1..] == a[1..] + b;
      QtyConcat(a[1..], b, id);
    }
  }

  /** One visit moves quantity from the maker's rest to both fills. */
  lemma VisitConserves(o: Order, m: Resting, want: nat, id: string)
    ensures var v := Visit(o, m, want);
            && Filled(v.fills, id) + QtyOf(v.book, id)
               == QtyOf([m], id) + (if id == o.id then want - v.remaining else 0)
            && Traded(v.fills, TAKER) == Traded(v.fills, MAKER)
  {
    if want != 0 && Eligible(o, m) {
      hide Filled, Traded;
      TradeSums(o, m, Min(want, m.remaining), id);
    }
  }

  lemma TradeSums(o: Order, m: Resting, t: nat, id: string)
    ensures var fills := Trade(o, m, t);
            && Filled(fills, id) == (if id == o.id then t else 0) + (if id == m.id then t else 0)
            && Traded(fills, TAKER) == t && Traded(fills, MAKER) == t
  {
    var fills := Trade(o, m, t);
    assert fills[1..] == [fills[1]] && [fills[1]][1..] == [];
    assert Filled([fills[1]], id) == if id == m.id then t else 0;
    assert Traded([fills[1]], TAKER) == 0 && Traded([fills[1]], MAKER) == t;
  }

  /** Matching moves quantity from the book to the fills and loses none. */
  lemma {:induction false} GreedyConserves(makers: seq<Resting>, o: Order, want: nat, id: string)
    ensures var g := Greedy(makers, o, want);
            && g.remaining <= want
            && Filled(g.fills, id) + QtyOf(g.book, id)
               == QtyOf(makers, id) + (if id == o.id then want - g.remaining else 0)
            && Traded(g.fills, TAKER) == Traded(g.fills, MAKER)
  {
    if makers != [] {
      var v := Visit(o, makers[0], want);
      var g := Greedy(makers[1..], o, v.remaining);
      GreedyUnfold(makers, o, want);
      GreedyConserves(makers[1..], o, v.remaining, id);
      hide Greedy;
      VisitConserves(o, makers[0], want, id);
      FilledConcat(v.fills, g.fills, id);
      TradedConcat(v.fills, g.fills, TAKER);
      TradedConcat(v.fills, g.fills, MAKER);
      QtyConcat(v.book, g.book, id);
      QtyConcat([makers[0]], makers[1..], id);
      assert makers == [makers[0]] + makers[1..];
    }
  }

  /** Quantity of the eligible makers among the first `i`. */
  function Ahead(makers: seq<Resting>, o: Order, i: nat): nat
    requires i <= |makers|
  {
    if i == 0 then 0
    else Ahead(makers, o, i - 1) + if Eligible(o, makers[i - 1]) then makers[i - 1].remaining else 0
  }

  function Monus(a: nat, b: nat): nat {
    if a <= b then 0 else a - b
  }

  lemma {:induction false} AheadShift(makers: seq<Resting>, o: Order, i: nat)
    requires 0 < i <= |makers|
    ensures Ahead(makers, o, i)
            == (if Eligible(o, makers[0]) then makers[0].remaining else 0) + Ahead(makers[1..], o, i - 1)
  {
    if i > 1 {
      AheadShift(makers, o, i - 1);
    }
  }

  /** Closed form: the order keeps what no eligible maker could take. */
  lemma {:induction false} WaterfallLeft(makers: seq<Resting>, o: Order, want: nat)
    ensures Greedy(makers, o, want).remaining == Monus(want, Ahead(makers, o, |makers|))
  {
    if makers != [] {
      GreedyUnfold(makers, o, want);
      AheadShift(makers, o, |makers|);
      WaterfallLeft(makers[1..], o, Visit(o, makers[0], want).remaining);
    }
  }

  /** Closed form: a maker trades what is left of the order once every better eligible maker
      has been served in full. */
  lemma {:induction false} Waterfall(makers: seq<Resting>, o: Order, want: nat, i: nat)
    requires i < |makers| && DistinctIds(makers) && o.id !in IdsOf(makers)
    ensures Filled(Greedy(makers, o, want).fills, makers[i].id)
            == if Eligible(o, makers[i]) then Min(makers[i].remaining, Monus(want, Ahead(makers, o, i))) else 0
  {
    hide Greedy, Filled;
    var m, rest := makers[0], makers[1..];
    var v := Visit(o, m, want);
    GreedyUnfold(makers, o, want);
    FilledConcat(v.fills, Greedy(rest, o, v.remaining).fills, makers[i].id);
    NotInTail(makers);
    TailIds(makers);
    assert makers[i].id in IdsOf(makers);
    VisitFills(o, m, want, makers[i].id);
    if i == 0 {
      UnknownIdUnfilled(rest, o, v.remaining, m.id);
    } else {
      AheadShift(makers, o, i);
      Waterfall(rest, o, v.remaining, i - 1);
      assert rest[i - 1].id in IdsOf(rest);
    }
  }

  lemma TailIds(list: seq<Resting>)
    requires list != []
    ensures IdsOf(list[1..]) <= IdsOf(list)
  {
  }

  lemma VisitFills(o: Order, m: Resting, want: nat, id: string)
    requires id != o.id
    ensures Filled(Visit(o, m, want).fills, id)
            == if id == m.id && Eligible(o, m) then Min(want, m.remaining) else 0
  {
    VisitConserves(o, m, want, id);
  }

  lemma UnknownIdUnfilled(makers: seq<Resting>, o: Order, want: nat, id: string)
    requires id !in IdsOf(makers) && id != o.id
    ensures Filled(Greedy(makers, o, want).fills, id) == 0
  {
    GreedyConserves(makers, o, want, id);
    NoQty(makers, id);
  }

  lemma {:induction false} NoQty(list: seq<Resting>, id: string)
    requires id !in IdsOf(list)
    ensures QtyOf(list, id) == 0
  {
    if list != [] {
      assert list[0].id in IdsOf(list);
      assert forall e :: e in list[1..] ==> e in list;
      NoQty(list[1..], id);
    }
  }
}
