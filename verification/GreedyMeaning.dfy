/** The greedy walk in closed form: every fill with both ids, its price and its quantity, every
    order that stays and every order that is done, each from sums over the makers ahead of it. */
module GreedyMeaning {
  import opened PriceTimeBook
  import opened Conservation

  /** A maker trades when it is eligible and the makers ahead of it leave something of the order. */
  predicate Trades(makers: seq<Resting>, o: Order, want: nat, i: nat)
    requires i < |makers|
  {
    Eligible(o, makers[i]) && Ahead(makers, o, i) < want
  }

  function Share(makers: seq<Resting>, o: Order, want: nat, i: nat): nat
    requires i < |makers|
  {
    Min(makers[i].remaining, Monus(want, Ahead(makers, o, i)))
  }

  /** Taker and maker fill of every trading maker among the first `n`, both at the maker's price. */
  function FillsOf(makers: seq<Resting>, o: Order, want: nat, n: nat): seq<Fill>
    requires n <= |makers|
  {
    if n == 0 then []
    else
      var m, q := makers[n - 1], Share(makers, o, want, n - 1);
      FillsOf(makers, o, want, n - 1) +
      if Trades(makers, o, want, n - 1) then [Fill(o.id, m.price, q, TAKER), Fill(m.id, m.price, q, MAKER)] else []
  }

  /** Is a maker used up? */
  predicate UsedUp(makers: seq<Resting>, o: Order, want: nat, i: nat)
    requires i < |makers|
  {
    Trades(makers, o, want, i) && Ahead(makers, o, i) + makers[i].remaining <= want
  }

  function DoneOf(makers: seq<Resting>, o: Order, want: nat, n: nat): seq<string>
    requires n <= |makers|
  {
    if n == 0 then []
    else DoneOf(makers, o, want, n - 1) + if UsedUp(makers, o, want, n - 1) then [makers[n - 1].id] else []
  }

  /** What stays: makers that do not trade as they were, the last one that trades with what is left. */
  function StaysOf(makers: seq<Resting>, o: Order, want: nat, n: nat): seq<Resting>
    requires n <= |makers|
  {
    if n == 0 then []
    else
      var m := makers[n - 1];
      StaysOf(makers, o, want, n - 1) +
      if UsedUp(makers, o, want, n - 1) then []
      else if Trades(makers, o, want, n - 1) then
        [m.(remaining := m.remaining - (want - Ahead(makers, o, n - 1)))]
      else [m]
  }

  lemma {:induction false} AheadPrefix(makers: seq<Resting>, o: Order, n: nat, i: nat)
    requires i <= n <= |makers|
    ensures Ahead(makers[..n], o, i) == Ahead(makers, o, i)
  {
    if i > 0 {
      AheadPrefix(makers, o, n, i - 1);
    }
  }

  /** One more maker at the end of the walk. */
  lemma LastMaker(a: seq<Resting>, m: Resting, o: Order, want: nat)
    ensures var g, v := Greedy(a, o, want), Visit(o, m, Monus(want, Ahead(a, o, |a|)));
            Greedy(a + [m], o, want) == Match(g.fills + v.fills, g.done + v.done, g.book + v.book, v.remaining)
  {
    hide Greedy;
    GreedyConcat(a, [m], o, want);
    WaterfallLeft(a, o, want);
    OneMaker(m, o, Greedy(a, o, want).remaining);
  }

  lemma OneMaker(m: Resting, o: Order, want: nat)
    ensures Greedy([m], o, want) == Visit(o, m, want)
  {
    if want > 0 {
      GreedyOne(m, o, want);
    }
  }

  /** The walk in closed form. */
  lemma {:induction false} ClosedForm(makers: seq<Resting>, o: Order, want: nat, n: nat)
    requires n <= |makers|
    ensures Greedy(makers[..n], o, want) ==
            Match(FillsOf(makers, o, want, n), DoneOf(makers, o, want, n), StaysOf(makers, o, want, n),
                  Monus(want, Ahead(makers, o, n)))
  {
    if n == 0 {
      assert makers[..0] == [];
    } else {
      hide Greedy;
      ClosedForm(makers, o, want, n - 1);
      assert makers[..n] == makers[..n - 1] + [makers[n - 1]];
      LastMaker(makers[..n - 1], makers[n - 1], o, want);
      AheadPrefix(makers, o, n - 1, n - 1);
    }
  }

  lemma GreedyIs(makers: seq<Resting>, o: Order, want: nat)
    ensures var n := |makers|;
            Greedy(makers, o, want) ==
            Match(FillsOf(makers, o, want, n), DoneOf(makers, o, want, n), StaysOf(makers, o, want, n),
                  Monus(want, Ahead(makers, o, n)))
  {
    ClosedForm(makers, o, want, |makers|);
    assert makers[..|makers|] == makers;
  }

  // ----- What a fill says -----

  /** The k-th pair of fills belongs to one maker: taker first, both at the maker's price, within the
      order's limit, and never against the order's own self-match id. */
  lemma {:induction false} PairOf(makers: seq<Resting>, o: Order, want: nat, n: nat, k: nat) returns (i: nat)
    requires n <= |makers| && 2 * k < |FillsOf(makers, o, want, n)|
    ensures 2 * k + 1 < |FillsOf(makers, o, want, n)| && i < n
    ensures Trades(makers, o, want, i)
    ensures var m, fills, q := makers[i], FillsOf(makers, o, want, n), Share(makers, o, want, i);
            && fills[2 * k] == Fill(o.id, m.price, q, 2)
            && fills[2 * k + 1] == Fill(m.id, m.price, q, 1)
    ensures !(o.smp.Some? && makers[i].smp == o.smp)
    ensures o.kind != NewMarket ==> if o.side == Buy then makers[i].price <= o.price else makers[i].price >= o.price
  {
    EvenFills(makers, o, want, n - 1);
    if 2 * k < |FillsOf(makers, o, want, n - 1)| {
      i := PairOf(makers, o, want, n - 1, k);
    } else {
      i := n - 1;
    }
  }

  lemma {:induction false} EvenFills(makers: seq<Resting>, o: Order, want: nat, n: nat)
    requires n <= |makers|
    ensures |FillsOf(makers, o, want, n)| % 2 == 0
  {
    if n > 0 {
      EvenFills(makers, o, want, n - 1);
    }
  }

  /** A maker that does not trade was out of the limit, carried the order's self-match id, or came too late. */
  lemma NoTradeMeans(makers: seq<Resting>, o: Order, want: nat, i: nat)
    requires i < |makers| && o.kind != Cancel && o.kind != Replace
    ensures !Trades(makers, o, want, i) <==>
            || (o.kind == NewLimit && if o.side == Buy then makers[i].price > o.price else makers[i].price < o.price)
            || (o.smp.Some? && makers[i].smp == o.smp)
            || Ahead(makers, o, i) >= want
  {
  }

  /** Fills come in the order of the makers. */
  lemma {:induction false} PairsInOrder(makers: seq<Resting>, o: Order, want: nat, n: nat, k: nat, l: nat)
    returns (i: nat, j: nat)
    requires n <= |makers| && k < l && 2 * l < |FillsOf(makers, o, want, n)|
    ensures i < j < n && 2 * l + 1 < |FillsOf(makers, o, want, n)|
    ensures FillsOf(makers, o, want, n)[2 * k + 1].id == makers[i].id
    ensures FillsOf(makers, o, want, n)[2 * l + 1].id == makers[j].id
  {
    EvenFills(makers, o, want, n - 1);
    if 2 * l < |FillsOf(makers, o, want, n - 1)| {
      i, j := PairsInOrder(makers, o, want, n - 1, k, l);
    } else {
      j := n - 1;
      i := PairOf(makers, o, want, n - 1, k);
    }
  }
}
