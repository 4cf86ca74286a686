/** What adds, cancels and modifies do to a tidy insert-then-match book, said without the functions
    that do it: who trades with whom at which prices, what rests where, and where every quantity goes. */
module InsertFirstMeaning {
  import opened Wrappers
  import opened PriceTimeBook
  import opened EngineSpec
  import opened BookInvariants
  import opened Conservation
  import opened EngineRuns
  import opened GreedyMeaning
  import opened EngineMeaning
  import opened InsertFirstSpec
  import opened InsertFirstRuns

  // ----- Executions -----

  lemma {:induction false} ExecutionsAt(side: Side, o: Resting, fills: seq<Fill>, k: nat)
    requires 2 * k + 1 < |fills|
    ensures k < |Executions(side, o, fills)|
    ensures var h := fills[2 * k + 1];
            Executions(side, o, fills)[k] ==
            if side == Buy then Execution(o.id, o.price, h.id, h.price, h.qty)
            else Execution(h.id, h.price, o.id, o.price, h.qty)
  {
    if k > 0 {
      ExecutionsAt(side, o, fills[2..], k - 1);
      assert fills[2..][2 * (k - 1) + 1] == fills[2 * k + 1];
    }
  }

  lemma {:induction false} ExecutionsCount(side: Side, o: Resting, fills: seq<Fill>)
    ensures |Executions(side, o, fills)| == |fills| / 2
  {
    if |fills| >= 2 {
      ExecutionsCount(side, o, fills[2..]);
    }
  }

  /** An execution pairs the incoming order with a maker's fill, each at its own price. */
  predicate Pairs(x: Execution, o: Incoming, f: Fill) {
    x == if o.side == Buy then Execution(o.id, o.price, f.id, f.price, f.qty)
         else Execution(f.id, f.price, o.id, o.price, f.qty)
  }

  /** One execution per maker that trades, in the order of the makers. */
  ghost predicate Executes(o: Incoming, makers: seq<Resting>, trades: seq<Execution>) {
    var fills := FillsOf(makers, Limit(o), o.qty, |makers|);
    2 * |trades| == |fills| && forall k :: 0 <= k < |trades| ==> Pairs(trades[k], o, fills[2 * k + 1])
  }

  /** What adding an order to a book comes to: its executions, the other side in closed form, and what
      is left of the order behind its price, or gone. */
  ghost predicate Added(s: Book, o: Incoming, keep: bool, s': Book, trades: seq<Execution>) {
    var makers := s.state.On(Opposite(o.side));
    var n := |makers|;
    var done, left := DoneOf(makers, Limit(o), o.qty, n), Monus(o.qty, Ahead(makers, Limit(o), n));
    && Executes(o, makers, trades)
    && s'.state.On(Opposite(o.side)) == StaysOf(makers, Limit(o), o.qty, n)
    && (if keep && left > 0 then
          && Joins(s.state.On(o.side), s'.state.On(o.side), o.side,
                   Resting(o.id, o.price, left, None, s.state.stamp + 1))
          && s'.state.index == (s.state.index - Ids(done))[o.id := (o.side, o.price)]
          && s'.types == (s.types - Ids(done))[o.id := GoodTillCancel]
        else
          && s'.state.On(o.side) == s.state.On(o.side)
          && s'.state.index == s.state.index - Ids(done) && s'.types == s.types - Ids(done))
  }

  lemma ExecutesMatched(s: Book, o: Incoming)
    ensures Executes(o, s.state.On(Opposite(o.side)), Executions(o.side, Placed(s, o, o.qty), Matched(s, o).fills))
  {
    hide Greedy, FillsOf, Executions;
    var makers, e := s.state.On(Opposite(o.side)), Placed(s, o, o.qty);
    var trades := Executions(o.side, e, Matched(s, o).fills);
    GreedyIs(makers, Limit(o), o.qty);
    EvenFills(makers, Limit(o), o.qty, |makers|);
    ExecutionsCount(o.side, e, Matched(s, o).fills);
    forall k | 0 <= k < |trades| ensures Pairs(trades[k], o, Matched(s, o).fills[2 * k + 1]) {
      ExecutionsAt(o.side, e, Matched(s, o).fills, k);
    }
  }

  /** The reference settlement means what it should. */
  lemma SettleMeans(s: Book, o: Incoming, keep: bool)
    requires Tidy(s) && o.id !in s.state.index && (keep ==> o.orderType == GoodTillCancel)
    ensures Added(s, o, keep, Settle(s, o, keep), Executions(o.side, Placed(s, o, o.qty), Matched(s, o).fills))
  {
    hide Greedy, FillsOf, StaysOf, DoneOf, Joins, InsertSorted, Executions, Executes, Tidy, Ahead, Ids;
    var makers := s.state.On(Opposite(o.side));
    ExecutesMatched(s, o);
    GreedyIs(makers, Limit(o), o.qty);
    TidySorted(s, o.side);
    var left := Monus(o.qty, Ahead(makers, Limit(o), |makers|));
    InsertJoins(s.state.On(o.side), o.side, Resting(o.id, o.price, left, None, s.state.stamp + 1));
  }

  lemma TidySorted(s: Book, side: Side)
    requires Tidy(s)
    ensures Sorted(side, s.state.On(side))
  {
  }

  // ----- Adds -----

  /** A good-till-cancelled order trades and rests what is left; a fill-and-kill order trades and never
      rests, and does nothing when it meets nobody. */
  lemma AddMeans(s: Book, o: Incoming)
    requires Tidy(s) && o.id !in s.state.index && o.qty > 0 && !o.orderType.MarketOrder?
    ensures var (s', trades) := AddOrder(s, o);
            var makers := s.state.On(Opposite(o.side));
            var meets :=
              makers != [] && if o.side == Buy then makers[0].price <= o.price else makers[0].price >= o.price;
            if o.orderType.FillAndKill? && !meets then s' == s && trades == []
            else Added(s, o, o.orderType.GoodTillCancel?, s', trades)
  {
    hide Added, AddPriced, Settle, Executions, Tidy;
    AddIsGreedy(s, o);
    SettleMeans(s, o, o.orderType == GoodTillCancel);
  }

  /** A market order takes the price of the worst order on the other side: no maker is out of its reach. */
  lemma MarketMeans(s: Book, o: Incoming)
    requires Tidy(s) && o.id !in s.state.index && o.qty > 0 && o.orderType.MarketOrder?
    ensures var makers := s.state.On(Opposite(o.side));
            if makers == [] then AddOrder(s, o) == (s, [])
            else
              exists p :: && (exists m :: m in makers && m.price == p)
                          && (forall m :: m in makers ==> if o.side == Buy then m.price <= p else m.price >= p)
                          && Added(s, Incoming(o.id, GoodTillCancel, o.side, p, o.qty), true,
                                   AddOrder(s, o).0, AddOrder(s, o).1)
  {
    hide Added, AddPriced, Settle, Executions;
    var makers := s.state.On(Opposite(o.side));
    if makers != [] {
      var p := makers[|makers| - 1].price;
      var g := Incoming(o.id, GoodTillCancel, o.side, p, o.qty);
      assert makers[|makers| - 1] in makers;
      WorstLast(s, o.side);
      hide Tidy;
      AddIsGreedy(s, g);
      SettleMeans(s, g, true);
    }
  }

  lemma WorstLast(s: Book, side: Side)
    requires Tidy(s) && s.state.On(Opposite(side)) != []
    ensures var makers := s.state.On(Opposite(side));
            forall m :: m in makers ==>
              if side == Buy then m.price <= makers[|makers| - 1].price else m.price >= makers[|makers| - 1].price
  {
    TidyApart(s, side);
    hide Tidy;
    var makers := s.state.On(Opposite(side));
    forall m | m in makers
      ensures if side == Buy then m.price <= makers[|makers| - 1].price else m.price >= makers[|makers| - 1].price
    {
      var i :| 0 <= i < |makers| && makers[i] == m;
      assert i == |makers| - 1 ||
             Rank(Opposite(side), makers[i].price) <= Rank(Opposite(side), makers[|makers| - 1].price);
    }
  }

  // ----- Cancels and modifies -----

  /** The book without one order. */
  ghost predicate Cancelled(s: Book, id: string, t: Book)
    requires id in s.state.index
  {
    var side := s.state.index[id].0;
    && Leaves(s.state.On(side), t.state.On(side), id)
    && t.state.On(Opposite(side)) == s.state.On(Opposite(side))
    && t.state.index == s.state.index - {id} && t.types == s.types - {id} && t.state.stamp == s.state.stamp
  }

  lemma BookCancelMeans(s: Book, id: string)
    requires Tidy(s)
    ensures if id in s.state.index then Cancelled(s, id, CancelOrder(s, id)) else CancelOrder(s, id) == s
  {
    hide Leaves;
    CancelMeans(s.state, Order(Cancel, Buy, 0, 0, "", id, None));
  }

  /** A modify takes the order out and adds it again under its id, as a good-till-cancelled order of the
      new side, price and quantity: it trades, and rests behind its new price. */
  lemma ModifyMeans(s: Book, id: string, side: Side, price: int, qty: nat)
    requires Tidy(s) && qty > 0
    ensures var (s', trades) := ModifyOrder(s, id, side, price, qty);
            if id !in s.state.index then s' == s && trades == []
            else exists t :: Cancelled(s, id, t) && Tidy(t) &&
                   Added(t, Incoming(id, GoodTillCancel, side, price, qty), true, s', trades)
  {
    hide Added, AddPriced, Settle, Executions, CancelOrder, Cancelled;
    if id in s.state.index {
      var t := CancelOrder(s, id);
      var o := Incoming(id, GoodTillCancel, side, price, qty);
      assert s.types[id] == GoodTillCancel;
      BookCancelMeans(s, id);
      CancelTidy(s, id);
      hide Tidy;
      AddIsGreedy(t, o);
      SettleMeans(t, o, true);
    }
  }

  // ----- Quantities -----

  /** Total quantity an id trades in a list of executions. */
  function Executed(trades: seq<Execution>, id: string): nat {
    if trades == [] then 0
    else (if trades[0].bidId == id || trades[0].askId == id then trades[0].qty else 0) + Executed(trades[1..], id)
  }

  ghost predicate Paired(fills: seq<Fill>, id: string) {
    && |fills| % 2 == 0
    && (forall k :: 0 <= 2 * k + 1 < |fills| ==>
          fills[2 * k].id == id && fills[2 * k].qty == fills[2 * k + 1].qty && fills[2 * k + 1].id != id)
  }

  lemma {:induction false} ExecutedIsFilled(side: Side, o: Resting, fills: seq<Fill>, id: string)
    requires Paired(fills, o.id)
    ensures Executed(Executions(side, o, fills), id) == Filled(fills, id)
  {
    if |fills| >= 2 {
      var rest := fills[2..];
      forall k | 0 <= 2 * k + 1 < |rest|
        ensures rest[2 * k].id == o.id && rest[2 * k].qty == rest[2 * k + 1].qty && rest[2 * k + 1].id != o.id
      {
        assert 2 * (k + 1) + 1 < |fills|;
        assert rest[2 * k] == fills[2 * (k + 1)] && rest[2 * k + 1] == fills[2 * (k + 1) + 1];
      }
      ExecutedIsFilled(side, o, rest, id);
      TwoFills(fills, id);
      FirstPair(fills, o.id);
      assert Executions(side, o, fills)[1..] == Executions(side, o, rest);
    }
  }

  lemma FirstPair(fills: seq<Fill>, id: string)
    requires Paired(fills, id) && |fills| >= 2
    ensures fills[0].id == id && fills[0].qty == fills[1].qty && fills[1].id != id
  {
    assert fills[2 * 0].id == id;
  }

  lemma TwoFills(fills: seq<Fill>, id: string)
    requires |fills| >= 2
    ensures Filled(fills, id) ==
            (if fills[0].id == id then fills[0].qty else 0) + (if fills[1].id == id then fills[1].qty else 0) +
            Filled(fills[2..], id)
  {
    assert fills[1..][1..] == fills[2..];
  }

  lemma MatchPaired(makers: seq<Resting>, o: Order, want: nat)
    requires forall m :: m in makers ==> m.id != o.id
    ensures Paired(Greedy(makers, o, want).fills, o.id)
  {
    hide Greedy, FillsOf;
    GreedyIs(makers, o, want);
    EvenFills(makers, o, want, |makers|);
    var fills := FillsOf(makers, o, want, |makers|);
    forall k | 0 <= 2 * k + 1 < |fills|
      ensures fills[2 * k].id == o.id && fills[2 * k].qty == fills[2 * k + 1].qty && fills[2 * k + 1].id != o.id
    {
      var i := PairOf(makers, o, want, |makers|, k);
      assert makers[i] in makers;
    }
  }

  /** What an id trades in an add and what it then rests is what it rested before, plus the incoming
      quantity for the incoming id. */
  lemma AddMoves(s: Book, o: Incoming, id: string)
    requires Tidy(s) && o.id !in s.state.index && o.qty > 0 && o.orderType == GoodTillCancel
    ensures var (s', trades) := AddOrder(s, o);
            Executed(trades, id) + Rested(s'.state, id) == Rested(s.state, id) + if id == o.id then o.qty else 0
  {
    hide AddPriced, Executions, Greedy, Executed, Filled, Rested, Insert;
    AddIsGreedy(s, o);
    var makers := s.state.On(Opposite(o.side));
    forall m | m in makers ensures m.id != o.id {
      assert m.id in s.state.index;
    }
    MatchPaired(makers, Limit(o), o.qty);
    ExecutedIsFilled(o.side, Placed(s, o, o.qty), Matched(s, o).fills, id);
    SubmitMoves(s.state, Limit(o), id);
    SettleIsSubmit(s, o, id);
  }

  lemma SettleIsSubmit(s: Book, o: Incoming, id: string)
    ensures Rested(Settle(s, o, true).state, id) == Rested(Submit(s.state, Limit(o)).state, id)
    ensures Matched(s, o).fills == Submit(s.state, Limit(o)).fills
  {
    hide Greedy, InsertSorted, QtyOf;
  }

  /** A modify moves no other id's quantity except by trading, and trades or rests all of its own. */
  lemma ModifyMoves(s: Book, id: string, side: Side, price: int, qty: nat, k: string)
    requires Tidy(s) && id in s.state.index && qty > 0
    ensures var (s', trades) := ModifyOrder(s, id, side, price, qty);
            Executed(trades, k) + Rested(s'.state, k) == if k == id then qty else Rested(s.state, k)
  {
    hide AddOrder, CancelOrder, Executed, Rested;
    var t := CancelOrder(s, id);
    assert s.types[id] == GoodTillCancel;
    CancelTidy(s, id);
    CancelRests(s, id, k);
    AddMoves(t, Incoming(id, GoodTillCancel, side, price, qty), k);
  }

  lemma CancelRests(s: Book, id: string, k: string)
    requires Tidy(s) && id in s.state.index
    ensures Rested(CancelOrder(s, id).state, k) == if k == id then 0 else Rested(s.state, k)
  {
    hide Rested;
    RestedRemove(s.state, id, k);
    if k == id {
      CancelTidy(s, id);
      NotResting(CancelOrder(s, id).state, id);
    }
  }

  lemma NotResting(s: State, id: string)
    requires Ok(s) && id !in s.index
    ensures Rested(s, id) == 0
  {
    NoQty(s.bids, id);
    NoQty(s.asks, id);
  }
}
