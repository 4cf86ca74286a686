/** Whole runs of the engine: a ledger of everything submitted and filled, and what holds of
    it after every sequence of commands whose new and replacing ids are fresh. */
module EngineRuns {
  import opened Wrappers
  import opened PriceTimeBook
  import opened EngineSpec
  import opened BookInvariants
  import opened CrossedBook
  import opened Conservation

  /** `open` holds the limit orders and replacements not yet cancelled or replaced. */
  datatype Ledger = Ledger(state: State, fills: seq<Fill>, submitted: map<string, nat>, open: set<string>)

  const NOTHING := Ledger(EMPTY, [], map[], {})

  function Record(l: Ledger, o: Order): Ledger {
    var r := Step(l.state, o);
    Ledger(r.state, l.fills + r.fills,
           if o.kind == Cancel then l.submitted else l.submitted[o.id := o.qty],
           match o.kind
           case NewLimit => l.open + {o.id}
           case NewMarket => l.open
           case Cancel => l.open - {o.origId}
           case Replace => l.open - {o.origId} + if o.origId in l.state.index then {o.id} else {})
  }

  function Play(orders: seq<Order>): Ledger {
    if orders == [] then NOTHING
    else Record(Play(orders[..|orders| - 1]), orders[|orders| - 1])
  }

  /** New and replacing ids are non-empty and never used before. */
  ghost predicate FreshIds(orders: seq<Order>) {
    forall j :: 0 <= j < |orders| && orders[j].kind != Cancel ==>
      && orders[j].id != ""
      && forall i :: 0 <= i < j && orders[i].kind != Cancel ==> orders[i].id != orders[j].id
  }

  /** The quantity submitted under an id; 0 if there was none. */
  function Submitted(l: Ledger, id: string): nat {
    if id in l.submitted then l.submitted[id] else 0
  }

  ghost predicate Conserved(l: Ledger) {
    && (forall id :: Filled(l.fills, id) + Rested(l.state, id) <= Submitted(l, id))
    && (forall id :: id in l.open ==> Filled(l.fills, id) + Rested(l.state, id) == Submitted(l, id))
    && Traded(l.fills, TAKER) == Traded(l.fills, MAKER)
  }

  ghost predicate Good(l: Ledger) {
    Ok(l.state) && Conserved(l) && l.state.index.Keys <= l.submitted.Keys && l.open <= l.submitted.Keys
  }

  // ----- Quantities through each operation -----

  lemma {:induction false} QtyInsert(list: seq<Resting>, side: Side, e: Resting, id: string)
    ensures QtyOf(InsertSorted(list, side, e), id) == QtyOf(list, id) + if e.id == id then e.remaining else 0
  {
    if list == [] || Rank(side, e.price) < Rank(side, list[0].price) {
      assert ([e] + list)[1..] == list;
    } else {
      QtyInsert(list[1..], side, e, id);
      assert ([list[0]] + InsertSorted(list[1..], side, e))[1..] == InsertSorted(list[1..], side, e);
    }
  }

  lemma QtyAt(list: seq<Resting>, i: nat, id: string)
    requires i < |list|
    ensures QtyOf(list, id)
            == QtyOf(list[..i], id) + (if list[i].id == id then list[i].remaining else 0) + QtyOf(list[i + 1..], id)
  {
    assert list == list[..i] + ([list[i]] + list[i + 1..]);
    QtyConcat(list[..i], [list[i]] + list[i + 1..], id);
    QtyConcat([list[i]], list[i + 1..], id);
    assert [list[i]][1..] == [];
  }

  lemma QtyWithout(list: seq<Resting>, gone: string, price: int, id: string)
    ensures QtyOf(Without(list, gone, price), id) <= QtyOf(list, id)
    ensures id != gone ==> QtyOf(Without(list, gone, price), id) == QtyOf(list, id)
  {
    var i := Find(list, gone, price);
    if i < |list| {
      QtyAt(list, i, id);
      QtyConcat(list[..i], list[i + 1..], id);
    }
  }

  lemma QtyUpdate(list: seq<Resting>, i: nat, e: Resting, id: string)
    requires i < |list|
    ensures QtyOf(list[i := e], id) + (if list[i].id == id then list[i].remaining else 0)
            == QtyOf(list, id) + if e.id == id then e.remaining else 0
  {
    QtyAt(list, i, id);
    QtyAt(list[i := e], i, id);
    assert list[i := e][..i] == list[..i] && list[i := e][i + 1..] == list[i + 1..];
  }

  lemma RestedInsert(s: State, id: string, side: Side, price: int, remaining: nat, smp: Option<nat>, k: string)
    ensures Rested(Insert(s, id, side, price, remaining, smp), k) == Rested(s, k) + if k == id then remaining else 0
  {
    QtyInsert(s.On(side), side, Resting(id, price, remaining, smp, s.stamp + 1), k);
    hide InsertSorted;
    hide QtyOf;
  }

  lemma RestedRemove(s: State, id: string, k: string)
    ensures Rested(Remove(s, id).state, k) <= Rested(s, k)
    ensures k != id ==> Rested(Remove(s, id).state, k) == Rested(s, k)
  {
    if id in s.index {
      var (side, price) := s.index[id];
      QtyWithout(s.On(side), id, price, k);
      hide Without;
      hide QtyOf;
    }
  }

  lemma RestedAmend(s: State, o: Order, k: string)
    requires KeepsPlace(s, o) && o.id != "" && o.id != o.origId
    ensures k != o.id ==> Rested(Amend(s, o), k) <= Rested(s, k)
    ensures k != o.id && k != o.origId ==> Rested(Amend(s, o), k) == Rested(s, k)
    ensures k == o.id ==> Rested(Amend(s, o), k) == Rested(s, k) + o.qty
  {
    var (side, price) := s.index[o.origId];
    var list := s.On(side);
    var i := Find(list, o.origId, price);
    QtyUpdate(list, i, list[i].(id := o.id, remaining := o.qty), k);
    hide QtyOf;
    hide Find;
  }

  /** What a new order takes from the book it fills, and what it does not take it rests. */
  lemma SubmitMoves(s: State, o: Order, k: string)
    ensures var r := Submit(s, o);
            var g := Greedy(s.On(Opposite(o.side)), o, o.qty);
            && Filled(r.fills, k) + Rested(r.state, k)
               == Rested(s, k) + (if k != o.id then 0 else if o.kind == NewLimit then o.qty else o.qty - g.remaining)
            && g.remaining <= o.qty
            && Traded(r.fills, TAKER) == Traded(r.fills, MAKER)
  {
    var away := Opposite(o.side);
    var g := Greedy(s.On(away), o, o.qty);
    var s' := s.Put(away, g.book).(index := s.index - Ids(g.done));
    GreedyConserves(s.On(away), o, o.qty, k);
    hide Greedy;
    hide QtyOf;
    hide Filled;
    if o.kind == NewLimit && g.remaining > 0 {
      RestedInsert(s', o.id, o.side, o.price, g.remaining, o.smp, k);
      hide Insert;
    }
  }

  lemma SubmitConserved(l: Ledger, o: Order)
    requires Good(l) && (o.kind == NewLimit || o.kind == NewMarket) && o.id !in l.submitted
    ensures Conserved(Record(l, o))
  {
    var r, l' := Submit(l.state, o), Record(l, o);
    forall k
      ensures Filled(l'.fills, k) + Rested(l'.state, k) <= Submitted(l', k)
      ensures k in l'.open ==> Filled(l'.fills, k) + Rested(l'.state, k) == Submitted(l', k)
    {
      SubmitMoves(l.state, o, k);
      FilledConcat(l.fills, r.fills, k);
    }
    SubmitMoves(l.state, o, "");
    TradedConcat(l.fills, r.fills, TAKER);
    TradedConcat(l.fills, r.fills, MAKER);
  }

  lemma OtherConserved(l: Ledger, o: Order)
    requires Good(l) && (o.kind == Cancel || (o.kind == Replace && o.id != "" && o.id !in l.submitted))
    ensures Conserved(Record(l, o))
  {
    hide Filled, Rested, Traded, Find, Without, InsertSorted;
    var r, l' := Step(l.state, o), Record(l, o);
    assert r.fills == [] && l'.fills == l.fills;
    forall k
      ensures Filled(l'.fills, k) + Rested(l'.state, k) <= Submitted(l', k)
      ensures k in l'.open ==> Filled(l'.fills, k) + Rested(l'.state, k) == Submitted(l', k)
    {
      RestedRemove(l.state, o.origId, k);
      if o.kind == Replace && o.origId in l.state.index {
        if KeepsPlace(l.state, o) {
          RestedAmend(l.state, o, k);
        } else {
          RestedInsert(Remove(l.state, o.origId).state, o.id, o.side, o.price, o.qty, o.smp, k);
        }
      }
    }
  }

  // ----- What the ledger says of a run -----

  /** An order that rests or may rest: a limit order, or a replace of an order that was resting. */
  ghost predicate Opened(orders: seq<Order>, i: nat)
    requires i < |orders|
  {
    || orders[i].kind == NewLimit
    || (orders[i].kind == Replace && orders[i].origId in Play(orders[..i]).state.index)
  }

  /** Nothing after `i` cancels or replaces the id. */
  ghost predicate LeftAlone(orders: seq<Order>, i: nat, id: string) {
    forall j :: i < j < |orders| && (orders[j].kind == Cancel || orders[j].kind == Replace) ==> orders[j].origId != id
  }

  ghost predicate OpenBy(orders: seq<Order>, i: nat, id: string)
    requires i < |orders|
  {
    Opened(orders, i) && orders[i].id == id && LeftAlone(orders, i, id)
  }

  lemma OpenByPrefix(orders: seq<Order>, i: nat, id: string)
    requires i + 1 < |orders|
    ensures var n, o := |orders| - 1, orders[|orders| - 1];
            OpenBy(orders, i, id) <==>
            OpenBy(orders[..n], i, id) && !((o.kind == Cancel || o.kind == Replace) && o.origId == id)
  {
    hide Play;
    var n := |orders| - 1;
    assert orders[..n][..i] == orders[..i];
    assert forall j :: 0 <= j < n ==> orders[..n][j] == orders[j];
  }

  /** In every run with fresh ids, an id is open exactly when a limit order, or a replace of a resting order,
      brought it and nothing cancelled or replaced it since. */
  lemma {:induction false} OpenIff(orders: seq<Order>, id: string)
    requires FreshIds(orders)
    ensures id in Play(orders).open <==> exists i :: 0 <= i < |orders| && OpenBy(orders, i, id)
  {
    hide Step;
    if orders != [] {
      var n := |orders| - 1;
      var before, o := orders[..n], orders[n];
      FreshPrefix(orders, n);
      OpenIff(before, id);
      forall i | 0 <= i < n
        ensures OpenBy(orders, i, id) <==>
                OpenBy(before, i, id) && !((o.kind == Cancel || o.kind == Replace) && o.origId == id)
      {
        OpenByPrefix(orders, i, id);
      }
      hide OpenBy;
      LastOpens(orders, id);
    }
  }

  /** What the last order of a run opens. */
  lemma LastOpens(orders: seq<Order>, id: string)
    requires orders != []
    ensures var o := orders[|orders| - 1];
            OpenBy(orders, |orders| - 1, id) <==>
            && o.id == id
            && (o.kind == NewLimit ||
                (o.kind == Replace && o.origId in Play(orders[..|orders| - 1]).state.index))
  {
    hide Play;
  }

  /** The quantity submitted under an id is the quantity of the order that brought it. */
  lemma {:induction false} SubmittedQty(orders: seq<Order>, i: nat)
    requires FreshIds(orders) && i < |orders| && orders[i].kind != Cancel
    ensures orders[i].id in Play(orders).submitted && Play(orders).submitted[orders[i].id] == orders[i].qty
  {
    hide Step;
    var n := |orders| - 1;
    if i < n {
      FreshPrefix(orders, n);
      SubmittedQty(orders[..n], i);
    }
  }

  /** The fills of a run are those of its orders, one after the other. */
  lemma RunFills(orders: seq<Order>, o: Order)
    ensures Play(orders + [o]).fills == Play(orders).fills + Step(Play(orders).state, o).fills
    ensures Play(orders + [o]).state == Step(Play(orders).state, o).state
  {
    hide Step;
    assert (orders + [o])[..|orders|] == orders;
  }

  // ----- Every run -----

  lemma IndexGrows(s: State, o: Order)
    requires o.kind != Cancel ==> o.id != ""
    ensures Step(s, o).state.index.Keys <= s.index.Keys + if o.kind == Cancel then {} else {o.id}
  {
  }

  lemma RecordGood(l: Ledger, o: Order)
    requires Good(l) && (o.kind != Cancel ==> o.id != "" && o.id !in l.submitted)
    ensures Good(Record(l, o))
  {
    hide Conserved;
    StepOk(l.state, o);
    IndexGrows(l.state, o);
    if o.kind == NewLimit || o.kind == NewMarket {
      SubmitConserved(l, o);
    } else {
      OtherConserved(l, o);
    }
    hide Step;
    hide Ok;
  }

  lemma FreshPrefix(orders: seq<Order>, n: nat)
    requires FreshIds(orders) && n <= |orders|
    ensures FreshIds(orders[..n])
  {
  }

  lemma {:induction false} SubmittedIds(orders: seq<Order>, id: string)
    ensures id in Play(orders).submitted <==>
            exists i :: 0 <= i < |orders| && orders[i].kind != Cancel && orders[i].id == id
  {
    if orders != [] {
      var n := |orders| - 1;
      SubmittedIds(orders[..n], id);
      if id in Play(orders[..n]).submitted {
        var i :| 0 <= i < n && orders[..n][i].kind != Cancel && orders[..n][i].id == id;
        assert orders[i].id == id;
      }
      if i :| 0 <= i < n && orders[i].kind != Cancel && orders[i].id == id {
        assert orders[..n][i].id == id;
      }
    }
  }

  lemma LastIsFresh(orders: seq<Order>)
    requires FreshIds(orders) && orders != []
    ensures var o := orders[|orders| - 1];
            o.kind != Cancel ==> o.id != "" && o.id !in Play(orders[..|orders| - 1]).submitted
  {
    SubmittedIds(orders[..|orders| - 1], orders[|orders| - 1].id);
  }

  /** After every run the book is in price-time order, the index names exactly the resting
      orders, and quantity is conserved id by id. */
  lemma {:induction false} RunGood(orders: seq<Order>)
    requires FreshIds(orders)
    ensures Good(Play(orders))
  {
    if orders == [] {
      StartGood();
    } else {
      var n := |orders| - 1;
      FreshPrefix(orders, n);
      RunGood(orders[..n]);
      LastIsFresh(orders);
      RecordGood(Play(orders[..n]), orders[n]);
    }
  }

  lemma StartGood()
    ensures Good(NOTHING)
  {
  }

  /** No replace of the run rests across the spread. */
  ghost predicate NeverRestsAcross(orders: seq<Order>) {
    forall i :: 0 <= i < |orders| ==> !RestsAcross(Play(orders[..i]).state, orders[i])
  }

  /** The book stays free of foreign crosses all along a run exactly when no replace of the
      run rests across the spread. */
  lemma {:induction false} RunCross(orders: seq<Order>)
    requires FreshIds(orders)
    ensures (forall n :: 0 <= n <= |orders| ==> NoForeignCross(Play(orders[..n]).state))
            <==> NeverRestsAcross(orders)
  {
    if (forall n :: 0 <= n <= |orders| ==> NoForeignCross(Play(orders[..n]).state)) {
      forall i | 0 <= i < |orders| ensures !RestsAcross(Play(orders[..i]).state, orders[i]) {
        PrefixStep(orders, i);
        assert NoForeignCross(Play(orders[..i + 1]).state);
      }
    }
    if NeverRestsAcross(orders) {
      forall n | 0 <= n <= |orders| ensures NoForeignCross(Play(orders[..n]).state) {
        PrefixCross(orders, n);
      }
    }
  }

  lemma PrefixStep(orders: seq<Order>, i: nat)
    requires FreshIds(orders) && i < |orders|
    ensures Play(orders[..i + 1]).state == Step(Play(orders[..i]).state, orders[i]).state
    ensures NoForeignCross(Play(orders[..i]).state) ==>
              (NoForeignCross(Play(orders[..i + 1]).state) <==> !RestsAcross(Play(orders[..i]).state, orders[i]))
  {
    FreshPrefix(orders, i);
    FreshPrefix(orders, i + 1);
    RunGood(orders[..i]);
    LastIsFresh(orders[..i + 1]);
    assert orders[..i + 1][..i] == orders[..i];
    var s, o := Play(orders[..i]).state, orders[i];
    assert Fresh(o, s);
    if NoForeignCross(s) {
      StepCross(s, o);
    }
  }

  lemma {:induction false} PrefixCross(orders: seq<Order>, n: nat)
    requires FreshIds(orders) && NeverRestsAcross(orders) && n <= |orders|
    ensures NoForeignCross(Play(orders[..n]).state)
  {
    if n > 0 {
      PrefixCross(orders, n - 1);
      PrefixStep(orders, n - 1);
    }
  }

  /** The promise of the documentation holds when every replace keeps its place. */
  lemma SamePriceDecreasesNeverCross(orders: seq<Order>)
    requires FreshIds(orders)
    requires forall i :: 0 <= i < |orders| && orders[i].kind == Replace ==>
               var s := Play(orders[..i]).state; orders[i].origId in s.index ==> KeepsPlace(s, orders[i])
    ensures NoForeignCross(Play(orders).state)
  {
    assert NeverRestsAcross(orders);
    PrefixCross(orders, |orders|);
    assert orders[..|orders|] == orders;
  }

  // ----- A repricing replace does leave two strangers crossed -----

  const BID := Order(NewLimit, Buy, 100, 5, "b", "", None)
  const ASK := Order(NewLimit, Sell, 110, 5, "a", "", None)
  const MOVE := Order(Replace, Buy, 120, 5, "c", "b", None)
  const RESTING_BID := Resting("b", 100, 5, None, 1)
  const RESTING_ASK := Resting("a", 110, 5, None, 2)

  lemma OneBid()
    ensures Play([BID]).state == State([RESTING_BID], [], map["b" := (Buy, 100)], 1)
  {
    assert [BID][..0] == [];
  }

  lemma BidAndAsk()
    ensures Play([BID, ASK]).state
            == State([RESTING_BID], [RESTING_ASK], map["b" := (Buy, 100), "a" := (Sell, 110)], 2)
  {
    OneBid();
    assert [BID, ASK][..1] == [BID];
    var g := Greedy([RESTING_BID], ASK, 5);
    GreedyNoneEligible([RESTING_BID], ASK, 5);
    assert g == Match([], [], [RESTING_BID], 5);
    hide Play;
    hide Greedy;
    assert map["b" := (Buy, 100)] - Ids([]) == map["b" := (Buy, 100)];
  }

  lemma MoveIsFresh()
    ensures FreshIds([BID, ASK, MOVE]) && FreshIds([BID, ASK])
  {
    assert "a"[0] != "b"[0] && "b"[0] != "c"[0] && "a"[0] != "c"[0];
  }

  lemma RepriceLeavesBookCrossed()
    ensures FreshIds([BID, ASK, MOVE]) && !NoForeignCross(Play([BID, ASK, MOVE]).state)
  {
    var orders := [BID, ASK, MOVE];
    MoveIsFresh();
    BidAndAsk();
    assert orders[..2] == [BID, ASK] && orders[..3] == orders;
    PrefixStep(orders, 2);
    MoveRestsAcross(Play([BID, ASK]).state);
    hide Play;
    hide Step;
  }

  lemma MoveRestsAcross(s: State)
    requires s == State([RESTING_BID], [RESTING_ASK], map["b" := (Buy, 100), "a" := (Sell, 110)], 2)
    ensures NoForeignCross(s) && RestsAcross(s, MOVE)
  {
    assert "a"[0] != "b"[0];
    assert RESTING_ASK in s.On(Sell) && Eligible(MOVE, RESTING_ASK);
  }
}
