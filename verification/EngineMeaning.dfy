/** What each command does to the book, said without the functions that do it: where orders go, at
    what price they trade, what stays and what is reported done. */
module EngineMeaning {
  import opened PriceTimeBook
  import opened EngineSpec
  import opened BookInvariants
  import opened Conservation
  import opened EngineRuns
  import opened GreedyMeaning

  /** Is price `p` at least as good as `q` for a resting order of this side? */
  predicate NoWorse(side: Side, p: int, q: int) {
    if side == Buy then p >= q else p <= q
  }

  /** One order joins a list: behind everything of its price or better, before everything worse. */
  ghost predicate Joins(before: seq<Resting>, after: seq<Resting>, side: Side, e: Resting) {
    exists n :: 0 <= n <= |before| && JoinsAt(before, after, side, e, n)
  }

  ghost predicate JoinsAt(before: seq<Resting>, after: seq<Resting>, side: Side, e: Resting, n: nat)
    requires n <= |before|
  {
    && after == before[..n] + [e] + before[n..]
    && (forall j :: 0 <= j < n ==> NoWorse(side, before[j].price, e.price))
    && (forall j :: n <= j < |before| ==> !NoWorse(side, before[j].price, e.price))
  }

  /** One order leaves a list; the others keep their places. */
  ghost predicate Leaves(before: seq<Resting>, after: seq<Resting>, id: string) {
    exists i :: 0 <= i < |before| && before[i].id == id && after == before[..i] + before[i + 1..]
  }

  /** The place where a sorted list takes an order. */
  lemma {:induction false} InsertJoins(list: seq<Resting>, side: Side, e: Resting)
    requires Sorted(side, list)
    ensures Joins(list, InsertSorted(list, side, e), side, e)
  {
    if list == [] || Rank(side, e.price) < Rank(side, list[0].price) {
      assert list == list[0..];
      assert JoinsAt(list, InsertSorted(list, side, e), side, e, 0);
    } else {
      InsertJoins(list[1..], side, e);
      var n :| 0 <= n <= |list[1..]| && JoinsAt(list[1..], InsertSorted(list[1..], side, e), side, e, n);
      JoinsCons(list, InsertSorted(list[1..], side, e), side, e, n);
    }
  }

  lemma JoinsCons(list: seq<Resting>, after: seq<Resting>, side: Side, e: Resting, n: nat)
    requires list != [] && n <= |list[1..]| && JoinsAt(list[1..], after, side, e, n)
    requires NoWorse(side, list[0].price, e.price)
    ensures JoinsAt(list, [list[0]] + after, side, e, n + 1)
  {
    var rest := list[1..];
    assert list[..n + 1] == [list[0]] + rest[..n] && list[n + 1..] == rest[n..];
    forall j | 0 <= j < n + 1 ensures NoWorse(side, list[j].price, e.price) {
      assert j == 0 || list[j] == rest[j - 1];
    }
    forall j | n + 1 <= j < |list| ensures !NoWorse(side, list[j].price, e.price) {
      assert list[j] == rest[j - 1];
    }
  }

  // ----- New orders -----

  /** A new order trades by the closed form; what is left of a limit order rests at its own price,
      behind its price, with its own self-match id; every other order is done with. */
  lemma SubmitMeans(s: State, o: Order)
    requires Ok(s) && (o.kind == NewLimit || o.kind == NewMarket)
    ensures var r, makers := Step(s, o), s.On(Opposite(o.side));
            var n, left := |makers|, Monus(o.qty, Ahead(makers, o, |makers|));
            && r.fills == FillsOf(makers, o, o.qty, n)
            && r.state.On(Opposite(o.side)) == StaysOf(makers, o, o.qty, n)
            && (if o.kind == NewLimit && left > 0 then
                  && Joins(s.On(o.side), r.state.On(o.side), o.side, Resting(o.id, o.price, left, o.smp, s.stamp + 1))
                  && r.done == DoneOf(makers, o, o.qty, n)
                  && r.state.index == (s.index - Ids(r.done))[o.id := (o.side, o.price)]
                else
                  && r.state.On(o.side) == s.On(o.side)
                  && r.done == DoneOf(makers, o, o.qty, n) + [o.id]
                  && r.state.index == s.index - Ids(DoneOf(makers, o, o.qty, n)))
  {
    hide Greedy, FillsOf, StaysOf, DoneOf, Joins, InsertSorted;
    GreedyIs(s.On(Opposite(o.side)), o, o.qty);
    var left := Monus(o.qty, Ahead(s.On(Opposite(o.side)), o, |s.On(Opposite(o.side))|));
    InsertJoins(s.On(o.side), o.side, Resting(o.id, o.price, left, o.smp, s.stamp + 1));
  }

  // ----- Cancels -----

  /** A cancel takes out the one order it names and nothing else. */
  lemma CancelMeans(s: State, o: Order)
    requires Ok(s) && o.kind == Cancel
    ensures var r := Step(s, o);
            && r.fills == []
            && (if o.origId in s.index then
                  var side := s.index[o.origId].0;
                  && Leaves(s.On(side), r.state.On(side), o.origId)
                  && r.state.On(Opposite(side)) == s.On(Opposite(side))
                  && r.state.index == s.index - {o.origId} && r.done == [o.origId]
                else r.state == s && r.done == [])
  {
    if o.origId in s.index {
      var (side, price) := s.index[o.origId];
      RemoveLeaves(s.On(side), side, s.index, s.stamp, o.origId);
    }
  }

  lemma RemoveLeaves(list: seq<Resting>, side: Side, index: Index, stamp: nat, id: string)
    requires SideOk(side, list, index, stamp) && id in index && index[id].0 == side
    ensures Leaves(list, Without(list, id, index[id].1), id)
  {
    FindHas(list, id, index[id].1);
  }

  // ----- Replaces -----

  /** A replace at the same price for no more than is left changes id and quantity in place.  Any other
      takes the order out and puts the new one behind its price, on the side and with the self-match
      id the replace names, without trading. */
  lemma ReplaceMeans(s: State, o: Order)
    requires Ok(s) && o.kind == Replace
    ensures var r := Step(s, o);
            && r.fills == []
            && (o.origId !in s.index ==> r.state == s && r.done == [])
            && (o.origId in s.index ==>
                  var (side, price) := s.index[o.origId];
                  exists i :: 0 <= i < |s.On(side)| && s.On(side)[i].id == o.origId && s.On(side)[i].price == price &&
                    Replaced(s, o, side, i))
  {
    if o.origId in s.index {
      var (side, price) := s.index[o.origId];
      var i := Find(s.On(side), o.origId, price);
      FindHas(s.On(side), o.origId, price);
      ReplacedAt(s, o, side, i);
    }
  }

  ghost predicate Replaced(s: State, o: Order, side: Side, i: nat)
    requires i < |s.On(side)|
  {
    var r, list, id := Step(s, o), s.On(side), if o.id == "" then o.origId else o.id;
    if o.price == list[i].price && o.qty <= list[i].remaining then
      && r.state.On(side) == list[i := list[i].(id := id, remaining := o.qty)]
      && r.state.On(Opposite(side)) == s.On(Opposite(side))
      && r.state.index == (s.index - {o.origId})[id := (side, o.price)] && r.done == []
    else
      var mid := if o.side == side then list[..i] + list[i + 1..] else s.On(o.side);
      && Joins(mid, r.state.On(o.side), o.side, Resting(id, o.price, o.qty, o.smp, s.stamp + 1))
      && (o.side != side ==> r.state.On(side) == list[..i] + list[i + 1..])
      && (o.side == side ==> r.state.On(Opposite(side)) == s.On(Opposite(side)))
      && r.state.index == (s.index - {o.origId})[id := (o.side, o.price)] && r.done == [o.origId]
  }

  lemma ReplacedAt(s: State, o: Order, side: Side, i: nat)
    requires Ok(s) && o.kind == Replace && o.origId in s.index && side == s.index[o.origId].0
    requires i < |s.On(side)| && i == Find(s.On(side), o.origId, s.index[o.origId].1)
    ensures Replaced(s, o, side, i)
  {
    hide Joins, InsertSorted, Ok, Find;
    if KeepsPlace(s, o) {
      AmendIndex(s.index, o.origId, NewId(o), (side, o.price));
    } else {
      MovedJoins(s, o, side, i);
    }
  }

  /** The order is taken out and put in again. */
  lemma MovedJoins(s: State, o: Order, side: Side, i: nat)
    requires Ok(s) && o.origId in s.index && side == s.index[o.origId].0
    requires i < |s.On(side)| && i == Find(s.On(side), o.origId, s.index[o.origId].1)
    ensures var t, e := Remove(s, o.origId).state, Resting(NewId(o), o.price, o.qty, o.smp, s.stamp + 1);
            && t.On(side) == s.On(side)[..i] + s.On(side)[i + 1..] && t.On(Opposite(side)) == s.On(Opposite(side))
            && Joins(t.On(o.side), InsertSorted(t.On(o.side), o.side, e), o.side, e)
  {
    hide Joins, InsertSorted, Find;
    RemoveOk(s, o.origId);
    InsertJoins(Remove(s, o.origId).state.On(o.side), o.side, Resting(NewId(o), o.price, o.qty, o.smp, s.stamp + 1));
  }

  lemma AmendIndex(index: Index, origId: string, id: string, place: (Side, int))
    requires origId in index && index[origId] == place
    ensures id == origId ==> (index - {origId})[id := place] == index
  {
  }

  // ----- Runs -----

  /** In every run with fresh ids, each trade pairs the incoming order with one order resting on the
      other side, both filled for the same quantity at the price the index holds for the maker. */
  lemma RunFillPrices(orders: seq<Order>, o: Order, k: nat)
    requires FreshIds(orders) && (o.kind == NewLimit || o.kind == NewMarket)
    requires 2 * k < |Step(Play(orders).state, o).fills|
    ensures var s := Play(orders).state;
            var fills := Step(s, o).fills;
            && 2 * k + 1 < |fills|
            && var taker, maker := fills[2 * k], fills[2 * k + 1];
            && taker.id == o.id && taker.liquidity == 2 && maker.liquidity == 1
            && maker.id in s.index && s.index[maker.id] == (Opposite(o.side), maker.price)
            && taker.price == maker.price && taker.qty == maker.qty
            && (o.kind == NewLimit ==> NoWorse(Opposite(o.side), maker.price, o.price))
  {
    hide Step, Play, FillsOf;
    RunGood(orders);
    var s := Play(orders).state;
    SubmitMeans(s, o);
    var makers := s.On(Opposite(o.side));
    var i := PairOf(makers, o, o.qty, |makers|, k);
    assert makers[i] in makers;
  }
}
