/** What every command keeps: price-time order, and an index that names exactly the resting
    orders.  Orders and replacements must carry fresh ids. */
module BookInvariants {
  import opened Wrappers
  import opened PriceTimeBook
  import opened EngineSpec

  type Index = map<string, (Side, int)>

  /** Strict price-time priority. */
  predicate Before(side: Side, a: Resting, b: Resting) {
    Rank(side, a.price) < Rank(side, b.price) || (a.price == b.price && a.stamp < b.stamp)
  }

  ghost predicate Sorted(side: Side, list: seq<Resting>) {
    forall i, j :: 0 <= i < j < |list| ==> Before(side, list[i], list[j])
  }

  ghost predicate DistinctIds(list: seq<Resting>) {
    forall i, j :: 0 <= i < j < |list| ==> list[i].id != list[j].id
  }

  ghost predicate HasAt(list: seq<Resting>, id: string, price: int) {
    exists e :: e in list && e.id == id && e.price == price
  }

  /** Every resting order is indexed at its side and price. */
  ghost predicate Indexed(side: Side, list: seq<Resting>, index: Index, stamp: nat) {
    forall e :: e in list ==> e.id in index && index[e.id] == (side, e.price) && e.stamp <= stamp
  }

  /** Every index entry for this side names a resting order of this list. */
  ghost predicate Backed(side: Side, list: seq<Resting>, index: Index) {
    forall id :: id in index && index[id].0 == side ==> HasAt(list, id, index[id].1)
  }

  ghost predicate SideOk(side: Side, list: seq<Resting>, index: Index, stamp: nat) {
    Sorted(side, list) && DistinctIds(list) && Indexed(side, list, index, stamp) && Backed(side, list, index)
  }

  ghost predicate Ok(s: State) {
    SideOk(Buy, s.bids, s.index, s.stamp) && SideOk(Sell, s.asks, s.index, s.stamp)
  }

  ghost predicate Fresh(o: Order, s: State) {
    o.kind != Cancel ==> o.id != "" && o.id !in s.index
  }

  /** The same order, possibly with a different quantity or a new id. */
  predicate SameSlot(a: Resting, b: Resting) {
    a.price == b.price && a.stamp == b.stamp && a.smp == b.smp
  }

  function IdsOf(list: seq<Resting>): set<string> {
    set e | e in list :: e.id
  }

  // ----- Matching -----

  /** Matching keeps the orders it does not use up, each in its slot. */
  lemma {:induction false} GreedyKeepsSlots(makers: seq<Resting>, o: Order, want: nat, e: Resting) returns (m: Resting)
    requires e in Greedy(makers, o, want).book
    ensures m in makers && m.id == e.id && SameSlot(m, e) && e.remaining <= m.remaining
  {
    if makers == [] {
      m := e;
    } else {
      var v := Visit(o, makers[0], want);
      GreedyUnfold(makers, o, want);
      if e in v.book {
        m := makers[0];
      } else {
        m := GreedyKeepsSlots(makers[1..], o, v.remaining, e);
      }
    }
  }

  lemma SortedCons(side: Side, front: seq<Resting>, rest: seq<Resting>)
    requires |front| <= 1 && Sorted(side, rest)
    requires forall a, b :: a in front && b in rest ==> Before(side, a, b)
    ensures Sorted(side, front + rest)
  {
  }

  /** Matching keeps price-time order. */
  lemma {:induction false} GreedySorted(side: Side, makers: seq<Resting>, o: Order, want: nat)
    requires Sorted(side, makers)
    ensures Sorted(side, Greedy(makers, o, want).book)
  {
    if makers != [] {
      var v := Visit(o, makers[0], want);
      var g := Greedy(makers[1..], o, v.remaining);
      GreedyUnfold(makers, o, want);
      GreedySorted(side, makers[1..], o, v.remaining);
      forall a, b | a in v.book && b in g.book ensures Before(side, a, b) {
        var n := GreedyKeepsSlots(makers[1..], o, v.remaining, b);
        assert Before(side, makers[0], n);
      }
      SortedCons(side, v.book, g.book);
    }
  }

  /** The orders left and the orders reported done split the ids of the makers. */
  lemma {:induction false} GreedyIds(makers: seq<Resting>, o: Order, want: nat)
    requires DistinctIds(makers)
    ensures var g := Greedy(makers, o, want);
            && DistinctIds(g.book)
            && Ids(g.done) <= IdsOf(makers)
            && IdsOf(g.book) == IdsOf(makers) - Ids(g.done)
  {
    if makers != [] {
      var m, rest := makers[0], makers[1..];
      var v := Visit(o, m, want);
      var g := Greedy(rest, o, v.remaining);
      GreedyUnfold(makers, o, want);
      GreedyIds(rest, o, v.remaining);
      hide Greedy;
      hide Visit;
      assert makers == [m] + rest;
      IdsConcat([m], rest);
      IdsConcat(v.book, g.book);
      DoneConcat(v.done, g.done);
      NotInTail(makers);
      VisitIds(o, m, want);
      if v.book != [] {
        DistinctCons(v.book[0], g.book);
        assert v.book == [v.book[0]];
      } else {
        assert v.book + g.book == g.book;
      }
    }
  }

  lemma NotInTail(list: seq<Resting>)
    requires list != [] && DistinctIds(list)
    ensures DistinctIds(list[1..]) && list[0].id !in IdsOf(list[1..])
  {
  }

  lemma DoneConcat(a: seq<string>, b: seq<string>)
    ensures Ids(a + b) == Ids(a) + Ids(b)
  {
  }

  lemma VisitIds(o: Order, m: Resting, want: nat)
    ensures var v := Visit(o, m, want);
            || (|v.book| == 1 && v.book[0].id == m.id && IdsOf(v.book) == {m.id} && Ids(v.done) == {})
            || (v.book == [] && IdsOf(v.book) == {} && Ids(v.done) == {m.id})
  {
  }

  lemma DistinctCons(e: Resting, rest: seq<Resting>)
    requires DistinctIds(rest) && e.id !in IdsOf(rest)
    ensures DistinctIds([e] + rest)
  {
    forall i | 0 <= i < |rest| ensures rest[i].id != e.id {
      assert rest[i].id in IdsOf(rest);
    }
  }

  lemma IdsConcat(a: seq<Resting>, b: seq<Resting>)
    ensures IdsOf(a + b) == IdsOf(a) + IdsOf(b)
  {
  }

  lemma BackedHas(side: Side, list: seq<Resting>, index: Index, id: string) returns (e: Resting)
    requires Backed(side, list, index) && id in index && index[id].0 == side
    ensures e in list && e.id == id && e.price == index[id].1
  {
    assert HasAt(list, id, index[id].1);
    e :| e in list && e.id == id && e.price == index[id].1;
  }

  /** Matching keeps one side and its index entries in step. */
  lemma MatchSideOk(side: Side, list: seq<Resting>, index: Index, stamp: nat, o: Order, want: nat)
    requires SideOk(side, list, index, stamp)
    ensures var g := Greedy(list, o, want);
            && SideOk(side, g.book, index - Ids(g.done), stamp)
            && Ids(g.done) <= IdsOf(list)
  {
    var g := Greedy(list, o, want);
    GreedySorted(side, list, o, want);
    GreedyIds(list, o, want);
    hide Greedy;
    forall e | e in g.book
      ensures e.id in index - Ids(g.done) && index[e.id] == (side, e.price) && e.stamp <= stamp
    {
      var m := GreedyKeepsSlots(list, o, want, e);
      assert e.id in IdsOf(g.book);
    }
    forall id | id in index - Ids(g.done) && index[id].0 == side ensures HasAt(g.book, id, index[id].1) {
      var m := BackedHas(side, list, index, id);
      assert id in IdsOf(list);
      assert id in IdsOf(g.book);
      var e :| e in g.book && e.id == id;
      var n := GreedyKeepsSlots(list, o, want, e);
    }
  }

  /** The other side is not touched by forgetting this side's orders. */
  lemma ForgetOtherSide(side: Side, list: seq<Resting>, index: Index, stamp: nat, gone: set<string>)
    requires SideOk(side, list, index, stamp) && gone !! IdsOf(list)
    ensures SideOk(side, list, index - gone, stamp)
  {
    forall e | e in list ensures e.id !in gone {
      assert e.id in IdsOf(list);
    }
  }

  lemma SidesDisjoint(s: State)
    requires Ok(s)
    ensures IdsOf(s.bids) !! IdsOf(s.asks)
  {
    forall id | id in IdsOf(s.bids) ensures id !in IdsOf(s.asks) {
      var b :| b in s.bids && b.id == id;
      forall a | a in s.asks ensures a.id != id {
        assert s.index[a.id] != s.index[b.id];
      }
    }
  }

  // ----- Resting -----

  lemma {:induction false} InsertMembers(list: seq<Resting>, side: Side, e: Resting, x: Resting)
    ensures x in InsertSorted(list, side, e) <==> x == e || x in list
  {
    if list != [] && Rank(side, list[0].price) <= Rank(side, e.price) {
      InsertMembers(list[1..], side, e, x);
      assert list == [list[0]] + list[1..];
    }
  }

  lemma {:induction false} InsertKeepsSorted(list: seq<Resting>, side: Side, e: Resting)
    requires Sorted(side, list) && forall x :: x in list ==> x.stamp < e.stamp
    ensures Sorted(side, InsertSorted(list, side, e))
  {
    if list == [] || Rank(side, e.price) < Rank(side, list[0].price) {
      forall x | x in list ensures Before(side, e, x) {
        var i :| 0 <= i < |list| && list[i] == x;
        assert i == 0 || Before(side, list[0], x);
      }
      SortedCons(side, [e], list);
    } else {
      var rest := InsertSorted(list[1..], side, e);
      InsertKeepsSorted(list[1..], side, e);
      forall x | x in rest ensures Before(side, list[0], x) {
        InsertMembers(list[1..], side, e, x);
      }
      SortedCons(side, [list[0]], rest);
    }
  }

  lemma {:induction false} InsertKeepsDistinct(list: seq<Resting>, side: Side, e: Resting)
    requires DistinctIds(list) && e.id !in IdsOf(list)
    ensures DistinctIds(InsertSorted(list, side, e))
  {
    if list == [] || Rank(side, e.price) < Rank(side, list[0].price) {
      DistinctCons(e, list);
    } else {
      var rest := InsertSorted(list[1..], side, e);
      assert forall x :: x in list[1..] ==> x in list;
      InsertKeepsDistinct(list[1..], side, e);
      assert list[0].id in IdsOf(list);
      forall x | x in rest ensures x.id != list[0].id {
        InsertMembers(list[1..], side, e, x);
      }
      DistinctCons(list[0], rest);
    }
  }

  lemma InsertSideOk(side: Side, list: seq<Resting>, index: Index, stamp: nat, e: Resting)
    requires SideOk(side, list, index, stamp) && e.id !in index && e.stamp == stamp + 1
    ensures SideOk(side, InsertSorted(list, side, e), index[e.id := (side, e.price)], stamp + 1)
  {
    var list' := InsertSorted(list, side, e);
    var index' := index[e.id := (side, e.price)];
    InsertKeepsSorted(list, side, e);
    assert e.id !in IdsOf(list);
    InsertKeepsDistinct(list, side, e);
    forall x ensures x in list' <==> x == e || x in list {
      InsertMembers(list, side, e, x);
    }
    hide InsertSorted;
    forall id | id in index' && index'[id].0 == side ensures HasAt(list', id, index'[id].1) {
      if id == e.id {
        assert e in list';
      } else {
        var m := BackedHas(side, list, index, id);
        assert m in list';
      }
    }
  }

  lemma InsertOtherSide(side: Side, list: seq<Resting>, index: Index, stamp: nat, id: string, price: int)
    requires SideOk(side, list, index, stamp) && id !in index
    ensures SideOk(side, list, index[id := (Opposite(side), price)], stamp + 1)
  {
    var index' := index[id := (Opposite(side), price)];
    forall k | k in index' && index'[k].0 == side ensures HasAt(list, k, index'[k].1) {
      assert k in index && index[k].0 == side;
    }
  }

  lemma InsertOk(s: State, id: string, side: Side, price: int, remaining: nat, smp: Option<nat>)
    requires Ok(s) && id !in s.index
    ensures Ok(Insert(s, id, side, price, remaining, smp))
  {
    hide SideOk;
    hide InsertSorted;
    InsertSideOk(side, s.On(side), s.index, s.stamp, Resting(id, price, remaining, smp, s.stamp + 1));
    InsertOtherSide(Opposite(side), s.On(Opposite(side)), s.index, s.stamp, id, price);
  }

  /** Matching keeps both sides. */
  lemma MatchOk(s: State, o: Order, want: nat)
    requires Ok(s)
    ensures var away := Opposite(o.side);
            var g := Greedy(s.On(away), o, want);
            Ok(s.Put(away, g.book).(index := s.index - Ids(g.done))) && Ids(g.done) <= s.index.Keys
  {
    var away := Opposite(o.side);
    MatchSideOk(away, s.On(away), s.index, s.stamp, o, want);
    SidesDisjoint(s);
    ForgetOtherSide(o.side, s.On(o.side), s.index, s.stamp, Ids(Greedy(s.On(away), o, want).done));
    hide Greedy;
    forall id | id in IdsOf(s.On(away)) ensures id in s.index {
      var e :| e in s.On(away) && e.id == id;
    }
  }

  lemma SubmitOk(s: State, o: Order)
    requires Ok(s) && o.id !in s.index
    ensures Ok(Submit(s, o).state)
  {
    hide Ok;
    hide Greedy;
    var away := Opposite(o.side);
    var g := Greedy(s.On(away), o, o.qty);
    MatchOk(s, o, o.qty);
    if o.kind == NewLimit && g.remaining > 0 {
      var s' := s.Put(away, g.book).(index := s.index - Ids(g.done));
      InsertOk(s', o.id, o.side, o.price, g.remaining, o.smp);
    }
  }

  // ----- Removing and amending -----

  lemma FindHas(list: seq<Resting>, id: string, price: int)
    requires HasAt(list, id, price)
    ensures Find(list, id, price) < |list|
  {
    var e :| e in list && e.id == id && e.price == price;
  }

  /** A list without one of its orders. */
  function Drop(list: seq<Resting>, i: nat): seq<Resting>
    requires i < |list|
  {
    list[..i] + list[i + 1..]
  }

  lemma DropMembers(list: seq<Resting>, i: nat)
    requires i < |list| && DistinctIds(list)
    ensures forall x :: x in Drop(list, i) <==> x in list && x.id != list[i].id
    ensures DistinctIds(Drop(list, i))
  {
    hide Drop;
    var list' := Drop(list, i);
    DropAt(list, i);
    DropDistinct(list, i);
    forall x | x in list' ensures x in list && x.id != list[i].id {
      var k :| 0 <= k < |list'| && list'[k] == x;
    }
    forall x | x in list && x.id != list[i].id ensures x in list' {
      var j :| 0 <= j < |list| && list[j] == x;
      assert x == list'[if j < i then j else j - 1];
    }
  }

  lemma DropDistinct(list: seq<Resting>, i: nat)
    requires i < |list| && DistinctIds(list)
    ensures DistinctIds(Drop(list, i))
  {
    hide Drop;
    DropAt(list, i);
  }

  lemma DropAt(list: seq<Resting>, i: nat)
    requires i < |list|
    ensures |Drop(list, i)| == |list| - 1
    ensures forall k :: 0 <= k < |list| - 1 ==> Drop(list, i)[k] == list[if k < i then k else k + 1]
  {
  }

  lemma DropSorted(side: Side, list: seq<Resting>, i: nat)
    requires i < |list| && Sorted(side, list)
    ensures Sorted(side, Drop(list, i))
  {
  }

  lemma IndexAfterRemove(side: Side, list: seq<Resting>, list': seq<Resting>, index: Index, stamp: nat, id: string)
    requires Indexed(side, list, index, stamp) && Backed(side, list, index)
    requires forall x :: x in list' <==> x in list && x.id != id
    ensures Indexed(side, list', index - {id}, stamp) && Backed(side, list', index - {id})
  {
    forall k | k in index - {id} && index[k].0 == side ensures HasAt(list', k, index[k].1) {
      var m := BackedHas(side, list, index, k);
      assert m in list';
    }
  }

  lemma RemoveSideOk(side: Side, list: seq<Resting>, index: Index, stamp: nat, id: string)
    requires SideOk(side, list, index, stamp) && id in index && index[id].0 == side
    ensures SideOk(side, Without(list, id, index[id].1), index - {id}, stamp)
  {
    var i := Find(list, id, index[id].1);
    assert HasAt(list, id, index[id].1);
    FindHas(list, id, index[id].1);
    assert Without(list, id, index[id].1) == Drop(list, i);
    hide Find;
    DropMembers(list, i);
    DropSorted(side, list, i);
    IndexAfterRemove(side, list, Drop(list, i), index, stamp, id);
  }

  lemma RemoveOk(s: State, id: string)
    requires Ok(s)
    ensures Ok(Remove(s, id).state) && id !in Remove(s, id).state.index
  {
    if id in s.index {
      var side := s.index[id].0;
      RemoveSideOk(side, s.On(side), s.index, s.stamp, id);
      var other := s.On(Opposite(side));
      assert id !in IdsOf(other);
      ForgetOtherSide(Opposite(side), other, s.index, s.stamp, {id});
    }
  }

  lemma AmendMembers(list: seq<Resting>, i: nat, e: Resting)
    requires i < |list| && DistinctIds(list) && e.id !in IdsOf(list)
    ensures forall x :: x in list[i := e] <==> x == e || (x in list && x.id != list[i].id)
    ensures DistinctIds(list[i := e])
  {
    var list' := list[i := e];
    forall k | 0 <= k < |list| ensures list[k].id != e.id {
      assert list[k].id in IdsOf(list);
    }
    forall x | x in list' && x != e ensures x in list && x.id != list[i].id {
      var k :| 0 <= k < |list'| && list'[k] == x;
      assert list[k] == x;
    }
    forall x | x in list && x.id != list[i].id ensures x in list' {
      var k :| 0 <= k < |list| && list[k] == x;
      assert list'[k] == x;
    }
    assert list'[i] == e;
  }

  lemma AmendSorted(side: Side, list: seq<Resting>, i: nat, e: Resting)
    requires i < |list| && Sorted(side, list) && SameSlot(list[i], e)
    ensures Sorted(side, list[i := e])
  {
  }

  lemma IndexAfterAmend(side: Side, list: seq<Resting>, list': seq<Resting>, index: Index, stamp: nat,
                        id: string, e: Resting)
    requires Indexed(side, list, index, stamp) && Backed(side, list, index)
    requires e.id !in index && e.stamp <= stamp
    requires forall x :: x in list' <==> x == e || (x in list && x.id != id)
    ensures var index' := (index - {id})[e.id := (side, e.price)];
            Indexed(side, list', index', stamp) && Backed(side, list', index')
  {
    var index' := (index - {id})[e.id := (side, e.price)];
    forall k | k in index' && index'[k].0 == side ensures HasAt(list', k, index'[k].1) {
      if k == e.id {
        assert e in list';
      } else {
        var m := BackedHas(side, list, index, k);
        assert m in list';
      }
    }
  }

  lemma AmendSideOk(side: Side, list: seq<Resting>, index: Index, stamp: nat, id: string, newId: string, qty: nat)
    requires SideOk(side, list, index, stamp) && id in index && index[id].0 == side && newId !in index
    ensures var i := Find(list, id, index[id].1);
            && i < |list|
            && SideOk(side, list[i := list[i].(id := newId, remaining := qty)],
                      (index - {id})[newId := index[id]], stamp)
  {
    var i := Find(list, id, index[id].1);
    assert HasAt(list, id, index[id].1);
    FindHas(list, id, index[id].1);
    var e := list[i].(id := newId, remaining := qty);
    assert newId !in IdsOf(list);
    assert list[i] in list;
    hide Find;
    AmendMembers(list, i, e);
    AmendSorted(side, list, i, e);
    assert index[id] == (side, e.price);
    IndexAfterAmend(side, list, list[i := e], index, stamp, id, e);
  }

  lemma AmendOk(s: State, o: Order)
    requires Ok(s) && KeepsPlace(s, o) && o.id != "" && o.id !in s.index
    ensures Ok(Amend(s, o))
  {
    var side := s.index[o.origId].0;
    AmendSideOk(side, s.On(side), s.index, s.stamp, o.origId, o.id, o.qty);
    var other := s.On(Opposite(side));
    assert o.origId !in IdsOf(other);
    ForgetOtherSide(Opposite(side), other, s.index, s.stamp, {o.origId});
    InsertOtherSide(Opposite(side), other, s.index - {o.origId}, s.stamp, o.id, s.index[o.origId].1);
  }

  /** Every command with a fresh id keeps the book in order and the index exact. */
  lemma StepOk(s: State, o: Order)
    requires Ok(s) && Fresh(o, s)
    ensures Ok(Step(s, o).state)
  {
    match o.kind {
      case NewLimit => SubmitOk(s, o);
      case NewMarket => SubmitOk(s, o);
      case Cancel => RemoveOk(s, o.origId);
      case Replace =>
        if o.origId in s.index {
          if KeepsPlace(s, o) {
            AmendOk(s, o);
          } else {
            RemoveOk(s, o.origId);
            InsertOk(Remove(s, o.origId).state, o.id, o.side, o.price, o.qty, o.smp);
          }
        }
    }
  }
}
