/** When can a resting bid and a resting ask cross?  Only between orders of one participant,
    except after a replace that rests across the spread, and that exception is exact. */
module CrossedBook {
  import opened PriceTimeBook
  import opened EngineSpec
  import opened BookInvariants

  /** Crossing resting orders carry the same, present, self-match-prevention id. */
  ghost predicate NoForeignCross(s: State) {
    forall b, a :: b in s.bids && a in s.asks && b.price >= a.price ==> SharesSmp(b.smp, a.smp)
  }

  /** A replace that loses its place and lands across a resting order it could have traded with. */
  ghost predicate RestsAcross(s: State, o: Order) {
    && o.kind == Replace && o.origId in s.index && !KeepsPlace(s, o)
    && exists m :: m in s.On(Opposite(o.side)) && m.id != o.origId && Eligible(o, m)
  }

  /** An order with something left has used up everything it may trade with. */
  lemma {:induction false} GreedyExhausts(makers: seq<Resting>, o: Order, want: nat, e: Resting)
    requires Greedy(makers, o, want).remaining > 0 && e in Greedy(makers, o, want).book
    ensures !Eligible(o, e)
  {
    if makers != [] {
      var v := Visit(o, makers[0], want);
      GreedyUnfold(makers, o, want);
      GreedyStopsAtZero(makers[1..], o);
      if e !in v.book {
        GreedyExhausts(makers[1..], o, v.remaining, e);
      }
    }
  }

  lemma GreedyStopsAtZero(makers: seq<Resting>, o: Order)
    ensures Greedy(makers, o, 0).remaining == 0
  {
  }

  /** Fewer orders, in the same slots, cross no more. */
  ghost predicate Within(list: seq<Resting>, whole: seq<Resting>) {
    forall e :: e in list ==> exists m :: m in whole && SameSlot(m, e)
  }

  lemma WithinSlot(list: seq<Resting>, whole: seq<Resting>, e: Resting) returns (m: Resting)
    requires Within(list, whole) && e in list
    ensures m in whole && SameSlot(m, e)
  {
    m :| m in whole && SameSlot(m, e);
  }

  lemma WithinNoCross(s: State, s': State)
    requires NoForeignCross(s) && Within(s'.bids, s.bids) && Within(s'.asks, s.asks)
    ensures NoForeignCross(s')
  {
    forall b, a | b in s'.bids && a in s'.asks && b.price >= a.price ensures SharesSmp(b.smp, a.smp) {
      var b0 := WithinSlot(s'.bids, s.bids, b);
      var a0 := WithinSlot(s'.asks, s.asks, a);
    }
  }

  lemma GreedyWithin(makers: seq<Resting>, o: Order, want: nat)
    ensures Within(Greedy(makers, o, want).book, makers)
  {
    forall e | e in Greedy(makers, o, want).book ensures exists m :: m in makers && SameSlot(m, e) {
      var m := GreedyKeepsSlots(makers, o, want, e);
    }
  }

  lemma WithoutWithin(list: seq<Resting>, id: string, price: int)
    ensures Within(Without(list, id, price), list)
  {
    forall e | e in Without(list, id, price) ensures exists m :: m in list && SameSlot(m, e) {
      assert e in list && SameSlot(e, e);
    }
  }

  lemma RefWithin(list: seq<Resting>)
    ensures Within(list, list)
  {
    forall e | e in list ensures exists m :: m in list && SameSlot(m, e) {
      assert SameSlot(e, e);
    }
  }

  /** Resting an order keeps the invariant exactly when it cannot trade with the other side. */
  lemma InsertCross(s: State, o: Order, id: string, remaining: nat)
    requires NoForeignCross(s) && o.kind != NewMarket
    ensures NoForeignCross(Insert(s, id, o.side, o.price, remaining, o.smp))
            <==> forall m :: m in s.On(Opposite(o.side)) ==> !Eligible(o, m)
  {
    var s' := Insert(s, id, o.side, o.price, remaining, o.smp);
    var e := Resting(id, o.price, remaining, o.smp, s.stamp + 1);
    forall x ensures x in s'.On(o.side) <==> x == e || x in s.On(o.side) {
      InsertMembers(s.On(o.side), o.side, e, x);
    }
    hide InsertSorted;
    assert s'.On(Opposite(o.side)) == s.On(Opposite(o.side));
    if m :| m in s.On(Opposite(o.side)) && Eligible(o, m) {
      assert e in s'.On(o.side) && m in s'.On(Opposite(o.side));
    }
  }

  lemma SubmitCross(s: State, o: Order)
    requires NoForeignCross(s) && (o.kind == NewLimit || o.kind == NewMarket)
    ensures NoForeignCross(Submit(s, o).state)
  {
    var away := Opposite(o.side);
    var g := Greedy(s.On(away), o, o.qty);
    var s' := s.Put(away, g.book).(index := s.index - Ids(g.done));
    GreedyWithin(s.On(away), o, o.qty);
    RefWithin(s.On(o.side));
    WithinNoCross(s, s');
    if o.kind == NewLimit && g.remaining > 0 {
      forall e | e in g.book ensures !Eligible(o, e) {
        GreedyExhausts(s.On(away), o, o.qty, e);
      }
      hide Greedy;
      InsertCross(s', o, o.id, g.remaining);
    }
  }

  lemma RemoveCross(s: State, id: string)
    requires NoForeignCross(s)
    ensures NoForeignCross(Remove(s, id).state)
  {
    RefWithin(s.bids);
    RefWithin(s.asks);
    if id in s.index {
      var (side, price) := s.index[id];
      WithoutWithin(s.On(side), id, price);
    }
    WithinNoCross(s, Remove(s, id).state);
  }

  lemma AmendWithin(s: State, o: Order)
    requires KeepsPlace(s, o)
    ensures Within(Amend(s, o).bids, s.bids) && Within(Amend(s, o).asks, s.asks)
  {
    var (side, price) := s.index[o.origId];
    var list := s.On(side);
    var i := Find(list, o.origId, price);
    UpdateWithin(list, i, list[i].(id := NewId(o), remaining := o.qty));
    RefWithin(s.On(Opposite(side)));
    hide Find;
    hide Within;
  }

  lemma AmendCross(s: State, o: Order)
    requires NoForeignCross(s) && KeepsPlace(s, o)
    ensures NoForeignCross(Amend(s, o))
  {
    AmendWithin(s, o);
    hide Amend;
    hide Within;
    hide NoForeignCross;
    WithinNoCross(s, Amend(s, o));
  }

  lemma UpdateWithin(list: seq<Resting>, i: nat, e: Resting)
    requires i < |list| && SameSlot(list[i], e)
    ensures Within(list[i := e], list)
  {
    var list' := list[i := e];
    forall x | x in list' ensures exists m :: m in list && SameSlot(m, x) {
      var k :| 0 <= k < |list'| && list'[k] == x;
      assert list[k] in list && SameSlot(list[k], x);
    }
  }

  /** Which orders a removal leaves on each side. */
  lemma RemoveMembers(s: State, id: string, side: Side)
    requires Ok(s)
    ensures forall m :: m in Remove(s, id).state.On(side) <==> m in s.On(side) && m.id != id
  {
    if id in s.index && s.index[id].0 == side {
      var price := s.index[id].1;
      assert HasAt(s.On(side), id, price);
      FindHas(s.On(side), id, price);
      DropMembers(s.On(side), Find(s.On(side), id, price));
    }
  }

  /** A command keeps the invariant exactly when it is not a replace resting across. */
  lemma StepCross(s: State, o: Order)
    requires Ok(s) && Fresh(o, s) && NoForeignCross(s)
    ensures NoForeignCross(Step(s, o).state) <==> !RestsAcross(s, o)
  {
    match o.kind {
      case NewLimit => SubmitCross(s, o);
      case NewMarket => SubmitCross(s, o);
      case Cancel => RemoveCross(s, o.origId);
      case Replace =>
        if o.origId in s.index {
          if KeepsPlace(s, o) {
            AmendCross(s, o);
          } else {
            var s' := Remove(s, o.origId).state;
            RemoveCross(s, o.origId);
            RemoveMembers(s, o.origId, Opposite(o.side));
            hide Remove;
            hide Eligible;
            InsertCross(s', o, o.id, o.qty);
          }
        }
    }
  }
}
