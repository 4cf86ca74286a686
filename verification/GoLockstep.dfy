/** The Go book and the Rust engine, side by side over every run without self-match ids. */
module GoLockstep {
  import opened Wrappers
  import opened PriceTimeBook
  import opened EngineSpec
  import opened BookInvariants
  import opened GoBookSpec
  import EngineRuns

  /** Different ids point to different records. */
  ghost predicate Injective(idx: map<string, nat>) {
    forall a, b :: a in idx && b in idx && idx[a] == idx[b] ==> a == b
  }

  ghost predicate Points(list: seq<Resting>, idx: map<string, nat>) {
    forall e :: e in list ==> e.id in idx && idx[e.id] == e.stamp
  }

  /** Same queues, same ids, and every id points to its own record. */
  ghost predicate Linked(g: GoState, r: State) {
    && g.bids == r.bids && g.asks == r.asks && g.stamp == r.stamp
    && g.idx.Keys == r.index.Keys && Injective(g.idx)
    && Points(r.bids, g.idx) && Points(r.asks, g.idx)
    && forall id :: id in g.idx ==> g.idx[id] <= g.stamp
  }

  // ----- Finding a record -----

  /** The record an id points to is the order the index names. */
  lemma FindsRecord(g: GoState, r: State, id: string) returns (i: nat)
    requires Ok(r) && Linked(g, r) && id in r.index
    ensures var (side, price) := r.index[id];
            && Record(g, id) == Some((side, i))
            && i < |r.On(side)| && r.On(side)[i].id == id && r.On(side)[i].price == price
            && Find(r.On(side), id, price) == i
            && Find(r.On(Opposite(side)), id, price) == |r.On(Opposite(side))|
  {
    var (side, price) := r.index[id];
    var list := r.On(side);
    var e := BackedHas(side, list, r.index, id);
    i := Seek(list, g.idx[id]);
    SeekHas(list, e);
    assert list[i] in list;
    SidesDisjoint(r);
    NotThere(r.On(Opposite(side)), g.idx, id);
    FindIsSeek(list, i, id, price);
    NotFound(r.On(Opposite(side)), id, price);
  }

  /** An id that rests on the other side is not sought out here. */
  lemma NotThere(list: seq<Resting>, idx: map<string, nat>, id: string)
    requires Points(list, idx) && Injective(idx) && id in idx && id !in IdsOf(list)
    ensures Seek(list, idx[id]) == |list|
  {
    var i := Seek(list, idx[id]);
    forall k | 0 <= k < |list| ensures list[k].stamp != idx[id] {
      assert list[k] in list && list[k].id in IdsOf(list);
    }
  }

  lemma NotFound(list: seq<Resting>, id: string, price: int)
    requires id !in IdsOf(list)
    ensures Find(list, id, price) == |list|
  {
    forall k | 0 <= k < |list| ensures list[k].id != id {
      assert list[k] in list && list[k].id in IdsOf(list);
    }
  }

  lemma FindIsSeek(list: seq<Resting>, i: nat, id: string, price: int)
    requires i < |list| && list[i].id == id && list[i].price == price && DistinctIds(list)
    ensures Find(list, id, price) == i
  {
    forall k | 0 <= k < i ensures list[k].id != list[i].id {}
  }

  // ----- Each command keeps the two in step -----

  lemma PointsGreedy(list: seq<Resting>, idx: map<string, nat>, o: Order, want: nat)
    requires Points(list, idx) && DistinctIds(list)
    ensures var g := Greedy(list, o, want); Points(g.book, idx - Ids(g.done))
  {
    GreedyIds(list, o, want);
    var g := Greedy(list, o, want);
    hide Greedy;
    forall e | e in g.book ensures e.id in idx - Ids(g.done) && idx[e.id] == e.stamp {
      var m := GreedyKeepsSlots(list, o, want, e);
      assert e.id in IdsOf(g.book);
    }
  }

  lemma PointsForget(list: seq<Resting>, idx: map<string, nat>, gone: set<string>)
    requires Points(list, idx) && gone !! IdsOf(list)
    ensures Points(list, idx - gone)
  {
    forall e | e in list ensures e.id !in gone {
      assert e.id in IdsOf(list);
    }
  }

  /** The state between matching and resting. */
  lemma MatchLinked(g: GoState, r: State, o: Order)
    requires Ok(r) && Linked(g, r)
    ensures var away := Opposite(o.side);
            var m := Greedy(r.On(away), o, o.qty);
            Linked(g.Put(away, m.book).(idx := g.idx - Ids(m.done)),
                   r.Put(away, m.book).(index := r.index - Ids(m.done)))
  {
    var away := Opposite(o.side);
    var m := Greedy(r.On(away), o, o.qty);
    PointsGreedy(r.On(away), g.idx, o, o.qty);
    GreedyIds(r.On(away), o, o.qty);
    SidesDisjoint(r);
    PointsForget(r.On(o.side), g.idx, Ids(m.done));
    hide Greedy;
  }

  lemma RestLinked(g: GoState, r: State, id: string, side: Side, price: int, remaining: nat)
    requires Linked(g, r) && id !in r.index
    ensures Linked(Rest(g, id, side, price, remaining), Insert(r, id, side, price, remaining, None))
  {
    var e := Resting(id, price, remaining, None, r.stamp + 1);
    var idx := g.idx[id := g.stamp + 1];
    forall x ensures x in InsertSorted(r.On(side), side, e) <==> x == e || x in r.On(side) {
      InsertMembers(r.On(side), side, e, x);
    }
    hide InsertSorted;
    assert Points(InsertSorted(r.On(side), side, e), idx);
    assert Points(r.On(Opposite(side)), idx);
  }

  lemma SubmitLinked(g: GoState, r: State, o: Order)
    requires Ok(r) && Linked(g, r) && o.id !in r.index && o.smp == None && (o.kind == NewLimit || o.kind == NewMarket)
    ensures Linked(GoStep(g, o).0, Step(r, o).state) && GoStep(g, o).1 == Step(r, o).fills
  {
    hide Ok;
    hide Linked;
    hide Greedy;
    hide Insert;
    hide Rest;
    var away := Opposite(o.side);
    SameLists(g, r);
    var m := Greedy(r.On(away), o, o.qty);
    var g', r' := g.Put(away, m.book).(idx := g.idx - Ids(m.done)),
        r.Put(away, m.book).(index := r.index - Ids(m.done));
    MatchLinked(g, r, o);
    if o.kind == NewLimit && m.remaining > 0 {
      RestLinked(g', r', o.id, o.side, o.price, m.remaining);
    }
  }

  lemma SameLists(g: GoState, r: State)
    requires Linked(g, r)
    ensures g.On(Buy) == r.On(Buy) && g.On(Sell) == r.On(Sell)
  {
  }

  lemma RemoveLinked(g: GoState, r: State, id: string)
    requires Ok(r) && Linked(g, r)
    ensures Linked(RemoveOrder(g, id), Remove(r, id).state)
  {
    hide Seek;
    hide Find;
    hide Ok;
    hide Points;
    if id in r.index {
      var i := FindsRecord(g, r, id);
      var (side, price) := r.index[id];
      var list := r.On(side);
      assert Without(list, id, price) == Drop(list, i);
      hide Drop;
      PointsOthers(r, g.idx, side, i);
    } else {
      assert g.idx - {id} == g.idx;
    }
  }

  lemma PointsOthers(r: State, idx: map<string, nat>, side: Side, i: nat)
    requires Ok(r) && i < |r.On(side)| && Points(r.bids, idx) && Points(r.asks, idx)
    ensures Points(Drop(r.On(side), i), idx - {r.On(side)[i].id})
    ensures Points(r.On(Opposite(side)), idx - {r.On(side)[i].id})
  {
    var list := r.On(side);
    DropMembers(list, i);
    SidesDisjoint(r);
    assert list[i] in list && list[i].id in IdsOf(list);
    PointsForget(r.On(Opposite(side)), idx, {list[i].id});
  }

  lemma AmendLinked(g: GoState, r: State, o: Order)
    requires Ok(r) && Linked(g, r) && KeepsPlace(r, o) && o.id != "" && o.id !in r.index
    ensures Linked(ReplaceOrder(g, o), Amend(r, o))
  {
    hide Seek;
    hide Find;
    hide Ok;
    var i := FindsRecord(g, r, o.origId);
    var (side, price) := r.index[o.origId];
    var list := r.On(side);
    var e := list[i].(id := o.id, remaining := o.qty);
    assert list[i] in list;
    AmendPoints(r, g.idx, side, i, e);
    AmendInjective(g.idx, o.origId, o.id);
  }

  lemma AmendInjective(idx: map<string, nat>, id: string, newId: string)
    requires Injective(idx) && id in idx && newId !in idx
    ensures Injective((idx - {id})[newId := idx[id]])
  {
  }

  lemma AmendPoints(r: State, idx: map<string, nat>, side: Side, i: nat, e: Resting)
    requires Ok(r) && i < |r.On(side)| && Points(r.bids, idx) && Points(r.asks, idx)
    requires e.id !in idx && e.stamp == r.On(side)[i].stamp
    ensures var old' := r.On(side)[i];
            var idx' := (idx - {old'.id})[e.id := e.stamp];
            Points(r.On(side)[i := e], idx') && Points(r.On(Opposite(side)), idx')
  {
    hide Ok;
    var list := r.On(side);
    PointsOthers(r, idx, side, i);
    hide Drop;
    forall x | x in list[i := e] ensures x == e || x in Drop(list, i) {
      UpdatedMember(list, i, e, x);
    }
  }

  lemma UpdatedMember(list: seq<Resting>, i: nat, e: Resting, x: Resting)
    requires i < |list| && x in list[i := e]
    ensures x == e || x in Drop(list, i)
  {
    var k :| 0 <= k < |list| && list[i := e][k] == x;
    if k < i {
      assert Drop(list, i)[k] == x;
    } else if k > i {
      assert Drop(list, i)[k - 1] == x;
    }
  }

  lemma ReplaceLinked(g: GoState, r: State, o: Order)
    requires Ok(r) && Linked(g, r) && o.kind == Replace && o.id != "" && o.id !in r.index && o.smp == None
    ensures Linked(ReplaceOrder(g, o), Change(r, o).state)
  {
    if o.origId in r.index {
      var i := FindsRecord(g, r, o.origId);
      hide Linked;
      hide Ok;
      hide Seek;
      if KeepsPlace(r, o) {
        AmendLinked(g, r, o);
      } else {
        MovesLinked(g, r, o);
      }
    }
  }

  lemma MovesLinked(g: GoState, r: State, o: Order)
    requires Ok(r) && Linked(g, r) && o.origId in r.index && !KeepsPlace(r, o)
    requires o.id != "" && o.id !in r.index && o.smp == None
    ensures Linked(ReplaceOrder(g, o), Change(r, o).state)
  {
    var i := FindsRecord(g, r, o.origId);
    SameLists(g, r);
    RemoveLinked(g, r, o.origId);
    hide Linked;
    hide Ok;
    hide RemoveOrder;
    hide Rest;
    hide Insert;
    RestLinked(RemoveOrder(g, o.origId), Remove(r, o.origId).state, o.id, o.side, o.price, o.qty);
  }

  /** Every command with a fresh id and no self-match id keeps the two books in step. */
  lemma StepLinked(g: GoState, r: State, o: Order)
    requires Ok(r) && Linked(g, r) && Fresh(o, r) && o.smp == None
    ensures Linked(GoStep(g, o).0, Step(r, o).state) && GoStep(g, o).1 == Step(r, o).fills
  {
    hide Ok;
    hide Linked;
    match o.kind {
      case NewLimit => SubmitLinked(g, r, o);
      case NewMarket => SubmitLinked(g, r, o);
      case Cancel =>
        RemoveLinked(g, r, o.origId);
        StepFills(g, r, o);
      case Replace =>
        ReplaceLinked(g, r, o);
        StepFills(g, r, o);
    }
  }

  lemma StepFills(g: GoState, r: State, o: Order)
    requires o.kind == Cancel || o.kind == Replace
    ensures GoStep(g, o).1 == [] && Step(r, o).fills == []
  {
  }

  // ----- Whole runs -----

  function GoRun(orders: seq<Order>): GoState {
    if orders == [] then EMPTY_BOOK else GoStep(GoRun(orders[..|orders| - 1]), orders[|orders| - 1]).0
  }

  ghost predicate NoSmp(orders: seq<Order>) {
    forall i :: 0 <= i < |orders| ==> orders[i].smp == None
  }

  /** After every run with fresh ids and no self-match ids the two books hold the same queues. */
  lemma {:induction false} Lockstep(orders: seq<Order>)
    requires EngineRuns.FreshIds(orders) && NoSmp(orders)
    ensures Linked(GoRun(orders), EngineRuns.Play(orders).state)
    ensures Ok(EngineRuns.Play(orders).state)
  {
    hide Linked;
    hide Ok;
    if orders == [] {
      StartLinked();
    } else {
      var before, o := orders[..|orders| - 1], orders[|orders| - 1];
      EngineRuns.FreshPrefix(orders, |before|);
      Lockstep(before);
      NextFresh(orders);
      StepLinked(GoRun(before), EngineRuns.Play(before).state, o);
    }
    EngineRuns.RunGood(orders);
  }

  lemma StartLinked()
    ensures Linked(EMPTY_BOOK, EngineRuns.NOTHING.state)
  {
  }

  /** The last order of a fresh run is fresh to the book. */
  lemma NextFresh(orders: seq<Order>)
    requires EngineRuns.FreshIds(orders) && orders != []
    ensures Fresh(orders[|orders| - 1], EngineRuns.Play(orders[..|orders| - 1]).state)
  {
    hide Ok;
    var before := orders[..|orders| - 1];
    EngineRuns.FreshPrefix(orders, |before|);
    EngineRuns.RunGood(before);
    EngineRuns.LastIsFresh(orders);
  }

  // ----- The report -----

  /** Taker volume of a fill list against makers of other participants. */
  function AgainstOthers(fills: seq<Fill>, id: string): nat {
    if |fills| < 2 then 0
    else (if ParticipantOf(fills[1].id) != ParticipantOf(id) then fills[0].qty else 0) + AgainstOthers(fills[2..], id)
  }

  /** The reported quantity is the taker volume against other participants. */
  lemma {:induction false} ReportIsTakerVolume(makers: seq<Resting>, o: Order, want: nat)
    ensures var fills := Greedy(makers, o, want).fills; ReportOf(fills, o.id).qty == AgainstOthers(fills, o.id)
  {
    if makers != [] && want > 0 {
      var m, rest := makers[0], makers[1..];
      if Eligible(o, m) {
        var t := Min(want, m.remaining);
        var fills := Greedy(rest, o, want - t).fills;
        ReportIsTakerVolume(rest, o, want - t);
        ReportConcat(Trade(o, m, t), fills, o.id);
        ReportTrade(o, m, t, o.id);
        assert (Trade(o, m, t) + fills)[2..] == fills;
      } else {
        ReportIsTakerVolume(rest, o, want);
      }
    }
  }

  /** In lockstep, what the Go book reports is the Rust engine's taker volume against others. */
  lemma ReportsAgree(orders: seq<Order>)
    requires EngineRuns.FreshIds(orders) && NoSmp(orders) && orders != []
    ensures var before, o := orders[..|orders| - 1], orders[|orders| - 1];
            ReportOf(GoStep(GoRun(before), o).1, o.id).qty ==
            AgainstOthers(Step(EngineRuns.Play(before).state, o).fills, o.id)
  {
    hide Linked;
    hide Ok;
    var before, o := orders[..|orders| - 1], orders[|orders| - 1];
    EngineRuns.FreshPrefix(orders, |before|);
    Lockstep(before);
    NextFresh(orders);
    var r := EngineRuns.Play(before).state;
    StepLinked(GoRun(before), r, o);
    if o.kind == NewLimit || o.kind == NewMarket {
      ReportIsTakerVolume(r.On(Opposite(o.side)), o, o.qty);
    }
  }
}
