/** The insert-then-match book over price-level maps. */
module InsertFirstBook {
  import opened Basics
  import opened Wrappers
  import opened PriceTimeBook
  import opened LevelTree
  import opened EngineSpec
  import opened InsertFirstSpec

  // ----- The best level first -----

  /** A map with one level in front of the others. */
  ghost predicate InFront(rest: Levels, side: Side, p: int) {
    forall q :: q in rest ==> Rank(side, p) < Rank(side, q)
  }

  lemma FlatFront(rest: Levels, side: Side, p: int, level: seq<Queued>)
    requires InFront(rest, side, p)
    ensures Flat(SetLevel(rest, p, level), side) == TagAll(p, level) + Flat(rest, side)
  {
    hide Flat;
    FlatSetLevel(rest, side, p, level);
    assert Above(rest, side, p) == map[];
    assert Below(rest, side, p) == rest;
    FlatEmpty(side);
    assert [] + TagAll(p, level) == TagAll(p, level);
  }

  /** Taking from the front of the best level is taking from the front of the list. */
  lemma FlatTake(rest: Levels, side: Side, p: int, level: seq<Queued>, q: nat)
    requires InFront(rest, side, p) && level != []
    ensures var list := Flat(SetLevel(rest, p, level), side);
            && list != [] && list[0] == Tag(p, level[0])
            && Flat(SetLevel(rest, p, Taken(level, q)), side) == Left(list[0], q) + list[1..]
  {
    hide Flat;
    hide TagAll;
    hide Left;
    hide Taken;
    FlatFront(rest, side, p, level);
    FlatFront(rest, side, p, Taken(level, q));
    TagTaken(p, level, q);
    HeadAndTail(Tag(p, level[0]), TagAll(p, level[1..]), Flat(rest, side), Left(Tag(p, level[0]), q));
  }

  lemma TagTaken(p: int, level: seq<Queued>, q: nat)
    requires level != []
    ensures TagAll(p, level) == [Tag(p, level[0])] + TagAll(p, level[1..])
    ensures TagAll(p, Taken(level, q)) == Left(Tag(p, level[0]), q) + TagAll(p, level[1..])
  {
  }

  lemma HeadAndTail<T>(x: T, tail: seq<T>, rest: seq<T>, left: seq<T>)
    ensures ([x] + tail + rest)[0] == x
    ensures left + tail + rest == left + ([x] + tail + rest)[1..]
  {
    assert ([x] + tail + rest)[1..] == tail + rest;
  }

  /** The queue after its front order gives up a quantity. */
  function Taken(level: seq<Queued>, q: nat): seq<Queued>
    requires level != []
  {
    var m := level[0];
    (if q >= m.remaining then [] else [m.(remaining := m.remaining - q)]) + level[1..]
  }

  lemma CrossOnce(bids: seq<Resting>, asks: seq<Resting>)
    requires bids != [] && asks != [] && bids[0].price >= asks[0].price
    ensures var b, a := bids[0], asks[0];
            var q := Min(b.remaining, a.remaining);
            var r := Cross(Left(b, q) + bids[1..], Left(a, q) + asks[1..]);
            Cross(bids, asks) ==
            Crossed([Execute(b, a, q)] + r.trades, r.bids, r.asks, Gone(b, q) + Gone(a, q) + r.filled)
  {
  }

  /** `total` is what has been recorded so far followed by crossing the two lists. */
  ghost predicate Crossing(total: Crossed, trades: seq<Execution>, filled: seq<string>, bids: seq<Resting>,
      asks: seq<Resting>) {
    var c := Cross(bids, asks);
    total == Crossed(trades + c.trades, c.bids, c.asks, filled + c.filled)
  }

  lemma CrossingStep(total: Crossed, trades: seq<Execution>, filled: seq<string>, bids: seq<Resting>,
      asks: seq<Resting>)
    requires Crossing(total, trades, filled, bids, asks)
    requires bids != [] && asks != [] && bids[0].price >= asks[0].price
    ensures var b, a := bids[0], asks[0];
            var q := Min(b.remaining, a.remaining);
            Crossing(total, trades + [Execute(b, a, q)], filled + (Gone(b, q) + Gone(a, q)),
                     Left(b, q) + bids[1..], Left(a, q) + asks[1..])
  {
    hide Cross;
    var b, a := bids[0], asks[0];
    var q := Min(b.remaining, a.remaining);
    CrossOnce(bids, asks);
    var r := Cross(Left(b, q) + bids[1..], Left(a, q) + asks[1..]);
    ConcatAssoc(trades, [Execute(b, a, q)], r.trades);
    ConcatAssoc(filled, Gone(b, q) + Gone(a, q), r.filled);
  }

  lemma CrossingEnd(total: Crossed, trades: seq<Execution>, filled: seq<string>, bids: seq<Resting>, asks: seq<Resting>)
    requires Crossing(total, trades, filled, bids, asks)
    requires bids == [] || asks == [] || bids[0].price < asks[0].price
    ensures total == Crossed(trades, bids, asks, filled)
  {
    assert trades + [] == trades && filled + [] == filled;
  }

  // ----- The book -----

  class Orderbook {
    var bids: Levels
    var asks: Levels
    var index: map<string, (PriceTimeBook.Side, int)>
    var types: map<string, OrderType>
    var arrivals: nat

    ghost predicate Valid()
      reads this
    {
      NoEmptyLevel(bids) && NoEmptyLevel(asks) && types.Keys == index.Keys
    }

    ghost function View(): Book
      reads this
    {
      Book(State(Flat(bids, Buy), Flat(asks, Sell), index, arrivals), types)
    }

    constructor ()
      ensures Valid() && View() == NOTHING
    {
      bids, asks, index, types, arrivals := map[], map[], map[], map[], 0;
    }

    function Side(side: PriceTimeBook.Side): Levels
      reads this
    {
      if side == Buy then bids else asks
    }

    /** The best price of a side: the first key of its ordered map. */
    method Front(side: PriceTimeBook.Side) returns (best: int)
      requires Side(side).Keys != {}
      ensures IsBest(Side(side), side, best)
    {
      BestExists(Side(side), side);
      best :| best in Side(side) && IsBest(Side(side), side, best);
    }

    /** A filled order leaves the id map. */
    method Erase(m: Resting, q: nat)
      modifies this`index, this`types
      ensures index == old(index) - Ids(Gone(m, q)) && types == old(types) - Ids(Gone(m, q))
    {
      if q >= m.remaining {
        index, types := index - {m.id}, types - {m.id};
      }
    }

    /** Trades the two best queues until one is used up. */
    method MatchLevels(bp: int, ap: int, ghost total: Crossed, trades: seq<Execution>, ghost filled: seq<string>)
      returns (trades': seq<Execution>, ghost filled': seq<string>)
      requires Valid() && IsBest(bids, Buy, bp) && IsBest(asks, Sell, ap) && bp >= ap
      requires Crossing(total, trades, filled, Flat(bids, Buy), Flat(asks, Sell))
      modifies this
      ensures Valid() && |bids| + |asks| < old(|bids| + |asks|)
      ensures Crossing(total, trades', filled', Flat(bids, Buy), Flat(asks, Sell))
      ensures filled <= filled' && arrivals == old(arrivals)
      ensures index == old(index) - Ids(filled'[|filled|..]) && types == old(types) - Ids(filled'[|filled|..])
    {
      hide Flat;
      hide Crossing;
      hide Taken;
      hide SetLevel;
      hide Ids;
      hide Gone;
      trades', filled' := trades, filled;
      ghost var restB, restA := bids - {bp}, asks - {ap};
      ghost var since := [];
      var bq, aq := bids[bp], asks[ap];
      AroundFront(bids, Buy, bp);
      AroundFront(asks, Sell, ap);
      ForgetNone(index);
      ForgetNone(types);
      while bq != [] && aq != []
        invariant bids == SetLevel(restB, bp, bq) && asks == SetLevel(restA, ap, aq)
        invariant filled' == filled + since && arrivals == old(arrivals)
        invariant index == old(index) - Ids(since) && types == old(types) - Ids(since)
        invariant Crossing(total, trades', filled', Flat(bids, Buy), Flat(asks, Sell))
        decreases |bq| + |aq|
      {
        var b, a := bq[0], aq[0];
        var q := Min(b.remaining, a.remaining);
        LevelsStep(total, trades', filled', restB, bp, bq, restA, ap, aq);
        ForgetMore(old(index), since, Gone(Tag(bp, b), q), Gone(Tag(ap, a), q));
        ForgetMore(old(types), since, Gone(Tag(bp, b), q), Gone(Tag(ap, a), q));
        SetTwice(restB, bp, bq, Taken(bq, q));
        SetTwice(restA, ap, aq, Taken(aq, q));
        TakenShorter(bq, q);
        TakenShorter(aq, q);
        ConcatAssoc(filled, since, Gone(Tag(bp, b), q) + Gone(Tag(ap, a), q));
        bq := Taken(bq, q);
        Erase(Tag(bp, b), q);
        aq := Taken(aq, q);
        Erase(Tag(ap, a), q);
        bids := SetLevel(bids, bp, bq);
        asks := SetLevel(asks, ap, aq);
        trades' := trades' + [Execution(b.id, bp, a.id, ap, q)];
        filled' := filled' + (Gone(Tag(bp, b), q) + Gone(Tag(ap, a), q));
        since := since + (Gone(Tag(bp, b), q) + Gone(Tag(ap, a), q));
      }
      SetSize(restB, bp, bq);
      SetSize(restA, ap, aq);
      assert filled'[|filled|..] == since;
    }

    /** Trades best against best until the two sides no longer agree. */
    method MatchLoop() returns (trades: seq<Execution>)
      requires Valid()
      modifies this
      ensures Valid() && (View(), trades) == MatchAll(old(View()))
    {
      hide Flat;
      hide Crossing;
      hide Cross;
      hide Ids;
      ghost var filled := [];
      ghost var total := Cross(Flat(bids, Buy), Flat(asks, Sell));
      trades := [];
      CrossingStart(Flat(bids, Buy), Flat(asks, Sell));
      ForgetNone(index);
      ForgetNone(types);
      while bids.Keys != {} && asks.Keys != {}
        invariant Valid() && Crossing(total, trades, filled, Flat(bids, Buy), Flat(asks, Sell))
        invariant arrivals == old(arrivals) && index == old(index) - Ids(filled) && types == old(types) - Ids(filled)
        decreases |bids| + |asks|
      {
        var bp := Front(Buy);
        var ap := Front(Sell);
        FlatHead(bids, Buy, bp);
        FlatHead(asks, Sell, ap);
        if bp < ap {
          break;
        }
        ghost var before := filled;
        trades, filled := MatchLevels(bp, ap, total, trades, filled);
        ForgetOn(old(index), before, filled);
        ForgetOn(old(types), before, filled);
      }
      FlatNothing(bids, Buy);
      FlatNothing(asks, Sell);
      CrossingEnd(total, trades, filled, Flat(bids, Buy), Flat(asks, Sell));
    }

    method CancelOrder(id: string)
      requires Valid()
      modifies this
      ensures Valid() && View() == InsertFirstSpec.CancelOrder(old(View()), id)
    {
      hide Flat;
      if id in index {
        var (side, price) := index[id];
        if side == Sell {
          FlatRemove(asks, Sell, price, id);
          asks := SetLevel(asks, price, DropId(At(asks, price), id));
        } else {
          FlatRemove(bids, Buy, price, id);
          bids := SetLevel(bids, price, DropId(At(bids, price), id));
        }
        index, types := index - {id}, types - {id};
      }
    }

    /** A fill-and-kill order left at the front of its side is cancelled. */
    method Kill(side: PriceTimeBook.Side)
      requires Valid()
      modifies this
      ensures Valid() && View() == KillFront(old(View()), side)
    {
      hide Flat;
      FlatNothing(Side(side), side);
      if Side(side).Keys != {} {
        var best := Front(side);
        FlatHead(Side(side), side, best);
        var id := Side(side)[best][0].id;
        if id in types && types[id].FillAndKill? {
          CancelOrder(id);
        }
      }
    }

    method MatchOrders() returns (trades: seq<Execution>)
      requires Valid()
      modifies this
      ensures Valid() && trades == MatchAll(old(View())).1
      ensures View() == KillFront(KillFront(MatchAll(old(View())).0, Buy), Sell)
    {
      hide Flat;
      hide MatchAll;
      hide KillFront;
      trades := MatchLoop();
      Kill(Buy);
      Kill(Sell);
    }

    /** The last key of a side's ordered map. */
    method Worst(side: PriceTimeBook.Side) returns (p: int)
      requires Side(side).Keys != {}
      ensures p in Side(side) && forall q :: q in Side(side) ==> Rank(side, q) <= Rank(side, p)
    {
      BestExists(Side(side), Opposite(side));
      p :| p in Side(side) && IsBest(Side(side), Opposite(side), p);
    }

    method CanMatch(side: PriceTimeBook.Side, price: int) returns (ok: bool)
      requires Valid()
      ensures ok == InsertFirstSpec.CanMatch(View(), side, price)
    {
      hide Flat;
      var away := Opposite(side);
      FlatNothing(Side(away), away);
      if Side(away).Keys == {} {
        return false;
      }
      var best := Front(away);
      FlatHead(Side(away), away, best);
      ok := if side == Buy then price >= best else price <= best;
    }

    /** Queues the order at its price and records it. */
    method Place(p: Incoming)
      requires Valid()
      modifies this
      ensures Valid() && View() == InsertOrder(old(View()), p)
    {
      hide Flat;
      var q := Queued(p.id, p.qty, None, arrivals + 1);
      FlatEnqueue(Side(p.side), p.side, p.price, q);
      if p.side == Buy {
        bids := bids[p.price := At(bids, p.price) + [q]];
      } else {
        asks := asks[p.price := At(asks, p.price) + [q]];
      }
      index, types := index[p.id := (p.side, p.price)], types[p.id := p.orderType];
      arrivals := arrivals + 1;
    }

    /** A market order is priced to reach the whole other side. */
    method Reprice(o: Incoming) returns (p: Option<Incoming>)
      requires Valid()
      ensures p == Priced(View(), o)
    {
      hide Flat;
      if !o.orderType.MarketOrder? {
        return Some(o);
      }
      var away := Opposite(o.side);
      FlatNothing(Side(away), away);
      if Side(away).Keys == {} {
        return None;
      }
      var worst := Worst(away);
      FlatLast(Side(away), away, worst);
      p := Some(o.(price := worst, orderType := GoodTillCancel));
    }

    method AddOrder(o: Incoming) returns (trades: seq<Execution>)
      requires Valid()
      modifies this
      ensures Valid() && (View(), trades) == InsertFirstSpec.AddOrder(old(View()), o)
    {
      hide Flat;
      hide MatchAll;
      hide KillFront;
      hide InsertOrder;
      hide Priced;
      hide InsertFirstSpec.CanMatch;
      if o.id in index {
        return [];
      }
      var priced := Reprice(o);
      if priced.None? {
        return [];
      }
      var p := priced.value;
      if p.orderType.FillAndKill? {
        var ok := CanMatch(p.side, p.price);
        if !ok {
          return [];
        }
      }
      Place(p);
      trades := MatchOrders();
    }

    method ModifyOrder(id: string, side: PriceTimeBook.Side, price: int, qty: nat) returns (trades: seq<Execution>)
      requires Valid()
      modifies this
      ensures Valid() && (View(), trades) == InsertFirstSpec.ModifyOrder(old(View()), id, side, price, qty)
    {
      hide Flat;
      hide InsertFirstSpec.AddOrder;
      hide InsertFirstSpec.CancelOrder;
      if id !in index {
        return [];
      }
      var orderType := types[id];
      CancelOrder(id);
      trades := AddOrder(Incoming(id, orderType, side, price, qty));
    }
  }

  lemma CrossingStart(bids: seq<Resting>, asks: seq<Resting>)
    ensures Crossing(Cross(bids, asks), [], [], bids, asks)
  {
    var c := Cross(bids, asks);
    assert [] + c.trades == c.trades && [] + c.filled == c.filled;
  }

  lemma FlatNothing(t: Levels, side: Side)
    ensures t.Keys == {} ==> Flat(t, side) == []
  {
  }

  /** The front order of the best level heads the list. */
  lemma FlatHead(t: Levels, side: Side, p: int)
    requires IsBest(t, side, p) && NoEmptyLevel(t)
    ensures Flat(t, side) != [] && Flat(t, side)[0] == Tag(p, t[p][0])
  {
    hide Flat;
    FlatBestFirst(t, side, p);
  }

  /** The list ends in the worst level. */
  lemma FlatLast(t: Levels, side: Side, p: int)
    requires p in t && NoEmptyLevel(t) && forall q :: q in t ==> Rank(side, q) <= Rank(side, p)
    ensures Flat(t, side) != [] && Flat(t, side)[|Flat(t, side)| - 1].price == p
  {
    hide Flat;
    FlatSplit(t, side, p);
    assert Below(t, side, p) == map[];
    FlatEmpty(side);
    var l := TagAll(p, t[p]);
    assert l[|l| - 1].price == p;
  }

  /** One trade between the fronts of the two best queues. */
  lemma LevelsStep(total: Crossed, trades: seq<Execution>, filled: seq<string>,
                   restB: Levels, bp: int, bq: seq<Queued>, restA: Levels, ap: int, aq: seq<Queued>)
    requires InFront(restB, Buy, bp) && InFront(restA, Sell, ap) && bq != [] && aq != [] && bp >= ap
    requires Crossing(total, trades, filled, Flat(SetLevel(restB, bp, bq), Buy), Flat(SetLevel(restA, ap, aq), Sell))
    ensures var q := Min(bq[0].remaining, aq[0].remaining);
            Crossing(total, trades + [Execution(bq[0].id, bp, aq[0].id, ap, q)],
                     filled + (Gone(Tag(bp, bq[0]), q) + Gone(Tag(ap, aq[0]), q)),
                     Flat(SetLevel(restB, bp, Taken(bq, q)), Buy), Flat(SetLevel(restA, ap, Taken(aq, q)), Sell))
  {
    hide Flat;
    hide Crossing;
    hide Taken;
    hide SetLevel;
    var q := Min(bq[0].remaining, aq[0].remaining);
    FlatTake(restB, Buy, bp, bq, q);
    FlatTake(restA, Sell, ap, aq, q);
    CrossingStep(total, trades, filled, Flat(SetLevel(restB, bp, bq), Buy), Flat(SetLevel(restA, ap, aq), Sell));
  }

  lemma SetTwice(t: Levels, p: int, a: seq<Queued>, b: seq<Queued>)
    requires p !in t
    ensures SetLevel(SetLevel(t, p, a), p, b) == SetLevel(t, p, b)
  {
  }

  lemma SetSize(t: Levels, p: int, level: seq<Queued>)
    requires p !in t && NoEmptyLevel(t)
    ensures |SetLevel(t, p, level)| == if level == [] then |t| else |t| + 1
    ensures NoEmptyLevel(SetLevel(t, p, level))
  {
    if level == [] {
      assert t - {p} == t;
    } else {
      OneMoreKey(t, p, level);
    }
  }

  lemma OneMoreKey(t: Levels, p: int, level: seq<Queued>)
    requires p !in t
    ensures |t[p := level]| == |t| + 1
  {
    var m := t[p := level];
    assert m.Keys == t.Keys + {p};
    assert |m| == |m.Keys| && |t| == |t.Keys|;
  }

  lemma AroundFront(t: Levels, side: Side, p: int)
    requires IsBest(t, side, p) && NoEmptyLevel(t)
    ensures InFront(t - {p}, side, p) && NoEmptyLevel(t - {p}) && t == SetLevel(t - {p}, p, t[p])
    ensures |t - {p}| == |t| - 1
  {
    assert (t - {p}).Keys == t.Keys - {p};
  }

  lemma TakenShorter(level: seq<Queued>, q: nat)
    requires level != []
    ensures |Taken(level, q)| == if q >= level[0].remaining then |level| - 1 else |level|
  {
  }

  lemma ForgetMore<T>(m: map<string, T>, a: seq<string>, b: seq<string>, c: seq<string>)
    ensures m - Ids(a) - Ids(b) - Ids(c) == m - Ids(a + (b + c))
  {
  }
}
