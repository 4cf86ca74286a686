/** The Go engine's book: price maps of queues of shared records, and an id index into them. */
module GoBook {
  import opened Basics
  import opened Wrappers
  import opened PriceTimeBook
  import opened LevelTree
  import opened EngineSpec
  import opened GoBookSpec

  /** A resting order, shared between its queue and the index. */
  class RestingOrder {
    var id: string
    const price: int
    var remaining: nat
    ghost const side: Side
    ghost const stamp: nat

    constructor (id: string, price: int, remaining: nat, ghost side: Side, ghost stamp: nat)
      ensures this.id == id && this.price == price && this.remaining == remaining
      ensures this.side == side && this.stamp == stamp
    {
      this.id, this.price, this.remaining := id, price, remaining;
      this.side, this.stamp := side, stamp;
    }

    ghost function Entry(): Queued
      reads this
    {
      Queued(id, remaining, None, stamp)
    }
  }

  type Queues = map<int, seq<RestingOrder>>

  ghost function Values(q: seq<RestingOrder>): (l: seq<Queued>)
    reads q
    ensures |l| == |q| && forall i :: 0 <= i < |q| ==> l[i] == q[i].Entry()
  {
    if q == [] then [] else [q[0].Entry()] + Values(q[1..])
  }

  /** A level holds records of its side and price, each once. */
  ghost predicate LevelOk(q: seq<RestingOrder>, side: Side, p: int) {
    && (forall i :: 0 <= i < |q| ==> q[i].side == side && q[i].price == p)
    && (forall i, j :: 0 <= i < j < |q| ==> q[i] != q[j])
  }

  /** Adding one trade to the report. */
  lemma ReportGrows(fills: seq<Fill>, o: Order, m: Resting, t: nat)
    ensures var r, other := ReportOf(fills, o.id), ParticipantOf(m.id) != ParticipantOf(o.id);
            ReportOf(fills + Trade(o, m, t), o.id) ==
            if other then Report(r.qty + t, if r.price.None? then Some(m.price) else r.price) else r
  {
    ReportConcat(fills, Trade(o, m, t), o.id);
    ReportTrade(o, m, t, o.id);
  }

  lemma TagFront(price: int, level: seq<Queued>)
    requires level != []
    ensures TagAll(price, level) == [Tag(price, level[0])] + TagAll(price, level[1..])
  {
  }

  /** The front record gives up a quantity: the walk moves on. */
  lemma FrontTaken(total: Match, fills: seq<Fill>, done: seq<string>, price: int, level: seq<Queued>, o: Order,
      want: nat)
    requires level != [] && want > 0 && Crosses(o, price) && o.smp == None
    requires Progress(total, fills, done, [], TagAll(price, level), o, want)
    ensures var m := Tag(price, level[0]);
            var t := Min(want, m.remaining);
            if t == m.remaining then
              Progress(total, fills + Trade(o, m, t), done + [m.id], [], TagAll(price, level[1..]), o, want - t)
            else
              Progress(total, fills + Trade(o, m, t), done, [],
                       TagAll(price, level[0 := level[0].(remaining := m.remaining - t)]), o, want - t)
  {
    hide Progress;
    hide TagAll;
    var m := Tag(price, level[0]);
    var t := Min(want, m.remaining);
    TagFront(price, level);
    TakeFirst(total, fills, done, [], m, TagAll(price, level[1..]), o, want);
    if t != m.remaining {
      var level' := level[0 := level[0].(remaining := m.remaining - t)];
      TagFront(price, level');
      assert level'[1..] == level[1..];
    }
  }

  /** The walk over a level so far. */
  ghost predicate Walking(g: Match, fills: seq<Fill>, some: seq<Fill>, done: seq<string>, price: int,
      level: seq<Queued>,
                          o: Order, remaining: nat, report: Report)
  {
    Progress(g, some, done, [], TagAll(price, level), o, remaining) && report == ReportOf(fills + some, o.id)
  }

  /** Volume against another participant counts, at the price of the first such trade. */
  function Credited(report: Report, aggressor: string, maker: string, price: int, t: nat): Report {
    if ParticipantOf(maker) == ParticipantOf(aggressor) then report
    else Report(report.qty + t, if report.price.None? then Some(price) else report.price)
  }

  method Credit(report: Report, aggressor: string, maker: string, price: int, t: nat) returns (r: Report)
    ensures r == Credited(report, aggressor, maker, price, t)
  {
    r := report;
    if ParticipantOf(maker) != ParticipantOf(aggressor) {
      r := r.(qty := r.qty + t);
      if r.price.None? {
        r := r.(price := Some(price));
      }
    }
  }

  lemma WalkStart(fills: seq<Fill>, price: int, level: seq<Queued>, o: Order, want: nat)
    ensures Walking(Greedy(TagAll(price, level), o, want), fills, [], [], price, level, o, want, ReportOf(fills, o.id))
  {
    ProgressStart(TagAll(price, level), o, want);
    assert fills + [] == fills;
  }

  lemma WalkStep(g: Match, fills: seq<Fill>, some: seq<Fill>, done: seq<string>, price: int, level: seq<Queued>,
                 o: Order, want: nat, report: Report)
    requires Walking(g, fills, some, done, price, level, o, want, report)
    requires level != [] && want > 0 && Crosses(o, price) && o.smp == None
    ensures var m := Tag(price, level[0]);
            var t := Min(want, m.remaining);
            var report' := Credited(report, o.id, m.id, price, t);
            if t == m.remaining then
              Walking(g, fills, some + Trade(o, m, t), done + [m.id], price, level[1..], o, want - t, report')
            else
              Walking(g, fills, some + Trade(o, m, t), done, price,
                      level[0 := level[0].(remaining := m.remaining - t)], o, want - t, report')
  {
    hide Progress;
    hide TagAll;
    hide ReportOf;
    hide ParticipantOf;
    var m := Tag(price, level[0]);
    var t := Min(want, m.remaining);
    FrontTaken(g, some, done, price, level, o, want);
    ReportGrows(fills + some, o, m, t);
    ConcatAssoc(fills, some, Trade(o, m, t));
  }

  lemma WalkEnd(g: Match, fills: seq<Fill>, some: seq<Fill>, done: seq<string>, price: int, level: seq<Queued>,
                o: Order, remaining: nat, report: Report)
    requires Walking(g, fills, some, done, price, level, o, remaining, report) && (level == [] || remaining == 0)
    ensures g == Match(some, done, TagAll(price, level), remaining) && report == ReportOf(fills + g.fills, o.id)
  {
    ProgressEnd(g, some, done, [], TagAll(price, level), o, remaining);
    assert [] + TagAll(price, level) == TagAll(price, level);
  }

  /** The front record of a queue gives up a quantity; the others do not move. */
  method FillFront(queue: seq<RestingOrder>, maker: RestingOrder, t: nat)
    requires queue != [] && maker == queue[0] && t <= maker.remaining
    requires forall i :: 0 < i < |queue| ==> queue[i] != maker
    modifies maker`remaining
    ensures Values(queue) == old(Values(queue))[0 := old(Values(queue))[0].(remaining := old(maker.remaining) - t)]
    ensures Values(queue)[1..] == old(Values(queue))[1..]
    ensures maker.remaining == old(maker.remaining) - t
  {
    ghost var was := Values(queue);
    maker.remaining := maker.remaining - t;
    forall i | 0 < i < |queue| ensures Values(queue)[i] == was[i] {
      assert queue[i] != maker;
    }
  }

  lemma SuffixOk(queue: seq<RestingOrder>, k: nat, side: Side, price: int)
    requires LevelOk(queue, side, price) && k < |queue|
    ensures LevelOk(queue[k..], side, price) && queue[k..][0] == queue[k] && queue[k..][1..] == queue[k + 1..]
    ensures forall r :: r in queue[k..] ==> r in queue
  {
  }

  lemma TailValues(queue: seq<RestingOrder>)
    requires queue != []
    ensures Values(queue[1..]) == Values(queue)[1..]
  {
  }

  ghost function Records(t: Queues): set<RestingOrder> {
    set p, i | p in t && 0 <= i < |t[p]| :: t[p][i]
  }

  /** The queues as values. */
  ghost function Snap(t: Queues): Levels
    reads Records(t)
  {
    map p | p in t :: Values(t[p])
  }

  ghost predicate QueuesOk(t: Queues, side: Side) {
    forall p :: p in t ==> t[p] != [] && LevelOk(t[p], side, p)
  }

  /** The price to match against first; empty queues do not count. */
  method BestOppositePrice(t: Queues, side: Side) returns (best: int, found: bool)
    ensures found <==> exists p :: p in t && t[p] != []
    ensures found ==> best in t && t[best] != []
    ensures found ==> forall q :: q in t && t[q] != [] ==> Rank(side, best) <= Rank(side, q)
  {
    best, found := 0, false;
    var keys := t.Keys;
    while keys != {}
      invariant keys <= t.Keys
      invariant found ==> best in t && t[best] != []
      invariant forall q :: q in t && q !in keys && t[q] != [] ==> found && Rank(side, best) <= Rank(side, q)
      decreases |keys|
    {
      ghost var some := SomeMember(keys);
      var price :| price in keys;
      keys := keys - {price};
      if t[price] != [] {
        if !found {
          best, found := price, true;
        } else if side == Sell && price < best {
          best := price;
        } else if side == Buy && price > best {
          best := price;
        }
      }
    }
  }

  /** Arrival numbers tell records apart. */
  ghost predicate Numbered(all: set<RestingOrder>, arrivals: nat) {
    && (forall r :: r in all ==> r.stamp <= arrivals)
    && (forall r, q :: r in all && q in all && r.stamp == q.stamp ==> r == q)
  }

  /** An index entry names a queued record by the id it carries. */
  ghost predicate Indexes(idx: map<string, RestingOrder>, all: set<RestingOrder>)
    reads idx.Values
  {
    forall k :: k in idx ==> idx[k].id == k && idx[k] in all
  }

  ghost function Stamps(idx: map<string, RestingOrder>): (m: map<string, nat>)
    ensures m.Keys == idx.Keys && forall k :: k in idx ==> m[k] == idx[k].stamp
  {
    map k | k in idx.Keys :: idx[k].stamp
  }

  function SetQueue(t: Queues, p: int, q: seq<RestingOrder>): Queues {
    if q == [] then t - {p} else t[p := q]
  }

  lemma RecordsHas(t: Queues, p: int, i: nat)
    requires p in t && i < |t[p]|
    ensures t[p][i] in Records(t)
  {
  }

  lemma RecordAt(t: Queues, side: Side, r: RestingOrder)
    requires QueuesOk(t, side) && r in Records(t)
    ensures r.side == side && r.price in t && r in t[r.price]
  {
    var p, i :| p in t && 0 <= i < |t[p]| && t[p][i] == r;
  }

  /** Where a record stands in its level. */
  lemma PlaceOf(t: Queues, side: Side, r: RestingOrder) returns (j: nat)
    requires QueuesOk(t, side) && r in Records(t)
    ensures r.side == side && r.price in t && j < |t[r.price]| && t[r.price][j] == r
  {
    var p, i :| p in t && 0 <= i < |t[p]| && t[p][i] == r;
    j := i;
  }

  lemma OnItsSide(bids: Queues, asks: Queues, r: RestingOrder)
    requires QueuesOk(bids, Buy) && QueuesOk(asks, Sell) && r in Records(bids) + Records(asks)
    ensures r in Records(if r.side == Buy then bids else asks)
  {
  }

  lemma LevelsApart(t: Queues, side: Side, p: int, q: int)
    requires QueuesOk(t, side) && p in t && q in t && p != q
    ensures forall r :: r in t[q] ==> r !in t[p]
  {
  }

  /** A shortened queue keeps the levels in shape. */
  lemma SetQueueOk(t: Queues, side: Side, p: int, k: nat)
    requires QueuesOk(t, side) && p in t && k <= |t[p]|
    ensures QueuesOk(SetQueue(t, p, t[p][k..]), side)
    ensures Records(SetQueue(t, p, t[p][k..])) <= Records(t)
    ensures forall r :: r in Records(t) ==> r in Records(SetQueue(t, p, t[p][k..])) || r in t[p][..k]
  {
    var t' := SetQueue(t, p, t[p][k..]);
    forall r | r in Records(t') ensures r in Records(t) {
      var q, i :| q in t' && 0 <= i < |t'[q]| && t'[q][i] == r;
      RecordsHas(t, q, if q == p then i + k else i);
    }
    forall r | r in Records(t) ensures r in Records(t') || r in t[p][..k] {
      var q, i :| q in t && 0 <= i < |t[q]| && t[q][i] == r;
      if q != p {
        RecordsHas(t', q, i);
      } else if i >= k {
        RecordsHas(t', q, i - k);
      } else {
        assert t[p][..k][i] == r;
      }
    }
  }

  lemma SidesApart(t: Queues, away: Queues, side: Side, p: int, q: int)
    requires QueuesOk(t, side) && QueuesOk(away, Opposite(side)) && p in t && q in away
    ensures forall r :: r in away[q] ==> r !in t[p]
  {
  }

  lemma SnapSet(t: Queues, p: int, rest: seq<RestingOrder>, levels: Levels)
    requires levels.Keys == t.Keys && forall q :: q in t && q != p ==> Values(t[q]) == levels[q]
    ensures Snap(SetQueue(t, p, rest)) == SetLevel(levels, p, Values(rest))
  {
    hide Values;
    var t' := SetQueue(t, p, rest);
    var l' := SetLevel(levels, p, Values(rest));
    assert Snap(t').Keys == l'.Keys;
    forall q | q in t' ensures Snap(t')[q] == l'[q] {
      assert Snap(t')[q] == Values(t'[q]);
    }
  }

  /** Index entries of records that stay queued stay good. */
  lemma StillIndexes(idx: map<string, RestingOrder>, all: set<RestingOrder>, left: seq<RestingOrder>, done: seq<string>,
                     all': set<RestingOrder>)
    requires Indexes(idx, all) && (forall r :: r in all ==> r in all' || r in left)
    requires forall r :: r in left ==> r.id in done
    ensures Indexes(idx - Ids(done), all')
  {
  }

  class Book {
    var bids: Queues
    var asks: Queues
    var idx: map<string, RestingOrder>
    ghost var arrivals: nat

    ghost predicate Valid()
      reads this, idx.Values
    {
      && QueuesOk(bids, Buy) && QueuesOk(asks, Sell)
      && Numbered(Records(bids) + Records(asks), arrivals)
      && Indexes(idx, Records(bids) + Records(asks))
    }

    ghost function View(): GoState
      reads this, Records(bids), Records(asks)
    {
      GoState(Flat(Snap(bids), Buy), Flat(Snap(asks), Sell), Stamps(idx), arrivals)
    }

    function Queue(side: Side): Queues
      reads this
    {
      if side == Buy then bids else asks
    }

    constructor ()
      ensures Valid() && View() == EMPTY_BOOK
    {
      bids, asks, idx, arrivals := map[], map[], map[], 0;
    }

    /** One trade with the front record, which leaves when it is used up. */
    method TakeOne(queue: seq<RestingOrder>, price: int, ghost side: Side, o: Order, want: nat, report: Report,
                   ghost g: Match, ghost fills: seq<Fill>, ghost some: seq<Fill>, ghost done: seq<string>)
      returns (rest: seq<RestingOrder>, remaining: nat, report': Report, ghost some': seq<Fill>,
          ghost done': seq<string>)
      requires queue != [] && want > 0 && LevelOk(queue, side, price) && Crosses(o, price) && o.smp == None
      requires Walking(g, fills, some, done, price, Values(queue), o, want, report)
      modifies queue`remaining, this`idx
      ensures Walking(g, fills, some', done', price, Values(rest), o, remaining, report')
      ensures || (rest == queue && remaining == 0 && done' == done && idx == old(idx))
              || (rest == queue[1..] && remaining <= want && done' == done + [queue[0].id] &&
                  idx == old(idx) - {queue[0].id})
    {
      hide Values;
      hide Walking;
      hide Credited;
      hide Trade;
      rest, some', done' := queue, some, done;
      var maker := queue[0];
      var traded := Min(want, maker.remaining);
      WalkStep(g, fills, some, done, price, Values(queue), o, want, report);
      report' := Credit(report, o.id, maker.id, price, traded);
      some' := some + Trade(o, Tag(price, maker.Entry()), traded);
      FillFront(queue, maker, traded);
      remaining := want - traded;
      if maker.remaining == 0 {
        TailValues(queue);
        done' := done + [maker.id];
        rest := queue[1..];
        idx := idx - {maker.id};
      }
    }

    /** Fills the aggressor from one level, oldest record first. */
    method TakeLevel(queue: seq<RestingOrder>, price: int, ghost side: Side, o: Order, want: nat, report: Report,
                     ghost fills: seq<Fill>)
      returns (rest: seq<RestingOrder>, remaining: nat, report': Report, ghost g: Match)
      requires LevelOk(queue, side, price) && Crosses(o, price) && o.smp == None
      requires report == ReportOf(fills, o.id)
      modifies queue`remaining, this`idx
      ensures g == Greedy(TagAll(price, old(Values(queue))), o, want)
      ensures |rest| <= |queue| && rest == queue[|queue| - |rest|..]
      ensures g.book == TagAll(price, Values(rest)) && g.remaining == remaining && (rest == [] || remaining == 0)
      ensures report' == ReportOf(fills + g.fills, o.id)
      ensures idx == old(idx) - Ids(g.done)
      ensures forall i :: 0 <= i < |queue| - |rest| ==> queue[i].id in g.done
    {
      hide Values;
      hide Walking;
      hide Greedy;
      hide TagAll;
      hide ReportOf;
      hide Ids;
      hide LevelOk;
      g := Greedy(TagAll(price, Values(queue)), o, want);
      rest, remaining, report' := queue, want, report;
      ghost var some, done, k: nat := [], [], 0;
      WalkStart(fills, price, Values(queue), o, want);
      ForgetNone(idx);
      while rest != [] && remaining > 0
        invariant k <= |queue| && rest == queue[k..]
        invariant Walking(g, fills, some, done, price, Values(rest), o, remaining, report')
        invariant idx == old(idx) - Ids(done)
        invariant forall i :: 0 <= i < k ==> queue[i].id in done
        decreases |rest|, remaining
      {
        OneForgotten(old(idx), done, rest[0].id);
        SuffixOk(queue, k, side, price);
        rest, remaining, report', some, done := TakeOne(rest, price, side, o, remaining, report', g, fills, some, done);
        k := |queue| - |rest|;
      }
      WalkEnd(g, fills, some, done, price, Values(rest), o, remaining, report');
      assert k == |queue| - |rest|;
    }

    /** Walks one level of a side; no other record moves. */
    method TakeBest(side: Side, price: int, queue: seq<RestingOrder>, o: Order, want: nat, report: Report,
        ghost fills: seq<Fill>)
      returns (rest: seq<RestingOrder>, remaining: nat, report': Report, ghost g: Match)
      requires QueuesOk(bids, Buy) && QueuesOk(asks, Sell) && price in Queue(side) && queue == Queue(side)[price]
      requires Crosses(o, price) && o.smp == None && report == ReportOf(fills, o.id)
      modifies queue`remaining, this`idx
      ensures g == Greedy(TagAll(price, old(Snap(Queue(side)))[price]), o, want)
      ensures |rest| <= |queue| && rest == queue[|queue| - |rest|..]
      ensures g.book == TagAll(price, Values(rest)) && g.remaining == remaining && (rest == [] || remaining == 0)
      ensures report' == ReportOf(fills + g.fills, o.id)
      ensures idx == old(idx) - Ids(g.done)
      ensures forall i :: 0 <= i < |queue| - |rest| ==> queue[i].id in g.done
      ensures Snap(SetQueue(Queue(side), price, rest)) == SetLevel(old(Snap(Queue(side))), price, Values(rest))
      ensures Snap(Queue(Opposite(side))) == old(Snap(Queue(Opposite(side))))
    {
      hide Values;
      hide Greedy;
      hide Ids;
      hide ReportOf;
      hide TagAll;
      ghost var t, away, levels, others := Queue(side), Queue(Opposite(side)), Snap(Queue(side)),
          Snap(Queue(Opposite(side)));
      rest, remaining, report', g := TakeLevel(queue, price, side, o, want, report, fills);
      forall q | q in t && q != price ensures Values(t[q]) == levels[q] {
        LevelsApart(t, side, price, q);
      }
      forall q | q in away ensures Values(away[q]) == others[q] {
        SidesApart(t, away, side, price, q);
      }
      SnapSet(t, price, rest, levels);
    }

    /** Takes what the aggressor can from the best level and puts back what is left of it. */
    method MatchBest(side: Side, price: int, queue: seq<RestingOrder>, o: Order, want: nat, report: Report,
                     ghost total: Match, ghost fills: seq<Fill>, ghost done: seq<string>)
      returns (remaining: nat, report': Report, ghost fills': seq<Fill>, ghost done': seq<string>)
      requires Valid() && price in Queue(side) && queue == Queue(side)[price] && Crosses(o, price) && o.smp == None
      requires IsBest(Snap(Queue(side)), side, price) && report == ReportOf(fills, o.id)
      requires Progress(total, fills, done, [], Flat(Snap(Queue(side)), side), o, want)
      modifies queue`remaining, this`bids, this`asks, this`idx
      ensures Valid() && Records(Queue(side)) <= old(Records(Queue(side)))
      ensures Progress(total, fills', done', [], Flat(Snap(Queue(side)), side), o, remaining)
      ensures report' == ReportOf(fills', o.id)
      ensures done <= done' && idx == old(idx) - Ids(done'[|done|..])
      ensures Queue(Opposite(side)) == old(Queue(Opposite(side)))
      ensures Snap(Queue(Opposite(side))) == old(Snap(Queue(Opposite(side))))
      ensures |Queue(side)| < old(|Queue(side)|) || (remaining == 0 && |Queue(side)| == old(|Queue(side)|))
    {
      hide Flat;
      hide Progress;
      hide Greedy;
      hide Ids;
      hide Values;
      hide Snap;
      hide ReportOf;
      hide TagAll;
      hide QueuesOk;
      hide Numbered;
      hide Records;
      ghost var levels, index := Snap(Queue(side)), idx;
      FlatSetBest(levels, side, price, []);
      var rest;
      ghost var g;
      rest, remaining, report', g := TakeBest(side, price, queue, o, want, report, fills);
      LevelWalked(total, fills, done, price, levels[price], Flat(levels - {price}, side), Values(rest), o, want);
      FlatSetBest(levels, side, price, Values(rest));
      StoreRest(side, price, queue, rest, index, g.done);
      fills', done' := fills + g.fills, done + g.done;
      assert done'[|done|..] == g.done;
    }

    /** Puts back what is left of a level that was served; the records used up are already unlinked. */
    method StoreRest(side: Side, price: int, queue: seq<RestingOrder>, rest: seq<RestingOrder>,
                     ghost index: map<string, RestingOrder>, ghost done: seq<string>)
      requires QueuesOk(bids, Buy) && QueuesOk(asks, Sell) && price in Queue(side) && queue == Queue(side)[price]
      requires Numbered(Records(bids) + Records(asks), arrivals) && Indexes(index, Records(bids) + Records(asks))
      requires |rest| <= |queue| && rest == queue[|queue| - |rest|..] && idx == index - Ids(done)
      requires forall i :: 0 <= i < |queue| - |rest| ==> queue[i].id in done
      modifies this`bids, this`asks
      ensures Valid() && Queue(side) == SetQueue(old(Queue(side)), price, rest)
      ensures Records(Queue(side)) <= old(Records(Queue(side)))
      ensures |Queue(side)| < old(|Queue(side)|) || (rest != [] && |Queue(side)| == old(|Queue(side)|))
      ensures Snap(Queue(side)) == old(Snap(SetQueue(Queue(side), price, rest)))
      ensures Queue(Opposite(side)) == old(Queue(Opposite(side)))
      ensures Snap(Queue(Opposite(side))) == old(Snap(Queue(Opposite(side))))
    {
      hide Snap, QueuesOk, Numbered, Records, Ids;
      ghost var t, away, k := Queue(side), Queue(Opposite(side)), |queue| - |rest|;
      ghost var t' := SetQueue(t, price, rest);
      ghost var all := Records(bids) + Records(asks);
      SetQueueOk(t, side, price, k);
      SetQueueSize(t, price, rest);
      FewerRecords(index, all, arrivals, t, away, t', queue[..k], done);
      SetQueues(side, SetQueue(Queue(side), price, rest));
      assert Records(bids) + Records(asks) == Records(t') + Records(away);
    }

    /** One turn of the match loop: stop, or take from the best level. */
    method MatchTurn(o: Order, want: nat, report: Report, ghost g: Match, ghost fills: seq<Fill>,
        ghost done: seq<string>)
      returns (stop: bool, remaining: nat, report': Report, ghost fills': seq<Fill>, ghost done': seq<string>)
      requires Valid() && o.smp == None && (o.kind == NewLimit || o.kind == NewMarket)
      requires report == ReportOf(fills, o.id)
      requires Progress(g, fills, done, [], Flat(Snap(Queue(Opposite(o.side))), Opposite(o.side)), o, want)
      modifies Records(Queue(Opposite(o.side)))`remaining, this`bids, this`asks, this`idx
      ensures Valid() && Records(Queue(Opposite(o.side))) <= old(Records(Queue(Opposite(o.side))))
      ensures Progress(g, fills', done', [], Flat(Snap(Queue(Opposite(o.side))), Opposite(o.side)), o, remaining)
      ensures report' == ReportOf(fills', o.id)
      ensures done <= done' && idx == old(idx) - Ids(done'[|done|..])
      ensures Queue(o.side) == old(Queue(o.side)) && Snap(Queue(o.side)) == old(Snap(Queue(o.side)))
      ensures stop ==> forall m :: m in Flat(Snap(Queue(Opposite(o.side))), Opposite(o.side)) ==> !Eligible(o, m)
      ensures !stop ==> || |Queue(Opposite(o.side))| < old(|Queue(Opposite(o.side))|)
                        || (remaining == 0 && |Queue(Opposite(o.side))| == old(|Queue(Opposite(o.side))|))
    {
      hide Flat;
      hide Greedy;
      hide Ids;
      hide Values;
      hide Snap;
      hide ReportOf;
      hide Progress;
      hide QueuesOk;
      hide Numbered;
      hide Eligible;
      var away := Opposite(o.side);
      remaining, report', fills', done' := want, report, fills, done;
      ForgetNone(idx);
      assert done'[|done|..] == [];
      var price, ok := BestOppositePrice(Queue(away), away);
      BestOfSnap(Queue(away), away, price, ok);
      if !ok {
        return true, remaining, report', fills', done';
      }
      if o.kind == NewLimit && !Crosses(o, price) {
        NoneCrosses(Queue(away), away, o, price);
        return true, remaining, report', fills', done';
      }
      stop := false;
      LevelReach(Queue(away), price, Records(Queue(away)));
      remaining, report', fills', done' :=
        MatchBest(away, price, Queue(away)[price], o, remaining, report, g, fills, done);
    }

    /** Crosses an aggressor against the other side, best price first. */
    method MatchLoop(o: Order) returns (remaining: nat, report: Report, ghost g: Match)
      requires Valid() && o.smp == None && (o.kind == NewLimit || o.kind == NewMarket)
      modifies Records(Queue(Opposite(o.side)))`remaining, this`bids, this`asks, this`idx
      ensures Valid() && g == Greedy(old(Flat(Snap(Queue(Opposite(o.side))), Opposite(o.side))), o, o.qty)
      ensures remaining == g.remaining && report == ReportOf(g.fills, o.id)
      ensures Flat(Snap(Queue(Opposite(o.side))), Opposite(o.side)) == g.book
      ensures idx == old(idx) - Ids(g.done)
      ensures Queue(o.side) == old(Queue(o.side)) && Snap(Queue(o.side)) == old(Snap(Queue(o.side)))
    {
      hide Flat;
      hide Greedy;
      hide Ids;
      hide Values;
      hide Snap;
      hide ReportOf;
      hide Progress;
      hide QueuesOk;
      hide Numbered;
      hide Indexes;
      hide Eligible;
      hide Records;
      var away := Opposite(o.side);
      ghost var reach := Records(Queue(away));
      ghost var fills, done := [], [];
      g := Greedy(Flat(Snap(Queue(away)), away), o, o.qty);
      remaining, report := o.qty, Report(0, None);
      var stop := false;
      ProgressStart(Flat(Snap(Queue(away)), away), o, o.qty);
      ForgetNone(idx);
      NoReport(o.id);
      while remaining > 0 && !stop
        invariant Valid() && Records(Queue(away)) <= reach
        invariant Progress(g, fills, done, [], Flat(Snap(Queue(away)), away), o, remaining)
        invariant report == ReportOf(fills, o.id) && idx == old(idx) - Ids(done)
        invariant Queue(o.side) == old(Queue(o.side)) && Snap(Queue(o.side)) == old(Snap(Queue(o.side)))
        invariant stop ==> forall m :: m in Flat(Snap(Queue(away)), away) ==> !Eligible(o, m)
        decreases !stop, |Queue(away)| + if remaining > 0 then 1 else 0
      {
        ghost var before := done;
        stop, remaining, report, fills, done := MatchTurn(o, remaining, report, g, fills, done);
        ForgetOn(old(idx), before, done);
      }
      WalkOver(g, fills, done, Flat(Snap(Queue(away)), away), o, remaining);
    }

    /** Replaces the queues of one side; no record changes. */
    method SetQueues(side: Side, t: Queues)
      modifies this`bids, this`asks
      ensures Queue(side) == t && Queue(Opposite(side)) == old(Queue(Opposite(side)))
      ensures Snap(t) == old(Snap(t)) && Snap(Queue(Opposite(side))) == old(Snap(Queue(Opposite(side))))
    {
      ghost var away := Queue(Opposite(side));
      ghost var mine, others := Snap(t), Snap(away);
      if side == Buy {
        bids := t;
      } else {
        asks := t;
      }
      assert Snap(t) == mine && Snap(away) == others;
    }

    /** Queues a record at the back of its level. */
    method Enqueue(ro: RestingOrder, side: Side)
      requires QueuesOk(bids, Buy) && QueuesOk(asks, Sell) && ro !in Records(Queue(side)) && ro.side == side
      modifies this`bids, this`asks
      ensures QueuesOk(bids, Buy) && QueuesOk(asks, Sell)
      ensures Records(Queue(side)) == old(Records(Queue(side))) + {ro}
      ensures Queue(Opposite(side)) == old(Queue(Opposite(side)))
      ensures Snap(Queue(Opposite(side))) == old(Snap(Queue(Opposite(side))))
      ensures Flat(Snap(Queue(side)), side) ==
              InsertSorted(old(Flat(Snap(Queue(side)), side)), side, Tag(ro.price, ro.Entry()))
    {
      hide Flat;
      hide Values;
      hide Snap;
      hide InsertSorted;
      hide QueuesOk;
      hide Records;
      var t := Queue(side);
      FlatEnqueue(Snap(t), side, ro.price, ro.Entry());
      AppendQueue(t, side, ro.price, ro);
      AppendSnap(t, ro.price, ro);
      SetQueues(side, t[ro.price := (if ro.price in t then t[ro.price] else []) + [ro]]);
    }

    /** Queues a record and points its id to it. */
    method Append(ro: RestingOrder, side: Side)
      requires Valid() && ro !in Records(bids) + Records(asks) && ro.side == side && ro.stamp == arrivals + 1
      modifies this
      ensures Valid() && View() == Rest(old(View()), ro.id, side, ro.price, ro.remaining)
    {
      hide Flat;
      hide Values;
      hide Snap;
      hide InsertSorted;
      hide QueuesOk;
      hide Numbered;
      hide Indexes;
      hide Records;
      hide Stamps;
      ghost var all := Records(bids) + Records(asks);
      Enqueue(ro, side);
      MoreIndexed(idx, all, ro);
      MoreNumbered(all, all + {ro}, ro, arrivals + 1);
      idx := idx[ro.id := ro];
      arrivals := arrivals + 1;
      assert Records(bids) + Records(asks) == all + {ro};
    }

    /** A new record rests. */
    method RestNew(id: string, side: Side, price: int, remaining: nat)
      requires Valid()
      modifies this
      ensures Valid() && View() == Rest(old(View()), id, side, price, remaining)
    {
      hide Flat;
      hide Values;
      hide Rest;
      hide QueuesOk;
      hide Numbered;
      ghost var all := Records(bids) + Records(asks);
      var ro := new RestingOrder(id, price, remaining, side, arrivals + 1);
      assert ro !in all;
      Append(ro, side);
    }

    /** Matches an incoming order; what is left of a limit order rests when asked to. */
    method Match(id: string, side: Side, price: int, qty: nat, isLimit: bool, rest: bool) returns (report: Report)
      requires Valid()
      modifies this, Records(Queue(Opposite(side)))
      ensures Valid()
      ensures var o := Order(if isLimit then NewLimit else NewMarket, side, price, qty, id, "", None);
              (View(), report) == var r := MatchOrder(old(View()), o, rest); (r.0, ReportOf(r.1, id))
    {
      hide Flat;
      hide Greedy;
      hide Values;
      hide Ids;
      hide ReportOf;
      hide Rest;
      hide Records;
      hide QueuesOk;
      hide Numbered;
      hide Indexes;
      hide Snap;
      var o := Order(if isLimit then NewLimit else NewMarket, side, price, qty, id, "", None);
      var remaining;
      ghost var index := idx;
      ghost var m;
      remaining, report, m := MatchLoop(o);
      ForgetStamps(index, m.done);
      if rest && isLimit && remaining > 0 {
        RestNew(id, side, price, remaining);
      }
    }

    /** The record an id points to stands in the list of its side. */
    lemma RecordOf(id: string)
      requires Valid() && id in idx
      ensures var ro := idx[id];
              var list := View().On(ro.side);
              var i := Seek(list, ro.stamp);
              && i < |list| && list[i] == Tag(ro.price, ro.Entry())
              && Record(View(), id) == Some((ro.side, i))
    {
      hide Flat;
      hide Values;
      var ro := idx[id];
      var all := Records(bids) + Records(asks);
      SoughtOn(Queue(ro.side), ro.side, ro, all, arrivals);
      NotSoughtOn(Queue(Opposite(ro.side)), Opposite(ro.side), ro, all, arrivals);
    }

    /** Looks for an id in one level of a side and takes the first order that carries it out. */
    method DropFrom(side: Side, price: int, id: string) returns (found: bool)
      requires QueuesOk(bids, Buy) && QueuesOk(asks, Sell)
      modifies this`bids, this`asks
      ensures QueuesOk(bids, Buy) && QueuesOk(asks, Sell)
      ensures found <==> Find(old(Flat(Snap(Queue(side)), side)), id, price) < |old(Flat(Snap(Queue(side)), side))|
      ensures Flat(Snap(Queue(side)), side) == Without(old(Flat(Snap(Queue(side)), side)), id, price)
      ensures Queue(Opposite(side)) == old(Queue(Opposite(side)))
      ensures Snap(Queue(Opposite(side))) == old(Snap(Queue(Opposite(side))))
      ensures !found ==> Queue(side) == old(Queue(side))
      ensures Records(Queue(side)) <= old(Records(Queue(side)))
      ensures forall r :: r in old(Records(Queue(side))) ==> r in Records(Queue(side)) || r.id == id
    {
      hide Flat;
      hide Find;
      hide Without;
      hide QueuesOk;
      ghost var away := Queue(Opposite(side));
      ghost var others := Snap(away);
      var t;
      t, found := DropQueue(Queue(side), side, price, id);
      assert Snap(away) == others;
      SetQueues(side, t);
    }

    /** Forgets an id; no queue changes. */
    method Unlink(id: string)
      modifies this`idx
      ensures idx == old(idx) - {id}
      ensures Snap(bids) == old(Snap(bids)) && Snap(asks) == old(Snap(asks))
    {
      ghost var b, a := Snap(bids), Snap(asks);
      idx := idx - {id};
      assert Snap(bids) == b && Snap(asks) == a;
    }

    /** Looks for an id at a price on both sides, bids first. */
    method DropAnywhere(price: int, id: string)
      requires QueuesOk(bids, Buy) && QueuesOk(asks, Sell)
      modifies this`bids, this`asks
      ensures QueuesOk(bids, Buy) && QueuesOk(asks, Sell)
      ensures var b, a := old(Flat(Snap(bids), Buy)), old(Flat(Snap(asks), Sell));
              if Find(b, id, price) < |b| then
                Flat(Snap(bids), Buy) == Without(b, id, price) && Flat(Snap(asks), Sell) == a
              else Flat(Snap(bids), Buy) == b && Flat(Snap(asks), Sell) == Without(a, id, price)
      ensures Records(bids) + Records(asks) <= old(Records(bids) + Records(asks))
      ensures forall r :: r in old(Records(bids) + Records(asks)) ==> r in Records(bids) + Records(asks) || r.id == id
    {
      hide Flat;
      hide Values;
      hide Snap;
      hide Find;
      hide QueuesOk;
      hide Records;
      var found := DropFrom(Buy, price, id);
      if !found {
        found := DropFrom(Sell, price, id);
      }
    }

    /** Removes an order by id: its record's price is searched on both sides. */
    method RemoveOrder(id: string)
      requires Valid()
      modifies this
      ensures Valid() && View() == GoBookSpec.RemoveOrder(old(View()), id)
    {
      hide Flat;
      hide Values;
      hide Snap;
      hide Find;
      hide Without;
      hide QueuesOk;
      hide Numbered;
      hide Indexes;
      hide Records;
      hide Seek;
      hide Stamps;
      if id !in idx {
        NotIndexed(idx, id);
        return;
      }
      var ro := idx[id];
      RecordOf(id);
      ghost var index, all := idx, Records(bids) + Records(asks);
      DropAnywhere(ro.price, id);
      FewerNumbered(all, Records(bids) + Records(asks), arrivals);
      ForgetId(index, all, Records(bids) + Records(asks), id);
      Unlink(id);
    }

    /** Changes a record where it stands, and its id when a new one is given. */
    method AmendRecord(origId: string, ro: RestingOrder, newId: string, qty: nat)
      requires Valid() && origId in idx && ro == idx[origId]
      modifies ro, this`idx
      ensures Valid()
      ensures var s := old(View());
              var i := Seek(s.On(ro.side), ro.stamp);
              && i < |s.On(ro.side)|
              && View() ==
                 if newId != "" && newId != origId then
                   s.Put(ro.side, s.On(ro.side)[i := s.On(ro.side)[i].(remaining := qty, id := newId)])
                    .(idx := (s.idx - {origId})[newId := ro.stamp])
                 else s.Put(ro.side, s.On(ro.side)[i := s.On(ro.side)[i].(remaining := qty)])
    {
      hide Flat;
      hide Values;
      hide Snap;
      hide QueuesOk;
      hide Numbered;
      hide Records;
      hide Stamps;
      hide Seek;
      ghost var t, away, index := Queue(ro.side), Queue(Opposite(ro.side)), idx;
      ghost var all := Records(bids) + Records(asks);
      var id := if newId != "" && newId != origId then newId else origId;
      ghost var levels := Snap(t);
      RecordOf(origId);
      OnItsSide(bids, asks, ro);
      ghost var j := AmendPlace(t, ro.side, ro, all, arrivals, Queued(id, qty, None, ro.stamp));
      OthersCarryTheirIds(index, origId);
      WriteRecord(t, away, j, ro, id, qty);
      if id != origId {
        RenameStamps(index, origId, newId, ro);
        Relink(origId, newId, ro);
      }
    }

    method Relink(origId: string, newId: string, ro: RestingOrder)
      modifies this`idx
      ensures idx == (old(idx) - {origId})[newId := ro]
      ensures Snap(bids) == old(Snap(bids)) && Snap(asks) == old(Snap(asks))
    {
      ghost var b, a := Snap(bids), Snap(asks);
      idx := idx - {origId};
      idx := idx[newId := ro];
      assert Snap(bids) == b && Snap(asks) == a;
    }

    /** A same-price decrease keeps its record; anything else leaves the book and queues anew. */
    method ReplaceOrder(newId: string, origId: string, side: Side, price: int, qty: nat)
      requires Valid()
      modifies this, Records(bids), Records(asks)
      ensures Valid()
      ensures View() == GoBookSpec.ReplaceOrder(old(View()), Order(Replace, side, price, qty, newId, origId, None))
    {
      hide Flat;
      hide Snap;
      hide QueuesOk;
      hide Numbered;
      hide Stamps;
      hide Seek;
      hide Rest;
      hide GoBookSpec.RemoveOrder;
      if origId !in idx {
        return;
      }
      var ro := idx[origId];
      RecordOf(origId);
      if price == ro.price && qty <= ro.remaining {
        AmendRecord(origId, ro, newId, qty);
      } else {
        RemoveOrder(origId);
        RestNew(newId, side, price, qty);
      }
    }
  }

  /** Writes one record; every other record of the two sides keeps its value. */
  method WriteRecord(ghost t: Queues, ghost away: Queues, ghost j: nat, ro: RestingOrder, id: string, qty: nat)
    requires QueuesOk(t, ro.side) && QueuesOk(away, Opposite(ro.side))
    requires ro.price in t && j < |t[ro.price]| && t[ro.price][j] == ro
    modifies ro
    ensures ro.id == id && ro.remaining == qty
    ensures ro.price in old(Snap(t)) && j < |old(Snap(t))[ro.price]|
    ensures Snap(t) == old(Snap(t))[ro.price := old(Snap(t))[ro.price][j := ro.Entry()]]
    ensures Snap(away) == old(Snap(away))
  {
    hide Values;
    ghost var p, levels, others := ro.price, Snap(t), Snap(away);
    ro.remaining := qty;
    ro.id := id;
    forall q | q in t && q != p ensures Values(t[q]) == levels[q] {
      assert ro !in t[q];
    }
    forall q | q in away ensures Values(away[q]) == others[q] {
      assert ro !in away[q];
    }
    assert Values(t[p]) == levels[p][j := ro.Entry()];
  }

  /** Where a record's new value goes in the list. */
  lemma AmendPlace(t: Queues, side: Side, ro: RestingOrder, all: set<RestingOrder>, arrivals: nat, q: Queued)
    returns (j: nat)
    requires QueuesOk(t, side) && ro in Records(t) && ro in all && ro.side == side
    requires Records(t) <= all && Numbered(all, arrivals)
    ensures ro.price in t && j < |t[ro.price]| && t[ro.price][j] == ro
    ensures var levels, list := Snap(t), Flat(Snap(t), side);
            var i := Seek(list, ro.stamp);
            && ro.price in levels && j < |levels[ro.price]| && i < |list|
            && Flat(levels[ro.price := levels[ro.price][j := q]], side) == list[i := Tag(ro.price, q)]
  {
    hide Flat;
    hide Values;
    var p, levels := ro.price, Snap(t);
    var list := Flat(levels, side);
    j := PlaceOf(t, side, ro);
    FlatAmend(levels, side, p, j, q);
    var k := |Flat(Above(levels, side, p), side)| + j;
    SnapApart(t, side, all, arrivals);
    FlatStamps(levels, side);
    assert Values(t[p])[j] == ro.Entry();
    SeekIs(list, k);
  }

  lemma SeekIs(list: seq<Resting>, k: nat)
    requires DistinctStamps(list) && k < |list|
    ensures Seek(list, list[k].stamp) == k
  {
    forall i | 0 <= i < k ensures list[i].stamp != list[k].stamp {}
  }

  lemma SnapApart(t: Queues, side: Side, all: set<RestingOrder>, arrivals: nat)
    requires QueuesOk(t, side) && Records(t) <= all && Numbered(all, arrivals)
    ensures StampsApart(Snap(t))
  {
    hide Values;
    var levels: Levels := Snap(t);
    forall p: int, i: int, q: int, j: int | p in levels && q in levels && 0 <= i < |levels[p]| && 0 <= j < |levels[q]|
                        && levels[p][i].stamp == levels[q][j].stamp
      ensures p == q && i == j
    {
      assert levels[p][i] == t[p][i].Entry() && levels[q][j] == t[q][j].Entry();
      RecordsHas(t, p, i);
      RecordsHas(t, q, j);
      assert t[p][i] == t[q][j];
      assert LevelOk(t[p], side, p) && LevelOk(t[q], side, q);
    }
  }

  /** No other id points to a record. */
  lemma OthersCarryTheirIds(idx: map<string, RestingOrder>, id: string)
    requires id in idx && forall k :: k in idx ==> idx[k].id == k
    ensures forall k :: k in idx && k != id ==> idx[k] != idx[id]
  {
  }

  lemma RenameStamps(idx: map<string, RestingOrder>, id: string, newId: string, ro: RestingOrder)
    ensures Stamps((idx - {id})[newId := ro]) == (Stamps(idx) - {id})[newId := ro.stamp]
  {
    hide Stamps;
    assert ((idx - {id})[newId := ro]).Keys == idx.Keys - {id} + {newId};
  }

  lemma NotIndexed(idx: map<string, RestingOrder>, id: string)
    requires id !in idx
    ensures Stamps(idx) - {id} == Stamps(idx)
  {
  }

  lemma ForgetId(idx: map<string, RestingOrder>, all: set<RestingOrder>, all': set<RestingOrder>, id: string)
    requires Indexes(idx, all) && forall r :: r in all ==> r in all' || r.id == id
    ensures Indexes(idx - {id}, all') && Stamps(idx - {id}) == Stamps(idx) - {id}
  {
  }

  /** Takes the first order with an id out of one level. */
  method DropQueue(t: Queues, side: Side, price: int, id: string) returns (t': Queues, found: bool)
    requires QueuesOk(t, side)
    ensures QueuesOk(t', side)
    ensures found <==> Find(Flat(Snap(t), side), id, price) < |Flat(Snap(t), side)|
    ensures Flat(Snap(t'), side) == Without(Flat(Snap(t), side), id, price)
    ensures !found ==> t' == t
    ensures Records(t') <= Records(t)
    ensures forall r :: r in Records(t) ==> r in Records(t') || r.id == id
  {
    hide Flat;
    hide Values;
    hide Snap;
    hide Find;
    hide Records;
    hide Without;
    var q := if price in t then t[price] else [];
    var i := PositionOf(q, id);
    LevelValues(t, price);
    FlatHas(Snap(t), side, price, id);
    FlatRemove(Snap(t), side, price, id);
    found := i < |q|;
    if found {
      DropQueueOk(t, side, price, i);
      SnapDrop(t, price, i, id);
      t' := SetQueue(t, price, q[..i] + q[i + 1..]);
    } else {
      SnapSame(t, price, id);
      t' := t;
    }
  }

  lemma LevelValues(t: Queues, p: int)
    ensures At(Snap(t), p) == Values(if p in t then t[p] else [])
  {
  }

  /** Nothing is dropped from a level without the id. */
  lemma SnapSame(t: Queues, p: int, id: string)
    requires Position(At(Snap(t), p), id) == |At(Snap(t), p)| && (p in t ==> t[p] != [])
    ensures SetLevel(Snap(t), p, DropId(At(Snap(t), p), id)) == Snap(t)
  {
  }

  lemma SnapDrop(t: Queues, p: int, i: nat, id: string)
    requires p in t && i < |t[p]| && Position(Values(t[p]), id) == i
    ensures Snap(SetQueue(t, p, t[p][..i] + t[p][i + 1..])) == SetLevel(Snap(t), p, DropId(At(Snap(t), p), id))
  {
    hide Values;
    var q := t[p];
    assert Values(q[..i] + q[i + 1..]) == Values(q)[..i] + Values(q)[i + 1..];
    SnapSet(t, p, q[..i] + q[i + 1..], Snap(t));
  }

  lemma DropQueueOk(t: Queues, side: Side, p: int, i: nat)
    requires QueuesOk(t, side) && p in t && i < |t[p]|
    ensures var t' := SetQueue(t, p, t[p][..i] + t[p][i + 1..]);
            && QueuesOk(t', side) && Records(t') <= Records(t)
            && forall r :: r in Records(t) ==> r in Records(t') || r == t[p][i]
  {
    var q := t[p][..i] + t[p][i + 1..];
    var t' := SetQueue(t, p, q);
    forall k | 0 <= k < |q| ensures q[k] == t[p][if k < i then k else k + 1] {}
    forall r | r in Records(t') ensures r in Records(t) {
      var k, j :| k in t' && 0 <= j < |t'[k]| && t'[k][j] == r;
      RecordsHas(t, k, if k == p && j >= i then j + 1 else j);
    }
    forall r | r in Records(t) ensures r in Records(t') || r == t[p][i] {
      var k, j :| k in t && 0 <= j < |t[k]| && t[k][j] == r;
      if k != p {
        RecordsHas(t', k, j);
      } else if j < i {
        assert q[j] == r;
        RecordsHas(t', k, j);
      } else if j > i {
        assert q[j - 1] == r;
        RecordsHas(t', k, j - 1);
      }
    }
  }

  /** Searches a queue for an id. */
  method PositionOf(q: seq<RestingOrder>, id: string) returns (i: nat)
    ensures i == Position(Values(q), id) && i <= |q|
    ensures i < |q| ==> q[i].id == id
  {
    i := 0;
    while i < |q| && q[i].id != id
      invariant i <= |q| && forall j :: 0 <= j < i ==> Values(q)[j].id != id
    {
      i := i + 1;
    }
  }

  /** A list entry with a queued record's number is that record. */
  lemma EntryIs(t: Queues, side: Side, e: Resting, ro: RestingOrder, all: set<RestingOrder>, arrivals: nat)
    requires QueuesOk(t, side) && Records(t) <= all && ro in all && Numbered(all, arrivals)
    requires e in Flat(Snap(t), side) && e.stamp == ro.stamp
    ensures ro.side == side && e == Tag(ro.price, ro.Entry())
  {
    hide Flat;
    FlatMembers(Snap(t), side, e);
    var level := Values(t[e.price]);
    var j :| 0 <= j < |level| && level[j] == Queued(e.id, e.remaining, e.smp, e.stamp);
    RecordsHas(t, e.price, j);
  }

  lemma SoughtOn(t: Queues, side: Side, ro: RestingOrder, all: set<RestingOrder>, arrivals: nat)
    requires QueuesOk(t, side) && Records(t) <= all && ro in all && ro.side == side && Numbered(all, arrivals)
    requires ro in Records(t)
    ensures var list := Flat(Snap(t), side);
            var i := Seek(list, ro.stamp);
            i < |list| && list[i] == Tag(ro.price, ro.Entry())
  {
    hide Flat;
    hide Values;
    var list := Flat(Snap(t), side);
    var e := Tag(ro.price, ro.Entry());
    RecordAt(t, side, ro);
    var j :| 0 <= j < |t[ro.price]| && t[ro.price][j] == ro;
    assert Values(t[ro.price])[j] == ro.Entry();
    FlatMembers(Snap(t), side, e);
    SeekHas(list, e);
    var i := Seek(list, ro.stamp);
    EntryIs(t, side, list[i], ro, all, arrivals);
  }

  lemma NotSoughtOn(t: Queues, side: Side, ro: RestingOrder, all: set<RestingOrder>, arrivals: nat)
    requires QueuesOk(t, side) && Records(t) <= all && ro in all && ro.side != side && Numbered(all, arrivals)
    ensures Seek(Flat(Snap(t), side), ro.stamp) == |Flat(Snap(t), side)|
  {
    hide Flat;
    var list := Flat(Snap(t), side);
    if Seek(list, ro.stamp) < |list| {
      EntryIs(t, side, list[Seek(list, ro.stamp)], ro, all, arrivals);
      assert false;
    }
  }

  lemma ForgetStamps(idx: map<string, RestingOrder>, done: seq<string>)
    ensures Stamps(idx - Ids(done)) == Stamps(idx) - Ids(done)
  {
  }

  lemma AppendQueue(t: Queues, side: Side, p: int, ro: RestingOrder)
    requires QueuesOk(t, side) && ro !in Records(t) && ro.side == side && ro.price == p
    ensures var q := (if p in t then t[p] else []) + [ro];
            QueuesOk(t[p := q], side) && Records(t[p := q]) == Records(t) + {ro}
  {
    var old' := if p in t then t[p] else [];
    var q := old' + [ro];
    var t' := t[p := q];
    assert LevelOk(q, side, p) by {
      forall i | 0 <= i < |old'| ensures old'[i] != ro {
        RecordsHas(t, p, i);
      }
    }
    forall r | r in Records(t) ensures r in Records(t') {
      var k, i :| k in t && 0 <= i < |t[k]| && t[k][i] == r;
      RecordsHas(t', k, i);
      assert t'[k][i] == r;
    }
    RecordsHas(t', p, |old'|);
    forall r | r in Records(t') ensures r in Records(t) + {ro} {
      var k, i :| k in t' && 0 <= i < |t'[k]| && t'[k][i] == r;
      if k != p || i < |old'| {
        RecordsHas(t, k, i);
      }
    }
  }

  lemma MoreIndexed(idx: map<string, RestingOrder>, all: set<RestingOrder>, ro: RestingOrder)
    requires Indexes(idx, all)
    ensures Indexes(idx[ro.id := ro], all + {ro})
    ensures Stamps(idx[ro.id := ro]) == Stamps(idx)[ro.id := ro.stamp]
  {
    hide Stamps;
    var m := idx[ro.id := ro];
    assert m.Keys == idx.Keys + {ro.id};
  }

  lemma AppendSnap(t: Queues, p: int, ro: RestingOrder)
    ensures var q := (if p in t then t[p] else []) + [ro];
            Snap(t[p := q]) == Snap(t)[p := At(Snap(t), p) + [ro.Entry()]]
  {
    hide Values;
    var old' := if p in t then t[p] else [];
    assert Values(old' + [ro]) == Values(old') + [ro.Entry()];
  }

  lemma MoreNumbered(all: set<RestingOrder>, all': set<RestingOrder>, ro: RestingOrder, arrivals: nat)
    requires arrivals > 0 && Numbered(all, arrivals - 1) && all' == all + {ro} && ro.stamp == arrivals
    ensures Numbered(all', arrivals)
  {
  }

  lemma WalkOver(g: Match, fills: seq<Fill>, done: seq<string>, makers: seq<Resting>, o: Order, remaining: nat)
    requires Progress(g, fills, done, [], makers, o, remaining)
    requires (remaining == 0 || forall m :: m in makers ==> !Eligible(o, m))
    ensures g == Match(fills, done, makers, remaining)
  {
    ProgressEnd(g, fills, done, [], makers, o, remaining);
    assert [] + makers == makers;
  }

  lemma NoLevels(t: Queues, side: Side)
    requires QueuesOk(t, side) && forall p :: p in t ==> t[p] == []
    ensures Flat(Snap(t), side) == []
  {
    if t.Keys != {} {
      var p := SomeMember(t.Keys);
      assert false;
    }
    assert Snap(t).Keys == {};
  }

  lemma BestOfSnap(t: Queues, side: Side, best: int, found: bool)
    requires QueuesOk(t, side) && (found <==> exists p :: p in t && t[p] != [])
    requires found ==> best in t && t[best] != []
    requires found ==> forall q :: q in t && t[q] != [] ==> Rank(side, best) <= Rank(side, q)
    ensures found ==> best in t && IsBest(Snap(t), side, best)
    ensures !found ==> Flat(Snap(t), side) == []
  {
    if !found {
      NoLevels(t, side);
    }
  }

  lemma NoneCrosses(t: Queues, side: Side, o: Order, best: int)
    requires IsBest(Snap(t), side, best) && side == Opposite(o.side) && o.kind == NewLimit && !Crosses(o, best)
    ensures forall m :: m in Flat(Snap(t), side) ==> !Eligible(o, m)
  {
    forall m | m in Flat(Snap(t), side) ensures !Eligible(o, m) {
      FlatMembers(Snap(t), side, m);
    }
  }

  lemma LevelReach(t: Queues, p: int, reach: set<RestingOrder>)
    requires Records(t) <= reach && p in t
    ensures forall r :: r in t[p] ==> r in reach
  {
    forall r | r in t[p] ensures r in reach {
      var i :| 0 <= i < |t[p]| && t[p][i] == r;
      RecordsHas(t, p, i);
    }
  }

  lemma NoReport(id: string)
    ensures ReportOf([], id) == Report(0, None)
  {
  }

  lemma SetQueueSize(t: Queues, p: int, q: seq<RestingOrder>)
    requires p in t
    ensures |SetQueue(t, p, q)| == if q == [] then |t| - 1 else |t|
  {
    if q == [] {
      assert (t - {p}).Keys == t.Keys - {p};
    } else {
      assert t[p := q].Keys == t.Keys;
      assert |t[p := q]| == |t[p := q].Keys| && |t| == |t.Keys|;
    }
  }

  /** The records left after a level was served are numbered and indexed. */
  lemma FewerRecords(idx: map<string, RestingOrder>, all: set<RestingOrder>, arrivals: nat, t: Queues, away: Queues,
                     t': Queues, left: seq<RestingOrder>, done: seq<string>)
    requires Numbered(all, arrivals) && Indexes(idx, all) && all == Records(t) + Records(away)
    requires Records(t') <= Records(t) && (forall r :: r in Records(t) ==> r in Records(t') || r in left)
    requires forall r :: r in left ==> r.id in done
    ensures Numbered(Records(t') + Records(away), arrivals) && Indexes(idx - Ids(done), Records(t') + Records(away))
  {
    hide Records, Numbered, Indexes, Ids;
    FewerNumbered(all, Records(t') + Records(away), arrivals);
    StillIndexes(idx, all, left, done, Records(t') + Records(away));
  }

  lemma FewerNumbered(all: set<RestingOrder>, all': set<RestingOrder>, arrivals: nat)
    requires Numbered(all, arrivals) && all' <= all
    ensures Numbered(all', arrivals)
  {
  }

  /** What walking one level makes of the whole walk. */
  lemma LevelWalked(total: Match, fills: seq<Fill>, done: seq<string>, price: int, level: seq<Queued>,
      others: seq<Resting>,
                    rest: seq<Queued>, o: Order, want: nat)
    requires Progress(total, fills, done, [], TagAll(price, level) + others, o, want)
    requires var g := Greedy(TagAll(price, level), o, want);
             g.book == TagAll(price, rest) && (rest == [] || g.remaining == 0)
    ensures var g := Greedy(TagAll(price, level), o, want);
            Progress(total, fills + g.fills, done + g.done, [], TagAll(price, rest) + others, o, g.remaining)
  {
    hide Greedy;
    var a := TagAll(price, level);
    var g := Greedy(a, o, want);
    ProgressBlock(total, fills, done, [], a, others, o, want);
    if g.remaining != 0 {
      assert TagAll(price, rest) == [];
      assert [] + g.book == [] && [] + others == others;
    }
  }

  lemma OneForgotten<T>(m: map<string, T>, done: seq<string>, id: string)
    ensures m - Ids(done) - {id} == m - Ids(done + [id])
  {
  }
}
