/** The price-level engine: it matches level by level, sets same-participant makers aside,
    puts them back, parks levels that can yield nothing and restores them at the end. */
module MatchingEngine {
  import opened Wrappers
  import opened PriceTimeBook
  import opened LevelTree
  import opened EngineSpec

  predicate LevelAllSameSmp(level: seq<Queued>, taker: Option<nat>) {
    taker.Some? && level != [] && forall q :: q in level ==> q.smp == taker
  }

  /** A level taken out of the tree for the length of one call. */
  datatype Parked = Parked(price: int, level: seq<Queued>)

  function ParkedTree(parked: seq<Parked>): Levels {
    if parked == [] then map[]
    else ParkedTree(parked[..|parked| - 1])[parked[|parked| - 1].price := parked[|parked| - 1].level]
  }

  lemma ParkedSnoc(parked: seq<Parked>, p: Parked)
    ensures ParkedTree(parked + [p]) == ParkedTree(parked)[p.price := p.level]
  {
    assert (parked + [p])[..|parked|] == parked;
  }

  lemma {:induction false} ParkedHas(parked: seq<Parked>, i: nat)
    requires i < |parked|
    ensures parked[i].price in ParkedTree(parked)
  {
    if i < |parked| - 1 {
      ParkedHas(parked[..|parked| - 1], i);
    }
  }

  /** Parked levels that can go back: all better than the tree and each at its own price. */
  ghost predicate Restorable(parked: seq<Parked>, t: Levels, side: Side) {
    NoEmptyLevel(ParkedTree(parked)) && DistinctPrices(parked) && AllBetter(ParkedTree(parked), t, side)
  }

  ghost predicate DistinctPrices(parked: seq<Parked>) {
    forall i :: 0 <= i < |parked| ==> parked[i].price !in ParkedTree(parked[..i])
  }

  /** The skip/restore loop over one level. */
  method MatchLevel(queue: seq<Queued>, price: int, o: Order, want: nat)
    returns (level: seq<Queued>, fills: seq<Fill>, done: seq<string>, remaining: nat)
    requires Crosses(o, price)
    ensures Greedy(TagAll(price, queue), o, want) == Match(fills, done, TagAll(price, level), remaining)
    ensures remaining > 0 ==> level == [] || LevelAllSameSmp(level, o.smp)
    ensures remaining <= want
  {
    level, fills, done, remaining := queue, [], [], want;
    var skipped: seq<Queued> := [];
    ghost var total := Greedy(TagAll(price, queue), o, want);
    ProgressStart(TagAll(price, queue), o, want);
    assert TagAll(price, skipped) == [];
    hide Progress;
    hide Greedy;
    while remaining > 0 && level != []
      invariant Progress(total, fills, done, TagAll(price, skipped), TagAll(price, level), o, remaining)
      invariant forall q :: q in skipped ==> o.smp.Some? && q.smp == o.smp
      invariant remaining <= want
      decreases remaining > 0, |level|
    {
      var maker := level[0];
      if o.smp.Some? && maker.smp.Some? && o.smp.value == maker.smp.value {
        MakerSkipped(total, fills, done, price, skipped, level, o, remaining);
        skipped, level := skipped + [maker], level[1..];
      } else {
        var traded := Min(remaining, maker.remaining);
        MakerTaken(total, fills, done, price, TagAll(price, skipped), level, o, remaining);
        fills := fills + [Fill(o.id, price, traded, TAKER), Fill(maker.id, price, traded, MAKER)];
        remaining := remaining - traded;
        if maker.remaining == traded {
          level := level[1..];
          done := done + [maker.id];
        } else {
          assert done + Gone(Tag(price, maker), traded) == done;
          level := [maker.(remaining := maker.remaining - traded)] + level[1..];
        }
      }
    }
    ProgressEnd(total, fills, done, TagAll(price, skipped), TagAll(price, level), o, remaining);
    TagAllConcat(price, skipped, level);
    AllSkipped(skipped, level, o.smp);
    level := skipped + level;
  }

  class Engine {
    var bids: Levels
    var asks: Levels
    var index: map<string, (Side, int)>
    var stamp: nat

    ghost predicate Valid()
      reads this
    {
      NoEmptyLevel(bids) && NoEmptyLevel(asks)
    }

    /** The reference book this engine stands for. */
    ghost function View(): State
      reads this
    {
      State(Flat(bids, Buy), Flat(asks, Sell), index, stamp)
    }

    function Tree(side: Side): Levels
      reads this
    {
      if side == Buy then bids else asks
    }

    constructor ()
      ensures Valid() && View() == EMPTY
    {
      bids, asks, index, stamp := map[], map[], map[], 0;
    }

    method SetTree(side: Side, t: Levels)
      modifies this`bids, this`asks
      ensures Tree(side) == t && Tree(Opposite(side)) == old(Tree(Opposite(side)))
      ensures old(Valid()) && NoEmptyLevel(t) ==> Valid()
    {
      if side == Buy {
        bids := t;
      } else {
        asks := t;
      }
    }

    /** One turn of the outer loop: match the best level, then drop it, park it or keep it. */
    method SweepLevel(o: Order, price: int, want: nat, parked: seq<Parked>,
                      ghost total: Match, ghost fills: seq<Fill>, ghost done: seq<string>)
      returns (f: seq<Fill>, d: seq<string>, remaining: nat, parked': seq<Parked>)
      requires Valid() && Sweeping(total, fills, done, parked, Tree(Opposite(o.side)), o, want)
      requires price in Tree(Opposite(o.side)) && IsBest(Tree(Opposite(o.side)), Opposite(o.side), price)
      requires want > 0 && Crosses(o, price)
      modifies this`bids, this`asks, this`index
      ensures Valid() && Sweeping(total, fills + f, done + d, parked', Tree(Opposite(o.side)), o, remaining)
      ensures index == old(index) - Ids(d) && Tree(o.side) == old(Tree(o.side))
      ensures remaining <= want
      ensures remaining == 0 || |Tree(Opposite(o.side))| < old(|Tree(Opposite(o.side))|)
    {
      var away := Opposite(o.side);
      var tree := Tree(away);
      hide Sweeping;
      hide Greedy;
      hide Ids;
      hide LevelAllSameSmp;
      var level;
      level, f, d, remaining := MatchLevel(tree[price], price, o, want);
      Shrinks(tree, price, level);
      var next := SetLevel(tree, price, level);
      parked' := parked;
      if level != [] && remaining > 0 && LevelAllSameSmp(level, o.smp) {
        SweepPark(total, fills, done, parked, tree, o, want, price, level, f, d, remaining);
        next, parked' := tree - {price}, parked + [Parked(price, level)];
      } else {
        SweepKeep(total, fills, done, parked, tree, o, want, price, level, f, d, remaining);
      }
      SetTree(away, next);
      index := index - Ids(d);
    }

    /** The outer loop: best level first, until the order is used up or nothing crosses. */
    method Sweep(o: Order)
      returns (fills: seq<Fill>, done: seq<string>, remaining: nat, parked: seq<Parked>)
      requires Valid() && (o.kind == NewLimit || o.kind == NewMarket)
      modifies this`bids, this`asks, this`index
      ensures Valid() && Restorable(parked, Tree(Opposite(o.side)), Opposite(o.side))
      ensures var away := Opposite(o.side);
              Greedy(old(Flat(Tree(away), away)), o, o.qty)
              == Match(fills, done, Flat(ParkedTree(parked), away) + Flat(Tree(away), away), remaining)
      ensures index == old(index) - Ids(done)
      ensures Tree(o.side) == old(Tree(o.side))
    {
      var away := Opposite(o.side);
      remaining, parked, fills, done := o.qty, [], [], [];
      ghost var total := Greedy(Flat(Tree(away), away), o, o.qty);
      SweepStart(Tree(away), o);
      assert index == index - Ids([]);
      hide Sweeping;
      hide Flat;
      hide Greedy;
      hide Ids;
      hide NoEmptyLevel;
      while remaining > 0 && Tree(away).Keys != {}
        invariant Valid() && Sweeping(total, fills, done, parked, Tree(away), o, remaining)
        invariant index == old(index) - Ids(done)
        invariant Tree(o.side) == old(Tree(o.side))
        decreases remaining, |Tree(away)|
      {
        var tree := Tree(away);
        var price := BestPrice(away);
        if o.kind == NewLimit && !Crosses(o, price) {
          NoneCross(tree, price, o);
          break;
        }
        var f, d, left;
        f, d, left, parked := SweepLevel(o, price, remaining, parked, total, fills, done);
        ForgetTwice(old(index), done, d);
        remaining, fills, done := left, fills + f, done + d;
      }
      SweepEnd(total, fills, done, parked, Tree(away), o, remaining);
    }

    method MatchAndRest(o: Order, rest: bool) returns (fills: seq<Fill>, done: seq<string>)
      requires Valid() && (o.kind == NewLimit || o.kind == NewMarket) && rest == (o.kind == NewLimit)
      modifies this
      ensures Valid()
      ensures Outcome(View(), fills, done) == Submit(old(View()), o)
    {
      hide Flat;
      hide Greedy;
      hide Ids;
      hide Insert;
      var remaining, parked;
      fills, done, remaining, parked := Sweep(o);
      Restore(Opposite(o.side), parked);
      if rest && remaining > 0 && o.kind == NewLimit {
        Rest(o.id, o.side, o.price, remaining, o.smp);
      } else {
        done := done + [o.id];
      }
    }

    method BestPrice(side: Side) returns (price: int)
      requires Tree(side).Keys != {}
      ensures price in Tree(side) && IsBest(Tree(side), side, price)
    {
      BestExists(Tree(side), side);
      price :| price in Tree(side) && IsBest(Tree(side), side, price);
    }

    method Restore(side: Side, parked: seq<Parked>)
      requires Valid() && Restorable(parked, Tree(side), side)
      modifies this`bids, this`asks
      ensures Valid()
      ensures Flat(Tree(side), side) == Flat(ParkedTree(parked), side) + old(Flat(Tree(side), side))
      ensures Tree(Opposite(side)) == old(Tree(Opposite(side)))
    {
      ghost var tree := Tree(side);
      FlatMerge(ParkedTree(parked), tree, side);
      assert ParkedTree(parked[..0]) + tree == tree;
      hide Flat;
      hide ParkedTree;
      for i := 0 to |parked|
        invariant Tree(side) == ParkedTree(parked[..i]) + tree
        invariant Tree(Opposite(side)) == old(Tree(Opposite(side)))
      {
        var p := parked[i];
        RestoreOne(parked, tree, side, i);
        SetTree(side, Tree(side)[p.price := At(Tree(side), p.price) + p.level]);
      }
      assert parked[..|parked|] == parked;
    }

    method Rest(id: string, side: Side, price: int, remaining: nat, smp: Option<nat>)
      requires Valid()
      modifies this
      ensures Valid()
      ensures View() == Insert(old(View()), id, side, price, remaining, smp)
    {
      hide InsertSorted;
      stamp := stamp + 1;
      var q := Queued(id, remaining, smp, stamp);
      index := index[id := (side, price)];
      FlatEnqueue(Tree(side), side, price, q);
      SetTree(side, Tree(side)[price := At(Tree(side), price) + [q]]);
    }

    method Remove(id: string) returns (done: seq<string>)
      requires Valid()
      modifies this
      ensures Valid()
      ensures Outcome(View(), [], done) == EngineSpec.Remove(old(View()), id)
    {
      if id !in index {
        return [];
      }
      var (side, price) := index[id];
      hide Flat;
      hide Without;
      index := index - {id};
      TakeOut(side, price, id);
      done := [id];
    }

    method TakeOut(side: Side, price: int, id: string)
      requires Valid()
      modifies this`bids, this`asks
      ensures Valid() && Tree(Opposite(side)) == old(Tree(Opposite(side)))
      ensures Flat(Tree(side), side) == Without(old(Flat(Tree(side), side)), id, price)
    {
      var tree := Tree(side);
      FlatRemove(tree, side, price, id);
      NoLevel(tree, price, id);
      hide Flat;
      hide Without;
      hide DropId;
      if price in tree {
        SetTree(side, SetLevel(tree, price, DropId(tree[price], id)));
      }
    }

    method Replace(o: Order) returns (done: seq<string>)
      requires Valid()
      modifies this
      ensures Valid()
      ensures Outcome(View(), [], done) == Change(old(View()), o)
    {
      if o.origId !in index {
        return [];
      }
      var newId := if o.id == "" then o.origId else o.id;
      var kept := AmendInPlace(o, newId);
      if kept {
        return [];
      }
      done := Remove(o.origId);
      Rest(newId, o.side, o.price, o.qty, o.smp);
    }

    /** The in-place branch of a replace: same price and no more than what remains. */
    method AmendInPlace(o: Order, newId: string) returns (kept: bool)
      requires Valid() && o.origId in index && newId == NewId(o)
      modifies this
      ensures Valid()
      ensures kept == KeepsPlace(old(View()), o)
      ensures View() == if kept then Amend(old(View()), o) else old(View())
    {
      var (side, price) := index[o.origId];
      hide Flat;
      hide Find;
      kept := false;
      if o.price == price {
        kept := AmendLevel(o, side, newId);
      }
      if kept && newId != o.origId {
        index := (index - {o.origId})[newId := (side, price)];
      }
    }

    method AmendLevel(o: Order, side: Side, newId: string) returns (kept: bool)
      requires Valid()
      modifies this`bids, this`asks
      ensures Valid() && Tree(Opposite(side)) == old(Tree(Opposite(side)))
      ensures var list := old(Flat(Tree(side), side));
              var j := Find(list, o.origId, o.price);
              && kept == (j < |list| && o.qty <= list[j].remaining)
              && Flat(Tree(side), side)
                 == if kept then list[j := list[j].(id := newId, remaining := o.qty)] else list
    {
      var tree := Tree(side);
      FlatFind(tree, side, o.price, o.origId);
      hide Flat;
      hide Find;
      hide Position;
      kept := false;
      if o.price in tree {
        var level := tree[o.price];
        var pos := Position(level, o.origId);
        if pos < |level| {
          var q := level[pos];
          FlatAmend(tree, side, o.price, pos, q.(id := newId, remaining := o.qty));
          if o.qty <= q.remaining {
            SetTree(side, tree[o.price := level[pos := q.(id := newId, remaining := o.qty)]]);
            kept := true;
          }
        }
      }
    }

    method Process(o: Order) returns (fills: seq<Fill>, done: seq<string>)
      requires Valid()
      modifies this
      ensures Valid()
      ensures Outcome(View(), fills, done) == Step(old(View()), o)
    {
      fills := [];
      match o.kind {
        case NewLimit => fills, done := MatchAndRest(o, true);
        case NewMarket => fills, done := MatchAndRest(o, false);
        case Cancel => done := Remove(o.origId);
        case Replace => done := Replace(o);
      }
    }
  }

  lemma Shrinks(t: Levels, price: int, level: seq<Queued>)
    requires price in t && NoEmptyLevel(t)
    ensures NoEmptyLevel(t - {price}) && NoEmptyLevel(SetLevel(t, price, level))
    ensures |t - {price}| < |t|
    ensures level == [] ==> SetLevel(t, price, level) == t - {price}
  {
    assert (t - {price}).Keys == t.Keys - {price};
  }

  lemma NoLevel(t: Levels, price: int, id: string)
    ensures price !in t ==> SetLevel(t, price, DropId(At(t, price), id)) == t
  {
  }

  lemma RestoreOne(parked: seq<Parked>, t: Levels, side: Side, i: nat)
    requires i < |parked| && Restorable(parked, t, side)
    ensures var p := parked[i];
            var now := ParkedTree(parked[..i]) + t;
            now[p.price := At(now, p.price) + p.level] == ParkedTree(parked[..i + 1]) + t
  {
    var p := parked[i];
    assert parked[..i + 1] == parked[..i] + [p];
    ParkedSnoc(parked[..i], p);
    ParkedHas(parked, i);
    hide ParkedTree;
    PutBack(ParkedTree(parked[..i]), t, p.price, p.level);
  }

  lemma PutBack(p: Levels, t: Levels, price: int, level: seq<Queued>)
    requires price !in p && price !in t
    ensures (p + t)[price := At(p + t, price) + level] == p[price := level] + t
  {
    assert [] + level == level;
  }

  // ----- The sweep, on values -----

  ghost predicate Sweeping(total: Match, fills: seq<Fill>, done: seq<string>, parked: seq<Parked>,
                           t: Levels, o: Order, want: nat)
  {
    var away := Opposite(o.side);
    && Restorable(parked, t, away)
    && Progress(total, fills, done, Flat(ParkedTree(parked), away), Flat(t, away), o, want)
  }

  lemma SweepStart(t: Levels, o: Order)
    ensures Sweeping(Greedy(Flat(t, Opposite(o.side)), o, o.qty), [], [], [], t, o, o.qty)
  {
    ProgressStart(Flat(t, Opposite(o.side)), o, o.qty);
  }

  lemma SweepPark(total: Match, fills: seq<Fill>, done: seq<string>, parked: seq<Parked>, t: Levels, o: Order,
                  want: nat, price: int, level: seq<Queued>, f: seq<Fill>, d: seq<string>, left: nat)
    requires Sweeping(total, fills, done, parked, t, o, want)
    requires IsBest(t, Opposite(o.side), price) && level != []
    requires Greedy(TagAll(price, t[price]), o, want) == Match(f, d, TagAll(price, level), left)
    ensures Sweeping(total, fills + f, done + d, parked + [Parked(price, level)], t - {price}, o, left)
  {
    var away := Opposite(o.side);
    hide Progress;
    hide Greedy;
    hide Flat;
    LevelWalked(total, fills, done, Flat(ParkedTree(parked), away), t, price, o, want,
                Match(f, d, TagAll(price, level), left));
    ParkBest(parked, t, away, price, level);
  }

  lemma SweepKeep(total: Match, fills: seq<Fill>, done: seq<string>, parked: seq<Parked>, t: Levels, o: Order,
                  want: nat, price: int, level: seq<Queued>, f: seq<Fill>, d: seq<string>, left: nat)
    requires Sweeping(total, fills, done, parked, t, o, want)
    requires IsBest(t, Opposite(o.side), price) && (left == 0 || level == [])
    requires Greedy(TagAll(price, t[price]), o, want) == Match(f, d, TagAll(price, level), left)
    ensures Sweeping(total, fills + f, done + d, parked, SetLevel(t, price, level), o, left)
  {
    var away := Opposite(o.side);
    hide Progress;
    hide Greedy;
    hide Flat;
    LevelWalked(total, fills, done, Flat(ParkedTree(parked), away), t, price, o, want,
                Match(f, d, TagAll(price, level), left));
    KeepBest(ParkedTree(parked), t, away, price, level);
  }

  lemma SweepEnd(total: Match, fills: seq<Fill>, done: seq<string>, parked: seq<Parked>, t: Levels, o: Order,
                 want: nat)
    requires Sweeping(total, fills, done, parked, t, o, want)
    requires want == 0 || t.Keys == {} || forall m :: m in Flat(t, Opposite(o.side)) ==> !Eligible(o, m)
    ensures var away := Opposite(o.side);
            && Restorable(parked, t, away)
            && total == Match(fills, done, Flat(ParkedTree(parked), away) + Flat(t, away), want)
  {
    var away := Opposite(o.side);
    ProgressEnd(total, fills, done, Flat(ParkedTree(parked), away), Flat(t, away), o, want);
  }

  lemma NoneCross(t: Levels, price: int, o: Order)
    requires IsBest(t, Opposite(o.side), price) && o.kind != NewMarket && !Crosses(o, price)
    ensures forall m :: m in Flat(t, Opposite(o.side)) ==> !Eligible(o, m)
  {
    forall m | m in Flat(t, Opposite(o.side)) ensures !Eligible(o, m) {
      FlatMembers(t, Opposite(o.side), m);
    }
  }

  lemma MakerSkipped(total: Match, fills: seq<Fill>, done: seq<string>, price: int, skipped: seq<Queued>,
                     level: seq<Queued>, o: Order, want: nat)
    requires level != [] && want > 0 && SharesSmp(o.smp, level[0].smp)
    requires Progress(total, fills, done, TagAll(price, skipped), TagAll(price, level), o, want)
    ensures Progress(total, fills, done, TagAll(price, skipped + [level[0]]), TagAll(price, level[1..]), o, want)
  {
    var m := Tag(price, level[0]);
    assert TagAll(price, level) == [m] + TagAll(price, level[1..]);
    ProgressBlock(total, fills, done, TagAll(price, skipped), [m], TagAll(price, level[1..]), o, want);
    GreedyOne(m, o, want);
    assert fills + [] == fills && done + [] == done;
    assert TagAll(price, skipped + [level[0]]) == TagAll(price, skipped) + [m];
  }

  lemma MakerUsedUp(total: Match, fills: seq<Fill>, done: seq<string>, price: int, kept: seq<Resting>,
                    q: Queued, level: seq<Queued>, o: Order, want: nat)
    requires 0 < want && q.remaining <= want && Crosses(o, price) && !SharesSmp(o.smp, q.smp)
    requires Progress(total, fills, done, kept, TagAll(price, [q] + level), o, want)
    ensures Progress(total, fills + Trade(o, Tag(price, q), q.remaining), done + [q.id], kept,
                     TagAll(price, level), o, want - q.remaining)
  {
    TagCons(price, q, level);
    TakeFirst(total, fills, done, kept, Tag(price, q), TagAll(price, level), o, want);
  }

  lemma MakerReduced(total: Match, fills: seq<Fill>, done: seq<string>, price: int, kept: seq<Resting>,
                     q: Queued, level: seq<Queued>, o: Order, want: nat)
    requires 0 < want < q.remaining && Crosses(o, price) && !SharesSmp(o.smp, q.smp)
    requires Progress(total, fills, done, kept, TagAll(price, [q] + level), o, want)
    ensures Progress(total, fills + Trade(o, Tag(price, q), want), done, kept,
                     TagAll(price, [q.(remaining := q.remaining - want)] + level), o, 0)
  {
    TagCons(price, q, level);
    TagCons(price, q.(remaining := q.remaining - want), level);
    TakeFirst(total, fills, done, kept, Tag(price, q), TagAll(price, level), o, want);
  }

  /** A level after a trade with its first order. */
  function AfterTrade(level: seq<Queued>, t: nat): seq<Queued>
    requires level != [] && t <= level[0].remaining
  {
    if level[0].remaining == t then level[1..]
    else [level[0].(remaining := level[0].remaining - t)] + level[1..]
  }

  lemma MakerTaken(total: Match, fills: seq<Fill>, done: seq<string>, price: int, kept: seq<Resting>,
                   level: seq<Queued>, o: Order, want: nat)
    requires level != [] && want > 0 && Crosses(o, price) && !SharesSmp(o.smp, level[0].smp)
    requires Progress(total, fills, done, kept, TagAll(price, level), o, want)
    ensures var m := Tag(price, level[0]);
            var t := Min(want, m.remaining);
            Progress(total, fills + Trade(o, m, t), done + Gone(m, t), kept,
                     TagAll(price, AfterTrade(level, t)), o, want - t)
  {
    hide Progress;
    hide Greedy;
    var q := level[0];
    assert level == [q] + level[1..];
    if q.remaining <= want {
      MakerUsedUp(total, fills, done, price, kept, q, level[1..], o, want);
    } else {
      MakerReduced(total, fills, done, price, kept, q, level[1..], o, want);
      assert done + [] == done;
    }
  }

  lemma TagCons(price: int, q: Queued, level: seq<Queued>)
    ensures TagAll(price, [q] + level) == [Tag(price, q)] + TagAll(price, level)
  {
  }

  lemma AllSkipped(skipped: seq<Queued>, level: seq<Queued>, smp: Option<nat>)
    requires forall q :: q in skipped ==> smp.Some? && q.smp == smp
    ensures level == [] ==> skipped + level == [] || LevelAllSameSmp(skipped + level, smp)
  {
    if level == [] && skipped != [] {
      assert skipped + level == skipped && skipped[0] in skipped;
    }
  }

  /** One level walked: what it kept goes between the parked levels and the rest of the tree. */
  lemma LevelWalked(total: Match, fills: seq<Fill>, done: seq<string>, kept: seq<Resting>, t: Levels,
                    price: int, o: Order, want: nat, g: Match)
    requires IsBest(t, Opposite(o.side), price)
    requires Progress(total, fills, done, kept, Flat(t, Opposite(o.side)), o, want)
    requires Greedy(TagAll(price, t[price]), o, want) == g
    ensures var rest := Flat(t - {price}, Opposite(o.side));
            && Progress(total, fills + g.fills, done + g.done, kept + g.book, rest, o, g.remaining)
            && (g.remaining == 0 || g.book == [] ==>
                  Progress(total, fills + g.fills, done + g.done, kept, g.book + rest, o, g.remaining))
  {
    var away := Opposite(o.side);
    FlatBestFirst(t, away, price);
    ProgressBlock(total, fills, done, kept, TagAll(price, t[price]), Flat(t - {price}, away), o, want);
    if g.book == [] {
      var rest := Flat(t - {price}, away);
      assert kept + [] == kept && [] + rest == rest;
    }
  }

  /** Parking the best level keeps parked levels better than the tree. */
  lemma ParkBest(parked: seq<Parked>, t: Levels, side: Side, price: int, level: seq<Queued>)
    requires IsBest(t, side, price) && AllBetter(ParkedTree(parked), t, side) && DistinctPrices(parked)
    ensures var parked' := parked + [Parked(price, level)];
            && DistinctPrices(parked')
            && ParkedTree(parked') == ParkedTree(parked)[price := level]
            && Flat(ParkedTree(parked'), side) == Flat(ParkedTree(parked), side) + TagAll(price, level)
            && AllBetter(ParkedTree(parked'), t - {price}, side)
  {
    hide Flat, ParkedTree;
    FlatAppendLevel(ParkedTree(parked), side, price, level);
    ParkedSnoc(parked, Parked(price, level));
    DistinctSnoc(parked, Parked(price, level));
  }

  lemma DistinctSnoc(parked: seq<Parked>, p: Parked)
    requires DistinctPrices(parked) && p.price !in ParkedTree(parked)
    ensures DistinctPrices(parked + [p])
  {
    hide ParkedTree;
    var parked' := parked + [p];
    forall i | 0 <= i < |parked'| ensures parked'[i].price !in ParkedTree(parked'[..i]) {
      assert parked'[..i] == parked[..i];
      assert parked[..|parked|] == parked;
    }
  }

  /** Writing the best level back changes only the front of the list. */
  lemma KeepBest(parked: Levels, t: Levels, side: Side, price: int, level: seq<Queued>)
    requires IsBest(t, side, price) && AllBetter(parked, t, side)
    ensures Flat(SetLevel(t, price, level), side) == TagAll(price, level) + Flat(t - {price}, side)
    ensures AllBetter(parked, SetLevel(t, price, level), side)
  {
    if level == [] {
      assert TagAll(price, level) + Flat(t - {price}, side) == Flat(t - {price}, side);
    } else {
      var t' := t[price := level];
      assert IsBest(t', side, price);
      FlatBestFirst(t', side, price);
      assert t' - {price} == t - {price};
    }
  }
}
