/** A price-level map (price to FIFO queue) and the priority list it stands for. */
module LevelTree {
  import opened Basics
  import opened Wrappers
  import opened PriceTimeBook

  /** A queued order; its price is the key of the level that holds it. */
  datatype Queued = Queued(id: string, remaining: nat, smp: Option<nat>, stamp: nat)

  type Levels = map<int, seq<Queued>>

  function Tag(price: int, q: Queued): Resting {
    Resting(q.id, price, q.remaining, q.smp, q.stamp)
  }

  function TagAll(price: int, level: seq<Queued>): (list: seq<Resting>)
    ensures |list| == |level|
    ensures forall i :: 0 <= i < |level| ==> list[i] == Tag(price, level[i])
  {
    seq(|level|, i requires 0 <= i < |level| => Tag(price, level[i]))
  }

  /** The queue at a price; an absent level is an empty queue. */
  function At(t: Levels, price: int): seq<Queued> {
    if price in t then t[price] else []
  }

  predicate IsBest(t: Levels, side: Side, p: int) {
    p in t && forall q :: q in t ==> Rank(side, p) <= Rank(side, q)
  }

  lemma {:induction false} BestExists(t: Levels, side: Side)
    requires t.Keys != {}
    ensures exists p :: IsBest(t, side, p)
    decreases |t|
  {
    var k := SomeMember(t.Keys);
    var rest := t - {k};
    if rest.Keys == {} {
      assert t.Keys == {k} + rest.Keys;
      assert IsBest(t, side, k);
    } else {
      assert rest.Keys == t.Keys - {k};
      BestExists(rest, side);
      var p :| IsBest(rest, side, p);
      var best := if Rank(side, k) < Rank(side, p) then k else p;
      assert IsBest(t, side, best) by {
        forall q | q in t ensures Rank(side, best) <= Rank(side, q) {
          if q != k { assert q in rest; }
        }
      }
    }
  }

  ghost function Best(t: Levels, side: Side): (p: int)
    requires t.Keys != {}
    ensures IsBest(t, side, p)
  {
    BestExists(t, side);
    var p :| IsBest(t, side, p);
    p
  }

  /** The priority list: levels from best to worst, each in queue order. */
  ghost function Flat(t: Levels, side: Side): seq<Resting>
    decreases |t|
  {
    if t.Keys == {} then []
    else
      var p := Best(t, side);
      assert (t - {p}).Keys == t.Keys - {p};
      TagAll(p, t[p]) + Flat(t - {p}, side)
  }

  /** The levels strictly better than a price. */
  ghost function Above(t: Levels, side: Side, p: int): Levels {
    map q | q in t && Rank(side, q) < Rank(side, p) :: t[q]
  }

  /** The levels strictly worse than a price. */
  ghost function Below(t: Levels, side: Side, p: int): Levels {
    map q | q in t && Rank(side, p) < Rank(side, q) :: t[q]
  }

  /** Every order of the list sits in the level of its price, and the other way round. */
  lemma {:induction false} FlatMembers(t: Levels, side: Side, e: Resting)
    ensures e in Flat(t, side) <==>
            e.price in t && Queued(e.id, e.remaining, e.smp, e.stamp) in t[e.price]
    decreases |t|
  {
    if t.Keys != {} {
      var p := Best(t, side);
      var rest := t - {p};
      assert rest.Keys == t.Keys - {p};
      FlatMembers(rest, side, e);
      if e.price == p {
        var q := Queued(e.id, e.remaining, e.smp, e.stamp);
        if q in t[p] {
          var i :| 0 <= i < |t[p]| && t[p][i] == q;
          assert TagAll(p, t[p])[i] == e;
        }
        if e in TagAll(p, t[p]) {
          var i :| 0 <= i < |t[p]| && TagAll(p, t[p])[i] == e;
          assert t[p][i] == q;
        }
      }
    }
  }

  /** Cutting the map at any price cuts the list at the same place. */
  lemma {:induction false} FlatSplit(t: Levels, side: Side, p: int)
    ensures Flat(t, side)
            == Flat(Above(t, side, p), side) + TagAll(p, At(t, p)) + Flat(Below(t, side, p), side)
    decreases |t|
  {
    if t.Keys == {} {
      assert Above(t, side, p) == map[] && Below(t, side, p) == map[];
    } else {
      var b := Best(t, side);
      var rest := t - {b};
      assert rest.Keys == t.Keys - {b};
      if Rank(side, p) < Rank(side, b) {
        assert Above(t, side, p) == map[] && Below(t, side, p) == t;
      } else if p == b {
        assert Above(t, side, p) == map[] && Below(t, side, p) == rest;
      } else {
        hide Flat;
        FlatSplit(rest, side, p);
        CutBelowBest(t, side, b, p);
        FlatBestFirst(t, side, b);
        FlatBestFirst(Above(t, side, p), side, b);
        ConcatAssoc(TagAll(b, t[b]), Flat(Above(rest, side, p), side), TagAll(p, At(t, p)));
        ConcatAssoc(TagAll(b, t[b]), Flat(Above(rest, side, p), side) + TagAll(p, At(t, p)),
                    Flat(Below(t, side, p), side));
      }
    }
  }

  lemma CutBelowBest(t: Levels, side: Side, b: int, p: int)
    requires IsBest(t, side, b) && p != b && Rank(side, b) <= Rank(side, p)
    ensures IsBest(Above(t, side, p), side, b) && Above(t, side, p)[b] == t[b]
    ensures Above(t, side, p) - {b} == Above(t - {b}, side, p)
    ensures Below(t, side, p) == Below(t - {b}, side, p)
    ensures At(t, p) == At(t - {b}, p)
  {
  }

  lemma FlatBestFirst(t: Levels, side: Side, b: int)
    requires IsBest(t, side, b)
    ensures Flat(t, side) == TagAll(b, t[b]) + Flat(t - {b}, side)
  {
    assert t.Keys != {};
    assert Best(t, side) == b;
  }

  /** Changing one level changes only its own stretch of the list. */
  lemma FlatUpdate(t: Levels, side: Side, p: int, level: seq<Queued>)
    ensures Flat(t[p := level], side)
            == Flat(Above(t, side, p), side) + TagAll(p, level) + Flat(Below(t, side, p), side)
  {
    FlatSplit(t[p := level], side, p);
    assert Above(t[p := level], side, p) == Above(t, side, p);
    assert Below(t[p := level], side, p) == Below(t, side, p);
  }

  lemma FlatDelete(t: Levels, side: Side, p: int)
    ensures Flat(t - {p}, side)
            == Flat(Above(t, side, p), side) + Flat(Below(t, side, p), side)
  {
    CutDeleted(t, side, p);
    FlatSplit(t - {p}, side, p);
    hide Flat;
    assert TagAll(p, []) == [];
  }

  lemma CutDeleted(t: Levels, side: Side, p: int)
    ensures Above(t - {p}, side, p) == Above(t, side, p)
    ensures Below(t - {p}, side, p) == Below(t, side, p)
    ensures At(t - {p}, p) == []
  {
  }

  lemma FlatAboveRanks(t: Levels, side: Side, p: int)
    ensures forall e :: e in Flat(Above(t, side, p), side) ==> Rank(side, e.price) < Rank(side, p)
  {
    forall e | e in Flat(Above(t, side, p), side) ensures Rank(side, e.price) < Rank(side, p) {
      FlatMembers(Above(t, side, p), side, e);
    }
  }

  lemma FlatBelowRanks(t: Levels, side: Side, p: int)
    ensures forall e :: e in Flat(Below(t, side, p), side) ==> Rank(side, p) < Rank(side, e.price)
  {
    forall e | e in Flat(Below(t, side, p), side) ensures Rank(side, p) < Rank(side, e.price) {
      FlatMembers(Below(t, side, p), side, e);
    }
  }

  /** Queueing at the back of a level is inserting into the priority list. */
  lemma FlatEnqueue(t: Levels, side: Side, p: int, q: Queued)
    ensures Flat(t[p := At(t, p) + [q]], side) == InsertSorted(Flat(t, side), side, Tag(p, q))
  {
    var a, l, b := Flat(Above(t, side, p), side), TagAll(p, At(t, p)), Flat(Below(t, side, p), side);
    FlatUpdate(t, side, p, At(t, p) + [q]);
    FlatSplit(t, side, p);
    FlatAboveRanks(t, side, p);
    FlatBelowRanks(t, side, p);
    InsertSortedSplit(a + l, b, side, Tag(p, q));
    assert TagAll(p, At(t, p) + [q]) == l + [Tag(p, q)];
    ConcatAssoc(a, l, [Tag(p, q)]);
  }

  /** The position of an id inside a level, or the length of the level. */
  function Position(level: seq<Queued>, id: string): (i: nat)
    ensures i <= |level|
    ensures i < |level| ==> level[i].id == id
    ensures forall j :: 0 <= j < i ==> level[j].id != id
  {
    if level == [] || level[0].id == id then 0 else 1 + Position(level[1..], id)
  }

  /** Looking an id up in its level finds it at the same place of the priority list. */
  lemma FlatFind(t: Levels, side: Side, p: int, id: string)
    ensures var i := Position(At(t, p), id);
            var a := |Flat(Above(t, side, p), side)|;
            var j := Find(Flat(t, side), id, p);
            j == if i < |At(t, p)| then a + i else |Flat(t, side)|
  {
    FlatSplit(t, side, p);
    FlatAboveRanks(t, side, p);
    FlatBelowRanks(t, side, p);
    FindInMiddle(Flat(Above(t, side, p), side), At(t, p), Flat(Below(t, side, p), side), p, id);
  }

  lemma FindInMiddle(a: seq<Resting>, level: seq<Queued>, b: seq<Resting>, p: int, id: string)
    requires forall e :: e in a || e in b ==> e.price != p
    ensures var i := Position(level, id);
            var list := a + TagAll(p, level) + b;
            Find(list, id, p) == if i < |level| then |a| + i else |list|
  {
    var l := TagAll(p, level);
    var i, j := Position(level, id), Find(a + l + b, id, p);
    var list := a + l + b;
    forall k | 0 <= k < |a| ensures list[k].price != p {
      assert list[k] == a[k] && a[k] in a;
    }
    forall k | |a| + |l| <= k < |list| ensures list[k].price != p {
      assert list[k] == b[k - |a| - |l|] && b[k - |a| - |l|] in b;
    }
    if j < |list| {
      assert list[j] == l[j - |a|];
    }
    if i < |l| {
      assert list[|a| + i] == l[i];
    }
  }

  /** The levels as the engine stores them: a level goes away with its last order. */
  ghost predicate NoEmptyLevel(t: Levels) {
    forall p :: p in t ==> t[p] != []
  }

  function SetLevel(t: Levels, p: int, level: seq<Queued>): Levels {
    if level == [] then t - {p} else t[p := level]
  }

  lemma FlatSetLevel(t: Levels, side: Side, p: int, level: seq<Queued>)
    ensures Flat(SetLevel(t, p, level), side)
            == Flat(Above(t, side, p), side) + TagAll(p, level) + Flat(Below(t, side, p), side)
  {
    if level == [] {
      FlatDelete(t, side, p);
    } else {
      FlatUpdate(t, side, p, level);
    }
  }

  lemma TagAllConcat(price: int, a: seq<Queued>, b: seq<Queued>)
    ensures TagAll(price, a + b) == TagAll(price, a) + TagAll(price, b)
  {
  }

  ghost predicate AllBetter(p: Levels, t: Levels, side: Side) {
    forall a, b :: a in p && b in t ==> Rank(side, a) < Rank(side, b)
  }

  /** Two maps whose prices do not interleave flatten one after the other. */
  lemma {:induction false} FlatMerge(p: Levels, t: Levels, side: Side)
    requires AllBetter(p, t, side)
    ensures Flat(p + t, side) == Flat(p, side) + Flat(t, side)
    decreases |p|
  {
    hide Flat, AllBetter;
    if p.Keys == {} {
      assert p + t == t && p == map[];
      FlatEmpty(side);
      assert [] + Flat(t, side) == Flat(t, side);
    } else {
      var b := Best(p, side);
      assert (p - {b}).Keys == p.Keys - {b};
      MergeBest(p, t, side, b);
      FlatMerge(p - {b}, t, side);
      MergeStep(p, t, side, b);
    }
  }

  lemma MergeStep(p: Levels, t: Levels, side: Side, b: int)
    requires AllBetter(p, t, side) && IsBest(p, side, b)
    requires Flat((p - {b}) + t, side) == Flat(p - {b}, side) + Flat(t, side)
    ensures Flat(p + t, side) == Flat(p, side) + Flat(t, side)
  {
    MergeBest(p, t, side, b);
    FlatBestFirst(p, side, b);
    FlatBestFirst(p + t, side, b);
    hide Flat;
    ConcatAssoc(TagAll(b, p[b]), Flat(p - {b}, side), Flat(t, side));
  }

  lemma MergeBest(p: Levels, t: Levels, side: Side, b: int)
    requires AllBetter(p, t, side) && IsBest(p, side, b)
    ensures IsBest(p + t, side, b) && (p + t)[b] == p[b]
    ensures (p + t) - {b} == (p - {b}) + t
    ensures AllBetter(p - {b}, t, side)
  {
    assert b !in t;
  }

  /** A level worse than all others flattens to the end of the list. */
  lemma FlatAppendLevel(p: Levels, side: Side, price: int, level: seq<Queued>)
    requires AllBetter(p, map[price := level], side)
    ensures Flat(p[price := level], side) == Flat(p, side) + TagAll(price, level)
  {
    FlatUpdate(p, side, price, level);
    assert Above(p, side, price) == p by {
      assert forall a :: a in p ==> Rank(side, a) < Rank(side, price);
    }
    assert Below(p, side, price) == map[] by {
      assert forall a :: a in p ==> Rank(side, a) < Rank(side, price);
    }
  }

  /** A level without its first order of this id. */
  function DropId(level: seq<Queued>, id: string): seq<Queued> {
    var i := Position(level, id);
    if i < |level| then level[..i] + level[i + 1..] else level
  }

  /** Taking an id out of its level takes it out of the list. */
  lemma FlatRemove(t: Levels, side: Side, p: int, id: string)
    ensures Flat(SetLevel(t, p, DropId(At(t, p), id)), side) == Without(Flat(t, side), id, p)
  {
    FlatSplit(t, side, p);
    FlatSetLevel(t, side, p, DropId(At(t, p), id));
    FlatAboveRanks(t, side, p);
    FlatBelowRanks(t, side, p);
    hide Flat;
    RemoveInMiddle(Flat(Above(t, side, p), side), At(t, p), Flat(Below(t, side, p), side), p, id);
  }

  lemma RemoveInMiddle(a: seq<Resting>, level: seq<Queued>, b: seq<Resting>, p: int, id: string)
    requires forall e :: e in a || e in b ==> e.price != p
    ensures Without(a + TagAll(p, level) + b, id, p) == a + TagAll(p, DropId(level, id)) + b
  {
    hide Find, Position, TagAll;
    FindInMiddle(a, level, b, p, id);
    var i, l := Position(level, id), TagAll(p, level);
    if i < |level| {
      CutMiddle(a, l, b, i);
      TagCut(p, level, i);
      assert Without(a + l + b, id, p) == (a + l + b)[..|a| + i] + (a + l + b)[|a| + i + 1..];
    } else {
      assert DropId(level, id) == level;
    }
  }

  lemma TagCut(p: int, level: seq<Queued>, i: nat)
    requires i < |level|
    ensures TagAll(p, level[..i] + level[i + 1..]) == TagAll(p, level)[..i] + TagAll(p, level)[i + 1..]
  {
  }

  lemma CutMiddle<T>(a: seq<T>, l: seq<T>, b: seq<T>, i: nat)
    requires i < |l|
    ensures var list := a + l + b;
            list[..|a| + i] + list[|a| + i + 1..] == a + (l[..i] + l[i + 1..]) + b
  {
  }

  /** Rewriting an order in its level rewrites it in the list. */
  lemma FlatAmend(t: Levels, side: Side, p: int, i: nat, q: Queued)
    requires i < |At(t, p)|
    ensures var j := |Flat(Above(t, side, p), side)| + i;
            && j < |Flat(t, side)| && Flat(t, side)[j] == Tag(p, At(t, p)[i])
            && Flat(t[p := At(t, p)[i := q]], side) == Flat(t, side)[j := Tag(p, q)]
  {
    FlatSplit(t, side, p);
    FlatUpdate(t, side, p, At(t, p)[i := q]);
    hide Flat;
    hide At;
    var l := TagAll(p, At(t, p));
    AmendMiddle(Flat(Above(t, side, p), side), l, Flat(Below(t, side, p), side), i, Tag(p, q));
    assert TagAll(p, At(t, p)[i := q]) == l[i := Tag(p, q)];
  }

  lemma AmendMiddle<T>(a: seq<T>, l: seq<T>, b: seq<T>, i: nat, x: T)
    requires i < |l|
    ensures (a + l + b)[|a| + i] == l[i]
    ensures (a + l + b)[|a| + i := x] == a + l[i := x] + b
  {
  }

  lemma FlatEmpty(side: Side)
    ensures Flat(map[], side) == []
  {
  }

  lemma BestSplits(t: Levels, side: Side, p: int)
    requires IsBest(t, side, p)
    ensures Above(t, side, p) == map[] && Below(t, side, p) == t - {p}
  {
    assert Above(t, side, p) == map[];
    assert Below(t, side, p) == t - {p};
  }

  /** Rewriting the best level rewrites the front of the list. */
  lemma FlatSetBest(t: Levels, side: Side, p: int, level: seq<Queued>)
    requires IsBest(t, side, p)
    ensures Flat(t, side) == TagAll(p, t[p]) + Flat(t - {p}, side)
    ensures Flat(SetLevel(t, p, level), side) == TagAll(p, level) + Flat(t - {p}, side)
  {
    hide Flat;
    FlatBestFirst(t, side, p);
    FlatSetLevel(t, side, p, level);
    BestSplits(t, side, p);
    hide Above, Below, IsBest;
    FlatEmpty(side);
    assert [] + TagAll(p, level) == TagAll(p, level);
  }

  /** An id is found in the list exactly when it is in its level. */
  lemma FlatHas(t: Levels, side: Side, p: int, id: string)
    ensures Find(Flat(t, side), id, p) < |Flat(t, side)| <==> Position(At(t, p), id) < |At(t, p)|
  {
    FlatFind(t, side, p, id);
    FlatSplit(t, side, p);
  }

  /** Arrival numbers differ from place to place. */
  ghost predicate StampsApart(t: Levels) {
    forall p, i, q, j :: p in t && q in t && 0 <= i < |t[p]| && 0 <= j < |t[q]| && t[p][i].stamp == t[q][j].stamp ==>
      p == q && i == j
  }

  ghost predicate DistinctStamps(list: seq<Resting>) {
    forall i, j :: 0 <= i < j < |list| ==> list[i].stamp != list[j].stamp
  }

  lemma {:induction false} FlatStamps(t: Levels, side: Side)
    requires StampsApart(t)
    ensures DistinctStamps(Flat(t, side))
    decreases |t|
  {
    if t.Keys != {} {
      var p := Best(t, side);
      var rest := t - {p};
      assert rest.Keys == t.Keys - {p};
      FlatStamps(rest, side);
      forall a, b | a in TagAll(p, t[p]) && b in Flat(rest, side) ensures a.stamp != b.stamp {
        FlatMembers(rest, side, b);
        var i :| 0 <= i < |t[p]| && TagAll(p, t[p])[i] == a;
        var j :| 0 <= j < |rest[b.price]| && rest[b.price][j] == Queued(b.id, b.remaining, b.smp, b.stamp);
        assert t[p][i].stamp == a.stamp && t[b.price][j].stamp == b.stamp;
      }
      JoinStamps(TagAll(p, t[p]), Flat(rest, side));
    }
  }

  lemma JoinStamps(a: seq<Resting>, b: seq<Resting>)
    requires DistinctStamps(a) && DistinctStamps(b) && forall x, y :: x in a && y in b ==> x.stamp != y.stamp
    ensures DistinctStamps(a + b)
  {
    forall i, j | 0 <= i < j < |a + b| ensures (a + b)[i].stamp != (a + b)[j].stamp {
      if i < |a| <= j {
        assert a[i] in a && b[j - |a|] in b;
      }
    }
  }
}
