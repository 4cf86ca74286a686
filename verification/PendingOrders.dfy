/** The pending map and the expiry queue of one task, and the loops that empty them. */
module PendingOrders {

  /** What the map remembers of an order awaiting its ack. */
  datatype Pending = Pending(sendTs: nat)

  type PendingMap = map<string, Pending>

  /** One compact record of the timeout queue. */
  datatype Expiry = Expiry(deadline: nat, number: nat, kind: char)

  /** Inserts a batch under one lock. */
  function InsertAll(m: PendingMap, ids: seq<string>, ts: nat): PendingMap {
    if ids == [] then m else InsertAll(m, ids[..|ids| - 1], ts)[ids[|ids| - 1] := Pending(ts)]
  }

  /** The ids of a list that are still in the map, each taken once. */
  function Taken(m: PendingMap, ids: seq<string>): seq<string> {
    if ids == [] then []
    else
      var before := ids[..|ids| - 1];
      var id := ids[|ids| - 1];
      Taken(m, before) + if id in m && id !in before then [id] else []
  }

  function Members(ids: seq<string>): set<string> {
    set id | id in ids
  }

  /** Removes each id that is still present and counts the removals. */
  method RemoveBatch(m: PendingMap, ids: seq<string>) returns (left: PendingMap, removed: nat)
    ensures left == m - Members(ids)
    ensures removed == |Taken(m, ids)|
  {
    left, removed := m, 0;
    for i := 0 to |ids|
      invariant left == m - Members(ids[..i])
      invariant removed == |Taken(m, ids[..i])|
    {
      assert ids[..i + 1][..i] == ids[..i];
      assert Members(ids[..i + 1]) == Members(ids[..i]) + {ids[i]};
      if ids[i] in left {
        left := left - {ids[i]};
        removed := removed + 1;
      }
    }
    assert ids[..|ids|] == ids;
  }

  predicate Due(e: Expiry, now: nat, lastTick: bool) {
    lastTick || e.deadline <= now
  }

  /** How many entries at the front of the queue are due. */
  function DueCount(queue: seq<Expiry>, now: nat, lastTick: bool): (n: nat)
    ensures n <= |queue|
    ensures forall i :: 0 <= i < n ==> Due(queue[i], now, lastTick)
    ensures n < |queue| ==> !Due(queue[n], now, lastTick)
  {
    if queue == [] || !Due(queue[0], now, lastTick) then 0 else 1 + DueCount(queue[1..], now, lastTick)
  }

  /** Pops due entries off the front, in order. */
  method PopDueExpirations(queue: seq<Expiry>, now: nat, lastTick: bool)
    returns (due: seq<Expiry>, rest: seq<Expiry>)
    ensures due == queue[..DueCount(queue, now, lastTick)] && rest == queue[DueCount(queue, now, lastTick)..]
  {
    due, rest := [], queue;
    while rest != [] && (lastTick || rest[0].deadline <= now)
      invariant |due| <= |queue| && due == queue[..|due|] && rest == queue[|due|..]
      invariant |due| + DueCount(rest, now, lastTick) == DueCount(queue, now, lastTick)
    {
      assert queue[..|due| + 1] == queue[..|due|] + [queue[|due|]];
      due, rest := due + [rest[0]], rest[1..];
    }
  }

  ghost predicate DeadlineOrdered(queue: seq<Expiry>) {
    forall i, j :: 0 <= i < j < |queue| ==> queue[i].deadline <= queue[j].deadline
  }

  /** On an ordered queue, popping the front finds every due entry: it is a full scan. */
  lemma PopIsScan(queue: seq<Expiry>, now: nat, lastTick: bool)
    requires DeadlineOrdered(queue)
    ensures forall i :: 0 <= i < |queue| ==>
              (i < DueCount(queue, now, lastTick) <==> Due(queue[i], now, lastTick))
  {
    var n := DueCount(queue, now, lastTick);
    forall i | n <= i < |queue| ensures !Due(queue[i], now, lastTick) {
      assert queue[n].deadline <= queue[i].deadline;
    }
  }

  // ----- Counting keys -----

  lemma {:induction false} InsertAllKeys(m: PendingMap, ids: seq<string>, ts: nat)
    ensures InsertAll(m, ids, ts).Keys == m.Keys + Members(ids)
  {
    if ids != [] {
      var n := |ids| - 1;
      InsertAllKeys(m, ids[..n], ts);
      assert ids == ids[..n] + [ids[n]];
      assert Members(ids) == Members(ids[..n]) + {ids[n]};
    }
  }

  ghost predicate Distinct(ids: seq<string>) {
    forall i, j :: 0 <= i < j < |ids| ==> ids[i] != ids[j]
  }

  lemma {:induction false} DistinctSize(ids: seq<string>)
    requires Distinct(ids)
    ensures |Members(ids)| == |ids|
  {
    if ids != [] {
      var n := |ids| - 1;
      DistinctSize(ids[..n]);
      assert ids == ids[..n] + [ids[n]];
      assert Members(ids) == Members(ids[..n]) + {ids[n]};
      assert ids[n] !in Members(ids[..n]);
    }
  }

  /** Inserting fresh distinct ids grows the map by their number. */
  lemma InsertAllCounts(m: PendingMap, ids: seq<string>, ts: nat)
    requires Distinct(ids) && Members(ids) !! m.Keys
    ensures |InsertAll(m, ids, ts)| == |m| + |ids|
  {
    InsertAllKeys(m, ids, ts);
    DistinctSize(ids);
    assert |InsertAll(m, ids, ts)| == |InsertAll(m, ids, ts).Keys|;
  }

  lemma {:induction false} TakenMembers(m: PendingMap, ids: seq<string>)
    ensures forall id :: id in Taken(m, ids) <==> id in ids && id in m
    ensures Distinct(Taken(m, ids))
  {
    if ids != [] {
      var n := |ids| - 1;
      TakenMembers(m, ids[..n]);
      assert ids == ids[..n] + [ids[n]];
    }
  }

  /** What is taken and what is left split the keys. */
  lemma TakenCounts(m: PendingMap, ids: seq<string>)
    ensures Members(Taken(m, ids)) == m.Keys * Members(ids)
    ensures (m - Members(ids)).Keys == m.Keys - Members(ids)
    ensures |m - Members(ids)| + |Taken(m, ids)| == |m|
  {
    hide Taken, Distinct;
    TakenMembers(m, ids);
    DistinctSize(Taken(m, ids));
    KeysSplit(m, Members(ids));
    assert Members(Taken(m, ids)) == m.Keys * Members(ids);
  }

  lemma KeysSplit(m: PendingMap, gone: set<string>)
    ensures (m - gone).Keys == m.Keys - gone
    ensures |m - gone| + |m.Keys * gone| == |m|
  {
    assert (m.Keys * gone) + (m.Keys - gone) == m.Keys;
    assert |m - gone| == |(m - gone).Keys|;
  }
}
