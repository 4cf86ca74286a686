/** Admission of workloads: one per partition, a global cap, and a slot of its own for each. */
module Admission {
  import opened Decimals

  datatype Reject = PartitionBusy | AtCapacity

  datatype Verdict = Admitted(slot: nat) | Refused(reason: Reject)

  type Reserved = map<int, nat>

  /** A slot is free when no reserved partition holds it. */
  ghost predicate Free(m: Reserved, slot: nat) {
    slot !in m.Values
  }

  ghost predicate LowestFree(m: Reserved, slot: nat) {
    Free(m, slot) && forall s :: 0 <= s < slot ==> !Free(m, s)
  }

  /** Busy is reported before full; otherwise the lowest free slot below the cap is taken. */
  ghost predicate Admits(m: Reserved, p: int, cap: nat, v: Verdict, m': Reserved) {
    match v
    case Refused(PartitionBusy) => p in m && m' == m
    case Refused(AtCapacity) => p !in m && |m| >= cap && m' == m
    case Admitted(slot) => p !in m && |m| < cap && slot < cap && LowestFree(m, slot) && m' == m[p := slot]
  }

  /** Busy exactly when the partition is reserved, whatever the cap; full exactly when it is not and the cap is
      reached; otherwise the lowest slot that nobody holds, below the cap. */
  lemma AdmitsMeans(m: Reserved, p: int, cap: nat, v: Verdict, m': Reserved)
    requires Admits(m, p, cap, v, m')
    ensures v == Refused(PartitionBusy) <==> p in m
    ensures v == Refused(AtCapacity) <==> p !in m && |m| >= cap
    ensures v.Admitted? ==>
              && v.slot < cap && v.slot !in m.Values && (forall s: nat :: s < v.slot ==> s in m.Values)
              && m' == m[p := v.slot]
    ensures v.Refused? ==> m' == m
  {
    if v.Admitted? {
      forall s: nat | s < v.slot ensures s in m.Values {
        assert !Free(m, s);
      }
    }
  }

  /** How a workload task ended: with its partition, or by a panic that carries only its id. */
  datatype Joined = Finished(id: nat, partition: int) | Panicked(id: nat)

  class InFlight {
    var partitions: Reserved

    constructor ()
      ensures partitions == map[]
    {
      partitions := map[];
    }

    method TryAdmit(partition: int, cap: nat) returns (v: Verdict)
      modifies this
      ensures Admits(old(partitions), partition, cap, v, partitions)
    {
      if partition in partitions {
        return Refused(PartitionBusy);
      }
      if |partitions| >= cap {
        return Refused(AtCapacity);
      }
      var used := partitions.Values;
      var slot := 0;
      while slot < cap && slot in used
        invariant slot <= cap
        invariant forall s :: 0 <= s < slot ==> s in used
      {
        slot := slot + 1;
      }
      if slot == cap {
        TooManySlots(partitions, cap);
        return Refused(AtCapacity);
      }
      partitions := partitions[partition := slot];
      return Admitted(slot);
    }

    method Finish(partition: int)
      modifies this
      ensures partitions == old(partitions) - {partition}
    {
      partitions := partitions - {partition};
    }
  }

  /** Records a joined task; a panicked one is found through the side table. */
  method CompleteWorkload(inFlight: InFlight, owner: map<nat, int>, joined: Joined) returns (left: map<nat, int>)
    modifies inFlight
    ensures (inFlight.partitions, left) == Complete(old(inFlight.partitions), owner, joined)
  {
    left := owner - {joined.id};
    match joined {
      case Finished(id, partition) => inFlight.Finish(partition);
      case Panicked(id) =>
        if id in owner {
          inFlight.Finish(owner[id]);
        }
    }
  }

  function Complete(m: Reserved, owner: map<nat, int>, joined: Joined): (Reserved, map<nat, int>) {
    match joined
    case Finished(id, partition) => (m - {partition}, owner - {id})
    case Panicked(id) => (if id in owner then m - {owner[id]} else m, owner - {id})
  }

  // ----- The free-slot search cannot fail under the cap -----

  ghost predicate OneToOne<K(!new)>(m: map<K, int>) {
    forall a, b :: a in m && b in m && a != b ==> m[a] != m[b]
  }

  /** A map has at most as many values as keys, and as many when it is one to one. */
  lemma {:induction false} CountValues<K(!new)>(m: map<K, int>)
    ensures |m.Values| <= |m|
    ensures OneToOne(m) ==> |m.Values| == |m|
    decreases |m|
  {
    if m.Keys != {} {
      var k :| k in m;
      var rest := m - {k};
      CountValues(rest);
      forall v | v in m.Values ensures v in rest.Values + {m[k]} {
        var p :| p in m && m[p] == v;
        assert p == k || (p in rest && rest[p] == v);
      }
      assert m.Values == rest.Values + {m[k]};
      assert OneToOne(m) ==> OneToOne(rest) && m[k] !in rest.Values;
      assert m.Keys == rest.Keys + {k};
    } else {
      assert m.Values == {};
    }
  }

  lemma {:induction false} Segment(used: set<nat>, n: nat)
    requires forall s :: 0 <= s < n ==> s in used
    ensures |used| >= n
  {
    if n > 0 {
      var rest := used - {n - 1};
      Segment(rest, n - 1);
      assert used == rest + {n - 1};
    }
  }

  /** Fewer reservations than slots leave a slot free, whatever the slots are. */
  lemma TooManySlots(m: Reserved, cap: nat)
    requires forall s :: 0 <= s < cap ==> s in m.Values
    ensures |m| >= cap
  {
    CountValues(m);
    Segment(m.Values, cap);
  }

  // ----- Every sequence of admissions, completions and panics -----

  /** The reservations, the side table, and the unjoined tasks with the partitions they serve. */
  datatype Worker = Worker(reserved: Reserved, owner: map<nat, int>, running: map<nat, int>)

  const IDLE := Worker(map[], map[], map[])

  datatype Event =
    | Receive(partition: int, id: nat, v: Verdict)
    | Join(joined: Joined)

  /** One turn of the worker loop. A spec is received only below the cap, a live task's id is its own. */
  ghost predicate Turn(w: Worker, cap: nat, e: Event, w': Worker) {
    match e
    case Receive(p, id, v) =>
      && |w.reserved| < cap && id !in w.running
      && Admits(w.reserved, p, cap, v, w'.reserved)
      && w'.owner == (if v.Admitted? then w.owner[id := p] else w.owner)
      && w'.running == (if v.Admitted? then w.running[id := p] else w.running)
    case Join(joined) =>
      && joined.id in w.running
      && (joined.Finished? ==> joined.partition == w.running[joined.id])
      && (w'.reserved, w'.owner) == Complete(w.reserved, w.owner, joined)
      && w'.running == w.running - {joined.id}
  }

  /** The reserved partitions are those of the unjoined tasks, one each, in distinct slots below the cap. */
  ghost predicate Held(w: Worker, cap: nat) {
    && w.owner == w.running
    && w.reserved.Keys == w.running.Values
    && OneToOne(w.running) && OneToOne(w.reserved)
    && (forall p :: p in w.reserved ==> w.reserved[p] < cap)
  }

  lemma ReceiveKept(w: Worker, cap: nat, p: int, id: nat, slot: nat)
    requires Held(w, cap) && p !in w.reserved && id !in w.running && slot < cap && Free(w.reserved, slot)
    ensures Held(Worker(w.reserved[p := slot], w.owner[id := p], w.running[id := p]), cap)
  {
    var running := w.running[id := p];
    forall q | q in w.running.Values + {p} ensures q in running.Values {
      if q == p {
        assert running[id] == p;
      } else {
        var a :| a in w.running && w.running[a] == q;
        assert running[a] == q;
      }
    }
    forall q | q in running.Values ensures q in w.running.Values + {p} {
      var a :| a in running && running[a] == q;
    }
    assert running.Values == w.reserved.Keys + {p};
    assert w.reserved[p := slot].Keys == w.reserved.Keys + {p};
  }

  lemma JoinKept(w: Worker, cap: nat, id: nat)
    requires Held(w, cap) && id in w.running
    ensures Held(Worker(w.reserved - {w.running[id]}, w.owner - {id}, w.running - {id}), cap)
  {
    var running, p := w.running - {id}, w.running[id];
    forall q | q in w.running.Values && q != p ensures q in running.Values {
      var a :| a in w.running && w.running[a] == q;
      assert a in running && running[a] == q;
    }
    forall q | q in running.Values ensures q in w.running.Values && q != p {
      var a :| a in running && running[a] == q;
      assert w.running[a] == q;
    }
    assert running.Values == (w.reserved - {p}).Keys;
  }

  lemma TurnKept(w: Worker, cap: nat, e: Event, w': Worker)
    requires Held(w, cap) && Turn(w, cap, e, w')
    ensures Held(w', cap)
  {
    match e {
      case Receive(p, id, v) =>
        if v.Admitted? {
          ReceiveKept(w, cap, p, id, v.slot);
        }
      case Join(joined) => JoinKept(w, cap, joined.id);
    }
  }

  ghost predicate Run(ws: seq<Worker>, es: seq<Event>, cap: nat) {
    && |ws| == |es| + 1 && ws[0] == IDLE
    && (forall i :: 0 <= i < |es| ==> Turn(ws[i], cap, es[i], ws[i + 1]))
  }

  /** Every state a worker reaches keeps the reservations exact, also after panics. */
  lemma {:induction false} RunHeld(ws: seq<Worker>, es: seq<Event>, cap: nat, i: nat)
    requires Run(ws, es, cap) && i < |ws|
    ensures Held(ws[i], cap)
  {
    if i == 0 {
      assert IDLE.running.Values == {};
    } else {
      RunHeld(ws, es, cap, i - 1);
      TurnKept(ws[i - 1], cap, es[i - 1], ws[i]);
    }
  }

  /** The number of live tasks is the number of reservations and never exceeds the cap. */
  lemma HeldCount(w: Worker, cap: nat)
    requires Held(w, cap)
    ensures |w.running| == |w.reserved| <= cap
  {
    CountValues(w.running);
    CountValues(w.reserved);
    assert |w.reserved| == |w.reserved.Keys|;
    forall s | s in w.reserved.Values ensures 0 <= s < cap {
      var p := KeyOf(w.reserved, s);
    }
    Below(w.reserved.Values, cap);
  }

  lemma KeyOf<K, V>(m: map<K, V>, v: V) returns (k: K)
    requires v in m.Values
    ensures k in m && m[k] == v
  {
    k :| k in m && m[k] == v;
  }

  lemma {:induction false} Below(s: set<int>, n: nat)
    requires forall x :: x in s ==> 0 <= x < n
    ensures |s| <= n
  {
    if n == 0 {
      forall x ensures x !in s {}
      assert s == {};
    } else {
      var rest := s - {n - 1};
      Below(rest, n - 1);
      assert s <= rest + {n - 1};
    }
  }

  /** A received spec is refused exactly when an unjoined task serves its partition. */
  lemma RefusedIff(w: Worker, cap: nat, p: int, id: nat, v: Verdict, w': Worker)
    requires Held(w, cap) && Turn(w, cap, Receive(p, id, v), w')
    ensures v.Refused? <==> exists a :: a in w.running && w.running[a] == p
  {
    assert p in w.reserved <==> p in w.running.Values;
  }

  /** Once every task is joined, by finishing or by panicking, nothing stays reserved. */
  lemma DrainedEmpty(ws: seq<Worker>, es: seq<Event>, cap: nat, i: nat)
    requires Run(ws, es, cap) && i < |ws| && ws[i].running == map[]
    ensures ws[i] == IDLE
  {
    RunHeld(ws, es, cap, i);
    var w := ws[i];
    assert w.running.Values == {};
    assert w.reserved == map[];
  }

  function BarrierGroup(group: string, worker: string, slot: nat): string {
    group + "-barrier-" + worker + "-slot" + Dec(slot)
  }

  /** Workloads that run at the same time listen in different barrier groups. */
  lemma BarrierGroupsApart(ws: seq<Worker>, es: seq<Event>, cap: nat, i: nat, p: int, q: int, group: string,
      worker: string)
    requires Run(ws, es, cap) && i < |ws|
    requires p in ws[i].reserved && q in ws[i].reserved && p != q
    ensures BarrierGroup(group, worker, ws[i].reserved[p]) != BarrierGroup(group, worker, ws[i].reserved[q])
  {
    RunHeld(ws, es, cap, i);
    SlotNamesApart(group + "-barrier-" + worker + "-slot", ws[i].reserved[p], ws[i].reserved[q]);
  }

  lemma SlotNamesApart(lead: string, a: nat, b: nat)
    requires a != b
    ensures lead + Dec(a) != lead + Dec(b)
  {
    if Dec(a) == Dec(b) {
      DecInjective(a, b);
    }
    assert (lead + Dec(a))[|lead|..] == Dec(a) && (lead + Dec(b))[|lead|..] == Dec(b);
  }

  lemma LastDigits(a: string, m: nat, b: string, n: nat)
    requires a != [] && b != [] && !IsDigit(a[|a| - 1]) && !IsDigit(b[|b| - 1]) && a + Dec(m) == b + Dec(n)
    ensures a == b && m == n
  {
    hide Dec;
    var s := a + Dec(m);
    assert s[|a| - 1] == a[|a| - 1] && s[|b| - 1] == b[|b| - 1];
    forall k | |a| <= k < |s| ensures IsDigit(s[k]) {
      assert s[k] == Dec(m)[k - |a|];
    }
    forall k | |b| <= k < |s| ensures IsDigit(s[k]) {
      assert s[k] == Dec(n)[k - |b|];
    }
    assert a == s[..|a|] && b == s[..|b|];
    assert Dec(m) == s[|a|..] && Dec(n) == s[|b|..];
    DecInjective(m, n);
  }

  /** Different workers, or different slots of one, never listen in the same barrier group. */
  lemma BarrierGroupInjective(group: string, worker: string, slot: nat, worker': string, slot': nat)
    requires BarrierGroup(group, worker, slot) == BarrierGroup(group, worker', slot')
    ensures worker == worker' && slot == slot'
  {
    hide Dec;
    var lead := group + "-barrier-";
    var a, b := lead + worker + "-slot", lead + worker' + "-slot";
    assert a[|a| - 1] == 't' && b[|b| - 1] == 't';
    LastDigits(a, slot, b, slot');
    assert worker == a[|lead|..|a| - 5] && worker' == b[|lead|..|b| - 5];
  }
}
