/** What every interleaving of the in-flight protocol keeps. */
module InFlightInvariants {
  import opened OrderIds
  import opened PendingOrders
  import opened InFlightProtocol

  // ----- What each actor leaves alone -----

  lemma WriterFrame(c: Config, s: State, a: WriterAction)
    requires WriterNext(c, s, a).Some?
    ensures var s' := WriterNext(c, s, a).value;
            && s'.now == s.now && s'.cancelled == s.cancelled
            && s'.reader == s.reader && s'.watchdog == s.watchdog
            && s'.events == s.events && s'.popped == s.popped
            && (!a.Insert? && !a.Patch? && !a.Clean? ==> s'.pending == s.pending)
            && (!a.Insert? ==> s'.offered == s.offered && s'.late == s.late)
            && (!a.Collect? ==> s'.number == s.number)
            && (!a.Queue? ==> s'.expiry == s.expiry && s'.queued == s.queued)
            && (!a.Clean? ==> s'.gone == s.gone)
            && (!a.Add? && !a.Subtract? ==> s'.gauge == s.gauge)
            && (!a.Poll? ==> s'.permit == s.permit)
  {
  }

  /** The batch in the writer's hands changes only when it collects or finishes one. */
  lemma WriterBatch(c: Config, s: State, a: WriterAction)
    requires WriterNext(c, s, a).Some? && !a.Collect? && !a.Insert?
    ensures !s.writer.Inserting? && !WriterNext(c, s, a).value.writer.Inserting?
  {
  }

  lemma ReaderFrame(s: State, a: ReaderAction)
    requires ReaderNext(s, a).Some?
    ensures var s' := ReaderNext(s, a).value;
            && s'.now == s.now && s'.cancelled == s.cancelled && s'.number == s.number
            && s'.expiry == s.expiry && s'.queued == s.queued && s'.popped == s.popped
            && s'.offered == s.offered && s'.late == s.late && s'.watchdog == s.watchdog
            && (s'.writer == s.writer || (a.NotifyAck? && s.writer == Parked(false) && s'.writer == Parked(true)))
            && (!a.Ack? ==> s'.pending == s.pending && s'.gone == s.gone)
            && (!a.SubAck? ==> s'.gauge == s.gauge)
            && (!a.NotifyAck? ==> s'.permit == s.permit)
            && (!a.EmitAck? ==> s'.events == s.events)
  {
  }

  lemma WatchdogFrame(c: Config, s: State, a: WatchdogAction)
    requires WatchdogNext(c, s, a).Some?
    ensures var s' := WatchdogNext(c, s, a).value;
            && s'.now == s.now && s'.cancelled == s.cancelled && s'.number == s.number
            && s'.queued == s.queued && s'.offered == s.offered && s'.late == s.late && s'.reader == s.reader
            && (s'.writer == s.writer || (a.NotifyEvicted? && s.writer == Parked(false) && s'.writer == Parked(true)))
            && (!a.PopDue? ==> s'.expiry == s.expiry && s'.popped == s.popped)
            && (!a.EvictDue? ==> s'.pending == s.pending && s'.gone == s.gone)
            && (!a.SubEvicted? ==> s'.gauge == s.gauge)
            && (!a.NotifyEvicted? ==> s'.permit == s.permit)
            && (!a.EmitEvicted? ==> s'.events == s.events)
  {
  }

  // ----- Numbers: every order is offered once -----

  ghost predicate Increasing(frames: seq<Frame>) {
    forall i, j :: 0 <= i < j < |frames| ==> frames[i].number < frames[j].number
  }

  ghost predicate NumbersUpTo(frames: seq<Frame>, n: nat) {
    forall f :: f in frames ==> 0 < f.number <= n && f.kind in "OMCR"
  }

  /** The batch the writer holds and has not inserted yet. */
  function Unoffered(w: Writer): seq<Frame> {
    if w.Inserting? then w.batch else []
  }

  ghost predicate Numbered(s: State) {
    && s.number < U32_LIMIT
    && Increasing(s.offered + Unoffered(s.writer))
    && NumbersUpTo(s.offered + Unoffered(s.writer), s.number)
  }

  lemma IncreasingConcat(a: seq<Frame>, b: seq<Frame>, n: nat)
    requires Increasing(a) && NumbersUpTo(a, n)
    requires Kinds(b) && forall i :: 0 <= i < |b| ==> b[i].number == n + 1 + i
    ensures Increasing(a + b) && NumbersUpTo(a + b, n + |b|)
  {
    forall f | f in a + b ensures 0 < f.number <= n + |b| && f.kind in "OMCR" {
      if f !in a {
        var i :| 0 <= i < |b| && b[i] == f;
      }
    }
    forall i, j | 0 <= i < j < |a + b| ensures (a + b)[i].number < (a + b)[j].number {
      if i < |a| {
        assert a[i] in a;
      }
    }
  }

  lemma CollectNumbered(c: Config, s: State, frames: seq<Frame>)
    requires Numbered(s) && WriterNext(c, s, Collect(frames)).Some?
    ensures Numbered(WriterNext(c, s, Collect(frames)).value)
  {
    assert s.offered + [] == s.offered;
    IncreasingConcat(s.offered, frames, s.number);
  }

  lemma InsertNumbered(c: Config, s: State)
    requires Numbered(s) && WriterNext(c, s, Insert).Some?
    ensures Numbered(WriterNext(c, s, Insert).value)
  {
    assert (s.offered + s.writer.batch) + [] == s.offered + s.writer.batch;
  }

  lemma NumberedKept(c: Config, s: State, a: Action)
    requires Numbered(s) && Next(c, s, a).Some?
    ensures Numbered(Next(c, s, a).value)
  {
    hide WriterNext;
    hide ReaderNext;
    hide WatchdogNext;
    match a {
      case Clock(_) =>
      case CancelRun =>
      case Write(w) =>
        if w.Collect? {
          CollectNumbered(c, s, w.frames);
        } else if w.Insert? {
          InsertNumbered(c, s);
        } else {
          WriterFrame(c, s, w);
          WriterBatch(c, s, w);
        }
      case Read(r) => ReaderFrame(s, r);
      case Watch(d) => WatchdogFrame(c, s, d);
    }
  }

  // ----- Exactly once: an offered order is pending, or it left once -----

  function GoneIds(gone: seq<Departure>): (ids: seq<string>)
    ensures |ids| == |gone|
    ensures forall i :: 0 <= i < |gone| ==> ids[i] == gone[i].id
  {
    seq(|gone|, i requires 0 <= i < |gone| => gone[i].id)
  }

  ghost predicate ExactlyOnce(c: Config, s: State) {
    && Distinct(BatchIds(c, s.offered))
    && Distinct(GoneIds(s.gone))
    && s.pending.Keys !! Members(GoneIds(s.gone))
    && s.pending.Keys + Members(GoneIds(s.gone)) == Members(BatchIds(c, s.offered))
  }

  /** Numbers tell ids apart. */
  lemma FreshIds(c: Config, a: seq<Frame>, b: seq<Frame>, n: nat)
    requires Increasing(a + b) && NumbersUpTo(a + b, n) && n < U32_LIMIT
    ensures Distinct(BatchIds(c, b)) && Members(BatchIds(c, a)) !! Members(BatchIds(c, b))
    ensures Distinct(BatchIds(c, a + b))
    ensures Members(BatchIds(c, a + b)) == Members(BatchIds(c, a)) + Members(BatchIds(c, b))
  {
    BatchDistinct(c, a + b, n);
    BatchConcat(c, a, b);
    DistinctSplit(BatchIds(c, a), BatchIds(c, b));
  }

  lemma BatchConcat(c: Config, a: seq<Frame>, b: seq<Frame>)
    ensures BatchIds(c, a + b) == BatchIds(c, a) + BatchIds(c, b)
  {
  }

  lemma BatchDistinct(c: Config, frames: seq<Frame>, n: nat)
    requires Increasing(frames) && NumbersUpTo(frames, n) && n < U32_LIMIT
    ensures Distinct(BatchIds(c, frames))
  {
    hide Id;
    forall i, j | 0 <= i < j < |frames| ensures Id(c, frames[i]) != Id(c, frames[j]) {
      assert frames[i] in frames && frames[j] in frames;
      IdsDiffer(c, frames[i], frames[j]);
    }
  }

  lemma DistinctSplit(a: seq<string>, b: seq<string>)
    requires Distinct(a + b)
    ensures Distinct(a) && Distinct(b) && Members(a) !! Members(b)
    ensures Members(a + b) == Members(a) + Members(b)
  {
    forall i | 0 <= i < |a| ensures (a + b)[i] == a[i] {}
    forall j | 0 <= j < |b| ensures (a + b)[|a| + j] == b[j] {}
    forall i, j | 0 <= i < |a| && 0 <= j < |b| ensures a[i] != b[j] {
      assert (a + b)[i] != (a + b)[|a| + j];
    }
  }

  lemma DistinctJoin(a: seq<string>, b: seq<string>)
    requires Distinct(a) && Distinct(b) && Members(a) !! Members(b)
    ensures Distinct(a + b) && Members(a + b) == Members(a) + Members(b)
  {
    forall i, j | 0 <= i < |a| && 0 <= j < |b| ensures a[i] != b[j] {
      assert a[i] in Members(a) && b[j] in Members(b);
    }
  }

  lemma IdsDiffer(c: Config, f: Frame, g: Frame)
    requires f.number < U32_LIMIT && g.number < U32_LIMIT && f.number != g.number
    requires f.kind in "OMCR" && g.kind in "OMCR"
    ensures Id(c, f) != Id(c, g)
  {
    if Id(c, f) == Id(c, g) {
      JoinInjective(c.session, c.task, f.number, f.kind, g.number, g.kind);
    }
  }

  lemma GoneConcat(gone: seq<Departure>, ids: seq<string>, cause: Cause)
    ensures GoneIds(gone + Departures(ids, cause)) == GoneIds(gone) + ids
  {
  }

  /** Orders that leave the map and are logged keep the account. */
  lemma Depart(c: Config, s: State, s': State, ids: seq<string>, cause: Cause)
    requires ExactlyOnce(c, s) && s'.offered == s.offered
    requires Distinct(ids) && Members(ids) <= s.pending.Keys
    requires s'.pending.Keys == s.pending.Keys - Members(ids)
    requires s'.gone == s.gone + Departures(ids, cause)
    ensures ExactlyOnce(c, s')
  {
    GoneConcat(s.gone, ids, cause);
    DistinctJoin(GoneIds(s.gone), ids);
    hide Distinct;
    hide BatchIds;
    hide GoneIds;
  }

  /** The batch in hand repeats no id, its own or an earlier one. */
  lemma FreshBatch(c: Config, s: State)
    requires Numbered(s) && s.writer.Inserting?
    ensures var ids, before := BatchIds(c, s.writer.batch), BatchIds(c, s.offered);
            && Distinct(ids) && Members(before) !! Members(ids)
            && Distinct(BatchIds(c, s.offered + s.writer.batch))
            && Members(BatchIds(c, s.offered + s.writer.batch)) == Members(before) + Members(ids)
  {
    hide Increasing;
    hide NumbersUpTo;
    FreshIds(c, s.offered, s.writer.batch, s.number);
  }

  /** What an insertion does to the map: fresh, distinct keys. */
  lemma InsertIds(c: Config, s: State)
    requires ExactlyOnce(c, s) && Numbered(s) && WriterNext(c, s, Insert).Some?
    ensures var ids, s' := BatchIds(c, s.writer.batch), WriterNext(c, s, Insert).value;
            && Members(ids) !! s.pending.Keys
            && s'.pending.Keys == s.pending.Keys + Members(ids)
            && |s'.pending| == |s.pending| + |s.writer.batch|
            && s'.offered == s.offered + s.writer.batch
  {
    var ids := BatchIds(c, s.writer.batch);
    FreshBatch(c, s);
    hide Numbered;
    InsertGrows(s.pending, ids, s.writer.startTs, Members(BatchIds(c, s.offered)));
    hide Distinct;
    hide Members;
    hide InsertAll;
    hide ExactlyOnce;
  }

  lemma InsertGrows(m: PendingMap, ids: seq<string>, ts: nat, used: set<string>)
    requires Distinct(ids) && Members(ids) !! used && m.Keys <= used
    ensures Members(ids) !! m.Keys
    ensures InsertAll(m, ids, ts).Keys == m.Keys + Members(ids)
    ensures |InsertAll(m, ids, ts)| == |m| + |ids|
  {
    InsertAllKeys(m, ids, ts);
    InsertAllCounts(m, ids, ts);
  }

  lemma InsertOnce(c: Config, s: State)
    requires ExactlyOnce(c, s) && Numbered(s) && WriterNext(c, s, Insert).Some?
    ensures ExactlyOnce(c, WriterNext(c, s, Insert).value)
  {
    var s' := WriterNext(c, s, Insert).value;
    var ids := BatchIds(c, s.writer.batch);
    InsertIds(c, s);
    FreshBatch(c, s);
    WriterFrame(c, s, Insert);
    hide WriterNext;
    hide Numbered;
    hide Distinct;
    hide Members;
    Unions(s.pending.Keys, Members(GoneIds(s.gone)), Members(BatchIds(c, s.offered)), Members(ids));
  }

  lemma Unions(pending: set<string>, gone: set<string>, offered: set<string>, added: set<string>)
    requires pending !! gone && pending + gone == offered && added !! offered
    ensures (pending + added) !! gone && (pending + added) + gone == offered + added
  {
  }

  /** What a cleanup after a failed write takes out of the map. */
  lemma CleanIds(c: Config, s: State) returns (ids: seq<string>)
    requires WriterNext(c, s, Clean).Some?
    ensures var s' := WriterNext(c, s, Clean).value;
            && Distinct(ids) && Members(ids) <= s.pending.Keys
            && s'.pending.Keys == s.pending.Keys - Members(ids)
            && |s'.pending| + |ids| == |s.pending|
            && s'.gone == s.gone + Departures(ids, WriteFailed)
            && s'.writer == Subtracting(|ids|)
  {
    hide Taken, Distinct, Members;
    ids := Taken(s.pending, BatchIds(c, s.writer.batch));
    TakenCounts(s.pending, BatchIds(c, s.writer.batch));
    TakenMembers(s.pending, BatchIds(c, s.writer.batch));
  }

  lemma CleanOnce(c: Config, s: State)
    requires ExactlyOnce(c, s) && WriterNext(c, s, Clean).Some?
    ensures ExactlyOnce(c, WriterNext(c, s, Clean).value)
  {
    var ids := CleanIds(c, s);
    WriterFrame(c, s, Clean);
    hide WriterNext;
    Depart(c, s, WriterNext(c, s, Clean).value, ids, WriteFailed);
  }

  lemma AckOnce(c: Config, s: State, id: string)
    requires ExactlyOnce(c, s) && ReaderNext(s, Ack(id)).Some?
    ensures ExactlyOnce(c, ReaderNext(s, Ack(id)).value)
  {
    if id in s.pending {
      assert Departures([id], Acked) == [Departure(id, Acked)];
      assert Members([id]) == {id};
      Depart(c, s, ReaderNext(s, Ack(id)).value, [id], Acked);
    }
  }

  /** The ids an eviction takes: distinct, pending, and all of them on the last tick. */
  lemma EvictIds(c: Config, s: State, swept: seq<string>) returns (ids: seq<string>)
    requires WatchdogNext(c, s, EvictDue(swept)).Some?
    ensures var s' := WatchdogNext(c, s, EvictDue(swept)).value;
            && Distinct(ids) && Members(ids) <= s.pending.Keys
            && s'.pending.Keys == s.pending.Keys - Members(ids)
            && |s'.pending| + |ids| == |s.pending|
            && s'.gone == s.gone + Departures(ids, TimedOut)
            && s'.watchdog.EvictSub? && |s'.watchdog.evicted| == |ids|
            && (forall i :: 0 <= i < |ids| ==> s'.watchdog.evicted[i] == Event(ids[i], true, s.pending[ids[i]].sendTs))
            && (s.watchdog.last ==> s'.pending == map[])
            && (!s.watchdog.last ==> Members(ids) == s.pending.Keys * Members(EntryIds(c, s.watchdog.due)))
  {
    var d := s.watchdog;
    var due := EntryIds(c, d.due);
    var taken := Taken(s.pending, due);
    TakenCounts(s.pending, due);
    TakenMembers(s.pending, due);
    EvictedIn(s.pending, due, swept, d.last);
    ids := if d.last then taken + swept else taken;
    if d.last {
      DistinctJoin(taken, swept);
      DistinctSize(swept);
    }
    hide Taken;
    hide Distinct;
  }

  lemma EvictOnce(c: Config, s: State, swept: seq<string>)
    requires ExactlyOnce(c, s) && WatchdogNext(c, s, EvictDue(swept)).Some?
    ensures ExactlyOnce(c, WatchdogNext(c, s, EvictDue(swept)).value)
  {
    var ids := EvictIds(c, s, swept);
    WatchdogFrame(c, s, EvictDue(swept));
    hide WatchdogNext;
    Depart(c, s, WatchdogNext(c, s, EvictDue(swept)).value, ids, TimedOut);
  }

  lemma PatchKeys(m: PendingMap, ids: seq<string>, ts: nat)
    ensures Patched(m, ids, ts).Keys == m.Keys && |Patched(m, ids, ts)| == |m|
  {
    assert |Patched(m, ids, ts)| == |Patched(m, ids, ts).Keys|;
  }

  lemma ExactlyOnceKept(c: Config, s: State, a: Action)
    requires ExactlyOnce(c, s) && Numbered(s) && Next(c, s, a).Some?
    ensures ExactlyOnce(c, Next(c, s, a).value)
  {
    hide WriterNext;
    hide ReaderNext;
    hide WatchdogNext;
    match a {
      case Clock(_) =>
      case CancelRun =>
      case Write(w) =>
        WriterFrame(c, s, w);
        if w.Insert? {
          InsertOnce(c, s);
        } else if w.Clean? {
          CleanOnce(c, s);
        } else if w.Patch? {
          PatchOnce(c, s);
        }
      case Read(r) =>
        ReaderFrame(s, r);
        if r.Ack? {
          AckOnce(c, s, r.id);
        }
      case Watch(d) =>
        WatchdogFrame(c, s, d);
        if d.EvictDue? {
          EvictOnce(c, s, d.swept);
        }
    }
  }

  lemma PatchOnce(c: Config, s: State)
    requires ExactlyOnce(c, s) && WriterNext(c, s, Patch).Some?
    ensures ExactlyOnce(c, WriterNext(c, s, Patch).value)
  {
    PatchKeys(s.pending, BatchIds(c, s.writer.batch), s.writer.sendTs);
    hide Patched;
  }
}
