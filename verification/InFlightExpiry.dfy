/** The expiry queue over every interleaving: popping its front is a scan of the whole map. */
module InFlightExpiry {
  import opened OrderIds
  import opened PendingOrders
  import opened InFlightProtocol
  import opened InFlightInvariants

  // ----- The records of a batch -----

  /** One record per frame, in order. */
  function Records(batch: seq<Frame>, sendTs: nat): (es: seq<Expiry>)
    ensures |es| == |batch|
    ensures forall i :: 0 <= i < |batch| ==> es[i] == Expiry(Deadline(sendTs), batch[i].number, batch[i].kind)
  {
    seq(|batch|, i requires 0 <= i < |batch| => Expiry(Deadline(sendTs), batch[i].number, batch[i].kind))
  }

  lemma {:induction false} EntriesAreRecords(c: Config, batch: seq<Frame>, sendTs: nat, n: nat)
    requires NumbersUpTo(batch, n) && n < U32_LIMIT
    ensures Entries(c, batch, sendTs) == Records(batch, sendTs)
  {
    if batch != [] {
      var before, f := batch[..|batch| - 1], batch[|batch| - 1];
      assert f in batch;
      EntriesAreRecords(c, before, sendTs, n);
      SplitJoin(c.session, c.task, f.number, f.kind);
    }
  }

  function FramesOf(es: seq<Expiry>): (fs: seq<Frame>)
    ensures |fs| == |es|
    ensures forall i :: 0 <= i < |es| ==> fs[i] == Frame(es[i].number, es[i].kind)
  {
    seq(|es|, i requires 0 <= i < |es| => Frame(es[i].number, es[i].kind))
  }

  lemma FramesOfRecords(es: seq<Expiry>, batch: seq<Frame>, sendTs: nat)
    ensures FramesOf(es + Records(batch, sendTs)) == FramesOf(es) + batch
  {
  }

  // ----- Order of the queue -----

  /** The batch in the writer's hands with no records yet. */
  function Unqueued(w: Writer): seq<Frame> {
    if w.Inserting? || w.Adding? || w.Writing? || w.Patching? || w.Queueing? then w.batch else []
  }

  /** The time the next records will carry, at the earliest. */
  function Mark(s: State): nat {
    if s.writer.Patching? || s.writer.Queueing? then s.writer.sendTs else s.now
  }

  /** Records are pushed in the order of their numbers. */
  ghost predicate InOrder(s: State) {
    && s.number < U32_LIMIT
    && Increasing(FramesOf(s.queued) + Unqueued(s.writer))
    && NumbersUpTo(FramesOf(s.queued) + Unqueued(s.writer), s.number)
  }

  ghost predicate DueBy(queue: seq<Expiry>, t: nat) {
    forall e :: e in queue ==> e.deadline <= t
  }

  /** Records are pushed in the order of their deadlines. */
  ghost predicate Stamped(s: State) {
    && Mark(s) <= s.now
    && DueBy(s.queued, Deadline(Mark(s)))
    && DeadlineOrdered(s.queued)
  }

  lemma IncreasingPrefix(a: seq<Frame>, b: seq<Frame>, n: nat)
    requires Increasing(a + b) && NumbersUpTo(a + b, n)
    ensures Increasing(a) && NumbersUpTo(a, n) && NumbersUpTo(b, n)
  {
    assert forall i :: 0 <= i < |a| ==> (a + b)[i] == a[i];
    forall f | f in a ensures f in a + b {}
    forall f | f in b ensures f in a + b {}
  }

  lemma CollectInOrder(c: Config, s: State, frames: seq<Frame>)
    requires InOrder(s) && WriterNext(c, s, Collect(frames)).Some?
    ensures InOrder(WriterNext(c, s, Collect(frames)).value)
  {
    assert FramesOf(s.queued) + [] == FramesOf(s.queued);
    IncreasingConcat(FramesOf(s.queued), frames, s.number);
  }

  /** What queueing does, once every id of the batch splits back. */
  lemma QueueRecords(c: Config, s: State)
    requires InOrder(s) && WriterNext(c, s, Queue).Some?
    ensures var s' := WriterNext(c, s, Queue).value;
            var new' := Records(s.writer.batch, s.writer.sendTs);
            s'.queued == s.queued + new' && s'.expiry == s.expiry + new' && s'.writer == Top
  {
    hide Increasing, NumbersUpTo, Entries, Records, FramesOf;
    assert Unqueued(s.writer) == s.writer.batch;
    IncreasingOf(FramesOf(s.queued), s.writer.batch, s.number);
    EntriesAreRecords(c, s.writer.batch, s.writer.sendTs, s.number);
  }

  lemma IncreasingOf(a: seq<Frame>, b: seq<Frame>, n: nat)
    requires NumbersUpTo(a + b, n)
    ensures NumbersUpTo(b, n)
  {
    forall f | f in b ensures f in a + b {}
  }

  lemma QueueInOrder(c: Config, s: State)
    requires InOrder(s) && WriterNext(c, s, Queue).Some?
    ensures InOrder(WriterNext(c, s, Queue).value)
  {
    QueueRecords(c, s);
    WriterFrame(c, s, Queue);
    QueueFrom(c, s);
    hide WriterNext;
    FramesOfRecords(s.queued, s.writer.batch, s.writer.sendTs);
    hide Increasing;
    hide NumbersUpTo;
    var all := FramesOf(s.queued) + s.writer.batch;
    assert all + [] == all;
  }

  lemma QueueFrom(c: Config, s: State)
    requires WriterNext(c, s, Queue).Some?
    ensures s.writer.Queueing?
  {
  }

  /** A writer on its way out: its last batch, if any, gets no records. */
  predicate Leaving(w: Writer) {
    w.Cleaning? || w.Subtracting? || w.WriterDone?
  }

  /** Outside collecting and queueing the batch in hand is kept, or dropped on the way out. */
  lemma UnqueuedKept(c: Config, s: State, a: WriterAction)
    requires WriterNext(c, s, a).Some? && !a.Collect? && !a.Queue?
    ensures var s' := WriterNext(c, s, a).value;
            || Unqueued(s'.writer) == Unqueued(s.writer)
            || (Unqueued(s'.writer) == [] && Leaving(s'.writer))
  {
  }

  lemma WriterInOrder(c: Config, s: State, a: WriterAction)
    requires InOrder(s) && WriterNext(c, s, a).Some?
    ensures InOrder(WriterNext(c, s, a).value)
  {
    hide WriterNext;
    if a.Collect? {
      CollectInOrder(c, s, a.frames);
    } else if a.Queue? {
      QueueInOrder(c, s);
    } else {
      WriterFrame(c, s, a);
      UnqueuedKept(c, s, a);
      IncreasingPrefix(FramesOf(s.queued), Unqueued(s.writer), s.number);
      assert FramesOf(s.queued) + [] == FramesOf(s.queued);
    }
  }

  lemma InOrderKept(c: Config, s: State, a: Action)
    requires InOrder(s) && Next(c, s, a).Some?
    ensures InOrder(Next(c, s, a).value)
  {
    hide WriterNext;
    hide ReaderNext;
    hide WatchdogNext;
    match a {
      case Clock(_) =>
      case CancelRun =>
      case Write(w) => WriterInOrder(c, s, w);
      case Read(r) => ReaderFrame(s, r);
      case Watch(d) => WatchdogFrame(c, s, d);
    }
  }

  // ----- Deadlines -----

  lemma DueLater(queue: seq<Expiry>, t: nat, t': nat)
    requires DueBy(queue, Deadline(t)) && t <= t'
    ensures DueBy(queue, Deadline(t'))
  {
  }

  lemma StampAppend(queue: seq<Expiry>, batch: seq<Frame>, t: nat)
    requires DueBy(queue, Deadline(t)) && DeadlineOrdered(queue)
    ensures DueBy(queue + Records(batch, t), Deadline(t)) && DeadlineOrdered(queue + Records(batch, t))
  {
    var all := queue + Records(batch, t);
    forall i, j | 0 <= i < j < |all| ensures all[i].deadline <= all[j].deadline {
      if i < |queue| <= j {
        assert queue[i] in queue;
      }
    }
  }

  /** The mark never moves back. */
  lemma MarkAdvances(c: Config, s: State, a: WriterAction)
    requires Mark(s) <= s.now && WriterNext(c, s, a).Some?
    ensures var s' := WriterNext(c, s, a).value; Mark(s) <= Mark(s') <= s.now
  {
  }

  lemma WriterStamped(c: Config, s: State, a: WriterAction)
    requires InOrder(s) && Stamped(s) && WriterNext(c, s, a).Some?
    ensures Stamped(WriterNext(c, s, a).value)
  {
    hide WriterNext;
    var s' := WriterNext(c, s, a).value;
    WriterFrame(c, s, a);
    MarkAdvances(c, s, a);
    if a.Queue? {
      QueueRecords(c, s);
      QueueFrom(c, s);
      hide InOrder;
      StampAppend(s.queued, s.writer.batch, s.writer.sendTs);
    }
    DueLater(s'.queued, Mark(s), Mark(s'));
  }

  lemma StampedKept(c: Config, s: State, a: Action)
    requires InOrder(s) && Stamped(s) && Next(c, s, a).Some?
    ensures Stamped(Next(c, s, a).value)
  {
    hide WriterNext;
    hide ReaderNext;
    hide WatchdogNext;
    hide InOrder;
    match a {
      case Clock(_) => DueLater(s.queued, Mark(s), Mark(Next(c, s, a).value));
      case CancelRun =>
      case Write(w) => WriterStamped(c, s, w);
      case Read(r) => ReaderFrame(s, r);
      case Watch(d) => WatchdogFrame(c, s, d);
    }
  }

  // ----- Where the watchdog stands in the queue -----

  /** Records whose orders the watchdog has dealt with. */
  function Settled(s: State): int {
    if s.watchdog.Evict? then s.popped - |s.watchdog.due| else s.popped
  }

  /** The queue is what was pushed and not popped; an eviction in progress holds every due
      record of the queue it looked at. */
  ghost predicate Positioned(s: State) {
    && s.popped <= |s.queued|
    && s.expiry == s.queued[s.popped..]
    && 0 <= Settled(s)
    && (s.watchdog.Evict? ==>
          var d := s.watchdog;
          && d.due == s.queued[Settled(s)..s.popped]
          && s.popped <= d.known <= |s.queued|
          && (forall i :: Settled(s) <= i < s.popped ==> Due(s.queued[i], d.at, d.last))
          && (forall i :: s.popped <= i < d.known ==> !Due(s.queued[i], d.at, d.last)))
  }

  /** Popping splits the rest of an ordered history at the first record not due. */
  lemma PopSplits(queued: seq<Expiry>, popped: nat, at: nat, last: bool)
    requires popped <= |queued| && DeadlineOrdered(queued)
    ensures var n := DueCount(queued[popped..], at, last);
            && popped + n <= |queued|
            && (forall i :: popped <= i < popped + n ==> Due(queued[i], at, last))
            && (forall i :: popped + n <= i < |queued| ==> !Due(queued[i], at, last))
  {
    var queue := queued[popped..];
    assert forall i :: popped <= i < |queued| ==> queued[i] == queue[i - popped];
    forall i, j | 0 <= i < j < |queue| ensures queue[i].deadline <= queue[j].deadline {
      assert queue[i] == queued[popped + i] && queue[j] == queued[popped + j];
    }
    PopIsScan(queue, at, last);
    hide DueCount;
    hide Due;
  }

  lemma PopPositioned(c: Config, s: State)
    requires Positioned(s) && Stamped(s) && WatchdogNext(c, s, PopDue).Some?
    ensures Positioned(WatchdogNext(c, s, PopDue).value)
  {
    hide DueCount;
    hide Due;
    hide DeadlineOrdered;
    hide DueBy;
    PopSplits(s.queued, s.popped, s.watchdog.at, s.watchdog.last);
    Slices(s.queued, s.popped, DueCount(s.expiry, s.watchdog.at, s.watchdog.last));
  }

  lemma Slices(q: seq<Expiry>, m: nat, n: nat)
    requires m + n <= |q|
    ensures q[m..][n..] == q[m + n..] && q[m..][..n] == q[m..m + n]
  {
  }

  lemma WatchdogStays(c: Config, s: State, a: WatchdogAction)
    requires WatchdogNext(c, s, a).Some? && !a.PopDue?
    ensures !WatchdogNext(c, s, a).value.watchdog.Evict?
    ensures s.watchdog.Evict? <==> a.EvictDue?
  {
    hide Taken;
    hide Enumerates;
  }

  lemma WatchdogPositioned(c: Config, s: State, a: WatchdogAction)
    requires Positioned(s) && Stamped(s) && WatchdogNext(c, s, a).Some?
    ensures Positioned(WatchdogNext(c, s, a).value)
  {
    hide WatchdogNext;
    hide Due;
    if a.PopDue? {
      PopPositioned(c, s);
    } else {
      WatchdogFrame(c, s, a);
      WatchdogStays(c, s, a);
    }
  }

  lemma WriterPositioned(c: Config, s: State, a: WriterAction)
    requires InOrder(s) && Positioned(s) && WriterNext(c, s, a).Some?
    ensures Positioned(WriterNext(c, s, a).value)
  {
    hide WriterNext;
    hide Due;
    WriterFrame(c, s, a);
    if a.Queue? {
      QueueRecords(c, s);
      QueueFrom(c, s);
      hide InOrder;
    }
  }

  lemma PositionedKept(c: Config, s: State, a: Action)
    requires InOrder(s) && Stamped(s) && Positioned(s) && Next(c, s, a).Some?
    ensures Positioned(Next(c, s, a).value)
  {
    hide WriterNext;
    hide ReaderNext;
    hide WatchdogNext;
    hide InOrder;
    hide Stamped;
    hide Due;
    match a {
      case Clock(_) =>
      case CancelRun =>
      case Write(w) => WriterPositioned(c, s, w);
      case Read(r) => ReaderFrame(s, r);
      case Watch(d) => WatchdogPositioned(c, s, d);
    }
  }

  // ----- Records and the orders they stand for -----

  /** A settled record's order has left the map; any other record carries its order's deadline. */
  ghost predicate Tracks(c: Config, s: State) {
    && Settled(s) <= |s.queued|
    && (forall i :: 0 <= i < Settled(s) ==> EntryId(c, s.queued[i]) !in s.pending)
    && (forall i :: 0 <= i < |s.queued| && EntryId(c, s.queued[i]) in s.pending ==>
          s.queued[i].deadline == Deadline(s.pending[EntryId(c, s.queued[i])].sendTs))
    && (s.writer.Queueing? ==>
          forall id :: id in BatchIds(c, s.writer.batch) && id in s.pending ==>
            s.pending[id].sendTs == s.writer.sendTs)
  }

  /** No record stands for an order still in the writer's hands. */
  lemma QueuedApart(c: Config, s: State, i: nat)
    requires InOrder(s) && i < |s.queued|
    ensures EntryId(c, s.queued[i]) !in BatchIds(c, Unqueued(s.writer))
  {
    var fs, batch := FramesOf(s.queued), Unqueued(s.writer);
    var ids := BatchIds(c, batch);
    var all := fs + batch;
    forall j | 0 <= j < |ids| ensures ids[j] != EntryId(c, s.queued[i]) {
      assert all[i] == fs[i] && all[|fs| + j] == batch[j];
      assert all[i] in all && all[|fs| + j] in all;
      IdsDiffer(c, fs[i], batch[j]);
    }
  }

  ghost predicate Submap(a: PendingMap, b: PendingMap) {
    forall id :: id in a ==> id in b && a[id] == b[id]
  }

  /** Removing orders keeps the records in step. */
  lemma TracksShrunk(c: Config, s: State, s': State)
    requires Tracks(c, s) && Submap(s'.pending, s.pending)
    requires s'.queued == s.queued && Settled(s') == Settled(s)
    requires s'.writer == s.writer || !s'.writer.Queueing?
    ensures Tracks(c, s')
  {
    hide EntryId;
    hide Deadline;
  }

  lemma {:induction false} InsertAllAt(m: PendingMap, ids: seq<string>, ts: nat, id: string)
    requires id !in ids
    ensures id in InsertAll(m, ids, ts) <==> id in m
    ensures id in m ==> InsertAll(m, ids, ts)[id] == m[id]
  {
    if ids != [] {
      assert ids == ids[..|ids| - 1] + [ids[|ids| - 1]];
      InsertAllAt(m, ids[..|ids| - 1], ts, id);
    }
  }

  /** The map is changed only at ids that no record stands for. */
  ghost predicate Apart(c: Config, queued: seq<Expiry>, m: PendingMap, m': PendingMap) {
    forall i {:trigger EntryId(c, queued[i])} :: 0 <= i < |queued| ==>
      var id := EntryId(c, queued[i]);
      (id in m' <==> id in m) && (id in m ==> m'[id] == m[id])
  }

  lemma InsertApart(c: Config, s: State)
    requires InOrder(s) && WriterNext(c, s, Insert).Some?
    ensures Apart(c, s.queued, s.pending, WriterNext(c, s, Insert).value.pending)
  {
    var ids := BatchIds(c, s.writer.batch);
    forall i | 0 <= i < |s.queued| ensures EntryId(c, s.queued[i]) !in ids {
      QueuedApart(c, s, i);
    }
    hide InOrder;
    forall i | 0 <= i < |s.queued|
      ensures var id := EntryId(c, s.queued[i]);
              var m' := InsertAll(s.pending, ids, s.writer.startTs);
              (id in m' <==> id in s.pending) && (id in s.pending ==> m'[id] == s.pending[id])
    {
      InsertAllAt(s.pending, ids, s.writer.startTs, EntryId(c, s.queued[i]));
    }
    hide InsertAll;
  }

  lemma PatchApart(c: Config, s: State)
    requires InOrder(s) && WriterNext(c, s, Patch).Some?
    ensures var s' := WriterNext(c, s, Patch).value;
            && Apart(c, s.queued, s.pending, s'.pending)
            && s'.writer == Queueing(s.writer.batch, s.writer.sendTs)
            && (forall id :: id in BatchIds(c, s.writer.batch) && id in s'.pending ==>
                  s'.pending[id].sendTs == s.writer.sendTs)
  {
    forall i | 0 <= i < |s.queued| ensures EntryId(c, s.queued[i]) !in BatchIds(c, s.writer.batch) {
      QueuedApart(c, s, i);
    }
    hide InOrder;
  }

  lemma TracksApart(c: Config, s: State, s': State)
    requires Tracks(c, s) && Apart(c, s.queued, s.pending, s'.pending)
    requires s'.queued == s.queued && Settled(s') == Settled(s)
    requires s'.writer.Queueing? ==>
               forall id :: id in BatchIds(c, s'.writer.batch) && id in s'.pending ==>
                 s'.pending[id].sendTs == s'.writer.sendTs
    ensures Tracks(c, s')
  {
    hide EntryId;
    hide Deadline;
  }

  /** New records carry the deadline of the send time just patched in. */
  lemma RecordsTrack(c: Config, queued: seq<Expiry>, m: PendingMap, batch: seq<Frame>, ts: nat, i: nat)
    requires i < |queued + Records(batch, ts)| && EntryId(c, (queued + Records(batch, ts))[i]) in m
    requires i < |queued| ==> queued[i].deadline == Deadline(m[EntryId(c, queued[i])].sendTs)
    requires forall id :: id in BatchIds(c, batch) && id in m ==> m[id].sendTs == ts
    ensures var e := (queued + Records(batch, ts))[i]; e.deadline == Deadline(m[EntryId(c, e)].sendTs)
  {
    if i >= |queued| {
      assert EntryId(c, (queued + Records(batch, ts))[i]) == BatchIds(c, batch)[i - |queued|];
    }
  }

  lemma QueueTracks(c: Config, s: State)
    requires InOrder(s) && Tracks(c, s) && WriterNext(c, s, Queue).Some?
    ensures Tracks(c, WriterNext(c, s, Queue).value)
  {
    var s' := WriterNext(c, s, Queue).value;
    QueueRecords(c, s);
    QueueFrom(c, s);
    WriterFrame(c, s, Queue);
    hide InOrder;
    hide WriterNext;
    hide EntryId;
    hide Deadline;
    forall i | 0 <= i < |s'.queued| && EntryId(c, s'.queued[i]) in s'.pending
      ensures s'.queued[i].deadline == Deadline(s'.pending[EntryId(c, s'.queued[i])].sendTs)
    {
      RecordsTrack(c, s.queued, s.pending, s.writer.batch, s.writer.sendTs, i);
    }
    hide Records;
  }

  lemma CleanShrinks(c: Config, s: State)
    requires WriterNext(c, s, Clean).Some?
    ensures Submap(WriterNext(c, s, Clean).value.pending, s.pending)
    ensures !WriterNext(c, s, Clean).value.writer.Queueing?
  {
  }

  lemma WriterQueueing(c: Config, s: State, a: WriterAction)
    requires WriterNext(c, s, a).Some? && !a.Patch?
    ensures !WriterNext(c, s, a).value.writer.Queueing?
  {
  }

  lemma WriterTracks(c: Config, s: State, a: WriterAction)
    requires InOrder(s) && Tracks(c, s) && WriterNext(c, s, a).Some?
    ensures Tracks(c, WriterNext(c, s, a).value)
  {
    hide WriterNext;
    hide Tracks;
    var s' := WriterNext(c, s, a).value;
    WriterFrame(c, s, a);
    if a.Queue? {
      QueueTracks(c, s);
    } else if a.Patch? {
      PatchApart(c, s);
      TracksApart(c, s, s');
    } else {
      WriterQueueing(c, s, a);
      if a.Insert? {
        InsertApart(c, s);
        TracksApart(c, s, s');
      } else {
        if a.Clean? {
          CleanShrinks(c, s);
        }
        TracksShrunk(c, s, s');
      }
    }
  }

  lemma ReaderTracks(c: Config, s: State, a: ReaderAction)
    requires Tracks(c, s) && ReaderNext(s, a).Some?
    ensures Tracks(c, ReaderNext(s, a).value)
  {
    var s' := ReaderNext(s, a).value;
    ReaderFrame(s, a);
    assert Submap(s'.pending, s.pending);
    hide ReaderNext;
    hide Tracks;
    TracksShrunk(c, s, s');
  }

  /** An eviction settles the records it holds. */
  lemma EvictTracks(c: Config, s: State, swept: seq<string>)
    requires Positioned(s) && Tracks(c, s) && WatchdogNext(c, s, EvictDue(swept)).Some?
    ensures Tracks(c, WatchdogNext(c, s, EvictDue(swept)).value)
  {
    var s' := WatchdogNext(c, s, EvictDue(swept)).value;
    var due := EntryIds(c, s.watchdog.due);
    EvictLeaves(c, s, swept);
    WatchdogFrame(c, s, EvictDue(swept));
    WatchdogStays(c, s, EvictDue(swept));
    hide WatchdogNext;
    hide EntryId;
    hide Deadline;
    forall i | 0 <= i < s.popped ensures EntryId(c, s.queued[i]) !in s'.pending {
      if i >= Settled(s) {
        assert s.queued[i] == s.watchdog.due[i - Settled(s)];
        assert due[i - Settled(s)] in Members(due);
      }
    }
  }

  lemma EvictLeaves(c: Config, s: State, swept: seq<string>)
    requires WatchdogNext(c, s, EvictDue(swept)).Some?
    ensures var s' := WatchdogNext(c, s, EvictDue(swept)).value;
            && Submap(s'.pending, s.pending)
            && (forall id :: id in Members(EntryIds(c, s.watchdog.due)) ==> id !in s'.pending)
  {
    hide Taken;
    hide Enumerates;
  }

  lemma PopSettled(c: Config, s: State)
    requires WatchdogNext(c, s, PopDue).Some?
    ensures Settled(WatchdogNext(c, s, PopDue).value) == Settled(s)
  {
  }

  lemma WatchdogTracks(c: Config, s: State, a: WatchdogAction)
    requires Positioned(s) && Tracks(c, s) && WatchdogNext(c, s, a).Some?
    ensures Tracks(c, WatchdogNext(c, s, a).value)
  {
    hide WatchdogNext;
    hide Tracks;
    hide Positioned;
    if a.EvictDue? {
      EvictTracks(c, s, a.swept);
    } else {
      WatchdogFrame(c, s, a);
      if a.PopDue? {
        PopSettled(c, s);
      } else {
        WatchdogStays(c, s, a);
      }
      TracksShrunk(c, s, WatchdogNext(c, s, a).value);
    }
  }

  lemma TracksKept(c: Config, s: State, a: Action)
    requires InOrder(s) && Positioned(s) && Tracks(c, s) && Next(c, s, a).Some?
    ensures Tracks(c, Next(c, s, a).value)
  {
    hide WriterNext;
    hide ReaderNext;
    hide WatchdogNext;
    hide Tracks;
    match a {
      case Clock(_) => TracksShrunk(c, s, Next(c, s, a).value);
      case CancelRun => TracksShrunk(c, s, Next(c, s, a).value);
      case Write(w) => WriterTracks(c, s, w);
      case Read(r) => ReaderTracks(c, s, r);
      case Watch(d) => WatchdogTracks(c, s, d);
    }
  }

  // ----- Every pending order has a record, or is in the writer's hands -----

  ghost predicate Covered(c: Config, s: State) {
    Leaving(s.writer) ||
    s.pending.Keys <= Members(EntryIds(c, s.queued)) + Members(BatchIds(c, Unqueued(s.writer)))
  }

  lemma LeavingStays(c: Config, s: State, a: WriterAction)
    requires Leaving(s.writer) && WriterNext(c, s, a).Some?
    ensures Leaving(WriterNext(c, s, a).value.writer)
  {
  }

  /** Where the writer may stand when it collects: with empty hands. */
  lemma CollectFrom(c: Config, s: State, frames: seq<Frame>)
    requires WriterNext(c, s, Collect(frames)).Some?
    ensures Unqueued(s.writer) == []
  {
  }

  lemma EntryIdsOfRecords(c: Config, es: seq<Expiry>, batch: seq<Frame>, sendTs: nat)
    ensures EntryIds(c, es + Records(batch, sendTs)) == EntryIds(c, es) + BatchIds(c, batch)
  {
  }

  lemma MembersConcat(a: seq<string>, b: seq<string>)
    ensures Members(a + b) == Members(a) + Members(b)
  {
  }

  lemma QueueCovered(c: Config, s: State)
    requires InOrder(s) && Covered(c, s) && WriterNext(c, s, Queue).Some?
    ensures Covered(c, WriterNext(c, s, Queue).value)
  {
    QueueRecords(c, s);
    QueueFrom(c, s);
    WriterFrame(c, s, Queue);
    hide InOrder;
    hide WriterNext;
    EntryIdsOfRecords(c, s.queued, s.writer.batch, s.writer.sendTs);
    MembersConcat(EntryIds(c, s.queued), BatchIds(c, s.writer.batch));
    hide Members;
  }

  lemma WriterKeys(c: Config, s: State, a: WriterAction)
    requires WriterNext(c, s, a).Some?
    ensures var s' := WriterNext(c, s, a).value;
            s'.pending.Keys <= s.pending.Keys + (if a.Insert? then Members(BatchIds(c, Unqueued(s.writer))) else {})
  {
    hide WriterNext;
    WriterFrame(c, s, a);
    if a.Insert? {
      InsertKeys(c, s);
    } else if a.Patch? {
      PatchSameKeys(c, s);
    } else if a.Clean? {
      CleanShrinks(c, s);
    }
    hide Members;
  }

  lemma InsertKeys(c: Config, s: State)
    requires WriterNext(c, s, Insert).Some?
    ensures WriterNext(c, s, Insert).value.pending.Keys == s.pending.Keys + Members(BatchIds(c, Unqueued(s.writer)))
  {
    InsertAllKeys(s.pending, BatchIds(c, s.writer.batch), s.writer.startTs);
    hide InsertAll;
    hide Members;
  }

  lemma PatchSameKeys(c: Config, s: State)
    requires WriterNext(c, s, Patch).Some?
    ensures WriterNext(c, s, Patch).value.pending.Keys == s.pending.Keys
  {
  }

  lemma WriterCovered(c: Config, s: State, a: WriterAction)
    requires InOrder(s) && Covered(c, s) && WriterNext(c, s, a).Some?
    ensures Covered(c, WriterNext(c, s, a).value)
  {
    hide WriterNext;
    hide InOrder;
    hide Members;
    WriterFrame(c, s, a);
    if Leaving(s.writer) {
      LeavingStays(c, s, a);
    } else if a.Queue? {
      QueueCovered(c, s);
    } else {
      WriterKeys(c, s, a);
      if a.Collect? {
        CollectFrom(c, s, a.frames);
        NoMembers();
      } else {
        UnqueuedKept(c, s, a);
      }
    }
  }

  lemma NoMembers()
    ensures Members([]) == {}
  {
  }

  lemma CoveredKept(c: Config, s: State, a: Action)
    requires InOrder(s) && Covered(c, s) && Next(c, s, a).Some?
    ensures Covered(c, Next(c, s, a).value)
  {
    hide WriterNext;
    hide ReaderNext;
    hide WatchdogNext;
    hide Members;
    hide InOrder;
    match a {
      case Clock(_) =>
      case CancelRun =>
      case Write(w) => WriterCovered(c, s, w);
      case Read(r) =>
        ReaderFrame(s, r);
        ReaderKeys(s, r);
      case Watch(d) =>
        WatchdogFrame(c, s, d);
        WatchdogKeys(c, s, d);
    }
  }

  lemma ReaderKeys(s: State, a: ReaderAction)
    requires ReaderNext(s, a).Some?
    ensures ReaderNext(s, a).value.pending.Keys <= s.pending.Keys
  {
  }

  lemma WatchdogKeys(c: Config, s: State, a: WatchdogAction)
    requires WatchdogNext(c, s, a).Some?
    ensures WatchdogNext(c, s, a).value.pending.Keys <= s.pending.Keys
  {
    hide WatchdogNext;
    WatchdogFrame(c, s, a);
    if a.EvictDue? {
      EvictLeaves(c, s, a.swept);
    }
  }

  // ----- The refinement -----

  /** The reference: scan every order whose record had been pushed, and keep the overdue. */
  function Overdue(c: Config, s: State, known: nat, at: nat): set<string>
    requires known <= |s.queued|
  {
    set id | id in s.pending && id in EntryIds(c, s.queued[..known]) && Deadline(s.pending[id].sendTs) <= at
  }

  /** Popping the front of the queue evicts exactly the overdue orders of the map. */
  lemma EvictionIsScan(c: Config, s: State)
    requires Positioned(s) && Tracks(c, s) && s.watchdog.Evict? && !s.watchdog.last
    ensures s.pending.Keys * Members(EntryIds(c, s.watchdog.due)) == Overdue(c, s, s.watchdog.known, s.watchdog.at)
  {
    var d := s.watchdog;
    var due, seen := EntryIds(c, d.due), EntryIds(c, s.queued[..d.known]);
    forall id | id in s.pending && id in due ensures id in Overdue(c, s, d.known, d.at) {
      var k :| 0 <= k < |due| && due[k] == id;
      assert d.due[k] == s.queued[Settled(s) + k];
      assert seen[Settled(s) + k] == id;
    }
    forall id | id in Overdue(c, s, d.known, d.at) ensures id in due {
      var i :| 0 <= i < |seen| && seen[i] == id;
      assert s.queued[..d.known][i] == s.queued[i];
      OverdueIsDue(c, s, i);
      assert due[i - Settled(s)] == id;
    }
  }

  lemma OverdueIsDue(c: Config, s: State, i: nat)
    requires Positioned(s) && Tracks(c, s) && s.watchdog.Evict? && !s.watchdog.last
    requires i < s.watchdog.known && EntryId(c, s.queued[i]) in s.pending
    requires Deadline(s.pending[EntryId(c, s.queued[i])].sendTs) <= s.watchdog.at
    ensures Settled(s) <= i < s.popped && s.watchdog.due[i - Settled(s)] == s.queued[i]
  {
    hide EntryId;
    hide Deadline;
    assert Settled(s) <= i;
    assert Due(s.queued[i], s.watchdog.at, false);
  }

  /** While the writer is at work, an overdue order escapes an eviction only in the writer's
      hands, or when its record came after the watchdog popped. */
  lemma NoOverdueSurvives(c: Config, s: State, id: string)
    requires Positioned(s) && Tracks(c, s) && Covered(c, s) && !Leaving(s.writer)
    requires s.watchdog.Evict? && !s.watchdog.last
    requires id in s.pending && Deadline(s.pending[id].sendTs) <= s.watchdog.at
    requires id !in BatchIds(c, Unqueued(s.writer)) && id !in EntryIds(c, s.queued[s.watchdog.known..])
    ensures id in EntryIds(c, s.watchdog.due)
  {
    hide EntryId, Positioned, Tracks, Deadline;
    var i := QueuedBefore(c, s, id);
    OverdueIsDue(c, s, i);
    assert EntryIds(c, s.watchdog.due)[i - Settled(s)] == id;
  }

  /** An order that is neither in the writer's hands nor recorded late was recorded in time. */
  lemma QueuedBefore(c: Config, s: State, id: string) returns (i: nat)
    requires Positioned(s) && Covered(c, s) && !Leaving(s.writer) && s.watchdog.Evict? && id in s.pending
    requires id !in BatchIds(c, Unqueued(s.writer)) && id !in EntryIds(c, s.queued[s.watchdog.known..])
    ensures i < s.watchdog.known && EntryId(c, s.queued[i]) == id
  {
    hide EntryId;
    var all, known := EntryIds(c, s.queued), s.watchdog.known;
    var after := EntryIds(c, s.queued[known..]);
    forall j | known <= j < |all| ensures all[j] in after {
      assert after[j - known] == all[j];
    }
    assert id in Members(all);
    i :| 0 <= i < |all| && all[i] == id;
  }
}
