/** When things happened in a run, read off its actions: the send time of every telemetry record, the
    tick behind every eviction, the stop check before every batch, and what came after the sweep. */
module InFlightTimes {
  import opened Wrappers
  import opened PendingOrders
  import opened InFlightProtocol
  import opened InFlightInvariants
  import opened InFlightExpiry
  import opened InFlightRuns

  datatype Mark = Collected | Wrote | Ticked | Checked

  /** The actions that read the clock or the stop condition. */
  predicate Marks(a: Action, m: Mark) {
    match m
    case Collected => a.Write? && a.w.Collect?
    case Wrote => a == Write(WriteOk)
    case Ticked => a == Watch(StartTick)
    case Checked => a == Write(CheckStop) || a == Write(CheckFull)
  }

  function Front(actions: seq<Action>): seq<Action>
    requires actions != []
  {
    actions[..|actions| - 1]
  }

  function Last(actions: seq<Action>): Action
    requires actions != []
  {
    actions[|actions| - 1]
  }

  /** The state at the latest action of a kind. */
  ghost function At(c: Config, actions: seq<Action>, m: Mark): State
    requires Run(c, actions).Some?
  {
    if actions == [] then Start(c)
    else if Marks(Last(actions), m) then Run(c, Front(actions)).value
    else At(c, Front(actions), m)
  }

  ghost predicate InBatch(c: Config, s: State, id: string) {
    id in BatchIds(c, if s.writer.Inserting? || s.writer.Patching? then s.writer.batch else [])
  }

  /** When an order was sent: the clock when its batch was collected, then, if it was still pending when
      its batch had been written, the clock when the write returned. */
  ghost function SentAt(c: Config, actions: seq<Action>, id: string): Option<nat>
    requires Run(c, actions).Some?
  {
    if actions == [] then None
    else
      var s, a := Run(c, Front(actions)).value, Last(actions);
      if a == Write(Insert) && InBatch(c, s, id) then Some(At(c, Front(actions), Collected).now)
      else if a == Write(Patch) && InBatch(c, s, id) && id in s.pending then Some(At(c, Front(actions), Wrote).now)
      else SentAt(c, Front(actions), id)
  }

  /** Has the last tick's eviction taken place? */
  ghost predicate SweptBy(c: Config, actions: seq<Action>)
    requires Run(c, actions).Some?
  {
    actions != [] &&
    (SweptBy(c, Front(actions)) ||
     (Last(actions).Watch? && Last(actions).d.EvictDue? && At(c, Front(actions), Ticked).now >= c.drainEnd))
  }

  /** The orders inserted after it. */
  ghost function LateOf(c: Config, actions: seq<Action>): set<string>
    requires Run(c, actions).Some?
  {
    if actions == [] then {}
    else
      var s := Run(c, Front(actions)).value;
      LateOf(c, Front(actions)) +
      if Last(actions) == Write(Insert) && SweptBy(c, Front(actions)) && s.writer.Inserting?
      then Members(BatchIds(c, s.writer.batch)) else {}
  }

  // ----- Clock readings -----

  /** Between a stop check and the insertion it allows. */
  predicate Cleared(w: Writer) {
    w.CapCheck? || w.Recheck? || w.Full? || w.Polling? || w.Parked? || w.Pacing? || w.Collecting? || w.Inserting?
  }

  ghost predicate Clocked(c: Config, actions: seq<Action>, s: State)
    requires Run(c, actions).Some?
  {
    && (s.writer.Inserting? ==> s.writer.startTs == At(c, actions, Collected).now)
    && (s.writer.Patching? || s.writer.Queueing? ==> s.writer.sendTs == At(c, actions, Wrote).now)
    && (Cleared(s.writer) ==> !At(c, actions, Checked).cancelled && At(c, actions, Checked).now < c.taskEnd)
    && (s.watchdog.Pop? || s.watchdog.Evict? ==>
          && s.watchdog.at == At(c, actions, Ticked).now
          && s.watchdog.last == (At(c, actions, Ticked).now >= c.drainEnd))
    && (Swept(s) <==> SweptBy(c, actions))
    && s.late == LateOf(c, actions)
  }

  /** What an action can do to the writer's clock readings. */
  lemma WriterClocks(c: Config, s: State, a: WriterAction)
    requires WriterNext(c, s, a).Some?
    ensures var s' := WriterNext(c, s, a).value;
            && (s'.writer.Inserting? ==> a.Collect? && s'.writer.startTs == s.now)
            && (s'.writer.Patching? ==> a.WriteOk? && s'.writer.sendTs == s.now)
            && (s'.writer.Queueing? ==> a.Patch? && s.writer.Patching? && s'.writer.sendTs == s.writer.sendTs)
            && (a.Collect? ==> s.writer.Collecting?)
            && (a.Patch? ==> s.writer.Patching?)
            && (a.Insert? ==> s.writer.Inserting?)
  {
    hide Members, InsertAll, Taken, BatchIds, Patched, Entries, Departures, NextFrames, ShouldStop;
  }

  lemma WriterCleared(c: Config, s: State, a: WriterAction)
    requires WriterNext(c, s, a).Some?
    ensures Cleared(WriterNext(c, s, a).value.writer) ==>
              if a.CheckStop? || a.CheckFull? then !s.cancelled && s.now < c.taskEnd else Cleared(s.writer)
  {
    hide Members, InsertAll, Taken, BatchIds, Patched, Entries, Departures, NextFrames;
  }

  lemma WriterLate(c: Config, s: State)
    requires WriterNext(c, s, Insert).Some?
    ensures s.writer.Inserting?
    ensures WriterNext(c, s, Insert).value.late ==
            s.late + if Swept(s) then Members(BatchIds(c, s.writer.batch)) else {}
  {
    hide Members, InsertAll, BatchIds;
  }

  lemma WatchdogClocks(c: Config, s: State, a: WatchdogAction)
    requires WatchdogNext(c, s, a).Some?
    ensures var s', d := WatchdogNext(c, s, a).value, s.watchdog;
            var d' := s'.watchdog;
            && (d'.Pop? ==> a.StartTick? && d'.at == s.now && d'.last == (s.now >= c.drainEnd))
            && (d'.Evict? ==> a.PopDue? && d.Pop? && d'.at == d.at && d'.last == d.last)
            && (a.EvictDue? ==> d.Evict? && !Swept(s) && (Swept(s') <==> d.last))
            && (!a.EvictDue? ==> (Swept(s') <==> Swept(s)))
            && (a.StartTick? ==> d.Tick?)
  {
    hide Members, Taken, DueCount;
  }

  lemma ClearedParked()
    ensures forall b :: Cleared(Parked(b))
  {
  }

  lemma StepClocked(c: Config, actions: seq<Action>)
    requires actions != [] && Run(c, actions).Some?
    requires Clocked(c, Front(actions), Run(c, Front(actions)).value)
    ensures Clocked(c, actions, Run(c, actions).value)
  {
    hide WriterNext, ReaderNext, WatchdogNext, Members, BatchIds, Cleared;
    ClearedParked();
    var s, a := Run(c, Front(actions)).value, Last(actions);
    match a {
      case Clock(_) =>
      case CancelRun =>
      case Write(w) =>
        WriterFrame(c, s, w);
        WriterClocks(c, s, w);
        WriterCleared(c, s, w);
        if w.Insert? {
          WriterLate(c, s);
        }
      case Read(r) => ReaderFrame(s, r);
      case Watch(d) =>
        WatchdogFrame(c, s, d);
        WatchdogClocks(c, s, d);
    }
  }

  /** In every run: send times are clock readings at the collection and at the return of the write, a tick's
      time is the clock at its start, the last tick is the first at or past the drain deadline, and the late
      orders are those inserted after its eviction. */
  lemma {:induction false} RunClocked(c: Config, actions: seq<Action>)
    requires Run(c, actions).Some?
    ensures Clocked(c, actions, Run(c, actions).value)
  {
    if actions != [] {
      hide Clocked;
      RunClocked(c, Front(actions));
      StepClocked(c, actions);
    }
  }

  /** Every batch inserted was let through by a stop check before the task's end and before cancellation. */
  lemma BatchCleared(c: Config, actions: seq<Action>)
    requires actions != [] && Run(c, actions).Some? && Last(actions) == Write(Insert)
    ensures !At(c, actions, Checked).cancelled && At(c, actions, Checked).now < c.taskEnd
  {
    RunClocked(c, Front(actions));
  }

  /** A deadline is past five seconds after the send time, or when the clock stands at its end. */
  lemma DeadlineMeans(sendTs: nat, now: nat)
    ensures Deadline(sendTs) <= now <==> sendTs + 5_000_000_000 <= now || 0xffff_ffff_ffff_ffff <= now
  {
  }

  // ----- The permit -----

  /** Does this action notify, in this state? */
  predicate Notifies(s: State, a: Action) {
    || a == Read(NotifyAck)
    || (a == Watch(NotifyEvicted) && s.watchdog.EvictNotify? && s.watchdog.evicted != [])
  }

  /** A permit is stored by a notify that finds nobody waiting, and taken by the writer's next poll. */
  ghost predicate PermitBy(c: Config, actions: seq<Action>)
    requires Run(c, actions).Some?
  {
    actions != [] && Last(actions) != Write(Poll) &&
    var s := Run(c, Front(actions)).value;
    PermitBy(c, Front(actions)) || (Notifies(s, Last(actions)) && s.writer != Parked(false))
  }

  /** In every run the permit is there exactly when such a notify came after the last poll. */
  lemma {:induction false} RunPermit(c: Config, actions: seq<Action>)
    requires Run(c, actions).Some?
    ensures Run(c, actions).value.permit <==> PermitBy(c, actions)
  {
    if actions != [] {
      hide WriterNext, ReaderNext, WatchdogNext;
      RunPermit(c, Front(actions));
      var s, a := Run(c, Front(actions)).value, Last(actions);
      match a {
        case Clock(_) =>
        case CancelRun =>
        case Write(w) => WriterPermit(c, s, w);
        case Read(r) => ReaderPermit(s, r);
        case Watch(d) => WatchdogPermit(c, s, d);
      }
    }
  }

  lemma WriterPermit(c: Config, s: State, a: WriterAction)
    requires WriterNext(c, s, a).Some?
    ensures WriterNext(c, s, a).value.permit == if a.Poll? then false else s.permit
  {
    hide WriterNext;
    WriterFrame(c, s, a);
    if a.Poll? {
      PollTakes(c, s);
    }
  }

  lemma PollTakes(c: Config, s: State)
    requires WriterNext(c, s, Poll).Some?
    ensures !WriterNext(c, s, Poll).value.permit
  {
  }

  lemma ReaderPermit(s: State, a: ReaderAction)
    requires ReaderNext(s, a).Some?
    ensures ReaderNext(s, a).value.permit == (s.permit || (Notifies(s, Read(a)) && s.writer != Parked(false)))
  {
  }

  lemma WatchdogPermit(c: Config, s: State, a: WatchdogAction)
    requires WatchdogNext(c, s, a).Some?
    ensures WatchdogNext(c, s, a).value.permit == (s.permit || (Notifies(s, Watch(a)) && s.writer != Parked(false)))
  {
    hide Members, Taken, DueCount;
  }

  // ----- The times of the records -----

  /** Records emitted and records in hand. */
  function Outgoing(s: State): seq<Event> {
    s.events + ReaderHolds(s.reader) + WatchdogHolds(s.watchdog)
  }

  ghost predicate Timed(c: Config, actions: seq<Action>, s: State)
    requires Run(c, actions).Some?
  {
    && (forall id :: id in s.pending ==> SentAt(c, actions, id) == Some(s.pending[id].sendTs))
    && (forall e :: e in Outgoing(s) ==>
          e.id in Members(GoneIds(s.gone)) && SentAt(c, actions, e.id) == Some(e.sendTs))
  }

  /** Only an insertion or a patch sets a send time. */
  lemma SentStays(c: Config, actions: seq<Action>, id: string)
    requires actions != [] && Run(c, actions).Some?
    requires var s := Run(c, Front(actions)).value;
             || (Last(actions) != Write(Insert) && Last(actions) != Write(Patch))
             || !InBatch(c, s, id)
             || (Last(actions) == Write(Patch) && id !in s.pending)
    ensures SentAt(c, actions, id) == SentAt(c, Front(actions), id)
  {
    hide InBatch, Next;
  }

  lemma {:induction false} InsertedAt(m: PendingMap, ids: seq<string>, ts: nat, id: string)
    requires id in ids
    ensures id in InsertAll(m, ids, ts) && InsertAll(m, ids, ts)[id] == Pending(ts)
  {
    var n := |ids| - 1;
    if ids[n] != id {
      assert id in ids[..n];
      InsertedAt(m, ids[..n], ts, id);
    }
  }

  /** After an insertion: the batch has the collection's time, the others keep theirs. */
  lemma InsertTimes(c: Config, s: State, id: string)
    requires WriterNext(c, s, Insert).Some? && id in WriterNext(c, s, Insert).value.pending
    ensures var s' := WriterNext(c, s, Insert).value;
            && s.writer.Inserting?
            && (if InBatch(c, s, id) then s'.pending[id] == Pending(s.writer.startTs)
                else id in s.pending && s'.pending[id] == s.pending[id])
  {
    hide InsertAll, Members;
    var ids := BatchIds(c, s.writer.batch);
    if id in ids {
      InsertedAt(s.pending, ids, s.writer.startTs, id);
    } else {
      InsertAllAt(s.pending, ids, s.writer.startTs, id);
    }
  }

  lemma PatchTimes(c: Config, s: State, id: string)
    requires WriterNext(c, s, Patch).Some? && id in WriterNext(c, s, Patch).value.pending
    ensures var s' := WriterNext(c, s, Patch).value;
            && s.writer.Patching? && id in s.pending
            && s'.pending[id] == if InBatch(c, s, id) then Pending(s.writer.sendTs) else s.pending[id]
  {
  }

  lemma BatchUnknown(c: Config, s: State, id: string)
    requires ExactlyOnce(c, s) && Numbered(s) && s.writer.Inserting? && id in Members(GoneIds(s.gone))
    ensures !InBatch(c, s, id)
  {
    FreshBatch(c, s);
    hide Distinct, Numbered, GoneIds;
    assert id in Members(BatchIds(c, s.offered));
  }

  /** An insertion or a patch keeps every time. */
  lemma SetsTimed(c: Config, actions: seq<Action>)
    requires actions != [] && Run(c, actions).Some? && (Last(actions) == Write(Insert) || Last(actions) == Write(Patch))
    requires var s := Run(c, Front(actions)).value;
             ExactlyOnce(c, s) && Numbered(s) && Clocked(c, Front(actions), s) && Timed(c, Front(actions), s)
    ensures Timed(c, actions, Run(c, actions).value)
  {
    hide WriterNext, InBatch, ExactlyOnce, Numbered, Members, GoneIds, Outgoing;
    var s, s' := Run(c, Front(actions)).value, Run(c, actions).value;
    var w := Last(actions).w;
    WriterFrame(c, s, w);
    WriterClocks(c, s, w);
    SameRecords(s, s');
    forall id | id in s'.pending ensures SentAt(c, actions, id) == Some(s'.pending[id].sendTs) {
      if w.Insert? {
        InsertTimes(c, s, id);
      } else {
        PatchTimes(c, s, id);
      }
      hide Timed;
    }
    forall e | e in Outgoing(s')
      ensures e.id in Members(GoneIds(s'.gone)) && SentAt(c, actions, e.id) == Some(e.sendTs)
    {
      if w.Insert? {
        BatchUnknown(c, s, e.id);
      } else {
        GoneNotPending(c, s, e.id);
      }
      SentStays(c, actions, e.id);
    }
  }

  lemma SameRecords(s: State, s': State)
    requires s'.events == s.events && s'.reader == s.reader && s'.watchdog == s.watchdog
    ensures Outgoing(s') == Outgoing(s)
  {
  }

  lemma GoneNotPending(c: Config, s: State, id: string)
    requires ExactlyOnce(c, s) && id in Members(GoneIds(s.gone))
    ensures id !in s.pending
  {
  }

  /** What every other action does: orders leave with their times, records move on. */
  ghost predicate Moves(s: State, s': State) {
    && (forall id :: id in s'.pending ==> id in s.pending && s'.pending[id] == s.pending[id])
    && (forall id :: id in Members(GoneIds(s.gone)) ==> id in Members(GoneIds(s'.gone)))
    && (forall e :: e in Outgoing(s') ==>
          || e in Outgoing(s)
          || (e.id in s.pending && e.sendTs == s.pending[e.id].sendTs && e.id in Members(GoneIds(s'.gone))))
  }

  lemma MovesTimed(c: Config, actions: seq<Action>)
    requires actions != [] && Run(c, actions).Some? && Last(actions) != Write(Insert) && Last(actions) != Write(Patch)
    requires Timed(c, Front(actions), Run(c, Front(actions)).value)
    requires Moves(Run(c, Front(actions)).value, Run(c, actions).value)
    ensures Timed(c, actions, Run(c, actions).value)
  {
    hide Next, Members, GoneIds, Outgoing;
    forall id ensures SentAt(c, actions, id) == SentAt(c, Front(actions), id) {
      SentStays(c, actions, id);
    }
    hide SentAt;
  }

  lemma GoneGrows(gone: seq<Departure>, more: seq<Departure>)
    ensures Members(GoneIds(gone + more)) == Members(GoneIds(gone)) + Members(GoneIds(more))
  {
    assert GoneIds(gone + more) == GoneIds(gone) + GoneIds(more);
  }

  lemma GoneOf(ids: seq<string>, cause: Cause)
    ensures GoneIds(Departures(ids, cause)) == ids
  {
  }

  lemma WriterMoves(c: Config, s: State, a: WriterAction)
    requires WriterNext(c, s, a).Some? && !a.Insert? && !a.Patch?
    ensures Moves(s, WriterNext(c, s, a).value)
  {
    hide WriterNext, Members, GoneIds, Outgoing;
    WriterFrame(c, s, a);
    var s' := WriterNext(c, s, a).value;
    SameRecords(s, s');
    if a.Clean? {
      var ids := CleanIds(c, s);
      GoneGrows(s.gone, Departures(ids, WriteFailed));
      CleanKeeps(c, s);
    }
  }

  lemma CleanKeeps(c: Config, s: State)
    requires WriterNext(c, s, Clean).Some?
    ensures forall id :: id in WriterNext(c, s, Clean).value.pending ==>
              id in s.pending && WriterNext(c, s, Clean).value.pending[id] == s.pending[id]
  {
    hide Members, Taken;
  }

  lemma ReaderMoves(s: State, a: ReaderAction)
    requires ReaderNext(s, a).Some?
    ensures Moves(s, ReaderNext(s, a).value)
  {
    hide Members, GoneIds;
    if a.Ack? && a.id in s.pending {
      GoneGrows(s.gone, [Departure(a.id, Acked)]);
      assert [Departure(a.id, Acked)] == Departures([a.id], Acked);
      GoneOf([a.id], Acked);
      OneMember(a.id);
    }
  }

  lemma OneMember(id: string)
    ensures id in Members([id])
  {
  }

  /** The records an eviction takes in hand. */
  lemma EvictRecords(c: Config, s: State, swept: seq<string>)
    requires WatchdogNext(c, s, EvictDue(swept)).Some?
    ensures var s' := WatchdogNext(c, s, EvictDue(swept)).value;
            && (forall id :: id in Members(GoneIds(s.gone)) ==> id in Members(GoneIds(s'.gone)))
            && (forall e :: e in WatchdogHolds(s'.watchdog) ==>
                  e.timedOut && e.id in s.pending && e.sendTs == s.pending[e.id].sendTs &&
                  e.id in Members(GoneIds(s'.gone)))
  {
    hide WatchdogNext, GoneIds, Distinct, Members, Departures;
    var s' := WatchdogNext(c, s, EvictDue(swept)).value;
    var ids := EvictIds(c, s, swept);
    GoneGrows(s.gone, Departures(ids, TimedOut));
    GoneOf(ids, TimedOut);
    AllIn(s.pending, ids);
    EvictedTimes(s.pending, ids, s'.watchdog.evicted);
  }

  lemma AllIn(m: PendingMap, ids: seq<string>)
    requires Members(ids) <= m.Keys
    ensures forall i :: 0 <= i < |ids| ==> ids[i] in m
  {
    forall i | 0 <= i < |ids| ensures ids[i] in m {
      assert ids[i] in Members(ids);
    }
  }

  lemma EvictedTimes(m: PendingMap, ids: seq<string>, events: seq<Event>)
    requires |events| == |ids| && Members(ids) <= m.Keys
    requires forall i :: 0 <= i < |ids| ==> events[i] == Event(ids[i], true, EvictTime(m, ids[i]))
    ensures forall e :: e in events ==>
              e.timedOut && e.id in m && e.sendTs == m[e.id].sendTs && e.id in Members(ids)
  {
    forall e | e in events ensures e.timedOut && e.id in m && e.sendTs == m[e.id].sendTs && e.id in Members(ids) {
      var i :| 0 <= i < |events| && events[i] == e;
      assert ids[i] in Members(ids);
    }
  }

  function EvictTime(m: PendingMap, id: string): nat {
    if id in m then m[id].sendTs else 0
  }

  lemma EvictMoves(c: Config, s: State, swept: seq<string>)
    requires WatchdogNext(c, s, EvictDue(swept)).Some?
    ensures Moves(s, WatchdogNext(c, s, EvictDue(swept)).value)
  {
    hide WatchdogNext, GoneIds, Members;
    var s' := WatchdogNext(c, s, EvictDue(swept)).value;
    WatchdogFrame(c, s, EvictDue(swept));
    EvictKeeps(c, s, swept);
    EvictRecords(c, s, swept);
    hide WatchdogHolds;
    forall e | e in Outgoing(s') ensures e in Outgoing(s) || e in WatchdogHolds(s'.watchdog) {}
  }

  lemma EvictKeeps(c: Config, s: State, swept: seq<string>)
    requires WatchdogNext(c, s, EvictDue(swept)).Some?
    ensures forall id :: id in WatchdogNext(c, s, EvictDue(swept)).value.pending ==>
              && id in s.pending
              && WatchdogNext(c, s, EvictDue(swept)).value.pending[id] == s.pending[id]
  {
    hide Members, Taken;
  }

  lemma WatchdogMoves(c: Config, s: State, a: WatchdogAction)
    requires WatchdogNext(c, s, a).Some?
    ensures Moves(s, WatchdogNext(c, s, a).value)
  {
    hide WatchdogNext, Members, GoneIds;
    if a.EvictDue? {
      EvictMoves(c, s, a.swept);
    } else {
      WatchdogFrame(c, s, a);
      WatchdogRecords(c, s, a);
    }
  }

  lemma WatchdogRecords(c: Config, s: State, a: WatchdogAction)
    requires WatchdogNext(c, s, a).Some? && !a.EvictDue?
    ensures forall e :: e in Outgoing(WatchdogNext(c, s, a).value) ==> e in Outgoing(s)
  {
    hide Members, DueCount;
  }

  lemma NextMoves(c: Config, s: State, a: Action)
    requires Next(c, s, a).Some? && a != Write(Insert) && a != Write(Patch)
    ensures Moves(s, Next(c, s, a).value)
  {
    hide WriterNext, ReaderNext, WatchdogNext, Members, GoneIds;
    match a {
      case Clock(_) =>
      case CancelRun =>
      case Write(w) => WriterMoves(c, s, w);
      case Read(r) => ReaderMoves(s, r);
      case Watch(d) => WatchdogMoves(c, s, d);
    }
  }

  /** In every run, every record, emitted or in hand, carries the send time of its order, and every pending
      order carries its own. */
  lemma {:induction false} RunTimed(c: Config, actions: seq<Action>)
    requires Run(c, actions).Some?
    ensures Timed(c, actions, Run(c, actions).value)
  {
    if actions != [] {
      hide Timed, Moves, Good, Next, Clocked;
      var before := Front(actions);
      RunTimed(c, before);
      var s, a := Run(c, before).value, Last(actions);
      if a == Write(Insert) || a == Write(Patch) {
        RunGood(c, before);
        GoodParts(c, s);
        RunClocked(c, before);
        SetsTimed(c, actions);
      } else {
        NextMoves(c, s, a);
        MovesTimed(c, actions);
      }
    }
  }

  lemma GoodParts(c: Config, s: State)
    requires Good(c, s)
    ensures ExactlyOnce(c, s) && Numbered(s)
  {
  }

  // ----- Record by record -----

  lemma PrefixRuns(c: Config, actions: seq<Action>, n: nat)
    requires Run(c, actions).Some? && n <= |actions|
    ensures Run(c, actions[..n]).Some?
    decreases |actions| - n
  {
    if n == |actions| {
      assert actions[..n] == actions;
    } else {
      PrefixRuns(c, actions, n + 1);
      assert actions[..n + 1][..n] == actions[..n];
    }
  }

  /** The state before the n-th action, and the step it takes. */
  ghost function Was(c: Config, actions: seq<Action>, n: nat): State
    requires Run(c, actions).Some? && n <= |actions|
  {
    PrefixRuns(c, actions, n);
    Run(c, actions[..n]).value
  }

  lemma Steps(c: Config, actions: seq<Action>, n: nat)
    requires Run(c, actions).Some? && n < |actions|
    ensures Next(c, Was(c, actions, n), actions[n]) == Some(Was(c, actions, n + 1))
    ensures Run(c, actions[..n]).Some? && Run(c, actions[..n + 1]).Some?
    ensures Front(actions[..n + 1]) == actions[..n] && Last(actions[..n + 1]) == actions[n]
  {
    hide Next;
    PrefixRuns(c, actions, n);
    PrefixRuns(c, actions, n + 1);
    assert actions[..n + 1][..n] == actions[..n];
  }

  /** The reader holds the ack it took until it emits it. */
  lemma {:induction false} AckHeld(c: Config, actions: seq<Action>, k: nat, n: nat, id: string)
    requires Run(c, actions).Some? && k < n <= |actions| && actions[k] == Read(Ack(id))
    requires Was(c, actions, k).reader.Reading? && id in Was(c, actions, k).pending
    requires forall j :: k < j < n ==> actions[j] != Read(EmitAck)
    ensures ReaderHolds(Was(c, actions, n).reader) == [Event(id, false, Was(c, actions, k).pending[id].sendTs)]
  {
    hide Run, WriterNext, WatchdogNext;
    Steps(c, actions, n - 1);
    var s := Was(c, actions, n - 1);
    if n - 1 > k {
      AckHeld(c, actions, k, n - 1, id);
      match actions[n - 1] {
        case Clock(_) =>
        case CancelRun =>
        case Write(w) => WriterFrame(c, s, w);
        case Read(r) =>
        case Watch(d) => WatchdogFrame(c, s, d);
      }
    }
  }

  /** In every run, the next record the reader emits after it takes an ack off the map names that order as
      acked, with the send time the map held. */
  lemma AckRecord(c: Config, actions: seq<Action>, k: nat, n: nat, id: string)
    requires Run(c, actions).Some? && k < n < |actions|
    requires actions[k] == Read(Ack(id)) && actions[n] == Read(EmitAck)
    requires Was(c, actions, k).reader.Reading? && id in Was(c, actions, k).pending
    requires forall j :: k < j < n ==> actions[j] != Read(EmitAck)
    ensures Was(c, actions, n + 1).events ==
            Was(c, actions, n).events + [Event(id, false, Was(c, actions, k).pending[id].sendTs)]
  {
    hide Run, WriterNext, WatchdogNext;
    Steps(c, actions, n);
    AckHeld(c, actions, k, n, id);
  }

  /** A batch that has been written is never in the writer's hands again. */
  lemma QueuedNotInHand(c: Config, s: State, id: string)
    requires InOrder(s) && id in EntryIds(c, s.queued)
    ensures id !in BatchIds(c, Unqueued(s.writer))
  {
    var queued, hand := FramesOf(s.queued), Unqueued(s.writer);
    var i :| 0 <= i < |s.queued| && EntryId(c, s.queued[i]) == id;
    forall j | 0 <= j < |hand| ensures Id(c, hand[j]) != id {
      var all := queued + hand;
      assert all[i] == queued[i] && all[|queued| + j] == hand[j];
      assert all[i] in all && all[|queued| + j] in all;
      IdsDiffer(c, queued[i], hand[j]);
    }
  }

  /** A batch written and patched is in the writer's hands until it is queued, and queued ever after. */
  lemma {:induction false} PatchedStays(c: Config, actions: seq<Action>, p: nat, n: nat, id: string)
    requires Run(c, actions).Some? && p < n <= |actions| && actions[p] == Write(Patch)
    requires InBatch(c, Was(c, actions, p), id)
    ensures var s := Was(c, actions, n);
            (s.writer.Queueing? && id in BatchIds(c, s.writer.batch)) || id in EntryIds(c, s.queued)
  {
    hide Run, Next, InBatch, BatchIds, EntryIds;
    Steps(c, actions, n - 1);
    var s := Was(c, actions, n - 1);
    if n - 1 == p {
      PatchQueues(c, s, id);
    } else {
      PatchedStays(c, actions, p, n - 1, id);
      RunInOrder(c, actions, n - 1);
      QueuedStays(c, s, actions[n - 1], id);
    }
  }

  lemma RunInOrder(c: Config, actions: seq<Action>, n: nat)
    requires Run(c, actions).Some? && n <= |actions|
    ensures InOrder(Was(c, actions, n))
  {
    hide InOrder, Run;
    PrefixRuns(c, actions, n);
    RunGood(c, actions[..n]);
  }

  lemma PatchQueues(c: Config, s: State, id: string)
    requires Next(c, s, Write(Patch)).Some? && InBatch(c, s, id)
    ensures var w := Next(c, s, Write(Patch)).value.writer; w.Queueing? && id in BatchIds(c, w.batch)
  {
  }

  lemma QueuedStays(c: Config, s: State, a: Action, id: string)
    requires InOrder(s) && Next(c, s, a).Some?
    requires (s.writer.Queueing? && id in BatchIds(c, s.writer.batch)) || id in EntryIds(c, s.queued)
    ensures var s' := Next(c, s, a).value;
            (s'.writer.Queueing? && id in BatchIds(c, s'.writer.batch)) || id in EntryIds(c, s'.queued)
  {
    hide WriterNext, ReaderNext, WatchdogNext, InOrder, BatchIds, EntryIds;
    match a {
      case Clock(_) =>
      case CancelRun =>
      case Write(w) =>
        WriterFrame(c, s, w);
        QueueingNext(c, s, w);
        if w.Queue? {
          QueueRecords(c, s);
          EntryIdsOfRecords(c, s.queued, s.writer.batch, s.writer.sendTs);
        }
      case Read(r) => ReaderFrame(s, r);
      case Watch(d) => WatchdogFrame(c, s, d);
    }
  }

  lemma QueueingNext(c: Config, s: State, a: WriterAction)
    requires WriterNext(c, s, a).Some?
    ensures s.writer.Queueing? <==> a.Queue?
  {
    hide Members, InsertAll, Taken, BatchIds, Patched, Entries, Departures, NextFrames, ShouldStop;
  }

  /** After its batch is patched an order's send time is settled. */
  lemma {:induction false} PatchSettles(c: Config, actions: seq<Action>, p: nat, n: nat, id: string)
    requires Run(c, actions).Some? && p < n <= |actions| && actions[p] == Write(Patch)
    requires InBatch(c, Was(c, actions, p), id) && id in Was(c, actions, p).pending
    ensures Run(c, actions[..n]).Some? && Run(c, actions[..p]).Some?
    ensures SentAt(c, actions[..n], id) == Some(At(c, actions[..p], Wrote).now)
  {
    hide Run, Next, BatchIds, EntryIds, At;
    Steps(c, actions, p);
    Steps(c, actions, n - 1);
    if n - 1 > p {
      PatchSettles(c, actions, p, n - 1, id);
      PatchedStays(c, actions, p, n - 1, id);
      RunInOrder(c, actions, n - 1);
      NotAgain(c, Was(c, actions, n - 1), actions[n - 1], id);
      SentStays(c, actions[..n], id);
    } else {
      SentNow(c, actions[..n], id);
    }
  }

  lemma SentNow(c: Config, actions: seq<Action>, id: string)
    requires actions != [] && Run(c, actions).Some? && Last(actions) == Write(Patch)
    requires InBatch(c, Run(c, Front(actions)).value, id) && id in Run(c, Front(actions)).value.pending
    ensures SentAt(c, actions, id) == Some(At(c, Front(actions), Wrote).now)
  {
    hide Next, InBatch, At;
  }

  lemma NotAgain(c: Config, s: State, a: Action, id: string)
    requires InOrder(s) && Next(c, s, a).Some?
    requires (s.writer.Queueing? && id in BatchIds(c, s.writer.batch)) || id in EntryIds(c, s.queued)
    ensures a == Write(Insert) || a == Write(Patch) ==> !InBatch(c, s, id)
  {
    hide InOrder, WriterNext, ReaderNext, WatchdogNext;
    if id in EntryIds(c, s.queued) {
      QueuedNotInHand(c, s, id);
    }
    if a.Write? {
      QueueingNext(c, s, a.w);
    }
  }

  /** In every run, a record of an order still pending when its batch had been written, acked or timed out,
      carries the clock at the moment the write returned. */
  lemma WrittenTime(c: Config, actions: seq<Action>, w: nat, p: nat, e: Event)
    requires Run(c, actions).Some? && w < p < |actions| && actions[w] == Write(WriteOk) && actions[p] == Write(Patch)
    requires forall j :: w < j < p ==> actions[j] != Write(WriteOk)
    requires InBatch(c, Was(c, actions, p), e.id) && e.id in Was(c, actions, p).pending
    requires e in Outgoing(Run(c, actions).value)
    ensures e.sendTs == Was(c, actions, w).now
  {
    hide Run, InBatch, Outgoing, SentAt, At;
    assert actions[..|actions|] == actions;
    PatchSettles(c, actions, p, |actions|, e.id);
    RunTimed(c, actions);
    LastWrote(c, actions, w, p);
  }

  lemma {:induction false} LastWrote(c: Config, actions: seq<Action>, w: nat, p: nat)
    requires Run(c, actions).Some? && w < p <= |actions| && actions[w] == Write(WriteOk)
    requires forall j :: w < j < p ==> actions[j] != Write(WriteOk)
    ensures Run(c, actions[..p]).Some? && At(c, actions[..p], Wrote) == Was(c, actions, w)
  {
    hide Run;
    Steps(c, actions, p - 1);
    if p - 1 > w {
      LastWrote(c, actions, w, p - 1);
    }
  }

  /** The watchdog holds what it evicted until it emits it, all at once and in order. */
  lemma {:induction false} EvictHeld(c: Config, actions: seq<Action>, k: nat, n: nat)
    requires Run(c, actions).Some? && k < n <= |actions| && actions[k].Watch? && actions[k].d.EvictDue?
    requires forall j :: k < j < n ==> actions[j] != Watch(EmitEvicted)
    ensures WatchdogHolds(Was(c, actions, n).watchdog) == WatchdogHolds(Was(c, actions, k + 1).watchdog)
    ensures Holding(Was(c, actions, n).watchdog)
  {
    hide Run, WriterNext, ReaderNext;
    Steps(c, actions, n - 1);
    var s := Was(c, actions, n - 1);
    if n - 1 > k {
      EvictHeld(c, actions, k, n - 1);
      hide WatchdogNext;
      match actions[n - 1] {
        case Clock(_) =>
        case CancelRun =>
        case Write(w) => WriterFrame(c, s, w);
        case Read(r) => ReaderFrame(s, r);
        case Watch(d) => HoldingNext(c, s, d);
      }
    } else {
      EvictHolding(c, s, actions[k].d.swept);
    }
  }

  predicate Holding(d: Watchdog) {
    d.EvictSub? || d.EvictNotify? || d.EvictEmit?
  }

  lemma HoldingNext(c: Config, s: State, a: WatchdogAction)
    requires WatchdogNext(c, s, a).Some? && Holding(s.watchdog) && !a.EmitEvicted?
    ensures var d := WatchdogNext(c, s, a).value.watchdog;
            Holding(d) && WatchdogHolds(d) == WatchdogHolds(s.watchdog)
  {
    hide Members, Taken, DueCount;
  }

  lemma EvictHolding(c: Config, s: State, swept: seq<string>)
    requires WatchdogNext(c, s, EvictDue(swept)).Some?
    ensures Holding(WatchdogNext(c, s, EvictDue(swept)).value.watchdog)
  {
    hide Members, Taken;
  }

  /** In every run, the next records the watchdog emits after an eviction are the orders that left the map
      then, each timed out and with the send time the map held. */
  lemma EvictionRecords(c: Config, actions: seq<Action>, k: nat, n: nat)
    requires Run(c, actions).Some? && k < n < |actions|
    requires actions[k].Watch? && actions[k].d.EvictDue? && actions[n] == Watch(EmitEvicted)
    requires forall j :: k < j < n ==> actions[j] != Watch(EmitEvicted)
    ensures var s, evicted := Was(c, actions, k), WatchdogHolds(Was(c, actions, k + 1).watchdog);
            && Was(c, actions, n + 1).events == Was(c, actions, n).events + evicted
            && |evicted| == |s.pending| - |Was(c, actions, k + 1).pending|
            && (forall e :: e in evicted ==> e.timedOut && e.id in s.pending && e.sendTs == s.pending[e.id].sendTs)
  {
    hide Run, WriterNext, ReaderNext, WatchdogNext;
    Steps(c, actions, k);
    Steps(c, actions, n);
    EvictHeld(c, actions, k, n);
    var s := Was(c, actions, k);
    EvictRecords(c, s, actions[k].d.swept);
    var ids := EvictIds(c, s, actions[k].d.swept);
    EmitsAll(c, Was(c, actions, n));
  }

  lemma EmitsAll(c: Config, s: State)
    requires WatchdogNext(c, s, EmitEvicted).Some?
    ensures WatchdogNext(c, s, EmitEvicted).value.events == s.events + WatchdogHolds(s.watchdog)
  {
  }
}
