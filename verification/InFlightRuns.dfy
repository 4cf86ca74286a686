/** Whole runs of the in-flight protocol: the accounting at the end. */
module InFlightRuns {
  import opened Wrappers
  import opened PendingOrders
  import opened InFlightProtocol
  import opened InFlightInvariants
  import opened InFlightCounts
  import opened InFlightExpiry

  // ----- Telemetry: one event per order acked or timed out -----

  function GoneBy(gone: seq<Departure>, cause: Cause): seq<string> {
    if gone == [] then []
    else GoneBy(gone[..|gone| - 1], cause) + if gone[|gone| - 1].cause == cause then [gone[|gone| - 1].id] else []
  }

  function Emitted(events: seq<Event>, timedOut: bool): seq<string> {
    if events == [] then []
    else
      Emitted(events[..|events| - 1], timedOut) +
      if events[|events| - 1].timedOut == timedOut then [events[|events| - 1].id] else []
  }

  /** The ack the reader has yet to emit. */
  function ReaderHolds(r: Reader): seq<Event> {
    if r.AckSub? || r.AckNotify? || r.AckEmit? then [r.ack] else []
  }

  /** The timeouts the watchdog has yet to emit. */
  function WatchdogHolds(d: Watchdog): seq<Event> {
    if d.EvictSub? || d.EvictNotify? || d.EvictEmit? then d.evicted else []
  }

  ghost predicate Uniform(events: seq<Event>, timedOut: bool) {
    forall e :: e in events ==> e.timedOut == timedOut
  }

  function IdsOf(events: seq<Event>): (ids: seq<string>)
    ensures |ids| == |events|
    ensures forall i :: 0 <= i < |events| ==> ids[i] == events[i].id
  {
    seq(|events|, i requires 0 <= i < |events| => events[i].id)
  }

  /** Acks and timeouts are emitted once each, in the order the orders left. */
  ghost predicate Reported(s: State) {
    && Uniform(ReaderHolds(s.reader), false)
    && Uniform(WatchdogHolds(s.watchdog), true)
    && Emitted(s.events, false) + IdsOf(ReaderHolds(s.reader)) == GoneBy(s.gone, Acked)
    && Emitted(s.events, true) + IdsOf(WatchdogHolds(s.watchdog)) == GoneBy(s.gone, TimedOut)
  }

  lemma DeparturesLast(gone: seq<Departure>, ids: seq<string>, how: Cause)
    requires ids != []
    ensures var all, n := gone + Departures(ids, how), |ids| - 1;
            && all[..|all| - 1] == gone + Departures(ids[..n], how)
            && all[|all| - 1] == Departure(ids[n], how)
  {
  }

  lemma {:induction false} GoneByConcat(gone: seq<Departure>, ids: seq<string>, how: Cause, cause: Cause)
    ensures GoneBy(gone + Departures(ids, how), cause) == GoneBy(gone, cause) + if how == cause then ids else []
  {
    if ids == [] {
      assert gone + Departures(ids, how) == gone;
    } else {
      var n := |ids| - 1;
      var all := gone + Departures(ids, how);
      DeparturesLast(gone, ids, how);
      GoneByConcat(gone, ids[..n], how, cause);
      assert ids == ids[..n] + [ids[n]];
    }
  }

  lemma {:induction false} EmittedConcat(events: seq<Event>, more: seq<Event>, kind: bool, timedOut: bool)
    requires Uniform(more, kind)
    ensures Emitted(events + more, timedOut) == Emitted(events, timedOut) + if kind == timedOut then IdsOf(more) else []
  {
    if more == [] {
      assert events + more == events;
    } else {
      var n := |more| - 1;
      var all := events + more;
      assert all[..|all| - 1] == events + more[..n];
      assert more[n] in more;
      EmittedConcat(events, more[..n], kind, timedOut);
      assert IdsOf(more) == IdsOf(more[..n]) + [more[n].id];
    }
  }

  lemma CleanReported(c: Config, s: State)
    requires Reported(s) && WriterNext(c, s, Clean).Some?
    ensures Reported(WriterNext(c, s, Clean).value)
  {
    var ids := CleanIds(c, s);
    WriterFrame(c, s, Clean);
    hide WriterNext;
    hide Distinct;
    GoneByConcat(s.gone, ids, WriteFailed, Acked);
    GoneByConcat(s.gone, ids, WriteFailed, TimedOut);
    hide GoneBy;
    hide Emitted;
  }

  lemma AckReported(s: State, id: string)
    requires Reported(s) && ReaderNext(s, Ack(id)).Some?
    ensures Reported(ReaderNext(s, Ack(id)).value)
  {
    if id in s.pending {
      assert Departures([id], Acked) == [Departure(id, Acked)];
      GoneByConcat(s.gone, [id], Acked, Acked);
      GoneByConcat(s.gone, [id], Acked, TimedOut);
      assert IdsOf([Event(id, false, s.pending[id].sendTs)]) == [id];
    }
    hide GoneBy;
    hide Emitted;
  }

  lemma EmitAckReported(s: State)
    requires Reported(s) && ReaderNext(s, EmitAck).Some?
    ensures Reported(ReaderNext(s, EmitAck).value)
  {
    hide GoneBy;
    hide Emitted;
    EmittedConcat(s.events, [s.reader.ack], false, false);
    EmittedConcat(s.events, [s.reader.ack], false, true);
  }

  lemma ReaderReported(s: State, a: ReaderAction)
    requires Reported(s) && ReaderNext(s, a).Some?
    ensures Reported(ReaderNext(s, a).value)
  {
    hide GoneBy;
    hide Emitted;
    if a.Ack? {
      AckReported(s, a.id);
    } else if a.EmitAck? {
      EmitAckReported(s);
    }
  }

  lemma TimeoutIds(events: seq<Event>, ids: seq<string>, m: PendingMap)
    requires |events| == |ids| && forall id :: id in ids ==> id in m
    requires forall i :: 0 <= i < |ids| ==> events[i] == Event(ids[i], true, m[ids[i]].sendTs)
    ensures IdsOf(events) == ids && Uniform(events, true)
  {
  }

  lemma EvictHolds(c: Config, s: State, swept: seq<string>) returns (ids: seq<string>)
    requires WatchdogNext(c, s, EvictDue(swept)).Some?
    ensures var s' := WatchdogNext(c, s, EvictDue(swept)).value;
            && s'.gone == s.gone + Departures(ids, TimedOut)
            && WatchdogHolds(s.watchdog) == []
            && IdsOf(WatchdogHolds(s'.watchdog)) == ids && Uniform(WatchdogHolds(s'.watchdog), true)
  {
    ids := EvictIds(c, s, swept);
    WatchdogStays(c, s, EvictDue(swept));
    hide WatchdogNext;
    hide Distinct;
    hide Uniform;
    forall id | id in ids ensures id in s.pending {
      assert id in Members(ids);
    }
    TimeoutIds(WatchdogNext(c, s, EvictDue(swept)).value.watchdog.evicted, ids, s.pending);
  }

  lemma EvictReported(c: Config, s: State, swept: seq<string>)
    requires Reported(s) && WatchdogNext(c, s, EvictDue(swept)).Some?
    ensures Reported(WatchdogNext(c, s, EvictDue(swept)).value)
  {
    hide WatchdogNext;
    hide GoneBy;
    hide Emitted;
    hide Uniform;
    var ids := EvictHolds(c, s, swept);
    WatchdogFrame(c, s, EvictDue(swept));
    GoneByConcat(s.gone, ids, TimedOut, Acked);
    GoneByConcat(s.gone, ids, TimedOut, TimedOut);
  }

  lemma EmitEvictedReported(c: Config, s: State)
    requires Reported(s) && WatchdogNext(c, s, EmitEvicted).Some?
    ensures Reported(WatchdogNext(c, s, EmitEvicted).value)
  {
    hide GoneBy;
    hide Emitted;
    EmittedConcat(s.events, s.watchdog.evicted, true, false);
    EmittedConcat(s.events, s.watchdog.evicted, true, true);
  }

  lemma WatchdogHeld(c: Config, s: State, a: WatchdogAction)
    requires WatchdogNext(c, s, a).Some? && !a.EvictDue? && !a.EmitEvicted?
    ensures WatchdogHolds(WatchdogNext(c, s, a).value.watchdog) == WatchdogHolds(s.watchdog)
  {
  }

  lemma ReportedKept(c: Config, s: State, a: Action)
    requires Reported(s) && Next(c, s, a).Some?
    ensures Reported(Next(c, s, a).value)
  {
    hide WriterNext;
    hide ReaderNext;
    hide WatchdogNext;
    hide GoneBy;
    hide Emitted;
    match a {
      case Clock(_) =>
      case CancelRun =>
      case Write(w) =>
        if w.Clean? {
          CleanReported(c, s);
        } else {
          WriterFrame(c, s, w);
        }
      case Read(r) => ReaderReported(s, r);
      case Watch(d) =>
        if d.EvictDue? {
          EvictReported(c, s, d.swept);
        } else if d.EmitEvicted? {
          EmitEvictedReported(c, s);
        } else {
          WatchdogFrame(c, s, d);
          WatchdogHeld(c, s, d);
        }
    }
  }

  // ----- After the final sweep -----

  /** Once the final sweep is over, only orders inserted after it are in the map. */
  ghost predicate SweptClean(c: Config, s: State) {
    && s.late <= Members(BatchIds(c, s.offered))
    && (if Swept(s) then s.pending.Keys <= s.late else s.late == {})
  }

  lemma InsertSwept(c: Config, s: State)
    requires ExactlyOnce(c, s) && Numbered(s) && SweptClean(c, s) && WriterNext(c, s, Insert).Some?
    ensures SweptClean(c, WriterNext(c, s, Insert).value)
  {
    hide Numbered;
    hide ExactlyOnce;
    hide WriterNext;
    hide Members;
    hide Distinct;
    InsertLate(c, s);
    InsertIds(c, s);
    BatchConcat(c, s.offered, s.writer.batch);
    MembersConcat(BatchIds(c, s.offered), BatchIds(c, s.writer.batch));
    WriterFrame(c, s, Insert);
  }

  lemma InsertLate(c: Config, s: State)
    requires WriterNext(c, s, Insert).Some?
    ensures s.writer.Inserting?
    ensures WriterNext(c, s, Insert).value.late ==
            if Swept(s) then s.late + Members(BatchIds(c, s.writer.batch)) else s.late
  {
    hide InsertAll;
    hide Members;
  }

  lemma WatchdogSwept(c: Config, s: State, a: WatchdogAction)
    requires SweptClean(c, s) && WatchdogNext(c, s, a).Some?
    ensures SweptClean(c, WatchdogNext(c, s, a).value)
  {
    hide WatchdogNext, Members;
    WatchdogFrame(c, s, a);
    WatchdogKeys(c, s, a);
    WatchdogSweeps(c, s, a);
  }

  /** Only the last eviction sweeps, and it empties the map. */
  lemma WatchdogSweeps(c: Config, s: State, a: WatchdogAction)
    requires WatchdogNext(c, s, a).Some?
    ensures Swept(WatchdogNext(c, s, a).value) ==> Swept(s) || WatchdogNext(c, s, a).value.pending == map[]
    ensures Swept(s) ==> Swept(WatchdogNext(c, s, a).value)
  {
    hide Taken, Distinct, Members;
  }

  lemma SweptCleanKept(c: Config, s: State, a: Action)
    requires ExactlyOnce(c, s) && Numbered(s) && SweptClean(c, s) && Next(c, s, a).Some?
    ensures SweptClean(c, Next(c, s, a).value)
  {
    hide WriterNext;
    hide ReaderNext;
    hide WatchdogNext;
    hide Members;
    hide ExactlyOnce;
    hide Numbered;
    match a {
      case Clock(_) =>
      case CancelRun =>
      case Write(w) =>
        if w.Insert? {
          InsertSwept(c, s);
        } else {
          WriterFrame(c, s, w);
          WriterKeys(c, s, w);
        }
      case Read(r) =>
        ReaderFrame(s, r);
        ReaderKeys(s, r);
      case Watch(d) => WatchdogSwept(c, s, d);
    }
  }

  // ----- Every run -----

  ghost predicate Good(c: Config, s: State) {
    && Numbered(s) && ExactlyOnce(c, s) && Gauged(s) && Capped(c, s) && NoLostWakeUp(c, s)
    && InOrder(s) && Stamped(s) && Positioned(s) && Tracks(c, s) && Covered(c, s)
    && Reported(s) && SweptClean(c, s)
  }

  lemma StartGood(c: Config)
    ensures Good(c, Start(c))
  {
  }

  lemma StepGood(c: Config, s: State, a: Action)
    requires Good(c, s) && Next(c, s, a).Some?
    ensures Good(c, Next(c, s, a).value)
  {
    hide Numbered;
    hide ExactlyOnce;
    hide Gauged;
    hide Capped;
    hide NoLostWakeUp;
    hide InOrder;
    hide Stamped;
    hide Positioned;
    hide Tracks;
    hide Covered;
    hide Reported;
    hide SweptClean;
    hide Next;
    NumberedKept(c, s, a);
    ExactlyOnceKept(c, s, a);
    GaugedKept(c, s, a);
    CappedKept(c, s, a);
    NoLostWakeUpKept(c, s, a);
    InOrderKept(c, s, a);
    StampedKept(c, s, a);
    PositionedKept(c, s, a);
    TracksKept(c, s, a);
    CoveredKept(c, s, a);
    ReportedKept(c, s, a);
    SweptCleanKept(c, s, a);
  }

  /** Every state of every interleaving is good. */
  lemma {:induction false} RunGood(c: Config, actions: seq<Action>)
    requires Run(c, actions).Some?
    ensures Good(c, Run(c, actions).value)
  {
    hide Good;
    if actions == [] {
      StartGood(c);
    } else {
      var before := actions[..|actions| - 1];
      RunGood(c, before);
      StepGood(c, Run(c, before).value, actions[|actions| - 1]);
    }
  }

  // ----- The accounting at the end -----

  predicate Finished(s: State) {
    s.writer.WriterDone? && s.reader.ReaderDone? && s.watchdog.WatchdogDone?
  }

  lemma {:induction false} GoneByCounts(gone: seq<Departure>)
    ensures |gone| == |GoneBy(gone, Acked)| + |GoneBy(gone, TimedOut)| + |GoneBy(gone, WriteFailed)|
  {
    if gone != [] {
      GoneByCounts(gone[..|gone| - 1]);
    }
  }

  lemma OnceCounts(c: Config, s: State)
    requires ExactlyOnce(c, s)
    ensures |s.offered| == |s.pending| + |s.gone|
  {
    var offered, gone := BatchIds(c, s.offered), GoneIds(s.gone);
    DistinctSize(offered);
    DistinctSize(gone);
    hide Distinct;
    hide Members;
    assert |s.pending.Keys + Members(gone)| == |s.pending.Keys| + |Members(gone)|;
  }

  /** At the end of a run each order offered was acked, timed out or failed in the write, once,
      with one event per ack and timeout, and the gauge is back at the map's size.  What is left
      in the map is exactly what was inserted after the final sweep and never left. */
  lemma FinalAccount(c: Config, actions: seq<Action>)
    requires Run(c, actions).Some? && Finished(Run(c, actions).value)
    ensures var s := Run(c, actions).value;
            && |s.offered| == |Emitted(s.events, false)| + |Emitted(s.events, true)|
                              + |GoneBy(s.gone, WriteFailed)| + |s.pending|
            && s.gauge == |s.pending|
            && s.pending.Keys == s.late - Members(GoneIds(s.gone))
            && Emitted(s.events, false) == GoneBy(s.gone, Acked)
            && Emitted(s.events, true) == GoneBy(s.gone, TimedOut)
  {
    RunGood(c, actions);
    var s := Run(c, actions).value;
    hide Run;
    FinishedAccount(c, s);
  }

  lemma FinishedAccount(c: Config, s: State)
    requires Good(c, s) && Finished(s)
    ensures |s.offered| == |Emitted(s.events, false)| + |Emitted(s.events, true)|
                           + |GoneBy(s.gone, WriteFailed)| + |s.pending|
    ensures s.gauge == |s.pending|
    ensures s.pending.Keys == s.late - Members(GoneIds(s.gone))
    ensures Emitted(s.events, false) == GoneBy(s.gone, Acked)
    ensures Emitted(s.events, true) == GoneBy(s.gone, TimedOut)
  {
    hide InOrder;
    hide Stamped;
    hide Positioned;
    hide Tracks;
    hide Covered;
    hide Numbered;
    hide Emitted;
    hide GoneBy;
    hide Distinct;
    hide Members;
    GoneByCounts(s.gone);
    OnceCounts(c, s);
  }

  /** In every run, a tick's eviction takes exactly the overdue orders out of the map. */
  lemma TimeoutsAreExact(c: Config, actions: seq<Action>, swept: seq<string>)
    requires Run(c, actions).Some?
    requires var d := Run(c, actions).value.watchdog; d.Evict? && !d.last
    ensures var s := Run(c, actions).value;
            var s' := Next(c, s, Watch(EvictDue(swept)));
            && s.watchdog.known <= |s.queued|
            && s'.Some?
            && s'.value.pending == s.pending - Overdue(c, s, s.watchdog.known, s.watchdog.at)
  {
    hide Good;
    hide Next;
    RunGood(c, actions);
    var s := Run(c, actions).value;
    hide Run;
    GoodEvicts(c, s);
    EvictPending(c, s, swept);
    MinusShared(s.pending, Members(EntryIds(c, s.watchdog.due)));
    hide Members;
    hide Overdue;
  }

  /** In every run, an overdue order is still pending after an eviction only if its writer is leaving, if it
      is in the writer's hands, or if its record came after the watchdog popped. */
  lemma SurvivorsExplained(c: Config, actions: seq<Action>, swept: seq<string>, id: string)
    requires Run(c, actions).Some?
    requires var d := Run(c, actions).value.watchdog; d.Evict? && !d.last
    ensures var s := Run(c, actions).value;
            var s' := Next(c, s, Watch(EvictDue(swept)));
            && s.watchdog.known <= |s.queued| && s'.Some?
            && (id in s'.value.pending && Deadline(s'.value.pending[id].sendTs) <= s.watchdog.at ==>
                  || Leaving(s.writer)
                  || id in BatchIds(c, Unqueued(s.writer))
                  || id in EntryIds(c, s.queued[s.watchdog.known..]))
  {
    hide Good, Next, Run, Overdue, Deadline;
    RunGood(c, actions);
    TimeoutsAreExact(c, actions, swept);
    var s := Run(c, actions).value;
    if id in s.pending && Deadline(s.pending[id].sendTs) <= s.watchdog.at {
      SurvivorOf(c, s, id);
    }
  }

  lemma SurvivorOf(c: Config, s: State, id: string)
    requires Good(c, s) && s.watchdog.Evict? && !s.watchdog.last && id in s.pending
    requires Deadline(s.pending[id].sendTs) <= s.watchdog.at
    ensures s.watchdog.known <= |s.queued|
    ensures || id in Overdue(c, s, s.watchdog.known, s.watchdog.at)
            || Leaving(s.writer)
            || id in BatchIds(c, Unqueued(s.writer))
            || id in EntryIds(c, s.queued[s.watchdog.known..])
  {
    hide Tracks, Deadline, Overdue, Covered;
    GoodEvicts(c, s);
    if !Leaving(s.writer) && id !in BatchIds(c, Unqueued(s.writer))
      && id !in EntryIds(c, s.queued[s.watchdog.known..]) {
      NoOverdueSurvives(c, s, id);
      assert id in s.pending.Keys * Members(EntryIds(c, s.watchdog.due));
    }
  }

  lemma GoodEvicts(c: Config, s: State)
    requires Good(c, s) && s.watchdog.Evict? && !s.watchdog.last
    ensures s.watchdog.known <= |s.queued|
    ensures s.pending.Keys * Members(EntryIds(c, s.watchdog.due)) == Overdue(c, s, s.watchdog.known, s.watchdog.at)
  {
    hide Tracks;
    EvictionIsScan(c, s);
  }

  lemma EvictPending(c: Config, s: State, swept: seq<string>)
    requires s.watchdog.Evict? && !s.watchdog.last
    ensures Next(c, s, Watch(EvictDue(swept))).Some?
    ensures Next(c, s, Watch(EvictDue(swept))).value.pending == s.pending - Members(EntryIds(c, s.watchdog.due))
  {
    hide Taken;
    hide Members;
  }

  lemma MinusShared(m: PendingMap, ids: set<string>)
    ensures m - ids == m - (m.Keys * ids)
  {
  }

  // ----- A run that leaves an order behind -----

  lemma Extend(c: Config, actions: seq<Action>, a: Action) returns (more: seq<Action>)
    requires Run(c, actions).Some?
    ensures Run(c, more) == Next(c, Run(c, actions).value, a)
  {
    more := actions + [a];
    assert more[..|more| - 1] == actions;
  }

  /** A writer past its checks, holding the first order. */
  lemma HoldFirst(c: Config) returns (actions: seq<Action>)
    requires c.maxInflight > 0 && c.batchMax > 0 && c.start < c.taskEnd
    ensures Run(c, actions) == Some(Start(c).(number := 1, writer := Inserting([Frame(1, 'O')], c.start)))
  {
    actions := [];
    actions := Extend(c, actions, Write(CheckStop));
    actions := Extend(c, actions, Write(CheckCap));
    actions := Extend(c, actions, Write(Pace));
    hide Run;
    actions := Extend(c, actions, Write(Collect([Frame(1, 'O')])));
  }

  lemma SweepNothing(c: Config, s: State, at: nat, known: nat)
    requires s.watchdog == Evict([], at, known, true) && s.pending == map[]
    ensures WatchdogNext(c, s, EvictDue([])) == Some(s.(watchdog := EvictSub([], true)))
  {
    assert EntryIds(c, []) == [];
    assert s.gone + Departures([], TimedOut) == s.gone;
    assert TimeoutEvents(map[], []) == [];
  }

  lemma EmitNothing(c: Config, s: State)
    requires s.watchdog == EvictSub([], true)
    ensures WatchdogNext(c, s, SubEvicted) == Some(s.(watchdog := EvictNotify([], true)))
    ensures WatchdogNext(c, s.(watchdog := EvictNotify([], true)), NotifyEvicted) ==
            Some(s.(watchdog := EvictEmit([], true)))
    ensures WatchdogNext(c, s.(watchdog := EvictEmit([], true)), EmitEvicted) == Some(s.(watchdog := WatchdogDone))
  {
    assert s.events + [] == s.events;
  }

  /** The clock passes the end of the drain and the watchdog finishes. */
  lemma SweepFirst(c: Config, before: seq<Action>, s: State) returns (actions: seq<Action>)
    requires Run(c, before) == Some(s) && s.watchdog.Tick? && s.pending == map[] && s.expiry == [] && s.popped == 0
    requires s.now <= c.drainEnd
    ensures Run(c, actions) == Some(s.(now := c.drainEnd, watchdog := WatchdogDone))
  {
    hide Run;
    actions := Extend(c, before, Clock(c.drainEnd));
    actions := Extend(c, actions, Watch(StartTick));
    actions := Extend(c, actions, Watch(PopDue));
    var d := s.(now := c.drainEnd, watchdog := Evict([], c.drainEnd, |s.queued|, true));
    assert s.expiry[..0] == [] && s.expiry[0..] == s.expiry;
    assert Run(c, actions) == Some(d);
    SweepNothing(c, d, c.drainEnd, |s.queued|);
    EmitNothing(c, d.(watchdog := EvictSub([], true)));
    hide WatchdogNext;
    actions := Extend(c, actions, Watch(EvictDue([])));
    actions := Extend(c, actions, Watch(SubEvicted));
    actions := Extend(c, actions, Watch(NotifyEvicted));
    actions := Extend(c, actions, Watch(EmitEvicted));
  }

  /** Under every configuration that sends at all, some run ends with an order never accounted
      for: the writer inserts it after the final sweep. */
  lemma LateInsertEscapes(c: Config) returns (actions: seq<Action>)
    requires c.maxInflight > 0 && c.batchMax > 0 && c.start < c.taskEnd <= c.drainEnd
    ensures Run(c, actions).Some? && Finished(Run(c, actions).value)
    ensures Run(c, actions).value.pending != map[]
  {
    actions := HoldFirst(c);
    actions := SweepFirst(c, actions, Run(c, actions).value);
    actions := InsertAndLeave(c, actions, Run(c, actions).value);
  }

  lemma InsertAndLeave(c: Config, before: seq<Action>, s: State) returns (actions: seq<Action>)
    requires Run(c, before) == Some(s) && s.writer.Inserting? && s.writer.batch != [] && s.now >= c.drainEnd
    requires s.reader.Reading? && s.watchdog.WatchdogDone?
    ensures Run(c, actions).Some? && Finished(Run(c, actions).value)
    ensures Run(c, actions).value.pending != map[]
  {
    hide Run;
    hide InsertAll;
    hide Members;
    InsertSome(c, s);
    actions := Extend(c, before, Write(Insert));
    actions := Extend(c, actions, Write(Add));
    actions := Extend(c, actions, Write(Abandon));
    actions := Extend(c, actions, Read(StopReading));
  }

  lemma InsertSome(c: Config, s: State)
    requires s.writer.Inserting? && s.writer.batch != []
    ensures InsertAll(s.pending, BatchIds(c, s.writer.batch), s.writer.startTs) != map[]
  {
    var ids := BatchIds(c, s.writer.batch);
    InsertAllKeys(s.pending, ids, s.writer.startTs);
    MembersHas(ids, 0);
    hide Members;
    hide InsertAll;
    assert ids[0] in InsertAll(s.pending, ids, s.writer.startTs);
  }

  lemma MembersHas(ids: seq<string>, i: nat)
    requires i < |ids|
    ensures ids[i] in Members(ids)
  {
  }
}
