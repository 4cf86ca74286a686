/** Counting over every interleaving: the gauge, the in-flight cap and the wake-up. */
module InFlightCounts {
  import opened PendingOrders
  import opened InFlightProtocol
  import opened InFlightInvariants

  // ----- How each step moves the size of the map -----

  /** The orders a writer step adds to the map, less those it removes. */
  function WriterDelta(s: State, s': State, a: WriterAction): int {
    if a.Insert? && s.writer.Inserting? then |s.writer.batch|
    else if a.Clean? && s'.writer.Subtracting? then 0 - s'.writer.removed
    else 0
  }

  lemma WriterCounts(c: Config, s: State, a: WriterAction)
    requires ExactlyOnce(c, s) && Numbered(s) && WriterNext(c, s, a).Some?
    ensures var s' := WriterNext(c, s, a).value;
            |s'.pending| == |s.pending| + WriterDelta(s, s', a)
  {
    hide WriterNext;
    WriterFrame(c, s, a);
    if a.Insert? {
      InsertIds(c, s);
      InsertFrom(c, s);
    } else if a.Clean? {
      var ids := CleanIds(c, s);
    } else if a.Patch? {
      PatchCounts(c, s);
    }
  }

  lemma InsertFrom(c: Config, s: State)
    requires WriterNext(c, s, Insert).Some?
    ensures s.writer.Inserting?
  {
  }

  lemma PatchCounts(c: Config, s: State)
    requires WriterNext(c, s, Patch).Some?
    ensures |WriterNext(c, s, Patch).value.pending| == |s.pending|
  {
    PatchKeys(s.pending, BatchIds(c, s.writer.batch), s.writer.sendTs);
    hide Patched;
  }

  lemma ReaderCounts(s: State, a: ReaderAction)
    requires ReaderNext(s, a).Some?
    ensures var s' := ReaderNext(s, a).value;
            && |s'.pending| == |s.pending| - (if s.reader.Reading? && s'.reader.AckSub? then 1 else 0)
  {
    if a.Ack? && a.id in s.pending {
      assert (s.pending - {a.id}).Keys == s.pending.Keys - {a.id};
      assert |(s.pending - {a.id}).Keys| == |s.pending.Keys| - 1;
    }
  }

  lemma WatchdogCounts(c: Config, s: State, a: WatchdogAction)
    requires WatchdogNext(c, s, a).Some?
    ensures var s' := WatchdogNext(c, s, a).value;
            && |s'.pending| == |s.pending| - (if a.EvictDue? && s'.watchdog.EvictSub? then |s'.watchdog.evicted| else 0)
            && (a.EvictDue? ==> s'.watchdog.EvictSub?)
  {
    hide WatchdogNext;
    WatchdogFrame(c, s, a);
    if a.EvictDue? {
      var ids := EvictIds(c, s, a.swept);
    }
  }

  // ----- The gauge -----

  /** What the gauge will still move by for changes already made to the map. */
  function WriterOwes(w: Writer): int {
    match w
    case Adding(batch) => |batch|
    case Subtracting(removed) => 0 - removed
    case _ => 0
  }

  function ReaderOwes(r: Reader): int {
    if r.AckSub? then -1 else 0
  }

  function WatchdogOwes(d: Watchdog): int {
    if d.EvictSub? then -|d.evicted| else 0
  }

  /** The gauge is the size of the map, but for adjustments on their way. */
  predicate Gauged(s: State) {
    s.gauge + WriterOwes(s.writer) + ReaderOwes(s.reader) + WatchdogOwes(s.watchdog) == |s.pending|
  }

  lemma WriterGauge(c: Config, s: State, a: WriterAction)
    requires WriterNext(c, s, a).Some?
    ensures var s' := WriterNext(c, s, a).value;
            s'.gauge + WriterOwes(s'.writer) == s.gauge + WriterOwes(s.writer) + WriterDelta(s, s', a)
  {
  }

  lemma ReaderGauge(s: State, a: ReaderAction)
    requires ReaderNext(s, a).Some?
    ensures var s' := ReaderNext(s, a).value;
            && s'.gauge + ReaderOwes(s'.reader)
               == s.gauge + ReaderOwes(s.reader) - (if s.reader.Reading? && s'.reader.AckSub? then 1 else 0)
            && WriterOwes(s'.writer) == WriterOwes(s.writer)
  {
  }

  lemma WatchdogGauge(c: Config, s: State, a: WatchdogAction)
    requires WatchdogNext(c, s, a).Some?
    ensures var s' := WatchdogNext(c, s, a).value;
            && s'.gauge + WatchdogOwes(s'.watchdog)
               == s.gauge + WatchdogOwes(s.watchdog)
                  - (if a.EvictDue? && s'.watchdog.EvictSub? then |s'.watchdog.evicted| else 0)
            && WriterOwes(s'.writer) == WriterOwes(s.writer)
  {
    hide Taken;
    hide Distinct;
  }

  lemma GaugedKept(c: Config, s: State, a: Action)
    requires ExactlyOnce(c, s) && Numbered(s) && Gauged(s) && Next(c, s, a).Some?
    ensures Gauged(Next(c, s, a).value)
  {
    hide WriterNext;
    hide ReaderNext;
    hide WatchdogNext;
    match a {
      case Clock(_) =>
      case CancelRun =>
      case Write(w) =>
        WriterCounts(c, s, w);
        WriterGauge(c, s, w);
        WriterFrame(c, s, w);
      case Read(r) =>
        ReaderCounts(s, r);
        ReaderGauge(s, r);
        ReaderFrame(s, r);
      case Watch(d) =>
        WatchdogCounts(c, s, d);
        WatchdogGauge(c, s, d);
        WatchdogFrame(c, s, d);
    }
  }

  // ----- The cap -----

  /** Past the capacity check, and the batch not in the map yet. */
  predicate HasRoom(w: Writer) {
    w.Pacing? || w.Collecting? || w.Inserting?
  }

  /** The map stays under the cap plus one batch; a writer past the check saw room, and keeps it. */
  predicate Capped(c: Config, s: State) {
    && (HasRoom(s.writer) ==> |s.pending| < c.maxInflight)
    && (s.writer.Inserting? ==> |s.writer.batch| <= c.batchMax)
    && (|s.pending| == 0 || |s.pending| < c.maxInflight + c.batchMax)
  }

  lemma WriterRoom(c: Config, s: State, a: WriterAction)
    requires WriterNext(c, s, a).Some?
    ensures var s' := WriterNext(c, s, a).value;
            && (HasRoom(s'.writer) ==> !a.Insert? && !a.Clean? && (HasRoom(s.writer) || |s.pending| < c.maxInflight))
            && (s'.writer.Inserting? ==> |s'.writer.batch| <= c.batchMax)
            && (a.Insert? ==> HasRoom(s.writer))
  {
  }

  lemma CappedKept(c: Config, s: State, a: Action)
    requires ExactlyOnce(c, s) && Numbered(s) && Capped(c, s) && Next(c, s, a).Some?
    ensures Capped(c, Next(c, s, a).value)
  {
    hide ExactlyOnce, Numbered;
    hide WriterNext;
    hide ReaderNext;
    hide WatchdogNext;
    match a {
      case Clock(_) =>
      case CancelRun =>
      case Write(w) =>
        WriterCounts(c, s, w);
        WriterRoom(c, s, w);
      case Read(r) =>
        ReaderCounts(s, r);
        ReaderFrame(s, r);
      case Watch(d) =>
        WatchdogCounts(c, s, d);
        WatchdogFrame(c, s, d);
    }
  }

  // ----- The wake-up -----

  /** A reader or watchdog that made room and has yet to notify. */
  predicate WillNotify(s: State) {
    || s.reader.AckSub? || s.reader.AckNotify?
    || ((s.watchdog.EvictSub? || s.watchdog.EvictNotify?) && s.watchdog.evicted != [])
  }

  /** A parked writer is never left asleep beside free room. */
  predicate NoLostWakeUp(c: Config, s: State) {
    && (s.writer == Parked(false) ==> !s.permit && (|s.pending| >= c.maxInflight || WillNotify(s)))
    && (s.writer.Polling? ==> |s.pending| >= c.maxInflight || s.permit || WillNotify(s))
  }

  lemma WriterSleep(c: Config, s: State, a: WriterAction)
    requires WriterNext(c, s, a).Some?
    ensures var s' := WriterNext(c, s, a).value;
            && (s'.writer == Parked(false) ==> s.writer.Polling? && !s.permit && !s'.permit && s'.pending == s.pending)
            && (s'.writer.Polling? ==> |s.pending| >= c.maxInflight && s'.pending == s.pending)
  {
  }

  lemma ReaderWakes(c: Config, s: State, a: ReaderAction)
    requires NoLostWakeUp(c, s) && ReaderNext(s, a).Some?
    ensures NoLostWakeUp(c, ReaderNext(s, a).value)
  {
    ReaderCounts(s, a);
  }

  lemma WatchdogWakes(c: Config, s: State, a: WatchdogAction)
    requires NoLostWakeUp(c, s) && WatchdogNext(c, s, a).Some?
    ensures NoLostWakeUp(c, WatchdogNext(c, s, a).value)
  {
    WatchdogCounts(c, s, a);
    hide Taken;
    hide Distinct;
  }

  lemma NoLostWakeUpKept(c: Config, s: State, a: Action)
    requires NoLostWakeUp(c, s) && Next(c, s, a).Some?
    ensures NoLostWakeUp(c, Next(c, s, a).value)
  {
    hide WriterNext;
    hide ReaderNext;
    hide WatchdogNext;
    match a {
      case Clock(_) =>
      case CancelRun =>
      case Write(w) =>
        WriterSleep(c, s, w);
        WriterFrame(c, s, w);
      case Read(r) => ReaderWakes(c, s, r);
      case Watch(d) => WatchdogWakes(c, s, d);
    }
  }
}
