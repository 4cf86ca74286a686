/** The order-in-flight protocol of one task: a writer, a reader and a watchdog over a shared
    pending map, expiry queue, wake-up permit and in-flight gauge.  Every action is one lock
    scope or one atomic operation; a run is any interleaving. */
module InFlightProtocol {
  import opened Basics
  import opened Wrappers
  import opened OrderIds
  import opened PendingOrders

  const RESPONSE_TIMEOUT_NS: nat := 5_000_000_000

  datatype Config = Config(session: string, task: nat, maxInflight: nat, batchMax: nat,
                           start: nat, taskEnd: nat, drainEnd: nat)

  /** An order as the generator numbers it. */
  datatype Frame = Frame(number: nat, kind: char)

  datatype Cause = Acked | TimedOut | WriteFailed

  /** An order leaving the pending map. */
  datatype Departure = Departure(id: string, cause: Cause)

  /** A telemetry record. */
  datatype Event = Event(id: string, timedOut: bool, sendTs: nat)

  datatype Writer =
    | Top
    | CapCheck
    | Full
    | Recheck
    | Polling
    | Parked(woken: bool)
    | Pacing
    | Collecting
    | Inserting(batch: seq<Frame>, startTs: nat)
    | Adding(batch: seq<Frame>)
    | Writing(batch: seq<Frame>)
    | Patching(batch: seq<Frame>, sendTs: nat)
    | Queueing(batch: seq<Frame>, sendTs: nat)
    | Cleaning(batch: seq<Frame>)
    | Subtracting(removed: nat)
    | WriterDone

  datatype Reader =
    | Reading
    | AckSub(ack: Event)
    | AckNotify(ack: Event)
    | AckEmit(ack: Event)
    | ReaderDone

  datatype Watchdog =
    | Tick
    | Pop(at: nat, last: bool)
    | Evict(due: seq<Expiry>, at: nat, known: nat, last: bool)
    | EvictSub(evicted: seq<Event>, last: bool)
    | EvictNotify(evicted: seq<Event>, last: bool)
    | EvictEmit(evicted: seq<Event>, last: bool)
    | WatchdogDone

  /** Below `number`: what the threads share and where they are.  The rest is history:
      every order offered, every queue record pushed and how many were popped, every
      departure and event, and the orders inserted after the final sweep. */
  datatype State = State(
    now: nat, cancelled: bool,
    pending: PendingMap, expiry: seq<Expiry>, permit: bool, gauge: int, number: nat,
    writer: Writer, reader: Reader, watchdog: Watchdog,
    offered: seq<Frame>, queued: seq<Expiry>, popped: nat,
    gone: seq<Departure>, events: seq<Event>, late: set<string>)

  datatype WriterAction =
    | CheckStop | CheckCap | CheckFull | CheckAgain | Poll | Wake | Quit | Pace
    | Collect(frames: seq<Frame>) | Insert | Add | WriteOk | WriteErr | Abandon
    | Patch | Queue | Clean | Subtract

  datatype ReaderAction = Ack(id: string) | SubAck | NotifyAck | EmitAck | StopReading

  datatype WatchdogAction = StartTick | PopDue | EvictDue(swept: seq<string>) | SubEvicted | NotifyEvicted | EmitEvicted

  datatype Action =
    | Clock(to: nat)
    | CancelRun
    | Write(w: WriterAction)
    | Read(r: ReaderAction)
    | Watch(d: WatchdogAction)

  function Start(c: Config): State {
    State(c.start, false, map[], [], false, 0, 0, Top, Reading, Tick, [], [], 0, [], [], {})
  }

  function Id(c: Config, f: Frame): string {
    JoinOrderId(c.session, c.task, f.number, f.kind)
  }

  function BatchIds(c: Config, batch: seq<Frame>): (ids: seq<string>)
    ensures |ids| == |batch|
    ensures forall i :: 0 <= i < |batch| ==> ids[i] == Id(c, batch[i])
  {
    seq(|batch|, i requires 0 <= i < |batch| => Id(c, batch[i]))
  }

  /** The id an expiry record stands for, rebuilt on eviction. */
  function EntryId(c: Config, e: Expiry): string {
    JoinOrderId(c.session, c.task, e.number, e.kind)
  }

  function EntryIds(c: Config, due: seq<Expiry>): (ids: seq<string>)
    ensures |ids| == |due|
    ensures forall i :: 0 <= i < |due| ==> ids[i] == EntryId(c, due[i])
  {
    seq(|due|, i requires 0 <= i < |due| => EntryId(c, due[i]))
  }

  function Deadline(sendTs: nat): nat {
    if sendTs + RESPONSE_TIMEOUT_NS > U64_MAX then U64_MAX else sendTs + RESPONSE_TIMEOUT_NS
  }

  /** The queue records of a written batch; an id that does not split gets none. */
  function Entries(c: Config, batch: seq<Frame>, sendTs: nat): seq<Expiry> {
    if batch == [] then []
    else
      Entries(c, batch[..|batch| - 1], sendTs) +
      match SplitOrderId(Id(c, batch[|batch| - 1]))
      case Some((n, k)) => [Expiry(Deadline(sendTs), n, k)]
      case None => []
  }

  predicate ShouldStop(c: Config, s: State) {
    s.cancelled || s.now >= c.taskEnd
  }

  predicate Kinds(frames: seq<Frame>) {
    forall f :: f in frames ==> f.kind in "OMCR"
  }

  /** The generator numbers orders consecutively. */
  predicate NextFrames(s: State, frames: seq<Frame>) {
    && s.number + |frames| < U32_LIMIT
    && Kinds(frames)
    && forall i :: 0 <= i < |frames| ==> frames[i].number == s.number + 1 + i
  }

  /** `notify_one`: wakes the parked writer, or stores at most one permit. */
  function Notify(s: State): State {
    if s.writer == Parked(false) then s.(writer := Parked(true)) else s.(permit := true)
  }

  function Departures(ids: seq<string>, cause: Cause): (ds: seq<Departure>)
    ensures |ds| == |ids|
    ensures forall i :: 0 <= i < |ids| ==> ds[i] == Departure(ids[i], cause)
  {
    seq(|ids|, i requires 0 <= i < |ids| => Departure(ids[i], cause))
  }

  function TimeoutEvents(m: PendingMap, ids: seq<string>): (es: seq<Event>)
    requires forall id :: id in ids ==> id in m
    ensures |es| == |ids|
    ensures forall i :: 0 <= i < |ids| ==> es[i] == Event(ids[i], true, m[ids[i]].sendTs)
  {
    seq(|ids|, i requires 0 <= i < |ids| => Event(ids[i], true, m[ids[i]].sendTs))
  }

  /** Refines the send time of the batch's orders that are still pending. */
  function Patched(m: PendingMap, ids: seq<string>, ts: nat): PendingMap {
    map id | id in m :: if id in ids then Pending(ts) else m[id]
  }

  // ----- The writer -----

  function WriterNext(c: Config, s: State, a: WriterAction): Option<State> {
    var w := s.writer;
    match a
    case CheckStop =>
      if !w.Top? then None
      else Some(s.(writer := if ShouldStop(c, s) then WriterDone else CapCheck))
    case CheckCap =>
      if !w.CapCheck? then None
      else Some(s.(writer := if |s.pending| >= c.maxInflight then Full else Pacing))
    case CheckFull =>
      if !w.Full? then None
      else Some(s.(writer := if ShouldStop(c, s) then WriterDone else Recheck))
    case CheckAgain =>
      if !w.Recheck? then None
      else Some(s.(writer := if |s.pending| < c.maxInflight then Pacing else Polling))
    case Poll =>
      if !w.Polling? then None
      else if s.permit then Some(s.(permit := false, writer := CapCheck))
      else Some(s.(writer := Parked(false)))
    case Wake =>
      if w != Parked(true) then None else Some(s.(writer := CapCheck))
    case Quit =>
      if s.cancelled && (w.Polling? || w.Parked? || w.Pacing?) then Some(s.(writer := WriterDone)) else None
    case Pace =>
      if !w.Pacing? then None else Some(s.(writer := Collecting))
    case Collect(frames) =>
      if !w.Collecting? || |frames| > c.batchMax || !NextFrames(s, frames) then None
      else if frames == [] then Some(s.(writer := Top))
      else Some(s.(writer := Inserting(frames, s.now), number := s.number + |frames|))
    case Insert =>
      if !w.Inserting? then None
      else
        var ids := BatchIds(c, w.batch);
        Some(s.(pending := InsertAll(s.pending, ids, w.startTs), offered := s.offered + w.batch,
                writer := Adding(w.batch), late := if Swept(s) then s.late + Members(ids) else s.late))
    case Add =>
      if !w.Adding? then None else Some(s.(gauge := s.gauge + |w.batch|, writer := Writing(w.batch)))
    case WriteOk =>
      if !w.Writing? then None else Some(s.(writer := Patching(w.batch, s.now)))
    case WriteErr =>
      if !w.Writing? then None else Some(s.(writer := Cleaning(w.batch)))
    case Abandon =>
      if w.Writing? && (s.cancelled || s.now >= c.drainEnd) then Some(s.(writer := WriterDone)) else None
    case Patch =>
      if !w.Patching? then None
      else
        Some(s.(pending := Patched(s.pending, BatchIds(c, w.batch), w.sendTs), writer := Queueing(w.batch, w.sendTs)))
    case Queue =>
      if !w.Queueing? then None
      else
        var entries := Entries(c, w.batch, w.sendTs);
        Some(s.(expiry := s.expiry + entries, queued := s.queued + entries, writer := Top))
    case Clean =>
      if !w.Cleaning? then None
      else
        var ids := BatchIds(c, w.batch);
        var taken := Taken(s.pending, ids);
        Some(s.(pending := s.pending - Members(ids), gone := s.gone + Departures(taken, WriteFailed),
                writer := Subtracting(|taken|)))
    case Subtract =>
      if !w.Subtracting? then None else Some(s.(gauge := s.gauge - w.removed, writer := WriterDone))
  }

  // ----- The reader -----

  function ReaderNext(s: State, a: ReaderAction): Option<State> {
    var r := s.reader;
    match a
    case Ack(id) =>
      if !r.Reading? then None
      else if id !in s.pending then Some(s)
      else
        Some(s.(pending := s.pending - {id}, gone := s.gone + [Departure(id, Acked)],
                reader := AckSub(Event(id, false, s.pending[id].sendTs))))
    case SubAck => if !r.AckSub? then None else Some(s.(gauge := s.gauge - 1, reader := AckNotify(r.ack)))
    case NotifyAck => if !r.AckNotify? then None else Some(Notify(s).(reader := AckEmit(r.ack)))
    case EmitAck => if !r.AckEmit? then None else Some(s.(events := s.events + [r.ack], reader := Reading))
    case StopReading => if !r.Reading? then None else Some(s.(reader := ReaderDone))
  }

  // ----- The watchdog -----

  /** Has the final sweep taken place? */
  predicate Swept(s: State) {
    match s.watchdog
    case EvictSub(_, last) => last
    case EvictNotify(_, last) => last
    case EvictEmit(_, last) => last
    case WatchdogDone => true
    case _ => false
  }

  /** The final drain returns the remaining keys in some order. */
  ghost predicate Enumerates(ids: seq<string>, keys: set<string>) {
    Distinct(ids) && Members(ids) == keys
  }

  ghost function WatchdogNext(c: Config, s: State, a: WatchdogAction): Option<State> {
    var d := s.watchdog;
    match a
    case StartTick =>
      if !d.Tick? then None else Some(s.(watchdog := Pop(s.now, s.now >= c.drainEnd)))
    case PopDue =>
      if !d.Pop? then None
      else
        var n := DueCount(s.expiry, d.at, d.last);
        Some(s.(expiry := s.expiry[n..], popped := s.popped + n,
                watchdog := Evict(s.expiry[..n], d.at, |s.queued|, d.last)))
    case EvictDue(swept) =>
      if !d.Evict? || (d.last && !Enumerates(swept, (s.pending - Members(EntryIds(c, d.due))).Keys)) then None
      else
        var due := EntryIds(c, d.due);
        var ids := if d.last then Taken(s.pending, due) + swept else Taken(s.pending, due);
        EvictedIn(s.pending, due, swept, d.last);
        Some(s.(pending := if d.last then map[] else s.pending - Members(due),
                gone := s.gone + Departures(ids, TimedOut),
                watchdog := EvictSub(TimeoutEvents(s.pending, ids), d.last)))
    case SubEvicted =>
      if !d.EvictSub? then None
      else Some(s.(gauge := s.gauge - |d.evicted|, watchdog := EvictNotify(d.evicted, d.last)))
    case NotifyEvicted =>
      if !d.EvictNotify? then None
      else Some((if d.evicted == [] then s else Notify(s)).(watchdog := EvictEmit(d.evicted, d.last)))
    case EmitEvicted =>
      if !d.EvictEmit? then None
      else Some(s.(events := s.events + d.evicted, watchdog := if d.last then WatchdogDone else Tick))
  }

  lemma EvictedIn(m: PendingMap, due: seq<string>, swept: seq<string>, last: bool)
    requires last ==> Enumerates(swept, (m - Members(due)).Keys)
    ensures forall id :: id in (if last then Taken(m, due) + swept else Taken(m, due)) ==> id in m
  {
    TakenMembers(m, due);
    if last {
      forall id | id in swept ensures id in m {
        assert id in Members(swept);
      }
    }
  }

  ghost function Next(c: Config, s: State, a: Action): Option<State> {
    match a
    case Clock(to) => if to >= s.now then Some(s.(now := to)) else None
    case CancelRun => Some(s.(cancelled := true))
    case Write(w) => WriterNext(c, s, w)
    case Read(r) => ReaderNext(s, r)
    case Watch(d) => WatchdogNext(c, s, d)
  }

  /** A run is a sequence of enabled actions. */
  ghost function Run(c: Config, actions: seq<Action>): Option<State> {
    if actions == [] then Some(Start(c))
    else
      match Run(c, actions[..|actions| - 1])
      case Some(s) => Next(c, s, actions[|actions| - 1])
      case None => None
  }
}
