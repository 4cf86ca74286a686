/** A fleet of tasks of one session feeding one engine: generated, rendered, parsed and matched. */
module Fleet {
  import opened Wrappers
  import opened Decimals
  import opened OrderIds
  import opened PriceTimeBook
  import opened OrderWire
  import opened FixFrame
  import opened FixOffsets
  import opened FixTemplate
  import opened FixCache
  import opened Generator
  import GeneratorRuns
  import EngineRuns

  /** Every task's setup carries the session and its own number. */
  datatype Task = Task(profile: Profile, mix: Mix, draws: seq<Draw>)

  /** `count` self-match ids rotate over the sequence numbers. */
  datatype Session = Session(version: string, id: string, count: nat, tasks: seq<Task>)

  ghost predicate SessionOk(s: Session) {
    && Identifier(s.version) && Identifier(s.id) && s.count <= SMP_ID_NONE
    && forall t :: 0 <= t < |s.tasks| ==> |s.tasks[t].draws| < U32_LIMIT
  }

  function SetupOf(s: Session, t: nat): Setup
    requires t < |s.tasks|
  {
    Setup(s.id, t, s.tasks[t].profile, s.tasks[t].mix)
  }

  /** The orders of one task, with the self-match ids they are sent with. */
  function Stream(s: Session, t: nat): seq<Action>
    requires t < |s.tasks|
  {
    var actions := GeneratorRuns.Run(SetupOf(s, t), s.tasks[t].draws).1;
    seq(|actions|, i requires 0 <= i < |actions| => actions[i].(smp := SmpFor(s.count, actions[i].number)))
  }

  /** An arrival order at the engine: which task, and which of its orders. */
  datatype Arrival = Arrival(task: nat, k: nat)

  /** Any interleaving: each order arrives at most once. */
  ghost predicate Interleaving(s: Session, arrivals: seq<Arrival>) {
    && (forall i :: 0 <= i < |arrivals| ==>
          arrivals[i].task < |s.tasks| && arrivals[i].k < |Stream(s, arrivals[i].task)|)
    && (forall i, j :: 0 <= i < j < |arrivals| ==> arrivals[i] != arrivals[j])
  }

  function Sent(s: Session, a: Arrival): Action
    requires a.task < |s.tasks| && a.k < |Stream(s, a.task)|
  {
    Stream(s, a.task)[a.k]
  }

  /** The orders as the engine sees them. */
  ghost function Orders(s: Session, arrivals: seq<Arrival>): (os: seq<Order>)
    requires Interleaving(s, arrivals)
    ensures |os| == |arrivals|
    ensures forall i :: 0 <= i < |arrivals| ==> os[i] == OrderWire.Seen(s.id, arrivals[i].task, Sent(s, arrivals[i]))
  {
    seq(|arrivals|, i requires 0 <= i < |arrivals| => OrderWire.Seen(s.id, arrivals[i].task, Sent(s, arrivals[i])))
  }

  // ----- Ids across tasks -----

  /** Ids of one session tell tasks, numbers and kinds apart. */
  lemma JoinTellsTasks(session: string, b: nat, m: nat, j: char, b': nat, n: nat, k: char)
    requires m < U32_LIMIT && n < U32_LIMIT && j != '_' && k != '_'
    requires JoinOrderId(session, b, m, j) == JoinOrderId(session, b', n, k)
    ensures b == b' && m == n && j == k
  {
    hide SplitOrderId;
    hide Dec;
    hide JoinOrderId;
    SplitJoin(session, b, m, j);
    SplitJoin(session, b', n, k);
    JoinParts(session, b, m, j);
    JoinParts(session, b', n, k);
    SameFront(session + "_", Dec(b), Dec(b'), "_" + Dec(m) + "_" + [j]);
    DecInjective(b, b');
  }

  lemma JoinParts(session: string, b: nat, m: nat, j: char)
    ensures JoinOrderId(session, b, m, j) == session + "_" + Dec(b) + ("_" + Dec(m) + "_" + [j])
  {
  }

  lemma SameFront(a: string, x: string, y: string, z: string)
    requires a + x + z == a + y + z
    ensures x == y
  {
    assert |x| == |y|;
    assert x == (a + x + z)[|a|..|a| + |x|] && y == (a + y + z)[|a|..|a| + |y|];
  }

  /** The k-th order of a task carries number k + 1. */
  lemma StreamNumbers(s: Session, t: nat, k: nat)
    requires SessionOk(s) && t < |s.tasks| && k < |Stream(s, t)|
    ensures Stream(s, t)[k].number == k + 1 < U32_LIMIT
  {
    var c := SetupOf(s, t);
    GeneratorRuns.RunKept(c, s.tasks[t].draws);
    hide GeneratorRuns.Run;
  }

  lemma FleetFresh(s: Session, arrivals: seq<Arrival>)
    requires SessionOk(s) && Interleaving(s, arrivals)
    ensures EngineRuns.FreshIds(Orders(s, arrivals))
  {
    hide SessionOk;
    hide Stream;
    var os := Orders(s, arrivals);
    forall i, j | 0 <= i < j < |os| ensures os[i].id != os[j].id {
      DifferentIds(s, arrivals[i], arrivals[j]);
    }
    forall j | 0 <= j < |os| ensures os[j].id != "" {
      IdNotEmpty(s.id, arrivals[j].task, Sent(s, arrivals[j]));
    }
  }

  lemma IdNotEmpty(session: string, bot: nat, a: Action)
    ensures ClOrdId(session, bot, a) != ""
  {
    assert |ClOrdId(session, bot, a)| > 0;
  }

  lemma DifferentIds(s: Session, a: Arrival, b: Arrival)
    requires SessionOk(s) && a != b
    requires a.task < |s.tasks| && a.k < |Stream(s, a.task)| && b.task < |s.tasks| && b.k < |Stream(s, b.task)|
    ensures ClOrdId(s.id, a.task, Sent(s, a)) != ClOrdId(s.id, b.task, Sent(s, b))
  {
    StreamNumbers(s, a.task, a.k);
    StreamNumbers(s, b.task, b.k);
    hide Stream;
    var x, y := Sent(s, a), Sent(s, b);
    if ClOrdId(s.id, a.task, x) == ClOrdId(s.id, b.task, y) {
      JoinTellsTasks(s.id, a.task, x.number, KindLetter(x.kind), b.task, y.number, KindLetter(y.kind));
      assert false;
    }
  }

  /** In whatever order a fleet's orders reach the engine, its book, index and quantities stay right. */
  lemma FleetGood(s: Session, arrivals: seq<Arrival>)
    requires SessionOk(s) && Interleaving(s, arrivals)
    ensures EngineRuns.Good(EngineRuns.Play(Orders(s, arrivals)))
  {
    FleetFresh(s, arrivals);
    EngineRuns.RunGood(Orders(s, arrivals));
  }

  // ----- Every order read is the order sent -----

  /** What a task sends can be written on the wire and read back. */
  lemma StreamClean(s: Session, t: nat, k: nat)
    requires SessionOk(s) && t < |s.tasks| && k < |Stream(s, t)|
    ensures CleanText(Stream(s, t)[k].origId) && Stream(s, t)[k].qty < U64_LIMIT && Stream(s, t)[k].smp <= SMP_ID_NONE
  {
    var c := SetupOf(s, t);
    GeneratorRuns.RunKept(c, s.tasks[t].draws);
    var actions := GeneratorRuns.Run(c, s.tasks[t].draws).1;
    TargetClean(c, actions, k);
    hide GeneratorRuns.Run;
  }

  lemma TargetClean(c: Setup, actions: seq<Action>, k: nat)
    requires Identifier(c.session) && k < |actions|
    requires GeneratorRuns.Numbered(actions) && GeneratorRuns.Targeted(c, actions)
    ensures CleanText(actions[k].origId)
  {
    var a := actions[k];
    if GeneratorRuns.Amends(a) {
      assert GeneratorRuns.TargetsEarlier(c, actions[..k], a);
      var e :| GeneratorRuns.Born(c, actions[..k], e) && GeneratorRuns.Follows(a, e);
      var i :| 0 <= i < k && GeneratorRuns.Opens(actions[..k][i]) && GeneratorRuns.LiveOf(c, actions[..k][i]) == e;
      IdClean(c, actions[..k][i]);
    }
  }

  lemma IdClean(c: Setup, a: Action)
    requires Identifier(c.session)
    ensures CleanText(ClOrdId(c.session, c.task, a))
  {
    IdentifierClean(c.session);
    DigitsClean(Dec(c.task));
    DigitsClean(Dec(a.number));
    hide Dec;
  }

  /** Every generated order, rendered to FIX with any send time, reads back at the engine as itself. */
  lemma EncodedReads(s: Session, arrivals: seq<Arrival>, i: nat, time: string)
    requires SessionOk(s) && Interleaving(s, arrivals) && i < |arrivals| && CleanText(time)
    ensures ParseOrder(Encode(s.version, s.id, arrivals[i].task, Sent(s, arrivals[i]), time)) ==
            Some(Orders(s, arrivals)[i])
  {
    hide ParseOrder;
    hide Encode;
    hide Stream;
    IdentifierClean(s.version);
    IdentifierClean(s.id);
    StreamClean(s, arrivals[i].task, arrivals[i].k);
    ParseEncode(s.version, s.id, arrivals[i].task, Sent(s, arrivals[i]), time);
  }
}
