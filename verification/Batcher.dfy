/** The telemetry batcher: events leave in chunks of one partition, none lost, in order. */
module Batcher {
  import opened Basics
  import opened Wrappers
  import opened Bands

  const MAX_EVENTS_PER_BATCH: nat := 1000

  /** The ids that place an event, and whatever else it carries. */
  datatype Event = Event(session: seq<bv8>, order: seq<bv8>, payload: nat)

  datatype Placement = Placement(partitions: int, width: int, band: nat)

  datatype Chunk = Chunk(partition: int, events: seq<Event>)

  type Buffers = map<int, seq<Event>>

  /** A leased band when there is one, otherwise the session's hash-derived band. */
  function PartitionOf(c: Placement, e: Event): int {
    if c.band != ORDER_BAND_UNSET then BandPartition(c.band, Fnv1a(e.order) as nat, c.partitions, c.width)
    else RustSessionBand(Fnv1a(e.session) as nat, Fnv1a(e.order) as nat, c.partitions, c.width)
  }

  function Group(m: Buffers, p: int): seq<Event> {
    if p in m then m[p] else []
  }

  /** Buffers one event; a group that reaches the limit leaves at once. */
  function Push(c: Placement, m: Buffers, e: Event): (Buffers, Option<Chunk>) {
    var p := PartitionOf(c, e);
    var group := Group(m, p) + [e];
    if |group| >= MAX_EVENTS_PER_BATCH then (m[p := []], Some(Chunk(p, group))) else (m[p := group], None)
  }

  /** A drain lists every non-empty group once, by rising partition. */
  ghost predicate Drains(m: Buffers, chunks: seq<Chunk>) {
    && (forall i :: 0 <= i < |chunks| ==> chunks[i].partition in m && chunks[i].events == m[chunks[i].partition] != [])
    && (forall i, j :: 0 <= i < j < |chunks| ==> chunks[i].partition < chunks[j].partition)
    && (forall p :: p in m && m[p] != [] ==> Chunk(p, m[p]) in chunks)
  }

  class PartitionBatcher {
    const placement: Placement
    var groups: Buffers

    constructor (placement: Placement)
      ensures this.placement == placement && groups == map[]
    {
      this.placement := placement;
      groups := map[];
    }

    method PushEvent(e: Event) returns (ready: Option<Chunk>)
      modifies this
      ensures (groups, ready) == Push(placement, old(groups), e)
    {
      var p := PartitionOf(placement, e);
      var group := (if p in groups then groups[p] else []) + [e];
      if |group| >= MAX_EVENTS_PER_BATCH {
        groups := groups[p := []];
        ready := Some(Chunk(p, group));
      } else {
        groups := groups[p := group];
        ready := None;
      }
    }

    /** Empties the buffers, lowest partition first. */
    method DrainReady() returns (chunks: seq<Chunk>)
      modifies this
      ensures groups == map[] && Drains(old(groups), chunks)
    {
      hide Drains;
      var rest := groups;
      chunks := [];
      DrainStarts(groups);
      while rest.Keys != {}
        invariant groups == old(groups) && Draining(groups, rest, chunks)
        decreases |rest|
      {
        LowestExists(rest);
        var p :| p in rest && Lowest(rest, p);
        DrainOne(groups, rest, p, chunks);
        if rest[p] != [] {
          chunks := chunks + [Chunk(p, rest[p])];
        }
        rest := rest - {p};
      }
      DrainEnds(groups, rest, chunks);
      groups := map[];
    }
  }

  predicate Lowest(m: Buffers, p: int) {
    forall q :: q in m ==> p <= q
  }

  /** Part of a drain: `rest` is still to be listed. */
  ghost predicate Draining(m: Buffers, rest: Buffers, chunks: seq<Chunk>) {
    && (forall p :: p in rest ==> p in m && rest[p] == m[p])
    && (forall i, p :: 0 <= i < |chunks| && p in rest ==> chunks[i].partition < p)
    && Drains(m - rest.Keys, chunks)
  }

  lemma DrainStarts(m: Buffers)
    ensures Draining(m, m, [])
  {
    assert m - m.Keys == map[];
  }

  lemma DrainEnds(m: Buffers, rest: Buffers, chunks: seq<Chunk>)
    requires Draining(m, rest, chunks) && rest.Keys == {}
    ensures Drains(m, chunks)
  {
    hide Drains;
    assert m - rest.Keys == m;
  }

  lemma {:induction false} LowestExists(m: Buffers)
    requires m.Keys != {}
    ensures exists p :: p in m && Lowest(m, p)
    decreases |m|
  {
    var k := SomeMember(m.Keys);
    var rest := m - {k};
    if rest.Keys == {} {
      forall q | q in m ensures k <= q {
        assert q == k || q in rest.Keys;
      }
      assert Lowest(m, k);
    } else {
      LowestExists(rest);
      var p :| p in rest && Lowest(rest, p);
      var low := if k < p then k else p;
      forall q | q in m ensures low <= q {
        assert q == k || q in rest;
      }
      assert low in m && Lowest(m, low);
    }
  }

  lemma DrainOne(m: Buffers, rest: Buffers, p: int, chunks: seq<Chunk>)
    requires p in rest && Lowest(rest, p) && Draining(m, rest, chunks)
    ensures Draining(m, rest - {p}, if rest[p] != [] then chunks + [Chunk(p, rest[p])] else chunks)
  {
    hide Drains;
    OneLess(m, rest, p);
    DrainOneMore(m - rest.Keys, p, m[p], chunks);
    assert rest[p] == m[p];
  }

  lemma OneLess(m: Buffers, rest: Buffers, p: int)
    requires p in rest && p in m
    ensures m - (rest - {p}).Keys == (m - rest.Keys)[p := m[p]]
  {
    assert m - (rest - {p}).Keys == (m - rest.Keys)[p := m[p]];
  }

  lemma DrainOneMore(m: Buffers, p: int, events: seq<Event>, chunks: seq<Chunk>)
    requires Drains(m, chunks) && p !in m
    requires forall i :: 0 <= i < |chunks| ==> chunks[i].partition < p
    ensures Drains(m[p := events], if events != [] then chunks + [Chunk(p, events)] else chunks)
  {
    var m' := m[p := events];
    var chunks' := if events != [] then chunks + [Chunk(p, events)] else chunks;
    forall q | q in m' && m'[q] != [] ensures Chunk(q, m'[q]) in chunks' {
      if q == p {
        assert chunks'[|chunks|] == Chunk(p, events);
      }
    }
  }

  // ----- Every sequence of pushes and drains -----

  datatype Op = PushOp(e: Event) | DrainOp(chunks: seq<Chunk>)

  datatype Log = Log(groups: Buffers, pushed: seq<Event>, emitted: seq<Chunk>)

  ghost function Apply(c: Placement, l: Log, op: Op): Option<Log> {
    match op
    case PushOp(e) =>
      var (groups, ready) := Push(c, l.groups, e);
      Some(Log(groups, l.pushed + [e], l.emitted + if ready.Some? then [ready.value] else []))
    case DrainOp(chunks) =>
      if Drains(l.groups, chunks) then Some(Log(map[], l.pushed, l.emitted + chunks)) else None
  }

  /** The events pushed to one partition. */
  function To(c: Placement, events: seq<Event>, p: int): seq<Event> {
    if events == [] then []
    else
      var e := events[|events| - 1];
      To(c, events[..|events| - 1], p) + if PartitionOf(c, e) == p then [e] else []
  }

  /** The events that left for one partition, in order. */
  function Out(chunks: seq<Chunk>, p: int): seq<Event> {
    if chunks == [] then []
    else
      var k := chunks[|chunks| - 1];
      Out(chunks[..|chunks| - 1], p) + if k.partition == p then k.events else []
  }

  /** Partition by partition: what left, then what is buffered, is what was pushed. */
  ghost predicate Lossless(c: Placement, l: Log) {
    && (forall p :: Out(l.emitted, p) + Group(l.groups, p) == To(c, l.pushed, p))
    && (forall p :: p in l.groups ==> |l.groups[p]| < 1000)
    && (forall k :: k in l.emitted ==> 0 < |k.events| <= 1000)
  }

  lemma OutLast(chunks: seq<Chunk>, k: Chunk, p: int)
    ensures Out(chunks + [k], p) == Out(chunks, p) + if k.partition == p then k.events else []
  {
    assert (chunks + [k])[..|chunks|] == chunks;
  }

  lemma ToLast(c: Placement, events: seq<Event>, e: Event, p: int)
    ensures To(c, events + [e], p) == To(c, events, p) + if PartitionOf(c, e) == p then [e] else []
  {
    assert (events + [e])[..|events|] == events;
  }

  lemma PushKept(c: Placement, l: Log, e: Event)
    requires Lossless(c, l)
    ensures Lossless(c, Apply(c, l, PushOp(e)).value)
  {
    hide PartitionOf, Out, To;
    var l' := Apply(c, l, PushOp(e)).value;
    forall p ensures Out(l'.emitted, p) + Group(l'.groups, p) == To(c, l'.pushed, p) {
      PushAt(c, l, e, p);
    }
  }

  lemma PushAt(c: Placement, l: Log, e: Event, p: int)
    requires Out(l.emitted, p) + Group(l.groups, p) == To(c, l.pushed, p)
    ensures var l' := Apply(c, l, PushOp(e)).value;
      Out(l'.emitted, p) + Group(l'.groups, p) == To(c, l'.pushed, p)
  {
    hide PartitionOf, Out, To;
    var q := PartitionOf(c, e);
    ToLast(c, l.pushed, e, p);
    OutLast(l.emitted, Chunk(q, Group(l.groups, q) + [e]), p);
    assert l.emitted + [] == l.emitted;
    OnePartition(Out(l.emitted, p), Group(l.groups, p), e);
  }

  lemma OnePartition(out: seq<Event>, group: seq<Event>, e: Event)
    ensures (out + (group + [e])) + [] == out + (group + [e]) == (out + group) + [e]
    ensures out + group == (out + group) + []
    ensures out + [] + group == out + group
  {
  }

  /** What a drain sends to one partition is that partition's group. */
  lemma {:induction false} DrainOut(m: Buffers, chunks: seq<Chunk>, n: nat, p: int)
    requires Drains(m, chunks) && n <= |chunks|
    ensures Out(chunks[..n], p) == if exists i :: 0 <= i < n && chunks[i].partition == p then Group(m, p) else []
  {
    if n > 0 {
      DrainOut(m, chunks, n - 1, p);
      assert chunks[..n] == chunks[..n - 1] + [chunks[n - 1]];
      OutLast(chunks[..n - 1], chunks[n - 1], p);
      if chunks[n - 1].partition == p {
        forall i | 0 <= i < n - 1 ensures chunks[i].partition != p {}
      }
    }
  }

  lemma DrainAll(m: Buffers, chunks: seq<Chunk>, p: int)
    requires Drains(m, chunks)
    ensures Out(chunks, p) == Group(m, p)
  {
    DrainOut(m, chunks, |chunks|, p);
    assert chunks[..|chunks|] == chunks;
    if p in m && m[p] != [] {
      assert Chunk(p, m[p]) in chunks;
      var i :| 0 <= i < |chunks| && chunks[i] == Chunk(p, m[p]);
    }
  }

  lemma {:induction false} OutConcat(a: seq<Chunk>, b: seq<Chunk>, p: int)
    ensures Out(a + b, p) == Out(a, p) + Out(b, p)
  {
    if b == [] {
      assert a + b == a;
    } else {
      hide Out;
      var n := |b| - 1;
      OutConcat(a, b[..n], p);
      assert a + b == (a + b[..n]) + [b[n]];
      OutLast(a + b[..n], b[n], p);
      assert b == b[..n] + [b[n]];
      OutLast(b[..n], b[n], p);
      ConcatAssoc(Out(a, p), Out(b[..n], p), if b[n].partition == p then b[n].events else []);
    }
  }

  lemma DrainKept(c: Placement, l: Log, chunks: seq<Chunk>)
    requires Lossless(c, l) && Drains(l.groups, chunks)
    ensures Lossless(c, Log(map[], l.pushed, l.emitted + chunks))
  {
    forall p ensures Out(l.emitted + chunks, p) + Group(map[], p) == To(c, l.pushed, p) {
      OutConcat(l.emitted, chunks, p);
      DrainAll(l.groups, chunks, p);
      assert Out(l.emitted, p) + Group(l.groups, p) == To(c, l.pushed, p);
      assert Out(l.emitted + chunks, p) + [] == Out(l.emitted + chunks, p);
    }
    forall k | k in l.emitted + chunks ensures 0 < |k.events| <= 1000 {
      if k !in l.emitted {
        var i :| 0 <= i < |chunks| && chunks[i] == k;
      }
    }
  }

  ghost function RunOps(c: Placement, ops: seq<Op>): Option<Log> {
    if ops == [] then Some(Log(map[], [], []))
    else
      match RunOps(c, ops[..|ops| - 1])
      case None => None
      case Some(l) => Apply(c, l, ops[|ops| - 1])
  }

  /** Over every sequence of pushes and drains no event is lost, doubled, reordered or misplaced. */
  lemma {:induction false} RunLossless(c: Placement, ops: seq<Op>)
    requires RunOps(c, ops).Some?
    ensures Lossless(c, RunOps(c, ops).value)
  {
    hide Lossless;
    if ops == [] {
      NothingLost(c);
    } else {
      RunLossless(c, ops[..|ops| - 1]);
      var l := RunOps(c, ops[..|ops| - 1]).value;
      match ops[|ops| - 1] {
        case PushOp(e) => PushKept(c, l, e);
        case DrainOp(chunks) => DrainKept(c, l, chunks);
      }
    }
  }

  lemma NothingLost(c: Placement)
    ensures Lossless(c, Log(map[], [], []))
  {
  }

  // ----- Placement of what left -----

  lemma {:induction false} ToPlaced(c: Placement, events: seq<Event>, p: int, e: Event)
    requires e in To(c, events, p)
    ensures e in events && PartitionOf(c, e) == p
  {
    hide PartitionOf;
    var n := |events| - 1;
    if e in To(c, events[..n], p) {
      ToPlaced(c, events[..n], p, e);
    }
  }

  lemma {:induction false} OutHolds(chunks: seq<Chunk>, k: Chunk, e: Event)
    requires k in chunks && e in k.events
    ensures e in Out(chunks, k.partition)
  {
    var n := |chunks| - 1;
    if chunks[n] != k {
      assert k in chunks[..n];
      OutHolds(chunks[..n], k, e);
    }
  }

  /** Every event that left was pushed and left in the chunk of its own partition. */
  lemma ChunkPlaced(c: Placement, ops: seq<Op>, k: Chunk, e: Event)
    requires RunOps(c, ops).Some? && k in RunOps(c, ops).value.emitted && e in k.events
    ensures e in RunOps(c, ops).value.pushed && PartitionOf(c, e) == k.partition
  {
    hide PartitionOf, Out, To;
    var l := RunOps(c, ops).value;
    RunLossless(c, ops);
    OutHolds(l.emitted, k, e);
    var p := k.partition;
    assert Out(l.emitted, p) + Group(l.groups, p) == To(c, l.pushed, p);
    ToPlaced(c, l.pushed, p, e);
  }

  /** A session with a leased band is confined to it: all its chunks stay inside the band's partitions. */
  lemma ChunkInBand(c: Placement, ops: seq<Op>, k: Chunk)
    requires 1 < c.partitions < I32_LIMIT && c.band < c.partitions / Clamp(c.width, c.partitions)
    requires RunOps(c, ops).Some? && k in RunOps(c, ops).value.emitted
    ensures var w := Clamp(c.width, c.partitions); c.band * w <= k.partition < c.band * w + w
  {
    hide Out, To, Apply;
    RunLossless(c, ops);
    var e := k.events[0];
    ChunkPlaced(c, ops, k, e);
    BandIsSet(c);
    LeasedBand(c.band, Fnv1a(e.order) as nat, c.partitions, c.width);
  }

  lemma BandIsSet(c: Placement)
    requires 1 < c.partitions < I32_LIMIT && c.band < c.partitions / Clamp(c.width, c.partitions)
    ensures c.band != ORDER_BAND_UNSET
  {
    assert c.partitions / Clamp(c.width, c.partitions) <= c.partitions;
  }

  /** Sessions with different leased bands never send to the same partition. */
  lemma SessionsApart(c: Placement, d: Placement, opsC: seq<Op>, opsD: seq<Op>, k: Chunk, m: Chunk)
    requires c.partitions == d.partitions && c.width == d.width && c.band != d.band && 1 < c.partitions < I32_LIMIT
    requires c.band < c.partitions / Clamp(c.width, c.partitions)
    requires d.band < c.partitions / Clamp(c.width, c.partitions)
    requires RunOps(c, opsC).Some? && k in RunOps(c, opsC).value.emitted
    requires RunOps(d, opsD).Some? && m in RunOps(d, opsD).value.emitted
    ensures k.partition != m.partition
  {
    hide RunOps, Clamp;
    ChunkInBand(c, opsC, k);
    ChunkInBand(d, opsD, m);
    var w := Clamp(c.width, c.partitions);
    if c.band < d.band {
      MulStep(c.band, d.band, w);
    } else {
      MulStep(d.band, c.band, w);
    }
  }

  /** In every run, a push hands out a chunk exactly when its event is the thousandth of its partition since
      the last chunk, and the chunk holds all thousand. */
  lemma PushEmits(c: Placement, ops: seq<Op>, e: Event)
    requires RunOps(c, ops).Some?
    ensures var m, p := RunOps(c, ops).value.groups, PartitionOf(c, e);
            var (m', ready) := Push(c, m, e);
            && (ready.Some? <==> |Group(m, p)| == 999)
            && (ready.Some? ==> ready.value == Chunk(p, Group(m, p) + [e]) && Group(m', p) == [])
            && (ready.None? ==> Group(m', p) == Group(m, p) + [e])
            && (forall q :: q != p ==> Group(m', q) == Group(m, q))
  {
    hide PartitionOf, Out, To;
    RunLossless(c, ops);
  }

  /** In every run, events leave for the partition that their order id, within the leased band or within
      their session's hash-derived band, picks. */
  lemma ChunkFormula(c: Placement, ops: seq<Op>, k: Chunk, e: Event)
    requires 1 < c.partitions && c.partitions + Clamp(c.width, c.partitions) - 1 < I32_LIMIT
    requires RunOps(c, ops).Some? && k in RunOps(c, ops).value.emitted && e in k.events
    ensures var n, w, order := c.partitions, Clamp(c.width, c.partitions), Fnv1a(e.order) as nat;
            && (c.band < n / w ==> k.partition == c.band * w + order % w)
            && (c.band == 0xffff_ffff ==>
                  var bands := (n + w - 1) / w;
                  bands > 0 && k.partition == (Fnv1a(e.session) as nat % bands * w + order % w) % n)
  {
    hide RunOps, Fnv1a, BandPartition, RustSessionBand, Clamp;
    ChunkPlaced(c, ops, k, e);
    var n, w := c.partitions, Clamp(c.width, c.partitions);
    if c.band < n / w {
      BandIsSet(c);
      LeasedBand(c.band, Fnv1a(e.order) as nat, n, c.width);
    }
    SessionPlaces(Fnv1a(e.session) as nat, Fnv1a(e.order) as nat, n, c.width);
  }
}
