/** The reference engine's book as lists: a record is known by its arrival number. */
module GoBookSpec {
  import opened Wrappers
  import opened PriceTimeBook
  import opened EngineSpec

  /** `idx` points from an id to the record that carries it. */
  datatype GoState = GoState(bids: seq<Resting>, asks: seq<Resting>, idx: map<string, nat>, stamp: nat)
  {
    function On(side: Side): seq<Resting> {
      if side == Buy then bids else asks
    }

    function Put(side: Side, list: seq<Resting>): GoState {
      if side == Buy then this.(bids := list) else this.(asks := list)
    }
  }

  const EMPTY_BOOK := GoState([], [], map[], 0)

  // ----- Participants -----

  function Split(s: string, sep: char): (parts: seq<string>)
    ensures parts != []
  {
    if s == [] then [[]]
    else
      var rest := Split(s[1..], sep);
      if s[0] == sep then [[]] + rest else [[s[0]] + rest[0]] + rest[1..]
  }

  /** The bot part of an order id; an id of fewer than four parts is its own participant. */
  function ParticipantOf(id: string): string {
    var parts := Split(id, '_');
    if |parts| < 4 then id else parts[|parts| - 3]
  }

  /** What an aggressor may report: volume against other participants, at the first such price. */
  datatype Report = Report(qty: nat, price: Option<int>)

  function ReportOf(fills: seq<Fill>, id: string): Report {
    if fills == [] then Report(0, None)
    else
      var before, f := ReportOf(fills[..|fills| - 1], id), fills[|fills| - 1];
      if f.liquidity != MAKER || ParticipantOf(f.id) == ParticipantOf(id) then before
      else Report(before.qty + f.qty, if before.price.None? then Some(f.price) else before.price)
  }

  lemma {:induction false} ReportConcat(a: seq<Fill>, b: seq<Fill>, id: string)
    ensures ReportOf(a + b, id).qty == ReportOf(a, id).qty + ReportOf(b, id).qty
    ensures ReportOf(a + b, id).price ==
            if ReportOf(a, id).price.Some? then ReportOf(a, id).price else ReportOf(b, id).price
  {
    if b == [] {
      assert a + b == a;
    } else {
      assert (a + b)[..|a + b| - 1] == a + b[..|b| - 1];
      ReportConcat(a, b[..|b| - 1], id);
    }
  }

  /** What one trade adds to the report. */
  lemma ReportTrade(o: Order, m: Resting, t: nat, id: string)
    ensures ReportOf(Trade(o, m, t), id) ==
            if ParticipantOf(m.id) == ParticipantOf(id) then Report(0, None) else Report(t, Some(m.price))
  {
    var fills := Trade(o, m, t);
    assert fills[..1] == [fills[0]] && [fills[0]][..0] == [];
    assert ReportOf([fills[0]], id) == Report(0, None);
  }

  // ----- The operations -----

  function Rest(s: GoState, id: string, side: Side, price: int, remaining: nat): GoState {
    var e := Resting(id, price, remaining, None, s.stamp + 1);
    s.Put(side, InsertSorted(s.On(side), side, e)).(idx := s.idx[id := s.stamp + 1], stamp := s.stamp + 1)
  }

  /** Matches greedily; what is left of a limit order may go behind its price. */
  function MatchOrder(s: GoState, o: Order, rest: bool): (GoState, seq<Fill>) {
    var away := Opposite(o.side);
    var g := Greedy(s.On(away), o, o.qty);
    var s' := s.Put(away, g.book).(idx := s.idx - Ids(g.done));
    if rest && o.kind == NewLimit && g.remaining > 0 then (Rest(s', o.id, o.side, o.price, g.remaining), g.fills)
    else (s', g.fills)
  }

  /** The place of a record in a list, by its arrival number. */
  function Seek(list: seq<Resting>, stamp: nat): (i: nat)
    ensures i <= |list| && (i < |list| ==> list[i].stamp == stamp)
    ensures forall j :: 0 <= j < i ==> list[j].stamp != stamp
  {
    if list == [] || list[0].stamp == stamp then 0 else 1 + Seek(list[1..], stamp)
  }

  lemma SeekHas(list: seq<Resting>, e: Resting)
    requires e in list
    ensures Seek(list, e.stamp) < |list|
  {
  }

  /** The record an id points to. */
  function Record(s: GoState, id: string): Option<(Side, nat)> {
    if id !in s.idx then None
    else
      var b, a := Seek(s.bids, s.idx[id]), Seek(s.asks, s.idx[id]);
      if b < |s.bids| then Some((Buy, b)) else if a < |s.asks| then Some((Sell, a)) else None
  }

  /** Looks for the id at the record's price, bids before asks. */
  function RemoveOrder(s: GoState, id: string): GoState {
    match Record(s, id)
    case None => s.(idx := s.idx - {id})
    case Some((side, i)) =>
      var price := s.On(side)[i].price;
      var s' := if Find(s.bids, id, price) < |s.bids| then s.(bids := Without(s.bids, id, price))
                else s.(asks := Without(s.asks, id, price));
      s'.(idx := s.idx - {id})
  }

  /** A same-price decrease changes the record where it stands; anything else queues a new one. */
  function ReplaceOrder(s: GoState, o: Order): GoState {
    match Record(s, o.origId)
    case None => s
    case Some((side, i)) =>
      var r := s.On(side)[i];
      if o.price == r.price && o.qty <= r.remaining then
        if o.id != "" && o.id != r.id then
          s.Put(side, s.On(side)[i := r.(remaining := o.qty, id := o.id)])
           .(idx := (s.idx - {r.id})[o.id := s.idx[o.origId]])
        else s.Put(side, s.On(side)[i := r.(remaining := o.qty)])
      else Rest(RemoveOrder(s, o.origId), o.id, o.side, o.price, o.qty)
  }

  function GoStep(s: GoState, o: Order): (GoState, seq<Fill>) {
    match o.kind
    case NewLimit => MatchOrder(s, o, true)
    case NewMarket => MatchOrder(s, o, false)
    case Cancel => (RemoveOrder(s, o.origId), [])
    case Replace => (ReplaceOrder(s, o), [])
  }
}
