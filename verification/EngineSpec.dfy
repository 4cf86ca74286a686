/** What the matching engine does to the reference book, command by command. */
module EngineSpec {
  import opened Wrappers
  import opened PriceTimeBook

  /** `index` locates resting orders by id; `stamp` counts arrivals. */
  datatype State = State(bids: seq<Resting>, asks: seq<Resting>,
                         index: map<string, (Side, int)>, stamp: nat)
  {
    function On(side: Side): seq<Resting> {
      if side == Buy then bids else asks
    }

    function Put(side: Side, list: seq<Resting>): State {
      if side == Buy then this.(bids := list) else this.(asks := list)
    }
  }

  const EMPTY := State([], [], map[], 0)

  datatype Outcome = Outcome(state: State, fills: seq<Fill>, done: seq<string>)

  function Ids(done: seq<string>): set<string> {
    set id | id in done
  }

  lemma ForgetNone<T>(index: map<string, T>)
    ensures index - Ids([]) == index
  {
  }

  lemma ForgetTwice<T>(index: map<string, T>, a: seq<string>, b: seq<string>)
    ensures index - Ids(a) - Ids(b) == index - Ids(a + b)
  {
    assert Ids(a + b) == Ids(a) + Ids(b);
  }

  lemma ForgetOn<T>(index: map<string, T>, before: seq<string>, done: seq<string>)
    requires before <= done
    ensures index - Ids(before) - Ids(done[|before|..]) == index - Ids(done)
  {
    ForgetTwice(index, before, done[|before|..]);
    assert done == before + done[|before|..];
  }

  /** Rests an order behind everything of its price. */
  function Insert(s: State, id: string, side: Side, price: int, remaining: nat, smp: Option<nat>): State {
    var e := Resting(id, price, remaining, smp, s.stamp + 1);
    s.Put(side, InsertSorted(s.On(side), side, e))
     .(index := s.index[id := (side, price)], stamp := s.stamp + 1)
  }

  /** Matches greedily; only what is left of a limit order rests. */
  function Submit(s: State, o: Order): Outcome {
    var away := Opposite(o.side);
    var g := Greedy(s.On(away), o, o.qty);
    var s' := s.Put(away, g.book).(index := s.index - Ids(g.done));
    if o.kind == NewLimit && g.remaining > 0 then
      Outcome(Insert(s', o.id, o.side, o.price, g.remaining, o.smp), g.fills, g.done)
    else
      Outcome(s', g.fills, g.done + [o.id])
  }

  function Remove(s: State, id: string): Outcome {
    if id !in s.index then Outcome(s, [], [])
    else
      var (side, price) := s.index[id];
      Outcome(s.Put(side, Without(s.On(side), id, price)).(index := s.index - {id}), [], [id])
  }

  /** A same-price decrease keeps its place in the queue. */
  predicate KeepsPlace(s: State, o: Order) {
    o.origId in s.index &&
    var (side, price) := s.index[o.origId];
    var i := Find(s.On(side), o.origId, price);
    o.price == price && i < |s.On(side)| && o.qty <= s.On(side)[i].remaining
  }

  function NewId(o: Order): string {
    if o.id == "" then o.origId else o.id
  }

  function Amend(s: State, o: Order): State
    requires KeepsPlace(s, o)
  {
    var (side, price) := s.index[o.origId];
    var list := s.On(side);
    var i := Find(list, o.origId, price);
    var s' := s.Put(side, list[i := list[i].(id := NewId(o), remaining := o.qty)]);
    if NewId(o) == o.origId then s'
    else s'.(index := (s.index - {o.origId})[NewId(o) := (side, price)])
  }

  /** Any other replace removes the old order and rests the new one without matching it. */
  function Change(s: State, o: Order): Outcome {
    if o.origId !in s.index then Outcome(s, [], [])
    else if KeepsPlace(s, o) then Outcome(Amend(s, o), [], [])
    else
      var r := Remove(s, o.origId);
      r.(state := Insert(r.state, NewId(o), o.side, o.price, o.qty, o.smp))
  }

  function Step(s: State, o: Order): Outcome {
    match o.kind
    case NewLimit => Submit(s, o)
    case NewMarket => Submit(s, o)
    case Cancel => Remove(s, o.origId)
    case Replace => Change(s, o)
  }
}
