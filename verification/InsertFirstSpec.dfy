/** The insert-then-match book: what it does to the reference lists. */
module InsertFirstSpec {
  import opened Wrappers
  import opened PriceTimeBook
  import opened EngineSpec

  datatype OrderType = GoodTillCancel | FillAndKill | MarketOrder

  /** An incoming order. */
  datatype Incoming = Incoming(id: string, orderType: OrderType, side: Side, price: int, qty: nat)

  /** One execution: both orders, each with its own limit price. */
  datatype Execution = Execution(bidId: string, bidPrice: int, askId: string, askPrice: int, qty: nat)

  /** The lists with the place of every id, and the type of every id. */
  datatype Book = Book(state: State, types: map<string, OrderType>)

  const NOTHING := Book(EngineSpec.EMPTY, map[])

  datatype Crossed = Crossed(trades: seq<Execution>, bids: seq<Resting>, asks: seq<Resting>, filled: seq<string>)

  function Execute(b: Resting, a: Resting, q: nat): Execution {
    Execution(b.id, b.price, a.id, a.price, q)
  }

  /** Trades the two best orders against each other for as long as they agree on a price. */
  function Cross(bids: seq<Resting>, asks: seq<Resting>): Crossed
    decreases |bids| + |asks|
  {
    if bids == [] || asks == [] || bids[0].price < asks[0].price then Crossed([], bids, asks, [])
    else
      var b, a := bids[0], asks[0];
      var q := Min(b.remaining, a.remaining);
      var r := Cross(Left(b, q) + bids[1..], Left(a, q) + asks[1..]);
      Crossed([Execute(b, a, q)] + r.trades, r.bids, r.asks, Gone(b, q) + Gone(a, q) + r.filled)
  }

  /** Matches the whole book; filled orders leave the id map. */
  function MatchAll(s: Book): (Book, seq<Execution>) {
    var c := Cross(s.state.bids, s.state.asks);
    (Book(State(c.bids, c.asks, s.state.index - Ids(c.filled), s.state.stamp), s.types - Ids(c.filled)), c.trades)
  }

  function CancelOrder(s: Book, id: string): Book {
    if id !in s.state.index then s else Book(Remove(s.state, id).state, s.types - {id})
  }

  /** Is the best order of a side fill-and-kill? */
  predicate KillableFront(s: Book, side: Side) {
    var list := s.state.On(side);
    list != [] && list[0].id in s.types && s.types[list[0].id].FillAndKill?
  }

  function KillFront(s: Book, side: Side): Book {
    if KillableFront(s, side) then CancelOrder(s, s.state.On(side)[0].id) else s
  }

  predicate CanMatch(s: Book, side: Side, price: int) {
    var away := s.state.On(Opposite(side));
    away != [] && if side == Buy then price >= away[0].price else price <= away[0].price
  }

  /** A market order takes the worst price on the other side and stays good till cancelled. */
  function Priced(s: Book, o: Incoming): Option<Incoming> {
    var away := s.state.On(Opposite(o.side));
    if !o.orderType.MarketOrder? then Some(o)
    else if away == [] then None
    else Some(o.(price := away[|away| - 1].price, orderType := GoodTillCancel))
  }

  function InsertOrder(s: Book, o: Incoming): Book {
    Book(Insert(s.state, o.id, o.side, o.price, o.qty, None), s.types[o.id := o.orderType])
  }

  function AddPriced(s: Book, o: Incoming): (Book, seq<Execution>) {
    if o.orderType.FillAndKill? && !CanMatch(s, o.side, o.price) then (s, [])
    else
      var (m, trades) := MatchAll(InsertOrder(s, o));
      (KillFront(KillFront(m, Buy), Sell), trades)
  }

  /** A duplicate id, or a market order with nothing to trade against, changes nothing. */
  function AddOrder(s: Book, o: Incoming): (Book, seq<Execution>) {
    if o.id in s.state.index then (s, [])
    else match Priced(s, o)
      case None => (s, [])
      case Some(p) => AddPriced(s, p)
  }

  /** Cancels and adds again, with the type the order had. */
  function ModifyOrder(s: Book, id: string, side: Side, price: int, qty: nat): (Book, seq<Execution>) {
    if id !in s.state.index || id !in s.types then (s, [])
    else AddOrder(CancelOrder(s, id), Incoming(id, s.types[id], side, price, qty))
  }
}
