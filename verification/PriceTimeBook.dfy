/** The reference order book: one priority list per side, best price first and oldest
    first within a price.  It has no levels, no parking and no restoring; every engine of
    the repository is proved against it. */
module PriceTimeBook {
  import opened Basics
  import opened Wrappers

  datatype Side = Buy | Sell

  datatype Kind = NewLimit | NewMarket | Cancel | Replace

  /** An incoming command.  `smp` is the self-match-prevention id; `None` is unconstrained. */
  datatype Order = Order(kind: Kind, side: Side, price: int, qty: nat,
                         id: string, origId: string, smp: Option<nat>)

  /** A resting order.  `stamp` is its arrival number. */
  datatype Resting = Resting(id: string, price: int, remaining: nat, smp: Option<nat>, stamp: nat)

  /** One side of a trade; `liquidity` is 2 for the taker and 1 for the maker. */
  datatype Fill = Fill(id: string, price: int, qty: nat, liquidity: nat)

  const TAKER: nat := 2
  const MAKER: nat := 1

  function Opposite(side: Side): Side {
    if side == Buy then Sell else Buy
  }

  function Min(a: nat, b: nat): nat {
    if a <= b then a else b
  }

  /** Lower rank is better: asks are best when cheap, bids when dear. */
  function Rank(side: Side, price: int): int {
    if side == Sell then price else -price
  }

  predicate Crosses(o: Order, price: int) {
    o.kind == NewMarket || if o.side == Buy then price <= o.price else price >= o.price
  }

  predicate SharesSmp(taker: Option<nat>, maker: Option<nat>) {
    taker.Some? && taker == maker
  }

  predicate Eligible(o: Order, maker: Resting) {
    Crosses(o, maker.price) && !SharesSmp(o.smp, maker.smp)
  }

  datatype Match = Match(fills: seq<Fill>, done: seq<string>, book: seq<Resting>, remaining: nat)

  /** Walks the makers in priority order and takes greedily from each eligible one, at the
      maker's price.  Ineligible makers stay where they are. */
  function Greedy(makers: seq<Resting>, o: Order, want: nat): Match {
    if want == 0 || makers == [] then
      Match([], [], makers, want)
    else
      var m := makers[0];
      if !Eligible(o, m) then
        var r := Greedy(makers[1..], o, want);
        r.(book := [m] + r.book)
      else
        var t := Min(want, m.remaining);
        var r := Greedy(makers[1..], o, want - t);
        Match(Trade(o, m, t) + r.fills, Gone(m, t) + r.done, Left(m, t) + r.book, r.remaining)
  }

  function Trade(o: Order, m: Resting, t: nat): seq<Fill> {
    [Fill(o.id, m.price, t, TAKER), Fill(m.id, m.price, t, MAKER)]
  }

  function Gone(m: Resting, t: nat): seq<string> {
    if t >= m.remaining then [m.id] else []
  }

  function Left(m: Resting, t: nat): seq<Resting> {
    if t >= m.remaining then [] else [m.(remaining := m.remaining - t)]
  }

  /** What the walk makes of one maker. */
  function Visit(o: Order, m: Resting, want: nat): Match {
    if want == 0 || !Eligible(o, m) then Match([], [], [m], want)
    else var t := Min(want, m.remaining); Match(Trade(o, m, t), Gone(m, t), Left(m, t), want - t)
  }

  lemma GreedyUnfold(makers: seq<Resting>, o: Order, want: nat)
    requires makers != []
    ensures var v := Visit(o, makers[0], want);
            var g := Greedy(makers[1..], o, v.remaining);
            Greedy(makers, o, want)
              == Match(v.fills + g.fills, v.done + g.done, v.book + g.book, g.remaining)
  {
    assert makers == [makers[0]] + makers[1..];
  }

  /** Matching a list is matching its front part and then its back part with what is left. */
  lemma {:induction false} GreedyConcat(a: seq<Resting>, b: seq<Resting>, o: Order, want: nat)
    ensures var ga := Greedy(a, o, want);
            var gb := Greedy(b, o, ga.remaining);
            Greedy(a + b, o, want)
              == Match(ga.fills + gb.fills, ga.done + gb.done, ga.book + gb.book, gb.remaining)
  {
    if a == [] {
      assert a + b == b;
    } else if want == 0 {
    } else {
      var m, t := a[0], Min(want, a[0].remaining);
      assert (a + b)[0] == m && (a + b)[1..] == a[1..] + b;
      if Eligible(o, m) {
        GreedyConcat(a[1..], b, o, want - t);
        var ga := Greedy(a[1..], o, want - t);
        var gb := Greedy(b, o, ga.remaining);
        ConcatAssoc(Trade(o, m, t), ga.fills, gb.fills);
        ConcatAssoc(Gone(m, t), ga.done, gb.done);
        ConcatAssoc(Left(m, t), ga.book, gb.book);
      } else {
        GreedyConcat(a[1..], b, o, want);
        var ga := Greedy(a[1..], o, want);
        ConcatAssoc([m], ga.book, Greedy(b, o, ga.remaining).book);
      }
    }
  }

  /** A list without eligible makers is left alone. */
  lemma {:induction false} GreedyNoneEligible(makers: seq<Resting>, o: Order, want: nat)
    requires forall m :: m in makers ==> !Eligible(o, m)
    ensures Greedy(makers, o, want) == Match([], [], makers, want)
  {
    if makers != [] && want != 0 {
      GreedyNoneEligible(makers[1..], o, want);
      assert makers == [makers[0]] + makers[1..];
    }
  }

  // ----- Greedy matching in progress: part of the list walked, part still to walk -----

  /** `total` is what has been produced so far followed by a greedy walk of `makers`. */
  ghost predicate Progress(total: Match, fills: seq<Fill>, done: seq<string>, kept: seq<Resting>,
                           makers: seq<Resting>, o: Order, want: nat)
  {
    var g := Greedy(makers, o, want);
    total == Match(fills + g.fills, done + g.done, kept + g.book, g.remaining)
  }

  lemma ProgressStart(makers: seq<Resting>, o: Order, want: nat)
    ensures Progress(Greedy(makers, o, want), [], [], [], makers, o, want)
  {
    var g := Greedy(makers, o, want);
    assert [] + g.fills == g.fills && [] + g.done == g.done && [] + g.book == g.book;
  }

  /** A walk that has nothing left to take, or nothing left to visit, is over. */
  lemma ProgressEnd(total: Match, fills: seq<Fill>, done: seq<string>, kept: seq<Resting>,
                    makers: seq<Resting>, o: Order, want: nat)
    requires Progress(total, fills, done, kept, makers, o, want)
    requires want == 0 || forall m :: m in makers ==> !Eligible(o, m)
    ensures total == Match(fills, done, kept + makers, want)
  {
    if want != 0 {
      GreedyNoneEligible(makers, o, want);
    }
  }

  /** Walking a whole stretch of makers at once. */
  lemma ProgressBlock(total: Match, fills: seq<Fill>, done: seq<string>, kept: seq<Resting>,
                      a: seq<Resting>, b: seq<Resting>, o: Order, want: nat)
    requires Progress(total, fills, done, kept, a + b, o, want)
    ensures var g := Greedy(a, o, want);
            && Progress(total, fills + g.fills, done + g.done, kept + g.book, b, o, g.remaining)
            && (g.remaining == 0 ==>
                  Progress(total, fills + g.fills, done + g.done, kept, g.book + b, o, 0))
  {
    GreedyConcat(a, b, o, want);
    var g := Greedy(a, o, want);
    var h := Greedy(b, o, g.remaining);
    ConcatAssoc(fills, g.fills, h.fills);
    ConcatAssoc(done, g.done, h.done);
    ConcatAssoc(kept, g.book, h.book);
  }

  lemma GreedyOne(m: Resting, o: Order, want: nat)
    requires want > 0
    ensures Greedy([m], o, want)
            == if Eligible(o, m)
               then var t := Min(want, m.remaining); Match(Trade(o, m, t), Gone(m, t), Left(m, t), want - t)
               else Match([], [], [m], want)
  {
    assert [m][1..] == [];
    if Eligible(o, m) {
      var t := Min(want, m.remaining);
      assert Trade(o, m, t) + [] == Trade(o, m, t);
      assert Gone(m, t) + [] == Gone(m, t);
      assert Left(m, t) + [] == Left(m, t);
    }
  }

  /** Taking from the first maker: it goes away, or it stays in front with what is left. */
  lemma TakeFirst(total: Match, fills: seq<Fill>, done: seq<string>, kept: seq<Resting>, m: Resting,
                  rest: seq<Resting>, o: Order, want: nat)
    requires want > 0 && Eligible(o, m)
    requires Progress(total, fills, done, kept, [m] + rest, o, want)
    ensures var t := Min(want, m.remaining);
            if t == m.remaining then
              Progress(total, fills + Trade(o, m, t), done + [m.id], kept, rest, o, want - t)
            else
              Progress(total, fills + Trade(o, m, t), done, kept, [m.(remaining := m.remaining - t)] + rest, o, 0)
  {
    GreedyOne(m, o, want);
    ProgressBlock(total, fills, done, kept, [m], rest, o, want);
    assert kept + [] == kept && done + [] == done;
  }

  // ----- Resting and removing -----

  /** Inserts after every order of the same or a better price. */
  function InsertSorted(book: seq<Resting>, side: Side, e: Resting): seq<Resting> {
    if book == [] || Rank(side, e.price) < Rank(side, book[0].price) then [e] + book
    else [book[0]] + InsertSorted(book[1..], side, e)
  }

  lemma {:induction false} InsertSortedSplit(a: seq<Resting>, b: seq<Resting>, side: Side, e: Resting)
    requires forall m :: m in a ==> Rank(side, m.price) <= Rank(side, e.price)
    requires forall m :: m in b ==> Rank(side, e.price) < Rank(side, m.price)
    ensures InsertSorted(a + b, side, e) == a + [e] + b
  {
    if a == [] {
      assert a + b == b;
    } else {
      assert (a + b)[0] == a[0] && (a + b)[1..] == a[1..] + b;
      InsertSortedSplit(a[1..], b, side, e);
      assert a == [a[0]] + a[1..];
    }
  }

  /** Index of the first order with this id at this price, or the length of the list. */
  function Find(book: seq<Resting>, id: string, price: int): (i: nat)
    ensures i <= |book|
    ensures i < |book| ==> book[i].id == id && book[i].price == price
    ensures forall j :: 0 <= j < i ==> !(book[j].id == id && book[j].price == price)
  {
    if book == [] || (book[0].id == id && book[0].price == price) then 0
    else 1 + Find(book[1..], id, price)
  }

  /** The list without its first order of this id and price. */
  function Without(book: seq<Resting>, id: string, price: int): seq<Resting> {
    var i := Find(book, id, price);
    if i < |book| then book[..i] + book[i + 1..] else book
  }
}
