/** The matcher task: it owns the engine and the routes, acknowledges every command and sends
    each fill to the connection that owns the order. */
module Matcher {
  import opened Basics
  import opened Wrappers
  import opened PriceTimeBook
  import opened EngineSpec
  import opened BookInvariants
  import opened MatchingEngine
  import opened EngineRuns

  datatype Wire = Fix | Http | Ws

  /** Where an order's responses go. */
  datatype Route = Route(wire: Wire, connection: nat)

  datatype Command = Command(order: Order, route: Route)

  datatype Message =
    | Ack(to: Route, id: string, number: nat)
    | Report(to: Route, fill: Fill, number: nat)

  datatype Desk = Desk(engine: State, routes: map<string, Route>, number: nat, sent: seq<Message>)

  const START := Desk(EMPTY, map[], 1, [])

  /** The reports for a list of fills: a fill without a route is dropped. */
  function Reports(fills: seq<Fill>, routes: map<string, Route>, number: nat): seq<Message> {
    if fills == [] then []
    else if fills[0].id in routes then
      [Report(routes[fills[0].id], fills[0], number)] + Reports(fills[1..], routes, number + 1)
    else
      Reports(fills[1..], routes, number)
  }

  function Serve(d: Desk, c: Command): Desk {
    var routes := d.routes[c.order.id := c.route];
    var r := Step(d.engine, c.order);
    var reports := Reports(r.fills, routes, d.number + 1);
    Desk(r.state, routes - Ids(r.done), d.number + 1 + |reports|,
         d.sent + [Ack(c.route, c.order.id, d.number)] + reports)
  }

  function ServeAll(cs: seq<Command>): Desk {
    if cs == [] then START else Serve(ServeAll(cs[..|cs| - 1]), cs[|cs| - 1])
  }

  class Task {
    const engine: Engine
    var routes: map<string, Route>
    var number: nat
    var sent: seq<Message>

    ghost predicate Valid()
      reads this, engine
    {
      engine.Valid()
    }

    ghost function View(): Desk
      reads this, engine
    {
      Desk(engine.View(), routes, number, sent)
    }

    constructor ()
      ensures Valid() && fresh(engine) && View() == START
    {
      engine := new Engine();
      routes, number, sent := map[], 1, [];
    }

    method Handle(c: Command)
      requires Valid()
      modifies this, engine
      ensures Valid() && View() == Serve(old(View()), c)
    {
      hide Step;
      hide Reports;
      hide Ids;
      var id := c.order.id;
      routes := routes[id := c.route];
      sent := sent + [Ack(c.route, id, number)];
      number := number + 1;
      var fills, done := engine.Process(c.order);
      SendReports(fills);
      Forget(done);
    }

    method SendReports(fills: seq<Fill>)
      modifies this`sent, this`number
      ensures sent == old(sent) + Reports(fills, routes, old(number))
      ensures number == old(number) + |Reports(fills, routes, old(number))|
    {
      ghost var all := Reports(fills, routes, number);
      assert fills[0..] == fills;
      for i := 0 to |fills|
        invariant sent + Reports(fills[i..], routes, number) == old(sent) + all
        invariant number + |Reports(fills[i..], routes, number)| == old(number) + |all|
      {
        var f := fills[i];
        assert fills[i..][1..] == fills[i + 1..] && fills[i..][0] == f;
        if f.id in routes {
          ConcatAssoc(sent, [Report(routes[f.id], f, number)], Reports(fills[i + 1..], routes, number + 1));
          sent := sent + [Report(routes[f.id], f, number)];
          number := number + 1;
        }
      }
    }

    method Forget(done: seq<string>)
      modifies this`routes
      ensures routes == old(routes) - Ids(done)
    {
      for i := 0 to |done|
        invariant routes == old(routes) - Ids(done[..i])
      {
        assert done[..i + 1] == done[..i] + [done[i]];
        assert Ids(done[..i + 1]) == Ids(done[..i]) + {done[i]};
        routes := routes - {done[i]};
      }
      assert done[..|done|] == done;
    }

    method Run(cs: seq<Command>)
      requires Valid() && View() == START
      modifies this, engine
      ensures Valid() && View() == ServeAll(cs)
    {
      for i := 0 to |cs|
        invariant Valid() && View() == ServeAll(cs[..i])
      {
        assert cs[..i + 1][..i] == cs[..i];
        Handle(cs[i]);
      }
      assert cs[..|cs|] == cs;
    }
  }

  // ----- Every fill is sent, to the connection that last used the order's id -----

  function OrdersOf(cs: seq<Command>): (os: seq<Order>)
    ensures |os| == |cs| && forall i :: 0 <= i < |cs| ==> os[i] == cs[i].order
  {
    seq(|cs|, i requires 0 <= i < |cs| => cs[i].order)
  }

  /** New and replacing orders bring fresh ids; cancels may carry any id. */
  ghost predicate FreshCommands(cs: seq<Command>) {
    FreshIds(OrdersOf(cs))
  }

  /** The connection of the latest command that carries an id. */
  function LastRoute(cs: seq<Command>, id: string): Option<Route> {
    if cs == [] then None
    else
      var c := cs[|cs| - 1];
      if c.order.id == id then Some(c.route) else LastRoute(cs[..|cs| - 1], id)
  }

  /** The connection of the new or replacing order that brought an id. */
  function OwnRoute(cs: seq<Command>, id: string): Option<Route> {
    if cs == [] then None
    else
      var c := cs[|cs| - 1];
      if c.order.id == id && c.order.kind != Cancel then Some(c.route) else OwnRoute(cs[..|cs| - 1], id)
  }

  /** Every resting order was brought by some command and is routed to the latest one with its id. */
  ghost predicate Routed(d: Desk, cs: seq<Command>) {
    forall id :: id in d.engine.index ==>
      id in d.routes && LastRoute(cs, id) == Some(d.routes[id]) && OwnRoute(cs, id).Some?
  }

  lemma {:induction false} BroughtBy(cs: seq<Command>, id: string)
    requires OwnRoute(cs, id).Some?
    ensures exists i :: 0 <= i < |cs| && cs[i].order.id == id && cs[i].order.kind != Cancel
  {
    var n := |cs| - 1;
    if !(cs[n].order.id == id && cs[n].order.kind != Cancel) {
      BroughtBy(cs[..n], id);
      var i :| 0 <= i < n && cs[..n][i].order.id == id && cs[..n][i].order.kind != Cancel;
      assert cs[i].order.id == id;
    }
  }

  /** Who can appear in the fills and in the index after a command. */
  lemma FillsKnown(s: State, o: Order)
    requires Ok(s)
    ensures forall f :: f in Step(s, o).fills ==> f.id == o.id || f.id in s.index
  {
    if o.kind == NewLimit || o.kind == NewMarket {
      var makers := s.On(Opposite(o.side));
      forall f | f in Greedy(makers, o, o.qty).fills ensures f.id == o.id || f.id in s.index {
        FillsFromMakers(makers, o, o.qty, f);
        if f.id != o.id {
          var m :| m in makers && m.id == f.id;
        }
      }
    }
  }

  lemma {:induction false} FillsFromMakers(makers: seq<Resting>, o: Order, want: nat, f: Fill)
    requires f in Greedy(makers, o, want).fills
    ensures f.id == o.id || exists m :: m in makers && m.id == f.id
  {
    if makers != [] {
      var v := Visit(o, makers[0], want);
      GreedyUnfold(makers, o, want);
      if f in v.fills {
        assert makers[0] in makers;
      } else {
        FillsFromMakers(makers[1..], o, v.remaining, f);
      }
    }
  }

  /** What is reported done no longer rests. */
  lemma DoneLeaves(s: State, o: Order)
    requires Ok(s) && Fresh(o, s)
    ensures Ids(Step(s, o).done) !! Step(s, o).state.index.Keys
  {
    if o.kind == NewLimit || o.kind == NewMarket {
      var away := Opposite(o.side);
      var g := Greedy(s.On(away), o, o.qty);
      MatchSideOk(away, s.On(away), s.index, s.stamp, o, o.qty);
      assert o.id !in IdsOf(s.On(away));
      DoneConcat(g.done, [o.id]);
      hide Greedy;
    } else {
      RemoveOk(s, o.origId);
    }
  }

  lemma {:induction false} ReportsAll(fills: seq<Fill>, routes: map<string, Route>, number: nat)
    requires forall f :: f in fills ==> f.id in routes
    ensures var rs := Reports(fills, routes, number);
            && |rs| == |fills|
            && forall i :: 0 <= i < |fills| ==> rs[i] == Report(routes[fills[i].id], fills[i], number + i)
  {
    if fills != [] {
      assert fills[0] in fills;
      ReportsAll(fills[1..], routes, number + 1);
    }
  }

  /** A new or replacing order's id is not resting yet. */
  lemma NextIsFresh(d: Desk, cs: seq<Command>)
    requires FreshCommands(cs) && cs != [] && Routed(d, cs[..|cs| - 1])
    ensures Fresh(cs[|cs| - 1].order, d.engine)
  {
    var n := |cs| - 1;
    var o := OrdersOf(cs)[n];
    if o.kind != Cancel {
      forall k | k in d.engine.index ensures k != o.id {
        BroughtBy(cs[..n], k);
        var i :| 0 <= i < n && cs[..n][i].order.id == k && cs[..n][i].order.kind != Cancel;
        assert OrdersOf(cs)[i] == cs[i].order;
      }
    }
  }

  /** Serving a command keeps every resting order routed. */
  lemma ServeRouted(d: Desk, cs: seq<Command>)
    requires FreshCommands(cs) && cs != [] && Ok(d.engine) && Routed(d, cs[..|cs| - 1])
    ensures Ok(Serve(d, cs[|cs| - 1]).engine) && Routed(Serve(d, cs[|cs| - 1]), cs)
  {
    hide Step, Reports, FreshCommands;
    var n := |cs| - 1;
    var o, d' := cs[n].order, Serve(d, cs[n]);
    NextIsFresh(d, cs);
    StepOk(d.engine, o);
    DoneLeaves(d.engine, o);
    IndexGrows(d.engine, o);
    forall id | id in d'.engine.index
      ensures id in d'.routes && LastRoute(cs, id) == Some(d'.routes[id]) && OwnRoute(cs, id).Some?
    {
      assert id in d.engine.index || (id == o.id && o.kind != Cancel);
    }
  }

  lemma FreshPrefix(cs: seq<Command>, n: nat)
    requires FreshCommands(cs) && n <= |cs|
    ensures FreshCommands(cs[..n])
  {
    forall i | 0 <= i < n ensures OrdersOf(cs[..n])[i] == OrdersOf(cs)[i] {}
  }

  lemma {:induction false} DeskGood(cs: seq<Command>)
    requires FreshCommands(cs)
    ensures Ok(ServeAll(cs).engine) && Routed(ServeAll(cs), cs)
  {
    if cs != [] {
      FreshPrefix(cs, |cs| - 1);
      DeskGood(cs[..|cs| - 1]);
      ServeRouted(ServeAll(cs[..|cs| - 1]), cs);
    }
  }

  /** In every run, every fill of every command is sent, in order and numbered without gaps, to the
      connection of the latest command with the filled order's id. */
  lemma EveryFillSent(cs: seq<Command>, n: nat)
    requires FreshCommands(cs) && n < |cs|
    ensures var d, d' := ServeAll(cs[..n]), ServeAll(cs[..n + 1]);
            var fills := Step(d.engine, cs[n].order).fills;
            && |d'.sent| == |d.sent| + 1 + |fills|
            && d'.number == d.number + 1 + |fills|
            && forall i :: 0 <= i < |fills| ==>
                 var m := d'.sent[|d.sent| + 1 + i];
                 && m.Report? && m.fill == fills[i] && m.number == d.number + 1 + i
                 && LastRoute(cs[..n + 1], fills[i].id) == Some(m.to)
  {
    hide Step, Reports, FreshCommands;
    var d, c := ServeAll(cs[..n]), cs[n];
    var fills := Step(d.engine, c.order).fills;
    FreshPrefix(cs, n);
    DeskGood(cs[..n]);
    FillsKnown(d.engine, c.order);
    assert cs[..n + 1][..n] == cs[..n];
    var routes := d.routes[c.order.id := c.route];
    forall f | f in fills ensures f.id in routes && LastRoute(cs[..n + 1], f.id) == Some(routes[f.id]) {}
    ReportsAll(fills, routes, d.number + 1);
  }

  // ----- Exactly when that connection is the order's own -----

  /** The reports of one more command reach the connections that brought the filled orders. */
  ghost predicate ToOwners(cs: seq<Command>, c: Command) {
    var d, d' := ServeAll(cs), ServeAll(cs + [c]);
    forall j :: |d.sent| <= j < |d'.sent| && d'.sent[j].Report? ==>
      OwnRoute(cs + [c], d'.sent[j].fill.id) == Some(d'.sent[j].to)
  }

  /** The latest use of every resting order's id came over the order's own connection. */
  ghost predicate IdsKept(cs: seq<Command>) {
    forall id :: id in ServeAll(cs).engine.index ==> LastRoute(cs, id) == OwnRoute(cs, id)
  }

  lemma OneMore(cs: seq<Command>, c: Command)
    ensures (cs + [c])[..|cs|] == cs && (cs + [c])[..|cs| + 1] == cs + [c]
    ensures ServeAll(cs + [c]) == Serve(ServeAll(cs), c)
  {
    assert (cs + [c])[..|cs|] == cs && (cs + [c])[..|cs| + 1] == cs + [c];
  }

  lemma FillsOfNew(s: State, o: Order)
    requires o.kind == Cancel || o.kind == Replace
    ensures Step(s, o).fills == []
  {
  }

  lemma KeptReachesOwners(cs: seq<Command>, c: Command)
    requires FreshCommands(cs + [c]) && IdsKept(cs)
    ensures ToOwners(cs, c)
  {
    hide Step, Reports, FreshCommands, ServeAll;
    OneMore(cs, c);
    FreshPrefix(cs + [c], |cs|);
    DeskGood(cs);
    EveryFillSent(cs + [c], |cs|);
    var d, d' := ServeAll(cs), ServeAll(cs + [c]);
    FillsKnown(d.engine, c.order);
    if c.order.kind == Cancel || c.order.kind == Replace {
      FillsOfNew(d.engine, c.order);
    }
    var fills := Step(d.engine, c.order).fills;
    AckFirst(d, c);
    forall j | |d.sent| <= j < |d'.sent| && d'.sent[j].Report?
      ensures OwnRoute(cs + [c], d'.sent[j].fill.id) == Some(d'.sent[j].to)
    {
      var i := j - |d.sent| - 1;
      assert d'.sent[|d.sent| + 1 + i] == d'.sent[j];
      assert fills[i] in fills && d'.sent[j].fill == fills[i];
      KeptOne(cs, c, fills[i].id);
    }
  }

  lemma KeptOne(cs: seq<Command>, c: Command, id: string)
    requires if id == c.order.id then c.order.kind != Cancel else LastRoute(cs, id) == OwnRoute(cs, id)
    ensures LastRoute(cs + [c], id) == OwnRoute(cs + [c], id)
  {
    assert (cs + [c])[..|cs|] == cs;
  }

  lemma AckFirst(d: Desk, c: Command)
    ensures |Serve(d, c).sent| > |d.sent| && Serve(d, c).sent[|d.sent|].Ack?
  {
  }

  /** A market order for more than a whole side fills every maker on it. */
  lemma {:induction false} FillsWholeSide(makers: seq<Resting>, o: Order, want: nat, m: Resting)
    requires o.kind == NewMarket && o.smp == None && m in makers && want > Volume(makers)
    ensures exists f :: f in Greedy(makers, o, want).fills && f.id == m.id
  {
    hide Greedy;
    var h, rest := makers[0], makers[1..];
    var v := Visit(o, h, want);
    GreedyUnfold(makers, o, want);
    var g := Greedy(rest, o, v.remaining);
    if m == h {
      assert v.fills[1].id == m.id;
      assert v.fills[1] in v.fills + g.fills;
    } else {
      FillsWholeSide(rest, o, v.remaining, m);
      var f :| f in g.fills && f.id == m.id;
      assert f in v.fills + g.fills;
    }
  }

  function Volume(makers: seq<Resting>): nat {
    if makers == [] then 0 else makers[0].remaining + Volume(makers[1..])
  }

  /** Longer than every id so far, hence new. */
  function Length(cs: seq<Command>): nat {
    if cs == [] then 1 else Length(cs[..|cs| - 1]) + |cs[|cs| - 1].order.id|
  }

  lemma {:induction false} Longer(cs: seq<Command>, i: nat)
    requires i < |cs|
    ensures |cs[i].order.id| < Length(cs)
  {
    var n := |cs| - 1;
    if i < n {
      Longer(cs[..n], i);
    } else {
      LengthPositive(cs[..n]);
    }
  }

  lemma {:induction false} LengthPositive(cs: seq<Command>)
    ensures Length(cs) > 0
  {
    if cs != [] {
      LengthPositive(cs[..|cs| - 1]);
    }
  }

  /** A market order over a whole side, under an id nobody used. */
  function Sweeper(cs: seq<Command>, side: Side, to: Route): Command {
    var makers := ServeAll(cs).engine.On(Opposite(side));
    Command(Order(NewMarket, side, 0, Volume(makers) + 1, seq(Length(cs), _ => 'x'), "", None), to)
  }

  lemma SweeperFresh(cs: seq<Command>, side: Side, to: Route)
    requires FreshCommands(cs)
    ensures FreshCommands(cs + [Sweeper(cs, side, to)])
    ensures forall i :: 0 <= i < |cs| ==> cs[i].order.id != Sweeper(cs, side, to).order.id
  {
    hide ServeAll;
    LengthPositive(cs);
    var c := Sweeper(cs, side, to);
    forall i | 0 <= i < |cs| ensures cs[i].order.id != c.order.id {
      Longer(cs, i);
    }
    var os := OrdersOf(cs + [c]);
    forall i | 0 <= i < |cs| ensures os[i] == OrdersOf(cs)[i] {}
    assert os[|cs|] == c.order && c.order.id != "";
  }

  /** A resting order whose id was last used over another connection is filled there by some next command. */
  lemma StrayFill(cs: seq<Command>, id: string) returns (c: Command)
    requires FreshCommands(cs) && id in ServeAll(cs).engine.index && LastRoute(cs, id) != OwnRoute(cs, id)
    ensures FreshCommands(cs + [c]) && !ToOwners(cs, c)
  {
    hide Reports, FreshCommands, ServeAll, Step, Greedy;
    DeskGood(cs);
    var d := ServeAll(cs);
    var side := d.engine.index[id].0;
    c := Sweeper(cs, Opposite(side), Route(Fix, 0));
    SweeperFresh(cs, Opposite(side), Route(Fix, 0));
    var f := SweptFill(d.engine, id, c.order);
    NotTheSweeper(cs, id, c);
    StrayReport(cs, c, f);
  }

  lemma StrayReport(cs: seq<Command>, c: Command, f: Fill)
    requires FreshCommands(cs + [c]) && f in Step(ServeAll(cs).engine, c.order).fills
    requires LastRoute(cs + [c], f.id) != OwnRoute(cs + [c], f.id)
    ensures !ToOwners(cs, c)
  {
    hide FreshCommands, ServeAll, Step, LastRoute, OwnRoute;
    OneMore(cs, c);
    EveryFillSent(cs + [c], |cs|);
    var d, fills := ServeAll(cs), Step(ServeAll(cs).engine, c.order).fills;
    var i :| 0 <= i < |fills| && fills[i] == f;
    var m := ServeAll(cs + [c]).sent[|d.sent| + 1 + i];
    assert m.fill == f && LastRoute(cs + [c], f.id) == Some(m.to);
  }

  lemma NotTheSweeper(cs: seq<Command>, id: string, c: Command)
    requires Routed(ServeAll(cs), cs) && id in ServeAll(cs).engine.index
    requires forall i :: 0 <= i < |cs| ==> cs[i].order.id != c.order.id
    ensures LastRoute(cs + [c], id) == LastRoute(cs, id) && OwnRoute(cs + [c], id) == OwnRoute(cs, id)
  {
    hide ServeAll;
    BroughtBy(cs, id);
    assert (cs + [c])[..|cs|] == cs;
  }

  lemma SweptFill(s: State, id: string, o: Order) returns (f: Fill)
    requires Ok(s) && id in s.index && o.kind == NewMarket && o.smp == None && o.side == Opposite(s.index[id].0)
    requires o.qty > Volume(s.On(Opposite(o.side)))
    ensures f in Step(s, o).fills && f.id == id
  {
    hide Greedy;
    var makers := s.On(Opposite(o.side));
    var m :| m in makers && m.id == id;
    FillsWholeSide(makers, o, o.qty, m);
    f :| f in Greedy(makers, o, o.qty).fills && f.id == id;
  }

  /** Whatever command comes next, its fills reach the connections that own the orders, exactly when no
      resting order's id was last used, by a cancel, over another connection. */
  lemma OwnersIff(cs: seq<Command>)
    requires FreshCommands(cs)
    ensures (forall c :: FreshCommands(cs + [c]) ==> ToOwners(cs, c)) <==> IdsKept(cs)
  {
    hide FreshCommands, ToOwners, ServeAll, LastRoute, OwnRoute;
    if IdsKept(cs) {
      forall c | FreshCommands(cs + [c]) ensures ToOwners(cs, c) {
        KeptReachesOwners(cs, c);
      }
    } else {
      var id :| id in ServeAll(cs).engine.index && LastRoute(cs, id) != OwnRoute(cs, id);
      var c := StrayFill(cs, id);
      assert FreshCommands(cs + [c]);
    }
  }

  const RESTS := Command(Order(NewLimit, Sell, 10, 1, "s_0_1_O", "", None), Route(Fix, 0))
  const BORROWS := Command(Order(Cancel, Sell, 0, 0, "s_0_1_O", "none", None), Route(Fix, 1))

  /** A cancel from another connection that carries a resting order's id takes over its route. */
  lemma CancelBorrowsId()
    ensures FreshCommands([RESTS, BORROWS]) && !IdsKept([RESTS, BORROWS])
  {
    var cs := [RESTS, BORROWS];
    assert OrdersOf(cs)[0] == RESTS.order && OrdersOf(cs)[1] == BORROWS.order;
    assert [RESTS] + [BORROWS] == cs && [] + [RESTS] == [RESTS];
    OneMore([], RESTS);
    OneMore([RESTS], BORROWS);
    assert cs[..1] == [RESTS] && [RESTS][..0] == [];
    var id := RESTS.order.id;
    assert id in ServeAll([RESTS]).engine.index;
    assert ServeAll(cs).engine == ServeAll([RESTS]).engine;
    assert LastRoute(cs, id) == Some(BORROWS.route);
    assert OwnRoute([RESTS], id) == Some(RESTS.route);
    assert OwnRoute(cs, id) == OwnRoute(cs[..1], id);
  }

  ghost predicate AllDifferent(cs: seq<Command>) {
    forall i, j :: 0 <= i < j < |cs| ==> cs[i].order.id != cs[j].order.id
  }

  /** Where cancels bring ids of their own too, every fill reaches its owner. */
  lemma {:induction false} DifferentKept(cs: seq<Command>, id: string)
    requires AllDifferent(cs) && OwnRoute(cs, id).Some?
    ensures LastRoute(cs, id) == OwnRoute(cs, id)
  {
    var n := |cs| - 1;
    if cs[n].order.id == id && cs[n].order.kind == Cancel {
      BroughtBy(cs[..n], id);
      assert false;
    } else if cs[n].order.id != id {
      DifferentKept(cs[..n], id);
    }
  }

  // ----- Acks and numbers -----

  /** The acks among the messages sent. */
  function AcksOf(sent: seq<Message>): seq<Message> {
    if sent == [] then []
    else AcksOf(sent[..|sent| - 1]) + if sent[|sent| - 1].Ack? then [sent[|sent| - 1]] else []
  }

  lemma {:induction false} AcksConcat(a: seq<Message>, b: seq<Message>)
    ensures AcksOf(a + b) == AcksOf(a) + AcksOf(b)
  {
    if b == [] {
      assert a + b == a && AcksOf(a) + [] == AcksOf(a);
    } else {
      assert (a + b)[..|a + b| - 1] == a + b[..|b| - 1];
      AcksConcat(a, b[..|b| - 1]);
      ConcatAssoc(AcksOf(a), AcksOf(b[..|b| - 1]), if b[|b| - 1].Ack? then [b[|b| - 1]] else []);
    }
  }

  lemma {:induction false} ReportsNumbered(fills: seq<Fill>, routes: map<string, Route>, number: nat)
    ensures var rs := Reports(fills, routes, number);
            && AcksOf(rs) == []
            && forall i :: 0 <= i < |rs| ==> rs[i].Report? && rs[i].number == number + i
  {
    if fills != [] {
      var more := if fills[0].id in routes then 1 else 0;
      ReportsNumbered(fills[1..], routes, number + more);
      if fills[0].id in routes {
        var first := [Report(routes[fills[0].id], fills[0], number)];
        AcksConcat(first, Reports(fills[1..], routes, number + 1));
        assert first[..0] == [];
        assert AcksOf(first) == [];
      }
    }
  }

  /** Messages are numbered from one on, without gaps. */
  ghost predicate Consecutive(d: Desk) {
    d.number == |d.sent| + 1 && forall k :: 0 <= k < |d.sent| ==> d.sent[k].number == k + 1
  }

  /** One ack per command, in order, each to the command's own connection and under its own id. */
  ghost predicate Acked(acks: seq<Message>, cs: seq<Command>) {
    && |acks| == |cs|
    && (forall i :: 0 <= i < |cs| ==> acks[i].Ack? && acks[i].to == cs[i].route && acks[i].id == cs[i].order.id)
  }

  /** In every run, whatever the ids: messages are numbered without gaps and every command is acked once. */
  lemma {:induction false} AcksInOrder(cs: seq<Command>)
    ensures Consecutive(ServeAll(cs)) && Acked(AcksOf(ServeAll(cs).sent), cs)
  {
    hide Consecutive, Acked;
    if cs != [] {
      hide AcksOf, Serve;
      var n := |cs| - 1;
      AcksInOrder(cs[..n]);
      ServeNumbers(ServeAll(cs[..n]), cs[n]);
      ServeAcks(ServeAll(cs[..n]), cs[n]);
      AckedMore(AcksOf(ServeAll(cs[..n]).sent), cs[..n], cs[n], ServeAll(cs[..n]).number);
      assert cs == cs[..n] + [cs[n]];
    } else {
      NoAcks();
    }
  }

  lemma AckedMore(acks: seq<Message>, cs: seq<Command>, c: Command, number: nat)
    requires Acked(acks, cs)
    ensures Acked(acks + [Ack(c.route, c.order.id, number)], cs + [c])
  {
  }

  lemma ServeNumbers(d: Desk, c: Command)
    requires Consecutive(d)
    ensures Consecutive(Serve(d, c))
  {
    hide Step, Reports;
    var routes := d.routes[c.order.id := c.route];
    ReportsNumbered(Step(d.engine, c.order).fills, routes, d.number + 1);
  }

  lemma ServeAcks(d: Desk, c: Command)
    ensures AcksOf(Serve(d, c).sent) == AcksOf(d.sent) + [Ack(c.route, c.order.id, d.number)]
  {
    hide Step, Reports, AcksOf;
    var ack, fills := [Ack(c.route, c.order.id, d.number)], Step(d.engine, c.order).fills;
    var rs := Reports(fills, d.routes[c.order.id := c.route], d.number + 1);
    ReportsNumbered(fills, d.routes[c.order.id := c.route], d.number + 1);
    OneAck(ack[0]);
    AcksConcat(d.sent + ack, rs);
    AcksConcat(d.sent, ack);
    assert AcksOf(d.sent) + ack + [] == AcksOf(d.sent) + ack;
  }

  lemma OneAck(m: Message)
    requires m.Ack?
    ensures AcksOf([m]) == [m]
  {
    assert [m][..0] == [];
  }

  lemma NoAcks()
    ensures AcksOf([]) == [] && Consecutive(START) && Acked([], [])
  {
  }

  // ----- Routes -----

  /** The i-th command carries the id, and no command from it on reports the id done. */
  ghost predicate RoutedBy(cs: seq<Command>, i: nat, id: string)
    requires i < |cs|
  {
    cs[i].order.id == id &&
    forall j :: i <= j < |cs| ==> id !in Step(ServeAll(cs[..j]).engine, cs[j].order).done
  }

  lemma RoutedPrefix(cs: seq<Command>, i: nat, id: string)
    requires i + 1 < |cs|
    ensures var n := |cs| - 1;
            RoutedBy(cs, i, id) <==>
            RoutedBy(cs[..n], i, id) && id !in Step(ServeAll(cs[..n]).engine, cs[n].order).done
  {
    hide Step, ServeAll;
    var n := |cs| - 1;
    forall j | 0 <= j < n ensures cs[..n][j] == cs[j] && cs[..n][..j] == cs[..j] {}
  }

  /** In every run, an id has a route exactly when some command carried it and nothing reported it done since. */
  lemma {:induction false} RoutesIff(cs: seq<Command>, id: string)
    ensures id in ServeAll(cs).routes <==> exists i :: 0 <= i < |cs| && RoutedBy(cs, i, id)
  {
    hide Step, Reports;
    if cs != [] {
      var n := |cs| - 1;
      RoutesIff(cs[..n], id);
      forall i | 0 <= i < n
        ensures RoutedBy(cs, i, id) <==>
                RoutedBy(cs[..n], i, id) && id !in Step(ServeAll(cs[..n]).engine, cs[n].order).done
      {
        RoutedPrefix(cs, i, id);
      }
      LastRouted(cs, id);
      hide RoutedBy;
    }
  }

  lemma LastRouted(cs: seq<Command>, id: string)
    requires cs != []
    ensures var n := |cs| - 1;
            RoutedBy(cs, n, id) <==>
            cs[n].order.id == id && id !in Step(ServeAll(cs[..n]).engine, cs[n].order).done
  {
    hide Step, ServeAll;
  }
}
