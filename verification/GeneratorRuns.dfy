/** What every sequence of generated orders keeps, and what that gives the engine that receives them. */
module GeneratorRuns {
  import opened OrderIds
  import opened PriceTimeBook
  import opened OrderWire
  import opened Generator

  function Run(c: Setup, draws: seq<Draw>): (Gen, seq<Action>) {
    if draws == [] then (START, [])
    else
      var (g, actions) := Run(c, draws[..|draws| - 1]);
      var (g', a) := Next(c, g, draws[|draws| - 1]);
      (g', actions + [a])
  }

  /** Orders that rest and may be targeted later. */
  predicate Opens(a: Action) {
    a.kind == NewLimit || a.kind == Replace
  }

  predicate Amends(a: Action) {
    a.kind == Cancel || a.kind == Replace
  }

  predicate Sized(qty: nat) {
    1 <= qty < MAX_QTY
  }

  function LiveOf(c: Setup, a: Action): Live {
    Live(ClOrdId(c.session, c.task, a), a.price, a.qty, a.side)
  }

  /** A live order is one of the orders emitted. */
  ghost predicate Born(c: Setup, actions: seq<Action>, e: Live) {
    exists i :: 0 <= i < |actions| && Opens(actions[i]) && LiveOf(c, actions[i]) == e
  }

  /** A cancel repeats its target; a replace keeps the side and either the quantity, or the price with
      half the quantity but at least one. */
  predicate Follows(a: Action, e: Live) {
    && a.origId == e.id && a.side == e.side
    && (a.kind == Cancel ==> a.price == e.price && a.qty == e.qty)
    && (a.kind == Replace ==>
          && 1 <= a.qty <= e.qty
          && (a.qty == e.qty || (a.price == e.price && (a.qty == e.qty / 2 || (a.qty == 1 && e.qty < 2)))))
  }

  ghost predicate TargetsEarlier(c: Setup, actions: seq<Action>, a: Action) {
    exists e :: Born(c, actions, e) && Follows(a, e)
  }

  /** Every cancel or replace names an order emitted before it, and no order is named twice. */
  ghost predicate Targeted(c: Setup, actions: seq<Action>) {
    && (forall j :: 0 <= j < |actions| && Amends(actions[j]) ==> TargetsEarlier(c, actions[..j], actions[j]))
    && (forall i, j :: 0 <= i < j < |actions| && Amends(actions[i]) && Amends(actions[j]) ==>
          actions[i].origId != actions[j].origId)
  }

  ghost predicate Numbered(actions: seq<Action>) {
    forall i :: 0 <= i < |actions| ==>
      actions[i].number == i + 1 && Sized(actions[i].qty) && (!Amends(actions[i]) ==> actions[i].origId == "")
  }

  ghost predicate DistinctLive(ledger: seq<Live>) {
    forall i, j :: 0 <= i < j < |ledger| ==> ledger[i].id != ledger[j].id
  }

  ghost predicate Untargeted(actions: seq<Action>, e: Live) {
    forall j :: 0 <= j < |actions| && Amends(actions[j]) ==> actions[j].origId != e.id
  }

  /** The ledger holds distinct orders, at most 1024, all emitted and none targeted yet. */
  ghost predicate LedgerOk(c: Setup, ledger: seq<Live>, actions: seq<Action>) {
    && |ledger| <= 1024 && DistinctLive(ledger)
    && forall e :: e in ledger ==> Born(c, actions, e) && Untargeted(actions, e) && Sized(e.qty)
  }

  ghost predicate Inv(c: Setup, g: Gen, actions: seq<Action>) {
    g.number == |actions| && Numbered(actions) && LedgerOk(c, g.ledger, actions) && Targeted(c, actions)
  }

  // ----- Appending one action -----

  lemma BornLater(c: Setup, actions: seq<Action>, a: Action, e: Live)
    requires Born(c, actions, e)
    ensures Born(c, actions + [a], e)
  {
    var i :| 0 <= i < |actions| && Opens(actions[i]) && LiveOf(c, actions[i]) == e;
    assert (actions + [a])[i] == actions[i];
  }

  lemma BornNow(c: Setup, actions: seq<Action>, a: Action)
    requires Opens(a)
    ensures Born(c, actions + [a], LiveOf(c, a))
  {
    assert (actions + [a])[|actions|] == a;
  }

  /** Ids of numbered actions differ. */
  lemma IdsDiffer(c: Setup, a: Action, b: Action)
    requires a.number < U32_LIMIT && b.number < U32_LIMIT && a.number != b.number
    ensures ClOrdId(c.session, c.task, a) != ClOrdId(c.session, c.task, b)
  {
    if ClOrdId(c.session, c.task, a) == ClOrdId(c.session, c.task, b) {
      JoinInjective(c.session, c.task, a.number, KindLetter(a.kind), b.number, KindLetter(b.kind));
      assert false;
    }
  }

  /** The id of a new action is the id of no order emitted before. */
  lemma NewIdUnborn(c: Setup, actions: seq<Action>, a: Action, e: Live)
    requires Numbered(actions) && a.number == |actions| + 1 && a.number < U32_LIMIT && Born(c, actions, e)
    ensures e.id != ClOrdId(c.session, c.task, a)
  {
    var i :| 0 <= i < |actions| && Opens(actions[i]) && LiveOf(c, actions[i]) == e;
    IdsDiffer(c, actions[i], a);
  }

  lemma UntargetedLater(actions: seq<Action>, a: Action, e: Live)
    requires Untargeted(actions, e) && (Amends(a) ==> a.origId != e.id)
    ensures Untargeted(actions + [a], e)
  {
  }

  lemma TargetedPlain(c: Setup, actions: seq<Action>, a: Action)
    requires Targeted(c, actions) && !Amends(a)
    ensures Targeted(c, actions + [a])
  {
    var all := actions + [a];
    forall j | 0 <= j < |all| && Amends(all[j]) ensures TargetsEarlier(c, all[..j], all[j]) {
      assert all[..j] == actions[..j] && all[j] == actions[j];
    }
  }

  lemma TargetedMore(c: Setup, actions: seq<Action>, a: Action, e: Live)
    requires Targeted(c, actions) && Born(c, actions, e) && Untargeted(actions, e) && Follows(a, e)
    ensures Targeted(c, actions + [a])
  {
    var all := actions + [a];
    forall j | 0 <= j < |all| && Amends(all[j]) ensures TargetsEarlier(c, all[..j], all[j]) {
      if j < |actions| {
        assert all[..j] == actions[..j] && all[j] == actions[j];
      } else {
        assert all[..j] == actions;
      }
    }
  }

  /** A ledger of orders none of which the new action targets carries over. */
  lemma LedgerLater(c: Setup, ledger: seq<Live>, actions: seq<Action>, a: Action)
    requires LedgerOk(c, ledger, actions) && (Amends(a) ==> forall e :: e in ledger ==> e.id != a.origId)
    ensures LedgerOk(c, ledger, actions + [a])
  {
    forall e | e in ledger ensures Born(c, actions + [a], e) && Untargeted(actions + [a], e) {
      BornLater(c, actions, a, e);
      UntargetedLater(actions, a, e);
    }
  }

  lemma BornPrefix(c: Setup, actions: seq<Action>, j: nat, e: Live)
    requires j <= |actions| && Born(c, actions[..j], e)
    ensures Born(c, actions, e)
  {
    var i :| 0 <= i < j && Opens(actions[..j][i]) && LiveOf(c, actions[..j][i]) == e;
    assert actions[i] == actions[..j][i];
  }

  /** Nothing targets an order that is only now emitted. */
  lemma NewUntargeted(c: Setup, actions: seq<Action>, a: Action, orig: Live)
    requires Numbered(actions) && Targeted(c, actions) && a.number == |actions| + 1 < U32_LIMIT
    requires Amends(a) ==> Born(c, actions, orig) && a.origId == orig.id
    ensures Untargeted(actions + [a], LiveOf(c, a))
  {
    hide Numbered;
    hide Born;
    forall j | 0 <= j < |actions| && Amends(actions[j]) ensures actions[j].origId != ClOrdId(c.session, c.task, a) {
      assert TargetsEarlier(c, actions[..j], actions[j]);
      var e :| Born(c, actions[..j], e) && Follows(actions[j], e);
      BornPrefix(c, actions, j, e);
      NewIdUnborn(c, actions, a, e);
    }
    if Amends(a) {
      NewIdUnborn(c, actions, a, orig);
    }
  }

  lemma LedgerDrop(c: Setup, ledger: seq<Live>, actions: seq<Action>)
    requires LedgerOk(c, ledger, actions) && ledger != []
    ensures LedgerOk(c, ledger[1..], actions)
  {
  }

  lemma LedgerAppend(c: Setup, ledger: seq<Live>, actions: seq<Action>, e: Live)
    requires LedgerOk(c, ledger, actions) && |ledger| < MAX_RESTING_ORDERS
    requires Born(c, actions, e) && Untargeted(actions, e) && Sized(e.qty) && forall x :: x in ledger ==> x.id != e.id
    ensures LedgerOk(c, ledger + [e], actions)
  {
    forall i | 0 <= i < |ledger| ensures ledger[i].id != e.id {
      assert ledger[i] in ledger;
    }
  }

  /** The new order joins the ledger. */
  lemma LedgerPush(c: Setup, ledger: seq<Live>, actions: seq<Action>, a: Action, orig: Live)
    requires LedgerOk(c, ledger, actions) && Numbered(actions) && Targeted(c, actions)
    requires Opens(a) && a.number == |actions| + 1 < U32_LIMIT && Sized(a.qty)
    requires Amends(a) ==> Born(c, actions, orig) && a.origId == orig.id && forall e :: e in ledger ==> e.id != orig.id
    ensures LedgerOk(c, PushLive(ledger, LiveOf(c, a)), actions + [a])
  {
    hide Numbered;
    hide Targeted;
    var kept := if |ledger| >= MAX_RESTING_ORDERS then ledger[1..] else ledger;
    if |ledger| >= MAX_RESTING_ORDERS {
      LedgerDrop(c, ledger, actions);
    }
    assert forall e :: e in kept ==> e in ledger;
    forall x | x in kept ensures x.id != LiveOf(c, a).id {
      NewIdUnborn(c, actions, a, x);
    }
    NewUntargeted(c, actions, a, orig);
    BornNow(c, actions, a);
    hide Born;
    hide Untargeted;
    LedgerLater(c, kept, actions, a);
    LedgerAppend(c, kept, actions + [a], LiveOf(c, a));
  }

  /** Taking an order out leaves the others. */
  lemma LedgerTake(c: Setup, ledger: seq<Live>, actions: seq<Action>, i: nat)
    requires LedgerOk(c, ledger, actions) && i < |ledger|
    ensures LedgerOk(c, SwapRemove(ledger, i), actions)
    ensures forall e :: e in SwapRemove(ledger, i) ==> e.id != ledger[i].id
  {
    var rest, n := SwapRemove(ledger, i), |ledger| - 1;
    forall k | 0 <= k < |rest| ensures rest[k] == ledger[if k == i then n else k] {}
  }

  // ----- Each step and every run -----

  lemma MarketKept(c: Setup, g: Gen, actions: seq<Action>, a: Action)
    requires Inv(c, g, actions) && a.kind == NewMarket && a.number == g.number + 1 && Sized(a.qty) && a.origId == ""
    ensures Inv(c, Gen(a.number, g.ledger), actions + [a])
  {
    TargetedPlain(c, actions, a);
    LedgerLater(c, g.ledger, actions, a);
  }

  lemma LimitKept(c: Setup, g: Gen, actions: seq<Action>, a: Action)
    requires Inv(c, g, actions) && a.kind == NewLimit && a.number == g.number + 1 < U32_LIMIT
    requires Sized(a.qty) && a.origId == ""
    ensures Inv(c, Gen(a.number, PushLive(g.ledger, LiveOf(c, a))), actions + [a])
  {
    hide LedgerOk;
    hide Targeted;
    TargetedPlain(c, actions, a);
    LedgerPush(c, g.ledger, actions, a, LiveOf(c, a));
  }

  lemma CancelKept(c: Setup, g: Gen, actions: seq<Action>, a: Action, i: nat)
    requires Inv(c, g, actions) && i < |g.ledger| && a.kind == Cancel && Follows(a, g.ledger[i])
    requires a.number == g.number + 1 && Sized(a.qty)
    ensures Inv(c, Gen(a.number, SwapRemove(g.ledger, i)), actions + [a])
  {
    hide Targeted;
    hide Born;
    var e := g.ledger[i];
    assert e in g.ledger;
    LedgerTake(c, g.ledger, actions, i);
    TargetedMore(c, actions, a, e);
    hide SwapRemove;
    LedgerLater(c, SwapRemove(g.ledger, i), actions, a);
  }

  lemma ReplaceKept(c: Setup, g: Gen, actions: seq<Action>, a: Action, i: nat)
    requires Inv(c, g, actions) && i < |g.ledger| && a.kind == Replace && Follows(a, g.ledger[i])
    requires a.number == g.number + 1 < U32_LIMIT
    ensures Inv(c, Gen(a.number, PushLive(SwapRemove(g.ledger, i), LiveOf(c, a))), actions + [a])
  {
    hide Targeted;
    hide Born;
    hide PushLive;
    var e := g.ledger[i];
    assert e in g.ledger;
    LedgerTake(c, g.ledger, actions, i);
    TargetedMore(c, actions, a, e);
    hide SwapRemove;
    LedgerPush(c, SwapRemove(g.ledger, i), actions, a, e);
  }

  lemma NextKept(c: Setup, g: Gen, actions: seq<Action>, d: Draw)
    requires Inv(c, g, actions) && g.number + 1 < U32_LIMIT
    ensures Inv(c, Next(c, g, d).0, actions + [Next(c, g, d).1])
  {
    hide OrderShape;
    hide Classify;
    var a := Next(c, g, d).1;
    var kind := Classify(c.mix, d.roll % 100);
    if kind == NewMarket {
      MarketKept(c, g, actions, a);
    } else if kind == NewLimit || g.ledger == [] {
      LimitKept(c, g, actions, a);
    } else {
      var i := d.pick % |g.ledger|;
      assert g.ledger[i] in g.ledger;
      if kind == Cancel {
        CancelKept(c, g, actions, a, i);
      } else {
        ReplaceKept(c, g, actions, a, i);
      }
    }
  }

  /** Every run: targets exist, are named once, and replaces never raise a quantity. */
  lemma {:induction false} RunKept(c: Setup, draws: seq<Draw>)
    requires |draws| < U32_LIMIT
    ensures |Run(c, draws).1| == |draws| && Inv(c, Run(c, draws).0, Run(c, draws).1)
  {
    hide Inv;
    if draws == [] {
      StartKept(c);
    } else {
      var before := draws[..|draws| - 1];
      RunKept(c, before);
      var (g, actions) := Run(c, before);
      RunNumber(c, g, actions);
      NextKept(c, g, actions, draws[|draws| - 1]);
    }
  }

  lemma RunNumber(c: Setup, g: Gen, actions: seq<Action>)
    requires Inv(c, g, actions)
    ensures g.number == |actions|
  {
  }

  lemma StartKept(c: Setup)
    ensures Inv(c, START, [])
  {
  }

  // ----- Nothing live is forgotten -----

  /** Every order that opened and was never targeted is in the ledger. */
  ghost predicate Complete(c: Setup, ledger: seq<Live>, actions: seq<Action>) {
    forall i :: 0 <= i < |actions| && Opens(actions[i]) && Untargeted(actions, LiveOf(c, actions[i])) ==>
      LiveOf(c, actions[i]) in ledger
  }

  /** Below its bound the ledger forgets nothing. */
  lemma NextComplete(c: Setup, g: Gen, actions: seq<Action>, d: Draw)
    requires Complete(c, g.ledger, actions) && |g.ledger| < 1024
    ensures Complete(c, Next(c, g, d).0.ledger, actions + [Next(c, g, d).1])
  {
    hide OrderShape, Classify;
    var (g', a) := Next(c, g, d);
    var all := actions + [a];
    forall i | 0 <= i < |all| && Opens(all[i]) && Untargeted(all, LiveOf(c, all[i]))
      ensures LiveOf(c, all[i]) in g'.ledger
    {
      if i < |actions| {
        var e := LiveOf(c, actions[i]);
        StillUntargeted(actions, a, e);
        assert e in g.ledger;
        StaysLive(c, g, d, e);
      } else {
        NewLive(c, g, d);
      }
    }
  }

  lemma StillUntargeted(actions: seq<Action>, a: Action, e: Live)
    requires Untargeted(actions + [a], e)
    ensures Untargeted(actions, e) && (Amends(a) ==> a.origId != e.id)
  {
    var all := actions + [a];
    assert all[|actions|] == a;
    forall j | 0 <= j < |actions| && Amends(actions[j]) ensures actions[j].origId != e.id {
      assert all[j] == actions[j];
    }
  }

  lemma StaysLive(c: Setup, g: Gen, d: Draw, e: Live)
    requires e in g.ledger && |g.ledger| < 1024
    requires var a := Next(c, g, d).1; Amends(a) ==> a.origId != e.id
    ensures e in Next(c, g, d).0.ledger
  {
    hide OrderShape, Classify;
    if Amends(Next(c, g, d).1) {
      var i := d.pick % |g.ledger|;
      var k :| 0 <= k < |g.ledger| && g.ledger[k] == e;
      var rest := SwapRemove(g.ledger, i);
      assert k == |g.ledger| - 1 ==> rest[i] == e;
      assert k < |g.ledger| - 1 ==> rest[k] == e;
    }
  }

  lemma NewLive(c: Setup, g: Gen, d: Draw)
    requires Opens(Next(c, g, d).1)
    ensures LiveOf(c, Next(c, g, d).1) in Next(c, g, d).0.ledger
  {
    hide OrderShape, Classify;
  }

  /** As long as the ledger stayed below 1024 orders, it holds exactly the orders that opened and were not
      targeted: no order is out of reach of later cancels and replaces. */
  lemma {:induction false} RunComplete(c: Setup, draws: seq<Draw>)
    requires forall n :: 0 <= n < |draws| ==> |Run(c, draws[..n]).0.ledger| < 1024
    ensures Complete(c, Run(c, draws).0.ledger, Run(c, draws).1)
  {
    hide Complete, Next;
    if draws == [] {
      NothingOpen(c);
    } else {
      var before := draws[..|draws| - 1];
      forall n | 0 <= n < |before| ensures |Run(c, before[..n]).0.ledger| < 1024 {
        assert before[..n] == draws[..n];
      }
      RunComplete(c, before);
      var (g, actions) := Run(c, before);
      NextComplete(c, g, actions, draws[|draws| - 1]);
    }
  }

  lemma NothingOpen(c: Setup)
    ensures Complete(c, [], [])
  {
  }

  /** The kind is the one rolled, except that a cancel or replace without a live order is a limit order.  A new
      order has the price, quantity and side drawn; a replace keeps its target's quantity at the price drawn, or its
      target's price with half the quantity but at least one. */
  lemma NextKind(c: Setup, g: Gen, d: Draw)
    ensures var a, kind := Next(c, g, d).1, Classify(c.mix, d.roll % 100);
            var (price, qty, side) := OrderShape(c.profile, a.number, d);
            && a.kind == (if g.ledger == [] && kind != NewMarket then NewLimit else kind)
            && (!Amends(a) ==> a.qty == qty && a.side == side)
            && (a.kind == NewLimit ==> a.price == price)
            && (a.kind == Replace ==> exists e :: e in g.ledger && Replaces(a, e, d, price))
  {
    hide OrderShape, Classify;
    var a := Next(c, g, d).1;
    if a.kind == Replace {
      var e := g.ledger[d.pick % |g.ledger|];
      assert e in g.ledger && Replaces(a, e, d, OrderShape(c.profile, a.number, d).0);
    }
  }

  predicate Replaces(a: Action, e: Live, d: Draw, price: nat) {
    && a.origId == e.id && a.side == e.side
    && (if d.reprice then a.price == price && a.qty == e.qty
        else a.price == e.price && (if e.qty >= 2 then a.qty == e.qty / 2 else a.qty == 1))
  }
}
