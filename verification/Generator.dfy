/** The deterministic order generator of one task, over every sequence of random outcomes. */
module Generator {
  import opened Wrappers
  import opened OrderIds
  import opened PriceTimeBook
  import opened OrderWire
  import opened FixTemplate

  const MAX_RESTING_ORDERS: nat := 1024
  const MAX_QTY: nat := 500

  datatype Profile = Hft | Retail | Institutional

  datatype Mix = Mix(market: nat, cancel: nat, replace: nat)

  datatype Setup = Setup(session: string, task: nat, profile: Profile, mix: Mix)

  /** An order that a later cancel or replace may target. */
  datatype Live = Live(id: string, price: nat, qty: nat, side: Side)

  /** The random outcomes behind one order: a percentage roll, a price offset, a quantity, a coin for
      the side, a ledger pick, and a coin for the kind of replace. */
  datatype Draw = Draw(roll: nat, offset: nat, size: nat, buy: bool, pick: nat, reprice: bool)

  datatype Gen = Gen(number: nat, ledger: seq<Live>)

  const START := Gen(0, [])

  /** Percentages are bytes and their sums saturate. */
  function AddBytes(a: nat, b: nat): nat {
    if a + b > 255 then 255 else a + b
  }

  function Classify(mix: Mix, roll: nat): Kind {
    var cancelEnd := AddBytes(mix.market, mix.cancel);
    var replaceEnd := AddBytes(cancelEnd, mix.replace);
    if roll < mix.market then NewMarket
    else if roll < cancelEnd then Cancel
    else if roll < replaceEnd then Replace
    else NewLimit
  }

  /** How many of the rolls below `n` give a kind. */
  function Rolls(mix: Mix, kind: Kind, n: nat): nat {
    if n == 0 then 0 else Rolls(mix, kind, n - 1) + if Classify(mix, n - 1) == kind then 1 else 0
  }

  /** The part of a range that lies below `n`. */
  function Span(low: nat, high: nat, n: nat): nat {
    if n <= low || high <= low then 0 else Min(high, n) - low
  }

  lemma {:induction false} RollsSpan(mix: Mix, n: nat)
    ensures var cancelEnd := AddBytes(mix.market, mix.cancel);
            && Rolls(mix, NewMarket, n) == Span(0, mix.market, n)
            && Rolls(mix, Cancel, n) == Span(mix.market, cancelEnd, n)
            && Rolls(mix, Replace, n) ==
               Span(if cancelEnd < mix.market then mix.market else cancelEnd, AddBytes(cancelEnd, mix.replace), n)
  {
    if n > 0 {
      RollsSpan(mix, n - 1);
    }
  }

  /** The hundred rolls give each kind its percentage exactly when the percentages fit a hundred. */
  lemma MixExact(mix: Mix)
    requires mix.market <= 255 && mix.cancel <= 255 && mix.replace <= 255
    ensures (&& Rolls(mix, NewMarket, 100) == mix.market
             && Rolls(mix, Cancel, 100) == mix.cancel
             && Rolls(mix, Replace, 100) == mix.replace)
            <==> mix.market + mix.cancel + mix.replace <= 100
  {
    RollsSpan(mix, 100);
  }

  /** Price, quantity and side of a fresh order, by profile. */
  function OrderShape(profile: Profile, number: nat, d: Draw): (r: (nat, nat, Side))
    ensures 0 < r.0 < 10_100 && 0 < r.1 < MAX_QTY
  {
    match profile
    case Hft => (10_000 + d.offset % 25 - 12, 10 + d.size % 40, if number % 2 == 0 then Sell else Buy)
    case Retail =>
      (if d.buy then 10_000 - d.offset % 50 else 10_000 + d.offset % 50, 1 + d.size % 9, if d.buy then Buy else Sell)
    case Institutional =>
      var drift := 20 + d.offset % 80;
      (if d.buy then 10_000 - drift else 10_000 + drift, 100 + d.size % 400, if d.buy then Buy else Sell)
  }

  /** The prices, quantities and sides a profile can draw. */
  predicate Shapes(profile: Profile, number: nat, price: nat, qty: nat, side: Side) {
    match profile
    case Hft => 9_988 <= price <= 10_012 && 10 <= qty <= 49 && (side == Sell <==> number % 2 == 0)
    case Retail => 1 <= qty <= 9 && if side == Buy then 9_951 <= price <= 10_000 else 10_000 <= price <= 10_049
    case Institutional =>
      100 <= qty <= 499 && if side == Buy then 9_901 <= price <= 9_980 else 10_020 <= price <= 10_099
  }

  /** A price, quantity and side can come up exactly when the profile allows them. */
  lemma ShapeIff(profile: Profile, number: nat, price: nat, qty: nat, side: Side)
    ensures (exists d :: OrderShape(profile, number, d) == (price, qty, side)) <==>
            Shapes(profile, number, price, qty, side)
  {
    hide OrderShape, Shapes;
    if Shapes(profile, number, price, qty, side) {
      DrawingShapes(profile, number, price, qty, side);
    }
    forall d | OrderShape(profile, number, d) == (price, qty, side) ensures Shapes(profile, number, price, qty, side) {
      ShapeOf(profile, number, d);
    }
  }

  lemma ShapeOf(profile: Profile, number: nat, d: Draw)
    ensures var (price, qty, side) := OrderShape(profile, number, d); Shapes(profile, number, price, qty, side)
  {
  }

  lemma DrawingShapes(profile: Profile, number: nat, price: nat, qty: nat, side: Side)
    requires Shapes(profile, number, price, qty, side)
    ensures OrderShape(profile, number, Drawing(profile, price, qty, side)) == (price, qty, side)
  {
  }

  /** A draw behind a shape. */
  function Drawing(profile: Profile, price: nat, qty: nat, side: Side): Draw {
    match profile
    case Hft => Draw(0, if price < 9_988 then 0 else price - 9_988, if qty < 10 then 0 else qty - 10, true, 0, true)
    case Retail =>
      var away := if price < 10_000 then 10_000 - price else price - 10_000;
      Draw(0, away, if qty < 1 then 0 else qty - 1, side == Buy, 0, true)
    case Institutional =>
      var away := if price < 10_000 then 10_000 - price else price - 10_000;
      Draw(0, if away < 20 then 0 else away - 20, if qty < 100 then 0 else qty - 100, side == Buy, 0, true)
  }

  /** Drops the oldest order when full, then appends. */
  function PushLive(ledger: seq<Live>, e: Live): seq<Live> {
    (if |ledger| >= MAX_RESTING_ORDERS then ledger[1..] else ledger) + [e]
  }

  /** Takes one order out by moving the last one into its place. */
  function SwapRemove(ledger: seq<Live>, i: nat): seq<Live>
    requires i < |ledger|
  {
    ledger[i := ledger[|ledger| - 1]][..|ledger| - 1]
  }

  function EmitLimit(c: Setup, g: Gen, number: nat, price: nat, qty: nat, side: Side): (Gen, Action) {
    var a := Action(NewLimit, side, number, qty, price, "", SMP_ID_NONE);
    (Gen(number, PushLive(g.ledger, Live(ClOrdId(c.session, c.task, a), price, qty, side))), a)
  }

  function HalfAtLeastOne(qty: nat): nat {
    if qty / 2 < 1 then 1 else qty / 2
  }

  function EmitReplace(c: Setup, ledger: seq<Live>, number: nat, orig: Live, d: Draw, repriced: nat): (Gen, Action) {
    var price := if d.reprice then repriced else orig.price;
    var qty := if d.reprice then orig.qty else HalfAtLeastOne(orig.qty);
    var a := Action(Replace, orig.side, number, qty, price, orig.id, SMP_ID_NONE);
    (Gen(number, PushLive(ledger, Live(ClOrdId(c.session, c.task, a), price, qty, orig.side))), a)
  }

  /** The next order: a cancel or replace without a live order falls back to a limit order. */
  function Next(c: Setup, g: Gen, d: Draw): (Gen, Action) {
    var number := g.number + 1;
    var (price, qty, side) := OrderShape(c.profile, number, d);
    var kind := Classify(c.mix, d.roll % 100);
    if kind == NewMarket then (Gen(number, g.ledger), Action(NewMarket, side, number, qty, 0, "", SMP_ID_NONE))
    else if kind == NewLimit || g.ledger == [] then EmitLimit(c, g, number, price, qty, side)
    else
      var i := d.pick % |g.ledger|;
      var orig, rest := g.ledger[i], SwapRemove(g.ledger, i);
      if kind == Cancel then
        (Gen(number, rest), Action(Cancel, orig.side, number, orig.qty, orig.price, orig.id, SMP_ID_NONE))
      else EmitReplace(c, rest, number, orig, d, price)
  }

  class TaskGenerator {
    const setup: Setup
    var number: nat
    var ledger: seq<Live>

    constructor (setup: Setup)
      ensures this.setup == setup && Gen(number, ledger) == START
    {
      this.setup := setup;
      number, ledger := 0, [];
    }

    method PushResting(e: Live)
      modifies this`ledger
      ensures ledger == PushLive(old(ledger), e)
    {
      if |ledger| >= MAX_RESTING_ORDERS {
        ledger := ledger[1..];
      }
      ledger := ledger + [e];
    }

    method TakeResting(pick: nat) returns (orig: Option<Live>)
      modifies this`ledger
      ensures old(ledger) == [] ==> orig == None && ledger == []
      ensures old(ledger) != [] ==>
                var i := pick % |old(ledger)|;
                orig == Some(old(ledger)[i]) && ledger == SwapRemove(old(ledger), i)
    {
      if ledger == [] {
        return None;
      }
      var i := pick % |ledger|;
      orig := Some(ledger[i]);
      ledger := ledger[i := ledger[|ledger| - 1]][..|ledger| - 1];
    }

    method Emit(d: Draw) returns (a: Action)
      requires number + 1 < U32_LIMIT
      modifies this
      ensures (Gen(number, ledger), a) == Next(setup, old(Gen(number, ledger)), d)
    {
      number := number + 1;
      var kind := Classify(setup.mix, d.roll % 100);
      var (price, qty, side) := OrderShape(setup.profile, number, d);
      var orig := None;
      if kind == NewMarket {
        return Action(NewMarket, side, number, qty, 0, "", SMP_ID_NONE);
      }
      if kind != NewLimit {
        orig := TakeResting(d.pick);
      }
      if orig.None? {
        a := Action(NewLimit, side, number, qty, price, "", SMP_ID_NONE);
        PushResting(Live(ClOrdId(setup.session, setup.task, a), price, qty, side));
      } else if kind == Cancel {
        var o := orig.value;
        a := Action(Cancel, o.side, number, o.qty, o.price, o.id, SMP_ID_NONE);
      } else {
        var o := orig.value;
        var p, q := price, o.qty;
        if !d.reprice {
          p, q := o.price, HalfAtLeastOne(o.qty);
        }
        a := Action(Replace, o.side, number, q, p, o.id, SMP_ID_NONE);
        PushResting(Live(ClOrdId(setup.session, setup.task, a), p, q, o.side));
      }
    }
  }
}
