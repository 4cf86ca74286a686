/** What the Go book reports, in terms of bots: the volume a taker trades against orders of other
    bots, at the price of the first such order. */
module GoReports {
  import opened Wrappers
  import opened Decimals
  import opened OrderIds
  import opened PriceTimeBook
  import opened BookInvariants
  import opened GreedyMeaning
  import opened GoBookSpec
  import opened GoLockstep
  import EngineRuns

  // ----- Participants are bots -----

  lemma {:induction false} SplitNone(s: string, sep: char)
    requires sep !in s
    ensures Split(s, sep) == [s]
  {
    if s != [] {
      SplitNone(s[1..], sep);
      assert [s[0]] + s[1..] == s;
    }
  }

  /** A piece without the separator is the last part. */
  lemma {:induction false} SplitLast(a: string, sep: char, b: string)
    requires sep !in b
    ensures Split(a + [sep] + b, sep) == Split(a, sep) + [b]
  {
    var s := a + [sep] + b;
    if a == [] {
      assert s[1..] == b && s[0] == sep;
      SplitNone(b, sep);
    } else {
      assert s[0] == a[0] && s[1..] == a[1..] + [sep] + b;
      SplitLast(a[1..], sep, b);
    }
  }

  /** The participant of an order id is its bot, whatever underscores the session holds. */
  lemma ParticipantIsBot(session: string, bot: nat, number: nat, kind: char)
    requires kind != '_'
    ensures ParticipantOf(JoinOrderId(session, bot, number, kind)) == Dec(bot)
  {
    hide Split, Dec;
    var b, n := Dec(bot), Dec(number);
    DigitsHaveNo(b, '_');
    DigitsHaveNo(n, '_');
    var head := session + ['_'] + b;
    var mid := head + ['_'] + n;
    assert JoinOrderId(session, bot, number, kind) == mid + ['_'] + [kind];
    SplitLast(session, '_', b);
    SplitLast(head, '_', n);
    SplitLast(mid, '_', [kind]);
  }

  /** An order id of a bot, of any session, number and kind. */
  ghost predicate OfBot(id: string, bot: nat) {
    exists session: string, number: nat, kind: char :: kind in "OMCR" && id == JoinOrderId(session, bot, number, kind)
  }

  lemma BotIs(id: string, bot: nat)
    requires OfBot(id, bot)
    ensures ParticipantOf(id) == Dec(bot)
  {
    hide ParticipantOf, JoinOrderId;
    var session: string, number: nat, kind: char :| kind in "OMCR" && id == JoinOrderId(session, bot, number, kind);
    ParticipantIsBot(session, bot, number, kind);
  }

  /** Two order ids share a participant exactly when they are of the same bot. */
  lemma ParticipantsAreBots(a: string, b: string, i: nat, j: nat)
    requires OfBot(a, i) && OfBot(b, j)
    ensures ParticipantOf(a) == ParticipantOf(b) <==> i == j
  {
    hide ParticipantOf, OfBot;
    BotIs(a, i);
    BotIs(b, j);
    if Dec(i) == Dec(j) {
      DecInjective(i, j);
    }
  }

  // ----- The report in closed form -----

  /** Volume traded with makers of other bots among the first `n`. */
  function OtherVolume(makers: seq<Resting>, bots: map<string, nat>, o: Order, want: nat, n: nat): nat
    requires n <= |makers| && o.id in bots && forall m :: m in makers ==> m.id in bots
  {
    if n == 0 then 0
    else
      OtherVolume(makers, bots, o, want, n - 1) +
      if Trades(makers, o, want, n - 1) && bots[makers[n - 1].id] != bots[o.id] then Share(makers, o, want, n - 1)
      else 0
  }

  /** Price of the first maker of another bot that trades, among the first `n`. */
  function OtherPrice(makers: seq<Resting>, bots: map<string, nat>, o: Order, want: nat, n: nat): Option<int>
    requires n <= |makers| && o.id in bots && forall m :: m in makers ==> m.id in bots
  {
    if n == 0 then None
    else
      var before := OtherPrice(makers, bots, o, want, n - 1);
      if before.None? && Trades(makers, o, want, n - 1) && bots[makers[n - 1].id] != bots[o.id] then
        Some(makers[n - 1].price)
      else before
  }

  ghost predicate Known(bots: map<string, nat>) {
    forall id :: id in bots ==> OfBot(id, bots[id])
  }

  lemma ReportPair(id: string, m: Resting, q: nat)
    ensures ReportOf([Fill(id, m.price, q, TAKER), Fill(m.id, m.price, q, MAKER)], id) ==
            if ParticipantOf(m.id) == ParticipantOf(id) then Report(0, None) else Report(q, Some(m.price))
  {
    hide ParticipantOf;
    var fills := [Fill(id, m.price, q, TAKER), Fill(m.id, m.price, q, MAKER)];
    assert fills[..1] == [fills[0]] && [fills[0]][..0] == [];
    assert ReportOf([fills[0]], id) == Report(0, None);
  }

  lemma {:induction false} ReportIs(makers: seq<Resting>, bots: map<string, nat>, o: Order, want: nat, n: nat)
    requires n <= |makers| && o.id in bots && (forall m :: m in makers ==> m.id in bots) && Known(bots)
    ensures ReportOf(FillsOf(makers, o, want, n), o.id) ==
            Report(OtherVolume(makers, bots, o, want, n), OtherPrice(makers, bots, o, want, n))
  {
    hide OfBot, ParticipantOf, Share, Trades, Known;
    if n == 0 {
      assert FillsOf(makers, o, want, 0) == [];
    } else {
      hide ReportOf, FillsOf;
      ReportIs(makers, bots, o, want, n - 1);
      ReportNext(makers, bots, o, want, n);
    }
  }

  /** What one more maker adds to the report. */
  lemma ReportNext(makers: seq<Resting>, bots: map<string, nat>, o: Order, want: nat, n: nat)
    requires 0 < n <= |makers| && o.id in bots && (forall m :: m in makers ==> m.id in bots) && Known(bots)
    ensures var m, r, r' := makers[n - 1], ReportOf(FillsOf(makers, o, want, n - 1), o.id),
                            ReportOf(FillsOf(makers, o, want, n), o.id);
            if Trades(makers, o, want, n - 1) && bots[m.id] != bots[o.id] then
              r' == Report(r.qty + Share(makers, o, want, n - 1), if r.price.Some? then r.price else Some(m.price))
            else r' == r
  {
    hide ReportOf, OfBot, ParticipantOf, Share, Trades;
    var m, q, fills := makers[n - 1], Share(makers, o, want, n - 1), FillsOf(makers, o, want, n - 1);
    assert m in makers;
    assert fills + [] == fills;
    ReportPair(o.id, m, q);
    ParticipantsAreBots(m.id, o.id, bots[m.id], bots[o.id]);
    ReportConcat(fills, [Fill(o.id, m.price, q, TAKER), Fill(m.id, m.price, q, MAKER)], o.id);
  }

  // ----- Runs -----

  /** Every new or replacing order of the run is of a known bot. */
  ghost predicate BotRun(orders: seq<Order>, bots: map<string, nat>) {
    Known(bots) && forall i :: 0 <= i < |orders| && orders[i].kind != Cancel ==> orders[i].id in bots
  }

  lemma RestingKnown(orders: seq<Order>, bots: map<string, nat>, side: Side)
    requires EngineRuns.FreshIds(orders) && BotRun(orders, bots)
    ensures forall m :: m in EngineRuns.Play(orders).state.On(side) ==> m.id in bots
  {
    hide EngineRuns.Play, Known;
    EngineRuns.RunGood(orders);
    var s := EngineRuns.Play(orders).state;
    forall m | m in s.On(side) ensures m.id in bots {
      assert m.id in s.index;
      EngineRuns.SubmittedIds(orders, m.id);
    }
  }

  /** In every run of bots' orders without self-match ids, the Go book reports for a new order the volume it
      trades against other bots in the Rust engine, at the first such price. */
  lemma BotReports(orders: seq<Order>, bots: map<string, nat>)
    requires EngineRuns.FreshIds(orders) && NoSmp(orders) && orders != [] && BotRun(orders, bots)
    requires var o := orders[|orders| - 1]; o.kind == NewLimit || o.kind == NewMarket
    ensures var before, o := orders[..|orders| - 1], orders[|orders| - 1];
            var makers := EngineRuns.Play(before).state.On(Opposite(o.side));
            && (forall m :: m in makers ==> m.id in bots)
            && ReportOf(GoStep(GoRun(before), o).1, o.id) ==
               Report(OtherVolume(makers, bots, o, o.qty, |makers|), OtherPrice(makers, bots, o, o.qty, |makers|))
  {
    hide Linked, Ok, Known, ReportOf, OtherVolume, OtherPrice, FillsOf, GoStep, Greedy, EngineRuns.Play;
    var before, o := orders[..|orders| - 1], orders[|orders| - 1];
    EngineRuns.FreshPrefix(orders, |before|);
    Lockstep(before);
    NextFresh(orders);
    RestingKnown(before, bots, Opposite(o.side));
    var r := EngineRuns.Play(before).state;
    StepLinked(GoRun(before), r, o);
    var makers := r.On(Opposite(o.side));
    GreedyIs(makers, o, o.qty);
    ReportIs(makers, bots, o, o.qty, |makers|);
  }
}
