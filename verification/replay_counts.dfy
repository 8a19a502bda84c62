/** What the ids, counters and reject records of a run say. */
module ReplayCounts {
  import opened Types
  import opened OrderManagement
  import opened Execution
  import opened Replay
  import opened ReplayReference
  import opened ReplayRefinement
  import Accounting

  function Signals(inputs: seq<Input>): nat {
    if inputs == [] then 0
    else Signals(inputs[..|inputs| - 1]) + (if inputs[|inputs| - 1].decision.hasOrder then 1 else 0)
  }

  // ---------------------------------------------------------------------------
  // Ids and counters
  // ---------------------------------------------------------------------------

  /** Each signal is counted, and each one the risk gate lets through spends a client id. */
  ghost predicate IdsSpent(d: Desk, signals: int) {
    && d.counters.strategySignals == d.samples.risk == signals
    && d.nextClientId == 1 + signals - d.counters.riskRejects
    && d.counters.localSubmissions == d.counters.gatewaySubmissions
  }

  lemma TickSpends(cfg: Config, d: Desk, input: Input, signals: int)
    requires IdsSpent(d, signals)
    ensures IdsSpent(DeskTick(cfg, d, input), signals + (if input.decision.hasOrder then 1 else 0))
  {
    hide VenueTurn, Mid, Accounting.Marked, Accounting.Filled, Moves, Stage;
  }

  /** Fills of a run are fills of its style. */
  ghost predicate FillsOfStyle(cfg: Config, d: Desk) {
    && (cfg.style == Aggressive ==> !d.venue.Book? && d.stats.aggressiveFills == d.counters.fills && d.stats.passiveFills == 0)
    && (cfg.style == Passive ==> d.stats.passiveFills == d.counters.fills && d.stats.aggressiveFills == 0)
  }

  lemma TurnOfStyle(cfg: Config, d: Desk, tick: MarketTick)
    requires cfg.style == Aggressive ==> !d.venue.Book?
    ensures var t := VenueTurn(cfg, d, tick);
      && (cfg.style == Aggressive ==> !t.venue.Book?)
      && t.stats.aggressiveFills == d.stats.aggressiveFills + One(cfg.style == Aggressive && t.fill.quantity > 0)
      && t.stats.passiveFills == d.stats.passiveFills + One(cfg.style == Passive && t.fill.quantity > 0)
  {
    hide Mid, Moves, Trades, ReplayReference.Rejects, Stage;
  }

  lemma TickOfStyle(cfg: Config, d: Desk, input: Input)
    requires FillsOfStyle(cfg, d)
    ensures FillsOfStyle(cfg, DeskTick(cfg, d, input))
  {
    hide VenueTurn, Mid, Accounting.Marked, Accounting.Filled, Moves, Stage;
    TurnOfStyle(cfg, d, input.tick);
  }

  lemma {:induction false} DeskCounts(cfg: Config, inputs: seq<Input>)
    ensures IdsSpent(DeskRun(cfg, inputs), Signals(inputs)) && FillsOfStyle(cfg, DeskRun(cfg, inputs))
  {
    if inputs == [] {
    } else {
      hide DeskTick, FillsOfStyle, IdsSpent;
      var prior, last := inputs[..|inputs| - 1], inputs[|inputs| - 1];
      DeskCounts(cfg, prior);
      TickSpends(cfg, DeskRun(cfg, prior), last, Signals(prior));
      TickOfStyle(cfg, DeskRun(cfg, prior), last);
    }
  }

  /** After every tick of every run: every signal was counted, every signal the gate let through has spent a
      client id, taken or not, and every fill is one of the style of the run. */
  lemma RunCounts(cfg: Config, inputs: seq<Input>)
    ensures var k := Run(cfg, inputs);
      && k.counters.strategySignals == Signals(inputs)
      && k.nextClientId == 1 + k.counters.strategySignals - k.counters.riskRejects
      && k.gw.sim.stats.aggressiveFills == (if cfg.style == Aggressive then k.counters.fills else 0)
      && k.gw.sim.stats.passiveFills == (if cfg.style == Passive then k.counters.fills else 0)
  {
    hide Run, DeskRun, RefInv;
    RunRefines(cfg, inputs);
    DeskCounts(cfg, inputs);
  }

  /** The account is marked at the mid price of the last tick. */
  lemma RunIsMarked(cfg: Config, inputs: seq<Input>)
    requires inputs != []
    ensures Run(cfg, inputs).acct.mark == Mid(inputs[|inputs| - 1].tick)
  {
    hide Run, RefInv, VenueTurn, Mid, Accounting.NextCost;
    RunRefines(cfg, inputs);
  }

  // ---------------------------------------------------------------------------
  // Records
  // ---------------------------------------------------------------------------

  /** A risk reject repeats the order of the tick that was refused, and says which test it failed. */
  ghost predicate RefusalOf(e: TradeEvent, input: Input) {
    && input.decision.hasOrder && e.ts == input.tick.receiveTs && e.price == 0
    && e.quantity == input.decision.order.quantity && e.side == input.decision.order.side
    && e.reason == (if e.quantity <= 0 then RejectReason.InvalidQuantity else MaxPosition)
  }

  /** A venue reject follows the transition it caused, at the same time and on the same side: a new order
      was rejected, or an order got its old state back because its cancel was. */
  ghost predicate RejectAfter(e: TradeEvent, before: TradeEvent) {
    && before.kind == OmsTransition && before.ts == e.ts && before.side == e.side && before.reason == None
    && e.price == 0 && e.quantity > 0
    && (|| (e.reason == NewRejectedByVenue && before.price == 1 && before.quantity == 7)
        || (e.reason == CancelRejectedByVenue && before.price == 4 && (before.quantity == 2 || before.quantity == 3)))
  }

  ghost predicate Explained(journal: seq<TradeEvent>, i: nat, inputs: seq<Input>)
    requires i < |journal|
  {
    && (exists n :: 0 <= n < |inputs| && inputs[n].tick.receiveTs == journal[i].ts)
    && (journal[i].kind == RiskReject ==> exists n :: 0 <= n < |inputs| && RefusalOf(journal[i], inputs[n]))
    && (journal[i].kind == VenueReject ==> i > 0 && RejectAfter(journal[i], journal[i - 1]))
    && (journal[i].kind == FillRecord || journal[i].kind == OmsTransition ==> journal[i].reason == None)
  }

  /** A record a tick adds: stamped with its time, and well formed where it stands. */
  ghost predicate ProperAt(says: seq<TradeEvent>, i: nat, input: Input)
    requires i < |says|
  {
    && says[i].ts == input.tick.receiveTs
    && (says[i].kind == RiskReject ==> RefusalOf(says[i], input))
    && (says[i].kind == VenueReject ==> i > 0 && RejectAfter(says[i], says[i - 1]))
    && (says[i].kind == FillRecord || says[i].kind == OmsTransition ==> says[i].reason == None)
  }

  ghost predicate Proper(says: seq<TradeEvent>, input: Input) {
    forall i :: 0 <= i < |says| ==> ProperAt(says, i, input)
  }

  lemma ProperAppend(a: seq<TradeEvent>, e: TradeEvent, input: Input)
    requires Proper(a, input) && e.ts == input.tick.receiveTs && e.kind != VenueReject && e.kind != FillRecord
    requires e.kind == RiskReject ==> RefusalOf(e, input)
    requires e.kind == OmsTransition ==> e.reason == None
    ensures Proper(a + [e], input)
  {
    hide RefusalOf, RejectAfter;
    var b := a + [e];
    forall i | 0 <= i < |b|
      ensures ProperAt(b, i, input)
    {
      if i < |a| {
        assert ProperAt(a, i, input) && b[i] == a[i] && (i > 0 ==> b[i - 1] == a[i - 1]);
      }
    }
  }

  lemma ProperPrepend(a: seq<TradeEvent>, e: TradeEvent, input: Input)
    requires Proper(a, input) && e.ts == input.tick.receiveTs && e.kind == OmsTransition && e.reason == None
    ensures Proper([e] + a, input)
  {
    hide RefusalOf, RejectAfter;
    var b := [e] + a;
    forall i | 0 <= i < |b|
      ensures ProperAt(b, i, input)
    {
      if i > 0 {
        assert ProperAt(a, i - 1, input) && b[i] == a[i - 1] && (i > 1 ==> b[i - 1] == a[i - 2]);
      }
    }
  }

  lemma MetSays(o: ManagedOrder, v: Venue, st: Stats, input: Input)
    requires v.Book?
    ensures Proper(Met(o, v, st, input.tick).says, input)
  {
    hide Mid, RejectAfter, RefusalOf;
  }

  lemma TurnSays(cfg: Config, d: Desk, input: Input)
    requires Live(d.order.state) ==> d.order.leavesQty > 0 && d.order.orderQty > 0
    requires d.venue.Awaiting? || d.venue.Book? ==> Live(d.order.state)
    ensures Proper(VenueTurn(cfg, d, input.tick).says, input)
  {
    hide Mid, RefusalOf, Met;
    var o, v, tick := d.order, d.venue, input.tick;
    match v
    case Empty =>
    case Awaiting(readyTs) =>
      if tick.receiveTs >= readyTs && o.clientOrderId % 3 != 0 && cfg.style == Passive {
        var own := if o.side == Buy then tick.bidQty else tick.askQty;
        var a, book := o.(venueOrderId := d.nextVenueId, state := Acked), Book(own, tick.receiveTs, Never, Never, false);
        MetSays(a, book, d.stats, input);
        ProperPrepend(Met(a, book, d.stats, tick).says, Moves(tick, o.side, 1, 2), input);
      }
    case Book(_, _, sent, due, refused) =>
      MetSays(o, v, d.stats, input);
      var w := v.(sent := Never, due := if due.Never? then At(tick.receiveTs + cfg.cancelLatency) else due);
      MetSays(o, w, d.stats.(cancelRequests := d.stats.cancelRequests + One(due.Never?)), input);
  }

  /** The records of a tick. */
  ghost function Says(cfg: Config, d: Desk, input: Input): seq<TradeEvent> {
    var m := DeskTick(cfg, d, input);
    if d.journal <= m.journal then m.journal[|d.journal|..] else []
  }

  lemma TickSays(cfg: Config, d: Desk, input: Input)
    requires Live(d.order.state) ==> d.order.leavesQty > 0 && d.order.orderQty > 0
    requires d.venue.Awaiting? || d.venue.Book? ==> Live(d.order.state)
    ensures DeskTick(cfg, d, input).journal == d.journal + Says(cfg, d, input) && Proper(Says(cfg, d, input), input)
  {
    hide VenueTurn, Mid, Accounting.Marked, Accounting.Filled, Stage, Proper;
    var tick, req := input.tick, input.decision.order;
    var a := VenueHalf(cfg, d, tick);
    var b := CancelHalf(cfg, a, tick);
    TurnSays(cfg, d, input);
    var says := VenueTurn(cfg, d, tick).says;
    assert a.journal == d.journal + says;
    if b.journal != a.journal {
      var e := Moves(tick, a.order.side, Stage(a.order), 4);
      ProperAppend(says, e, input);
      says := says + [e];
      assert b.journal == d.journal + says;
    }
    var c := DeskTick(cfg, d, input);
    if c.journal != b.journal {
      var e := c.journal[|b.journal|];
      assert RefusalOf(e, input) || e.kind == OmsTransition;
      ProperAppend(says, e, input);
      says := says + [e];
      assert c.journal == d.journal + says;
    }
  }

  lemma StillExplained(a: seq<TradeEvent>, b: seq<TradeEvent>, i: nat, inputs: seq<Input>)
    requires inputs != [] && i < |a| && a <= b && Explained(a, i, inputs[..|inputs| - 1])
    ensures Explained(b, i, inputs)
  {
    hide RejectAfter, RefusalOf;
    assert forall n :: 0 <= n < |inputs| - 1 ==> inputs[..|inputs| - 1][n] == inputs[n];
  }

  lemma StartsEmpty(cfg: Config)
    ensures Initial(cfg).journal == []
  {
  }

  lemma DeskSound(cfg: Config, inputs: seq<Input>)
    ensures var d := DeskRun(cfg, inputs);
      && (Live(d.order.state) ==> d.order.leavesQty > 0 && d.order.orderQty > 0)
      && (d.venue.Awaiting? || d.venue.Book? ==> Live(d.order.state))
  {
    hide Run, DeskRun;
    RunRefines(cfg, inputs);
  }

  lemma {:induction false} JournalExplained(cfg: Config, inputs: seq<Input>, i: nat)
    requires i < |Run(cfg, inputs).journal|
    ensures Explained(Run(cfg, inputs).journal, i, inputs)
    decreases |inputs|
  {
    hide DeskTick, Initial, RefInv, RejectAfter, RefusalOf, TickStep;
    RunRefines(cfg, inputs);
    if inputs == [] {
      StartsEmpty(cfg);
    } else {
      var n := |inputs| - 1;
      var prior, last := inputs[..n], inputs[n];
      RunRefines(cfg, prior);
      var d := DeskRun(cfg, prior);
      DeskSound(cfg, prior);
      TickSays(cfg, d, last);
      var says, journal := Says(cfg, d, last), Run(cfg, inputs).journal;
      if i < |d.journal| {
        JournalExplained(cfg, prior, i);
        assert journal[i] == d.journal[i] && (i > 0 ==> journal[i - 1] == d.journal[i - 1]);
        StillExplained(d.journal, journal, i, inputs);
      } else {
        var j := i - |d.journal|;
        assert journal[i] == says[j] && (j > 0 ==> journal[i - 1] == says[j - 1]);
        assert ProperAt(says, j, last);
        assert inputs[n].tick.receiveTs == journal[i].ts;
      }
    }
  }
}
