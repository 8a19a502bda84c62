/** No 64-bit overflow in a run: the bounds the unbounded integers of this model stay within. */
module MachineIntegers {
  import opened Types
  import opened Arithmetic
  import opened OrderManagement
  import opened Execution
  import opened VenueGateway
  import opened Risk
  import opened Replay
  import opened ReplayAgreement
  import opened ReplayJournal
  import opened ReplayRuns
  import Accounting
  import CostBasis

  predicate Int64(x: int) { INT64_MIN <= x <= INT64_MAX }

  // ---------------------------------------------------------------------------
  // What the code computes
  // ---------------------------------------------------------------------------

  /** Every 64-bit value `mark_to_market` computes. */
  predicate MarkSafe(a: Accounting.Account, mid: int) {
    Int64(a.netQty * mid) && Int64(a.netQty * mid - a.openCost) && Int64(a.cash + a.openCost)
  }

  /** Every 64-bit value `apply_fill` computes, the refresh at its end included. */
  predicate FillSafe(a: Accounting.Account, f: Types.Fill) {
    var d, rest := Accounting.Signed(f), a.netQty + Accounting.Signed(f);
    && Int64(d) && Int64(d * f.price) && Int64(a.cash - d * f.price) && Int64(rest)
    && (match Accounting.EffectOf(a.netQty, d)
        case Opens => Int64(a.openCost + d * f.price)
        case Closes => true
        case Reduces => Int64(a.openCost * Abs(rest))
        case Flips => Int64(rest * f.price))
    && MarkSafe(Accounting.Filled(a, f), a.mark)
  }

  function BookedFill(o: ManagedOrder, e: VenueEvent): Types.Fill {
    Types.Fill(e.ts, e.fillPrice, e.fillQty, o.side)
  }

  /** Every 64-bit sum, difference and product of prices, quantities and timestamps in one tick: the mid
      and its adverse moves, the account, the projected position, deadlines and ages. */
  ghost predicate TickSafe(cfg: Config, k: Kernel, input: Input) {
    var tick, order := input.tick, input.decision.order;
    var marked := Accounting.Marked(k.acct, Mid(tick));
    var events := Polled(k.gw, tick).1.events;
    && Int64(Mid(tick) + ADVERSE_MOVE) && Int64(Mid(tick) - ADVERSE_MOVE)
    && (input.decision.hasOrder && order.quantity > 0 ==>
          Int64(VenuePhase(cfg, k, tick).acct.netQty + Sign(order.side) * order.quantity))
    && Int64(tick.receiveTs - k.gw.sim.resting.submitTs)
    && Int64(tick.bidPrice + tick.askPrice) && MarkSafe(k.acct, Mid(tick))
    && (forall i :: 0 <= i < |events| && events[i].kind.Fill? ==>
          && FillSafe(marked, BookedFill(k.oms, events[i]))
          && MarkSafe(Accounting.Filled(marked, BookedFill(k.oms, events[i])), Mid(tick)))
    && Int64(tick.receiveTs + cfg.newAckLatency) && Int64(tick.receiveTs + cfg.cancelSendLatency)
    && Int64(tick.receiveTs + cfg.cancelLatency) && Int64(tick.receiveTs - k.passiveSubmitTs)
  }

  lemma EventAccount(k: Kernel, e: VenueEvent, fallback: Side, tick: MarketTick)
    requires OrderInv(k.oms) && Taken(k.oms, e)
    ensures var m := HandleVenueEvent(k, e, fallback, tick);
      && m.oms.side == k.oms.side
      && m.acct == (if e.kind.Fill? then Accounting.Marked(Accounting.Filled(k.acct, BookedFill(k.oms, e)), Mid(tick))
                    else k.acct)
  {
    hide Accounting.Filled, Accounting.Marked, OrderInv, Mid, Correlate;
  }

  lemma {:induction false} NoFillNoChange(k: Kernel, events: seq<VenueEvent>, tick: MarketTick)
    requires OrderInv(k.oms) && AllTaken(k.oms, events) && Fills(events) == 0
    ensures HandleBatch(k, events, tick).acct == k.acct
    decreases |events|
  {
    hide HandleVenueEvent, OrderInv, Taken, OnEvent;
    if events == [] {
    } else {
      EventAccount(k, events[0], k.oms.side, tick);
      EventChanges(k, events[0], k.oms.side, tick);
      EventKeepsInv(k.oms, events[0]);
      NoFillNoChange(HandleVenueEvent(k, events[0], k.oms.side, tick), events[1..], tick);
    }
  }

  lemma {:induction false} FillCounts(events: seq<VenueEvent>, i: nat)
    requires i < |events| && events[i].kind.Fill?
    ensures Fills(events) >= 1
  {
    if i == 0 {
    } else {
      FillCounts(events[1..], i - 1);
    }
  }

  lemma {:induction false} OneFillChange(k: Kernel, events: seq<VenueEvent>, tick: MarketTick, i: nat)
    requires OrderInv(k.oms) && AllTaken(k.oms, events) && Fills(events) <= 1
    requires i < |events| && events[i].kind.Fill?
    ensures HandleBatch(k, events, tick).acct
      == Accounting.Marked(Accounting.Filled(k.acct, BookedFill(k.oms, events[i])), Mid(tick))
    decreases |events|
  {
    hide HandleVenueEvent, OrderInv, Taken, OnEvent, Accounting.Filled, Accounting.Marked, Mid;
    var next := HandleVenueEvent(k, events[0], k.oms.side, tick);
    EventAccount(k, events[0], k.oms.side, tick);
    EventChanges(k, events[0], k.oms.side, tick);
    EventKeepsInv(k.oms, events[0]);
    if i == 0 {
      NoFillNoChange(next, events[1..], tick);
    } else {
      FillCounts(events[1..], i - 1);
      OneFillChange(next, events[1..], tick, i - 1);
      assert BookedFill(next.oms, events[i]) == BookedFill(k.oms, events[i]);
    }
  }

  /** The values `TickSafe` names are the ones a tick computes: it marks the account and, if the venue
      sends a fill, books that one fill and marks again. */
  lemma TickBooksOneFill(cfg: Config, k: Kernel, tick: MarketTick)
    requires RunInv(cfg, k)
    ensures var marked, events := Accounting.Marked(k.acct, Mid(tick)), Polled(k.gw, tick).1.events;
      && (Fills(events) == 0 ==> Poll(k, tick).acct == marked)
      && (forall i :: 0 <= i < |events| && events[i].kind.Fill? ==>
            Poll(k, tick).acct == Accounting.Marked(Accounting.Filled(marked, BookedFill(k.oms, events[i])), Mid(tick)))
  {
    hide Polled, HandleBatch, GatewayInv, OrderInv, Accounting.Filled, Accounting.Marked, Mid, Fills;
    var events := Polled(k.gw, tick).1.events;
    PollDelivers(k.oms, k.gw, tick);
    PollBudget(k.gw, tick);
    if Fills(events) == 0 {
      NoFillNoChange(BeforeBatch(k, tick), events, tick);
    }
    forall i | 0 <= i < |events| && events[i].kind.Fill?
      ensures Poll(k, tick).acct
        == Accounting.Marked(Accounting.Filled(Accounting.Marked(k.acct, Mid(tick)), BookedFill(k.oms, events[i])), Mid(tick))
    {
      OneFillChange(BeforeBatch(k, tick), events, tick, i);
    }
  }

  // ---------------------------------------------------------------------------
  // What the input promises
  // ---------------------------------------------------------------------------

  /** Prices from 1 to `price`, order sizes up to `qty`, timestamps with room for the latencies. */
  ghost predicate Plain(price: int, qty: int, input: Input) {
    && 1 <= input.tick.bidPrice <= price && 1 <= input.tick.askPrice <= price
    && 0 <= input.tick.receiveTs <= INT64_MAX - 1000
    && (input.decision.hasOrder ==> input.decision.order.quantity <= qty)
  }

  ghost predicate Feasible(cfg: Config, price: int, qty: int, inputs: seq<Input>) {
    && cfg.limit >= 2 && qty >= 1 && price >= 1
    && 0 <= cfg.newAckLatency <= 1000 && 0 <= cfg.cancelSendLatency <= 1000 && 0 <= cfg.cancelLatency <= 1000
    && (forall i :: 0 <= i < |inputs| ==> Plain(price, qty, inputs[i]))
    && cfg.limit * cfg.limit * price <= INT64_MAX
    && qty * price * |inputs| + cfg.limit * price <= INT64_MAX
  }

  // ---------------------------------------------------------------------------
  // Sizes in a run
  // ---------------------------------------------------------------------------

  predicate SmallFill(price: int, qty: int, p: int, q: int) {
    1 <= p <= price && 1 <= q <= qty
  }

  ghost predicate SmallRecords(price: int, qty: int, journal: seq<TradeEvent>) {
    forall i :: 0 <= i < |journal| && journal[i].kind.FillRecord? ==>
      SmallFill(price, qty, journal[i].price, journal[i].quantity)
  }

  ghost predicate SmallVenue(price: int, g: Gateway) {
    && (g.sim.resting.active ==> 1 <= g.sim.resting.price <= price)
    && (g.pending.active && g.pending.request.style == Passive ==> 1 <= g.pending.request.limitPrice <= price)
  }

  ghost predicate Sized(price: int, qty: int, k: Kernel) {
    && (Live(k.oms.state) ==> k.oms.orderQty <= qty)
    && SmallVenue(price, k.gw)
    && SmallRecords(price, qty, k.journal)
    && -1 <= k.passiveSubmitTs <= INT64_MAX - 1000
    && 0 <= k.gw.sim.resting.submitTs <= INT64_MAX - 1000
  }

  ghost predicate SmallEvents(price: int, leaves: int, events: seq<VenueEvent>) {
    forall i :: 0 <= i < |events| && events[i].kind.Fill? ==>
      SmallFill(price, leaves, events[i].fillPrice, events[i].fillQty)
  }

  /** The fills of a tick are no larger than the order's leaves and no dearer than the prices allow. */
  lemma PollSmall(price: int, o: ManagedOrder, g: Gateway, tick: MarketTick)
    requires Agreement(o, g) && SmallVenue(price, g)
    requires 1 <= tick.bidPrice <= price && 1 <= tick.askPrice <= price
    ensures var (h, b) := Polled(g, tick);
      && SmallVenue(price, h)
      && (Live(o.state) ==> SmallEvents(price, o.leavesQty, b.events))
      && (!Live(o.state) ==> b.events == [])
  {
    if AckDue(g, tick) {
      if !g.pending.shouldReject {
        hide Polled, FillsOn;
        if g.pending.request.style == Aggressive {
          PollAggressive(g, tick);
        } else {
          PollPassive(g, tick);
        }
      }
    } else {
      hide Polled, FillsOn;
      if !g.act.active {
        PollIdle(g, tick);
      } else if CancelDue(g, tick) && RefusesCancel(g.act) {
        PollRefused(g, tick);
      } else {
        PollWorking(g, tick);
      }
    }
  }

  lemma ServiceStamps(g: Gateway, tick: MarketTick, b: Batch)
    ensures Serviced(g, tick, b).0.sim.resting.submitTs == g.sim.resting.submitTs
  {
    hide PushReport, RefusesCancel, Push, CountFill, CountFlags, Adverse, Reached, Crosses;
  }

  /** A book entry carries the time of the tick that made it. */
  lemma PollStamps(g: Gateway, tick: MarketTick)
    ensures var ts := Polled(g, tick).0.sim.resting.submitTs;
      ts == g.sim.resting.submitTs || ts == tick.receiveTs
  {
    hide PushReport, Push, Serviced;
    ServiceStamps(g, tick, NO_BATCH);
    var (h, b) := Acknowledged(g, tick);
    ServiceStamps(h, tick, b);
  }

  lemma EventRecordsSmall(price: int, qty: int, k: Kernel, e: VenueEvent, fallback: Side, tick: MarketTick)
    requires SmallRecords(price, qty, k.journal)
    requires e.kind.Fill? ==> SmallFill(price, qty, e.fillPrice, e.fillQty)
    ensures SmallRecords(price, qty, HandleVenueEvent(k, e, fallback, tick).journal)
  {
    hide Verdict, Advance, Accounting.Filled, Accounting.Marked, CountRefusal, SmallFill;
  }

  lemma {:induction false} BatchRecordsSmall(price: int, qty: int, k: Kernel, events: seq<VenueEvent>, tick: MarketTick)
    requires SmallRecords(price, qty, k.journal) && SmallEvents(price, qty, events)
    ensures SmallRecords(price, qty, HandleBatch(k, events, tick).journal)
    decreases |events|
  {
    hide HandleVenueEvent, SmallRecords, SmallFill;
    if events == [] {
    } else {
      EventRecordsSmall(price, qty, k, events[0], k.oms.side, tick);
      assert SmallEvents(price, qty, events[1..]);
      BatchRecordsSmall(price, qty, HandleVenueEvent(k, events[0], k.oms.side, tick), events[1..], tick);
    }
  }

  lemma PollSized(cfg: Config, price: int, qty: int, k: Kernel, tick: MarketTick)
    requires RunInv(cfg, k) && Sized(price, qty, k)
    requires 1 <= tick.bidPrice <= price && 1 <= tick.askPrice <= price && 0 <= tick.receiveTs <= INT64_MAX - 1000
    ensures Sized(price, qty, Poll(k, tick))
  {
    hide Polled, HandleBatch, Delivered, GatewayInv, SmallVenue, SmallRecords;
    var events := Polled(k.gw, tick).1.events;
    PollStamps(k.gw, tick);
    PollSmall(price, k.oms, k.gw, tick);
    PollDelivers(k.oms, k.gw, tick);
    BatchChanges(BeforeBatch(k, tick), events, tick);
    DeliveredSize(k.oms, events);
    assert SmallEvents(price, qty, events);
    BatchRecordsSmall(price, qty, BeforeBatch(k, tick), events, tick);
  }

  lemma EmitSmall(price: int, qty: int, journal: seq<TradeEvent>, e: TradeEvent)
    requires SmallRecords(price, qty, journal) && !e.kind.FillRecord?
    ensures SmallRecords(price, qty, journal + [e])
  {
    hide SmallFill;
  }

  lemma CancelSized(cfg: Config, price: int, qty: int, k: Kernel, tick: MarketTick)
    requires Sized(price, qty, k)
    ensures Sized(price, qty, CancelStep(cfg, ClearSubmitTs(k), tick))
  {
    hide SmallRecords;
    EmitSmall(price, qty, k.journal, Transition(tick.receiveTs, k.oms.state, PendingCancel, k.oms.side));
  }

  lemma SignalSized(cfg: Config, price: int, qty: int, k: Kernel, order: OrderRequest, tick: MarketTick)
    requires RunInv(cfg, k) && Sized(price, qty, k) && order.quantity <= qty
    requires 1 <= tick.bidPrice <= price && 1 <= tick.askPrice <= price && 0 <= tick.receiveTs <= INT64_MAX - 1000
    ensures Sized(price, qty, SignalStep(cfg, k, order, tick))
  {
    hide SmallRecords, HandleVenueEvent, Evaluate, Agreement;
    var gate := Evaluate(cfg.limit, k.acct.netQty, order);
    if gate.accepted {
      var req := Priced(cfg, order, tick);
      SubmitAgrees(cfg, k.oms, k.gw, k.nextClientId, req, tick);
      EmitSmall(price, qty, k.journal, Transition(tick.receiveTs, Idle, PendingNewAck, req.side));
    } else {
      EmitSmall(price, qty, k.journal,
                TradeEvent(tick.receiveTs, 0, order.quantity, RiskReject, order.side, gate.reason));
    }
  }

  lemma TimedSized(cfg: Config, price: int, qty: int, k: Kernel, m: Kernel)
    requires m == k.(samples := m.samples) && Sized(price, qty, k) && RunInv(cfg, k)
    ensures Sized(price, qty, m) && RunInv(cfg, m)
  {
  }

  lemma TickSized(cfg: Config, price: int, qty: int, k: Kernel, input: Input)
    requires RunInv(cfg, k) && Sized(price, qty, k) && Plain(price, qty, input)
    ensures Sized(price, qty, TickStep(cfg, k, input))
  {
    hide Poll, SignalStep, RunInv, Sized, CancelStep;
    PollSized(cfg, price, qty, k, input.tick);
    CancelSized(cfg, price, qty, Poll(k, input.tick), input.tick);
    VenuePhaseRuns(cfg, k, input.tick);
    var v := VenuePhase(cfg, k, input.tick);
    var timed := Timed(v);
    TimedSized(cfg, price, qty, v, timed);
    if input.decision.hasOrder {
      SignalSized(cfg, price, qty, timed, input.decision.order, input.tick);
    }
  }

  lemma {:induction false} RunSized(cfg: Config, price: int, qty: int, inputs: seq<Input>)
    requires forall i :: 0 <= i < |inputs| ==> Plain(price, qty, inputs[i])
    ensures Sized(price, qty, Run(cfg, inputs))
  {
    if inputs == [] {
    } else {
      hide TickStep, RunInv, Sized, Plain;
      var prior := inputs[..|inputs| - 1];
      RunSized(cfg, price, qty, prior);
      ComponentsAgree(cfg, prior);
      TickSized(cfg, price, qty, Run(cfg, prior), inputs[|inputs| - 1]);
    }
  }

  // ---------------------------------------------------------------------------
  // The account in a run
  // ---------------------------------------------------------------------------

  ghost predicate SmallFills(price: int, qty: int, fills: seq<Types.Fill>) {
    forall i :: 0 <= i < |fills| ==> SmallFill(price, qty, fills[i].price, fills[i].quantity)
  }

  lemma {:induction false} RecordedFills(price: int, qty: int, journal: seq<TradeEvent>)
    requires SmallRecords(price, qty, journal)
    ensures SmallFills(price, qty, FillsIn(journal)) && |FillsIn(journal)| == CountOf(journal, FillRecord)
  {
    if journal == [] {
    } else {
      hide SmallFill;
      assert SmallRecords(price, qty, journal[..|journal| - 1]);
      RecordedFills(price, qty, journal[..|journal| - 1]);
    }
  }

  lemma LedgerStep(fills: seq<Types.Fill>)
    requires fills != [] && fills[|fills| - 1].quantity > 0
    ensures CostBasis.ExactLedger(fills)
      == CostBasis.ExactFill(CostBasis.ExactLedger(fills[..|fills| - 1]), fills[|fills| - 1])
  {
  }

  lemma {:induction false} LedgerPrices(price: int, qty: int, fills: seq<Types.Fill>)
    requires SmallFills(price, qty, fills)
    ensures CostBasis.Bounded(CostBasis.ExactLedger(fills).prices, 0, price)
  {
    if fills == [] {
    } else {
      var prior := fills[..|fills| - 1];
      assert SmallFills(price, qty, prior);
      LedgerPrices(price, qty, prior);
      hide CostBasis.ExactLedger;
      assert CostBasis.ExactLedger(fills) == CostBasis.ExactFill(CostBasis.ExactLedger(prior), fills[|fills| - 1]) by {
        LedgerStep(fills);
      }
    }
  }

  lemma OneMore(each: int, n: int)
    ensures each * n == each * (n - 1) + each
  {
  }

  lemma {:induction false} PaidWithin(each: int, fills: seq<Types.Fill>)
    requires each >= 0
    requires forall i :: 0 <= i < |fills| ==> fills[i].quantity > 0 && Abs(Accounting.Signed(fills[i]) * fills[i].price) <= each
    ensures Abs(Accounting.Bought(fills).1) <= each * |fills|
  {
    hide Accounting.Signed;
    if fills == [] {
    } else {
      PaidWithin(each, fills[..|fills| - 1]);
      OneMore(each, |fills|);
    }
  }

  lemma NotionalBound(price: int, qty: int, f: Types.Fill)
    requires SmallFill(price, qty, f.price, f.quantity)
    ensures Abs(Accounting.Signed(f) * f.price) <= qty * price
    ensures Abs(Accounting.Signed(f)) == f.quantity
  {
    MulLe(f.quantity, qty, f.price);
    MulLe(f.price, price, qty);
    assert Accounting.Signed(f) * f.price == f.quantity * f.price || Accounting.Signed(f) * f.price == -(f.quantity * f.price);
  }

  lemma PaidBound(price: int, qty: int, fills: seq<Types.Fill>)
    requires SmallFills(price, qty, fills) && qty >= 1 && price >= 1
    ensures Abs(Accounting.Bought(fills).1) <= qty * price * |fills|
  {
    hide Accounting.Bought, Accounting.Signed;
    forall i | 0 <= i < |fills|
      ensures fills[i].quantity > 0 && Abs(Accounting.Signed(fills[i]) * fills[i].price) <= qty * price
    {
      NotionalBound(price, qty, fills[i]);
    }
    ProductSign(qty, price);
    PaidWithin(qty * price, fills);
  }

  /** Position, cost and cash within `limit`, `price` per unit and `spent`. */
  ghost predicate Contained(a: Accounting.Account, limit: int, price: int, spent: int) {
    && Abs(a.netQty) <= limit && Abs(a.cash) <= spent
    && CostBasis.SameSign(a) && CostBasis.PerUnit(Abs(a.openCost), Abs(a.netQty), 0, price)
  }

  lemma SizedRecords(price: int, qty: int, k: Kernel)
    requires Sized(price, qty, k)
    ensures SmallRecords(price, qty, k.journal)
  {
  }

  lemma SmallIsPositive(price: int, qty: int, fills: seq<Types.Fill>)
    requires SmallFills(price, qty, fills)
    ensures CostBasis.PositivePrices(fills)
  {
  }

  lemma RunContained(cfg: Config, price: int, qty: int, inputs: seq<Input>)
    requires cfg.limit >= 0 && qty >= 1 && price >= 1
    requires forall i :: 0 <= i < |inputs| ==> Plain(price, qty, inputs[i])
    ensures Contained(Run(cfg, inputs).acct, cfg.limit, price, qty * price * |inputs|)
  {
    hide Run, Sized, WithinLimit, OrderInv, Plain, FillsIn, CountOf, Accounting.Replayed, Accounting.Bought,
      CostBasis.ExactLedger, CostBasis.Bounded;
    var k := Run(cfg, inputs);
    RunSized(cfg, price, qty, inputs);
    JournalRebuildsAccount(cfg, inputs);
    RunBudget(cfg, inputs);
    RunStaysWithinLimit(cfg, inputs);
    var fills := FillsIn(k.journal);
    SizedRecords(price, qty, k);
    RecordedFills(price, qty, k.journal);
    SmallIsPositive(price, qty, fills);
    CostBasis.SidesAgree(fills);
    LedgerPrices(price, qty, fills);
    CostBasis.PriceEnvelope(fills, 0, price);
    Accounting.PositionAndCashAreSums(fills);
    PaidBound(price, qty, fills);
    MulLe(|fills|, |inputs|, qty * price);
  }

  // ---------------------------------------------------------------------------
  // Safety of the arithmetic
  // ---------------------------------------------------------------------------

  lemma AbsMul(a: int, b: int, x: int, y: int)
    requires Abs(a) <= x && Abs(b) <= y
    ensures Abs(a * b) <= x * y
  {
    MulLe(Abs(a), x, Abs(b));
    MulLe(Abs(b), y, x);
    assert Abs(a * b) == Abs(a) * Abs(b);
  }

  lemma CostBound(a: Accounting.Account, limit: int, price: int, spent: int)
    requires Contained(a, limit, price, spent) && price >= 1
    ensures Abs(a.openCost) <= limit * price
  {
    MulLe(Abs(a.netQty), limit, price);
  }

  lemma MarkIsSafe(a: Accounting.Account, mid: int, limit: int, price: int, spent: int)
    requires Contained(a, limit, price, spent) && limit >= 2 && price >= 1 && 0 <= mid <= price
    requires limit * limit * price <= INT64_MAX && spent + limit * price <= INT64_MAX
    ensures MarkSafe(a, mid)
  {
    CostBound(a, limit, price, spent);
    AbsMul(a.netQty, mid, limit, price);
    MulLe(2, limit, limit * price);
    MulSwap(limit, limit, price);
  }

  lemma FilledCash(a: Accounting.Account, f: Types.Fill)
    requires f.quantity > 0
    ensures Accounting.Filled(a, f).cash == a.cash - Accounting.Signed(f) * f.price
    ensures Accounting.Filled(a, f).mark == a.mark
  {
  }

  lemma FilledContained(a: Accounting.Account, f: Types.Fill, limit: int, price: int, qty: int, spent: int)
    requires Contained(a, limit, price, spent) && SmallFill(price, qty, f.price, f.quantity)
    requires Abs(a.netQty + Accounting.Signed(f)) <= limit
    ensures Contained(Accounting.Filled(a, f), limit, price, spent + qty * price)
  {
    NotionalBound(price, qty, f);
    CostBasis.CostAfter(a, f);
    var x := CostBasis.Exact(a.netQty, 0.0, [], 0);
    assert CostBasis.Bounded(CostBasis.ExactFill(x, f).prices, 0, price);
    CostBasis.EnvelopeStep(Abs(a.openCost), x, f, 0, price);
    FilledCash(a, f);
  }

  /** The effect-dependent product of `apply_fill`. */
  lemma CostStepSafe(a: Accounting.Account, f: Types.Fill, limit: int, price: int, qty: int, spent: int)
    requires Contained(a, limit, price, spent) && SmallFill(price, qty, f.price, f.quantity) && limit >= 2
    requires Abs(a.netQty + Accounting.Signed(f)) <= limit && limit * limit * price <= INT64_MAX
    ensures match Accounting.EffectOf(a.netQty, Accounting.Signed(f))
      case Opens => Int64(a.openCost + Accounting.Signed(f) * f.price)
      case Closes => true
      case Reduces => Int64(a.openCost * Abs(a.netQty + Accounting.Signed(f)))
      case Flips => Int64((a.netQty + Accounting.Signed(f)) * f.price)
  {
    var rest := a.netQty + Accounting.Signed(f);
    CostBound(a, limit, price, spent);
    MulLe(2, limit, limit * price);
    MulSwap(limit, limit, price);
    match Accounting.EffectOf(a.netQty, Accounting.Signed(f))
    case Opens =>
      FilledContained(a, f, limit, price, qty, spent);
      CostBound(Accounting.Filled(a, f), limit, price, spent + qty * price);
    case Closes =>
    case Reduces => AbsMul(a.openCost, Abs(rest), limit * price, limit);
    case Flips => AbsMul(rest, f.price, limit, price);
  }

  lemma ContainedParts(a: Accounting.Account, limit: int, price: int, spent: int)
    requires Contained(a, limit, price, spent)
    ensures Abs(a.cash) <= spent && Abs(a.netQty) <= limit
  {
  }

  lemma FillIsSafe(a: Accounting.Account, f: Types.Fill, limit: int, price: int, qty: int, spent: int)
    requires Contained(a, limit, price, spent) && SmallFill(price, qty, f.price, f.quantity)
    requires Abs(a.netQty + Accounting.Signed(f)) <= limit && limit >= 2 && price >= 1 && 0 <= a.mark <= price
    requires limit * limit * price <= INT64_MAX && spent >= 0 && spent + qty * price + limit * price <= INT64_MAX
    ensures FillSafe(a, f)
    ensures MarkSafe(Accounting.Filled(a, f), a.mark)
  {
    hide Contained, Accounting.Filled, MarkSafe;
    NotionalBound(price, qty, f);
    CostStepSafe(a, f, limit, price, qty, spent);
    FilledContained(a, f, limit, price, qty, spent);
    FilledCash(a, f);
    MarkIsSafe(Accounting.Filled(a, f), a.mark, limit, price, spent + qty * price);
    assert Abs(a.cash) <= spent && Abs(a.netQty) <= limit by { ContainedParts(a, limit, price, spent); }
    MulLe(2, limit, limit * price);
    MulSwap(limit, limit, price);
    MulLe(1, price, qty);
    MulLe(1, price, limit);
  }

  lemma MidInRange(tick: MarketTick, price: int)
    requires 1 <= tick.bidPrice <= price && 1 <= tick.askPrice <= price
    ensures 1 <= Mid(tick) <= price
  {
  }

  lemma MarkedContained(a: Accounting.Account, mid: int, limit: int, price: int, spent: int)
    requires Contained(a, limit, price, spent)
    ensures Contained(Accounting.Marked(a, mid), limit, price, spent) && Accounting.Marked(a, mid).mark == mid
  {
  }

  lemma FillsStayWithinLimit(limit: int, price: int, qty: int, k: Kernel, tick: MarketTick, i: nat)
    requires Limited(limit, k) && Agreement(k.oms, k.gw) && Sized(price, qty, k)
    requires 1 <= tick.bidPrice <= price && 1 <= tick.askPrice <= price
    requires i < |Polled(k.gw, tick).1.events| && Polled(k.gw, tick).1.events[i].kind.Fill?
    ensures var f := BookedFill(k.oms, Polled(k.gw, tick).1.events[i]);
      SmallFill(price, qty, f.price, f.quantity) && Abs(k.acct.netQty + Accounting.Signed(f)) <= limit
  {
    hide Polled;
    PollSmall(price, k.oms, k.gw, tick);
    FillWithinLimit(limit, k.acct.netQty, k.oms.side, k.oms.leavesQty, Polled(k.gw, tick).1.events[i].fillQty);
  }

  lemma TurnoverFits(cfg: Config, price: int, qty: int, n: nat, m: nat)
    requires m < n && qty >= 1 && price >= 1 && cfg.limit >= 2
    requires qty * price * n + cfg.limit * price <= INT64_MAX
    ensures 0 <= qty * price * m && qty * price * m + qty * price + cfg.limit * price <= INT64_MAX
    ensures qty * price * m + cfg.limit * price <= INT64_MAX
    ensures cfg.limit + qty <= INT64_MAX
  {
    MulLe(m + 1, n, qty * price);
    MulLe(1, price, qty);
    MulLe(0, m, qty * price);
    MulLe(1, price, cfg.limit);
  }

  lemma PricesFit(limit: int, price: int)
    requires limit >= 2 && price >= 1 && limit * limit * price <= INT64_MAX
    ensures 4 * price <= INT64_MAX
  {
    MulLe(2, limit, limit * price);
    MulSwap(limit, limit, price);
    MulLe(2, limit, price);
  }

  lemma SizedParts(price: int, qty: int, k: Kernel)
    requires Sized(price, qty, k)
    ensures -1 <= k.passiveSubmitTs <= INT64_MAX - 1000
    ensures 0 <= k.gw.sim.resting.submitTs <= INT64_MAX - 1000
  {
  }

  lemma LimitedPosition(limit: int, k: Kernel)
    requires Limited(limit, k)
    ensures Abs(k.acct.netQty) <= limit
  {
  }

  lemma MarkedPosition(a: Accounting.Account, mid: int)
    ensures Accounting.Marked(a, mid).netQty == a.netQty
  {
  }

  /** Timestamps, mid price, marking and fills of every tick stay within 64 bits, whenever the limit
      squared times the highest price and the worst-case turnover do. */
  lemma NoOverflow(cfg: Config, price: int, qty: int, inputs: seq<Input>, m: nat)
    requires Feasible(cfg, price, qty, inputs) && m < |inputs|
    ensures TickSafe(cfg, Run(cfg, inputs[..m]), inputs[m])
  {
    hide Run, RunInv, Limited, Contained, Sized, Polled, MarkSafe, FillSafe, Accounting.Filled, Accounting.Marked,
      SmallFill, Mid, Agreement, VenuePhase;
    var k, tick, spent := Run(cfg, inputs[..m]), inputs[m].tick, qty * price * m;
    assert Plain(price, qty, inputs[m]);
    TurnoverFits(cfg, price, qty, |inputs|, m);
    PricesFit(cfg.limit, price);
    RunContained(cfg, price, qty, inputs[..m]);
    MidInRange(tick, price);
    MarkIsSafe(k.acct, Mid(tick), cfg.limit, price, spent);
    MarkedContained(k.acct, Mid(tick), cfg.limit, price, spent);
    RunSized(cfg, price, qty, inputs[..m]);
    SizedParts(price, qty, k);
    RunStaysWithinLimit(cfg, inputs[..m]);
    ComponentsAgree(cfg, inputs[..m]);
    RunAgrees(cfg, k);
    VenuePhaseLimited(cfg, k, tick);
    LimitedPosition(cfg.limit, VenuePhase(cfg, k, tick));
    var marked, events := Accounting.Marked(k.acct, Mid(tick)), Polled(k.gw, tick).1.events;
    forall i | 0 <= i < |events| && events[i].kind.Fill?
      ensures FillSafe(marked, BookedFill(k.oms, events[i]))
      ensures MarkSafe(Accounting.Filled(marked, BookedFill(k.oms, events[i])), Mid(tick))
    {
      FillsStayWithinLimit(cfg.limit, price, qty, k, tick, i);
      MarkedPosition(k.acct, Mid(tick));
      FillIsSafe(marked, BookedFill(k.oms, events[i]), cfg.limit, price, qty, spent);
    }
  }

  /** The replay's own limit of 200 and order size of 50: prices up to B and n ticks are safe when
      40000*B and 50*B*n + 200*B fit. */
  lemma ReplayNeverOverflows(style: Style, cancelAfter: int, price: int, inputs: seq<Input>, m: nat)
    requires m < |inputs| && price >= 1
    requires forall i :: 0 <= i < |inputs| ==> Plain(price, 50, inputs[i])
    requires 40000 * price <= INT64_MAX && 50 * price * |inputs| + 200 * price <= INT64_MAX
    ensures TickSafe(ReplayConfig(style, cancelAfter), Run(ReplayConfig(style, cancelAfter), inputs[..m]), inputs[m])
  {
    hide Run, TickSafe, Plain;
    NoOverflow(ReplayConfig(style, cancelAfter), price, 50, inputs, m);
  }
}
