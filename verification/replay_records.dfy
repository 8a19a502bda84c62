/** How many journal records a tick writes, told from the state before it. */
module ReplayRecords {
  import opened Types
  import opened OrderManagement
  import opened Execution
  import opened VenueGateway
  import opened Risk
  import opened Replay
  import opened ReplayAgreement
  import opened ReplayRuns
  import Accounting

  // ---------------------------------------------------------------------------
  // Single steps
  // ---------------------------------------------------------------------------

  /** Position change a list of events causes. */
  function Traded(o: ManagedOrder, events: seq<VenueEvent>): int
    decreases |events|
  {
    if events == [] then 0
    else
      var h := OnEvent(o, events[0]);
      Sign(h.fill.side) * h.fill.quantity + Traded(h.order, events[1..])
  }

  lemma EventTrades(k: Kernel, e: VenueEvent, fallback: Side, tick: MarketTick)
    requires OrderInv(k.oms)
    ensures var h := OnEvent(k.oms, e);
      var m := HandleVenueEvent(k, e, fallback, tick);
      m.oms == h.order && m.acct.netQty == k.acct.netQty + Sign(h.fill.side) * h.fill.quantity
  {
    hide OnEvent, HandleFill, CountRefusal, LegalEdge, OrderInv;
    var h := OnEvent(k.oms, e);
    EventOutcome(k.oms, e);
    if h.outcome == Applied {
      var side := if k.oms.state == Idle then fallback else k.oms.side;
      FillMovesPosition(EmitTransition(k.(oms := h.order), e.ts, k.oms.state, h.order.state, side), h.fill, tick);
    }
  }

  lemma RunParts(cfg: Config, k: Kernel)
    requires RunInv(cfg, k)
    ensures OrderInv(k.oms) && GatewayInv(k.gw)
  {
  }

  lemma {:induction false} BatchTrades(k: Kernel, events: seq<VenueEvent>, tick: MarketTick)
    requires OrderInv(k.oms)
    ensures HandleBatch(k, events, tick).acct.netQty == k.acct.netQty + Traded(k.oms, events)
    decreases |events|
  {
    hide HandleVenueEvent, OnEvent, OrderInv;
    if events == [] {
    } else {
      EventTrades(k, events[0], k.oms.side, tick);
      EventKeepsInv(k.oms, events[0]);
      BatchTrades(HandleVenueEvent(k, events[0], k.oms.side, tick), events[1..], tick);
    }
  }

  /** A venue tick, from its gateway result. */
  lemma PollSees(cfg: Config, k: Kernel, tick: MarketTick, g: Gateway, events: seq<VenueEvent>)
    requires RunInv(cfg, k) && Polled(k.gw, tick) == (g, Batch(events, 0))
    ensures var m := Poll(k, tick);
      && m.oms == Delivered(k.oms, events) && m.gw == g
      && m.passiveSubmitTs == k.passiveSubmitTs && m.nextClientId == k.nextClientId
      && |m.journal| == |k.journal| + BatchRecords(k.oms, events)
      && m.acct.netQty == k.acct.netQty + Traded(k.oms, events)
  {
    hide Polled, HandleBatch;
    PollDelivers(k.oms, k.gw, tick);
    BatchChanges(BeforeBatch(k, tick), events, tick);
    BatchTrades(BeforeBatch(k, tick), events, tick);
  }

  /** A signal while nothing is live becomes a pending order. */
  lemma SubmitsFresh(cfg: Config, k: Kernel, order: OrderRequest, tick: MarketTick)
    requires RunInv(cfg, k) && !Live(k.oms.state)
    requires Evaluate(cfg.limit, k.acct.netQty, order).accepted
    ensures var m := SignalStep(cfg, k, order, tick);
      var req := Priced(cfg, order, tick);
      && m.oms == ManagedOrder(k.nextClientId, 0, req.side, req.limitPrice, req.quantity, 0, req.quantity, PendingNewAck)
      && m.gw == k.gw.(pending := PendingNew(true, RequestOf(cfg, k.nextClientId, req, tick),
                                             tick.receiveTs + k.gw.newAckLatency, TruncMod(k.nextClientId, 3) == 0))
      && m.nextClientId == k.nextClientId + 1 && m.acct == k.acct
      && m.passiveSubmitTs == (if cfg.style == Passive then tick.receiveTs else k.passiveSubmitTs)
      && |m.journal| == |k.journal| + 1
  {
    hide HandleVenueEvent, TruncMod, Evaluate;
    SubmitAgrees(cfg, k.oms, k.gw, k.nextClientId, Priced(cfg, order, tick), tick);
  }

  /** A signal while an order is live changes neither the order nor the venue. */
  lemma SignalWhileLive(cfg: Config, k: Kernel, order: OrderRequest, tick: MarketTick)
    requires Live(k.oms.state)
    ensures var m := SignalStep(cfg, k, order, tick);
      m.oms == k.oms && m.gw == k.gw && m.passiveSubmitTs == k.passiveSubmitTs && m.acct == k.acct
  {
    hide SendStep;
  }

  // ---------------------------------------------------------------------------
  // The venue half, case by case
  // ---------------------------------------------------------------------------

  predicate CancelRefused(g: Gateway, tick: MarketTick) {
    CancelDue(g, tick) && RefusesCancel(g.act)
  }

  predicate AcksCancel(r: RestingOrder, tick: MarketTick) {
    !FillsOn(r, tick) && r.cancelPending && tick.receiveTs >= r.cancelEffectiveTs
  }

  /** Quantity a tick gives a resting order. */
  function RestingFill(r: RestingOrder, tick: MarketTick): int {
    if FillsOn(r, tick) then Min(r.leavesQty, Reached(r, tick)) else 0
  }

  /** Quantity a tick fills. */
  function TickFill(g: Gateway, tick: MarketTick): int {
    if AckDue(g, tick) then
      if g.pending.shouldReject then 0
      else if g.pending.request.style == Aggressive then Takes(g.pending.request, tick)
      else RestingFill(Entry(g.pending.request, tick), tick)
    else if !g.act.active || CancelRefused(g, tick) then 0
    else RestingFill(Facing(g, tick), tick)
  }

  /** Records of the venue's events: a state change is one, and so is a fill or a venue reject. */
  function VenueRecords(o: ManagedOrder, g: Gateway, tick: MarketTick): nat {
    var filled := TickFill(g, tick);
    if AckDue(g, tick) then
      if g.pending.shouldReject then 2
      else if g.pending.request.style == Aggressive then
        1 + (if filled > 0 then 2 else 0) + (if filled < g.pending.request.quantity then 1 else 0)
      else 1 + (if filled > 0 then 2 else 0)
    else if !g.act.active then 0
    else if CancelRefused(g, tick) then (if o.state == PendingCancel then 2 else 0)
    else if filled > 0 then (if o.state == PartiallyFilled && filled < o.leavesQty then 1 else 2)
    else if AcksCancel(Facing(g, tick), tick) && o.state == PendingCancel then 1
    else 0
  }

  /** Does the order manager still hold a live order after the venue half? */
  predicate StillLive(o: ManagedOrder, g: Gateway, tick: MarketTick) {
    if AckDue(g, tick) then
      !g.pending.shouldReject && g.pending.request.style == Passive && TickFill(g, tick) < g.pending.request.quantity
    else
      && Live(o.state)
      && (g.act.active && !CancelRefused(g, tick) ==>
            && TickFill(g, tick) < o.leavesQty
            && !(AcksCancel(Facing(g, tick), tick) && o.state == PendingCancel))
  }

  /** Could a cancel be sent after the venue half? */
  predicate Cancelable(o: ManagedOrder, g: Gateway, tick: MarketTick) {
    if AckDue(g, tick) then StillLive(o, g, tick)
    else
      && g.act.active && StillLive(o, g, tick)
      && (!CancelRefused(g, tick) ==>
            && (g.act.cancelSent ==> CancelDue(g, tick))
            && !AcksCancel(Facing(g, tick), tick)
            && (TickFill(g, tick) > 0 || o.state != PendingCancel))
  }

  predicate MayCancel(o: ManagedOrder, g: Gateway) {
    (o.state == Acked || o.state == PartiallyFilled) && g.act.active && !g.act.cancelSent
  }

  /** The events of a tick cause what the functions above say. */
  ghost predicate Told(o: ManagedOrder, g: Gateway, tick: MarketTick) {
    var (h, b) := Polled(g, tick);
    var p := Delivered(o, b.events);
    && b.overflow == 0
    && BatchRecords(o, b.events) == VenueRecords(o, g, tick)
    && Traded(o, b.events) == Sign(o.side) * TickFill(g, tick)
    && (Live(p.state) <==> StillLive(o, g, tick))
    && (MayCancel(p, h) <==> Cancelable(o, g, tick))
  }

  lemma OneEvent(o: ManagedOrder, e: VenueEvent)
    ensures BatchRecords(o, [e]) == Records(o, e)
    ensures Traded(o, [e]) == Sign(OnEvent(o, e).fill.side) * OnEvent(o, e).fill.quantity
    ensures Delivered(o, [e]) == OnEvent(o, e).order
  {
    hide OnEvent, Records;
    assert [e][1..] == [];
  }

  lemma {:induction false} EventsConcat(o: ManagedOrder, a: seq<VenueEvent>, b: seq<VenueEvent>)
    ensures BatchRecords(o, a + b) == BatchRecords(o, a) + BatchRecords(Delivered(o, a), b)
    ensures Traded(o, a + b) == Traded(o, a) + Traded(Delivered(o, a), b)
    ensures Delivered(o, a + b) == Delivered(Delivered(o, a), b)
    decreases |a|
  {
    hide OnEvent, Records;
    if a == [] {
      assert a + b == b;
    } else {
      assert (a + b)[1..] == a[1..] + b;
      EventsConcat(OnEvent(o, a[0]).order, a[1..], b);
    }
  }

  lemma ToldReject(o: ManagedOrder, g: Gateway, tick: MarketTick)
    requires Agreement(o, g) && AckDue(g, tick) && g.pending.shouldReject
    ensures Told(o, g, tick)
  {
    var e := VenueEvent(NewReject, tick.receiveTs, 0, 0, 0);
    assert Polled(g, tick).1.events == [e];
    OneEvent(o, e);
    hide BatchRecords, Traded, Delivered;
  }

  lemma Nothing(o: ManagedOrder)
    ensures BatchRecords(o, []) == 0 && Traded(o, []) == 0 && Delivered(o, []) == o
  {
  }

  lemma AggressiveTold(o: ManagedOrder, req: NewOrder, tick: MarketTick, id: int)
    requires OrderInv(o) && o.state == PendingNewAck && o.orderQty == req.quantity && id > 0
    ensures var events := AggressiveEvents(req, tick, id);
      var qty := Takes(req, tick);
      && BatchRecords(o, events) == 1 + (if qty > 0 then 2 else 0) + (if qty < req.quantity then 1 else 0)
      && Traded(o, events) == Sign(o.side) * qty
      && Terminal(Delivered(o, events).state)
  {
    hide BatchRecords, Traded, Delivered;
    var ts, qty := tick.receiveTs, Takes(req, tick);
    var ack, fill, expiry := AckEvent(ts, id), FillEvent(ts, id, qty, TouchPrice(req.side, tick)), ExpiryEvent(ts, id);
    var fills := if qty > 0 then [fill] else [];
    var ends := if qty < req.quantity then [expiry] else [];
    var a := AckedOrder(o, id);
    OneEvent(o, ack);
    Nothing(a);
    if qty > 0 { OneEvent(a, fill); }
    EventsConcat(o, [ack], fills);
    var b := Delivered(a, fills);
    Nothing(b);
    if qty < req.quantity { OneEvent(b, expiry); }
    EventsConcat(o, [ack] + fills, ends);
  }

  lemma ToldAggressive(o: ManagedOrder, g: Gateway, tick: MarketTick)
    requires Agreement(o, g) && AckDue(g, tick) && !g.pending.shouldReject
    requires g.pending.request.style == Aggressive
    ensures Told(o, g, tick)
  {
    hide Polled, BatchRecords, Traded, Delivered, AggressiveEvents, Takes;
    PollAggressive(g, tick);
    AggressiveTold(o, g.pending.request, tick, g.nextVenueOrderId);
  }

  /** What one tick of a resting order adds to journal and position. */
  lemma RestingTold(o: ManagedOrder, r: RestingOrder, tick: MarketTick)
    requires OrderInv(o) && Working(o.state)
    requires RestingInv(r) && r.active && r.leavesQty == o.leavesQty
    ensures var events := RestingEvents(r, tick, o.venueOrderId);
      var filled := RestingFill(r, tick);
      && BatchRecords(o, events) ==
           (if filled > 0 then (if o.state == PartiallyFilled && filled < o.leavesQty then 1 else 2)
            else if AcksCancel(r, tick) && o.state == PendingCancel then 1 else 0)
      && Traded(o, events) == Sign(o.side) * filled
  {
    hide BatchRecords, Traded, Delivered;
    var events := RestingEvents(r, tick, o.venueOrderId);
    Nothing(o);
    if events != [] {
      OneEvent(o, events[0]);
    }
  }

  lemma ToldPassive(o: ManagedOrder, g: Gateway, tick: MarketTick)
    requires Agreement(o, g) && AckDue(g, tick) && !g.pending.shouldReject
    requires g.pending.request.style == Passive
    ensures Told(o, g, tick)
  {
    hide Polled, BatchRecords, Traded, Delivered, RestingEvents;
    var req, id := g.pending.request, g.nextVenueOrderId;
    PollPassive(g, tick);
    var ack, entry := AckEvent(tick.receiveTs, id), Entry(req, tick);
    var a := AckedOrder(o, id);
    OneEvent(o, ack);
    RestingDelivers(a, entry, tick);
    RestingTold(a, entry, tick);
    EventsConcat(o, [ack], RestingEvents(entry, tick, id));
  }

  lemma ToldRefused(o: ManagedOrder, g: Gateway, tick: MarketTick)
    requires Agreement(o, g) && CancelRefused(g, tick)
    ensures Told(o, g, tick)
  {
    PollRefused(g, tick);
    OneEvent(o, CancelRejectEvent(tick.receiveTs, g.act.venueOrderId));
    hide Polled, BatchRecords, Traded, Delivered;
  }

  lemma ToldWorking(o: ManagedOrder, g: Gateway, tick: MarketTick)
    requires Agreement(o, g) && g.act.active && !CancelRefused(g, tick)
    ensures Told(o, g, tick)
  {
    hide Polled, BatchRecords, Traded, Delivered, RestingEvents;
    PollWorking(g, tick);
    RestingDelivers(o, Facing(g, tick), tick);
    RestingTold(o, Facing(g, tick), tick);
  }

  lemma VenueTold(o: ManagedOrder, g: Gateway, tick: MarketTick)
    requires Agreement(o, g)
    ensures Told(o, g, tick)
  {
    if AckDue(g, tick) {
      hide Told;
      if g.pending.shouldReject {
        ToldReject(o, g, tick);
      } else if g.pending.request.style == Aggressive {
        ToldAggressive(o, g, tick);
      } else {
        ToldPassive(o, g, tick);
      }
    } else if !g.act.active {
      PollIdle(g, tick);
      Nothing(o);
    } else if CancelRefused(g, tick) {
      ToldRefused(o, g, tick);
    } else {
      ToldWorking(o, g, tick);
    }
  }

  // ---------------------------------------------------------------------------
  // A whole tick
  // ---------------------------------------------------------------------------

  predicate Overdue(cfg: Config, k: Kernel, tick: MarketTick) {
    cfg.style == Passive && k.passiveSubmitTs >= 0 && tick.receiveTs - k.passiveSubmitTs >= cfg.cancelAfter
  }

  /** Is the signal of a tick turned away by the risk gate, at the position its own fill leads to? */
  predicate RiskRefuses(cfg: Config, k: Kernel, input: Input) {
    !Evaluate(cfg.limit, k.acct.netQty + Sign(k.oms.side) * TickFill(k.gw, input.tick), input.decision.order).accepted
  }

  /** The journal records of one tick, in terms of the kernel before it. */
  function TickRecords(cfg: Config, k: Kernel, input: Input): nat {
    VenueRecords(k.oms, k.gw, input.tick)
    + (if Overdue(cfg, k, input.tick) && Cancelable(k.oms, k.gw, input.tick) then 1 else 0)
    + (if input.decision.hasOrder && (RiskRefuses(cfg, k, input) || !StillLive(k.oms, k.gw, input.tick)) then 1 else 0)
  }

  lemma VenuePhaseRecords(cfg: Config, k: Kernel, tick: MarketTick)
    requires RunInv(cfg, k)
    ensures var m := VenuePhase(cfg, k, tick);
      && |m.journal| == |k.journal| + VenueRecords(k.oms, k.gw, tick)
           + (if Overdue(cfg, k, tick) && Cancelable(k.oms, k.gw, tick) then 1 else 0)
      && m.acct.netQty == k.acct.netQty + Sign(k.oms.side) * TickFill(k.gw, tick)
      && (Live(m.oms.state) <==> StillLive(k.oms, k.gw, tick))
  {
    hide Poll, Polled, BatchRecords, Traded, Delivered, Agreement, VenueRecords, TickFill, StillLive, Cancelable, StyleOk;
    VenueTold(k.oms, k.gw, tick);
    var (h, b) := Polled(k.gw, tick);
    PollSees(cfg, k, tick, h, b.events);
  }

  lemma SignalRecords(cfg: Config, k: Kernel, order: OrderRequest, tick: MarketTick)
    requires RunInv(cfg, k)
    ensures |SignalStep(cfg, k, order, tick).journal|
      == |k.journal| + (if !Evaluate(cfg.limit, k.acct.netQty, order).accepted || !Live(k.oms.state) then 1 else 0)
  {
    if Evaluate(cfg.limit, k.acct.netQty, order).accepted {
      if Live(k.oms.state) {
        hide SendStep;
      } else {
        hide SignalStep;
        SubmitsFresh(cfg, k, order, tick);
      }
    }
  }

  /** Exactly how many records a tick adds to the journal. */
  lemma TickWrites(cfg: Config, k: Kernel, input: Input)
    requires RunInv(cfg, k)
    ensures |TickStep(cfg, k, input).journal| == |k.journal| + TickRecords(cfg, k, input)
  {
    hide VenuePhase, SignalStep, Agreement, StyleOk, VenueRecords, TickFill, StillLive, Cancelable, Evaluate, FillCount;
    VenuePhaseRuns(cfg, k, input.tick);
    VenuePhaseRecords(cfg, k, input.tick);
    SignalRecords(cfg, Timed(VenuePhase(cfg, k, input.tick)), input.decision.order, input.tick);
  }

  /** When a tick writes five records: it acknowledges an order and fills part of it, and the strategy
      signals. The fifth record is the new submission of an aggressive run, after the rest of the old
      order expired; in a passive run, where the old order lives on, it takes an overdue cancel and a
      signal that the risk gate refuses. */
  predicate FiveRecords(cfg: Config, k: Kernel, input: Input) {
    var req, tick := k.gw.pending.request, input.tick;
    var entry := Entry(req, tick);
    && AckDue(k.gw, tick) && !k.gw.pending.shouldReject && input.decision.hasOrder
    && (match cfg.style
        case Aggressive => 0 < Takes(req, tick) < req.quantity
        case Passive =>
          && FillsOn(entry, tick) && Reached(entry, tick) < req.quantity
          && k.passiveSubmitTs >= 0 && tick.receiveTs - k.passiveSubmitTs >= cfg.cancelAfter
          && !Evaluate(cfg.limit, k.acct.netQty + Sign(req.side) * Reached(entry, tick), input.decision.order).accepted)
  }

  lemma FiveAtMost(cfg: Config, k: Kernel, input: Input)
    requires RunInv(cfg, k)
    ensures TickRecords(cfg, k, input) <= 5
    ensures TickRecords(cfg, k, input) == 5 <==> FiveRecords(cfg, k, input)
  {
    hide Evaluate, Marketable, Facing;
  }

  /** The declared four records per tick are exceeded exactly on the ticks that meet `FiveRecords`. */
  lemma WritesFive(cfg: Config, k: Kernel, input: Input)
    requires RunInv(cfg, k)
    ensures |TickStep(cfg, k, input).journal| <= |k.journal| + 5
    ensures |TickStep(cfg, k, input).journal| == |k.journal| + 5 <==> FiveRecords(cfg, k, input)
  {
    hide TickStep, TickRecords, FiveRecords, RunInv;
    TickWrites(cfg, k, input);
    FiveAtMost(cfg, k, input);
  }

  // ---------------------------------------------------------------------------
  // A whole run
  // ---------------------------------------------------------------------------

  /** Ticks of a run that write five records. */
  function FiveTicks(cfg: Config, inputs: seq<Input>): nat {
    if inputs == [] then 0
    else
      var prior, last := inputs[..|inputs| - 1], inputs[|inputs| - 1];
      FiveTicks(cfg, prior) + (if FiveRecords(cfg, Run(cfg, prior), last) then 1 else 0)
  }

  /** What the other ticks leave unused of four records each. */
  function Spare(cfg: Config, inputs: seq<Input>): int {
    if inputs == [] then 0
    else
      var prior, last := inputs[..|inputs| - 1], inputs[|inputs| - 1];
      Spare(cfg, prior) + (if FiveRecords(cfg, Run(cfg, prior), last) then 0 else 4 - TickRecords(cfg, Run(cfg, prior), last))
  }

  lemma {:induction false} JournalBalance(cfg: Config, inputs: seq<Input>)
    ensures |Run(cfg, inputs).journal| + Spare(cfg, inputs) == 4 * |inputs| + FiveTicks(cfg, inputs)
    ensures Spare(cfg, inputs) >= 0
  {
    hide TickStep, TickRecords, FiveRecords, RunInv;
    if inputs == [] {
    } else {
      var prior, last := inputs[..|inputs| - 1], inputs[|inputs| - 1];
      JournalBalance(cfg, prior);
      ComponentsAgree(cfg, prior);
      TickWrites(cfg, Run(cfg, prior), last);
      FiveAtMost(cfg, Run(cfg, prior), last);
    }
  }

  /** Does tick `i` of a run write five records? */
  predicate FiveAt(cfg: Config, inputs: seq<Input>, i: nat)
    requires i < |inputs|
  {
    FiveRecords(cfg, Run(cfg, inputs[..i]), inputs[i])
  }

  lemma {:induction false} NoFiveTicks(cfg: Config, inputs: seq<Input>)
    ensures FiveTicks(cfg, inputs) == 0 <==> forall i :: 0 <= i < |inputs| ==> !FiveAt(cfg, inputs, i)
  {
    hide FiveRecords, Run;
    if inputs == [] {
    } else {
      var n := |inputs| - 1;
      NoFiveTicks(cfg, inputs[..n]);
      forall i | 0 <= i < n
        ensures FiveAt(cfg, inputs, i) == FiveAt(cfg, inputs[..n], i)
      {
        assert inputs[..n][..i] == inputs[..i];
      }
      assert FiveAt(cfg, inputs, n) == FiveRecords(cfg, Run(cfg, inputs[..n]), inputs[n]);
    }
  }

  // ---------------------------------------------------------------------------
  // Passive runs stay within four records per tick on the whole
  // ---------------------------------------------------------------------------

  /** One for an order in the book: its acknowledgement may have written a fifth record, which the
      tick that ends it saves again. */
  function Borrowed(g: Gateway): nat {
    if g.act.active then 1 else 0
  }

  /** Is an order in the book after the venue half? */
  predicate InBook(g: Gateway, tick: MarketTick) {
    if AckDue(g, tick) then
      && !g.pending.shouldReject && g.pending.request.style == Passive
      && RestingLeaves(Entry(g.pending.request, tick), tick) > 0
    else g.act.active && (CancelRefused(g, tick) || RestingLeaves(Facing(g, tick), tick) > 0)
  }

  lemma PollBook(g: Gateway, tick: MarketTick)
    requires GatewayInv(g)
    ensures Polled(g, tick).0.act.active <==> InBook(g, tick)
  {
    if AckDue(g, tick) {
      if g.pending.shouldReject {
      } else {
        hide Polled, RestingLeaves;
        if g.pending.request.style == Aggressive {
          PollAggressive(g, tick);
        } else {
          PollPassive(g, tick);
        }
      }
    } else {
      hide Polled, RestingLeaves;
      if !g.act.active {
        PollIdle(g, tick);
      } else if CancelRefused(g, tick) {
        PollRefused(g, tick);
      } else {
        PollWorking(g, tick);
      }
    }
  }

  lemma PassiveRecords(cfg: Config, k: Kernel, input: Input)
    requires RunInv(cfg, k) && cfg.style == Passive
    ensures TickRecords(cfg, k, input) + Borrowed(k.gw) <= 4 + (if InBook(k.gw, input.tick) then 1 else 0)
  {
    hide RiskRefuses, Overdue, Marketable;
  }

  lemma EventGateway(k: Kernel, e: VenueEvent, fallback: Side, tick: MarketTick)
    ensures HandleVenueEvent(k, e, fallback, tick).gw == k.gw
  {
    hide OnEvent, Accounting.Filled, Accounting.Marked;
  }

  lemma {:induction false} BatchGateway(k: Kernel, events: seq<VenueEvent>, tick: MarketTick)
    ensures HandleBatch(k, events, tick).gw == k.gw
    decreases |events|
  {
    hide HandleVenueEvent;
    if events == [] {
    } else {
      EventGateway(k, events[0], k.oms.side, tick);
      BatchGateway(HandleVenueEvent(k, events[0], k.oms.side, tick), events[1..], tick);
    }
  }

  lemma VenuePhaseBook(cfg: Config, k: Kernel, tick: MarketTick)
    ensures VenuePhase(cfg, k, tick).gw.act.active == Polled(k.gw, tick).0.act.active
  {
    hide Polled, HandleBatch, Accounting.Marked;
    BatchGateway(BeforeBatch(k, tick), Polled(k.gw, tick).1.events, tick);
  }

  lemma SignalBook(cfg: Config, k: Kernel, order: OrderRequest, tick: MarketTick)
    ensures SignalStep(cfg, k, order, tick).gw.act == k.gw.act
  {
    hide HandleVenueEvent, Evaluate, Submitted;
    var req := Priced(cfg, order, tick);
    var seen := Signalled(k);
    var entered := Entered(seen, Submitted(seen.oms, seen.nextClientId, req.side, req.limitPrice, req.quantity).0);
    var posted := Posted(entered, tick.receiveTs, req.side);
    var gw := NewSent(posted.gw, RequestOf(cfg, seen.nextClientId, req, tick)).0;
    EventGateway(posted.(gw := gw), VenueEvent(NewReject, tick.receiveTs, 0, 0, 0), req.side, tick);
  }

  /** Nothing but the venue half puts an order in the book or takes one out. */
  lemma TickBook(cfg: Config, k: Kernel, input: Input)
    ensures TickStep(cfg, k, input).gw.act.active == Polled(k.gw, input.tick).0.act.active
  {
    hide Polled, VenuePhase, SignalStep;
    VenuePhaseBook(cfg, k, input.tick);
    SignalBook(cfg, Timed(VenuePhase(cfg, k, input.tick)), input.decision.order, input.tick);
  }

  lemma FirstTick(cfg: Config, input: Input)
    ensures TickRecords(cfg, Initial(cfg), input) <= 1
  {
    hide RiskRefuses, Overdue;
  }

  lemma InitialJournal(cfg: Config)
    ensures Initial(cfg).journal == []
  {
  }

  /** However often a passive tick writes five records, the run never exceeds four per tick. */
  lemma {:induction false} PassiveJournal(cfg: Config, inputs: seq<Input>)
    requires cfg.style == Passive && inputs != []
    ensures |Run(cfg, inputs).journal| + 3 <= 4 * |inputs| + Borrowed(Run(cfg, inputs).gw)
  {
    hide TickStep, TickRecords, RunInv, Initial;
    var prior, last := inputs[..|inputs| - 1], inputs[|inputs| - 1];
    var k := Run(cfg, prior);
    ComponentsAgree(cfg, prior);
    TickWrites(cfg, k, last);
    if prior == [] {
      FirstTick(cfg, last);
      assert |Initial(cfg).journal| == 0 by { InitialJournal(cfg); }
    } else {
      PassiveJournal(cfg, prior);
      PassiveRecords(cfg, k, last);
      RunParts(cfg, k);
      PollBook(k.gw, last.tick);
      TickBook(cfg, k, last);
    }
  }
}
