/** Order manager, gateway and simulator hold three copies of one order; this is how they agree. */
module ReplayAgreement {
  import opened Types
  import opened OrderManagement
  import opened Execution
  import opened VenueGateway

  /** The simulation relation between the order manager and the venue, at every phase of a tick. */
  ghost predicate Agreement(o: ManagedOrder, g: Gateway) {
    && OrderInv(o) && GatewayInv(g)
    && (g.pending.active <==> o.state == PendingNewAck)
    && (g.pending.active ==>
          && o.clientOrderId == g.pending.request.clientOrderId
          && o.side == g.pending.request.side
          && o.limitPrice == g.pending.request.limitPrice
          && o.orderQty == g.pending.request.quantity)
    && (g.act.active ==>
          && Working(o.state)
          && o.venueOrderId == g.act.venueOrderId
          && o.side == g.act.side
          && o.limitPrice == g.act.limitPrice
          && o.leavesQty == g.act.leavesQty)
    && (o.state == Acked || o.state == PendingCancel ==> g.act.active)
    && (o.state == PendingCancel ==> g.act.cancelSent || g.sim.resting.cancelPending)
    && (g.act.active && (g.act.cancelSent || g.sim.resting.cancelPending) ==> o.state != Acked)
  }

  /** The order manager believes in an order the venue no longer has. */
  ghost predicate Orphaned(o: ManagedOrder, g: Gateway) {
    Live(o.state) && !g.pending.active && !g.act.active
  }

  /** The order manager after a list of events, with nothing else looked at. */
  function Delivered(o: ManagedOrder, events: seq<VenueEvent>): ManagedOrder
    decreases |events|
  {
    if events == [] then o else Delivered(OnEvent(o, events[0]).order, events[1..])
  }

  predicate CancelAnswer(e: VenueEvent) {
    e.kind.CancelAck? || e.kind.CancelReject?
  }

  /** Every event is applied, save answers to a cancel that a fill has overtaken. */
  predicate Taken(o: ManagedOrder, e: VenueEvent) {
    Verdict(o, e) == Applied || (CancelAnswer(e) && Verdict(o, e) == WrongState)
  }

  predicate AllTaken(o: ManagedOrder, events: seq<VenueEvent>)
    decreases |events|
  {
    events == [] || (Taken(o, events[0]) && AllTaken(OnEvent(o, events[0]).order, events[1..]))
  }

  lemma TakeOne(o: ManagedOrder, e: VenueEvent)
    ensures Delivered(o, [e]) == OnEvent(o, e).order
    ensures AllTaken(o, [e]) == Taken(o, e)
  {
    hide OnEvent, Taken;
    assert [e][1..] == [];
  }

  lemma {:induction false} TakeConcat(o: ManagedOrder, a: seq<VenueEvent>, b: seq<VenueEvent>)
    ensures Delivered(o, a + b) == Delivered(Delivered(o, a), b)
    ensures AllTaken(o, a) && AllTaken(Delivered(o, a), b) ==> AllTaken(o, a + b)
    decreases |a|
  {
    hide OnEvent, Taken;
    if a == [] {
      assert a + b == b;
    } else {
      assert (a + b)[1..] == a[1..] + b;
      TakeConcat(OnEvent(o, a[0]).order, a[1..], b);
    }
  }

  lemma OneDeliveredSize(o: ManagedOrder, e: VenueEvent)
    ensures Live(OnEvent(o, e).order.state) ==> Live(o.state) && OnEvent(o, e).order.orderQty == o.orderQty
  {
  }

  /** Events never revive an order and never change its size. */
  lemma {:induction false} DeliveredSize(o: ManagedOrder, events: seq<VenueEvent>)
    ensures Live(Delivered(o, events).state) ==> Live(o.state) && Delivered(o, events).orderQty == o.orderQty
    decreases |events|
  {
    if events == [] {
    } else {
      DeliveredSize(OnEvent(o, events[0]).order, events[1..]);
      OneDeliveredSize(o, events[0]);
      hide OnEvent;
    }
  }

  // ---------------------------------------------------------------------------
  // One venue tick
  // ---------------------------------------------------------------------------

  /** An acknowledged order as the order manager sees it right after the ack. */
  function AckedOrder(o: ManagedOrder, id: int): ManagedOrder {
    o.(venueOrderId := id, state := Acked)
  }

  lemma AggressiveDelivers(o: ManagedOrder, req: NewOrder, tick: MarketTick, id: int)
    requires OrderInv(o) && o.state == PendingNewAck && o.orderQty == req.quantity && id > 0
    ensures var events := AggressiveEvents(req, tick, id);
      var e := Delivered(o, events);
      && AllTaken(o, events) && OrderInv(e)
      && e.state == (if Takes(req, tick) == req.quantity then OrderState.Filled else OrderState.Expired)
      && e.cumQty == Takes(req, tick)
  {
    var ts, qty := tick.receiveTs, Takes(req, tick);
    var ack, fill, expiry := AckEvent(ts, id), FillEvent(ts, id, qty, TouchPrice(req.side, tick)), ExpiryEvent(ts, id);
    var a := AckedOrder(o, id);
    TakeOne(o, ack);
    var fills := if qty > 0 then [fill] else [];
    if qty > 0 { TakeOne(a, fill); }
    TakeConcat(o, [ack], fills);
    var b := Delivered(a, fills);
    var ends := if qty < req.quantity then [expiry] else [];
    if qty < req.quantity { TakeOne(b, expiry); }
    TakeConcat(o, [ack] + fills, ends);
  }

  /** What one tick of a resting order means to the order manager. */
  lemma RestingDelivers(o: ManagedOrder, r: RestingOrder, tick: MarketTick)
    requires OrderInv(o) && Working(o.state)
    requires RestingInv(r) && r.active && r.leavesQty == o.leavesQty
    ensures var events := RestingEvents(r, tick, o.venueOrderId);
      var e := Delivered(o, events);
      && AllTaken(o, events) && OrderInv(e)
      && (if FillsOn(r, tick) then
            e == o.(cumQty := e.cumQty, leavesQty := RestingLeaves(r, tick),
                    state := if RestingLeaves(r, tick) == 0 then OrderState.Filled else PartiallyFilled)
          else if r.cancelPending && tick.receiveTs >= r.cancelEffectiveTs && o.state == PendingCancel then
            e.state == Canceled
          else e == o)
  {
    var events := RestingEvents(r, tick, o.venueOrderId);
    if events != [] {
      TakeOne(o, events[0]);
      EventKeepsInv(o, events[0]);
    }
  }

  /** A tick acknowledges a cancel that a partial fill has overtaken: the guard of the code's dead end. */
  predicate Strands(o: ManagedOrder, g: Gateway, tick: MarketTick) {
    && g.act.active && o.state == PartiallyFilled
    && !(CancelDue(g, tick) && RefusesCancel(g.act))
    && !FillsOn(Facing(g, tick), tick)
    && Facing(g, tick).cancelPending && tick.receiveTs >= Facing(g, tick).cancelEffectiveTs
  }

  lemma DeliverNewReject(o: ManagedOrder, g: Gateway, tick: MarketTick)
    requires Agreement(o, g) && AckDue(g, tick) && g.pending.shouldReject
    ensures var (h, b) := Polled(g, tick);
      && AllTaken(o, b.events) && Agreement(Delivered(o, b.events), h)
      && Delivered(o, b.events).state == Rejected
  {
    var e := VenueEvent(NewReject, tick.receiveTs, 0, 0, 0);
    assert Polled(g, tick).1.events == [e];
    TakeOne(o, e);
  }

  lemma DeliverAggressive(o: ManagedOrder, g: Gateway, tick: MarketTick)
    requires Agreement(o, g) && AckDue(g, tick) && !g.pending.shouldReject
    requires g.pending.request.style == Aggressive
    ensures var (h, b) := Polled(g, tick);
      && AllTaken(o, b.events) && Agreement(Delivered(o, b.events), h)
      && Terminal(Delivered(o, b.events).state) && !h.act.active
  {
    hide Polled, AllTaken, Delivered, AggressiveEvents;
    PollBudget(g, tick);
    PollAggressive(g, tick);
    AggressiveDelivers(o, g.pending.request, tick, g.nextVenueOrderId);
  }

  lemma DeliverPassive(o: ManagedOrder, g: Gateway, tick: MarketTick)
    requires Agreement(o, g) && AckDue(g, tick) && !g.pending.shouldReject
    requires g.pending.request.style == Passive
    ensures var (h, b) := Polled(g, tick);
      && AllTaken(o, b.events) && Agreement(Delivered(o, b.events), h)
      && !Orphaned(Delivered(o, b.events), h)
  {
    hide Polled, AllTaken, Delivered, RestingEvents;
    var req, id := g.pending.request, g.nextVenueOrderId;
    PollBudget(g, tick);
    PollPassive(g, tick);
    var ack := AckEvent(tick.receiveTs, id);
    var a := AckedOrder(o, id);
    TakeOne(o, ack);
    RestingDelivers(a, Entry(req, tick), tick);
    TakeConcat(o, [ack], RestingEvents(Entry(req, tick), tick, id));
  }

  lemma DeliverRefused(o: ManagedOrder, g: Gateway, tick: MarketTick)
    requires Agreement(o, g) && CancelDue(g, tick) && RefusesCancel(g.act)
    ensures var (h, b) := Polled(g, tick);
      && AllTaken(o, b.events) && Agreement(Delivered(o, b.events), h)
      && h.act.active
  {
    PollRefused(g, tick);
    TakeOne(o, CancelRejectEvent(tick.receiveTs, g.act.venueOrderId));
  }

  lemma DeliverWorking(o: ManagedOrder, g: Gateway, tick: MarketTick)
    requires Agreement(o, g) && g.act.active && !(CancelDue(g, tick) && RefusesCancel(g.act))
    ensures var (h, b) := Polled(g, tick);
      && AllTaken(o, b.events) && Agreement(Delivered(o, b.events), h)
      && (Orphaned(Delivered(o, b.events), h) <==> Strands(o, g, tick))
  {
    hide Polled, AllTaken, Delivered, RestingEvents;
    PollBudget(g, tick);
    PollWorking(g, tick);
    RestingDelivers(o, Facing(g, tick), tick);
  }

  /** From any agreeing state, any tick: all events are taken, agreement survives, and an order is
      orphaned exactly when it already was or the tick strands it. */
  lemma PollDelivers(o: ManagedOrder, g: Gateway, tick: MarketTick)
    requires Agreement(o, g)
    ensures var (h, b) := Polled(g, tick);
      && AllTaken(o, b.events) && Agreement(Delivered(o, b.events), h)
      && (Orphaned(Delivered(o, b.events), h) <==> Orphaned(o, g) || Strands(o, g, tick))
  {
    if AckDue(g, tick) {
      if g.pending.shouldReject {
        DeliverNewReject(o, g, tick);
      } else if g.pending.request.style == Aggressive {
        DeliverAggressive(o, g, tick);
      } else {
        DeliverPassive(o, g, tick);
      }
    } else if !g.act.active {
      PollIdle(g, tick);
    } else if CancelDue(g, tick) && RefusesCancel(g.act) {
      DeliverRefused(o, g, tick);
    } else {
      DeliverWorking(o, g, tick);
    }
  }
}
