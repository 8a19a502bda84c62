/** The in-process venue of src/mock_venue_gateway.cpp. */
module VenueGateway {
  import opened Types
  import opened OrderManagement
  import opened Execution

  datatype NewOrder = NewOrder(
    clientOrderId: int, side: Side, quantity: int, limitPrice: int, style: Style, submitTs: int)

  datatype PendingNew = PendingNew(active: bool, request: NewOrder, ackReadyTs: int, shouldReject: bool)

  datatype ActiveOrder = ActiveOrder(
    active: bool, clientOrderId: int, venueOrderId: int, side: Side, limitPrice: int, leavesQty: int,
    cancelSent: bool, cancelSendTs: int, cancelRejectOnceDone: bool)

  datatype Gateway = Gateway(
    newAckLatency: int, cancelSendLatency: int, nextVenueOrderId: int,
    pending: PendingNew, act: ActiveOrder, sim: Simulator)

  /** At most four events; further ones are only counted. */
  datatype Batch = Batch(events: seq<VenueEvent>, overflow: nat)

  const BATCH_SIZE := 4
  const FIRST_VENUE_ID := 100000
  const NO_BATCH := Batch([], 0)
  const NO_PENDING := PendingNew(false, NewOrder(0, Buy, 0, 0, Aggressive, 0), 0, false)
  const NO_ACTIVE := ActiveOrder(false, 0, 0, Buy, 0, 0, false, 0, false)

  function Open(newAckLatency: int, cancelSendLatency: int, cancelLatency: int): Gateway {
    Gateway(newAckLatency, cancelSendLatency, FIRST_VENUE_ID, NO_PENDING, NO_ACTIVE, Fresh(cancelLatency))
  }

  // ---------------------------------------------------------------------------
  // Specification functions
  // ---------------------------------------------------------------------------

  function NewSent(g: Gateway, req: NewOrder): (Gateway, bool) {
    if req.quantity <= 0 || g.pending.active || g.act.active then (g, false)
    else (g.(pending := PendingNew(true, req, req.submitTs + g.newAckLatency, TruncMod(req.clientOrderId, 3) == 0)), true)
  }

  function CancelSent(g: Gateway, ts: int): (Gateway, bool) {
    if !g.act.active || g.act.cancelSent then (g, false)
    else (g.(act := g.act.(cancelSent := true, cancelSendTs := ts + g.cancelSendLatency)), true)
  }

  function Push(b: Batch, e: VenueEvent): Batch {
    if |b.events| >= BATCH_SIZE then b.(overflow := b.overflow + 1) else b.(events := b.events + [e])
  }

  function PushReport(b: Batch, act: ActiveOrder, report: Report, ts: int): Batch {
    var filled := if report.hasFill && act.active
      then Push(b, VenueEvent(VenueEventType.Fill, ts, act.venueOrderId, report.fill.quantity, report.fill.price)) else b;
    if report.cancelAcked && act.active
      then Push(filled, VenueEvent(CancelAck, ts, act.venueOrderId, 0, 0)) else filled
  }

  function CloseIfDone(g: Gateway): Gateway {
    if g.act.active && g.act.leavesQty == 0 && !g.sim.resting.active then g.(act := g.act.(active := false)) else g
  }

  predicate AckDue(g: Gateway, tick: MarketTick) {
    g.pending.active && tick.receiveTs >= g.pending.ackReadyTs
  }

  predicate CancelDue(g: Gateway, tick: MarketTick) {
    g.act.active && g.act.cancelSent && tick.receiveTs >= g.act.cancelSendTs
  }

  predicate RefusesCancel(act: ActiveOrder) {
    !act.cancelRejectOnceDone && TruncMod(act.venueOrderId, 2) == 1
  }

  /** The pending order becomes active, trades once, and expires at once when it is aggressive. */
  function Acknowledged(g: Gateway, tick: MarketTick): (Gateway, Batch) {
    var req := g.pending.request;
    var id := g.nextVenueOrderId;
    var act := ActiveOrder(true, req.clientOrderId, id, req.side, req.limitPrice, req.quantity, false, 0, false);
    var (sim, report) := Placed(g.sim, tick, OrderRequest(req.side, req.quantity, req.limitPrice), req.style);
    var acked := Push(NO_BATCH, VenueEvent(NewAck, tick.receiveTs, id, 0, 0));
    var traded := PushReport(acked, act, report, tick.receiveTs);
    var expires := req.style == Aggressive && report.leavesQty > 0;
    var batch := if expires then Push(traded, VenueEvent(VenueEventType.Expired, tick.receiveTs, id, 0, 0)) else traded;
    (CloseIfDone(g.(nextVenueOrderId := id + 1, pending := g.pending.(active := false), sim := sim,
                    act := act.(leavesQty := if expires then 0 else report.leavesQty))),
     batch)
  }

  function CancelForwarded(g: Gateway, tick: MarketTick): Gateway {
    g.(sim := CancelAsked(g.sim, tick.receiveTs).0, act := g.act.(cancelSent := false))
  }

  function Matched(g: Gateway, tick: MarketTick, b: Batch): (Gateway, Batch) {
    var (sim, report) := Ticked(g.sim, tick);
    (CloseIfDone(g.(sim := sim, act := g.act.(leavesQty := report.leavesQty))),
     PushReport(b, g.act, report, tick.receiveTs))
  }

  /** Everything after the acknowledgement step of a tick. */
  function Serviced(g: Gateway, tick: MarketTick, b: Batch): (Gateway, Batch) {
    if CancelDue(g, tick) && RefusesCancel(g.act) then
      (g.(act := g.act.(cancelSent := false, cancelRejectOnceDone := true)),
       Push(b, VenueEvent(CancelReject, tick.receiveTs, g.act.venueOrderId, 0, 0)))
    else
      var h := if CancelDue(g, tick) then CancelForwarded(g, tick) else g;
      if h.act.active || h.sim.resting.active then Matched(h, tick, b) else (h, b)
  }

  function Polled(g: Gateway, tick: MarketTick): (Gateway, Batch) {
    if AckDue(g, tick) && g.pending.shouldReject then
      (g.(pending := g.pending.(active := false)), Push(NO_BATCH, VenueEvent(NewReject, tick.receiveTs, 0, 0, 0)))
    else if AckDue(g, tick) then
      var (h, b) := Acknowledged(g, tick);
      Serviced(h, tick, b)
    else Serviced(g, tick, NO_BATCH)
  }

  // ---------------------------------------------------------------------------
  // The component
  // ---------------------------------------------------------------------------

  class MockVenueGateway {
    const newAckLatency: int
    const cancelSendLatency: int
    const execution: ExecutionSimulator
    var nextVenueOrderId: int
    var pendingNew: PendingNew
    var activeOrder: ActiveOrder

    ghost function State(): Gateway
      reads this, execution
    {
      Gateway(newAckLatency, cancelSendLatency, nextVenueOrderId, pendingNew, activeOrder, execution.State())
    }

    constructor (newAckLatency: int, cancelSendLatency: int, cancelLatency: int)
      ensures fresh(execution)
      ensures State() == Open(newAckLatency, cancelSendLatency, cancelLatency)
    {
      this.newAckLatency := newAckLatency;
      this.cancelSendLatency := cancelSendLatency;
      execution := new ExecutionSimulator(cancelLatency);
      nextVenueOrderId := FIRST_VENUE_ID;
      pendingNew := NO_PENDING;
      activeOrder := NO_ACTIVE;
    }

    method SendNew(req: NewOrder) returns (ok: bool)
      modifies this
      ensures (State(), ok) == NewSent(old(State()), req)
    {
      if req.quantity <= 0 || pendingNew.active || activeOrder.active {
        return false;
      }
      pendingNew := PendingNew(true, req, req.submitTs + newAckLatency, TruncMod(req.clientOrderId, 3) == 0);
      return true;
    }

    method SendCancel(ts: int) returns (ok: bool)
      modifies this
      ensures (State(), ok) == CancelSent(old(State()), ts)
    {
      if !activeOrder.active || activeOrder.cancelSent {
        return false;
      }
      activeOrder := activeOrder.(cancelSent := true);
      activeOrder := activeOrder.(cancelSendTs := ts + cancelSendLatency);
      return true;
    }

    method CloseActiveOrderIfDone()
      modifies this
      ensures State() == CloseIfDone(old(State()))
    {
      if !activeOrder.active {
        return;
      }
      if activeOrder.leavesQty == 0 && !execution.resting.active {
        activeOrder := activeOrder.(active := false);
      }
    }

    method Acknowledge(tick: MarketTick) returns (batch: Batch)
      modifies this, execution
      ensures (State(), batch) == Acknowledged(old(State()), tick)
    {
      var id := nextVenueOrderId;
      nextVenueOrderId := nextVenueOrderId + 1;
      var req := pendingNew.request;
      activeOrder := ActiveOrder(true, req.clientOrderId, id, req.side, req.limitPrice, req.quantity, false, 0, false);
      batch := Push(NO_BATCH, VenueEvent(NewAck, tick.receiveTs, id, 0, 0));
      var report := execution.SubmitOrder(tick, OrderRequest(req.side, req.quantity, req.limitPrice), req.style);
      activeOrder := activeOrder.(leavesQty := report.leavesQty);
      batch := PushReport(batch, activeOrder, report, tick.receiveTs);
      if req.style == Aggressive && activeOrder.leavesQty > 0 {
        batch := Push(batch, VenueEvent(VenueEventType.Expired, tick.receiveTs, activeOrder.venueOrderId, 0, 0));
        activeOrder := activeOrder.(leavesQty := 0);
      }
      pendingNew := pendingNew.(active := false);
      CloseActiveOrderIfDone();
    }

    method OnTick(tick: MarketTick) returns (batch: Batch)
      modifies this, execution
      ensures (State(), batch) == Polled(old(State()), tick)
    {
      batch := NO_BATCH;
      if pendingNew.active && tick.receiveTs >= pendingNew.ackReadyTs {
        if pendingNew.shouldReject {
          batch := Push(batch, VenueEvent(NewReject, tick.receiveTs, 0, 0, 0));
          pendingNew := pendingNew.(active := false);
          return;
        }
        batch := Acknowledge(tick);
      }
      batch := Service(tick, batch);
    }

    method Service(tick: MarketTick, b: Batch) returns (batch: Batch)
      modifies this, execution
      ensures (State(), batch) == Serviced(old(State()), tick, b)
    {
      batch := b;
      if activeOrder.active && activeOrder.cancelSent && tick.receiveTs >= activeOrder.cancelSendTs {
        if !activeOrder.cancelRejectOnceDone && TruncMod(activeOrder.venueOrderId, 2) == 1 {
          batch := Push(batch, VenueEvent(CancelReject, tick.receiveTs, activeOrder.venueOrderId, 0, 0));
          activeOrder := activeOrder.(cancelSent := false);
          activeOrder := activeOrder.(cancelRejectOnceDone := true);
          return;
        }
        var _ := execution.RequestCancel(tick.receiveTs);
        activeOrder := activeOrder.(cancelSent := false);
      }
      if activeOrder.active || execution.resting.active {
        var report := execution.OnTick(tick);
        activeOrder := activeOrder.(leavesQty := report.leavesQty);
        batch := PushReport(batch, activeOrder, report, tick.receiveTs);
        CloseActiveOrderIfDone();
      }
    }
  }

  // ---------------------------------------------------------------------------
  // What every sequence of gateway calls keeps
  // ---------------------------------------------------------------------------

  /** One order at a time, and the gateway's copy of it agrees with the simulator's. */
  ghost predicate GatewayInv(g: Gateway) {
    && !(g.pending.active && g.act.active)
    && (g.pending.active ==> g.pending.request.quantity > 0)
    && g.nextVenueOrderId > 0
    && RestingInv(g.sim.resting)
    && g.act.active == g.sim.resting.active
    && (g.act.active ==>
          && 0 < g.act.venueOrderId < g.nextVenueOrderId
          && g.act.side == g.sim.resting.side
          && g.act.limitPrice == g.sim.resting.price
          && g.act.leavesQty == g.sim.resting.leavesQty
          && (g.sim.resting.cancelPending ==> !RefusesCancel(g.act)))
  }

  function AckEvent(ts: int, id: int): VenueEvent { VenueEvent(NewAck, ts, id, 0, 0) }
  function FillEvent(ts: int, id: int, qty: int, price: int): VenueEvent { VenueEvent(VenueEventType.Fill, ts, id, qty, price) }
  function ExpiryEvent(ts: int, id: int): VenueEvent { VenueEvent(VenueEventType.Expired, ts, id, 0, 0) }
  function CancelAckEvent(ts: int, id: int): VenueEvent { VenueEvent(CancelAck, ts, id, 0, 0) }
  function CancelRejectEvent(ts: int, id: int): VenueEvent { VenueEvent(CancelReject, ts, id, 0, 0) }

  /** What an aggressive order can take from the displayed opposite side. */
  function Takes(req: NewOrder, tick: MarketTick): int {
    Max(0, Min(if req.side == Buy then tick.askQty else tick.bidQty, req.quantity))
  }

  function TouchPrice(side: Side, tick: MarketTick): int {
    if side == Buy then tick.askPrice else tick.bidPrice
  }

  function AggressiveEvents(req: NewOrder, tick: MarketTick, id: int): seq<VenueEvent> {
    var qty := Takes(req, tick);
    [AckEvent(tick.receiveTs, id)]
    + (if qty > 0 then [FillEvent(tick.receiveTs, id, qty, TouchPrice(req.side, tick))] else [])
    + (if qty < req.quantity then [ExpiryEvent(tick.receiveTs, id)] else [])
  }

  function FillCount(sim: Simulator): int {
    sim.stats.aggressiveFills + sim.stats.passiveFills
  }

  /** An aggressive order is acknowledged, traded and finished within one tick. */
  lemma PollAggressive(g: Gateway, tick: MarketTick)
    requires GatewayInv(g) && AckDue(g, tick) && !g.pending.shouldReject
    requires g.pending.request.style == Aggressive
    ensures var (h, b) := Polled(g, tick);
      && b == Batch(AggressiveEvents(g.pending.request, tick, g.nextVenueOrderId), 0)
      && !h.act.active && !h.pending.active
      && h.nextVenueOrderId == g.nextVenueOrderId + 1
      && h.sim.resting == g.sim.resting
      && FillCount(h.sim) == FillCount(g.sim) + (if Takes(g.pending.request, tick) > 0 then 1 else 0)
  {
  }

  /** The book entry a passive request makes when it is acknowledged. */
  function Entry(req: NewOrder, tick: MarketTick): RestingOrder {
    RestingOrder(true, req.side, req.limitPrice, req.quantity,
                 if req.side == Buy then tick.bidQty else tick.askQty, tick.receiveTs, false, 0)
  }

  /** The resting order and the fill one tick gives it, seen from the gateway. */
  function RestingEvents(r: RestingOrder, tick: MarketTick, id: int): seq<VenueEvent> {
    if FillsOn(r, tick) then [FillEvent(tick.receiveTs, id, Min(r.leavesQty, Reached(r, tick)), r.price)]
    else if r.cancelPending && tick.receiveTs >= r.cancelEffectiveTs then [CancelAckEvent(tick.receiveTs, id)]
    else []
  }

  /** Leaves of the active order once a tick has been applied to it; zero means it is done. */
  function RestingLeaves(r: RestingOrder, tick: MarketTick): int {
    if FillsOn(r, tick) then r.leavesQty - Min(r.leavesQty, Reached(r, tick))
    else if r.cancelPending && tick.receiveTs >= r.cancelEffectiveTs then 0
    else r.leavesQty
  }

  /** How the gateway's active order looks after a tick that started from entry `r`. */
  ghost predicate Follows(h: Gateway, r: RestingOrder, tick: MarketTick) {
    && h.act.active == h.sim.resting.active == (RestingLeaves(r, tick) > 0)
    && RestingInv(h.sim.resting)
    && (h.act.active ==>
          && h.act.leavesQty == h.sim.resting.leavesQty == RestingLeaves(r, tick)
          && h.sim.resting.side == r.side && h.sim.resting.price == r.price
          && h.sim.resting.cancelPending == r.cancelPending)
  }

  lemma MatchFollows(g: Gateway, tick: MarketTick, b: Batch)
    requires g.act.active && g.sim.resting.active && RestingInv(g.sim.resting) && |b.events| < BATCH_SIZE
    ensures var (h, c) := Matched(g, tick, b);
      && c == b.(events := b.events + RestingEvents(g.sim.resting, tick, g.act.venueOrderId))
      && Follows(h, g.sim.resting, tick)
      && h == g.(sim := h.sim, act := h.act)
      && h.act == g.act.(active := h.act.active, leavesQty := h.act.leavesQty)
      && h.sim.cancelLatency == g.sim.cancelLatency
      && FillCount(h.sim) == FillCount(g.sim) + (if FillsOn(g.sim.resting, tick) then 1 else 0)
  {
    assert b.events + [] == b.events;
  }

  /** A passive order is acknowledged, enters the book and may trade on the same tick. */
  lemma PollPassive(g: Gateway, tick: MarketTick)
    requires GatewayInv(g) && AckDue(g, tick) && !g.pending.shouldReject
    requires g.pending.request.style == Passive
    ensures var (h, b) := Polled(g, tick);
      var req, id := g.pending.request, g.nextVenueOrderId;
      && b == Batch([AckEvent(tick.receiveTs, id)] + RestingEvents(Entry(req, tick), tick, id), 0)
      && Follows(h, Entry(req, tick), tick)
      && h.nextVenueOrderId == id + 1 && !h.pending.active
      && h.act == ActiveOrder(h.act.active, req.clientOrderId, id, req.side, req.limitPrice, h.act.leavesQty, false, 0, false)
      && FillCount(h.sim) == FillCount(g.sim) + (if FillsOn(Entry(req, tick), tick) then 1 else 0)
  {
    var (h, b) := Acknowledged(g, tick);
    MatchFollows(h, tick, b);
  }

  /** The book entry a tick works on, after a due cancel has been forwarded. */
  function Facing(g: Gateway, tick: MarketTick): RestingOrder {
    if CancelDue(g, tick) then CancelAsked(g.sim, tick.receiveTs).0.resting else g.sim.resting
  }

  lemma PollWorking(g: Gateway, tick: MarketTick)
    requires GatewayInv(g) && g.act.active && !(CancelDue(g, tick) && RefusesCancel(g.act))
    ensures var (h, b) := Polled(g, tick);
      && b == Batch(RestingEvents(Facing(g, tick), tick, g.act.venueOrderId), 0)
      && Follows(h, Facing(g, tick), tick)
      && h.nextVenueOrderId == g.nextVenueOrderId && h.pending == g.pending
      && h.act == g.act.(active := h.act.active, leavesQty := h.act.leavesQty,
                         cancelSent := g.act.cancelSent && !CancelDue(g, tick))
      && FillCount(h.sim) == FillCount(g.sim) + (if FillsOn(Facing(g, tick), tick) then 1 else 0)
  {
    var f := if CancelDue(g, tick) then CancelForwarded(g, tick) else g;
    MatchFollows(f, tick, NO_BATCH);
    assert NO_BATCH.events + RestingEvents(f.sim.resting, tick, f.act.venueOrderId)
           == RestingEvents(Facing(g, tick), tick, g.act.venueOrderId);
  }

  lemma PollRefused(g: Gateway, tick: MarketTick)
    requires GatewayInv(g) && CancelDue(g, tick) && RefusesCancel(g.act)
    ensures Polled(g, tick) ==
      (g.(act := g.act.(cancelSent := false, cancelRejectOnceDone := true)),
       Batch([CancelRejectEvent(tick.receiveTs, g.act.venueOrderId)], 0))
  {
    assert [] + [CancelRejectEvent(tick.receiveTs, g.act.venueOrderId)] == [CancelRejectEvent(tick.receiveTs, g.act.venueOrderId)];
  }

  lemma PollIdle(g: Gateway, tick: MarketTick)
    requires GatewayInv(g) && !AckDue(g, tick) && !g.act.active
    ensures Polled(g, tick) == (g, NO_BATCH)
  {
  }

  /** Number of fills among events. */
  function Fills(events: seq<VenueEvent>): nat {
    if events == [] then 0 else (if events[0].kind.Fill? then 1 else 0) + Fills(events[1..])
  }

  lemma {:induction false} FillsConcat(a: seq<VenueEvent>, b: seq<VenueEvent>)
    ensures Fills(a + b) == Fills(a) + Fills(b)
  {
    if a == [] {
      assert a + b == b;
    } else {
      assert (a + b)[1..] == a[1..] + b;
      FillsConcat(a[1..], b);
    }
  }

  lemma AggressiveFills(req: NewOrder, tick: MarketTick, id: int)
    ensures Fills(AggressiveEvents(req, tick, id)) == if Takes(req, tick) > 0 then 1 else 0
  {
    var qty := Takes(req, tick);
    var ack := [AckEvent(tick.receiveTs, id)];
    var fill := if qty > 0 then [FillEvent(tick.receiveTs, id, qty, TouchPrice(req.side, tick))] else [];
    var expiry := if qty < req.quantity then [ExpiryEvent(tick.receiveTs, id)] else [];
    FillsConcat(ack, fill);
    FillsConcat(ack + fill, expiry);
  }

  lemma PollKeepsInv(g: Gateway, tick: MarketTick)
    requires GatewayInv(g)
    ensures GatewayInv(Polled(g, tick).0)
  {
    if AckDue(g, tick) {
      if !g.pending.shouldReject {
        if g.pending.request.style == Aggressive {
          PollAggressive(g, tick);
        } else {
          PollPassive(g, tick);
        }
        hide Polled, FillsOn, Takes;
      }
    } else if !g.act.active {
      PollIdle(g, tick);
    } else if CancelDue(g, tick) && RefusesCancel(g.act) {
      PollRefused(g, tick);
    } else {
      PollWorking(g, tick);
      hide Polled, FillsOn;
    }
  }

  /** Every tick from every reachable gateway: the batch never overflows, holds at most three
      events and one fill, and the simulator counts exactly the fills that are sent. */
  lemma PollBudget(g: Gateway, tick: MarketTick)
    requires GatewayInv(g)
    ensures var (h, b) := Polled(g, tick);
      && GatewayInv(h)
      && b.overflow == 0 && |b.events| <= 3 && Fills(b.events) <= 1
      && FillCount(h.sim) == FillCount(g.sim) + Fills(b.events)
  {
    PollKeepsInv(g, tick);
    if AckDue(g, tick) && !g.pending.shouldReject {
      hide Polled, FillsOn, Takes;
      if g.pending.request.style == Aggressive {
        PollAggressive(g, tick);
        AggressiveFills(g.pending.request, tick, g.nextVenueOrderId);
      } else {
        PollPassive(g, tick);
        FillsConcat([AckEvent(tick.receiveTs, g.nextVenueOrderId)],
                    RestingEvents(Entry(g.pending.request, tick), tick, g.nextVenueOrderId));
      }
    } else if g.act.active {
      hide Polled, FillsOn;
      if CancelDue(g, tick) && RefusesCancel(g.act) {
        PollRefused(g, tick);
      } else {
        PollWorking(g, tick);
      }
    } else if !AckDue(g, tick) {
      PollIdle(g, tick);
    }
  }

  /** An order is closed exactly if it has neither leaves nor a place in the book. */
  lemma CloseExactly(g: Gateway)
    ensures var h := CloseIfDone(g);
      && (h.act.active <==> g.act.active && (g.act.leavesQty != 0 || g.sim.resting.active))
      && h.act.(active := g.act.active) == g.act && h.(act := g.act) == g
  {
  }

  /** The venue's rules about ids, in plain remainders. */
  lemma RulesOnIds(id: int)
    ensures TruncMod(id, 3) == 0 <==> id % 3 == 0
    ensures id > 0 ==> (TruncMod(id, 2) == 1 <==> id % 2 == 1)
  {
  }

  // ---------------------------------------------------------------------------
  // The batch
  // ---------------------------------------------------------------------------

  function Batched(events: seq<VenueEvent>): Batch {
    if events == [] then NO_BATCH else Push(Batched(events[..|events| - 1]), events[|events| - 1])
  }

  /** A batch holds the first four events pushed and counts the others. */
  lemma {:induction false} BatchIsPrefix(events: seq<VenueEvent>)
    ensures Batched(events).events == events[..Min(4, |events|)]
    ensures Batched(events).overflow == Max(0, |events| - 4)
  {
    if events == [] {
    } else {
      var n := |events| - 1;
      BatchIsPrefix(events[..n]);
      if n < 4 {
        assert events[..n][..n] + [events[n]] == events[..n + 1];
      } else {
        assert events[..n][..4] == events[..4];
      }
    }
  }
}
