/** The pre-trade gate of src/risk_engine.cpp and the position limit that rests on it. */
module Risk {
  import opened Types
  import opened OrderManagement

  datatype OrderDecision = OrderDecision(accepted: bool, reason: RejectReason)

  function Evaluate(limit: int, net: int, req: OrderRequest): (d: OrderDecision)
    ensures d.accepted <==> req.quantity > 0 && Abs(net + Sign(req.side) * req.quantity) <= limit
    ensures d.accepted <==> d.reason == None
    ensures d.reason == RejectReason.InvalidQuantity <==> req.quantity <= 0
    ensures d.reason == None || d.reason == RejectReason.InvalidQuantity || d.reason == MaxPosition
  {
    if req.quantity <= 0 then OrderDecision(false, RejectReason.InvalidQuantity)
    else
      var projected := net + Sign(req.side) * req.quantity;
      if projected <= limit && projected >= -limit then OrderDecision(true, None)
      else OrderDecision(false, MaxPosition)
  }

  // ---------------------------------------------------------------------------
  // Position limit against any strategy and any venue
  // ---------------------------------------------------------------------------

  /** The part of the kernel the limit depends on: one order and one position. */
  datatype Desk = Desk(order: ManagedOrder, net: int)

  datatype DeskStep =
    | VenueSays(event: VenueEvent)
    | AsksCancel
    | Signals(id: int, request: OrderRequest)

  function DeskNext(limit: int, d: Desk, step: DeskStep): Desk {
    match step
    case VenueSays(e) =>
      var h := OnEvent(d.order, e);
      Desk(h.order, d.net + Sign(h.fill.side) * h.fill.quantity)
    case AsksCancel => d.(order := CancelRequested(d.order).0)
    case Signals(id, req) =>
      if Evaluate(limit, d.net, req).accepted
      then d.(order := Submitted(d.order, id, req.side, req.limitPrice, req.quantity).0) else d
  }

  function DeskAfter(limit: int, steps: seq<DeskStep>): Desk {
    if steps == [] then Desk(IDLE_ORDER, 0)
    else DeskNext(limit, DeskAfter(limit, steps[..|steps| - 1]), steps[|steps| - 1])
  }

  /** Neither the position nor the position the live order could still lead to exceeds the limit. */
  ghost predicate WithinLimit(limit: int, order: ManagedOrder, net: int) {
    && Abs(net) <= limit
    && (Live(order.state) ==> Abs(net + Sign(order.side) * order.leavesQty) <= limit)
  }

  /** A fill moves the position toward where the order could lead, never past it. */
  lemma FillWithinLimit(limit: int, net: int, side: Side, leaves: int, qty: int)
    requires 0 <= qty <= leaves && Abs(net) <= limit && Abs(net + Sign(side) * leaves) <= limit
    ensures Abs(net + Sign(side) * qty) <= limit
    ensures net + Sign(side) * qty + Sign(side) * (leaves - qty) == net + Sign(side) * leaves
  {
  }

  lemma EventWithinLimit(limit: int, order: ManagedOrder, net: int, e: VenueEvent)
    requires OrderInv(order) && WithinLimit(limit, order, net)
    ensures var h := OnEvent(order, e);
      WithinLimit(limit, h.order, net + Sign(h.fill.side) * h.fill.quantity)
  {
    if e.kind.Fill? && Verdict(order, e) == Applied {
      FillWithinLimit(limit, net, order.side, order.leavesQty, e.fillQty);
    }
  }

  lemma SubmitWithinLimit(limit: int, order: ManagedOrder, net: int, id: int, req: OrderRequest, price: int)
    requires OrderInv(order) && WithinLimit(limit, order, net)
    requires Evaluate(limit, net, req).accepted
    ensures WithinLimit(limit, Submitted(order, id, req.side, price, req.quantity).0, net)
  {
  }

  lemma DeskStepKeeps(limit: int, d: Desk, step: DeskStep)
    requires OrderInv(d.order) && WithinLimit(limit, d.order, d.net)
    ensures var e := DeskNext(limit, d, step);
      OrderInv(e.order) && WithinLimit(limit, e.order, e.net)
  {
    match step
    case VenueSays(e) =>
      hide OnEvent, WithinLimit, OrderInv;
      EventKeepsInv(d.order, e);
      EventWithinLimit(limit, d.order, d.net, e);
    case AsksCancel =>
    case Signals(id, req) =>
      SubmitKeepsInv(d.order, id, req.side, req.limitPrice, req.quantity);
      if Evaluate(limit, d.net, req).accepted {
        SubmitWithinLimit(limit, d.order, d.net, id, req, req.limitPrice);
      }
  }

  /** For every strategy and every stream of venue events, forged ones included, the limit holds. */
  lemma {:induction false} PositionLimit(limit: int, steps: seq<DeskStep>)
    requires limit >= 0
    ensures var d := DeskAfter(limit, steps);
      OrderInv(d.order) && WithinLimit(limit, d.order, d.net)
  {
    hide DeskNext;
    if steps == [] {
    } else {
      PositionLimit(limit, steps[..|steps| - 1]);
      DeskStepKeeps(limit, DeskAfter(limit, steps[..|steps| - 1]), steps[|steps| - 1]);
    }
  }
}
