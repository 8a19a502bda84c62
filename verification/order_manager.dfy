/** The order lifecycle machine of src/order_manager.cpp. */
module OrderManagement {
  import opened Types

  datatype OrderState =
    | Idle | PendingNewAck | Acked | PartiallyFilled | PendingCancel
    | Filled | Canceled | Rejected | Expired

  datatype VenueEventType = NewAck | NewReject | Fill | CancelAck | CancelReject | Expired

  datatype VenueEvent = VenueEvent(
    kind: VenueEventType, ts: int, venueOrderId: int, fillQty: int, fillPrice: int)

  datatype Outcome = Applied | WrongState | WrongOrder | InvalidQuantity | InvalidVenueOrderId

  datatype ManagedOrder = ManagedOrder(
    clientOrderId: int, venueOrderId: int, side: Side, limitPrice: int,
    orderQty: int, cumQty: int, leavesQty: int, state: OrderState)

  const IDLE_ORDER := ManagedOrder(0, 0, Buy, 0, 0, 0, 0, Idle)

  /** What `on_venue_event` leaves behind: the order, its verdict and the fill it reports. */
  datatype Handled = Handled(order: ManagedOrder, outcome: Outcome, fill: Types.Fill)

  predicate Terminal(s: OrderState) {
    s == OrderState.Filled || s == Canceled || s == Rejected || s == OrderState.Expired
  }

  /** States in which the venue may still act on an acknowledged order. */
  predicate Working(s: OrderState) {
    s == Acked || s == PartiallyFilled || s == PendingCancel
  }

  predicate Live(s: OrderState) {
    s == PendingNewAck || Working(s)
  }

  // ---------------------------------------------------------------------------
  // Specification functions
  // ---------------------------------------------------------------------------

  function Submitted(o: ManagedOrder, id: int, side: Side, limitPrice: int, qty: int): (ManagedOrder, bool) {
    var cleared := if Terminal(o.state) then IDLE_ORDER else o;
    if qty <= 0 || cleared.state != Idle then (cleared, false)
    else (ManagedOrder(id, 0, side, limitPrice, qty, 0, qty, PendingNewAck), true)
  }

  function CancelRequested(o: ManagedOrder): (ManagedOrder, bool) {
    if o.state != Acked && o.state != PartiallyFilled then (o, false)
    else (o.(state := PendingCancel), true)
  }

  /** The verdict every event that names an acknowledged order gets after its state check. */
  function Correlate(o: ManagedOrder, e: VenueEvent): Outcome {
    if e.venueOrderId <= 0 then InvalidVenueOrderId
    else if e.venueOrderId != o.venueOrderId then WrongOrder
    else Applied
  }

  function Verdict(o: ManagedOrder, e: VenueEvent): Outcome {
    match e.kind
    case NewAck =>
      if o.state != PendingNewAck then WrongState
      else if e.venueOrderId <= 0 then InvalidVenueOrderId
      else Applied
    case NewReject => if o.state != PendingNewAck then WrongState else Applied
    case Fill =>
      if !Working(o.state) then WrongState
      else if Correlate(o, e) != Applied then Correlate(o, e)
      else if e.fillQty <= 0 || e.fillQty > o.leavesQty then Outcome.InvalidQuantity
      else Applied
    case CancelAck => if o.state != PendingCancel then WrongState else Correlate(o, e)
    case CancelReject => if o.state != PendingCancel then WrongState else Correlate(o, e)
    case Expired =>
      if o.state != Acked && o.state != PartiallyFilled then WrongState else Correlate(o, e)
  }

  function Advance(o: ManagedOrder, e: VenueEvent): ManagedOrder {
    match e.kind
    case NewAck => o.(venueOrderId := e.venueOrderId, state := Acked)
    case NewReject => o.(state := Rejected)
    case Fill =>
      o.(cumQty := o.cumQty + e.fillQty, leavesQty := o.leavesQty - e.fillQty,
         state := if o.leavesQty == e.fillQty then OrderState.Filled else PartiallyFilled)
    case CancelAck => o.(leavesQty := 0, state := Canceled)
    case CancelReject =>
      o.(state := if o.leavesQty == o.orderQty then Acked else PartiallyFilled)
    case Expired => o.(leavesQty := 0, state := OrderState.Expired)
  }

  function OnEvent(o: ManagedOrder, e: VenueEvent): Handled {
    if Verdict(o, e) != Applied then Handled(o, Verdict(o, e), NO_FILL)
    else Handled(Advance(o, e), Applied,
                 if e.kind.Fill? then Types.Fill(e.ts, e.fillPrice, e.fillQty, o.side) else NO_FILL)
  }

  // ---------------------------------------------------------------------------
  // The component, updating its order in place
  // ---------------------------------------------------------------------------

  class OrderManager {
    var order: ManagedOrder

    constructor ()
      ensures order == IDLE_ORDER
    {
      order := IDLE_ORDER;
    }

    method SubmitNew(id: int, side: Side, limitPrice: int, qty: int) returns (ok: bool)
      modifies this
      ensures (order, ok) == Submitted(old(order), id, side, limitPrice, qty)
    {
      if order.state == OrderState.Filled || order.state == Canceled
         || order.state == Rejected || order.state == OrderState.Expired {
        order := IDLE_ORDER;
      }
      if qty <= 0 || order.state != Idle {
        return false;
      }
      order := ManagedOrder(id, 0, side, limitPrice, qty, 0, qty, PendingNewAck);
      return true;
    }

    method RequestCancel() returns (ok: bool)
      modifies this
      ensures (order, ok) == CancelRequested(old(order))
    {
      if order.state != Acked && order.state != PartiallyFilled {
        return false;
      }
      order := order.(state := PendingCancel);
      return true;
    }

    method OnVenueEvent(e: VenueEvent) returns (outcome: Outcome, fill: Types.Fill)
      modifies this
      ensures Handled(order, outcome, fill) == OnEvent(old(order), e)
    {
      fill := NO_FILL;
      match e.kind
      case NewAck =>
        if order.state != PendingNewAck { return WrongState, fill; }
        if e.venueOrderId <= 0 { return InvalidVenueOrderId, fill; }
        order := order.(venueOrderId := e.venueOrderId);
        order := order.(state := Acked);
        return Applied, fill;
      case NewReject =>
        if order.state != PendingNewAck { return WrongState, fill; }
        order := order.(state := Rejected);
        return Applied, fill;
      case Fill =>
        if order.state != Acked && order.state != PartiallyFilled && order.state != PendingCancel {
          return WrongState, fill;
        }
        if e.venueOrderId <= 0 { return InvalidVenueOrderId, fill; }
        if e.venueOrderId != order.venueOrderId { return WrongOrder, fill; }
        if e.fillQty <= 0 || e.fillQty > order.leavesQty { return Outcome.InvalidQuantity, fill; }
        order := order.(cumQty := order.cumQty + e.fillQty);
        order := order.(leavesQty := order.leavesQty - e.fillQty);
        fill := Types.Fill(e.ts, e.fillPrice, e.fillQty, order.side);
        order := order.(state := if order.leavesQty == 0 then OrderState.Filled else PartiallyFilled);
        return Applied, fill;
      case CancelAck =>
        if order.state != PendingCancel { return WrongState, fill; }
        if e.venueOrderId <= 0 { return InvalidVenueOrderId, fill; }
        if e.venueOrderId != order.venueOrderId { return WrongOrder, fill; }
        order := order.(state := Canceled);
        order := order.(leavesQty := 0);
        return Applied, fill;
      case CancelReject =>
        if order.state != PendingCancel { return WrongState, fill; }
        if e.venueOrderId <= 0 { return InvalidVenueOrderId, fill; }
        if e.venueOrderId != order.venueOrderId { return WrongOrder, fill; }
        order := order.(state := if order.leavesQty == order.orderQty then Acked else PartiallyFilled);
        return Applied, fill;
      case Expired =>
        if order.state != Acked && order.state != PartiallyFilled { return WrongState, fill; }
        if e.venueOrderId <= 0 { return InvalidVenueOrderId, fill; }
        if e.venueOrderId != order.venueOrderId { return WrongOrder, fill; }
        order := order.(leavesQty := 0);
        order := order.(state := OrderState.Expired);
        return Applied, fill;
    }
  }

  // ---------------------------------------------------------------------------
  // What every sequence of calls keeps
  // ---------------------------------------------------------------------------

  /** The quantities and the identity an order may carry in each state. */
  ghost predicate OrderInv(o: ManagedOrder) {
    && 0 <= o.cumQty <= o.orderQty
    && (o.state == Idle ==> o == IDLE_ORDER)
    && (o.state != Idle ==> o.orderQty > 0)
    && (Live(o.state) ==> o.leavesQty == o.orderQty - o.cumQty && o.leavesQty > 0)
    && (o.state == PendingNewAck || o.state == Acked || o.state == Rejected ==> o.cumQty == 0)
    && (o.state == PartiallyFilled ==> 0 < o.cumQty)
    && (o.state == OrderState.Filled ==> o.cumQty == o.orderQty && o.leavesQty == 0)
    && (o.state == Canceled || o.state == OrderState.Expired ==> o.cumQty < o.orderQty && o.leavesQty == 0)
    && (o.state == Rejected ==> o.leavesQty == o.orderQty)
    && (o.venueOrderId > 0 <==> o.state != Idle && o.state != PendingNewAck && o.state != Rejected)
  }

  /** The lifecycle diagram: every move an order may make, and no other. */
  predicate LegalEdge(from: OrderState, to: OrderState) {
    match from
    case Idle => to == PendingNewAck
    case PendingNewAck => to == Acked || to == Rejected
    case Acked => to == PartiallyFilled || to == OrderState.Filled || to == PendingCancel || to == OrderState.Expired
    case PartiallyFilled => to == OrderState.Filled || to == PendingCancel || to == OrderState.Expired
    case PendingCancel => to == Acked || to == PartiallyFilled || to == OrderState.Filled || to == Canceled
    case _ => false
  }

  datatype Call =
    | Submit(id: int, side: Side, limitPrice: int, qty: int)
    | Cancel
    | Venue(event: VenueEvent)

  function Invoke(o: ManagedOrder, c: Call): ManagedOrder {
    match c
    case Submit(id, side, limitPrice, qty) => Submitted(o, id, side, limitPrice, qty).0
    case Cancel => CancelRequested(o).0
    case Venue(e) => OnEvent(o, e).order
  }

  /** The order after any sequence of calls on a fresh manager. */
  function After(calls: seq<Call>): ManagedOrder {
    if calls == [] then IDLE_ORDER
    else Invoke(After(calls[..|calls| - 1]), calls[|calls| - 1])
  }

  /** Quantity reported by `fill_out` for the order now held, given the tally before the call. */
  function Tally(o: ManagedOrder, c: Call, filled: int): int {
    match c
    case Submit(_, _, _, _) => if Live(o.state) then filled else 0
    case Cancel => filled
    case Venue(e) => filled + OnEvent(o, e).fill.quantity
  }

  function FilledSinceSubmit(calls: seq<Call>): int {
    if calls == [] then 0
    else
      var prior := calls[..|calls| - 1];
      Tally(After(prior), calls[|calls| - 1], FilledSinceSubmit(prior))
  }

  lemma EventKeepsInv(o: ManagedOrder, e: VenueEvent)
    requires OrderInv(o)
    ensures OrderInv(OnEvent(o, e).order)
  {
  }

  lemma SubmitKeepsInv(o: ManagedOrder, id: int, side: Side, limitPrice: int, qty: int)
    requires OrderInv(o)
    ensures OrderInv(Submitted(o, id, side, limitPrice, qty).0)
  {
  }

  lemma InvokeKeepsInv(o: ManagedOrder, c: Call)
    requires OrderInv(o)
    ensures OrderInv(Invoke(o, c))
    ensures Invoke(o, c).cumQty == Tally(o, c, o.cumQty)
  {
    match c
    case Submit(id, side, limitPrice, qty) => SubmitKeepsInv(o, id, side, limitPrice, qty);
    case Cancel =>
    case Venue(e) => EventKeepsInv(o, e);
  }

  /** Any calls, any events, in any order: the invariant holds and `cum_qty` is what was reported filled. */
  lemma {:induction false} LifecycleInvariant(calls: seq<Call>)
    ensures OrderInv(After(calls))
    ensures After(calls).cumQty == FilledSinceSubmit(calls)
  {
    if calls == [] {
    } else {
      var prior := calls[..|calls| - 1];
      LifecycleInvariant(prior);
      InvokeKeepsInv(After(prior), calls[|calls| - 1]);
    }
  }

  /** A refused event changes nothing; an applied one follows the diagram or re-enters PartiallyFilled. */
  lemma EventOutcome(o: ManagedOrder, e: VenueEvent)
    requires OrderInv(o)
    ensures var h := OnEvent(o, e);
      && (h.outcome != Applied ==> h.order == o && h.fill == NO_FILL)
      && (h.outcome == Applied ==>
            LegalEdge(o.state, h.order.state) || o.state == h.order.state == PartiallyFilled)
      && (h.fill.quantity > 0 <==> h.outcome == Applied && e.kind.Fill?)
      && h.fill.quantity >= 0 && h.order.cumQty == o.cumQty + h.fill.quantity
      && (Terminal(o.state) ==> h.outcome == WrongState)
  {
  }

  /** Which kinds of event a state waits for. */
  predicate Awaits(s: OrderState, kind: VenueEventType) {
    || (s == PendingNewAck && (kind.NewAck? || kind.NewReject?))
    || ((s == Acked || s == PartiallyFilled) && (kind.Fill? || kind.Expired?))
    || (s == PendingCancel && (kind.Fill? || kind.CancelAck? || kind.CancelReject?))
  }

  /** Why an event is refused, for every event in every state: an unexpected kind before anything else,
      then the id, then the quantity. */
  lemma RefusalReasons(o: ManagedOrder, e: VenueEvent)
    ensures var why := OnEvent(o, e).outcome;
      && (why == WrongState <==> !Awaits(o.state, e.kind))
      && (why == InvalidVenueOrderId <==> Awaits(o.state, e.kind) && !e.kind.NewReject? && e.venueOrderId <= 0)
      && (why == WrongOrder <==>
            Awaits(o.state, e.kind) && !e.kind.NewAck? && !e.kind.NewReject? && 0 < e.venueOrderId != o.venueOrderId)
      && (why == Outcome.InvalidQuantity <==>
            && Awaits(o.state, e.kind) && e.kind.Fill? && 0 < e.venueOrderId == o.venueOrderId
            && (e.fillQty < 1 || o.leavesQty < e.fillQty))
  {
  }

  /** What an applied event does: it names the order it changes, and order and report say the same. */
  lemma AppliedEvent(o: ManagedOrder, e: VenueEvent)
    requires OrderInv(o) && OnEvent(o, e).outcome == Applied
    ensures var p, f := OnEvent(o, e).order, OnEvent(o, e).fill;
      && (p.clientOrderId, p.side, p.limitPrice, p.orderQty) == (o.clientOrderId, o.side, o.limitPrice, o.orderQty)
      && (e.kind.NewReject? ==> p.venueOrderId == o.venueOrderId)
      && (!e.kind.NewReject? ==> p.venueOrderId == e.venueOrderId > 0)
      && (!e.kind.NewReject? && !e.kind.NewAck? ==> o.venueOrderId == e.venueOrderId)
      && p.cumQty - o.cumQty == f.quantity
      && f == (if e.kind.Fill? then Types.Fill(e.ts, e.fillPrice, e.fillQty, o.side) else NO_FILL)
      && (Live(p.state) || p.state == Rejected ==> p.cumQty + p.leavesQty == p.orderQty)
      && p.state == match e.kind
         case NewAck => Acked
         case NewReject => Rejected
         case Fill => if p.cumQty == p.orderQty then OrderState.Filled else PartiallyFilled
         case CancelAck => Canceled
         case CancelReject => if o.cumQty == 0 then Acked else PartiallyFilled
         case Expired => OrderState.Expired
  {
  }

  /** A submission is taken exactly if it is for a positive quantity and nothing is live; a refused one
      leaves a live order alone and clears any other. */
  lemma SubmitOutcome(o: ManagedOrder, id: int, side: Side, limitPrice: int, qty: int)
    requires OrderInv(o)
    ensures var (p, ok) := Submitted(o, id, side, limitPrice, qty);
      && (ok <==> qty > 0 && !Live(o.state))
      && (!ok && Live(o.state) ==> p == o)
      && (!ok && !Live(o.state) ==> p.state == Idle)
      && (ok ==>
            && p.state == PendingNewAck && p.venueOrderId == p.cumQty == 0
            && (p.clientOrderId, p.side, p.limitPrice, p.orderQty, p.leavesQty) == (id, side, limitPrice, qty, qty))
  {
  }

  /** A cancel is taken exactly for an acknowledged order without one, and changes nothing but the state. */
  lemma CancelOutcome(o: ManagedOrder)
    ensures var (p, ok) := CancelRequested(o);
      && (ok <==> Working(o.state) && o.state != PendingCancel)
      && p == o.(state := if ok then PendingCancel else o.state)
  {
  }

  /** The design asks for zero leaves in every terminal state; exactly the rejected orders break it. */
  lemma TerminalLeaves(calls: seq<Call>)
    requires Terminal(After(calls).state)
    ensures After(calls).leavesQty == 0 <==> After(calls).state != Rejected
  {
    LifecycleInvariant(calls);
  }

  /** The one step that ends an order with quantity still open: the reject of a new order. */
  lemma EndsWithLeaves(o: ManagedOrder, e: VenueEvent)
    requires OrderInv(o) && Live(o.state)
    ensures Terminal(OnEvent(o, e).order.state) && OnEvent(o, e).order.leavesQty != 0
      <==> o.state == PendingNewAck && e.kind.NewReject?
  {
  }

  /** Call `i` rejects a new order, and no submission has replaced it since. */
  ghost predicate RejectedAt(calls: seq<Call>, i: nat) {
    && i < |calls| && After(calls[..i]).state == PendingNewAck
    && calls[i].Venue? && calls[i].event.kind.NewReject?
    && forall j :: i < j < |calls| ==> !calls[j].Submit?
  }

  lemma RejectedPrefix(calls: seq<Call>, i: nat)
    requires i < |calls| - 1
    ensures RejectedAt(calls, i) <==> RejectedAt(calls[..|calls| - 1], i) && !calls[|calls| - 1].Submit?
  {
    hide After;
    var prior := calls[..|calls| - 1];
    assert prior[..i] == calls[..i];
    assert forall j :: 0 <= j < |prior| ==> prior[j] == calls[j];
  }

  predicate EndedOpen(o: ManagedOrder) {
    Terminal(o.state) && o.leavesQty != 0
  }

  predicate Rejects(o: ManagedOrder, c: Call) {
    o.state == PendingNewAck && c.Venue? && c.event.kind.NewReject?
  }

  lemma NothingEndedOpen()
    ensures !EndedOpen(IDLE_ORDER)
  {
  }

  lemma CallEndsOpen(o: ManagedOrder, c: Call)
    requires OrderInv(o)
    ensures EndedOpen(Invoke(o, c)) <==> Rejects(o, c) || (EndedOpen(o) && !c.Submit?)
  {
    if c.Venue? && Live(o.state) {
      EndsWithLeaves(o, c.event);
    }
  }

  /** Over any calls: a terminal order has leaves exactly if it is a new order that was rejected. */
  lemma {:induction false} OpenLeavesExactlyWhenRejected(calls: seq<Call>)
    ensures EndedOpen(After(calls)) <==> exists i: nat :: RejectedAt(calls, i)
  {
    hide OrderInv, Invoke, EndedOpen;
    if calls == [] {
      assert !EndedOpen(IDLE_ORDER) by { NothingEndedOpen(); }
    } else {
      var n := |calls| - 1;
      var prior := calls[..n];
      OpenLeavesExactlyWhenRejected(prior);
      LifecycleInvariant(prior);
      CallEndsOpen(After(prior), calls[n]);
      forall i: nat | i < n
        ensures RejectedAt(calls, i) <==> RejectedAt(prior, i) && !calls[n].Submit?
      {
        RejectedPrefix(calls, i);
      }
      assert RejectedAt(calls, n) <==> Rejects(After(prior), calls[n]);
      if EndedOpen(After(prior)) {
        var i: nat :| RejectedAt(prior, i);
        assert !calls[n].Submit? ==> RejectedAt(calls, i);
      }
    }
  }

  lemma RejectedKeepsLeaves()
    ensures var o := After([Submit(3, Buy, 0, 50), Venue(VenueEvent(NewReject, 6000, 0, 0, 0))]);
      Terminal(o.state) && o.leavesQty == 50
  {
    var calls := [Submit(3, Buy, 0, 50), Venue(VenueEvent(NewReject, 6000, 0, 0, 0))];
    assert calls[..1] == [Submit(3, Buy, 0, 50)];
    assert calls[..1][..0] == [];
  }
}
