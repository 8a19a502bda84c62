/** The replay kernel as one machine: a single copy of the order, no components, no messages. */
module ReplayReference {
  import opened Types
  import opened OrderManagement
  import opened Execution
  import opened Replay
  import Accounting

  /** A moment something was set for, if it was. */
  datatype Moment = Never | At(ts: int)

  /** What the venue knows of the order: nothing, that it is to be answered, or its place in the book with
      the quantity ahead of it, the cancel on its way and the cancel that has arrived. */
  datatype Venue =
    | Empty
    | Awaiting(readyTs: int)
    | Book(queue: int, since: int, sent: Moment, due: Moment, refused: bool)

  datatype Desk = Desk(
    order: ManagedOrder, venue: Venue, nextVenueId: int, nextClientId: int, clock: int,
    acct: Accounting.Account, counters: Counters, samples: Samples, stats: Stats, journal: seq<TradeEvent>)

  /** What the venue half of a tick changes: order, venue and simulator counters; the records it writes,
      the fill among them (of quantity 0 if there is none), and how many of the venue's answers were
      rejects and how many came too late to be of use. */
  datatype Turn = Turn(
    order: ManagedOrder, venue: Venue, stats: Stats, says: seq<TradeEvent>, fill: Types.Fill, rejects: nat, strays: nat)

  function Start(): Desk {
    Desk(ManagedOrder(0, 0, Buy, 0, 0, 0, 0, Idle), Empty, 100000, 1, -1, Accounting.Account(0, 0, 0, 0, 0, 0, 0),
         Counters(0, 0, 0, 0, 0, 0, 0, 0, 0, 0, 0, 0), Samples(0, 0, 0, 0, 0, 0), Stats(0, 0, 0, 0, 0, 0, 0), [])
  }

  // ---------------------------------------------------------------------------
  // Records
  // ---------------------------------------------------------------------------

  /** A state change; 0 is idle, 1 pending, 2 acknowledged, 3 partially filled, 4 cancel pending, 5 filled,
      6 canceled, 7 rejected, 8 expired. */
  function Moves(tick: MarketTick, side: Side, from: int, to: int): TradeEvent {
    TradeEvent(tick.receiveTs, from, to, OmsTransition, side, None)
  }

  function Trades(f: Types.Fill): TradeEvent {
    TradeEvent(f.ts, f.price, f.quantity, FillRecord, f.side, None)
  }

  function Rejects(tick: MarketTick, side: Side, qty: int, why: RejectReason): TradeEvent {
    TradeEvent(tick.receiveTs, 0, qty, VenueReject, side, why)
  }

  /** The number of a working state. */
  function Stage(o: ManagedOrder): int {
    if o.state == PendingCancel then 4 else if o.cumQty == 0 then 2 else 3
  }

  // ---------------------------------------------------------------------------
  // The venue half
  // ---------------------------------------------------------------------------

  function Nothing(o: ManagedOrder, v: Venue, st: Stats): Turn {
    Turn(o, v, st, [], NO_FILL, 0, 0)
  }

  function Took(o: ManagedOrder, qty: int): ManagedOrder {
    o.(cumQty := o.cumQty + qty, leavesQty := o.leavesQty - qty,
       state := if qty == o.leavesQty then OrderState.Filled else PartiallyFilled)
  }

  /** A tick meets an order in the book. What the other side shows at the order's price serves the queue
      ahead, then the order; without a fill, a cancel that is due ends it. */
  function Met(o: ManagedOrder, v: Venue, st: Stats, tick: MarketTick): Turn
    requires v.Book?
  {
    var shown :=
      if o.side == Buy then (if tick.askPrice <= o.limitPrice then tick.askQty else 0)
      else (if tick.bidPrice >= o.limitPrice then tick.bidQty else 0);
    var ahead := if v.queue > 0 then Min(v.queue, shown) else 0;
    var qty := Max(0, Min(o.leavesQty, shown - ahead));
    if qty > 0 then
      var left, f := o.leavesQty - qty, Types.Fill(tick.receiveTs, o.limitPrice, qty, o.side);
      var to := if left == 0 then 5 else 3;
      var against := if o.side == Buy then Mid(tick) + 10000 <= o.limitPrice else Mid(tick) - 10000 >= o.limitPrice;
      Turn(Took(o, qty), if left == 0 then Empty else v.(queue := v.queue - ahead),
           st.(passiveFills := st.passiveFills + 1, partialFills := st.partialFills + One(left > 0),
               staleFills := st.staleFills + One(tick.receiveTs - v.since > 1000),
               adverseFills := st.adverseFills + One(against)),
           (if Stage(o) == to then [] else [Moves(tick, o.side, Stage(o), to)]) + [Trades(f)], f, 0, 0)
    else if v.due.At? && tick.receiveTs >= v.due.ts then
      var acked := st.(cancelAcks := st.cancelAcks + 1);
      if o.state == PendingCancel
      then Turn(o.(leavesQty := 0, state := Canceled), Empty, acked, [Moves(tick, o.side, 4, 6)], NO_FILL, 0, 0)
      else Turn(o, Empty, acked, [], NO_FILL, 0, 1)
    else Nothing(o, v.(queue := v.queue - ahead), st)
  }

  /** An aggressive order takes what the other side shows; the rest expires at once. */
  function Crossed(o: ManagedOrder, st: Stats, tick: MarketTick): Turn {
    var (shown, touch) := if o.side == Buy then (tick.askQty, tick.askPrice) else (tick.bidQty, tick.bidPrice);
    var qty := Max(0, Min(shown, o.orderQty));
    var f := if qty > 0 then Types.Fill(tick.receiveTs, touch, qty, o.side) else NO_FILL;
    var done := qty == o.orderQty;
    Turn(o.(cumQty := qty, leavesQty := 0, state := if done then OrderState.Filled else OrderState.Expired),
         Empty,
         st.(aggressiveFills := st.aggressiveFills + One(qty > 0), partialFills := st.partialFills + One(qty > 0 && !done)),
         (if qty > 0 then [Moves(tick, o.side, 2, if done then 5 else 3), Trades(f)] else [])
         + (if done then [] else [Moves(tick, o.side, if qty > 0 then 3 else 2, 8)]),
         f, 0, 0)
  }

  /** The answer to a new order. */
  function Answered(cfg: Config, o: ManagedOrder, id: int, st: Stats, tick: MarketTick): Turn {
    var acked := o.(venueOrderId := id, state := Acked);
    var own := if o.side == Buy then tick.bidQty else tick.askQty;
    var next := if cfg.style == Aggressive then Crossed(acked, st, tick)
      else Met(acked, Book(own, tick.receiveTs, Never, Never, false), st, tick);
    next.(says := [Moves(tick, o.side, 1, 2)] + next.says)
  }

  /** The refusal of a cancel. */
  function CancelRefused(o: ManagedOrder, v: Venue, st: Stats, tick: MarketTick): Turn
    requires v.Book?
  {
    var w := v.(sent := Never, refused := true);
    if o.state == PendingCancel then
      Turn(o.(state := if o.cumQty == 0 then Acked else PartiallyFilled), w, st,
           [Moves(tick, o.side, 4, if o.cumQty == 0 then 2 else 3), Rejects(tick, o.side, o.leavesQty, CancelRejectedByVenue)],
           NO_FILL, 1, 0)
    else Turn(o, w, st, [], NO_FILL, 0, 1)
  }

  function VenueTurn(cfg: Config, d: Desk, tick: MarketTick): Turn {
    var o, v, st := d.order, d.venue, d.stats;
    match v
    case Empty => Nothing(o, v, st)
    case Awaiting(readyTs) =>
      if tick.receiveTs < readyTs then Nothing(o, v, st)
      else if o.clientOrderId % 3 == 0 then
        Turn(o.(state := Rejected), Empty, st,
             [Moves(tick, o.side, 1, 7), Rejects(tick, o.side, o.orderQty, NewRejectedByVenue)], NO_FILL, 1, 0)
      else Answered(cfg, o, d.nextVenueId, st, tick)
    case Book(_, _, sent, due, refused) =>
      var arrives := sent.At? && tick.receiveTs >= sent.ts;
      if arrives && o.venueOrderId % 2 == 1 && !refused then CancelRefused(o, v, st, tick)
      else if arrives then
        var w := v.(sent := Never, due := if due.Never? then At(tick.receiveTs + cfg.cancelLatency) else due);
        Met(o, w, st.(cancelRequests := st.cancelRequests + One(due.Never?)), tick)
      else Met(o, v, st, tick)
  }

  predicate Acknowledges(d: Desk, tick: MarketTick) {
    d.venue.Awaiting? && tick.receiveTs >= d.venue.readyTs && d.order.clientOrderId % 3 != 0
  }

  function VenueHalf(cfg: Config, d: Desk, tick: MarketTick): Desk {
    var t := VenueTurn(cfg, d, tick);
    var marked := Accounting.Marked(d.acct, Mid(tick));
    var filled := t.fill.quantity > 0;
    var over := t.order.state == OrderState.Filled || t.order.state == Canceled || t.order.state == OrderState.Expired;
    Desk(t.order, t.venue, d.nextVenueId + One(Acknowledges(d, tick)), d.nextClientId,
         if over then -1 else d.clock,
         if filled then Accounting.Marked(Accounting.Filled(marked, t.fill), Mid(tick)) else marked,
         d.counters.(venueRejects := d.counters.venueRejects + t.rejects,
                     fills := d.counters.fills + One(filled),
                     invalidVenueEvents := d.counters.invalidVenueEvents + t.strays,
                     wrongState := d.counters.wrongState + t.strays),
         d.samples.(execution := d.samples.execution + 1,
                    accounting := d.samples.accounting + (if filled then 1 else 0),
                    eventSink := d.samples.eventSink + |t.says|),
         t.stats, d.journal + t.says)
  }

  // ---------------------------------------------------------------------------
  // The rest of a tick
  // ---------------------------------------------------------------------------

  function Writes(d: Desk, e: TradeEvent): Desk {
    d.(journal := d.journal + [e], samples := d.samples.(eventSink := d.samples.eventSink + 1))
  }

  /** A passive order that has been out too long is cancelled, unless a cancel is on its way. */
  function CancelHalf(cfg: Config, d: Desk, tick: MarketTick): Desk {
    if && cfg.style == Passive && d.venue.Book? && d.venue.sent.Never?
       && (d.order.state == Acked || d.order.state == PartiallyFilled)
       && d.clock >= 0 && tick.receiveTs - d.clock >= cfg.cancelAfter
    then
      Writes(d.(order := d.order.(state := PendingCancel),
                venue := d.venue.(sent := At(tick.receiveTs + cfg.cancelSendLatency))),
             Moves(tick, d.order.side, Stage(d.order), 4))
    else d
  }

  /** A signal: gated, then sent if nothing is live. An id is spent either way. */
  function SignalHalf(cfg: Config, d: Desk, req: OrderRequest, tick: MarketTick): Desk {
    var seen := d.(counters := d.counters.(strategySignals := d.counters.strategySignals + 1),
                   samples := d.samples.(risk := d.samples.risk + 1));
    var target := if req.side == Buy then d.acct.netQty + req.quantity else d.acct.netQty - req.quantity;
    if req.quantity <= 0 || target > cfg.limit || target < -cfg.limit then
      Writes(seen.(counters := seen.counters.(riskRejects := seen.counters.riskRejects + 1)),
             TradeEvent(tick.receiveTs, 0, req.quantity, RiskReject, req.side,
                        if req.quantity <= 0 then RejectReason.InvalidQuantity else MaxPosition))
    else
      var spent := seen.(nextClientId := d.nextClientId + 1,
                         samples := seen.samples.(execution := seen.samples.execution + 1));
      if Live(d.order.state) then spent
      else
        var price :=
          if cfg.style == Aggressive then req.limitPrice else if req.side == Buy then tick.bidPrice else tick.askPrice;
        Writes(spent.(order := ManagedOrder(d.nextClientId, 0, req.side, price, req.quantity, 0, req.quantity, PendingNewAck),
                      venue := Awaiting(tick.receiveTs + cfg.newAckLatency),
                      clock := if cfg.style == Passive then tick.receiveTs else d.clock,
                      counters := spent.counters.(localSubmissions := spent.counters.localSubmissions + 1,
                                                  gatewaySubmissions := spent.counters.gatewaySubmissions + 1)),
               Moves(tick, req.side, 0, 1))
  }

  function DeskTick(cfg: Config, d: Desk, input: Input): Desk {
    var acted := CancelHalf(cfg, VenueHalf(cfg, d, input.tick), input.tick);
    var timed := acted.(samples := acted.samples.(strategy := acted.samples.strategy + 1, endToEnd := acted.samples.endToEnd + 1));
    if input.decision.hasOrder then SignalHalf(cfg, timed, input.decision.order, input.tick) else timed
  }

  function DeskRun(cfg: Config, inputs: seq<Input>): Desk {
    if inputs == [] then Start() else DeskTick(cfg, DeskRun(cfg, inputs[..|inputs| - 1]), inputs[|inputs| - 1])
  }
}
