/** The kernel with its three copies of the order does what the one-copy machine does. */
module ReplayRefinement {
  import opened Types
  import opened OrderManagement
  import opened Execution
  import opened VenueGateway
  import opened Replay
  import opened ReplayAgreement
  import opened ReplayRuns
  import opened ReplayRecords
  import opened Risk
  import Accounting
  import R = ReplayReference

  function Set(on: bool, ts: int): R.Moment {
    if on then R.At(ts) else R.Never
  }

  function BookOf(act: ActiveOrder, r: RestingOrder): R.Venue {
    R.Book(r.queueAheadQty, r.submitTs, Set(act.cancelSent, act.cancelSendTs),
           Set(r.cancelPending, r.cancelEffectiveTs), act.cancelRejectOnceDone)
  }

  function VenueOf(g: Gateway): R.Venue {
    if g.pending.active then R.Awaiting(g.pending.ackReadyTs)
    else if g.act.active then BookOf(g.act, g.sim.resting)
    else R.Empty
  }

  /** A kernel, seen as one machine. */
  function DeskOf(k: Kernel): R.Desk {
    R.Desk(k.oms, VenueOf(k.gw), k.gw.nextVenueOrderId, k.nextClientId, k.passiveSubmitTs,
           k.acct, k.counters, k.samples, k.gw.sim.stats, k.journal)
  }

  /** What the machine takes for granted of a gateway. */
  ghost predicate Configured(cfg: Config, g: Gateway) {
    && g.newAckLatency == cfg.newAckLatency && g.cancelSendLatency == cfg.cancelSendLatency
    && g.sim.cancelLatency == cfg.cancelLatency
    && (g.pending.active ==> (g.pending.shouldReject <==> g.pending.request.clientOrderId % 3 == 0))
  }

  ghost predicate RefInv(cfg: Config, k: Kernel) {
    RunInv(cfg, k) && Configured(cfg, k.gw)
  }

  // ---------------------------------------------------------------------------
  // What a kernel hears
  // ---------------------------------------------------------------------------

  /** The effect of events on everything but the venue. */
  datatype Hearing = Hearing(order: ManagedOrder, says: seq<TradeEvent>, fill: Types.Fill, rejects: nat, strays: nat)

  function Silence(o: ManagedOrder): Hearing {
    Hearing(o, [], NO_FILL, 0, 0)
  }

  function Hear(o: ManagedOrder, e: VenueEvent): Hearing {
    var h := OnEvent(o, e);
    if h.outcome != Applied then Hearing(o, [], NO_FILL, 0, 1)
    else
      var moved := if o.state == h.order.state then [] else [Transition(e.ts, o.state, h.order.state, o.side)];
      var traded := if h.fill.quantity > 0 then [FillRecordOf(h.fill)] else [];
      var rejected :=
        if e.kind.NewReject? then [TradeEvent(e.ts, 0, h.order.orderQty, VenueReject, o.side, NewRejectedByVenue)]
        else if e.kind.CancelReject? then [TradeEvent(e.ts, 0, h.order.leavesQty, VenueReject, o.side, CancelRejectedByVenue)]
        else [];
      Hearing(h.order, moved + traded + rejected, h.fill, |rejected|, 0)
  }

  function Then(a: Hearing, b: Hearing): Hearing {
    Hearing(b.order, a.says + b.says, if a.fill.quantity > 0 then a.fill else b.fill, a.rejects + b.rejects, a.strays + b.strays)
  }

  function HearAll(o: ManagedOrder, events: seq<VenueEvent>): Hearing
    decreases |events|
  {
    if events == [] then Silence(o)
    else Then(Hear(o, events[0]), HearAll(OnEvent(o, events[0]).order, events[1..]))
  }

  function Heard(k: Kernel, h: Hearing, tick: MarketTick): Kernel {
    var filled := h.fill.quantity > 0;
    k.(oms := h.order,
       acct := if filled then Accounting.Marked(Accounting.Filled(k.acct, h.fill), Mid(tick)) else k.acct,
       counters := k.counters.(venueRejects := k.counters.venueRejects + h.rejects,
                               fills := k.counters.fills + One(filled),
                               invalidVenueEvents := k.counters.invalidVenueEvents + h.strays,
                               wrongState := k.counters.wrongState + h.strays),
       samples := k.samples.(accounting := k.samples.accounting + (if filled then 1 else 0),
                             eventSink := k.samples.eventSink + |h.says|),
       journal := k.journal + h.says)
  }

  lemma EventHeard(k: Kernel, e: VenueEvent, tick: MarketTick)
    requires OrderInv(k.oms) && Taken(k.oms, e)
    ensures HandleVenueEvent(k, e, k.oms.side, tick) == Heard(k, Hear(k.oms, e), tick)
  {
    EventOutcome(k.oms, e);
    hide OnEvent, Accounting.Filled, Accounting.Marked, OrderInv, LegalEdge, Mid;
    var h := OnEvent(k.oms, e);
    if h.outcome == Applied {
      assert k.journal + Hear(k.oms, e).says == HandleVenueEvent(k, e, k.oms.side, tick).journal;
    } else {
      assert k.journal + [] == k.journal;
    }
  }

  lemma HeardTwice(k: Kernel, a: Hearing, b: Hearing, tick: MarketTick)
    requires a.fill.quantity <= 0 || b.fill.quantity <= 0
    ensures Heard(Heard(k, a, tick), b, tick) == Heard(k, Then(a, b), tick)
  {
    hide Accounting.Filled, Accounting.Marked, Mid;
    assert k.journal + a.says + b.says == k.journal + (a.says + b.says);
  }

  lemma {:induction false} NoFillHeard(o: ManagedOrder, events: seq<VenueEvent>)
    requires OrderInv(o) && Fills(events) == 0
    ensures HearAll(o, events).fill.quantity == 0
    decreases |events|
  {
    if events == [] {
    } else {
      EventKeepsInv(o, events[0]);
      EventOutcome(o, events[0]);
      hide OnEvent, OrderInv, LegalEdge;
      NoFillHeard(OnEvent(o, events[0]).order, events[1..]);
    }
  }

  lemma HearOrder(o: ManagedOrder, e: VenueEvent)
    requires OrderInv(o)
    ensures Hear(o, e).order == OnEvent(o, e).order
    ensures !e.kind.Fill? ==> Hear(o, e).fill.quantity == 0
  {
    EventOutcome(o, e);
  }

  lemma {:induction false} BatchHeard(k: Kernel, events: seq<VenueEvent>, tick: MarketTick)
    requires OrderInv(k.oms) && AllTaken(k.oms, events) && Fills(events) <= 1
    ensures HandleBatch(k, events, tick) == Heard(k, HearAll(k.oms, events), tick)
    decreases |events|
  {
    hide HandleVenueEvent, Taken, OrderInv, Hear, Mid, Accounting.Marked, Accounting.Filled;
    if events == [] {
      assert k.journal + [] == k.journal;
    } else {
      var e, rest := events[0], events[1..];
      EventHeard(k, e, tick);
      EventKeepsInv(k.oms, e);
      HearOrder(k.oms, e);
      var next := OnEvent(k.oms, e).order;
      BatchHeard(HandleVenueEvent(k, e, k.oms.side, tick), rest, tick);
      if e.kind.Fill? {
        NoFillHeard(next, rest);
      }
      HeardTwice(k, Hear(k.oms, e), HearAll(next, rest), tick);
    }
  }

  lemma HearOne(o: ManagedOrder, e: VenueEvent)
    requires OrderInv(o)
    ensures HearAll(o, [e]) == Hear(o, e)
  {
    HearOrder(o, e);
    EventOutcome(o, e);
    hide OnEvent, OrderInv, LegalEdge;
    assert [e][1..] == [];
    assert Hear(o, e).says + [] == Hear(o, e).says;
  }

  lemma {:induction false} HearConcat(o: ManagedOrder, a: seq<VenueEvent>, b: seq<VenueEvent>)
    ensures HearAll(o, a + b) == Then(HearAll(o, a), HearAll(Delivered(o, a), b))
    decreases |a|
  {
    hide OnEvent, Hear;
    if a == [] {
      assert a + b == b;
      var h := HearAll(o, b);
      assert [] + h.says == h.says;
    } else {
      assert (a + b)[1..] == a[1..] + b;
      var next := OnEvent(o, a[0]).order;
      HearConcat(next, a[1..], b);
      var x, y, z := Hear(o, a[0]), HearAll(next, a[1..]), HearAll(Delivered(next, a[1..]), b);
      assert x.says + y.says + z.says == x.says + (y.says + z.says);
    }
  }

  // ---------------------------------------------------------------------------
  // The venue half, case by case
  // ---------------------------------------------------------------------------

  /** A turn of the machine is what the gateway does and the kernel hears of it. */
  ghost predicate Plays(t: R.Turn, nextId: int, o: ManagedOrder, g: Gateway, tick: MarketTick) {
    var (h, b) := Polled(g, tick);
    && HearAll(o, b.events) == Hearing(t.order, t.says, t.fill, t.rejects, t.strays)
    && VenueOf(h) == t.venue && h.sim.stats == t.stats && h.nextVenueOrderId == nextId
  }

  lemma HearFill(o: ManagedOrder, tick: MarketTick, qty: int, price: int)
    requires OrderInv(o) && Working(o.state) && 0 < qty <= o.leavesQty
    ensures var f := Types.Fill(tick.receiveTs, price, qty, o.side);
      var to := if qty == o.leavesQty then 5 else 3;
      Hear(o, FillEvent(tick.receiveTs, o.venueOrderId, qty, price)) ==
        Hearing(R.Took(o, qty), (if R.Stage(o) == to then [] else [R.Moves(tick, o.side, R.Stage(o), to)]) + [R.Trades(f)], f, 0, 0)
  {
  }

  lemma HearCancelAck(o: ManagedOrder, tick: MarketTick)
    requires OrderInv(o) && Working(o.state)
    ensures Hear(o, CancelAckEvent(tick.receiveTs, o.venueOrderId)) ==
      if o.state == PendingCancel
      then Hearing(o.(leavesQty := 0, state := Canceled), [R.Moves(tick, o.side, 4, 6)], NO_FILL, 0, 0)
      else Hearing(o, [], NO_FILL, 0, 1)
  {
  }

  lemma HearAck(o: ManagedOrder, tick: MarketTick, id: int)
    requires o.state == PendingNewAck && id > 0
    ensures Hear(o, AckEvent(tick.receiveTs, id)) == Hearing(AckedOrder(o, id), [R.Moves(tick, o.side, 1, 2)], NO_FILL, 0, 0)
  {
  }

  lemma HearExpiry(o: ManagedOrder, tick: MarketTick)
    requires OrderInv(o) && (o.state == Acked || o.state == PartiallyFilled)
    ensures Hear(o, ExpiryEvent(tick.receiveTs, o.venueOrderId)) ==
      Hearing(o.(leavesQty := 0, state := OrderState.Expired), [R.Moves(tick, o.side, R.Stage(o), 8)], NO_FILL, 0, 0)
  {
  }

  lemma HearNothing(o: ManagedOrder)
    ensures HearAll(o, []) == Silence(o) && Delivered(o, []) == o
  {
  }

  /** What a resting order's tick means to the kernel. */
  lemma MeetingHeard(o: ManagedOrder, r: RestingOrder, v: R.Venue, st: Stats, tick: MarketTick)
    requires OrderInv(o) && Working(o.state) && v.Book?
    requires RestingInv(r) && r.active && r.leavesQty == o.leavesQty && r.side == o.side && r.price == o.limitPrice
    requires v.queue == r.queueAheadQty && v.due == Set(r.cancelPending, r.cancelEffectiveTs)
    ensures var t := R.Met(o, v, st, tick);
      HearAll(o, RestingEvents(r, tick, o.venueOrderId)) == Hearing(t.order, t.says, t.fill, t.rejects, t.strays)
  {
    hide HearAll, Hear, OrderInv, R.Stage;
    var events := RestingEvents(r, tick, o.venueOrderId);
    if FillsOn(r, tick) {
      HearOne(o, events[0]);
      HearFill(o, tick, Min(r.leavesQty, Reached(r, tick)), r.price);
    } else if events != [] {
      HearOne(o, events[0]);
      HearCancelAck(o, tick);
    } else {
      HearNothing(o);
    }
  }

  /** The gateway's copies of an order in the book. */
  ghost predicate InStep(o: ManagedOrder, g: Gateway) {
    && g.act.active && g.sim.resting.active && RestingInv(g.sim.resting) && !g.pending.active
    && o.leavesQty == g.sim.resting.leavesQty && o.side == g.sim.resting.side && o.limitPrice == g.sim.resting.price
  }

  ghost predicate MatchedAs(t: R.Turn, h: Gateway, nextId: int) {
    VenueOf(h) == t.venue && h.sim.stats == t.stats && h.nextVenueOrderId == nextId
  }

  lemma FillMatched(o: ManagedOrder, g: Gateway, tick: MarketTick, b: Batch)
    requires InStep(o, g) && FillsOn(g.sim.resting, tick)
    ensures MatchedAs(R.Met(o, BookOf(g.act, g.sim.resting), g.sim.stats, tick), Matched(g, tick, b).0, g.nextVenueOrderId)
  {
    hide PushReport, Mid, R.Stage, R.Moves, R.Took, R.Trades;
  }

  lemma NoFillMatched(o: ManagedOrder, g: Gateway, tick: MarketTick, b: Batch)
    requires InStep(o, g) && !FillsOn(g.sim.resting, tick)
    ensures MatchedAs(R.Met(o, BookOf(g.act, g.sim.resting), g.sim.stats, tick), Matched(g, tick, b).0, g.nextVenueOrderId)
  {
    hide PushReport, Mid, R.Stage, R.Moves, R.Took, R.Trades, Adverse, CountFill, CountFlags;
  }

  /** What it does to the venue. */
  lemma MeetingMatched(o: ManagedOrder, g: Gateway, tick: MarketTick, b: Batch)
    requires InStep(o, g)
    ensures MatchedAs(R.Met(o, BookOf(g.act, g.sim.resting), g.sim.stats, tick), Matched(g, tick, b).0, g.nextVenueOrderId)
  {
    if FillsOn(g.sim.resting, tick) {
      FillMatched(o, g, tick, b);
    } else {
      NoFillMatched(o, g, tick, b);
    }
  }

  lemma PlaysIdle(cfg: Config, o: ManagedOrder, g: Gateway, tick: MarketTick)
    requires Agreement(o, g) && !AckDue(g, tick) && !g.act.active
    ensures Plays(R.Nothing(o, VenueOf(g), g.sim.stats), g.nextVenueOrderId, o, g, tick)
  {
    PollIdle(g, tick);
  }

  lemma PlaysReject(o: ManagedOrder, g: Gateway, tick: MarketTick)
    requires Agreement(o, g) && AckDue(g, tick) && g.pending.shouldReject
    ensures Plays(
      R.Turn(o.(state := Rejected), R.Empty, g.sim.stats,
             [R.Moves(tick, o.side, 1, 7), R.Rejects(tick, o.side, o.orderQty, NewRejectedByVenue)], NO_FILL, 1, 0),
      g.nextVenueOrderId, o, g, tick)
  {
    var e := VenueEvent(NewReject, tick.receiveTs, 0, 0, 0);
    assert Polled(g, tick).1.events == [e];
    HearOne(o, e);
    hide HearAll;
  }

  /** The machine's aggressive order in the same pieces. */
  lemma CrossedParts(a: ManagedOrder, st: Stats, tick: MarketTick, qty: int, touch: int)
    requires OrderInv(a) && a.state == Acked
    requires qty == Max(0, Min(if a.side == Buy then tick.askQty else tick.bidQty, a.orderQty))
    requires touch == (if a.side == Buy then tick.askPrice else tick.bidPrice)
    ensures var t := R.Crossed(a, st, tick);
      var b := if qty > 0 then R.Took(a, qty) else a;
      var f := Types.Fill(tick.receiveTs, touch, qty, a.side);
      && t.order == (if qty < a.orderQty then b.(leavesQty := 0, state := OrderState.Expired) else b)
      && t.fill == (if qty > 0 then f else NO_FILL) && t.rejects == t.strays == 0
      && t.says == (if qty > 0 then [R.Moves(tick, a.side, 2, if qty == a.leavesQty then 5 else 3), R.Trades(f)] else [])
                   + (if qty < a.orderQty then [R.Moves(tick, a.side, R.Stage(b), 8)] else [])
  {
  }

  /** Acknowledgement and fill of an aggressive order. */
  lemma CrossedBegins(o: ManagedOrder, id: int, tick: MarketTick, qty: int, touch: int)
    requires OrderInv(o) && o.state == PendingNewAck && id > 0 && 0 <= qty <= o.orderQty
    ensures var ack, fill := AckEvent(tick.receiveTs, id), FillEvent(tick.receiveTs, id, qty, touch);
      var a, f := AckedOrder(o, id), Types.Fill(tick.receiveTs, touch, qty, o.side);
      var events := [ack] + (if qty > 0 then [fill] else []);
      var b := if qty > 0 then R.Took(a, qty) else a;
      && OrderInv(b) && Delivered(o, events) == b
      && HearAll(o, events) == Hearing(
           b,
           [R.Moves(tick, o.side, 1, 2)]
           + (if qty > 0 then [R.Moves(tick, o.side, 2, if qty == o.leavesQty then 5 else 3), R.Trades(f)] else []),
           if qty > 0 then f else NO_FILL, 0, 0)
  {
    hide HearAll, Delivered, Hear, Taken, AllTaken;
    var ack, fill := AckEvent(tick.receiveTs, id), FillEvent(tick.receiveTs, id, qty, touch);
    var a := AckedOrder(o, id);
    TakeOne(o, ack);
    HearOne(o, ack);
    HearAck(o, tick, id);
    if qty > 0 {
      TakeOne(a, fill);
      HearOne(a, fill);
      HearFill(a, tick, qty, touch);
      EventKeepsInv(a, fill);
      HearConcat(o, [ack], [fill]);
      TakeConcat(o, [ack], [fill]);
    } else {
      assert [ack] + [] == [ack];
    }
  }

  lemma ExpiryEnds(o: ManagedOrder, begins: seq<VenueEvent>, b: ManagedOrder, tick: MarketTick)
    requires Delivered(o, begins) == b && OrderInv(b) && (b.state == Acked || b.state == PartiallyFilled)
    ensures var h := HearAll(o, begins);
      HearAll(o, begins + [ExpiryEvent(tick.receiveTs, b.venueOrderId)]) ==
        Hearing(b.(leavesQty := 0, state := OrderState.Expired), h.says + [R.Moves(tick, b.side, R.Stage(b), 8)],
                if h.fill.quantity > 0 then h.fill else NO_FILL, h.rejects, h.strays)
  {
    hide HearAll, Delivered, Hear, OrderInv;
    var expiry := ExpiryEvent(tick.receiveTs, b.venueOrderId);
    HearOne(b, expiry);
    HearExpiry(b, tick);
    HearConcat(o, begins, [expiry]);
  }

  lemma CrossedHeard(o: ManagedOrder, req: NewOrder, id: int, st: Stats, tick: MarketTick)
    requires OrderInv(o) && o.state == PendingNewAck && o.orderQty == req.quantity && o.side == req.side && id > 0
    ensures var t := R.Crossed(AckedOrder(o, id), st, tick);
      HearAll(o, AggressiveEvents(req, tick, id))
        == Hearing(t.order, [R.Moves(tick, o.side, 1, 2)] + t.says, t.fill, t.rejects, t.strays)
  {
    var ts, qty, touch := tick.receiveTs, Takes(req, tick), TouchPrice(req.side, tick);
    var begins := [AckEvent(ts, id)] + (if qty > 0 then [FillEvent(ts, id, qty, touch)] else []);
    var a := AckedOrder(o, id);
    CrossedBegins(o, id, tick, qty, touch);
    CrossedParts(a, st, tick, qty, touch);
    if qty < req.quantity {
      ExpiryEnds(o, begins, if qty > 0 then R.Took(a, qty) else a, tick);
    } else {
      assert begins + [] == begins;
    }
    hide OrderInv, R.Took, R.Stage, Takes, R.Moves, R.Trades, R.Crossed, HearAll, Delivered;
  }

  lemma CrossedPolled(o: ManagedOrder, g: Gateway, tick: MarketTick)
    requires Agreement(o, g) && AckDue(g, tick) && !g.pending.shouldReject && g.pending.request.style == Aggressive
    ensures var t := R.Crossed(AckedOrder(o, g.nextVenueOrderId), g.sim.stats, tick);
      var h := Polled(g, tick).0;
      VenueOf(h) == t.venue && h.sim.stats == t.stats && h.nextVenueOrderId == g.nextVenueOrderId + 1
  {
  }

  lemma PlaysCrossed(cfg: Config, o: ManagedOrder, g: Gateway, tick: MarketTick)
    requires Agreement(o, g) && AckDue(g, tick) && !g.pending.shouldReject
    requires g.pending.request.style == cfg.style == Aggressive
    ensures Plays(R.Answered(cfg, o, g.nextVenueOrderId, g.sim.stats, tick), g.nextVenueOrderId + 1, o, g, tick)
  {
    hide Polled, HearAll, R.Crossed, AggressiveEvents;
    PollAggressive(g, tick);
    CrossedHeard(o, g.pending.request, g.nextVenueOrderId, g.sim.stats, tick);
    CrossedPolled(o, g, tick);
  }

  lemma EnteredPolled(cfg: Config, o: ManagedOrder, g: Gateway, tick: MarketTick)
    requires Agreement(o, g) && AckDue(g, tick) && !g.pending.shouldReject && g.pending.request.style == Passive
    ensures var own := if o.side == Buy then tick.bidQty else tick.askQty;
      var t := R.Met(AckedOrder(o, g.nextVenueOrderId), R.Book(own, tick.receiveTs, R.Never, R.Never, false), g.sim.stats, tick);
      var h := Polled(g, tick).0;
      VenueOf(h) == t.venue && h.sim.stats == t.stats && h.nextVenueOrderId == g.nextVenueOrderId + 1
  {
    var (h, b) := Acknowledged(g, tick);
    MeetingMatched(AckedOrder(o, g.nextVenueOrderId), h, tick, b);
    hide Matched, R.Met;
  }

  lemma PlaysEntered(cfg: Config, o: ManagedOrder, g: Gateway, tick: MarketTick)
    requires Agreement(o, g) && AckDue(g, tick) && !g.pending.shouldReject
    requires g.pending.request.style == cfg.style == Passive
    ensures Plays(R.Answered(cfg, o, g.nextVenueOrderId, g.sim.stats, tick), g.nextVenueOrderId + 1, o, g, tick)
  {
    hide Polled, HearAll, R.Met, RestingEvents;
    var req, id := g.pending.request, g.nextVenueOrderId;
    PollPassive(g, tick);
    EnteredPolled(cfg, o, g, tick);
    var ack, a, entry := AckEvent(tick.receiveTs, id), AckedOrder(o, id), Entry(req, tick);
    TakeOne(o, ack);
    HearOne(o, ack);
    MeetingHeard(a, entry, R.Book(entry.queueAheadQty, tick.receiveTs, R.Never, R.Never, false), g.sim.stats, tick);
    HearConcat(o, [ack], RestingEvents(entry, tick, id));
  }

  lemma PlaysRefused(o: ManagedOrder, g: Gateway, tick: MarketTick)
    requires Agreement(o, g) && CancelDue(g, tick) && RefusesCancel(g.act)
    ensures Plays(R.CancelRefused(o, BookOf(g.act, g.sim.resting), g.sim.stats, tick), g.nextVenueOrderId, o, g, tick)
  {
    PollRefused(g, tick);
    HearOne(o, CancelRejectEvent(tick.receiveTs, g.act.venueOrderId));
    hide HearAll, Polled;
  }

  /** The gateway a working order is matched in, after a due cancel has been forwarded. */
  function Forwarded(g: Gateway, tick: MarketTick): Gateway {
    if CancelDue(g, tick) then CancelForwarded(g, tick) else g
  }

  lemma PlaysWorking(o: ManagedOrder, g: Gateway, tick: MarketTick)
    requires Agreement(o, g) && g.act.active && !(CancelDue(g, tick) && RefusesCancel(g.act))
    ensures var f := Forwarded(g, tick);
      Plays(R.Met(o, BookOf(f.act, f.sim.resting), f.sim.stats, tick), g.nextVenueOrderId, o, g, tick)
  {
    var f := Forwarded(g, tick);
    assert Polled(g, tick).0 == Matched(f, tick, NO_BATCH).0;
    MeetingMatched(o, f, tick, NO_BATCH);
    PollWorking(g, tick);
    assert f.sim.resting == Facing(g, tick);
    MeetingHeard(o, f.sim.resting, BookOf(f.act, f.sim.resting), f.sim.stats, tick);
    hide HearAll, Polled, R.Met, Matched, RestingEvents;
  }

  /** The venue half of a tick, whatever it is. */
  lemma TurnPlays(cfg: Config, k: Kernel, tick: MarketTick)
    requires RefInv(cfg, k)
    ensures var d := DeskOf(k);
      Plays(R.VenueTurn(cfg, d, tick), d.nextVenueId + One(R.Acknowledges(d, tick)), k.oms, k.gw, tick)
  {
    hide Plays, R.Met, R.Answered, R.CancelRefused;
    var o, g := k.oms, k.gw;
    if AckDue(g, tick) {
      if g.pending.shouldReject {
        PlaysReject(o, g, tick);
      } else if cfg.style == Aggressive {
        PlaysCrossed(cfg, o, g, tick);
      } else {
        PlaysEntered(cfg, o, g, tick);
      }
    } else if !g.act.active {
      PlaysIdle(cfg, o, g, tick);
    } else {
      RulesOnIds(g.act.venueOrderId);
      if CancelDue(g, tick) && RefusesCancel(g.act) {
        PlaysRefused(o, g, tick);
      } else {
        PlaysWorking(o, g, tick);
      }
    }
  }

  lemma VenueHalfRefines(cfg: Config, k: Kernel, tick: MarketTick)
    requires RefInv(cfg, k)
    ensures DeskOf(ClearSubmitTs(Poll(k, tick))) == R.VenueHalf(cfg, DeskOf(k), tick)
  {
    hide Polled, HandleBatch, R.VenueTurn, HearAll, Mid, Accounting.Filled, Accounting.Marked, Agreement, OrderInv,
      GatewayInv, StyleOk, R.Acknowledges;
    RunParts(cfg, k);
    TurnPlays(cfg, k, tick);
    PollDelivers(k.oms, k.gw, tick);
    PollBudget(k.gw, tick);
    BatchHeard(BeforeBatch(k, tick), Polled(k.gw, tick).1.events, tick);
  }

  // ---------------------------------------------------------------------------
  // The rest of a tick
  // ---------------------------------------------------------------------------

  lemma CancelHalfRefines(cfg: Config, k: Kernel, tick: MarketTick)
    requires RefInv(cfg, k)
    ensures DeskOf(CancelStep(cfg, k, tick)) == R.CancelHalf(cfg, DeskOf(k), tick)
  {
    hide GatewayInv, StyleOk, FillCount;
  }

  lemma RefusedSignalRefines(cfg: Config, k: Kernel, order: OrderRequest, tick: MarketTick)
    requires RefInv(cfg, k)
    requires !Evaluate(cfg.limit, k.acct.netQty, order).accepted || Live(k.oms.state)
    ensures DeskOf(SignalStep(cfg, k, order, tick)) == R.SignalHalf(cfg, DeskOf(k), order, tick)
  {
    hide SendStep, Agreement, StyleOk, VenueOf;
  }

  lemma SentSignalRefines(cfg: Config, k: Kernel, order: OrderRequest, tick: MarketTick)
    requires RefInv(cfg, k) && !Live(k.oms.state) && Evaluate(cfg.limit, k.acct.netQty, order).accepted
    ensures DeskOf(SignalStep(cfg, k, order, tick)) == R.SignalHalf(cfg, DeskOf(k), order, tick)
  {
    hide HandleVenueEvent, StyleOk, TruncMod;
    SubmitAgrees(cfg, k.oms, k.gw, k.nextClientId, Priced(cfg, order, tick), tick);
    hide Agreement, Orphaned;
  }

  lemma SignalHalfRefines(cfg: Config, k: Kernel, order: OrderRequest, tick: MarketTick)
    requires RefInv(cfg, k)
    ensures DeskOf(SignalStep(cfg, k, order, tick)) == R.SignalHalf(cfg, DeskOf(k), order, tick)
  {
    hide SignalStep, R.SignalHalf, RefInv;
    if Evaluate(cfg.limit, k.acct.netQty, order).accepted && !Live(k.oms.state) {
      SentSignalRefines(cfg, k, order, tick);
    } else {
      RefusedSignalRefines(cfg, k, order, tick);
    }
  }

  // ---------------------------------------------------------------------------
  // Configuration is kept
  // ---------------------------------------------------------------------------

  /** What no tick changes in a gateway. */
  function Fixed(g: Gateway): (int, int, int, PendingNew) {
    (g.newAckLatency, g.cancelSendLatency, g.sim.cancelLatency, g.pending.(active := false))
  }

  lemma ServicedFixed(g: Gateway, tick: MarketTick, b: Batch)
    ensures Fixed(Serviced(g, tick, b).0) == Fixed(g) && Serviced(g, tick, b).0.pending.active == g.pending.active
  {
    hide RefusesCancel, PushReport, Push, CountFill, CountFlags, Adverse, Reached, Crosses;
  }

  lemma AcknowledgedFixed(g: Gateway, tick: MarketTick)
    ensures Fixed(Acknowledged(g, tick).0) == Fixed(g) && !Acknowledged(g, tick).0.pending.active
  {
    hide PushReport, Push;
  }

  lemma PolledConfigured(cfg: Config, g: Gateway, tick: MarketTick)
    requires Configured(cfg, g)
    ensures Configured(cfg, Polled(g, tick).0)
  {
    hide Serviced, Acknowledged, Push;
    var (h, b) := Acknowledged(g, tick);
    AcknowledgedFixed(g, tick);
    ServicedFixed(h, tick, b);
    ServicedFixed(g, tick, NO_BATCH);
  }

  lemma SignalConfigured(cfg: Config, k: Kernel, order: OrderRequest, tick: MarketTick)
    requires RefInv(cfg, k)
    ensures Configured(cfg, SignalStep(cfg, k, order, tick).gw)
  {
    hide HandleVenueEvent, StyleOk, TruncMod, Agreement;
    RulesOnIds(k.nextClientId);
    if Evaluate(cfg.limit, k.acct.netQty, order).accepted {
      SubmitAgrees(cfg, k.oms, k.gw, k.nextClientId, Priced(cfg, order, tick), tick);
    }
  }

  lemma VenuePhaseConfigured(cfg: Config, k: Kernel, tick: MarketTick)
    requires RefInv(cfg, k)
    ensures RefInv(cfg, ClearSubmitTs(Poll(k, tick))) && RefInv(cfg, VenuePhase(cfg, k, tick))
  {
    hide Polled, HandleBatch, Agreement, StyleOk, FillCount;
    PolledConfigured(cfg, k.gw, tick);
    BatchGateway(BeforeBatch(k, tick), Polled(k.gw, tick).1.events, tick);
    PollRuns(cfg, k, tick);
    CancelRuns(cfg, ClearSubmitTs(Poll(k, tick)), tick);
  }

  // ---------------------------------------------------------------------------
  // The simulation
  // ---------------------------------------------------------------------------

  lemma TimedRefines(cfg: Config, k: Kernel)
    requires RefInv(cfg, k)
    ensures RefInv(cfg, Timed(k))
    ensures var d := DeskOf(k);
      DeskOf(Timed(k)) == d.(samples := d.samples.(strategy := d.samples.strategy + 1, endToEnd := d.samples.endToEnd + 1))
  {
  }

  /** One tick of the kernel is one tick of the machine. */
  lemma TickRefines(cfg: Config, k: Kernel, input: Input)
    requires RefInv(cfg, k)
    ensures DeskOf(TickStep(cfg, k, input)) == R.DeskTick(cfg, DeskOf(k), input)
    ensures RefInv(cfg, TickStep(cfg, k, input))
  {
    hide Poll, CancelStep, SignalStep, R.VenueHalf, R.CancelHalf, R.SignalHalf, RunInv, Configured;
    var tick, order := input.tick, input.decision.order;
    var polled := ClearSubmitTs(Poll(k, tick));
    var timed := Timed(VenuePhase(cfg, k, tick));
    VenueHalfRefines(cfg, k, tick);
    VenuePhaseConfigured(cfg, k, tick);
    CancelHalfRefines(cfg, polled, tick);
    TimedRefines(cfg, VenuePhase(cfg, k, tick));
    if input.decision.hasOrder {
      SignalHalfRefines(cfg, timed, order, tick);
      SignalConfigured(cfg, timed, order, tick);
      SignalRuns(cfg, timed, order, tick);
    }
  }

  lemma StartRefines(cfg: Config)
    ensures DeskOf(Initial(cfg)) == R.Start() && RefInv(cfg, Initial(cfg))
  {
  }

  /** Every run of the kernel is the run of the one-copy machine: same order, account, counters, samples,
      ids and journal, record for record. */
  lemma {:induction false} RunRefines(cfg: Config, inputs: seq<Input>)
    ensures DeskOf(Run(cfg, inputs)) == R.DeskRun(cfg, inputs)
    ensures RefInv(cfg, Run(cfg, inputs))
  {
    hide TickStep, RefInv, DeskOf, Initial, R.Start, R.DeskTick;
    if inputs == [] {
      StartRefines(cfg);
    } else {
      RunRefines(cfg, inputs[..|inputs| - 1]);
      TickRefines(cfg, Run(cfg, inputs[..|inputs| - 1]), inputs[|inputs| - 1]);
    }
  }
}
