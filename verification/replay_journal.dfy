/** What the event journal of a run says: a legal order lifecycle and a complete record of the account. */
module ReplayJournal {
  import opened Types
  import opened OrderManagement
  import opened VenueGateway
  import opened Risk
  import opened Replay
  import Accounting

  // ---------------------------------------------------------------------------
  // Reading a journal back
  // ---------------------------------------------------------------------------

  function Decode(code: int): OrderState {
    if code == 1 then PendingNewAck else if code == 2 then Acked else if code == 3 then PartiallyFilled
    else if code == 4 then PendingCancel else if code == 5 then OrderState.Filled else if code == 6 then Canceled
    else if code == 7 then Rejected else if code == 8 then OrderState.Expired else Idle
  }

  lemma CodesRoundTrip(s: OrderState)
    ensures Decode(Code(s)) == s
  {
  }

  datatype Walk = Broken | AtState(state: OrderState)

  /** A transition continues the walk from the state reached, or starts afresh after a terminal one. */
  function WalkOn(w: Walk, e: TradeEvent): Walk {
    if w.Broken? || !e.kind.OmsTransition? then w
    else
      var from, to := Decode(e.price), Decode(e.quantity);
      if && e.price == Code(from) && e.quantity == Code(to) && LegalEdge(from, to)
         && (w.state == from || (from == Idle && Terminal(w.state)))
      then AtState(to) else Broken
  }

  /** Follow the transitions of a journal through the lifecycle diagram. */
  function WalkOf(journal: seq<TradeEvent>): Walk {
    if journal == [] then AtState(Idle) else WalkOn(WalkOf(journal[..|journal| - 1]), journal[|journal| - 1])
  }

  function FillsIn(journal: seq<TradeEvent>): seq<Types.Fill> {
    if journal == [] then []
    else
      var prior, e := FillsIn(journal[..|journal| - 1]), journal[|journal| - 1];
      if e.kind.FillRecord? then prior + [Types.Fill(e.ts, e.price, e.quantity, e.side)] else prior
  }

  function CountOf(journal: seq<TradeEvent>, kind: EventKind): nat {
    if journal == [] then 0
    else CountOf(journal[..|journal| - 1], kind) + (if journal[|journal| - 1].kind == kind then 1 else 0)
  }

  lemma Appended(journal: seq<TradeEvent>, e: TradeEvent)
    ensures WalkOf(journal + [e]) == WalkOn(WalkOf(journal), e)
    ensures FillsIn(journal + [e]) ==
      if e.kind.FillRecord? then FillsIn(journal) + [Types.Fill(e.ts, e.price, e.quantity, e.side)]
      else FillsIn(journal)
    ensures forall kind :: CountOf(journal + [e], kind) == CountOf(journal, kind) + (if e.kind == kind then 1 else 0)
  {
    hide WalkOn;
    assert (journal + [e])[..|journal + [e]| - 1] == journal;
  }

  // ---------------------------------------------------------------------------
  // The books: account, counters and journal tell the same story
  // ---------------------------------------------------------------------------

  ghost predicate Tally(acct: Accounting.Account, c: Counters, n: Samples, journal: seq<TradeEvent>) {
    && Accounting.Derived(acct)
    && Accounting.Core(acct) == Accounting.Core(Accounting.Replayed(FillsIn(journal)))
    && c.fills == CountOf(journal, FillRecord) == n.accounting
    && c.riskRejects == CountOf(journal, RiskReject)
    && c.venueRejects == CountOf(journal, VenueReject)
    && n.eventSink == |journal|
    && n.risk == c.strategySignals
  }

  ghost predicate Booked(k: Kernel) {
    Tally(k.acct, k.counters, k.samples, k.journal)
  }

  lemma TransitionBooked(k: Kernel, ts: int, from: OrderState, to: OrderState, side: Side)
    requires Booked(k)
    ensures Booked(EmitTransition(k, ts, from, to, side))
  {
    hide Accounting.Derived, Accounting.Core, Accounting.Replayed;
    Appended(k.journal, Transition(ts, from, to, side));
  }

  lemma RejectBooked(k: Kernel, ts: int, qty: int, side: Side, reason: RejectReason)
    requires Booked(k)
    ensures Booked(EmitVenueReject(k, ts, qty, side, reason))
  {
    hide Accounting.Derived, Accounting.Core, Accounting.Replayed;
    Appended(k.journal, TradeEvent(ts, 0, qty, VenueReject, side, reason));
  }

  lemma FillBooked(k: Kernel, f: Types.Fill, tick: MarketTick)
    requires Booked(k)
    ensures Booked(HandleFill(k, f, tick))
  {
    if f.quantity > 0 {
      hide Accounting.Derived, Accounting.Core, Accounting.Filled, Accounting.Marked;
      Appended(k.journal, FillRecordOf(f));
      var fills := FillsIn(k.journal);
      assert (fills + [f])[..|fills + [f]| - 1] == fills;
      Accounting.FillRespectsCore(k.acct, Accounting.Replayed(fills), f);
      Accounting.StepsKeepDerived(k.acct, f, 0);
      Accounting.StepsKeepDerived(Accounting.Filled(k.acct, f), f, Mid(tick));
      Accounting.MarkKeepsCore(Accounting.Filled(k.acct, f), Mid(tick));
    }
  }

  lemma RefusalBooked(k: Kernel, oms: ManagedOrder, outcome: Outcome)
    requires Booked(k)
    ensures Booked(k.(oms := oms, counters := CountRefusal(k.counters, outcome)))
  {
    hide Accounting.Derived, Accounting.Core, Accounting.Replayed, FillsIn, CountOf;
  }

  /** Whatever a venue says, the books stay balanced. */
  lemma EventBooked(k: Kernel, e: VenueEvent, fallback: Side, tick: MarketTick)
    requires Booked(k)
    ensures Booked(HandleVenueEvent(k, e, fallback, tick))
  {
    hide OnEvent, Tally, EmitTransition, HandleFill, EmitVenueReject, CountRefusal;
    var h := OnEvent(k.oms, e);
    if h.outcome == Applied {
      var side := if k.oms.state == Idle then fallback else k.oms.side;
      var moved := EmitTransition(k.(oms := h.order), e.ts, k.oms.state, h.order.state, side);
      TransitionBooked(k.(oms := h.order), e.ts, k.oms.state, h.order.state, side);
      var booked := HandleFill(moved, h.fill, tick);
      FillBooked(moved, h.fill, tick);
      RejectBooked(booked, e.ts, h.order.orderQty, side, NewRejectedByVenue);
      RejectBooked(booked, e.ts, h.order.leavesQty, side, CancelRejectedByVenue);
    } else {
      RefusalBooked(k, h.order, h.outcome);
    }
  }

  lemma {:induction false} BatchBooked(k: Kernel, events: seq<VenueEvent>, tick: MarketTick)
    requires Booked(k)
    ensures Booked(HandleBatch(k, events, tick))
    decreases |events|
  {
    hide HandleVenueEvent, Booked;
    if events == [] {
    } else {
      EventBooked(k, events[0], k.oms.side, tick);
      BatchBooked(HandleVenueEvent(k, events[0], k.oms.side, tick), events[1..], tick);
    }
  }

  lemma MarkBooked(k: Kernel, gw: Gateway, mid: int, overflows: int, execution: nat)
    requires Booked(k)
    ensures Booked(k.(acct := Accounting.Marked(k.acct, mid), gw := gw,
                      counters := k.counters.(batchOverflows := overflows),
                      samples := k.samples.(execution := execution)))
  {
    hide Accounting.Replayed, FillsIn, CountOf;
    Accounting.StepsKeepDerived(k.acct, NO_FILL, mid);
    Accounting.MarkKeepsCore(k.acct, mid);
  }

  lemma PollBooked(k: Kernel, tick: MarketTick)
    requires Booked(k)
    ensures Booked(Poll(k, tick))
  {
    hide Polled, HandleBatch, Tally, Accounting.Marked;
    var (gw, batch) := Polled(k.gw, tick);
    MarkBooked(k, gw, Mid(tick), k.counters.batchOverflows + batch.overflow, k.samples.execution + 1);
    BatchBooked(BeforeBatch(k, tick), batch.events, tick);
  }

  lemma VenuePhaseBooked(cfg: Config, k: Kernel, tick: MarketTick)
    requires Booked(k)
    ensures Booked(VenuePhase(cfg, k, tick))
  {
    hide Poll, Tally, CancelSent, CancelRequested, EmitTransition;
    PollBooked(k, tick);
    var c := ClearSubmitTs(Poll(k, tick));
    TransitionBooked(c.(gw := CancelSent(c.gw, tick.receiveTs).0, oms := CancelRequested(c.oms).0),
                     tick.receiveTs, c.oms.state, PendingCancel, c.oms.side);
  }

  lemma SendBooked(cfg: Config, k: Kernel, id: int, req: OrderRequest, tick: MarketTick)
    requires Booked(k)
    ensures Booked(SendStep(cfg, k, id, req, tick))
  {
    hide EmitTransition, HandleVenueEvent, NewSent, CountOf, FillsIn, Accounting.Derived, Accounting.Core, Accounting.Replayed;
    TransitionBooked(k.(counters := k.counters.(localSubmissions := k.counters.localSubmissions + 1)),
                     tick.receiveTs, Idle, PendingNewAck, req.side);
    var posted := Posted(k, tick.receiveTs, req.side);
    var gw := NewSent(posted.gw, RequestOf(cfg, id, req, tick)).0;
    EventBooked(posted.(gw := gw), VenueEvent(NewReject, tick.receiveTs, 0, 0, 0), req.side, tick);
  }

  lemma SignalBooked(cfg: Config, k: Kernel, order: OrderRequest, tick: MarketTick)
    requires Booked(k)
    ensures Booked(SignalStep(cfg, k, order, tick))
  {
    hide SendStep, Evaluate, Submitted, Accounting.Derived, Accounting.Core, Accounting.Replayed;
    var seen := Signalled(k);
    assert Booked(seen);
    var req := Priced(cfg, order, tick);
    var taken := Entered(seen, Submitted(seen.oms, seen.nextClientId, req.side, req.limitPrice, req.quantity).0);
    assert Booked(taken);
    SendBooked(cfg, taken, seen.nextClientId, req, tick);
    Appended(k.journal, TradeEvent(tick.receiveTs, 0, order.quantity, RiskReject, order.side,
                                   Evaluate(cfg.limit, k.acct.netQty, order).reason));
  }

  lemma TickBooked(cfg: Config, k: Kernel, input: Input)
    requires Booked(k)
    ensures Booked(TickStep(cfg, k, input))
  {
    hide VenuePhase, SignalStep, CountOf, FillsIn, Accounting.Derived, Accounting.Core, Accounting.Replayed;
    VenuePhaseBooked(cfg, k, input.tick);
    var v := VenuePhase(cfg, k, input.tick);
    var timed := Timed(v);
    SignalBooked(cfg, timed, input.decision.order, input.tick);
  }

  lemma InitialBooked(cfg: Config)
    ensures Booked(Initial(cfg))
  {
  }

  /** Folding the engine over the fills a journal records rebuilds position, cost, cash, average price
      and realized PnL of the run that wrote it; each counter equals the records of its kind. */
  lemma {:induction false} JournalRebuildsAccount(cfg: Config, inputs: seq<Input>)
    ensures Booked(Run(cfg, inputs))
  {
    hide TickStep, Booked;
    if inputs == [] {
      InitialBooked(cfg);
    } else {
      JournalRebuildsAccount(cfg, inputs[..|inputs| - 1]);
      TickBooked(cfg, Run(cfg, inputs[..|inputs| - 1]), inputs[|inputs| - 1]);
    }
  }

  /** After every tick of every run, PnL reconciles with cash and the marked position, and every displayed
      figure means what it says. */
  lemma RunReconciles(cfg: Config, inputs: seq<Input>)
    ensures var a := Run(cfg, inputs).acct;
      a.realized + a.unrealized == a.cash + a.netQty * a.mark && Accounting.Stated(a)
  {
    hide Run, FillsIn, CountOf, Accounting.Core, Accounting.Replayed;
    JournalRebuildsAccount(cfg, inputs);
    Accounting.Reconciles(Run(cfg, inputs).acct);
    Accounting.DerivedIsStated(Run(cfg, inputs).acct);
  }

  // ---------------------------------------------------------------------------
  // The transitions of a journal are one legal walk
  // ---------------------------------------------------------------------------

  ghost predicate Walks(k: Kernel) {
    OrderInv(k.oms) && WalkOf(k.journal) == AtState(k.oms.state)
  }

  lemma TransitionWalks(k: Kernel, ts: int, at: OrderState, from: OrderState, to: OrderState, side: Side)
    requires WalkOf(k.journal) == AtState(at)
    requires at == from || (from == Idle && Terminal(at))
    requires LegalEdge(from, to) || (from == to && at == to)
    ensures WalkOf(EmitTransition(k, ts, from, to, side).journal) == AtState(to)
    ensures EmitTransition(k, ts, from, to, side).oms == k.oms
  {
    Appended(k.journal, Transition(ts, from, to, side));
    CodesRoundTrip(from);
    CodesRoundTrip(to);
  }

  lemma FillWalks(k: Kernel, f: Types.Fill, tick: MarketTick)
    ensures WalkOf(HandleFill(k, f, tick).journal) == WalkOf(k.journal)
    ensures HandleFill(k, f, tick).oms == k.oms
  {
    hide Accounting.Filled, Accounting.Marked;
    Appended(k.journal, FillRecordOf(f));
  }

  lemma RejectWalks(k: Kernel, ts: int, qty: int, side: Side, reason: RejectReason)
    ensures WalkOf(EmitVenueReject(k, ts, qty, side, reason).journal) == WalkOf(k.journal)
    ensures EmitVenueReject(k, ts, qty, side, reason).oms == k.oms
  {
    Appended(k.journal, TradeEvent(ts, 0, qty, VenueReject, side, reason));
  }

  lemma EventWalks(k: Kernel, e: VenueEvent, fallback: Side, tick: MarketTick)
    requires Walks(k)
    ensures Walks(HandleVenueEvent(k, e, fallback, tick))
    ensures HandleVenueEvent(k, e, fallback, tick).oms == OnEvent(k.oms, e).order
  {
    hide OnEvent, OrderInv, WalkOf, EmitTransition, HandleFill, EmitVenueReject, CountRefusal, LegalEdge;
    var h := OnEvent(k.oms, e);
    EventKeepsInv(k.oms, e);
    EventOutcome(k.oms, e);
    if h.outcome == Applied {
      var side := if k.oms.state == Idle then fallback else k.oms.side;
      var moved := EmitTransition(k.(oms := h.order), e.ts, k.oms.state, h.order.state, side);
      TransitionWalks(k.(oms := h.order), e.ts, k.oms.state, k.oms.state, h.order.state, side);
      FillWalks(moved, h.fill, tick);
      var booked := HandleFill(moved, h.fill, tick);
      RejectWalks(booked, e.ts, h.order.orderQty, side, NewRejectedByVenue);
      RejectWalks(booked, e.ts, h.order.leavesQty, side, CancelRejectedByVenue);
    }
  }

  lemma {:induction false} BatchWalks(k: Kernel, events: seq<VenueEvent>, tick: MarketTick)
    requires Walks(k)
    ensures Walks(HandleBatch(k, events, tick))
    decreases |events|
  {
    hide HandleVenueEvent, Walks;
    if events == [] {
    } else {
      EventWalks(k, events[0], k.oms.side, tick);
      BatchWalks(HandleVenueEvent(k, events[0], k.oms.side, tick), events[1..], tick);
    }
  }

  lemma CancelWalks(cfg: Config, c: Kernel, tick: MarketTick)
    requires Walks(c)
    ensures Walks(CancelStep(cfg, c, tick))
  {
    hide WalkOf, CancelSent;
    if WantsCancel(cfg, c, tick) {
      TransitionWalks(c.(gw := CancelSent(c.gw, tick.receiveTs).0, oms := CancelRequested(c.oms).0),
                      tick.receiveTs, c.oms.state, c.oms.state, PendingCancel, c.oms.side);
    }
  }

  lemma VenuePhaseWalks(cfg: Config, k: Kernel, tick: MarketTick)
    requires Walks(k)
    ensures Walks(VenuePhase(cfg, k, tick))
  {
    hide Polled, HandleBatch, WalkOf, EmitTransition, CancelSent, Accounting.Marked;
    BatchWalks(BeforeBatch(k, tick), Polled(k.gw, tick).1.events, tick);
    var c := ClearSubmitTs(Poll(k, tick));
    assert Walks(c);
    CancelWalks(cfg, c, tick);
  }

  lemma SendWalks(cfg: Config, k: Kernel, id: int, req: OrderRequest, tick: MarketTick, at: OrderState)
    requires OrderInv(k.oms) && k.oms.state == PendingNewAck
    requires WalkOf(k.journal) == AtState(at) && (at == Idle || Terminal(at))
    ensures Walks(SendStep(cfg, k, id, req, tick))
  {
    hide WalkOf, HandleVenueEvent, NewSent, OrderInv;
    TransitionWalks(k.(counters := k.counters.(localSubmissions := k.counters.localSubmissions + 1)),
                    tick.receiveTs, at, Idle, PendingNewAck, req.side);
    var posted := Posted(k, tick.receiveTs, req.side);
    var gw := NewSent(posted.gw, RequestOf(cfg, id, req, tick)).0;
    EventWalks(posted.(gw := gw), VenueEvent(NewReject, tick.receiveTs, 0, 0, 0), req.side, tick);
  }

  lemma SignalWalks(cfg: Config, k: Kernel, order: OrderRequest, tick: MarketTick)
    requires Walks(k)
    ensures Walks(SignalStep(cfg, k, order, tick))
  {
    hide WalkOf, SendStep;
    var seen := Signalled(k);
    var gate := Evaluate(cfg.limit, k.acct.netQty, order);
    if gate.accepted {
      var req := Priced(cfg, order, tick);
      var (oms, local) := Submitted(seen.oms, seen.nextClientId, req.side, req.limitPrice, req.quantity);
      if local {
        SendWalks(cfg, Entered(seen, oms),
                  seen.nextClientId, req, tick, k.oms.state);
      }
    } else {
      Appended(k.journal, TradeEvent(tick.receiveTs, 0, order.quantity, RiskReject, order.side, gate.reason));
    }
  }

  lemma TickWalks(cfg: Config, k: Kernel, input: Input)
    requires Walks(k)
    ensures Walks(TickStep(cfg, k, input))
  {
    hide VenuePhase, SignalStep, WalkOf, OrderInv;
    VenuePhaseWalks(cfg, k, input.tick);
    var v := VenuePhase(cfg, k, input.tick);
    SignalWalks(cfg, Timed(v),
                input.decision.order, input.tick);
  }

  /** In every run the transitions in the journal form one legal walk that ends in the state the
      order manager is in. */
  lemma {:induction false} JournalIsLegalWalk(cfg: Config, inputs: seq<Input>)
    ensures WalkOf(Run(cfg, inputs).journal) == AtState(Run(cfg, inputs).oms.state)
    ensures OrderInv(Run(cfg, inputs).oms)
  {
    hide TickStep, OrderInv;
    if inputs == [] {
      LifecycleInvariant([]);
    } else {
      JournalIsLegalWalk(cfg, inputs[..|inputs| - 1]);
      TickWalks(cfg, Run(cfg, inputs[..|inputs| - 1]), inputs[|inputs| - 1]);
    }
  }
}
