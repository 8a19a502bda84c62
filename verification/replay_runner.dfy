/** The tick loop of src/replay_runner.cpp. */
module Replay {
  import opened Types
  import opened OrderManagement
  import opened Execution
  import opened VenueGateway
  import opened Risk
  import Accounting

  datatype Config = Config(
    style: Style, cancelAfter: int, limit: int,
    newAckLatency: int, cancelSendLatency: int, cancelLatency: int)

  /** A tick together with what the strategy makes of it. */
  datatype Input = Input(tick: MarketTick, decision: StrategyDecision)

  datatype Counters = Counters(
    strategySignals: int, localSubmissions: int, gatewaySubmissions: int,
    riskRejects: int, venueRejects: int, invalidVenueEvents: int, fills: int,
    batchOverflows: int, wrongState: int, wrongOrder: int, invalidQuantity: int, invalidVenueOrderId: int)

  /** How often `record` has been called on each latency collector. */
  datatype Samples = Samples(
    strategy: nat, risk: nat, execution: nat, accounting: nat, eventSink: nat, endToEnd: nat)

  /** Everything the loop carries from one tick to the next. */
  datatype Kernel = Kernel(
    acct: Accounting.Account, gw: Gateway, oms: ManagedOrder,
    nextClientId: int, passiveSubmitTs: int,
    counters: Counters, samples: Samples, journal: seq<TradeEvent>)

  const ZERO_COUNTERS := Counters(0, 0, 0, 0, 0, 0, 0, 0, 0, 0, 0, 0)
  const NO_SAMPLES := Samples(0, 0, 0, 0, 0, 0)

  function Initial(cfg: Config): Kernel {
    Kernel(Accounting.FLAT, Open(cfg.newAckLatency, cfg.cancelSendLatency, cfg.cancelLatency), IDLE_ORDER,
           1, -1, ZERO_COUNTERS, NO_SAMPLES, [])
  }

  /** The numeric value of an order state, as journal records carry it. */
  function Code(s: OrderState): int {
    match s
    case Idle => 0 case PendingNewAck => 1 case Acked => 2 case PartiallyFilled => 3 case PendingCancel => 4
    case Filled => 5 case Canceled => 6 case Rejected => 7 case Expired => 8
  }

  // ---------------------------------------------------------------------------
  // Specification functions, one per lambda and phase of the loop
  // ---------------------------------------------------------------------------

  function Emit(k: Kernel, e: TradeEvent): Kernel {
    k.(journal := k.journal + [e], samples := k.samples.(eventSink := k.samples.eventSink + 1))
  }

  function Transition(ts: int, from: OrderState, to: OrderState, side: Side): TradeEvent {
    TradeEvent(ts, Code(from), Code(to), OmsTransition, side, None)
  }

  function EmitTransition(k: Kernel, ts: int, from: OrderState, to: OrderState, side: Side): Kernel {
    if from == to then k else Emit(k, Transition(ts, from, to, side))
  }

  function FillRecordOf(f: Types.Fill): TradeEvent {
    TradeEvent(f.ts, f.price, f.quantity, FillRecord, f.side, None)
  }

  function HandleFill(k: Kernel, f: Types.Fill, tick: MarketTick): Kernel {
    if f.quantity <= 0 then k
    else
      var booked := k.(acct := Accounting.Marked(Accounting.Filled(k.acct, f), Mid(tick)),
                       samples := k.samples.(accounting := k.samples.accounting + 1));
      var told := Emit(booked, FillRecordOf(f));
      told.(counters := told.counters.(fills := told.counters.fills + 1))
  }

  function EmitVenueReject(k: Kernel, ts: int, qty: int, side: Side, reason: RejectReason): Kernel {
    Emit(k.(counters := k.counters.(venueRejects := k.counters.venueRejects + 1)),
         TradeEvent(ts, 0, qty, VenueReject, side, reason))
  }

  function CountRefusal(c: Counters, outcome: Outcome): Counters {
    var d := c.(invalidVenueEvents := c.invalidVenueEvents + 1);
    match outcome
    case WrongState => d.(wrongState := d.wrongState + 1)
    case WrongOrder => d.(wrongOrder := d.wrongOrder + 1)
    case InvalidQuantity => d.(invalidQuantity := d.invalidQuantity + 1)
    case InvalidVenueOrderId => d.(invalidVenueOrderId := d.invalidVenueOrderId + 1)
    case Applied => d
  }

  function HandleVenueEvent(k: Kernel, e: VenueEvent, fallback: Side, tick: MarketTick): Kernel {
    var from := k.oms.state;
    var side := if from == Idle then fallback else k.oms.side;
    var h := OnEvent(k.oms, e);
    if h.outcome != Applied then k.(oms := h.order, counters := CountRefusal(k.counters, h.outcome))
    else
      var moved := EmitTransition(k.(oms := h.order), e.ts, from, h.order.state, side);
      var booked := HandleFill(moved, h.fill, tick);
      if e.kind.NewReject? then EmitVenueReject(booked, e.ts, h.order.orderQty, side, NewRejectedByVenue)
      else if e.kind.CancelReject? then EmitVenueReject(booked, e.ts, h.order.leavesQty, side, CancelRejectedByVenue)
      else booked
  }

  /** Any event in any state: a refused one is counted once in total and once under its reason, and nothing
      else changes; an applied one is not counted as refused. */
  lemma RefusalsCounted(k: Kernel, e: VenueEvent, fallback: Side, tick: MarketTick)
    ensures var m, why := HandleVenueEvent(k, e, fallback, tick), OnEvent(k.oms, e).outcome;
      && m.counters.wrongState == k.counters.wrongState + One(why == WrongState)
      && m.counters.wrongOrder == k.counters.wrongOrder + One(why == WrongOrder)
      && m.counters.invalidQuantity == k.counters.invalidQuantity + One(why == Outcome.InvalidQuantity)
      && m.counters.invalidVenueOrderId == k.counters.invalidVenueOrderId + One(why == InvalidVenueOrderId)
      && m.counters.invalidVenueEvents == k.counters.invalidVenueEvents + One(why != Applied)
      && (why != Applied ==> m == k.(counters := m.counters) && m.counters.fills == k.counters.fills
                             && m.counters.venueRejects == k.counters.venueRejects)
  {
    hide Verdict, Advance, Accounting.Filled, Accounting.Marked, Mid;
  }

  function HandleBatch(k: Kernel, events: seq<VenueEvent>, tick: MarketTick): Kernel
    decreases |events|
  {
    if events == [] then k
    else HandleBatch(HandleVenueEvent(k, events[0], k.oms.side, tick), events[1..], tick)
  }

  /** Mark and let the venue act. */
  function BeforeBatch(k: Kernel, tick: MarketTick): Kernel {
    var (gw, batch) := Polled(k.gw, tick);
    k.(acct := Accounting.Marked(k.acct, Mid(tick)), gw := gw,
       counters := k.counters.(batchOverflows := k.counters.batchOverflows + batch.overflow),
       samples := k.samples.(execution := k.samples.execution + 1))
  }

  /** Then handle what it says. */
  function Poll(k: Kernel, tick: MarketTick): Kernel {
    HandleBatch(BeforeBatch(k, tick), Polled(k.gw, tick).1.events, tick)
  }

  function ClearSubmitTs(k: Kernel): Kernel {
    if k.oms.state == OrderState.Filled || k.oms.state == Canceled || k.oms.state == OrderState.Expired
    then k.(passiveSubmitTs := -1) else k
  }

  predicate WantsCancel(cfg: Config, k: Kernel, tick: MarketTick) {
    && cfg.style == Passive
    && (k.oms.state == Acked || k.oms.state == PartiallyFilled)
    && k.passiveSubmitTs >= 0
    && tick.receiveTs - k.passiveSubmitTs >= cfg.cancelAfter
  }

  /** `submit_cancel_request`: the gateway must take the cancel before the order manager moves. */
  function CancelStep(cfg: Config, k: Kernel, tick: MarketTick): Kernel {
    if WantsCancel(cfg, k, tick) && CancelSent(k.gw, tick.receiveTs).1 then
      EmitTransition(k.(gw := CancelSent(k.gw, tick.receiveTs).0, oms := CancelRequested(k.oms).0),
                     tick.receiveTs, k.oms.state, PendingCancel, k.oms.side)
    else k
  }

  function Priced(cfg: Config, req: OrderRequest, tick: MarketTick): OrderRequest {
    if cfg.style == Passive
    then req.(limitPrice := if req.side == Buy then tick.bidPrice else tick.askPrice) else req
  }

  function RequestOf(cfg: Config, id: int, req: OrderRequest, tick: MarketTick): NewOrder {
    NewOrder(id, req.side, req.quantity, req.limitPrice, cfg.style, tick.receiveTs)
  }

  /** A new order counted and announced, about to be sent. */
  function Posted(k: Kernel, ts: int, side: Side): Kernel {
    var counted := k.(counters := k.counters.(localSubmissions := k.counters.localSubmissions + 1));
    var moved := EmitTransition(counted, ts, Idle, PendingNewAck, side);
    moved.(counters := moved.counters.(gatewaySubmissions := moved.counters.gatewaySubmissions + 1))
  }

  /** Send an order the order manager has taken; a refusal is fed back as a venue reject. */
  function SendStep(cfg: Config, k: Kernel, id: int, req: OrderRequest, tick: MarketTick): Kernel {
    var posted := Posted(k, tick.receiveTs, req.side);
    var (gw, ok) := NewSent(posted.gw, RequestOf(cfg, id, req, tick));
    if !ok then HandleVenueEvent(posted.(gw := gw), VenueEvent(NewReject, tick.receiveTs, 0, 0, 0), req.side, tick)
    else posted.(gw := gw, passiveSubmitTs := if cfg.style == Passive then tick.receiveTs else posted.passiveSubmitTs)
  }

  /** The order manager has been asked; a client id is used up whatever it said. */
  function Entered(k: Kernel, oms: ManagedOrder): Kernel {
    k.(nextClientId := k.nextClientId + 1, oms := oms, samples := k.samples.(execution := k.samples.execution + 1))
  }

  function SubmitStep(cfg: Config, k: Kernel, order: OrderRequest, tick: MarketTick): Kernel {
    var req := Priced(cfg, order, tick);
    var (oms, local) := Submitted(k.oms, k.nextClientId, req.side, req.limitPrice, req.quantity);
    var entered := Entered(k, oms);
    if local then SendStep(cfg, entered, k.nextClientId, req, tick) else entered
  }

  function Signalled(k: Kernel): Kernel {
    k.(counters := k.counters.(strategySignals := k.counters.strategySignals + 1),
       samples := k.samples.(risk := k.samples.risk + 1))
  }

  function SignalStep(cfg: Config, k: Kernel, order: OrderRequest, tick: MarketTick): Kernel {
    var gate := Evaluate(cfg.limit, k.acct.netQty, order);
    var seen := Signalled(k);
    if gate.accepted then SubmitStep(cfg, seen, order, tick)
    else Emit(seen.(counters := seen.counters.(riskRejects := seen.counters.riskRejects + 1)),
              TradeEvent(tick.receiveTs, 0, order.quantity, RiskReject, order.side, gate.reason))
  }

  function Timed(k: Kernel): Kernel {
    k.(samples := k.samples.(strategy := k.samples.strategy + 1, endToEnd := k.samples.endToEnd + 1))
  }

  function Decide(cfg: Config, k: Kernel, input: Input): Kernel {
    if input.decision.hasOrder then SignalStep(cfg, Timed(k), input.decision.order, input.tick) else Timed(k)
  }

  /** The part of a tick that comes before the strategy is asked. */
  function VenuePhase(cfg: Config, k: Kernel, tick: MarketTick): Kernel {
    CancelStep(cfg, ClearSubmitTs(Poll(k, tick)), tick)
  }

  function TickStep(cfg: Config, k: Kernel, input: Input): Kernel {
    Decide(cfg, VenuePhase(cfg, k, input.tick), input)
  }

  /** The kernel after a whole run. */
  function Run(cfg: Config, inputs: seq<Input>): Kernel {
    if inputs == [] then Initial(cfg)
    else TickStep(cfg, Run(cfg, inputs[..|inputs| - 1]), inputs[|inputs| - 1])
  }

  /** Does the loop go on with tick `n`? It stops at the end and at the first tick of a second symbol. */
  predicate Continues(inputs: seq<Input>, n: nat) {
    n < |inputs| && inputs[n].tick.symbolId == inputs[0].tick.symbolId
  }

  /** The tick at which a loop that has reached tick `n` stops. */
  function SymbolRun(inputs: seq<Input>, n: nat): (stop: nat)
    requires n <= |inputs|
    ensures n <= stop <= |inputs| && !Continues(inputs, stop)
    ensures forall i :: n <= i < stop ==> inputs[i].tick.symbolId == inputs[0].tick.symbolId
    ensures stop < |inputs| ==> inputs[stop].tick.symbolId != inputs[0].tick.symbolId
    ensures forall i :: n <= i < stop ==> Continues(inputs, i)
    decreases |inputs| - n
  {
    if Continues(inputs, n) then SymbolRun(inputs, n + 1) else n
  }

  lemma StopsAt(inputs: seq<Input>, n: nat)
    requires n <= |inputs| && !Continues(inputs, n) && forall i :: 0 <= i < n ==> Continues(inputs, i)
    ensures SymbolRun(inputs, 0) == n
  {
    var stop := SymbolRun(inputs, 0);
    assert !Continues(inputs, stop);
  }

  /** The strategy of src/strategy.cpp: buy a cheap ask, sell a dear bid. */
  function Threshold(buyBelow: int, sellAbove: int, qty: int, tick: MarketTick): StrategyDecision {
    if tick.askPrice <= buyBelow then StrategyDecision(true, OrderRequest(Buy, qty, 0))
    else if tick.bidPrice >= sellAbove then StrategyDecision(true, OrderRequest(Sell, qty, 0))
    else StrategyDecision(false, OrderRequest(Buy, 0, 0))
  }

  /** The values `run_replay` is built with. */
  function ReplayConfig(style: Style, cancelAfter: int): Config {
    Config(style, cancelAfter, 200, 200, 200, 1000)
  }

  function ReplayStrategy(tick: MarketTick): StrategyDecision {
    Threshold(100000, 120000, 50, tick)
  }

  /** The repository's strategy: fifty units, bought at 10 or less or else sold at 12 or more. */
  lemma StrategyDecides(tick: MarketTick)
    ensures var d := ReplayStrategy(tick);
      && (d.hasOrder <==> tick.askPrice <= 100000 || tick.bidPrice >= 120000)
      && (d.hasOrder ==> d.order.quantity == 50 && d.order.limitPrice == 0)
      && (d.hasOrder ==> (d.order.side == Buy <==> tick.askPrice <= 10 * PRICE_SCALE))
  {
  }

  // ---------------------------------------------------------------------------
  // The synchronous runner
  // ---------------------------------------------------------------------------

  /** A sink answers each event, knowing what it was offered before. */
  type Sink = seq<TradeEvent> -> bool

  function Persisted(sink: Sink, offered: seq<TradeEvent>): nat {
    if offered == [] then 0
    else Persisted(sink, offered[..|offered| - 1]) + (if sink(offered) then 1 else 0)
  }

  /** What a sink says to its `i`-th call. */
  predicate Says(sink: Sink, offered: seq<TradeEvent>, i: nat)
    requires i <= |offered|
  {
    sink(offered[..i])
  }

  /** The calls that a sink answers with success, numbered from 1. */
  ghost function Accepted(sink: Sink, offered: seq<TradeEvent>): set<nat> {
    set i: nat | 1 <= i <= |offered| && Says(sink, offered, i)
  }

  lemma SaidBefore(sink: Sink, offered: seq<TradeEvent>, i: nat)
    requires i < |offered|
    ensures Says(sink, offered, i) == Says(sink, offered[..|offered| - 1], i)
  {
    assert offered[..|offered| - 1][..i] == offered[..i];
  }

  lemma SaidLast(sink: Sink, offered: seq<TradeEvent>)
    ensures Says(sink, offered, |offered|) == sink(offered)
  {
    assert offered[..|offered|] == offered;
  }

  lemma AcceptedGrows(sink: Sink, offered: seq<TradeEvent>)
    requires offered != []
    ensures var prior := Accepted(sink, offered[..|offered| - 1]);
      |Accepted(sink, offered)| == |prior| + (if sink(offered) then 1 else 0)
  {
    var n := |offered|;
    var prior := offered[..n - 1];
    assert offered[..n] == offered;
    hide Says;
    forall i | 1 <= i < n
      ensures Says(sink, offered, i) == Says(sink, prior, i)
    {
      SaidBefore(sink, offered, i);
    }
    assert Says(sink, offered, n) == sink(offered) by { SaidLast(sink, offered); }
    assert Accepted(sink, offered) == Accepted(sink, prior) + (if sink(offered) then {n} else {});
  }

  lemma {:induction false} PersistedIsAccepted(sink: Sink, offered: seq<TradeEvent>)
    ensures Persisted(sink, offered) == |Accepted(sink, offered)| <= |offered|
  {
    if offered == [] {
      assert Accepted(sink, offered) == {};
    } else {
      PersistedIsAccepted(sink, offered[..|offered| - 1]);
      AcceptedGrows(sink, offered);
      hide Accepted;
    }
  }

  lemma {:induction false} AllPersisted(sink: Sink, offered: seq<TradeEvent>)
    ensures Persisted(sink, offered) <= |offered|
    ensures Persisted(sink, offered) == |offered| <==> forall i :: 1 <= i <= |offered| ==> Says(sink, offered, i)
  {
    hide Says;
    if offered == [] {
    } else {
      var n := |offered|;
      var prior := offered[..n - 1];
      AllPersisted(sink, prior);
      SaidLast(sink, offered);
      forall i | 1 <= i < n && Says(sink, offered, i)
        ensures Says(sink, prior, i)
      {
        SaidBefore(sink, offered, i);
      }
      forall i | 1 <= i < n && Says(sink, prior, i)
        ensures Says(sink, offered, i)
      {
        SaidBefore(sink, offered, i);
      }
    }
  }

  datatype RunError = NoTicks | ManySymbols

  /** What a run gives back, or why it failed and which records the sink had been offered by then. */
  datatype RunResult =
    | Done(kernel: Kernel, persisted: nat, sinkFailed: bool, latencyOverflow: bool)
    | Failed(error: RunError, offered: seq<TradeEvent>)

  /** Does some latency collector get more samples than `run_replay` sizes it for? */
  predicate LatencyOverflow(n: Samples, ticks: nat) {
    || n.strategy > ticks || n.risk > ticks || n.execution > 2 * ticks || n.accounting > ticks
    || n.eventSink > 4 * ticks || n.endToEnd > ticks
  }

  function Inputs(strategy: MarketTick -> StrategyDecision, ticks: seq<MarketTick>): (r: seq<Input>)
    ensures |r| == |ticks|
    ensures forall i :: 0 <= i < |ticks| ==> r[i].tick == ticks[i] && r[i].decision == strategy(ticks[i])
  {
    seq(|ticks|, i requires 0 <= i < |ticks| => Input(ticks[i], strategy(ticks[i])))
  }

  class Runner {
    const cfg: Config
    const sink: Sink
    const accounting: Accounting.AccountingEngine
    const gateway: MockVenueGateway
    const orders: OrderManager
    var nextClientId: int
    var passiveSubmitTs: int
    var counters: Counters
    var samples: Samples
    var journal: seq<TradeEvent>
    var persisted: nat
    var sinkFailed: bool

    ghost predicate Valid()
      reads this
    {
      && persisted == Persisted(sink, journal)
      && sinkFailed == (persisted < |journal|)
      && persisted <= |journal|
    }

    ghost function State(): Kernel
      reads this, accounting, gateway, gateway.execution, orders
    {
      Kernel(accounting.State(), gateway.State(), orders.order, nextClientId, passiveSubmitTs,
             counters, samples, journal)
    }

    constructor (cfg: Config, sink: Sink)
      ensures this.cfg == cfg && this.sink == sink
      ensures Valid() && State() == Initial(cfg)
      ensures fresh(accounting) && fresh(gateway) && fresh(gateway.execution) && fresh(orders)
    {
      this.cfg := cfg;
      this.sink := sink;
      accounting := new Accounting.AccountingEngine();
      gateway := new MockVenueGateway(cfg.newAckLatency, cfg.cancelSendLatency, cfg.cancelLatency);
      orders := new OrderManager();
      nextClientId, passiveSubmitTs := 1, -1;
      counters, samples, journal := ZERO_COUNTERS, NO_SAMPLES, [];
      persisted, sinkFailed := 0, false;
    }

    method EmitEvent(e: TradeEvent)
      requires Valid()
      modifies this
      ensures Valid() && State() == Emit(old(State()), e)
    {
      journal := journal + [e];
      assert journal[..|journal| - 1] == old(journal);
      if sink(journal) {
        persisted := persisted + 1;
      } else {
        sinkFailed := true;
      }
      samples := samples.(eventSink := samples.eventSink + 1);
    }

    method RecordTransition(ts: int, from: OrderState, to: OrderState, side: Side)
      requires Valid()
      modifies this
      ensures Valid() && State() == EmitTransition(old(State()), ts, from, to, side)
    {
      if from != to {
        EmitEvent(Transition(ts, from, to, side));
      }
    }

    method BookFill(f: Types.Fill, tick: MarketTick)
      requires Valid()
      modifies this, accounting
      ensures Valid() && State() == HandleFill(old(State()), f, tick)
    {
      hide Accounting.Filled, Accounting.Marked, Emit;
      if f.quantity <= 0 {
        return;
      }
      var booked := accounting.ApplyFill(f);
      accounting.MarkToMarket(Mid(tick));
      samples := samples.(accounting := samples.accounting + 1);
      EmitEvent(FillRecordOf(f));
      counters := counters.(fills := counters.fills + 1);
    }

    method RecordVenueReject(ts: int, qty: int, side: Side, reason: RejectReason)
      requires Valid()
      modifies this
      ensures Valid() && State() == EmitVenueReject(old(State()), ts, qty, side, reason)
    {
      counters := counters.(venueRejects := counters.venueRejects + 1);
      EmitEvent(TradeEvent(ts, 0, qty, VenueReject, side, reason));
    }

    method OnVenueEvent(e: VenueEvent, fallback: Side, tick: MarketTick)
      requires Valid()
      modifies this, accounting, orders
      ensures Valid() && State() == HandleVenueEvent(old(State()), e, fallback, tick)
    {
      hide OnEvent, HandleFill, EmitTransition, EmitVenueReject, CountRefusal;
      var from := orders.order.state;
      var side := if from == Idle then fallback else orders.order.side;
      var outcome, fill := orders.OnVenueEvent(e);
      if outcome == Applied {
        RecordTransition(e.ts, from, orders.order.state, side);
        BookFill(fill, tick);
        if e.kind.NewReject? {
          RecordVenueReject(e.ts, orders.order.orderQty, side, NewRejectedByVenue);
        } else if e.kind.CancelReject? {
          RecordVenueReject(e.ts, orders.order.leavesQty, side, CancelRejectedByVenue);
        }
        return;
      }
      counters := CountRefusal(counters, outcome);
    }

    method PollVenue(tick: MarketTick)
      requires Valid()
      modifies this, accounting, orders, gateway, gateway.execution
      ensures Valid() && State() == Poll(old(State()), tick)
    {
      hide Polled, HandleVenueEvent;
      accounting.MarkToMarket(Mid(tick));
      var batch := gateway.OnTick(tick);
      counters := counters.(batchOverflows := counters.batchOverflows + batch.overflow);
      samples := samples.(execution := samples.execution + 1);
      ghost var start := State();
      var i := 0;
      while i < |batch.events|
        invariant 0 <= i <= |batch.events|
        invariant Valid()
        invariant HandleBatch(State(), batch.events[i..], tick) == HandleBatch(start, batch.events, tick)
      {
        assert batch.events[i..][1..] == batch.events[i + 1..];
        OnVenueEvent(batch.events[i], orders.order.side, tick);
        i := i + 1;
      }
    }

    method MaybeCancel(tick: MarketTick)
      requires Valid()
      modifies this, orders, gateway
      ensures Valid() && State() == CancelStep(cfg, old(State()), tick)
    {
      if cfg.style == Passive && (orders.order.state == Acked || orders.order.state == PartiallyFilled)
         && passiveSubmitTs >= 0 && tick.receiveTs - passiveSubmitTs >= cfg.cancelAfter {
        var from, side := orders.order.state, orders.order.side;
        var sent := gateway.SendCancel(tick.receiveTs);
        if sent {
          var asked := orders.RequestCancel();
          if asked {
            RecordTransition(tick.receiveTs, from, PendingCancel, side);
          }
        }
      }
    }

    method SendOrder(id: int, req: OrderRequest, tick: MarketTick)
      requires Valid()
      modifies this, accounting, orders, gateway
      ensures Valid() && State() == SendStep(cfg, old(State()), id, req, tick)
    {
      hide NewSent, HandleVenueEvent, EmitTransition;
      counters := counters.(localSubmissions := counters.localSubmissions + 1);
      RecordTransition(tick.receiveTs, Idle, PendingNewAck, req.side);
      counters := counters.(gatewaySubmissions := counters.gatewaySubmissions + 1);
      var accepted := gateway.SendNew(RequestOf(cfg, id, req, tick));
      if !accepted {
        OnVenueEvent(VenueEvent(NewReject, tick.receiveTs, 0, 0, 0), req.side, tick);
      } else if cfg.style == Passive {
        passiveSubmitTs := tick.receiveTs;
      }
    }

    method Submit(order: OrderRequest, tick: MarketTick)
      requires Valid()
      modifies this, accounting, orders, gateway
      ensures Valid() && State() == SubmitStep(cfg, old(State()), order, tick)
    {
      hide SendStep;
      var req := Priced(cfg, order, tick);
      var id := nextClientId;
      nextClientId := nextClientId + 1;
      var local := orders.SubmitNew(id, req.side, req.limitPrice, req.quantity);
      samples := samples.(execution := samples.execution + 1);
      if local {
        SendOrder(id, req, tick);
      }
    }

    method OnSignal(order: OrderRequest, tick: MarketTick)
      requires Valid()
      modifies this, accounting, orders, gateway
      ensures Valid() && State() == SignalStep(cfg, old(State()), order, tick)
    {
      hide SubmitStep, Evaluate;
      counters := counters.(strategySignals := counters.strategySignals + 1);
      var gate := Evaluate(cfg.limit, accounting.netQty, order);
      samples := samples.(risk := samples.risk + 1);
      if !gate.accepted {
        counters := counters.(riskRejects := counters.riskRejects + 1);
        EmitEvent(TradeEvent(tick.receiveTs, 0, order.quantity, RiskReject, order.side, gate.reason));
        return;
      }
      Submit(order, tick);
    }

    method BeforeStrategy(tick: MarketTick)
      requires Valid()
      modifies this, accounting, orders, gateway, gateway.execution
      ensures Valid() && State() == VenuePhase(cfg, old(State()), tick)
    {
      hide Poll, CancelStep;
      PollVenue(tick);
      if orders.order.state == OrderState.Filled || orders.order.state == Canceled
         || orders.order.state == OrderState.Expired {
        passiveSubmitTs := -1;
      }
      MaybeCancel(tick);
    }

    method OnInput(input: Input)
      requires Valid()
      modifies this, accounting, orders, gateway, gateway.execution
      ensures Valid() && State() == TickStep(cfg, old(State()), input)
    {
      hide VenuePhase, SignalStep;
      BeforeStrategy(input.tick);
      samples := samples.(strategy := samples.strategy + 1);
      samples := samples.(endToEnd := samples.endToEnd + 1);
      if input.decision.hasOrder {
        OnSignal(input.decision.order, input.tick);
      }
    }
  }

  /** A synchronous replay ends in the state of the whole run, or fails on empty input or on a second
      symbol; in the latter case the sink has been offered the journal of the ticks before it. */
  method RunReplay(cfg: Config, sink: Sink, strategy: MarketTick -> StrategyDecision, ticks: seq<MarketTick>)
    returns (result: RunResult)
    ensures result == Failed(NoTicks, []) <==> ticks == []
    ensures result.Failed? && result.error == ManySymbols <==>
      exists i :: 0 <= i < |ticks| && ticks[i].symbolId != ticks[0].symbolId
    ensures result.Failed? && result.error == ManySymbols ==>
      var inputs := Inputs(strategy, ticks);
      result.offered == Run(cfg, inputs[..SymbolRun(inputs, 0)]).journal
    ensures result.Done? ==>
      && result.kernel == Run(cfg, Inputs(strategy, ticks))
      && result.persisted == |Accepted(sink, result.kernel.journal)|
      && (result.sinkFailed <==> exists i :: 1 <= i <= |result.kernel.journal| && !Says(sink, result.kernel.journal, i))
      && result.latencyOverflow == LatencyOverflow(result.kernel.samples, |ticks|)
  {
    hide TickStep, Persisted, SymbolRun;
    if ticks == [] {
      return Failed(NoTicks, []);
    }
    var runner := new Runner(cfg, sink);
    ghost var inputs := Inputs(strategy, ticks);
    var i := 0;
    while i < |ticks|
      invariant 0 <= i <= |ticks|
      invariant runner.cfg == cfg && runner.sink == sink && runner.Valid()
      invariant runner.State() == Run(cfg, inputs[..i])
      invariant forall j :: 0 <= j < i ==> ticks[j].symbolId == ticks[0].symbolId && Continues(inputs, j)
      invariant fresh(runner) && fresh(runner.accounting) && fresh(runner.gateway)
      invariant fresh(runner.gateway.execution) && fresh(runner.orders)
    {
      if ticks[i].symbolId != ticks[0].symbolId {
        StopsAt(inputs, i);
        return Failed(ManySymbols, runner.journal);
      }
      runner.OnInput(Input(ticks[i], strategy(ticks[i])));
      assert inputs[..i + 1][..i] == inputs[..i];
      i := i + 1;
    }
    assert inputs[..i] == inputs;
    var kernel := Kernel(
      Accounting.Account(runner.accounting.netQty, runner.accounting.avgPrice, runner.accounting.realizedPnl,
                         runner.accounting.unrealizedPnl, runner.accounting.cash, runner.accounting.openCost,
                         runner.accounting.markPrice),
      Gateway(runner.gateway.newAckLatency, runner.gateway.cancelSendLatency, runner.gateway.nextVenueOrderId,
              runner.gateway.pendingNew, runner.gateway.activeOrder,
              Simulator(runner.gateway.execution.cancelLatency, runner.gateway.execution.resting, runner.gateway.execution.stats)),
      runner.orders.order, runner.nextClientId, runner.passiveSubmitTs, runner.counters, runner.samples, runner.journal);
    PersistedIsAccepted(sink, kernel.journal);
    AllPersisted(sink, kernel.journal);
    return Done(kernel, runner.persisted, runner.sinkFailed, LatencyOverflow(runner.samples, |ticks|));
  }
}
