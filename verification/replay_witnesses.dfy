/** Runs that break what the design documents promise. */
module ReplayWitnesses {
  import opened Types
  import opened OrderManagement
  import opened Execution
  import opened VenueGateway
  import opened Replay
  import opened ReplayAgreement
  import opened ReplayRuns
  import opened ReplayRecords

  function Quote(ts: int, bid: int, ask: int, bidQty: int, askQty: int): Input {
    var tick := MarketTick(ts, ts, bid, ask, 1, bidQty, askQty);
    Input(tick, ReplayStrategy(tick))
  }

  // ---------------------------------------------------------------------------
  // More than four journal records per tick
  // ---------------------------------------------------------------------------

  /** An ask the strategy wants, with a single unit behind it, every microsecond. */
  function ThinQuote(n: int): Input {
    Quote(1000 * n, 99900, 100000, 1, 1)
  }

  function ThinFeed(n: nat): seq<Input> {
    if n == 0 then [] else ThinFeed(n - 1) + [ThinQuote(n)]
  }

  /** Records after `n` ticks of it: five on a tick that fills, three on one that is rejected. */
  function ThinRecords(n: nat): nat {
    if n <= 1 then n else ThinRecords(n - 1) + (if (n - 1) % 3 == 0 then 3 else 5)
  }

  ghost predicate Waiting(k: Kernel, n: nat) {
    && RunInv(ReplayConfig(Aggressive, 3000), k)
    && k.gw.newAckLatency == 200
    && k.gw.pending == PendingNew(true, NewOrder(n, Buy, 50, 0, Aggressive, 1000 * n), 1000 * n + 200, n % 3 == 0)
    && k.nextClientId == n + 1
    && 0 <= k.acct.netQty <= n
    && |k.journal| == ThinRecords(n)
  }

  lemma ThinRejectGateway(g: Gateway, tick: MarketTick)
    requires AckDue(g, tick) && g.pending.shouldReject
    ensures Polled(g, tick)
      == (g.(pending := g.pending.(active := false)), Batch([VenueEvent(NewReject, tick.receiveTs, 0, 0, 0)], 0))
  {
    var e := VenueEvent(NewReject, tick.receiveTs, 0, 0, 0);
    assert [] + [e] == [e];
  }

  lemma RejectDelivered(o: ManagedOrder, ts: int)
    requires o.state == PendingNewAck
    ensures var e := VenueEvent(NewReject, ts, 0, 0, 0);
      Delivered(o, [e]).state == Rejected && BatchRecords(o, [e]) == 2 && Traded(o, [e]) == 0
  {
    assert [VenueEvent(NewReject, ts, 0, 0, 0)][1..] == [];
  }

  lemma ThinReject(k: Kernel, n: nat)
    requires Waiting(k, n) && n >= 1 && n % 3 == 0
    ensures var m := Poll(k, ThinQuote(n + 1).tick);
      && Terminal(m.oms.state) && m.nextClientId == n + 1 && m.gw.newAckLatency == 200
      && m.acct.netQty == k.acct.netQty
      && |m.journal| == |k.journal| + 2
  {
    hide Poll, Polled, Delivered, BatchRecords, Traded;
    var tick := ThinQuote(n + 1).tick;
    ThinRejectGateway(k.gw, tick);
    RejectDelivered(k.oms, tick.receiveTs);
    PollSees(ReplayConfig(Aggressive, 3000), k, tick, k.gw.(pending := k.gw.pending.(active := false)),
             [VenueEvent(NewReject, tick.receiveTs, 0, 0, 0)]);
  }

  lemma ThinGateway(g: Gateway, n: nat)
    requires GatewayInv(g) && n % 3 != 0
    requires g.pending == PendingNew(true, NewOrder(n, Buy, 50, 0, Aggressive, 1000 * n), 1000 * n + 200, false)
    ensures var tick, id := ThinQuote(n + 1).tick, g.nextVenueOrderId;
      Polled(g, tick).1 == Batch([AckEvent(tick.receiveTs, id), FillEvent(tick.receiveTs, id, 1, 100000),
                                  ExpiryEvent(tick.receiveTs, id)], 0)
    ensures Takes(g.pending.request, ThinQuote(n + 1).tick) == 1
    ensures Polled(g, ThinQuote(n + 1).tick).0.newAckLatency == g.newAckLatency
  {
    PollAggressive(g, ThinQuote(n + 1).tick);
  }

  lemma ThinFill(k: Kernel, n: nat)
    requires Waiting(k, n) && n >= 1 && n % 3 != 0
    ensures var m := Poll(k, ThinQuote(n + 1).tick);
      && Terminal(m.oms.state) && m.nextClientId == n + 1 && m.gw.newAckLatency == 200
      && m.acct.netQty == k.acct.netQty + 1
      && |m.journal| == |k.journal| + 4
  {
    hide Poll, Polled, Delivered, AllTaken, Traded, BatchRecords, Takes;
    var tick, id := ThinQuote(n + 1).tick, k.gw.nextVenueOrderId;
    ThinGateway(k.gw, n);
    PollAggressive(k.gw, tick);
    var (g, b) := Polled(k.gw, tick);
    AggressiveTold(k.oms, k.gw.pending.request, tick, id);
    AggressiveDelivers(k.oms, k.gw.pending.request, tick, id);
    PollSees(ReplayConfig(Aggressive, 3000), k, tick, g, b.events);
  }

  /** The venue half of a thin tick. */
  lemma ThinPoll(k: Kernel, n: nat)
    requires Waiting(k, n) && n >= 1
    ensures var m := Poll(k, ThinQuote(n + 1).tick);
      && RunInv(ReplayConfig(Aggressive, 3000), m)
      && Terminal(m.oms.state) && m.nextClientId == n + 1 && m.gw.newAckLatency == 200
      && k.acct.netQty <= m.acct.netQty <= k.acct.netQty + 1
      && |m.journal| == |k.journal| + (if n % 3 == 0 then 2 else 4)
  {
    hide Poll;
    if n % 3 == 0 {
      ThinReject(k, n);
    } else {
      ThinFill(k, n);
    }
    hide RunInv;
    PollRuns(ReplayConfig(Aggressive, 3000), k, ThinQuote(n + 1).tick);
  }

  lemma TimerKeeps(cfg: Config, k: Kernel, m: Kernel)
    requires RunInv(cfg, k) && m == k.(samples := m.samples, passiveSubmitTs := m.passiveSubmitTs)
    ensures RunInv(cfg, m)
  {
  }

  /** The strategy half of a thin tick, with nothing live. */
  lemma ThinDecide(k: Kernel, n: nat)
    requires RunInv(ReplayConfig(Aggressive, 3000), k) && !Live(k.oms.state)
    requires k.gw.newAckLatency == 200 && k.nextClientId == n && 1 <= n <= 101 && 0 <= k.acct.netQty <= n
    requires |k.journal| + 1 == ThinRecords(n)
    ensures Waiting(Decide(ReplayConfig(Aggressive, 3000), k, ThinQuote(n)), n)
  {
    hide SignalStep, RunInv, ThinRecords;
    var cfg, input := ReplayConfig(Aggressive, 3000), ThinQuote(n);
    var timed := Timed(k);
    TimerKeeps(cfg, k, timed);
    SubmitsFresh(cfg, timed, input.decision.order, input.tick);
    SignalRuns(cfg, timed, input.decision.order, input.tick);
    assert TruncMod(n, 3) == 0 <==> n % 3 == 0;
  }

  lemma AggressiveVenuePhase(cfg: Config, k: Kernel, tick: MarketTick)
    requires cfg.style == Aggressive
    ensures VenuePhase(cfg, k, tick) == Poll(k, tick).(passiveSubmitTs := VenuePhase(cfg, k, tick).passiveSubmitTs)
  {
    hide Poll;
  }

  lemma ThinTick(k: Kernel, n: nat)
    requires Waiting(k, n) && 1 <= n <= 100
    ensures Waiting(TickStep(ReplayConfig(Aggressive, 3000), k, ThinQuote(n + 1)), n + 1)
  {
    hide Poll, VenuePhase, Decide, RunInv;
    var cfg, tick := ReplayConfig(Aggressive, 3000), ThinQuote(n + 1).tick;
    ThinPoll(k, n);
    AggressiveVenuePhase(cfg, k, tick);
    TimerKeeps(cfg, Poll(k, tick), VenuePhase(cfg, k, tick));
    ThinDecide(VenuePhase(cfg, k, tick), n + 1);
  }

  /** On its first tick a run has nothing to poll. */
  lemma FirstPoll(cfg: Config, tick: MarketTick)
    ensures var m := Poll(Initial(cfg), tick);
      && RunInv(cfg, m) && m.oms == IDLE_ORDER && m.gw == Initial(cfg).gw
      && m.passiveSubmitTs == -1 && m.nextClientId == 1 && m.acct.netQty == 0 && m.journal == []
  {
    hide Poll, RunInv, Polled, GatewayInv;
    var k := Initial(cfg);
    InitialRuns(cfg);
    RunParts(cfg, k);
    PollIdle(k.gw, tick);
    PollSees(cfg, k, tick, k.gw, []);
    PollRuns(cfg, k, tick);
  }

  lemma FirstThinTick()
    ensures Waiting(TickStep(ReplayConfig(Aggressive, 3000), Initial(ReplayConfig(Aggressive, 3000)), ThinQuote(1)), 1)
  {
    hide Poll, VenuePhase, Decide, RunInv;
    var cfg, tick := ReplayConfig(Aggressive, 3000), ThinQuote(1).tick;
    FirstPoll(cfg, tick);
    AggressiveVenuePhase(cfg, Initial(cfg), tick);
    TimerKeeps(cfg, Poll(Initial(cfg), tick), VenuePhase(cfg, Initial(cfg), tick));
    ThinDecide(VenuePhase(cfg, Initial(cfg), tick), 1);
  }

  lemma {:induction false} ThinRun(n: nat)
    requires 1 <= n <= 100
    ensures Waiting(Run(ReplayConfig(Aggressive, 3000), ThinFeed(n)), n)
    ensures |ThinFeed(n)| == n
  {
    hide TickStep, Waiting, Initial, ThinQuote;
    var cfg := ReplayConfig(Aggressive, 3000);
    assert ThinFeed(n)[..|ThinFeed(n)| - 1] == ThinFeed(n - 1);
    if n == 1 {
      FirstThinTick();
    } else {
      ThinRun(n - 1);
      ThinTick(Run(cfg, ThinFeed(n - 1)), n - 1);
    }
  }

  /** Nine ticks write 37 journal records, one more than four per tick allows for. */
  lemma JournalOutrunsItsCollector()
    ensures |ThinFeed(9)| == 9
    ensures |Run(ReplayConfig(Aggressive, 3000), ThinFeed(9)).journal| == 37 > 4 * 9
  {
    hide Run, RunInv, ThinQuote;
    ThinRun(9);
    assert ThinRecords(3) == 11;
    assert ThinRecords(6) == 24;
    assert ThinRecords(9) == 37;
  }

  // ---------------------------------------------------------------------------
  // Five records on a passive tick
  // ---------------------------------------------------------------------------

  const PASSIVE := ReplayConfig(Passive, 0)

  lemma IdleVenuePhase(cfg: Config, k: Kernel, tick: MarketTick)
    requires Poll(k, tick).oms.state == Idle
    ensures VenuePhase(cfg, k, tick) == Poll(k, tick)
  {
    hide Poll;
  }

  lemma RunStep(cfg: Config, inputs: seq<Input>, n: nat)
    requires n < |inputs|
    ensures Run(cfg, inputs[..n + 1]) == TickStep(cfg, Run(cfg, inputs[..n]), inputs[n])
    ensures Run(cfg, inputs[..0]) == Initial(cfg)
  {
    hide TickStep, Initial;
    assert inputs[..n + 1][..n] == inputs[..n];
  }

  /** A falling market: each ask meets the bid, and so the resting order, of the tick before. */
  function FallingQuote(n: int, askQty: int): Input {
    Quote(1000 * n, 100000 - 100 * n, 100100 - 100 * n, 0, askQty)
  }

  function Bought(n: nat): int {
    if n % 3 == 0 then 0 else 50
  }

  /** Order `n` waits for its acknowledgement, at position `net`. */
  ghost predicate Falling(k: Kernel, n: nat, net: int) {
    && RunInv(PASSIVE, k)
    && k.gw.newAckLatency == 200
    && k.gw.pending ==
         PendingNew(true, NewOrder(n, Buy, 50, 100000 - 100 * n, Passive, 1000 * n), 1000 * n + 200, n % 3 == 0)
    && k.nextClientId == n + 1 && k.passiveSubmitTs == 1000 * n && k.acct.netQty == net
  }

  lemma PolledKeepsLatency(g: Gateway, tick: MarketTick)
    ensures Polled(g, tick).0.newAckLatency == g.newAckLatency
  {
    hide Placed, Ticked, CancelAsked, RefusesCancel, PushReport;
  }

  /** A venue half that ends the order leaves ids and latencies alone. */
  lemma EndedVenuePhase(cfg: Config, k: Kernel, tick: MarketTick)
    requires RunInv(cfg, k) && !StillLive(k.oms, k.gw, tick)
    ensures var m := VenuePhase(cfg, k, tick);
      && RunInv(cfg, m) && !Live(m.oms.state)
      && m.nextClientId == k.nextClientId && m.gw.newAckLatency == k.gw.newAckLatency
      && m.acct.netQty == k.acct.netQty + Sign(k.oms.side) * TickFill(k.gw, tick)
  {
    hide Poll, Polled, RunInv, StillLive, TickFill, BatchRecords, Traded, Delivered, VenueRecords, Cancelable;
    VenuePhaseRuns(cfg, k, tick);
    VenuePhaseRecords(cfg, k, tick);
    RunAgrees(cfg, k);
    VenueTold(k.oms, k.gw, tick);
    var (h, b) := Polled(k.gw, tick);
    PollSees(cfg, k, tick, h, b.events);
    PolledKeepsLatency(k.gw, tick);
  }

  lemma FallingFill(k: Kernel, n: nat, net: int)
    requires Falling(k, n, net)
    ensures var tick := FallingQuote(n + 1, 60).tick;
      !StillLive(k.oms, k.gw, tick) && TickFill(k.gw, tick) == Bought(n) && k.oms.side == Buy
  {
  }

  lemma FallingDecide(k: Kernel, n: nat, askQty: int)
    requires RunInv(PASSIVE, k) && !Live(k.oms.state)
    requires k.gw.newAckLatency == 200 && k.nextClientId == n && n >= 1 && 0 <= k.acct.netQty <= 150
    ensures Falling(Decide(PASSIVE, k, FallingQuote(n, askQty)), n, k.acct.netQty)
  {
    hide SignalStep, RunInv;
    var input := FallingQuote(n, askQty);
    var timed := Timed(k);
    TimerKeeps(PASSIVE, k, timed);
    SubmitsFresh(PASSIVE, timed, input.decision.order, input.tick);
    SignalRuns(PASSIVE, timed, input.decision.order, input.tick);
    assert TruncMod(n, 3) == 0 <==> n % 3 == 0;
  }

  lemma FallingTick(k: Kernel, n: nat, net: int)
    requires Falling(k, n, net) && 0 <= net && net + Bought(n) <= 150
    ensures Falling(TickStep(PASSIVE, k, FallingQuote(n + 1, 60)), n + 1, net + Bought(n))
  {
    hide VenuePhase, Decide, RunInv, StillLive, TickFill;
    FallingFill(k, n, net);
    EndedVenuePhase(PASSIVE, k, FallingQuote(n + 1, 60).tick);
    FallingDecide(VenuePhase(PASSIVE, k, FallingQuote(n + 1, 60).tick), n + 1, 60);
  }

  const FALLING := [
    FallingQuote(1, 60), FallingQuote(2, 60), FallingQuote(3, 60), FallingQuote(4, 60), FallingQuote(5, 60),
    FallingQuote(6, 10)]

  lemma FallingFive(k: Kernel)
    requires Falling(k, 5, 150)
    ensures FiveRecords(PASSIVE, k, FallingQuote(6, 10))
  {
    hide RunInv;
  }

  lemma FirstFalling()
    ensures Falling(TickStep(PASSIVE, Initial(PASSIVE), FallingQuote(1, 60)), 1, 0)
  {
    hide Poll, VenuePhase, Decide, RunInv;
    var tick := FallingQuote(1, 60).tick;
    FirstPoll(PASSIVE, tick);
    IdleVenuePhase(PASSIVE, Initial(PASSIVE), tick);
    FallingDecide(Poll(Initial(PASSIVE), tick), 1, 60);
  }

  /** The sixth tick of this passive run acknowledges an order, fills part of it, cancels the rest and
      has its signal refused by the risk gate: five records. */
  lemma PassiveTickWritesFive()
    ensures FiveAt(PASSIVE, FALLING, 5)
    ensures |Run(PASSIVE, FALLING).journal| == |Run(PASSIVE, FALLING[..5]).journal| + 5
  {
    hide TickStep, Falling, FallingQuote, FiveRecords, RunInv, Run, Initial;
    var inputs := FALLING;
    RunStep(PASSIVE, inputs, 0);
    FirstFalling();
    RunStep(PASSIVE, inputs, 1);
    FallingTick(Run(PASSIVE, inputs[..1]), 1, 0);
    RunStep(PASSIVE, inputs, 2);
    FallingTick(Run(PASSIVE, inputs[..2]), 2, 50);
    RunStep(PASSIVE, inputs, 3);
    FallingTick(Run(PASSIVE, inputs[..3]), 3, 100);
    RunStep(PASSIVE, inputs, 4);
    FallingTick(Run(PASSIVE, inputs[..4]), 4, 100);
    RunStep(PASSIVE, inputs, 5);
    FallingFive(Run(PASSIVE, inputs[..5]));
    assert inputs[..6] == inputs;
    ComponentsAgree(PASSIVE, inputs[..5]);
    WritesFive(PASSIVE, Run(PASSIVE, inputs[..5]), inputs[5]);
  }

  // ---------------------------------------------------------------------------
  // An order the venue has forgotten
  // ---------------------------------------------------------------------------

  predicate Cancels(o: ManagedOrder, g: Gateway, ts: int) {
    (o.state == Acked || o.state == PartiallyFilled) && CancelSent(g, ts).1
  }

  /** A tick after which the order is still live: what the venue says, then another cancel if it is taken. */
  lemma LiveTick(k: Kernel, input: Input, g: Gateway, events: seq<VenueEvent>)
    requires RunInv(PASSIVE, k) && Polled(k.gw, input.tick) == (g, Batch(events, 0))
    requires Live(Delivered(k.oms, events).state) && 0 <= k.passiveSubmitTs <= input.tick.receiveTs
    ensures var m := TickStep(PASSIVE, k, input);
      var o := Delivered(k.oms, events);
      && RunInv(PASSIVE, m) && m.passiveSubmitTs == k.passiveSubmitTs
      && m.oms == (if Cancels(o, g, input.tick.receiveTs) then o.(state := PendingCancel) else o)
      && m.gw == (if Cancels(o, g, input.tick.receiveTs) then CancelSent(g, input.tick.receiveTs).0 else g)
  {
    hide Poll, SignalStep, RunInv, Delivered, Polled;
    TickRuns(PASSIVE, k, input);
    PollSees(PASSIVE, k, input.tick, g, events);
    var v := VenuePhase(PASSIVE, k, input.tick);
    SignalWhileLive(PASSIVE, Timed(v),
                    input.decision.order, input.tick);
  }

  /** The venue's copies of the witness order. */
  ghost predicate Resting(g: Gateway, leaves: int, sent: bool, sendTs: int, pending: bool) {
    && GatewayInv(g) && !g.pending.active
    && g.cancelSendLatency == 200 && g.sim.cancelLatency == 1000
    && g.act == ActiveOrder(true, 1, 100000, Buy, 99900, leaves, sent, sendTs, false)
    && g.sim.resting == RestingOrder(true, Buy, 99900, leaves, 0, 1200, pending, if pending then 2400 else 0)
  }

  /** The witness order in all three places. */
  ghost predicate Stage(k: Kernel, cum: int, state: OrderState, sent: bool, sendTs: int, pending: bool) {
    && RunInv(PASSIVE, k) && k.passiveSubmitTs == 1000
    && k.oms == ManagedOrder(1, 100000, Buy, 99900, 50, cum, 50 - cum, state)
    && Resting(k.gw, 50 - cum, sent, sendTs, pending)
  }

  /** Acknowledgement of the order still pending. */
  ghost predicate Asked(k: Kernel) {
    && RunInv(PASSIVE, k) && k.passiveSubmitTs == 1000
    && k.oms == ManagedOrder(1, 0, Buy, 99900, 50, 0, 50, PendingNewAck)
    && GatewayInv(k.gw)
    && k.gw.cancelSendLatency == 200 && k.gw.sim.cancelLatency == 1000 && k.gw.nextVenueOrderId == 100000
    && k.gw.pending == PendingNew(true, NewOrder(1, Buy, 50, 99900, Passive, 1000), 1200, false)
  }

  lemma WitnessSignal(k: Kernel, order: OrderRequest, tick: MarketTick)
    requires RunInv(PASSIVE, k) && k.oms == IDLE_ORDER && k.nextClientId == 1 && k.acct.netQty == 0
    requires k.gw.newAckLatency == 200 && k.gw.cancelSendLatency == 200 && k.gw.sim.cancelLatency == 1000
    requires k.gw.nextVenueOrderId == 100000
    requires order == OrderRequest(Buy, 50, 0) && tick.receiveTs == 1000 && tick.bidPrice == 99900
    ensures Asked(SignalStep(PASSIVE, k, order, tick))
  {
    hide SignalStep, RunInv, GatewayInv, OrderInv, Orphaned;
    SubmitsFresh(PASSIVE, k, order, tick);
    SignalRuns(PASSIVE, k, order, tick);
    RunParts(PASSIVE, SignalStep(PASSIVE, k, order, tick));
  }

  /** The strategy half of the first tick. */
  lemma WitnessDecide(k: Kernel)
    requires RunInv(PASSIVE, k) && k.oms == IDLE_ORDER && k.nextClientId == 1 && k.acct.netQty == 0
    requires k.gw.newAckLatency == 200 && k.gw.cancelSendLatency == 200 && k.gw.sim.cancelLatency == 1000
    requires k.gw.nextVenueOrderId == 100000
    ensures Asked(Decide(PASSIVE, k, Quote(1000, 99900, 100000, 0, 50)))
  {
    hide SignalStep, RunInv, GatewayInv, OrderInv, Orphaned, Asked;
    var input := Quote(1000, 99900, 100000, 0, 50);
    var timed := Timed(k);
    TimerKeeps(PASSIVE, k, timed);
    WitnessSignal(timed, input.decision.order, input.tick);
  }

  lemma WitnessSubmit()
    ensures Asked(TickStep(PASSIVE, Initial(PASSIVE), Quote(1000, 99900, 100000, 0, 50)))
  {
    hide Poll, VenuePhase, Decide, RunInv, Asked;
    var tick := Quote(1000, 99900, 100000, 0, 50).tick;
    FirstPoll(PASSIVE, tick);
    IdleVenuePhase(PASSIVE, Initial(PASSIVE), tick);
    WitnessDecide(Poll(Initial(PASSIVE), tick));
  }

  lemma GatewayAcks(g: Gateway)
    requires GatewayInv(g)
    requires g.cancelSendLatency == 200 && g.sim.cancelLatency == 1000 && g.nextVenueOrderId == 100000
    requires g.pending == PendingNew(true, NewOrder(1, Buy, 50, 99900, Passive, 1000), 1200, false)
    ensures var (h, b) := Polled(g, Quote(1200, 99900, 100100, 0, 50).tick);
      b == Batch([AckEvent(1200, 100000)], 0) && Resting(h, 50, false, 0, false)
  {
    var tick := Quote(1200, 99900, 100100, 0, 50).tick;
    PollBudget(g, tick);
    PollPassive(g, tick);
    assert [AckEvent(1200, 100000)] + [] == [AckEvent(1200, 100000)];
  }

  lemma GatewayFills(g: Gateway, leaves: int, sent: bool, sendTs: int, pending: bool, ts: int)
    requires Resting(g, leaves, sent, sendTs, pending) && leaves > 10
    requires !pending && sent ==> ts == sendTs == 1400
    requires pending ==> sent && ts < sendTs
    ensures var (h, b) := Polled(g, Quote(ts, 99800, 99900, 0, 10).tick);
      && b == Batch([FillEvent(ts, 100000, 10, 99900)], 0)
      && Resting(h, leaves - 10, sent && pending, sendTs, pending || sent)
  {
    var tick := Quote(ts, 99800, 99900, 0, 10).tick;
    assert TruncMod(100000, 2) == 0;
    PollBudget(g, tick);
    PollWorking(g, tick);
  }

  /** The order is acknowledged and a cancel is sent at once. */
  lemma WitnessAck(k: Kernel)
    ensures Asked(k) ==>
      Stage(TickStep(PASSIVE, k, Quote(1200, 99900, 100100, 0, 50)), 0, PendingCancel, true, 1400, false)
  {
    hide Polled, TickStep, RunInv, GatewayInv, Delivered, AllTaken;
    if Asked(k) {
      var input := Quote(1200, 99900, 100100, 0, 50);
      GatewayAcks(k.gw);
      var g := Polled(k.gw, input.tick).0;
      TakeOne(k.oms, AckEvent(1200, 100000));
      LiveTick(k, input, g, [AckEvent(1200, 100000)]);
      RunParts(PASSIVE, TickStep(PASSIVE, k, input));
    }
  }

  /** A partial fill takes the order manager out of PendingCancel; the gateway takes another cancel
      only when none is on its way. */
  lemma WitnessFill(k: Kernel, cum: int, sendTs: int, pending: bool, ts: int)
    requires Stage(k, cum, PendingCancel, true, sendTs, pending) && 0 <= cum < 40
    requires if pending then 1000 <= ts < sendTs else ts == sendTs == 1400
    ensures Stage(TickStep(PASSIVE, k, Quote(ts, 99800, 99900, 0, 10)), cum + 10,
                  if pending then PartiallyFilled else PendingCancel, true, if pending then sendTs else ts + 200, true)
  {
    hide Polled, TickStep, RunInv, GatewayInv, Delivered, AllTaken;
    var input := Quote(ts, 99800, 99900, 0, 10);
    GatewayFills(k.gw, 50 - cum, true, sendTs, pending, ts);
    var g := Polled(k.gw, input.tick).0;
    var fill := FillEvent(ts, 100000, 10, 99900);
    TakeOne(k.oms, fill);
    LiveTick(k, input, g, [fill]);
    RunParts(PASSIVE, TickStep(PASSIVE, k, input));
  }

  /** The simulator honours the first cancel while the order manager is back in PartiallyFilled. */
  lemma WitnessStrands(k: Kernel)
    requires Stage(k, 20, PartiallyFilled, true, 1600, true)
    ensures Strands(k.oms, k.gw, Quote(2500, 99900, 100100, 0, 10).tick)
  {
    hide RunInv, GatewayInv;
    assert TruncMod(100000, 2) == 0;
  }

  const FORGOTTEN := [
    Quote(1000, 99900, 100000, 0, 50), Quote(1200, 99900, 100100, 0, 50),
    Quote(1400, 99800, 99900, 0, 10), Quote(1500, 99800, 99900, 0, 10), Quote(2500, 99900, 100100, 0, 10)]

  lemma OrphanState(cfg: Config, k: Kernel)
    requires RunInv(cfg, k) && Orphaned(k.oms, k.gw)
    ensures k.oms.state == PartiallyFilled
  {
  }

  /** Five ticks after which the order manager waits for ever on an order the venue no longer has. */
  lemma LivenessCanDisagree()
    ensures var k := Run(PASSIVE, FORGOTTEN);
      Orphaned(k.oms, k.gw) && k.oms.state == PartiallyFilled
  {
    hide TickStep, Stage, Asked, Quote, Orphaned, Strands, RunInv, Run, Initial;
    var inputs := FORGOTTEN;
    RunStep(PASSIVE, inputs, 0);
    WitnessSubmit();
    RunStep(PASSIVE, inputs, 1);
    WitnessAck(Run(PASSIVE, inputs[..1]));
    RunStep(PASSIVE, inputs, 2);
    WitnessFill(Run(PASSIVE, inputs[..2]), 0, 1400, false, 1400);
    RunStep(PASSIVE, inputs, 3);
    WitnessFill(Run(PASSIVE, inputs[..3]), 10, 1600, true, 1500);
    RunStep(PASSIVE, inputs, 4);
    WitnessStrands(Run(PASSIVE, inputs[..4]));
    ComponentsAgree(PASSIVE, inputs[..4]);
    TickRuns(PASSIVE, Run(PASSIVE, inputs[..4]), inputs[4]);
    assert inputs[..5] == inputs;
    ComponentsAgree(PASSIVE, inputs);
    OrphanState(PASSIVE, Run(PASSIVE, inputs));
  }
}
