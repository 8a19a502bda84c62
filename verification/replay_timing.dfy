/** When a passive order first trades and when it is cancelled. */
module ReplayTiming {
  import opened Types
  import opened OrderManagement
  import opened Execution
  import opened VenueGateway
  import opened Risk
  import opened Replay
  import opened ReplayAgreement
  import opened ReplayRuns
  import opened ReplayRecords

  /** Price and quantity an order of this side joins, and the price it would meet. */
  function OwnPrice(side: Side, tick: MarketTick): int {
    if side == Buy then tick.bidPrice else tick.askPrice
  }

  function OwnQty(side: Side, tick: MarketTick): int {
    if side == Buy then tick.bidQty else tick.askQty
  }

  /** A passive order sent on tick `s` and acknowledged on tick `t` trades on `t` only if the market has
      come to it: at the price of `s`, and for what the opposite side of `t` shows beyond its own side. */
  lemma PassiveFillOnAck(cfg: Config, k: Kernel, order: OrderRequest, s: MarketTick, m: Kernel, t: MarketTick)
    requires RunInv(cfg, k) && cfg.style == Passive && !Live(k.oms.state)
    requires Evaluate(cfg.limit, k.acct.netQty, order).accepted
    requires RunInv(cfg, m) && m.gw.pending == SignalStep(cfg, k, order, s).gw.pending
    requires AckDue(m.gw, t) && !m.gw.pending.shouldReject
    ensures var filled := VenuePhase(cfg, m, t).acct.netQty - m.acct.netQty;
      filled == Sign(order.side) *
        (if Crosses(order.side, OwnPrice(order.side, s), t)
         then Max(0, Min(order.quantity, OppositeQty(order.side, t) - Max(0, OwnQty(order.side, t)))) else 0)
  {
    hide SignalStep, VenuePhase, StyleOk, Evaluate, VenueRecords, StillLive, Cancelable, FillCount;
    SubmitsFresh(cfg, k, order, s);
    VenuePhaseRecords(cfg, m, t);
  }

  /** The clock of the cancel rule was started by the order that is live now. */
  ghost predicate Clocked(cfg: Config, k: Kernel) {
    cfg.style == Passive && Live(k.oms.state) ==> k.passiveSubmitTs == k.gw.pending.request.submitTs
  }

  lemma PolledKeepsRequest(g: Gateway, tick: MarketTick)
    ensures Polled(g, tick).0.pending.request == g.pending.request
  {
    hide Placed, Ticked, CancelAsked, RefusesCancel, PushReport;
  }

  lemma VenuePhaseClocked(cfg: Config, k: Kernel, tick: MarketTick)
    requires RunInv(cfg, k) && Clocked(cfg, k)
    ensures Clocked(cfg, ClearSubmitTs(Poll(k, tick)))
    ensures Clocked(cfg, VenuePhase(cfg, k, tick))
  {
    hide Polled, HandleBatch, Delivered, GatewayInv;
    var events := Polled(k.gw, tick).1.events;
    PolledKeepsRequest(k.gw, tick);
    PollDelivers(k.oms, k.gw, tick);
    BatchChanges(BeforeBatch(k, tick), events, tick);
    DeliveredSize(k.oms, events);
  }

  lemma SignalClocked(cfg: Config, k: Kernel, order: OrderRequest, tick: MarketTick)
    requires RunInv(cfg, k) && Clocked(cfg, k)
    ensures Clocked(cfg, SignalStep(cfg, k, order, tick))
  {
    hide HandleVenueEvent, Agreement, Evaluate;
    SubmitAgrees(cfg, k.oms, k.gw, k.nextClientId, Priced(cfg, order, tick), tick);
  }

  lemma TickClocked(cfg: Config, k: Kernel, input: Input)
    requires RunInv(cfg, k) && Clocked(cfg, k)
    ensures Clocked(cfg, TickStep(cfg, k, input))
  {
    hide VenuePhase, SignalStep, Agreement, Orphaned, StyleOk, Strands, FillCount;
    VenuePhaseRuns(cfg, k, input.tick);
    VenuePhaseClocked(cfg, k, input.tick);
    SignalClocked(cfg, Timed(VenuePhase(cfg, k, input.tick)), input.decision.order, input.tick);
  }

  lemma {:induction false} RunClocked(cfg: Config, inputs: seq<Input>)
    ensures Clocked(cfg, Run(cfg, inputs))
  {
    if inputs == [] {
    } else {
      hide TickStep, Clocked, RunInv;
      var prior := inputs[..|inputs| - 1];
      RunClocked(cfg, prior);
      ComponentsAgree(cfg, prior);
      TickClocked(cfg, Run(cfg, prior), inputs[|inputs| - 1]);
    }
  }

  /** In every run, a tick asks the venue to cancel exactly when the run is passive, the live order is
      acknowledged and has been out for at least the configured time since it was itself submitted, and
      the venue still has it with no other cancel on its way. */
  lemma CancelsExactlyWhenDue(cfg: Config, inputs: seq<Input>, tick: MarketTick)
    ensures var c := ClearSubmitTs(Poll(Run(cfg, inputs), tick));
      var submitted := c.gw.pending.request.submitTs;
      (CancelStep(cfg, c, tick) != c) <==>
        && cfg.style == Passive && (c.oms.state == Acked || c.oms.state == PartiallyFilled)
        && submitted >= 0 && tick.receiveTs - submitted >= cfg.cancelAfter
        && c.gw.act.active && !c.gw.act.cancelSent
  {
    hide Run, Poll, RunInv, VenuePhase;
    var k := Run(cfg, inputs);
    ComponentsAgree(cfg, inputs);
    RunClocked(cfg, inputs);
    VenuePhaseClocked(cfg, k, tick);
  }
}
