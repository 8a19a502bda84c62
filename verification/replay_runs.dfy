/** What holds after every tick of every run. */
module ReplayRuns {
  import opened Types
  import opened OrderManagement
  import opened Execution
  import opened VenueGateway
  import opened Risk
  import opened Replay
  import opened ReplayAgreement
  import opened ReplayJournal
  import Accounting

  // ---------------------------------------------------------------------------
  // Position limit: needs no agreement between the components
  // ---------------------------------------------------------------------------

  ghost predicate Limited(limit: int, k: Kernel) {
    OrderInv(k.oms) && WithinLimit(limit, k.oms, k.acct.netQty)
  }

  lemma FillMovesPosition(k: Kernel, f: Types.Fill, tick: MarketTick)
    requires f.quantity >= 0
    ensures HandleFill(k, f, tick).acct.netQty == k.acct.netQty + Sign(f.side) * f.quantity
    ensures HandleFill(k, f, tick).oms == k.oms
  {
    hide Accounting.NextCost;
  }

  lemma EventLimited(limit: int, k: Kernel, e: VenueEvent, fallback: Side, tick: MarketTick)
    requires Limited(limit, k)
    ensures Limited(limit, HandleVenueEvent(k, e, fallback, tick))
  {
    hide OnEvent, WithinLimit, OrderInv, HandleFill, CountRefusal, LegalEdge;
    var h := OnEvent(k.oms, e);
    EventKeepsInv(k.oms, e);
    EventOutcome(k.oms, e);
    EventWithinLimit(limit, k.oms, k.acct.netQty, e);
    if h.outcome == Applied {
      var side := if k.oms.state == Idle then fallback else k.oms.side;
      var moved := EmitTransition(k.(oms := h.order), e.ts, k.oms.state, h.order.state, side);
      FillMovesPosition(moved, h.fill, tick);
    }
  }

  lemma {:induction false} BatchLimited(limit: int, k: Kernel, events: seq<VenueEvent>, tick: MarketTick)
    requires Limited(limit, k)
    ensures Limited(limit, HandleBatch(k, events, tick))
    decreases |events|
  {
    hide HandleVenueEvent, Limited;
    if events == [] {
    } else {
      EventLimited(limit, k, events[0], k.oms.side, tick);
      BatchLimited(limit, HandleVenueEvent(k, events[0], k.oms.side, tick), events[1..], tick);
    }
  }

  lemma VenuePhaseLimited(cfg: Config, k: Kernel, tick: MarketTick)
    requires Limited(cfg.limit, k)
    ensures Limited(cfg.limit, VenuePhase(cfg, k, tick))
  {
    hide Polled, HandleBatch, CancelSent;
    BatchLimited(cfg.limit, BeforeBatch(k, tick), Polled(k.gw, tick).1.events, tick);
  }

  lemma SendLimited(cfg: Config, k: Kernel, id: int, req: OrderRequest, tick: MarketTick)
    requires Limited(cfg.limit, k)
    ensures Limited(cfg.limit, SendStep(cfg, k, id, req, tick))
  {
    hide WithinLimit, OrderInv, HandleVenueEvent, NewSent;
    var posted := Posted(k, tick.receiveTs, req.side);
    var gw := NewSent(posted.gw, RequestOf(cfg, id, req, tick)).0;
    EventLimited(cfg.limit, posted.(gw := gw), VenueEvent(NewReject, tick.receiveTs, 0, 0, 0), req.side, tick);
  }

  lemma SignalLimited(cfg: Config, k: Kernel, order: OrderRequest, tick: MarketTick)
    requires Limited(cfg.limit, k)
    ensures Limited(cfg.limit, SignalStep(cfg, k, order, tick))
  {
    hide WithinLimit, OrderInv, Submitted, Evaluate, HandleVenueEvent, NewSent;
    if Evaluate(cfg.limit, k.acct.netQty, order).accepted {
      var req := Priced(cfg, order, tick);
      SubmitKeepsInv(k.oms, k.nextClientId, req.side, req.limitPrice, req.quantity);
      SubmitWithinLimit(cfg.limit, k.oms, k.acct.netQty, k.nextClientId, order, req.limitPrice);
      var seen := Signalled(k);
      var (oms, local) := Submitted(seen.oms, seen.nextClientId, req.side, req.limitPrice, req.quantity);
      var taken := Entered(seen, oms);
      SendLimited(cfg, taken, seen.nextClientId, req, tick);
    }
  }

  lemma TickLimited(cfg: Config, k: Kernel, input: Input)
    requires Limited(cfg.limit, k)
    ensures Limited(cfg.limit, TickStep(cfg, k, input))
  {
    hide VenuePhase, SignalStep, WithinLimit, OrderInv;
    VenuePhaseLimited(cfg, k, input.tick);
    var v := VenuePhase(cfg, k, input.tick);
    SignalLimited(cfg, Timed(v),
                  input.decision.order, input.tick);
  }

  /** The position never leaves the risk limit, in any run of any strategy. */
  lemma {:induction false} RunStaysWithinLimit(cfg: Config, inputs: seq<Input>)
    requires cfg.limit >= 0
    ensures Abs(Run(cfg, inputs).acct.netQty) <= cfg.limit
    ensures Limited(cfg.limit, Run(cfg, inputs))
  {
    hide TickStep, OrderInv;
    if inputs == [] {
      LifecycleInvariant([]);
    } else {
      RunStaysWithinLimit(cfg, inputs[..|inputs| - 1]);
      TickLimited(cfg, Run(cfg, inputs[..|inputs| - 1]), inputs[|inputs| - 1]);
    }
  }

  // ---------------------------------------------------------------------------
  // Agreement, counters and budgets
  // ---------------------------------------------------------------------------

  /** Journal records one event can cause. */
  function Cost(e: VenueEvent): nat {
    if e.kind.NewAck? || e.kind.CancelAck? || e.kind.Expired? then 1 else 2
  }

  function BatchCost(events: seq<VenueEvent>): nat {
    if events == [] then 0 else Cost(events[0]) + BatchCost(events[1..])
  }

  /** Journal records an event does cause, given the order it meets. */
  function Records(o: ManagedOrder, e: VenueEvent): nat {
    if Verdict(o, e) != Applied then 0
    else
      (if o.state != Advance(o, e).state then 1 else 0)
      + (if e.kind.Fill? || e.kind.NewReject? || e.kind.CancelReject? then 1 else 0)
  }

  function BatchRecords(o: ManagedOrder, events: seq<VenueEvent>): nat
    decreases |events|
  {
    if events == [] then 0
    else Records(o, events[0]) + BatchRecords(OnEvent(o, events[0]).order, events[1..])
  }

  lemma {:induction false} RecordsWithinCost(o: ManagedOrder, events: seq<VenueEvent>)
    ensures BatchRecords(o, events) <= BatchCost(events)
    decreases |events|
  {
    hide OnEvent;
    if events == [] {
    } else {
      RecordsWithinCost(OnEvent(o, events[0]).order, events[1..]);
    }
  }

  /** Refused cancel answers among the events, given the order they meet. */
  function Refusals(o: ManagedOrder, events: seq<VenueEvent>): nat
    decreases |events|
  {
    if events == [] then 0
    else (if Verdict(o, events[0]) == Applied then 0 else 1) + Refusals(OnEvent(o, events[0]).order, events[1..])
  }

  /** How handling events changes a kernel: `fills` fills, `refusals` refusals and `records` journal records. */
  ghost predicate Changed(k: Kernel, m: Kernel, fills: nat, refusals: nat, records: nat) {
    && m == k.(acct := m.acct, oms := m.oms, counters := m.counters, samples := m.samples, journal := m.journal)
    && m.counters == k.counters.(venueRejects := m.counters.venueRejects,
                                 fills := k.counters.fills + fills,
                                 invalidVenueEvents := k.counters.invalidVenueEvents + refusals,
                                 wrongState := k.counters.wrongState + refusals)
    && m.samples == k.samples.(eventSink := m.samples.eventSink, accounting := k.samples.accounting + fills)
    && |m.journal| == |k.journal| + records
  }

  lemma EventChanges(k: Kernel, e: VenueEvent, fallback: Side, tick: MarketTick)
    requires OrderInv(k.oms) && Taken(k.oms, e)
    ensures var m := HandleVenueEvent(k, e, fallback, tick);
      && m.oms == OnEvent(k.oms, e).order
      && Changed(k, m, if e.kind.Fill? then 1 else 0, if Verdict(k.oms, e) == Applied then 0 else 1, Records(k.oms, e))
  {
    EventOutcome(k.oms, e);
    hide Accounting.Filled, Accounting.Marked, Advance, OrderInv, LegalEdge, Verdict;
  }

  lemma {:induction false} BatchChanges(k: Kernel, events: seq<VenueEvent>, tick: MarketTick)
    requires OrderInv(k.oms) && AllTaken(k.oms, events)
    ensures var m := HandleBatch(k, events, tick);
      && m.oms == Delivered(k.oms, events)
      && Changed(k, m, Fills(events), Refusals(k.oms, events), BatchRecords(k.oms, events))
    decreases |events|
  {
    hide HandleVenueEvent, OrderInv, Taken, Verdict, Records, OnEvent;
    if events == [] {
    } else {
      var e := events[0];
      EventChanges(k, e, k.oms.side, tick);
      EventKeepsInv(k.oms, e);
      BatchChanges(HandleVenueEvent(k, e, k.oms.side, tick), events[1..], tick);
    }
  }

  ghost predicate StyleOk(style: Style, g: Gateway) {
    && (g.pending.active ==> g.pending.request.style == style)
    && (style == Aggressive ==> !g.act.active)
  }

  /** The invariant of a run: the components agree and the counters balance. */
  ghost predicate RunInv(cfg: Config, k: Kernel) {
    && Agreement(k.oms, k.gw)
    && StyleOk(cfg.style, k.gw)
    && FillCount(k.gw.sim) == k.counters.fills
    && k.counters.localSubmissions == k.counters.gatewaySubmissions
    && k.counters.invalidVenueEvents == k.counters.wrongState
    && k.counters.batchOverflows == k.counters.wrongOrder == k.counters.invalidQuantity == k.counters.invalidVenueOrderId == 0
    && (cfg.style == Aggressive ==> k.counters.wrongState == 0)
  }

  lemma {:induction false} CostConcat(a: seq<VenueEvent>, b: seq<VenueEvent>)
    ensures BatchCost(a + b) == BatchCost(a) + BatchCost(b)
  {
    hide Cost;
    if a == [] {
      assert a + b == b;
    } else {
      assert (a + b)[1..] == a[1..] + b;
      CostConcat(a[1..], b);
    }
  }

  lemma RestingCost(r: RestingOrder, tick: MarketTick, id: int)
    ensures BatchCost(RestingEvents(r, tick, id)) <= 2
  {
    hide FillsOn;
    var events := RestingEvents(r, tick, id);
    if events != [] {
      assert events[1..] == [];
    }
  }

  lemma AggressiveCost(req: NewOrder, tick: MarketTick, id: int)
    ensures BatchCost(AggressiveEvents(req, tick, id)) <= 4
  {
    hide Takes;
    var qty := Takes(req, tick);
    var ack := [AckEvent(tick.receiveTs, id)];
    var fill := if qty > 0 then [FillEvent(tick.receiveTs, id, qty, TouchPrice(req.side, tick))] else [];
    var expiry := if qty < req.quantity then [ExpiryEvent(tick.receiveTs, id)] else [];
    assert BatchCost(ack) == 1 && BatchCost(fill) <= 2 && BatchCost(expiry) <= 1;
    CostConcat(ack, fill);
    CostConcat(ack + fill, expiry);
  }

  predicate NoCancelAnswers(events: seq<VenueEvent>) {
    forall i :: 0 <= i < |events| ==> !CancelAnswer(events[i])
  }

  /** Records one tick's events may cause: three in passive mode, four in aggressive mode. */
  function PollAllowance(style: Style): nat {
    if style == Aggressive then 4 else 3
  }

  lemma PollCost(style: Style, g: Gateway, tick: MarketTick)
    requires GatewayInv(g) && StyleOk(style, g)
    ensures var (h, b) := Polled(g, tick);
      && BatchCost(b.events) <= PollAllowance(style)
      && (style == Aggressive ==> NoCancelAnswers(b.events))
      && StyleOk(style, h)
  {
    var b := Polled(g, tick).1;
    if AckDue(g, tick) {
      if g.pending.shouldReject {
        assert b.events == [VenueEvent(NewReject, tick.receiveTs, 0, 0, 0)];
        assert b.events[1..] == [];
      } else {
        hide Polled;
        var req, id := g.pending.request, g.nextVenueOrderId;
        if style == Aggressive {
          PollAggressive(g, tick);
          AggressiveCost(req, tick, id);
        } else {
          PollPassive(g, tick);
          RestingCost(Entry(req, tick), tick, id);
          assert b.events[1..] == RestingEvents(Entry(req, tick), tick, id);
        }
      }
    } else {
      hide Polled;
      if !g.act.active {
        PollIdle(g, tick);
      } else if CancelDue(g, tick) && RefusesCancel(g.act) {
        PollRefused(g, tick);
        assert b.events[1..] == [];
      } else {
        PollWorking(g, tick);
        RestingCost(Facing(g, tick), tick, g.act.venueOrderId);
      }
    }
  }

  lemma {:induction false} NothingRefused(o: ManagedOrder, events: seq<VenueEvent>)
    requires AllTaken(o, events) && NoCancelAnswers(events)
    ensures Refusals(o, events) == 0
    decreases |events|
  {
    hide OnEvent, Verdict;
    if events == [] {
    } else {
      assert NoCancelAnswers(events[1..]);
      NothingRefused(OnEvent(o, events[0]).order, events[1..]);
    }
  }

  /** What the venue half of a tick may add to a run. */
  ghost predicate Grew(k: Kernel, m: Kernel, records: nat) {
    && |k.journal| <= |m.journal| <= |k.journal| + records
    && k.counters.fills <= m.counters.fills <= k.counters.fills + 1
    && m.samples.execution == k.samples.execution + 1
    && m.samples.strategy == k.samples.strategy && m.samples.endToEnd == k.samples.endToEnd
    && m.samples.risk == k.samples.risk
  }

  lemma AgreementParts(o: ManagedOrder, g: Gateway)
    requires Agreement(o, g)
    ensures OrderInv(o) && GatewayInv(g)
  {
  }

  lemma PollRuns(cfg: Config, k: Kernel, tick: MarketTick)
    requires RunInv(cfg, k)
    ensures var m := Poll(k, tick);
      && RunInv(cfg, m) && Grew(k, m, PollAllowance(cfg.style))
      && (Orphaned(m.oms, m.gw) <==> Orphaned(k.oms, k.gw) || Strands(k.oms, k.gw, tick))
  {
    hide Polled, HandleBatch, Agreement, StyleOk, Orphaned, Strands, FillCount;
    assert OrderInv(k.oms) && GatewayInv(k.gw) by { AgreementParts(k.oms, k.gw); }
    PollDelivers(k.oms, k.gw, tick);
    PollBudget(k.gw, tick);
    PollCost(cfg.style, k.gw, tick);
    var events := Polled(k.gw, tick).1.events;
    BatchChanges(BeforeBatch(k, tick), events, tick);
    RecordsWithinCost(k.oms, events);
    if cfg.style == Aggressive {
      NothingRefused(k.oms, events);
    }
  }

  lemma RunAgrees(cfg: Config, k: Kernel)
    requires RunInv(cfg, k)
    ensures Agreement(k.oms, k.gw)
  {
  }

  lemma CancelRuns(cfg: Config, k: Kernel, tick: MarketTick)
    requires RunInv(cfg, k)
    ensures var m := CancelStep(cfg, k, tick);
      && RunInv(cfg, m)
      && |k.journal| <= |m.journal| <= |k.journal| + (if cfg.style == Passive then 1 else 0)
      && m.counters == k.counters && m.samples == k.samples.(eventSink := m.samples.eventSink)
      && m.acct == k.acct
      && (Orphaned(m.oms, m.gw) <==> Orphaned(k.oms, k.gw))
  {
  }

  /** Whatever the order manager takes, the gateway takes too. */
  lemma SubmitAgrees(cfg: Config, o: ManagedOrder, g: Gateway, id: int, req: OrderRequest, tick: MarketTick)
    requires Agreement(o, g)
    ensures var (p, local) := Submitted(o, id, req.side, req.limitPrice, req.quantity);
      var (h, ok) := NewSent(g, RequestOf(cfg, id, req, tick));
      && (local ==> ok && Agreement(p, h) && !Orphaned(p, h) && !Orphaned(o, g))
      && (local ==> h == g.(pending := h.pending) && h.pending.request.style == cfg.style)
      && (!local && req.quantity > 0 ==> p == o)
  {
  }

  lemma SubmitRuns(cfg: Config, k: Kernel, order: OrderRequest, tick: MarketTick)
    requires RunInv(cfg, k) && order.quantity > 0
    ensures var m := SubmitStep(cfg, k, order, tick);
      && RunInv(cfg, m)
      && |k.journal| <= |m.journal| <= |k.journal| + 1
      && m.counters.fills == k.counters.fills
      && m.samples == k.samples.(eventSink := m.samples.eventSink, execution := k.samples.execution + 1)
      && m.acct == k.acct
      && (Orphaned(m.oms, m.gw) <==> Orphaned(k.oms, k.gw))
      && (Orphaned(k.oms, k.gw) ==> m.oms == k.oms && m.gw == k.gw && m.counters == k.counters && m.journal == k.journal)
  {
    hide Agreement, Orphaned, Submitted, NewSent, HandleVenueEvent;
    var req := Priced(cfg, order, tick);
    SubmitAgrees(cfg, k.oms, k.gw, k.nextClientId, req, tick);
  }

  lemma SignalRuns(cfg: Config, k: Kernel, order: OrderRequest, tick: MarketTick)
    requires RunInv(cfg, k)
    ensures var m := SignalStep(cfg, k, order, tick);
      && RunInv(cfg, m)
      && |k.journal| <= |m.journal| <= |k.journal| + 1
      && m.counters.fills == k.counters.fills
      && m.samples.strategy == k.samples.strategy && m.samples.endToEnd == k.samples.endToEnd
      && m.samples.risk == k.samples.risk + 1
      && k.samples.execution <= m.samples.execution <= k.samples.execution + 1
      && m.acct == k.acct
      && (Orphaned(m.oms, m.gw) <==> Orphaned(k.oms, k.gw))
      && (Orphaned(k.oms, k.gw) ==>
            m.oms == k.oms && m.gw == k.gw && m.counters.localSubmissions == k.counters.localSubmissions)
  {
    hide Agreement, Orphaned, SubmitStep, StyleOk;
    var seen := Signalled(k);
    if order.quantity > 0 {
      SubmitRuns(cfg, seen, order, tick);
    }
  }

  /** The budget of one tick. */
  ghost predicate WithinBudget(k: Kernel, m: Kernel) {
    && |k.journal| <= |m.journal| <= |k.journal| + 5
    && k.counters.fills <= m.counters.fills <= k.counters.fills + 1
    && m.samples.strategy == k.samples.strategy + 1
    && m.samples.endToEnd == k.samples.endToEnd + 1
    && k.samples.risk <= m.samples.risk <= k.samples.risk + 1
    && k.samples.execution + 1 <= m.samples.execution <= k.samples.execution + 2
  }

  lemma VenuePhaseRuns(cfg: Config, k: Kernel, tick: MarketTick)
    requires RunInv(cfg, k)
    ensures var m := VenuePhase(cfg, k, tick);
      && RunInv(cfg, m) && Grew(k, m, 4)
      && (Orphaned(m.oms, m.gw) <==> Orphaned(k.oms, k.gw) || Strands(k.oms, k.gw, tick))
  {
    hide Poll, CancelStep, Agreement, Orphaned, StyleOk, Strands, FillCount;
    PollRuns(cfg, k, tick);
    CancelRuns(cfg, ClearSubmitTs(Poll(k, tick)), tick);
  }

  /** One tick keeps the run invariant and its budget, and strands an order exactly when it meets `Strands`. */
  lemma TickRuns(cfg: Config, k: Kernel, input: Input)
    requires RunInv(cfg, k)
    ensures var m := TickStep(cfg, k, input);
      && RunInv(cfg, m) && WithinBudget(k, m)
      && (Orphaned(m.oms, m.gw) <==> Orphaned(k.oms, k.gw) || Strands(k.oms, k.gw, input.tick))
  {
    hide VenuePhase, SignalStep, Agreement, Orphaned, StyleOk, Strands, FillCount;
    VenuePhaseRuns(cfg, k, input.tick);
    var v := VenuePhase(cfg, k, input.tick);
    SignalRuns(cfg, Timed(v),
               input.decision.order, input.tick);
  }

  lemma InitialRuns(cfg: Config)
    ensures RunInv(cfg, Initial(cfg))
  {
  }

  /** The simulation relation and the counter balances, after every tick of every run. */
  lemma {:induction false} ComponentsAgree(cfg: Config, inputs: seq<Input>)
    ensures RunInv(cfg, Run(cfg, inputs))
  {
    hide TickStep, RunInv;
    if inputs == [] {
      InitialRuns(cfg);
    } else {
      ComponentsAgree(cfg, inputs[..|inputs| - 1]);
      TickRuns(cfg, Run(cfg, inputs[..|inputs| - 1]), inputs[|inputs| - 1]);
    }
  }

  /** Collector traffic of a whole run: every stream but the journal stays within its declared rate. */
  lemma {:induction false} RunBudget(cfg: Config, inputs: seq<Input>)
    ensures var k := Run(cfg, inputs);
      && k.samples.strategy == k.samples.endToEnd == |inputs|
      && k.samples.risk <= |inputs|
      && k.samples.execution <= 2 * |inputs|
      && 0 <= k.counters.fills <= |inputs|
      && |k.journal| <= 5 * |inputs|
  {
    hide TickStep, RunInv;
    if inputs == [] {
    } else {
      var prior := inputs[..|inputs| - 1];
      RunBudget(cfg, prior);
      ComponentsAgree(cfg, prior);
      TickRuns(cfg, Run(cfg, prior), inputs[|inputs| - 1]);
    }
  }

  // ---------------------------------------------------------------------------
  // Where the two sides part, and what happens then
  // ---------------------------------------------------------------------------

  /** Tick `i` of the run acknowledges a cancel that a partial fill had overtaken. */
  ghost predicate StrandedAt(cfg: Config, inputs: seq<Input>, i: int) {
    && 0 <= i < |inputs|
    && Strands(Run(cfg, inputs[..i]).oms, Run(cfg, inputs[..i]).gw, inputs[i].tick)
  }

  lemma StrandedPrefix(cfg: Config, inputs: seq<Input>, i: int)
    requires 0 <= i < |inputs| - 1
    ensures StrandedAt(cfg, inputs, i) == StrandedAt(cfg, inputs[..|inputs| - 1], i)
  {
    hide Run, Strands;
    assert inputs[..|inputs| - 1][..i] == inputs[..i];
  }

  lemma NothingOrphanedAtFirst(cfg: Config)
    ensures !Orphaned(Initial(cfg).oms, Initial(cfg).gw)
  {
  }

  /** A live order in the order manager has a live order at the gateway until, and only until, some tick
      of the run strands it. */
  lemma {:induction false} OrphanedExactlyWhenStranded(cfg: Config, inputs: seq<Input>)
    ensures Orphaned(Run(cfg, inputs).oms, Run(cfg, inputs).gw) <==> exists i :: StrandedAt(cfg, inputs, i)
  {
    hide TickStep, Strands, Orphaned, RunInv;
    if inputs == [] {
      NothingOrphanedAtFirst(cfg);
    } else {
      var n := |inputs| - 1;
      var prior := inputs[..n];
      OrphanedExactlyWhenStranded(cfg, prior);
      ComponentsAgree(cfg, prior);
      TickRuns(cfg, Run(cfg, prior), inputs[n]);
      forall i | 0 <= i < n
        ensures StrandedAt(cfg, inputs, i) == StrandedAt(cfg, prior, i)
      {
        StrandedPrefix(cfg, inputs, i);
      }
      assert StrandedAt(cfg, inputs, n) == Strands(Run(cfg, prior).oms, Run(cfg, prior).gw, inputs[n].tick);
    }
  }

  lemma OrphanTick(cfg: Config, k: Kernel, input: Input)
    requires RunInv(cfg, k) && Accounting.Derived(k.acct) && Orphaned(k.oms, k.gw)
    ensures var m := TickStep(cfg, k, input);
      && m.oms == k.oms && m.gw == k.gw
      && Accounting.Core(m.acct) == Accounting.Core(k.acct) && Accounting.Derived(m.acct)
      && m.counters.fills == k.counters.fills && m.counters.localSubmissions == k.counters.localSubmissions
  {
    var tick := input.tick;
    hide SignalStep, Accounting.Core, Accounting.Derived, Accounting.Marked;
    PollIdle(k.gw, tick);
    assert Polled(k.gw, tick) == (k.gw, NO_BATCH);
    hide Polled;
    Accounting.MarkKeepsCore(k.acct, Mid(tick));
    Accounting.StepsKeepDerived(k.acct, NO_FILL, Mid(tick));
    var v := VenuePhase(cfg, k, tick);
    assert v.oms == k.oms && v.gw == k.gw && v.acct == Accounting.Marked(k.acct, Mid(tick)) && v.counters == k.counters;
    VenuePhaseRuns(cfg, k, tick);
    SignalRuns(cfg, Timed(v),
               input.decision.order, tick);
  }

  /** After that point the order manager is stuck: whatever the market does, the order never changes
      again, no order is sent, no fill occurs and the account only gets re-marked. */
  lemma {:induction false} OrphanIsForever(cfg: Config, inputs: seq<Input>, n: nat)
    requires n <= |inputs| && Orphaned(Run(cfg, inputs[..n]).oms, Run(cfg, inputs[..n]).gw)
    ensures var k, m := Run(cfg, inputs[..n]), Run(cfg, inputs);
      && m.oms == k.oms && m.gw == k.gw
      && Accounting.Core(m.acct) == Accounting.Core(k.acct)
      && m.counters.fills == k.counters.fills && m.counters.localSubmissions == k.counters.localSubmissions
    decreases |inputs|
  {
    hide TickStep, Orphaned, Accounting.Core, RunInv;
    if n == |inputs| {
      assert inputs[..n] == inputs;
    } else {
      var prior := inputs[..|inputs| - 1];
      assert prior[..n] == inputs[..n];
      OrphanIsForever(cfg, prior, n);
      ComponentsAgree(cfg, prior);
      JournalRebuildsAccount(cfg, prior);
      OrphanTick(cfg, Run(cfg, prior), inputs[|inputs| - 1]);
    }
  }

  lemma InactiveNeverStrands(o: ManagedOrder, g: Gateway, tick: MarketTick)
    requires !g.act.active
    ensures !Strands(o, g, tick)
  {
  }

  /** Aggressive runs never get there, and no venue event of theirs is ever refused. */
  lemma AggressiveNeverOrphaned(cfg: Config, inputs: seq<Input>)
    requires cfg.style == Aggressive
    ensures !Orphaned(Run(cfg, inputs).oms, Run(cfg, inputs).gw)
    ensures Run(cfg, inputs).counters.invalidVenueEvents == 0
  {
    hide Run, Strands;
    ComponentsAgree(cfg, inputs);
    OrphanedExactlyWhenStranded(cfg, inputs);
    forall i | 0 <= i < |inputs|
      ensures !StrandedAt(cfg, inputs, i)
    {
      ComponentsAgree(cfg, inputs[..i]);
      InactiveNeverStrands(Run(cfg, inputs[..i]).oms, Run(cfg, inputs[..i]).gw, inputs[i].tick);
    }
  }
}
