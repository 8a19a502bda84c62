/** The venue's matching side: src/execution_simulator.cpp. */
module Execution {
  import opened Types

  datatype RestingOrder = RestingOrder(
    active: bool, side: Side, price: int, leavesQty: int, queueAheadQty: int,
    submitTs: int, cancelPending: bool, cancelEffectiveTs: int)

  datatype Stats = Stats(
    aggressiveFills: int, passiveFills: int, partialFills: int, cancelRequests: int, cancelAcks: int,
    staleFills: int, adverseFills: int)

  datatype Simulator = Simulator(cancelLatency: int, resting: RestingOrder, stats: Stats)

  datatype Report = Report(
    accepted: bool, hasFill: bool, wasPartial: bool, cancelAcked: bool, stale: bool, adverse: bool,
    fill: Fill, leavesQty: int)

  /** Defaults of the simulator: a quote is stale after this age, a market adverse after this move. */
  const STALE_AFTER: int := 1000
  const ADVERSE_MOVE: int := PRICE_SCALE

  const NO_STATS := Stats(0, 0, 0, 0, 0, 0, 0)
  const NO_ORDER := RestingOrder(false, Buy, 0, 0, 0, 0, false, 0)

  function Fresh(cancelLatency: int): Simulator {
    Simulator(cancelLatency, NO_ORDER, NO_STATS)
  }

  function Unfilled(accepted: bool, leaves: int): Report {
    Report(accepted, false, false, false, false, false, NO_FILL, leaves)
  }

  function OppositeQty(side: Side, tick: MarketTick): int {
    if side == Buy then tick.askQty else tick.bidQty
  }

  predicate Crosses(side: Side, price: int, tick: MarketTick) {
    if side == Buy then tick.askPrice <= price else tick.bidPrice >= price
  }

  // ---------------------------------------------------------------------------
  // Specification functions
  // ---------------------------------------------------------------------------

  function CountFill(st: Stats, style: Style, partial: bool): Stats {
    st.(aggressiveFills := st.aggressiveFills + (if style == Aggressive then 1 else 0),
        passiveFills := st.passiveFills + (if style == Passive then 1 else 0),
        partialFills := st.partialFills + (if partial then 1 else 0))
  }

  function TakeLiquidity(s: Simulator, tick: MarketTick, req: OrderRequest): (Simulator, Report) {
    var qty := Min(OppositeQty(req.side, tick), req.quantity);
    if qty <= 0 then (s, Unfilled(true, req.quantity))
    else
      (s.(stats := CountFill(s.stats, Aggressive, qty < req.quantity)),
       Report(true, true, qty < req.quantity, false, false, false,
              Fill(tick.receiveTs, if req.side == Buy then tick.askPrice else tick.bidPrice, qty, req.side),
              req.quantity - qty))
  }

  function Placed(s: Simulator, tick: MarketTick, req: OrderRequest, style: Style): (Simulator, Report) {
    if req.quantity <= 0 then (s, Unfilled(false, 0))
    else if style == Aggressive then TakeLiquidity(s, tick, req)
    else if s.resting.active then (s, Unfilled(false, s.resting.leavesQty))
    else
      (s.(resting := RestingOrder(true, req.side, req.limitPrice, req.quantity,
                                  if req.side == Buy then tick.bidQty else tick.askQty,
                                  tick.receiveTs, false, 0)),
       Unfilled(true, req.quantity))
  }

  /** What the queue ahead absorbs of the displayed quantity. */
  function QueueConsumed(r: RestingOrder, tick: MarketTick): int {
    if r.queueAheadQty > 0 then Min(r.queueAheadQty, OppositeQty(r.side, tick)) else 0
  }

  function Reached(r: RestingOrder, tick: MarketTick): int {
    OppositeQty(r.side, tick) - QueueConsumed(r, tick)
  }

  predicate Marketable(r: RestingOrder, tick: MarketTick) {
    r.active && Crosses(r.side, r.price, tick)
  }

  predicate FillsOn(r: RestingOrder, tick: MarketTick) {
    Marketable(r, tick) && Reached(r, tick) > 0
  }

  predicate Stale(r: RestingOrder, tick: MarketTick) {
    tick.receiveTs - r.submitTs > STALE_AFTER
  }

  /** Has the market moved against the side of the order by at least the threshold? */
  predicate Adverse(side: Side, price: int, tick: MarketTick) {
    Sign(side) * (price - Mid(tick)) >= ADVERSE_MOVE
  }

  function CountFlags(st: Stats, stale: bool, adverse: bool): Stats {
    st.(staleFills := st.staleFills + (if stale then 1 else 0),
        adverseFills := st.adverseFills + (if adverse then 1 else 0))
  }

  function MatchResting(s: Simulator, tick: MarketTick): (Simulator, Report) {
    var r := s.resting;
    if !Marketable(r, tick) then (s, Unfilled(true, r.leavesQty))
    else
      var queue := r.queueAheadQty - QueueConsumed(r, tick);
      if Reached(r, tick) <= 0 then
        (s.(resting := r.(queueAheadQty := queue)), Unfilled(true, r.leavesQty))
      else
        var qty := Min(r.leavesQty, Reached(r, tick));
        var left := r.leavesQty - qty;
        (s.(resting := r.(queueAheadQty := queue, leavesQty := left, active := left != 0,
                          cancelPending := r.cancelPending && left != 0),
            stats := CountFlags(CountFill(s.stats, Passive, qty < r.leavesQty), Stale(r, tick), Adverse(r.side, r.price, tick))),
         Report(true, true, qty < r.leavesQty, false, Stale(r, tick), Adverse(r.side, r.price, tick),
                Fill(tick.receiveTs, r.price, qty, r.side), left))
  }

  function Ticked(s: Simulator, tick: MarketTick): (Simulator, Report) {
    if !s.resting.active then (s, Unfilled(true, 0))
    else
      var (m, report) := MatchResting(s, tick);
      if report.hasFill then (m, report)
      else if m.resting.active && m.resting.cancelPending && tick.receiveTs >= m.resting.cancelEffectiveTs then
        (m.(resting := m.resting.(active := false, cancelPending := false),
            stats := m.stats.(cancelAcks := m.stats.cancelAcks + 1)),
         Report(true, false, false, true, false, false, NO_FILL, 0))
      else (m, Unfilled(true, if m.resting.active then m.resting.leavesQty else 0))
  }

  function CancelAsked(s: Simulator, ts: int): (Simulator, bool) {
    if !s.resting.active || s.resting.cancelPending then (s, false)
    else
      (s.(resting := s.resting.(cancelPending := true, cancelEffectiveTs := ts + s.cancelLatency),
          stats := s.stats.(cancelRequests := s.stats.cancelRequests + 1)), true)
  }

  // ---------------------------------------------------------------------------
  // The component
  // ---------------------------------------------------------------------------

  class ExecutionSimulator {
    const cancelLatency: int
    var resting: RestingOrder
    var stats: Stats

    function State(): Simulator
      reads this
    {
      Simulator(cancelLatency, resting, stats)
    }

    constructor (cancelLatency: int)
      ensures State() == Fresh(cancelLatency)
    {
      this.cancelLatency := cancelLatency;
      resting := NO_ORDER;
      stats := NO_STATS;
    }

    method SubmitOrder(tick: MarketTick, req: OrderRequest, style: Style) returns (report: Report)
      modifies this
      ensures (State(), report) == Placed(old(State()), tick, req, style)
    {
      if req.quantity <= 0 {
        return Unfilled(false, 0);
      }
      if style == Aggressive {
        report := AggressiveFill(tick, req);
        return;
      }
      if resting.active {
        return Unfilled(false, resting.leavesQty);
      }
      resting := RestingOrder(true, req.side, req.limitPrice, req.quantity,
                              if req.side == Buy then tick.bidQty else tick.askQty,
                              tick.receiveTs, false, 0);
      return Unfilled(true, resting.leavesQty);
    }

    method OnTick(tick: MarketTick) returns (report: Report)
      modifies this
      ensures (State(), report) == Ticked(old(State()), tick)
    {
      if !resting.active {
        return Unfilled(true, 0);
      }
      report := PassiveFillFromMarket(tick);
      if report.hasFill {
        return;
      }
      if resting.active && resting.cancelPending && tick.receiveTs >= resting.cancelEffectiveTs {
        resting := resting.(active := false);
        resting := resting.(cancelPending := false);
        stats := stats.(cancelAcks := stats.cancelAcks + 1);
        return Report(true, false, false, true, false, false, NO_FILL, 0);
      }
      return Unfilled(true, if resting.active then resting.leavesQty else 0);
    }

    method RequestCancel(ts: int) returns (ok: bool)
      modifies this
      ensures (State(), ok) == CancelAsked(old(State()), ts)
    {
      if !resting.active || resting.cancelPending {
        return false;
      }
      resting := resting.(cancelPending := true);
      resting := resting.(cancelEffectiveTs := ts + cancelLatency);
      stats := stats.(cancelRequests := stats.cancelRequests + 1);
      return true;
    }

    method AggressiveFill(tick: MarketTick, req: OrderRequest) returns (report: Report)
      modifies this
      ensures (State(), report) == TakeLiquidity(old(State()), tick, req)
    {
      var available := if req.side == Buy then tick.askQty else tick.bidQty;
      var qty := if available < req.quantity then available else req.quantity;
      if qty <= 0 {
        return Unfilled(true, req.quantity);
      }
      var wasPartial := qty < req.quantity;
      if wasPartial {
        stats := stats.(partialFills := stats.partialFills + 1);
      }
      stats := stats.(aggressiveFills := stats.aggressiveFills + 1);
      var price := if req.side == Buy then tick.askPrice else tick.bidPrice;
      return Report(true, true, wasPartial, false, false, false,
                    Fill(tick.receiveTs, price, qty, req.side), req.quantity - qty);
    }

    method DetectAdverseSelection(tick: MarketTick) returns (adverse: bool)
      ensures adverse == Adverse(resting.side, resting.price, tick)
    {
      var mid := Mid(tick);
      if resting.side == Buy {
        return mid + ADVERSE_MOVE <= resting.price;
      }
      return mid - ADVERSE_MOVE >= resting.price;
    }

    method CountPassiveFill(wasPartial: bool, staleQuote: bool, adverse: bool)
      modifies this`stats
      ensures stats == CountFlags(CountFill(old(stats), Passive, wasPartial), staleQuote, adverse)
    {
      if wasPartial {
        stats := stats.(partialFills := stats.partialFills + 1);
      }
      if staleQuote {
        stats := stats.(staleFills := stats.staleFills + 1);
      }
      if adverse {
        stats := stats.(adverseFills := stats.adverseFills + 1);
      }
      stats := stats.(passiveFills := stats.passiveFills + 1);
    }

    method PassiveFillFromMarket(tick: MarketTick) returns (report: Report)
      modifies this
      ensures (State(), report) == MatchResting(old(State()), tick)
    {
      hide Adverse, CountFill, CountFlags;
      var marketable := resting.active
        && (if resting.side == Buy then tick.askPrice <= resting.price else tick.bidPrice >= resting.price);
      if !marketable {
        return Unfilled(true, resting.leavesQty);
      }
      var available := if resting.side == Buy then tick.askQty else tick.bidQty;
      if resting.queueAheadQty > 0 {
        var consumed := if resting.queueAheadQty < available then resting.queueAheadQty else available;
        resting := resting.(queueAheadQty := resting.queueAheadQty - consumed);
        available := available - consumed;
      }
      if available <= 0 {
        return Unfilled(true, resting.leavesQty);
      }
      var qty := if resting.leavesQty < available then resting.leavesQty else available;
      var wasPartial := qty < resting.leavesQty;
      resting := resting.(leavesQty := resting.leavesQty - qty);
      var staleQuote := tick.receiveTs - resting.submitTs > STALE_AFTER;
      var adverse := DetectAdverseSelection(tick);
      CountPassiveFill(wasPartial, staleQuote, adverse);
      var fill := Fill(tick.receiveTs, resting.price, qty, resting.side);
      var leaves := resting.leavesQty;
      if resting.leavesQty == 0 {
        resting := resting.(active := false);
        resting := resting.(cancelPending := false);
      }
      return Report(true, true, wasPartial, false, staleQuote, adverse, fill, leaves);
    }
  }

  // ---------------------------------------------------------------------------
  // Resting orders over any sequence of ticks and cancel requests
  // ---------------------------------------------------------------------------

  datatype Op = Tick(tick: MarketTick) | AskCancel(ts: int)

  ghost predicate RestingInv(r: RestingOrder) {
    && r.leavesQty >= 0
    && (r.active ==> r.leavesQty > 0)
    && (r.cancelPending ==> r.active)
  }

  function Step(s: Simulator, op: Op): (Simulator, Report) {
    match op
    case Tick(tick) => Ticked(s, tick)
    case AskCancel(ts) => (CancelAsked(s, ts).0, Unfilled(true, s.resting.leavesQty))
  }

  function Steps(s: Simulator, ops: seq<Op>): Simulator {
    if ops == [] then s else Step(Steps(s, ops[..|ops| - 1]), ops[|ops| - 1]).0
  }

  function LastReport(s: Simulator, ops: seq<Op>): Report
    requires ops != []
  {
    Step(Steps(s, ops[..|ops| - 1]), ops[|ops| - 1]).1
  }

  /** Quantity reported filled by the ticks of `ops`. */
  function FilledOver(s: Simulator, ops: seq<Op>): int {
    if ops == [] then 0
    else FilledOver(s, ops[..|ops| - 1]) + LastReport(s, ops).fill.quantity
  }

  /** Did some tick of `ops` acknowledge a cancel? */
  predicate AckedOver(s: Simulator, ops: seq<Op>) {
    ops != [] && (AckedOver(s, ops[..|ops| - 1]) || LastReport(s, ops).cancelAcked)
  }

  /** Quantity a tick offers at the order's price or better. */
  function VolumeOf(r: RestingOrder, op: Op): int {
    if op.AskCancel? then 0
    else if r.side == Buy then (if op.tick.askPrice <= r.price then op.tick.askQty else 0)
    else (if op.tick.bidPrice >= r.price then op.tick.bidQty else 0)
  }

  function Crossed(r: RestingOrder, ops: seq<Op>): int {
    if ops == [] then 0 else Crossed(r, ops[..|ops| - 1]) + VolumeOf(r, ops[|ops| - 1])
  }

  ghost predicate NonNegativeQty(ops: seq<Op>) {
    forall i :: 0 <= i < |ops| && ops[i].Tick? ==> ops[i].tick.bidQty >= 0 && ops[i].tick.askQty >= 0
  }

  lemma StepFacts(s: Simulator, op: Op)
    requires RestingInv(s.resting)
    ensures var (s', report) := Step(s, op);
      && RestingInv(s'.resting)
      && s'.resting.side == s.resting.side && s'.resting.price == s.resting.price
      && s'.resting.leavesQty + report.fill.quantity == s.resting.leavesQty
      && report.fill.quantity >= 0
      && (s'.resting.active ==> s.resting.active)
      && (report.cancelAcked ==> !s'.resting.active && report.fill.quantity == 0)
      && (!s.resting.active ==> s'.resting == s.resting && !report.cancelAcked)
      && (s.resting.active && !s'.resting.active && !report.cancelAcked ==> s'.resting.leavesQty == 0)
  {
  }

  /** Filled quantity and remainder always add up to the order; once inactive, nothing more happens. */
  lemma {:induction false} Conservation(s: Simulator, ops: seq<Op>)
    requires RestingInv(s.resting) && s.resting.active
    ensures var e := Steps(s, ops);
      && RestingInv(e.resting)
      && e.resting.side == s.resting.side && e.resting.price == s.resting.price
      && FilledOver(s, ops) + e.resting.leavesQty == s.resting.leavesQty
      && (!e.resting.active ==> e.resting.leavesQty == 0 || AckedOver(s, ops))
      && (AckedOver(s, ops) ==> !e.resting.active)
  {
    if ops == [] {
    } else {
      Conservation(s, ops[..|ops| - 1]);
      StepFacts(Steps(s, ops[..|ops| - 1]), ops[|ops| - 1]);
    }
  }

  lemma {:induction false} NothingAfterInactive(s: Simulator, ops: seq<Op>)
    requires RestingInv(s.resting) && !s.resting.active
    ensures Steps(s, ops).resting == s.resting && FilledOver(s, ops) == 0 && !AckedOver(s, ops)
  {
    if ops == [] {
    } else {
      NothingAfterInactive(s, ops[..|ops| - 1]);
      StepFacts(Steps(s, ops[..|ops| - 1]), ops[|ops| - 1]);
    }
  }

  lemma QueueStep(s: Simulator, op: Op)
    requires RestingInv(s.resting) && s.resting.queueAheadQty >= 0
    requires op.Tick? ==> op.tick.bidQty >= 0 && op.tick.askQty >= 0
    requires !s.resting.active ==> s.resting.leavesQty == s.resting.queueAheadQty == 0
    ensures var (e, report) := Step(s, op);
      && VolumeOf(s.resting, op) >= 0
      && e.resting.queueAheadQty == Max(0, s.resting.queueAheadQty - VolumeOf(s.resting, op))
      && report.fill.quantity == Min(s.resting.leavesQty, Max(0, VolumeOf(s.resting, op) - s.resting.queueAheadQty))
  {
  }

  /** Serving a queue of `q` and then an order of `n` composes over successive volumes. */
  lemma QueueComposes(n: int, q: int, v: int, w: int)
    requires n >= 0 && q >= 0 && v >= 0 && w >= 0
    ensures var done := Min(n, Max(0, v - q));
      done + Min(n - done, Max(0, w - Max(0, q - v))) == Min(n, Max(0, v + w - q))
    ensures Max(0, Max(0, q - v) - w) == Max(0, q - (v + w))
  {
  }

  /** An order of `n` behind a queue of `q` once `volume` has crossed its price. */
  ghost predicate Served(n: int, q: int, r: RestingOrder, filled: int, volume: int) {
    && volume >= 0
    && filled == Min(n, Max(0, volume - q))
    && r.leavesQty == n - filled
    && r.queueAheadQty == Max(0, q - volume)
  }

  lemma ServedStep(n: int, q: int, s: Simulator, filled: int, volume: int, op: Op)
    requires n > 0 && q >= 0 && RestingInv(s.resting)
    requires Served(n, q, s.resting, filled, volume)
    requires !s.resting.active ==> s.resting.leavesQty == 0
    requires op.Tick? ==> op.tick.bidQty >= 0 && op.tick.askQty >= 0
    ensures Served(n, q, Step(s, op).0.resting, filled + Step(s, op).1.fill.quantity, volume + VolumeOf(s.resting, op))
  {
    QueueStep(s, op);
    StepFacts(s, op);
    QueueComposes(n, q, volume, VolumeOf(s.resting, op));
  }

  lemma NothingServed(r: RestingOrder)
    requires RestingInv(r) && r.queueAheadQty >= 0
    ensures Served(r.leavesQty, r.queueAheadQty, r, 0, 0)
  {
  }

  /** The queue model in closed form: fills and queue depend only on the total crossed volume. */
  lemma {:induction false} QueueClosedForm(s: Simulator, ops: seq<Op>)
    requires RestingInv(s.resting) && s.resting.active && s.resting.queueAheadQty >= 0
    requires NonNegativeQty(ops) && !AckedOver(s, ops)
    ensures Served(s.resting.leavesQty, s.resting.queueAheadQty,
                   Steps(s, ops).resting, FilledOver(s, ops), Crossed(s.resting, ops))
  {
    hide Step, Served;
    if ops == [] {
      NothingServed(s.resting);
    } else {
      var prior, op := ops[..|ops| - 1], ops[|ops| - 1];
      QueueClosedForm(s, prior);
      Conservation(s, prior);
      ServedStep(s.resting.leavesQty, s.resting.queueAheadQty,
                 Steps(s, prior), FilledOver(s, prior), Crossed(s.resting, prior), op);
    }
  }

  // ---------------------------------------------------------------------------
  // A pending cancel ends the order
  // ---------------------------------------------------------------------------

  /** Ticks of `ops` on which a cancel effective at `ts` may be acknowledged. */
  function EligibleTicks(ts: int, ops: seq<Op>): nat {
    if ops == [] then 0
    else
      var op := ops[|ops| - 1];
      EligibleTicks(ts, ops[..|ops| - 1]) + (if op.Tick? && op.tick.receiveTs >= ts then 1 else 0)
  }

  /** Each eligible tick fills something or ends the order, so it ends within `leaves` of them. */
  lemma {:induction false} CancelTerminates(s: Simulator, ops: seq<Op>)
    requires RestingInv(s.resting) && s.resting.active && s.resting.cancelPending
    ensures var e := Steps(s, ops);
      var eligible := EligibleTicks(s.resting.cancelEffectiveTs, ops);
      && (eligible >= s.resting.leavesQty ==> !e.resting.active)
      && (e.resting.active ==>
            && e.resting.cancelPending
            && e.resting.cancelEffectiveTs == s.resting.cancelEffectiveTs
            && e.resting.leavesQty + eligible <= s.resting.leavesQty)
  {
    if ops == [] {
    } else {
      CancelTerminates(s, ops[..|ops| - 1]);
      Conservation(s, ops[..|ops| - 1]);
      StepFacts(Steps(s, ops[..|ops| - 1]), ops[|ops| - 1]);
    }
  }

  /** A cancel is never acknowledged before it has been on its way for the latency. */
  lemma NoEarlyAck(s: Simulator, ts: int, ops: seq<Op>)
    requires RestingInv(s.resting) && s.resting.active && !s.resting.cancelPending && ops != []
    requires LastReport(CancelAsked(s, ts).0, ops).cancelAcked
    ensures ops[|ops| - 1].Tick? && ops[|ops| - 1].tick.receiveTs >= ts + s.cancelLatency
  {
    CancelTerminates(CancelAsked(s, ts).0, ops[..|ops| - 1]);
    Conservation(CancelAsked(s, ts).0, ops[..|ops| - 1]);
  }

  // ---------------------------------------------------------------------------
  // What reports and counters say
  // ---------------------------------------------------------------------------

  /** Is the mid price of a tick, rounded down, 10000 or more on the losing side of a price? */
  predicate MovedAgainst(side: Side, price: int, tick: MarketTick) {
    var twice := tick.bidPrice + tick.askPrice;
    if side == Buy then twice < 2 * (price - 10000) + 2 else twice >= 2 * (price + 10000)
  }

  /** The report on a resting order, from the order before and after the tick. */
  lemma TickReport(s: Simulator, tick: MarketTick)
    requires RestingInv(s.resting)
    ensures var (e, report) := Ticked(s, tick);
      var filled := s.resting.leavesQty - e.resting.leavesQty;
      && report.accepted && (report.hasFill <==> filled > 0)
      && report.fill == (if filled > 0 then Fill(tick.receiveTs, s.resting.price, filled, s.resting.side) else NO_FILL)
      && (report.wasPartial <==> filled > 0 && e.resting.leavesQty > 0)
      && report.leavesQty == (if e.resting.active then e.resting.leavesQty else 0)
      && (report.cancelAcked <==>
            s.resting.active && s.resting.cancelPending && filled == 0 && tick.receiveTs >= s.resting.cancelEffectiveTs)
      && (report.stale <==> filled > 0 && tick.receiveTs - s.resting.submitTs > 1000)
      && (tick.bidPrice >= 0 && tick.askPrice >= 0 ==>
            (report.adverse <==> filled > 0 && MovedAgainst(s.resting.side, s.resting.price, tick)))
  {
  }

  /** The report on a submission. An aggressive order takes what the other side shows, at its price, and
      leaves no trace in the book; a passive one enters the book behind what its own side shows. */
  lemma PlaceReport(s: Simulator, tick: MarketTick, req: OrderRequest, style: Style)
    ensures var (e, report) := Placed(s, tick, req, style);
      var (shown, touch) := if req.side == Buy then (tick.askQty, tick.askPrice) else (tick.bidQty, tick.bidPrice);
      var filled := if style == Aggressive && req.quantity > 0 then Max(0, Min(shown, req.quantity)) else 0;
      && (report.accepted <==> req.quantity > 0 && (style == Aggressive || !s.resting.active))
      && (report.hasFill <==> filled > 0)
      && report.fill == (if filled > 0 then Fill(tick.receiveTs, touch, filled, req.side) else NO_FILL)
      && (report.wasPartial <==> 0 < filled < req.quantity)
      && !report.cancelAcked && !report.stale && !report.adverse
      && (report.accepted ==> report.leavesQty == req.quantity - filled)
      && (!report.accepted && req.quantity > 0 ==> report.leavesQty == s.resting.leavesQty)
      && (req.quantity <= 0 ==> report.leavesQty == 0)
      && (report.accepted && style == Passive ==>
            e.resting == RestingOrder(true, req.side, req.limitPrice, req.quantity,
                                      if req.side == Buy then tick.bidQty else tick.askQty, tick.receiveTs, false, 0))
      && (!(report.accepted && style == Passive) ==> e.resting == s.resting)
  {
  }

  datatype SimCall = Place(tick: MarketTick, request: OrderRequest, style: Style) | Do(op: Op)

  /** The simulator after a call, its report, and whether the call was a cancel that was taken. */
  function SimCalled(s: Simulator, c: SimCall): (Simulator, Report, bool) {
    match c
    case Place(tick, req, style) => (Placed(s, tick, req, style).0, Placed(s, tick, req, style).1, false)
    case Do(op) => (Step(s, op).0, Step(s, op).1, op.AskCancel? && CancelAsked(s, op.ts).1)
  }

  function SimAfter(s: Simulator, calls: seq<SimCall>): Simulator {
    if calls == [] then s else SimCalled(SimAfter(s, calls[..|calls| - 1]), calls[|calls| - 1]).0
  }

  function One(b: bool): int { if b then 1 else 0 }

  function Bumped(n: Stats, c: SimCall, report: Report, taken: bool): Stats {
    Stats(n.aggressiveFills + One(c.Place? && report.hasFill), n.passiveFills + One(c.Do? && report.hasFill),
          n.partialFills + One(report.wasPartial), n.cancelRequests + One(taken),
          n.cancelAcks + One(report.cancelAcked), n.staleFills + One(report.stale), n.adverseFills + One(report.adverse))
  }

  lemma CallCounts(s: Simulator, c: SimCall)
    ensures SimCalled(s, c).0.stats == Bumped(s.stats, c, SimCalled(s, c).1, SimCalled(s, c).2)
  {
    hide Reached, Crosses, Adverse, QueueConsumed;
  }

  /** Counters as they follow from what was reported. */
  function Counted(s: Simulator, calls: seq<SimCall>): Stats {
    if calls == [] then Stats(0, 0, 0, 0, 0, 0, 0)
    else
      var prior, c := calls[..|calls| - 1], calls[|calls| - 1];
      var (_, report, taken) := SimCalled(SimAfter(s, prior), c);
      Bumped(Counted(s, prior), c, report, taken)
  }

  /** Over any calls, each counter is the number of reports of its kind. */
  lemma {:induction false} CountersCount(cancelLatency: int, calls: seq<SimCall>)
    ensures SimAfter(Fresh(cancelLatency), calls).stats == Counted(Fresh(cancelLatency), calls)
  {
    hide SimCalled, Bumped;
    if calls == [] {
    } else {
      CountersCount(cancelLatency, calls[..|calls| - 1]);
      CallCounts(SimAfter(Fresh(cancelLatency), calls[..|calls| - 1]), calls[|calls| - 1]);
    }
  }
}
