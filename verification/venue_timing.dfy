/** When the venue answers, and how, over any sequence of gateway calls. */
module VenueTiming {
  import opened Types
  import opened OrderManagement
  import opened Execution
  import opened VenueGateway
  import opened VenueLog

  ghost predicate Sent(calls: seq<GatewayCall>, c: GatewayCall) {
    exists i :: 0 <= i < |calls| && calls[i] == c
  }

  lemma SentBefore(calls: seq<GatewayCall>, c: GatewayCall)
    requires calls != [] && Sent(calls[..|calls| - 1], c)
    ensures Sent(calls, c)
  {
    var i :| 0 <= i < |calls| - 1 && calls[..|calls| - 1][i] == c;
    assert calls[i] == c;
  }

  ghost predicate CancelOnItsWay(g: Gateway, calls: seq<GatewayCall>, latency: int) {
    exists ts :: Sent(calls, CancelCall(ts)) && g.act.cancelSendTs == ts + latency
  }

  /** Everything the gateway waits for was asked of it, and is due one latency later. */
  ghost predicate OnTime(g: Gateway, calls: seq<GatewayCall>, newAckLatency: int, cancelSendLatency: int) {
    && g.newAckLatency == newAckLatency && g.cancelSendLatency == cancelSendLatency
    && (g.pending.active ==>
          && Sent(calls, New(g.pending.request))
          && g.pending.ackReadyTs == g.pending.request.submitTs + newAckLatency
          && (g.pending.shouldReject <==> g.pending.request.clientOrderId % 3 == 0))
    && (g.act.active && g.act.cancelSent ==> CancelOnItsWay(g, calls, cancelSendLatency))
  }

  /** What a tick leaves of pending requests. */
  lemma TickKeepsRequests(g: Gateway, tick: MarketTick)
    requires GatewayInv(g)
    ensures var h := Polled(g, tick).0;
      && h.newAckLatency == g.newAckLatency && h.cancelSendLatency == g.cancelSendLatency
      && (h.pending.active ==> h.pending == g.pending)
      && (h.act.active && h.act.cancelSent ==> g.act.active && g.act.cancelSent && h.act.cancelSendTs == g.act.cancelSendTs)
  {
    hide Placed, Ticked, CancelAsked, RefusesCancel, PushReport, Push, RestingInv;
  }

  lemma CallOnTime(g: Gateway, calls: seq<GatewayCall>, newAckLatency: int, cancelSendLatency: int)
    requires calls != [] && GatewayInv(g) && OnTime(g, calls[..|calls| - 1], newAckLatency, cancelSendLatency)
    ensures OnTime(Called(g, calls[|calls| - 1]).0, calls, newAckLatency, cancelSendLatency)
  {
    var c := calls[|calls| - 1];
    var h := Called(g, c).0;
    assert Sent(calls, c);
    if g.pending.active {
      SentBefore(calls, New(g.pending.request));
    }
    if g.act.active && g.act.cancelSent {
      var ts :| Sent(calls[..|calls| - 1], CancelCall(ts)) && g.act.cancelSendTs == ts + cancelSendLatency;
      SentBefore(calls, CancelCall(ts));
    }
    match c
    case New(req) => RulesOnIds(req.clientOrderId);
    case CancelCall(_) =>
    case TickCall(tick) => TickKeepsRequests(g, tick); hide Polled;
  }

  lemma {:induction false} AlwaysOnTime(newAckLatency: int, cancelSendLatency: int, cancelLatency: int, calls: seq<GatewayCall>)
    ensures OnTime(GatewayAfter(Open(newAckLatency, cancelSendLatency, cancelLatency), calls), calls,
                   newAckLatency, cancelSendLatency)
  {
    var g := Open(newAckLatency, cancelSendLatency, cancelLatency);
    if calls == [] {
    } else {
      hide Called, OnTime;
      var prior := calls[..|calls| - 1];
      AlwaysOnTime(newAckLatency, cancelSendLatency, cancelLatency, prior);
      StreamIsOrderly(newAckLatency, cancelSendLatency, cancelLatency, prior);
      CallOnTime(GatewayAfter(g, prior), calls, newAckLatency, cancelSendLatency);
    }
  }

  lemma AnswerOnTick(g: Gateway, tick: MarketTick)
    requires GatewayInv(g) && g.pending.active
    ensures var events := Polled(g, tick).1.events;
      if tick.receiveTs < g.pending.ackReadyTs then events == []
      else if g.pending.shouldReject then events == [VenueEvent(NewReject, tick.receiveTs, 0, 0, 0)]
      else events != [] && events[0] == VenueEvent(NewAck, tick.receiveTs, g.nextVenueOrderId, 0, 0)
  {
    if tick.receiveTs < g.pending.ackReadyTs {
      PollIdle(g, tick);
    } else if !g.pending.shouldReject {
      hide Polled;
      if g.pending.request.style == Aggressive {
        PollAggressive(g, tick);
      } else {
        PollPassive(g, tick);
      }
    }
  }

  /** A new order is answered by the first tick that comes one latency or more after it was sent, and by
      none before: with a reject if its client id is a multiple of three, otherwise with an
      acknowledgement that carries the next id. */
  lemma NewOrderAnswered(newAckLatency: int, cancelSendLatency: int, cancelLatency: int,
                         calls: seq<GatewayCall>, tick: MarketTick)
    ensures var g := GatewayAfter(Open(newAckLatency, cancelSendLatency, cancelLatency), calls);
      var log := Log(Open(newAckLatency, cancelSendLatency, cancelLatency), calls);
      var req, events := g.pending.request, Polled(g, tick).1.events;
      g.pending.active ==>
        && Sent(calls, New(req))
        && (if tick.receiveTs < req.submitTs + newAckLatency then events == []
            else if req.clientOrderId % 3 == 0 then events == [VenueEvent(NewReject, tick.receiveTs, 0, 0, 0)]
            else events != [] && events[0] == VenueEvent(NewAck, tick.receiveTs, 100000 + AckCount(log), 0, 0))
  {
    var start := Open(newAckLatency, cancelSendLatency, cancelLatency);
    var g, log := GatewayAfter(start, calls), Log(start, calls);
    AlwaysOnTime(newAckLatency, cancelSendLatency, cancelLatency, calls);
    var c := StreamTracked(start, calls);
    hide GatewayAfter, Log, Sizes, AckCount, Orderly, StillOpen, Ends;
    if g.pending.active {
      AnswerOnTick(g, tick);
    }
  }

  ghost predicate HasRefusal(events: seq<VenueEvent>) {
    exists i :: 0 <= i < |events| && events[i].kind.CancelReject?
  }

  /** One tick refuses a cancel exactly if one is due that the rule refuses. */
  lemma RefusalOnTick(g: Gateway, tick: MarketTick)
    requires GatewayInv(g)
    ensures HasRefusal(Polled(g, tick).1.events) <==> CancelDue(g, tick) && RefusesCancel(g.act)
    ensures HasRefusal(Polled(g, tick).1.events) ==>
      Polled(g, tick).1.events == [CancelRejectEvent(tick.receiveTs, g.act.venueOrderId)]
  {
    if AckDue(g, tick) {
      if g.pending.shouldReject {
      } else {
        hide Polled;
        if g.pending.request.style == Aggressive {
          PollAggressive(g, tick);
        } else {
          PollPassive(g, tick);
        }
      }
    } else {
      hide Polled;
      if !g.act.active {
        PollIdle(g, tick);
      } else if CancelDue(g, tick) && RefusesCancel(g.act) {
        PollRefused(g, tick);
        assert Polled(g, tick).1.events[0].kind.CancelReject?;
      } else {
        PollWorking(g, tick);
      }
    }
  }

  /** A tick refuses a cancel, and then says nothing else, exactly if the order is in the book under an odd
      id, its cancel was sent one latency or more ago, and no cancel of it was refused before. */
  lemma CancelRefusedExactly(newAckLatency: int, cancelSendLatency: int, cancelLatency: int,
                             calls: seq<GatewayCall>, tick: MarketTick)
    ensures var g := GatewayAfter(Open(newAckLatency, cancelSendLatency, cancelLatency), calls);
      var log := Log(Open(newAckLatency, cancelSendLatency, cancelLatency), calls);
      var id, events := g.act.venueOrderId, Polled(g, tick).1.events;
      && (g.act.active && g.act.cancelSent ==> CancelOnItsWay(g, calls, cancelSendLatency))
      && (HasRefusal(events) <==>
            g.act.active && g.act.cancelSent && tick.receiveTs >= g.act.cancelSendTs && id % 2 == 1 && !Refused(log, id))
      && (HasRefusal(events) ==> events == [VenueEvent(CancelReject, tick.receiveTs, id, 0, 0)])
  {
    var start := Open(newAckLatency, cancelSendLatency, cancelLatency);
    var g, log := GatewayAfter(start, calls), Log(start, calls);
    AlwaysOnTime(newAckLatency, cancelSendLatency, cancelLatency, calls);
    var c := StreamTracked(start, calls);
    hide GatewayAfter, Log, Sizes, AckCount, Orderly, Ends, Polled, Refused, HasRefusal;
    RefusalOnTick(g, tick);
    if g.act.active {
      RulesOnIds(g.act.venueOrderId);
    }
  }
}
