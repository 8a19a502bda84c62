/** The stream of venue events over any sequence of gateway calls. */
module VenueLog {
  import opened Types
  import opened OrderManagement
  import opened Execution
  import opened VenueGateway

  datatype GatewayCall = New(request: NewOrder) | CancelCall(ts: int) | TickCall(tick: MarketTick)

  function Called(g: Gateway, c: GatewayCall): (Gateway, seq<VenueEvent>) {
    match c
    case New(req) => (NewSent(g, req).0, [])
    case CancelCall(ts) => (CancelSent(g, ts).0, [])
    case TickCall(tick) => (Polled(g, tick).0, Polled(g, tick).1.events)
  }

  function GatewayAfter(g: Gateway, calls: seq<GatewayCall>): Gateway {
    if calls == [] then g else Called(GatewayAfter(g, calls[..|calls| - 1]), calls[|calls| - 1]).0
  }

  function Log(g: Gateway, calls: seq<GatewayCall>): seq<VenueEvent> {
    if calls == [] then []
    else Log(g, calls[..|calls| - 1]) + Called(GatewayAfter(g, calls[..|calls| - 1]), calls[|calls| - 1]).1
  }

  /** The size of every order acknowledged so far, by the id it was given. */
  function Sizes(g: Gateway, calls: seq<GatewayCall>): map<int, int> {
    if calls == [] then map[]
    else
      var prior := calls[..|calls| - 1];
      Recorded(Sizes(g, prior), GatewayAfter(g, prior), calls[|calls| - 1])
  }

  function Recorded(sizes: map<int, int>, g: Gateway, c: GatewayCall): map<int, int> {
    if c.TickCall? && AckDue(g, c.tick) && !g.pending.shouldReject
    then sizes[g.nextVenueOrderId := g.pending.request.quantity] else sizes
  }

  function FilledOf(e: VenueEvent, id: int): int {
    if e.kind.Fill? && e.venueOrderId == id then e.fillQty else 0
  }

  /** Quantity a stream says was filled of order `id`. */
  function FilledIn(log: seq<VenueEvent>, id: int): int {
    if log == [] then 0 else FilledIn(log[..|log| - 1], id) + FilledOf(log[|log| - 1], id)
  }

  /** Event `i` ends its order: a cancel acknowledgement, an expiry, or the fill that completes it. */
  ghost predicate Ends(sizes: map<int, int>, log: seq<VenueEvent>, i: nat)
    requires i < |log|
  {
    var e := log[i];
    || e.kind.CancelAck? || e.kind.Expired?
    || (e.kind.Fill? && e.venueOrderId in sizes && FilledIn(log[..i + 1], e.venueOrderId) == sizes[e.venueOrderId])
  }

  ghost predicate AcksGrow(log: seq<VenueEvent>) {
    forall i, j :: 0 <= i < j < |log| && log[i].kind.NewAck? && log[j].kind.NewAck?
      ==> log[i].venueOrderId < log[j].venueOrderId
  }

  function AckCount(log: seq<VenueEvent>): nat {
    if log == [] then 0 else AckCount(log[..|log| - 1]) + (if log[|log| - 1].kind.NewAck? then 1 else 0)
  }

  /** Ids are given out one by one from 100000. */
  ghost predicate AcksInSequence(log: seq<VenueEvent>) {
    forall i :: 0 <= i < |log| && log[i].kind.NewAck? ==> log[i].venueOrderId == 100000 + AckCount(log[..i])
  }

  ghost predicate NothingAfterEnd(sizes: map<int, int>, log: seq<VenueEvent>) {
    forall i, j :: 0 <= i < j < |log| && Ends(sizes, log, i) ==> log[j].venueOrderId != log[i].venueOrderId
  }

  ghost predicate OneRefusal(log: seq<VenueEvent>) {
    forall i, j :: 0 <= i < j < |log| && log[i].kind.CancelReject? && log[j].kind.CancelReject?
      ==> log[i].venueOrderId != log[j].venueOrderId
  }

  /** Fills name acknowledged orders, are positive, and never add up to more than the order. */
  ghost predicate NoOverfill(sizes: map<int, int>, log: seq<VenueEvent>) {
    && (forall i :: 0 <= i < |log| && log[i].kind.Fill? ==> log[i].venueOrderId in sizes && log[i].fillQty > 0)
    && (forall id :: id in sizes ==> FilledIn(log, id) <= sizes[id])
  }

  /** Ids count the acknowledgements, an order that has ended is never heard of again, no order has
      two cancels refused, and none is overfilled. */
  ghost predicate Orderly(sizes: map<int, int>, log: seq<VenueEvent>) {
    AcksGrow(log) && AcksInSequence(log) && NothingAfterEnd(sizes, log) && OneRefusal(log) && NoOverfill(sizes, log)
  }

  // ---------------------------------------------------------------------------
  // What a stream allows next
  // ---------------------------------------------------------------------------

  /** The next id to be given out, the order last acknowledged (0 once it has ended), its leaves, and
      whether it has already had a cancel refused. */
  datatype Cursor = Cursor(next: int, open: int, leaves: int, refused: bool)

  predicate Allowed(c: Cursor, sizes: map<int, int>, e: VenueEvent) {
    match e.kind
    case NewAck => e.venueOrderId == c.next && c.next in sizes && sizes[c.next] > 0
    case NewReject => e.venueOrderId == 0
    case CancelReject => e.venueOrderId == c.open && c.open > 0 && !c.refused
    case Fill => e.venueOrderId == c.open && c.open > 0 && 0 < e.fillQty <= c.leaves
    case _ => e.venueOrderId == c.open && c.open > 0
  }

  function Moved(c: Cursor, sizes: map<int, int>, e: VenueEvent): Cursor {
    match e.kind
    case NewAck => Cursor(c.next + 1, c.next, if c.next in sizes then sizes[c.next] else 0, false)
    case NewReject => c
    case CancelReject => c.(refused := true)
    case Fill => c.(leaves := c.leaves - e.fillQty, open := if e.fillQty == c.leaves then 0 else c.open)
    case _ => c.(open := 0)
  }

  predicate AllAllowed(c: Cursor, sizes: map<int, int>, events: seq<VenueEvent>)
    decreases |events|
  {
    events == [] || (Allowed(c, sizes, events[0]) && AllAllowed(Moved(c, sizes, events[0]), sizes, events[1..]))
  }

  function MovedAll(c: Cursor, sizes: map<int, int>, events: seq<VenueEvent>): Cursor
    decreases |events|
  {
    if events == [] then c else MovedAll(Moved(c, sizes, events[0]), sizes, events[1..])
  }

  /** Has a cancel of order `id` been refused? */
  ghost predicate Refused(log: seq<VenueEvent>, id: int) {
    exists i :: 0 <= i < |log| && log[i].kind.CancelReject? && log[i].venueOrderId == id
  }

  /** The open order has not ended and is filled up to its leaves. */
  ghost predicate StillOpen(c: Cursor, sizes: map<int, int>, log: seq<VenueEvent>) {
    && c.open in sizes && c.leaves > 0 && FilledIn(log, c.open) + c.leaves == sizes[c.open]
    && (forall i :: 0 <= i < |log| && log[i].venueOrderId == c.open
          ==> !Ends(sizes, log, i))
    && (c.refused <==> Refused(log, c.open))
  }

  ghost predicate At(c: Cursor, sizes: map<int, int>, log: seq<VenueEvent>) {
    && c.next > c.open >= 0 && c.next == 100000 + AckCount(log)
    && (forall i :: 0 <= i < |log| ==> log[i].venueOrderId < c.next)
    && (forall i :: 0 <= i < |log| && Ends(sizes, log, i) ==> log[i].venueOrderId > 0)
    && (c.open > 0 ==> StillOpen(c, sizes, log))
  }

  lemma FilledAppend(log: seq<VenueEvent>, e: VenueEvent)
    ensures forall id :: FilledIn(log + [e], id) == FilledIn(log, id) + FilledOf(e, id)
  {
    hide FilledOf;
    assert (log + [e])[..|log + [e]| - 1] == log;
  }

  /** What ends an order is not changed by later events. */
  lemma EndsAppend(sizes: map<int, int>, log: seq<VenueEvent>, e: VenueEvent)
    ensures forall i :: 0 <= i < |log| ==> Ends(sizes, log + [e], i) == Ends(sizes, log, i)
  {
    hide FilledIn;
    forall i | 0 <= i < |log|
      ensures Ends(sizes, log + [e], i) == Ends(sizes, log, i)
    {
      assert (log + [e])[..i + 1] == log[..i + 1];
    }
  }

  lemma {:induction false} NothingFilled(log: seq<VenueEvent>, id: int)
    requires forall i :: 0 <= i < |log| ==> log[i].venueOrderId < id
    ensures FilledIn(log, id) == 0
  {
    if log == [] {
    } else {
      NothingFilled(log[..|log| - 1], id);
    }
  }

  lemma AckAppend(log: seq<VenueEvent>, e: VenueEvent)
    ensures AckCount(log + [e]) == AckCount(log) + (if e.kind.NewAck? then 1 else 0)
  {
    assert (log + [e])[..|log + [e]| - 1] == log;
  }

  lemma RefusedAppend(log: seq<VenueEvent>, e: VenueEvent, id: int)
    ensures Refused(log + [e], id) <==> Refused(log, id) || (e.kind.CancelReject? && e.venueOrderId == id)
  {
    var more := log + [e];
    if Refused(log, id) {
      var i :| 0 <= i < |log| && log[i].kind.CancelReject? && log[i].venueOrderId == id;
      assert more[i] == log[i];
    }
    assert more[|log|] == e;
  }

  lemma SequenceAppend(log: seq<VenueEvent>, e: VenueEvent)
    requires AcksInSequence(log) && (e.kind.NewAck? ==> e.venueOrderId == 100000 + AckCount(log))
    ensures AcksInSequence(log + [e])
  {
    hide AckCount;
    var more := log + [e];
    forall i | 0 <= i < |more| && more[i].kind.NewAck?
      ensures more[i].venueOrderId == 100000 + AckCount(more[..i])
    {
      assert more[..i] == log[..i];
      assert i == |log| ==> log[..i] == log;
    }
  }

  lemma NothingRefused(log: seq<VenueEvent>, id: int)
    requires forall i :: 0 <= i < |log| ==> log[i].venueOrderId < id
    ensures !Refused(log, id)
  {
  }

  lemma LastEnds(sizes: map<int, int>, log: seq<VenueEvent>, e: VenueEvent)
    ensures Ends(sizes, log + [e], |log|) <==>
      || e.kind.CancelAck? || e.kind.Expired?
      || (e.kind.Fill? && e.venueOrderId in sizes && FilledIn(log + [e], e.venueOrderId) == sizes[e.venueOrderId])
  {
    hide FilledIn;
    assert (log + [e])[..|log| + 1] == log + [e];
  }

  /** The open order after an event that does not end it. */
  lemma AppendOpen(c: Cursor, sizes: map<int, int>, log: seq<VenueEvent>, e: VenueEvent)
    requires At(c, sizes, log) && Allowed(c, sizes, e) && Moved(c, sizes, e).open > 0
    ensures StillOpen(Moved(c, sizes, e), sizes, log + [e])
  {
    hide FilledIn, Ends;
    FilledAppend(log, e);
    EndsAppend(sizes, log, e);
    LastEnds(sizes, log, e);
    hide Refused;
    RefusedAppend(log, e, Moved(c, sizes, e).open);
    if e.kind.NewAck? {
      NothingFilled(log, c.next);
      NothingRefused(log, c.next);
    }
  }

  lemma AppendAt(c: Cursor, sizes: map<int, int>, log: seq<VenueEvent>, e: VenueEvent)
    requires At(c, sizes, log) && Allowed(c, sizes, e)
    ensures At(Moved(c, sizes, e), sizes, log + [e])
  {
    hide FilledIn, Ends, StillOpen, AckCount;
    AckAppend(log, e);
    EndsAppend(sizes, log, e);
    LastEnds(sizes, log, e);
    if Moved(c, sizes, e).open > 0 {
      AppendOpen(c, sizes, log, e);
    }
  }

  lemma Append(c: Cursor, sizes: map<int, int>, log: seq<VenueEvent>, e: VenueEvent)
    requires Orderly(sizes, log) && At(c, sizes, log) && Allowed(c, sizes, e)
    ensures Orderly(sizes, log + [e])
  {
    hide FilledIn, Ends, AcksInSequence, AckCount;
    FilledAppend(log, e);
    EndsAppend(sizes, log, e);
    SequenceAppend(log, e);
    if e.kind.CancelReject? {
      assert !Refused(log, e.venueOrderId);
    }
    assert forall i :: 0 <= i < |log| ==> (log + [e])[i] == log[i];
    assert AcksGrow(log + [e]);
    assert NothingAfterEnd(sizes, log + [e]);
    assert OneRefusal(log + [e]);
    assert NoOverfill(sizes, log + [e]);
  }

  lemma {:induction false} AppendAll(c: Cursor, sizes: map<int, int>, log: seq<VenueEvent>, events: seq<VenueEvent>)
    requires Orderly(sizes, log) && At(c, sizes, log) && AllAllowed(c, sizes, events)
    ensures Orderly(sizes, log + events) && At(MovedAll(c, sizes, events), sizes, log + events)
    decreases |events|
  {
    hide Orderly, At, Allowed, Moved;
    if events == [] {
      assert log + events == log;
    } else {
      Append(c, sizes, log, events[0]);
      AppendAt(c, sizes, log, events[0]);
      AppendAll(Moved(c, sizes, events[0]), sizes, log + [events[0]], events[1..]);
      assert log + [events[0]] + events[1..] == log + events;
    }
  }

  /** A stream looks the same when the size of an order it has not mentioned yet becomes known. */
  lemma SizeKnown(c: Cursor, sizes: map<int, int>, log: seq<VenueEvent>, size: int)
    requires Orderly(sizes, log) && At(c, sizes, log) && size > 0
    ensures Orderly(sizes[c.next := size], log) && At(c, sizes[c.next := size], log)
  {
    var more := sizes[c.next := size];
    NothingFilled(log, c.next);
    hide FilledIn;
    assert forall i :: 0 <= i < |log| ==> Ends(more, log, i) == Ends(sizes, log, i);
  }

  /** The cursor describes the gateway. */
  ghost predicate Tracks(c: Cursor, g: Gateway) {
    && GatewayInv(g) && c.next == g.nextVenueOrderId
    && (g.act.active ==>
          c.open == g.act.venueOrderId && c.refused == g.act.cancelRejectOnceDone && c.leaves == g.act.leavesQty)
  }

  lemma {:induction false} AllowedConcat(c: Cursor, sizes: map<int, int>, a: seq<VenueEvent>, b: seq<VenueEvent>)
    requires AllAllowed(c, sizes, a) && AllAllowed(MovedAll(c, sizes, a), sizes, b)
    ensures AllAllowed(c, sizes, a + b) && MovedAll(c, sizes, a + b) == MovedAll(MovedAll(c, sizes, a), sizes, b)
    decreases |a|
  {
    hide Allowed, Moved;
    if a == [] {
      assert a + b == b;
    } else {
      assert (a + b)[1..] == a[1..] + b;
      AllowedConcat(Moved(c, sizes, a[0]), sizes, a[1..], b);
    }
  }

  lemma OneAllowed(c: Cursor, sizes: map<int, int>, e: VenueEvent)
    requires Allowed(c, sizes, e)
    ensures AllAllowed(c, sizes, [e]) && MovedAll(c, sizes, [e]) == Moved(c, sizes, e)
  {
  }

  lemma NoneAllowed(c: Cursor, sizes: map<int, int>)
    ensures AllAllowed(c, sizes, []) && MovedAll(c, sizes, []) == c
  {
  }

  lemma AggressiveAllowed(c: Cursor, sizes: map<int, int>, req: NewOrder, tick: MarketTick)
    requires c.next > 0 && c.next in sizes && sizes[c.next] == req.quantity > 0
    ensures var events := AggressiveEvents(req, tick, c.next);
      AllAllowed(c, sizes, events) && MovedAll(c, sizes, events).next == c.next + 1
  {
    hide AllAllowed, MovedAll;
    var ts, id, qty := tick.receiveTs, c.next, Takes(req, tick);
    var ack, fill, expiry := AckEvent(ts, id), FillEvent(ts, id, qty, TouchPrice(req.side, tick)), ExpiryEvent(ts, id);
    var fills := if qty > 0 then [fill] else [];
    var ends := if qty < req.quantity then [expiry] else [];
    var c1 := Moved(c, sizes, ack);
    var c2 := if qty > 0 then Moved(c1, sizes, fill) else c1;
    OneAllowed(c, sizes, ack);
    NoneAllowed(c1, sizes);
    if qty > 0 { OneAllowed(c1, sizes, fill); }
    AllowedConcat(c, sizes, [ack], fills);
    NoneAllowed(c2, sizes);
    if qty < req.quantity { OneAllowed(c2, sizes, expiry); }
    AllowedConcat(c, sizes, [ack] + fills, ends);
  }

  lemma RestingAllowed(c: Cursor, sizes: map<int, int>, r: RestingOrder, tick: MarketTick)
    requires c.open > 0 && RestingInv(r) && r.active && c.leaves == r.leavesQty
    ensures var events := RestingEvents(r, tick, c.open);
      && AllAllowed(c, sizes, events)
      && MovedAll(c, sizes, events).next == c.next
      && (RestingLeaves(r, tick) > 0 ==> MovedAll(c, sizes, events) == c.(leaves := RestingLeaves(r, tick)))
  {
    hide AllAllowed, MovedAll;
    var events := RestingEvents(r, tick, c.open);
    if events == [] {
      NoneAllowed(c, sizes);
    } else {
      OneAllowed(c, sizes, events[0]);
    }
  }

  lemma PassiveAllowed(c: Cursor, sizes: map<int, int>, g: Gateway, tick: MarketTick)
    requires Tracks(c, g) && AckDue(g, tick) && !g.pending.shouldReject && g.pending.request.style == Passive
    requires c.next in sizes && sizes[c.next] == g.pending.request.quantity
    ensures AllAllowed(c, sizes, Polled(g, tick).1.events)
    ensures Tracks(MovedAll(c, sizes, Polled(g, tick).1.events), Polled(g, tick).0)
  {
    hide Polled, AllAllowed, MovedAll, RestingEvents;
    var req, id := g.pending.request, g.nextVenueOrderId;
    PollBudget(g, tick);
    PollPassive(g, tick);
    var ack := AckEvent(tick.receiveTs, id);
    OneAllowed(c, sizes, ack);
    RestingAllowed(Moved(c, sizes, ack), sizes, Entry(req, tick), tick);
    AllowedConcat(c, sizes, [ack], RestingEvents(Entry(req, tick), tick, id));
  }

  lemma TickAllowed(c: Cursor, sizes: map<int, int>, g: Gateway, tick: MarketTick)
    requires Tracks(c, g)
    requires AckDue(g, tick) && !g.pending.shouldReject ==> c.next in sizes && sizes[c.next] == g.pending.request.quantity
    ensures AllAllowed(c, sizes, Polled(g, tick).1.events)
    ensures Tracks(MovedAll(c, sizes, Polled(g, tick).1.events), Polled(g, tick).0)
  {
    PollBudget(g, tick);
    var events := Polled(g, tick).1.events;
    if AckDue(g, tick) && g.pending.shouldReject {
      assert events == [VenueEvent(NewReject, tick.receiveTs, 0, 0, 0)];
      OneAllowed(c, sizes, events[0]);
    } else {
      hide Polled, AllAllowed, MovedAll, RestingEvents, AggressiveEvents;
      if AckDue(g, tick) && g.pending.request.style == Aggressive {
        PollAggressive(g, tick);
        AggressiveAllowed(c, sizes, g.pending.request, tick);
      } else if AckDue(g, tick) {
        PassiveAllowed(c, sizes, g, tick);
      } else if !g.act.active {
        PollIdle(g, tick);
        NoneAllowed(c, sizes);
      } else if CancelDue(g, tick) && RefusesCancel(g.act) {
        PollRefused(g, tick);
        OneAllowed(c, sizes, events[0]);
      } else {
        PollWorking(g, tick);
        RestingAllowed(c, sizes, Facing(g, tick), tick);
      }
    }
  }

  lemma CallTracked(c: Cursor, sizes: map<int, int>, g: Gateway, call: GatewayCall, log: seq<VenueEvent>) returns (d: Cursor)
    requires Orderly(sizes, log) && At(c, sizes, log) && Tracks(c, g)
    ensures var (h, events) := Called(g, call);
      var more := Recorded(sizes, g, call);
      Orderly(more, log + events) && At(d, more, log + events) && Tracks(d, h)
  {
    if call.TickCall? {
      var more := Recorded(sizes, g, call);
      if AckDue(g, call.tick) && !g.pending.shouldReject {
        SizeKnown(c, sizes, log, g.pending.request.quantity);
      }
      TickAllowed(c, more, g, call.tick);
      hide Polled, Orderly, At, Tracks;
      var events := Polled(g, call.tick).1.events;
      AppendAll(c, more, log, events);
      d := MovedAll(c, more, events);
    } else {
      assert log + [] == log;
      d := c;
    }
  }

  lemma {:induction false} StreamTracked(g: Gateway, calls: seq<GatewayCall>) returns (c: Cursor)
    requires g == Open(g.newAckLatency, g.cancelSendLatency, g.sim.cancelLatency)
    ensures Orderly(Sizes(g, calls), Log(g, calls)) && At(c, Sizes(g, calls), Log(g, calls))
    ensures Tracks(c, GatewayAfter(g, calls))
  {
    if calls == [] {
      c := Cursor(FIRST_VENUE_ID, 0, 0, false);
    } else {
      hide Called, Recorded, Orderly, At, Tracks;
      var prior := calls[..|calls| - 1];
      c := StreamTracked(g, prior);
      c := CallTracked(c, Sizes(g, prior), GatewayAfter(g, prior), calls[|calls| - 1], Log(g, prior));
    }
  }

  /** Over any calls in any order, with any ticks and latencies: at most one cancel of an order is
      refused, its fills never exceed its size, and nothing follows its cancel acknowledgement, its
      expiry or the fill that completes it. */
  lemma StreamIsOrderly(newAckLatency: int, cancelSendLatency: int, cancelLatency: int, calls: seq<GatewayCall>)
    ensures var g := Open(newAckLatency, cancelSendLatency, cancelLatency);
      Orderly(Sizes(g, calls), Log(g, calls)) && GatewayInv(GatewayAfter(g, calls))
  {
    var _ := StreamTracked(Open(newAckLatency, cancelSendLatency, cancelLatency), calls);
  }
}
