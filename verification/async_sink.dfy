/** The asynchronous journal: the replay thread, the queue and the sink thread of src/replay_runner.cpp. */
module AsyncSink {
  import opened Types
  import OM = OrderManagement
  import VG = VenueGateway
  import Accounting
  import opened Replay
  import Spsc = SpscRing

  // ---------------------------------------------------------------------------
  // Journals only grow
  // ---------------------------------------------------------------------------

  lemma EventExtends(k: Kernel, e: OM.VenueEvent, fallback: Side, tick: MarketTick)
    ensures k.journal <= HandleVenueEvent(k, e, fallback, tick).journal
  {
    hide OM.OnEvent, Accounting.Filled, Accounting.Marked, CountRefusal;
  }

  lemma {:induction false} BatchExtends(k: Kernel, events: seq<OM.VenueEvent>, tick: MarketTick)
    ensures k.journal <= HandleBatch(k, events, tick).journal
    decreases |events|
  {
    hide HandleVenueEvent;
    if events == [] {
    } else {
      EventExtends(k, events[0], k.oms.side, tick);
      BatchExtends(HandleVenueEvent(k, events[0], k.oms.side, tick), events[1..], tick);
    }
  }

  lemma VenuePhaseExtends(cfg: Config, k: Kernel, tick: MarketTick)
    ensures k.journal <= VenuePhase(cfg, k, tick).journal
  {
    hide HandleBatch, VG.Polled, VG.CancelSent, OM.CancelRequested, Accounting.Marked;
    BatchExtends(BeforeBatch(k, tick), VG.Polled(k.gw, tick).1.events, tick);
  }

  lemma SendExtends(cfg: Config, k: Kernel, id: int, req: OrderRequest, tick: MarketTick)
    ensures k.journal <= SendStep(cfg, k, id, req, tick).journal
  {
    hide HandleVenueEvent, VG.NewSent;
    var posted := Posted(k, tick.receiveTs, req.side);
    var gw := VG.NewSent(posted.gw, RequestOf(cfg, id, req, tick)).0;
    EventExtends(posted.(gw := gw), OM.VenueEvent(OM.NewReject, tick.receiveTs, 0, 0, 0), req.side, tick);
  }

  lemma TickExtends(cfg: Config, k: Kernel, input: Input)
    ensures k.journal <= TickStep(cfg, k, input).journal
  {
    hide VenuePhase, SendStep, OM.Submitted;
    VenuePhaseExtends(cfg, k, input.tick);
    var v := VenuePhase(cfg, k, input.tick);
    var order, tick := input.decision.order, input.tick;
    var req := Priced(cfg, order, tick);
    var seen := Signalled(Timed(v));
    var entered := Entered(seen, OM.Submitted(seen.oms, seen.nextClientId, req.side, req.limitPrice, req.quantity).0);
    SendExtends(cfg, entered, v.nextClientId, req, tick);
  }

  // ---------------------------------------------------------------------------
  // Two threads
  // ---------------------------------------------------------------------------

  /** The sink thread: testing the flag, testing emptiness, inside `try_pop`, inside `consume`, gone. */
  datatype SinkPc = TestFlag | TestEmpty | Popping | Consuming(event: TradeEvent) | Exited

  /** `todo` holds the records of the current tick not yet offered to the queue; `offered` all records
      that were; `done` is the released flag, and `doneSeen` says that the sink thread has seen it set. */
  datatype World = World(
    kernel: Kernel, fed: nat, todo: seq<TradeEvent>, offered: seq<TradeEvent>, dropped: nat, done: bool,
    ring: Spsc.Ring<TradeEvent>,
    answers: Sink, sink: SinkPc, doneSeen: bool, consumed: seq<TradeEvent>, persisted: nat, failed: nat, sinkFailed: bool)

  /** Steps of the replay thread and of the sink thread. A flag load may miss a recent store, but never
      goes back on one it has seen. */
  datatype Move =
    | Tick
    | Offer
    | Produce(action: Spsc.Action<TradeEvent>)
    | Finish
    | LoadFlag(seen: bool)
    | LoadHead(version: nat)
    | Pop(action: Spsc.Action<TradeEvent>)
    | Consume

  ghost predicate Sound(w: World) {
    Spsc.Inv(w.ring)
  }

  /** The replay thread runs one tick; its new records are then offered one by one. A second symbol
      stops the loop like the end of the input. */
  function TickMove(cfg: Config, inputs: seq<Input>, w: World): World {
    if Continues(inputs, w.fed) && w.todo == [] && w.ring.producer.Between? && !w.done then
      var next := TickStep(cfg, w.kernel, inputs[w.fed]);
      w.(kernel := next, fed := w.fed + 1,
         todo := if |w.kernel.journal| <= |next.journal| then next.journal[|w.kernel.journal|..] else [])
    else w
  }

  ghost function OfferMove(w: World): World
    requires Sound(w)
  {
    if w.todo != [] && w.ring.producer.Between? then w.(ring := Spsc.Step(w.ring, Spsc.PushBegin(w.todo[0]))) else w
  }

  /** A step of `try_push`; when it returns, the record has been offered, and dropped if refused. */
  ghost function ProduceMove(w: World, a: Spsc.Action<TradeEvent>): World
    requires Sound(w)
  {
    if w.todo == [] || !(a.PushLoad? || a.PushWrite? || a.PushStore?) || !Spsc.Enabled(w.ring, a) then w
    else
      var r := Spsc.Step(w.ring, a);
      if !r.producer.Between? then w.(ring := r)
      else w.(ring := r, todo := w.todo[1..], offered := w.offered + [w.todo[0]],
              dropped := w.dropped + (if a.PushLoad? then 1 else 0))
  }

  function FinishMove(inputs: seq<Input>, w: World): World {
    if !Continues(inputs, w.fed) && w.todo == [] && w.ring.producer.Between? then w.(done := true) else w
  }

  /** Seeing the flag set makes every store before it visible, so the head can no longer be read stale. */
  function LoadFlagMove(w: World, seen: bool): World {
    if !w.sink.TestFlag? || (seen && !w.done) || (!seen && w.doneSeen) then w
    else if seen then w.(sink := TestEmpty, doneSeen := true, ring := w.ring.(seenHead := |w.ring.pushed|))
    else w.(sink := Popping)
  }

  function LoadHeadMove(w: World, j: nat): World
    requires w.ring.slots > 0
  {
    if !w.sink.TestEmpty? || !(w.ring.seenHead <= j <= |w.ring.pushed|) then w
    else w.(ring := w.ring.(seenHead := j), sink := if j % w.ring.slots == w.ring.tail then Exited else Popping)
  }

  ghost function PopMove(w: World, a: Spsc.Action<TradeEvent>): World
    requires Sound(w)
  {
    if !w.sink.Popping? || !(a.PopBegin? || a.PopLoad? || a.PopRead? || a.PopStore?) || !Spsc.Enabled(w.ring, a) then w
    else
      var r := Spsc.Step(w.ring, a);
      w.(ring := r,
         sink := if a.PopStore? then Consuming(w.ring.consumer.value)
                 else if a.PopLoad? && r.consumer.Away? then TestFlag
                 else Popping)
  }

  function ConsumeMove(w: World): World {
    if !w.sink.Consuming? then w
    else
      var consumed := w.consumed + [w.sink.event];
      var ok := w.answers(consumed);
      w.(sink := TestFlag, consumed := consumed,
         persisted := w.persisted + (if ok then 1 else 0), failed := w.failed + (if ok then 0 else 1),
         sinkFailed := w.sinkFailed || !ok)
  }

  ghost function Moved(cfg: Config, inputs: seq<Input>, w: World, m: Move): World
    requires Sound(w)
  {
    match m
    case Tick => TickMove(cfg, inputs, w)
    case Offer => OfferMove(w)
    case Produce(a) => ProduceMove(w, a)
    case Finish => FinishMove(inputs, w)
    case LoadFlag(seen) => LoadFlagMove(w, seen)
    case LoadHead(j) => LoadHeadMove(w, j)
    case Pop(a) => PopMove(w, a)
    case Consume => ConsumeMove(w)
  }

  function Begin(cfg: Config, buffer: seq<TradeEvent>, sink: Sink): World {
    World(Initial(cfg), 0, [], [], 0, false, Spsc.Start(buffer), sink, TestFlag, false, [], 0, 0, false)
  }

  // ---------------------------------------------------------------------------
  // Subsequences
  // ---------------------------------------------------------------------------

  predicate Subsequence<T(==)>(a: seq<T>, b: seq<T>)
    decreases |b|
  {
    a == [] ||
    (b != [] &&
     (Subsequence(a, b[..|b| - 1]) ||
      (a[|a| - 1] == b[|b| - 1] && Subsequence(a[..|a| - 1], b[..|b| - 1]))))
  }

  lemma SubsequenceKeep<T>(a: seq<T>, b: seq<T>, x: T)
    requires Subsequence(a, b)
    ensures Subsequence(a + [x], b + [x])
  {
    assert (a + [x])[..|a + [x]| - 1] == a && (b + [x])[..|b + [x]| - 1] == b;
  }

  lemma SubsequenceSkip<T>(a: seq<T>, b: seq<T>, x: T)
    requires Subsequence(a, b)
    ensures Subsequence(a, b + [x])
  {
    assert (b + [x])[..|b + [x]| - 1] == b;
  }

  lemma {:induction false} SubsequenceOfSameLength<T>(a: seq<T>, b: seq<T>)
    requires Subsequence(a, b)
    ensures |a| <= |b|
    ensures |a| == |b| ==> a == b
    decreases |b|
  {
    if a == [] {
    } else {
      var b' := b[..|b| - 1];
      if Subsequence(a, b') {
        SubsequenceOfSameLength(a, b');
      } else {
        SubsequenceOfSameLength(a[..|a| - 1], b');
        assert b == b' + [b[|b| - 1]] && a == a[..|a| - 1] + [a[|a| - 1]];
      }
    }
  }

  // ---------------------------------------------------------------------------
  // The invariant of every schedule
  // ---------------------------------------------------------------------------

  /** The replay thread: its state is that of the synchronous run, and each offered record was pushed or dropped. */
  ghost predicate ReplayThread(cfg: Config, inputs: seq<Input>, w: World) {
    && w.fed <= SymbolRun(inputs, 0) && w.kernel == Run(cfg, inputs[..w.fed])
    && w.offered + w.todo == w.kernel.journal
    && (!w.ring.producer.Between? ==> w.todo != [] && w.ring.producer.value == w.todo[0])
    && (w.done ==> w.fed == SymbolRun(inputs, 0) && w.todo == [] && w.ring.producer.Between?)
    && |w.ring.pushed| + w.dropped == |w.offered|
    && Subsequence(w.ring.pushed, w.offered)
    && (w.dropped > 0 ==> |w.offered| >= w.ring.slots)
  }

  /** The sink thread: it has consumed all it popped, but for the record in its hands. Once it has seen
      the flag it sees every push, and only pops when there is something to pop. */
  ghost predicate SinkThread(w: World) {
    && (w.sink.Consuming? ==> w.ring.popped == w.consumed + [w.sink.event])
    && (!w.sink.Consuming? ==> w.ring.popped == w.consumed)
    && (!w.sink.Popping? ==> w.ring.consumer.Away?)
    && (w.doneSeen ==> w.done && w.ring.seenHead == |w.ring.pushed|)
    && (w.sink.TestEmpty? || w.sink.Exited? ==> w.doneSeen)
    && (w.sink.Popping? && w.doneSeen ==> |w.ring.popped| < |w.ring.pushed|)
    && (w.sink.Exited? ==> w.ring.popped == w.ring.pushed)
    && w.persisted == Persisted(w.answers, w.consumed) && w.persisted + w.failed == |w.consumed|
    && (w.sinkFailed <==> w.failed > 0)
  }

  ghost predicate Good(cfg: Config, inputs: seq<Input>, w: World) {
    Sound(w) && ReplayThread(cfg, inputs, w) && SinkThread(w)
  }

  lemma TickGood(cfg: Config, inputs: seq<Input>, w: World)
    requires Good(cfg, inputs, w)
    ensures Good(cfg, inputs, TickMove(cfg, inputs, w)) && TickMove(cfg, inputs, w).ring.slots == w.ring.slots
  {
    hide Spsc.Inv, Subsequence, TickStep;
    if Continues(inputs, w.fed) {
      TickExtends(cfg, w.kernel, inputs[w.fed]);
      assert inputs[..w.fed + 1][..w.fed] == inputs[..w.fed];
    }
  }

  lemma OfferGood(cfg: Config, inputs: seq<Input>, w: World)
    requires Good(cfg, inputs, w)
    ensures Good(cfg, inputs, OfferMove(w)) && OfferMove(w).ring.slots == w.ring.slots
  {
    hide Subsequence, Run;
    if w.todo != [] {
      Spsc.StepKeeps(w.ring, Spsc.PushBegin(w.todo[0]));
      hide Spsc.Inv;
    }
  }

  lemma PushLoadGood(cfg: Config, inputs: seq<Input>, w: World, j: nat)
    requires Good(cfg, inputs, w) && w.todo != [] && Spsc.Enabled(w.ring, Spsc.PushLoad(j))
    ensures Good(cfg, inputs, ProduceMove(w, Spsc.PushLoad(j)))
  {
    hide Subsequence, Run;
    Spsc.StepKeeps(w.ring, Spsc.PushLoad(j));
    Spsc.PushLoadKeeps(w.ring, j);
    assert |w.ring.pushed| <= |w.offered| && w.ring.seenTail <= j;
    assert w.offered + [w.todo[0]] + w.todo[1..] == w.offered + w.todo;
    SubsequenceSkip(w.ring.pushed, w.offered, w.todo[0]);
    hide Spsc.Inv;
  }

  lemma PushWriteGood(cfg: Config, inputs: seq<Input>, w: World)
    requires Good(cfg, inputs, w) && w.todo != [] && Spsc.Enabled(w.ring, Spsc.PushWrite)
    ensures Good(cfg, inputs, ProduceMove(w, Spsc.PushWrite))
  {
    hide Subsequence, Run;
    Spsc.StepKeeps(w.ring, Spsc.PushWrite);
    hide Spsc.Inv;
  }

  lemma PushStoreGood(cfg: Config, inputs: seq<Input>, w: World)
    requires Good(cfg, inputs, w) && w.todo != [] && Spsc.Enabled(w.ring, Spsc.PushStore)
    ensures Good(cfg, inputs, ProduceMove(w, Spsc.PushStore))
  {
    hide Subsequence, Run;
    Spsc.StepKeeps(w.ring, Spsc.PushStore);
    assert w.offered + [w.todo[0]] + w.todo[1..] == w.offered + w.todo;
    SubsequenceKeep(w.ring.pushed, w.offered, w.todo[0]);
    hide Spsc.Inv;
  }

  lemma ProduceGood(cfg: Config, inputs: seq<Input>, w: World, a: Spsc.Action<TradeEvent>)
    requires Good(cfg, inputs, w)
    ensures Good(cfg, inputs, ProduceMove(w, a)) && ProduceMove(w, a).ring.slots == w.ring.slots
  {
    hide ReplayThread, SinkThread, Spsc.Inv;
    if w.todo != [] && Spsc.Enabled(w.ring, a) {
      Spsc.StepKeeps(w.ring, a);
      match a
      case PushLoad(j) => PushLoadGood(cfg, inputs, w, j);
      case PushWrite => PushWriteGood(cfg, inputs, w);
      case PushStore => PushStoreGood(cfg, inputs, w);
      case _ =>
    }
  }

  lemma SinkLoadsGood(cfg: Config, inputs: seq<Input>, w: World, seen: bool, j: nat)
    requires Good(cfg, inputs, w)
    ensures Good(cfg, inputs, LoadFlagMove(w, seen)) && LoadFlagMove(w, seen).ring.slots == w.ring.slots
    ensures Good(cfg, inputs, LoadHeadMove(w, j)) && LoadHeadMove(w, j).ring.slots == w.ring.slots
  {
    hide Subsequence, Run;
    Spsc.SameSlot(|w.ring.popped|, |w.ring.pushed|, w.ring.slots);
  }

  lemma PopKeepsReplay(cfg: Config, inputs: seq<Input>, w: World, a: Spsc.Action<TradeEvent>)
    requires Good(cfg, inputs, w)
    ensures ReplayThread(cfg, inputs, PopMove(w, a))
  {
    hide Subsequence, Run, SinkThread, SymbolRun;
  }

  lemma PopKeepsSink(w: World, a: Spsc.Action<TradeEvent>)
    requires Sound(w) && SinkThread(w)
    ensures SinkThread(PopMove(w, a))
  {
    if a.PopLoad? && Spsc.Enabled(w.ring, a) {
      Spsc.PopLoadKeeps(w.ring, a.version);
    }
  }

  lemma PopGood(cfg: Config, inputs: seq<Input>, w: World, a: Spsc.Action<TradeEvent>)
    requires Good(cfg, inputs, w)
    ensures Good(cfg, inputs, PopMove(w, a)) && PopMove(w, a).ring.slots == w.ring.slots
  {
    Spsc.StepKeeps(w.ring, a);
    hide ReplayThread, SinkThread, Spsc.Inv, Spsc.Step;
    PopKeepsReplay(cfg, inputs, w, a);
    PopKeepsSink(w, a);
  }

  lemma FinishAndConsumeGood(cfg: Config, inputs: seq<Input>, w: World)
    requires Good(cfg, inputs, w)
    ensures Good(cfg, inputs, FinishMove(inputs, w)) && FinishMove(inputs, w).ring == w.ring
    ensures Good(cfg, inputs, ConsumeMove(w)) && ConsumeMove(w).ring == w.ring
  {
    hide Spsc.Inv, Subsequence, Run;
  }

  lemma ShapeOf(w: World)
    requires Sound(w)
    ensures w.ring.slots > 0
  {
  }

  lemma MoveGood(cfg: Config, inputs: seq<Input>, w: World, m: Move)
    requires Good(cfg, inputs, w)
    ensures Good(cfg, inputs, Moved(cfg, inputs, w, m))
    ensures Moved(cfg, inputs, w, m).ring.slots == w.ring.slots
  {
    hide ReplayThread, SinkThread, Spsc.Inv, TickMove, OfferMove, ProduceMove, FinishMove, LoadFlagMove,
      LoadHeadMove, PopMove, ConsumeMove;
    match m
    case Tick => TickGood(cfg, inputs, w);
    case Offer => OfferGood(cfg, inputs, w);
    case Produce(a) => ProduceGood(cfg, inputs, w, a);
    case Finish => FinishAndConsumeGood(cfg, inputs, w);
    case LoadFlag(seen) => SinkLoadsGood(cfg, inputs, w, seen, 0);
    case LoadHead(j) => ShapeOf(w); SinkLoadsGood(cfg, inputs, w, true, j);
    case Pop(a) => PopGood(cfg, inputs, w, a);
    case Consume => FinishAndConsumeGood(cfg, inputs, w);
  }

  lemma BeginGood(cfg: Config, inputs: seq<Input>, buffer: seq<TradeEvent>, sink: Sink)
    requires |buffer| > 0
    ensures Good(cfg, inputs, Begin(cfg, buffer, sink))
  {
    hide TickStep;
    assert inputs[..0] == [];
  }

  lemma SinkStays(cfg: Config, inputs: seq<Input>, w: World, m: Move)
    requires Sound(w)
    ensures Moved(cfg, inputs, w, m).answers == w.answers
  {
    hide TickStep, Spsc.Step, Spsc.Inv;
  }

  /** The two threads after any schedule of their steps. */
  ghost function Scheduled(cfg: Config, inputs: seq<Input>, buffer: seq<TradeEvent>, sink: Sink, moves: seq<Move>): (w: World)
    requires |buffer| > 0
    ensures Good(cfg, inputs, w) && w.ring.slots == |buffer| && w.answers == sink
    decreases |moves|
  {
    if moves == [] then BeginGood(cfg, inputs, buffer, sink); Begin(cfg, buffer, sink)
    else
      var prior := Scheduled(cfg, inputs, buffer, sink, moves[..|moves| - 1]);
      MoveGood(cfg, inputs, prior, moves[|moves| - 1]);
      SinkStays(cfg, inputs, prior, moves[|moves| - 1]);
      Moved(cfg, inputs, prior, moves[|moves| - 1])
  }

  /** When the sink thread has exited, under any schedule and any sink, after the last tick or before the
      first tick of a second symbol: the business state is that of the synchronous run so far, every queued
      record was consumed once and in order, the counters and the failure flag add up, what the sink saw is
      a subsequence of the synchronous journal, and all of it when nothing was dropped. */
  lemma DrainedOnExit(cfg: Config, inputs: seq<Input>, buffer: seq<TradeEvent>, sink: Sink, moves: seq<Move>)
    requires |buffer| > 0
    ensures var w := Scheduled(cfg, inputs, buffer, sink, moves);
      w.sink.Exited? ==>
      && w.kernel == Run(cfg, inputs[..SymbolRun(inputs, 0)])
      && w.consumed == w.ring.pushed
      && w.persisted + w.failed + w.dropped == |w.kernel.journal|
      && Subsequence(w.consumed, w.kernel.journal)
      && (w.dropped == 0 ==> w.consumed == w.kernel.journal)
      && w.persisted == |Accepted(sink, w.consumed)|
      && (w.sinkFailed <==> exists i :: 1 <= i <= |w.consumed| && !Says(sink, w.consumed, i))
  {
    hide Spsc.Inv, Run, Subsequence, Scheduled;
    var w := Scheduled(cfg, inputs, buffer, sink, moves);
    if w.sink.Exited? {
      assert w.offered + [] == w.offered;
      SubsequenceOfSameLength(w.consumed, w.kernel.journal);
      PersistedIsAccepted(sink, w.consumed);
      AllPersisted(sink, w.consumed);
    }
  }

  lemma {:induction false} RunExtends(cfg: Config, inputs: seq<Input>, n: nat)
    requires n <= |inputs|
    ensures Run(cfg, inputs[..n]).journal <= Run(cfg, inputs).journal
    decreases |inputs| - n
  {
    hide TickStep;
    if n == |inputs| {
      assert inputs[..n] == inputs;
    } else {
      RunExtends(cfg, inputs, n + 1);
      assert inputs[..n + 1][..n] == inputs[..n];
      TickExtends(cfg, Run(cfg, inputs[..n]), inputs[n]);
    }
  }

  /** A run with at most as many records as the queue holds drops none, whatever the schedule. */
  lemma SmallRunsDropNothing(cfg: Config, inputs: seq<Input>, buffer: seq<TradeEvent>, sink: Sink, moves: seq<Move>)
    requires |buffer| > 0 && |Run(cfg, inputs[..SymbolRun(inputs, 0)]).journal| <= |buffer| - 1
    ensures Scheduled(cfg, inputs, buffer, sink, moves).dropped == 0
  {
    hide Spsc.Inv, Run, Subsequence, Scheduled;
    var w := Scheduled(cfg, inputs, buffer, sink, moves);
    var fed := inputs[..SymbolRun(inputs, 0)];
    RunExtends(cfg, fed, w.fed);
    assert fed[..w.fed] == inputs[..w.fed];
  }

  // ---------------------------------------------------------------------------
  // The sink thread gets there
  // ---------------------------------------------------------------------------

  /** Steps the sink thread has left once it has seen the flag. */
  function SinkWork(w: World): int {
    7 * (|w.ring.pushed| - |w.ring.popped|)
    + (match w.sink
       case Exited => 0
       case TestEmpty => 5
       case TestFlag => 6
       case Consuming(_) => 7
       case Popping =>
         match w.ring.consumer
         case Away => 4
         case Looking => 3
         case Reading => 2
         case Releasing(_) => 1)
  }

  /** What it does next. */
  function NextSinkMove(w: World): Move {
    match w.sink
    case TestFlag => LoadFlag(true)
    case TestEmpty => LoadHead(|w.ring.pushed|)
    case Consuming(_) => Consume
    case Exited => LoadFlag(true)
    case Popping =>
      match w.ring.consumer
      case Away => Pop(Spsc.PopBegin)
      case Looking => Pop(Spsc.PopLoad(|w.ring.pushed|))
      case Reading => Pop(Spsc.PopRead)
      case Releasing(_) => Pop(Spsc.PopStore)
  }

  /** What a step of either thread may do to a world in which the sink thread has seen the flag: no push,
      no failing pop, and one step less to go unless nothing happens. */
  ghost predicate Advances(w: World, e: World) {
    && e.doneSeen && e.ring.pushed == w.ring.pushed && w.ring.popped <= e.ring.popped
    && (w.sink.Popping? ==> !e.sink.TestFlag?)
    && (e == w || SinkWork(e) < SinkWork(w))
  }

  lemma PopAdvances(cfg: Config, inputs: seq<Input>, w: World, a: Spsc.Action<TradeEvent>)
    requires Good(cfg, inputs, w) && w.doneSeen
    ensures Advances(w, PopMove(w, a))
  {
    hide ReplayThread;
    if a.PopLoad? && Spsc.Enabled(w.ring, a) {
      Spsc.PopLoadKeeps(w.ring, a.version);
    }
  }

  lemma LoadHeadAdvances(cfg: Config, inputs: seq<Input>, w: World, j: nat)
    requires Good(cfg, inputs, w) && w.doneSeen
    ensures Advances(w, LoadHeadMove(w, j))
  {
    hide ReplayThread;
    Spsc.SameSlot(|w.ring.popped|, |w.ring.pushed|, w.ring.slots);
  }

  lemma MoveAdvances(cfg: Config, inputs: seq<Input>, w: World, m: Move)
    requires Good(cfg, inputs, w) && w.doneSeen
    ensures Advances(w, Moved(cfg, inputs, w, m))
  {
    hide Spsc.Inv, Subsequence, Run, SymbolRun, TickStep, PopMove, LoadHeadMove;
    match m
    case Pop(a) => PopAdvances(cfg, inputs, w, a);
    case LoadHead(j) => ShapeOf(w); LoadHeadAdvances(cfg, inputs, w, j);
    case _ =>
  }

  lemma SinkCanMove(cfg: Config, inputs: seq<Input>, w: World)
    requires Good(cfg, inputs, w) && w.doneSeen && !w.sink.Exited?
    ensures SinkWork(Moved(cfg, inputs, w, NextSinkMove(w))) < SinkWork(w)
  {
    hide Subsequence, Run, SymbolRun, TickStep;
    MoveAdvances(cfg, inputs, w, NextSinkMove(w));
  }

  /** Moves from position `n` on that change something. */
  ghost function Effective(cfg: Config, inputs: seq<Input>, buffer: seq<TradeEvent>, sink: Sink, moves: seq<Move>, n: nat): nat
    requires |buffer| > 0 && n <= |moves|
    decreases |moves|
  {
    if n == |moves| then 0
    else
      var prior := moves[..|moves| - 1];
      Effective(cfg, inputs, buffer, sink, prior, n)
      + (if Scheduled(cfg, inputs, buffer, sink, moves) == Scheduled(cfg, inputs, buffer, sink, prior) then 0 else 1)
  }

  lemma {:induction false} AllAdvance(cfg: Config, inputs: seq<Input>, buffer: seq<TradeEvent>, sink: Sink, moves: seq<Move>, n: nat)
    requires |buffer| > 0 && n <= |moves| && Scheduled(cfg, inputs, buffer, sink, moves[..n]).doneSeen
    ensures var w, e := Scheduled(cfg, inputs, buffer, sink, moves[..n]), Scheduled(cfg, inputs, buffer, sink, moves);
      && e.doneSeen && e.ring.pushed == w.ring.pushed && w.ring.popped <= e.ring.popped
      && Effective(cfg, inputs, buffer, sink, moves, n) + SinkWork(e) <= SinkWork(w)
    decreases |moves|
  {
    hide Good, SinkWork, Moved;
    if n == |moves| {
      assert moves[..n] == moves;
    } else {
      var prior := moves[..|moves| - 1];
      assert prior[..n] == moves[..n];
      AllAdvance(cfg, inputs, buffer, sink, prior, n);
      MoveAdvances(cfg, inputs, Scheduled(cfg, inputs, buffer, sink, prior), moves[|moves| - 1]);
    }
  }

  lemma RingSound(w: World)
    requires Sound(w)
    ensures |w.ring.popped| <= |w.ring.pushed|
  {
  }

  /** Once the sink thread has seen the flag, whatever the schedule: nothing more is pushed, no pop fails,
      only boundedly many steps of either thread still have an effect, one is always possible until the
      sink thread exits, and it exits having popped exactly what was left in the queue. */
  lemma SinkFinishes(cfg: Config, inputs: seq<Input>, buffer: seq<TradeEvent>, sink: Sink, moves: seq<Move>, n: nat)
    requires |buffer| > 0 && n <= |moves| && Scheduled(cfg, inputs, buffer, sink, moves[..n]).doneSeen
    ensures var w, e := Scheduled(cfg, inputs, buffer, sink, moves[..n]), Scheduled(cfg, inputs, buffer, sink, moves);
      var left := |w.ring.pushed| - |w.ring.popped|;
      && e.ring.pushed == w.ring.pushed
      && (forall m :: Advances(e, Moved(cfg, inputs, e, m)))
      && Effective(cfg, inputs, buffer, sink, moves, n) <= 7 * left + 7
      && (!e.sink.Exited? ==> Moved(cfg, inputs, e, NextSinkMove(e)) != e)
      && (e.sink.Exited? ==> |e.ring.popped| == |w.ring.popped| + left)
  {
    hide Spsc.Inv, Run, Subsequence, Scheduled, ReplayThread, Effective, Moved;
    var e := Scheduled(cfg, inputs, buffer, sink, moves);
    AllAdvance(cfg, inputs, buffer, sink, moves, n);
    RingSound(e);
    forall m
      ensures Advances(e, Moved(cfg, inputs, e, m))
    {
      MoveAdvances(cfg, inputs, e, m);
    }
    if !e.sink.Exited? {
      SinkCanMove(cfg, inputs, e);
    }
  }

  // ---------------------------------------------------------------------------
  // So does the replay thread
  // ---------------------------------------------------------------------------

  /** What the replay thread does next. */
  function NextReplayMove(inputs: seq<Input>, w: World): Move {
    match w.ring.producer
    case Checking(_) => Produce(Spsc.PushLoad(|w.ring.popped|))
    case Writing(_) => Produce(Spsc.PushWrite)
    case Storing(_) => Produce(Spsc.PushStore)
    case Between => if w.todo != [] then Offer else if Continues(inputs, w.fed) then Tick else Finish
  }

  /** Steps left in the push that is under way. */
  function PushSteps(p: Spsc.Producer<TradeEvent>): nat {
    match p
    case Between => 4
    case Checking(_) => 3
    case Writing(_) => 2
    case Storing(_) => 1
  }

  /** The push under way can move. */
  lemma PushProgresses(w: World)
    requires Sound(w) && w.todo != [] && !w.ring.producer.Between?
    ensures NextReplayMove([], w).Produce?
    ensures var e := ProduceMove(w, NextReplayMove([], w).action);
      && e.fed == w.fed && e.done == w.done
      && (if e.ring.producer.Between? then e.todo == w.todo[1..]
          else e.todo == w.todo && PushSteps(e.ring.producer) < PushSteps(w.ring.producer))
  {
  }

  /** Until the flag is set the replay thread can move, and its next step brings it closer: to the next
      tick, to the next record, or along its push. */
  lemma ReplayProgresses(cfg: Config, inputs: seq<Input>, w: World)
    requires Good(cfg, inputs, w) && !w.done
    ensures var e := Moved(cfg, inputs, w, NextReplayMove(inputs, w));
      || e.done
      || (e.fed == w.fed + 1 <= SymbolRun(inputs, 0))
      || (e.fed == w.fed && |e.todo| == |w.todo| - 1)
      || (e.fed == w.fed && e.todo == w.todo && PushSteps(e.ring.producer) < PushSteps(w.ring.producer))
  {
    hide Subsequence, Run, TickStep, SinkThread;
    if !w.ring.producer.Between? {
      PushProgresses(w);
      hide Spsc.Inv, Spsc.Step;
    }
  }

  /** The sink thread can move until it has exited, and sees the flag once it is set. */
  lemma SinkNeverStuck(cfg: Config, inputs: seq<Input>, w: World)
    requires Good(cfg, inputs, w) && !w.sink.Exited?
    ensures var m := if w.sink.TestFlag? then LoadFlag(w.done) else NextSinkMove(w);
      Moved(cfg, inputs, w, m) != w
    ensures w.done && w.sink.TestFlag? ==> Moved(cfg, inputs, w, LoadFlag(true)).doneSeen
  {
    hide Subsequence, Run, TickStep, ReplayThread, SymbolRun;
  }
}
