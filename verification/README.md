# A model of the deterministic replay kernel

This project models the trading kernel of the repository in Dafny and proves what its design promises,
over all inputs, all runs and all thread schedules. It has five parts.

- **Trading loop.** The order manager, execution simulator, venue gateway, accounting engine and replay
  runner are classes that update their fields in place. Each method is proved equal to a function on
  values (`OnEvent`, `Ticked`, `Polled`, `Filled`, `TickStep`), and the theorems are about those functions.
  `ReplayReference` is the same loop as one machine with a single copy of the order, no components and no
  messages, in plain arithmetic; `ReplayRefinement` proves that every run of the kernel is a run of it.
  `Run(cfg, inputs)` is a whole run. An input is a tick together with whatever a strategy makes of it, so
  every result holds for any strategy; `ReplayStrategy` and `ReplayConfig` are the repository's own.
- **Journal side channel.** The ring buffer is modelled twice: as a class called by one thread, and as
  single atomic steps of two threads. A load of the other thread's cursor may return any version from the
  last one seen up to the newest, which is what acquire/release ordering leaves open. The asynchronous sink
  puts the replay thread and the sink thread on top of those steps. The records of a tick are offered after
  the tick's business work; nothing in the kernel reads the queue, so this order is not observable.
- **Cost basis.** Truncating integer accounting compared with exact rational average-cost accounting.
- **Numeric and parsing kernels.** Nearest-rank percentiles, strict CSV reading, and the generator whose
  output it reads back.
- **Thread pools.** The sentinel-drained and the flag-drained pool, any number of workers; in the latter,
  sleeping and waking on the condition variable are steps of their own.

Integers are unbounded. `MachineIntegers` proves that a run stays within 64 bits and under which bounds.

## Where the code and its documents disagree

The model follows the code. Each point below has a concrete counterexample and an exact condition.

- The fourth of the repository's required cross-module invariants is that gateway and order manager always
  agree on whether an order is live. They do, in every run, up to and excluding a tick that acknowledges a
  cancel which a partial fill has overtaken (`ReplayAgreement.Strands`): `ReplayRuns.OrphanedExactlyWhenStranded`. The five ticks of
  `ReplayWitnesses.LivenessCanDisagree` reach it. From then on the order manager is stuck for good
  (`ReplayRuns.OrphanIsForever`). Aggressive runs never get there.
- The third is that every terminal order has zero leaves. The one step that breaks it is the reject of a new
  order (`OrderManagement.EndsWithLeaves`), and it stays broken until the next submission
  (`OrderManagement.OpenLeavesExactlyWhenRejected`); `OrderManagement.RejectedKeepsLeaves` is an example.
- The declared rate is at most four journal events per tick, and src/replay_runner.cpp:41 sizes the event-sink
  collector by it. A tick can write five, in both styles, and `ReplayRecords.FiveRecords` says when, from the
  state before the tick: it acknowledges an order and fills part of it while the strategy signals; in a
  passive run, moreover, the order is overdue for its cancel and the risk gate refuses the signal. That is
  exact (`ReplayRecords.WritesFive`), and so is the record count of every tick (`ReplayRecords.TickWrites`).
  The collector overflows exactly in the aggressive runs whose five-record ticks outnumber what their other
  ticks leave of four each (`ReplayCollectors.LatencyOverflowExactly`); nine ticks with 37 records do it
  (`ReplayWitnesses.JournalOutrunsItsCollector`). A passive run never gets there: the tick that ends an order
  saves the record its acknowledgement may have written too many (`ReplayRecords.PassiveJournal`), although a
  passive tick can write five (`ReplayWitnesses.PassiveTickWritesFive`).

## Model

| member | source | states |
|---|---|---|
| OrderManagement.OrderManager.SubmitNew | src/order_manager.cpp:5-32 | the new order and the answer, including the reset of a terminal order that happens even when the submission is refused |
| OrderManagement.OrderManager.RequestCancel | src/order_manager.cpp:34-41 | only an acknowledged or partially filled order moves to PendingCancel |
| OrderManagement.OrderManager.OnVenueEvent | src/order_manager.cpp:43-137 | outcome, order and reported fill for every event in every state, with the checks in the code's order |
| OrderManagement.LifecycleInvariant | src/order_manager.cpp:5-137 | after any calls and events: quantities and venue id fit the state, live orders have leaves = order - cum, and cum is exactly the quantity reported filled since submission |
| OrderManagement.EventOutcome | src/order_manager.cpp:43-137 | a refused event changes nothing and reports no fill; an applied one follows the lifecycle diagram; terminal orders refuse everything as WrongState |
| OrderManagement.RefusalReasons | src/order_manager.cpp:43-137 | why any event is refused in any state, each reason as an equivalence: unexpected kind first, then the id, then the quantity |
| OrderManagement.AppliedEvent | src/order_manager.cpp:43-137 | an applied event names the order it changes, leaves its identity alone, and order, new state and reported fill agree with it |
| OrderManagement.SubmitOutcome | src/order_manager.cpp:5-32 | taken exactly for a positive quantity with nothing live; a refusal leaves a live order alone and clears any other |
| OrderManagement.CancelOutcome | src/order_manager.cpp:34-41 | taken exactly for an acknowledged order without a cancel, and nothing but the state changes |
| OrderManagement.TerminalLeaves | src/order_manager.cpp:60-65 | a terminal order has zero leaves if and only if it was not rejected |
| OrderManagement.EndsWithLeaves | src/order_manager.cpp:60-65 | a live order ends with leaves if and only if it is not yet acknowledged and the event is a reject |
| OrderManagement.OpenLeavesExactlyWhenRejected | src/order_manager.cpp:5-137 | after any calls, a terminal order has leaves if and only if some call rejected it as a new order and no submission followed |
| OrderManagement.RejectedKeepsLeaves | tests/golden/venue_reject.txt:40-44 | the two calls after which a terminal order has 50 leaves |
| Risk.Evaluate | src/risk_engine.cpp:5-19 | accepted exactly for positive quantities whose projected position is within the limit; non-positive quantities get their own reason |
| Risk.PositionLimit | src/risk_engine.cpp:5-19 | for any strategy and any stream of venue events, forged ones included, the position, and the position the live order could still lead to, stay within the limit |
| Accounting.AccountingEngine.ApplyFill | src/accounting_engine.cpp:15-46 | the whole account after opening, adding, reducing, closing or flipping; non-positive quantities are refused |
| Accounting.AccountingEngine.MarkToMarket | src/accounting_engine.cpp:48-51 | the whole account after a new mark |
| Accounting.AccountingEngine.RefreshDerived | src/accounting_engine.cpp:53-63 | the derived fields of a flat and of an open position; `Accounting.FiguresAreStated` says what they mean |
| Accounting.Reconciles | src/accounting_engine.cpp:53-63 | realized + unrealized = cash + position at the mark; a flat account has no cost, average or unrealized PnL |
| Accounting.FiguresAreStated | src/accounting_engine.cpp:53-63 | after any fills: realized = cash + open cost, unrealized = position at the mark - open cost, and the average price times the position is the cost rounded down to a multiple |
| Accounting.PositionAndCashAreSums | src/accounting_engine.cpp:20-43 | after any fills, position and cash are the plain sums of what was traded and paid, whatever the cost branches did |
| CostBasis.ReductionKeepsAverage | src/accounting_engine.cpp:32-38 | a partial close leaves the displayed average price exactly unchanged although two divisions truncate |
| CostBasis.PriceEnvelope | src/accounting_engine.cpp:27-44 | after any fills at positive prices, cost per unit lies between the lowest and highest price paid since the position was last flat or flipped |
| CostBasis.AverageWithinPrices | src/accounting_engine.cpp:59-59 | the displayed average lies between the extreme prices paid since the position was last flat or flipped |
| CostBasis.SidesAgree | src/accounting_engine.cpp:27-44 | the cost always has the sign of the position, and the position equals that of the exact ledger |
| CostBasis.TruncationDrift | src/accounting_engine.cpp:32-38 | the kept cost never exceeds the exact rational basis, equals it before any partial close, and is short by less than one unit per partial close since the position was last flat or flipped |
| CostBasis.RealizedRounding | src/accounting_engine.cpp:62-62 | each partial close realizes the exact amount rounded down for a long and up for a short, by less than one unit |
| Execution.ExecutionSimulator.SubmitOrder | src/execution_simulator.cpp:5-33 | report, book entry and counters of a submission in either style |
| Execution.ExecutionSimulator.OnTick | src/execution_simulator.cpp:35-55 | a tick fills, or acknowledges a due cancel, or does neither; never two of them |
| Execution.ExecutionSimulator.RequestCancel | src/execution_simulator.cpp:57-66 | a cancel is taken once, effective after the latency |
| Execution.ExecutionSimulator.AggressiveFill | src/execution_simulator.cpp:68-101 | takes the smaller of the displayed opposite quantity and the order, at the touch |
| Execution.ExecutionSimulator.PassiveFillFromMarket | src/execution_simulator.cpp:103-160 | the queue ahead is served first, the rest fills the order at its own price, flagged when the order is old or the market has moved against it |
| Execution.ExecutionSimulator.CountPassiveFill | src/execution_simulator.cpp:127-136 | the four counters of a passive fill |
| Execution.ExecutionSimulator.DetectAdverseSelection | src/execution_simulator.cpp:178-185 | true exactly when the mid lies the threshold or more beyond the order's price, on the losing side |
| Execution.QueueClosedForm | src/execution_simulator.cpp:103-176 | over any ticks and cancel requests before a cancel ack: filled = min(size, max(0, V - queue)) and queue left = max(0, queue - V), V being the total opposite quantity displayed on crossing ticks |
| Execution.Conservation | src/execution_simulator.cpp:35-160 | filled plus remaining quantity is always the submitted quantity; an order goes inactive only filled or acknowledged |
| Execution.NothingAfterInactive | src/execution_simulator.cpp:35-38 | after an order has ended no tick fills it or acknowledges anything |
| Execution.CancelTerminates | src/execution_simulator.cpp:45-52 | with a cancel pending, each tick at or after its effective time lowers the leaves or ends the order, so it ends within `leaves` such ticks |
| Execution.NoEarlyAck | src/execution_simulator.cpp:45-65 | a cancel is never acknowledged before it has been with the simulator for the latency |
| Execution.TickReport | src/execution_simulator.cpp:35-55 | every field of a tick's report, from the order before and after: fill, partial, stale and adverse flags, leaves, and the ack exactly when a pending cancel is due and nothing filled |
| Execution.PlaceReport | src/execution_simulator.cpp:5-33 | every field of a submission's report in either style, and the book entry it makes |
| Execution.CountersCount | src/execution_simulator.cpp:57-160 | over any calls, each of the seven counters is the number of reports of its kind |
| VenueGateway.MockVenueGateway.SendNew | src/mock_venue_gateway.cpp:5-15 | one order at a time; every third client id will be rejected |
| VenueGateway.MockVenueGateway.SendCancel | src/mock_venue_gateway.cpp:17-25 | refused without an active order or while a cancel is on its way |
| VenueGateway.MockVenueGateway.Acknowledge | src/mock_venue_gateway.cpp:43-86 | acknowledgement, immediate trade and, for aggressive orders, expiry of the rest |
| VenueGateway.MockVenueGateway.Service | src/mock_venue_gateway.cpp:89-113 | due cancels are refused once or forwarded, then the resting order meets the tick |
| VenueGateway.MockVenueGateway.OnTick | src/mock_venue_gateway.cpp:27-114 | the gateway and the batch of events after a tick |
| VenueGateway.MockVenueGateway.CloseActiveOrderIfDone | src/mock_venue_gateway.cpp:149-158 | an order without leaves and without a book entry is closed |
| VenueGateway.PollAggressive | src/mock_venue_gateway.cpp:30-87 | an aggressive order is acknowledged, filled at the touch for what is displayed, expired for the rest and gone, all in one tick |
| VenueGateway.PollPassive | src/mock_venue_gateway.cpp:63-111 | a passive order enters the book when acknowledged and may already trade on that tick |
| VenueGateway.PollWorking | src/mock_venue_gateway.cpp:102-111 | what a tick does to a resting order, with gateway and simulator copies equal afterwards |
| VenueGateway.PollBudget | src/mock_venue_gateway.cpp:116-122 | every tick from every reachable gateway: no batch overflow, at most three events and one fill, and the simulator counts exactly the fills sent |
| VenueGateway.BatchIsPrefix | src/mock_venue_gateway.cpp:116-122 | a batch holds the first four events pushed and counts the others |
| VenueGateway.CloseExactly | src/mock_venue_gateway.cpp:149-158 | an order is closed exactly if it has neither leaves nor a place in the book, and nothing else changes |
| VenueLog.StreamIsOrderly | src/mock_venue_gateway.cpp:27-158 | over any calls, ticks and latencies: ids count the acknowledgements from 100000, the fills of an order never exceed its size, nothing follows its cancel ack, its expiry or the fill that completes it, and no order has two cancels refused |
| VenueTiming.NewOrderAnswered | src/mock_venue_gateway.cpp:5-40 | over any calls: a new order is answered by the first tick one latency or more after it was sent and by none before, with a reject exactly if its client id is a multiple of three |
| VenueTiming.CancelRefusedExactly | src/mock_venue_gateway.cpp:88-100 | over any calls: a tick refuses a cancel, and says nothing else, if and only if the order is in the book under an odd id, its cancel was sent one latency or more ago and the log holds no earlier refusal for it |
| Replay.Runner.EmitEvent | src/replay_runner.cpp:62-77 | one journal record, one sink call, one latency sample |
| Replay.Runner.RecordTransition | src/replay_runner.cpp:79-84 | a record only when the state changed |
| Replay.Runner.BookFill | src/replay_runner.cpp:86-102 | an applied fill is booked, marked, recorded and counted once |
| Replay.Runner.OnVenueEvent | src/replay_runner.cpp:104-131 | transition, fill and reject records of an applied event; the right counter of a refused one |
| Replay.RefusalsCounted | src/replay_runner.cpp:123-130 | any event in any state: a refused one is counted once in total and once under its reason and changes nothing else, an applied one is not counted as refused |
| Replay.Runner.PollVenue | src/replay_runner.cpp:143-153 | mark, venue tick, then the events of the batch in order |
| Replay.Runner.MaybeCancel | src/replay_runner.cpp:160-170 | the gateway must take a cancel before the order manager moves |
| Replay.Runner.BeforeStrategy | src/replay_runner.cpp:143-170 | the venue half of a tick, with the submit clock cleared for finished orders |
| Replay.Runner.OnSignal | src/replay_runner.cpp:184-198 | a signal is counted, gated and either rejected in the journal or submitted |
| Replay.Runner.Submit | src/replay_runner.cpp:200-219 | a client id is used up whether or not the order manager takes the order |
| Replay.Runner.SendOrder | src/replay_runner.cpp:209-225 | announcement, gateway submission, and the fed-back reject if the gateway refuses |
| Replay.Runner.OnInput | src/replay_runner.cpp:136-229 | the kernel after one tick |
| Replay.StrategyDecides | src/strategy.cpp:5-24 | fifty units, bought at an ask of 100000 or less, otherwise sold at a bid of 120000 or more |
| Replay.RunReplay | src/replay_runner.cpp:18-245 | fails exactly on empty input or on a second symbol, after offering the sink the journal of the ticks before it; otherwise ends in the state of the whole run, with as many persisted records as the sink accepted calls, the failure flag set exactly if it refused one, and the overflow flag of the six collectors |
| ReplayAgreement.PollDelivers | src/mock_venue_gateway.cpp:27-114 | from agreeing copies, any tick: every event is applied except answers to a cancel a fill has overtaken, the copies agree again, and the order is orphaned exactly if it was or the tick strands it |
| ReplayRuns.ComponentsAgree | src/replay_runner.cpp:136-229 | after every tick of every run the three copies of the order agree; batch overflows and wrong-order, bad-quantity and bad-id events stay 0, and fills equal the simulator's count |
| ReplayRuns.SubmitAgrees | src/replay_runner.cpp:206-219 | from agreeing copies, an order the order manager takes is always taken by the gateway, so the counted gateway submissions are real ones |
| ReplayRuns.OrphanedExactlyWhenStranded | src/order_manager.cpp:90-105 | the order manager holds a live order the venue lacks if and only if some earlier tick acknowledged an overtaken cancel |
| ReplayRuns.OrphanIsForever | src/replay_runner.cpp:160-219 | after that, whatever happens, the order and the venue never change again, nothing is submitted or filled, and the account is only re-marked |
| ReplayRuns.AggressiveNeverOrphaned | src/replay_runner.cpp:160-164 | aggressive runs never orphan an order and never count an invalid venue event |
| ReplayRuns.RunStaysWithinLimit | src/replay_runner.cpp:186-219 | the position limit holds after every tick of every run |
| ReplayRuns.TickRuns | src/replay_runner.cpp:136-229 | one tick: at most five journal records, one fill, one risk and two execution samples; agreement is kept |
| ReplayRuns.RunBudget | src/replay_runner.cpp:37-42 | the same budgets summed over a run |
| ReplayRefinement.RunRefines | src/replay_runner.cpp:133-229 | every run of the kernel is the run of the one-copy machine `ReplayReference.DeskRun`: same order, account, ids, counters, samples, simulator counters and journal, record for record |
| ReplayRefinement.TickRefines | src/replay_runner.cpp:136-229 | the same for one tick from any state that meets the run invariant |
| ReplayCounts.RunCounts | src/replay_runner.cpp:184-219 | after every tick of every run: signals are counted, next client id = 1 + signals - risk rejects, and all fills are fills of the run's style |
| ReplayCounts.RunIsMarked | src/replay_runner.cpp:95-143 | the account is marked at the mid of the last tick |
| ReplayCounts.JournalExplained | src/replay_runner.cpp:104-198 | every record carries the time of a tick; a risk reject repeats the refused order and the test it failed; a venue reject follows the transition it caused, with reason, side and a positive quantity |
| ReplayRecords.TickWrites | src/replay_runner.cpp:136-229 | exactly how many journal records a tick writes, computed from the kernel before it: venue events, cancel, signal |
| ReplayRecords.WritesFive | src/replay_runner.cpp:143-229 | a tick writes at most five records, and five if and only if it meets the guard `FiveRecords` |
| ReplayRecords.JournalBalance | src/replay_runner.cpp:41-41 | journal length = four per tick + five-record ticks - what the other ticks leave unused |
| ReplayRecords.PassiveJournal | src/replay_runner.cpp:160-170 | a passive run stays below four records per tick, by two or three |
| ReplayJournal.JournalRebuildsAccount | src/replay_runner.cpp:86-122 | folding the engine over the fills in a journal rebuilds position, cost, cash, average and realized PnL of the run; fill, risk-reject and venue-reject counters equal the records of their kind |
| ReplayJournal.RunReconciles | src/accounting_engine.cpp:53-63 | the reconciliation rule after every tick of every run, and the meaning of every displayed figure |
| ReplayJournal.JournalIsLegalWalk | src/replay_runner.cpp:79-84 | the transitions of a journal form one legal walk through the lifecycle that ends in the order manager's state |
| ReplayTiming.PassiveFillOnAck | src/replay_runner.cpp:202-204 | what a passive order trades on the tick it is acknowledged on: nothing unless that tick crosses the own-side price of the tick it was sent on, and then the opposite quantity beyond the own-side quantity, up to its size |
| ReplayTiming.CancelsExactlyWhenDue | src/replay_runner.cpp:155-170 | a tick sends a cancel exactly when the live order itself has been out for the configured time and the venue can take a cancel |
| ReplayWitnesses.LivenessCanDisagree | src/order_manager.cpp:90-95 | five ticks that orphan an order |
| ReplayWitnesses.JournalOutrunsItsCollector | src/replay_runner.cpp:41-41 | nine ticks that write 37 journal records |
| ReplayWitnesses.PassiveTickWritesFive | src/replay_runner.cpp:160-198 | a passive run of six ticks whose last writes five records |
| ReplayCollectors.FiveCollectorsNeverOverflow | src/replay_runner.cpp:37-42 | five collectors keep every sample of every run |
| ReplayCollectors.EventSinkCollector | src/replay_runner.cpp:41-41 | the sixth accounts for every record and refuses exactly as many as five-record ticks outnumber the spare room of the others; none if no tick meets `FiveRecords`, none in a passive run |
| ReplayCollectors.LatencyOverflowExactly | src/replay_runner.cpp:239-243 | the reported overflow flag is set if and only if the run is aggressive and its five-record ticks outnumber that spare room |
| ReplayCollectors.EventSinkCollectorOverflows | src/replay_runner.cpp:41-41 | it does overflow on the nine-tick run |
| MachineIntegers.NoOverflow | src/accounting_engine.cpp:20-62 | with bounded prices, sizes and timestamps, every 64-bit sum, difference and product of prices, quantities and timestamps in a tick fits (account, mid and adverse moves, projected position, deadlines, ages) when limit squared times price and turnover plus limit times price do |
| MachineIntegers.TickBooksOneFill | src/replay_runner.cpp:86-102 | a tick's venue half marks the account and books at most one fill, from the account and with the side that the overflow bounds speak of |
| MachineIntegers.ReplayNeverOverflows | src/replay_runner.cpp:30-31 | the same for the replay's own limit and order size: 40000 B and 50 B n + 200 B must fit |
| SpscRing.SpscRingBuffer.TryPush | include/spsc_ring_buffer.h:17-29 | appends, and fails exactly when `capacity` values are held |
| SpscRing.SpscRingBuffer.TryPop | include/spsc_ring_buffer.h:31-41 | removes the oldest value, and fails exactly when empty |
| SpscRing.SpscRingBuffer.Increment | include/spsc_ring_buffer.h:52-54 | the next slot, wrapping |
| SpscRing.SpscRingBuffer.Empty | include/spsc_ring_buffer.h:43-45 | true exactly when nothing is held |
| SpscRing.PushLoadKeeps | include/spsc_ring_buffer.h:18-22 | under any interleaving a push fails exactly when the cursors it observed are `capacity` apart |
| SpscRing.PopLoadKeeps | include/spsc_ring_buffer.h:32-35 | a pop fails exactly when the cursor version it observed is its own |
| SpscRing.EveryInterleavingIsFifo | include/spsc_ring_buffer.h:17-41 | every interleaving with stale cursors: pops are a prefix of pushes, at most `capacity` values are held, and the slot being written is neither being read nor unread |
| SpscRing.PushCompletes | include/spsc_ring_buffer.h:17-29 | an undisturbed push appends its value, or gives up exactly on a full queue |
| SpscRing.PopCompletes | include/spsc_ring_buffer.h:31-41 | an undisturbed pop takes the oldest value, or finds nothing exactly in an empty queue |
| AsyncSink.DrainedOnExit | src/replay_runner.cpp:45-77 | when the sink thread has exited, under any schedule, at the end of the input or at a second symbol: business state is that of the synchronous run so far, every queued record was consumed once in order, persisted + failed + dropped = accepted, persisted records are the calls the sink accepted, the failure flag is set exactly if it refused one, the sink saw a subsequence of the synchronous journal and all of it if nothing was dropped |
| AsyncSink.SinkFinishes | src/replay_runner.cpp:48-58 | once the sink thread has seen the flag, under any schedule: no push, no failing pop, at most seven effective steps per record left and seven more, a step always possible until it exits, and it exits having popped exactly what was left |
| AsyncSink.ReplayProgresses | src/replay_runner.cpp:62-77 | until it sets the flag the replay thread can move, and its next step gets it to the next tick, the next record or further along its push |
| AsyncSink.SinkNeverStuck | src/replay_runner.cpp:48-58 | the sink thread can move until it has exited, and sees the flag once it is set |
| AsyncSink.SmallRunsDropNothing | src/replay_runner.cpp:71-73 | a run with at most as many records as the queue holds drops none under any schedule |
| LatencyStatistics.LatencyStats.Initialize | src/latency_stats.cpp:11-35 | the size is taken exactly when the checked product fits |
| LatencyStatistics.LatencyStats.Record | src/latency_stats.cpp:37-45 | keeps a sample while there is room, counts it otherwise |
| LatencyStatistics.CollectedIsPrefix | src/latency_stats.cpp:37-45 | a collector holds the first `capacity` samples offered and has refused the rest |
| LatencyStatistics.PercentileIndexIsNearestRank | src/latency_stats.cpp:119-129 | the split formula is ceil(n p / 1000) - 1, a valid index, and no step of it leaves size_t |
| LatencyStatistics.TailCountIsCeil | src/latency_stats.cpp:131-139 | the tail of p percent is ceil(n p / 100) samples, and at least one |
| LatencyStatistics.Summarize | src/latency_stats.cpp:47-84 | the two summing loops compute the summary that `SummaryIsFaithful` is about |
| LatencyStatistics.SummaryIsFaithful | src/latency_stats.cpp:47-84 | of the samples as recorded: least and greatest, the truncated mean, each percentile the least value that enough samples do not exceed, the tail mean that of the slowest hundredth rounded up; in order, and 0 where there are too few samples |
| Decimal.ParsePositiveCount | bench/generate_replay.cpp:11-27 | succeeds exactly on all-digit text with a value from 1 to SIZE_MAX, and returns that value |
| Decimal.PrintedParses | src/csv_reader.cpp:14-20 | a printed number in range parses back to itself |
| Decimal.ParseIntegerExactly | src/csv_reader.cpp:14-20 | a token is read as v if and only if v is in range and the token is an optional minus, zeros and the printed digits of v; the minus only for signed targets and never before a positive number |
| CsvReading.SplitFields | src/csv_reader.cpp:138-154 | the cursor walk finds the fields between commas and succeeds exactly on seven |
| CsvReading.ParseLine | src/csv_reader.cpp:132-183 | the row that `CsvReading.RowExactly` is about, or nothing |
| CsvReading.RowExactly | src/csv_reader.cpp:95-183 | a line is read as a tick if and only if it is seven numerals of the right widths between commas, and possibly one carriage return |
| CsvReading.ReadRows | src/csv_reader.cpp:92-130 | every row with no problem in it, or the category and line of the first row with one |
| CsvReading.ReadAll | src/csv_reader.cpp:72-130 | the same for a whole text, split as getline splits it |
| CsvReading.ReadsIsFunctional | src/csv_reader.cpp:72-130 | what `ReadAll` promises leaves one possible result per text |
| CsvReading.AcceptedExactly | src/csv_reader.cpp:72-130 | a text is read as given ticks if and only if it has a header and every row states its tick, has a positive uncrossed quote, quantities of 0 or more and no receipt before the exchange time, is no earlier than the row before it and has the first row's symbol |
| CsvReading.NoRowsRejected | src/csv_reader.cpp:85-91 | an error at line 1, a schema error, is given exactly for a text without data rows |
| CsvReading.RejectedFor | src/csv_reader.cpp:92-130 | a rejected text has a first bad row; the rows before it are those of an accepted text, and the error has its line and its first fault |
| CsvReading.LinesExactly | src/csv_reader.cpp:85-93 | lines are what newlines separate; only a last line that is not empty may lack one |
| CsvReading.AcceptedTicksAreSane | src/csv_reader.cpp:101-118 | accepted ticks satisfy every per-row check, have one symbol and nondecreasing receive times |
| ReplayGenerator.Generate | bench/generate_replay.cpp:48-57 | the loop writes the header and one row per tick |
| ReplayGenerator.GeneratedShape | bench/generate_replay.cpp:50-56 | every tick: bid from 99600 to 100000, spread 200, sizes 50, one a microsecond with 50 ns delay |
| ReplayGenerator.FileBegins | bench/generate_replay.cpp:48-57 | the header and the first two rows, character by character |
| ReplayGenerator.RowRoundTrip | bench/generate_replay.cpp:56-56 | any tick that fits its struct is read back from its printed row, with LF or CRLF |
| ReplayGenerator.GeneratedFileReadsBack | bench/generate_replay.cpp:48-57 | for every tick count whose timestamps fit, the generated file is accepted and reads back as exactly the generated ticks, with LF or CRLF |
| PythonPool.AcceptedExactly | interview/thread_pool/thread_pool.py:30-55 | a task is accepted exactly if it is submitted before shutdown |
| PythonPool.DroppedExactly | interview/thread_pool/thread_pool.py:57-71 | a task is dropped exactly if its future was cancelled before a worker started it |
| PythonPool.DrainedWhenAllGone | interview/thread_pool/thread_pool.py:30-71 | any number of workers, any interleaving: once all have left, nothing is queued and every accepted task was run exactly once, or never exactly if its future was cancelled in time |
| PythonPool.SentinelsArePut | interview/thread_pool/thread_pool.py:40-55 | shutdown puts one sentinel after the other |
| PythonPool.NeverStuck | interview/thread_pool/thread_pool.py:40-71 | after shutdown some worker can move until all have left |
| PythonPool.WorkerStepsTerminate | interview/thread_pool/thread_pool.py:57-71 | each worker step shrinks what is left to do |
| CppPool.AcceptedExactly | interview/thread_pool/thread_pool.h:42-103 | a task is accepted exactly if it is submitted before shutdown |
| CppPool.OneWayOn | interview/thread_pool/thread_pool.h:61-74 | an awake worker without a task does exactly one thing: sleep, take a task or leave |
| CppPool.DrainedWhenAllGone | interview/thread_pool/thread_pool.h:42-78 | once all workers have left, the finished tasks are exactly the accepted ones, each once |
| CppPool.NeverStuck | interview/thread_pool/thread_pool.h:42-78 | once shutdown has notified, no worker sleeps on the condition variable and every worker still present can move |
| CppPool.NoLostWakeup | interview/thread_pool/thread_pool.h:61-105 | with a task queued and no notification to come, some worker can take it or is running, spurious wake-ups or not |
| CppPool.WorkerStepsTerminate | interview/thread_pool/thread_pool.h:61-78 | after shutdown each worker step shrinks what is left to do, notifications add nothing and nobody goes to sleep again |

## Left out

- Replay.Runner.BookFill: has no branch for a fill the accounting engine refuses, because the engine refuses exactly the quantities the handler has already skipped; the counter for it stays 0.
- CsvReading.ReadAll: takes the text of the file, so opening and reading errors are not part of this model; errors carry category and line, not their message.
- LatencyStatistics.Summarize: sums are unbounded integers; the 64-bit sum of measured latencies is not bounded, since clock readings are arbitrary here.
- Replay.Runner.EmitEvent: is the synchronous branch; the branch that pushes to the queue is the replay thread of `AsyncSink`.
- Replay.RunReplay: is the synchronous mode, for the same reason.
- Measured latencies: only how often each collector is called is modelled.
- Sink formatting (src/fill_logger.cpp): a sink is any function from the records offered so far to success or failure.
- Command line, benchmark driver, configuration parsing and struct layout are not part of this model.
- The full C++ memory model: replaced by versioned cursor loads as described above; yielding and fairness are not part of this model.
- Widths of 32-bit quantities and counters inside the kernel: unbounded here; the reader's field widths are modelled.
