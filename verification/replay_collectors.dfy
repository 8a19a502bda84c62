/** The six latency collectors of a run, sized as src/replay_runner.cpp sizes them. */
module ReplayCollectors {
  import opened Types
  import opened Replay
  import opened ReplayRuns
  import opened ReplayRecords
  import opened ReplayJournal
  import opened ReplayWitnesses
  import opened LatencyStatistics

  lemma Fits(capacity: nat, calls: seq<int>)
    requires |calls| <= capacity
    ensures Collected(capacity, calls) == (calls, 0)
  {
    hide Collected;
    CollectedIsPrefix(capacity, calls);
    assert calls[..|calls|] == calls;
  }

  /** Whatever latencies are measured, five collectors keep every sample of every run. */
  lemma FiveCollectorsNeverOverflow(cfg: Config, inputs: seq<Input>, strategy: seq<int>, risk: seq<int>,
                                    execution: seq<int>, accounting: seq<int>, endToEnd: seq<int>)
    requires var n := Run(cfg, inputs).samples;
      && |strategy| == n.strategy && |risk| == n.risk && |execution| == n.execution
      && |accounting| == n.accounting && |endToEnd| == n.endToEnd
    ensures Collected(|inputs|, strategy) == (strategy, 0)
    ensures Collected(|inputs|, risk) == (risk, 0)
    ensures Collected(2 * |inputs|, execution) == (execution, 0)
    ensures Collected(|inputs|, accounting) == (accounting, 0)
    ensures Collected(|inputs|, endToEnd) == (endToEnd, 0)
  {
    hide Run, Collected, CountOf, FillsIn;
    RunBudget(cfg, inputs);
    JournalRebuildsAccount(cfg, inputs);
    Fits(|inputs|, strategy);
    Fits(|inputs|, risk);
    Fits(2 * |inputs|, execution);
    Fits(|inputs|, accounting);
    Fits(|inputs|, endToEnd);
  }

  /** The event-sink collector accounts for every record. It refuses as many samples as the ticks that
      meet `FiveRecords` outnumber what the other ticks leave of four records each; so none without such
      a tick, and none in a passive run. */
  lemma EventSinkCollector(cfg: Config, inputs: seq<Input>, sink: seq<int>)
    ensures var (kept, refused) := Collected(4 * |inputs|, sink);
      |sink| == Run(cfg, inputs).samples.eventSink ==>
      && |kept| + refused == |Run(cfg, inputs).journal|
      && refused == Max(0, FiveTicks(cfg, inputs) - Spare(cfg, inputs))
      && ((forall i :: 0 <= i < |inputs| ==> !FiveAt(cfg, inputs, i)) ==> refused == 0)
      && (cfg.style == Passive ==> refused == 0)
      && refused <= |inputs|
  {
    hide Run, Collected, FiveTicks, Spare, FiveAt;
    RunBudget(cfg, inputs);
    JournalRebuildsAccount(cfg, inputs);
    CollectedIsPrefix(4 * |inputs|, sink);
    JournalBalance(cfg, inputs);
    NoFiveTicks(cfg, inputs);
    if cfg.style == Passive {
      if inputs == [] {
      } else {
        PassiveJournal(cfg, inputs);
      }
    }
  }

  /** A run is reported as having lost latency samples exactly if it is aggressive and its ticks of five
      records outnumber what the others leave. */
  lemma LatencyOverflowExactly(cfg: Config, inputs: seq<Input>)
    ensures LatencyOverflow(Run(cfg, inputs).samples, |inputs|)
      <==> cfg.style == Aggressive && FiveTicks(cfg, inputs) > Spare(cfg, inputs)
  {
    hide Run, FiveTicks, Spare, CountOf, FillsIn;
    RunBudget(cfg, inputs);
    JournalRebuildsAccount(cfg, inputs);
    JournalBalance(cfg, inputs);
    if cfg.style == Passive {
      if inputs == [] {
        assert |Run(cfg, inputs).journal| == 0;
      } else {
        PassiveJournal(cfg, inputs);
      }
    }
  }

  /** The thin feed makes it refuse a sample on its ninth tick. */
  lemma EventSinkCollectorOverflows(sink: seq<int>)
    ensures |sink| == Run(ReplayConfig(Aggressive, 3000), ThinFeed(9)).samples.eventSink
      ==> Collected(4 * 9, sink).1 == 1
  {
    hide Run, Collected;
    JournalOutrunsItsCollector();
    JournalRebuildsAccount(ReplayConfig(Aggressive, 3000), ThinFeed(9));
    CollectedIsPrefix(4 * 9, sink);
  }
}
