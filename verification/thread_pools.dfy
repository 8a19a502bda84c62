/** Workers of a pool, counted. */
module Workers {

  datatype Worker = Waiting | Holding(task: nat) | Running(task: nat) | Gone

  /** Workers that have not left their loop. */
  function Present(ws: seq<Worker>): nat {
    if ws == [] then 0 else Present(ws[..|ws| - 1]) + (if ws[|ws| - 1].Gone? then 0 else 1)
  }

  lemma {:induction false} PresentUpdate(ws: seq<Worker>, w: nat, x: Worker)
    requires w < |ws|
    ensures Present(ws[w := x]) == Present(ws) - (if ws[w].Gone? then 0 else 1) + (if x.Gone? then 0 else 1)
    decreases |ws|
  {
    var n := |ws| - 1;
    if w == n {
      assert ws[w := x][..n] == ws[..n];
    } else {
      PresentUpdate(ws[..n], w, x);
      assert ws[w := x][..n] == ws[..n][w := x];
    }
  }

  lemma {:induction false} PresentZero(ws: seq<Worker>)
    ensures Present(ws) == 0 <==> forall w :: 0 <= w < |ws| ==> ws[w].Gone?
  {
    if ws == [] {
    } else {
      PresentZero(ws[..|ws| - 1]);
      assert forall w :: 0 <= w < |ws| - 1 ==> ws[..|ws| - 1][w] == ws[w];
    }
  }

  /** Steps a worker may still take without taking another queue entry. */
  function Weight(w: Worker): nat {
    match w
    case Gone => 0 case Waiting => 1 case Running(_) => 2 case Holding(_) => 3
  }

  function Load(ws: seq<Worker>): nat {
    if ws == [] then 0 else Load(ws[..|ws| - 1]) + Weight(ws[|ws| - 1])
  }

  lemma {:induction false} LoadUpdate(ws: seq<Worker>, w: nat, x: Worker)
    requires w < |ws|
    ensures Load(ws[w := x]) == Load(ws) - Weight(ws[w]) + Weight(x)
    decreases |ws|
  {
    var n := |ws| - 1;
    if w == n {
      assert ws[w := x][..n] == ws[..n];
    } else {
      LoadUpdate(ws[..n], w, x);
      assert ws[w := x][..n] == ws[..n][w := x];
    }
  }

  /** No task is in the hands of two workers. */
  ghost predicate Distinct(ws: seq<Worker>) {
    forall v, w :: 0 <= v < |ws| && 0 <= w < |ws| && v != w && Busy(ws[v]) && Busy(ws[w]) ==> ws[v].task != ws[w].task
  }

  predicate Busy(w: Worker) {
    w.Holding? || w.Running?
  }

  function Idle(n: nat): seq<Worker> {
    seq(n, i => Waiting)
  }

  lemma {:induction false} IdlePresent(n: nat)
    ensures Present(Idle(n)) == n
  {
    if n == 0 {
    } else {
      IdlePresent(n - 1);
      assert Idle(n)[..n - 1] == Idle(n - 1);
    }
  }
}

/** The sentinel-drained pool of interview/thread_pool/thread_pool.py. */
module PythonPool {
  import opened Workers

  /** A queue entry: a numbered task or the `None` that tells one worker to stop. */
  datatype Item = Task(id: nat) | Sentinel

  datatype Future = Pending | Cancelled | Notified | Started | Done

  /** Tasks are numbered in the order they are accepted; `taken` of them have left the queue. `toPut`
      counts the sentinels `shutdown` still has to put while it holds the lock. `runs` counts calls of
      each task's function. */
  datatype Pool = Pool(
    queue: seq<Item>, accepting: bool, toPut: nat, workers: seq<Worker>,
    taken: nat, futures: seq<Future>, runs: seq<nat>)

  datatype Action =
    | Submit | Shutdown | PutSentinel | CancelFuture(id: nat)
    | Get(worker: nat) | Start(worker: nat) | Finish(worker: nat)

  function New(threads: nat): Pool {
    Pool([], true, 0, Idle(threads), 0, [], [])
  }

  predicate Enabled(p: Pool, a: Action) {
    match a
    case Submit => p.toPut == 0
    case Shutdown => p.toPut == 0
    case PutSentinel => p.toPut > 0
    case CancelFuture(id) => id < |p.futures| && p.futures[id].Pending?
    case Get(w) => w < |p.workers| && p.workers[w].Waiting? && p.queue != []
    case Start(w) => w < |p.workers| && p.workers[w].Holding? && p.workers[w].task < |p.futures| == |p.runs|
    case Finish(w) => w < |p.workers| && p.workers[w].Running? && p.workers[w].task < |p.futures|
  }

  /** One step of a client or a worker. `submit` and `shutdown` run under the lock. */
  function Step(p: Pool, a: Action): Pool {
    if !Enabled(p, a) then p
    else
      match a
      case Submit =>
        if !p.accepting then p
        else p.(queue := p.queue + [Task(|p.futures|)], futures := p.futures + [Pending], runs := p.runs + [0])
      case Shutdown => if !p.accepting then p else p.(accepting := false, toPut := |p.workers|)
      case PutSentinel => p.(queue := p.queue + [Sentinel], toPut := p.toPut - 1)
      case CancelFuture(id) => p.(futures := p.futures[id := Cancelled])
      case Get(w) =>
        var rest := p.(queue := p.queue[1..]);
        if p.queue[0].Sentinel? then rest.(workers := p.workers[w := Gone])
        else rest.(workers := p.workers[w := Holding(p.queue[0].id)], taken := p.taken + 1)
      case Start(w) =>
        var id := p.workers[w].task;
        if p.futures[id].Cancelled? then p.(futures := p.futures[id := Notified], workers := p.workers[w := Waiting])
        else p.(futures := p.futures[id := Started], workers := p.workers[w := Running(id)],
                runs := p.runs[id := p.runs[id] + 1])
      case Finish(w) =>
        p.(futures := p.futures[p.workers[w].task := Done], workers := p.workers[w := Waiting])
  }

  /** The queue holds the accepted tasks not yet taken, oldest first, and sentinels only after them. */
  ghost predicate QueueInv(p: Pool) {
    && p.taken <= |p.futures| && |p.runs| == |p.futures|
    && |p.futures| - p.taken <= |p.queue|
    && (forall i :: 0 <= i < |p.queue| ==>
          p.queue[i] == if i < |p.futures| - p.taken then Task(p.taken + i) else Sentinel)
    && (p.accepting ==> p.toPut == 0 && |p.queue| == |p.futures| - p.taken)
  }

  /** Once shut down, there is exactly one sentinel, put or still to put, per worker that has not left. */
  ghost predicate SentinelInv(p: Pool) {
    && |p.queue| - (|p.futures| - p.taken) + p.toPut == (if p.accepting then 0 else Present(p.workers))
    && (p.accepting ==> Present(p.workers) == |p.workers|)
    && (Present(p.workers) < |p.workers| ==> p.taken == |p.futures|)
    && Present(p.workers) <= |p.workers|
  }

  /** What a task's future and its run count say about where the task is. */
  ghost predicate FutureInv(p: Pool) {
    && |p.runs| == |p.futures| && p.taken <= |p.futures|
    && Distinct(p.workers)
    && (forall w :: 0 <= w < |p.workers| && Busy(p.workers[w]) ==>
          && p.workers[w].task < p.taken
          && (p.workers[w].Holding? ==> p.futures[p.workers[w].task].Pending? || p.futures[p.workers[w].task].Cancelled?)
          && (p.workers[w].Running? ==> p.futures[p.workers[w].task].Started?))
    && (forall id :: 0 <= id < |p.futures| ==>
          && p.runs[id] == (if p.futures[id].Started? || p.futures[id].Done? then 1 else 0)
          && (id >= p.taken ==> p.futures[id].Pending? || p.futures[id].Cancelled?)
          && (id < p.taken ==> p.futures[id].Done? || p.futures[id].Notified? || HeldBy(p.workers, id)))
  }

  ghost predicate HeldBy(ws: seq<Worker>, id: nat) {
    exists w :: 0 <= w < |ws| && Busy(ws[w]) && ws[w].task == id
  }

  ghost predicate Inv(p: Pool) {
    QueueInv(p) && SentinelInv(p) && FutureInv(p)
  }

  lemma QueueStep(p: Pool, a: Action)
    requires QueueInv(p) && SentinelInv(p)
    ensures QueueInv(Step(p, a))
  {
  }

  lemma ClientSentinels(p: Pool, a: Action)
    requires QueueInv(p) && SentinelInv(p) && (a.Submit? || a.Shutdown? || a.PutSentinel? || a.CancelFuture?)
    ensures SentinelInv(Step(p, a))
  {
    hide Present;
  }

  lemma WorkerSentinels(p: Pool, a: Action)
    requires QueueInv(p) && SentinelInv(p) && Enabled(p, a) && (a.Get? || a.Start? || a.Finish?)
    ensures SentinelInv(Step(p, a))
  {
    hide Present;
    PresentUpdate(p.workers, a.worker, Step(p, a).workers[a.worker]);
    assert a.Get? ==> (p.queue[0].Sentinel? <==> p.taken == |p.futures|);
  }

  lemma SentinelStep(p: Pool, a: Action)
    requires QueueInv(p) && SentinelInv(p)
    ensures SentinelInv(Step(p, a)) && |Step(p, a).workers| == |p.workers|
  {
    if Enabled(p, a) {
      if a.Get? || a.Start? || a.Finish? {
        WorkerSentinels(p, a);
      } else {
        ClientSentinels(p, a);
      }
    }
  }

  lemma HeldUpdate(ws: seq<Worker>, w: nat, x: Worker, id: nat)
    requires w < |ws| && HeldBy(ws, id) && (Busy(ws[w]) ==> ws[w].task != id || (Busy(x) && x.task == id))
    ensures HeldBy(ws[w := x], id)
  {
    var v :| 0 <= v < |ws| && Busy(ws[v]) && ws[v].task == id;
    assert Busy(ws[w := x][v]);
  }

  lemma ClientFutures(p: Pool, a: Action)
    requires Inv(p) && (a.Submit? || a.Shutdown? || a.PutSentinel? || a.CancelFuture?)
    ensures FutureInv(Step(p, a))
  {
  }

  /** The bookkeeping shared by all worker steps: tasks not settled stay in somebody's hands. */
  lemma StillHeld(p: Pool, a: Action)
    requires FutureInv(p) && QueueInv(p) && Enabled(p, a) && (a.Get? || a.Start? || a.Finish?)
    ensures var n := Step(p, a);
      forall id :: 0 <= id < n.taken && !n.futures[id].Done? && !n.futures[id].Notified? ==> HeldBy(n.workers, id)
  {
    var n, w := Step(p, a), a.worker;
    assert a.Get? && p.queue[0].Task? ==> p.queue[0].id == p.taken;
    forall id | 0 <= id < n.taken && !n.futures[id].Done? && !n.futures[id].Notified?
      ensures HeldBy(n.workers, id)
    {
      if a.Get? && id == p.taken {
        assert Busy(n.workers[w]) && n.workers[w].task == id;
      } else {
        HeldUpdate(p.workers, w, n.workers[w], id);
      }
    }
  }

  lemma GetFutures(p: Pool, w: nat)
    requires QueueInv(p) && FutureInv(p) && Enabled(p, Get(w))
    ensures FutureInv(Step(p, Get(w)))
  {
    hide HeldBy;
    StillHeld(p, Get(w));
    assert p.queue[0].Task? ==> p.queue[0].id == p.taken;
  }

  lemma StartFutures(p: Pool, w: nat)
    requires QueueInv(p) && FutureInv(p) && Enabled(p, Start(w))
    ensures FutureInv(Step(p, Start(w)))
  {
    hide HeldBy;
    StillHeld(p, Start(w));
  }

  lemma FinishFutures(p: Pool, w: nat)
    requires QueueInv(p) && FutureInv(p) && Enabled(p, Finish(w))
    ensures FutureInv(Step(p, Finish(w)))
  {
    hide HeldBy;
    StillHeld(p, Finish(w));
  }

  lemma WorkerFutures(p: Pool, a: Action)
    requires Inv(p) && Enabled(p, a) && (a.Get? || a.Start? || a.Finish?)
    ensures FutureInv(Step(p, a))
  {
    hide FutureInv, Step, QueueInv, SentinelInv;
    match a
    case Get(w) => GetFutures(p, w);
    case Start(w) => StartFutures(p, w);
    case Finish(w) => FinishFutures(p, w);
  }

  lemma StepKeeps(p: Pool, a: Action)
    requires Inv(p)
    ensures Inv(Step(p, a)) && |Step(p, a).workers| == |p.workers|
  {
    hide FutureInv;
    QueueStep(p, a);
    SentinelStep(p, a);
    if Enabled(p, a) {
      if a.Get? || a.Start? || a.Finish? {
        WorkerFutures(p, a);
      } else {
        ClientFutures(p, a);
      }
    }
  }

  lemma NewInv(threads: nat)
    ensures Inv(New(threads))
  {
    IdlePresent(threads);
  }

  /** The pool after any interleaving of clients and workers. */
  ghost function Interleaved(threads: nat, actions: seq<Action>): (p: Pool)
    ensures Inv(p) && |p.workers| == threads
  {
    if actions == [] then NewInv(threads); New(threads)
    else
      var prior := Interleaved(threads, actions[..|actions| - 1]);
      StepKeeps(prior, actions[|actions| - 1]);
      Step(prior, actions[|actions| - 1])
  }

  ghost predicate ShutDown(actions: seq<Action>) {
    exists i :: 0 <= i < |actions| && actions[i].Shutdown?
  }

  /** Submissions before the first shutdown. */
  ghost function Submissions(actions: seq<Action>): nat {
    if actions == [] then 0
    else
      var prior := actions[..|actions| - 1];
      Submissions(prior) + (if actions[|actions| - 1].Submit? && !ShutDown(prior) then 1 else 0)
  }

  lemma ShutDownAfter(actions: seq<Action>)
    requires actions != []
    ensures ShutDown(actions) <==> ShutDown(actions[..|actions| - 1]) || actions[|actions| - 1].Shutdown?
  {
    var prior := actions[..|actions| - 1];
    if ShutDown(prior) {
      var i :| 0 <= i < |prior| && prior[i].Shutdown?;
      assert actions[i].Shutdown?;
    }
  }

  lemma NeverShutDown()
    ensures !ShutDown([])
  {
  }

  /** A task is accepted exactly if it is submitted before `shutdown`. */
  lemma {:induction false} AcceptedExactly(threads: nat, actions: seq<Action>)
    ensures var p := Interleaved(threads, actions);
      |p.futures| == Submissions(actions) && (p.accepting <==> !ShutDown(actions))
  {
    hide ShutDown, FutureInv, SentinelInv;
    if actions == [] {
      assert !ShutDown([]) by { NeverShutDown(); }
    } else {
      AcceptedExactly(threads, actions[..|actions| - 1]);
      ShutDownAfter(actions);
    }
  }

  /** Action `i` cancels the future of task `id` before any worker has taken it up. */
  ghost predicate CancelledAt(threads: nat, actions: seq<Action>, id: nat, i: nat) {
    i < |actions| && actions[i] == CancelFuture(id) && Enabled(Interleaved(threads, actions[..i]), CancelFuture(id))
  }

  ghost predicate CancelledEarly(threads: nat, actions: seq<Action>, id: nat) {
    exists i: nat :: CancelledAt(threads, actions, id, i)
  }

  predicate Dropped(p: Pool, id: nat) {
    id < |p.futures| && (p.futures[id].Cancelled? || p.futures[id].Notified?)
  }

  lemma StepDrops(p: Pool, a: Action, id: nat)
    requires Inv(p)
    ensures Dropped(Step(p, a), id) <==> Dropped(p, id) || (a == CancelFuture(id) && Enabled(p, a))
  {
    hide HeldBy, Present;
  }

  lemma NothingDropped(threads: nat, id: nat)
    ensures !Dropped(New(threads), id)
  {
  }

  lemma {:induction false} DroppedExactly(threads: nat, actions: seq<Action>, id: nat)
    ensures Dropped(Interleaved(threads, actions), id) <==> CancelledEarly(threads, actions, id)
  {
    hide Dropped, Step, Inv, Enabled;
    if actions == [] {
      assert !Dropped(New(threads), id) by { NothingDropped(threads, id); }
    } else {
      var n := |actions| - 1;
      var prior := actions[..n];
      DroppedExactly(threads, prior, id);
      StepDrops(Interleaved(threads, prior), actions[n], id);
      forall i: nat | i < n
        ensures CancelledAt(threads, actions, id, i) == CancelledAt(threads, prior, id, i)
      {
        assert prior[..i] == actions[..i];
      }
      assert CancelledAt(threads, actions, id, n) <==>
        actions[n] == CancelFuture(id) && Enabled(Interleaved(threads, prior), actions[n]);
      if CancelledEarly(threads, prior, id) {
        var i: nat :| CancelledAt(threads, prior, id, i);
        assert CancelledAt(threads, actions, id, i);
      }
    }
  }

  /** When all workers have left: the pool is shut down, nothing is queued, and every accepted task was
      taken; it ran exactly once, or never if its future had been cancelled in time. */
  lemma DrainedWhenAllGone(threads: nat, actions: seq<Action>)
    requires threads > 0
    requires forall w :: 0 <= w < threads ==> Interleaved(threads, actions).workers[w].Gone?
    ensures var p := Interleaved(threads, actions);
      && !p.accepting && p.queue == [] && p.taken == |p.futures|
      && (forall id :: 0 <= id < |p.futures| ==>
            if CancelledEarly(threads, actions, id) then p.futures[id].Notified? && p.runs[id] == 0
            else p.futures[id].Done? && p.runs[id] == 1)
  {
    hide Interleaved, CancelledEarly;
    var p := Interleaved(threads, actions);
    PresentZero(p.workers);
    forall id | 0 <= id < |p.futures|
      ensures Dropped(p, id) <==> CancelledEarly(threads, actions, id)
    {
      DroppedExactly(threads, actions, id);
    }
  }

  /** Every worker step shrinks what is left to do, so a pool that is shut down drains in finitely many. */
  lemma WorkerStepsTerminate(p: Pool, a: Action)
    requires Enabled(p, a) && (a.Get? || a.Start? || a.Finish?)
    ensures 4 * |Step(p, a).queue| + Load(Step(p, a).workers) < 4 * |p.queue| + Load(p.workers)
  {
    hide Load;
    LoadUpdate(p.workers, a.worker, Step(p, a).workers[a.worker]);
  }

  /** `shutdown` puts one sentinel after the other. */
  lemma SentinelsArePut(p: Pool)
    requires p.toPut > 0
    ensures Step(p, PutSentinel).toPut == p.toPut - 1 && Step(p, PutSentinel).queue == p.queue + [Sentinel]
  {
  }

  /** After `shutdown` has put its sentinels, some worker can always move until all have left. */
  lemma NeverStuck(threads: nat, actions: seq<Action>)
    requires var p := Interleaved(threads, actions); !p.accepting && p.toPut == 0
    requires exists w :: 0 <= w < threads && !Interleaved(threads, actions).workers[w].Gone?
    ensures exists w :: 0 <= w < threads && (Enabled(Interleaved(threads, actions), Get(w))
              || Enabled(Interleaved(threads, actions), Start(w)) || Enabled(Interleaved(threads, actions), Finish(w)))
  {
    hide Interleaved;
    var p := Interleaved(threads, actions);
    PresentZero(p.workers);
    var w :| 0 <= w < threads && !p.workers[w].Gone?;
    assert Enabled(p, Get(w)) || Enabled(p, Start(w)) || Enabled(p, Finish(w));
  }
}

/** The flag-drained pool of interview/thread_pool/thread_pool.h. */
module CppPool {
  import opened Workers

  /** A waiting worker is awake, about to lock the mutex and test its condition, or asleep on the condition
      variable. `notices` and `alarms` count the `notify_one` and `notify_all` calls still to come: both are
      made after the mutex has been released. */
  datatype Pool = Pool(
    queue: seq<nat>, accepting: bool, workers: seq<Worker>, accepted: nat, taken: nat, finished: seq<nat>,
    asleep: set<nat>, notices: nat, alarms: nat)

  /** `Submit`, `Shutdown`, `Sleep`, `Take` and `Leave` happen under the mutex. `NotifyOne` names the worker it
      wakes; `Wake` is a spurious wake-up. */
  datatype Action =
    | Submit | Shutdown | NotifyOne(worker: nat) | NotifyAll
    | Sleep(worker: nat) | Wake(worker: nat) | Take(worker: nat) | Leave(worker: nat) | Finish(worker: nat)

  function New(threads: nat): Pool {
    Pool([], true, Idle(threads), 0, 0, [], {}, 0, 0)
  }

  predicate AwakeAt(p: Pool, w: nat) {
    w < |p.workers| && p.workers[w].Waiting? && w !in p.asleep
  }

  predicate Enabled(p: Pool, a: Action) {
    match a
    case Submit => true
    case Shutdown => true
    case NotifyOne(w) => p.notices > 0 && (w in p.asleep || p.asleep == {})
    case NotifyAll => p.alarms > 0
    case Sleep(w) => AwakeAt(p, w) && p.accepting && p.queue == []
    case Wake(w) => w in p.asleep
    case Take(w) => AwakeAt(p, w) && p.queue != []
    case Leave(w) => AwakeAt(p, w) && !p.accepting && p.queue == []
    case Finish(w) => w < |p.workers| && p.workers[w].Running?
  }

  function Step(p: Pool, a: Action): Pool {
    if !Enabled(p, a) then p
    else
      match a
      case Submit =>
        if !p.accepting then p
        else p.(queue := p.queue + [p.accepted], accepted := p.accepted + 1, notices := p.notices + 1)
      case Shutdown => p.(accepting := false, alarms := p.alarms + 1)
      case NotifyOne(w) => p.(notices := p.notices - 1, asleep := p.asleep - {w})
      case NotifyAll => p.(alarms := p.alarms - 1, asleep := {})
      case Sleep(w) => p.(asleep := p.asleep + {w})
      case Wake(w) => p.(asleep := p.asleep - {w})
      case Take(w) =>
        p.(queue := p.queue[1..], workers := p.workers[w := Running(p.queue[0])], taken := p.taken + 1)
      case Leave(w) => p.(workers := p.workers[w := Gone])
      case Finish(w) => p.(workers := p.workers[w := Waiting], finished := p.finished + [p.workers[w].task])
  }

  // ---------------------------------------------------------------------------
  // Tasks
  // ---------------------------------------------------------------------------

  /** Each taken task is with one worker or finished once. */
  ghost predicate TaskInv(p: Pool) {
    && p.taken <= p.accepted && |p.queue| == p.accepted - p.taken
    && (forall i :: 0 <= i < |p.queue| ==> p.queue[i] == p.taken + i)
    && (forall w :: 0 <= w < |p.workers| && p.workers[w].Gone? ==> !p.accepting && p.queue == [])
    && (forall w :: 0 <= w < |p.workers| ==> !p.workers[w].Holding?)
    && (forall w :: 0 <= w < |p.workers| && p.workers[w].Running? ==>
          p.workers[w].task < p.taken && p.workers[w].task !in p.finished)
    && Distinct(p.workers)
    && (forall i :: 0 <= i < |p.finished| ==> p.finished[i] < p.taken)
    && (forall i, j :: 0 <= i < j < |p.finished| ==> p.finished[i] != p.finished[j])
    && (forall id :: 0 <= id < p.taken ==> id in p.finished || RunningSomewhere(p.workers, id))
  }

  ghost predicate RunningSomewhere(ws: seq<Worker>, id: nat) {
    exists w :: 0 <= w < |ws| && ws[w] == Running(id)
  }

  lemma RunningUpdate(ws: seq<Worker>, w: nat, x: Worker, id: nat)
    requires w < |ws| && RunningSomewhere(ws, id) && (ws[w] != Running(id) || x == Running(id))
    ensures RunningSomewhere(ws[w := x], id)
  {
    var v :| 0 <= v < |ws| && ws[v] == Running(id);
    assert ws[w := x][v] == Running(id);
  }

  /** Tasks not finished stay with some worker. */
  lemma StillRunning(p: Pool, a: Action)
    requires TaskInv(p) && Enabled(p, a) && (a.Take? || a.Leave? || a.Finish?)
    ensures var n := Step(p, a);
      forall id :: 0 <= id < n.taken && id !in n.finished ==> RunningSomewhere(n.workers, id)
  {
    var n, w := Step(p, a), a.worker;
    forall id | 0 <= id < n.taken && id !in n.finished
      ensures RunningSomewhere(n.workers, id)
    {
      if a.Take? && id == p.taken {
        assert n.workers[w] == Running(id);
      } else {
        RunningUpdate(p.workers, w, n.workers[w], id);
      }
    }
  }

  lemma WorkerTasks(p: Pool, a: Action)
    requires TaskInv(p) && Enabled(p, a) && (a.Take? || a.Leave? || a.Finish?)
    ensures TaskInv(Step(p, a))
  {
    hide RunningSomewhere;
    StillRunning(p, a);
  }

  lemma TaskStep(p: Pool, a: Action)
    requires TaskInv(p)
    ensures TaskInv(Step(p, a)) && |Step(p, a).workers| == |p.workers|
  {
    if Enabled(p, a) && (a.Take? || a.Leave? || a.Finish?) {
      WorkerTasks(p, a);
      hide TaskInv;
    }
  }

  // ---------------------------------------------------------------------------
  // Wake-ups
  // ---------------------------------------------------------------------------

  /** Waiting workers that are awake. */
  function Awake(ws: seq<Worker>, asleep: set<nat>): nat {
    if ws == [] then 0
    else
      var n := |ws| - 1;
      Awake(ws[..n], asleep) + (if ws[n].Waiting? && n !in asleep then 1 else 0)
  }

  lemma {:induction false} AwakeUpdate(ws: seq<Worker>, asleep: set<nat>, w: nat, x: Worker)
    requires w < |ws|
    ensures Awake(ws[w := x], asleep) == Awake(ws, asleep)
      - (if ws[w].Waiting? && w !in asleep then 1 else 0) + (if x.Waiting? && w !in asleep then 1 else 0)
    decreases |ws|
  {
    var n := |ws| - 1;
    if w == n {
      assert ws[w := x][..n] == ws[..n];
    } else {
      AwakeUpdate(ws[..n], asleep, w, x);
      assert ws[w := x][..n] == ws[..n][w := x];
    }
  }

  lemma {:induction false} AwakeWoken(ws: seq<Worker>, asleep: set<nat>, w: nat)
    ensures Awake(ws, asleep - {w}) ==
      Awake(ws, asleep) + (if w < |ws| && ws[w].Waiting? && w in asleep then 1 else 0)
    decreases |ws|
  {
    if ws == [] {
    } else {
      AwakeWoken(ws[..|ws| - 1], asleep, w);
    }
  }

  lemma {:induction false} SomeoneAwake(ws: seq<Worker>, asleep: set<nat>) returns (w: nat)
    requires Awake(ws, asleep) > 0
    ensures w < |ws| && ws[w].Waiting? && w !in asleep
    decreases |ws|
  {
    var n := |ws| - 1;
    if ws[n].Waiting? && n !in asleep {
      w := n;
    } else {
      w := SomeoneAwake(ws[..n], asleep);
    }
  }

  /** No wake-up is lost: while somebody sleeps, every queued task has a notice to come or an awake worker
      to itself, and a pool that was shut down has its alarm to come. */
  ghost predicate WakeInv(p: Pool) {
    && (forall w :: w in p.asleep ==> w < |p.workers| && p.workers[w].Waiting?)
    && (p.asleep != {} ==> |p.queue| <= p.notices + Awake(p.workers, p.asleep))
    && (!p.accepting && p.asleep != {} ==> p.alarms > 0)
  }

  lemma WakeStep(p: Pool, a: Action)
    requires WakeInv(p)
    ensures WakeInv(Step(p, a))
  {
    hide Awake;
    if Enabled(p, a) {
      if a.Take? || a.Leave? || a.Finish? {
        AwakeUpdate(p.workers, p.asleep, a.worker, Step(p, a).workers[a.worker]);
      } else if a.NotifyOne? || a.Wake? {
        AwakeWoken(p.workers, p.asleep, a.worker);
      }
    }
  }

  ghost predicate Inv(p: Pool) {
    TaskInv(p) && WakeInv(p)
  }

  ghost function Interleaved(threads: nat, actions: seq<Action>): (p: Pool)
    ensures Inv(p) && |p.workers| == threads
  {
    if actions == [] then New(threads)
    else
      var prior := Interleaved(threads, actions[..|actions| - 1]);
      TaskStep(prior, actions[|actions| - 1]);
      WakeStep(prior, actions[|actions| - 1]);
      Step(prior, actions[|actions| - 1])
  }

  ghost predicate ShutDown(actions: seq<Action>) {
    exists i :: 0 <= i < |actions| && actions[i].Shutdown?
  }

  /** Submissions before the first shutdown. */
  ghost function Submissions(actions: seq<Action>): nat {
    if actions == [] then 0
    else
      var prior := actions[..|actions| - 1];
      Submissions(prior) + (if actions[|actions| - 1].Submit? && !ShutDown(prior) then 1 else 0)
  }

  lemma ShutDownAfter(actions: seq<Action>)
    requires actions != []
    ensures ShutDown(actions) <==> ShutDown(actions[..|actions| - 1]) || actions[|actions| - 1].Shutdown?
  {
    var prior := actions[..|actions| - 1];
    if ShutDown(prior) {
      var i :| 0 <= i < |prior| && prior[i].Shutdown?;
      assert actions[i].Shutdown?;
    }
  }

  lemma NeverShutDown()
    ensures !ShutDown([])
  {
  }

  /** A task is accepted exactly if it is submitted before `shutdown`. */
  lemma {:induction false} AcceptedExactly(threads: nat, actions: seq<Action>)
    ensures var p := Interleaved(threads, actions);
      p.accepted == Submissions(actions) && (p.accepting <==> !ShutDown(actions))
  {
    hide ShutDown, TaskInv, WakeInv;
    if actions == [] {
      assert !ShutDown([]) by { NeverShutDown(); }
    } else {
      AcceptedExactly(threads, actions[..|actions| - 1]);
      ShutDownAfter(actions);
    }
  }

  /** An awake worker that is not running does exactly one of three things: it sleeps while there is nothing
      to do and tasks may still come, takes a task, or leaves. */
  lemma OneWayOn(p: Pool, w: nat)
    requires AwakeAt(p, w)
    ensures One(Enabled(p, Sleep(w))) + One(Enabled(p, Take(w))) + One(Enabled(p, Leave(w))) == 1
    ensures Enabled(p, Sleep(w)) ==> w in Step(p, Sleep(w)).asleep
  {
  }

  function One(b: bool): nat { if b then 1 else 0 }

  /** When all workers have left: the pool is shut down, nothing is queued, and the finished tasks are
      exactly the accepted ones, each once. */
  lemma DrainedWhenAllGone(threads: nat, actions: seq<Action>)
    requires threads > 0
    requires forall w :: 0 <= w < threads ==> Interleaved(threads, actions).workers[w].Gone?
    ensures var p := Interleaved(threads, actions);
      && !p.accepting && p.queue == [] && p.taken == p.accepted
      && (forall id: nat :: id < p.accepted <==> id in p.finished)
      && (forall i, j :: 0 <= i < j < |p.finished| ==> p.finished[i] != p.finished[j])
  {
    hide Interleaved;
    var p := Interleaved(threads, actions);
    assert p.workers[0].Gone?;
  }

  /** What is left for the workers of a pool. */
  function Work(p: Pool): nat {
    4 * |p.queue| + Load(p.workers) + |p.asleep|
  }

  /** After `shutdown` every step of a worker shrinks what is left to do, and no notification adds to it;
      going to sleep is no longer possible. */
  lemma WorkerStepsTerminate(p: Pool, a: Action)
    requires Enabled(p, a) && !p.accepting && !a.Submit? && !a.Shutdown?
    ensures Work(Step(p, a)) <= Work(p)
    ensures a.Take? || a.Leave? || a.Finish? || a.Wake? ==> Work(Step(p, a)) < Work(p)
    ensures a.NotifyOne? || a.NotifyAll? ==> Step(p, a).notices + Step(p, a).alarms == p.notices + p.alarms - 1
  {
    hide Load;
    if a.Take? || a.Leave? || a.Finish? {
      LoadUpdate(p.workers, a.worker, Step(p, a).workers[a.worker]);
    }
  }

  /** Once `shutdown` has notified, every worker still present can move. */
  lemma NeverStuck(threads: nat, actions: seq<Action>, w: nat)
    requires w < threads && !Interleaved(threads, actions).accepting && Interleaved(threads, actions).alarms == 0
    requires !Interleaved(threads, actions).workers[w].Gone?
    ensures var p := Interleaved(threads, actions);
      Enabled(p, Take(w)) || Enabled(p, Leave(w)) || Enabled(p, Finish(w))
  {
    hide Interleaved;
    assert !Interleaved(threads, actions).workers[w].Holding?;
  }

  /** At any time, with a task queued and no notification to come, some worker can move: no wake-up of
      `notify_one` is ever lost. */
  lemma NoLostWakeup(threads: nat, actions: seq<Action>)
    requires threads > 0
    requires var p := Interleaved(threads, actions); p.queue != [] && p.notices == 0
    ensures var p := Interleaved(threads, actions);
      exists w :: 0 <= w < threads && (Enabled(p, Take(w)) || Enabled(p, Finish(w)))
  {
    hide Interleaved;
    var p := Interleaved(threads, actions);
    if p.asleep == {} {
      assert !p.workers[0].Gone? && !p.workers[0].Holding?;
      assert Enabled(p, Take(0)) || Enabled(p, Finish(0));
    } else {
      var w := SomeoneAwake(p.workers, p.asleep);
      assert Enabled(p, Take(w));
    }
  }
}
