/** What holds in every run of the pool over the monitor queue. */
module QueuedPoolTheorems {
  import opened Values
  import opened MonitorQueue
  import opened QueueSpec
  import opened SplitQueue
  import opened SplitQueueTheorems
  import opened QueuedPool
  import opened QueuedPoolInv
  import Pool = ThreadPool
  import PoolTheorems = ThreadPoolTheorems

  lemma PoolStepInv(s: PoolState, e: PoolEvent)
    requires PoolInv(s)
    ensures PoolInv(PoolStep(s, e))
  {
    var a := PoolSimulates(s, e);
  }

  ghost function PoolRun(s: PoolState, events: seq<PoolEvent>): (r: PoolState)
    requires PoolInv(s)
    ensures PoolInv(r)
    decreases |events|
  {
    if events == [] then s
    else
      PoolStepInv(s, events[0]);
      PoolRun(PoolStep(s, events[0]), events[1..])
  }

  lemma {:induction false} RunOneMore(s: PoolState, events: seq<PoolEvent>, e: PoolEvent)
    requires PoolInv(s)
    ensures PoolRun(s, events + [e]) == PoolStep(PoolRun(s, events), e)
    decreases |events|
  {
    if events == [] {
      PoolStepInv(s, e);
      assert events + [e] == [e] && [e][1..] == [];
    } else {
      PoolStepInv(s, events[0]);
      assert (events + [e])[1..] == events[1..] + [e];
      RunOneMore(PoolStep(s, events[0]), events[1..], e);
    }
  }

  ghost predicate PoolReachable(s: PoolState) {
    exists workers: nat, clients: nat, events: seq<PoolEvent> ::
      (PoolInitInv(workers, clients); s == PoolRun(PoolInit(workers, clients), events))
  }

  // ---------------------------------------------------------------------------
  // The pool with an atomic queue, and the queue

  // Every run over the monitor queue is a run over the atomic queue.
  lemma {:induction false} PoolRunRefines(s: PoolState, events: seq<PoolEvent>) returns (atomic: seq<Pool.Event>)
    requires PoolInv(s)
    ensures Abs(PoolRun(s, events)) == PoolTheorems.Run(Abs(s), atomic)
    decreases |events|
  {
    if events == [] {
      atomic := [];
    } else {
      var a := PoolSimulates(s, events[0]);
      var r := PoolStep(s, events[0]);
      var rest := PoolRunRefines(r, events[1..]);
      if Abs(r) == Abs(s) {
        atomic := rest;
      } else {
        atomic := [a] + rest;
        PoolTheorems.StepInv(Abs(s), a);
        assert atomic[0] == a && atomic[1..] == rest;
      }
    }
  }

  // Every run of the pool is a run of the queue.
  lemma {:induction false} PoolRunOnQueue(s: PoolState, events: seq<PoolEvent>) returns (orders: seq<Order>)
    requires PoolInv(s)
    ensures PoolRun(s, events).queue == SplitRun(s.queue, orders)
    decreases |events|
  {
    if events == [] {
      orders := [];
    } else {
      PoolStepInv(s, events[0]);
      var r := PoolStep(s, events[0]);
      var o := OrderOf(s, events[0]);
      QueueOrder(s, events[0]);
      var rest := PoolRunOnQueue(r, events[1..]);
      if r.queue == s.queue {
        orders := rest;
      } else {
        orders := [o] + rest;
        SplitStepInv(s.queue, o);
        assert orders[0] == o && orders[1..] == rest;
      }
    }
  }

  lemma PoolReachableInv(s: PoolState)
    requires PoolReachable(s)
    ensures PoolInv(s) && PoolTheorems.Reachable(Abs(s)) && SplitReachable(s.queue)
  {
    var workers: nat, clients: nat, events: seq<PoolEvent> :|
      (PoolInitInv(workers, clients); s == PoolRun(PoolInit(workers, clients), events));
    PoolInitInv(workers, clients);
    var start := PoolInit(workers, clients);
    var atomic := PoolRunRefines(start, events);
    PoolTheorems.InitInv(workers, clients);
    assert Abs(s) == PoolTheorems.Run(Pool.Init(workers, clients), atomic);
    var orders := PoolRunOnQueue(start, events);
    SplitInitInv(workers + clients);
    assert s.queue == SplitRun(SplitInit(workers + clients), orders);
  }

  // ---------------------------------------------------------------------------
  // Tasks

  // However submit(), stop() and wait() interleave, no task is run twice and no worker is joined
  // twice, and what a worker is about to run is the task accepted under its number.
  lemma QueuedAtMostOnce(s: PoolState)
    requires PoolReachable(s)
    ensures |s.runs| == |s.queue.q.taken| && forall k :: 0 <= k < |s.runs| ==> s.runs[k] <= 1
    ensures forall w :: 0 <= w < |s.joins| ==> s.joins[w] <= 1
    ensures forall w :: 0 <= w < |s.workers| && s.workers[w].AtTask? ==>
              var k := s.workers[w].number;
              k < |s.runs| && s.runs[k] == 0 && s.queue.q.taken[k] == s.workers[w].task
  {
    PoolReachableInv(s);
    var a := Abs(s);
    PoolTheorems.AtMostOnce(a);
    FirstInFirstOut(s.queue);
    forall w: nat | w < |s.workers| && s.workers[w].AtTask?
      ensures s.workers[w].number < |s.runs| && s.runs[s.workers[w].number] == 0
      ensures s.queue.q.taken[s.workers[w].number] == s.workers[w].task
    {
      assert WorkerOk(s, w) && Pool.WorkerInv(a, w);
      assert Pool.TaskInv(a, s.workers[w].number);
    }
  }

  // When wait() has returned, every worker has gone and was joined exactly once, and the tasks up to
  // some number were each run once while the rest are still queued and never run.
  lemma QueuedWaitSettles(s: PoolState)
    requires PoolReachable(s) && s.waited
    ensures |s.joins| == |s.workers| && forall w :: 0 <= w < |s.workers| ==> s.joins[w] == 1
    ensures |s.queue.q.queue| <= |s.runs| == |s.queue.q.taken|
    ensures forall k :: 0 <= k < |s.runs| ==> s.runs[k] == if k < |s.runs| - |s.queue.q.queue| then 1 else 0
  {
    PoolReachableInv(s);
    Lengths(s);
    PoolTheorems.WaitSettles(Abs(s));
  }

  // When wait() has returned and stop() was not called, every accepted task has been run exactly
  // once if and only if the pool has a worker or nothing was accepted.
  lemma QueuedWaitRunsEverything(s: PoolState)
    requires PoolReachable(s) && s.waited && !Stopped(s)
    ensures (forall k :: 0 <= k < |s.runs| ==> s.runs[k] == 1) <==> |s.workers| > 0 || s.queue.q.taken == []
    ensures |s.workers| > 0 ==> s.queue.q.queue == [] && s.queue.q.closed
  {
    PoolReachableInv(s);
    Lengths(s);
    var a := Abs(s);
    PoolTheorems.WaitRunsEverything(a);
    PoolTheorems.WaitSettles(a);
    if |s.workers| > 0 { assert Pool.WorkerInv(a, 0); }
  }

  // The queue is closed once, by the first caller of stop() or wait().
  lemma QueuedShutdownOnce(s: PoolState)
    requires PoolReachable(s)
    ensures PoolInv(s)
    ensures s.shutdowns <= 1 && (s.queue.q.closed <==> s.shutdowns == 1)
    ensures s.shutdowns == 0 <==> s.flags == 0 || exists c :: 0 <= c < |s.clients| && Abs(s).clients[c].Shutdown?
  {
    PoolReachableInv(s);
    PoolTheorems.ShutdownOnce(Abs(s));
  }

  // ---------------------------------------------------------------------------
  // The tasks that were run

  // The tasks with a run on record.
  function DoneBag(taken: seq<Value>, runs: seq<nat>): multiset<Value>
    requires |runs| == |taken|
    decreases |taken|
  {
    if taken == [] then multiset{}
    else
      var n := |taken| - 1;
      DoneBag(taken[..n], runs[..n]) + (if runs[n] > 0 then multiset{taken[n]} else multiset{})
  }

  lemma {:induction false} BagRun(taken: seq<Value>, runs: seq<nat>, k: nat)
    requires |runs| == |taken| && k < |taken| && runs[k] == 0
    ensures DoneBag(taken, runs[k := 1]) == DoneBag(taken, runs) + multiset{taken[k]}
    decreases |taken|
  {
    var n := |taken| - 1;
    if k == n {
      assert runs[k := 1][..n] == runs[..n];
    } else {
      var last := if runs[n] > 0 then multiset{taken[n]} else multiset{};
      var rest := DoneBag(taken[..n], runs[..n]);
      assert runs[k := 1][..n] == runs[..n][k := 1];
      BagRun(taken[..n], runs[..n], k);
      assert DoneBag(taken, runs[k := 1]) == rest + multiset{taken[k]} + last;
    }
  }

  lemma {:induction false} BagAll(taken: seq<Value>, runs: seq<nat>)
    requires |runs| == |taken| && forall k :: 0 <= k < |runs| ==> runs[k] == 1
    ensures DoneBag(taken, runs) == multiset(taken)
    decreases |taken|
  {
    if taken != [] {
      var n := |taken| - 1;
      BagAll(taken[..n], runs[..n]);
      assert taken == taken[..n] + [taken[n]];
    }
  }

  lemma BagAccept(taken: seq<Value>, runs: seq<nat>, v: Value)
    requires |runs| == |taken|
    ensures DoneBag(taken + [v], runs + [0]) == DoneBag(taken, runs)
  {
    assert (taken + [v])[..|taken|] == taken && (runs + [0])[..|runs|] == runs;
  }

  predicate Recorded(ran: seq<Value>, taken: seq<Value>, runs: seq<nat>) {
    |runs| == |taken| && multiset(ran) == DoneBag(taken, runs)
  }

  // What an access adds to the accepted values.
  predicate TakenNext(q: SplitState, next: SplitState, ops: seq<Op>) {
    next.q.taken == if Accepts(ops) then q.q.taken + [ops[0].call.value] else q.q.taken
  }

  // From s to r no task is run, and a task accepted in an access to the queue is not run yet.
  predicate NoneRun(s: PoolState, r: PoolState, next: SplitState, ops: seq<Op>) {
    && r.ran == s.ran
    && ((r.queue == s.queue && r.runs == s.runs)
        || (r.queue == next && r.runs == if Accepts(ops) then s.runs + [0] else s.runs))
  }

  lemma NoneRunRecorded(s: PoolState, r: PoolState, next: SplitState, ops: seq<Op>)
    requires Recorded(s.ran, s.queue.q.taken, s.runs) && TakenNext(s.queue, next, ops) && NoneRun(s, r, next, ops)
    ensures Recorded(r.ran, r.queue.q.taken, r.runs)
  {
    if Accepts(ops) { BagAccept(s.queue.q.taken, s.runs, ops[0].call.value); }
  }

  lemma WorkerRunsNone(s: PoolState, e: PoolEvent)
    requires PoolShape(s) && e.Worker? && (e.worker < |s.workers| ==> !s.workers[e.worker].AtTask?)
    ensures NoneRun(s, PoolStep(s, e), SplitStep(s.queue, OrderOf(s, e)), Commit(s.queue, OrderOf(s, e)))
  {
  }

  lemma ClientRunsNone(s: PoolState, e: PoolEvent)
    requires PoolShape(s) && e.Client?
    ensures NoneRun(s, PoolStep(s, e), SplitStep(s.queue, OrderOf(s, e)), Commit(s.queue, OrderOf(s, e)))
  {
    if e.client < |s.clients| {
      if AtQueue(s.clients[e.client], e.request) {
        ClientUses(s, e);
      } else {
        LocalKeeps(s, e.client, e.request);
      }
    }
  }

  lemma OrderTaken(q: SplitState, o: Order)
    requires SplitInv(q)
    ensures TakenNext(q, SplitStep(q, o), Commit(q, o))
  {
    CommitLedger(q, o);
  }

  lemma QuietRecorded(s: PoolState, e: PoolEvent)
    requires PoolShape(s) && SplitInv(s.queue) && Recorded(s.ran, s.queue.q.taken, s.runs)
    requires e.Worker? && e.worker < |s.workers| ==> !s.workers[e.worker].AtTask?
    ensures var r := PoolStep(s, e); Recorded(r.ran, r.queue.q.taken, r.runs)
  {
    OrderTaken(s.queue, OrderOf(s, e));
    if e.Worker? { WorkerRunsNone(s, e); } else { ClientRunsNone(s, e); }
    NoneRunRecorded(s, PoolStep(s, e), SplitStep(s.queue, OrderOf(s, e)), Commit(s.queue, OrderOf(s, e)));
  }

  lemma TaskRecorded(s: PoolState, w: nat)
    requires PoolInv(s) && Recorded(s.ran, s.queue.q.taken, s.runs) && w < |s.workers| && s.workers[w].AtTask?
    ensures var k := s.workers[w].number;
            Recorded(s.ran + [s.workers[w].task], s.queue.q.taken, s.runs[k := s.runs[k] + 1])
  {
    var k := s.workers[w].number;
    var a := Abs(s);
    assert WorkerOk(s, w) && Pool.WorkerInv(a, w);
    assert Pool.TaskInv(a, k);
    assert s.queue.q.taken == s.queue.q.given + s.queue.q.queue;
    BagRun(s.queue.q.taken, s.runs, k);
  }

  // The step of a worker that runs its task.
  lemma TaskStep(s: PoolState, e: PoolEvent)
    requires PoolShape(s) && e.Worker? && e.worker < |s.workers| && s.workers[e.worker].AtTask?
    ensures var at, r := s.workers[e.worker], PoolStep(s, e);
            && r.queue == s.queue && r.ran == s.ran + [at.task]
            && r.runs == s.runs[at.number := s.runs[at.number] + 1]
  {
  }

  lemma RanStep(s: PoolState, e: PoolEvent, r: PoolState)
    requires PoolInv(s) && Recorded(s.ran, s.queue.q.taken, s.runs) && r == PoolStep(s, e)
    ensures Recorded(r.ran, r.queue.q.taken, r.runs)
  {
    if e.Worker? && e.worker < |s.workers| && s.workers[e.worker].AtTask? {
      TaskRecorded(s, e.worker);
      TaskStep(s, e);
    } else {
      QuietRecorded(s, e);
    }
  }

  lemma {:induction false} RunRecorded(s: PoolState, events: seq<PoolEvent>)
    requires PoolInv(s) && Recorded(s.ran, s.queue.q.taken, s.runs)
    ensures var r := PoolRun(s, events); Recorded(r.ran, r.queue.q.taken, r.runs)
    decreases |events|
  {
    if events != [] {
      PoolStepInv(s, events[0]);
      RanStep(s, events[0], PoolStep(s, events[0]));
      RunRecorded(PoolStep(s, events[0]), events[1..]);
    }
  }

  // When wait() has returned in a pool that has a worker and was not stopped, the tasks that were
  // run are exactly those that were accepted.
  lemma RanWhatWasAccepted(s: PoolState)
    requires PoolReachable(s) && s.waited && !Stopped(s) && |s.workers| > 0
    ensures multiset(s.ran) == multiset(s.queue.q.taken)
  {
    var workers: nat, clients: nat, events: seq<PoolEvent> :|
      (PoolInitInv(workers, clients); s == PoolRun(PoolInit(workers, clients), events));
    PoolInitInv(workers, clients);
    RunRecorded(PoolInit(workers, clients), events);
    QueuedWaitRunsEverything(s);
    BagAll(s.queue.q.taken, s.runs);
  }

  // ---------------------------------------------------------------------------
  // Draining

  predicate Effective(s: PoolState, e: PoolEvent)
    requires PoolShape(s) && |s.takers| <= |s.runs|
  {
    e.Worker? && PoolShape(PoolStep(s, e)) && |PoolStep(s, e).takers| <= |PoolStep(s, e).runs| &&
    Abs(PoolStep(s, e)) != Abs(s)
  }

  // The accesses in which a worker tests its loop, takes a task, is refused or runs a task.
  ghost function EffectiveSteps(s: PoolState, events: seq<PoolEvent>): nat
    requires PoolInv(s)
    decreases |events|
  {
    if events == [] then 0
    else
      PoolStepInv(s, events[0]);
      (if Effective(s, events[0]) then 1 else 0) + EffectiveSteps(PoolStep(s, events[0]), events[1..])
  }

  // Once the queue is closed the workers run out of things to do, whatever the schedule: these
  // accesses are bounded by the tasks in the queue and the positions of the workers.
  lemma {:induction false} QueuedDrains(s: PoolState, events: seq<PoolEvent>)
    requires PoolInv(s) && s.queue.q.closed
    ensures EffectiveSteps(s, events) + PoolTheorems.Rank(Abs(PoolRun(s, events))) <= PoolTheorems.Rank(Abs(s))
    decreases |events|
  {
    if events != [] {
      var e := events[0];
      EffectiveRank(s, e);
      QueuedDrains(PoolStep(s, e), events[1..]);
    }
  }

  lemma EffectiveRank(s: PoolState, e: PoolEvent)
    requires PoolInv(s) && s.queue.q.closed
    ensures PoolInv(PoolStep(s, e)) && PoolStep(s, e).queue.q.closed
    ensures PoolTheorems.Rank(Abs(PoolStep(s, e))) + (if Effective(s, e) then 1 else 0) <= PoolTheorems.Rank(Abs(s))
  {
    var a := PoolSimulates(s, e);
    PoolTheorems.ClosedStep(Abs(s), a);
    PoolTheorems.RankStep(Abs(s), a);
  }
}
