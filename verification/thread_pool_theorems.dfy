/** What holds in every run of the thread pool. */
module ThreadPoolTheorems {
  import opened Bits
  import opened ThreadPool

  lemma FlagBits(f: nat)
    requires f <= 3
    ensures Or(f, STOP_FLAG) <= 3 && Or(f, WAIT_FLAG) <= 3 && Or(f, STOP_FLAG) != 0 && Or(f, WAIT_FLAG) != 0
    ensures And(Or(f, STOP_FLAG), STOP_FLAG) != 0
    ensures And(Or(f, WAIT_FLAG), STOP_FLAG) == And(f, STOP_FLAG)
  {
    assert f == 0 || f == 1 || f == 2 || f == 3;
  }

  lemma InitInv(workers: nat, clients: nat)
    ensures Inv(Init(workers, clients))
  {
  }

  // ---------------------------------------------------------------------------
  // Workers

  lemma CheckStopInv(s: State, w: nat)
    requires Inv(s) && w < |s.workers| && s.workers[w].CheckStop?
    ensures Inv(WorkStep(s, w))
  {
    var r := WorkStep(s, w);
    forall k: nat | k < |r.tasks| ensures TaskInv(r, k) { assert TaskInv(s, k); }
    forall v: nat | v < |r.workers| ensures WorkerInv(r, v) { assert WorkerInv(s, v); }
  }

  lemma PopTaskInv(s: State, w: nat)
    requires Inv(s) && w < |s.workers| && s.workers[w].PopTask?
    ensures Inv(WorkStep(s, w))
  {
    var r := WorkStep(s, w);
    if s.queue != [] { assert TaskInv(s, s.queue[0]); }
    forall k: nat | k < |r.tasks| ensures TaskInv(r, k) { assert TaskInv(s, k); }
    forall v: nat | v < |r.workers| ensures WorkerInv(r, v) { assert WorkerInv(s, v); }
  }

  lemma RunTaskInv(s: State, w: nat)
    requires Inv(s) && w < |s.workers| && s.workers[w].RunTask?
    ensures Inv(WorkStep(s, w))
  {
    var r := WorkStep(s, w);
    assert WorkerInv(s, w);
    forall k: nat | k < |r.tasks| ensures TaskInv(r, k) { assert TaskInv(s, k); }
    forall v: nat | v < |r.workers| ensures WorkerInv(r, v) { assert WorkerInv(s, v); }
  }

  // ---------------------------------------------------------------------------
  // Clients

  lemma SubmitInv(s: State)
    requires Inv(s)
    ensures Inv(SubmitTask(s))
  {
    var r := SubmitTask(s);
    forall k: nat | k < |r.tasks| ensures TaskInv(r, k) { assert k < |s.tasks| ==> TaskInv(s, k); }
    forall v: nat | v < |r.workers| ensures WorkerInv(r, v) { assert WorkerInv(s, v); }
  }

  // A client outside the join section that stays outside it.
  lemma OutsideJoin(s: State, c: nat, pc: ClientPc)
    requires JoinInv(s.joinLock, s.joinDone, s.clients, s.workers, s.joins)
    requires c < |s.clients|
    requires s.clients[c].Outside? || s.clients[c].Shutdown?
    requires pc.Outside? || pc.Shutdown? || pc.JoinLock?
    ensures JoinInv(s.joinLock, s.joinDone, s.clients[c := pc], s.workers, s.joins)
  {
    var n := |s.workers|;
    assert Joined(s.joinLock, s.joinDone, s.clients[c := pc], n) == Joined(s.joinLock, s.joinDone, s.clients, n);
  }

  // A client that is not about to close the queue and stays so.
  lemma OtherCloser(s: State, c: nat, flags: nat, pc: ClientPc)
    requires CloserInv(s.flags, s.closed, s.clients, s.shutdowns)
    requires c < |s.clients| && !s.clients[c].Shutdown?
    requires flags != 0 && s.flags != 0 && !pc.Shutdown?
    ensures CloserInv(flags, s.closed, s.clients[c := pc], s.shutdowns)
  {
    if !s.closed {
      var d :| 0 <= d < |s.clients| && s.clients[d].Shutdown?;
      assert s.clients[c := pc][d].Shutdown?;
    }
  }

  lemma FirstCloser(s: State, c: nat, flags: nat, pc: ClientPc)
    requires CloserInv(s.flags, s.closed, s.clients, s.shutdowns)
    requires c < |s.clients| && s.flags == 0 && flags != 0 && pc.Shutdown?
    ensures CloserInv(flags, s.closed, s.clients[c := pc], s.shutdowns)
  {
    assert s.clients[c := pc][c].Shutdown?;
  }

  lemma RaiseFlagInv(s: State, c: nat, flag: nat)
    requires Inv(s) && c < |s.clients| && s.clients[c].Outside? && (flag == STOP_FLAG || flag == WAIT_FLAG)
    ensures Inv(RaiseFlag(s, c, flag))
  {
    var r := RaiseFlag(s, c, flag);
    FlagBits(s.flags);
    OutsideJoin(s, c, r.clients[c]);
    if s.flags == 0 { FirstCloser(s, c, r.flags, r.clients[c]); } else { OtherCloser(s, c, r.flags, r.clients[c]); }
    forall k: nat | k < |r.tasks| ensures TaskInv(r, k) { assert TaskInv(s, k); }
    forall v: nat | v < |r.workers| ensures WorkerInv(r, v) { assert WorkerInv(s, v); }
  }

  lemma CloseQueueInv(s: State, c: nat)
    requires Inv(s) && c < |s.clients| && s.clients[c].Shutdown?
    ensures Inv(CloseQueue(s, c))
  {
    var r := CloseQueue(s, c);
    OutsideJoin(s, c, r.clients[c]);
    forall k: nat | k < |r.tasks| ensures TaskInv(r, k) { assert TaskInv(s, k); }
    forall v: nat | v < |r.workers| ensures WorkerInv(r, v) { assert WorkerInv(s, v); }
  }

  lemma JoinStepJoins(s: State, c: nat)
    requires Shape(s) && JoinInv(s.joinLock, s.joinDone, s.clients, s.workers, s.joins)
    requires c < |s.clients| && (s.clients[c].JoinLock? || s.clients[c].JoinTest? || s.clients[c].Joining?)
    ensures var r := ClientStep(s, c); JoinInv(r.joinLock, r.joinDone, r.clients, r.workers, r.joins)
  {
  }

  lemma JoinStepInv(s: State, c: nat)
    requires Inv(s) && c < |s.clients| && (s.clients[c].JoinLock? || s.clients[c].JoinTest? || s.clients[c].Joining?)
    ensures Inv(ClientStep(s, c))
  {
    var r := ClientStep(s, c);
    JoinStepJoins(s, c);
    OtherCloser(s, c, s.flags, r.clients[c]);
    forall k: nat | k < |r.tasks| ensures TaskInv(r, k) { assert TaskInv(s, k); }
    forall v: nat | v < |r.workers| ensures WorkerInv(r, v) { assert WorkerInv(s, v); }
  }

  lemma StepInv(s: State, e: Event)
    requires Inv(s)
    ensures Inv(Step(s, e))
  {
    match e
    case Work(w) =>
      if w < |s.workers| {
        match s.workers[w]
        case CheckStop => CheckStopInv(s, w);
        case PopTask => PopTaskInv(s, w);
        case RunTask(_) => RunTaskInv(s, w);
        case Exited =>
      }
    case Submit(c) => SubmitInv(s);
    case Stop(c) => if c < |s.clients| && s.clients[c].Outside? { RaiseFlagInv(s, c, STOP_FLAG); }
    case Wait(c) => if c < |s.clients| && s.clients[c].Outside? { RaiseFlagInv(s, c, WAIT_FLAG); }
    case Go(c) =>
      if c < |s.clients| {
        match s.clients[c]
        case Outside =>
        case Shutdown(_) => CloseQueueInv(s, c);
        case _ => JoinStepInv(s, c);
      }
  }

  // ---------------------------------------------------------------------------
  // Runs

  ghost function Run(s: State, events: seq<Event>): (r: State)
    requires Inv(s)
    ensures Inv(r)
    decreases |events|
  {
    if events == [] then s
    else
      StepInv(s, events[0]);
      Run(Step(s, events[0]), events[1..])
  }

  ghost predicate Reachable(s: State) {
    exists workers: nat, clients: nat, events: seq<Event> ::
      (InitInv(workers, clients); s == Run(Init(workers, clients), events))
  }

  lemma ReachableInv(s: State)
    requires Reachable(s)
    ensures Inv(s)
  {
    var workers: nat, clients: nat, events: seq<Event> :|
      (InitInv(workers, clients); s == Run(Init(workers, clients), events));
  }

  // However submit(), stop() and wait() interleave, no task is run twice, none is run before the
  // tasks accepted before it are started, and no worker is joined twice.
  lemma AtMostOnce(s: State)
    requires Reachable(s)
    ensures |s.runs| == |s.tasks| && forall k :: 0 <= k < |s.runs| ==> s.runs[k] <= 1
    ensures forall j, k :: 0 <= j < k < |s.runs| && s.runs[k] == 1 ==> !s.tasks[j].Queued?
    ensures forall w :: 0 <= w < |s.joins| ==> s.joins[w] <= 1
  {
    ReachableInv(s);
    forall k: nat | k < |s.runs| ensures s.runs[k] <= 1 && (s.runs[k] == 1 ==> !s.tasks[k].Queued?) {
      assert TaskInv(s, k);
    }
    forall j: nat, k | j < k < |s.runs| && s.runs[k] == 1 ensures !s.tasks[j].Queued? {
      assert TaskInv(s, j) && TaskInv(s, k);
    }
  }

  // When wait() has returned, every worker was joined exactly once, and the tasks fall into two:
  // those up to some number were each run once, and the rest are still queued and never run.
  lemma WaitSettles(s: State)
    requires Reachable(s) && s.waited
    ensures |s.joins| == |s.workers| && forall w :: 0 <= w < |s.workers| ==> s.joins[w] == 1 && s.workers[w].Exited?
    ensures |s.queue| <= |s.tasks| == |s.runs|
    ensures forall k :: 0 <= k < |s.runs| ==> s.runs[k] == if k < |s.tasks| - |s.queue| then 1 else 0
  {
    ReachableInv(s);
    forall k: nat | k < |s.runs| ensures s.runs[k] == if k < |s.tasks| - |s.queue| then 1 else 0 {
      assert TaskInv(s, k);
    }
  }

  predicate AllRunOnce(s: State) { forall k :: 0 <= k < |s.runs| ==> s.runs[k] == 1 }

  // When wait() has returned and stop() was not called, every accepted task has been run exactly
  // once if and only if the pool has a worker or nothing was accepted.
  lemma WaitRunsEverything(s: State)
    requires Reachable(s) && s.waited && !Stopped(s)
    ensures AllRunOnce(s) <==> |s.workers| > 0 || s.tasks == []
  {
    ReachableInv(s);
    WaitSettles(s);
    if |s.workers| > 0 {
      assert WorkerInv(s, 0);
    } else {
      NothingRuns(s);
      assert s.tasks != [] ==> s.runs[0] == 0 by { assert s.tasks != [] ==> TaskInv(s, 0); }
    }
  }

  // Without workers no task is ever run.
  lemma NothingRuns(s: State)
    requires Reachable(s) && |s.workers| == 0
    ensures |s.queue| == |s.tasks|
  {
    var workers: nat, clients: nat, events: seq<Event> :|
      (InitInv(workers, clients); s == Run(Init(workers, clients), events));
    InitInv(workers, clients);
    StaysQueued(Init(workers, clients), events);
  }

  lemma {:induction false} StaysQueued(s: State, events: seq<Event>)
    requires Inv(s)
    ensures |Run(s, events).workers| == |s.workers|
    ensures |s.workers| == 0 && |s.queue| == |s.tasks| ==> |Run(s, events).queue| == |Run(s, events).tasks|
    decreases |events|
  {
    if events != [] {
      StepInv(s, events[0]);
      SameWorkers(s, events[0]);
      StaysQueued(Step(s, events[0]), events[1..]);
    }
  }

  lemma SameWorkers(s: State, e: Event)
    requires Shape(s)
    ensures |Step(s, e).workers| == |s.workers|
    ensures |s.workers| == 0 && |s.queue| == |s.tasks| ==> |Step(s, e).queue| == |Step(s, e).tasks|
  {
  }

  // The queue is closed exactly once, however stop() and wait() race: never twice, and not at all
  // only while nobody has called them or the first caller is still on its way to do it.
  lemma ShutdownOnce(s: State)
    requires Reachable(s)
    ensures s.shutdowns <= 1 && (s.closed <==> s.shutdowns == 1)
    ensures s.shutdowns == 0 <==> s.flags == 0 || exists c :: 0 <= c < |s.clients| && s.clients[c].Shutdown?
    ensures s.waited && |s.workers| > 0 && !Stopped(s) ==> s.closed
  {
    ReachableInv(s);
    if |s.workers| > 0 { assert WorkerInv(s, 0); }
  }

  // What a closed pool has done stays done: no further task is accepted, a task that was run is
  // not run again, and after wait() nothing is run at all.
  lemma {:induction false} ClosedForGood(s: State, events: seq<Event>)
    requires Inv(s) && s.closed
    ensures var r := Run(s, events);
            && r.closed && |r.tasks| == |s.tasks|
            && (s.waited ==> r.waited && r.runs == s.runs)
            && forall k :: 0 <= k < |s.tasks| && s.runs[k] == 1 ==> r.runs[k] == 1
    decreases |events|
  {
    if events != [] {
      StepInv(s, events[0]);
      ClosedStep(s, events[0]);
      ClosedForGood(Step(s, events[0]), events[1..]);
    }
  }

  lemma ClosedStep(s: State, e: Event)
    requires Inv(s) && s.closed
    ensures var r := Step(s, e);
            && r.closed && |r.tasks| == |s.tasks| && |r.runs| == |s.runs|
            && (s.waited ==> r.waited && r.runs == s.runs)
            && forall k :: 0 <= k < |s.tasks| && s.runs[k] == 1 ==> r.runs[k] == 1
  {
    if e.Work? && e.worker < |s.workers| && s.workers[e.worker].RunTask? {
      assert WorkerInv(s, e.worker);
      assert TaskInv(s, s.workers[e.worker].task);
    }
  }

  // ---------------------------------------------------------------------------
  // Draining

  // How many accesses a worker can still make, not counting those for tasks it has yet to take.
  function WorkerRank(pc: WorkerPc): nat {
    match pc case CheckStop => 2 case PopTask => 1 case RunTask(_) => 3 case Exited => 0
  }

  function RankSum(workers: seq<WorkerPc>): nat {
    if workers == [] then 0 else WorkerRank(workers[0]) + RankSum(workers[1..])
  }

  function Rank(s: State): nat { 3 * |s.queue| + RankSum(s.workers) }

  lemma {:induction false} RankUpdate(workers: seq<WorkerPc>, w: nat, pc: WorkerPc)
    requires w < |workers|
    ensures RankSum(workers[w := pc]) == RankSum(workers) - WorkerRank(workers[w]) + WorkerRank(pc)
  {
    var next := workers[w := pc];
    if w == 0 {
      assert next[1..] == workers[1..];
    } else {
      assert next[1..] == workers[1..][w - 1 := pc];
      RankUpdate(workers[1..], w - 1, pc);
    }
  }

  predicate Busy(s: State, e: Event) { e.Work? && e.worker < |s.workers| && !s.workers[e.worker].Exited? }

  lemma RankStep(s: State, e: Event)
    requires Inv(s) && s.closed
    ensures Rank(Step(s, e)) + (if Busy(s, e) then 1 else 0) <= Rank(s)
  {
    if Busy(s, e) {
      RankUpdate(s.workers, e.worker, Step(s, e).workers[e.worker]);
    } else {
      assert Step(s, e).workers == s.workers && Step(s, e).queue == s.queue;
    }
  }
}
