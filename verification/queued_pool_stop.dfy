/**
 stop() of the thread pool: it raises the stop flag and nothing else does, the flag stays up, and from
 then on a worker takes a task only if it was waiting for one inside the queue.
 */
module QueuedPoolStop {
  import opened Bits
  import opened Counting
  import opened QueueSpec
  import opened MonitorQueue
  import opened SplitQueue
  import opened SplitQueueTheorems
  import opened QueuedPool
  import opened QueuedPoolInv
  import opened QueuedPoolTheorems
  import Pool = ThreadPool

  // ---------------------------------------------------------------------------
  // The flag

  lemma OrParity(a: nat, b: nat)
    ensures Or(a, b) % 2 == if a % 2 == 1 || b % 2 == 1 then 1 else 0
  {
    if a != 0 && b != 0 { LastBit(Or(a / 2, b / 2), if a % 2 == 1 || b % 2 == 1 then 1 else 0); }
  }

  lemma LastBit(high: nat, bit: nat)
    requires bit < 2
    ensures (2 * high + bit) % 2 == bit
  {
  }

  lemma StopBit(flags: nat)
    ensures And(flags, Pool.STOP_FLAG) == flags % 2
  {
    AndMask(flags, 1);
  }

  // An idle client calls stop() in the step.
  predicate CallsStop(s: PoolState, e: PoolEvent) {
    e.Client? && e.client < |s.clients| && s.clients[e.client].Idle? && e.request.Stop?
  }

  // The pool is stopped after a step exactly when it was before or stop() was called.
  lemma StopsExactly(s: PoolState, e: PoolEvent)
    requires PoolShape(s)
    ensures Stopped(PoolStep(s, e)) <==> Stopped(s) || CallsStop(s, e)
  {
    StopBit(s.flags);
    if e.Client? && e.client < |s.clients| {
      if AtQueue(s.clients[e.client], e.request) {
        ClientUses(s, e);
      } else {
        LocalFlags(s, e.client, e.request);
      }
    } else if e.Worker? && e.worker < |s.workers| {
      WorkerFlags(s, e.worker, e.flag, e.other);
    }
  }

  lemma LocalFlags(s: PoolState, c: nat, request: Request)
    requires PoolShape(s) && c < |s.clients|
    ensures Stopped(LocalStep(s, c, request)) <==> Stopped(s) || (s.clients[c].Idle? && request.Stop?)
  {
    StopBit(s.flags);
    StopBit(Or(s.flags, Pool.STOP_FLAG));
    StopBit(Or(s.flags, Pool.WAIT_FLAG));
    OrParity(s.flags, Pool.STOP_FLAG);
    OrParity(s.flags, Pool.WAIT_FLAG);
  }

  lemma WorkerFlags(s: PoolState, w: nat, flag: bool, other: nat)
    requires PoolShape(s) && w < |s.workers|
    ensures WorkerStep(s, w, flag, other).flags == s.flags
  {
  }

  ghost predicate StopIn(s: PoolState, events: seq<PoolEvent>)
    requires PoolInv(s)
    decreases |events|
  {
    events != [] &&
    (CallsStop(s, events[0]) || (PoolStepInv(s, events[0]); StopIn(PoolStep(s, events[0]), events[1..])))
  }

  // In every run the pool is stopped at the end exactly when stop() was called, or it was before.
  lemma {:induction false} StoppedExactly(s: PoolState, events: seq<PoolEvent>)
    requires PoolInv(s)
    ensures Stopped(PoolRun(s, events)) <==> Stopped(s) || StopIn(s, events)
    decreases |events|
  {
    if events != [] {
      PoolStepInv(s, events[0]);
      StopsExactly(s, events[0]);
      StoppedExactly(PoolStep(s, events[0]), events[1..]);
    }
  }

  lemma NotStopped(workers: nat, clients: nat)
    ensures !Stopped(PoolInit(workers, clients))
  {
    StopBit(0);
  }

  // ---------------------------------------------------------------------------
  // The workers of a stopped pool

  // Worker w is inside wait_pop and has no answer yet.
  predicate Waiting(s: PoolState, w: nat)
    requires PoolShape(s) && w < |s.workers|
  {
    s.workers[w].InPop? && Asking(s.queue.q.roles[w])
  }

  function WaitingMarks(s: PoolState): (r: seq<bool>)
    requires PoolShape(s)
    ensures |r| == |s.workers| && forall w :: 0 <= w < |r| ==> r[w] == Waiting(s, w)
  {
    seq(|s.workers|, (w: nat) requires w < |s.workers| => Waiting(s, w))
  }

  // From s to r at most thread w has taken a task, and then it was waiting for one and is no more.
  ghost predicate TakesLast(s: PoolState, r: PoolState, w: nat) {
    && PoolShape(s) && PoolShape(r) && |r.workers| == |s.workers|
    && (forall v: nat :: v < |s.workers| && v != w ==> Waiting(r, v) == Waiting(s, v))
    && (r.takers == s.takers || (w < |s.workers| && r.takers == s.takers + [w] && Waiting(s, w) && !Waiting(r, w)))
    && (w < |s.workers| && Waiting(r, w) ==> Waiting(s, w))
  }

  // An access of a worker inside wait_pop.
  lemma PopTakesLast(s: PoolState, next: SplitState, w: nat, ops: seq<Op>)
    requires WorkerUse(s, next, w, ops) && s.workers[w].InPop?
    ensures TakesLast(s, PopUsed(s, next, w, ops), w)
  {
    WorkerUseOk(s, next, w, ops);
    assert WorkerOk(s, w);
  }

  lemma InPopUse(s: PoolState, w: nat, o: Order)
    requires SplitInv(s.queue) && PoolOk(s) && w < |s.workers| && s.workers[w].InPop? && o.thread == w
    ensures WorkerUse(s, SplitStep(s.queue, o), w, Commit(s.queue, o))
  {
    assert WorkerOk(s, w);
    StepEffect(s.queue, o);
    OneCommitPerCall(s.queue, o);
  }

  lemma WorkerTakesLast(s: PoolState, w: nat, flag: bool, other: nat, r: PoolState)
    requires SplitInv(s.queue) && PoolOk(s) && Stopped(s) && w < |s.workers| && r == WorkerStep(s, w, flag, other)
    ensures TakesLast(s, r, w)
  {
    if s.workers[w].InPop? {
      var o := Order(w, Proceed(flag), other);
      InPopUse(s, w, o);
      PopTakesLast(s, SplitStep(s.queue, o), w, Commit(s.queue, o));
    }
  }

  // A client takes nothing, and leaves the workers where they are.
  lemma ClientTakesNone(s: PoolState, next: SplitState, c: nat, ops: seq<Op>, inside: ClientAt, done: ClientAt)
    requires ClientUse(s, next, c, ops, inside, done)
    ensures TakesLast(s, ClientUsed(s, next, c, ops, inside, done), |s.workers|)
  {
    ClientUseShape(s, next, c, ops, inside, done);
    ClientFitsUse(s, next, c, ops, inside, done);
  }

  lemma LocalTakesNone(s: PoolState, c: nat, request: Request)
    requires PoolShape(s) && c < |s.clients|
    ensures TakesLast(s, LocalStep(s, c, request), |s.workers|)
  {
  }

  lemma ClientAccess(s: PoolState, e: PoolEvent)
    requires SplitInv(s.queue) && PoolOk(s) && e.Client? && e.client < |s.clients|
    requires AtQueue(s.clients[e.client], e.request)
    ensures var at, o := s.clients[e.client], OrderOf(s, e);
            ClientUse(s, SplitStep(s.queue, o), e.client, Commit(s.queue, o), AtWork(at), AtEnd(at))
  {
    var at, o := s.clients[e.client], OrderOf(s, e);
    if o.call.Proceed? { AccessGoesOn(s, e.client, at, o); } else { AccessStarts(s, e.client, at, e.request, o); }
  }

  lemma AccessStarts(s: PoolState, c: nat, at: ClientAt, request: Request, o: Order)
    requires SplitInv(s.queue) && PoolOk(s) && c < |s.clients| && at == s.clients[c]
    requires at.ToClose? || (at.Idle? && request.Submit?)
    requires o.thread == |s.workers| + c && o.call == CallMade(at, request, true)
    ensures ClientUse(s, SplitStep(s.queue, o), c, Commit(s.queue, o), AtWork(at), AtEnd(at))
  {
    assert ClientOk(s, c);
    StepEffect(s.queue, o);
    CallStarts(s.queue, o);
    Entered(s.queue, o);
  }

  lemma AccessGoesOn(s: PoolState, c: nat, at: ClientAt, o: Order)
    requires SplitInv(s.queue) && PoolOk(s) && c < |s.clients| && at == s.clients[c]
    requires (at.InPush? || at.InClose?) && o.thread == |s.workers| + c
    ensures ClientUse(s, SplitStep(s.queue, o), c, Commit(s.queue, o), AtWork(at), AtEnd(at))
  {
    assert ClientOk(s, c);
    StepEffect(s.queue, o);
    OneCommitPerCall(s.queue, o);
  }

  lemma StepTakesLast(s: PoolState, e: PoolEvent, r: PoolState) returns (w: nat)
    requires SplitInv(s.queue) && PoolOk(s) && Stopped(s) && r == PoolStep(s, e)
    ensures TakesLast(s, r, w)
  {
    w := |s.workers|;
    if e.Worker? && e.worker < |s.workers| {
      w := e.worker;
      WorkerTakesLast(s, w, e.flag, e.other, r);
    } else if e.Client? && e.client < |s.clients| {
      if AtQueue(s.clients[e.client], e.request) {
        var at, o := s.clients[e.client], OrderOf(s, e);
        ClientAccess(s, e);
        ClientTakesNone(s, SplitStep(s.queue, o), e.client, Commit(s.queue, o), AtWork(at), AtEnd(at));
        ClientUses(s, e);
      } else {
        LocalTakesNone(s, e.client, e.request);
      }
    }
  }

  // ---------------------------------------------------------------------------
  // Runs of a stopped pool

  function One(b: bool): nat { if b then 1 else 0 }

  // From s to r no more tasks are taken than workers were waiting, and at most one by each.
  ghost predicate FewTaken(s: PoolState, r: PoolState) {
    && PoolShape(s) && PoolShape(r) && |r.workers| == |s.workers|
    && |r.takers| + Count(WaitingMarks(r)) <= |s.takers| + Count(WaitingMarks(s))
    && (forall w: nat :: w < |s.workers| ==>
          multiset(r.takers)[w] + One(Waiting(r, w)) <= multiset(s.takers)[w] + One(Waiting(s, w)))
  }

  lemma TakesLastFew(s: PoolState, r: PoolState, w: nat)
    requires TakesLast(s, r, w)
    ensures FewTaken(s, r)
  {
    if w < |s.workers| {
      assert WaitingMarks(r) == WaitingMarks(s)[w := Waiting(r, w)];
      CountUpdate(WaitingMarks(s), w, Waiting(r, w));
    } else {
      assert WaitingMarks(r) == WaitingMarks(s);
    }
  }

  lemma FewThen(s: PoolState, m: PoolState, r: PoolState)
    requires FewTaken(s, m) && FewTaken(m, r)
    ensures FewTaken(s, r)
  {
  }

  lemma {:induction false} StoppedRun(s: PoolState, events: seq<PoolEvent>)
    requires PoolInv(s) && Stopped(s)
    ensures FewTaken(s, PoolRun(s, events))
    decreases |events|
  {
    if events != [] {
      var r := PoolStep(s, events[0]);
      PoolStepInv(s, events[0]);
      StopsExactly(s, events[0]);
      var w := StepTakesLast(s, events[0], r);
      TakesLastFew(s, r, w);
      StoppedRun(r, events[1..]);
      FewThen(s, r, PoolRun(r, events[1..]));
    }
  }

  // A task that nobody has taken has not been run.
  lemma UntakenNotRun(s: PoolState, k: nat)
    requires PoolInv(s) && |s.takers| <= k < |s.runs|
    ensures s.runs[k] == 0
  {
    assert s.queue.q.taken == s.queue.q.given + s.queue.q.queue;
    assert Pool.TaskInv(Abs(s), k);
  }

  // stop() stops the pool: in every run from there on, each worker takes at most one more task, and
  // none unless it was waiting inside the queue; all other tasks, queued or yet to come, are not run.
  lemma StopStops(s: PoolState, events: seq<PoolEvent>)
    requires PoolInv(s) && Stopped(s)
    ensures var r := PoolRun(s, events);
            && Stopped(r) && FewTaken(s, r)
            && (forall k: nat :: |s.takers| + Count(WaitingMarks(s)) <= k < |r.runs| ==> r.runs[k] == 0)
  {
    var r := PoolRun(s, events);
    StoppedExactly(s, events);
    StoppedRun(s, events);
    forall k: nat | |s.takers| + Count(WaitingMarks(s)) <= k < |r.runs| ensures r.runs[k] == 0 {
      UntakenNotRun(r, k);
    }
  }
}
