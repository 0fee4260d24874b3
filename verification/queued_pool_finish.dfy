/**
 After close() the pool can always finish: from every reachable state some schedule lets every worker
 go and every call of stop(), wait() and submit() return.
 */
module QueuedPoolFinish {
  import opened Synch
  import opened MonitorQueue
  import opened QueueSpec
  import opened SplitQueue
  import opened SplitQueueTheorems
  import opened QueueProgress
  import opened QueuedPool
  import opened QueuedPoolInv
  import opened QueuedPoolTheorems
  import Pool = ThreadPool
  import PoolTheorems = ThreadPoolTheorems

  // ---------------------------------------------------------------------------
  // Sums

  function Sum(a: seq<nat>): nat {
    if a == [] then 0 else Sum(a[..|a| - 1]) + a[|a| - 1]
  }

  lemma {:induction false} SumBound(a: seq<nat>, b: seq<nat>, t: nat)
    requires |a| == |b| && t < |a| && forall i :: 0 <= i < |a| && i != t ==> a[i] <= b[i]
    ensures Sum(a) + b[t] <= Sum(b) + a[t]
    decreases |a|
  {
    var n := |a| - 1;
    if t < n { SumBound(a[..n], b[..n], t); } else { SumMonotone(a[..n], b[..n]); }
  }

  lemma {:induction false} SumMonotone(a: seq<nat>, b: seq<nat>)
    requires |a| == |b| && forall i :: 0 <= i < |a| ==> a[i] <= b[i]
    ensures Sum(a) <= Sum(b)
    decreases |a|
  {
    if a != [] { SumMonotone(a[..|a| - 1], b[..|b| - 1]); }
  }

  // ---------------------------------------------------------------------------
  // How much is left to do

  function WorkerRank(at: WorkerAt, role: Role, ahead: nat): nat {
    match at
    case Gone => 0
    case AtTest => 60
    case AtTask(_, _) => 61
    case InPop => ahead + (if Answered(role) && ResultOf(role).Got? then 61 else 0)
  }

  function ClientRank(at: ClientAt, ahead: nat, workers: nat): nat {
    match at
    case Idle => 0
    case InPush => ahead
    case ToClose(_) => workers + 60
    case InClose(wait) => ahead + (if wait then workers + 3 else 0)
    case AtLock => workers + 3
    case AtJoinTest => workers + 2
    case AtJoin(i) => if i <= workers then workers - i + 1 else 1
  }

  function ThreadRank(s: PoolState, t: nat): nat
    requires PoolShape(s) && t < |s.queue.stages|
  {
    var n := |s.workers|;
    if t < n then WorkerRank(s.workers[t], s.queue.q.roles[t], Ahead(s.queue, t))
    else ClientRank(s.clients[t - n], Ahead(s.queue, t), n)
  }

  function Ranks(s: PoolState): (r: seq<nat>)
    requires PoolShape(s)
    ensures |r| == |s.queue.stages| && forall t :: 0 <= t < |r| ==> r[t] == ThreadRank(s, t)
  {
    seq(|s.queue.stages|, (t: nat) requires t < |s.queue.stages| => ThreadRank(s, t))
  }

  function Left(s: PoolState): nat
    requires PoolShape(s)
  {
    100 * |s.queue.q.queue| + Sum(Ranks(s))
  }

  // Less is left to do.
  ghost predicate Descends(s: PoolState, r: PoolState) { PoolShape(s) && PoolShape(r) && Left(r) < Left(s) }

  // One thread comes closer, and nobody else is set back.
  lemma LeftDescends(s: PoolState, r: PoolState, t: nat)
    requires PoolShape(s) && PoolShape(r) && |r.queue.stages| == |s.queue.stages| && t < |s.queue.stages|
    requires forall u :: 0 <= u < |s.queue.stages| && u != t ==> ThreadRank(r, u) <= ThreadRank(s, u)
    requires 100 * |r.queue.q.queue| + ThreadRank(r, t) < 100 * |s.queue.q.queue| + ThreadRank(s, t)
    ensures Left(r) < Left(s)
  {
    SumBound(Ranks(r), Ranks(s), t);
  }

  // ---------------------------------------------------------------------------
  // Steps at the queue

  lemma RankKept(s: PoolState, r: PoolState, u: nat)
    requires PoolShape(s) && PoolShape(r) && |r.workers| == |s.workers| && |r.clients| == |s.clients|
    requires u < |s.queue.stages| && Ahead(r.queue, u) <= Ahead(s.queue, u)
    requires r.queue.q.roles[u] == s.queue.q.roles[u]
    requires u < |s.workers| ==> r.workers[u] == s.workers[u]
    requires u >= |s.workers| ==> r.clients[u - |s.workers|] == s.clients[u - |s.workers|]
    ensures ThreadRank(r, u) <= ThreadRank(s, u)
  {
  }

  // The other threads, after an access of thread t to the queue.
  lemma OtherRanks(s: PoolState, r: PoolState, o: Order, u: nat)
    requires SplitInv(s.queue) && PoolOk(s) && PoolShape(r) && o.thread < |s.queue.stages|
    requires r.queue == SplitStep(s.queue, o)
    requires |r.workers| == |s.workers| && |r.clients| == |s.clients|
    requires forall w :: 0 <= w < |s.workers| && w != o.thread ==> r.workers[w] == s.workers[w]
    requires forall c :: 0 <= c < |s.clients| && |s.workers| + c != o.thread ==> r.clients[c] == s.clients[c]
    requires u < |s.queue.stages| && u != o.thread
    ensures ThreadRank(r, u) <= ThreadRank(s, u)
  {
    OthersAhead(s.queue, o, u);
    AnsweredReturns(s.queue, o, u);
    RankKept(s, r, u);
  }

  // The thread itself: closer to its return, or with its answer.
  lemma WorkerCloser(at: WorkerAt, role: Role, ahead: nat, pc: Pc<nat>, next: Role, after: nat, number: nat, w: nat,
                     ops: seq<Op>)
    requires at.InPop? && RoleGoes(role, next, w, ops) && (pc.Out? ==> next.Leaver? && after == 0)
    requires Answered(role) ==> ResultOf(role).WasClosed? || ResultOf(role).Got?
    requires ops != [] ==> ops[0].result.WasClosed? || ops[0].result.Got?
    requires after < ahead && (ops != [] ==> after <= 9)
    ensures WorkerRank(AfterPop(pc, next, number), next, after)
          < WorkerRank(at, role, ahead) + (if Takes(ops) then 100 else 0)
  {
  }

  lemma QueueLength(s: PoolState, next: SplitState, t: nat, ops: seq<Op>)
    requires PoolShape(s) && Effect(s.queue, next, t, ops) && s.queue.q.closed
    ensures |next.q.queue| + (if Takes(ops) then 1 else 0) == |s.queue.q.queue|
  {
    assert s.queue.q.taken == s.queue.q.given + s.queue.q.queue;
    assert next.q.taken == next.q.given + next.q.queue;
  }

  lemma WorkerDescends(s: PoolState, w: nat, o: Order)
    requires PoolInv(s) && s.queue.q.closed && w < |s.workers| && s.workers[w].InPop?
    requires o.thread == w && o.call.Proceed?
    requires Ahead(SplitStep(s.queue, o), w) < Ahead(s.queue, w)
    requires Commit(s.queue, o) != [] ==> Ahead(SplitStep(s.queue, o), w) <= 9
    ensures PoolShape(UsePop(s, w, o)) && Left(UsePop(s, w, o)) < Left(s)
  {
    var next, ops := SplitStep(s.queue, o), Commit(s.queue, o);
    var r := PopUsed(s, next, w, ops);
    UseSimulates(s, w, o);
    StepEffect(s.queue, o);
    OneCommitPerCall(s.queue, o);
    UseFits(s, next, w, ops);
    assert WorkerOk(s, w);
    QueueLength(s, next, w, ops);
    WorkerCloser(s.workers[w], s.queue.q.roles[w], Ahead(s.queue, w), next.q.base.pcs[w], next.q.roles[w],
                 Ahead(next, w), r.numbers[w], w, ops);
    forall u: nat | u < |s.queue.stages| && u != w ensures ThreadRank(r, u) <= ThreadRank(s, u) {
      OtherRanks(s, r, o, u);
    }
    LeftDescends(s, r, w);
  }

  lemma ClientCloser(at: ClientAt, ahead: nat, pc: Pc<nat>, after: nat, workers: nat)
    requires (at.InPush? || at.InClose?) && (pc.Out? ==> after == 0) && after < ahead
    ensures ClientRank(if pc.Out? then AtEnd(at) else AtWork(at), after, workers) < ClientRank(at, ahead, workers)
  {
  }

  // After an access that brings the client closer, given what it leaves alone.
  lemma ClientUseDescends(s: PoolState, next: SplitState, c: nat, ops: seq<Op>)
    requires PoolShape(s) && c < |s.clients| && (s.clients[c].InPush? || s.clients[c].InClose?)
    requires SplitShape(next) && |next.stages| == |s.queue.stages|
    requires PoolShape(ClientUsed(s, next, c, ops, AtWork(s.clients[c]), AtEnd(s.clients[c])))
    requires |next.q.queue| <= |s.queue.q.queue|
    requires forall u :: 0 <= u < |s.queue.stages| ==> Ahead(next, u) <= Ahead(s.queue, u)
    requires forall u :: 0 <= u < |s.workers| ==> next.q.roles[u] == s.queue.q.roles[u]
    requires Ahead(next, |s.workers| + c) < Ahead(s.queue, |s.workers| + c)
    ensures Left(ClientUsed(s, next, c, ops, AtWork(s.clients[c]), AtEnd(s.clients[c]))) < Left(s)
  {
    var at, t := s.clients[c], |s.workers| + c;
    var r := ClientUsed(s, next, c, ops, AtWork(at), AtEnd(at));
    ClientCloser(at, Ahead(s.queue, t), next.q.base.pcs[t], Ahead(next, t), |s.workers|);
    forall u: nat | u < |s.queue.stages| && u != t ensures ThreadRank(r, u) <= ThreadRank(s, u) { }
    LeftDescends(s, r, t);
  }

  lemma ClientGoesOn(s: PoolState, c: nat, o: Order)
    requires SplitInv(s.queue) && PoolOk(s) && c < |s.clients| && (s.clients[c].InPush? || s.clients[c].InClose?)
    requires o.thread == |s.workers| + c && o.call.Proceed?
    ensures ClientUse(s, SplitStep(s.queue, o), c, Commit(s.queue, o), AtWork(s.clients[c]), AtEnd(s.clients[c]))
  {
    assert ClientOk(s, c);
    StepEffect(s.queue, o);
    OneCommitPerCall(s.queue, o);
  }

  lemma ClientDescends(s: PoolState, c: nat, o: Order, next: SplitState, ops: seq<Op>, r: PoolState)
    requires SplitInv(s.queue) && PoolOk(s) && s.queue.q.closed && c < |s.clients|
    requires s.clients[c].InPush? || s.clients[c].InClose?
    requires o.thread == |s.workers| + c && o.call.Proceed?
    requires next == SplitStep(s.queue, o) && ops == Commit(s.queue, o)
    requires r == ClientUsed(s, next, c, ops, AtWork(s.clients[c]), AtEnd(s.clients[c]))
    requires Ahead(next, o.thread) < Ahead(s.queue, o.thread)
    ensures Descends(s, r)
  {
    ClientGoesOn(s, c, o);
    NobodySetBack(s.queue, o);
    ClientReaches(s, next, c, ops, r);
  }

  // Thread t has come closer, and no thread is set back.
  ghost predicate OneAhead(q: SplitState, next: SplitState, t: nat) {
    && SplitShape(q) && SplitShape(next) && |next.stages| == |q.stages| && t < |q.stages|
    && Ahead(next, t) < Ahead(q, t)
    && forall u: nat :: u < |q.stages| ==> Ahead(next, u) <= Ahead(q, u)
  }

  lemma NobodySetBack(q: SplitState, o: Order)
    requires SplitInv(q) && o.thread < |q.stages| && Ahead(SplitStep(q, o), o.thread) < Ahead(q, o.thread)
    ensures OneAhead(q, SplitStep(q, o), o.thread)
  {
    forall u: nat | u < |q.stages| && u != o.thread ensures Ahead(SplitStep(q, o), u) <= Ahead(q, u) {
      OthersAhead(q, o, u);
    }
  }

  lemma ClientReaches(s: PoolState, next: SplitState, c: nat, ops: seq<Op>, r: PoolState)
    requires c < |s.clients| && (s.clients[c].InPush? || s.clients[c].InClose?) && s.queue.q.closed
    requires ClientUse(s, next, c, ops, AtWork(s.clients[c]), AtEnd(s.clients[c]))
    requires OneAhead(s.queue, next, |s.workers| + c)
    requires r == ClientUsed(s, next, c, ops, AtWork(s.clients[c]), AtEnd(s.clients[c]))
    ensures Descends(s, r)
  {
    ClientUseKeeps(s, next, c, ops);
    ClientUseDescends(s, next, c, ops);
  }

  lemma ClientUseKeeps(s: PoolState, next: SplitState, c: nat, ops: seq<Op>)
    requires c < |s.clients| && s.queue.q.closed
    requires ClientUse(s, next, c, ops, AtWork(s.clients[c]), AtEnd(s.clients[c]))
    ensures PoolShape(ClientUsed(s, next, c, ops, AtWork(s.clients[c]), AtEnd(s.clients[c])))
    ensures |next.q.queue| <= |s.queue.q.queue|
    ensures forall u :: 0 <= u < |s.workers| ==> next.q.roles[u] == s.queue.q.roles[u]
  {
    ClientUseShape(s, next, c, ops, AtWork(s.clients[c]), AtEnd(s.clients[c]));
    QueueLength(s, next, |s.workers| + c, ops);
  }

  // ---------------------------------------------------------------------------
  // Steps elsewhere

  lemma LocalDescends(s: PoolState, r: PoolState, t: nat)
    requires PoolShape(s) && PoolShape(r) && t < |s.queue.stages| && r.queue == s.queue
    requires |r.workers| == |s.workers| && |r.clients| == |s.clients|
    requires forall w :: 0 <= w < |s.workers| && w != t ==> r.workers[w] == s.workers[w]
    requires forall c :: 0 <= c < |s.clients| && |s.workers| + c != t ==> r.clients[c] == s.clients[c]
    requires ThreadRank(r, t) < ThreadRank(s, t)
    ensures Left(r) < Left(s)
  {
    forall u: nat | u < |s.queue.stages| && u != t ensures ThreadRank(r, u) <= ThreadRank(s, u) { }
    LeftDescends(s, r, t);
  }

  // A worker between two calls of wait_pop.
  lemma OutsideDescends(s: PoolState, w: nat)
    requires PoolInv(s) && s.queue.q.closed && w < |s.workers| && (s.workers[w].AtTest? || s.workers[w].AtTask?)
    ensures PoolShape(WorkerStep(s, w, true, 0)) && Left(WorkerStep(s, w, true, 0)) < Left(s)
  {
    var r := WorkerStep(s, w, true, 0);
    WorkerSimulates(s, w, true, 0);
    if s.workers[w].AtTask? || Stopped(s) {
      LocalDescends(s, r, w);
    } else {
      EnterDescends(s, w, Order(w, WaitPop, 0));
    }
  }

  lemma EnterDescends(s: PoolState, w: nat, o: Order)
    requires PoolInv(s) && s.queue.q.closed && w < |s.workers| && s.workers[w].AtTest? && !Stopped(s)
    requires o.thread == w && o.call.WaitPop?
    ensures PoolShape(UsePop(s, w, o)) && Left(UsePop(s, w, o)) < Left(s)
  {
    var next, ops := SplitStep(s.queue, o), Commit(s.queue, o);
    var r := PopUsed(s, next, w, ops);
    assert WorkerOk(s, w);
    UseSimulates(s, w, o);
    StepEffect(s.queue, o);
    CallStarts(s.queue, o);
    EnterAhead(s.queue, o);
    QueueLength(s, next, w, ops);
    forall u: nat | u < |s.queue.stages| && u != w ensures ThreadRank(r, u) <= ThreadRank(s, u) {
      OtherRanks(s, r, o, u);
    }
    LeftDescends(s, r, w);
  }

  lemma EnterAhead(q: SplitState, o: Order)
    requires SplitInv(q) && o.thread < |q.stages| && q.q.base.pcs[o.thread].Out? && !o.call.Proceed?
    ensures SplitStep(q, o).q.base.pcs[o.thread].LockCas? && Ahead(SplitStep(q, o), o.thread) == 16
  {
  }

  // A client in wait(), when all workers have gone: the one that holds join_lock_, or any.
  predicate CanJoin(s: PoolState, d: nat) {
    && d < |s.clients|
    && match s.clients[d]
       case AtLock => s.joinLock.Nobody?
       case AtJoinTest => true
       case AtJoin(i) => i <= |s.workers|
       case _ => false
  }

  lemma SomebodyJoins(s: PoolState, c: nat) returns (d: nat)
    requires PoolInv(s) && c < |s.clients| && (s.clients[c].AtLock? || s.clients[c].AtJoinTest? || s.clients[c].AtJoin?)
    ensures CanJoin(s, d)
  {
    var a := Abs(s);
    assert Pool.JoinInv(a.joinLock, a.joinDone, a.clients, a.workers, a.joins);
    d := if s.clients[c].AtLock? && s.joinLock.Client? then s.joinLock.client else c;
    assert s.joinLock == Pool.Client(d) ==> a.clients[d].JoinTest? || a.clients[d].Joining?;
    assert a.clients[d].Joining? ==> a.clients[d].index <= |s.workers|;
  }

  lemma JoinDescends(s: PoolState, d: nat)
    requires PoolOk(s) && CanJoin(s, d) && forall w :: 0 <= w < |s.workers| ==> s.workers[w].Gone?
    ensures var r := LocalStep(s, d, Continue); PoolShape(r) && Left(r) < Left(s)
  {
    var r := LocalStep(s, d, Continue);
    JoinStep(s, d);
    LocalDescends(s, r, |s.workers| + d);
  }

  lemma JoinStep(s: PoolState, d: nat)
    requires PoolShape(s) && CanJoin(s, d) && forall w :: 0 <= w < |s.workers| ==> s.workers[w].Gone?
    ensures var r := LocalStep(s, d, Continue);
            && PoolShape(r) && r.queue == s.queue && r.workers == s.workers && |r.clients| == |s.clients|
            && r.clients == s.clients[d := r.clients[d]]
            && ClientRank(r.clients[d], 0, |s.workers|) < ClientRank(s.clients[d], 0, |s.workers|)
            && !r.clients[d].InPush? && !r.clients[d].InClose?
  {
  }

  // ---------------------------------------------------------------------------
  // The pool finishes

  predicate Finished(s: PoolState) {
    && (forall w :: 0 <= w < |s.workers| ==> s.workers[w].Gone?)
    && (forall c :: 0 <= c < |s.clients| ==> s.clients[c].Idle?)
  }

  // A thread inside the queue: somebody there can go on.
  lemma QueueMoves(s: PoolState, t: nat) returns (e: PoolEvent)
    requires PoolInv(s) && Sweeping(s.queue.q) && t < |s.queue.stages| && !s.queue.q.base.pcs[t].Out?
    ensures Descends(s, PoolStep(s, e))
  {
    var u := SomebodyHelps(s.queue.q, t);
    if u < |s.workers| {
      e := WorkerHelps(s, u);
    } else {
      e := ClientHelps(s, u - |s.workers|);
    }
  }

  lemma WorkerHelps(s: PoolState, w: nat) returns (e: PoolEvent)
    requires PoolInv(s) && Sweeping(s.queue.q) && w < |s.workers| && Helpful(s.queue.q.base, w)
    ensures Descends(s, PoolStep(s, e))
  {
    assert WorkerOk(s, w);
    var other := HelpfulDescends(s.queue, w);
    e := Worker(w, true, other);
    WorkerDescends(s, w, Order(w, Proceed(true), other));
  }

  lemma ClientHelps(s: PoolState, c: nat) returns (e: PoolEvent)
    requires SplitInv(s.queue) && PoolOk(s) && Sweeping(s.queue.q) && c < |s.clients|
    requires Helpful(s.queue.q.base, |s.workers| + c)
    ensures Descends(s, PoolStep(s, e))
  {
    assert ClientOk(s, c);
    var at := s.clients[c];
    var other := HelpfulDescends(s.queue, |s.workers| + c);
    var o := Order(|s.workers| + c, Proceed(true), other);
    e := Client(c, Continue, true, other);
    ClientUses(s, e);
    ClientDescends(s, c, o, SplitStep(s.queue, o), Commit(s.queue, o), PoolStep(s, e));
  }

  // In a closed pool that has not finished, some thread can take a step that leaves less to do.
  lemma ClosedPoolMoves(s: PoolState) returns (e: PoolEvent)
    requires PoolReachable(s) && s.queue.q.closed && !Finished(s)
    ensures PoolInv(s) && PoolInv(PoolStep(s, e)) && Left(PoolStep(s, e)) < Left(s)
  {
    PoolReachableInv(s);
    SplitReachableQueue(s.queue);
    ReachableSweeping(s.queue.q);
    e := UnfinishedMoves(s);
    PoolStepInv(s, e);
  }

  lemma UnfinishedMoves(s: PoolState) returns (e: PoolEvent)
    requires PoolInv(s) && Sweeping(s.queue.q) && !Finished(s)
    ensures Descends(s, PoolStep(s, e))
  {
    if w: nat :| w < |s.workers| && !s.workers[w].Gone? {
      e := WorkerMoves(s, w);
    } else {
      var c: nat :| c < |s.clients| && !s.clients[c].Idle?;
      NobodyShutsDown(s, c);
      if s.clients[c].InPush? || s.clients[c].InClose? {
        e := CallerMoves(s, c);
      } else {
        e := WaiterMoves(s, c);
      }
    }
  }

  lemma WorkerMoves(s: PoolState, w: nat) returns (e: PoolEvent)
    requires PoolInv(s) && Sweeping(s.queue.q) && w < |s.workers| && !s.workers[w].Gone?
    ensures Descends(s, PoolStep(s, e))
  {
    assert WorkerOk(s, w);
    if s.workers[w].InPop? {
      e := QueueMoves(s, w);
    } else {
      e := Worker(w, true, 0);
      OutsideDescends(s, w);
    }
  }

  // A client inside push or close.
  lemma CallerMoves(s: PoolState, c: nat) returns (e: PoolEvent)
    requires PoolInv(s) && Sweeping(s.queue.q) && c < |s.clients|
    requires s.clients[c].InPush? || s.clients[c].InClose?
    ensures Descends(s, PoolStep(s, e))
  {
    assert ClientOk(s, c);
    e := QueueMoves(s, |s.workers| + c);
  }

  // Nobody is about to close a queue that is closed.
  lemma NobodyShutsDown(s: PoolState, c: nat)
    requires PoolInv(s) && s.queue.q.closed && c < |s.clients|
    ensures !s.clients[c].ToClose?
  {
    assert !Abs(s).clients[c].Shutdown?;
  }

  // A client in wait(): itself or the holder of join_lock_ can go on.
  lemma WaiterMoves(s: PoolState, c: nat) returns (e: PoolEvent)
    requires PoolInv(s) && c < |s.clients| && (s.clients[c].AtLock? || s.clients[c].AtJoinTest? || s.clients[c].AtJoin?)
    requires forall w :: 0 <= w < |s.workers| ==> s.workers[w].Gone?
    ensures Descends(s, PoolStep(s, e))
  {
    var d := SomebodyJoins(s, c);
    JoinDescends(s, d);
    e := Client(d, Continue, true, 0);
  }

  lemma StaysReachable(s: PoolState, e: PoolEvent)
    requires PoolReachable(s) && PoolInv(s)
    ensures PoolReachable(PoolStep(s, e))
  {
    var workers: nat, clients: nat, events: seq<PoolEvent> :|
      (PoolInitInv(workers, clients); s == PoolRun(PoolInit(workers, clients), events));
    ReachesNext(workers, clients, events, e);
  }

  lemma ReachesNext(workers: nat, clients: nat, events: seq<PoolEvent>, e: PoolEvent)
    ensures PoolInv(PoolInit(workers, clients))
    ensures PoolReachable(PoolStep(PoolRun(PoolInit(workers, clients), events), e))
  {
    PoolInitInv(workers, clients);
    RunOneMore(PoolInit(workers, clients), events, e);
  }

  lemma StaysClosed(s: PoolState, e: PoolEvent)
    requires PoolInv(s) && s.queue.q.closed
    ensures PoolStep(s, e).queue.q.closed
  {
    var a := PoolSimulates(s, e);
    PoolTheorems.ClosedStep(Abs(s), a);
  }

  // From every reachable state of a closed pool there is a schedule, of no more steps than are left
  // to do, in which every worker goes and every call returns: close() strands nobody.
  lemma {:induction false} ClosedPoolCanFinish(s: PoolState) returns (events: seq<PoolEvent>)
    requires PoolReachable(s) && s.queue.q.closed
    ensures PoolInv(s) && |events| <= Left(s) && Finished(PoolRun(s, events))
    decreases (PoolReachableInv(s); Left(s))
  {
    PoolReachableInv(s);
    if Finished(s) {
      events := [];
    } else {
      var e := ClosedPoolMoves(s);
      StaysReachable(s, e);
      StaysClosed(s, e);
      var rest := ClosedPoolCanFinish(PoolStep(s, e));
      events := [e] + rest;
      assert events[0] == e && events[1..] == rest;
    }
  }
}
