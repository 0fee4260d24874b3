/**
 thread_pool of evenk/thread_pool.h as an object updated in place, over the monitor queue as an
 object.  Each method is one access of a worker or a client; what became of the tasks is recorded
 beside it.
 */
module WorkerPool {
  import opened Values
  import opened Bits
  import opened SynchWords
  import opened MonitorQueue
  import opened QueueSpec
  import opened SplitQueue
  import opened SplitQueueTheorems
  import opened SynchQueue
  import opened QueuedPool
  import opened QueuedPoolInv
  import opened QueuedPoolTheorems
  import opened QueuedPoolStop
  import opened QueuedPoolCalls
  import opened QueueAccount
  import PoolRules = ThreadPool

  function ThreadOf(s: PoolState, e: PoolEvent): nat {
    match e
    case Worker(w, _, _) => w
    case Client(c, _, _, _) => |s.workers| + c
  }

  // No snapshot of the condition variable is overtaken by 2^32 notifications before its thread
  // goes to sleep.
  ghost predicate PoolWindowAll(s: PoolState, events: seq<PoolEvent>)
    requires PoolInv(s)
    decreases |events|
  {
    events != [] ==>
      && Window(s.queue.q.base, ThreadOf(s, events[0]))
      && (PoolStepInv(s, events[0]); PoolWindowAll(PoolStep(s, events[0]), events[1..]))
  }

  lemma PoolRunNext(s: PoolState, events: seq<PoolEvent>, k: nat)
    requires PoolInv(s) && k < |events| && PoolWindowAll(s, events[k..])
    ensures Window(s.queue.q.base, ThreadOf(s, events[k])) && PoolInv(PoolStep(s, events[k]))
    ensures PoolWindowAll(PoolStep(s, events[k]), events[k + 1..])
    ensures PoolRun(s, events[k..]) == PoolRun(PoolStep(s, events[k]), events[k + 1..])
  {
    PoolStepInv(s, events[k]);
    assert events[k..][0] == events[k] && events[k..][1..] == events[k + 1..];
  }

  class Pool {
    const queue: Queue
    var flags: nat
    var joinLock: PoolRules.Holder
    var joinDone: bool
    var workers: seq<WorkerAt>
    var clients: seq<ClientAt>
    var numbers: seq<nat>
    var handed: nat
    ghost var takers: seq<nat>
    ghost var runs: seq<nat>
    ghost var ran: seq<Value>
    ghost var joins: seq<nat>
    ghost var shutdowns: nat
    ghost var waited: bool

    ghost function View(): PoolState
      reads this, queue, queue.monitor
    {
      PoolState(queue.View(), flags, joinLock, joinDone, workers, clients, numbers, takers, runs, ran, joins,
                shutdowns, waited)
    }

    ghost predicate Valid()
      reads this, queue, queue.monitor
    {
      queue.Valid() && PoolShape(View()) && handed == |takers|
    }

    // activate(size)
    constructor (size: nat, callers: nat)
      ensures fresh(queue) && fresh(queue.monitor) && Valid() && View() == PoolInit(size, callers)
    {
      queue := new Queue(size + callers);
      flags, joinLock, joinDone, handed := 0, PoolRules.Nobody, false, 0;
      workers := seq(size, _ => AtTest);
      clients := seq(callers, _ => Idle);
      numbers := seq(size, _ => 0);
      takers, runs, ran, joins, shutdowns, waited := [], [], [], seq(size, _ => 0), 0, false;
    }

    // The records of what took effect in an access of thread t to the queue.
    method Record(t: nat, ops: seq<Op>)
      requires handed == |takers|
      modifies `numbers, `handed, `takers, `runs, `shutdowns
      ensures View() == Used(old(View()), old(View()).queue, t, ops) && handed == |takers|
    {
      if Takes(ops) {
        if t < |numbers| {
          numbers := numbers[t := handed];
        }
        handed := handed + 1;
        takers := takers + [t];
      }
      runs := if Accepts(ops) then runs + [0] else runs;
      shutdowns := if Closes(ops) then shutdowns + 1 else shutdowns;
    }

    // Thread o.thread makes an access to the queue.
    method Use(o: Order) returns (ghost next: SplitState, ghost ops: seq<Op>)
      requires Valid() && SplitInv(queue.View()) && o.thread < |queue.roles| < WORD
      requires Window(queue.monitor.model, o.thread)
      modifies this, queue, queue.monitor
      ensures queue.Valid() && |queue.roles| == old(|queue.roles|) && handed == |takers|
      ensures next == SplitStep(old(queue.View()), o) && ops == Commit(old(queue.View()), o)
      ensures View() == Used(old(View()), next, o.thread, ops)
    {
      var effects := queue.Perform(o);
      next, ops := queue.View(), effects;
      Record(o.thread, effects);
    }

    // work(): the return from wait_pop
    method Settle(w: nat)
      requires queue.Valid() && w < |workers| <= |queue.roles| && |numbers| == |workers|
      modifies `workers
      ensures View() == old(View()).(workers := old(workers)[w :=
                AfterPop(queue.monitor.model.pcs[w], queue.roles[w], numbers[w])])
    {
      var role := queue.roles[w];
      if !queue.monitor.pcs[w].Out? {
        workers := workers[w := InPop];
      } else if role.Leaver? && role.result.Got? {
        workers := workers[w := AtTask(numbers[w], role.result.value)];
      } else if role.Leaver? && role.result.WasClosed? {
        workers := workers[w := Gone];
      } else {
        workers := workers[w := AtTest];
      }
    }

    // work(): the test of the loop, wait_pop and the task
    method Work(w: nat, flag: bool, other: nat)
      requires Valid() && SplitInv(queue.View()) && w < |workers| && |queue.roles| < WORD
      requires Window(queue.monitor.model, w)
      modifies this, queue, queue.monitor
      ensures queue.Valid() && handed == |takers| && |queue.roles| == old(|queue.roles|)
      ensures View() == WorkerStep(old(View()), w, flag, other)
    {
      match workers[w]
      case AtTest =>
        if And(flags, PoolRules.STOP_FLAG) != 0 {
          workers := workers[w := Gone];
        } else {
          Pop(w, Order(w, WaitPop, other));
        }
      case InPop => Pop(w, Order(w, Proceed(flag), other));
      case AtTask(k, task) =>
        workers := workers[w := AtTest];
        runs := runs[k := runs[k] + 1];
        ran := ran + [task];
      case Gone =>
    }

    // work(): an access inside wait_pop, and the return from it
    method Pop(w: nat, o: Order)
      requires Valid() && SplitInv(queue.View()) && w < |workers| && o.thread == w && |queue.roles| < WORD
      requires Window(queue.monitor.model, w)
      modifies this, queue, queue.monitor
      ensures queue.Valid() && handed == |takers| && |queue.roles| == old(|queue.roles|)
      ensures View() == UsePop(old(View()), w, o)
    {
      ghost var next, ops := Use(o);
      Settle(w);
    }

    // submit() and shutdown(): an access inside push or close, and the return from it
    method Call(c: nat, o: Order, inside: ClientAt, done: ClientAt)
      requires Valid() && SplitInv(queue.View()) && c < |clients| && o.thread == |workers| + c && |queue.roles| < WORD
      requires Window(queue.monitor.model, o.thread)
      modifies this, queue, queue.monitor
      ensures queue.Valid() && handed == |takers| && |queue.roles| == old(|queue.roles|)
      ensures View() == UseQueue(old(View()), c, o, inside, done)
    {
      ghost var s := View();
      ghost var next, ops := Use(o);
      Arrive(c, inside, done, s, next, ops);
    }

    // submit() and shutdown(): the return from the call
    method Arrive(c: nat, inside: ClientAt, done: ClientAt, ghost s: PoolState, ghost next: SplitState,
                  ghost ops: seq<Op>)
      requires queue.Valid() && PoolShape(s) && c < |s.clients| && SplitShape(next) && |next.stages| == |s.queue.stages|
      requires View() == Used(s, next, |s.workers| + c, ops)
      modifies `clients
      ensures View() == ClientUsed(s, next, c, ops, inside, done)
    {
      clients := clients[c := if queue.monitor.pcs[|workers| + c].Out? then done else inside];
    }

    // close(flag): flags_.fetch_or(flag)
    method FetchOr(c: nat, flag: nat)
      requires Valid() && c < |clients|
      modifies `flags, `clients
      ensures Valid() && View() == RaiseFlag(old(View()), c, flag)
    {
      var was := flags;
      flags := Or(flags, flag);
      if was == 0 {
        clients := clients[c := ToClose(flag == PoolRules.WAIT_FLAG)];
      } else {
        clients := clients[c := if flag == PoolRules.WAIT_FLAG then AtLock else Idle];
      }
    }

    // stop() and wait(): the flags, join_lock_ and what it guards
    method Local(c: nat, request: Request)
      requires Valid() && c < |clients|
      modifies `flags, `joinLock, `joinDone, `clients, `joins, `waited
      ensures Valid() && View() == LocalStep(old(View()), c, request)
    {
      match clients[c]
      case Idle =>
        if request.Stop? {
          FetchOr(c, PoolRules.STOP_FLAG);
        } else if request.Wait? {
          FetchOr(c, PoolRules.WAIT_FLAG);
        }
      case AtLock => TakeJoinLock(c, request);
      case AtJoinTest => TestJoinDone(c, request);
      case AtJoin(_) => JoinNext(c, request);
      case _ =>
    }

    // wait(): the guard on join_lock_
    method TakeJoinLock(c: nat, request: Request)
      requires Valid() && c < |clients| && clients[c].AtLock?
      modifies `joinLock, `clients
      ensures Valid() && View() == LocalStep(old(View()), c, request)
    {
      if joinLock.Nobody? {
        joinLock := PoolRules.Client(c);
        clients := clients[c := AtJoinTest];
      }
    }

    // wait(): the test of join_done_
    method TestJoinDone(c: nat, request: Request)
      requires Valid() && c < |clients| && clients[c].AtJoinTest?
      modifies `joinLock, `clients, `waited
      ensures Valid() && View() == LocalStep(old(View()), c, request)
    {
      if joinDone {
        Return(c);
      } else {
        clients := clients[c := AtJoin(0)];
      }
    }

    // wait(): one round of the join loop, and what follows it
    method JoinNext(c: nat, request: Request)
      requires Valid() && c < |clients| && clients[c].AtJoin?
      modifies `joinLock, `joinDone, `clients, `joins, `waited
      ensures Valid() && View() == LocalStep(old(View()), c, request)
    {
      var i := clients[c].index;
      if i >= |workers| {
        Return(c);
        joinDone := true;
      } else if workers[i].Gone? {
        clients := clients[c := AtJoin(i + 1)];
        joins := joins[i := joins[i] + 1];
      }
    }

    method Return(c: nat)
      requires Valid() && c < |clients|
      modifies `joinLock, `clients, `waited
      ensures Valid() && View() == LeaveWait(old(View()), c)
    {
      joinLock := PoolRules.Nobody;
      clients := clients[c := Idle];
      waited := true;
    }

    method Step(e: PoolEvent)
      requires Valid() && PoolInv(View()) && |queue.roles| < WORD && Window(queue.monitor.model, ThreadOf(View(), e))
      modifies this, queue, queue.monitor
      ensures Valid() && PoolInv(View()) && View() == PoolStep(old(View()), e) && |queue.roles| == old(|queue.roles|)
    {
      PoolStepInv(View(), e);
      Dispatch(e);
    }

    method Dispatch(e: PoolEvent)
      requires Valid() && SplitInv(queue.View()) && |queue.roles| < WORD
      requires Window(queue.monitor.model, ThreadOf(View(), e))
      modifies this, queue, queue.monitor
      ensures queue.Valid() && handed == |takers| && |queue.roles| == old(|queue.roles|)
      ensures View() == PoolStep(old(View()), e)
    {
      match e
      case Worker(w, flag, other) =>
        if w < |workers| {
          Work(w, flag, other);
        }
      case Client(c, request, flag, other) =>
        if c < |clients| {
          Serve(c, request, flag, other);
        }
    }

    method Serve(c: nat, request: Request, flag: bool, other: nat)
      requires Valid() && SplitInv(queue.View()) && c < |clients| && |queue.roles| < WORD
      requires Window(queue.monitor.model, |workers| + c)
      modifies this, queue, queue.monitor
      ensures queue.Valid() && handed == |takers| && |queue.roles| == old(|queue.roles|)
      ensures View() == ClientStep(old(View()), c, request, flag, other)
    {
      var at := clients[c];
      if AtQueue(at, request) {
        Call(c, Order(|workers| + c, CallMade(at, request, flag), other), AtWork(at), AtEnd(at));
      } else {
        Local(c, request);
      }
    }

    // Any schedule of accesses within the window.
    method Run(events: seq<PoolEvent>)
      requires Valid() && PoolInv(View()) && PoolWindowAll(View(), events) && |queue.roles| < WORD
      modifies this, queue, queue.monitor
      ensures Valid() && PoolInv(old(View())) && View() == PoolRun(old(View()), events)
    {
      var k := 0;
      assert events[0..] == events;
      while k < |events|
        invariant 0 <= k <= |events|
        invariant Valid() && PoolInv(View()) && |queue.roles| < WORD
        invariant PoolWindowAll(View(), events[k..])
        invariant PoolRun(View(), events[k..]) == PoolRun(old(View()), events)
      {
        PoolRunNext(View(), events, k);
        Step(events[k]);
        k := k + 1;
      }
    }
  }

  // A pool of at least one worker, under any schedule within the window: the stop flag is up exactly
  // when stop() was called.  If it was not and a wait() has returned, the tasks that were run are
  // those with which submit() was called, each once, but for those refused by the closed queue and
  // those still in the hands of their callers; and the queue is closed and empty.
  method CreateAndRun(size: nat, callers: nat, events: seq<PoolEvent>) returns (pool: Pool)
    requires 0 < size && size + callers < WORD
    requires (PoolInitInv(size, callers); PoolWindowAll(PoolInit(size, callers), events))
    ensures fresh(pool) && fresh(pool.queue) && fresh(pool.queue.monitor)
    ensures PoolInv(PoolInit(size, callers))
    ensures And(pool.flags, PoolRules.STOP_FLAG) != 0 <==> StopIn(PoolInit(size, callers), events)
    ensures var s := PoolInit(size, callers);
            pool.waited && !StopIn(s, events) ==>
              && multiset(pool.ran) == multiset(pool.queue.taken)
              && Submitted(s, events) ==
                 InHand(pool.queue.roles) + (multiset(pool.ran) + Refused(History(s.queue, PoolOrders(s, events))))
              && (forall k :: 0 <= k < |pool.runs| ==> pool.runs[k] == 1)
              && pool.queue.deque == [] && pool.queue.closed
  {
    PoolInitInv(size, callers);
    pool := new Pool(size, callers);
    pool.Run(events);
    PoolResults(size, callers, events);
  }

  lemma PoolResults(size: nat, callers: nat, events: seq<PoolEvent>)
    requires 0 < size && PoolInv(PoolInit(size, callers))
    ensures var s, r := PoolInit(size, callers), PoolRun(PoolInit(size, callers), events);
            && (Stopped(r) <==> StopIn(s, events))
            && (r.waited && !StopIn(s, events) ==>
                  && multiset(r.ran) == multiset(r.queue.q.taken)
                  && Submitted(s, events) ==
                     InHand(r.queue.q.roles) + (multiset(r.ran) + Refused(History(s.queue, PoolOrders(s, events))))
                  && (forall k :: 0 <= k < |r.runs| ==> r.runs[k] == 1)
                  && r.queue.q.queue == [] && r.queue.q.closed)
  {
    var s, r := PoolInit(size, callers), PoolRun(PoolInit(size, callers), events);
    assert PoolReachable(r);
    SameSizes(s, events);
    StoppedExactly(s, events);
    NotStopped(size, callers);
    if r.waited && !StopIn(s, events) {
      RanWhatWasAccepted(r);
      RanWhatWasSubmitted(size, callers, events);
      QueuedWaitRunsEverything(r);
    }
  }
}
