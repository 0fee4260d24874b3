/**
 The calls of submit(): each enters the queue of the pool as one push() of its task, so that the tasks
 submitted are those accepted, those refused and those still on their way.
 */
module QueuedPoolCalls {
  import opened Values
  import opened QueueSpec
  import opened MonitorQueue
  import opened SplitQueue
  import opened SplitQueueTheorems
  import opened QueueAccount
  import opened QueuedPool
  import opened QueuedPoolInv
  import opened QueuedPoolTheorems
  import opened QueuedPoolStop

  // ---------------------------------------------------------------------------
  // The run of the queue inside a run of the pool

  // The step is an access to the queue.
  predicate UsesQueue(s: PoolState, e: PoolEvent) {
    match e
    case Worker(w, _, _) => w < |s.workers| && (s.workers[w].InPop? || (s.workers[w].AtTest? && !Stopped(s)))
    case Client(c, request, _, _) => c < |s.clients| && AtQueue(s.clients[c], request)
  }

  lemma QueueStepOf(s: PoolState, e: PoolEvent)
    requires PoolShape(s)
    ensures PoolStep(s, e).queue == if UsesQueue(s, e) then SplitStep(s.queue, OrderOf(s, e)) else s.queue
  {
    if e.Client? && e.client < |s.clients| {
      if AtQueue(s.clients[e.client], e.request) { ClientUses(s, e); } else { LocalKeeps(s, e.client, e.request); }
    }
  }

  ghost function PoolOrders(s: PoolState, events: seq<PoolEvent>): seq<Order>
    requires PoolInv(s)
    decreases |events|
  {
    if events == [] then []
    else
      PoolStepInv(s, events[0]);
      (if UsesQueue(s, events[0]) then [OrderOf(s, events[0])] else []) +
      PoolOrders(PoolStep(s, events[0]), events[1..])
  }

  // An idle client calls submit() in the step, and with which task.
  predicate CallsSubmit(s: PoolState, e: PoolEvent) {
    e.Client? && e.client < |s.clients| && s.clients[e.client].Idle? && e.request.Submit?
  }

  function Submits(s: PoolState, e: PoolEvent): multiset<Value> {
    if CallsSubmit(s, e) then multiset{e.request.task} else multiset{}
  }

  ghost function Submitted(s: PoolState, events: seq<PoolEvent>): multiset<Value>
    requires PoolInv(s)
    decreases |events|
  {
    if events == [] then multiset{}
    else
      PoolStepInv(s, events[0]);
      Submits(s, events[0]) + Submitted(PoolStep(s, events[0]), events[1..])
  }

  // A submit() enters the queue as a push() of its task, and nothing else does.
  lemma SubmitEnters(s: PoolState, e: PoolEvent)
    requires PoolOk(s)
    ensures Submits(s, e) == if UsesQueue(s, e) then Entering(s.queue, OrderOf(s, e)) else multiset{}
  {
    if e.Client? && e.client < |s.clients| { assert ClientOk(s, e.client); }
  }

  // The orders take the queue from q to r, and with them these values enter push().
  ghost predicate Drives(q: SplitState, orders: seq<Order>, r: SplitState, pushes: multiset<Value>) {
    SplitInv(q) && SplitRun(q, orders) == r && Pushes(q, orders) == pushes
  }

  lemma DrivesNext(q: SplitState, o: Order, m: SplitState, rest: seq<Order>, r: SplitState, pushes: multiset<Value>)
    requires SplitInv(q) && m == SplitStep(q, o) && Drives(m, rest, r, pushes)
    ensures Drives(q, [o] + rest, r, Entering(q, o) + pushes)
  {
    assert ([o] + rest)[1..] == rest;
  }

  lemma {:induction false} PoolQueueRun(s: PoolState, events: seq<PoolEvent>)
    requires PoolInv(s)
    ensures Drives(s.queue, PoolOrders(s, events), PoolRun(s, events).queue, Submitted(s, events))
    decreases |events|
  {
    if events != [] {
      var e, r := events[0], PoolStep(s, events[0]);
      PoolStepInv(s, e);
      PoolQueueRun(r, events[1..]);
      QueueStepOf(s, e);
      SubmitEnters(s, e);
      if UsesQueue(s, e) {
        DrivesNext(s.queue, OrderOf(s, e), r.queue, PoolOrders(r, events[1..]), PoolRun(r, events[1..]).queue,
                   Submitted(r, events[1..]));
      } else {
        assert [] + PoolOrders(r, events[1..]) == PoolOrders(r, events[1..]);
      }
    }
  }

  // In every run, the tasks with which submit() was called are those that the queue accepted, those
  // that it refused because it was closed, and those still in the hands of their callers.
  lemma SubmitsAccounted(workers: nat, clients: nat, events: seq<PoolEvent>)
    ensures PoolInv(PoolInit(workers, clients))
    ensures var s, r := PoolInit(workers, clients), PoolRun(PoolInit(workers, clients), events);
            Submitted(s, events) ==
            InHand(r.queue.q.roles) + (multiset(r.queue.q.taken) + Refused(History(s.queue, PoolOrders(s, events))))
  {
    PoolInitInv(workers, clients);
    var s := PoolInit(workers, clients);
    PoolQueueRun(s, events);
    EveryPushAccounted(workers + clients, PoolOrders(s, events));
  }

  // When wait() has returned in a pool that has a worker and on which stop() was not called, the tasks
  // with which submit() was called are those that were run, those refused and those still on their way.
  lemma RanWhatWasSubmitted(workers: nat, clients: nat, events: seq<PoolEvent>)
    requires 0 < workers && (PoolInitInv(workers, clients); PoolRun(PoolInit(workers, clients), events).waited)
    requires (PoolInitInv(workers, clients); !StopIn(PoolInit(workers, clients), events))
    ensures PoolInv(PoolInit(workers, clients))
    ensures var s, r := PoolInit(workers, clients), PoolRun(PoolInit(workers, clients), events);
            Submitted(s, events) ==
            InHand(r.queue.q.roles) + (multiset(r.ran) + Refused(History(s.queue, PoolOrders(s, events))))
  {
    PoolInitInv(workers, clients);
    var s, r := PoolInit(workers, clients), PoolRun(PoolInit(workers, clients), events);
    SubmitsAccounted(workers, clients, events);
    StoppedExactly(s, events);
    NotStopped(workers, clients);
    SameSizes(s, events);
    assert PoolReachable(r);
    RanWhatWasAccepted(r);
  }

  // ---------------------------------------------------------------------------
  // One call of submit()

  // Client c is busy before each of the events.
  ghost predicate StaysBusy(s: PoolState, events: seq<PoolEvent>, c: nat)
    requires PoolInv(s)
    decreases |events|
  {
    events != [] ==>
      && c < |s.clients| && !s.clients[c].Idle?
      && (PoolStepInv(s, events[0]); StaysBusy(PoolStep(s, events[0]), events[1..], c))
  }

  // A client inside push() stays there or comes back.
  lemma PusherGoes(s: PoolState, e: PoolEvent, c: nat)
    requires PoolShape(s) && c < |s.clients| && s.clients[c].InPush?
    ensures var r := PoolStep(s, e);
            && |r.clients| == |s.clients| && |r.workers| == |s.workers| && (r.clients[c].InPush? || r.clients[c].Idle?)
  {
    if e.Client? && e.client < |s.clients| {
      if AtQueue(s.clients[e.client], e.request) { ClientUses(s, e); } else { LocalOthers(s, e.client, e.request, c); }
    }
  }

  lemma LocalOthers(s: PoolState, d: nat, request: Request, c: nat)
    requires PoolShape(s) && d < |s.clients| && c < |s.clients| && s.clients[c].InPush?
    ensures var r := LocalStep(s, d, request);
            |r.clients| == |s.clients| && |r.workers| == |s.workers| && r.clients[c] == s.clients[c]
  {
  }

  // While client c is inside push(), its thread is inside the queue.
  ghost predicate Inside(q: SplitState, orders: seq<Order>, t: nat) { SplitInv(q) && StaysInside(q, orders, t) }

  lemma InsideFirst(q: SplitState, o: Order, uses: bool, m: SplitState, rest: seq<Order>, t: nat)
    requires Seen(q, m, uses, o, t) && Inside(m, rest, t)
    ensures Inside(q, (if uses then [o] else []) + rest, t)
  {
    if uses {
      assert ([o] + rest)[1..] == rest;
    } else {
      assert [] + rest == rest;
    }
  }

  lemma PusherThread(s: PoolState, c: nat)
    requires PoolOk(s) && c < |s.clients|
    ensures |s.workers| + c < |s.queue.stages|
    ensures s.clients[c].InPush? ==> !s.queue.q.base.pcs[|s.workers| + c].Out?
    ensures s.clients[c].Idle? ==> s.queue.q.base.pcs[|s.workers| + c].Out?
  {
    assert ClientOk(s, c);
  }

  ghost predicate PusherAt(s: PoolState, c: nat, t: nat) {
    PoolInv(s) && c < |s.clients| && t == |s.workers| + c && (s.clients[c].InPush? || s.clients[c].Idle?)
  }

  // One step of the pool, as seen by the queue and the thread of the pusher.
  ghost predicate Seen(q: SplitState, r: SplitState, uses: bool, o: Order, t: nat) {
    && SplitInv(q) && r == (if uses then SplitStep(q, o) else q)
    && t < |q.stages| && !q.q.base.pcs[t].Out?
  }

  lemma PusherNext(s: PoolState, e: PoolEvent, r: PoolState, c: nat, t: nat)
    requires PusherAt(s, c, t) && s.clients[c].InPush? && r == PoolStep(s, e)
    ensures PusherAt(r, c, t)
  {
    PoolStepInv(s, e);
    PusherGoes(s, e, c);
  }

  lemma PusherSeen(s: PoolState, e: PoolEvent, r: PoolState, c: nat, t: nat)
    requires PoolOk(s) && SplitInv(s.queue) && c < |s.clients| && t == |s.workers| + c && s.clients[c].InPush?
    requires r == PoolStep(s, e)
    ensures Seen(s.queue, r.queue, UsesQueue(s, e), OrderOf(s, e), t)
  {
    QueueStepOf(s, e);
    PusherThread(s, c);
  }

  lemma BusyFirst(s: PoolState, events: seq<PoolEvent>, c: nat)
    requires PoolInv(s) && events != [] && StaysBusy(s, events, c)
    ensures c < |s.clients| && !s.clients[c].Idle? && PoolInv(PoolStep(s, events[0]))
    ensures StaysBusy(PoolStep(s, events[0]), events[1..], c)
    ensures PoolOrders(s, events) ==
            (if UsesQueue(s, events[0]) then [OrderOf(s, events[0])] else []) +
            PoolOrders(PoolStep(s, events[0]), events[1..])
  {
    PoolStepInv(s, events[0]);
  }

  lemma {:induction false} PusherInside(s: PoolState, events: seq<PoolEvent>, c: nat, t: nat)
    requires PusherAt(s, c, t) && StaysBusy(s, events, c)
    ensures Inside(s.queue, PoolOrders(s, events), t)
    decreases |events|
  {
    if events != [] {
      var e, r := events[0], PoolStep(s, events[0]);
      BusyFirst(s, events, c);
      PusherNext(s, e, r, c, t);
      PusherSeen(s, e, r, c, t);
      PusherInside(r, events[1..], c, t);
      InsideFirst(s.queue, OrderOf(s, e), UsesQueue(s, e), r.queue, PoolOrders(r, events[1..]), t);
    }
  }

  lemma {:induction false} SameSizes(s: PoolState, events: seq<PoolEvent>)
    requires PoolInv(s)
    ensures |PoolRun(s, events).clients| == |s.clients| && |PoolRun(s, events).workers| == |s.workers|
    decreases |events|
  {
    if events != [] {
      PoolStepInv(s, events[0]);
      SameSizesStep(s, events[0]);
      SameSizes(PoolStep(s, events[0]), events[1..]);
    }
  }

  lemma SameSizesStep(s: PoolState, e: PoolEvent)
    requires PoolShape(s)
    ensures |PoolStep(s, e).clients| == |s.clients| && |PoolStep(s, e).workers| == |s.workers|
  {
    if e.Client? && e.client < |s.clients| {
      if AtQueue(s.clients[e.client], e.request) { ClientUses(s, e); } else { LocalSizes(s, e.client, e.request); }
    } else if e.Worker? && e.worker < |s.workers| {
      WorkerSizes(s, e.worker, e.flag, e.other);
    }
  }

  lemma LocalSizes(s: PoolState, c: nat, request: Request)
    requires PoolShape(s) && c < |s.clients|
    ensures |LocalStep(s, c, request).clients| == |s.clients| && |LocalStep(s, c, request).workers| == |s.workers|
  {
  }

  lemma WorkerSizes(s: PoolState, w: nat, flag: bool, other: nat)
    requires PoolShape(s) && w < |s.workers|
    ensures var r := WorkerStep(s, w, flag, other); |r.clients| == |s.clients| && |r.workers| == |s.workers|
  {
  }

  lemma {:induction false} PushAnswers(q: SplitState, orders: seq<Order>)
    requires SplitInv(q)
    ensures forall op :: op in History(q, orders) && op.call.Push? ==> op.result == Pushed || op.result == WasClosed
    decreases |orders|
  {
    if orders != [] {
      SplitStepInv(q, orders[0]);
      CommitFits(q, orders[0]);
      PushAnswers(SplitStep(q, orders[0]), orders[1..]);
    }
  }

  lemma {:induction false} OpsAmong(ops: seq<Op>, t: nat)
    ensures forall op :: op in OpsOf(ops, t) ==> op in ops
    decreases |ops|
  {
    if ops != [] { OpsAmong(ops[1..], t); }
  }

  // The call push(task) of thread t takes the queue from q to m.
  ghost predicate PushStarts(q: SplitState, o: Order, m: SplitState, t: nat, task: Value) {
    && SplitInv(q) && o.thread == t < |q.stages| && q.q.base.pcs[t].Out? && o.call == Push(task)
    && m == SplitStep(q, o)
  }

  predicate PushAnswer(op: Op, t: nat, task: Value) {
    op == Op(t, Push(task), Pushed) || op == Op(t, Push(task), WasClosed)
  }

  // The history has one entry of thread t.
  ghost predicate OneEntry(q: SplitState, orders: seq<Order>, t: nat, op: Op) {
    SplitInv(q) && OpsOf(History(q, orders), t) == [op]
  }

  // A push() from its start to its return.
  lemma PushOnce(q: SplitState, o: Order, m: SplitState, orders: seq<Order>, t: nat, task: Value) returns (op: Op)
    requires PushStarts(q, o, m, t, task) && Inside(m, orders, t) && SplitRun(m, orders).q.base.pcs[t].Out?
    ensures PushAnswer(op, t, task) && OneEntry(q, [o] + orders, t, op)
  {
    TakesEffectOnce(q, o, orders);
    op := OpsOf(History(q, [o] + orders), t)[0];
    PushAnswers(q, [o] + orders);
    OpsAmong(History(q, [o] + orders), t);
    assert op in OpsOf(History(q, [o] + orders), t);
  }

  // In every run, from the start of a submit() to its return, the history of the queue has exactly
  // one entry of its thread: the push of the task, accepted or refused.
  lemma SubmitsOnce(s: PoolState, e: PoolEvent, s1: PoolState, events: seq<PoolEvent>, t: nat)
    returns (orders: seq<Order>, op: Op)
    requires PoolInv(s) && CallsSubmit(s, e) && t == |s.workers| + e.client
    requires s1 == PoolStep(s, e) && PoolInv(s1) && StaysBusy(s1, events, e.client)
    requires e.client < |PoolRun(s1, events).clients| && PoolRun(s1, events).clients[e.client].Idle?
    ensures orders == PoolOrders(s, [e] + events)
    ensures PushAnswer(op, t, e.request.task) && OneEntry(s.queue, orders, t, op)
  {
    SubmitStarts(s, e, s1, t);
    orders, op := SubmitFrom(s.queue, OrderOf(s, e), s1, events, e.client, t, e.request.task);
    FirstOrders(s, e, s1, events);
  }

  lemma SubmitFrom(q: SplitState, o: Order, s: PoolState, events: seq<PoolEvent>, c: nat, t: nat, task: Value)
    returns (orders: seq<Order>, op: Op)
    requires PushStarts(q, o, s.queue, t, task) && PusherAt(s, c, t) && StaysBusy(s, events, c)
    requires c < |PoolRun(s, events).clients| && PoolRun(s, events).clients[c].Idle?
    ensures orders == [o] + PoolOrders(s, events)
    ensures PushAnswer(op, t, task) && OneEntry(q, orders, t, op)
  {
    PusherInside(s, events, c, t);
    PusherBack(s, events, c, t);
    orders := [o] + PoolOrders(s, events);
    op := PushOnce(q, o, s.queue, PoolOrders(s, events), t, task);
  }

  lemma FirstOrders(s: PoolState, e: PoolEvent, s1: PoolState, events: seq<PoolEvent>)
    requires PoolInv(s) && UsesQueue(s, e) && s1 == PoolStep(s, e) && PoolInv(s1)
    ensures PoolOrders(s, [e] + events) == [OrderOf(s, e)] + PoolOrders(s1, events)
  {
    assert ([e] + events)[1..] == events;
  }

  // When the client is idle again, its thread is outside the queue.
  lemma PusherBack(s: PoolState, events: seq<PoolEvent>, c: nat, t: nat)
    requires PoolInv(s) && c < |s.clients| && t == |s.workers| + c
    requires c < |PoolRun(s, events).clients| && PoolRun(s, events).clients[c].Idle?
    ensures SplitInv(s.queue) && t < |SplitRun(s.queue, PoolOrders(s, events)).stages|
    ensures SplitRun(s.queue, PoolOrders(s, events)).q.base.pcs[t].Out?
  {
    PoolQueueRun(s, events);
    SameSizes(s, events);
    IdleOut(s.queue, PoolOrders(s, events), PoolRun(s, events), Submitted(s, events), c, t);
  }

  lemma IdleOut(q: SplitState, orders: seq<Order>, r: PoolState, pushes: multiset<Value>, c: nat, t: nat)
    requires Drives(q, orders, r.queue, pushes) && PoolOk(r) && c < |r.clients| && t == |r.workers| + c
    requires r.clients[c].Idle?
    ensures t < |SplitRun(q, orders).stages| && SplitRun(q, orders).q.base.pcs[t].Out?
  {
    PusherThread(r, c);
  }

  // The first access of submit().
  lemma SubmitStarts(s: PoolState, e: PoolEvent, s1: PoolState, t: nat)
    requires PoolOk(s) && SplitInv(s.queue) && CallsSubmit(s, e) && t == |s.workers| + e.client
    requires s1 == PoolStep(s, e) && PoolInv(s1)
    ensures UsesQueue(s, e) && PusherAt(s1, e.client, t)
    ensures PushStarts(s.queue, OrderOf(s, e), s1.queue, t, e.request.task)
  {
    SubmitLands(s, e);
    PusherThread(s, e.client);
  }

  lemma SubmitLands(s: PoolState, e: PoolEvent)
    requires PoolShape(s) && CallsSubmit(s, e)
    ensures UsesQueue(s, e) && OrderOf(s, e) == Order(|s.workers| + e.client, Push(e.request.task), e.other)
    ensures var s1 := PoolStep(s, e);
            && |s1.clients| == |s.clients| && |s1.workers| == |s.workers|
            && (s1.clients[e.client].InPush? || s1.clients[e.client].Idle?)
            && s1.queue == SplitStep(s.queue, OrderOf(s, e))
  {
    ClientUses(s, e);
  }

  // ---------------------------------------------------------------------------
  // wait()

  // The client is inside wait(), or one has returned.
  predicate InWait(at: ClientAt) {
    ((at.ToClose? || at.InClose?) && at.wait) || at.AtLock? || at.AtJoinTest? || at.AtJoin?
  }

  predicate WaitOnRecord(s: PoolState, c: nat) { c < |s.clients| && (InWait(s.clients[c]) || s.waited) }

  lemma WaitStep(s: PoolState, e: PoolEvent, c: nat)
    requires PoolShape(s) && WaitOnRecord(s, c)
    ensures WaitOnRecord(PoolStep(s, e), c)
  {
  }

  lemma {:induction false} WaitGoesOn(s: PoolState, events: seq<PoolEvent>, c: nat)
    requires PoolInv(s) && WaitOnRecord(s, c)
    ensures WaitOnRecord(PoolRun(s, events), c)
    decreases |events|
  {
    if events != [] {
      PoolStepInv(s, events[0]);
      WaitStep(s, events[0], c);
      WaitGoesOn(PoolStep(s, events[0]), events[1..], c);
    }
  }

  lemma WaitBegins(s: PoolState, e: PoolEvent)
    requires PoolShape(s) && e.Client? && e.client < |s.clients| && s.clients[e.client].Idle? && e.request.Wait?
    ensures WaitOnRecord(PoolStep(s, e), e.client)
  {
  }

  // From the start of a wait() to its return, in every run: once the client is idle again the return
  // is on record, so that what holds after wait() holds of it.
  lemma WaitReturned(s: PoolState, e: PoolEvent, events: seq<PoolEvent>) returns (r: PoolState)
    requires PoolInv(s) && e.Client? && e.client < |s.clients| && s.clients[e.client].Idle? && e.request.Wait?
    ensures r == PoolRun(s, [e] + events)
    ensures e.client < |r.clients| && (InWait(r.clients[e.client]) || r.waited)
  {
    PoolStepInv(s, e);
    WaitBegins(s, e);
    assert ([e] + events)[1..] == events;
    WaitGoesOn(PoolStep(s, e), events, e.client);
    r := PoolRun(PoolStep(s, e), events);
  }
}
