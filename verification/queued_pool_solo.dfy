/**
 A worker and a client of the pool that find the lock of the queue free and are let alone: the worker
 takes the first task and runs it, and the client has its task accepted.
 */
module QueuedPoolSolo {
  import opened QueueSpec
  import opened MonitorQueue
  import opened SplitQueue
  import opened SplitQueueTheorems
  import opened QueueSolo
  import opened QueuedPool
  import opened QueuedPoolInv
  import opened QueuedPoolTheorems

  lemma FirstEvent(s: PoolState, e: PoolEvent, rest: seq<PoolEvent>)
    requires PoolInv(s)
    ensures PoolInv(PoolStep(s, e)) && PoolRun(s, [e] + rest) == PoolRun(PoolStep(s, e), rest)
  {
    PoolStepInv(s, e);
    assert ([e] + rest)[1..] == rest;
  }

  // ---------------------------------------------------------------------------
  // A worker

  function WorkerEvents(w: nat, orders: seq<Order>): seq<PoolEvent> {
    if orders == [] then [] else [Worker(w, true, orders[0].other)] + WorkerEvents(w, orders[1..])
  }

  // The worker is where its call of wait_pop has brought it, and nothing has been run.
  predicate Landed(s: PoolState, r: PoolState, w: nat) {
    && PoolShape(r) && w < |r.workers| && r.ran == s.ran && r.flags == s.flags
    && r.workers[w] == AfterPop(r.queue.q.base.pcs[w], r.queue.q.roles[w], r.numbers[w])
  }

  lemma PopLands(s: PoolState, w: nat, o: Order, e: PoolEvent, r: PoolState)
    requires PoolShape(s) && w < |s.workers| && e.Worker? && e.worker == w && o == OrderOf(s, e) && r == PoolStep(s, e)
    requires s.workers[w].InPop? || (s.workers[w].AtTest? && !Stopped(s))
    requires PoolShape(r)
    ensures Landed(s, r, w) && r.queue == SplitStep(s.queue, o)
  {
  }

  lemma StaysInPop(s: PoolState, w: nat, orders: seq<Order>)
    requires PoolInv(s) && w < |s.workers| && orders != [] && StaysInside(s.queue, orders, w)
    ensures s.workers[w].InPop? && SplitInv(SplitStep(s.queue, orders[0]))
    ensures StaysInside(SplitStep(s.queue, orders[0]), orders[1..], w)
  {
    assert WorkerOk(s, w);
    SplitStepInv(s.queue, orders[0]);
  }

  lemma {:induction false} WorkerGoesThrough(s0: PoolState, s: PoolState, w: nat, orders: seq<Order>)
    requires PoolInv(s) && Landed(s0, s, w) && AllBy(orders, w) && StaysInside(s.queue, orders, w)
    ensures var r := PoolRun(s, WorkerEvents(w, orders));
            Landed(s0, r, w) && r.queue == SplitRun(s.queue, orders)
    decreases |orders|
  {
    if orders != [] {
      var e := Worker(w, true, orders[0].other);
      var r := PoolStep(s, e);
      StaysInPop(s, w, orders);
      assert orders[0] in orders && orders[0] == OrderOf(s, e);
      FirstEvent(s, e, WorkerEvents(w, orders[1..]));
      PopLands(s, w, orders[0], e, r);
      forall o | o in orders[1..] ensures o in orders { }
      WorkerGoesThrough(s0, r, w, orders[1..]);
    }
  }

  // What wait_pop has to leave behind.
  predicate Fetched(q: SplitState, r: SplitState, w: nat)
    requires q.q.queue != []
  {
    && SplitShape(r) && w < |r.stages|
    && r.q.base.pcs[w].Out? && r.q.roles[w] == Leaver(Got(q.q.queue[0]))
    && r.q.queue == q.q.queue[1..]
  }

  lemma Fetches(q: SplitState, w: nat) returns (orders: seq<Order>, m: SplitState)
    requires SplitInv(q) && w < |q.stages| && q.q.base.pcs[w].Out? && q.q.base.word == 0 && q.q.queue != []
    ensures m == SplitStep(q, Order(w, WaitPop, 0)) && SplitInv(m)
    ensures AllBy(orders, w) && StaysInside(m, orders, w) && Fetched(q, SplitRun(m, orders), w)
  {
    var o := Order(w, WaitPop, 0);
    orders := CallCompletes(q, o);
    m := SplitStep(q, o);
  }

  predicate ByWorker(events: seq<PoolEvent>, w: nat) { forall e :: e in events ==> e.Worker? && e.worker == w }

  lemma {:induction false} WorkersOwn(w: nat, orders: seq<Order>)
    ensures ByWorker(WorkerEvents(w, orders), w)
  {
    if orders != [] { WorkersOwn(w, orders[1..]); }
  }

  lemma WorkerTakes(s: PoolState, w: nat) returns (events: seq<PoolEvent>, r: PoolState)
    requires PoolInv(s) && w < |s.workers| && s.workers[w].AtTest? && !Stopped(s)
    requires s.queue.q.base.word == 0 && s.queue.q.queue != []
    ensures ByWorker(events, w) && r == PoolRun(s, events)
    ensures Landed(s, r, w) && Fetched(s.queue, r.queue, w)
  {
    var e := Worker(w, true, 0);
    assert WorkerOk(s, w);
    var orders, m := Fetches(s.queue, w);
    var s1 := PoolStep(s, e);
    FirstEvent(s, e, WorkerEvents(w, orders));
    PopLands(s, w, Order(w, WaitPop, 0), e, s1);
    WorkerGoesThrough(s, s1, w, orders);
    WorkersOwn(w, orders);
    events := [e] + WorkerEvents(w, orders);
    r := PoolRun(s1, WorkerEvents(w, orders));
  }

  // The worker has run the first task and is before the test again.
  predicate RanFirst(s: PoolState, r: PoolState, w: nat)
    requires s.queue.q.queue != []
  {
    && r.ran == s.ran + [s.queue.q.queue[0]] && r.queue.q.queue == s.queue.q.queue[1..]
    && w < |r.workers| && r.workers[w].AtTest?
  }

  lemma TaskRuns(s: PoolState, r: PoolState, w: nat)
    requires s.queue.q.queue != [] && Landed(s, r, w) && Fetched(s.queue, r.queue, w)
    ensures RanFirst(s, PoolStep(r, Worker(w, true, 0)), w)
  {
  }

  // A worker before the test of its loop, in a pool that is not stopped and whose queue holds a task,
  // takes the first task and runs it.
  lemma WorkerRunsTask(s: PoolState, w: nat) returns (events: seq<PoolEvent>)
    requires PoolInv(s) && w < |s.workers| && s.workers[w].AtTest? && !Stopped(s)
    requires s.queue.q.base.word == 0 && s.queue.q.queue != []
    ensures ByWorker(events, w) && RanFirst(s, PoolRun(s, events), w)
  {
    var taken, r := WorkerTakes(s, w);
    RunOneMore(s, taken, Worker(w, true, 0));
    TaskRuns(s, r, w);
    events := taken + [Worker(w, true, 0)];
  }

  // ---------------------------------------------------------------------------
  // A client

  function ClientEvents(c: nat, orders: seq<Order>): seq<PoolEvent> {
    if orders == [] then [] else [Client(c, Continue, true, orders[0].other)] + ClientEvents(c, orders[1..])
  }

  // The client, thread t of the queue, is where its call of push or close has brought it, and nothing
  // else has moved.
  predicate ClientLanded(s: PoolState, r: PoolState, c: nat, t: nat, inside: ClientAt, done: ClientAt) {
    && PoolShape(r) && c < |r.clients| && t == |r.workers| + c
    && r.flags == s.flags && r.workers == s.workers && r.ran == s.ran
    && r.clients[c] == (if r.queue.q.base.pcs[t].Out? then done else inside)
  }

  lemma CallLands(s: PoolState, c: nat, o: Order, e: PoolEvent, r: PoolState)
    requires PoolShape(s) && c < |s.clients| && e.Client? && e.client == c && AtQueue(s.clients[c], e.request)
    requires o == OrderOf(s, e) && r == PoolStep(s, e) && PoolShape(r)
    ensures ClientLanded(s, r, c, o.thread, AtWork(s.clients[c]), AtEnd(s.clients[c]))
    ensures r.queue == SplitStep(s.queue, o)
  {
  }

  lemma NextAccess(q: SplitState, t: nat, orders: seq<Order>) returns (m: SplitState)
    requires SplitInv(q) && orders != [] && AllBy(orders, t) && StaysInside(q, orders, t)
    ensures t < |q.stages| && !q.q.base.pcs[t].Out? && m == SplitStep(q, orders[0]) && SplitInv(m)
    ensures orders[0].thread == t && orders[0].call == Proceed(true)
    ensures AllBy(orders[1..], t) && StaysInside(m, orders[1..], t)
  {
    m := SplitStep(q, orders[0]);
    SplitStepInv(q, orders[0]);
    assert orders[0] in orders;
    forall o | o in orders[1..] ensures o in orders { }
  }

  predicate Inside(inside: ClientAt, done: ClientAt) {
    (inside.InPush? || inside.InClose?) && AtEnd(inside) == done
  }

  lemma AccessLands(
    s0: PoolState, s: PoolState, c: nat, inside: ClientAt, done: ClientAt, o: Order, e: PoolEvent, r: PoolState)
    requires PoolOk(s) && PoolShape(r) && ClientLanded(s0, s, c, o.thread, inside, done) && Inside(inside, done)
    requires o.call == Proceed(true) && !s.queue.q.base.pcs[o.thread].Out?
    requires e == Client(c, Continue, true, o.other) && r == PoolStep(s, e)
    ensures ClientLanded(s0, r, c, o.thread, inside, done) && r.queue == SplitStep(s.queue, o)
  {
    CallLands(s, c, o, e, r);
  }

  lemma {:induction false} ClientGoesThrough(
    s0: PoolState, s: PoolState, c: nat, t: nat, inside: ClientAt, done: ClientAt, orders: seq<Order>)
    requires PoolInv(s) && ClientLanded(s0, s, c, t, inside, done) && Inside(inside, done)
    requires AllBy(orders, t) && StaysInside(s.queue, orders, t)
    ensures var r := PoolRun(s, ClientEvents(c, orders));
            ClientLanded(s0, r, c, t, inside, done) && r.queue == SplitRun(s.queue, orders)
    decreases |orders|
  {
    if orders != [] {
      var e := Client(c, Continue, true, orders[0].other);
      var m := NextAccess(s.queue, t, orders);
      FirstEvent(s, e, ClientEvents(c, orders[1..]));
      var r := PoolStep(s, e);
      AccessLands(s0, s, c, inside, done, orders[0], e, r);
      ClientGoesThrough(s0, r, c, t, inside, done, orders[1..]);
    }
  }

  predicate ByClient(events: seq<PoolEvent>, c: nat) { forall e :: e in events ==> e.Client? && e.client == c }

  lemma {:induction false} ClientsOwn(c: nat, orders: seq<Order>)
    ensures ByClient(ClientEvents(c, orders), c)
  {
    if orders != [] { ClientsOwn(c, orders[1..]); }
  }

  // The call is over for thread t, and the queue is as the sequential queue leaves it.
  predicate QueueDone(q: SplitState, r: SplitState, t: nat, call: Call) {
    SplitShape(r) && t < |r.stages| && r.q.base.pcs[t].Out? && Contents(r) == After(Contents(q), call)
  }

  // The call has returned.
  predicate CallDone(s: PoolState, r: PoolState, c: nat, t: nat, call: Call, done: ClientAt) {
    && r.flags == s.flags && r.workers == s.workers && r.ran == s.ran
    && c < |r.clients| && r.clients[c] == done
    && QueueDone(s.queue, r.queue, t, call)
  }

  lemma QueueCompletes(q: SplitState, o: Order) returns (orders: seq<Order>, m: SplitState)
    requires SplitInv(q) && o.thread < |q.stages| && q.q.base.pcs[o.thread].Out? && q.q.base.word == 0
    requires o.call.Push? || o.call.Close?
    ensures m == SplitStep(q, o) && SplitInv(m) && AllBy(orders, o.thread) && StaysInside(m, orders, o.thread)
    ensures QueueDone(q, SplitRun(m, orders), o.thread, o.call)
  {
    orders := CallCompletes(q, o);
    m := SplitStep(q, o);
  }

  // The client has nothing to wait for, and its next access is the first of a call.
  predicate MayCall(s: PoolState, c: nat, e: PoolEvent) {
    && c < |s.clients| && s.queue.q.base.word == 0 && e.Client? && e.client == c
    && (s.clients[c].ToClose? || (s.clients[c].Idle? && e.request.Submit?))
  }

  lemma CallIsNew(s: PoolState, c: nat, o: Order, e: PoolEvent)
    requires PoolOk(s) && MayCall(s, c, e) && o == OrderOf(s, e)
    ensures o.thread < |s.queue.stages| && s.queue.q.base.pcs[o.thread].Out? && (o.call.Push? || o.call.Close?)
    ensures AtQueue(s.clients[c], e.request) && Inside(AtWork(s.clients[c]), AtEnd(s.clients[c]))
  {
    assert ClientOk(s, c);
  }

  lemma ClientEnters(s: PoolState, c: nat, o: Order, e: PoolEvent, r: PoolState) returns (orders: seq<Order>)
    requires PoolInv(s) && MayCall(s, c, e)
    requires o == OrderOf(s, e) && r == PoolStep(s, e) && PoolShape(r)
    ensures Inside(AtWork(s.clients[c]), AtEnd(s.clients[c])) && SplitInv(r.queue)
    ensures ClientLanded(s, r, c, o.thread, AtWork(s.clients[c]), AtEnd(s.clients[c]))
    ensures AllBy(orders, o.thread) && StaysInside(r.queue, orders, o.thread)
    ensures QueueDone(s.queue, SplitRun(r.queue, orders), o.thread, o.call)
  {
    CallIsNew(s, c, o, e);
    var m;
    orders, m := QueueCompletes(s.queue, o);
    CallLands(s, c, o, e, r);
  }

  lemma ClientLeaves(
    s: PoolState, r: PoolState, c: nat, t: nat, orders: seq<Order>, call: Call, inside: ClientAt, done: ClientAt)
    requires PoolInv(r) && ClientLanded(s, r, c, t, inside, done) && Inside(inside, done)
    requires AllBy(orders, t) && StaysInside(r.queue, orders, t)
    requires QueueDone(s.queue, SplitRun(r.queue, orders), t, call)
    ensures ByClient(ClientEvents(c, orders), c)
    ensures CallDone(s, PoolRun(r, ClientEvents(c, orders)), c, t, call, done)
  {
    ClientGoesThrough(s, r, c, t, inside, done, orders);
    ClientsOwn(c, orders);
  }

  // A client that has a task to submit, or the queue to close, finds the lock free and is let alone:
  // submit() returns and the task is at the end of the queue unless this is closed; stop() and wait()
  // get past shutdown() and the queue is closed.
  lemma ClientCompletes(s: PoolState, c: nat, e: PoolEvent) returns (events: seq<PoolEvent>)
    requires PoolInv(s) && MayCall(s, c, e)
    ensures ByClient(events, c)
    ensures var o := OrderOf(s, e);
            CallDone(s, PoolRun(s, [e] + events), c, o.thread, o.call, AtEnd(s.clients[c]))
  {
    var o, r := OrderOf(s, e), PoolStep(s, e);
    PoolStepInv(s, e);
    var orders := ClientEnters(s, c, o, e, r);
    ClientLeaves(s, r, c, o.thread, orders, o.call, AtWork(s.clients[c]), AtEnd(s.clients[c]));
    events := ClientEvents(c, orders);
    FirstEvent(s, e, events);
  }
}
