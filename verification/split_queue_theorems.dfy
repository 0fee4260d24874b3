/** The split queue behaves as if its critical sections were single steps, because of the lock. */
module SplitQueueTheorems {
  import opened SynchInv
  import opened MonitorQueue
  import opened MonitorQueueInv
  import opened MonitorQueueTheorems
  import opened SplitQueue
  import opened QueueSpec

  lemma SplitInitInv(threads: nat)
    ensures SplitInv(SplitInit(threads))
  {
    QueueInitInv(threads);
  }

  // No two threads are in the middle of their sections, by the mutual exclusion of the lock.
  lemma SectionAlone(s: SplitState, t: nat, u: nat)
    requires SplitInv(s) && t < |s.stages| && u < |s.stages| && s.q.base.pcs[t].Held? && !s.stages[u].Fresh?
    ensures t == u
  {
    assert StageInv(s, u);
    if t != u { OwnerAlone(s.q, t, u); }
  }

  // The value appended, taken or refused is the one that the atomic section would have: every
  // step of the split queue is a step of the queue with atomic sections, or leaves it alone.
  lemma SplitRefines(s: SplitState, o: Order)
    requires SplitInv(s)
    ensures SplitStep(s, o).q == s.q || SplitStep(s, o).q == QueueStep(s.q, o)
  {
    var t := o.thread;
    if t < |s.stages| { assert StageInv(s, t); }
  }

  lemma SplitStepInv(s: SplitState, o: Order)
    requires SplitInv(s)
    ensures SplitInv(SplitStep(s, o))
  {
    var r := SplitStep(s, o);
    SplitRefines(s, o);
    QueueStepInv(s.q, o);
    forall u: nat | u < |r.stages| ensures StageInv(r, u) {
      assert StageInv(s, u);
      if u == o.thread { OwnStage(s, o); } else { OtherStage(s, o, u); }
    }
  }

  lemma OwnStage(s: SplitState, o: Order)
    requires SplitInv(s) && o.thread < |s.stages| && SplitShape(SplitStep(s, o))
    ensures |SplitStep(s, o).stages| == |s.stages| && StageInv(SplitStep(s, o), o.thread)
  {
    assert StageInv(s, o.thread);
  }

  // A thread in the middle of its section owns the lock, so nobody else can change the queue.
  lemma OtherStage(s: SplitState, o: Order, u: nat)
    requires SplitInv(s) && u < |s.stages| && u != o.thread && SplitShape(SplitStep(s, o))
    ensures |SplitStep(s, o).stages| == |s.stages| && StageInv(SplitStep(s, o), u)
  {
    var t := o.thread;
    assert StageInv(s, u);
    if t < |s.stages| && !s.stages[u].Fresh? {
      if s.q.base.pcs[t].Held? { SectionAlone(s, t, u); }
      AccessOfStep(s.q, o);
      OtherRoles(s.q, o);
      AwakeStays(s.q.base, QueueEvent(s.q, o), u);
    }
  }

  // ---------------------------------------------------------------------------
  // Runs

  ghost function SplitRun(s: SplitState, orders: seq<Order>): (r: SplitState)
    requires SplitInv(s)
    ensures SplitInv(r) && |r.stages| == |s.stages|
    decreases |orders|
  {
    if orders == [] then s
    else
      SplitStepInv(s, orders[0]);
      SplitRun(SplitStep(s, orders[0]), orders[1..])
  }

  ghost predicate SplitReachable(s: SplitState) {
    exists threads: nat, orders: seq<Order> :: (SplitInitInv(threads); s == SplitRun(SplitInit(threads), orders))
  }

  // Every run of the split queue is a run of the queue with atomic sections.
  lemma {:induction false} SplitRunRefines(s: SplitState, orders: seq<Order>) returns (atomic: seq<Order>)
    requires SplitInv(s)
    ensures SplitRun(s, orders).q == QueueRun(s.q, atomic)
    decreases |orders|
  {
    if orders == [] {
      atomic := [];
    } else {
      SplitStepInv(s, orders[0]);
      SplitRefines(s, orders[0]);
      var rest := SplitRunRefines(SplitStep(s, orders[0]), orders[1..]);
      if SplitStep(s, orders[0]).q == s.q {
        atomic := rest;
      } else {
        atomic := [orders[0]] + rest;
      }
    }
  }

  lemma SplitReachableQueue(s: SplitState)
    requires SplitReachable(s)
    ensures SplitInv(s) && QueueReachable(s.q)
  {
    var threads: nat, orders: seq<Order> :| (SplitInitInv(threads); s == SplitRun(SplitInit(threads), orders));
    SplitInitInv(threads);
    QueueInitInv(threads);
    var atomic := SplitRunRefines(SplitInit(threads), orders);
    assert s.q == QueueRun(QueueInit(threads), atomic);
  }

  // The values handed out are, in order, the first of the values accepted; the rest is queued.
  lemma FirstInFirstOut(s: SplitState)
    requires SplitReachable(s)
    ensures s.q.taken == s.q.given + s.q.queue
  {
    SplitReachableQueue(s);
    QueueReachableInv(s.q);
  }

  // Nobody looks at the front of an empty deque or removes it, and what is removed is what was
  // moved out before.
  lemma FrontExists(s: SplitState, t: nat)
    requires SplitReachable(s) && t < |s.stages|
    ensures s.stages[t].SawValue? || s.stages[t].Moved? ==> s.q.queue != []
    ensures s.stages[t].Moved? ==> s.q.queue[0] == s.stages[t].value
  {
    SplitReachableQueue(s);
    assert StageInv(s, t);
  }

  // ---------------------------------------------------------------------------
  // Linearizability

  // A call that has yet to take effect, and one that has.
  predicate Asking(role: Role) { Locking(role) || role.Waiter? }

  predicate Answered(role: Role) { role.Notifier? || role.Leaver? }

  function CallOf(role: Role): (call: Call)
    requires Asking(role)
    ensures !call.Proceed?
  {
    match role
    case Pusher(v) => Push(v)
    case Taster => TryPop
    case Closer => Close
    case _ => WaitPop
  }

  function ResultOf(role: Role): Result
    requires Answered(role)
  {
    match role case Notifier(all) => (if all then DidClose else Pushed) case Leaver(result) => result
  }

  // The call that takes effect in a step.
  function Commit(s: SplitState, o: Order): seq<Op>
    requires SplitShape(s)
  {
    var t := o.thread;
    var r := SplitStep(s, o);
    if t < |s.stages| && t < |r.q.roles| && Asking(s.q.roles[t]) && Answered(r.q.roles[t]) then
      [Op(t, CallOf(s.q.roles[t]), ResultOf(r.q.roles[t]))]
    else []
  }

  ghost function History(s: SplitState, orders: seq<Order>): seq<Op>
    requires SplitInv(s)
    decreases |orders|
  {
    if orders == [] then []
    else
      SplitStepInv(s, orders[0]);
      Commit(s, orders[0]) + History(SplitStep(s, orders[0]), orders[1..])
  }

  function Contents(s: SplitState): Fifo { Fifo(s.q.queue, s.q.closed) }

  // The thread is in the middle of its critical section.
  predicate InSection(s: SplitState, t: nat)
    requires SplitShape(s) && t < |s.stages|
  {
    s.q.base.pcs[t].Held? && (s.q.roles[t].Pusher? || s.q.roles[t].Popper? || s.q.roles[t].Taster?)
  }

  // What the step owes to its own thread.
  ghost predicate FitsStep(s: SplitState, o: Order)
    requires SplitShape(s)
  {
    var ops, r := Commit(s, o), SplitStep(s, o);
    && (ops == [] ==> Contents(r) == Contents(s))
    && (ops != [] ==>
          |ops| == 1 && Fits(Contents(s), ops[0]) && Contents(r) == After(Contents(s), ops[0].call))
  }

  lemma SectionFits(s: SplitState, o: Order)
    requires SplitShape(s) && o.thread < |s.stages| && InSection(s, o.thread) && StageInv(s, o.thread)
    ensures FitsStep(s, o)
  {
  }

  lemma AccessFits(s: SplitState, o: Order)
    requires SplitShape(s) && o.thread < |s.stages| && !InSection(s, o.thread) && RoleInv(s.q, o.thread)
    ensures FitsStep(s, o)
  {
  }

  // A step that lets a call take effect answers as the sequential queue does, and no other step
  // changes the queue.
  lemma CommitFits(s: SplitState, o: Order)
    requires SplitInv(s)
    ensures FitsStep(s, o)
  {
    if o.thread < |s.stages| {
      assert StageInv(s, o.thread) && RoleInv(s.q, o.thread);
      if InSection(s, o.thread) { SectionFits(s, o); } else { AccessFits(s, o); }
    }
  }

  // The records of the values accepted and handed out.
  ghost predicate LedgerStep(s: SplitState, o: Order)
    requires SplitShape(s)
  {
    var ops, r := Commit(s, o), SplitStep(s, o);
    && |ops| <= 1
    && r.q.taken == (if ops != [] && ops[0].call.Push? && ops[0].result.Pushed?
                     then s.q.taken + [ops[0].call.value] else s.q.taken)
    && r.q.given == (if ops != [] && ops[0].result.Got? then s.q.given + [ops[0].result.value] else s.q.given)
  }

  lemma SectionLedger(s: SplitState, o: Order)
    requires SplitShape(s) && o.thread < |s.stages| && InSection(s, o.thread) && StageInv(s, o.thread)
    ensures LedgerStep(s, o)
  {
  }

  lemma AccessLedger(s: SplitState, o: Order)
    requires SplitShape(s) && o.thread < |s.stages| && !InSection(s, o.thread) && RoleInv(s.q, o.thread)
    ensures LedgerStep(s, o)
  {
  }

  lemma CommitLedger(s: SplitState, o: Order)
    requires SplitInv(s)
    ensures LedgerStep(s, o)
  {
    if o.thread < |s.stages| {
      assert StageInv(s, o.thread) && RoleInv(s.q, o.thread);
      if InSection(s, o.thread) { SectionLedger(s, o); } else { AccessLedger(s, o); }
    }
  }

  // The calls, in the order in which they take effect, are a legal history of the sequential queue,
  // and it ends with what the queue holds: in every run of any number of threads.
  lemma {:induction false} Linearizable(s: SplitState, orders: seq<Order>)
    requires SplitInv(s)
    ensures Legal(Contents(s), History(s, orders))
    ensures Replay(Contents(s), History(s, orders)) == Contents(SplitRun(s, orders))
    decreases |orders|
  {
    if orders != [] {
      var o := orders[0];
      SplitStepInv(s, o);
      CommitFits(s, o);
      Linearizable(SplitStep(s, o), orders[1..]);
      if Commit(s, o) == [] {
        assert History(s, orders) == History(SplitStep(s, o), orders[1..]);
      } else {
        assert History(s, orders)[1..] == History(SplitStep(s, o), orders[1..]);
      }
    }
  }

  // Between its start and its return each call takes effect exactly once, as the call that was made
  // and with the result that is returned: a call starts out asking, ...
  lemma CallStarts(s: SplitState, o: Order)
    requires SplitInv(s) && o.thread < |s.stages| && s.q.base.pcs[o.thread].Out?
    ensures var r := SplitStep(s, o);
            && |r.q.roles| == |s.q.roles| && Commit(s, o) == []
            && (!o.call.Proceed? ==> Asking(r.q.roles[o.thread]) && CallOf(r.q.roles[o.thread]) == o.call)
  {
    assert RoleInv(s.q, o.thread);
  }

  // ... goes on asking the same until it is answered, and then keeps the answer.
  predicate RoleGoes(role: Role, next: Role, t: nat, ops: seq<Op>) {
    || (Asking(role) && ops == [] && Asking(next) && CallOf(next) == CallOf(role))
    || (Asking(role) && Answered(next) && ops == [Op(t, CallOf(role), ResultOf(next))])
    || (Answered(role) && ops == [] && Answered(next) && ResultOf(next) == ResultOf(role))
  }

  lemma OneCommitPerCall(s: SplitState, o: Order)
    requires SplitInv(s) && o.thread < |s.stages| && !s.q.base.pcs[o.thread].Out?
    ensures |SplitStep(s, o).q.roles| == |s.q.roles|
    ensures RoleGoes(s.q.roles[o.thread], SplitStep(s, o).q.roles[o.thread], o.thread, Commit(s, o))
  {
    assert RoleInv(s.q, o.thread) && StageInv(s, o.thread);
  }

  // Only an answered call has returned, and nobody else has a hand in it.
  lemma AnsweredReturns(s: SplitState, o: Order, u: nat)
    requires SplitInv(s) && u < |s.stages|
    ensures s.q.base.pcs[u].Out? ==> s.q.roles[u].Nobody? || s.q.roles[u].Leaver?
    ensures u != o.thread ==> u < |SplitStep(s, o).q.roles| && SplitStep(s, o).q.roles[u] == s.q.roles[u]
  {
    assert RoleInv(s.q, u);
    SplitRefines(s, o);
    OtherRoles(s.q, o);
  }

  // Thread t is inside the queue before each of the orders.
  ghost predicate StaysInside(s: SplitState, orders: seq<Order>, t: nat)
    requires SplitInv(s)
    decreases |orders|
  {
    orders != [] ==>
      && t < |s.stages| && !s.q.base.pcs[t].Out?
      && (SplitStepInv(s, orders[0]); StaysInside(SplitStep(s, orders[0]), orders[1..], t))
  }

  lemma RoleGoesOn(a: Role, b: Role, c: Role, t: nat, first: seq<Op>, rest: seq<Op>)
    requires RoleGoes(a, b, t, first) && RoleGoes(b, c, t, rest)
    ensures RoleGoes(a, c, t, first + rest)
  {
  }

  lemma RoleInside(s: SplitState, t: nat)
    requires SplitInv(s) && t < |s.stages|
    ensures s.q.base.pcs[t].Out? ==> s.q.roles[t].Nobody? || s.q.roles[t].Leaver?
    ensures !s.q.base.pcs[t].Out? ==> Asking(s.q.roles[t]) || Answered(s.q.roles[t])
  {
    assert RoleInv(s.q, t);
  }

  lemma StepProgress(s: SplitState, o: Order, t: nat)
    requires SplitInv(s) && t < |s.stages| && !s.q.base.pcs[t].Out?
    ensures |SplitStep(s, o).q.roles| == |s.stages| && |Commit(s, o)| <= 1
    ensures RoleGoes(s.q.roles[t], SplitStep(s, o).q.roles[t], t, OpsOf(Commit(s, o), t))
  {
    OpsOfFirst(Commit(s, o), [], t);
    assert Commit(s, o) + [] == Commit(s, o);
    if o.thread == t {
      OneCommitPerCall(s, o);
    } else {
      RoleInside(s, t);
      AnsweredReturns(s, o, t);
    }
  }

  lemma {:induction false} RunProgress(s: SplitState, orders: seq<Order>, t: nat)
    requires SplitInv(s) && t < |s.stages| && StaysInside(s, orders, t)
    requires Asking(s.q.roles[t]) || Answered(s.q.roles[t])
    ensures RoleGoes(s.q.roles[t], SplitRun(s, orders).q.roles[t], t, OpsOf(History(s, orders), t))
    decreases |orders|
  {
    if orders != [] {
      var o := orders[0];
      var r := SplitStep(s, o);
      SplitStepInv(s, o);
      StepProgress(s, o, t);
      RunProgress(r, orders[1..], t);
      OpsOfFirst(Commit(s, o), [], t);
      OpsOfFirst(Commit(s, o), History(r, orders[1..]), t);
      assert Commit(s, o) + [] == Commit(s, o);
      RoleGoesOn(s.q.roles[t], r.q.roles[t], SplitRun(r, orders[1..]).q.roles[t], t, OpsOf(Commit(s, o), t),
                 OpsOf(History(r, orders[1..]), t));
    }
  }

  lemma FirstOrder(s: SplitState, o: Order, orders: seq<Order>)
    requires SplitInv(s) && SplitInv(SplitStep(s, o)) && Commit(s, o) == []
    ensures SplitRun(s, [o] + orders) == SplitRun(SplitStep(s, o), orders)
    ensures History(s, [o] + orders) == History(SplitStep(s, o), orders)
  {
    assert ([o] + orders)[1..] == orders;
  }

  // From a state where its thread asks, until the call returns.
  lemma AskedOnce(s: SplitState, orders: seq<Order>, t: nat, call: Call)
    requires SplitInv(s) && t < |s.stages| && StaysInside(s, orders, t)
    requires Asking(s.q.roles[t]) && CallOf(s.q.roles[t]) == call && SplitRun(s, orders).q.base.pcs[t].Out?
    ensures var role := SplitRun(s, orders).q.roles[t];
            role.Leaver? && OpsOf(History(s, orders), t) == [Op(t, call, role.result)]
  {
    RunProgress(s, orders, t);
    RoleInside(SplitRun(s, orders), t);
  }

  // In every run, from the start of a call to its return, that call takes effect exactly once: its
  // thread has one entry in the history, the call that was made with the result that is returned.
  lemma TakesEffectOnce(s: SplitState, o: Order, orders: seq<Order>)
    requires SplitInv(s) && o.thread < |s.stages| && s.q.base.pcs[o.thread].Out? && !o.call.Proceed?
    requires SplitInv(SplitStep(s, o)) && StaysInside(SplitStep(s, o), orders, o.thread)
    requires SplitRun(SplitStep(s, o), orders).q.base.pcs[o.thread].Out?
    ensures var role := SplitRun(s, [o] + orders).q.roles[o.thread];
            role.Leaver? && OpsOf(History(s, [o] + orders), o.thread) == [Op(o.thread, o.call, role.result)]
  {
    CallStarts(s, o);
    FirstOrder(s, o, orders);
    AskedOnce(SplitStep(s, o), orders, o.thread, o.call);
  }
}
