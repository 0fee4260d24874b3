/** What holds in every run of the monitor queue. */
module MonitorQueueTheorems {
  import opened Counting
  import opened Synch
  import opened SynchInv
  import SynchTheorems
  import opened MonitorQueue
  import opened MonitorQueueInv

  ghost function QueueRun(s: QueueState, orders: seq<Order>): (r: QueueState)
    requires QueueInv(s)
    ensures QueueInv(r)
    decreases |orders|
  {
    if orders == [] then s
    else
      QueueStepInv(s, orders[0]);
      QueueRun(QueueStep(s, orders[0]), orders[1..])
  }

  ghost predicate QueueReachable(s: QueueState) {
    exists threads: nat, orders: seq<Order> ::
      (QueueInitInv(threads); s == QueueRun(QueueInit(threads), orders))
  }

  lemma QueueReachableInv(s: QueueState)
    requires QueueReachable(s)
    ensures QueueInv(s)
  {
    var threads: nat, orders: seq<Order> :|
      (QueueInitInv(threads); s == QueueRun(QueueInit(threads), orders));
  }

  // ---------------------------------------------------------------------------
  // The queue is built on the lock

  lemma StepOnBase(s: QueueState, o: Order) returns (events: seq<Event>)
    requires QueueInv(s)
    ensures QueueStep(s, o).base == SynchTheorems.Run(s.base, events)
  {
    var t := o.thread;
    QueueStepInv(s, o);
    if QueueStep(s, o).base == s.base {
      events := [];
    } else {
      var e := QueueEvent(s, o);
      AccessOfStep(s, o);
      StepInv(s.base, e);
      events := [e];
      assert SynchTheorems.Run(s.base, [e]) == SynchTheorems.Run(Step(s.base, e), [e][1..]);
    }
  }

  // The access to the lock or the condition variable in a step of the queue.
  function QueueAction(s: QueueState, o: Order): Action
    requires QueueShape(s) && o.thread < |s.roles|
  {
    var t := o.thread;
    if s.base.pcs[t].Out? then Lock
    else if s.base.pcs[t].Held? then
      match s.roles[t]
      case Waiter => Wait
      case Notifier(all) => if all then NotifyAll else NotifyOne
      case _ => Unlock
    else Go(o.call.Proceed? && o.call.flag)
  }

  lemma {:induction false} RunAppend(s: State, a: seq<Event>, b: seq<Event>)
    requires Inv(s)
    ensures SynchTheorems.Run(s, a + b) == SynchTheorems.Run(SynchTheorems.Run(s, a), b)
    decreases |a|
  {
    if a == [] {
      assert a + b == b;
    } else {
      assert (a + b)[1..] == a[1..] + b;
      StepInv(s, a[0]);
      RunAppend(Step(s, a[0]), a[1..], b);
    }
  }

  // Every run of the queue is a run of the lock and the condition variable.
  lemma {:induction false} RunOnBase(s: QueueState, orders: seq<Order>) returns (events: seq<Event>)
    requires QueueInv(s)
    ensures QueueRun(s, orders).base == SynchTheorems.Run(s.base, events)
    decreases |orders|
  {
    if orders == [] {
      events := [];
    } else {
      QueueStepInv(s, orders[0]);
      var first := StepOnBase(s, orders[0]);
      var rest := RunOnBase(QueueStep(s, orders[0]), orders[1..]);
      events := first + rest;
      RunAppend(s.base, first, rest);
    }
  }

  lemma BaseReachable(s: QueueState)
    requires QueueReachable(s)
    ensures QueueInv(s) && SynchTheorems.Reachable(s.base)
  {
    var threads: nat, orders: seq<Order> :|
      (QueueInitInv(threads); s == QueueRun(QueueInit(threads), orders));
    QueueInitInv(threads);
    InitInv(threads);
    var events := RunOnBase(QueueInit(threads), orders);
    assert s.base == SynchTheorems.Run(Init(threads), events);
  }

  // ---------------------------------------------------------------------------
  // Consumers

  function WokenMarks(s: QueueState): (r: seq<bool>)
    requires QueueShape(s)
    ensures |r| == |s.roles|
    ensures forall t :: 0 <= t < |r| ==> r[t] == IsWoken(s.roles[t], s.base.pcs[t], s.base.number)
  {
    seq(|s.roles|, (t: nat) requires t < |s.roles| => IsWoken(s.roles[t], s.base.pcs[t], s.base.number))
  }

  // While a consumer sleeps in wait_pop, there are no more values in the queue than consumers that
  // have been woken and have yet to look, apart from one value whose producer still holds the lock
  // and has yet to wake somebody.
  lemma NoStrandedConsumer(s: QueueState, t: nat)
    requires QueueReachable(s) && t < |s.base.pcs| && s.base.pcs[t].SleepCond?
    ensures QueueShape(s) && |s.queue| <= Count(WokenMarks(s)) + 1
    ensures (forall u :: 0 <= u < |s.roles| ==> !IsNotifying(s.roles[u], s.base.pcs[u])) ==>
              |s.queue| <= Count(WokenMarks(s))
  {
    QueueReachableInv(s);
    assert MaySleep(s.base.pcs[t], s.base.number);
    var a, b := Servers(s), WokenMarks(s);
    if p: nat :| p < |s.roles| && IsNotifying(s.roles[p], s.base.pcs[p]) {
      forall u: nat | u < |s.roles| && u != p ensures !IsNotifying(s.roles[u], s.base.pcs[u]) {
        assert RoleInv(s, p) && RoleInv(s, u);
        OwnerAlone(s, p, u);
      }
      CountMonotone(a[p := false], b[p := false]);
      CountUpdate(a, p, false);
      CountUpdate(b, p, false);
    } else {
      CountMonotone(a, b);
    }
  }

  // Once the notify_all of a close() has returned, no consumer sleeps on the condition, now or
  // later.
  lemma CloseWakesEveryone(s: QueueState)
    requires QueueReachable(s) && s.swept
    ensures s.closed && NoCondSleeper(s.base)
  {
    QueueReachableInv(s);
    forall t | 0 <= t < |s.base.pcs| ensures !s.base.pcs[t].SleepCond? {
      assert !MaySleep(s.base.pcs[t], s.base.number);
    }
  }

  // The thread is in the middle of a close().
  predicate InClose(role: Role, pc: Pc<nat>) { (role == Notifier(true) && pc.Held?) || NotifyingAll(pc) }

  ghost predicate CloseInProgress(s: QueueState)
    requires QueueShape(s)
  {
    s.closed && !s.swept ==> exists u :: 0 <= u < |s.roles| && InClose(s.roles[u], s.base.pcs[u])
  }

  // A thread in the middle of a close() stays there until its notify_all returns.
  lemma CloserAdvances(s: QueueState, o: Order)
    requires QueueInv(s) && o.thread < |s.roles| && InClose(s.roles[o.thread], s.base.pcs[o.thread])
    ensures QueueShape(QueueStep(s, o)) && |QueueStep(s, o).roles| == |s.roles|
    ensures var r := QueueStep(s, o); r.swept || InClose(r.roles[o.thread], r.base.pcs[o.thread])
  {
    assert RoleInv(s, o.thread);
    if !s.base.pcs[o.thread].Held? {
      SameThreads(s.base, Event(o.thread, Go(o.call.Proceed? && o.call.flag), o.other));
    }
  }

  lemma CloserWaits(s: QueueState, o: Order, u: nat)
    requires QueueInv(s) && u < |s.roles| && InClose(s.roles[u], s.base.pcs[u]) && u != o.thread
    requires QueueShape(QueueStep(s, o)) && |QueueStep(s, o).roles| == |s.roles|
    ensures InClose(QueueStep(s, o).roles[u], QueueStep(s, o).base.pcs[u])
  {
    if o.thread < |s.roles| {
      AccessOfStep(s, o);
      OtherRoles(s, o);
      AwakeStays(s.base, QueueEvent(s, o), u);
    }
  }

  function QueueEvent(s: QueueState, o: Order): Event
    requires QueueShape(s) && o.thread < |s.roles|
  {
    var pc := s.base.pcs[o.thread];
    Event(o.thread, QueueAction(s, o), if pc.Out? || pc.Held? then 0 else o.other)
  }

  // A step makes at most one access to the lock and the condition variable.
  lemma AccessOfStep(s: QueueState, o: Order)
    requires QueueShape(s) && o.thread < |s.roles|
    ensures QueueStep(s, o).base == s.base || QueueStep(s, o).base == Step(s.base, QueueEvent(s, o))
  {
    var t := o.thread;
    if s.base.pcs[t].Held? {
      assert Inside(s, t).base == s.base || Inside(s, t).base == Step(s.base, QueueEvent(s, o));
    } else if s.base.pcs[t].Out? {
      assert Begin(s, t, o.call).base == s.base || Begin(s, t, o.call).base == Step(s.base, QueueEvent(s, o));
    }
  }

  lemma OtherRoles(s: QueueState, o: Order)
    requires QueueShape(s)
    ensures var r := QueueStep(s, o);
            |r.roles| == |s.roles| && forall u :: 0 <= u < |s.roles| && u != o.thread ==> r.roles[u] == s.roles[u]
  {
  }

  lemma CloseProgress(s: QueueState, o: Order)
    requires QueueInv(s) && CloseInProgress(s)
    ensures QueueInv(QueueStep(s, o)) && CloseInProgress(QueueStep(s, o))
  {
    QueueStepInv(s, o);
    var r := QueueStep(s, o);
    if s.closed && !s.swept {
      var u :| 0 <= u < |s.roles| && InClose(s.roles[u], s.base.pcs[u]);
      if u == o.thread { CloserAdvances(s, o); } else { CloserWaits(s, o, u); }
    } else if r.closed && !r.swept {
      assert InClose(r.roles[o.thread], r.base.pcs[o.thread]);
    }
  }

  lemma {:induction false} RunCloseProgress(s: QueueState, orders: seq<Order>)
    requires QueueInv(s) && CloseInProgress(s)
    ensures CloseInProgress(QueueRun(s, orders))
    decreases |orders|
  {
    if orders != [] {
      CloseProgress(s, orders[0]);
      RunCloseProgress(QueueStep(s, orders[0]), orders[1..]);
    }
  }

  // A queue that is closed has woken its consumers, or a close() is still at it.
  lemma ClosedIsSwept(s: QueueState)
    requires QueueReachable(s)
    ensures QueueShape(s) && CloseInProgress(s)
  {
    var threads: nat, orders: seq<Order> :|
      (QueueInitInv(threads); s == QueueRun(QueueInit(threads), orders));
    QueueInitInv(threads);
    RunCloseProgress(QueueInit(threads), orders);
  }

  predicate Resting(pc: Pc<nat>) { pc.Out? || pc.SleepCond? || pc.SleepsOnLock() }

  lemma LockIsQuiet(s: State)
    requires Inv(s) && forall u :: 0 <= u < |s.pcs| ==> Resting(s.pcs[u])
    ensures NoLockSleeper(s)
  {
    forall v: nat | v < |s.pcs| ensures !s.pcs[v].SleepsOnLock() {
      if s.pcs[v].SleepsOnLock() {
        var u := SynchTheorems.Keeper(s, v);
      }
    }
  }

  lemma NobodyWoken(s: QueueState)
    requires QueueShape(s) && NoLockSleeper(s.base) && forall u :: 0 <= u < |s.base.pcs| ==> Resting(s.base.pcs[u])
    ensures Count(WokenMarks(s)) == 0
  {
    CountNone(WokenMarks(s));
  }

  // When every thread is outside or asleep, nobody sleeps on the lock; and if anybody sleeps on the
  // condition, the queue is empty and not closed.
  lemma SleepersAreIdle(s: QueueState, t: nat)
    requires QueueReachable(s) && t < |s.base.pcs|
    requires forall u :: 0 <= u < |s.base.pcs| ==> Resting(s.base.pcs[u])
    ensures !s.base.pcs[t].SleepsOnLock()
    ensures s.base.pcs[t].SleepCond? ==> s.queue == [] && !s.closed
  {
    QueueReachableInv(s);
    LockIsQuiet(s.base);
    if s.base.pcs[t].SleepCond? {
      NoStrandedConsumer(s, t);
      NobodyWoken(s);
      ClosedIsSwept(s);
      if s.swept { CloseWakesEveryone(s); }
    }
  }
}
