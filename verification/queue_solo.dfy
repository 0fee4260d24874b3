/**
 A call of the monitor queue that finds the lock free and is let alone runs to its end: it returns
 what a sequential queue answers and leaves it as that call does.  Only wait_pop on an empty open
 queue does not return; it falls asleep.
 */
module QueueSolo {
  import opened Synch
  import opened QueueSpec
  import opened MonitorQueue
  import opened SplitQueue
  import opened SplitQueueTheorems
  import opened QueueProgress

  // ---------------------------------------------------------------------------
  // A thread that need not wait

  // The thread is on its way to sleep on the condition, and no notification has come.
  predicate GoesToSleep(pc: Pc<nat>, role: Role, number: nat) {
    || (pc.Held? && role.Waiter?) || pc.CvCount? || pc.CvSnap? || pc.UnSub? || pc.SleepCond?
    || (InFlight(pc) && pc.Snapshot() == number)
  }

  // A thread inside that can go on and will find an answer.
  ghost predicate Returning(q: SplitState, t: nat) {
    && SplitInv(q) && t < |q.stages| && Helpful(q.q.base, t)
    && !GoesToSleep(q.q.base.pcs[t], q.q.roles[t], q.q.base.number)
    && (q.q.roles[t].Popper? ==> q.q.queue != [] || q.q.closed)
  }

  // An access to the lock or the condition variable.
  lemma AccessGoesOn(s: State, t: nat, other: nat, role: Role, r: State)
    requires Inv(s) && Helpful(s, t) && !s.pcs[t].Held? && RoleFits(role, s.pcs[t])
    requires !GoesToSleep(s.pcs[t], role, s.number)
    requires s.pcs[t].UnWake? ==> LockSleeper(s, other) || NoLockSleeper(s)
    requires s.pcs[t].NotifyWake? ==> CondSleeper(s, other) || NoCondSleeper(s)
    requires r == Step(s, Event(t, Go(true), other))
    ensures InsideRank(r.pcs[t], role, Fresh) < InsideRank(s.pcs[t], role, Fresh)
    ensures r.pcs[t].Out? ||
            (Helpful(r, t) && !GoesToSleep(r.pcs[t], if r.pcs[t].Held? then Nobody else role, r.number))
  {
    assert ThreadInv(s, t);
  }

  // Closer to its return, and still returning.
  ghost predicate GoesOn(q: SplitState, r: SplitState, t: nat) {
    && SplitShape(q) && SplitShape(r) && t < |q.stages| == |r.stages|
    && Ahead(r, t) < Ahead(q, t) && (r.q.base.pcs[t].Out? || Returning(r, t))
  }

  lemma AskingGoesOn(q: SplitState, o: Order, r: SplitState)
    requires Returning(q, o.thread) && q.q.base.pcs[o.thread].Held? && Asking(q.q.roles[o.thread])
    requires r == SplitStep(q, o) && SplitInv(r)
    ensures GoesOn(q, r, o.thread)
  {
    assert StageInv(q, o.thread) && RoleInv(q.q, o.thread) && ThreadInv(q.q.base, o.thread);
    assert r.q.base == q.q.base;
  }

  lemma AnsweredGoesOn(q: SplitState, o: Order, r: SplitState)
    requires Returning(q, o.thread) && q.q.base.pcs[o.thread].Held? && Answered(q.q.roles[o.thread])
    requires r == SplitStep(q, o) && SplitInv(r)
    ensures GoesOn(q, r, o.thread)
  {
    assert RoleInv(q.q, o.thread) && ThreadInv(q.q.base, o.thread);
    AnsweredDescends(q, o);
    AnsweredHelpful(q, o, r);
  }

  lemma AnsweredHelpful(q: SplitState, o: Order, r: SplitState)
    requires SplitInv(q) && o.thread < |q.stages| && q.q.base.pcs[o.thread].Held? && Answered(q.q.roles[o.thread])
    requires r == SplitStep(q, o)
    ensures var pc, role := r.q.base.pcs[o.thread], r.q.roles[o.thread];
            && Answered(role) && (pc.Out? || pc.NotifyCount? || pc == UnStore(ToOut))
            && (pc.NotifyCount? ==> pc.held)
  {
  }

  lemma LockGoesOn(q: SplitState, t: nat, other: nat, r: SplitState)
    requires Returning(q, t) && !q.q.base.pcs[t].Held?
    requires r == SplitStep(q, Order(t, Proceed(true), other)) && SplitInv(r)
    requires q.q.base.pcs[t].UnWake? ==> LockSleeper(q.q.base, other) || NoLockSleeper(q.q.base)
    requires q.q.base.pcs[t].NotifyWake? ==> CondSleeper(q.q.base, other) || NoCondSleeper(q.q.base)
    ensures GoesOn(q, r, t)
  {
    var s := q.q.base;
    assert StageInv(q, t) && RoleInv(q.q, t) && ThreadInv(s, t);
    AccessGoesOn(s, t, other, q.q.roles[t], Step(s, Event(t, Go(true), other)));
    assert r.q.base == Step(s, Event(t, Go(true), other)) && r.q.roles == q.q.roles && r.stages == q.stages;
    assert RoleInv(r.q, t);
  }

  lemma ReturningStep(q: SplitState, t: nat) returns (o: Order)
    requires Returning(q, t)
    ensures o.thread == t && o.call == Proceed(true) && SplitInv(SplitStep(q, o)) && GoesOn(q, SplitStep(q, o), t)
  {
    var other := PickOther(q.q.base, t);
    o := Order(t, Proceed(true), other);
    SplitStepInv(q, o);
    RoleInside(q, t);
    if !q.q.base.pcs[t].Held? {
      LockGoesOn(q, t, other, SplitStep(q, o));
    } else if Asking(q.q.roles[t]) {
      AskingGoesOn(q, o, SplitStep(q, o));
    } else {
      AnsweredGoesOn(q, o, SplitStep(q, o));
    }
  }

  // The thread goes on by itself.
  predicate AllBy(orders: seq<Order>, t: nat) { forall o :: o in orders ==> o.thread == t && o.call == Proceed(true) }

  // Let alone, the thread comes out of the queue.
  lemma {:induction false} RunsAlone(q: SplitState, t: nat) returns (orders: seq<Order>)
    requires SplitInv(q) && t < |q.stages| && (q.q.base.pcs[t].Out? || Returning(q, t))
    ensures AllBy(orders, t) && StaysInside(q, orders, t) && SplitRun(q, orders).q.base.pcs[t].Out?
    decreases Ahead(q, t)
  {
    if q.q.base.pcs[t].Out? {
      orders := [];
    } else {
      var o := ReturningStep(q, t);
      var rest := RunsAlone(SplitStep(q, o), t);
      orders := [o] + rest;
      assert orders[1..] == rest;
    }
  }

  // ---------------------------------------------------------------------------
  // Whole calls

  lemma {:induction false} OnlyOps(q: SplitState, orders: seq<Order>, t: nat)
    requires SplitInv(q) && forall o :: o in orders ==> o.thread == t
    ensures OpsOf(History(q, orders), t) == History(q, orders)
    decreases |orders|
  {
    if orders != [] {
      var r := SplitStep(q, orders[0]);
      SplitStepInv(q, orders[0]);
      CommitLedger(q, orders[0]);
      assert orders[0] in orders;
      forall o | o in orders[1..] ensures o in orders { }
      OnlyOps(r, orders[1..], t);
      OpsOfFirst(Commit(q, orders[0]), History(r, orders[1..]), t);
    }
  }

  lemma CallEnters(q: SplitState, o: Order, m: SplitState)
    requires SplitInv(q) && o.thread < |q.stages| && q.q.base.pcs[o.thread].Out? && q.q.base.word == 0
    requires !o.call.Proceed?
    requires m == SplitStep(q, o) && SplitInv(m)
    ensures |m.stages| == |q.stages| && m.q.base.pcs[o.thread].LockCas? && m.q.base.word == 0
    ensures m.q.queue == q.q.queue && m.q.closed == q.q.closed && Asking(m.q.roles[o.thread])
    ensures CallOf(m.q.roles[o.thread]) == o.call
  {
    CallStarts(q, o);
  }

  // A call that finds the lock free and is let alone: unless it is wait_pop on an empty open queue, it
  // returns what the sequential queue answers, and leaves it as that call does.
  lemma CallCompletes(q: SplitState, o: Order) returns (orders: seq<Order>)
    requires SplitInv(q) && o.thread < |q.stages| && q.q.base.pcs[o.thread].Out? && q.q.base.word == 0
    requires !o.call.Proceed?
    requires o.call.WaitPop? ==> q.q.queue != [] || q.q.closed
    ensures AllBy(orders, o.thread)
    ensures SplitInv(SplitStep(q, o)) && StaysInside(SplitStep(q, o), orders, o.thread)
    ensures SplitRun(q, [o] + orders) == SplitRun(SplitStep(q, o), orders)
    ensures var r := SplitRun(q, [o] + orders);
            && r.q.base.pcs[o.thread].Out? && r.q.roles[o.thread] == Leaver(Answer(Contents(q), o.call))
            && Contents(r) == After(Contents(q), o.call)
  {
    var t, m := o.thread, SplitStep(q, o);
    SplitStepInv(q, o);
    CallEnters(q, o, m);
    orders := RunsAlone(m, t);
    TakesEffectOnce(q, o, orders);
    OnlyOps(q, [o] + orders, t);
    Linearizable(q, [o] + orders);
    SoleOp(q, [o] + orders, t, o.call);
    assert ([o] + orders)[1..] == orders;
  }

  // What a history of one call says.
  lemma SoleOp(q: SplitState, orders: seq<Order>, t: nat, call: Call)
    requires SplitInv(q) && t < |q.stages| && SplitRun(q, orders).q.roles[t].Leaver?
    requires History(q, orders) == [Op(t, call, SplitRun(q, orders).q.roles[t].result)]
    requires Legal(Contents(q), History(q, orders))
    requires Replay(Contents(q), History(q, orders)) == Contents(SplitRun(q, orders))
    ensures SplitRun(q, orders).q.roles[t] == Leaver(Answer(Contents(q), call))
    ensures Contents(SplitRun(q, orders)) == After(Contents(q), call)
  {
    var op := Op(t, call, SplitRun(q, orders).q.roles[t].result);
    assert [op][1..] == [];
  }

  // ---------------------------------------------------------------------------
  // wait_pop on an empty open queue

  function SleepRank(pc: Pc<nat>, role: Role, stage: Stage): nat {
    match pc
    case LockCas => 10
    case Held => if role.Waiter? then 7 else if stage.Fresh? then 9 else 8
    case CvCount => 6
    case CvSnap => 5
    case UnSub(_) => 4
    case UnStore(_) => 3
    case UnWake(_) => 2
    case CvWait(_) => 1
    case _ => 0
  }

  // The thread is in wait_pop on its way to sleep.
  ghost predicate Dozing(q: SplitState, t: nat) {
    && SplitInv(q) && t < |q.stages| && q.q.queue == [] && !q.q.closed && (q.q.base.pcs[t].Owns() || q.q.base.word == 0)
    && var pc, role := q.q.base.pcs[t], q.q.roles[t];
       || (pc.LockCas? && role.Popper?)
       || (pc.Held? && (role.Popper? || role.Waiter?))
       || pc.CvCount? || pc.CvSnap? || pc.UnSub?
       || (InFlight(pc) && pc.Snapshot() == q.q.base.number)
  }

  ghost predicate DozesOn(q: SplitState, r: SplitState, t: nat) {
    && SplitShape(q) && SplitShape(r) && t < |q.stages| == |r.stages|
    && SleepRank(r.q.base.pcs[t], r.q.roles[t], r.stages[t]) < SleepRank(q.q.base.pcs[t], q.q.roles[t], q.stages[t])
    && (r.q.base.pcs[t].SleepCond? || Dozing(r, t))
  }

  lemma HeldDozesOn(q: SplitState, o: Order, r: SplitState)
    requires Dozing(q, o.thread) && q.q.base.pcs[o.thread].Held? && r == SplitStep(q, o) && SplitInv(r)
    ensures DozesOn(q, r, o.thread)
  {
    assert StageInv(q, o.thread) && RoleInv(q.q, o.thread) && ThreadInv(q.q.base, o.thread);
  }

  // An access to the lock or the condition variable on the way to sleep.
  lemma AccessDozes(s: State, t: nat, other: nat, role: Role, r: State)
    requires Inv(s) && t < |s.pcs| && (s.pcs[t].Owns() || s.word == 0)
    requires var pc := s.pcs[t];
             pc.LockCas? || pc.CvCount? || pc.CvSnap? || pc.UnSub? || (InFlight(pc) && pc.Snapshot() == s.number)
    requires s.pcs[t].UnSub? ==> s.pcs[t].snap == s.number
    requires s.pcs[t].UnWake? ==> LockSleeper(s, other) || NoLockSleeper(s)
    requires r == Step(s, Event(t, Go(true), other)) && !role.Waiter?
    ensures |r.pcs| == |s.pcs| && SleepRank(r.pcs[t], role, Fresh) < SleepRank(s.pcs[t], role, Fresh)
    ensures r.pcs[t].SleepCond? || r.pcs[t].Owns() || r.word == 0
    ensures var pc := r.pcs[t];
            || pc.SleepCond? || (s.pcs[t].LockCas? && pc.Held?) || pc.CvSnap? || pc.UnSub?
            || (InFlight(pc) && pc.Snapshot() == r.number)
  {
    assert ThreadInv(s, t);
  }

  lemma LockDozesOn(q: SplitState, t: nat, other: nat, r: SplitState)
    requires Dozing(q, t) && !q.q.base.pcs[t].Held? && r == SplitStep(q, Order(t, Proceed(true), other)) && SplitInv(r)
    requires q.q.base.pcs[t].UnWake? ==> LockSleeper(q.q.base, other) || NoLockSleeper(q.q.base)
    ensures DozesOn(q, r, t)
  {
    var s := q.q.base;
    assert StageInv(q, t) && RoleInv(q.q, t);
    AccessDozes(s, t, other, q.q.roles[t], Step(s, Event(t, Go(true), other)));
    assert r.q.base == Step(s, Event(t, Go(true), other)) && r.q.roles == q.q.roles && r.stages == q.stages;
    assert r.q.queue == q.q.queue && r.q.closed == q.q.closed;
  }

  lemma {:induction false} DozesOff(q: SplitState, t: nat) returns (orders: seq<Order>)
    requires SplitInv(q) && t < |q.stages| && (q.q.base.pcs[t].SleepCond? || Dozing(q, t))
    ensures AllBy(orders, t) && SplitRun(q, orders).q.base.pcs[t].SleepCond?
    decreases SleepRank(q.q.base.pcs[t], q.q.roles[t], q.stages[t])
  {
    if q.q.base.pcs[t].SleepCond? {
      orders := [];
    } else {
      var other := PickOther(q.q.base, t);
      var o := Order(t, Proceed(true), other);
      SplitStepInv(q, o);
      if q.q.base.pcs[t].Held? { HeldDozesOn(q, o, SplitStep(q, o)); }
      else { LockDozesOn(q, t, other, SplitStep(q, o)); }
      var rest := DozesOff(SplitStep(q, o), t);
      orders := [o] + rest;
      assert orders[1..] == rest;
    }
  }

  // It gives the lock up again and falls asleep.
  lemma EmptyPopSleeps(q: SplitState, o: Order) returns (orders: seq<Order>)
    requires SplitInv(q) && o.thread < |q.stages| && q.q.base.pcs[o.thread].Out? && q.q.base.word == 0
    requires o.call.WaitPop?
    requires q.q.queue == [] && !q.q.closed
    ensures AllBy(orders, o.thread) && SplitRun(q, [o] + orders).q.base.pcs[o.thread].SleepCond?
  {
    var m := SplitStep(q, o);
    SplitStepInv(q, o);
    CallEnters(q, o, m);
    assert RoleInv(m.q, o.thread);
    orders := DozesOff(m, o.thread);
    assert ([o] + orders)[1..] == orders;
  }
}
