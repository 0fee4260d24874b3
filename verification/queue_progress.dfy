/**
 After close() the threads inside the monitor queue can always be brought out of it: as long as one
 is inside, some thread is awake and is the owner of the lock or finds it free, and an access of such
 a thread brings it closer to its return and no other thread farther from it.
 */
module QueueProgress {
  import opened Synch
  import opened SynchInv
  import SynchTheorems
  import opened MonitorQueue
  import opened QueueSpec
  import opened MonitorQueueTheorems
  import opened SplitQueue
  import opened SplitQueueTheorems

  // How far a thread inside the queue is from its return, if it need not wait for the lock.
  function SectionRank(role: Role, stage: Stage): nat {
    match role
    case Leaver(_) => 5
    case Notifier(_) => 9
    case Closer => 10
    case _ => if stage.Fresh? then 13 else if stage.Moved? then 11 else 12
  }

  function InsideRank(pc: Pc<nat>, role: Role, stage: Stage): nat {
    match pc
    case Out => 0
    case UnWake(next) => if next.ToOut? then 3 else 19
    case UnStore(next) => if next.ToOut? then 4 else 20
    case NotifyWake(_, _, _) => 6
    case NotifyOwner(_, _) => 7
    case NotifyCount(_, _, _) => 8
    case Held => SectionRank(role, stage)
    case SlowXchg => 14
    case SlowWait => 15
    case SlowFirst => 15
    case SleepLock => 16
    case LockCas => 16
    case CvDec => 17
    case CvWait(_) => 18
    case Requeued(_) => 18
    case SleepCond(_) => 19
    case _ => 25
  }

  predicate Awake(pc: Pc<nat>) { !pc.SleepsOnLock() && !pc.SleepCond? }

  // A thread that can go on: awake, and not kept out of the lock.
  predicate Helpful(s: State, t: nat) {
    t < |s.pcs| && !s.pcs[t].Out? && Awake(s.pcs[t]) && (s.pcs[t].Owns() || s.word == 0)
  }

  // ---------------------------------------------------------------------------
  // There is always a thread that can go on

  // A closed queue whose close() has notified all, or is still at it.
  ghost predicate Sweeping(q: QueueState) { QueueInv(q) && q.closed && CloseInProgress(q) }

  lemma ReachableSweeping(q: QueueState)
    requires QueueReachable(q) && q.closed
    ensures Sweeping(q)
  {
    QueueReachableInv(q);
    ClosedIsSwept(q);
  }

  // Once the queue is closed and the lock is free, nobody will go to sleep on the condition.
  lemma FreeMeansSwept(q: QueueState)
    requires Sweeping(q) && q.base.word == 0
    ensures !SomeMaySleep(q)
  {
    if !q.swept {
      var u :| 0 <= u < |q.roles| && InClose(q.roles[u], q.base.pcs[u]);
      CloserOwns(q, u);
    }
  }

  lemma CloserOwns(q: QueueState, u: nat)
    requires QueueInv(q) && u < |q.roles| && InClose(q.roles[u], q.base.pcs[u])
    ensures q.base.word != 0
  {
    assert RoleInv(q, u) && ThreadInv(q.base, u);
  }

  // As long as a thread is inside the closed queue, some thread can go on: by the sweep of close()
  // nobody sleeps on the condition for good, and nobody is stranded on the lock.
  lemma SomebodyHelps(q: QueueState, t: nat) returns (u: nat)
    requires Sweeping(q) && t < |q.base.pcs| && !q.base.pcs[t].Out?
    ensures Helpful(q.base, u)
  {
    var s := q.base;
    if s.word != 0 {
      u := s.holder.thread;
      assert ThreadInv(s, u);
    } else {
      FreeMeansSwept(q);
      u := t;
      assert !MaySleep(s.pcs[t], s.number);
      if s.pcs[t].SleepsOnLock() { u := SynchTheorems.Keeper(s, t); }
    }
  }

  // The kernel can pick a sleeper whenever there is one.
  lemma PickOther(s: State, t: nat) returns (other: nat)
    requires t < |s.pcs|
    ensures s.pcs[t].UnWake? ==> LockSleeper(s, other) || NoLockSleeper(s)
    ensures s.pcs[t].NotifyWake? ==> CondSleeper(s, other) || NoCondSleeper(s)
  {
    other := 0;
    if s.pcs[t].UnWake? && !NoLockSleeper(s) {
      other :| 0 <= other < |s.pcs| && s.pcs[other].SleepsOnLock();
    } else if s.pcs[t].NotifyWake? && !NoCondSleeper(s) {
      other :| 0 <= other < |s.pcs| && s.pcs[other].SleepCond?;
    }
  }

  // ---------------------------------------------------------------------------
  // Its access

  // An access of a helpful thread to the lock or the condition variable.
  lemma AccessDescends(s: State, t: nat, other: nat, role: Role)
    requires Helpful(s, t) && !s.pcs[t].Held? && RoleFits(role, s.pcs[t])
    requires !s.pcs[t].CvCount? && !s.pcs[t].CvSnap? && !s.pcs[t].UnSub?
    requires s.pcs[t].CvWait? ==> s.pcs[t].snap != s.number
    requires s.pcs[t].UnWake? ==> LockSleeper(s, other) || NoLockSleeper(s)
    requires s.pcs[t].NotifyWake? ==> CondSleeper(s, other) || NoCondSleeper(s)
    ensures InsideRank(Step(s, Event(t, Go(true), other)).pcs[t], role, Fresh) < InsideRank(s.pcs[t], role, Fresh)
  {
  }

  // Nobody else is set back by it.
  lemma OthersDescend(s: State, e: Event, u: nat, role: Role, stage: Stage)
    requires u < |s.pcs| && u != e.thread
    ensures InsideRank(Step(s, e).pcs[u], role, stage) <= InsideRank(s.pcs[u], role, stage)
  {
    if Awake(s.pcs[u]) { AwakeStays(s, e, u); }
    if e.thread < |s.pcs| && !s.pcs[e.thread].UnWake? && !s.pcs[e.thread].NotifyWake? { OneMoves(s, e); }
  }

  // What a thread does under the lock of a closed queue: it comes closer to its answer, ...
  lemma AskingDescends(q: SplitState, o: Order)
    requires SplitInv(q) && q.q.closed && o.thread < |q.stages| && q.q.base.pcs[o.thread].Held?
    requires Asking(q.q.roles[o.thread])
    ensures var t, r := o.thread, SplitStep(q, o);
            && r.q.base.pcs[t].Held?
            && SectionRank(r.q.roles[t], r.stages[t]) < SectionRank(q.q.roles[t], q.stages[t])
            && (Commit(q, o) != [] ==> SectionRank(r.q.roles[t], r.stages[t]) <= 9)
  {
    assert StageInv(q, o.thread) && RoleInv(q.q, o.thread);
  }

  // ... or to its return.
  lemma AnsweredDescends(q: SplitState, o: Order)
    requires SplitInv(q) && o.thread < |q.stages| && q.q.base.pcs[o.thread].Held? && Answered(q.q.roles[o.thread])
    ensures var t, r := o.thread, SplitStep(q, o);
            && Commit(q, o) == []
            && InsideRank(r.q.base.pcs[t], r.q.roles[t], r.stages[t]) < SectionRank(q.q.roles[t], q.stages[t])
  {
    var base, t := q.q.base, o.thread;
    if q.q.roles[t].Leaver? {
      ReleaseDescends(base, t);
    } else {
      var action := if q.q.roles[t].all then NotifyAll else NotifyOne;
      assert Step(base, Event(t, action, 0)).pcs[t].NotifyCount?;
    }
  }

  // The fetch_sub of unlock().
  lemma ReleaseDescends(s: State, t: nat)
    requires t < |s.pcs| && s.pcs[t].Held?
    ensures var pc := Step(s, Event(t, Unlock, 0)).pcs[t]; pc.Out? || pc == UnStore(ToOut)
  {
  }

  function Ahead(q: SplitState, t: nat): nat
    requires SplitShape(q) && t < |q.stages|
  {
    InsideRank(q.q.base.pcs[t], q.q.roles[t], q.stages[t])
  }

  lemma HelpfulDescends(q: SplitState, t: nat) returns (other: nat)
    requires SplitInv(q) && Sweeping(q.q) && Helpful(q.q.base, t)
    ensures var o := Order(t, Proceed(true), other);
            var r := SplitStep(q, o);
            Ahead(r, t) < Ahead(q, t) && (Commit(q, o) != [] ==> Ahead(r, t) <= 9)
  {
    var s := q.q.base;
    other := PickOther(s, t);
    assert StageInv(q, t) && RoleInv(q.q, t) && ThreadInv(s, t);
    if s.pcs[t].Held? {
      var o := Order(t, Proceed(true), other);
      if Asking(q.q.roles[t]) { AskingDescends(q, o); } else { AnsweredDescends(q, o); }
    } else {
      if s.pcs[t].CvWait? {
        FreeMeansSwept(q.q);
        assert !MaySleep(s.pcs[t], s.number);
      }
      AccessDescends(s, t, other, q.q.roles[t]);
    }
  }

  lemma OthersAhead(q: SplitState, o: Order, u: nat)
    requires SplitInv(q) && o.thread < |q.stages| && u < |q.stages| && u != o.thread
    ensures Ahead(SplitStep(q, o), u) <= Ahead(q, u)
  {
    SplitRefines(q, o);
    AccessOfStep(q.q, o);
    OtherRoles(q.q, o);
    OthersDescend(q.q.base, QueueEvent(q.q, o), u, q.q.roles[u], q.stages[u]);
  }
}
