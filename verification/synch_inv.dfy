/** Every access to the futex lock and its condition variable keeps the invariant. */
module SynchInv {
  import opened Counting
  import opened Synch

  lemma InitInv(threads: nat)
    ensures Inv(Init(threads))
  {
    CountNone(CountedMarks(Init(threads).pcs));
  }

  lemma MarkUpdate(pcs: seq<Pc<nat>>, t: nat, pc: Pc<nat>)
    requires t < |pcs|
    ensures Count(CountedMarks(pcs[t := pc])) + (if pcs[t].Counted() then 1 else 0)
            == Count(CountedMarks(pcs)) + (if pc.Counted() then 1 else 0)
  {
    assert CountedMarks(pcs[t := pc]) == CountedMarks(pcs)[t := pc.Counted()];
    CountUpdate(CountedMarks(pcs), t, pc.Counted());
  }

  lemma SameMarks(a: seq<Pc<nat>>, b: seq<Pc<nat>>)
    requires |a| == |b| && forall t :: 0 <= t < |a| ==> a[t].Counted() == b[t].Counted()
    ensures Count(CountedMarks(a)) == Count(CountedMarks(b))
  {
    assert CountedMarks(a) == CountedMarks(b);
  }

  // A thread that will rouse a sleeper covers all sleepers.
  lemma CoveredBy(s: State, u: nat)
    requires u < |s.pcs| && s.pcs[u].Rouses()
    ensures Covered(s)
  {
  }

  // Covering survives a step of thread t that keeps its duty or hands it to the word.
  lemma CoverKept(s: State, r: State, t: nat)
    requires Inv(s) && t < |s.pcs| && |r.pcs| == |s.pcs|
    requires forall u :: 0 <= u < |s.pcs| && u != t ==> r.pcs[u] == s.pcs[u]
    requires s.pcs[t].Rouses() ==> r.pcs[t].Rouses() || r.word == 2
    requires r.pcs[t].SleepsOnLock() ==> s.pcs[t].SleepsOnLock() || r.word == 2
    requires s.word == 2 ==> r.word == 2 || r.pcs[t].Rouses()
    ensures !NoLockSleeper(r) ==> Covered(r)
  {
    if r.pcs[t].Rouses() {
      CoveredBy(r, t);
    } else if !NoLockSleeper(r) && r.word != 2 {
      assert !NoLockSleeper(s) by {
        var v :| 0 <= v < |r.pcs| && r.pcs[v].SleepsOnLock();
        assert s.pcs[v].SleepsOnLock();
      }
      var u :| 0 <= u < |s.pcs| && s.pcs[u].Rouses();
      CoveredBy(r, u);
    }
  }

  // Thread t moves on; the words, the holder and its other duties stay.
  lemma MoveInv(s: State, t: nat, pc: Pc<nat>)
    requires Inv(s) && t < |s.pcs|
    requires pc.Owns() == s.pcs[t].Owns() && pc.Counted() == s.pcs[t].Counted() && !pc.CvCount?
    requires s.pcs[t].Rouses() ==> pc.Rouses()
    requires pc.SleepsOnLock() ==> s.word == 2
    requires pc.Snapped() ==> pc.Snapshot() <= s.number
    requires pc.Notifies() ==> pc.number <= s.number
    ensures Inv(Goto(s, t, pc))
  {
    var r := Goto(s, t, pc);
    assert ThreadInv(s, t);
    MarkUpdate(s.pcs, t, pc);
    CoverKept(s, r, t);
    forall u: nat | u < |r.pcs| ensures ThreadInv(r, u) { assert ThreadInv(s, u); }
  }

  // ---------------------------------------------------------------------------
  // The lock

  lemma AcquireInv(s: State, t: nat, word: nat)
    requires Inv(s) && t < |s.pcs| && s.word == 0
    requires if word == 1 then s.pcs[t].Out? || s.pcs[t].LockCas?
             else word == 2 && (s.pcs[t].SlowFirst? || s.pcs[t].SlowXchg?)
    ensures Inv(Acquire(s, t, word))
  {
    var r := Acquire(s, t, word);
    MarkUpdate(s.pcs, t, Held);
    CoverKept(s, r, t);
    forall u: nat | u < |r.pcs| ensures ThreadInv(r, u) { assert ThreadInv(s, u); }
  }

  lemma ExchangeInv(s: State, t: nat)
    requires Inv(s) && t < |s.pcs| && (s.pcs[t].SlowFirst? || s.pcs[t].SlowXchg?)
    ensures Inv(Exchange(s, t))
  {
    if s.word == 0 {
      AcquireInv(s, t, 2);
    } else {
      var r := Exchange(s, t);
      MarkUpdate(s.pcs, t, SlowWait);
      CoverKept(s, r, t);
      forall u: nat | u < |r.pcs| ensures ThreadInv(r, u) { assert ThreadInv(s, u); }
    }
  }

  lemma DecrementInv(s: State, t: nat, next: Cont<nat>)
    requires Inv(s) && t < |s.pcs|
    requires (s.pcs[t].Held? && next.ToOut?) || (s.pcs[t].UnSub? && next == ToWait(s.pcs[t].snap))
    ensures Inv(Decrement(s, t, next))
  {
    var r := Decrement(s, t, next);
    assert ThreadInv(s, t);
    MarkUpdate(s.pcs, t, r.pcs[t]);
    CoverKept(s, r, t);
    forall u: nat | u < |r.pcs| ensures ThreadInv(r, u) { assert ThreadInv(s, u); }
  }

  lemma StoreZeroInv(s: State, t: nat)
    requires Inv(s) && t < |s.pcs| && s.pcs[t].UnStore?
    ensures Inv(StoreZero(s, t))
  {
    var r := StoreZero(s, t);
    assert ThreadInv(s, t);
    MarkUpdate(s.pcs, t, r.pcs[t]);
    CoverKept(s, r, t);
    forall u: nat | u < |r.pcs| ensures ThreadInv(r, u) { assert ThreadInv(s, u); }
  }

  // Thread t leaves its duty to thread u.
  lemma HandOverInv(s: State, t: nat, pc: Pc<nat>, u: nat)
    requires Inv(s) && t < |s.pcs| && s.pcs[t].UnWake? && pc == Resume(s.pcs[t].next)
    requires NoLockSleeper(s) || (u < |s.pcs| && u != t && s.pcs[u].Rouses())
    ensures Inv(Goto(s, t, pc))
  {
    var r := Goto(s, t, pc);
    assert ThreadInv(s, t);
    MarkUpdate(s.pcs, t, pc);
    if !NoLockSleeper(s) { CoveredBy(r, u); }
    forall v: nat | v < |r.pcs| ensures ThreadInv(r, v) { assert ThreadInv(s, v); }
  }

  lemma WakeLockInv(s: State, t: nat, u: nat)
    requires Inv(s) && t < |s.pcs| && s.pcs[t].UnWake?
    ensures Inv(WakeLock(s, t, u))
  {
    var pc := Resume(s.pcs[t].next);
    if LockSleeper(s, u) {
      assert ThreadInv(s, u);
      MoveInv(s, u, Woken(s.pcs[u]));
      HandOverInv(Goto(s, u, Woken(s.pcs[u])), t, pc, u);
      assert WakeLock(s, t, u).pcs == s.pcs[u := Woken(s.pcs[u])][t := pc];
    } else if NoLockSleeper(s) {
      HandOverInv(s, t, pc, t);
    }
  }

  // ---------------------------------------------------------------------------
  // The condition variable

  lemma BeginWaitInv(s: State, t: nat)
    requires Inv(s) && t < |s.pcs| && s.pcs[t].Held?
    ensures Inv(BeginWait(s, t))
  {
    var r := BeginWait(s, t);
    MarkUpdate(s.pcs, t, CvCount);
    CoverKept(s, r, t);
    forall u: nat | u < |r.pcs| ensures ThreadInv(r, u) { assert ThreadInv(s, u); }
  }

  lemma AddCountInv(s: State, t: nat)
    requires Inv(s) && t < |s.pcs| && s.pcs[t].CvCount?
    ensures Inv(Goto(s, t, CvSnap).(count := s.count + 1))
  {
    var r := Goto(s, t, CvSnap).(count := s.count + 1);
    assert ThreadInv(s, t);
    MarkUpdate(s.pcs, t, CvSnap);
    CoverKept(s, r, t);
    forall u: nat | u < |r.pcs| ensures ThreadInv(r, u) { assert ThreadInv(s, u); }
  }

  lemma SubCountInv(s: State, t: nat)
    requires Inv(s) && t < |s.pcs| && s.pcs[t].CvDec?
    ensures s.count > 0 && Inv(Goto(s, t, SlowXchg).(count := s.count - 1))
  {
    CountPositive(CountedMarks(s.pcs), t);
    var r := Goto(s, t, SlowXchg).(count := s.count - 1);
    MarkUpdate(s.pcs, t, SlowXchg);
    CoverKept(s, r, t);
    forall u: nat | u < |r.pcs| ensures ThreadInv(r, u) { assert ThreadInv(s, u); }
  }

  lemma WaitCondInv(s: State, t: nat)
    requires Inv(s) && t < |s.pcs| && s.pcs[t].CvWait?
    ensures Inv(WaitCond(s, t))
  {
    assert ThreadInv(s, t);
    MoveInv(s, t, WaitCond(s, t).pcs[t]);
  }

  lemma BeginNotifyInv(s: State, t: nat, all: bool, held: bool)
    requires Inv(s) && t < |s.pcs| && s.pcs[t] == Back(held)
    ensures Inv(BeginNotify(s, t, all, held))
  {
    var r := BeginNotify(s, t, all, held);
    MarkUpdate(s.pcs, t, r.pcs[t]);
    CoverKept(s, r, t);
    forall u: nat | u < |r.pcs| ensures ThreadInv(r, u) { assert ThreadInv(s, u); }
  }

  lemma ReturnInv(s: State, t: nat)
    requires Inv(s) && t < |s.pcs| && s.pcs[t].Notifies()
    ensures Inv(Return(s, t))
  {
    var r := Return(s, t);
    assert ThreadInv(s, t);
    MarkUpdate(s.pcs, t, r.pcs[t]);
    CoverKept(s, r, t);
    forall u: nat | u < |r.pcs| ensures ThreadInv(r, u) { assert ThreadInv(s, u); }
  }

  // The count of waiters does not miss a sleeper.
  lemma SleepersCounted(s: State)
    requires Inv(s) && s.count == 0
    ensures forall u :: 0 <= u < |s.pcs| ==> !s.pcs[u].Counted()
  {
    forall u | 0 <= u < |s.pcs| ensures !s.pcs[u].Counted() {
      if s.pcs[u].Counted() { CountPositive(CountedMarks(s.pcs), u); }
    }
  }

  lemma LoadCountInv(s: State, t: nat)
    requires Inv(s) && t < |s.pcs| && s.pcs[t].NotifyCount?
    ensures Inv(LoadCount(s, t))
  {
    assert ThreadInv(s, t);
    if s.count == 0 {
      ReturnInv(s, t);
    } else {
      MoveInv(s, t, LoadCount(s, t).pcs[t]);
    }
  }

  lemma LoadOwnerInv(s: State, t: nat)
    requires Inv(s) && t < |s.pcs| && s.pcs[t].NotifyOwner?
    ensures Inv(LoadOwner(s, t))
  {
    assert ThreadInv(s, t);
    if s.owner {
      MoveInv(s, t, LoadOwner(s, t).pcs[t]);
    } else {
      ReturnInv(s, t);
    }
  }

  // The kernel's part of notify_all: sleeper u goes on, the others move to the lock word.
  function Requeue(s: State, u: nat): State {
    s.(pcs := seq(|s.pcs|, (w: nat) requires w < |s.pcs| =>
         if w == u then CvDec
         else if s.pcs[w].SleepCond? then Requeued(s.pcs[w].snap)
         else s.pcs[w]))
  }

  // The woken waiter covers those that move to the lock word.
  lemma RequeueInv(s: State, u: nat)
    requires Inv(s) && CondSleeper(s, u)
    ensures Inv(Requeue(s, u))
  {
    var r := Requeue(s, u);
    SameMarks(s.pcs, r.pcs);
    CoveredBy(r, u);
    forall v: nat | v < |r.pcs| ensures ThreadInv(r, v) { assert ThreadInv(s, v); }
  }

  lemma RouseInv(s: State, t: nat, u: nat)
    requires Inv(s) && t < |s.pcs| && s.pcs[t].NotifyWake?
    ensures Inv(Rouse(s, t, u))
  {
    var r := Rouse(s, t, u);
    if CondSleeper(s, u) {
      if s.pcs[t].all {
        RequeueInv(s, u);
        ReturnInv(Requeue(s, u), t);
        assert r.pcs == Return(Requeue(s, u), t).pcs;
      } else {
        assert ThreadInv(s, u);
        MoveInv(s, u, CvDec);
        ReturnInv(Goto(s, u, CvDec), t);
        assert r.pcs == Return(Goto(s, u, CvDec), t).pcs;
      }
    } else if NoCondSleeper(s) {
      ReturnInv(s, t);
    }
  }

  // ---------------------------------------------------------------------------

  lemma CallInv(s: State, e: Event)
    requires Inv(s) && e.thread < |s.pcs| && (s.pcs[e.thread].Out? || s.pcs[e.thread].Held?)
    ensures Inv(Step(s, e))
  {
    var t := e.thread;
    if s.pcs[t].Out? {
      match e.action
      case Lock => MoveInv(s, t, LockCas);
      case TryLock => if s.word == 0 { AcquireInv(s, t, 1); }
      case NotifyOne => BeginNotifyInv(s, t, false, false);
      case NotifyAll => BeginNotifyInv(s, t, true, false);
      case _ =>
    } else {
      match e.action
      case Unlock => DecrementInv(s, t, ToOut);
      case Wait => BeginWaitInv(s, t);
      case NotifyOne => BeginNotifyInv(s, t, false, true);
      case NotifyAll => BeginNotifyInv(s, t, true, true);
      case _ =>
    }
  }

  lemma LockStepInv(s: State, e: Event)
    requires Inv(s) && e.thread < |s.pcs|
    requires var pc := s.pcs[e.thread];
             pc.LockCas? || pc.SlowFirst? || pc.SlowWait? || pc.SleepLock? || pc.SlowXchg? ||
             pc.UnSub? || pc.UnStore? || pc.UnWake?
    ensures Inv(Step(s, e))
  {
    var t := e.thread;
    match s.pcs[t]
    case LockCas => if s.word == 0 { AcquireInv(s, t, 1); } else { MoveInv(s, t, Step(s, e).pcs[t]); }
    case SlowFirst => ExchangeInv(s, t);
    case SlowWait => MoveInv(s, t, if s.word == 2 then SleepLock else SlowXchg);
    case SleepLock => MoveInv(s, t, SlowXchg);
    case SlowXchg => ExchangeInv(s, t);
    case UnSub(v) => DecrementInv(s, t, ToWait(v));
    case UnStore(_) => StoreZeroInv(s, t);
    case UnWake(_) => WakeLockInv(s, t, e.other);
  }

  lemma StepInv(s: State, e: Event)
    requires Inv(s)
    ensures Inv(Step(s, e))
  {
    var t := e.thread;
    if t < |s.pcs| {
      match s.pcs[t]
      case Out => CallInv(s, e);
      case Held => CallInv(s, e);
      case CvCount => AddCountInv(s, t);
      case CvSnap => MoveInv(s, t, UnSub(s.number));
      case CvWait(_) => WaitCondInv(s, t);
      case SleepCond(_) => MoveInv(s, t, CvDec);
      case Requeued(_) => MoveInv(s, t, CvDec);
      case CvDec => SubCountInv(s, t);
      case NotifyCount(_, _, _) => LoadCountInv(s, t);
      case NotifyOwner(_, _) => LoadOwnerInv(s, t);
      case NotifyWake(_, _, _) => RouseInv(s, t, e.other);
      case _ => LockStepInv(s, e);
    }
  }

  // ---------------------------------------------------------------------------
  // The condition variable, in time

  // When notify_all() returns, nobody sleeps on the condition any more.
  lemma ReturnTimely(s: State, e: Event)
    requires Inv(s) && e.thread < |s.pcs| && s.pcs[e.thread].Notifies()
    ensures var r := Step(s, e); r.done != s.done ==> NoCondSleeper(r)
  {
    if s.count == 0 { SleepersCounted(s); }
    forall u: nat | u < |s.pcs| && s.pcs[u].SleepCond? ensures s.owner { assert ThreadInv(s, u); }
  }

  // Only the wakes move another thread than their own.
  lemma OneMoves(s: State, e: Event)
    requires e.thread < |s.pcs| && !s.pcs[e.thread].UnWake? && !s.pcs[e.thread].NotifyWake?
    ensures |Step(s, e).pcs| == |s.pcs|
    ensures Step(s, e).pcs == s.pcs[e.thread := Step(s, e).pcs[e.thread]]
  {
    var t := e.thread;
    assert s.pcs == s.pcs[t := s.pcs[t]];
  }

  lemma SameThreads(s: State, e: Event)
    ensures |Step(s, e).pcs| == |s.pcs|
  {
    if e.thread < |s.pcs| && !s.pcs[e.thread].UnWake? && !s.pcs[e.thread].NotifyWake? { OneMoves(s, e); }
  }

  // A thread that is awake is moved by nobody else.
  lemma AwakeStays(s: State, e: Event, u: nat)
    requires u < |s.pcs| && u != e.thread && !s.pcs[u].SleepsOnLock() && !s.pcs[u].SleepCond?
    ensures |Step(s, e).pcs| == |s.pcs| && Step(s, e).pcs[u] == s.pcs[u]
  {
    SameThreads(s, e);
    if e.thread < |s.pcs| && !s.pcs[e.thread].UnWake? && !s.pcs[e.thread].NotifyWake? { OneMoves(s, e); }
  }

  // Only futex_wait puts a thread to sleep on the condition.
  lemma NobodyElseSleeps(s: State, e: Event)
    requires e.thread < |s.pcs| && !s.pcs[e.thread].CvWait?
    ensures var r := Step(s, e);
            |r.pcs| == |s.pcs| && forall u :: 0 <= u < |r.pcs| && r.pcs[u].SleepCond? ==> r.pcs[u] == s.pcs[u]
  {
    if !s.pcs[e.thread].UnWake? && !s.pcs[e.thread].NotifyWake? { OneMoves(s, e); }
  }

  lemma StepTimely(s: State, e: Event)
    requires Inv(s) && Timely(s)
    ensures Timely(Step(s, e))
  {
    var t := e.thread;
    if t < |s.pcs| {
      if s.pcs[t].CvWait? {
        assert ThreadInv(s, t);
      } else {
        NobodyElseSleeps(s, e);
        if s.pcs[t].Notifies() { ReturnTimely(s, e); }
      }
    }
  }
}
