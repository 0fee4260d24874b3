/** Every step of the monitor queue keeps its invariant. */
module MonitorQueueInv {
  import opened Values
  import opened Counting
  import opened Synch
  import opened SynchInv
  import opened MonitorQueue
  import opened QueueSpec

  lemma QueueInitInv(threads: nat)
    ensures QueueInv(QueueInit(threads))
  {
    InitInv(threads);
  }

  // ---------------------------------------------------------------------------
  // Servers

  lemma ServersGrow(s: QueueState, r: QueueState)
    requires QueueShape(s) && QueueShape(r) && |r.roles| == |s.roles|
    requires forall t :: 0 <= t < |s.roles| && Serves(s.roles[t], s.base.pcs[t], s.base.number) ==>
               Serves(r.roles[t], r.base.pcs[t], r.base.number)
    ensures Count(Servers(s)) <= Count(Servers(r))
  {
    CountMonotone(Servers(s), Servers(r));
  }

  // All but thread t serve as before.
  lemma ServersBut(s: QueueState, r: QueueState, t: nat)
    requires QueueShape(s) && QueueShape(r) && |r.roles| == |s.roles| && t < |s.roles|
    requires forall u :: 0 <= u < |s.roles| && u != t && Serves(s.roles[u], s.base.pcs[u], s.base.number) ==>
               Serves(r.roles[u], r.base.pcs[u], r.base.number)
    ensures Count(Servers(s)) <= Count(Servers(r)) + 1
    ensures !Servers(s)[t] && Servers(r)[t] ==> Count(Servers(s)) + 1 <= Count(Servers(r))
  {
    var a, b := Servers(s), Servers(r);
    CountMonotone(a[t := false], b[t := false]);
    CountUpdate(a, t, false);
    CountUpdate(b, t, false);
  }

  // ---------------------------------------------------------------------------
  // Steps on the queue, under the lock

  // Only the thread that owns the lock is inside.
  lemma OwnerAlone(s: QueueState, t: nat, u: nat)
    requires QueueInv(s) && t < |s.roles| && u < |s.roles| && t != u && s.base.pcs[t].Owns()
    ensures !s.base.pcs[u].Owns()
  {
    assert ThreadInv(s.base, t) && ThreadInv(s.base, u);
  }

  lemma LockedPushInv(s: QueueState, t: nat, v: Value)
    requires QueueInv(s) && t < |s.roles| && s.base.pcs[t].Held? && s.roles[t] == Pusher(v)
    ensures QueueInv(LockedPush(s, t, v))
  {
    var r := LockedPush(s, t, v);
    assert RoleInv(s, t);
    if s.closed { ServersGrow(s, r); } else { ServersBut(s, r, t); }
    forall u: nat | u < |r.roles| ensures RoleInv(r, u) {
      assert RoleInv(s, u);
      if u != t { OwnerAlone(s, t, u); }
    }
  }

  lemma LockedPopInv(s: QueueState, t: nat, wait: bool)
    requires QueueInv(s) && t < |s.roles| && s.base.pcs[t].Held?
    requires if wait then s.roles[t].Popper? else s.roles[t].Taster?
    ensures QueueInv(LockedPop(s, t, wait))
  {
    var r := LockedPop(s, t, wait);
    assert RoleInv(s, t);
    ServersBut(s, r, t);
    forall u: nat | u < |r.roles| ensures RoleInv(r, u) {
      assert RoleInv(s, u);
      if u != t { OwnerAlone(s, t, u); }
    }
  }

  lemma SetClosedInv(s: QueueState, t: nat)
    requires QueueInv(s) && t < |s.roles| && s.base.pcs[t].Held? && s.roles[t].Closer?
    ensures QueueInv(Become(s, t, Notifier(true)).(closed := true))
  {
    var r := Become(s, t, Notifier(true)).(closed := true);
    assert RoleInv(s, t);
    ServersGrow(s, r);
    forall u: nat | u < |r.roles| ensures RoleInv(r, u) {
      assert RoleInv(s, u);
      if u != t { OwnerAlone(s, t, u); }
    }
  }

  // ---------------------------------------------------------------------------
  // Accesses that only pass a thread on

  predicate Smooth(role: Role, pc: Pc<nat>, next: Pc<nat>, number: nat) {
    && RoleFits(role, next)
    && (Serves(role, pc, number) ==> Serves(role, next, number))
    && (MaySleep(next, number) ==> MaySleep(pc, number))
    && (next.Snapped() ==> pc.Snapped() && next.Snapshot() == pc.Snapshot())
    && (next.Notifies() ==> pc.Notifies() && next.number == pc.number)
    && !next.CvCount? && !next.CvSnap? && !next.UnSub?
    && !role.Waiter?
  }

  lemma SmoothInv(s: QueueState, base: State)
    requires QueueInv(s) && Inv(base)
    requires |base.pcs| == |s.base.pcs| && base.number == s.base.number
    requires forall u :: 0 <= u < |base.pcs| ==>
               base.pcs[u] == s.base.pcs[u] || Smooth(s.roles[u], s.base.pcs[u], base.pcs[u], base.number)
    ensures QueueInv(s.(base := base))
  {
    var r := s.(base := base);
    ServersGrow(s, r);
    forall u: nat | u < |r.roles| ensures RoleInv(r, u) {
      assert RoleInv(s, u);
    }
    if SomeMaySleep(r) {
      var u :| 0 <= u < |r.base.pcs| && MaySleep(r.base.pcs[u], r.base.number);
      assert MaySleep(s.base.pcs[u], s.base.number);
    }
  }

  predicate OnPath(pc: Pc<nat>) {
    || pc.LockCas? || pc.SlowFirst? || pc.SlowWait? || pc.SleepLock? || pc.SlowXchg?
    || pc.UnStore? || pc.UnWake? || pc.SleepCond? || pc.Requeued? || pc.CvDec?
  }

  // The accesses of lock(), of the end of unlock() and after waking up.
  lemma PathInv(s: QueueState, t: nat, e: Event)
    requires QueueInv(s) && t < |s.roles| && e.thread == t && OnPath(s.base.pcs[t])
    ensures QueueInv(s.(base := Step(s.base, e)))
  {
    var base := Step(s.base, e);
    StepInv(s.base, e);
    SameThreads(s.base, e);
    assert RoleInv(s, t);
    if s.base.pcs[t].UnWake? {
      WakeSmooth(s, t, e);
    } else {
      OneMoves(s.base, e);
      OneSmooth(s, t, e);
    }
    SmoothInv(s, base);
  }

  lemma OneSmooth(s: QueueState, t: nat, e: Event)
    requires QueueInv(s) && t < |s.roles| && e.thread == t && OnPath(s.base.pcs[t]) && !s.base.pcs[t].UnWake?
    ensures var base := Step(s.base, e);
            && base.number == s.base.number && |base.pcs| == |s.base.pcs|
            && (base.pcs[t] == s.base.pcs[t] || Smooth(s.roles[t], s.base.pcs[t], base.pcs[t], base.number))
  {
    assert RoleInv(s, t);
    PathMoves(s.base, e);
    var next := Step(s.base, e).pcs[t];
    if next != s.base.pcs[t] { PathSmooth(s.roles[t], s.base.pcs[t], next, s.base.number); }
  }

  predicate PathMove(pc: Pc<nat>, next: Pc<nat>) {
    match pc
    case LockCas => next.Held? || next.SlowWait? || next.SlowFirst?
    case SlowFirst => next.Held? || next.SlowWait?
    case SlowWait => next.SleepLock? || next.SlowXchg?
    case SleepLock => next.SlowXchg?
    case SlowXchg => next.Held? || next.SlowWait?
    case UnStore(to) => next == UnWake(to)
    case SleepCond(_) => next.CvDec?
    case Requeued(_) => next.CvDec?
    case CvDec => next.SlowXchg?
    case _ => false
  }

  lemma PathMoves(base: State, e: Event)
    requires e.thread < |base.pcs| && OnPath(base.pcs[e.thread]) && !base.pcs[e.thread].UnWake?
    ensures var r := Step(base, e);
            && r.number == base.number && |r.pcs| == |base.pcs|
            && (r.pcs[e.thread] == base.pcs[e.thread] || PathMove(base.pcs[e.thread], r.pcs[e.thread]))
  {
  }

  lemma PathSmooth(role: Role, pc: Pc<nat>, next: Pc<nat>, number: nat)
    requires RoleFits(role, pc) && PathMove(pc, next)
    ensures Smooth(role, pc, next, number)
  {
  }

  lemma WakeSmooth(s: QueueState, t: nat, e: Event)
    requires QueueInv(s) && t < |s.roles| && e.thread == t && s.base.pcs[t].UnWake?
    ensures var base := Step(s.base, e);
            && base.number == s.base.number && |base.pcs| == |s.base.pcs|
            && forall u :: 0 <= u < |base.pcs| ==>
                 base.pcs[u] == s.base.pcs[u] || Smooth(s.roles[u], s.base.pcs[u], base.pcs[u], base.number)
  {
    var base := Step(s.base, e);
    forall u: nat | u < |base.pcs|
      ensures base.pcs[u] == s.base.pcs[u] || Smooth(s.roles[u], s.base.pcs[u], base.pcs[u], base.number)
    {
      assert RoleInv(s, u);
      WakeMoves(s.base, e, u);
      if base.pcs[u] != s.base.pcs[u] { WokenSmooth(s.roles[u], s.base.pcs[u], base.pcs[u], base.number); }
    }
  }

  // What the futex_wake of unlock() does to a thread: itself goes on, and a sleeper wakes up.
  predicate WakeMove(pc: Pc<nat>, next: Pc<nat>) {
    (pc.UnWake? && next == Resume(pc.next)) || (pc.SleepsOnLock() && next == Woken(pc))
  }

  lemma WakeMoves(base: State, e: Event, u: nat)
    requires e.thread < |base.pcs| && base.pcs[e.thread].UnWake? && u < |base.pcs|
    ensures |Step(base, e).pcs| == |base.pcs|
    ensures Step(base, e).pcs[u] == base.pcs[u] || WakeMove(base.pcs[u], Step(base, e).pcs[u])
  {
  }

  lemma WokenSmooth(role: Role, pc: Pc<nat>, next: Pc<nat>, number: nat)
    requires RoleFits(role, pc) && WakeMove(pc, next)
    ensures Smooth(role, pc, next, number)
  {
  }

  // ---------------------------------------------------------------------------
  // Entering and leaving

  // Thread t changes its role while it neither serves nor sleeps, and makes one access.
  lemma RoleMoveInv(s: QueueState, t: nat, role: Role, e: Event)
    requires QueueInv(s) && t < |s.roles| && e.thread == t
    requires var pc := s.base.pcs[t];
             var next := Step(s.base, e).pcs;
             && !pc.UnWake? && !pc.NotifyWake? && Step(s.base, e).number == s.base.number
             && |next| == |s.base.pcs|
             && RoleFits(role, next[t]) && !Serves(s.roles[t], pc, s.base.number)
             && !MaySleep(next[t], s.base.number) && !next[t].Notifies()
             && !next[t].Snapped() && !(role.Waiter? && next[t].Held?) && role != Notifier(true)
             && (next[t].CvCount? || next[t].CvSnap? ==> s.queue == [] && !s.closed)
    ensures QueueInv(Become(s, t, role).(base := Step(s.base, e)))
  {
    var r := Become(s, t, role).(base := Step(s.base, e));
    StepInv(s.base, e);
    OneMoves(s.base, e);
    ServersGrow(s, r);
    forall u: nat | u < |r.roles| ensures RoleInv(r, u) { assert RoleInv(s, u); }
    if SomeMaySleep(r) {
      var u :| 0 <= u < |r.base.pcs| && MaySleep(r.base.pcs[u], r.base.number);
      assert MaySleep(s.base.pcs[u], s.base.number);
    }
  }

  lemma BeginInv(s: QueueState, t: nat, call: Call)
    requires QueueInv(s) && t < |s.roles| && s.base.pcs[t].Out?
    ensures QueueInv(Begin(s, t, call))
  {
    assert RoleInv(s, t);
    var e := Event(t, Lock, 0);
    match call
    case Push(v) => RoleMoveInv(s, t, Pusher(v), e);
    case WaitPop => RoleMoveInv(s, t, Popper(true), e);
    case TryPop => RoleMoveInv(s, t, Taster, e);
    case Close => RoleMoveInv(s, t, Closer, e);
    case Proceed(_) =>
  }

  lemma EnterWaitInv(s: QueueState, t: nat)
    requires QueueInv(s) && t < |s.roles| && s.base.pcs[t].Held? && s.roles[t].Waiter?
    ensures QueueInv(Access(Become(s, t, Popper(false)), t, Wait, 0))
  {
    assert RoleInv(s, t);
    RoleMoveInv(s, t, Popper(false), Event(t, Wait, 0));
  }

  lemma LeaveInv(s: QueueState, t: nat)
    requires QueueInv(s) && t < |s.roles| && s.base.pcs[t].Held? && s.roles[t].Leaver?
    ensures QueueInv(Access(s, t, Unlock, 0))
  {
    assert s.roles[t := s.roles[t]] == s.roles;
    RoleMoveInv(s, t, s.roles[t], Event(t, Unlock, 0));
  }

  // ---------------------------------------------------------------------------
  // Going to sleep

  lemma AddCountStep(s: QueueState, t: nat, e: Event)
    requires QueueInv(s) && t < |s.roles| && e.thread == t && s.base.pcs[t].CvCount?
    ensures QueueInv(s.(base := Step(s.base, e)))
  {
    assert RoleInv(s, t);
    assert s.roles[t := s.roles[t]] == s.roles;
    RoleMoveInv(s, t, s.roles[t], e);
  }

  // The snapshot is taken under the lock, with the queue empty.
  lemma SnapInv(s: QueueState, t: nat, e: Event)
    requires QueueInv(s) && t < |s.roles| && e.thread == t && (s.base.pcs[t].CvSnap? || s.base.pcs[t].UnSub?)
    ensures QueueInv(s.(base := Step(s.base, e)))
  {
    var r := s.(base := Step(s.base, e));
    StepInv(s.base, e);
    OneMoves(s.base, e);
    assert RoleInv(s, t);
    assert |r.queue| == 0;
    forall u: nat | u < |r.roles| ensures RoleInv(r, u) {
      assert RoleInv(s, u);
      if u != t { OwnerAlone(s, t, u); }
    }
  }

  // A thread falls asleep only if no notification has come since its snapshot.
  lemma FallAsleepInv(s: QueueState, t: nat, e: Event)
    requires QueueInv(s) && t < |s.roles| && e.thread == t && s.base.pcs[t].CvWait?
    ensures QueueInv(s.(base := Step(s.base, e)))
  {
    StepInv(s.base, e);
    OneMoves(s.base, e);
    assert RoleInv(s, t) && ThreadInv(s.base, t);
    SmoothInv(s, Step(s.base, e));
  }

  // ---------------------------------------------------------------------------
  // Notifying

  lemma ServesOn(role: Role, pc: Pc<nat>, number: nat)
    requires pc.Snapped() ==> pc.Snapshot() <= number
    ensures Serves(role, pc, number) ==> Serves(role, pc, number + 1)
    ensures MaySleep(pc, number + 1) ==> MaySleep(pc, number)
  {
  }

  lemma IncrementPcs(s: State, t: nat, all: bool)
    requires t < |s.pcs| && s.pcs[t].Held?
    ensures var r := Step(s, Event(t, if all then NotifyAll else NotifyOne, 0));
            r.pcs == s.pcs[t := NotifyCount(all, true, s.number + 1)] && r.number == s.number + 1
  {
  }

  // The increment turns the threads that were about to sleep into woken ones.
  lemma IncrementServers(s: QueueState, r: QueueState, t: nat, all: bool)
    requires QueueInv(s) && t < |s.roles| && s.base.pcs[t].Held? && s.roles[t] == Notifier(all)
    requires QueueShape(r) && r.base.number == s.base.number + 1
    requires r.base.pcs == s.base.pcs[t := NotifyCount(all, true, r.base.number)]
    requires r.roles == s.roles[t := Leaver(if all then DidClose else Pushed)]
    ensures Count(Servers(s)) <= Count(Servers(r))
    ensures SomeMaySleep(r) ==> SomeMaySleep(s)
  {
    forall u: nat | u < |s.roles| && u != t
      ensures Serves(s.roles[u], s.base.pcs[u], s.base.number) ==> Serves(r.roles[u], r.base.pcs[u], r.base.number)
      ensures MaySleep(r.base.pcs[u], r.base.number) ==> MaySleep(s.base.pcs[u], s.base.number)
    {
      assert ThreadInv(s.base, u);
      ServesOn(s.roles[u], s.base.pcs[u], s.base.number);
    }
    ServersGrow(s, r);
    if SomeMaySleep(r) {
      var u :| 0 <= u < |r.base.pcs| && MaySleep(r.base.pcs[u], r.base.number);
      assert MaySleep(s.base.pcs[u], s.base.number);
    }
  }

  lemma IncrementRoles(s: QueueState, r: QueueState, t: nat, all: bool)
    requires QueueInv(s) && t < |s.roles| && s.base.pcs[t].Held? && s.roles[t] == Notifier(all)
    requires QueueShape(r) && r.base.number == s.base.number + 1 && r.queue == s.queue && r.closed == s.closed
    requires r.base.pcs == s.base.pcs[t := NotifyCount(all, true, r.base.number)]
    requires r.roles == s.roles[t := Leaver(if all then DidClose else Pushed)]
    ensures forall u: nat :: u < |r.roles| ==> RoleInv(r, u)
  {
    assert RoleInv(s, t);
    forall u: nat | u < |r.roles| && r.base.pcs[u].Snapped() ensures r.base.pcs[u].Snapshot() < r.base.number {
      assert ThreadInv(s.base, u);
    }
    forall u: nat | u < |r.roles| ensures RoleInv(r, u) {
      assert RoleInv(s, u);
      if u != t { OwnerAlone(s, t, u); }
    }
  }

  lemma IncrementInv(s: QueueState, t: nat, all: bool)
    requires QueueInv(s) && t < |s.roles| && s.base.pcs[t].Held? && s.roles[t] == Notifier(all)
    ensures QueueInv(Inside(s, t))
  {
    var r := Inside(s, t);
    StepInv(s.base, Event(t, if all then NotifyAll else NotifyOne, 0));
    IncrementPcs(s.base, t, all);
    IncrementServers(s, r, t, all);
    IncrementRoles(s, r, t, all);
  }

  // While a thread notifies under the lock, whoever is not asleep will notice.
  lemma OnlySleepersMaySleep(s: QueueState, t: nat)
    requires QueueInv(s) && t < |s.roles| && s.base.pcs[t].Notifies()
    ensures forall u :: 0 <= u < |s.base.pcs| && MaySleep(s.base.pcs[u], s.base.number) ==> s.base.pcs[u].SleepCond?
  {
    assert RoleInv(s, t);
  }

  // The notification of thread t is over.
  lemma NotifyEndInv(s: QueueState, t: nat, base: State, swept: bool)
    requires QueueInv(s) && Inv(base) && t < |s.roles| && s.base.pcs[t].Notifies()
    requires |base.pcs| == |s.base.pcs| && base.number == s.base.number && base.pcs[t].Held?
    requires forall u :: 0 <= u < |base.pcs| && u != t ==>
               base.pcs[u] == s.base.pcs[u] || Smooth(s.roles[u], s.base.pcs[u], base.pcs[u], base.number)
    requires var r := s.(base := base, swept := swept);
             && (SomeMaySleep(r) ==> |r.queue| <= Count(Servers(r)))
             && (swept ==> s.swept || (s.closed && !SomeMaySleep(r)))
    ensures QueueInv(s.(base := base, swept := swept))
  {
    var r := s.(base := base, swept := swept);
    forall u: nat | u < |r.roles| ensures RoleInv(r, u) { assert RoleInv(s, u); }
    if SomeMaySleep(r) {
      var u :| 0 <= u < |r.base.pcs| && MaySleep(r.base.pcs[u], r.base.number);
      assert MaySleep(s.base.pcs[u], s.base.number);
    }
  }

  // Nobody is asleep when the notifier returns without waking anybody.
  lemma IdleReturnInv(s: QueueState, t: nat, e: Event, swept: bool)
    requires QueueInv(s) && t < |s.roles| && e.thread == t && s.base.pcs[t].Notifies()
    requires NoCondSleeper(s.base) && Step(s.base, e) == Return(s.base, t)
    requires swept ==> s.swept || NotifyingAll(s.base.pcs[t])
    ensures QueueInv(s.(base := Step(s.base, e), swept := swept))
  {
    var r := s.(base := Step(s.base, e), swept := swept);
    StepInv(s.base, e);
    assert RoleInv(s, t);
    OnlySleepersMaySleep(s, t);
    forall u | 0 <= u < |r.base.pcs| ensures !MaySleep(r.base.pcs[u], r.base.number) {
      assert u != t ==> r.base.pcs[u] == s.base.pcs[u];
    }
    NotifyEndInv(s, t, r.base, swept);
  }

  lemma LoadCountStep(s: QueueState, t: nat, e: Event, swept: bool)
    requires QueueInv(s) && t < |s.roles| && e.thread == t && s.base.pcs[t].NotifyCount?
    requires |Step(s.base, e).pcs| == |s.base.pcs|
    requires swept == (s.swept || (NotifyingAll(s.base.pcs[t]) && Step(s.base, e).pcs[t].Held?))
    ensures QueueInv(s.(base := Step(s.base, e), swept := swept))
  {
    assert RoleInv(s, t);
    if s.base.count == 0 {
      SleepersCounted(s.base);
      IdleReturnInv(s, t, e, swept);
    } else {
      StepInv(s.base, e);
      SmoothInv(s, Step(s.base, e));
    }
  }

  lemma LoadOwnerStep(s: QueueState, t: nat, e: Event, swept: bool)
    requires QueueInv(s) && t < |s.roles| && e.thread == t && s.base.pcs[t].NotifyOwner?
    requires |Step(s.base, e).pcs| == |s.base.pcs|
    requires swept == (s.swept || (NotifyingAll(s.base.pcs[t]) && Step(s.base, e).pcs[t].Held?))
    ensures QueueInv(s.(base := Step(s.base, e), swept := swept))
  {
    assert RoleInv(s, t);
    if s.base.owner {
      StepInv(s.base, e);
      SmoothInv(s, Step(s.base, e));
    } else {
      forall u | 0 <= u < |s.base.pcs| ensures !s.base.pcs[u].SleepCond? { assert ThreadInv(s.base, u); }
      IdleReturnInv(s, t, e, swept);
    }
  }

  lemma RousePcs(s: State, t: nat, e: Event)
    requires t < |s.pcs| && e.thread == t && s.pcs[t].NotifyWake? && s.pcs[t].held && CondSleeper(s, e.other)
    ensures var r := Step(s, e);
            && r.number == s.number && |r.pcs| == |s.pcs| && r.pcs[t].Held?
            && (!s.pcs[t].all ==> r.pcs == s.pcs[t := Held][e.other := CvDec])
            && (forall u :: 0 <= u < |s.pcs| && u != t ==>
                  || r.pcs[u] == s.pcs[u]
                  || (s.pcs[u].SleepCond? && (r.pcs[u].CvDec? || r.pcs[u] == Requeued(s.pcs[u].snap))))
            && (s.pcs[t].all ==> NoCondSleeper(r))
  {
  }

  lemma RousedSmooth(pc: Pc<nat>, next: Pc<nat>, number: nat)
    requires pc.SleepCond? && (next.CvDec? || next == Requeued(pc.snap))
    ensures Smooth(Popper(false), pc, next, number)
  {
  }

  lemma RouseSmooth(s: QueueState, t: nat, e: Event)
    requires QueueInv(s) && t < |s.roles| && e.thread == t && s.base.pcs[t].NotifyWake?
    requires CondSleeper(s.base, e.other) && s.base.pcs[t].held
    ensures var base := Step(s.base, e);
            && |base.pcs| == |s.base.pcs| && base.number == s.base.number
            && forall u :: 0 <= u < |base.pcs| && u != t ==>
                 base.pcs[u] == s.base.pcs[u] || Smooth(s.roles[u], s.base.pcs[u], base.pcs[u], base.number)
  {
    var base := Step(s.base, e);
    RousePcs(s.base, t, e);
    forall u: nat | u < |base.pcs| && u != t && base.pcs[u] != s.base.pcs[u]
      ensures Smooth(s.roles[u], s.base.pcs[u], base.pcs[u], base.number)
    {
      assert RoleInv(s, u);
      RousedSmooth(s.base.pcs[u], base.pcs[u], base.number);
    }
  }

  // notify_one hands the duty of the producer to a consumer.
  lemma RouseOneServers(s: QueueState, r: QueueState, t: nat, u: nat)
    requires QueueInv(s) && t < |s.roles| && u < |s.roles| && u != t
    requires s.base.pcs[t].NotifyWake? && s.base.pcs[u].SleepCond?
    requires r.base.pcs == s.base.pcs[t := Held][u := CvDec] && r.roles == s.roles && r.base.number == s.base.number
    ensures QueueShape(r) && Count(Servers(s)) <= Count(Servers(r))
  {
    assert RoleInv(s, u);
    var mid := s.(base := s.base.(pcs := s.base.pcs[t := Held]));
    ServersBut(s, mid, t);
    ServersBut(mid, r, u);
  }

  lemma RouseOneInv(s: QueueState, t: nat, e: Event)
    requires QueueInv(s) && t < |s.roles| && e.thread == t && s.base.pcs[t].NotifyWake? && !s.base.pcs[t].all
    requires CondSleeper(s.base, e.other)
    ensures QueueInv(s.(base := Step(s.base, e)))
  {
    var r := s.(base := Step(s.base, e));
    StepInv(s.base, e);
    assert RoleInv(s, t);
    RousePcs(s.base, t, e);
    RouseSmooth(s, t, e);
    RouseOneServers(s, r, t, e.other);
    assert SomeMaySleep(s) by { assert MaySleep(s.base.pcs[e.other], s.base.number); }
    NotifyEndInv(s, t, r.base, s.swept);
  }

  // notify_all leaves nobody asleep on the condition.
  lemma RouseAllInv(s: QueueState, t: nat, e: Event)
    requires QueueInv(s) && t < |s.roles| && e.thread == t && s.base.pcs[t].NotifyWake? && s.base.pcs[t].all
    requires CondSleeper(s.base, e.other)
    ensures QueueInv(s.(base := Step(s.base, e), swept := true))
  {
    var r := s.(base := Step(s.base, e), swept := true);
    StepInv(s.base, e);
    assert RoleInv(s, t);
    OnlySleepersMaySleep(s, t);
    RousePcs(s.base, t, e);
    RouseSmooth(s, t, e);
    forall u | 0 <= u < |r.base.pcs| ensures !MaySleep(r.base.pcs[u], r.base.number) {
      assert u != t && r.base.pcs[u] != s.base.pcs[u] ==>
          Smooth(s.roles[u], s.base.pcs[u], r.base.pcs[u], r.base.number);
    }
    NotifyEndInv(s, t, r.base, true);
  }

  lemma RouseStep(s: QueueState, t: nat, e: Event, swept: bool)
    requires QueueInv(s) && t < |s.roles| && e.thread == t && s.base.pcs[t].NotifyWake?
    requires |Step(s.base, e).pcs| == |s.base.pcs|
    requires swept == (s.swept || (NotifyingAll(s.base.pcs[t]) && Step(s.base, e).pcs[t].Held?))
    ensures QueueInv(s.(base := Step(s.base, e), swept := swept))
  {
    assert RoleInv(s, t);
    if CondSleeper(s.base, e.other) {
      if s.base.pcs[t].all { RouseAllInv(s, t, e); } else { RouseOneInv(s, t, e); }
    } else if NoCondSleeper(s.base) {
      IdleReturnInv(s, t, e, swept);
    }
  }

  // ---------------------------------------------------------------------------

  lemma InsideInv(s: QueueState, t: nat)
    requires QueueInv(s) && t < |s.roles| && s.base.pcs[t].Held?
    ensures QueueInv(Inside(s, t))
  {
    match s.roles[t]
    case Nobody =>
    case Pusher(v) => LockedPushInv(s, t, v);
    case Popper(_) => LockedPopInv(s, t, true);
    case Taster => LockedPopInv(s, t, false);
    case Closer => SetClosedInv(s, t);
    case Waiter => EnterWaitInv(s, t);
    case Notifier(all) => IncrementInv(s, t, all);
    case Leaver(_) => LeaveInv(s, t);
  }

  lemma QueueStepInv(s: QueueState, o: Order)
    requires QueueInv(s)
    ensures QueueInv(QueueStep(s, o))
  {
    var t := o.thread;
    if t < |s.roles| {
      var pc := s.base.pcs[t];
      if pc.Out? {
        BeginInv(s, t, o.call);
      } else if pc.Held? {
        InsideInv(s, t);
      } else {
        AccessInv(s, o);
      }
    }
  }

  lemma AccessInv(s: QueueState, o: Order)
    requires QueueInv(s) && o.thread < |s.roles|
    requires !s.base.pcs[o.thread].Out? && !s.base.pcs[o.thread].Held?
    ensures QueueInv(QueueStep(s, o))
  {
    var t := o.thread;
    var pc := s.base.pcs[t];
    var e := Event(t, Go(o.call.Proceed? && o.call.flag), o.other);
    var swept := QueueStep(s, o).swept;
    SameThreads(s.base, e);
    if pc.NotifyCount? {
      LoadCountStep(s, t, e, swept);
    } else if pc.NotifyOwner? {
      LoadOwnerStep(s, t, e, swept);
    } else if pc.NotifyWake? {
      RouseStep(s, t, e, swept);
    } else if pc.CvCount? {
      AddCountStep(s, t, e);
    } else if pc.CvSnap? || pc.UnSub? {
      SnapInv(s, t, e);
    } else if pc.CvWait? {
      FallAsleepInv(s, t, e);
    } else {
      PathInv(s, t, e);
    }
  }
}
