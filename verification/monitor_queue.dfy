/**
 synch_queue of evenk/synch_queue.h: a sequence and a flag guarded by the futex lock, with
 consumers waiting on its condition variable.  A state is a state of the lock and the condition
 variable, the queue, and for each thread what it will do once it holds the lock.
 */
module MonitorQueue {
  import opened Values
  import opened Counting
  import opened Synch
  import opened QueueSpec

  // What a thread does next under the lock, or has done.
  datatype Role =
    | Nobody
    | Pusher(value: Value)       // locked_push
    | Popper(first: bool)        // locked_pop in wait_pop, for the first time or after a wait
    | Taster                     // locked_pop in try_pop
    | Closer                     // closed_ = true
    | Waiter                     // cond_.wait
    | Notifier(all: bool)        // cond_.notify_one or cond_.notify_all
    | Leaver(result: Result)     // leave with this result

  // `other` is the sleeper that the kernel picks.
  datatype Order = Order(thread: nat, call: Call, other: nat)

  // `taken` and `given` record the values accepted and handed out; `swept` that the notify_all of
  // a close() has returned.
  datatype QueueState = QueueState(
    base: State,
    queue: seq<Value>,
    closed: bool,
    roles: seq<Role>,
    taken: seq<Value>,
    given: seq<Value>,
    swept: bool)

  function QueueInit(threads: nat): QueueState {
    QueueState(Init(threads), [], false, seq(threads, _ => Nobody), [], [], false)
  }

  function Become(s: QueueState, t: nat, role: Role): QueueState
    requires t < |s.roles|
  {
    s.(roles := s.roles[t := role])
  }

  // An access to the lock or the condition variable.
  function Access(s: QueueState, t: nat, action: Action, other: nat): QueueState {
    s.(base := Step(s.base, Event(t, action, other)))
  }

  function LockedPush(s: QueueState, t: nat, v: Value): QueueState
    requires t < |s.roles|
  {
    if s.closed then Become(s, t, Leaver(WasClosed))
    else Become(s, t, Notifier(false)).(queue := s.queue + [v], taken := s.taken + [v])
  }

  // locked_pop; `wait` tells wait_pop from try_pop.
  function LockedPop(s: QueueState, t: nat, wait: bool): QueueState
    requires t < |s.roles|
  {
    if s.queue == [] then
      Become(s, t, if s.closed then Leaver(WasClosed) else if wait then Waiter else Leaver(WasEmpty))
    else Become(s, t, Leaver(Got(s.queue[0]))).(queue := s.queue[1..], given := s.given + [s.queue[0]])
  }

  function Begin(s: QueueState, t: nat, call: Call): QueueState
    requires t < |s.roles|
  {
    match call
    case Push(v) => Access(Become(s, t, Pusher(v)), t, Lock, 0)
    case WaitPop => Access(Become(s, t, Popper(true)), t, Lock, 0)
    case TryPop => Access(Become(s, t, Taster), t, Lock, 0)
    case Close => Access(Become(s, t, Closer), t, Lock, 0)
    case Proceed(_) => s
  }

  // A thread that holds the lock does its part.
  function Inside(s: QueueState, t: nat): QueueState
    requires t < |s.roles|
  {
    match s.roles[t]
    case Nobody => s
    case Pusher(v) => LockedPush(s, t, v)
    case Popper(_) => LockedPop(s, t, true)
    case Taster => LockedPop(s, t, false)
    case Closer => Become(s, t, Notifier(true)).(closed := true)
    case Waiter => Access(Become(s, t, Popper(false)), t, Wait, 0)
    case Notifier(all) =>
      Access(Become(s, t, Leaver(if all then DidClose else Pushed)), t, if all then NotifyAll else NotifyOne, 0)
    case Leaver(_) => Access(s, t, Unlock, 0)
  }

  predicate QueueShape(s: QueueState) { |s.roles| == |s.base.pcs| }

  function QueueStep(s: QueueState, o: Order): (r: QueueState)
    requires QueueShape(s)
    ensures QueueShape(r) && |r.roles| == |s.roles|
  {
    var t := o.thread;
    if t >= |s.roles| then s
    else if s.base.pcs[t].Out? then Begin(s, t, o.call)
    else if s.base.pcs[t].Held? then Inside(s, t)
    else
      var r := Access(s, t, Go(o.call.Proceed? && o.call.flag), o.other);
      r.(swept := s.swept || (NotifyingAll(s.base.pcs[t]) && r.base.pcs[t].Held?))
  }

  predicate NotifyingAll(pc: Pc<nat>) { pc.Notifies() && (pc.NotifyOwner? || pc.all) }

  // ---------------------------------------------------------------------------
  // The invariant

  // Before it sleeps, the thread still has to find the sequence number unchanged.
  predicate InFlight(pc: Pc<nat>) { ((pc.UnStore? || pc.UnWake?) && pc.next.ToWait?) || pc.CvWait? }

  // The thread sleeps on the condition, or will unless a notification comes first.
  predicate MaySleep(pc: Pc<nat>, number: nat) {
    pc.SleepCond? || (InFlight(pc) && pc.Snapshot() == number)
  }

  // A consumer that has been woken, or will find the sequence number changed, and has yet to look
  // at the queue again.
  predicate IsWoken(role: Role, pc: Pc<nat>, number: nat) {
    && role == Popper(false)
    && (pc.CvDec? || pc.Requeued? || pc.SlowXchg? || pc.SlowWait? || pc.SleepLock? || pc.Held? ||
        (InFlight(pc) && pc.Snapshot() != number))
  }

  // A producer that has stored its value and has yet to wake a consumer.
  predicate IsNotifying(role: Role, pc: Pc<nat>) {
    (role == Notifier(false) && pc.Held?) || ((pc.NotifyCount? || pc.NotifyWake?) && !pc.all)
  }

  predicate Serves(role: Role, pc: Pc<nat>, number: nat) {
    IsWoken(role, pc, number) || IsNotifying(role, pc)
  }

  function Servers(s: QueueState): (r: seq<bool>)
    requires QueueShape(s)
    ensures |r| == |s.roles|
    ensures forall t :: 0 <= t < |r| ==> r[t] == Serves(s.roles[t], s.base.pcs[t], s.base.number)
  {
    seq(|s.roles|, (t: nat) requires t < |s.roles| => Serves(s.roles[t], s.base.pcs[t], s.base.number))
  }

  ghost predicate SomeMaySleep(s: QueueState) {
    exists t :: 0 <= t < |s.base.pcs| && MaySleep(s.base.pcs[t], s.base.number)
  }

  predicate Locking(role: Role) { role.Pusher? || role.Popper? || role.Taster? || role.Closer? }

  // Roles and program counters go together.
  predicate RoleFits(role: Role, pc: Pc<nat>) {
    match pc
    case Out => role.Nobody? || role.Leaver?
    case LockCas => Locking(role)
    case SlowFirst => Locking(role)
    case SlowWait => Locking(role)
    case SleepLock => Locking(role)
    case SlowXchg => Locking(role)
    case Held => !role.Nobody?
    case UnStore(next) => if next.ToOut? then role.Leaver? else role == Popper(false)
    case UnWake(next) => if next.ToOut? then role.Leaver? else role == Popper(false)
    case NotifyCount(all, held, _) => held && role == Leaver(if all then DidClose else Pushed)
    case NotifyOwner(held, _) => held && role == Leaver(DidClose)
    case NotifyWake(all, held, _) => held && role == Leaver(if all then DidClose else Pushed)
    case _ => role == Popper(false)
  }

  predicate RoleInv(s: QueueState, t: nat)
    requires QueueShape(s) && t < |s.roles|
  {
    var role := s.roles[t];
    var pc := s.base.pcs[t];
    && RoleFits(role, pc)
    && ((role.Waiter? && pc.Held?) || pc.CvCount? || pc.CvSnap? || pc.UnSub? ==> s.queue == [] && !s.closed)
    && (pc.UnSub? ==> pc.snap == s.base.number)
    && (pc.Notifies() ==> pc.number == s.base.number)
    && (pc.Notifies() ==> forall u :: 0 <= u < |s.base.pcs| && s.base.pcs[u].Snapped() ==>
                            s.base.pcs[u].Snapshot() < s.base.number)
    && (role == Notifier(true) || (pc.Notifies() && role == Leaver(DidClose)) ==> s.closed)
  }

  ghost predicate QueueInv(s: QueueState) {
    && QueueShape(s)
    && Inv(s.base)
    && s.taken == s.given + s.queue
    && (forall t: nat :: t < |s.roles| ==> RoleInv(s, t))
    && (SomeMaySleep(s) ==> |s.queue| <= Count(Servers(s)))
    && (s.swept ==> s.closed && !SomeMaySleep(s))
  }
}
