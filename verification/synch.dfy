/**
 futex_lock and futex_cond_var of evenk/synch.h: a three-state lock word, a sequence word for the
 condition, and the threads asleep on either of them.
 */
module Synch {
  import opened Bits
  import opened Counting

  // Where unlock() returns to: to its caller, or into the wait of the condition variable.
  datatype Cont<S> = ToOut | ToWait(snap: S)

  // Program counters, named after the access the thread makes next.
  //   LockCas                    lock(), the compare-exchange from 0 to 1
  //   SlowFirst, SlowXchg        the exchanges that put 2
  //   SlowWait, SleepLock        futex_wait on the lock word, and asleep in it
  //   Held                       owns the lock, outside the library
  //   UnSub, UnStore, UnWake     the fetch_sub, store and futex_wake of unlock()
  //   CvCount, CvSnap, CvWait    wait(): the fetch_add of count_, the load and futex_wait of futex_
  //   SleepCond, Requeued        asleep on the condition, or moved to the lock word by notify_all
  //   CvDec                      the fetch_sub of count_ after waking up
  //   NotifyCount, NotifyOwner, NotifyWake   notify_one() and notify_all() after their increment
  datatype Pc<S> =
    | Out
    | LockCas
    | SlowFirst
    | SlowWait
    | SleepLock
    | SlowXchg
    | Held
    | UnSub(snap: S)
    | UnStore(next: Cont<S>)
    | UnWake(next: Cont<S>)
    | CvCount
    | CvSnap
    | CvWait(snap: S)
    | SleepCond(snap: S)
    | Requeued(snap: S)
    | CvDec
    | NotifyCount(all: bool, held: bool, number: S)
    | NotifyOwner(held: bool, number: S)
    | NotifyWake(all: bool, held: bool, number: S)
  {
    predicate Notifies() { NotifyCount? || NotifyOwner? || NotifyWake? }

    // The thread owns the lock or is about to set it free.
    predicate Owns() { Held? || UnSub? || UnStore? || CvCount? || CvSnap? || (Notifies() && held) }

    predicate SleepsOnLock() { SleepLock? || Requeued? }

    // The thread will wake a sleeper of the lock word or put 2 into it.
    predicate Rouses() { UnStore? || UnWake? || SlowXchg? || CvDec? }

    // The thread is counted in count_.
    predicate Counted() {
      CvSnap? || UnSub? || ((UnStore? || UnWake?) && next.ToWait?) || CvWait? || SleepCond? || Requeued? || CvDec?
    }

    // The thread has taken a snapshot of the sequence word.
    predicate Snapped() {
      UnSub? || ((UnStore? || UnWake?) && next.ToWait?) || CvWait? || SleepCond? || Requeued?
    }

    function Snapshot(): S
      requires Snapped()
    {
      if UnStore? || UnWake? then next.snap else snap
    }
  }

  datatype Holder = Free | By(thread: nat)

  // The words word, number (futex_ of the condition), count and owner; `holder` and `done` are
  // history: who owns the lock, and the number of the latest notify_all that has returned.
  datatype State = State(
    word: nat,
    number: nat,
    count: nat,
    owner: bool,
    pcs: seq<Pc<nat>>,
    holder: Holder,
    done: nat)

  datatype Action = Lock | TryLock | Unlock | Wait | NotifyOne | NotifyAll | Go(flag: bool)

  // `other` is the sleeper that the kernel picks when the access wakes one.
  datatype Event = Event(thread: nat, action: Action, other: nat)

  function Init(threads: nat): State {
    State(0, 0, 0, false, seq(threads, _ => Out), Free, 0)
  }

  function Goto(s: State, t: nat, pc: Pc<nat>): State
    requires t < |s.pcs|
  {
    s.(pcs := s.pcs[t := pc])
  }

  // ---------------------------------------------------------------------------
  // The lock

  function Acquire(s: State, t: nat, word: nat): State
    requires t < |s.pcs|
  {
    Goto(s, t, Held).(word := word, holder := By(t))
  }

  // compare_exchange(0, 1); the backoff policy decides whether to try again or to sleep.
  function CasLock(s: State, t: nat, giveUp: bool): State
    requires t < |s.pcs|
  {
    if s.word == 0 then Acquire(s, t, 1)
    else if !giveUp then Goto(s, t, LockCas)
    else Goto(s, t, if s.word == 2 then SlowWait else SlowFirst)
  }

  // exchange(2)
  function Exchange(s: State, t: nat): State
    requires t < |s.pcs|
  {
    if s.word == 0 then Acquire(s, t, 2) else Goto(s, t, SlowWait).(word := 2)
  }

  function Resume<S>(next: Cont<S>): Pc<S> {
    match next case ToOut => Out case ToWait(v) => CvWait(v)
  }

  // fetch_sub(1)
  function Decrement(s: State, t: nat, next: Cont<nat>): State
    requires t < |s.pcs|
  {
    if s.word == 1 then Goto(s, t, Resume(next)).(word := 0, holder := Free)
    else Goto(s, t, UnStore(next)).(word := if s.word == 0 then WORD - 1 else s.word - 1)
  }

  function StoreZero(s: State, t: nat): State
    requires t < |s.pcs| && s.pcs[t].UnStore?
  {
    Goto(s, t, UnWake(s.pcs[t].next)).(word := 0, holder := Free)
  }

  predicate LockSleeper(s: State, u: nat) { u < |s.pcs| && s.pcs[u].SleepsOnLock() }

  predicate NoLockSleeper(s: State) { forall u :: 0 <= u < |s.pcs| ==> !s.pcs[u].SleepsOnLock() }

  // A sleeper of the lock word goes on: in lock() or in wait().
  function Woken<S>(pc: Pc<S>): Pc<S> { if pc.SleepLock? then SlowXchg else CvDec }

  // futex_wake(1): one sleeper, if there is any.
  function WakeLock(s: State, t: nat, u: nat): State
    requires t < |s.pcs| && s.pcs[t].UnWake?
  {
    if LockSleeper(s, u) then s.(pcs := s.pcs[t := Resume(s.pcs[t].next)][u := Woken(s.pcs[u])])
    else if NoLockSleeper(s) then Goto(s, t, Resume(s.pcs[t].next))
    else s
  }

  // ---------------------------------------------------------------------------
  // The condition variable

  function BeginWait(s: State, t: nat): State
    requires t < |s.pcs|
  {
    Goto(s, t, CvCount).(owner := true)
  }

  // futex_wait: to sleep if no notification has come since the snapshot
  function WaitCond(s: State, t: nat): State
    requires t < |s.pcs| && s.pcs[t].CvWait?
  {
    var v := s.pcs[t].snap;
    Goto(s, t, if s.number == v then SleepCond(v) else CvDec)
  }

  function BeginNotify(s: State, t: nat, all: bool, held: bool): State
    requires t < |s.pcs|
  {
    Goto(s, t, NotifyCount(all, held, s.number + 1)).(number := s.number + 1)
  }

  function Back<S>(held: bool): Pc<S> { if held then Held else Out }

  function Max(a: nat, b: nat): nat { if a < b then b else a }

  // notify_one() or notify_all() returns.
  function Return(s: State, t: nat): State
    requires t < |s.pcs| && s.pcs[t].Notifies()
  {
    var pc := s.pcs[t];
    Goto(s, t, Back(pc.held)).(done := if pc.NotifyOwner? || pc.all then Max(s.done, pc.number) else s.done)
  }

  function LoadCount(s: State, t: nat): State
    requires t < |s.pcs| && s.pcs[t].NotifyCount?
  {
    var NotifyCount(all, held, k) := s.pcs[t];
    if s.count == 0 then Return(s, t)
    else Goto(s, t, if all then NotifyOwner(held, k) else NotifyWake(false, held, k))
  }

  function LoadOwner(s: State, t: nat): State
    requires t < |s.pcs| && s.pcs[t].NotifyOwner?
  {
    if s.owner then Goto(s, t, NotifyWake(true, s.pcs[t].held, s.pcs[t].number)) else Return(s, t)
  }

  predicate CondSleeper(s: State, u: nat) { u < |s.pcs| && s.pcs[u].SleepCond? }

  predicate NoCondSleeper(s: State) { forall u :: 0 <= u < |s.pcs| ==> !s.pcs[u].SleepCond? }

  // futex_wake(1) or futex_requeue(1, max): sleeper u goes on; for notify_all the others move to
  // the lock word.
  function Rouse(s: State, t: nat, u: nat): State
    requires t < |s.pcs| && s.pcs[t].NotifyWake?
  {
    var all := s.pcs[t].all;
    if CondSleeper(s, u) then
      var r := Return(s, t);
      r.(pcs := seq(|r.pcs|, (w: nat) requires w < |r.pcs| =>
           if w == u then CvDec
           else if all && r.pcs[w].SleepCond? then Requeued(r.pcs[w].snap)
           else r.pcs[w]))
    else if NoCondSleeper(s) then Return(s, t)
    else s
  }

  // ---------------------------------------------------------------------------

  function Step(s: State, e: Event): (r: State)
    ensures |r.pcs| == |s.pcs|
  {
    var t := e.thread;
    if t >= |s.pcs| then s else
    match s.pcs[t]
    case Out =>
      (match e.action
       case Lock => Goto(s, t, LockCas)
       case TryLock => if s.word == 0 then Acquire(s, t, 1) else s
       case NotifyOne => BeginNotify(s, t, false, false)
       case NotifyAll => BeginNotify(s, t, true, false)
       case _ => s)
    case Held =>
      (match e.action
       case Unlock => Decrement(s, t, ToOut)
       case Wait => BeginWait(s, t)
       case NotifyOne => BeginNotify(s, t, false, true)
       case NotifyAll => BeginNotify(s, t, true, true)
       case _ => s)
    case LockCas => CasLock(s, t, e.action.Go? && e.action.flag)
    case SlowFirst => Exchange(s, t)
    case SlowWait => Goto(s, t, if s.word == 2 then SleepLock else SlowXchg)
    case SleepLock => Goto(s, t, SlowXchg)
    case SlowXchg => Exchange(s, t)
    case UnSub(v) => Decrement(s, t, ToWait(v))
    case UnStore(_) => StoreZero(s, t)
    case UnWake(_) => WakeLock(s, t, e.other)
    case CvCount => Goto(s, t, CvSnap).(count := s.count + 1)
    case CvSnap => Goto(s, t, UnSub(s.number))
    case CvWait(_) => WaitCond(s, t)
    case SleepCond(_) => Goto(s, t, CvDec)
    case Requeued(_) => Goto(s, t, CvDec)
    case CvDec => Goto(s, t, SlowXchg).(count := if s.count == 0 then WORD - 1 else s.count - 1)
    case NotifyCount(_, _, _) => LoadCount(s, t)
    case NotifyOwner(_, _) => LoadOwner(s, t)
    case NotifyWake(_, _, _) => Rouse(s, t, e.other)
  }

  // ---------------------------------------------------------------------------
  // The invariant

  function CountedMarks(pcs: seq<Pc<nat>>): (r: seq<bool>)
    ensures |r| == |pcs| && forall t :: 0 <= t < |r| ==> r[t] == pcs[t].Counted()
  {
    seq(|pcs|, (t: nat) requires t < |pcs| => pcs[t].Counted())
  }

  ghost predicate Covered(s: State) {
    s.word == 2 || exists u :: 0 <= u < |s.pcs| && s.pcs[u].Rouses()
  }

  predicate ThreadInv(s: State, t: nat)
    requires t < |s.pcs|
  {
    var pc := s.pcs[t];
    && (pc.Owns() <==> s.holder == By(t))
    && (pc.Counted() || pc.CvCount? ==> s.owner)
    && (pc.Snapped() ==> pc.Snapshot() <= s.number)
    && (pc.Notifies() ==> pc.number <= s.number)
  }

  ghost predicate Inv(s: State) {
    && s.word <= 2
    && (s.word == 0 <==> s.holder.Free?)
    && (s.holder.By? ==> s.holder.thread < |s.pcs|)
    && s.done <= s.number
    && s.count == Count(CountedMarks(s.pcs))
    && (!NoLockSleeper(s) ==> Covered(s))
    && (forall t: nat :: t < |s.pcs| ==> ThreadInv(s, t))
  }

  // Nobody sleeps on the condition with a snapshot older than a notify_all that has returned.
  predicate Timely(s: State) {
    forall t :: 0 <= t < |s.pcs| && s.pcs[t].SleepCond? ==> s.done <= s.pcs[t].snap
  }
}
