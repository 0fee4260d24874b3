/**
 futex_lock and futex_cond_var of evenk/synch.h as an object: 32-bit words and the local variables
 of the threads, updated in place.  Each method is one atomic access or system call of one thread.
 The object follows the machine with unbounded notification numbers, kept beside it as a ghost, but
 for the comparison of 32-bit words in futex_wait.
 */
module FutexSynch {
  import opened Bits
  import opened Synch
  import opened SynchInv
  import opened SynchTheorems
  import opened SynchWords

  lemma RunNext(s: State, events: seq<Event>, k: nat)
    requires k < |events|
    ensures WrapRun(s, events[k..]) == WrapRun(WrapStep(s, events[k]), events[k + 1..])
  {
    assert events[k..][0] == events[k] && events[k..][1..] == events[k + 1..];
  }

  // What the system call of a notification makes of the threads.
  lemma RousedPcs(s: State, e: Event, pcs: seq<Pc<u32>>)
    requires e.thread < |s.pcs| == |pcs| && s.pcs[e.thread].NotifyWake? && CondSleeper(s, e.other)
    requires var was := EncodePcs(s.pcs)[e.thread := Back(s.pcs[e.thread].held)];
             forall v :: 0 <= v < |pcs| ==>
               pcs[v] == if v == e.other then CvDec
                         else if s.pcs[e.thread].all && was[v].SleepCond? then Requeued(was[v].snap)
                         else was[v]
    ensures pcs == EncodePcs(Synch.Step(s, e).pcs)
    ensures Synch.Step(s, e).(pcs := [], done := 0) == s.(pcs := [], done := 0)
  {
    var next := Synch.Step(s, e).pcs;
    assert |next| == |pcs|;
    forall v | 0 <= v < |pcs| ensures pcs[v] == EncodePc(next[v]) { }
  }

  lemma RousedNobody(s: State, e: Event)
    requires e.thread < |s.pcs| && s.pcs[e.thread].NotifyWake? && NoCondSleeper(s)
    ensures EncodePcs(s.pcs)[e.thread := Back(s.pcs[e.thread].held)] == EncodePcs(Synch.Step(s, e).pcs)
    ensures Synch.Step(s, e).(pcs := [], done := 0) == s.(pcs := [], done := 0)
  {
  }

  // What the system call of unlock() makes of them.
  lemma WokenPcs(s: State, e: Event)
    requires e.thread < |s.pcs| && s.pcs[e.thread].UnWake?
    ensures var was := EncodePcs(s.pcs);
            var on := was[e.thread := Resume(was[e.thread].next)];
            EncodePcs(Synch.Step(s, e).pcs) ==
            if LockSleeper(s, e.other) then on[e.other := Woken(was[e.other])]
            else if NoLockSleeper(s) then on
            else was
    ensures Synch.Step(s, e).(pcs := []) == s.(pcs := [])
  {
    EncodeMove(s.pcs, e.thread, Resume(s.pcs[e.thread].next));
    if LockSleeper(s, e.other) {
      EncodeMove(s.pcs[e.thread := Resume(s.pcs[e.thread].next)], e.other, Woken(s.pcs[e.other]));
    }
  }

  class Monitor {
    var lockWord: u32
    var sequence: u32
    var count: u32
    var owner: bool
    var pcs: seq<Pc<u32>>
    ghost var model: State

    ghost predicate Valid()
      reads this
    {
      && lockWord == model.word
      && sequence == model.number % WORD
      && count == model.count
      && owner == model.owner
      && pcs == EncodePcs(model.pcs)
    }

    constructor (threads: nat)
      ensures Valid() && model == Init(threads)
    {
      lockWord, sequence, count, owner := 0, 0, 0, false;
      pcs := seq(threads, _ => Out);
      model := Init(threads);
    }

    // Thread e.thread goes on at pc, and the model makes the access.
    method Goto(e: Event, pc: Pc<u32>)
      requires e.thread < |pcs| && pcs == EncodePcs(model.pcs)
      requires !pcs[e.thread].UnWake? && !pcs[e.thread].NotifyWake?
      requires e.thread < |Synch.Step(model, e).pcs| && pc == EncodePc(Synch.Step(model, e).pcs[e.thread])
      modifies `pcs, `model
      ensures pcs == EncodePcs(model.pcs) && model == Synch.Step(old(model), e)
    {
      OneMoves(model, e);
      EncodeMove(model.pcs, e.thread, Synch.Step(model, e).pcs[e.thread]);
      pcs := pcs[e.thread := pc];
      model := Synch.Step(model, e);
    }

    // lock(): futex_.compare_exchange(0, 1), and the choice of the backoff policy
    method CasLock(e: Event)
      requires Valid() && e.thread < |pcs| && pcs[e.thread].LockCas?
      modifies this
      ensures Valid() && model == Synch.Step(old(model), e)
    {
      var t := e.thread;
      var value := lockWord;
      if value == 0 {
        lockWord := 1;
        Goto(e, Held);
      } else if e.action.Go? && e.action.flag {
        Goto(e, if value == 2 then SlowWait else SlowFirst);
      } else {
        Goto(e, LockCas);
      }
    }

    // try_lock()
    method TryLock(e: Event)
      requires Valid() && e.thread < |pcs| && pcs[e.thread].Out? && e.action.TryLock?
      modifies this
      ensures Valid() && model == Synch.Step(old(model), e)
    {
      if lockWord == 0 {
        lockWord := 1;
        Goto(e, Held);
      }
    }

    // futex_.exchange(2)
    method Exchange(e: Event)
      requires Valid() && e.thread < |pcs| && (pcs[e.thread].SlowFirst? || pcs[e.thread].SlowXchg?)
      modifies this
      ensures Valid() && model == Synch.Step(old(model), e)
    {
      var was := lockWord;
      lockWord := 2;
      Goto(e, if was != 0 then SlowWait else Held);
    }

    // futex_wait(futex_, 2)
    method WaitLock(e: Event)
      requires Valid() && e.thread < |pcs| && pcs[e.thread].SlowWait?
      modifies this
      ensures Valid() && model == Synch.Step(old(model), e)
    {
      Goto(e, if lockWord == 2 then SleepLock else SlowXchg);
    }

    // unlock(): futex_.fetch_sub(1), called by unlock() or by wait()
    method Decrement(e: Event)
      requires Valid() && e.thread < |pcs|
      requires pcs[e.thread].UnSub? || (pcs[e.thread].Held? && e.action.Unlock?)
      modifies this
      ensures Valid() && model == Synch.Step(old(model), e)
    {
      var t := e.thread;
      var cont := if pcs[t].UnSub? then ToWait(pcs[t].snap) else ToOut;
      var was := lockWord;
      lockWord := (lockWord - 1) % WORD;
      if was != 1 {
        Goto(e, UnStore(cont));
      } else {
        Goto(e, Resume(cont));
      }
    }

    // unlock(): futex_.store(0)
    method StoreZero(e: Event)
      requires Valid() && e.thread < |pcs| && pcs[e.thread].UnStore?
      modifies this
      ensures Valid() && model == Synch.Step(old(model), e)
    {
      lockWord := 0;
      Goto(e, UnWake(pcs[e.thread].next));
    }

    // unlock(): futex_wake(futex_, 1); the kernel picks e.other if it sleeps on the lock word
    method WakeLock(e: Event)
      requires Valid() && e.thread < |pcs| && pcs[e.thread].UnWake?
      modifies this
      ensures Valid() && model == Synch.Step(old(model), e)
    {
      var t, u := e.thread, e.other;
      var sleeper := SomeLockSleeper();
      if u < |pcs| && pcs[u].SleepsOnLock() {
        pcs := pcs[t := Resume(pcs[t].next)][u := Woken(pcs[u])];
      } else if !sleeper {
        pcs := pcs[t := Resume(pcs[t].next)];
      }
      WokenPcs(model, e);
      model := Synch.Step(model, e);
    }

    method SomeLockSleeper() returns (found: bool)
      requires Valid()
      ensures found <==> !NoLockSleeper(model)
    {
      found := false;
      var u := 0;
      while u < |pcs|
        invariant 0 <= u <= |pcs|
        invariant found <==> exists w :: 0 <= w < u && model.pcs[w].SleepsOnLock()
      {
        if pcs[u].SleepsOnLock() {
          found := true;
        }
        u := u + 1;
      }
    }

    method SomeCondSleeper() returns (found: bool)
      requires Valid()
      ensures found <==> !NoCondSleeper(model)
    {
      found := false;
      var u := 0;
      while u < |pcs|
        invariant 0 <= u <= |pcs|
        invariant found <==> exists w :: 0 <= w < u && model.pcs[w].SleepCond?
      {
        if pcs[u].SleepCond? {
          found := true;
        }
        u := u + 1;
      }
    }

    // wait(): owner_.store(owner)
    method StoreOwner(e: Event)
      requires Valid() && e.thread < |pcs| && pcs[e.thread].Held? && e.action.Wait?
      modifies this
      ensures Valid() && model == Synch.Step(old(model), e)
    {
      owner := true;
      Goto(e, CvCount);
    }

    // wait(): count_.fetch_add(1)
    method AddCount(e: Event)
      requires Valid() && e.thread < |pcs| && pcs[e.thread].CvCount? && Inv(model) && |pcs| < WORD
      modifies this
      ensures Valid() && model == Synch.Step(old(model), e)
    {
      StepInv(model, e);
      count := count + 1;
      Goto(e, CvSnap);
    }

    // wait(): futex_.load()
    method LoadSequence(e: Event)
      requires Valid() && e.thread < |pcs| && pcs[e.thread].CvSnap?
      modifies this
      ensures Valid() && model == Synch.Step(old(model), e)
    {
      Goto(e, UnSub(sequence));
    }

    // wait(): futex_wait(futex_, value)
    method WaitCond(e: Event)
      requires Valid() && e.thread < |pcs| && pcs[e.thread].CvWait?
      modifies this
      ensures Valid() && model == WrapStep(old(model), e)
    {
      var t := e.thread;
      var value := pcs[t].snap;
      EncodeMove(model.pcs, t, WrapStep(model, e).pcs[t]);
      pcs := pcs[t := if sequence == value then SleepCond(value) else CvDec];
      model := WrapStep(model, e);
    }

    // A signal ends a futex_wait early.
    method Interrupt(e: Event)
      requires Valid() && e.thread < |pcs|
      requires pcs[e.thread].SleepLock? || pcs[e.thread].SleepCond? || pcs[e.thread].Requeued?
      modifies this
      ensures Valid() && model == Synch.Step(old(model), e)
    {
      Goto(e, if pcs[e.thread].SleepLock? then SlowXchg else CvDec);
    }

    // wait(): count_.fetch_sub(1)
    method SubCount(e: Event)
      requires Valid() && e.thread < |pcs| && pcs[e.thread].CvDec?
      modifies this
      ensures Valid() && model == Synch.Step(old(model), e)
    {
      count := (count - 1) % WORD;
      Goto(e, SlowXchg);
    }

    // notify_one(), notify_all(): futex_.fetch_add(1)
    method Increment(e: Event)
      requires Valid() && e.thread < |pcs| && (pcs[e.thread].Held? || pcs[e.thread].Out?)
      requires e.action.NotifyOne? || e.action.NotifyAll?
      modifies this
      ensures Valid() && model == Synch.Step(old(model), e)
    {
      sequence := (sequence + 1) % WORD;
      Goto(e, NotifyCount(e.action.NotifyAll?, pcs[e.thread].Held?, 0));
    }

    // count_.load()
    method LoadCount(e: Event)
      requires Valid() && e.thread < |pcs| && pcs[e.thread].NotifyCount?
      modifies this
      ensures Valid() && model == Synch.Step(old(model), e)
    {
      var NotifyCount(all, held, _) := pcs[e.thread];
      if count != 0 {
        Goto(e, if all then NotifyOwner(held, 0) else NotifyWake(false, held, 0));
      } else {
        Goto(e, Back(held));
      }
    }

    // notify_all(): owner_.load()
    method LoadOwner(e: Event)
      requires Valid() && e.thread < |pcs| && pcs[e.thread].NotifyOwner?
      modifies this
      ensures Valid() && model == Synch.Step(old(model), e)
    {
      var held := pcs[e.thread].held;
      Goto(e, if owner then NotifyWake(true, held, 0) else Back(held));
    }

    // notify_one(): futex_wake(futex_, 1); notify_all(): futex_requeue(futex_, 1, max, owner).  The
    // kernel wakes e.other if it sleeps on the condition.
    method Rouse(e: Event)
      requires Valid() && e.thread < |pcs| && pcs[e.thread].NotifyWake?
      modifies this
      ensures Valid() && model == Synch.Step(old(model), e)
    {
      var t, u := e.thread, e.other;
      var NotifyWake(all, held, _) := pcs[t];
      var sleeper := SomeCondSleeper();
      if u < |pcs| && pcs[u].SleepCond? {
        pcs := pcs[t := Back(held)];
        MoveSleepers(u, all);
        RousedPcs(model, e, pcs);
      } else if !sleeper {
        pcs := pcs[t := Back(held)];
        RousedNobody(model, e);
      }
      model := Synch.Step(model, e);
    }

    // Sleeper u wakes up; with `all` the others go to sleep on the lock word.
    method MoveSleepers(u: nat, all: bool)
      requires u < |pcs|
      modifies `pcs
      ensures |pcs| == old(|pcs|)
      ensures forall v :: 0 <= v < |pcs| ==>
                pcs[v] == if v == u then CvDec
                          else if all && old(pcs)[v].SleepCond? then Requeued(old(pcs)[v].snap)
                          else old(pcs)[v]
    {
      ghost var was := pcs;
      var w := 0;
      while w < |pcs|
        invariant 0 <= w <= |pcs| == |was|
        invariant forall v :: 0 <= v < w ==>
          pcs[v] == if v == u then CvDec else if all && was[v].SleepCond? then Requeued(was[v].snap) else was[v]
        invariant forall v :: w <= v < |pcs| ==> pcs[v] == was[v]
      {
        if w == u {
          pcs := pcs[w := CvDec];
        } else if all && pcs[w].SleepCond? {
          pcs := pcs[w := Requeued(pcs[w].snap)];
        }
        w := w + 1;
      }
    }

    // Thread e.thread makes its next access.
    method Step(e: Event)
      requires Valid() && Inv(model) && |pcs| < WORD
      modifies this
      ensures Valid() && Inv(model) && model == WrapStep(old(model), e)
      ensures old(Window(model, e.thread)) ==> model == Synch.Step(old(model), e)
      ensures |pcs| == old(|pcs|)
    {
      WrapInv(model, e);
      if Window(model, e.thread) { WrapIsStep(model, e); }
      var t := e.thread;
      if t < |pcs| {
        match pcs[t]
        case Out => Call(e);
        case Held => Call(e);
        case LockCas => CasLock(e);
        case SlowFirst => Exchange(e);
        case SlowWait => WaitLock(e);
        case SleepLock => Interrupt(e);
        case SlowXchg => Exchange(e);
        case UnSub(_) => Decrement(e);
        case UnStore(_) => StoreZero(e);
        case UnWake(_) => WakeLock(e);
        case CvCount => AddCount(e);
        case CvSnap => LoadSequence(e);
        case CvWait(_) => WaitCond(e);
        case SleepCond(_) => Interrupt(e);
        case Requeued(_) => Interrupt(e);
        case CvDec => SubCount(e);
        case NotifyCount(_, _, _) => LoadCount(e);
        case NotifyOwner(_, _) => LoadOwner(e);
        case NotifyWake(_, _, _) => Rouse(e);
      }
    }

    // A thread outside the library starts an operation.
    method Call(e: Event)
      requires Valid() && e.thread < |pcs| && (pcs[e.thread].Out? || pcs[e.thread].Held?)
      modifies this
      ensures Valid() && model == Synch.Step(old(model), e)
    {
      var t := e.thread;
      if e.action.NotifyOne? || e.action.NotifyAll? {
        Increment(e);
      } else if pcs[t].Out? {
        if e.action.Lock? {
          Goto(e, LockCas);
        } else if e.action.TryLock? {
          TryLock(e);
        }
      } else if e.action.Unlock? {
        Decrement(e);
      } else if e.action.Wait? {
        StoreOwner(e);
      }
    }

    // Any schedule of accesses.
    method Run(events: seq<Event>)
      requires Valid() && Inv(model) && |pcs| < WORD
      modifies this
      ensures Valid() && Inv(model) && model == WrapRun(old(model), events)
      ensures |pcs| == old(|pcs|)
    {
      var k := 0;
      assert events[0..] == events;
      while k < |events|
        invariant 0 <= k <= |events|
        invariant Valid() && Inv(model) && |pcs| == old(|pcs|)
        invariant WrapRun(model, events[k..]) == WrapRun(old(model), events)
      {
        RunNext(model, events, k);
        Step(events[k]);
        k := k + 1;
      }
    }
  }

  // Thread u is awake and will see to the sleepers of the lock word: it owns the lock with the word
  // at 2, or will wake a sleeper or put 2 into the word.
  predicate Keeper(word: u32, pcs: seq<Pc<u32>>, u: nat) {
    && u < |pcs| && !pcs[u].SleepsOnLock() && !pcs[u].SleepCond?
    && ((pcs[u].Owns() && word == 2) || pcs[u].Rouses())
  }

  // At most one thread owns the lock, the word tells whether one does, and no sleeper of the lock
  // word is stranded.
  ghost predicate Sound(word: u32, pcs: seq<Pc<u32>>) {
    && (forall t, u :: 0 <= t < |pcs| && 0 <= u < |pcs| && pcs[t].Owns() && pcs[u].Owns() ==> t == u)
    && (word != 0 <==> exists t :: 0 <= t < |pcs| && pcs[t].Owns())
    && (forall t :: 0 <= t < |pcs| && pcs[t].SleepsOnLock() ==> exists u :: Keeper(word, pcs, u))
  }

  lemma SameKind(pc: Pc<nat>)
    ensures var p := EncodePc(pc);
            && p.Owns() == pc.Owns() && p.Rouses() == pc.Rouses()
            && p.SleepsOnLock() == pc.SleepsOnLock() && p.SleepCond? == pc.SleepCond?
  {
  }

  lemma SoundWords(s: State, pcs: seq<Pc<u32>>)
    requires Inv(s) && pcs == EncodePcs(s.pcs)
    ensures s.word <= 2 && Sound(s.word, pcs)
  {
    OneOwner(s);
    forall t: nat | t < |pcs| ensures pcs[t].Owns() == s.pcs[t].Owns() { SameKind(s.pcs[t]); }
    forall t: nat | t < |pcs| && pcs[t].SleepsOnLock() ensures exists u :: Keeper(s.word, pcs, u) {
      SameKind(s.pcs[t]);
      var u := SynchTheorems.Keeper(s, t);
      SameKind(s.pcs[u]);
      assert Keeper(s.word, pcs, u);
    }
    if s.word != 0 {
      var t :| 0 <= t < |s.pcs| && s.pcs[t].Owns();
      assert pcs[t].Owns();
    }
  }

  // Any schedule leaves the object in such a state; within the window, nobody is asleep on the
  // condition behind a notify_all() that has returned.
  method CreateAndRun(threads: nat, events: seq<Event>) returns (monitor: Monitor)
    requires threads < WORD
    ensures fresh(monitor) && |monitor.pcs| == threads
    ensures Sound(monitor.lockWord, monitor.pcs)
    ensures monitor.Valid() && monitor.model == WrapRun(Init(threads), events)
    ensures WindowAll(Init(threads), events) ==> Timely(monitor.model)
  {
    InitInv(threads);
    monitor := new Monitor(threads);
    monitor.Run(events);
    SoundWords(monitor.model, monitor.pcs);
    if WindowAll(Init(threads), events) {
      WrapRunIsRun(Init(threads), events);
      NotifyAllFromStart(threads, events);
    }
  }
}
