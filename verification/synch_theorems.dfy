/** What holds in every run of the futex lock and its condition variable. */
module SynchTheorems {
  import opened Counting
  import opened Synch
  import opened SynchInv

  ghost function Run(s: State, events: seq<Event>): (r: State)
    requires Inv(s)
    ensures Inv(r)
    decreases |events|
  {
    if events == [] then s
    else
      StepInv(s, events[0]);
      Run(Step(s, events[0]), events[1..])
  }

  ghost predicate Reachable(s: State) {
    exists threads: nat, events: seq<Event> :: (InitInv(threads); s == Run(Init(threads), events))
  }

  lemma ReachableInv(s: State)
    requires Reachable(s)
    ensures Inv(s)
  {
    var threads: nat, events: seq<Event> :| (InitInv(threads); s == Run(Init(threads), events));
  }

  // ---------------------------------------------------------------------------
  // The lock

  // At most one thread owns the lock, and the word is nonzero exactly while one does.
  lemma MutualExclusion(s: State)
    requires Reachable(s)
    ensures forall t, u :: 0 <= t < |s.pcs| && 0 <= u < |s.pcs| && s.pcs[t].Owns() && s.pcs[u].Owns() ==> t == u
    ensures s.word != 0 <==> exists t :: 0 <= t < |s.pcs| && s.pcs[t].Owns()
    ensures s.word <= 2
  {
    ReachableInv(s);
    OneOwner(s);
  }

  lemma OneOwner(s: State)
    requires Inv(s)
    ensures forall t, u :: 0 <= t < |s.pcs| && 0 <= u < |s.pcs| && s.pcs[t].Owns() && s.pcs[u].Owns() ==> t == u
    ensures s.word != 0 <==> exists t :: 0 <= t < |s.pcs| && s.pcs[t].Owns()
    ensures s.word <= 2
  {
    forall t: nat | t < |s.pcs| ensures s.pcs[t].Owns() <==> s.holder == By(t) { assert ThreadInv(s, t); }
    if s.word != 0 {
      assert s.pcs[s.holder.thread].Owns();
    }
  }

  // The lock refines an atomic lock: each access leaves the holder alone, lets its own thread
  // take a free lock, or lets the holder set it free.
  lemma AtomicLock(s: State, e: Event)
    requires Reachable(s)
    ensures var r := Step(s, e);
            || r.holder == s.holder
            || (s.holder.Free? && r.holder == By(e.thread))
            || (s.holder == By(e.thread) && r.holder.Free?)
  {
    ReachableInv(s);
    if e.thread < |s.pcs| { assert ThreadInv(s, e.thread); }
  }

  // No stranded sleeper: while a thread sleeps on the lock word, be it from lock() or moved there
  // by notify_all(), another thread is awake that owns the lock with the word at 2, is about to
  // wake a sleeper, or is about to put 2 into the word.
  lemma NoStrandedSleeper(s: State, t: nat) returns (u: nat)
    requires Reachable(s) && t < |s.pcs| && s.pcs[t].SleepsOnLock()
    ensures u < |s.pcs| && ((s.pcs[u].Owns() && s.word == 2) || s.pcs[u].Rouses())
    ensures !s.pcs[u].SleepsOnLock() && !s.pcs[u].SleepCond?
  {
    ReachableInv(s);
    u := Keeper(s, t);
  }

  lemma Keeper(s: State, t: nat) returns (u: nat)
    requires Inv(s) && t < |s.pcs| && s.pcs[t].SleepsOnLock()
    ensures u < |s.pcs| && ((s.pcs[u].Owns() && s.word == 2) || s.pcs[u].Rouses())
    ensures !s.pcs[u].SleepsOnLock() && !s.pcs[u].SleepCond?
  {
    assert Covered(s);
    if s.word == 2 {
      u := s.holder.thread;
      assert ThreadInv(s, u);
    } else {
      u :| 0 <= u < |s.pcs| && s.pcs[u].Rouses();
    }
  }

  // ---------------------------------------------------------------------------
  // The condition variable

  // Once a notify_all() has returned, no thread whose snapshot is older than its increment sleeps
  // on the condition, now or later.
  lemma {:induction false} NotifyAllReachesAll(s: State, events: seq<Event>)
    requires Inv(s) && Timely(s)
    ensures Timely(Run(s, events))
    decreases |events|
  {
    if events != [] {
      StepTimely(s, events[0]);
      StepInv(s, events[0]);
      NotifyAllReachesAll(Step(s, events[0]), events[1..]);
    }
  }

  lemma NotifyAllFromStart(threads: nat, events: seq<Event>)
    ensures Inv(Init(threads)) && Timely(Run(Init(threads), events))
  {
    InitInv(threads);
    NotifyAllReachesAll(Init(threads), events);
  }

  // The count of waiters is exact, so a notifier that finds it zero misses nobody.
  lemma CountExact(s: State)
    requires Reachable(s)
    ensures s.count == Count(CountedMarks(s.pcs)) <= |s.pcs|
    ensures s.count == 0 ==> NoCondSleeper(s)
  {
    ReachableInv(s);
    if s.count == 0 { SleepersCounted(s); }
  }
}
