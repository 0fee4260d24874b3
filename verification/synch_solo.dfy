/**
 What the operations of the futex lock and the condition variable do by themselves: exactly when a
 thread gets the lock, how it falls asleep otherwise, and who is woken.
 */
module SynchSolo {
  import opened Synch
  import opened SynchInv
  import opened SynchTheorems

  function Act(t: nat, action: Action): Event { Event(t, action, 0) }

  function Access(t: nat, flag: bool): Event { Event(t, Go(flag), 0) }

  lemma First(s: State, e: Event, rest: seq<Event>)
    requires Inv(s)
    ensures Inv(Step(s, e)) && Run(s, [e] + rest) == Run(Step(s, e), rest)
  {
    StepInv(s, e);
    assert ([e] + rest)[1..] == rest;
  }

  lemma Two(s: State, a: Event, b: Event) returns (r: State)
    requires Inv(s)
    ensures Inv(Step(s, a)) && Inv(r) && r == Step(Step(s, a), b) == Run(s, [a, b])
  {
    assert [a, b] == [a] + ([b] + []);
    First(s, a, [b] + []);
    First(Step(s, a), b, []);
    r := Step(Step(s, a), b);
  }

  // ---------------------------------------------------------------------------
  // The lock

  // try_lock() takes the lock exactly when nobody owns it.
  lemma TryLockExactly(s: State, t: nat)
    requires Inv(s) && t < |s.pcs| && s.pcs[t].Out?
    ensures var r := Step(s, Act(t, TryLock));
            if s.holder.Free? then r.pcs[t].Held? && r.holder == By(t) else r == s
  {
  }

  // lock() on a free lock.
  lemma LockFree(s: State, t: nat) returns (r: State)
    requires Inv(s) && t < |s.pcs| && s.pcs[t].Out? && s.holder.Free?
    ensures r == Run(s, [Act(t, Lock), Access(t, true)])
    ensures r == s.(word := 1, holder := By(t), pcs := s.pcs[t := Held])
  {
    r := Two(s, Act(t, Lock), Access(t, true));
  }

  // lock() on a lock that somebody owns: the thread puts 2 into the word and falls asleep on it.
  lemma LockSleeps(s: State, t: nat) returns (m: State, r: State)
    requires Inv(s) && t < |s.pcs| && s.pcs[t].Out? && s.holder.By? && s.word == 1
    ensures m == Run(s, [Act(t, Lock), Access(t, true)]) && Inv(m)
    ensures r == Run(m, [Access(t, true), Access(t, true)])
    ensures r == s.(word := 2, pcs := s.pcs[t := SleepLock])
  {
    m := Two(s, Act(t, Lock), Access(t, true));
    r := Two(m, Access(t, true), Access(t, true));
  }

  // unlock() of an uncontended lock.
  lemma UnlockFree(s: State, t: nat)
    requires Inv(s) && t < |s.pcs| && s.pcs[t].Held? && s.word == 1
    ensures Step(s, Act(t, Unlock)) == s.(word := 0, holder := Free, pcs := s.pcs[t := Out])
  {
  }

  // lock() on a lock that others wait for as well.
  lemma LockSleepsToo(s: State, t: nat) returns (m: State)
    requires Inv(s) && t < |s.pcs| && s.pcs[t].Out? && s.word == 2
    ensures m == Run(s, [Act(t, Lock), Access(t, true)]) && Inv(m)
    ensures Step(m, Access(t, true)) == s.(pcs := s.pcs[t := SleepLock])
  {
    m := Two(s, Act(t, Lock), Access(t, true));
  }

  // unlock() with sleepers: it frees the lock and wakes the one that the kernel picks, which then
  // takes the lock by itself.
  lemma UnlockHandsOver(s: State, t: nat, u: nat) returns (m: State, r: State)
    requires Inv(s) && t < |s.pcs| && s.pcs[t].Held? && s.word == 2
    requires u < |s.pcs| && s.pcs[u].SleepLock?
    ensures m == Run(s, [Act(t, Unlock), Access(t, true)]) && Inv(m)
    ensures r == Run(m, [Event(t, Go(true), u), Access(u, true)])
    ensures r == s.(holder := By(u), pcs := s.pcs[t := Out][u := Held])
  {
    m := Two(s, Act(t, Unlock), Access(t, true));
    r := Two(m, Event(t, Go(true), u), Access(u, true));
  }

  // ---------------------------------------------------------------------------
  // The condition variable

  // wait() gives the lock up and falls asleep if no notification comes in between.
  lemma WaitSleeps(s: State, t: nat) returns (m: State, n: State)
    requires Inv(s) && t < |s.pcs| && s.pcs[t].Held? && s.word == 1
    ensures m == Run(s, [Act(t, Wait), Access(t, true)]) && Inv(m)
    ensures n == Run(m, [Access(t, true), Access(t, true)]) && Inv(n)
    ensures Step(n, Access(t, true)) ==
            s.(owner := true, count := s.count + 1, word := 0, holder := Free, pcs := s.pcs[t := SleepCond(s.number)])
  {
    m := Two(s, Act(t, Wait), Access(t, true));
    assert m == s.(owner := true, count := s.count + 1, pcs := s.pcs[t := CvSnap]);
    n := Two(m, Access(t, true), Access(t, true));
    LastSleeps(s, n, t);
  }

  lemma LastSleeps(s: State, n: State, t: nat)
    requires t < |s.pcs|
    requires n == s.(owner := true, count := s.count + 1, word := 0, holder := Free,
                     pcs := s.pcs[t := CvWait(s.number)])
    ensures Step(n, Access(t, true)) == n.(pcs := s.pcs[t := SleepCond(s.number)])
  {
  }

  // notify_one() by a thread outside the lock wakes the sleeper that the kernel picks, and nobody
  // else.
  lemma NotifyOneWakes(s: State, t: nat, u: nat) returns (m: State)
    requires Inv(s) && t < |s.pcs| && s.pcs[t].Out? && u < |s.pcs| && s.pcs[u].SleepCond?
    ensures m == Run(s, [Act(t, NotifyOne), Access(t, true)]) && Inv(m)
    ensures Step(m, Event(t, Go(true), u)) == s.(number := s.number + 1, pcs := s.pcs[u := CvDec])
  {
    CountedSleeper(s, u);
    m := Two(s, Act(t, NotifyOne), Access(t, true));
    var r := Step(m, Event(t, Go(true), u));
    assert r.pcs == s.pcs[u := CvDec];
  }

  // notify_all() wakes that one and moves the other sleepers to the lock word.
  lemma NotifyAllWakes(s: State, t: nat, u: nat) returns (m: State, r: State)
    requires Inv(s) && t < |s.pcs| && s.pcs[t].Out? && u < |s.pcs| && s.pcs[u].SleepCond?
    ensures m == Run(s, [Act(t, NotifyAll), Access(t, true)]) && Inv(m)
    ensures r == Run(m, [Access(t, true), Event(t, Go(true), u)]) && |r.pcs| == |s.pcs|
    ensures r.pcs[u].CvDec? && r.done == s.number + 1
    ensures forall w :: 0 <= w < |s.pcs| && w != u ==>
              r.pcs[w] == if s.pcs[w].SleepCond? then Requeued(s.pcs[w].snap) else s.pcs[w]
  {
    CountedSleeper(s, u);
    m := Two(s, Act(t, NotifyAll), Access(t, true));
    r := Two(m, Access(t, true), Event(t, Go(true), u));
  }

  // A sleeper is counted, and the owner of the condition is known.
  lemma CountedSleeper(s: State, u: nat)
    requires Inv(s) && u < |s.pcs| && s.pcs[u].SleepCond?
    ensures s.count > 0 && s.owner && s.done <= s.number
  {
    assert ThreadInv(s, u);
    if s.count == 0 { SleepersCounted(s); }
  }

  // A woken waiter takes a free lock again before it returns.
  lemma WokenRelocks(s: State, t: nat) returns (r: State)
    requires Inv(s) && t < |s.pcs| && s.pcs[t].CvDec? && s.holder.Free?
    ensures r == Run(s, [Access(t, true), Access(t, true)])
    ensures |r.pcs| == |s.pcs| && r.pcs[t].Held? && r.holder == By(t) && r.pcs == s.pcs[t := Held]
  {
    r := Two(s, Access(t, true), Access(t, true));
  }

  // ---------------------------------------------------------------------------
  // The record of notify_all

  // The thread is inside a notify_all that has moved the sequence word to `number`.
  predicate InNotifyAll(pc: Pc<nat>, number: nat) {
    pc.Notifies() && (pc.NotifyOwner? || pc.all) && pc.number == number
  }

  predicate Recorded(s: State, t: nat, number: nat) {
    t < |s.pcs| && (InNotifyAll(s.pcs[t], number) || number <= s.done)
  }

  lemma RecordGrows(s: State, e: Event)
    ensures s.done <= Step(s, e).done
  {
  }

  lemma OwnNotify(s: State, e: Event, number: nat)
    requires e.thread < |s.pcs| && InNotifyAll(s.pcs[e.thread], number)
    ensures Recorded(Step(s, e), e.thread, number)
  {
  }

  lemma {:induction false} StaysRecorded(s: State, events: seq<Event>, t: nat, number: nat)
    requires Inv(s) && Recorded(s, t, number)
    ensures Recorded(Run(s, events), t, number)
    decreases |events|
  {
    if events != [] {
      StepInv(s, events[0]);
      RecordGrows(s, events[0]);
      if InNotifyAll(s.pcs[t], number) {
        if events[0].thread == t { OwnNotify(s, events[0], number); } else { AwakeStays(s, events[0], t); }
      }
      StaysRecorded(Step(s, events[0]), events[1..], t, number);
    }
  }

  // From the start of a notify_all to its return, in every run: the sequence word has moved at the
  // start, and the return is on record.
  lemma NotifyAllReturned(s: State, t: nat, events: seq<Event>) returns (r: State)
    requires Inv(s) && t < |s.pcs| && (s.pcs[t].Out? || s.pcs[t].Held?)
    ensures r == Run(s, [Act(t, NotifyAll)] + events) && |r.pcs| == |s.pcs|
    ensures Step(s, Act(t, NotifyAll)).number == s.number + 1
    ensures InNotifyAll(r.pcs[t], s.number + 1) || s.number < r.done
  {
    First(s, Act(t, NotifyAll), events);
    StaysRecorded(Step(s, Act(t, NotifyAll)), events, t, s.number + 1);
    RunSameThreads(Step(s, Act(t, NotifyAll)), events);
    r := Run(Step(s, Act(t, NotifyAll)), events);
  }

  lemma {:induction false} RunSameThreads(s: State, events: seq<Event>)
    requires Inv(s)
    ensures |Run(s, events).pcs| == |s.pcs|
    decreases |events|
  {
    if events != [] {
      StepInv(s, events[0]);
      RunSameThreads(Step(s, events[0]), events[1..]);
    }
  }
}
