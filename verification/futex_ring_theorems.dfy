/** What holds in every run of the futex ring. */
module FutexRingTheorems {
  import opened Values
  import opened SpinRing
  import opened SpinRingInv
  import opened SpinRingTheorems
  import opened RingOutcomes
  import opened FutexRing
  import opened FutexRingInv

  ghost function FutexRun(s: FutexState, events: seq<Event>): (r: FutexState)
    requires FutexInv(s)
    ensures FutexInv(r)
    decreases |events|
  {
    if events == [] then s
    else
      FutexStepInv(s, events[0]);
      FutexRun(FutexStep(s, events[0]), events[1..])
  }

  ghost predicate FutexReachable(s: FutexState) {
    exists size: nat, threads: nat, blank: Value, events: seq<Event> ::
      0 < size && (FutexInitInv(size, threads, blank); s == FutexRun(FutexInit(size, threads, blank), events))
  }

  // The tickets whose assignments throw in a run, and those whose moves do.
  ghost function FutexThrown(s: FutexState, events: seq<Event>): set<nat>
    requires FutexInv(s)
    decreases |events|
  {
    if events == [] then {}
    else
      FutexStepInv(s, events[0]);
      Thrower(s.ring, events[0]) + FutexThrown(FutexStep(s, events[0]), events[1..])
  }

  ghost function FutexLost(s: FutexState, events: seq<Event>): set<nat>
    requires FutexInv(s)
    decreases |events|
  {
    if events == [] then {}
    else
      FutexStepInv(s, events[0]);
      Loser(s.ring, events[0]) + FutexLost(FutexStep(s, events[0]), events[1..])
  }

  // A thread at the value of a slot goes on in the spinning ring.
  lemma ValueStep(s: FutexState, e: Event)
    requires FutexInv(s) && e.thread < |s.modes| && InValue(s.ring.pcs[e.thread])
    ensures FutexStep(s, e).ring != s.ring
  {
    assert ModeInv(s, e.thread);
    assert FutexStep(s, e).ring.pcs[e.thread] != s.ring.pcs[e.thread];
  }

  // Every run of the futex ring is a run of the spinning ring, with the sleeping left out and the
  // same assignments and moves that throw.
  lemma {:induction false} RunRefines(s: FutexState, events: seq<Event>) returns (spin: seq<Event>)
    requires FutexInv(s)
    ensures FutexRun(s, events).ring == Run(s.ring, spin)
    ensures FutexThrown(s, events) == Thrown(s.ring, spin) && FutexLost(s, events) == LostBy(s.ring, spin)
    decreases |events|
  {
    if events == [] {
      spin := [];
    } else {
      var e := events[0];
      FutexStepInv(s, e);
      Refines(s, e);
      var rest := RunRefines(FutexStep(s, e), events[1..]);
      if FutexStep(s, e).ring == s.ring {
        if e.thread < |s.modes| && InValue(s.ring.pcs[e.thread]) { ValueStep(s, e); }
        spin := rest;
      } else {
        spin := [e] + rest;
        assert ([e] + rest)[1..] == rest;
      }
    }
  }

  lemma ReachableRing(s: FutexState)
    requires FutexReachable(s)
    ensures FutexInv(s) && Reachable(s.ring)
  {
    var size: nat, threads: nat, blank: Value, events: seq<Event> :|
      0 < size && (FutexInitInv(size, threads, blank); s == FutexRun(FutexInit(size, threads, blank), events));
    FutexInitInv(size, threads, blank);
    InitInv(size, threads, blank);
    var spin := RunRefines(FutexInit(size, threads, blank), events);
    assert s.ring == Run(Init(size, threads, blank), spin);
  }

  // In every run exactly the tickets whose assignment threw are thrown away, and exactly the values
  // whose move threw are lost.
  lemma FutexOutcomes(size: nat, threads: nat, blank: Value, events: seq<Event>, c: nat)
    requires 0 < size
    ensures FutexInv(FutexInit(size, threads, blank))
    ensures var s, r := FutexInit(size, threads, blank), FutexRun(FutexInit(size, threads, blank), events);
            && (Threw(r.ring, c) <==> c in FutexThrown(s, events))
            && (LostTicket(r.ring, c) <==> c in FutexLost(s, events))
  {
    FutexInitInv(size, threads, blank);
    var spin := RunRefines(FutexInit(size, threads, blank), events);
    OutcomesExact(size, threads, blank, spin, c);
  }

  // A thread asleep on a slot sleeps on the present word of the slot, which has the waiting bit
  // and still fails the thread's test, or a wake of that slot is on its way.
  lemma NoLostWakeup(s: FutexState, t: nat)
    requires FutexReachable(s) && t < |s.modes| && s.modes[t].Asleep?
    ensures FutexShape(s)
    ensures (s.flags[SlotOf(s, t)].waiting && Stuck(s.ring, t)) || WakePending(s.modes, SlotOf(s, t))
  {
    ReachableRing(s);
    assert ModeInv(s, t);
  }

  // Once close() has gone through its slots, a thread whose ticket was cut off sleeps only if a
  // wake of its slot is on its way.
  lemma CloseFreesSleepers(s: FutexState, t: nat)
    requires FutexReachable(s) && s.sweep.Done? && t < |s.modes| && s.modes[t].Asleep?
    ensures FutexShape(s)
    ensures s.ring.last <= s.ring.pcs[t].count ==> WakePending(s.modes, SlotOf(s, t))
  {
    ReachableRing(s);
    SweptFreesSleeper(s, t);
  }

  lemma SweptFreesSleeper(s: FutexState, t: nat)
    requires FutexInv(s) && s.sweep.Done? && t < |s.modes| && s.modes[t].Asleep?
    ensures s.ring.last <= s.ring.pcs[t].count ==> WakePending(s.modes, SlotOf(s, t))
  {
    assert ModeInv(s, t);
  }

  // All threads are outside the ring or asleep.
  predicate AllAsleep(s: FutexState) {
    && |s.modes| == |s.ring.pcs|
    && forall t :: 0 <= t < |s.modes| ==> s.modes[t].Asleep? || (s.modes[t].Plain? && s.ring.pcs[t].Idle?)
  }

  lemma AllAsleepIsQuiet(s: FutexState)
    requires FutexReachable(s) && AllAsleep(s)
    ensures FutexShape(s) && Quiet(s.ring)
    ensures s.sweep.Done? || !s.ring.IsCut()
  {
    ReachableRing(s);
    assert CloseInv(s.ring);
    forall t | 0 <= t < |s.modes| ensures s.ring.pcs[t].Idle? || Stuck(s.ring, t) {
      if s.modes[t].Asleep? { NoLostWakeup(s, t); }
    }
  }

  // When all threads are asleep, a sleeping consumer means an empty ring that is not closed.
  lemma SleepingConsumer(s: FutexState, t: nat)
    requires FutexReachable(s) && AllAsleep(s) && t < |s.modes| && s.modes[t].Asleep? && s.ring.pcs[t].Popping()
    ensures s.ring.tail <= s.ring.pcs[t].count < s.ring.head && !s.ring.IsCut()
  {
    ReachableRing(s);
    AllAsleepIsQuiet(s);
    StuckConsumer(s.ring, t);
    if s.ring.IsCut() { CloseFreesSleepers(s, t); }
  }

  // When all threads are asleep, a sleeping producer means a full ring; after close() these are
  // producers that came before the cut.
  lemma SleepingProducer(s: FutexState, t: nat)
    requires FutexReachable(s) && AllAsleep(s) && t < |s.modes| && s.modes[t].Asleep? && s.ring.pcs[t].Pushing()
    ensures s.ring.head + s.ring.size <= s.ring.pcs[t].count < Limit(s.ring)
  {
    ReachableRing(s);
    AllAsleepIsQuiet(s);
    StuckProducer(s.ring, t);
    if s.ring.IsCut() { CloseFreesSleepers(s, t); }
  }
}
