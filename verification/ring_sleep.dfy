/**
 Sleeping and waking of the futex ring, access by access: a thread that has to wait falls asleep by
 itself, and the thread that makes its slot ready wakes it.
 */
module RingSleep {
  import opened SpinRing
  import opened SpinRingTheorems
  import opened FutexRing
  import opened FutexRingInv
  import opened FutexRingTheorems
  import opened RingSolo

  lemma FutexFirst(s: FutexState, e: Event, rest: seq<Event>)
    requires FutexInv(s)
    ensures FutexInv(FutexStep(s, e)) && FutexRun(s, [e] + rest) == FutexRun(FutexStep(s, e), rest)
  {
    FutexStepInv(s, e);
    assert ([e] + rest)[1..] == rest;
  }

  lemma FutexTwo(s: FutexState, a: Event, b: Event) returns (r: FutexState)
    requires FutexInv(s)
    ensures FutexInv(FutexStep(s, a)) && FutexInv(r)
    ensures r == FutexStep(FutexStep(s, a), b) == FutexRun(s, [a, b])
  {
    assert [a, b] == [a] + ([b] + []);
    FutexFirst(s, a, [b] + []);
    FutexFirst(FutexStep(s, a), b, []);
    r := FutexStep(FutexStep(s, a), b);
  }

  lemma {:induction false} FutexRunOn(s: FutexState, a: seq<Event>, b: seq<Event>)
    requires FutexInv(s)
    ensures FutexRun(s, a + b) == FutexRun(FutexRun(s, a), b)
    decreases |a|
  {
    if a == [] {
      assert a + b == b;
    } else {
      assert (a + b)[1..] == a[1..] + b;
      FutexStepInv(s, a[0]);
      FutexRunOn(FutexStep(s, a[0]), a[1..], b);
    }
  }

  // ---------------------------------------------------------------------------
  // Falling asleep

  function Pause(t: nat): seq<Event> { [Access(t, false), Access(t, false)] }

  lemma Loads(s: FutexState, t: nat)
    requires FutexShape(s) && t < |s.modes| && s.modes[t].Plain? && s.ring.pcs[t].Loading() && Stuck(s.ring, t)
    requires ThreadInv(s.ring, t)
    ensures FutexStep(s, Access(t, false)) ==
            s.(ring := s.ring.(pcs := s.ring.pcs[t := AtTest(s.ring, t)]),
               modes := s.modes[t := Loaded(WordAt(s, SlotOf(s, t)))])
  {
    StuckLoads(s.ring, t, false);
  }

  lemma TurnsToWait(s: FutexState, t: nat) returns (pc: Pc<nat>)
    requires FutexShape(s) && t < |s.modes| && s.modes[t].Loaded? && !PastLast(s.ring, s.ring.pcs[t].count)
    ensures pc.Loading() && pc.count == s.ring.pcs[t].count
    ensures FutexStep(s, Access(t, false)) ==
            s.(ring := s.ring.(pcs := s.ring.pcs[t := pc]), modes := s.modes[t := Cas(s.modes[t].word)])
  {
    TestWaits(s.ring, t, false);
    pc := Step(s.ring, Access(t, false)).pcs[t];
  }

  // A thread that has to wait loads its slot, finds that it is not past the cut and turns to wait.
  lemma GoesToWait(s: FutexState, t: nat) returns (r: FutexState)
    requires FutexInv(s) && t < |s.modes| && s.modes[t].Plain? && s.ring.pcs[t].Loading()
    requires Stuck(s.ring, t) && !PastLast(s.ring, s.ring.pcs[t].count)
    ensures r == FutexRun(s, Pause(t)) && FutexInv(r) && |r.modes| == |s.modes|
    ensures r.ring.pcs[t].Loading() && r.ring.pcs[t].count == s.ring.pcs[t].count
    ensures r == s.(ring := r.ring, modes := r.modes) && r.ring == s.ring.(pcs := s.ring.pcs[t := r.ring.pcs[t]])
    ensures r.modes == s.modes[t := Cas(WordAt(s, SlotOf(s, t)))]
  {
    r := FutexTwo(s, Access(t, false), Access(t, false));
    assert ThreadInv(s.ring, t);
    Loads(s, t);
    var s1 := FutexStep(s, Access(t, false));
    var pc := TurnsToWait(s1, t);
  }

  lemma FallsAsleep(s: FutexState, t: nat) returns (r: FutexState)
    requires FutexInv(s) && t < |s.modes| && s.ring.pcs[t].Loading() && s.modes[t] == Cas(WordAt(s, SlotOf(s, t)))
    ensures r == FutexRun(s, Pause(t)) && FutexInv(r) && |r.modes| == |s.modes|
    ensures r.ring == s.ring && r.modes == s.modes[t := r.modes[t]] && r.modes[t].Asleep?
  {
    r := FutexTwo(s, Access(t, false), Access(t, false));
  }

  // A thread that has to wait falls asleep in four accesses of its own.
  lemma WaiterSleeps(s: FutexState, t: nat) returns (r: FutexState)
    requires FutexInv(s) && t < |s.modes| && s.modes[t].Plain? && s.ring.pcs[t].Loading()
    requires Stuck(s.ring, t) && !PastLast(s.ring, s.ring.pcs[t].count)
    ensures r == FutexRun(s, Pause(t) + Pause(t)) && FutexInv(r) && |r.modes| == |s.modes|
    ensures r.modes == s.modes[t := r.modes[t]] && r.modes[t].Asleep?
    ensures |r.ring.pcs| == |s.ring.pcs| && r.ring.pcs[t].count == s.ring.pcs[t].count
    ensures r.ring == s.ring.(pcs := s.ring.pcs[t := r.ring.pcs[t]])
  {
    var m := GoesToWait(s, t);
    r := FallsAsleep(m, t);
    FutexRunOn(s, Pause(t), Pause(t));
  }

  // ---------------------------------------------------------------------------
  // Waking up

  // A thread that passes a slot on wakes everybody who sleeps on it.
  lemma WakesSleepers(s: FutexState, t: nat, u: nat) returns (r: FutexState)
    requires FutexInv(s) && t < |s.modes| && s.modes[t].Plain? && s.ring.pcs[t].Waking()
    requires u < |s.modes| && s.modes[u].Asleep? && SlotOf(s, u) == SlotOf(s, t) && s.flags[SlotOf(s, t)].waiting
    ensures r == FutexRun(s, [Access(t, true), Access(t, true)]) && FutexInv(r) && |r.modes| == |s.modes|
    ensures r.modes[u].Plain? && r.modes[t].Plain? && r.ring == SpinRing.Step(s.ring, Access(t, true))
  {
    r := FutexTwo(s, Access(t, true), Access(t, true));
    assert ModeInv(s, u);
  }

  // ---------------------------------------------------------------------------
  // close()

  predicate By(events: seq<Event>, t: nat) { forall e :: e in events ==> e.thread == t }

  // Thread t is in round k of the slot loop.
  ghost predicate AtSlot(s: FutexState, t: nat, k: nat) {
    FutexInv(s) && t < |s.modes| && s.modes[t] == SweepLoad(k)
  }

  // After the round: the ring is as before, and the loop goes on or is over.
  predicate RoundDone(s: FutexState, r: FutexState, t: nat, k: nat) {
    |r.modes| == |s.modes| && t < |r.modes| && r.ring == s.ring && r.modes[t] == AfterSlot(s, k) &&
    r.sweep == SweepAfter(s, k)
  }

  lemma SlotClosed(s: FutexState, t: nat, k: nat) returns (r: FutexState)
    requires AtSlot(s, t, k)
    ensures r == FutexRun(s, Pause(t)) && FutexInv(r) && |r.modes| == |s.modes| && r.ring == s.ring
    ensures RoundDone(s, r, t, k) || (r.modes[t].SweepWake? && r.modes[t].k == k && r.sweep == s.sweep)
  {
    assert ModeInv(s, t);
    r := FutexTwo(s, Access(t, false), Access(t, false));
  }

  lemma SlotWoken(s: FutexState, t: nat) returns (r: FutexState)
    requires FutexInv(s) && t < |s.modes| && s.modes[t].SweepWake?
    ensures r == FutexRun(s, [Access(t, false)]) && FutexInv(r) && RoundDone(s, r, t, s.modes[t].k)
  {
    assert [Access(t, false)] == [Access(t, false)] + [];
    FutexFirst(s, Access(t, false), []);
    r := FutexStep(s, Access(t, false));
  }

  lemma SlotRound(s: FutexState, t: nat, k: nat) returns (events: seq<Event>, r: FutexState)
    requires AtSlot(s, t, k)
    ensures By(events, t) && r == FutexRun(s, events) && FutexInv(r) && RoundDone(s, r, t, k)
  {
    events := Pause(t);
    r := SlotClosed(s, t, k);
    if !RoundDone(s, r, t, k) {
      FutexRunOn(s, Pause(t), [Access(t, false)]);
      r := SlotWoken(r, t);
      events := Pause(t) + [Access(t, false)];
    }
  }

  // The slot loop of close() ends, with every slot closed and every sleeper of it woken.
  lemma {:induction false} SweepFinishes(s: FutexState, t: nat, k: nat) returns (events: seq<Event>, r: FutexState)
    requires AtSlot(s, t, k)
    ensures By(events, t) && r == FutexRun(s, events) && FutexInv(r) && r.ring == s.ring
    ensures |r.modes| == |s.modes| && r.modes[t].Plain? && r.sweep.Done?
    decreases s.ring.size - k
  {
    assert ModeInv(s, t);
    events, r := SlotRound(s, t, k);
    if k + 1 < s.ring.size {
      var first, m := events, r;
      var rest;
      rest, r := SweepFinishes(m, t, k + 1);
      FutexRunOn(s, first, rest);
      events := first + rest;
    }
  }

  // Back outside, with closed_ stored and the slot loop over.
  predicate HasClosed(r: FutexState, t: nat) {
    && FutexShape(r) && t < |r.modes| && r.modes[t].Plain? && r.ring.pcs[t].Idle?
    && r.ring.closed == Closed && r.sweep.Done?
  }

  lemma StoreFinishes(s: FutexState, t: nat) returns (events: seq<Event>)
    requires FutexInv(s) && t < |s.modes| && s.modes[t].Plain? && s.ring.pcs[t].CloseStore?
    ensures By(events, t) && HasClosed(FutexRun(s, events), t)
  {
    var e := Access(t, false);
    var m := FutexStep(s, e);
    FutexStepInv(s, e);
    var rest, r := SweepFinishes(m, t, 0);
    FutexFirst(s, e, rest);
    events := [e] + rest;
  }

  // A close() that has begun returns by itself, whatever the others have done so far and wherever
  // they stand.
  lemma {:induction false} CloseFinishes(s: FutexState, t: nat) returns (events: seq<Event>)
    requires FutexInv(s) && t < |s.modes| && s.modes[t].Plain? && s.ring.pcs[t].Closing()
    ensures By(events, t) && HasClosed(FutexRun(s, events), t)
    decreases if s.ring.pcs[t].CloseCas? then 2 else if s.ring.pcs[t].CloseCut? then 1 else 0
  {
    if s.ring.pcs[t].CloseStore? {
      events := StoreFinishes(s, t);
    } else {
      var e := Access(t, false);
      FutexStepInv(s, e);
      assert CloseInv(s.ring);
      var rest := CloseFinishes(FutexStep(s, e), t);
      FutexFirst(s, e, rest);
      events := [e] + rest;
    }
  }
}
