/**
 The run that the comment at is_past_last of evenk/bounded_queue.h warns of: after close() the ring
 refuses 2^31 + 1 consumers, and the next one goes to sleep on it for good.
 */
module RingWrap {
  import opened Values
  import opened Bits
  import opened SpinRing
  import opened FutexRing
  import opened FutexRingInv
  import opened FutexRingTheorems
  import opened Tokens
  import opened RingBounds
  import opened Ring32
  import opened Ring32Theorems

  // ---------------------------------------------------------------------------
  // Events

  // Thread 0 closes the ring: the guard, the cut, the store, and two accesses for each slot.
  function Cuts(): seq<Event> {
    [Event(0, StartClose), Event(0, Go(false)), Event(0, Go(false)), Event(0, Go(false))]
  }

  function Sweep(): seq<Event> { [Event(0, Go(false)), Event(0, Go(false))] }

  function Sweeps(n: nat): seq<Event> {
    if n == 0 then [] else Sweeps(n - 1) + Sweep()
  }

  // Thread 1 takes a ticket, loads the slot and tests is_past_last.
  function Consumer(): seq<Event> { [Event(1, StartPop), Event(1, Go(false)), Event(1, Go(false))] }

  function Consumers(n: nat): seq<Event> {
    if n == 0 then [] else Consumers(n - 1) + Consumer()
  }

  // The compare-exchange of wait and the system call.
  function FallAsleep(): seq<Event> { [Event(1, Go(false)), Event(1, Go(false))] }

  function WholeRun(size: nat): seq<Event> {
    Cuts() + Sweeps(size) + Consumers(HALF + 1) + Consumer() + FallAsleep()
  }

  // ---------------------------------------------------------------------------
  // Runs of the 32-bit ring

  lemma {:induction false} Run32Append(v: Store, a: seq<Event>, b: seq<Event>)
    requires Shape32(v)
    ensures Run32(v, a + b) == Run32(Run32(v, a), b)
    decreases |a|
  {
    if a == [] {
      assert a + b == b;
    } else {
      assert (a + b)[1..] == a[1..] + b;
      ShapeKept(v, a[0]);
      Run32Append(Step32(v, a[0]), a[1..], b);
    }
  }

  lemma Then(v: Store, a: seq<Event>, m: Store, b: seq<Event>, r: Store)
    requires Shape32(v) && Run32(v, a) == m && Run32(m, b) == r
    ensures Run32(v, a + b) == r
  {
    Run32Append(v, a, b);
  }

  lemma First32(v: Store, e: Event, rest: seq<Event>)
    requires Shape32(v)
    ensures Shape32(Step32(v, e)) && Run32(v, [e] + rest) == Run32(Step32(v, e), rest)
  {
    ShapeKept(v, e);
    assert ([e] + rest)[1..] == rest;
  }

  // No slot has a status, and nobody waits on one.
  predicate Blank(words: seq<u32>) { forall i :: 0 <= i < |words| ==> words[i] % 8 == 0 }

  lemma BlankWord(w: u32)
    requires w % 8 == 0
    ensures And(w, STATUS_MASK) == 0 && And(w, STATUS_WAITING) == 0
  {
    MaskStatus(w);
    MaskWaiting(w);
    EightTimes(w / 8);
  }

  lemma BlankClosed(w: u32)
    requires w % 8 == 0
    ensures OrWord(w, STATUS_CLOSED) % 8 == 0
  {
    SetClosed(w);
    EightTimes(w / 8 + 1 - w / 8 % 2);
  }

  lemma EightTimes(q: nat)
    ensures 8 * q % 8 == 0 && 8 * q % 4 == 0 && 8 * q / 4 == 2 * q && 2 * q % 2 == 0
  {
  }

  // The threads other than 0 and 1 are outside the ring.
  predicate OthersOut<N, W>(pcs: seq<Pc<N>>, modes: seq<Mode<W>>) {
    |pcs| == |modes| && forall t :: 2 <= t < |pcs| ==> pcs[t].Idle? && modes[t].Plain?
  }

  // The ring was closed before anything was pushed, and thread 1 is outside it.
  ghost predicate ClosedAtZero(v: Store) {
    && Shape32(v) && 2 <= |v.pcs| && v.pcs[1].Idle? && v.modes[1].Plain?
    && v.closed == Closed && v.last == 0 && Blank(v.words) && OthersOut(v.pcs, v.modes)
  }

  // ---------------------------------------------------------------------------
  // close() on the fresh ring

  // Thread 0 is about to update slot k, or is done.
  ghost predicate AtSlot(v: Store, k: nat) {
    && ClosedAtZero(v) && k <= |v.words| && v.pcs[0].Idle? && v.head == 0
    && v.modes[0] == (if k < |v.words| then SweepLoad(k) else Plain)
  }

  lemma OneSlot(v: Store, k: nat) returns (r: Store)
    requires AtSlot(v, k) && k < |v.words|
    ensures r == Run32(v, Sweep()) && AtSlot(r, k + 1) && |r.pcs| == |v.pcs| && |r.words| == |v.words|
  {
    var e := Event(0, Go(false));
    assert Sweep() == [e] + ([e] + []);
    First32(v, e, [e] + []);
    var v1 := Step32(v, e);
    First32(v1, e, []);
    BlankWord(v.words[SweepSlot32(v, k)]);
    BlankClosed(v.words[SweepSlot32(v, k)]);
    r := Step32(v1, e);
  }

  lemma NextSlot(v: Store, events: seq<Event>, m: Store, k: nat) returns (r: Store)
    requires Shape32(v) && Run32(v, events) == m && AtSlot(m, k) && k < |m.words|
    ensures r == Run32(v, events + Sweep())
    ensures AtSlot(r, k + 1) && |r.pcs| == |m.pcs| && |r.words| == |m.words|
  {
    r := OneSlot(m, k);
    Then(v, events, m, Sweep(), r);
  }

  lemma {:induction false} AllSlots(v: Store, n: nat) returns (r: Store)
    requires AtSlot(v, 0) && n <= |v.words|
    ensures r == Run32(v, Sweeps(n)) && AtSlot(r, n) && |r.pcs| == |v.pcs| && |r.words| == |v.words|
    decreases n
  {
    if n == 0 {
      r := v;
    } else {
      var m := AllSlots(v, n - 1);
      r := NextSlot(v, Sweeps(n - 1), m, n - 1);
    }
  }

  lemma FreshIsBlank(size: u32, threads: nat, blank: Value)
    requires GoodSize(size)
    ensures Blank(Init32(size, threads, blank).words)
  {
    forall i: nat | i < size
      ensures And(i, TICKET_MASK) % 8 == 0
    {
      MaskTicket(i);
      EightTimes(2 * (i / 16));
    }
  }

  lemma CutsFresh(size: u32, threads: nat, blank: Value) returns (r: Store)
    requires GoodSize(size) && 2 <= threads
    ensures Shape32(Init32(size, threads, blank))
    ensures r == Run32(Init32(size, threads, blank), Cuts())
    ensures AtSlot(r, 0) && |r.pcs| == threads && |r.words| == size
  {
    var v := Init32(size, threads, blank);
    FreshIsBlank(size, threads, blank);
    var e1, e := Event(0, StartClose), Event(0, Go(false));
    assert Cuts() == [e1] + ([e] + ([e] + ([e] + [])));
    First32(v, e1, [e] + ([e] + ([e] + [])));
    var v1 := Step32(v, e1);
    First32(v1, e, [e] + ([e] + []));
    var v2 := Step32(v1, e);
    First32(v2, e, [e] + []);
    var v3 := Step32(v2, e);
    First32(v3, e, []);
    r := Step32(v3, e);
  }

  // ---------------------------------------------------------------------------
  // The consumers after it

  // What thread 1 keeps of the slot when it has taken a ticket and loaded it.
  function AfterLoad(v: Store): Store
    requires Shape32(v) && 2 <= |v.pcs|
  {
    var w := v.words[Slot32(v, v.head)];
    Goto(v, 1, PopCheck(v.head, And(w, TICKET_MASK) == And(v.head, TICKET_MASK)), Loaded(w)).(head := Plus(v.head, 1))
  }

  lemma TakesAndLoads(v: Store)
    requires ClosedAtZero(v)
    ensures Shape32(AfterLoad(v)) && Run32(v, Consumer()) == Check32(AfterLoad(v), 1, false)
  {
    var e1, e2 := Event(1, StartPop), Event(1, Go(false));
    assert Consumer() == [e1] + ([e2] + ([e2] + []));
    First32(v, e1, [e2] + ([e2] + []));
    var v1 := Step32(v, e1);
    First32(v1, e2, [e2] + []);
    var v2 := Step32(v1, e2);
    BlankWord(v.words[Slot32(v, v.head)]);
    assert v2 == AfterLoad(v);
    First32(v2, e2, []);
  }

  lemma LastIsZero(v: Store)
    requires v.closed == Closed && v.last == 0
    ensures forall c: u32 :: c <= HALF ==> PastLast32(v, c)
    ensures !PastLast32(v, HALF + 1)
  {
  }

  // A consumer with a ticket up to 2^31 is refused and leaves the ring as it was.
  lemma OneRefused(v: Store)
    requires ClosedAtZero(v) && v.head <= HALF
    ensures Run32(v, Consumer()) == v.(head := v.head + 1)
  {
    TakesAndLoads(v);
    LastIsZero(AfterLoad(v));
    Leaves(v);
  }

  lemma Leaves(v: Store)
    requires Shape32(v) && 2 <= |v.pcs| && v.pcs[1].Idle? && v.modes[1].Plain? && v.head <= HALF
    requires Shape32(AfterLoad(v)) && PastLast32(AfterLoad(v), v.head)
    ensures Check32(AfterLoad(v), 1, false) == v.(head := v.head + 1)
  {
    assert v.pcs[1 := Idle] == v.pcs && v.modes[1 := Plain] == v.modes;
  }

  lemma {:induction false} ManyRefused(v: Store, n: nat)
    requires ClosedAtZero(v) && v.head + n <= HALF + 1
    ensures Run32(v, Consumers(n)) == v.(head := v.head + n)
    decreases n
  {
    if n > 0 {
      ManyRefused(v, n - 1);
      Run32Append(v, Consumers(n - 1), Consumer());
      OneRefused(v.(head := v.head + n - 1));
    }
  }

  // The next one is not: it goes to wait, sets the waiting bit and falls asleep.
  lemma GoesToWait(v: Store) returns (w: Store)
    requires ClosedAtZero(v) && v.head == HALF + 1
    ensures Shape32(w) && w == Run32(v, Consumer()) && w.modes[1] == Cas(w.words[Slot32(w, v.head)])
    ensures w.pcs[1].PopLoad? && w.pcs[1].count == v.head
    ensures w.modes == v.modes[1 := w.modes[1]] && w.pcs == v.pcs[1 := w.pcs[1]] && w.closed == Closed
  {
    TakesAndLoads(v);
    LastIsZero(AfterLoad(v));
    w := Check32(AfterLoad(v), 1, false);
  }

  lemma FallsAsleep(w: Store) returns (r: Store)
    requires Shape32(w) && 2 <= |w.pcs| && w.pcs[1].PopLoad? && w.modes[1] == Cas(w.words[Slot32(w, w.pcs[1].count)])
    ensures r == Run32(w, FallAsleep()) && |r.modes| == |w.modes| && r.modes[1].Asleep?
    ensures r.closed == w.closed && r.modes == w.modes[1 := r.modes[1]] && r.pcs == w.pcs
  {
    var e := Event(1, Go(false));
    assert FallAsleep() == [e] + ([e] + []);
    First32(w, e, [e] + []);
    var w1 := Step32(w, e);
    First32(w1, e, []);
    r := Step32(w1, e);
  }

  // The whole run: close() has returned, no thread is inside the ring but the consumer of ticket
  // 2^31 + 1, and that one is asleep.
  lemma WrappedConsumerSleeps(size: u32, threads: nat, blank: Value)
    requires GoodSize(size) && 2 <= threads
    ensures Shape32(Init32(size, threads, blank))
    ensures var r := Run32(Init32(size, threads, blank), WholeRun(size));
            && |r.modes| == |r.pcs| == threads && r.closed == Closed
            && r.modes[0].Plain? && r.pcs[0].Idle? && OthersOut(r.pcs, r.modes)
            && r.modes[1].Asleep? && r.pcs[1].PopLoad? && r.pcs[1].count == HALF + 1
  {
    var v := Init32(size, threads, blank);
    var v1 := CutsFresh(size, threads, blank);
    var v2 := AllSlots(v1, size);
    Then(v, Cuts(), v1, Sweeps(size), v2);
    ManyRefused(v2, HALF + 1);
    var v3 := v2.(head := HALF + 1);
    Then(v, Cuts() + Sweeps(size), v2, Consumers(HALF + 1), v3);
    var v4 := GoesToWait(v3);
    Then(v, Cuts() + Sweeps(size) + Consumers(HALF + 1), v3, Consumer(), v4);
    var v5 := FallsAsleep(v4);
    Then(v, Cuts() + Sweeps(size) + Consumers(HALF + 1) + Consumer(), v4, FallAsleep(), v5);
  }

  // ---------------------------------------------------------------------------
  // The same run of the ring with unbounded counters

  // The events take s to r: FutexRun without its invariant.
  ghost function Walk(s: FutexState, events: seq<Event>): FutexState
    decreases |events|
  {
    if events == [] || !FutexShape(s) then s else Walk(FutexStep(s, events[0]), events[1..])
  }

  lemma {:induction false} WalkIsRun(s: FutexState, events: seq<Event>)
    requires FutexInv(s)
    ensures FutexRun(s, events) == Walk(s, events)
    decreases |events|
  {
    if events != [] {
      FutexStepInv(s, events[0]);
      WalkIsRun(FutexStep(s, events[0]), events[1..]);
    }
  }

  lemma {:induction false} WalkOn(s: FutexState, a: seq<Event>, m: FutexState, b: seq<Event>, r: FutexState)
    requires Walk(s, a) == m && Walk(m, b) == r && FutexShape(m)
    ensures Walk(s, a + b) == r
    decreases |a|
  {
    if a == [] {
      assert a + b == b;
    } else {
      assert (a + b)[1..] == a[1..] + b;
      WalkOn(FutexStep(s, a[0]), a[1..], m, b, r);
    }
  }

  // One step after the others.
  lemma WalkNext(s: FutexState, a: seq<Event>, m: FutexState, e: Event)
    requires Walk(s, a) == m && FutexShape(m)
    ensures Walk(s, a + [e]) == FutexStep(m, e)
  {
    assert [e][1..] == [];
    WalkOn(s, a, m, [e], FutexStep(m, e));
  }

  predicate AllEmpty(slots: seq<Slot>) { forall i :: 0 <= i < |slots| ==> slots[i].status == Empty }

  // Closed before anything was pushed; thread 0 is in the slot loop or done, thread 1 is outside.
  predicate ShutAtZero(s: FutexState) {
    && FutexShape(s) && 2 <= |s.modes| && s.ring.closed == Closed && s.ring.last == 0
    && s.ring.pcs[1].Idle? && s.modes[1].Plain?
    && s.ring.pcs[0].Idle? && (s.modes[0].Plain? || s.modes[0].Sweeps())
    && AllEmpty(s.ring.slots) && |s.ring.popped| == s.ring.head
  }

  lemma SweepMoves(s: FutexState)
    requires ShutAtZero(s)
    ensures ShutAtZero(FutexStep(s, Event(0, Go(false)))) && FutexStep(s, Event(0, Go(false))).ring == s.ring
  {
  }

  lemma SweepMoved(s: FutexState, events: seq<Event>, m: FutexState) returns (r: FutexState)
    requires Walk(s, events) == m && ShutAtZero(m)
    ensures Walk(s, events + Sweep()) == r && ShutAtZero(r) && r.ring == m.ring
  {
    var e := Event(0, Go(false));
    SweepMoves(m);
    WalkNext(s, events, m, e);
    SweepMoves(FutexStep(m, e));
    WalkNext(s, events + [e], FutexStep(m, e), e);
    r := FutexStep(FutexStep(m, e), e);
    assert events + [e] + [e] == events + Sweep();
  }

  lemma {:induction false} SweepsMove(s: FutexState, start: FutexState, events: seq<Event>, n: nat)
    returns (r: FutexState)
    requires Walk(start, events) == s && ShutAtZero(s)
    ensures Walk(start, events + Sweeps(n)) == r && ShutAtZero(r) && r.ring == s.ring
    decreases n
  {
    if n == 0 {
      r := s;
      assert events + Sweeps(n) == events;
    } else {
      var m := SweepsMove(s, start, events, n - 1);
      r := SweepMoved(start, events + Sweeps(n - 1), m);
      assert events + Sweeps(n) == events + Sweeps(n - 1) + Sweep();
    }
  }

  // The same, with thread 1 inside pop() at `pc`.
  predicate InPop(s: FutexState, pc: Pc<nat>) {
    && FutexShape(s) && 2 <= |s.modes| && s.ring.closed == Closed && s.ring.last == 0
    && s.ring.pcs[1] == pc && s.modes[1].Plain? == pc.PopLoad? && s.modes[1].Loaded? == pc.PopCheck?
    && s.ring.pcs[0].Idle? && (s.modes[0].Plain? || s.modes[0].Sweeps())
    && AllEmpty(s.ring.slots) && |s.ring.popped| == s.ring.head
  }

  lemma Takes(s: FutexState)
    requires ShutAtZero(s)
    ensures var r := FutexStep(s, Event(1, StartPop));
            InPop(r, PopLoad(s.ring.head, false)) && r.ring.popped == s.ring.popped + [PopPending(1)]
  {
  }

  lemma Loads(s: FutexState, c: nat)
    requires InPop(s, PopLoad(c, false))
    ensures var r := FutexStep(s, Event(1, Go(false)));
            (InPop(r, PopCheck(c, false)) || InPop(r, PopCheck(c, true))) && r.ring.popped == s.ring.popped
  {
  }

  // Every consumer is refused, whatever its ticket.
  lemma Refuses(s: FutexState, c: nat, matched: bool)
    requires InPop(s, PopCheck(c, matched)) && c < s.ring.head
    ensures var r := FutexStep(s, Event(1, Go(false)));
            ShutAtZero(r) && r.ring.popped == s.ring.popped[c := PopRefused]
  {
  }

  lemma AlsoRefused(s: FutexState, events: seq<Event>, m: FutexState) returns (r: FutexState)
    requires Walk(s, events) == m && ShutAtZero(m)
    ensures Walk(s, events + Consumer()) == r && ShutAtZero(r)
    ensures r.ring.popped == m.ring.popped + [PopRefused]
  {
    var e1, e := Event(1, StartPop), Event(1, Go(false));
    Takes(m);
    WalkNext(s, events, m, e1);
    var m1 := FutexStep(m, e1);
    Loads(m1, m.ring.head);
    WalkNext(s, events + [e1], m1, e);
    var m2 := FutexStep(m1, e);
    Refuses(m2, m.ring.head, m2.ring.pcs[1].matched);
    WalkNext(s, events + [e1] + [e], m2, e);
    r := FutexStep(m2, e);
    assert events + [e1] + [e] + [e] == events + Consumer();
  }

  lemma {:induction false} ManyAlsoRefused(s: FutexState, start: FutexState, events: seq<Event>, n: nat)
    returns (r: FutexState)
    requires Walk(start, events) == s && ShutAtZero(s)
    ensures Walk(start, events + Consumers(n)) == r && ShutAtZero(r)
    ensures |r.ring.popped| == |s.ring.popped| + n
    decreases n
  {
    if n == 0 {
      r := s;
      assert events + Consumers(n) == events;
    } else {
      var m := ManyAlsoRefused(s, start, events, n - 1);
      r := AlsoRefused(start, events + Consumers(n - 1), m);
      assert events + Consumers(n) == events + Consumers(n - 1) + Consumer();
    }
  }

  // Thread 0 is inside close(), at `pc`, and nothing else has happened.
  predicate InClose(s: FutexState, pc: Pc<nat>) {
    && FutexShape(s) && 2 <= |s.modes| && s.ring.pcs[0] == pc && s.modes[0].Plain?
    && s.ring.pcs[1].Idle? && s.modes[1].Plain? && AllEmpty(s.ring.slots)
    && s.ring.popped == [] && s.ring.head == 0 && s.ring.closed == Open
  }

  lemma Starts(size: nat, threads: nat, blank: Value)
    requires 0 < size && 2 <= threads
    ensures FutexShape(FutexInit(size, threads, blank))
    ensures var r := FutexStep(FutexInit(size, threads, blank), Event(0, StartClose));
            InClose(r, CloseCas) && r.ring.tail == 0
  {
  }

  lemma Guards(s: FutexState)
    requires InClose(s, CloseCas) && s.ring.tail == 0
    ensures var r := FutexStep(s, Event(0, Go(false))); InClose(r, CloseCut) && r.ring.tail == 0
  {
  }

  lemma CutsTail(s: FutexState)
    requires InClose(s, CloseCut) && s.ring.tail == 0
    ensures var r := FutexStep(s, Event(0, Go(false))); InClose(r, CloseStore) && r.ring.last == 0
  {
  }

  lemma StoresFlag(s: FutexState)
    requires InClose(s, CloseStore) && s.ring.last == 0
    ensures var r := FutexStep(s, Event(0, Go(false))); ShutAtZero(r) && r.ring.popped == []
  {
  }

  lemma AlsoCuts(size: nat, threads: nat, blank: Value) returns (r: FutexState)
    requires 0 < size && 2 <= threads
    ensures Walk(FutexInit(size, threads, blank), Cuts()) == r && ShutAtZero(r) && r.ring.popped == []
  {
    var s := FutexInit(size, threads, blank);
    var e1, e := Event(0, StartClose), Event(0, Go(false));
    Starts(size, threads, blank);
    WalkNext(s, [], s, e1);
    var s1 := FutexStep(s, e1);
    Guards(s1);
    WalkNext(s, [] + [e1], s1, e);
    var s2 := FutexStep(s1, e);
    CutsTail(s2);
    WalkNext(s, [] + [e1] + [e], s2, e);
    var s3 := FutexStep(s2, e);
    StoresFlag(s3);
    WalkNext(s, [] + [e1] + [e] + [e], s3, e);
    r := FutexStep(s3, e);
    assert [] + [e1] + [e] + [e] + [e] == Cuts();
  }

  lemma StaysOut(s: FutexState)
    requires ShutAtZero(s)
    ensures Walk(s, FallAsleep()) == s
  {
    var e := Event(1, Go(false));
    assert FutexStep(s, e) == s;
    WalkNext(s, [], s, e);
    WalkNext(s, [] + [e], s, e);
    assert [] + [e] + [e] == FallAsleep();
  }

  // With unbounded counters the consumer of ticket 2^31 + 1 is refused like those before it.
  lemma UnboundedConsumerLeaves(size: nat, threads: nat, blank: Value)
    requires 0 < size && 2 <= threads
    ensures FutexInv(FutexInit(size, threads, blank))
    ensures var r := FutexRun(FutexInit(size, threads, blank), WholeRun(size));
            && |r.ring.pcs| >= 2 && r.ring.pcs[1].Idle? && |r.ring.popped| == HALF + 2
            && r.ring.popped[HALF + 1] == PopRefused
  {
    var s := FutexInit(size, threads, blank);
    var s1 := AlsoCuts(size, threads, blank);
    var s2 := SweepsMove(s1, s, Cuts(), size);
    var s3 := ManyAlsoRefused(s2, s, Cuts() + Sweeps(size), HALF + 1);
    var s4 := AlsoRefused(s, Cuts() + Sweeps(size) + Consumers(HALF + 1), s3);
    StaysOut(s4);
    WalkOn(s, Cuts() + Sweeps(size) + Consumers(HALF + 1) + Consumer(), s4, FallAsleep(), s4);
    FutexInitInv(size, threads, blank);
    WalkIsRun(s, WholeRun(size));
  }
}
