/**
 When the operations of the shared ticket lock succeed: exactly when a waiting thread enters, and
 exactly when try_lock and try_lock_shared return true, with other threads between their accesses
 and without, on pairs of counters and on words.
 */
module TicketSolo {
  import opened Bits
  import opened Pigeonhole
  import opened TicketLock
  import opened TicketLockInv
  import opened TicketLockTheorems
  import opened TicketWords
  import opened TicketWordsTheorems

  // ---------------------------------------------------------------------------
  // Threads in between

  predicate Others(events: seq<Event>, t: nat) { forall e :: e in events ==> e.thread != t }

  lemma {:induction false} OthersLeave(s: State, events: seq<Event>, t: nat)
    requires Inv(s) && t < |s.pcs| && Others(events, t)
    ensures |Run(s, events).pcs| == |s.pcs| && Run(s, events).pcs[t] == s.pcs[t]
    decreases |events|
  {
    if events != [] {
      StepInv(s, events[0]);
      assert events[0] in events;
      forall e | e in events[1..] ensures e in events { }
      OthersLeave(Step(s, events[0]), events[1..], t);
    }
  }

  lemma {:induction false} RunOn(s: State, a: seq<Event>, b: seq<Event>)
    requires Inv(s)
    ensures Run(s, a + b) == Run(Run(s, a), b)
    decreases |a|
  {
    if a == [] {
      assert a + b == b;
    } else {
      assert (a + b)[1..] == a[1..] + b;
      StepInv(s, a[0]);
      RunOn(Step(s, a[0]), a[1..], b);
    }
  }

  lemma RunOne(s: State, e: Event)
    requires Inv(s)
    ensures Inv(Step(s, e)) && Run(s, [e]) == Step(s, e)
  {
    StepInv(s, e);
    assert [e][1..] == [];
  }

  // ---------------------------------------------------------------------------
  // The try operations

  // A thread that has loaded the head h, the other threads before its load of the tail, that load,
  // the other threads before its compare-exchange, and that exchange.
  function TryRun(a: seq<Event>, b: seq<Event>, t: nat): seq<Event> { a + [Event(t, Go)] + b + [Event(t, Go)] }

  // try_lock_shared returns true exactly when the tail it loads has the exclusive count of the head
  // and is still the tail at the exchange; then the shared count of the tail grows by one.
  lemma TrySharedExactly(s: State, t: nat, a: seq<Event>, b: seq<Event>) returns (s1: State, s2: State, r: State)
    requires Inv(s) && t < |s.pcs| && s.pcs[t].TryS? && Others(a, t) && Others(b, t)
    ensures s1 == Run(s, a) && s2 == Run(s, a + [Event(t, Go)] + b) && r == Run(s, TryRun(a, b, t))
    ensures |r.pcs| == |s.pcs| && r.head == s2.head
    ensures if s1.tail.x == s.pcs[t].head.x && s2.tail == s1.tail
            then r.pcs[t] == HoldS(s2.tail) && r.tail == Ticket(s2.tail.x, s2.tail.s + 1)
            else r.pcs[t].Out? && r.tail == s2.tail
  {
    var e := Event(t, Go);
    s1 := Run(s, a);
    OthersLeave(s, a, t);
    RunOne(s1, e);
    RunOn(s, a, [e]);
    var m := Step(s1, e);
    OthersLeave(m, b, t);
    RunOn(s, a + [e], b);
    s2 := Run(m, b);
    RunOne(s2, e);
    RunOn(s, a + [e] + b, [e]);
    r := Step(s2, e);
  }

  // try_lock returns true exactly when the tail it loads is the head it loaded and is still the tail
  // at the exchange; then the exclusive count of the tail grows by one.
  lemma TryExclusiveExactly(s: State, t: nat, a: seq<Event>, b: seq<Event>) returns (s1: State, s2: State, r: State)
    requires Inv(s) && t < |s.pcs| && s.pcs[t].TryX? && Others(a, t) && Others(b, t)
    ensures s1 == Run(s, a) && s2 == Run(s, a + [Event(t, Go)] + b) && r == Run(s, TryRun(a, b, t))
    ensures |r.pcs| == |s.pcs| && r.head == s2.head
    ensures if s1.tail == s.pcs[t].head && s2.tail == s1.tail
            then r.pcs[t] == HoldX(s2.tail) && r.tail == Ticket(s2.tail.x + 1, s2.tail.s)
            else r.pcs[t].Out? && r.tail == s2.tail
  {
    var e := Event(t, Go);
    s1 := Run(s, a);
    OthersLeave(s, a, t);
    RunOne(s1, e);
    RunOn(s, a, [e]);
    var m := Step(s1, e);
    OthersLeave(m, b, t);
    RunOn(s, a + [e], b);
    s2 := Run(m, b);
    RunOne(s2, e);
    RunOn(s, a + [e] + b, [e]);
    r := Step(s2, e);
  }

  // Nobody holds the lock exclusively or waits to do so; nobody is inside at all.
  predicate NoWriter(s: State) { forall u :: 0 <= u < |s.pcs| ==> !s.pcs[u].Exclusive() }

  predicate Unused(s: State) { forall u :: 0 <= u < |s.pcs| ==> !s.pcs[u].Exclusive() && !s.pcs[u].Shared() }

  lemma CountersTell(s: State)
    requires Inv(s)
    ensures s.head.x == s.tail.x <==> NoWriter(s)
    ensures s.head == s.tail <==> Unused(s)
  {
    if s.writers != [] { assert WriterInv(s, 0); }
    forall u: nat | u < |s.pcs|
      ensures s.head.x == s.tail.x ==> !s.pcs[u].Exclusive()
      ensures s.head == s.tail ==> !s.pcs[u].Shared()
    {
      assert ThreadInv(s, u);
      if s.pcs[u].Shared() { ReaderCounted(s.pcs, s.tail.x, u); }
    }
    if Unused(s) && Readers(s.pcs, s.tail.x) != 0 {
      var u := SomeReader(s.pcs, s.tail.x);
    }
  }

  // With no other thread in between, try_lock_shared succeeds exactly when there is no writer, and
  // try_lock exactly when the lock is not in use.
  lemma SoloTry(s: State, t: nat, shared: bool) returns (r: State)
    requires Inv(s) && t < |s.pcs| && s.pcs[t].Out?
    ensures r == Run(s, [Event(t, if shared then TryLockShared else TryLock), Event(t, Go), Event(t, Go)])
    ensures |r.pcs| == |s.pcs| && r.head == s.head
    ensures shared ==> if NoWriter(s) then r.pcs[t].HoldS? && r.tail == Ticket(s.tail.x, s.tail.s + 1)
                       else r.pcs[t].Out? && r.tail == s.tail
    ensures !shared ==> if Unused(s) then r.pcs[t].HoldX? && r.tail == Ticket(s.tail.x + 1, s.tail.s)
                        else r.pcs[t].Out? && r.tail == s.tail
  {
    var e0, e := Event(t, if shared then TryLockShared else TryLock), Event(t, Go);
    CountersTell(s);
    RunOne(s, e0);
    RunOne(Step(s, e0), e);
    RunOne(Step(Step(s, e0), e), e);
    RunOn(s, [e0], [e]);
    RunOn(s, [e0] + [e], [e]);
    assert [e0, e, e] == [e0] + [e] + [e];
    r := Step(Step(Step(s, e0), e), e);
  }

  // ---------------------------------------------------------------------------
  // The blocking operations

  // A waiting thread enters at its next access exactly when it is its turn, and otherwise nothing
  // changes.
  lemma EntersExactly(s: State, t: nat)
    requires Inv(s) && t < |s.pcs| && (s.pcs[t].WantX? || s.pcs[t].WantS?)
    ensures var r := Step(s, Event(t, Go));
            if Enabled(s, t)
            then Holding(r.pcs[t]) && r.pcs[t].Writing() == s.pcs[t].WantX? && r.head == s.head && r.tail == s.tail
            else r == s
  {
  }

  // With no other thread in between: lock() on an unused lock, lock_shared() without writers.
  lemma SoloLock(s: State, t: nat, shared: bool) returns (r: State)
    requires Inv(s) && t < |s.pcs| && s.pcs[t].Out?
    ensures r == Run(s, [Event(t, if shared then LockShared else Lock), Event(t, Go)]) && |r.pcs| == |s.pcs|
    ensures if shared then r.pcs[t].HoldS? <==> NoWriter(s) else r.pcs[t].HoldX? <==> Unused(s)
    ensures r.tail == if shared then Ticket(s.tail.x, s.tail.s + 1) else Ticket(s.tail.x + 1, s.tail.s)
  {
    var e0, e := Event(t, if shared then LockShared else Lock), Event(t, Go);
    CountersTell(s);
    RunOne(s, e0);
    RunOne(Step(s, e0), e);
    RunOn(s, [e0], [e]);
    assert [e0, e] == [e0] + [e];
    r := Step(Step(s, e0), e);
  }

  // ---------------------------------------------------------------------------
  // On words

  lemma {:induction false} WordOthersLeave(v: WordLock, events: seq<Event>, t: nat)
    requires t < |v.pcs| && Others(events, t)
    ensures var r := WordRun(v, events); |r.pcs| == |v.pcs| && r.pcs[t] == v.pcs[t] && r.half == v.half
    decreases |events|
  {
    if events != [] {
      assert events[0] in events;
      forall e | e in events[1..] ensures e in events { }
      WordOthersLeave(WordStep(v, events[0]), events[1..], t);
    }
  }

  lemma WordRunOne(v: WordLock, e: Event)
    ensures WordRun(v, [e]) == WordStep(v, e)
  {
    assert [e][1..] == [];
  }

  // Whether the try operation of a thread that has loaded the head passes its test on the tail.
  predicate Passes(pc: Pc<nat>, tail: nat, mask: nat)
    requires pc.TryX? || pc.TryS?
  {
    if pc.TryX? then pc.head == tail else And(pc.head, mask) == And(tail, mask)
  }

  // On words a try operation returns true exactly when its test passes on the tail it loads and that
  // is still the tail at the exchange; then the tail grows by the step of its kind.
  lemma WordTryExactly(v: WordLock, t: nat, a: seq<Event>, b: seq<Event>)
    returns (v1: WordLock, v2: WordLock, r: WordLock)
    requires t < |v.pcs| && (v.pcs[t].TryX? || v.pcs[t].TryS?) && Others(a, t) && Others(b, t)
    ensures v1 == WordRun(v, a) && v2 == WordRun(v, a + [Event(t, Go)] + b) && r == WordRun(v, TryRun(a, b, t))
    ensures |r.pcs| == |v.pcs| && r.head == v2.head
    ensures if Passes(v.pcs[t], v1.tail, v.Mask()) && v2.tail == v1.tail
            then && (if v.pcs[t].TryX? then r.pcs[t].HoldX? else r.pcs[t].HoldS?)
                 && r.tail == v.Plus(v2.tail, if v.pcs[t].TryX? then 1 else v.SharedStep())
            else r.pcs[t].Out? && r.tail == v2.tail
  {
    var e := Event(t, Go);
    v1 := WordRun(v, a);
    WordOthersLeave(v, a, t);
    WordRunOne(v1, e);
    RunAppend(v, a, [e]);
    var m := WordStep(v1, e);
    WordOthersLeave(m, b, t);
    RunAppend(v, a + [e], b);
    v2 := WordRun(m, b);
    WordRunOne(v2, e);
    RunAppend(v, a + [e] + b, [e]);
    r := WordStep(v2, e);
  }

  // Under the premise a try operation on words succeeds exactly when it does on unbounded counters:
  // when its test passes on the tail it loads and nobody has moved the tail before the exchange.
  lemma WordTryFollows(half: nat, s: State, t: nat, a: seq<Event>, b: seq<Event>) returns (r: WordLock)
    requires Inv(s) && t < |s.pcs| <= Pow2(half) && (s.pcs[t].TryX? || s.pcs[t].TryS?)
    requires Others(a, t) && Others(b, t) && TryFitsAll(Pow2(half), s, TryRun(a, b, t))
    ensures r == WordRun(Image(half, s), TryRun(a, b, t)) && |r.pcs| == |s.pcs|
    ensures var tail := Run(s, a).tail;
            if (if s.pcs[t].TryX? then tail == s.pcs[t].head else tail.x == s.pcs[t].head.x) &&
               Run(s, a + [Event(t, Go)] + b).tail == tail
            then if s.pcs[t].TryX? then r.pcs[t].HoldX? else r.pcs[t].HoldS?
            else r.pcs[t].Out?
  {
    RunExact(half, s, TryRun(a, b, t));
    var s1, s2, m;
    if s.pcs[t].TryX? { s1, s2, m := TryExclusiveExactly(s, t, a, b); }
    else { s1, s2, m := TrySharedExactly(s, t, a, b); }
    r := Image(half, m);
  }

  // Fewer than b tickets of each kind are out when a thread is outside.
  lemma OutsideFits(half: nat, s: State, t: nat)
    requires Inv(s) && t < |s.pcs| <= Pow2(half) && s.pcs[t].Out?
    ensures s.tail.x < s.head.x + Pow2(half) && s.tail.s < s.head.s + Pow2(half)
  {
    forall i, j | 0 <= i < j < |s.writers + [t]| ensures (s.writers + [t])[i] != (s.writers + [t])[j] {
      assert WriterInv(s, i) && (j < |s.writers| ==> WriterInv(s, j));
    }
    forall j | 0 <= j < |s.writers + [t]| ensures (s.writers + [t])[j] < |s.pcs| {
      assert j < |s.writers| ==> WriterInv(s, j);
    }
    DistinctSeq(s.writers + [t], |s.pcs|);
    NotAllReaders(s.pcs, s.tail.x, t);
  }

  lemma SoloFits(half: nat, s: State, t: nat, shared: bool)
    requires Inv(s) && t < |s.pcs| <= Pow2(half) && s.pcs[t].Out?
    ensures TryFitsAll(Pow2(half), s, [Event(t, if shared then TryLockShared else TryLock), Event(t, Go), Event(t, Go)])
  {
    var e0, e := Event(t, if shared then TryLockShared else TryLock), Event(t, Go);
    OutsideFits(half, s, t);
    RunOne(s, e0);
    RunOne(Step(s, e0), e);
    RunOne(Step(Step(s, e0), e), e);
    assert [e0, e, e][1..] == [e, e] && [e, e][1..] == [e] && [e][1..] == [];
    assert TryFitsAll(Pow2(half), Step(Step(s, e0), e), [e]);
    assert TryFitsAll(Pow2(half), Step(s, e0), [e, e]);
  }

  predicate NoWordWriter(v: WordLock) { forall u :: 0 <= u < |v.pcs| ==> !v.pcs[u].Exclusive() }

  predicate WordUnused(v: WordLock) {
    forall u :: 0 <= u < |v.pcs| ==> !v.pcs[u].Exclusive() && !v.pcs[u].Shared()
  }

  // In every run on words that meets the premise, with no other thread in between, try_lock_shared
  // succeeds exactly when there is no writer, and try_lock exactly when the lock is not in use.
  lemma WordSoloTry(half: nat, threads: nat, before: seq<Event>, t: nat, shared: bool) returns (r: WordLock)
    requires t < threads <= Pow2(half) && (InitInv(threads); TryFitsAll(Pow2(half), Init(threads), before))
    requires var v := WordRun(WordInit(half, threads), before); t < |v.pcs| && v.pcs[t].Out?
    ensures var v := WordRun(WordInit(half, threads), before);
            && r == WordRun(v, [Event(t, if shared then TryLockShared else TryLock), Event(t, Go), Event(t, Go)])
            && |r.pcs| == |v.pcs| == threads
            && (if shared then r.pcs[t].HoldS? <==> NoWordWriter(v) else r.pcs[t].HoldX? <==> WordUnused(v))
            && (!r.pcs[t].HoldS? && !r.pcs[t].HoldX? ==> r.pcs[t].Out? && r.tail == v.tail)
  {
    InitInv(threads);
    InitImage(half, threads);
    RunExact(half, Init(threads), before);
    SameNumber(Init(threads), before);
    var s := Run(Init(threads), before);
    var v := WordRun(WordInit(half, threads), before);
    SoloFits(half, s, t, shared);
    RunExact(half, s, [Event(t, if shared then TryLockShared else TryLock), Event(t, Go), Event(t, Go)]);
    var m := SoloTry(s, t, shared);
    r := Image(half, m);
    SameKinds(half, s);
  }

  lemma SameKinds(half: nat, s: State)
    ensures NoWordWriter(Image(half, s)) <==> NoWriter(s)
    ensures WordUnused(Image(half, s)) <==> Unused(s)
  {
    var v := Image(half, s);
    forall u | 0 <= u < |s.pcs|
      ensures v.pcs[u].Exclusive() == s.pcs[u].Exclusive() && v.pcs[u].Shared() == s.pcs[u].Shared()
    {
    }
  }
}
