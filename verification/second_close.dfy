/**
 The ring when close() is called more than once.  The guard of close() stops nobody, so each call
 cuts the tail again and moves last_ on.
 */
module SecondClose {
  import opened Values
  import opened SpinRing
  import opened SpinRingInv
  import opened SpinRingTheorems

  // As in the ring, except that close() may be called again.
  function StepAgain(s: State, e: Event): State
    requires Shape(s)
  {
    var t := e.thread;
    if t < |s.pcs| && s.pcs[t].Idle? && e.action.StartClose? then s.(phase := Started(t), pcs := s.pcs[t := CloseCas])
    else Step(s, e)
  }

  lemma StepAgainCore(s: State, e: Event)
    requires Core(s)
    ensures Core(StepAgain(s, e))
  {
    var t := e.thread;
    if t < |s.pcs| && s.pcs[t].Idle? && e.action.StartClose? {
      MoveCore(s, t, CloseCas);
      PhaseCore(s.(pcs := s.pcs[t := CloseCas]), Started(t));
    } else {
      StepCore(s, e);
    }
  }

  lemma PhaseCore(s: State, phase: Phase)
    requires Core(s)
    ensures Core(s.(phase := phase))
  {
    var r := s.(phase := phase);
    forall c: nat ensures TicketInv(r, c) { assert TicketInv(s, c); }
    forall u: nat | u < |r.pcs| ensures ThreadInv(r, u) { assert ThreadInv(s, u); }
    forall c: nat | c < r.tail ensures PushOwner(r, c) { assert PushOwner(s, c); }
    forall c: nat | c < r.head ensures PopOwner(r, c) { assert PopOwner(s, c); }
  }

  ghost function RunAgain(s: State, events: seq<Event>): (r: State)
    requires Core(s)
    ensures Core(r)
    decreases |events|
  {
    if events == [] then s
    else
      StepAgainCore(s, events[0]);
      RunAgain(StepAgain(s, events[0]), events[1..])
  }

  lemma RunFirst(s: State, e: Event, rest: seq<Event>)
    requires Core(s)
    ensures Core(StepAgain(s, e)) && RunAgain(s, [e] + rest) == RunAgain(StepAgain(s, e), rest)
  {
    StepAgainCore(s, e);
    assert ([e] + rest)[1..] == rest;
  }

  // ---------------------------------------------------------------------------
  // The tickets that a close() jumps over

  // Ticket c was jumped over, and last_ has moved past it.
  predicate Skipped(s: State, c: nat) {
    c < |s.pushed| && s.pushed[c].PushGap? && c < s.last <= s.tail
  }

  // Whoever holds ticket c still waits.
  predicate Waiting(s: State, c: nat) { c < |s.popped| ==> s.popped[c].PopPending? }

  // A step leaves the entry of a jumped ticket alone, and neither serves nor refuses it.
  lemma SkippedStep(s: State, e: Event, c: nat)
    requires Core(s) && Skipped(s, c) && Waiting(s, c)
    ensures Skipped(StepAgain(s, e), c) && Waiting(StepAgain(s, e), c)
  {
    var r := StepAgain(s, e);
    StepAgainCore(s, e);
    if e.thread < |s.pcs| { assert ThreadInv(s, e.thread); }
    assert TicketInv(s, c) && TicketInv(r, c);
  }

  lemma {:induction false} SkippedForGood(s: State, events: seq<Event>, c: nat)
    requires Core(s) && Skipped(s, c) && Waiting(s, c)
    ensures Skipped(RunAgain(s, events), c) && Waiting(RunAgain(s, events), c)
    decreases |events|
  {
    if events != [] {
      StepAgainCore(s, events[0]);
      SkippedStep(s, events[0], c);
      SkippedForGood(StepAgain(s, events[0]), events[1..], c);
    }
  }

  // The entries of the tickets jumped over by the first close() stay, whatever is called.
  lemma {:induction false} GapStays(s: State, events: seq<Event>, c: nat)
    requires Core(s) && s.last <= s.tail && c < |s.pushed| && s.pushed[c].PushGap?
    ensures var r := RunAgain(s, events); c < |r.pushed| && r.pushed[c].PushGap? && r.last <= r.tail
    decreases |events|
  {
    if events != [] {
      StepAgainCore(s, events[0]);
      if events[0].thread < |s.pcs| { assert ThreadInv(s, events[0].thread); }
      GapStays(StepAgain(s, events[0]), events[1..], c);
    }
  }

  // A ring is closed, and later closed again: as soon as the second cut has moved last_ past a
  // ticket c that the first one jumped over, unless its consumer was refused before, that ticket is
  // never served and never refused.  The consumer that holds it, now or later, waits forever.
  lemma SecondCloseStrands(s: State, events: seq<Event>, more: seq<Event>, c: nat)
    requires Reachable(s) && s.phase.Shut? && s.last <= c < s.last + s.size
    requires (ReachableInv(s); c < RunAgain(s, events).last && Waiting(RunAgain(s, events), c))
    ensures Inv(s)
    ensures var r := RunAgain(RunAgain(s, events), more);
            && !Published(r, c) && !PastLast(r, c)
            && Waiting(r, c)
            && (c < r.head ==> exists u :: 0 <= u < |r.pcs| && r.pcs[u].Popping() && r.pcs[u].count == c)
  {
    ReachableInv(s);
    assert CloseInv(s);
    GapStays(s, events, c);
    var mid := RunAgain(s, events);
    SkippedForGood(mid, more, c);
    var r := RunAgain(mid, more);
    if c < r.head { assert PopOwner(r, c); }
  }

  // The second cut happens whenever a thread calls close() again: three accesses of an idle thread
  // move last_ past every ticket of the first gap and settle no ticket.
  lemma SecondCutMovesLast(s: State, t: nat)
    requires Reachable(s) && s.phase.Shut? && t < |s.pcs| && s.pcs[t].Idle?
    ensures Inv(s)
    ensures var r := RunAgain(s, [Event(t, StartClose), Event(t, Go(false)), Event(t, Go(false))]);
            && s.last + s.size <= s.tail == r.last && r.popped == s.popped
            && forall c: nat :: s.last <= c < s.last + s.size && Waiting(s, c) ==> Skipped(r, c) && Waiting(r, c)
  {
    ReachableInv(s);
    assert CloseInv(s);
    var e1, e2 := Event(t, StartClose), Event(t, Go(false));
    assert [e1, e2, e2] == [e1] + ([e2] + ([e2] + []));
    RunFirst(s, e1, [e2] + ([e2] + []));
    var s1 := StepAgain(s, e1);
    RunFirst(s1, e2, [e2] + []);
    var s2 := StepAgain(s1, e2);
    RunFirst(s2, e2, []);
  }

  // Such a consumer exists as soon as the tickets are handed out so far: a consumer that comes when
  // the head stands at a jumped ticket gets that ticket and is stranded.
  lemma NextConsumerStranded(s: State, t: nat, more: seq<Event>)
    requires Core(s) && Skipped(s, s.head) && t < |s.pcs| && s.pcs[t].Idle?
    ensures Core(TakePop(s, t))
    ensures var r := RunAgain(TakePop(s, t), more); s.head < |r.popped| && r.popped[s.head] == PopPending(t)
  {
    TakePopCore(s, t);
    SkippedForGood(TakePop(s, t), more, s.head);
    StaysWith(TakePop(s, t), more, s.head, t);
  }

  lemma {:induction false} StaysWith(s: State, events: seq<Event>, c: nat, t: nat)
    requires Core(s) && Skipped(s, c) && c < s.head && s.popped[c] == PopPending(t)
    ensures c < |RunAgain(s, events).popped| && RunAgain(s, events).popped[c] == PopPending(t)
    decreases |events|
  {
    if events != [] {
      StepAgainCore(s, events[0]);
      SkippedStep(s, events[0], c);
      if events[0].thread < |s.pcs| { assert ThreadInv(s, events[0].thread); }
      StaysWith(StepAgain(s, events[0]), events[1..], c, t);
    }
  }

  // ---------------------------------------------------------------------------
  // A run

  // Thread 0 closes the ring.
  function OneClose(): seq<Event> {
    [Event(0, StartClose), Event(0, Go(false)), Event(0, Go(false)), Event(0, Go(false))]
  }

  lemma {:induction false} RunAgainAppend(s: State, a: seq<Event>, b: seq<Event>)
    requires Core(s)
    ensures RunAgain(s, a + b) == RunAgain(RunAgain(s, a), b)
    decreases |a|
  {
    if a == [] {
      assert a + b == b;
    } else {
      assert (a + b)[1..] == a[1..] + b;
      StepAgainCore(s, a[0]);
      RunAgainAppend(StepAgain(s, a[0]), a[1..], b);
    }
  }

  // What one close() of an idle thread does to a ring that is open or closed.
  lemma AfterOneClose(s: State)
    requires Core(s) && 0 < |s.pcs| && s.pcs[0].Idle? && s.closed != Closing
    ensures var r := RunAgain(s, OneClose());
            && r.last == s.tail && r.tail == s.tail + s.size && r.head == s.head && r.closed == Closed
            && r.pcs == s.pcs && r.size == s.size && r.pushed == s.pushed + seq(s.size, _ => PushGap)
  {
    var e1, e2 := Event(0, StartClose), Event(0, Go(false));
    assert OneClose() == [e1] + ([e2] + ([e2] + ([e2] + [])));
    RunFirst(s, e1, [e2] + ([e2] + ([e2] + [])));
    var s1 := StepAgain(s, e1);
    RunFirst(s1, e2, [e2] + ([e2] + []));
    var s2 := StepAgain(s1, e2);
    RunFirst(s2, e2, [e2] + []);
    var s3 := StepAgain(s2, e2);
    RunFirst(s3, e2, []);
    assert StepAgain(s3, e2).pcs == s.pcs;
  }

  // From the empty ring of any size, close() called twice strands the very first consumer: it takes
  // ticket 0 and waits for it through every continuation.
  lemma TwoClosesStrand(size: nat, threads: nat, blank: Value, more: seq<Event>)
    requires 0 < size && 2 <= threads
    ensures Core(Init(size, threads, blank))
    ensures var r := RunAgain(Init(size, threads, blank), OneClose() + OneClose() + [Event(1, StartPop)] + more);
            0 < r.head && r.popped[0] == PopPending(1) && r.closed == Closed
  {
    InitInv(size, threads, blank);
    var s := Init(size, threads, blank);
    var e := Event(1, StartPop);
    RunAgainAppend(s, OneClose() + OneClose() + [e], more);
    RunAgainAppend(s, OneClose() + OneClose(), [e]);
    RunAgainAppend(s, OneClose(), OneClose());
    AfterOneClose(s);
    var s1 := RunAgain(s, OneClose());
    AfterOneClose(s1);
    var s2 := RunAgain(s1, OneClose());
    assert Skipped(s2, s2.head);
    assert [e] == [e] + [];
    RunFirst(s2, e, []);
    NextConsumerStranded(s2, 1, more);
    StaysShut(TakePop(s2, 1), more);
  }

  lemma {:induction false} StaysShut(s: State, events: seq<Event>)
    requires Core(s) && s.closed == Closed
    ensures RunAgain(s, events).closed == Closed
    decreases |events|
  {
    if events != [] {
      StepAgainCore(s, events[0]);
      StaysShut(StepAgain(s, events[0]), events[1..]);
    }
  }
}
