/**
 What a thread of the ring does by itself: with its slot ready it finishes its call, past the cut it
 is refused, and otherwise it goes round its wait loop and changes nothing.  Hence a ring that is
 used by one thread at a time is a sequential queue of bounded size.
 */
module RingSolo {
  import opened Values
  import opened Residues
  import opened SpinRing
  import opened SpinRingInv
  import opened SpinRingTheorems

  function Access(t: nat, flag: bool): Event { Event(t, Go(flag)) }

  // Three accesses, of which the second assigns or moves the value; and two.
  function Three(t: nat, ok: bool): seq<Event> { [Access(t, true), Access(t, ok), Access(t, true)] }

  function Two(t: nat): seq<Event> { [Access(t, true), Access(t, true)] }

  lemma FirstAccess(s: State, e: Event, rest: seq<Event>)
    requires Inv(s)
    ensures Inv(Step(s, e)) && Run(s, [e] + rest) == Run(Step(s, e), rest)
  {
    StepInv(s, e);
    assert ([e] + rest)[1..] == rest;
  }

  lemma Accesses(s: State, a: Event, b: Event, c: Event)
    requires Inv(s)
    ensures Inv(Step(s, a)) && Run(s, [a]) == Step(s, a)
    ensures Inv(Step(Step(s, a), b)) && Run(s, [a, b]) == Step(Step(s, a), b)
    ensures Run(s, [a, b, c]) == Step(Step(Step(s, a), b), c)
  {
    StepInv(s, a);
    StepInv(Step(s, a), b);
    StepInv(Step(Step(s, a), b), c);
    assert [a, b, c] == [a] + [b, c] && [b, c] == [b] + [c] && [c] == [c] + [] && [a, b] == [a] + [b];
    assert [b] == [b] + [] && [a] == [a] + [];
    FirstAccess(s, a, []);
    FirstAccess(s, a, [b]);
    FirstAccess(s, a, [b, c]);
    FirstAccess(Step(s, a), b, []);
    FirstAccess(Step(s, a), b, [c]);
    FirstAccess(Step(Step(s, a), b), c, []);
  }

  // ---------------------------------------------------------------------------
  // The wait loops

  // The counters and flags stay as they are, and thread t goes to `pc`.
  predicate Same(s: State, r: State, t: nat, pc: Pc<nat>)
    requires t < |s.pcs|
  {
    && r.pcs == s.pcs[t := pc] && r.size == s.size && r.phase == s.phase && r.last == s.last && r.closed == s.closed
    && r.head == |r.popped| && r.tail == |r.pushed|
  }

  // A producer whose slot is ready: it stores its value, or the assignment throws.
  lemma ProducerFinishes(s: State, t: nat, ok: bool) returns (r: State)
    requires Inv(s) && t < |s.pcs| && s.pcs[t].PushLoad? && !Stuck(s, t)
    ensures r == Run(s, Three(t, ok)) && Same(s, r, t, Idle) && r.popped == s.popped
    ensures r.pushed == s.pushed[s.pcs[t].count := if ok then PushStored(s.pcs[t].value) else PushThrew]
  {
    Accesses(s, Access(t, true), Access(t, ok), Access(t, true));
    r := Step(Step(Step(s, Access(t, true)), Access(t, ok)), Access(t, true));
  }

  // A consumer whose slot is full gets the value stored, unless the move throws.
  lemma ConsumerFinishes(s: State, t: nat, ok: bool) returns (r: State)
    requires Inv(s) && t < |s.pcs| && s.pcs[t].PopLoad? && !Stuck(s, t)
    requires s.slots[s.Index(s.pcs[t].count)].status == Valid
    ensures r == Run(s, Three(t, ok)) && Same(s, r, t, Idle) && r.pushed == s.pushed
    ensures s.pcs[t].count < s.tail && s.pushed[s.pcs[t].count].PushStored?
    ensures var v := s.pushed[s.pcs[t].count].value;
            r.popped == s.popped[s.pcs[t].count := PopDone(if ok then Took(v) else Lost(v))]
  {
    assert TicketInv(s, s.pcs[t].count);
    Accesses(s, Access(t, true), Access(t, ok), Access(t, true));
    r := Step(Step(Step(s, Access(t, true)), Access(t, ok)), Access(t, true));
  }

  // A consumer whose slot was thrown away goes on to the next ticket.
  lemma ConsumerSkips(s: State, t: nat) returns (r: State)
    requires Inv(s) && t < |s.pcs| && s.pcs[t].PopLoad? && !Stuck(s, t)
    requires s.slots[s.Index(s.pcs[t].count)].status == Invalid
    ensures r == Run(s, Three(t, true)) && Same(s, r, t, PopLoad(s.head, false)) && r.pushed == s.pushed
    ensures r.popped == s.popped[s.pcs[t].count := PopDone(Skipped)] + [PopPending(t)]
  {
    Accesses(s, Access(t, true), Access(t, true), Access(t, true));
    r := Step(Step(Step(s, Access(t, true)), Access(t, true)), Access(t, true));
  }

  // A stuck thread loads its slot and comes to the test of is_past_last; `matched` tells the second
  // loop of wait_head.
  function AtTest(s: State, t: nat): Pc<nat>
    requires Shape(s) && t < |s.pcs| && s.pcs[t].Loading()
  {
    match s.pcs[t]
    case PushLoad(c, v) => PushCheck(c, v)
    case PopLoad(c, matched) => PopCheck(c, matched || s.slots[s.Index(c)].ticket == c)
    case pc => pc
  }

  lemma StuckLoads(s: State, t: nat, flag: bool)
    requires Shape(s) && t < |s.pcs| && s.pcs[t].Loading() && Stuck(s, t)
    requires s.pcs[t].PopLoad? && s.pcs[t].matched ==> s.slots[s.Index(s.pcs[t].count)].ticket == s.pcs[t].count
    ensures Step(s, Access(t, flag)) == s.(pcs := s.pcs[t := AtTest(s, t)])
  {
  }

  // Past the cut a thread that waits is refused.
  lemma WaiterRefused(s: State, t: nat) returns (r: State)
    requires Inv(s) && t < |s.pcs| && s.pcs[t].Loading() && Stuck(s, t) && PastLast(s, s.pcs[t].count)
    ensures r == Run(s, Two(t)) && Same(s, r, t, Idle)
    ensures r.pushed == if s.pcs[t].PushLoad? then s.pushed[s.pcs[t].count := PushRefused] else s.pushed
    ensures r.popped == if s.pcs[t].PushLoad? then s.popped else s.popped[s.pcs[t].count := PopRefused]
  {
    assert ThreadInv(s, t);
    Accesses(s, Access(t, true), Access(t, true), Access(t, true));
    StuckLoads(s, t, true);
    var s1 := s.(pcs := s.pcs[t := AtTest(s, t)]);
    TestRefuses(s1, t);
    r := Step(s1, Access(t, true));
  }

  lemma TestRefuses(s: State, t: nat)
    requires Shape(s) && t < |s.pcs| && s.pcs[t].Checking() && PastLast(s, s.pcs[t].count)
    ensures Step(s, Access(t, true)) ==
            if s.pcs[t].PushCheck? then s.(pushed := s.pushed[s.pcs[t].count := PushRefused], pcs := s.pcs[t := Idle])
            else s.(popped := s.popped[s.pcs[t].count := PopRefused], pcs := s.pcs[t := Idle])
  {
  }

  // Otherwise it waits: two accesses bring it back to where it was, in the same loop or the second.
  lemma WaiterWaits(s: State, t: nat) returns (r: State)
    requires Inv(s) && t < |s.pcs| && s.pcs[t].Loading() && Stuck(s, t) && !PastLast(s, s.pcs[t].count)
    ensures r == Run(s, Two(t))
    ensures r == s.(pcs := s.pcs[t := if s.pcs[t].PushLoad? then s.pcs[t]
                                      else PopLoad(s.pcs[t].count, AtTest(s, t).matched)])
  {
    assert ThreadInv(s, t);
    Accesses(s, Access(t, true), Access(t, true), Access(t, true));
    StuckLoads(s, t, true);
    var s1 := s.(pcs := s.pcs[t := AtTest(s, t)]);
    TestWaits(s1, t, true);
    r := Step(s1, Access(t, true));
  }

  lemma TestWaits(s: State, t: nat, flag: bool)
    requires Shape(s) && t < |s.pcs| && s.pcs[t].Checking() && !PastLast(s, s.pcs[t].count)
    ensures Step(s, Access(t, flag)) ==
            s.(pcs := s.pcs[t := match s.pcs[t] case PushCheck(c, v) => PushLoad(c, v)
                                 case PopCheck(c, matched) => PopLoad(c, matched) case pc => pc])
  {
  }

  // ---------------------------------------------------------------------------
  // One thread at a time

  predicate AllIdle(s: State) { forall t :: 0 <= t < |s.pcs| ==> s.pcs[t].Idle? }

  // With all threads outside, every ticket below the limit is settled.
  lemma IdleSettled(s: State, c: nat)
    requires Inv(s) && AllIdle(s)
    ensures c < Limit(s) ==> Published(s, c) && (c < s.head ==> Consumed(s, c))
    ensures !s.IsCut() ==> s.head <= s.tail
  {
    assert TicketInv(s, c) && TicketInv(s, s.tail) && CloseInv(s);
    assert c < s.tail ==> PushOwner(s, c);
    assert c < s.head ==> PopOwner(s, c);
    assert s.tail < s.head ==> PopOwner(s, s.tail);
  }

  // The slot of the next ticket waits for it exactly when the ring has room.
  lemma RoomInIdleRing(s: State)
    requires Inv(s) && AllIdle(s) && !s.IsCut()
    ensures s.slots[s.Index(s.tail)].ticket == s.tail <==> s.tail < s.head + s.size
  {
    var i := s.Index(s.tail);
    var d := s.slots[i].ticket;
    IdleSettled(s, s.tail);
    assert s.Index(d) == i && TicketInv(s, d) && TicketInv(s, s.tail);
    if d < s.tail {
      Spacing(d, s.tail, s.size);
      IdleSettled(s, d);
    } else {
      assert d == s.tail;
      if s.size <= s.tail {
        var b: nat := s.tail - s.size;
        NextRound(b, s.size);
        assert TicketInv(s, b);
      }
    }
  }

  // What a whole call changes: the ledger, the counters, nothing else.
  predicate Becomes(s: State, r: State, pushed: seq<PushEntry>, popped: seq<PopEntry>) {
    && r.pcs == s.pcs && r.size == s.size && r.phase == s.phase && r.last == s.last && r.closed == s.closed
    && r.pushed == pushed && r.tail == |pushed| && r.popped == popped && r.head == |popped|
  }

  // push() on an open ring with room.
  lemma SequentialPush(s: State, t: nat, v: Value, ok: bool) returns (r: State)
    requires Inv(s) && AllIdle(s) && t < |s.pcs| && !s.IsCut() && s.tail < s.head + s.size
    ensures r == Run(s, [Event(t, StartPush(v))] + Three(t, ok))
    ensures Becomes(s, r, s.pushed + [if ok then PushStored(v) else PushThrew], s.popped)
  {
    var e := Event(t, StartPush(v));
    FirstAccess(s, e, Three(t, ok));
    RoomInIdleRing(s);
    r := ProducerFinishes(Step(s, e), t, ok);
    assert s.pcs[t := PushLoad(s.tail, v)][t := Idle] == s.pcs;
  }

  // pop() on a ring that holds a value.
  lemma SequentialPop(s: State, t: nat, ok: bool) returns (r: State)
    requires Inv(s) && AllIdle(s) && t < |s.pcs| && s.head < Limit(s) <= s.tail && s.pushed[s.head].PushStored?
    ensures r == Run(s, [Event(t, StartPop)] + Three(t, ok))
    ensures var v := s.pushed[s.head].value;
            Becomes(s, r, s.pushed, s.popped + [PopDone(if ok then Took(v) else Lost(v))])
  {
    var e := Event(t, StartPop);
    FirstAccess(s, e, Three(t, ok));
    assert TicketInv(s, s.head);
    r := ConsumerFinishes(Step(s, e), t, ok);
    assert s.pcs[t := PopLoad(s.head, false)][t := Idle] == s.pcs;
  }

  // On a full ring, and on an empty one that is open, the caller waits.
  lemma SequentialWait(s: State, t: nat, e: Event)
    requires Inv(s) && AllIdle(s) && e.thread == t < |s.pcs| && !s.IsCut()
    requires (e.action.StartPush? && s.head + s.size <= s.tail) || (e.action.StartPop? && s.head == s.tail)
    ensures Shape(Step(s, e)) && |Step(s, e).pcs| == |s.pcs|
    ensures Step(s, e).pcs[t].Loading() && Stuck(Step(s, e), t) && !PastLast(Step(s, e), Step(s, e).pcs[t].count)
  {
    StepInv(s, e);
    RoomInIdleRing(s);
    assert TicketInv(s, s.tail) && CloseInv(s);
  }

  // close() cuts the ring behind the last ticket and closes it.
  lemma SequentialClose(s: State, t: nat) returns (r: State)
    requires Inv(s) && AllIdle(s) && t < |s.pcs| && s.phase.Running?
    ensures r == Run(s, [Event(t, StartClose)] + Three(t, true))
    ensures r.pcs == s.pcs && r.closed == Closed && r.phase.Shut? && r.last == s.tail && r.tail == s.tail + s.size
    ensures r.head == s.head && r.popped == s.popped && r.slots == s.slots
  {
    var e, a := Event(t, StartClose), Access(t, true);
    FirstAccess(s, e, Three(t, true));
    var s1 := Step(s, e);
    Accesses(s1, a, a, a);
    r := Step(Step(Step(s1, a), a), a);
    assert CloseInv(s);
    assert s.pcs[t := CloseCas][t := CloseCut][t := CloseStore][t := Idle] == s.pcs;
  }

  // After that every push() is refused, and every pop() that finds nothing left.
  lemma SequentialRefusal(s: State, t: nat, e: Event) returns (r: State)
    requires Inv(s) && AllIdle(s) && e.thread == t < |s.pcs| && s.phase.Shut?
    requires e.action.StartPush? || (e.action.StartPop? && s.last <= s.head)
    ensures r == Run(s, [e] + Two(t))
    ensures Becomes(s, r, if e.action.StartPush? then s.pushed + [PushRefused] else s.pushed,
                    if e.action.StartPush? then s.popped else s.popped + [PopRefused])
  {
    FirstAccess(s, e, Two(t));
    var s1 := Step(s, e);
    CutOffWaits(s, t, e);
    r := WaiterRefused(s1, t);
    assert s.pcs[t := s1.pcs[t]][t := Idle] == s.pcs;
  }

  lemma CutOffWaits(s: State, t: nat, e: Event)
    requires Inv(s) && AllIdle(s) && e.thread == t < |s.pcs| && s.phase.Shut?
    requires e.action.StartPush? || (e.action.StartPop? && s.last <= s.head)
    ensures var s1 := Step(s, e);
            && Shape(s1) && t < |s1.pcs| && s1.pcs[t].Loading() && Stuck(s1, t) && PastLast(s1, s1.pcs[t].count)
  {
    StepInv(s, e);
    assert CloseInv(s) && TicketInv(s, s.head);
    NothingPastLast(s, if e.action.StartPush? then s.tail else s.head);
  }
}
