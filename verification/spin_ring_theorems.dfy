/** What holds in every run of the spinning ring. */
module SpinRingTheorems {
  import opened Values
  import opened Residues
  import opened SpinRing
  import opened SpinRingInv

  // ---------------------------------------------------------------------------
  // Runs

  ghost function Run(s: State, events: seq<Event>): (r: State)
    requires Inv(s)
    ensures Inv(r)
    decreases |events|
  {
    if events == [] then s
    else
      StepInv(s, events[0]);
      Run(Step(s, events[0]), events[1..])
  }

  ghost predicate Reachable(s: State) {
    exists size: nat, threads: nat, blank: Value, events: seq<Event> ::
      0 < size && (InitInv(size, threads, blank); s == Run(Init(size, threads, blank), events))
  }

  lemma ReachableInv(s: State)
    requires Reachable(s)
    ensures Inv(s)
  {
    var size: nat, threads: nat, blank: Value, events: seq<Event> :|
      0 < size && (InitInv(size, threads, blank); s == Run(Init(size, threads, blank), events));
  }

  // ---------------------------------------------------------------------------
  // Tickets are settled once and for all

  ghost predicate LedgerGrows(s: State, r: State) {
    && |s.pushed| <= |r.pushed|
    && |s.popped| <= |r.popped|
    && (forall c :: 0 <= c < |s.pushed| && r.pushed[c] != s.pushed[c] ==> s.pushed[c].PushPending?)
    && (forall c :: 0 <= c < |s.popped| && r.popped[c] != s.popped[c] ==> s.popped[c].PopPending?)
  }

  lemma StepLedger(s: State, e: Event)
    requires Inv(s)
    ensures LedgerGrows(s, Step(s, e))
  {
    if e.thread < |s.pcs| { assert ThreadInv(s, e.thread); }
  }

  // A settled ticket keeps its entry through the rest of every run: it is neither stored,
  // delivered, skipped nor refused a second time.
  lemma {:induction false} RunLedger(s: State, events: seq<Event>)
    requires Inv(s)
    ensures LedgerGrows(s, Run(s, events))
    decreases |events|
  {
    if events != [] {
      StepInv(s, events[0]);
      StepLedger(s, events[0]);
      RunLedger(Step(s, events[0]), events[1..]);
    }
  }

  // ---------------------------------------------------------------------------
  // First in, first out

  function ValuesIn(p: seq<PushEntry>): seq<Value> {
    if p == [] then []
    else ValuesIn(p[..|p| - 1]) + (if p[|p| - 1].PushStored? then [p[|p| - 1].value] else [])
  }

  function ValuesOut(q: seq<PopEntry>): seq<Value> {
    if q == [] then []
    else
      var e := q[|q| - 1];
      ValuesOut(q[..|q| - 1]) + (if e.PopDone? && !e.out.Skipped? then [e.out.value] else [])
  }

  // Once the consumers of the first k tickets are through, the values they were given, in ticket
  // order, are exactly the values stored under those tickets, in ticket order.
  lemma {:induction false} DeliveredInOrder(s: State, k: nat)
    requires Reachable(s) && k <= s.head
    requires forall c :: 0 <= c < k ==> s.popped[c].PopDone?
    ensures k <= |s.pushed| && ValuesOut(s.popped[..k]) == ValuesIn(s.pushed[..k])
    decreases k
  {
    ReachableInv(s);
    if k > 0 {
      DeliveredInOrder(s, k - 1);
      assert TicketInv(s, k - 1);
      assert s.popped[..k][..k - 1] == s.popped[..k - 1];
      assert s.pushed[..k][..k - 1] == s.pushed[..k - 1];
    }
  }

  // ---------------------------------------------------------------------------
  // Exclusive access to the values

  predicate InValue<C>(pc: Pc<C>) { pc.PushWrite? || pc.PopRead? }

  // No two threads are ever inside the value of the same slot.
  lemma ExclusiveValue(s: State, t: nat, u: nat)
    requires Reachable(s) && t < |s.pcs| && u < |s.pcs|
    requires InValue(s.pcs[t]) && InValue(s.pcs[u])
    requires s.Index(s.pcs[t].count) == s.Index(s.pcs[u].count)
    ensures t == u
  {
    ReachableInv(s);
    AloneInValue(s, t, u);
  }

  lemma AloneInValue(s: State, t: nat, u: nat)
    requires Inv(s) && t < |s.pcs| && u < |s.pcs|
    requires InValue(s.pcs[t]) && InValue(s.pcs[u])
    requires s.Index(s.pcs[t].count) == s.Index(s.pcs[u].count)
    ensures t == u
  {
    assert ThreadInv(s, t) && ThreadInv(s, u);
    assert TicketInv(s, s.pcs[t].count);
  }

  // ---------------------------------------------------------------------------
  // Close is a clean cut

  // No ticket from last_ on is ever stored, because the tickets jumped by close() are never
  // published and block their slots.
  lemma NothingPastLast(s: State, c: nat)
    requires Inv(s) && s.IsCut() && s.last <= c
    ensures !Published(s, c)
    ensures s.slots[s.Index(c)].ticket < s.last + s.size
  {
    var g := Representative(s.last, s.Index(c), s.size);
    assert TicketInv(s, g) && TicketInv(s, c);
    assert s.pushed[g].PushGap?;
    if g < c { assert s.slots[s.Index(c)].ticket <= g; }
  }

  // Once the tail is cut, exactly the tickets below last_ can succeed, and only the others are
  // ever refused.
  lemma CleanCut(s: State)
    requires Reachable(s) && s.IsCut()
    ensures forall c: nat :: Published(s, c) ==> c < s.last
    ensures forall c: nat :: c < s.tail && s.pushed[c].PushRefused? ==> s.last + s.size <= c
    ensures forall c: nat :: c < s.head && s.popped[c].PopRefused? ==> s.last <= c
    ensures forall c: nat :: c < s.head && s.popped[c].PopDone? ==> c < s.last
  {
    ReachableInv(s);
    forall c: nat | Published(s, c) ensures c < s.last {
      if s.last <= c { NothingPastLast(s, c); }
    }
    forall c: nat | c < s.head && s.popped[c].PopDone? ensures c < s.last {
      assert TicketInv(s, c);
    }
  }

  // Nothing is refused before close() has cut the tail.
  lemma NoRefusalBeforeClose(s: State)
    requires Reachable(s) && s.closed != Closed
    ensures forall c: nat :: c < s.tail ==> !s.pushed[c].PushRefused?
    ensures forall c: nat :: c < s.head ==> !s.popped[c].PopRefused?
  {
    ReachableInv(s);
  }

  // Once one consumer has been told that the ring is closed, every ticket below last_ has been
  // handed to a consumer, and those not yet finished are held by threads still at work on them.
  lemma RefusedPopMeansHandedOut(s: State, r: nat, c: nat)
    requires Reachable(s) && r < s.head && s.popped[r].PopRefused? && c < s.last
    ensures c < s.head
    ensures !s.popped[c].PopDone? ==>
              exists t: nat :: t < |s.pcs| && s.pcs[t].Popping() && s.pcs[t].count == c
  {
    ReachableInv(s);
    assert PopOwner(s, c);
  }

  // The guard of close() compares closed_ with a value that is never stored, so it never stops a
  // close(); the cut is clean because only one close() is called.
  lemma GuardPasses(s: State, t: nat)
    requires Reachable(s) && t < |s.pcs|
    ensures Shape(s) && s.closed != Closing && GuardClose(s, t).pcs[t].CloseCut?
  {
    ReachableInv(s);
  }

  // ---------------------------------------------------------------------------
  // No spurious deadlock

  // The thread is in a wait loop whose exit test fails now.
  predicate Stuck(s: State, t: nat)
    requires Shape(s) && t < |s.pcs|
  {
    var pc := s.pcs[t];
    || ((pc.PushLoad? || pc.PushCheck?) && s.slots[s.Index(pc.count)].ticket != pc.count)
    || ((pc.PopLoad? || pc.PopCheck?) &&
        (s.slots[s.Index(pc.count)].ticket != pc.count || s.slots[s.Index(pc.count)].status == Empty))
  }

  predicate Quiet(s: State)
    requires Shape(s)
  {
    forall t :: 0 <= t < |s.pcs| ==> s.pcs[t].Idle? || Stuck(s, t)
  }

  // The tickets a close() leaves in play.
  function Limit(s: State): nat { if s.IsCut() then s.last else s.tail }

  // The ticket a slot waits for cannot be pending below the limit when all threads are quiet.
  lemma SlotServed(s: State, i: nat)
    requires Inv(s) && Quiet(s) && i < s.size
    ensures Limit(s) <= s.slots[i].ticket || s.head <= s.slots[i].ticket
    ensures s.slots[i].status == Empty ==> Limit(s) <= s.slots[i].ticket
  {
    var c := s.slots[i].ticket;
    assert s.Index(c) == i && TicketInv(s, c);
    assert c < s.tail ==> PushOwner(s, c);
    assert c < s.head ==> PopOwner(s, c);
  }

  // When no thread can move, a waiting consumer finds the ring really empty, or holds a ticket
  // that close() cut off.
  lemma StuckConsumer(s: State, t: nat)
    requires Reachable(s) && (ReachableInv(s); Quiet(s)) && t < |s.pcs| && s.pcs[t].Popping()
    ensures Limit(s) <= s.pcs[t].count
  {
    ReachableInv(s);
    var c := s.pcs[t].count;
    assert ThreadInv(s, t) && TicketInv(s, c);
    SlotServed(s, s.Index(c));
  }

  // When no thread can move, a waiting producer finds the ring really full, or holds a ticket
  // that close() cut off.
  lemma StuckProducer(s: State, t: nat)
    requires Reachable(s) && (ReachableInv(s); Quiet(s)) && t < |s.pcs| && s.pcs[t].Pushing()
    ensures s.head + s.size <= s.pcs[t].count || (s.IsCut() && s.last <= s.pcs[t].count)
  {
    ReachableInv(s);
    var c := s.pcs[t].count;
    var i := s.Index(c);
    assert ThreadInv(s, t) && TicketInv(s, c);
    SlotServed(s, i);
    if c < Limit(s) {
      assert s.Index(s.slots[i].ticket) == i;
      Spacing(s.slots[i].ticket, c, s.size);
    }
  }
}
