/** What holds in every run of the shared ticket lock. */
module TicketLockTheorems {
  import opened Pigeonhole
  import opened TicketLock
  import opened TicketLockInv

  ghost function Run(s: State, events: seq<Event>): (r: State)
    requires Inv(s)
    ensures Inv(r)
    decreases |events|
  {
    if events == [] then s
    else
      StepInv(s, events[0]);
      Run(Step(s, events[0]), events[1..])
  }

  ghost predicate Reachable(s: State) {
    exists threads: nat, events: seq<Event> :: (InitInv(threads); s == Run(Init(threads), events))
  }

  lemma ReachableInv(s: State)
    requires Reachable(s)
    ensures Inv(s)
  {
    var threads: nat, events: seq<Event> :| (InitInv(threads); s == Run(Init(threads), events));
  }

  // ---------------------------------------------------------------------------
  // Safety

  // A writer shares the lock with nobody.
  lemma WriterAlone(s: State, t: nat, u: nat)
    requires Reachable(s) && t < |s.pcs| && u < |s.pcs| && t != u && s.pcs[t].Writing()
    ensures !s.pcs[u].Writing() && !s.pcs[u].HoldS?
  {
    ReachableInv(s);
    assert ThreadInv(s, t) && ThreadInv(s, u);
    if s.pcs[u].HoldS? { ReaderCounted(s.pcs, s.head.x, u); }
  }

  // The load and the store of unlock() lose no update: nobody else can touch the head in between.
  lemma UnlockLosesNothing(s: State, t: nat)
    requires Reachable(s) && t < |s.pcs| && s.pcs[t].DropX?
    ensures s.pcs[t].head == s.head
    ensures StoreHead(s, t).head == Ticket(s.head.x + 1, s.head.s)
    ensures forall e: Event :: e.thread != t ==> Step(s, e).head == s.head
  {
    ReachableInv(s);
    assert ThreadInv(s, t);
    forall e: Event | e.thread != t ensures Step(s, e).head == s.head {
      if e.thread < |s.pcs| { WriterAlone(s, t, e.thread); }
    }
  }

  // try_lock takes the lock only when nobody holds it or waits for it, try_lock_shared only when
  // no writer does.
  lemma TryTakesFreeLock(s: State, t: nat)
    requires Reachable(s) && t < |s.pcs|
    ensures s.pcs[t].CasX? && s.tail == s.pcs[t].tail ==>
              forall u :: 0 <= u < |s.pcs| ==> !s.pcs[u].Exclusive() && !s.pcs[u].Shared()
    ensures s.pcs[t].CasS? && s.tail == s.pcs[t].tail ==>
              forall u :: 0 <= u < |s.pcs| ==> !s.pcs[u].Exclusive()
  {
    ReachableInv(s);
    assert ThreadInv(s, t);
    forall u: nat | u < |s.pcs|
      ensures s.head.x == s.tail.x ==> !s.pcs[u].Exclusive()
      ensures s.head == s.tail ==> !s.pcs[u].Shared()
    {
      assert ThreadInv(s, u);
      if s.pcs[u].Shared() { ReaderCounted(s.pcs, s.tail.x, u); }
    }
  }

  // ---------------------------------------------------------------------------
  // Progress

  predicate Enabled(s: State, t: nat)
    requires t < |s.pcs|
  {
    || (s.pcs[t].WantX? && s.pcs[t].ticket == s.head)
    || (s.pcs[t].WantS? && s.pcs[t].ticket.x == s.head.x)
  }

  predicate Holding(pc: Pc<Ticket>) { pc.Writing() || pc.HoldS? }

  // As long as anybody waits, somebody holds the lock or can take it now.
  lemma NeverStuck(s: State, t: nat) returns (u: nat)
    requires Reachable(s) && t < |s.pcs| && (s.pcs[t].Exclusive() || s.pcs[t].Shared())
    ensures u < |s.pcs| && (Holding(s.pcs[u]) || Enabled(s, u))
  {
    ReachableInv(s);
    assert ThreadInv(s, t);
    if s.writers == [] {
      u := t;
    } else {
      var w := s.writers[0];
      assert WriterInv(s, 0) && ThreadInv(s, w);
      if Readers(s.pcs, s.head.x) == 0 {
        u := w;
      } else {
        u := SomeReader(s.pcs, s.head.x);
        assert ThreadInv(s, u);
      }
    }
  }

  // Who can enter keeps that chance until it enters, whatever the others do.
  lemma StaysEnabled(s: State, t: nat, e: Event)
    requires Reachable(s) && t < |s.pcs| && Enabled(s, t) && e.thread != t
    ensures Enabled(Step(s, e), t)
  {
    ReachableInv(s);
    assert ThreadInv(s, t);
    var u := e.thread;
    if u < |s.pcs| {
      assert ThreadInv(s, u);
      if s.pcs[t].WantX? && s.pcs[u].HoldS? { ReaderCounted(s.pcs, s.head.x, u); }
      if s.pcs[t].WantS? && s.pcs[u].Writing() { ReaderCounted(s.pcs, s.head.x, t); }
    }
  }

  // A waiting writer is held up exactly by earlier writers and by readers ticketed before it.
  lemma WriterWaitsFor(s: State, t: nat)
    requires Reachable(s) && t < |s.pcs| && s.pcs[t].WantX?
    ensures Enabled(s, t) <==>
              forall u :: 0 <= u < |s.pcs| && u != t ==>
                && (s.pcs[u].Exclusive() ==> s.pcs[t].ticket.x < TicketOf(s.pcs[u]).x)
                && (s.pcs[u].Shared() ==> s.pcs[t].ticket.x < s.pcs[u].ticket.x)
  {
    ReachableInv(s);
    var k := s.pcs[t].ticket;
    assert ThreadInv(s, t);
    if Enabled(s, t) {
      forall u: nat | u < |s.pcs| && u != t
        ensures s.pcs[u].Exclusive() ==> k.x < TicketOf(s.pcs[u]).x
        ensures s.pcs[u].Shared() ==> k.x < s.pcs[u].ticket.x
      {
        assert ThreadInv(s, u);
        if ReaderUpTo(s.pcs[u], k.x) { ReaderCounted(s.pcs, k.x, u); }
      }
    } else if k.x != s.head.x {
      assert WriterInv(s, 0);
      assert s.writers[0] != t;
    } else {
      var u := SomeReader(s.pcs, k.x);
    }
  }

  // A waiting reader is held up exactly by writers ticketed before it; the readers between two
  // writers may enter together.
  lemma ReaderWaitsFor(s: State, t: nat)
    requires Reachable(s) && t < |s.pcs| && s.pcs[t].WantS?
    ensures Enabled(s, t) <==>
              forall u :: 0 <= u < |s.pcs| && s.pcs[u].Exclusive() ==> s.pcs[t].ticket.x <= TicketOf(s.pcs[u]).x
  {
    ReachableInv(s);
    assert ThreadInv(s, t);
    forall u: nat | u < |s.pcs| && s.pcs[u].Exclusive()
      ensures Enabled(s, t) ==> s.pcs[t].ticket.x <= TicketOf(s.pcs[u]).x
    {
      assert ThreadInv(s, u);
    }
    if !Enabled(s, t) {
      assert WriterInv(s, 0);
    }
  }

  // ---------------------------------------------------------------------------
  // Outstanding tickets

  lemma {:induction false} NotAllReaders(pcs: seq<Pc<Ticket>>, k: nat, t: nat)
    requires t < |pcs| && !ReaderUpTo(pcs[t], k)
    ensures Readers(pcs, k) < |pcs|
    decreases |pcs|
  {
    if t < |pcs| - 1 { NotAllReaders(pcs[..|pcs| - 1], k, t); }
  }

  // For a waiting thread there are fewer outstanding tickets in front of it than threads.
  lemma Outstanding(s: State, t: nat)
    requires Inv(s) && t < |s.pcs|
    ensures s.pcs[t].WantX? ==>
              s.pcs[t].ticket.x - s.head.x < |s.pcs| && s.pcs[t].ticket.s - s.head.s < |s.pcs|
    ensures s.pcs[t].WantS? ==> s.pcs[t].ticket.x - s.head.x < |s.pcs|
  {
    assert ThreadInv(s, t);
    var ids := if s.pcs[t].WantX? then s.writers else s.writers + [t];
    forall i, j | 0 <= i < j < |ids| && (s.pcs[t].WantX? || s.pcs[t].WantS?) ensures ids[i] != ids[j] {
      assert WriterInv(s, i) && (j < |s.writers| ==> WriterInv(s, j));
    }
    forall j | 0 <= j < |ids| ensures ids[j] < |s.pcs| { assert j < |s.writers| ==> WriterInv(s, j); }
    if s.pcs[t].WantX? { NotAllReaders(s.pcs, s.pcs[t].ticket.x, t); }
    if s.pcs[t].WantX? || s.pcs[t].WantS? { DistinctSeq(ids, |s.pcs|); }
  }
}
