/** Every step of the shared ticket lock keeps its invariant. */
module TicketLockInv {
  import opened TicketLock

  lemma {:induction false} NoReaders(pcs: seq<Pc<Ticket>>, k: nat)
    requires forall t :: 0 <= t < |pcs| ==> !ReaderUpTo(pcs[t], k)
    ensures Readers(pcs, k) == 0
    decreases |pcs|
  {
    if pcs != [] { NoReaders(pcs[..|pcs| - 1], k); }
  }

  lemma InitInv(threads: nat)
    ensures Inv(Init(threads))
  {
    NoReaders(Init(threads).pcs, 0);
  }

  // A thread moves on and keeps its ticket, if it has one.
  lemma MoveInv(s: State, t: nat, pc: Pc<Ticket>)
    requires Inv(s) && t < |s.pcs|
    requires s.pcs[t].Exclusive() == pc.Exclusive() && (pc.Exclusive() ==> TicketOf(pc) == TicketOf(s.pcs[t]))
    requires s.pcs[t].Shared() == pc.Shared() && (pc.Shared() ==> pc.ticket == s.pcs[t].ticket)
    requires pc.Writing() ==> TicketOf(pc) == s.head
    requires pc.HoldS? ==> pc.ticket.x == s.head.x
    requires pc.TryX? || pc.TryS? ==> pc.head.x <= s.head.x && pc.head.s <= s.head.s
    requires pc.CasX? ==> pc.tail.x <= s.head.x && pc.tail.s <= s.head.s
    requires pc.CasS? ==> pc.tail.x <= s.head.x && pc.tail.s <= s.tail.s
    ensures Inv(Goto(s, t, pc))
  {
    var r := Goto(s, t, pc);
    assert ThreadInv(s, t);
    forall k: nat ensures Readers(r.pcs, k) == Readers(s.pcs, k) { ReadersUpdate(s.pcs, t, pc, k); }
    forall u: nat | u < |r.pcs| ensures ThreadInv(r, u) { assert ThreadInv(s, u); }
    forall j: nat | j < |r.writers| ensures WriterInv(r, j) { assert WriterInv(s, j); }
  }

  // A new exclusive ticket; try_lock takes it only when the lock is free.
  lemma GainXInv(s: State, t: nat, pc: Pc<Ticket>)
    requires Inv(s) && t < |s.pcs| && !s.pcs[t].Exclusive() && !s.pcs[t].Shared()
    requires pc == WantX(s.tail) || (pc == HoldX(s.tail) && s.head == s.tail)
    ensures Inv(Goto(s, t, pc).(tail := s.tail.(x := s.tail.x + 1), writers := s.writers + [t]))
  {
    var r := Goto(s, t, pc).(tail := s.tail.(x := s.tail.x + 1), writers := s.writers + [t]);
    forall k: nat ensures Readers(r.pcs, k) == Readers(s.pcs, k) { ReadersUpdate(s.pcs, t, pc, k); }
    assert Readers(s.pcs, s.tail.x) == Readers(s.pcs, r.tail.x) by {
      forall u | 0 <= u < |s.pcs| && s.pcs[u].Shared() ensures s.pcs[u].ticket.x <= s.tail.x { assert ThreadInv(s, u); }
      ReadersMore(s.pcs, s.tail.x, r.tail.x);
    }
    forall u: nat | u < |r.pcs| ensures ThreadInv(r, u) { assert ThreadInv(s, u); }
    forall j: nat | j < |r.writers| ensures WriterInv(r, j) { assert j < |s.writers| ==> WriterInv(s, j); }
  }

  // A new shared ticket; try_lock_shared takes it only when no writer is outstanding.
  lemma GainSInv(s: State, t: nat, pc: Pc<Ticket>)
    requires Inv(s) && t < |s.pcs| && !s.pcs[t].Exclusive() && !s.pcs[t].Shared()
    requires pc == WantS(s.tail) || (pc == HoldS(s.tail) && s.head.x == s.tail.x)
    ensures Inv(Goto(s, t, pc).(tail := s.tail.(s := s.tail.s + 1)))
  {
    var r := Goto(s, t, pc).(tail := s.tail.(s := s.tail.s + 1));
    forall k: nat
      ensures Readers(r.pcs, k) == Readers(s.pcs, k) + if s.tail.x <= k then 1 else 0
    {
      ReadersUpdate(s.pcs, t, pc, k);
    }
    forall u: nat | u < |r.pcs| ensures ThreadInv(r, u) { assert ThreadInv(s, u); }
    forall j: nat | j < |r.writers| ensures WriterInv(r, j) { assert WriterInv(s, j); }
  }

  lemma StoreHeadInv(s: State, t: nat)
    requires Inv(s) && t < |s.pcs| && s.pcs[t].DropX?
    ensures Inv(StoreHead(s, t))
  {
    var r := StoreHead(s, t);
    assert ThreadInv(s, t) && WriterInv(s, 0);
    forall k: nat ensures Readers(r.pcs, k) == Readers(s.pcs, k) { ReadersUpdate(s.pcs, t, Out, k); }
    forall u: nat | u < |r.pcs| ensures ThreadInv(r, u) {
      assert ThreadInv(s, u);
      if s.pcs[u].Shared() && s.pcs[u].ticket.x <= s.head.x { ReaderCounted(s.pcs, s.head.x, u); }
    }
    forall j: nat | j < |r.writers| ensures WriterInv(r, j) { assert WriterInv(s, j + 1); }
  }

  lemma AddHeadInv(s: State, t: nat)
    requires Inv(s) && t < |s.pcs| && s.pcs[t].HoldS?
    ensures Inv(AddHead(s, t))
  {
    var r := AddHead(s, t);
    assert ThreadInv(s, t);
    forall k: nat
      ensures Readers(r.pcs, k) == Readers(s.pcs, k) - if s.head.x <= k then 1 else 0
    {
      ReadersUpdate(s.pcs, t, Out, k);
    }
    forall u: nat | u < |r.pcs| ensures ThreadInv(r, u) {
      assert ThreadInv(s, u);
      if s.pcs[u].Writing() { ReaderCounted(s.pcs, s.head.x, t); }
    }
    forall j: nat | j < |r.writers| ensures WriterInv(r, j) { assert WriterInv(s, j); }
  }

  lemma StepInv(s: State, e: Event)
    requires Inv(s)
    ensures Inv(Step(s, e))
  {
    var t := e.thread;
    if t < |s.pcs| {
      assert ThreadInv(s, t);
      match s.pcs[t]
      case Out =>
        match e.action {
          case Lock => GainXInv(s, t, WantX(s.tail));
          case LockShared => GainSInv(s, t, WantS(s.tail));
          case TryLock => MoveInv(s, t, TryX(s.head));
          case TryLockShared => MoveInv(s, t, TryS(s.head));
          case Go =>
        }
      case WantX(ticket) => if ticket == s.head { MoveInv(s, t, HoldX(ticket)); }
      case HoldX(_) => MoveInv(s, t, DropX(s.head));
      case DropX(_) => StoreHeadInv(s, t);
      case WantS(ticket) => if ticket.x == s.head.x { MoveInv(s, t, HoldS(ticket)); }
      case HoldS(_) => AddHeadInv(s, t);
      case TryX(head) => MoveInv(s, t, if head == s.tail then CasX(s.tail) else Out);
      case CasX(tail) =>
        if s.tail == tail { GainXInv(s, t, HoldX(tail)); } else { MoveInv(s, t, Out); }
      case TryS(head) => MoveInv(s, t, if head.x == s.tail.x then CasS(s.tail) else Out);
      case CasS(tail) =>
        if s.tail == tail { GainSInv(s, t, HoldS(tail)); } else { MoveInv(s, t, Out); }
    }
  }
}
