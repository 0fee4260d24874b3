/**
 shared_ticket_lock of evenk/spinlock.h with a pair of unbounded counters in place of each word:
 `x` counts exclusive tickets and `s` shared ones.
 */
module TicketLock {

  datatype Ticket = Ticket(x: nat, s: nat)

  // Program counters, named after the access the thread makes next, or after the lock it holds.
  // A thread in TryX, TryS has loaded the head; one in CasX, CasS has found the test to pass on
  // the tail it loaded.
  datatype Pc<W> =
    | Out
    | WantX(ticket: W)
    | HoldX(ticket: W)
    | DropX(head: W)
    | WantS(ticket: W)
    | HoldS(ticket: W)
    | TryX(head: W)
    | CasX(tail: W)
    | TryS(head: W)
    | CasS(tail: W)
  {
    predicate Exclusive() { WantX? || HoldX? || DropX? }
    predicate Shared() { WantS? || HoldS? }
    predicate Writing() { HoldX? || DropX? }
  }

  // `writers` lists the threads with an exclusive ticket, in the order of their tickets.
  datatype State = State(head: Ticket, tail: Ticket, pcs: seq<Pc<Ticket>>, writers: seq<nat>)

  datatype Action = Lock | LockShared | TryLock | TryLockShared | Go

  datatype Event = Event(thread: nat, action: Action)

  function Init(threads: nat): State {
    State(Ticket(0, 0), Ticket(0, 0), seq(threads, _ => Out), [])
  }

  function Goto(s: State, t: nat, pc: Pc<Ticket>): State
    requires t < |s.pcs|
  {
    s.(pcs := s.pcs[t := pc])
  }

  // The exclusive ticket of a thread.  Between the load and the store of unlock() it is the head.
  function TicketOf(pc: Pc<Ticket>): Ticket
    requires pc.Exclusive()
  {
    if pc.DropX? then pc.head else pc.ticket
  }

  // tail_.fetch_add(exclusive_step)
  function TakeX(s: State, t: nat): State
    requires t < |s.pcs|
  {
    Goto(s, t, WantX(s.tail)).(tail := s.tail.(x := s.tail.x + 1), writers := s.writers + [t])
  }

  // tail_.fetch_add(shared_step)
  function TakeS(s: State, t: nat): State
    requires t < |s.pcs|
  {
    Goto(s, t, WantS(s.tail)).(tail := s.tail.(s := s.tail.s + 1))
  }

  // The compare-exchange of try_lock and of try_lock_shared.
  function CasTailX(s: State, t: nat): State
    requires t < |s.pcs| && s.pcs[t].CasX?
  {
    var tail := s.pcs[t].tail;
    if s.tail == tail then
      Goto(s, t, HoldX(tail)).(tail := tail.(x := tail.x + 1), writers := s.writers + [t])
    else Goto(s, t, Out)
  }

  function CasTailS(s: State, t: nat): State
    requires t < |s.pcs| && s.pcs[t].CasS?
  {
    var tail := s.pcs[t].tail;
    if s.tail == tail then Goto(s, t, HoldS(tail)).(tail := tail.(s := tail.s + 1)) else Goto(s, t, Out)
  }

  // head_.store(head + exclusive_step): the second half of unlock().
  function StoreHead(s: State, t: nat): State
    requires t < |s.pcs| && s.pcs[t].DropX?
  {
    var head := s.pcs[t].head;
    Goto(s, t, Out).(head := head.(x := head.x + 1), writers := if s.writers == [] then [] else s.writers[1..])
  }

  // head_.fetch_add(shared_step)
  function AddHead(s: State, t: nat): State
    requires t < |s.pcs|
  {
    Goto(s, t, Out).(head := s.head.(s := s.head.s + 1))
  }

  function Step(s: State, e: Event): State {
    var t := e.thread;
    if t >= |s.pcs| then s else
    match s.pcs[t]
    case Out =>
      (match e.action
       case Lock => TakeX(s, t)
       case LockShared => TakeS(s, t)
       case TryLock => Goto(s, t, TryX(s.head))
       case TryLockShared => Goto(s, t, TryS(s.head))
       case Go => s)
    case WantX(ticket) => if ticket == s.head then Goto(s, t, HoldX(ticket)) else s
    case HoldX(_) => Goto(s, t, DropX(s.head))
    case DropX(_) => StoreHead(s, t)
    case WantS(ticket) => if ticket.x == s.head.x then Goto(s, t, HoldS(ticket)) else s
    case HoldS(_) => AddHead(s, t)
    case TryX(head) => Goto(s, t, if head == s.tail then CasX(s.tail) else Out)
    case CasX(_) => CasTailX(s, t)
    case TryS(head) => Goto(s, t, if head.x == s.tail.x then CasS(s.tail) else Out)
    case CasS(_) => CasTailS(s, t)
  }

  // ---------------------------------------------------------------------------
  // The invariant

  predicate ReaderUpTo(pc: Pc<Ticket>, k: nat) { pc.Shared() && pc.ticket.x <= k }

  // The number of threads with a shared ticket taken before exclusive ticket k + 1.
  function Readers(pcs: seq<Pc<Ticket>>, k: nat): (n: nat)
    ensures n <= |pcs|
  {
    if pcs == [] then 0
    else Readers(pcs[..|pcs| - 1], k) + (if ReaderUpTo(pcs[|pcs| - 1], k) then 1 else 0)
  }

  predicate ThreadInv(s: State, t: nat)
    requires t < |s.pcs|
  {
    var pc := s.pcs[t];
    && (pc.Exclusive() ==>
          var k := TicketOf(pc);
          && s.head.x <= k.x < s.tail.x && s.head.x + |s.writers| == s.tail.x
          && s.writers[k.x - s.head.x] == t
          && k.s == s.head.s + Readers(s.pcs, k.x))
    && (pc.Writing() ==> TicketOf(pc) == s.head)
    && (pc.Shared() ==> s.head.x <= pc.ticket.x <= s.tail.x)
    && (pc.HoldS? ==> pc.ticket.x == s.head.x)
    && (pc.TryX? || pc.TryS? ==> pc.head.x <= s.head.x && pc.head.s <= s.head.s)
    && (pc.CasX? ==> pc.tail.x <= s.head.x && pc.tail.s <= s.head.s)
    && (pc.CasS? ==> pc.tail.x <= s.head.x && pc.tail.s <= s.tail.s)
  }

  predicate WriterInv(s: State, j: nat)
    requires j < |s.writers|
  {
    var t := s.writers[j];
    t < |s.pcs| && s.pcs[t].Exclusive() && TicketOf(s.pcs[t]).x == s.head.x + j
  }

  ghost predicate Inv(s: State) {
    && s.head.x + |s.writers| == s.tail.x
    && s.tail.s == s.head.s + Readers(s.pcs, s.tail.x)
    && (forall t: nat :: t < |s.pcs| ==> ThreadInv(s, t))
    && (forall j: nat :: j < |s.writers| ==> WriterInv(s, j))
  }

  // ---------------------------------------------------------------------------
  // Counting readers

  lemma {:induction false} ReadersUpdate(pcs: seq<Pc<Ticket>>, t: nat, pc: Pc<Ticket>, k: nat)
    requires t < |pcs|
    ensures Readers(pcs[t := pc], k) + (if ReaderUpTo(pcs[t], k) then 1 else 0)
            == Readers(pcs, k) + (if ReaderUpTo(pc, k) then 1 else 0)
    decreases |pcs|
  {
    var n := |pcs| - 1;
    if t == n {
      assert pcs[t := pc][..n] == pcs[..n];
    } else {
      assert pcs[t := pc][..n] == pcs[..n][t := pc];
      ReadersUpdate(pcs[..n], t, pc, k);
    }
  }

  lemma {:induction false} ReadersMore(pcs: seq<Pc<Ticket>>, k: nat, m: nat)
    requires k <= m
    requires forall t :: 0 <= t < |pcs| && pcs[t].Shared() ==> pcs[t].ticket.x <= k || m < pcs[t].ticket.x
    ensures Readers(pcs, k) == Readers(pcs, m)
    decreases |pcs|
  {
    if pcs != [] { ReadersMore(pcs[..|pcs| - 1], k, m); }
  }

  lemma {:induction false} SomeReader(pcs: seq<Pc<Ticket>>, k: nat) returns (t: nat)
    requires 0 < Readers(pcs, k)
    ensures t < |pcs| && ReaderUpTo(pcs[t], k)
    decreases |pcs|
  {
    var n := |pcs| - 1;
    if ReaderUpTo(pcs[n], k) {
      t := n;
    } else {
      t := SomeReader(pcs[..n], k);
    }
  }

  lemma {:induction false} ReaderCounted(pcs: seq<Pc<Ticket>>, k: nat, t: nat)
    requires t < |pcs| && ReaderUpTo(pcs[t], k)
    ensures 0 < Readers(pcs, k)
    decreases |pcs|
  {
    if t < |pcs| - 1 { ReaderCounted(pcs[..|pcs| - 1], k, t); }
  }
}
