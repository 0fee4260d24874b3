/**
 shared_ticket_lock of evenk/spinlock.h as an object: two words updated in place, and the local
 variables of the threads.  Each method is one atomic access of one thread.
 */
module SharedTicketLock {
  import opened Residues
  import opened Bits
  import opened TicketLock
  import opened TicketLockInv
  import opened TicketLockTheorems
  import opened TicketWords
  import opened TicketWordsTheorems
  import opened TicketTry

  class Lock {
    const half: nat
    var head: nat
    var tail: nat
    var pcs: seq<Pc<nat>>

    ghost function View(): WordLock
      reads this
    {
      WordLock(half, head, tail, pcs)
    }

    constructor (half: nat, threads: nat)
      ensures View() == WordInit(half, threads)
    {
      this.half := half;
      head, tail := 0, 0;
      pcs := seq(threads, _ => Out);
    }

    method FetchAddTail(step: nat) returns (was: nat)
      modifies `tail
      ensures was == old(tail) && tail == old(View()).Plus(old(tail), step)
    {
      was := tail;
      MultipleSign(Pow2(half), Pow2(half));
      tail := (tail + step) % (Pow2(half) * Pow2(half));
    }

    // lock()
    method TakeTicket(t: nat)
      requires t < |pcs| && pcs[t].Out?
      modifies this
      ensures View() == WordStep(old(View()), Event(t, Lock))
    {
      var ticket := FetchAddTail(1);
      pcs := pcs[t := WantX(ticket)];
    }

    method TryEnter(t: nat)
      requires t < |pcs| && pcs[t].WantX?
      modifies this
      ensures View() == WordStep(old(View()), Event(t, Go))
    {
      var ticket := pcs[t].ticket;
      if ticket == head {
        pcs := pcs[t := HoldX(ticket)];
      }
    }

    // unlock(): a load, then a store
    method UnlockLoad(t: nat)
      requires t < |pcs| && pcs[t].HoldX?
      modifies this
      ensures View() == WordStep(old(View()), Event(t, Go))
    {
      pcs := pcs[t := DropX(head)];
    }

    method UnlockStore(t: nat)
      requires t < |pcs| && pcs[t].DropX?
      modifies this
      ensures View() == WordStep(old(View()), Event(t, Go))
    {
      MultipleSign(Pow2(half), Pow2(half));
      head := (pcs[t].head + 1) % (Pow2(half) * Pow2(half));
      pcs := pcs[t := Out];
    }

    // lock_shared()
    method TakeSharedTicket(t: nat)
      requires t < |pcs| && pcs[t].Out?
      modifies this
      ensures View() == WordStep(old(View()), Event(t, LockShared))
    {
      var ticket := FetchAddTail(Pow2(half));
      pcs := pcs[t := WantS(And(ticket, Pow2(half) - 1))];
    }

    method TryEnterShared(t: nat)
      requires t < |pcs| && pcs[t].WantS?
      modifies this
      ensures View() == WordStep(old(View()), Event(t, Go))
    {
      var ticket := pcs[t].ticket;
      if ticket == And(head, Pow2(half) - 1) {
        pcs := pcs[t := HoldS(ticket)];
      }
    }

    method UnlockShared(t: nat)
      requires t < |pcs| && pcs[t].HoldS?
      modifies this
      ensures View() == WordStep(old(View()), Event(t, Go))
    {
      MultipleSign(Pow2(half), Pow2(half));
      head := (head + Pow2(half)) % (Pow2(half) * Pow2(half));
      pcs := pcs[t := Out];
    }

    // try_lock() and try_lock_shared(): a load of the head, a load of the tail with the test, and
    // a compare-exchange of the tail
    method TryLoadHead(t: nat, shared: bool)
      requires t < |pcs| && pcs[t].Out?
      modifies this
      ensures View() == WordStep(old(View()), Event(t, if shared then TryLockShared else TryLock))
    {
      pcs := pcs[t := if shared then TryS(head) else TryX(head)];
    }

    method TryLoadTail(t: nat)
      requires t < |pcs| && (pcs[t].TryX? || pcs[t].TryS?)
      modifies this
      ensures View() == WordStep(old(View()), Event(t, Go))
    {
      var mask := Pow2(half) - 1;
      if pcs[t].TryX? {
        pcs := pcs[t := if pcs[t].head == tail then CasX(tail) else Out];
      } else {
        pcs := pcs[t := if And(pcs[t].head, mask) == And(tail, mask) then CasS(tail) else Out];
      }
    }

    method TryCas(t: nat)
      requires t < |pcs| && (pcs[t].CasX? || pcs[t].CasS?)
      modifies this
      ensures View() == WordStep(old(View()), Event(t, Go))
    {
      var expected := pcs[t].tail;
      if tail != expected {
        pcs := pcs[t := Out];
      } else if pcs[t].CasX? {
        var _ := FetchAddTail(1);
        pcs := pcs[t := HoldX(expected)];
      } else {
        var _ := FetchAddTail(Pow2(half));
        pcs := pcs[t := HoldS(And(expected, Pow2(half) - 1))];
      }
    }

    method Step(e: Event)
      modifies this
      ensures View() == WordStep(old(View()), e)
    {
      var t := e.thread;
      if t < |pcs| {
        match pcs[t]
        case Out =>
          match e.action {
            case Lock => TakeTicket(t);
            case LockShared => TakeSharedTicket(t);
            case TryLock => TryLoadHead(t, false);
            case TryLockShared => TryLoadHead(t, true);
            case Go =>
          }
        case WantX(_) => TryEnter(t);
        case HoldX(_) => UnlockLoad(t);
        case DropX(_) => UnlockStore(t);
        case WantS(_) => TryEnterShared(t);
        case HoldS(_) => UnlockShared(t);
        case TryX(_) => TryLoadTail(t);
        case TryS(_) => TryLoadTail(t);
        case CasX(_) => TryCas(t);
        case CasS(_) => TryCas(t);
      }
    }

    // Any schedule of accesses.
    method Run(events: seq<Event>)
      modifies this
      ensures View() == WordRun(old(View()), events)
    {
      var k := 0;
      assert events[0..] == events;
      while k < |events|
        invariant 0 <= k <= |events|
        invariant WordRun(View(), events[k..]) == WordRun(old(View()), events)
      {
        assert events[k..][0] == events[k] && events[k..][1..] == events[k + 1..];
        Step(events[k]);
        k := k + 1;
      }
    }
  }

  // A lock used by at most 2^half threads: under any schedule that meets the premise of the try
  // operations its words are the packed counters of the unbounded lock, and a writer is alone.
  method CreateAndRun(half: nat, threads: nat, events: seq<Event>) returns (lock: Lock)
    requires threads <= Pow2(half)
    requires (InitInv(threads); TryFitsAll(Pow2(half), Init(threads), events))
    ensures NoOverlap(lock.View())
    ensures Inv(Init(threads)) && lock.View() == Image(half, Run(Init(threads), events))
  {
    lock := new Lock(half, threads);
    lock.Run(events);
    InitInv(threads);
    InitImage(half, threads);
    RunExact(half, Init(threads), events);
    MixedWriterAlone(half, threads, events);
  }
}
