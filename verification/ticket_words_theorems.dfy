/**
 The packed lock does what the lock with unbounded counters does, as long as there are no more
 threads than a counter has values; with one thread more it does not.
 */
module TicketWordsTheorems {
  import opened Residues
  import opened Bits
  import opened TicketLock
  import opened TicketLockInv
  import opened TicketLockTheorems
  import opened TicketWords

  function PackPc(b: nat, pc: Pc<Ticket>): Pc<nat>
    requires 0 < b
  {
    match pc
    case Out => Out
    case WantX(k) => WantX(Pack(b, k))
    case HoldX(k) => HoldX(Pack(b, k))
    case DropX(k) => DropX(Pack(b, k))
    case WantS(k) => WantS(k.x % b)
    case HoldS(k) => HoldS(k.x % b)
    case TryX(k) => TryX(Pack(b, k))
    case CasX(k) => CasX(Pack(b, k))
    case TryS(k) => TryS(Pack(b, k))
    case CasS(k) => CasS(Pack(b, k))
  }

  function PackPcs(b: nat, pcs: seq<Pc<Ticket>>): (r: seq<Pc<nat>>)
    requires 0 < b
    ensures |r| == |pcs|
  {
    seq(|pcs|, (t: nat) requires t < |pcs| => PackPc(b, pcs[t]))
  }

  function Image(half: nat, s: State): WordLock {
    var b := Pow2(half);
    WordLock(half, Pack(b, s.head), Pack(b, s.tail), PackPcs(b, s.pcs))
  }

  lemma InitImage(half: nat, threads: nat)
    ensures WordInit(half, threads) == Image(half, Init(threads))
  {
    var b := Pow2(half);
    MultipleSign(b, b);
    ModUnique(0, 0, 0, b * b);
    assert b * 0 == 0;
    assert WordInit(half, threads).pcs == Image(half, Init(threads)).pcs;
  }

  lemma GotoImage(b: nat, pcs: seq<Pc<Ticket>>, t: nat, pc: Pc<Ticket>)
    requires 0 < b && t < |pcs|
    ensures PackPcs(b, pcs[t := pc]) == PackPcs(b, pcs)[t := PackPc(b, pc)]
  {
  }

  // A thread inside try_lock or try_lock_shared loaded the head while fewer than b of the tickets
  // of each kind issued by now had not been released.
  predicate TryFits(b: nat, s: State, t: nat) {
    t < |s.pcs| ==>
      var pc := s.pcs[t];
      && (pc.TryX? ==> s.tail.x < pc.head.x + b && s.tail.s < pc.head.s + b)
      && (pc.CasX? ==> s.tail.x < pc.tail.x + b && s.tail.s < pc.tail.s + b)
      && (pc.TryS? ==> s.tail.x < pc.head.x + b)
      && (pc.CasS? ==> s.tail.x < pc.tail.x + b && s.tail.s < pc.tail.s + b)
  }

  // ---------------------------------------------------------------------------
  // The comparisons

  lemma MaskLow(half: nat, k: Ticket)
    ensures And(Pack(Pow2(half), k), Pow2(half) - 1) == k.x % Pow2(half)
  {
    AndMask(Pack(Pow2(half), k), half);
    PackLow(Pow2(half), k);
  }

  // The full-word test of lock() and the masked test of lock_shared().
  lemma WaitTestsExact(half: nat, s: State, t: nat)
    requires Inv(s) && |s.pcs| <= Pow2(half) && t < |s.pcs|
    ensures s.pcs[t].WantX? ==>
              (Pack(Pow2(half), s.pcs[t].ticket) == Pack(Pow2(half), s.head) <==> s.pcs[t].ticket == s.head)
    ensures s.pcs[t].WantS? ==>
              (s.pcs[t].ticket.x % Pow2(half) == s.head.x % Pow2(half) <==> s.pcs[t].ticket.x == s.head.x)
  {
    var b := Pow2(half);
    assert ThreadInv(s, t);
    Outstanding(s, t);
    if s.pcs[t].WantX? { PackEqual(b, s.head, s.pcs[t].ticket); }
    if s.pcs[t].WantS? { LowEqual(b, s.head.x, s.pcs[t].ticket.x); }
  }

  // The tests of try_lock and try_lock_shared.
  lemma TryTestsExact(half: nat, s: State, t: nat)
    requires Inv(s) && t < |s.pcs| && TryFits(Pow2(half), s, t)
    ensures var b := Pow2(half);
            var pc := s.pcs[t];
            && (pc.TryX? ==> (Pack(b, pc.head) == Pack(b, s.tail) <==> pc.head == s.tail))
            && (pc.CasX? ==> (Pack(b, pc.tail) == Pack(b, s.tail) <==> pc.tail == s.tail))
            && (pc.TryS? ==> (pc.head.x % b == s.tail.x % b <==> pc.head.x == s.tail.x))
            && (pc.CasS? ==> (Pack(b, pc.tail) == Pack(b, s.tail) <==> pc.tail == s.tail))
  {
    var b := Pow2(half);
    var pc := s.pcs[t];
    assert ThreadInv(s, t);
    assert s.head.x <= s.tail.x && s.head.s <= s.tail.s;
    match pc
    case TryX(k) => PackEqual(b, k, s.tail);
    case CasX(k) => PackEqual(b, k, s.tail);
    case TryS(k) => LowEqual(b, k.x, s.tail.x);
    case CasS(k) => PackEqual(b, k, s.tail);
    case _ =>
  }

  // ---------------------------------------------------------------------------
  // Steps and runs

  lemma OutExact(half: nat, s: State, e: Event)
    requires Inv(s) && e.thread < |s.pcs| && s.pcs[e.thread].Out?
    ensures WordStep(Image(half, s), e) == Image(half, Step(s, e))
  {
    var b := Pow2(half);
    PackSteps(b, s.tail);
    MaskLow(half, s.tail);
    GotoImage(b, s.pcs, e.thread, Step(s, e).pcs[e.thread]);
  }

  lemma HeldExact(half: nat, s: State, e: Event)
    requires Inv(s) && |s.pcs| <= Pow2(half) && e.thread < |s.pcs|
    requires s.pcs[e.thread].Exclusive() || s.pcs[e.thread].Shared()
    ensures WordStep(Image(half, s), e) == Image(half, Step(s, e))
  {
    var b := Pow2(half);
    var t := e.thread;
    assert ThreadInv(s, t);
    WaitTestsExact(half, s, t);
    PackSteps(b, s.head);
    MaskLow(half, s.head);
    GotoImage(b, s.pcs, t, Step(s, e).pcs[t]);
    assert s.pcs[t := s.pcs[t]] == s.pcs;
  }

  lemma TryExact(half: nat, s: State, e: Event)
    requires Inv(s) && e.thread < |s.pcs| && TryFits(Pow2(half), s, e.thread)
    requires var pc := s.pcs[e.thread]; pc.TryX? || pc.CasX? || pc.TryS? || pc.CasS?
    ensures WordStep(Image(half, s), e) == Image(half, Step(s, e))
  {
    if s.pcs[e.thread].TryX? || s.pcs[e.thread].CasX? {
      TryExclusiveExact(half, s, e);
    } else {
      TrySharedExact(half, s, e);
    }
  }

  lemma TryExclusiveExact(half: nat, s: State, e: Event)
    requires Inv(s) && e.thread < |s.pcs| && TryFits(Pow2(half), s, e.thread)
    requires s.pcs[e.thread].TryX? || s.pcs[e.thread].CasX?
    ensures WordStep(Image(half, s), e) == Image(half, Step(s, e))
  {
    var b := Pow2(half);
    var t := e.thread;
    TryTestsExact(half, s, t);
    PackSteps(b, s.tail);
    GotoImage(b, s.pcs, t, Step(s, e).pcs[t]);
  }

  lemma TrySharedExact(half: nat, s: State, e: Event)
    requires Inv(s) && e.thread < |s.pcs| && TryFits(Pow2(half), s, e.thread)
    requires s.pcs[e.thread].TryS? || s.pcs[e.thread].CasS?
    ensures WordStep(Image(half, s), e) == Image(half, Step(s, e))
  {
    var b := Pow2(half);
    var t := e.thread;
    TryTestsExact(half, s, t);
    PackSteps(b, s.tail);
    MaskLow(half, s.tail);
    if s.pcs[t].TryS? { MaskLow(half, s.pcs[t].head); }
    GotoImage(b, s.pcs, t, Step(s, e).pcs[t]);
  }

  lemma StepExact(half: nat, s: State, e: Event)
    requires Inv(s) && |s.pcs| <= Pow2(half) && TryFits(Pow2(half), s, e.thread)
    ensures WordStep(Image(half, s), e) == Image(half, Step(s, e))
  {
    var t := e.thread;
    if t < |s.pcs| {
      var pc := s.pcs[t];
      if pc.Out? {
        OutExact(half, s, e);
      } else if pc.Exclusive() || pc.Shared() {
        HeldExact(half, s, e);
      } else {
        TryExact(half, s, e);
      }
    }
  }

  ghost function WordRun(v: WordLock, events: seq<Event>): WordLock
    decreases |events|
  {
    if events == [] then v else WordRun(WordStep(v, events[0]), events[1..])
  }

  ghost predicate TryFitsAll(b: nat, s: State, events: seq<Event>)
    requires Inv(s)
    decreases |events|
  {
    events != [] ==>
      TryFits(b, s, events[0].thread) && (StepInv(s, events[0]); TryFitsAll(b, Step(s, events[0]), events[1..]))
  }

  lemma {:induction false} RunExact(half: nat, s: State, events: seq<Event>)
    requires Inv(s) && |s.pcs| <= Pow2(half) && TryFitsAll(Pow2(half), s, events)
    ensures WordRun(Image(half, s), events) == Image(half, Run(s, events))
    decreases |events|
  {
    if events != [] {
      StepInv(s, events[0]);
      StepExact(half, s, events[0]);
      RunExact(half, Step(s, events[0]), events[1..]);
    }
  }

  predicate Blocking(pc: Pc<Ticket>) { !pc.TryX? && !pc.CasX? && !pc.TryS? && !pc.CasS? }

  predicate BlockingOnly(events: seq<Event>) {
    forall e :: e in events ==> e.action.Lock? || e.action.LockShared? || e.action.Go?
  }

  // Runs of the blocking operations alone need no premise but the number of threads.
  lemma {:induction false} BlockingRunFits(b: nat, s: State, events: seq<Event>)
    requires Inv(s) && BlockingOnly(events) && forall t :: 0 <= t < |s.pcs| ==> Blocking(s.pcs[t])
    ensures TryFitsAll(b, s, events)
    decreases |events|
  {
    if events != [] {
      var e := events[0];
      assert e in events;
      StepInv(s, e);
      forall e' | e' in events[1..] ensures e' in events { }
      BlockingRunFits(b, Step(s, e), events[1..]);
    }
  }

  predicate NoOverlap(v: WordLock) {
    forall t, u :: 0 <= t < |v.pcs| && 0 <= u < |v.pcs| && t != u && v.pcs[t].Writing() ==>
      !v.pcs[u].Writing() && !v.pcs[u].HoldS?
  }

  // In every run of lock(), unlock(), lock_shared() and unlock_shared() by at most 2^half threads,
  // on words that wrap and carry, a writer is alone.
  lemma WordWriterAlone(half: nat, threads: nat, events: seq<Event>)
    requires threads <= Pow2(half) && BlockingOnly(events)
    ensures NoOverlap(WordRun(WordInit(half, threads), events))
  {
    var s := Init(threads);
    InitInv(threads);
    InitImage(half, threads);
    BlockingRunFits(Pow2(half), s, events);
    RunExact(half, s, events);
    NoOverlapImage(half, Run(s, events));
  }

  lemma NoOverlapImage(half: nat, r: State)
    requires Reachable(r)
    ensures NoOverlap(Image(half, r))
  {
    forall t: nat, u: nat | t < |r.pcs| && u < |r.pcs| && t != u && r.pcs[t].Writing()
      ensures !r.pcs[u].Writing() && !r.pcs[u].HoldS?
    {
      WriterAlone(r, t, u);
    }
  }

  // On words, too, try_lock takes the lock only when nobody holds it or waits for it, and
  // try_lock_shared only when no writer does.
  lemma WordTryTakesFreeLock(half: nat, threads: nat, events: seq<Event>, t: nat)
    requires threads <= Pow2(half) && t < threads
    requires (InitInv(threads); TryFitsAll(Pow2(half), Init(threads), events))
    requires (InitInv(threads); TryFits(Pow2(half), Run(Init(threads), events), t))
    ensures var v := WordRun(WordInit(half, threads), events);
            && |v.pcs| == threads
            && (v.pcs[t].CasX? && v.pcs[t].tail == v.tail ==>
                  forall u :: 0 <= u < threads ==> !v.pcs[u].Exclusive() && !v.pcs[u].Shared())
            && (v.pcs[t].CasS? && v.pcs[t].tail == v.tail ==>
                  forall u :: 0 <= u < threads ==> !v.pcs[u].Exclusive())
  {
    InitInv(threads);
    var s := Run(Init(threads), events);
    InitImage(half, threads);
    RunExact(half, Init(threads), events);
    SameNumber(Init(threads), events);
    assert Reachable(s);
    TryTestsExact(half, s, t);
    TryTakesFreeLock(s, t);
  }

  lemma {:induction false} SameNumber(s: State, events: seq<Event>)
    requires Inv(s)
    ensures |Run(s, events).pcs| == |s.pcs|
    decreases |events|
  {
    if events != [] {
      StepInv(s, events[0]);
      SameNumber(Step(s, events[0]), events[1..]);
    }
  }

  // ---------------------------------------------------------------------------
  // One thread too many

  function LockAll(n: nat): seq<Event> {
    seq(n, (i: nat) => Event(i, Lock))
  }

  lemma {:induction false} RunAppend(v: WordLock, a: seq<Event>, b: seq<Event>)
    ensures WordRun(v, a + b) == WordRun(WordRun(v, a), b)
    decreases |a|
  {
    if a == [] {
      assert a + b == b;
    } else {
      assert (a + b)[1..] == a[1..] + b;
      RunAppend(WordStep(v, a[0]), a[1..], b);
    }
  }

  // After n calls of lock() the tail is n and thread i waits with ticket i.
  lemma {:induction false} AfterLockAll(half: nat, threads: nat, n: nat)
    requires n <= threads && n < Pow2(half) * Pow2(half)
    ensures var v := WordRun(WordInit(half, threads), LockAll(n));
            && v.half == half && v.head == 0 && v.tail == n && |v.pcs| == threads
            && (forall i :: 0 <= i < n ==> v.pcs[i] == WantX(i))
            && (forall i :: n <= i < threads ==> v.pcs[i].Out?)
    decreases n
  {
    if n > 0 {
      AfterLockAll(half, threads, n - 1);
      var e := Event(n - 1, Lock);
      assert LockAll(n) == LockAll(n - 1) + [e];
      RunAppend(WordInit(half, threads), LockAll(n - 1), [e]);
      var v := WordRun(WordInit(half, threads), LockAll(n - 1));
      assert WordRun(v, [e]) == WordStep(v, e) by { assert [e][1..] == []; }
      ModUnique(n, 0, n, Pow2(half) * Pow2(half));
    }
  }

  function OneTooMany(half: nat): seq<Event> {
    var b := Pow2(half);
    LockAll(b) + [Event(0, Go), Event(b, LockShared), Event(b, Go)]
  }

  // With more than 2^half threads, thread 0 can hold the lock exclusively while another thread
  // holds it shared: the reader's masked ticket has wrapped to the head.
  lemma TooManyThreads(half: nat, threads: nat)
    requires 0 < half && Pow2(half) < threads
    ensures BlockingOnly(OneTooMany(half))
    ensures !NoOverlap(WordRun(WordInit(half, threads), OneTooMany(half)))
  {
    var b := Pow2(half);
    assert 2 <= b;
    MultipleSign(b - 1, b);
    assert b * b == (b - 1) * b + b;
    AfterLockAll(half, threads, b);
    var v := WordRun(WordInit(half, threads), LockAll(b));
    var e1, e2, e3 := Event(0, Go), Event(b, LockShared), Event(b, Go);
    RunAppend(WordInit(half, threads), LockAll(b), [e1, e2, e3]);
    ThreeSteps(v, e1, e2, e3);
    AndMask(b, half);
    AndMask(0, half);
    ModUnique(b, 1, 0, b);
    assert WordStep(v, e1) == v.Goto(0, HoldX(0));
    var w := WordStep(WordStep(v, e1), e2);
    assert w.pcs[b] == WantS(0) && w.pcs[0] == HoldX(0);
    var x := WordStep(w, e3);
    assert x.pcs[b].HoldS? && x.pcs[0].Writing();
  }

  // The lock is safe on every run of the blocking operations exactly when there are at most
  // 2^half threads.
  lemma SafeExactly(half: nat, threads: nat)
    requires 0 < half
    ensures threads <= Pow2(half) <==>
              forall events :: BlockingOnly(events) ==> NoOverlap(WordRun(WordInit(half, threads), events))
  {
    if threads <= Pow2(half) {
      forall events | BlockingOnly(events) ensures NoOverlap(WordRun(WordInit(half, threads), events)) {
        WordWriterAlone(half, threads, events);
      }
    } else {
      TooManyThreads(half, threads);
    }
  }

  lemma ThreeSteps(v: WordLock, e1: Event, e2: Event, e3: Event)
    ensures WordRun(v, [e1, e2, e3]) == WordStep(WordStep(WordStep(v, e1), e2), e3)
  {
    assert [e1, e2, e3][1..] == [e2, e3] && [e2, e3][1..] == [e3] && [e3][1..] == [];
    var w := WordStep(v, e1);
    var x := WordStep(w, e2);
    assert WordRun(v, [e1, e2, e3]) == WordRun(w, [e2, e3]);
    assert WordRun(w, [e2, e3]) == WordRun(x, [e3]);
    assert WordRun(x, [e3]) == WordRun(WordStep(x, e3), []);
  }
}
