/**
 try_lock and try_lock_shared on packed words.  They compare a head and a tail that were loaded at
 different times, so that no bound on the tickets issued in between makes them safe; the lock loses a
 writer as soon as two threads use them.
 */
module TicketTry {
  import opened Residues
  import opened Bits
  import opened TicketLock
  import opened TicketLockInv
  import opened TicketLockTheorems
  import opened TicketWords
  import opened TicketWordsTheorems

  // ---------------------------------------------------------------------------
  // Exactly when a test passes that should not

  // How far the tail has moved away from the word that the thread compares with it.
  function Distance(s: State, t: nat): Ticket
    requires Inv(s) && t < |s.pcs| && (s.pcs[t].TryX? || s.pcs[t].CasX? || s.pcs[t].TryS? || s.pcs[t].CasS?)
  {
    assert ThreadInv(s, t);
    var pc := s.pcs[t];
    var k := if pc.TryX? || pc.TryS? then pc.head else pc.tail;
    Ticket(s.tail.x - k.x, s.tail.s - k.s)
  }

  // The full-word tests of try_lock and of both compare-exchanges pass wrongly exactly when the
  // packed distance is a multiple of the word size but not zero, and the masked test of
  // try_lock_shared exactly when the exclusive distance is a positive multiple of its half.
  lemma TryTestsWrong(half: nat, s: State, t: nat)
    requires Inv(s) && t < |s.pcs| && (s.pcs[t].TryX? || s.pcs[t].CasX? || s.pcs[t].TryS? || s.pcs[t].CasS?)
    ensures var b, pc, d := Pow2(half), s.pcs[t], Distance(s, t);
            && 0 < b * b
            && (pc.TryX? ==> (Pack(b, pc.head) == Pack(b, s.tail) && pc.head != s.tail <==>
                                d != Ticket(0, 0) && (d.x + b * d.s) % (b * b) == 0))
            && (pc.CasX? || pc.CasS? ==> (Pack(b, pc.tail) == Pack(b, s.tail) && pc.tail != s.tail <==>
                                            d != Ticket(0, 0) && (d.x + b * d.s) % (b * b) == 0))
            && (pc.TryS? ==> (And(Pack(b, pc.head), b - 1) == And(Pack(b, s.tail), b - 1) && pc.head.x != s.tail.x <==>
                                0 < d.x && d.x % b == 0))
  {
    var b, pc, d := Pow2(half), s.pcs[t], Distance(s, t);
    assert ThreadInv(s, t);
    if pc.TryS? {
      PackCollides(b, pc.head, s.tail);
      MaskLow(half, pc.head);
      MaskLow(half, s.tail);
      Congruent(pc.head.x, d.x, b);
    } else {
      PackCollides(b, if pc.TryX? then pc.head else pc.tail, s.tail);
    }
  }

  // ---------------------------------------------------------------------------
  // Mixed runs

  // Under the premise on the try operations a writer is alone in every run of all six operations.
  lemma MixedWriterAlone(half: nat, threads: nat, events: seq<Event>)
    requires threads <= Pow2(half)
    requires (InitInv(threads); TryFitsAll(Pow2(half), Init(threads), events))
    ensures NoOverlap(WordRun(WordInit(half, threads), events))
  {
    var s := Init(threads);
    InitInv(threads);
    InitImage(half, threads);
    RunExact(half, s, events);
    NoOverlapImage(half, Run(s, events));
  }

  // ---------------------------------------------------------------------------
  // A run that loses the lock

  // Thread 0 takes the lock shared and releases it, n times; or exclusively.
  function SharedRounds(n: nat): seq<Event> {
    if n == 0 then [] else SharedRounds(n - 1) + [Event(0, LockShared), Event(0, Go), Event(0, Go)]
  }

  function ExclusiveRounds(n: nat): seq<Event> {
    if n == 0 then [] else ExclusiveRounds(n - 1) + [Event(0, Lock), Event(0, Go), Event(0, Go), Event(0, Go)]
  }

  // The lock is free, and its words stand at w.
  predicate FreeAt(v: WordLock, w: nat) { |v.pcs| > 0 && v.pcs[0].Out? && v.head == v.tail == w }

  function MovedTo(v: WordLock, w: nat): WordLock { v.(head := w, tail := w) }

  lemma SharedRound(v: WordLock, w: nat)
    requires FreeAt(v, w) && w + v.SharedStep() < v.SharedStep() * v.SharedStep()
    ensures WordRun(v, [Event(0, LockShared), Event(0, Go), Event(0, Go)]) == MovedTo(v, w + v.SharedStep())
  {
    var b := v.SharedStep();
    ModUnique(w + b, 0, w + b, b * b);
    ThreeSteps(v, Event(0, LockShared), Event(0, Go), Event(0, Go));
    assert v.pcs[0 := Out] == v.pcs;
  }

  lemma ExclusiveRound(v: WordLock, w: nat)
    requires FreeAt(v, w) && w + 1 < v.SharedStep() * v.SharedStep()
    ensures WordRun(v, [Event(0, Lock), Event(0, Go), Event(0, Go), Event(0, Go)]) == MovedTo(v, w + 1)
  {
    var b := v.SharedStep();
    ModUnique(w + 1, 0, w + 1, b * b);
    var events := [Event(0, Lock), Event(0, Go), Event(0, Go), Event(0, Go)];
    assert events[1..] == [Event(0, Go), Event(0, Go), Event(0, Go)];
    ThreeSteps(WordStep(v, events[0]), Event(0, Go), Event(0, Go), Event(0, Go));
    assert v.pcs[0 := Out] == v.pcs;
  }

  lemma {:induction false} AfterSharedRounds(v: WordLock, w: nat, n: nat)
    requires FreeAt(v, w) && w + n * v.SharedStep() < v.SharedStep() * v.SharedStep()
    ensures WordRun(v, SharedRounds(n)) == MovedTo(v, w + n * v.SharedStep())
    decreases n
  {
    if n > 0 {
      var b := v.SharedStep();
      assert n * b == (n - 1) * b + b;
      AfterSharedRounds(v, w, n - 1);
      RunAppend(v, SharedRounds(n - 1), [Event(0, LockShared), Event(0, Go), Event(0, Go)]);
      SharedRound(MovedTo(v, w + (n - 1) * b), w + (n - 1) * b);
    }
  }

  lemma {:induction false} AfterExclusiveRounds(v: WordLock, w: nat, n: nat)
    requires FreeAt(v, w) && w + n < v.SharedStep() * v.SharedStep()
    ensures WordRun(v, ExclusiveRounds(n)) == MovedTo(v, w + n)
    decreases n
  {
    if n > 0 {
      AfterExclusiveRounds(v, w, n - 1);
      RunAppend(v, ExclusiveRounds(n - 1), [Event(0, Lock), Event(0, Go), Event(0, Go), Event(0, Go)]);
      ExclusiveRound(MovedTo(v, w + n - 1), w + n - 1);
    }
  }

  // Thread 0 enters, and thread 1 loads the head in try_lock ...
  function UpToLoad(): seq<Event> { [Event(0, Lock), Event(0, Go), Event(1, TryLock)] }

  // ... thread 0 leaves, goes through the lock again and again, and enters once more ...
  function InBetween(b: nat): seq<Event>
    requires 2 <= b
  {
    [Event(0, Go), Event(0, Go)] + SharedRounds(b - 1) + ExclusiveRounds(b - 2) + [Event(0, Lock), Event(0, Go)]
  }

  // ... and thread 1 loads the tail and exchanges it.
  function FromTail(): seq<Event> { [Event(1, Go), Event(1, Go)] }

  // How many calls of one kind are made.
  function Calls(events: seq<Event>, action: Action): nat {
    if events == [] then 0 else (if events[0].action == action then 1 else 0) + Calls(events[1..], action)
  }

  lemma {:induction false} CallsAppend(a: seq<Event>, b: seq<Event>, action: Action)
    ensures Calls(a + b, action) == Calls(a, action) + Calls(b, action)
    decreases |a|
  {
    if a == [] {
      assert a + b == b;
    } else {
      assert (a + b)[1..] == a[1..] + b;
      CallsAppend(a[1..], b, action);
    }
  }

  // One call, followed by n further accesses.
  lemma {:induction false} OneCall(action: Action, n: nat, kind: Action)
    requires kind != Go
    ensures Calls([Event(0, action)] + seq(n, _ => Event(0, Go)), kind) == (if action == kind then 1 else 0)
    ensures Calls(seq(n, _ => Event(0, Go)), kind) == 0
    decreases n
  {
    var rest := seq(n, _ => Event(0, Go));
    assert ([Event(0, action)] + rest)[1..] == rest;
    if n > 0 {
      OneCall(action, n - 1, kind);
      assert rest[1..] == seq(n - 1, _ => Event(0, Go));
    }
  }

  lemma {:induction false} RoundCalls(n: nat, kind: Action)
    requires kind != Go
    ensures Calls(SharedRounds(n), kind) == (if kind == LockShared then n else 0)
    ensures Calls(ExclusiveRounds(n), kind) == (if kind == Lock then n else 0)
    decreases n
  {
    if n > 0 {
      RoundCalls(n - 1, kind);
      var a := [Event(0, LockShared), Event(0, Go), Event(0, Go)];
      var b := [Event(0, Lock), Event(0, Go), Event(0, Go), Event(0, Go)];
      OneCall(LockShared, 2, kind);
      OneCall(Lock, 3, kind);
      assert a == [Event(0, LockShared)] + seq(2, _ => Event(0, Go));
      assert b == [Event(0, Lock)] + seq(3, _ => Event(0, Go));
      CallsAppend(SharedRounds(n - 1), a, kind);
      CallsAppend(ExclusiveRounds(n - 1), b, kind);
    }
  }

  // Between the load of the head and the compare-exchange fewer than b tickets of each kind are
  // issued.
  lemma FewTickets(b: nat, kind: Action)
    requires 2 <= b && (kind == Lock || kind == LockShared)
    ensures Calls(InBetween(b), kind) == b - 1
  {
    var u, z := [Event(0, Go), Event(0, Go)], [Event(0, Lock), Event(0, Go)];
    var x, y := SharedRounds(b - 1), ExclusiveRounds(b - 2);
    RoundCalls(b - 1, kind);
    RoundCalls(b - 2, kind);
    OneCall(Lock, 1, kind);
    OneCall(Lock, 2, kind);
    assert u == seq(2, _ => Event(0, Go)) && z == [Event(0, Lock)] + seq(1, _ => Event(0, Go));
    CallsAppend(u, x, kind);
    CallsAppend(u + x, y, kind);
    CallsAppend(u + x + y, z, kind);
  }

  // The state at the load of the head, and the one at the load of the tail.
  lemma AtLoad(half: nat, threads: nat)
    requires 0 < half && 2 <= threads
    ensures var v := WordInit(half, threads);
            WordRun(v, UpToLoad()) == v.(tail := 1, pcs := v.pcs[0 := HoldX(0)][1 := TryX(0)])
  {
    var v, b := WordInit(half, threads), Pow2(half);
    MultipleSign(b, b);
    assert 2 <= b;
    ModUnique(1, 0, 1, b * b);
    ThreeSteps(v, Event(0, Lock), Event(0, Go), Event(1, TryLock));
  }

  lemma Square(b: nat)
    requires 2 <= b
    ensures b * b == (b - 1) * b + b && 4 <= b * b
  {
    MultipleSign(b - 1, b);
  }

  // Thread 0 leaves the lock and goes through it until one more exclusive ticket makes the word wrap.
  lemma AllRounds(v: WordLock, b: nat)
    requires v.SharedStep() == b && 2 <= b && FreeAt(v, 1)
    ensures WordRun(v, SharedRounds(b - 1) + ExclusiveRounds(b - 2)) == MovedTo(v, b * b - 1)
  {
    Square(b);
    var w := 1 + (b - 1) * b;
    RunAppend(v, SharedRounds(b - 1), ExclusiveRounds(b - 2));
    AfterSharedRounds(v, 1, b - 1);
    AfterExclusiveRounds(MovedTo(v, w), w, b - 2);
  }

  lemma AtTail(v: WordLock, b: nat)
    requires v.SharedStep() == b && 2 <= b
    requires |v.pcs| >= 2 && v.head == 0 && v.tail == 1 && v.pcs[0] == HoldX(0) && v.pcs[1] == TryX(0)
    ensures var w := WordRun(v, InBetween(b));
            w.half == v.half && |w.pcs| == |v.pcs| && w.tail == 0 && w.pcs[0].HoldX? && w.pcs[1] == TryX(0)
  {
    var u, z := [Event(0, Go), Event(0, Go)], [Event(0, Lock), Event(0, Go)];
    var x := SharedRounds(b - 1) + ExclusiveRounds(b - 2);
    assert InBetween(b) == u + x + z;
    RunAppend(v, u + x, z);
    RunAppend(v, u, x);
    Square(b);
    var m := b * b;
    ModUnique(1, 0, 1, m);
    TwoSteps(v, Event(0, Go), Event(0, Go));
    var v1 := WordRun(v, u);
    AllRounds(v1, b);
    ModUnique(m, 1, 0, m);
    TwoSteps(MovedTo(v1, m - 1), Event(0, Lock), Event(0, Go));
  }

  lemma TwoSteps(v: WordLock, e1: Event, e2: Event)
    ensures WordRun(v, [e1, e2]) == WordStep(WordStep(v, e1), e2)
  {
    assert [e1, e2][1..] == [e2] && [e2][1..] == [];
    assert WordRun(WordStep(v, e1), [e2]) == WordRun(WordStep(WordStep(v, e1), e2), []);
  }

  // Whatever the width of the word and however many threads there are, two threads can hold the
  // lock exclusively, although fewer than 2^half tickets of each kind were issued between the load
  // of the head and the compare-exchange of try_lock.
  lemma TryLosesLock(half: nat, threads: nat)
    requires 0 < half && 2 <= threads
    ensures 2 <= Pow2(half)
    ensures Calls(InBetween(Pow2(half)), Lock) < Pow2(half) && Calls(InBetween(Pow2(half)), LockShared) < Pow2(half)
    ensures !NoOverlap(WordRun(WordInit(half, threads), UpToLoad() + InBetween(Pow2(half)) + FromTail()))
  {
    var b := Pow2(half);
    assert 2 <= b;
    FewTickets(b, Lock);
    FewTickets(b, LockShared);
    var v := WordInit(half, threads);
    var v1 := WordRun(v, UpToLoad());
    AtLoad(half, threads);
    AtTail(v1, b);
    var v2 := WordRun(v1, InBetween(b));
    RunAppend(v, UpToLoad(), InBetween(b));
    RunAppend(v, UpToLoad() + InBetween(b), FromTail());
    TwoSteps(v2, Event(1, Go), Event(1, Go));
    var v3 := WordRun(v2, FromTail());
    assert v3.pcs[0].Writing() && v3.pcs[1].Writing();
  }

  lemma {:induction false} SameThreads(v: WordLock, events: seq<Event>)
    ensures |WordRun(v, events).pcs| == |v.pcs|
    decreases |events|
  {
    if events != [] { SameThreads(WordStep(v, events[0]), events[1..]); }
  }

  // With the try operations the lock is safe in all runs only for a single thread.
  lemma SafeAloneOnly(half: nat, threads: nat)
    requires 0 < half
    ensures threads <= 1 <==> forall events :: NoOverlap(WordRun(WordInit(half, threads), events))
  {
    if threads <= 1 {
      forall events ensures NoOverlap(WordRun(WordInit(half, threads), events)) {
        SameThreads(WordInit(half, threads), events);
      }
    } else {
      TryLosesLock(half, threads);
    }
  }
}
