/**
 The calls of the ring and their places in its history: each call takes effect while it holds its
 ticket, returns what the history says, and has exactly one place in it.
 */
module RingCalls {
  import opened Values
  import opened SpinRing
  import opened SpinRingInv
  import opened SpinRingTheorems
  import opened RingOutcomes
  import opened QueueSpec
  import opened RingHistory

  // ---------------------------------------------------------------------------
  // What the calls return

  // close() has cut ticket c off.
  predicate Past(s: State, c: nat) { s.IsCut() && s.last <= c }

  // The ledger says of ticket c what the history says of the push() or pop() that holds it.
  predicate PushTold(s: State, c: nat, op: Op)
    requires Shape(s)
  {
    && c < s.tail && op.call.Push?
    && match s.pushed[c]
       case PushPending(t) =>
         t == op.thread && op.call.value == ValueOf(s, c) && op.result == if Past(s, c) then WasClosed else Pushed
       case PushStored(v) => op.call.value == v && op.result == Pushed
       case PushThrew => op.result == Pushed
       case PushRefused => op.result == WasClosed
       case PushGap => false
  }

  predicate PopTold(s: State, c: nat, op: Op)
    requires Shape(s)
  {
    && c < s.head && op.call == WaitPop
    && match s.popped[c]
       case PopPending(t) =>
         && t == op.thread
         && (if Past(s, c) then op.result == WasClosed
             else c < s.tail && (s.pushed[c].PushThrew? || op.result == Got(ValueOf(s, c))))
       case PopDone(out) => out.Skipped? || op.result == Got(out.value)
       case PopRefused => op.result == WasClosed
  }

  predicate Told(s: State, m: Mark)
    requires Shape(s)
  {
    match m
    case PushMark(c, op) => PushTold(s, c, op)
    case PopMark(c, op) => PopTold(s, c, op)
    case CloseMark(op) => s.IsCut() && op.call == Close && op.result == DidClose
  }

  lemma PastKept(s: State, e: Event, c: nat)
    requires Inv(s) && (c < s.tail || s.IsCut())
    ensures Past(Step(s, e), c) == Past(s, c)
    ensures s.tail <= Step(s, e).tail && s.head <= Step(s, e).head
  {
    if e.thread < |s.pcs| { assert ThreadInv(s, e.thread); }
  }

  // A producer that close() has cut off finds its slot taken for good.
  lemma LateProducer(s: State, e: Event)
    requires Inv(s) && e.thread < |s.pcs| && s.pcs[e.thread].Pushing() && Past(s, s.pcs[e.thread].count)
    ensures var c, r := s.pcs[e.thread].count, Step(s, e);
            && |r.pushed| == |s.pushed| && |r.pcs| == |s.pcs|
            && (r.pushed[c] == s.pushed[c] ==>
                  r.pcs[e.thread].Pushing() && r.pcs[e.thread].value == s.pcs[e.thread].value)
            && (r.pushed[c] != s.pushed[c] ==> r.pushed[c].PushRefused?)
  {
    var c := s.pcs[e.thread].count;
    assert ThreadInv(s, e.thread);
    NothingPastLast(s, c);
    assert !s.pushed[c].PushGap?;
  }

  lemma PushToldKept(s: State, e: Event, c: nat, op: Op)
    requires Inv(s) && Inv(Step(s, e)) && PushTold(s, c, op)
    ensures PushTold(Step(s, e), c, op)
  {
    assert PushOwner(s, c);
    PastKept(s, e, c);
    if s.pushed[c] == PushPending(e.thread) {
      if Past(s, c) { LateProducer(s, e); } else { OwnValueKept(s, e); }
    } else {
      EntriesKept(s, e, c);
    }
  }

  // A consumer finishes with what its producer stored, or is refused past the cut.
  lemma OwnConsumer(s: State, e: Event)
    requires Inv(s) && e.thread < |s.pcs| && s.pcs[e.thread].Popping()
    ensures var c, r := s.pcs[e.thread].count, Step(s, e);
            && |r.popped| == |s.popped| && r.pushed == s.pushed && Past(r, c) == Past(s, c)
            && match r.popped[c]
               case PopPending(t) => r.popped[c] == s.popped[c]
               case PopDone(out) => !Past(s, c) && c < s.tail && (out.Skipped? || s.pushed[c] == PushStored(out.value))
               case PopRefused => Past(s, c)
  {
    var c := s.pcs[e.thread].count;
    assert ThreadInv(s, e.thread) && TicketInv(s, c);
    if Past(s, c) { NothingPastLast(s, c); }
  }

  // A thrown ticket stays thrown, and any other keeps its value.
  lemma ProducerKept(s: State, e: Event, c: nat)
    requires Inv(s) && Inv(Step(s, e)) && c < s.tail && !Past(s, c)
    ensures c < Step(s, e).tail
    ensures Step(s, e).pushed[c].PushThrew? || ValueOf(Step(s, e), c) == ValueOf(s, c)
    ensures s.pushed[c].PushThrew? ==> Step(s, e).pushed[c].PushThrew?
  {
    PastKept(s, e, c);
    StepLedger(s, e);
    if !Step(s, e).pushed[c].PushThrew? { ValueKept(s, e, c); }
  }

  lemma PopToldKept(s: State, e: Event, c: nat, op: Op)
    requires Inv(s) && Inv(Step(s, e)) && PopTold(s, c, op)
    ensures PopTold(Step(s, e), c, op)
  {
    assert PopOwner(s, c);
    if s.popped[c].PopPending? {
      PastKept(s, e, c);
      if !Past(s, c) { ProducerKept(s, e, c); }
      if s.popped[c].thread == e.thread { OwnConsumer(s, e); } else { EntriesKept(s, e, c); }
    } else {
      EntriesKept(s, e, c);
    }
  }

  lemma ToldKept(s: State, e: Event, m: Mark)
    requires Inv(s) && Inv(Step(s, e)) && Told(s, m)
    ensures Told(Step(s, e), m)
  {
    match m
    case PushMark(c, op) => PushToldKept(s, e, c, op);
    case PopMark(c, op) => PopToldKept(s, e, c, op);
    case CloseMark(_) => PastKept(s, e, s.last);
  }

  lemma {:induction false} ToldLater(s: State, events: seq<Event>, m: Mark)
    requires Inv(s) && Told(s, m)
    ensures Told(Run(s, events), m)
    decreases |events|
  {
    if events != [] {
      StepInv(s, events[0]);
      ToldKept(s, events[0], m);
      ToldLater(Step(s, events[0]), events[1..], m);
    }
  }

  // ---------------------------------------------------------------------------
  // Where the calls take effect

  // The call holds its ticket.
  predicate Holds(s: State, m: Mark) {
    match m
    case PushMark(c, op) => c < |s.pushed| && s.pushed[c] == PushPending(op.thread)
    case PopMark(c, op) => c < |s.popped| && s.popped[c] == PopPending(op.thread)
    case CloseMark(op) => op.thread < |s.pcs| && s.pcs[op.thread].CloseStore?
  }

  // A consumer ahead of the producers waits.
  lemma AheadWaits(s: State, c: nat)
    requires Inv(s) && !s.IsCut() && s.tail <= c < s.head
    ensures s.popped[c] == PopPending(WaiterOf(s, c))
  {
    assert TicketInv(s, c);
  }

  lemma PushMarksFresh(s: State, t: nat, v: Value)
    requires Inv(s) && t < |s.pcs|
    ensures forall m :: m in PushMarks(s, t, v) ==> Holds(TakePush(s, t, v), m) && Told(TakePush(s, t, v), m)
  {
    if !s.IsCut() && s.tail < s.head { AheadWaits(s, s.tail); }
  }

  lemma PopMarksFresh(s: State, t: nat)
    requires Inv(s) && t < |s.pcs| && !s.pcs[t].Pushing()
    ensures forall m :: m in PopMarks(s, t) ==> Holds(TakePop(s, t), m) && Told(TakePop(s, t), m)
  {
    if s.head < s.tail { assert PushOwner(s, s.head); }
  }

  lemma {:induction false} RefusedFresh(s: State, t: nat, lo: nat, hi: nat)
    requires Inv(s) && t < |s.pcs| && !s.IsCut() && s.tail <= lo && hi <= s.head
    ensures forall m :: m in RefusedMarks(s, lo, hi) ==> Holds(CutTail(s, t), m) && Told(CutTail(s, t), m)
    decreases hi - lo
  {
    if lo < hi {
      AheadWaits(s, lo);
      RefusedFresh(s, t, lo + 1, hi);
    }
  }

  // Every call that takes effect in a step holds its ticket after the step, and the ledger agrees.
  lemma MarksFresh(s: State, e: Event)
    requires Inv(s) && Inv(Step(s, e))
    ensures forall m :: m in Marks(s, e) ==> Holds(Step(s, e), m) && Told(Step(s, e), m)
  {
    var t := e.thread;
    if t < |s.pcs| {
      if s.pcs[t].Idle? && e.action.StartPush? {
        PushMarksFresh(s, t, e.action.value);
      } else if (s.pcs[t].Idle? && e.action.StartPop?) || s.pcs[t].PopStart? {
        PopMarksFresh(s, t);
      } else if s.pcs[t].CloseCut? {
        RefusedFresh(s, t, s.tail, s.head);
      }
    }
  }

  lemma {:induction false} RunAgrees(s: State, events: seq<Event>)
    requires Inv(s)
    ensures forall m :: m in RunMarks(s, events) ==> Told(Run(s, events), m)
    decreases |events|
  {
    if events != [] {
      var r := Step(s, events[0]);
      StepInv(s, events[0]);
      MarksFresh(s, events[0]);
      RunAgrees(r, events[1..]);
      forall m | m in Marks(s, events[0]) ensures Told(Run(r, events[1..]), m) {
        ToldLater(r, events[1..], m);
      }
    }
  }

  // How the call of a mark ended, given the tickets whose assignments and moves threw: a push()
  // whose assignment did not throw has stored its value, and a pop() whose ticket was not thrown
  // away and whose move did not throw has handed its value to the caller.
  predicate Returned(s: State, m: Mark, thrown: set<nat>, lost: set<nat>)
    requires Shape(s)
  {
    && Told(s, m)
    && (m.PushMark? ==>
          && (s.pushed[m.count].PushThrew? ==> m.count in thrown)
          && (s.pushed[m.count].PushStored? ==> m.count !in thrown))
    && (m.PopMark? && s.popped[m.count].PopDone? ==>
          match s.popped[m.count].out
          case Skipped => m.count in thrown
          case Took(v) => m.count !in thrown && m.count !in lost && m.op.result == Got(v)
          case Lost(v) => m.count !in thrown && m.count in lost && m.op.result == Got(v))
  }

  // In every run each call returns what the history says: at the end its ticket is pending, or
  // settled with that result.
  lemma RunTold(size: nat, threads: nat, blank: Value, events: seq<Event>)
    requires 0 < size
    ensures Inv(Init(size, threads, blank))
    ensures var s := Init(size, threads, blank);
            forall m :: m in RunMarks(s, events) ==>
              Returned(Run(s, events), m, Thrown(s, events), LostBy(s, events))
  {
    InitInv(size, threads, blank);
    var s := Init(size, threads, blank);
    RunAgrees(s, events);
    forall m | m in RunMarks(s, events) ensures Returned(Run(s, events), m, Thrown(s, events), LostBy(s, events)) {
      MarkReturned(size, threads, blank, events, m);
    }
  }

  lemma MarkReturned(size: nat, threads: nat, blank: Value, events: seq<Event>, m: Mark)
    requires 0 < size && (InitInv(size, threads, blank); Told(Run(Init(size, threads, blank), events), m))
    ensures Inv(Init(size, threads, blank))
    ensures var s := Init(size, threads, blank);
            Returned(Run(s, events), m, Thrown(s, events), LostBy(s, events))
  {
    InitInv(size, threads, blank);
    if !m.CloseMark? { OutcomesExact(size, threads, blank, events, m.count); }
    if m.PopMark? && Run(Init(size, threads, blank), events).popped[m.count].PopDone? {
      TicketsAgree(size, threads, blank, events, m.count);
    }
  }

  // ---------------------------------------------------------------------------
  // Each ticket once

  // The tickets of the producers among the marks, or of the consumers.
  function Counts(marks: seq<Mark>, push: bool): seq<nat> {
    if marks == [] then []
    else
      var m := marks[0];
      (if (push && m.PushMark?) || (!push && m.PopMark?) then [m.count] else []) + Counts(marks[1..], push)
  }

  lemma {:induction false} CountsAppend(a: seq<Mark>, b: seq<Mark>, push: bool)
    ensures Counts(a + b, push) == Counts(a, push) + Counts(b, push)
    decreases |a|
  {
    if a == [] {
      assert a + b == b;
    } else {
      var m := a[0];
      assert (a + b)[1..] == a[1..] + b;
      CountsAppend(a[1..], b, push);
      Regroup(if (push && m.PushMark?) || (!push && m.PopMark?) then [m.count] else [], Counts(a[1..], push),
              Counts(b, push));
    }
  }

  lemma OneCount(m: Mark, push: bool)
    ensures Counts([m], push) == if (push && m.PushMark?) || (!push && m.PopMark?) then [m.count] else []
  {
    assert [m][1..] == [];
  }

  function Range(lo: nat, hi: nat): (r: seq<nat>)
    requires lo <= hi
    ensures |r| == hi - lo && forall i :: 0 <= i < |r| ==> r[i] == lo + i
  {
    seq(hi - lo, i => lo + i)
  }

  // The tickets that producers have taken: all but the gap that close() leaves.
  function Taken(pushed: seq<PushEntry>): seq<nat> {
    if pushed == [] then []
    else
      var n := |pushed| - 1;
      Taken(pushed[..n]) + if pushed[n].PushGap? then [] else [n]
  }

  lemma TakenNext(pushed: seq<PushEntry>, entry: PushEntry)
    ensures Taken(pushed + [entry]) == Taken(pushed) + if entry.PushGap? then [] else [|pushed|]
  {
    assert (pushed + [entry])[..|pushed|] == pushed;
  }

  lemma {:induction false} TakenGap(pushed: seq<PushEntry>, n: nat)
    ensures Taken(pushed + seq(n, _ => PushGap)) == Taken(pushed)
    decreases n
  {
    if n == 0 {
      assert pushed + seq(n, _ => PushGap) == pushed;
    } else {
      TakenGap(pushed, n - 1);
      TakenNext(pushed + seq(n - 1, _ => PushGap), PushGap);
      assert pushed + seq(n, _ => PushGap) == pushed + seq(n - 1, _ => PushGap) + [PushGap];
    }
  }

  lemma {:induction false} TakenSame(a: seq<PushEntry>, b: seq<PushEntry>)
    requires |a| == |b| && forall c :: 0 <= c < |a| ==> a[c].PushGap? == b[c].PushGap?
    ensures Taken(a) == Taken(b)
    decreases |a|
  {
    if a != [] { TakenSame(a[..|a| - 1], b[..|b| - 1]); }
  }

  // The number of consumers whose pop() has taken effect.
  function Served(s: State): nat { if s.IsCut() then s.head else Min(s.head, s.tail) }

  // The marks tell of the tickets that the ledger gains, and of the consumers from i to j.
  predicate Counted(a: seq<PushEntry>, i: nat, marks: seq<Mark>, b: seq<PushEntry>, j: nat) {
    && Taken(b) == Taken(a) + Counts(marks, true)
    && i <= j && Counts(marks, false) == Range(i, j)
  }

  lemma CountedThen(a: seq<PushEntry>, i: nat, first: seq<Mark>, b: seq<PushEntry>, j: nat, rest: seq<Mark>,
                    c: seq<PushEntry>, k: nat)
    requires Counted(a, i, first, b, j) && Counted(b, j, rest, c, k)
    ensures Counted(a, i, first + rest, c, k)
  {
    CountsAppend(first, rest, true);
    CountsAppend(first, rest, false);
    Regroup(Taken(a), Counts(first, true), Counts(rest, true));
    assert Range(i, j) + Range(j, k) == Range(i, k);
  }

  // One mark that does not add to the ledger.
  lemma CountedOne(a: seq<PushEntry>, i: nat, m: Mark)
    requires m.CloseMark? || (m.PopMark? && m.count == i)
    ensures Counted(a, i, [m], a, if m.PopMark? then i + 1 else i)
  {
    OneCount(m, true);
    OneCount(m, false);
    assert Taken(a) + [] == Taken(a);
  }

  lemma CountedNone(a: seq<PushEntry>, i: nat)
    ensures Counted(a, i, [], a, i)
  {
    assert Taken(a) + [] == Taken(a);
  }

  lemma {:induction false} RefusedCounts(s: State, lo: nat, hi: nat)
    requires Shape(s) && lo <= hi <= s.head
    ensures Counted(s.pushed, lo, RefusedMarks(s, lo, hi), s.pushed, hi)
    decreases hi - lo
  {
    if lo < hi {
      var m := PopMark(lo, Op(WaiterOf(s, lo), WaitPop, WasClosed));
      CountedOne(s.pushed, lo, m);
      RefusedCounts(s, lo + 1, hi);
      CountedThen(s.pushed, lo, [m], s.pushed, lo + 1, RefusedMarks(s, lo + 1, hi), s.pushed, hi);
    } else {
      CountedNone(s.pushed, lo);
    }
  }

  lemma CutCounts(s: State, t: nat)
    requires Shape(s) && t < |s.pcs| && !s.IsCut()
    ensures var marks, r := [CloseMark(Op(t, Close, DidClose))] + RefusedMarks(s, s.tail, s.head), CutTail(s, t);
            Counted(s.pushed, Served(s), marks, r.pushed, Served(r))
  {
    var m := CloseMark(Op(t, Close, DidClose));
    TakenGap(s.pushed, s.size);
    CountedOne(s.pushed, Served(s), m);
    if s.tail < s.head {
      RefusedCounts(s, s.tail, s.head);
      CountedThen(s.pushed, s.tail, [m], s.pushed, s.tail, RefusedMarks(s, s.tail, s.head), s.pushed, s.head);
    } else {
      assert [m] + RefusedMarks(s, s.tail, s.head) == [m];
    }
  }

  lemma PushCounts(s: State, t: nat, v: Value)
    requires Shape(s) && t < |s.pcs|
    ensures Counted(s.pushed, Served(s), PushMarks(s, t, v), TakePush(s, t, v).pushed, Served(TakePush(s, t, v)))
  {
    var marks, r := PushMarks(s, t, v), TakePush(s, t, v);
    TakenNext(s.pushed, PushPending(t));
    OneCount(marks[0], true);
    OneCount(marks[0], false);
    assert Counted(s.pushed, Served(s), [marks[0]], r.pushed, Served(s));
    if |marks| == 2 {
      CountedOne(r.pushed, s.tail, marks[1]);
      CountedThen(s.pushed, s.tail, [marks[0]], r.pushed, s.tail, [marks[1]], r.pushed, s.tail + 1);
    } else {
      assert marks == [marks[0]];
    }
  }

  lemma PopCounts(s: State, t: nat)
    requires Shape(s) && t < |s.pcs| && Limit(s) <= s.tail
    ensures Counted(s.pushed, Served(s), PopMarks(s, t), TakePop(s, t).pushed, Served(TakePop(s, t)))
  {
    var marks := PopMarks(s, t);
    if marks == [] {
      CountedNone(s.pushed, Served(s));
    } else {
      CountedOne(s.pushed, s.head, marks[0]);
    }
  }

  lemma QuietEntries(s: State, e: Event)
    requires Inv(s) && Marks(s, e) == []
    requires e.thread < |s.pcs| ==> !s.pcs[e.thread].PopStart? && !(s.pcs[e.thread].Idle? && e.action.StartPop?)
    ensures |Step(s, e).pushed| == |s.pushed| && Served(Step(s, e)) == Served(s)
    ensures forall c :: 0 <= c < |s.pushed| ==> Step(s, e).pushed[c].PushGap? == s.pushed[c].PushGap?
  {
    if e.thread < |s.pcs| { assert ThreadInv(s, e.thread); }
  }

  lemma QuietCounts(s: State, e: Event)
    requires Inv(s) && Marks(s, e) == []
    requires e.thread < |s.pcs| ==> !s.pcs[e.thread].PopStart? && !(s.pcs[e.thread].Idle? && e.action.StartPop?)
    ensures Counted(s.pushed, Served(s), [], Step(s, e).pushed, Served(Step(s, e)))
  {
    QuietEntries(s, e);
    TakenSame(Step(s, e).pushed, s.pushed);
    CountedNone(s.pushed, Served(s));
  }

  lemma StepCounts(s: State, e: Event)
    requires Inv(s)
    ensures Counted(s.pushed, Served(s), Marks(s, e), Step(s, e).pushed, Served(Step(s, e)))
  {
    var t := e.thread;
    if t < |s.pcs| && s.pcs[t].Idle? && e.action.StartPush? {
      PushCounts(s, t, e.action.value);
    } else if t < |s.pcs| && ((s.pcs[t].Idle? && e.action.StartPop?) || s.pcs[t].PopStart?) {
      PopCounts(s, t);
    } else if t < |s.pcs| && s.pcs[t].CloseCut? {
      CutCounts(s, t);
    } else {
      QuietCounts(s, e);
    }
  }

  lemma {:induction false} RunCounts(s: State, events: seq<Event>)
    requires Inv(s)
    ensures Counted(s.pushed, Served(s), RunMarks(s, events), Run(s, events).pushed, Served(Run(s, events)))
    decreases |events|
  {
    if events == [] {
      CountedNone(s.pushed, Served(s));
    } else {
      var r := Step(s, events[0]);
      StepInv(s, events[0]);
      StepCounts(s, events[0]);
      RunCounts(r, events[1..]);
      CountedThen(s.pushed, Served(s), Marks(s, events[0]), r.pushed, Served(r), RunMarks(r, events[1..]),
                  Run(r, events[1..]).pushed, Served(Run(r, events[1..])));
    }
  }

  // In every run the history has one place for every ticket that a producer has taken, in the order
  // of the tickets, and one for each consumer that has been served or turned away, in the order of
  // theirs; what each of these calls returns is what the history says.
  lemma EveryCallOnce(size: nat, threads: nat, blank: Value, events: seq<Event>)
    requires 0 < size
    ensures Inv(Init(size, threads, blank))
    ensures var marks, r := RunMarks(Init(size, threads, blank), events), Run(Init(size, threads, blank), events);
            && Counts(marks, true) == Taken(r.pushed)
            && Counts(marks, false) == Range(0, Served(r))
            && forall m :: m in marks ==>
                 Returned(r, m, Thrown(Init(size, threads, blank), events), LostBy(Init(size, threads, blank), events))
  {
    InitInv(size, threads, blank);
    RunCounts(Init(size, threads, blank), events);
    RunTold(size, threads, blank, events);
  }
}
