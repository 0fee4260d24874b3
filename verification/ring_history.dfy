/**
 The ring of evenk/bounded_queue.h as a concurrent queue: where each call takes effect, and that
 the calls in that order are a legal history of the sequential queue.

 A push() takes effect when it takes its ticket.  A pop() takes effect when it takes its ticket if
 the producer of that ticket has come before; otherwise it waits, and takes effect when that
 producer takes the ticket or when close() cuts the tail.
 */
module RingHistory {
  import opened Values
  import opened SpinRing
  import opened SpinRingInv
  import opened SpinRingTheorems
  import opened RingOutcomes
  import opened QueueSpec

  // A call that takes effect, with its ticket; close() has none.
  datatype Mark = PushMark(count: nat, op: Op) | PopMark(count: nat, op: Op) | CloseMark(op: Op)

  // The value that push() was called with for ticket c; of no use once it threw or was refused.
  function ValueOf(s: State, c: nat): Value
    requires Shape(s) && c < s.tail
  {
    match s.pushed[c]
    case PushStored(v) => v
    case PushPending(t) => if t < |s.pcs| && s.pcs[t].Pushing() then s.pcs[t].value else s.slots[0].value
    case _ => s.slots[0].value
  }

  // The thread that waits with ticket c.
  function WaiterOf(s: State, c: nat): nat
    requires Shape(s) && c < s.head
  {
    if s.popped[c].PopPending? then s.popped[c].thread else 0
  }

  function PushMarks(s: State, t: nat, v: Value): seq<Mark>
    requires Shape(s)
  {
    var c := s.tail;
    if s.IsCut() then [PushMark(c, Op(t, Push(v), WasClosed))]
    else
      [PushMark(c, Op(t, Push(v), Pushed))]
      + (if c < s.head then [PopMark(c, Op(WaiterOf(s, c), WaitPop, Got(v)))] else [])
  }

  function PopMarks(s: State, t: nat): seq<Mark>
    requires Shape(s)
  {
    var c := s.head;
    if s.IsCut() && s.last <= c then [PopMark(c, Op(t, WaitPop, WasClosed))]
    else if c < s.tail then [PopMark(c, Op(t, WaitPop, Got(ValueOf(s, c))))]
    else []
  }

  // The consumers with tickets from lo to hi, which close() turns away.
  function RefusedMarks(s: State, lo: nat, hi: nat): seq<Mark>
    requires Shape(s) && hi <= s.head
    decreases hi - lo
  {
    if hi <= lo then []
    else [PopMark(lo, Op(WaiterOf(s, lo), WaitPop, WasClosed))] + RefusedMarks(s, lo + 1, hi)
  }

  // The calls that take effect in a step.
  function Marks(s: State, e: Event): seq<Mark>
    requires Shape(s)
  {
    var t := e.thread;
    if t >= |s.pcs| then []
    else if s.pcs[t].Idle? && e.action.StartPush? then PushMarks(s, t, e.action.value)
    else if (s.pcs[t].Idle? && e.action.StartPop?) || s.pcs[t].PopStart? then PopMarks(s, t)
    else if s.pcs[t].CloseCut? then [CloseMark(Op(t, Close, DidClose))] + RefusedMarks(s, s.tail, s.head)
    else []
  }

  ghost function RunMarks(s: State, events: seq<Event>): seq<Mark>
    requires Inv(s)
    decreases |events|
  {
    if events == [] then []
    else
      StepInv(s, events[0]);
      Marks(s, events[0]) + RunMarks(Step(s, events[0]), events[1..])
  }

  // The calls without those for the tickets in `threw`: a push() that throws leaves nothing behind,
  // and a pop() that finds its ticket thrown away goes on with another.
  function Kept(marks: seq<Mark>, threw: set<nat>): seq<Op> {
    if marks == [] then []
    else
      (if !marks[0].CloseMark? && marks[0].count in threw then [] else [marks[0].op]) + Kept(marks[1..], threw)
  }

  lemma {:induction false} KeptAppend(a: seq<Mark>, b: seq<Mark>, threw: set<nat>)
    ensures Kept(a + b, threw) == Kept(a, threw) + Kept(b, threw)
    decreases |a|
  {
    if a == [] {
      assert a + b == b;
    } else {
      var first := if !a[0].CloseMark? && a[0].count in threw then [] else [a[0].op];
      assert (a + b)[1..] == a[1..] + b;
      KeptAppend(a[1..], b, threw);
      Regroup(first, Kept(a[1..], threw), Kept(b, threw));
    }
  }

  // ---------------------------------------------------------------------------
  // What the ring holds

  // The values of the tickets from lo to hi, without those in `threw`.
  function Items(s: State, lo: nat, hi: nat, threw: set<nat>): seq<Value>
    requires Shape(s) && hi <= s.tail
    decreases hi - lo
  {
    if hi <= lo then [] else (if lo in threw then [] else [ValueOf(s, lo)]) + Items(s, lo + 1, hi, threw)
  }

  function Min(a: nat, b: nat): nat { if a < b then a else b }

  function Contents(s: State, threw: set<nat>): Fifo
    requires Shape(s) && Limit(s) <= s.tail
  {
    Fifo(Items(s, Min(s.head, Limit(s)), Limit(s), threw), s.IsCut())
  }

  predicate SameValues(s: State, r: State, threw: set<nat>)
    requires Shape(s) && Shape(r) && Limit(s) <= s.tail <= r.tail
  {
    forall c: nat :: c < Limit(s) && c !in threw ==> ValueOf(r, c) == ValueOf(s, c)
  }

  lemma {:induction false} ItemsSame(s: State, r: State, lo: nat, hi: nat, threw: set<nat>)
    requires Shape(s) && Shape(r) && hi <= Limit(s) <= s.tail <= r.tail && SameValues(s, r, threw)
    ensures Items(r, lo, hi, threw) == Items(s, lo, hi, threw)
    decreases hi - lo
  {
    if lo < hi { ItemsSame(s, r, lo + 1, hi, threw); }
  }

  lemma {:induction false} ItemsLast(s: State, lo: nat, hi: nat, threw: set<nat>)
    requires Shape(s) && lo <= hi < s.tail
    ensures Items(s, lo, hi + 1, threw) == Items(s, lo, hi, threw) + (if hi in threw then [] else [ValueOf(s, hi)])
    decreases hi - lo
  {
    if lo < hi {
      ItemsLast(s, lo + 1, hi, threw);
      Regroup(if lo in threw then [] else [ValueOf(s, lo)], Items(s, lo + 1, hi, threw),
              if hi in threw then [] else [ValueOf(s, hi)]);
    } else {
      assert Items(s, hi + 1, hi + 1, threw) == [];
    }
  }

  // ---------------------------------------------------------------------------
  // Each step is legal

  // A ticket below the limit keeps its value until its producer throws.
  lemma ValueKept(s: State, e: Event, c: nat)
    requires Inv(s) && c < Limit(s) <= s.tail && Shape(Step(s, e)) && s.tail <= Step(s, e).tail
    requires !Step(s, e).pushed[c].PushThrew?
    ensures ValueOf(Step(s, e), c) == ValueOf(s, c)
  {
    assert PushOwner(s, c);
    if s.pushed[c] == PushPending(e.thread) { OwnValueKept(s, e); } else { EntriesKept(s, e, c); }
  }

  lemma OwnValueKept(s: State, e: Event)
    requires Inv(s) && e.thread < |s.pcs| && s.pcs[e.thread].Pushing() && s.pcs[e.thread].count < Limit(s)
    ensures var c, r := s.pcs[e.thread].count, Step(s, e);
            && r.tail == s.tail && |r.pcs| == |s.pcs| && |r.pushed| == |s.pushed| && c < |r.pushed|
            && (r.pushed[c] == s.pushed[c] ==>
                  r.pcs[e.thread].Pushing() && r.pcs[e.thread].value == s.pcs[e.thread].value)
            && (r.pushed[c] != s.pushed[c] ==>
                  r.pushed[c] == PushStored(s.pcs[e.thread].value) || r.pushed[c].PushThrew?)
  {
    assert ThreadInv(s, e.thread);
  }

  lemma TailGrows(s: State, e: Event)
    requires Inv(s)
    ensures Limit(s) <= s.tail <= Step(s, e).tail
  {
  }

  lemma StepValues(s: State, e: Event, threw: set<nat>)
    requires Inv(s) && Shape(Step(s, e))
    requires forall c: nat :: c < Step(s, e).tail && Step(s, e).pushed[c].PushThrew? ==> c in threw
    ensures Limit(s) <= s.tail <= Step(s, e).tail && SameValues(s, Step(s, e), threw)
  {
    TailGrows(s, e);
    forall c: nat | c < Limit(s) && c !in threw ensures ValueOf(Step(s, e), c) == ValueOf(s, c) {
      ValueKept(s, e, c);
    }
  }

  // The step from s to r with these marks does what the marks say.
  ghost predicate Follows(s: State, marks: seq<Mark>, r: State, threw: set<nat>)
    requires Shape(s) && Shape(r) && Limit(s) <= s.tail && Limit(r) <= r.tail
  {
    && Legal(Contents(s, threw), Kept(marks, threw))
    && Replay(Contents(s, threw), Kept(marks, threw)) == Contents(r, threw)
  }

  lemma OneKept(m: Mark, threw: set<nat>)
    ensures Kept([m], threw) == if !m.CloseMark? && m.count in threw then [] else [m.op]
  {
    assert [m][1..] == [];
  }

  lemma OneLegal(f: Fifo, op: Op)
    requires Fits(f, op)
    ensures Legal(f, [op]) && Replay(f, [op]) == After(f, op.call)
  {
    assert [op][1..] == [];
  }

  // A push() that close() has cut off.
  lemma LatePushFollows(s: State, t: nat, v: Value, threw: set<nat>)
    requires Inv(s) && t < |s.pcs| && s.IsCut() && SameValues(s, TakePush(s, t, v), threw)
    ensures Follows(s, PushMarks(s, t, v), TakePush(s, t, v), threw)
  {
    var op := Op(t, Push(v), WasClosed);
    OneKept(PushMark(s.tail, op), threw);
    OneLegal(Contents(s, threw), op);
    ItemsSame(s, TakePush(s, t, v), Min(s.head, Limit(s)), Limit(s), threw);
  }

  // A push() before any consumer of its ticket.
  lemma EarlyPushFollows(s: State, t: nat, v: Value, threw: set<nat>)
    requires Inv(s) && t < |s.pcs| && !s.IsCut() && s.head <= s.tail && SameValues(s, TakePush(s, t, v), threw)
    ensures Follows(s, PushMarks(s, t, v), TakePush(s, t, v), threw)
  {
    var r := TakePush(s, t, v);
    var op := Op(t, Push(v), Pushed);
    OneKept(PushMark(s.tail, op), threw);
    OneLegal(Contents(s, threw), op);
    ItemsSame(s, r, s.head, s.tail, threw);
    ItemsLast(r, s.head, s.tail, threw);
  }

  // A push() with the consumer of its ticket waiting: the ring was empty, and is empty again.
  lemma AwaitedPushFollows(s: State, t: nat, v: Value, threw: set<nat>)
    requires Inv(s) && t < |s.pcs| && !s.IsCut() && s.tail < s.head
    ensures Follows(s, PushMarks(s, t, v), TakePush(s, t, v), threw)
  {
    var c := s.tail;
    var f := Contents(s, threw);
    var push, pop := Op(t, Push(v), Pushed), Op(WaiterOf(s, c), WaitPop, Got(v));
    KeptAppend([PushMark(c, push)], [PopMark(c, pop)], threw);
    OneKept(PushMark(c, push), threw);
    OneKept(PopMark(c, pop), threw);
    OneLegal(f, push);
    OneLegal(After(f, push.call), pop);
    LegalAppend(f, [push], [pop]);
  }

  // A pop() whose ticket has a producer.
  lemma ServedPopFollows(s: State, t: nat, threw: set<nat>)
    requires Inv(s) && t < |s.pcs| && s.head < Limit(s) <= s.tail && SameValues(s, TakePop(s, t), threw)
    ensures Follows(s, PopMarks(s, t), TakePop(s, t), threw)
  {
    var f := Contents(s, threw);
    var m := PopMark(s.head, Op(t, WaitPop, Got(ValueOf(s, s.head))));
    ItemsSame(s, TakePop(s, t), s.head + 1, Limit(s), threw);
    OneKept(m, threw);
    if s.head !in threw { OneLegal(f, m.op); }
  }

  // A pop() that close() has cut off, and one that has to wait.
  lemma IdlePopFollows(s: State, t: nat, threw: set<nat>)
    requires Inv(s) && t < |s.pcs| && Limit(s) <= s.head
    ensures Limit(s) <= s.tail && Follows(s, PopMarks(s, t), TakePop(s, t), threw)
  {
    if s.IsCut() {
      var m := PopMark(s.head, Op(t, WaitPop, WasClosed));
      OneKept(m, threw);
      OneLegal(Contents(s, threw), m.op);
    }
  }

  // Consumers that are told that the queue is closed, on the closed and empty queue.
  ghost predicate Drained(marks: seq<Mark>, threw: set<nat>) {
    var f, ops := Fifo([], true), Kept(marks, threw);
    Legal(f, ops) && Replay(f, ops) == f
  }

  lemma DrainedNext(c: nat, u: nat, rest: seq<Mark>, threw: set<nat>)
    requires Drained(rest, threw)
    ensures Drained([PopMark(c, Op(u, WaitPop, WasClosed))] + rest, threw)
  {
    var f := Fifo([], true);
    var m := PopMark(c, Op(u, WaitPop, WasClosed));
    KeptAppend([m], rest, threw);
    OneKept(m, threw);
    if c in threw {
      assert [] + Kept(rest, threw) == Kept(rest, threw);
    } else {
      OneLegal(f, m.op);
      LegalAppend(f, [m.op], Kept(rest, threw));
    }
  }

  lemma {:induction false} RefusedDrained(s: State, lo: nat, hi: nat, threw: set<nat>)
    requires Shape(s) && hi <= s.head
    ensures Drained(RefusedMarks(s, lo, hi), threw)
    decreases hi - lo
  {
    if lo < hi {
      RefusedDrained(s, lo + 1, hi, threw);
      DrainedNext(lo, WaiterOf(s, lo), RefusedMarks(s, lo + 1, hi), threw);
    }
  }

  // The cut itself: close(), and after it the consumers that are left over.
  lemma CutFollows(s: State, t: nat, threw: set<nat>)
    requires Inv(s) && t < |s.pcs| && !s.IsCut() && SameValues(s, CutTail(s, t), threw)
    ensures Follows(s, [CloseMark(Op(t, Close, DidClose))] + RefusedMarks(s, s.tail, s.head), CutTail(s, t), threw)
  {
    var f := Contents(s, threw);
    var op := Op(t, Close, DidClose);
    var refused := RefusedMarks(s, s.tail, s.head);
    KeptAppend([CloseMark(op)], refused, threw);
    OneKept(CloseMark(op), threw);
    OneLegal(f, op);
    ItemsSame(s, CutTail(s, t), Min(s.head, s.tail), s.tail, threw);
    if s.tail < s.head {
      RefusedDrained(s, s.tail, s.head, threw);
      LegalAppend(f, [op], Kept(refused, threw));
    } else {
      assert refused == [];
    }
  }

  // The other steps leave the contents alone.
  lemma QuietFollows(s: State, e: Event, threw: set<nat>)
    requires Inv(s) && Inv(Step(s, e)) && e.thread < |s.pcs| && Marks(s, e) == []
    requires !s.pcs[e.thread].PopStart? && !(s.pcs[e.thread].Idle? && e.action.StartPop?)
    requires Limit(s) <= s.tail <= Step(s, e).tail && SameValues(s, Step(s, e), threw)
    ensures Follows(s, [], Step(s, e), threw)
  {
    var r := Step(s, e);
    assert ThreadInv(s, e.thread);
    assert r.head == s.head && r.tail == s.tail && Limit(r) == Limit(s) && r.IsCut() == s.IsCut();
    ItemsSame(s, r, Min(s.head, Limit(s)), Limit(s), threw);
  }

  lemma StepFollows(s: State, e: Event, threw: set<nat>)
    requires Inv(s) && Inv(Step(s, e))
    requires forall c: nat :: c < Step(s, e).tail && Step(s, e).pushed[c].PushThrew? ==> c in threw
    ensures Follows(s, Marks(s, e), Step(s, e), threw)
  {
    StepValues(s, e, threw);
    var t := e.thread;
    if t < |s.pcs| {
      if s.pcs[t].Idle? && e.action.StartPush? {
        if s.IsCut() {
          LatePushFollows(s, t, e.action.value, threw);
        } else if s.head <= s.tail {
          EarlyPushFollows(s, t, e.action.value, threw);
        } else {
          AwaitedPushFollows(s, t, e.action.value, threw);
        }
      } else if (s.pcs[t].Idle? && e.action.StartPop?) || s.pcs[t].PopStart? {
        if s.head < Limit(s) { ServedPopFollows(s, t, threw); } else { IdlePopFollows(s, t, threw); }
      } else if s.pcs[t].CloseCut? {
        CutFollows(s, t, threw);
      } else {
        QuietFollows(s, e, threw);
      }
    }
  }

  // ---------------------------------------------------------------------------
  // Every run is legal

  ghost predicate Knows(r: State, threw: set<nat>) {
    forall c: nat :: c < |r.pushed| && r.pushed[c].PushThrew? ==> c in threw
  }

  lemma {:induction false} RunFollows(s: State, events: seq<Event>, threw: set<nat>)
    requires Inv(s) && Knows(Run(s, events), threw)
    ensures Limit(s) <= s.tail && Limit(Run(s, events)) <= Run(s, events).tail
    ensures Follows(s, RunMarks(s, events), Run(s, events), threw)
    decreases |events|
  {
    if events != [] {
      var e := events[0];
      var r := Step(s, e);
      StepInv(s, e);
      RunLedger(r, events[1..]);
      KnowsBefore(r, Run(r, events[1..]), threw);
      StepFollows(s, e, threw);
      RunFollows(r, events[1..], threw);
      KeptAppend(Marks(s, e), RunMarks(r, events[1..]), threw);
      LegalAppend(Contents(s, threw), Kept(Marks(s, e), threw), Kept(RunMarks(r, events[1..]), threw));
    }
  }

  lemma KnowsBefore(s: State, r: State, threw: set<nat>)
    requires LedgerGrows(s, r) && Knows(r, threw)
    ensures Knows(s, threw)
  {
    forall c: nat | c < |s.pushed| && s.pushed[c].PushThrew? ensures c in threw {
      assert r.pushed[c] == s.pushed[c];
    }
  }

  lemma ThrownKnown(s: State, events: seq<Event>)
    requires Inv(s) && forall c: nat :: !Threw(s, c)
    ensures Knows(Run(s, events), Thrown(s, events))
  {
    forall c: nat | c < |Run(s, events).pushed| && Run(s, events).pushed[c].PushThrew?
      ensures c in Thrown(s, events)
    {
      RunOutcomes(s, events, c);
    }
  }

  // In every run of any number of threads, the calls in the order in which they take effect are a
  // legal history of the sequential queue, which ends with what the ring holds.  Left out are only
  // the tickets whose assignment threw.
  lemma RingLinearizable(size: nat, threads: nat, blank: Value, events: seq<Event>)
    requires 0 < size
    ensures Inv(Init(size, threads, blank))
    ensures var s, r := Init(size, threads, blank), Run(Init(size, threads, blank), events);
            var history := Kept(RunMarks(s, events), Thrown(s, events));
            && Legal(Fifo([], false), history)
            && Limit(r) <= r.tail && Replay(Fifo([], false), history) == Contents(r, Thrown(s, events))
  {
    InitInv(size, threads, blank);
    var s := Init(size, threads, blank);
    ThrownKnown(s, events);
    RunFollows(s, events, Thrown(s, events));
  }

  // When nothing throws, nothing is left out.
  lemma {:induction false} AllKept(marks: seq<Mark>)
    ensures |Kept(marks, {})| == |marks| && forall i :: 0 <= i < |marks| ==> Kept(marks, {})[i] == marks[i].op
    decreases |marks|
  {
    if marks != [] { AllKept(marks[1..]); }
  }
}
