/**
 The calls of the ring from start to return: each takes effect exactly once, with the result that
 it returns; a push() whose assignment throws takes no effect.
 */
module RingReturns {
  import opened Values
  import opened SpinRing
  import opened SpinRingInv
  import opened SpinRingTheorems
  import opened QueueSpec
  import opened RingOutcomes
  import opened RingHistory
  import opened RingCalls

  // The calls of thread t among the marks, without those for the tickets in `thrown`.
  function MarksOf(marks: seq<Mark>, thrown: set<nat>, t: nat): seq<Op> { OpsOf(Kept(marks, thrown), t) }

  lemma MarksOfAppend(a: seq<Mark>, b: seq<Mark>, thrown: set<nat>, t: nat)
    ensures MarksOf(a + b, thrown, t) == MarksOf(a, thrown, t) + MarksOf(b, thrown, t)
  {
    KeptAppend(a, b, thrown);
    OpsOfAppend(Kept(a, thrown), Kept(b, thrown), t);
  }

  lemma MarksOfOne(m: Mark, thrown: set<nat>, t: nat)
    ensures MarksOf([m], thrown, t) ==
              if m.op.thread == t && (m.CloseMark? || m.count !in thrown) then [m.op] else []
  {
    OneKept(m, thrown);
    OpsOfFirst(Kept([m], thrown), [], t);
    assert Kept([m], thrown) + [] == Kept([m], thrown);
  }

  // What is known beforehand of the tickets whose producer throws in the run.
  ghost predicate Fate(s: State, thrown: set<nat>) {
    && (forall c: nat :: Threw(s, c) ==> c in thrown)
    && (forall c: nat :: c < |s.pushed| && s.pushed[c].PushStored? ==> c !in thrown)
    && (forall c: nat :: Past(s, c) ==> c !in thrown)
  }

  ghost predicate Exact(r: State, thrown: set<nat>) { forall c: nat :: Threw(r, c) <==> c in thrown }

  lemma NoThrowPast(s: State, c: nat)
    requires Inv(s) && Past(s, c)
    ensures !Threw(s, c)
  {
    NothingPastLast(s, c);
    if c < s.tail && s.pushed[c].PushPending? {
      assert PushOwner(s, c) && ThreadInv(s, s.pushed[c].thread);
    }
  }

  lemma {:induction false} PastLater(s: State, events: seq<Event>, c: nat)
    requires Inv(s) && Past(s, c)
    ensures Past(Run(s, events), c)
    decreases |events|
  {
    if events != [] {
      StepInv(s, events[0]);
      PastKept(s, events[0], c);
      PastLater(Step(s, events[0]), events[1..], c);
    }
  }

  lemma FateBefore(s: State, events: seq<Event>, thrown: set<nat>)
    requires Inv(s) && Exact(Run(s, events), thrown)
    ensures Fate(s, thrown)
  {
    var r := Run(s, events);
    forall c: nat | Threw(s, c) ensures c in thrown { RunOutcomes(s, events, c); }
    RunLedger(s, events);
    forall c: nat | Past(s, c) ensures c !in thrown {
      PastLater(s, events, c);
      NoThrowPast(r, c);
    }
  }

  // ---------------------------------------------------------------------------
  // The calls of other threads

  // The tickets from lo to hi that close() turns away: at most one of them is thread t's.
  lemma {:induction false} RefusedOf(s: State, lo: nat, hi: nat, thrown: set<nat>, t: nat)
    requires Inv(s) && !s.IsCut() && s.tail <= lo && hi <= s.head && t < |s.pcs|
    ensures MarksOf(RefusedMarks(s, lo, hi), thrown, t) ==
              if s.pcs[t].Popping() && lo <= s.pcs[t].count < hi && s.pcs[t].count !in thrown
              then [Op(t, WaitPop, WasClosed)] else []
    decreases hi - lo
  {
    if lo < hi {
      var m := PopMark(lo, Op(WaiterOf(s, lo), WaitPop, WasClosed));
      AheadWaits(s, lo);
      assert PopOwner(s, lo);
      if s.pcs[t].Popping() { assert ThreadInv(s, t); }
      RefusedOf(s, lo + 1, hi, thrown, t);
      MarksOfAppend([m], RefusedMarks(s, lo + 1, hi), thrown, t);
      MarksOfOne(m, thrown, t);
    }
  }

  // The calls of thread t in a step to r: its pop() takes effect exactly when its ticket is served
  // in that step.
  ghost predicate Serves(s: State, r: State, t: nat, thrown: set<nat>, ops: seq<Op>) {
    && Shape(r) && t < |s.pcs|
    && if s.pcs[t].Popping() && Served(s) <= s.pcs[t].count < Served(r) && s.pcs[t].count !in thrown
       then |ops| == 1 && ops[0].thread == t && PopTold(r, s.pcs[t].count, ops[0])
       else ops == []
  }

  lemma OtherPush(s: State, e: Event, t: nat, thrown: set<nat>)
    requires Inv(s) && t < |s.pcs| && t != e.thread < |s.pcs| && s.pcs[e.thread].Idle? && e.action.StartPush?
    requires s.IsCut() || s.head <= s.tail
    ensures Serves(s, Step(s, e), t, thrown, MarksOf(Marks(s, e), thrown, t))
  {
    var marks := PushMarks(s, e.thread, e.action.value);
    if s.pcs[t].Popping() { assert ThreadInv(s, t); }
    MarksOfOne(marks[0], thrown, t);
    assert marks == [marks[0]];
  }

  lemma OtherAwaited(s: State, e: Event, t: nat, thrown: set<nat>)
    requires Inv(s) && t < |s.pcs| && t != e.thread < |s.pcs| && s.pcs[e.thread].Idle? && e.action.StartPush?
    requires !s.IsCut() && s.tail < s.head
    ensures Serves(s, Step(s, e), t, thrown, MarksOf(Marks(s, e), thrown, t))
  {
    var op := Op(WaiterOf(s, s.tail), WaitPop, Got(e.action.value));
    var r := TakePush(s, e.thread, e.action.value);
    AwaitedMarks(s, e, t, thrown, op);
    PushMarksFresh(s, e.thread, e.action.value);
    assert PopMark(s.tail, op) in PushMarks(s, e.thread, e.action.value) && Told(r, PopMark(s.tail, op));
    AwaitedServes(s, r, t, thrown, op);
  }

  // Of a push() that was waited for, thread t sees the pop() if it is the one that waits.
  lemma AwaitedMarks(s: State, e: Event, t: nat, thrown: set<nat>, op: Op)
    requires Shape(s) && t != e.thread < |s.pcs| && s.pcs[e.thread].Idle? && e.action.StartPush?
    requires !s.IsCut() && s.tail < s.head && op == Op(WaiterOf(s, s.tail), WaitPop, Got(e.action.value))
    ensures MarksOf(Marks(s, e), thrown, t) == if op.thread == t && s.tail !in thrown then [op] else []
  {
    var push, pop := PushMark(s.tail, Op(e.thread, Push(e.action.value), Pushed)), PopMark(s.tail, op);
    MarksOfOne(push, thrown, t);
    MarksOfOne(pop, thrown, t);
    MarksOfAppend([push], [pop], thrown, t);
    assert Marks(s, e) == [push] + [pop];
  }

  lemma AwaitedServes(s: State, r: State, t: nat, thrown: set<nat>, op: Op)
    requires Inv(s) && Shape(r) && t < |s.pcs| && !s.IsCut() && s.tail < s.head && op.thread == WaiterOf(s, s.tail)
    requires Served(s) == s.tail && Served(r) == s.tail + 1 && PopTold(r, s.tail, op)
    ensures Serves(s, r, t, thrown, if op.thread == t && s.tail !in thrown then [op] else [])
  {
    AheadWaits(s, s.tail);
    assert PopOwner(s, s.tail);
    if s.pcs[t].Popping() { assert ThreadInv(s, t); }
  }

  lemma OtherPop(s: State, e: Event, t: nat, thrown: set<nat>)
    requires Inv(s) && t < |s.pcs| && t != e.thread < |s.pcs|
    requires (s.pcs[e.thread].Idle? && e.action.StartPop?) || s.pcs[e.thread].PopStart?
    ensures Serves(s, Step(s, e), t, thrown, MarksOf(Marks(s, e), thrown, t))
  {
    var marks := PopMarks(s, e.thread);
    if s.pcs[t].Popping() { assert ThreadInv(s, t); }
    if marks != [] { MarksOfOne(marks[0], thrown, t); }
  }

  lemma OtherCut(s: State, e: Event, t: nat, thrown: set<nat>)
    requires Inv(s) && t < |s.pcs| && t != e.thread < |s.pcs| && s.pcs[e.thread].CloseCut?
    ensures Serves(s, Step(s, e), t, thrown, MarksOf(Marks(s, e), thrown, t))
  {
    var m := CloseMark(Op(e.thread, Close, DidClose));
    if s.pcs[t].Popping() { assert ThreadInv(s, t); }
    RefusedOf(s, s.tail, s.head, thrown, t);
    MarksOfAppend([m], RefusedMarks(s, s.tail, s.head), thrown, t);
    MarksOfOne(m, thrown, t);
  }

  lemma OtherStep(s: State, e: Event, t: nat, thrown: set<nat>)
    requires Inv(s) && t < |s.pcs| && t != e.thread
    ensures Serves(s, Step(s, e), t, thrown, MarksOf(Marks(s, e), thrown, t))
  {
    var u := e.thread;
    if u < |s.pcs| && s.pcs[u].Idle? && e.action.StartPush? {
      if s.IsCut() || s.head <= s.tail { OtherPush(s, e, t, thrown); } else { OtherAwaited(s, e, t, thrown); }
    } else if u < |s.pcs| && ((s.pcs[u].Idle? && e.action.StartPop?) || s.pcs[u].PopStart?) {
      OtherPop(s, e, t, thrown);
    } else if u < |s.pcs| && s.pcs[u].CloseCut? {
      OtherCut(s, e, t, thrown);
    } else {
      QuietEntries(s, e);
      StepInv(s, e);
    }
  }

  // ---------------------------------------------------------------------------
  // pop()

  // Thread t is inside pop(), and `ops` is what took effect of it so far.
  ghost predicate PopSoFar(s: State, t: nat, thrown: set<nat>, ops: seq<Op>)
    requires Shape(s) && t < |s.pcs|
  {
    || (s.pcs[t].PopStart? && ops == [])
    || (s.pcs[t].Popping() &&
        if s.pcs[t].count < Served(s) && s.pcs[t].count !in thrown
        then |ops| == 1 && ops[0].thread == t && PopTold(s, s.pcs[t].count, ops[0])
        else ops == [])
  }

  // Thread t has returned from pop() with ticket c: with the value that the history says, lost or
  // not, or because the ring is closed.
  predicate PopReturned(r: State, c: nat, op: Op) {
    && c < |r.popped| && op.call == WaitPop
    && match r.popped[c]
       case PopDone(out) => !out.Skipped? && op.result == Got(out.value)
       case PopRefused => op.result == WasClosed
       case PopPending(_) => false
  }

  lemma OtherSoFar(s: State, e: Event, t: nat, thrown: set<nat>, ops: seq<Op>)
    requires Inv(s) && Inv(Step(s, e)) && t < |s.pcs| && t != e.thread && PopSoFar(s, t, thrown, ops)
    ensures |Step(s, e).pcs| == |s.pcs| && Step(s, e).pcs[t] == s.pcs[t]
    ensures PopSoFar(Step(s, e), t, thrown, ops + MarksOf(Marks(s, e), thrown, t))
  {
    OtherStep(s, e, t, thrown);
    EntriesKept(s, e, 0);
    StepCounts(s, e);
    if s.pcs[t].Popping() && ops != [] { PopToldKept(s, e, s.pcs[t].count, ops[0]); }
  }

  // The next access of thread t itself.
  lemma OwnTake(s: State, e: Event, thrown: set<nat>)
    requires Inv(s) && Inv(Step(s, e)) && e.thread < |s.pcs|
    requires s.pcs[e.thread].PopStart? || (s.pcs[e.thread].Idle? && e.action.StartPop?)
    ensures |Step(s, e).pcs| == |s.pcs|
    ensures PopSoFar(Step(s, e), e.thread, thrown, MarksOf(Marks(s, e), thrown, e.thread))
  {
    var marks := PopMarks(s, e.thread);
    PopMarksFresh(s, e.thread);
    if marks != [] {
      MarksOfOne(marks[0], thrown, e.thread);
      assert Told(Step(s, e), marks[0]);
    }
  }

  // Inside, it goes on with its ticket, goes on to another because this one was thrown away, or
  // returns with what took effect.
  ghost predicate PopGoes(s: State, r: State, t: nat, thrown: set<nat>, ops: seq<Op>)
    requires Shape(s) && Shape(r) && t < |s.pcs| == |r.pcs| && s.pcs[t].Popping()
  {
    if r.pcs[t].Idle? then |ops| == 1 && ops[0].thread == t && PopReturned(r, s.pcs[t].count, ops[0])
    else PopSoFar(r, t, thrown, ops)
  }

  lemma PublishedServed(s: State, c: nat)
    requires Inv(s) && c < s.head && Published(s, c)
    ensures c < Served(s) && !Past(s, c)
  {
    if Past(s, c) { NothingPastLast(s, c); }
  }

  lemma OwnWake(s: State, e: Event, thrown: set<nat>, ops: seq<Op>)
    requires Inv(s) && Inv(Step(s, e)) && e.thread < |s.pcs| && s.pcs[e.thread].PopWake?
    requires Fate(s, thrown) && PopSoFar(s, e.thread, thrown, ops)
    ensures |Step(s, e).pcs| == |s.pcs| && PopGoes(s, Step(s, e), e.thread, thrown, ops)
  {
    var c := s.pcs[e.thread].count;
    assert ThreadInv(s, e.thread) && TicketInv(s, c);
    PublishedServed(s, c);
  }

  lemma OwnCheck(s: State, e: Event, thrown: set<nat>, ops: seq<Op>)
    requires Inv(s) && Inv(Step(s, e)) && e.thread < |s.pcs| && s.pcs[e.thread].Popping() && !s.pcs[e.thread].PopWake?
    requires Fate(s, thrown) && PopSoFar(s, e.thread, thrown, ops)
    ensures |Step(s, e).pcs| == |s.pcs| && PopGoes(s, Step(s, e), e.thread, thrown, ops)
  {
    var t := e.thread;
    var c := s.pcs[t].count;
    assert ThreadInv(s, t) && CloseInv(s);
    if ops != [] { PopToldKept(s, e, c, ops[0]); }
    QuietEntries(s, e);
  }

  // Thread t is inside before each of the events.
  ghost predicate StaysInside(s: State, events: seq<Event>, t: nat)
    requires Inv(s)
    decreases |events|
  {
    events != [] ==>
      t < |s.pcs| && !s.pcs[t].Idle? && (StepInv(s, events[0]); StaysInside(Step(s, events[0]), events[1..], t))
  }

  // A call of thread t with ticket c that has returned: the one thing that took effect of it.
  ghost predicate PopEnds(r: State, t: nat, c: nat, ops: seq<Op>) {
    |ops| == 1 && ops[0].thread == t && PopReturned(r, c, ops[0])
  }

  lemma PopStep(s: State, e: Event, t: nat, thrown: set<nat>, ops: seq<Op>)
    requires Inv(s) && Inv(Step(s, e)) && t < |s.pcs| && Fate(s, thrown) && PopSoFar(s, t, thrown, ops)
    ensures |Step(s, e).pcs| == |s.pcs|
    ensures var more := ops + MarksOf(Marks(s, e), thrown, t);
            if Step(s, e).pcs[t].Idle? then s.pcs[t].Popping() && PopEnds(Step(s, e), t, s.pcs[t].count, more)
            else PopSoFar(Step(s, e), t, thrown, more)
  {
    if t != e.thread {
      OtherSoFar(s, e, t, thrown, ops);
    } else if s.pcs[t].PopStart? {
      OwnTake(s, e, thrown);
      assert ops + MarksOf(Marks(s, e), thrown, t) == MarksOf(Marks(s, e), thrown, t);
    } else {
      assert ops + MarksOf(Marks(s, e), thrown, t) == ops;
      if s.pcs[t].PopWake? { OwnWake(s, e, thrown, ops); } else { OwnCheck(s, e, thrown, ops); }
    }
  }

  lemma FirstMarks(s: State, events: seq<Event>, thrown: set<nat>, t: nat)
    requires Inv(s) && events != []
    ensures Inv(Step(s, events[0])) && Run(s, events) == Run(Step(s, events[0]), events[1..])
    ensures MarksOf(RunMarks(s, events), thrown, t)
         == MarksOf(Marks(s, events[0]), thrown, t) + MarksOf(RunMarks(Step(s, events[0]), events[1..]), thrown, t)
  {
    StepInv(s, events[0]);
    MarksOfAppend(Marks(s, events[0]), RunMarks(Step(s, events[0]), events[1..]), thrown, t);
  }

  lemma FirstFate(s: State, events: seq<Event>, after: seq<Event>, thrown: set<nat>)
    requires Inv(s) && events != [] && Exact(Run(s, events + after), thrown)
    ensures Fate(s, thrown) && Inv(Step(s, events[0]))
    ensures Exact(Run(Step(s, events[0]), events[1..] + after), thrown)
  {
    StepInv(s, events[0]);
    assert (events + after)[0] == events[0] && (events + after)[1..] == events[1..] + after;
    FateBefore(s, events + after, thrown);
  }

  lemma {:induction false} PopRun(
    s: State, events: seq<Event>, after: seq<Event>, t: nat, thrown: set<nat>, ops: seq<Op>)
    returns (c: nat)
    requires Inv(s) && t < |s.pcs| && StaysInside(s, events, t) && PopSoFar(s, t, thrown, ops)
    requires Exact(Run(s, events + after), thrown)
    requires t < |Run(s, events).pcs| && Run(s, events).pcs[t].Idle?
    ensures PopEnds(Run(s, events), t, c, ops + MarksOf(RunMarks(s, events), thrown, t))
    decreases |events|
  {
    var e, r := events[0], Step(s, events[0]);
    var more := ops + MarksOf(Marks(s, e), thrown, t);
    FirstFate(s, events, after, thrown);
    PopStep(s, e, t, thrown, ops);
    FirstMarks(s, events, thrown, t);
    Regroup(ops, MarksOf(Marks(s, e), thrown, t), MarksOf(RunMarks(r, events[1..]), thrown, t));
    if r.pcs[t].Idle? {
      c := s.pcs[t].count;
      assert events[1..] == [];
      assert more + [] == more;
    } else {
      c := PopRun(r, events[1..], after, t, thrown, more);
    }
  }

  // In every run, a pop() takes effect exactly once between its start and its return, whatever
  // tickets it skips: with the value it was given, or because the ring is closed.
  lemma PopTakesEffectOnce(s: State, t: nat, events: seq<Event>, after: seq<Event>, thrown: set<nat>)
    returns (c: nat)
    requires Inv(s) && t < |s.pcs| && s.pcs[t].Idle? && Inv(Step(s, Event(t, StartPop)))
    requires var s1 := Step(s, Event(t, StartPop));
             && StaysInside(s1, events, t) && Exact(Run(s1, events + after), thrown)
             && t < |Run(s1, events).pcs| && Run(s1, events).pcs[t].Idle?
    ensures PopEnds(Run(s, [Event(t, StartPop)] + events), t, c,
                    MarksOf(RunMarks(s, [Event(t, StartPop)] + events), thrown, t))
  {
    var e := Event(t, StartPop);
    var s1 := Step(s, e);
    OwnTake(s, e, thrown);
    c := PopRun(s1, events, after, t, thrown, MarksOf(Marks(s, e), thrown, t));
    FirstMarks(s, [e] + events, thrown, t);
    assert ([e] + events)[1..] == events;
  }

  // ---------------------------------------------------------------------------
  // push()

  lemma PushStep(s: State, e: Event, t: nat, op: Op, thrown: set<nat>)
    requires Inv(s) && Inv(Step(s, e)) && t < |s.pcs| && s.pcs[t].Pushing() && PushTold(s, s.pcs[t].count, op)
    ensures var r, c := Step(s, e), s.pcs[t].count;
            && |r.pcs| == |s.pcs| && MarksOf(Marks(s, e), thrown, t) == [] && PushTold(r, c, op)
            && (r.pcs[t].Idle? || (r.pcs[t].Pushing() && r.pcs[t].count == c))
            && (r.pcs[t].Idle? ==> !r.pushed[c].PushPending?)
  {
    PushToldKept(s, e, s.pcs[t].count, op);
    if t == e.thread {
      assert ThreadInv(s, t);
    } else {
      OtherStep(s, e, t, thrown);
      EntriesKept(s, e, 0);
    }
  }

  lemma {:induction false} PushRun(s: State, events: seq<Event>, t: nat, op: Op, thrown: set<nat>)
    requires Inv(s) && t < |s.pcs| && s.pcs[t].Pushing() && PushTold(s, s.pcs[t].count, op)
    requires StaysInside(s, events, t) && t < |Run(s, events).pcs| && Run(s, events).pcs[t].Idle?
    ensures MarksOf(RunMarks(s, events), thrown, t) == [] && PushTold(Run(s, events), s.pcs[t].count, op)
    ensures !Run(s, events).pushed[s.pcs[t].count].PushPending?
    decreases |events|
  {
    var r := Step(s, events[0]);
    StepInv(s, events[0]);
    PushStep(s, events[0], t, op, thrown);
    FirstMarks(s, events, thrown, t);
    if r.pcs[t].Idle? {
      assert events[1..] == [];
    } else {
      PushRun(r, events[1..], t, op, thrown);
    }
  }

  // A push() of v with ticket c that has returned, and what took effect of it.
  ghost predicate PushEnds(r: State, t: nat, c: nat, v: Value, thrown: set<nat>, ops: seq<Op>) {
    && c < |r.pushed|
    && match r.pushed[c]
       case PushStored(w) => w == v && c !in thrown && ops == [Op(t, Push(v), Pushed)]
       case PushRefused => c !in thrown && ops == [Op(t, Push(v), WasClosed)]
       case PushThrew => c in thrown && ops == []
       case _ => false
  }

  // In every run, a push() of v takes effect exactly once between its start and its return: as
  // Pushed with v stored, or as WasClosed and refused; if its assignment throws, not at all.
  lemma PushTakesEffectOnce(s: State, t: nat, v: Value, events: seq<Event>, after: seq<Event>, thrown: set<nat>)
    requires Inv(s) && t < |s.pcs| && s.pcs[t].Idle? && Inv(Step(s, Event(t, StartPush(v))))
    requires var s1 := Step(s, Event(t, StartPush(v)));
             && StaysInside(s1, events, t) && Exact(Run(s1, events + after), thrown)
             && t < |Run(s1, events).pcs| && Run(s1, events).pcs[t].Idle?
    ensures PushEnds(Run(s, [Event(t, StartPush(v))] + events), t, s.tail, v, thrown,
                     MarksOf(RunMarks(s, [Event(t, StartPush(v))] + events), thrown, t))
  {
    var e := Event(t, StartPush(v));
    var s1 := Step(s, e);
    var op := Op(t, Push(v), if s.IsCut() then WasClosed else Pushed);
    OwnPush(s, t, v, thrown);
    PushRun(s1, events, t, op, thrown);
    FirstMarks(s, [e] + events, thrown, t);
    assert ([e] + events)[1..] == events;
    FateAt(s1, events, after, thrown);
    PushSettled(Run(s1, events), t, s.tail, v, op, thrown);
  }

  // A refused ticket is past the cut, and those do not throw.
  lemma PushSettled(r: State, t: nat, c: nat, v: Value, op: Op, thrown: set<nat>)
    requires Inv(r) && PushTold(r, c, op) && !r.pushed[c].PushPending? && Fate(r, thrown)
    requires op.thread == t && op.call == Push(v)
    ensures PushEnds(r, t, c, v, thrown, if c in thrown then [] else [op])
  {
  }

  lemma OwnPush(s: State, t: nat, v: Value, thrown: set<nat>)
    requires Inv(s) && t < |s.pcs| && s.pcs[t].Idle?
    ensures var op := Op(t, Push(v), if s.IsCut() then WasClosed else Pushed);
            && PushTold(TakePush(s, t, v), s.tail, op)
            && MarksOf(PushMarks(s, t, v), thrown, t) == if s.tail in thrown then [] else [op]
  {
    var marks := PushMarks(s, t, v);
    PushMarksFresh(s, t, v);
    assert Told(TakePush(s, t, v), marks[0]);
    MarksOfOne(marks[0], thrown, t);
    if |marks| == 2 {
      AheadWaits(s, s.tail);
      assert PopOwner(s, s.tail);
      MarksOfOne(marks[1], thrown, t);
      MarksOfAppend([marks[0]], [marks[1]], thrown, t);
    } else {
      assert marks == [marks[0]];
    }
  }

  lemma {:induction false} FateAt(s: State, events: seq<Event>, after: seq<Event>, thrown: set<nat>)
    requires Inv(s) && Exact(Run(s, events + after), thrown)
    ensures Fate(Run(s, events), thrown)
    decreases |events|
  {
    if events == [] {
      assert events + after == after;
      FateBefore(s, after, thrown);
    } else {
      FirstFate(s, events, after, thrown);
      FateAt(Step(s, events[0]), events[1..], after, thrown);
    }
  }

  // In runs from the empty ring these are the tickets whose assignments throw.
  lemma ThrownExact(size: nat, threads: nat, blank: Value, events: seq<Event>)
    requires 0 < size
    ensures Inv(Init(size, threads, blank))
    ensures Exact(Run(Init(size, threads, blank), events), Thrown(Init(size, threads, blank), events))
  {
    InitInv(size, threads, blank);
    forall c: nat
      ensures Threw(Run(Init(size, threads, blank), events), c) <==> c in Thrown(Init(size, threads, blank), events)
    {
      OutcomesExact(size, threads, blank, events, c);
    }
  }

  // ---------------------------------------------------------------------------
  // A skipped ticket

  predicate Others(events: seq<Event>, t: nat) { forall e :: e in events ==> e.thread != t }

  // What the others do not touch: where thread t is, and the ticket c that is its own or settled.
  lemma {:induction false} OthersLeave(s: State, events: seq<Event>, t: nat, c: nat)
    requires Inv(s) && t < |s.pcs| && Others(events, t)
    requires c < |s.popped| && (s.popped[c].PopPending? ==> s.popped[c].thread == t)
    ensures var r := Run(s, events);
            && |r.pcs| == |s.pcs| && r.pcs[t] == s.pcs[t]
            && c < |r.popped| && r.popped[c] == s.popped[c]
    decreases |events|
  {
    if events != [] {
      StepInv(s, events[0]);
      assert events[0] in events;
      forall e | e in events[1..] ensures e in events { }
      EntriesKept(s, events[0], c);
      OthersLeave(Step(s, events[0]), events[1..], t, c);
    }
  }

  lemma {:induction false} RunOn(s: State, a: seq<Event>, b: seq<Event>)
    requires Inv(s)
    ensures Run(s, a + b) == Run(Run(s, a), b)
    decreases |a|
  {
    if a == [] {
      assert a + b == b;
    } else {
      assert (a + b)[1..] == a[1..] + b;
      StepInv(s, a[0]);
      RunOn(Step(s, a[0]), a[1..], b);
    }
  }

  lemma RunOne(s: State, e: Event)
    requires Inv(s)
    ensures Inv(Step(s, e)) && Run(s, [e]) == Step(s, e)
  {
    StepInv(s, e);
    assert [e][1..] == [];
  }

  lemma SkipSettled(s: State, e: Event, c: nat, r: State)
    requires Inv(s) && e.thread < |s.pcs| && s.pcs[e.thread] == PopWake(c, Skipped) && r == Step(s, e)
    ensures |r.pcs| == |s.pcs| && r.pcs[e.thread].PopStart? && c < |r.popped| && r.popped[c] == PopDone(Skipped)
  {
    assert ThreadInv(s, e.thread);
  }

  lemma TakesNext(s: State, e: Event, r: State)
    requires Shape(s) && e.thread < |s.pcs| && s.pcs[e.thread].PopStart? && r == Step(s, e)
    ensures |r.pcs| == |s.pcs| && r.pcs[e.thread] == PopLoad(s.head, false)
    ensures r.popped == s.popped + [PopPending(e.thread)]
  {
  }

  // A consumer that finds the slot of its ticket thrown away does not return: after its next access
  // the ticket is settled as skipped, and after the one that follows it holds the next free ticket.
  // The other threads may do anything in between.
  lemma SkippedGoesOn(s: State, t: nat, a: seq<Event>, x: Action, b: seq<Event>, y: Action)
    returns (m: State, r: State)
    requires Inv(s) && t < |s.pcs| && s.pcs[t].PopWake? && s.pcs[t].out.Skipped? && Others(a, t) && Others(b, t)
    ensures m == Run(s, a + [Event(t, x)] + b) && r == Run(s, a + [Event(t, x)] + b + [Event(t, y)])
    ensures |m.pcs| == |r.pcs| == |s.pcs| && m.pcs[t].PopStart? && r.pcs[t] == PopLoad(m.head, false)
    ensures s.pcs[t].count < m.head && m.popped[s.pcs[t].count] == PopDone(Skipped)
    ensures r.popped == m.popped + [PopPending(t)]
  {
    var c, e := s.pcs[t].count, Event(t, x);
    assert ThreadInv(s, t);
    OthersLeave(s, a, t, c);
    var s1 := Run(s, a);
    RunOne(s1, e);
    RunOn(s, a, [e]);
    var s2 := Run(s1, [e]);
    SkipSettled(s1, e, c, s2);
    OthersLeave(s2, b, t, c);
    RunOn(s, a + [e], b);
    m := Run(s2, b);
    RunOne(m, Event(t, y));
    RunOn(s, a + [e] + b, [Event(t, y)]);
    r := Run(m, [Event(t, y)]);
    TakesNext(m, Event(t, y), r);
  }

  // ---------------------------------------------------------------------------
  // close()

  // The close() of thread t has begun.
  predicate ClosedBy(s: State, t: nat) { s.phase == Started(t) || s.phase == Cut(t) || s.phase.Shut? }

  lemma {:induction false} CloseGoesOn(s: State, events: seq<Event>, t: nat)
    requires Inv(s) && ClosedBy(s, t)
    ensures ClosedBy(Run(s, events), t)
    decreases |events|
  {
    if events != [] {
      StepInv(s, events[0]);
      CloseGoesOn(Step(s, events[0]), events[1..], t);
    }
  }

  // When close() has returned closed_ is stored, in every run.
  lemma CloseReturned(s: State, t: nat, events: seq<Event>) returns (r: State)
    requires Inv(s) && t < |s.pcs| && s.pcs[t].Idle? && s.phase.Running?
    ensures r == Run(s, [Event(t, StartClose)] + events) && |r.pcs| == |s.pcs|
    ensures r.pcs[t].Idle? ==> r.closed == Closed && r.phase.Shut?
  {
    var e := Event(t, StartClose);
    RunOne(s, e);
    RunOn(s, [e], events);
    CloseGoesOn(Step(s, e), events, t);
    SameThreads(Step(s, e), events);
    r := Run(Step(s, e), events);
    assert CloseInv(r);
  }

  lemma {:induction false} SameThreads(s: State, events: seq<Event>)
    requires Inv(s)
    ensures |Run(s, events).pcs| == |s.pcs|
    decreases |events|
  {
    if events != [] {
      StepInv(s, events[0]);
      SameThreads(Step(s, events[0]), events[1..]);
    }
  }
}
