/** Every run of the 32-bit ring is the image of a run of the unbounded ring. */
module Ring32Theorems {
  import opened Values
  import opened Bits
  import opened SpinRing
  import opened SpinRingTheorems
  import opened FutexRing
  import opened FutexRingInv
  import opened FutexRingTheorems
  import opened Tokens
  import opened RingBounds
  import opened RingNear
  import opened Ring32
  import opened Ring32Refines

  ghost predicate Good(m: FutexState) {
    FutexInv(m) && Near(m) && GoodSize(m.ring.size)
  }

  lemma GoodStep(m: FutexState, e: Event)
    requires Good(m) && Fits(m.ring)
    ensures Good(FutexStep(m, e))
  {
    NearStep(m, e);
    SlotsAdvance(m.ring, e);
    Refines(m, e);
  }

  // ---------------------------------------------------------------------------
  // The premises of the single steps

  // The slot of a waiting thread is in the residue class of its ticket and close to it.
  lemma WaiterNearSlot(m: FutexState, t: nat)
    requires Good(m) && Fits(m.ring) && t < |m.modes| && (m.ring.pcs[t].Loading() || m.ring.pcs[t].Checking())
    ensures var c := m.ring.pcs[t].count;
            var now := WordAt(m, SlotOf(m, t));
            && now.ticket % m.ring.size == c % m.ring.size
            && now.ticket <= c < now.ticket + WORD
            && (m.ring.closed == Closed ==> m.ring.last < c + HALF && c <= m.ring.last + HALF)
  {
    var c := m.ring.pcs[t].count;
    TicketNear(m.ring, t, c);
    assert m.ring.Index(m.ring.slots[SlotOf(m, t)].ticket) == SlotOf(m, t);
    assert CloseInv(m.ring);
  }

  lemma WaiterWord(m: FutexState, t: nat)
    requires Good(m) && t < |m.modes| && m.modes[t].Waits()
    ensures var c := m.ring.pcs[t].count;
            var w := m.modes[t].word;
            && w.ticket % m.ring.size == c % m.ring.size
            && w.ticket <= WordAt(m, SlotOf(m, t)).ticket
            && c < w.ticket + WORD
  {
    assert ModeInv(m, t) && NearMode(m, t);
  }

  lemma SweeperWord(m: FutexState, t: nat)
    requires Good(m) && Fits(m.ring) && t < |m.modes| && m.modes[t].SweepCas?
    ensures var SweepCas(k, w) := m.modes[t];
            var now := WordAt(m, SweepSlot(m, k));
            && now.ticket % m.ring.size == w.ticket % m.ring.size
            && w.ticket <= now.ticket < w.ticket + WORD
  {
    var SweepCas(k, w) := m.modes[t];
    var i := SweepSlot(m, k);
    assert ModeInv(m, t) && NearMode(m, t) && CloseInv(m.ring);
    assert m.ring.Index(m.ring.slots[i].ticket) == i;
    NothingPastLast(m.ring, m.ring.last + k);
  }

  // ---------------------------------------------------------------------------
  // One step

  lemma PlainExact(m: FutexState, e: Event)
    requires Good(m) && Fits(m.ring) && e.thread < |m.modes| && m.modes[e.thread].Plain?
    requires FutexShape(FutexStep(m, e))
    ensures Shape32(Image(m)) && Step32(Image(m), e) == Image(FutexStep(m, e))
  {
    var t := e.thread;
    ImageShape(m);
    assert ModeInv(m, t) && ThreadInv(m.ring, t) && CloseInv(m.ring);
    match m.ring.pcs[t]
    case Idle =>
      if e.action.StartPush? {
        PushImage(m, t, e.action.value);
      } else if e.action.StartPop? {
        PopImage(m, t);
      } else if e.action.StartClose? {
        BeginImage(m, t);
      }
    case PushLoad(_, _) => LoadExact(m, e);
    case PushWrite(_, _) => WriteImage(m, t, Flag(e));
    case PushWake(_, _, _) => WakePushImage(m, e);
    case PopStart => PopImage(m, t);
    case PopLoad(_, _) => LoadExact(m, e);
    case PopRead(_) => ReadImage(m, t, Flag(e));
    case PopWake(_, _) => WakePopImage(m, e);
    case CloseCas => GuardImage(m, t);
    case CloseCut => CutImage(m, t);
    case CloseStore => StoreImage(m, e);
  }

  lemma LoadExact(m: FutexState, e: Event)
    requires Good(m) && Fits(m.ring) && e.thread < |m.modes| && m.ring.pcs[e.thread].Loading()
    requires FutexShape(LoadSlot(m, e))
    ensures Shape32(Image(m)) && Load32(Image(m), e.thread) == Image(LoadSlot(m, e))
  {
    WaiterNearSlot(m, e.thread);
    SlotExact(m, m.ring.pcs[e.thread].count);
    TestImage(m, e);
  }

  // A thread on its way to sleep.
  lemma WaiterExact(m: FutexState, e: Event)
    requires Good(m) && Fits(m.ring) && e.thread < |m.modes| && FutexShape(FutexStep(m, e))
    requires m.modes[e.thread].Loaded? || m.modes[e.thread].Cas? || m.modes[e.thread].Sleep?
    ensures Shape32(Image(m)) && Step32(Image(m), e) == Image(FutexStep(m, e))
  {
    var t := e.thread;
    ImageShape(m);
    WaiterNearSlot(m, t);
    WaiterWord(m, t);
    match m.modes[t]
    case Loaded(_) => CheckImage(m, e);
    case Cas(_) =>
      LoadSlotInv(m, e);
      WaitCasImage(m, e);
    case Sleep(_) => FutexWaitImage(m, t);
  }

  // One access of the 32-bit code is one access of the unbounded ring.
  lemma StepExact(m: FutexState, e: Event)
    requires Good(m) && Fits(m.ring)
    ensures Good(FutexStep(m, e))
    ensures Shape32(Image(m)) && Step32(Image(m), e) == Image(FutexStep(m, e))
  {
    var t := e.thread;
    GoodStep(m, e);
    ImageShape(m);
    if t < |m.modes| {
      match m.modes[t]
      case Plain => PlainExact(m, e);
      case Loaded(_) => WaiterExact(m, e);
      case Cas(_) => WaiterExact(m, e);
      case Sleep(_) => WaiterExact(m, e);
      case Asleep(_) => SpuriousImage(m, t);
      case Waking(i) => FutexWakeImage(m, t, i, Plain);
      case SweepLoad(_) => SweepLoadImage(m, t);
      case SweepCas(_, _) =>
        SweeperWord(m, t);
        SweepCasImage(m, t, Flag(e));
      case SweepWake(k, i) => FutexWakeImage(m, t, i, AfterSlot(m, k));
    }
  }

  // ---------------------------------------------------------------------------
  // Runs

  lemma GotoShape(v: Store, t: nat, pc: Pc<u32>, mode: Mode<u32>)
    requires Shape32(v) && t < |v.pcs|
    requires Together(pc, mode)
    ensures Shape32(Goto(v, t, pc, mode))
  {
  }

  lemma IdleShape(v: Store, e: Event)
    requires Shape32(v) && e.thread < |v.pcs| && v.modes[e.thread].Plain? && v.pcs[e.thread].Idle?
    ensures Shape32(Step32(v, e))
  {
    var r := Step32(v, e);
    GotoShape(v, e.thread, r.pcs[e.thread], r.modes[e.thread]);
  }

  lemma PlainShape(v: Store, e: Event)
    requires Shape32(v) && e.thread < |v.pcs| && v.modes[e.thread].Plain?
    ensures Shape32(Step32(v, e))
  {
    var t := e.thread;
    var r := Step32(v, e);
    if v.pcs[t].Loading() {
      TestShape(v, t, v.words[Slot32(v, v.pcs[t].count)]);
    } else if v.pcs[t].Idle? {
      IdleShape(v, e);
    } else {
      GotoShape(v, t, r.pcs[t], r.modes[t]);
    }
  }

  lemma TestShape(v: Store, t: nat, w: u32)
    requires Shape32(v) && t < |v.pcs| && v.pcs[t].Loading()
    ensures Shape32(Test32(v, t, w))
  {
    var r := Test32(v, t, w);
    GotoShape(v, t, r.pcs[t], r.modes[t]);
  }

  lemma WakeShape(v: Store, t: nat, i: nat, next: Mode<u32>)
    requires Shape32(v) && t < |v.pcs| && !next.Waits()
    ensures Shape32(FutexWake32(v, t, i, next))
  {
  }

  lemma ShapeKept(v: Store, e: Event)
    requires Shape32(v)
    ensures Shape32(Step32(v, e))
  {
    var t := e.thread;
    if t < |v.pcs| {
      var r := Step32(v, e);
      match v.modes[t]
      case Plain => PlainShape(v, e);
      case Waking(i) => WakeShape(v, t, i, Plain);
      case SweepWake(k, i) => WakeShape(v, t, i, AfterSlot32(v, k));
      case _ => GotoShape(v, t, r.pcs[t], r.modes[t]);
    }
  }

  ghost function Run32(v: Store, events: seq<Event>): (r: Store)
    requires Shape32(v)
    ensures Shape32(r)
    decreases |events|
  {
    if events == [] then v
    else
      ShapeKept(v, events[0]);
      Run32(Step32(v, events[0]), events[1..])
  }

  // The premise holds before each access of the run.
  ghost predicate FitsAll(m: FutexState, events: seq<Event>)
    requires FutexInv(m)
    decreases |events|
  {
    events != [] ==>
      Fits(m.ring) && (FutexStepInv(m, events[0]); FitsAll(FutexStep(m, events[0]), events[1..]))
  }

  lemma {:induction false} RunExact(m: FutexState, events: seq<Event>)
    requires Good(m) && FitsAll(m, events)
    ensures Shape32(Image(m)) && Good(FutexRun(m, events))
    ensures Run32(Image(m), events) == Image(FutexRun(m, events))
    decreases |events|
  {
    ImageShape(m);
    if events != [] {
      StepExact(m, events[0]);
      RunExact(FutexStep(m, events[0]), events[1..]);
    }
  }

  // From the empty ring on, the 32-bit ring and the unbounded ring go through the same states.
  lemma Ring32IsRing(size: u32, threads: nat, blank: Value, events: seq<Event>)
    requires GoodSize(size)
    requires (FutexInitInv(size, threads, blank); FitsAll(FutexInit(size, threads, blank), events))
    ensures FutexInv(FutexInit(size, threads, blank))
    ensures Shape32(Init32(size, threads, blank))
    ensures var r := FutexRun(FutexInit(size, threads, blank), events);
            Good(r) && r.ring.size <= WORD && Run32(Init32(size, threads, blank), events) == Image(r)
  {
    FutexInitInv(size, threads, blank);
    var m := FutexInit(size, threads, blank);
    InitImage(size, threads, blank);
    assert Good(m);
    RunExact(m, events);
  }

  // ---------------------------------------------------------------------------
  // When the premise holds

  // The counters move from s to r: a ticket is taken, or the tail is cut.
  predicate Moved(s: State, r: State) { r.head != s.head || r.tail != s.tail }

  // The accesses of a run that take a ticket or cut the tail.  Spinning and sleeping do not.
  ghost function TicketsTaken(m: FutexState, events: seq<Event>): nat
    requires FutexInv(m)
    decreases |events|
  {
    if events == [] then 0
    else
      FutexStepInv(m, events[0]);
      var r := FutexStep(m, events[0]);
      (if Moved(m.ring, r.ring) then 1 else 0) + TicketsTaken(r, events[1..])
  }

  predicate Room(s: State, budget: nat) {
    (|s.pcs| + 1) * s.size < HALF && (|s.pcs| + 1) * s.size + budget <= HALF + 1
  }

  // The counters stay `budget` tickets away from the limit.
  predicate Budget(s: State, budget: nat) {
    && Room(s, budget)
    && (s.IsCut() ==> s.head + budget <= s.last + HALF + 1 && s.tail + budget <= s.last + HALF + 1)
  }

  lemma HeadNearTail(s: State)
    requires Inv(s) && !s.IsCut()
    ensures s.head <= s.tail + |s.pcs| * s.size
  {
    var i := s.Index(s.tail);
    assert TicketInv(s, s.tail);
    SlotNear(s, i);
  }

  lemma BudgetStep(s: State, e: Event, budget: nat)
    requires Inv(s) && Budget(s, budget + if Moved(s, Step(s, e)) then 1 else 0)
    ensures Budget(Step(s, e), budget)
  {
    var r := Step(s, e);
    SlotsAdvance(s, e);
    if r.IsCut() && !s.IsCut() {
      HeadNearTail(s);
      assert (|s.pcs| + 1) * s.size == |s.pcs| * s.size + s.size;
      assert e.thread < |s.pcs| && s.pcs[e.thread].CloseCut?;
      assert r.last == s.tail && r.tail == s.tail + s.size && r.head == s.head;
    }
  }

  // From then on the ring may be used until the tickets taken come to the limit.
  lemma {:induction false} ShortTailFits(m: FutexState, events: seq<Event>)
    requires FutexInv(m) && Budget(m.ring, TicketsTaken(m, events))
    ensures FitsAll(m, events)
    decreases |events|
  {
    if events != [] {
      var r := FutexStep(m, events[0]);
      FutexStepInv(m, events[0]);
      BudgetGoesOn(m, events);
      ShortTailFits(r, events[1..]);
      FitsFirst(m, events[0], events[1..]);
      assert [events[0]] + events[1..] == events;
    }
  }

  lemma BudgetGoesOn(m: FutexState, events: seq<Event>)
    requires FutexInv(m) && events != [] && Budget(m.ring, TicketsTaken(m, events))
    ensures Fits(m.ring)
    ensures var r := FutexStep(m, events[0]); FutexInv(r) && Budget(r.ring, TicketsTaken(r, events[1..]))
  {
    var r := FutexStep(m, events[0]);
    FutexStepInv(m, events[0]);
    Refines(m, events[0]);
    if r.ring != m.ring { BudgetStep(m.ring, events[0], TicketsTaken(r, events[1..])); }
  }

  // Before close() any number of accesses is fine; from then on the ring may be used for about
  // 2^31 - (threads + 1) * size further tickets.
  lemma OpenRunFits(m: FutexState, before: seq<Event>, after: seq<Event>)
    requires FutexInv(m) && !FutexRun(m, before).ring.IsCut()
    requires Room(m.ring, TicketsTaken(FutexRun(m, before), after))
    ensures FitsAll(m, before + after)
  {
    RoomStays(m, before, TicketsTaken(FutexRun(m, before), after));
    ShortTailFits(FutexRun(m, before), after);
    FitsBefore(m, before, after);
  }

  // The ring has the same room after any number of accesses.
  lemma {:induction false} RoomStays(m: FutexState, before: seq<Event>, budget: nat)
    requires FutexInv(m) && !FutexRun(m, before).ring.IsCut() && Room(m.ring, budget)
    ensures Room(FutexRun(m, before).ring, budget)
    decreases |before|
  {
    if before != [] {
      OpenHead(m, before, budget);
      RoomStays(FutexStep(m, before[0]), before[1..], budget);
    }
  }

  lemma {:induction false} FitsBefore(m: FutexState, before: seq<Event>, after: seq<Event>)
    requires FutexInv(m) && !FutexRun(m, before).ring.IsCut() && Room(m.ring, 0)
    requires FitsAll(FutexRun(m, before), after)
    ensures FitsAll(m, before + after)
    decreases |before|
  {
    if before == [] {
      assert before + after == after;
    } else {
      OpenHead(m, before, 0);
      FitsBefore(FutexStep(m, before[0]), before[1..], after);
      FitsNext(m, before, after);
    }
  }

  lemma FitsNext(m: FutexState, before: seq<Event>, after: seq<Event>)
    requires before != [] && FutexInv(m) && Fits(m.ring) && FutexInv(FutexStep(m, before[0]))
    requires FitsAll(FutexStep(m, before[0]), before[1..] + after)
    ensures FitsAll(m, before + after)
  {
    assert (before + after)[1..] == before[1..] + after;
  }

  lemma OpenHead(m: FutexState, before: seq<Event>, budget: nat)
    requires FutexInv(m) && before != [] && !FutexRun(m, before).ring.IsCut()
    requires Room(m.ring, budget)
    ensures var r := FutexStep(m, before[0]);
            && Fits(m.ring) && FutexInv(r) && FutexRun(r, before[1..]) == FutexRun(m, before)
            && Room(r.ring, budget)
  {
    if m.ring.IsCut() { StaysCut(m, before); }
    OpenStep(m, before[0]);
  }

  lemma FitsFirst(m: FutexState, e: Event, rest: seq<Event>)
    requires FutexInv(m) && Fits(m.ring) && FutexInv(FutexStep(m, e)) && FitsAll(FutexStep(m, e), rest)
    ensures FitsAll(m, [e] + rest)
  {
    assert ([e] + rest)[1..] == rest;
  }

  lemma OpenStep(m: FutexState, e: Event)
    requires FutexInv(m)
    ensures var r := FutexStep(m, e);
            && FutexInv(r) && |r.ring.pcs| == |m.ring.pcs|
            && (|r.ring.pcs| + 1) * r.ring.size == (|m.ring.pcs| + 1) * m.ring.size
  {
    FutexStepInv(m, e);
    Refines(m, e);
    SlotsAdvance(m.ring, e);
  }

  lemma {:induction false} StaysCut(m: FutexState, events: seq<Event>)
    requires FutexInv(m) && m.ring.IsCut()
    ensures FutexRun(m, events).ring.IsCut()
    decreases |events|
  {
    if events != [] {
      var e := events[0];
      FutexStepInv(m, e);
      Refines(m, e);
      assert CloseInv(m.ring);
      StaysCut(FutexStep(m, e), events[1..]);
    }
  }
}
