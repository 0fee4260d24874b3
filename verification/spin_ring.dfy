/**
 The ticket ring of evenk/bounded_queue.h with spinning slots and unbounded counters.

 A state holds the shared variables of the ring, the program counter of every thread and a
 ledger with one entry per ticket.  An event picks a thread and lets it make its next atomic
 access; a run is any finite sequence of events.
 */
module SpinRing {
  import opened Values

  datatype Status = Empty | Valid | Invalid

  datatype CloseFlag = Open | Closing | Closed

  datatype Slot = Slot(ticket: nat, status: Status, value: Value)

  // How a consumer leaves a slot: with the value, with the value lost to a throwing move, or
  // past a slot whose producer threw.
  datatype Outcome = Took(value: Value) | Lost(value: Value) | Skipped

  // Program counters, named after the access the thread makes next.  `matched` tells the second
  // loop of wait_head from the first.
  datatype Pc<C> =
    | Idle
    | PushLoad(count: C, value: Value)
    | PushCheck(count: C, value: Value)
    | PushWrite(count: C, value: Value)
    | PushWake(count: C, value: Value, stored: bool)
    | PopStart
    | PopLoad(count: C, matched: bool)
    | PopCheck(count: C, matched: bool)
    | PopRead(count: C)
    | PopWake(count: C, out: Outcome)
    | CloseCas
    | CloseCut
    | CloseStore
  {
    predicate Pushing() { PushLoad? || PushCheck? || PushWrite? || PushWake? }
    predicate Popping() { PopLoad? || PopCheck? || PopRead? || PopWake? }
    predicate Closing() { CloseCas? || CloseCut? || CloseStore? }
    predicate Loading() { PushLoad? || PopLoad? }
    predicate Checking() { PushCheck? || PopCheck? }
    predicate Waking() { PushWake? || PopWake? }
  }

  // The ledger: what became of each ticket.
  datatype PushEntry =
    | PushPending(thread: nat)
    | PushStored(value: Value)
    | PushThrew
    | PushRefused
    | PushGap

  datatype PopEntry =
    | PopPending(thread: nat)
    | PopDone(out: Outcome)
    | PopRefused

  // How far the one close() of a run has come.
  datatype Phase = Running | Started(closer: nat) | Cut(closer: nat) | Shut

  datatype State = State(
    size: nat,
    head: nat,
    tail: nat,
    closed: CloseFlag,
    last: nat,
    slots: seq<Slot>,
    pcs: seq<Pc<nat>>,
    pushed: seq<PushEntry>,
    popped: seq<PopEntry>,
    phase: Phase)
  {
    predicate IsCut() { phase.Cut? || phase.Shut? }

    function Index(c: nat): (i: nat)
      requires 0 < size
      ensures i < size
    {
      c % size
    }
  }

  datatype Action = StartPush(value: Value) | StartPop | StartClose | Go(flag: bool)

  datatype Event = Event(thread: nat, action: Action)

  predicate Flag(e: Event) { e.action.Go? && e.action.flag }

  // What the step functions need to be defined.
  predicate Shape(s: State) {
    && 0 < s.size
    && |s.slots| == s.size
    && |s.pushed| == s.tail
    && |s.popped| == s.head
    && (forall t :: 0 <= t < |s.pcs| && s.pcs[t].Pushing() ==> s.pcs[t].count < s.tail)
    && (forall t :: 0 <= t < |s.pcs| && s.pcs[t].Popping() ==> s.pcs[t].count < s.head)
  }

  function Init(size: nat, threads: nat, blank: Value): State {
    State(size, 0, 0, Open, 0, seq(size, (i: nat) => Slot(i, Empty, blank)), seq(threads, _ => Idle), [], [], Running)
  }

  // ---------------------------------------------------------------------------
  // Atomic steps

  // tail_.fetch_add(1)
  function TakePush(s: State, t: nat, v: Value): State
    requires Shape(s) && t < |s.pcs|
  {
    s.(tail := s.tail + 1,
       pushed := s.pushed + [PushPending(t)],
       pcs := s.pcs[t := PushLoad(s.tail, v)])
  }

  // head_.fetch_add(1)
  function TakePop(s: State, t: nat): State
    requires Shape(s) && t < |s.pcs|
  {
    s.(head := s.head + 1,
       popped := s.popped + [PopPending(t)],
       pcs := s.pcs[t := PopLoad(s.head, false)])
  }

  // The slot load of wait_tail and the test of its loop.
  function LoadTail(s: State, t: nat): State
    requires Shape(s) && t < |s.pcs| && s.pcs[t].PushLoad?
  {
    var PushLoad(c, v) := s.pcs[t];
    s.(pcs := s.pcs[t := if s.slots[s.Index(c)].ticket == c then PushWrite(c, v) else PushCheck(c, v)])
  }

  predicate PastLast(s: State, c: nat) { s.closed == Closed && s.last <= c }

  function CheckTail(s: State, t: nat): State
    requires Shape(s) && t < |s.pcs| && s.pcs[t].PushCheck?
  {
    var PushCheck(c, v) := s.pcs[t];
    if PastLast(s, c) then
      s.(pushed := s.pushed[c := PushRefused], pcs := s.pcs[t := Idle])
    else
      s.(pcs := s.pcs[t := PushLoad(c, v)])
  }

  // The assignment of slot.value in put_value; it may throw.
  function WriteValue(s: State, t: nat, ok: bool): State
    requires Shape(s) && t < |s.pcs| && s.pcs[t].PushWrite?
  {
    var PushWrite(c, v) := s.pcs[t];
    var i := s.Index(c);
    s.(slots := if ok then s.slots[i := s.slots[i].(value := v)] else s.slots,
       pcs := s.pcs[t := PushWake(c, v, ok)])
  }

  // The slot wake of put_value.
  function WakePush(s: State, t: nat): State
    requires Shape(s) && t < |s.pcs| && s.pcs[t].PushWake?
  {
    var PushWake(c, v, stored) := s.pcs[t];
    var i := s.Index(c);
    s.(slots := s.slots[i := Slot(c, if stored then Valid else Invalid, s.slots[i].value)],
       pushed := s.pushed[c := if stored then PushStored(v) else PushThrew],
       pcs := s.pcs[t := Idle])
  }

  // The slot load of wait_head and the tests of its two loops.
  function LoadHead(s: State, t: nat): State
    requires Shape(s) && t < |s.pcs| && s.pcs[t].PopLoad?
  {
    var PopLoad(c, matched) := s.pcs[t];
    var slot := s.slots[s.Index(c)];
    s.(pcs := s.pcs[t :=
           if !matched && slot.ticket != c then PopCheck(c, false)
           else if slot.status == Empty then PopCheck(c, true)
           else if slot.status == Valid then PopRead(c)
           else PopWake(c, Skipped)])
  }

  function CheckHead(s: State, t: nat): State
    requires Shape(s) && t < |s.pcs| && s.pcs[t].PopCheck?
  {
    var PopCheck(c, matched) := s.pcs[t];
    if PastLast(s, c) then
      s.(popped := s.popped[c := PopRefused], pcs := s.pcs[t := Idle])
    else
      s.(pcs := s.pcs[t := PopLoad(c, matched)])
  }

  // The move out of slot.value in get_value; it may throw.
  function ReadValue(s: State, t: nat, ok: bool): State
    requires Shape(s) && t < |s.pcs| && s.pcs[t].PopRead?
  {
    var c := s.pcs[t].count;
    var v := s.slots[s.Index(c)].value;
    s.(pcs := s.pcs[t := PopWake(c, if ok then Took(v) else Lost(v))])
  }

  // The slot wake of get_value, or of wait_pop for a skipped slot.
  function WakePop(s: State, t: nat): State
    requires Shape(s) && t < |s.pcs| && s.pcs[t].PopWake?
  {
    var PopWake(c, out) := s.pcs[t];
    var i := s.Index(c);
    s.(slots := s.slots[i := Slot(c + s.size, Empty, s.slots[i].value)],
       popped := s.popped[c := PopDone(out)],
       pcs := s.pcs[t := if out.Skipped? then PopStart else Idle])
  }

  // close() is called at most once in a run.
  function BeginClose(s: State, t: nat): State
    requires Shape(s) && t < |s.pcs|
  {
    if s.phase.Running? then s.(phase := Started(t), pcs := s.pcs[t := CloseCas]) else s
  }

  // closed_.compare_exchange_strong(closing, open)
  function GuardClose(s: State, t: nat): State
    requires Shape(s) && t < |s.pcs|
  {
    if s.closed == Closing then
      s.(closed := Open, pcs := s.pcs[t := Idle])
    else
      s.(pcs := s.pcs[t := CloseCut])
  }

  // last_ = tail_.fetch_add(size)
  function CutTail(s: State, t: nat): State
    requires Shape(s) && t < |s.pcs|
  {
    s.(last := s.tail,
       tail := s.tail + s.size,
       pushed := s.pushed + seq(s.size, _ => PushGap),
       phase := Cut(t),
       pcs := s.pcs[t := CloseStore])
  }

  // closed_.store(closed)
  function StoreClosed(s: State, t: nat): State
    requires Shape(s) && t < |s.pcs|
  {
    s.(closed := Closed, phase := Shut, pcs := s.pcs[t := Idle])
  }

  function Step(s: State, e: Event): State
    requires Shape(s)
  {
    var t := e.thread;
    if t >= |s.pcs| then s else
    match s.pcs[t]
    case Idle =>
      (match e.action
       case StartPush(v) => TakePush(s, t, v)
       case StartPop => TakePop(s, t)
       case StartClose => BeginClose(s, t)
       case Go(_) => s)
    case PushLoad(_, _) => LoadTail(s, t)
    case PushCheck(_, _) => CheckTail(s, t)
    case PushWrite(_, _) => WriteValue(s, t, Flag(e))
    case PushWake(_, _, _) => WakePush(s, t)
    case PopStart => TakePop(s, t)
    case PopLoad(_, _) => LoadHead(s, t)
    case PopCheck(_, _) => CheckHead(s, t)
    case PopRead(_) => ReadValue(s, t, Flag(e))
    case PopWake(_, _) => WakePop(s, t)
    case CloseCas => GuardClose(s, t)
    case CloseCut => CutTail(s, t)
    case CloseStore => StoreClosed(s, t)
  }

  // ---------------------------------------------------------------------------
  // The invariant

  predicate Published(s: State, c: nat) {
    c < |s.pushed| && (s.pushed[c].PushStored? || s.pushed[c].PushThrew?)
  }

  predicate Consumed(s: State, c: nat) {
    c < |s.popped| && s.popped[c].PopDone?
  }

  // A slot stands for the tickets of its residue class: those below its ticket are finished,
  // its own ticket is published exactly when the slot is full, those above are untouched.
  predicate TicketInv(s: State, c: nat)
    requires Shape(s)
  {
    var slot := s.slots[s.Index(c)];
    && (Consumed(s, c) <==> c < slot.ticket)
    && (Published(s, c) <==> c < slot.ticket || (c == slot.ticket && slot.status != Empty))
    && (c == slot.ticket && slot.status == Valid ==> s.pushed[c] == PushStored(slot.value))
    && (c == slot.ticket && slot.status == Invalid ==> s.pushed[c].PushThrew?)
    && (Consumed(s, c) ==> Agrees(s.pushed[c], s.popped[c].out))
  }

  // The consumer of a ticket got what the producer of that ticket stored.
  predicate Agrees(p: PushEntry, out: Outcome) {
    match out
    case Took(v) => p == PushStored(v)
    case Lost(v) => p == PushStored(v)
    case Skipped => p.PushThrew?
  }

  predicate ThreadInv(s: State, t: nat)
    requires Shape(s) && t < |s.pcs|
  {
    var pc := s.pcs[t];
    && (pc.Pushing() ==>
          var slot := s.slots[s.Index(pc.count)];
          && s.pushed[pc.count] == PushPending(t)
          && (pc.PushWrite? || pc.PushWake? ==> slot.ticket == pc.count)
          && (pc.PushWake? && pc.stored ==> slot.value == pc.value))
    && (pc.Popping() ==>
          var slot := s.slots[s.Index(pc.count)];
          && s.popped[pc.count] == PopPending(t)
          && ((pc.PopLoad? || pc.PopCheck?) && pc.matched ==> slot.ticket == pc.count)
          && (pc.PopRead? ==> slot.ticket == pc.count && slot.status == Valid)
          && (pc.PopWake? ==>
                && slot.ticket == pc.count
                && match pc.out
                   case Took(v) => slot.status == Valid && slot.value == v
                   case Lost(v) => slot.status == Valid && slot.value == v
                   case Skipped => slot.status == Invalid))
  }

  // Every pending ticket is held by the thread the ledger names.
  predicate PushOwner(s: State, c: nat)
    requires Shape(s) && c < s.tail
  {
    s.pushed[c].PushPending? ==>
      var t := s.pushed[c].thread;
      t < |s.pcs| && s.pcs[t].Pushing() && s.pcs[t].count == c
  }

  predicate PopOwner(s: State, c: nat)
    requires Shape(s) && c < s.head
  {
    s.popped[c].PopPending? ==>
      var t := s.popped[c].thread;
      t < |s.pcs| && s.pcs[t].Popping() && s.pcs[t].count == c
  }

  predicate CloseInv(s: State)
    requires Shape(s)
  {
    && s.closed == (if s.phase.Shut? then Closed else Open)
    && (s.IsCut() ==> s.last + s.size <= s.tail)
    && (forall c :: 0 <= c < s.tail ==> (s.pushed[c].PushGap? <==> s.IsCut() && s.last <= c < s.last + s.size))
    && (forall c :: 0 <= c < s.tail && s.pushed[c].PushRefused? ==> s.closed == Closed && s.last <= c)
    && (forall c :: 0 <= c < s.head && s.popped[c].PopRefused? ==> s.closed == Closed && s.last <= c)
    && (s.phase.Started? || s.phase.Cut? ==>
          s.phase.closer < |s.pcs| && s.pcs[s.phase.closer].Closing())
    && (forall t :: 0 <= t < |s.pcs| && (s.pcs[t].CloseCas? || s.pcs[t].CloseCut?) ==> s.phase == Started(t))
    && (forall t :: 0 <= t < |s.pcs| && s.pcs[t].CloseStore? ==> s.phase == Cut(t))
  }

  // What holds however often the ring is closed.
  ghost predicate Core(s: State) {
    && Shape(s)
    && (forall i :: 0 <= i < s.size ==> s.Index(s.slots[i].ticket) == i)
    && (forall c: nat :: TicketInv(s, c))
    && (forall t: nat :: t < |s.pcs| ==> ThreadInv(s, t))
    && (forall c: nat :: c < s.tail ==> PushOwner(s, c))
    && (forall c: nat :: c < s.head ==> PopOwner(s, c))
  }

  ghost predicate Inv(s: State) { Core(s) && CloseInv(s) }
}
