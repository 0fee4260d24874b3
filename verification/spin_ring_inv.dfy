/** Every step of the spinning ring keeps its invariant. */
module SpinRingInv {
  import opened Values
  import opened Residues
  import opened SpinRing

  lemma InitInv(size: nat, threads: nat, blank: Value)
    requires 0 < size
    ensures Inv(Init(size, threads, blank))
  {
    var s := Init(size, threads, blank);
    forall c: nat ensures TicketInv(s, c) {
      ModBelow(c, size);
    }
    forall i | 0 <= i < size ensures s.Index(s.slots[i].ticket) == i {
      ModUnique(i, 0, i, size);
    }
  }

  // The thread moves on without touching shared state and keeps what it holds.
  lemma MoveCore(s: State, t: nat, pc: Pc<nat>)
    requires Core(s) && t < |s.pcs|
    requires s.pcs[t].Pushing() == pc.Pushing() && (pc.Pushing() ==> pc.count == s.pcs[t].count)
    requires s.pcs[t].Popping() == pc.Popping() && (pc.Popping() ==> pc.count == s.pcs[t].count)
    requires ThreadInv(s.(pcs := s.pcs[t := pc]), t)
    ensures Core(s.(pcs := s.pcs[t := pc]))
  {
    var r := s.(pcs := s.pcs[t := pc]);
    forall c: nat ensures TicketInv(r, c) { assert TicketInv(s, c); }
    forall u: nat | u < |r.pcs| ensures ThreadInv(r, u) { assert ThreadInv(s, u); }
    forall c: nat | c < r.tail ensures PushOwner(r, c) { assert PushOwner(s, c); }
    forall c: nat | c < r.head ensures PopOwner(r, c) { assert PopOwner(s, c); }
  }

  lemma TakePushCore(s: State, t: nat, v: Value)
    requires Core(s) && t < |s.pcs| && s.pcs[t].Idle?
    ensures Core(TakePush(s, t, v))
  {
    var r := TakePush(s, t, v);
    forall c: nat ensures TicketInv(r, c) { assert TicketInv(s, c); }
    forall u: nat | u < |r.pcs| ensures ThreadInv(r, u) { assert ThreadInv(s, u); }
    forall c: nat | c < r.tail ensures PushOwner(r, c) { assert c < s.tail ==> PushOwner(s, c); }
    forall c: nat | c < r.head ensures PopOwner(r, c) { assert PopOwner(s, c); }
  }

  lemma TakePopCore(s: State, t: nat)
    requires Core(s) && t < |s.pcs| && (s.pcs[t].Idle? || s.pcs[t].PopStart?)
    ensures Core(TakePop(s, t))
  {
    var r := TakePop(s, t);
    forall c: nat ensures TicketInv(r, c) { assert TicketInv(s, c); }
    forall u: nat | u < |r.pcs| ensures ThreadInv(r, u) { assert ThreadInv(s, u); }
    forall c: nat | c < r.tail ensures PushOwner(r, c) { assert PushOwner(s, c); }
    forall c: nat | c < r.head ensures PopOwner(r, c) { assert c < s.head ==> PopOwner(s, c); }
  }

  lemma LoadTailCore(s: State, t: nat)
    requires Core(s) && t < |s.pcs| && s.pcs[t].PushLoad?
    ensures Core(LoadTail(s, t))
  {
    assert ThreadInv(s, t);
    MoveCore(s, t, LoadTail(s, t).pcs[t]);
  }

  lemma CheckTailCore(s: State, t: nat)
    requires Core(s) && t < |s.pcs| && s.pcs[t].PushCheck?
    ensures Core(CheckTail(s, t))
  {
    var r := CheckTail(s, t);
    assert ThreadInv(s, t);
    if PastLast(s, s.pcs[t].count) {
      forall c: nat ensures TicketInv(r, c) { assert TicketInv(s, c); }
      forall u: nat | u < |r.pcs| ensures ThreadInv(r, u) { assert ThreadInv(s, u); }
      forall c: nat | c < r.tail ensures PushOwner(r, c) { assert PushOwner(s, c); }
      forall c: nat | c < r.head ensures PopOwner(r, c) { assert PopOwner(s, c); }
    } else {
      MoveCore(s, t, r.pcs[t]);
    }
  }

  lemma WriteValueCore(s: State, t: nat, ok: bool)
    requires Core(s) && t < |s.pcs| && s.pcs[t].PushWrite?
    ensures Core(WriteValue(s, t, ok))
  {
    var r := WriteValue(s, t, ok);
    assert ThreadInv(s, t) && TicketInv(s, s.pcs[t].count);
    forall c: nat ensures TicketInv(r, c) { assert TicketInv(s, c); }
    forall u: nat | u < |r.pcs| ensures ThreadInv(r, u) { assert ThreadInv(s, u); }
    forall c: nat | c < r.tail ensures PushOwner(r, c) { assert PushOwner(s, c); }
    forall c: nat | c < r.head ensures PopOwner(r, c) { assert PopOwner(s, c); }
  }

  lemma WakePushTicket(s: State, t: nat, c: nat)
    requires Core(s) && t < |s.pcs| && s.pcs[t].PushWake?
    ensures Shape(WakePush(s, t)) && TicketInv(WakePush(s, t), c)
  {
    assert ThreadInv(s, t) && TicketInv(s, s.pcs[t].count) && TicketInv(s, c);
  }

  lemma WakePushThread(s: State, t: nat, u: nat)
    requires Core(s) && t < |s.pcs| && s.pcs[t].PushWake? && u < |s.pcs|
    ensures Shape(WakePush(s, t)) && ThreadInv(WakePush(s, t), u)
  {
    assert ThreadInv(s, t) && TicketInv(s, s.pcs[t].count) && ThreadInv(s, u);
  }

  lemma WakePushCore(s: State, t: nat)
    requires Core(s) && t < |s.pcs| && s.pcs[t].PushWake?
    ensures Core(WakePush(s, t))
  {
    var r := WakePush(s, t);
    assert ThreadInv(s, t);
    forall c: nat ensures TicketInv(r, c) { WakePushTicket(s, t, c); }
    forall u: nat | u < |r.pcs| ensures ThreadInv(r, u) { WakePushThread(s, t, u); }
    forall c: nat | c < r.tail ensures PushOwner(r, c) { assert PushOwner(s, c); }
    forall c: nat | c < r.head ensures PopOwner(r, c) { assert PopOwner(s, c); }
  }

  lemma LoadHeadCore(s: State, t: nat)
    requires Core(s) && t < |s.pcs| && s.pcs[t].PopLoad?
    ensures Core(LoadHead(s, t))
  {
    assert ThreadInv(s, t);
    MoveCore(s, t, LoadHead(s, t).pcs[t]);
  }

  lemma CheckHeadCore(s: State, t: nat)
    requires Core(s) && t < |s.pcs| && s.pcs[t].PopCheck?
    ensures Core(CheckHead(s, t))
  {
    var r := CheckHead(s, t);
    assert ThreadInv(s, t);
    if PastLast(s, s.pcs[t].count) {
      forall c: nat ensures TicketInv(r, c) { assert TicketInv(s, c); }
      forall u: nat | u < |r.pcs| ensures ThreadInv(r, u) { assert ThreadInv(s, u); }
      forall c: nat | c < r.tail ensures PushOwner(r, c) { assert PushOwner(s, c); }
      forall c: nat | c < r.head ensures PopOwner(r, c) { assert PopOwner(s, c); }
    } else {
      MoveCore(s, t, r.pcs[t]);
    }
  }

  lemma ReadValueCore(s: State, t: nat, ok: bool)
    requires Core(s) && t < |s.pcs| && s.pcs[t].PopRead?
    ensures Core(ReadValue(s, t, ok))
  {
    assert ThreadInv(s, t);
    MoveCore(s, t, ReadValue(s, t, ok).pcs[t]);
  }

  lemma WakePopTicket(s: State, t: nat, c: nat)
    requires Core(s) && t < |s.pcs| && s.pcs[t].PopWake?
    ensures Shape(WakePop(s, t)) && TicketInv(WakePop(s, t), c)
  {
    var k := s.pcs[t].count;
    assert ThreadInv(s, t) && TicketInv(s, k) && TicketInv(s, c);
    if s.Index(c) == s.Index(k) && k < c { Spacing(k, c, s.size); }
  }

  lemma WakePopThread(s: State, t: nat, u: nat)
    requires Core(s) && t < |s.pcs| && s.pcs[t].PopWake? && u < |s.pcs|
    ensures Shape(WakePop(s, t)) && ThreadInv(WakePop(s, t), u)
  {
    assert ThreadInv(s, t) && TicketInv(s, s.pcs[t].count) && ThreadInv(s, u);
  }

  lemma WakePopCore(s: State, t: nat)
    requires Core(s) && t < |s.pcs| && s.pcs[t].PopWake?
    ensures Core(WakePop(s, t))
  {
    var r := WakePop(s, t);
    var k := s.pcs[t].count;
    assert ThreadInv(s, t) && TicketInv(s, k);
    NextRound(k, s.size);
    forall c: nat ensures TicketInv(r, c) { WakePopTicket(s, t, c); }
    forall u: nat | u < |r.pcs| ensures ThreadInv(r, u) { WakePopThread(s, t, u); }
    forall c: nat | c < r.tail ensures PushOwner(r, c) { assert PushOwner(s, c); }
    forall c: nat | c < r.head ensures PopOwner(r, c) { assert PopOwner(s, c); }
  }

  lemma BeginCloseCore(s: State, t: nat)
    requires Core(s) && t < |s.pcs| && s.pcs[t].Idle?
    ensures Core(BeginClose(s, t))
  {
    var r := BeginClose(s, t);
    forall c: nat ensures TicketInv(r, c) { assert TicketInv(s, c); }
    forall u: nat | u < |r.pcs| ensures ThreadInv(r, u) { assert ThreadInv(s, u); }
    forall c: nat | c < r.tail ensures PushOwner(r, c) { assert PushOwner(s, c); }
    forall c: nat | c < r.head ensures PopOwner(r, c) { assert PopOwner(s, c); }
  }

  lemma GuardCloseCore(s: State, t: nat)
    requires Core(s) && t < |s.pcs| && s.pcs[t].CloseCas?
    ensures Core(GuardClose(s, t))
  {
    MoveCore(s, t, GuardClose(s, t).pcs[t]);
    var r := GuardClose(s, t);
    forall c: nat ensures TicketInv(r, c) { assert TicketInv(s, c); }
    forall u: nat | u < |r.pcs| ensures ThreadInv(r, u) { assert ThreadInv(s, u); }
    forall c: nat | c < r.tail ensures PushOwner(r, c) { assert PushOwner(s, c); }
    forall c: nat | c < r.head ensures PopOwner(r, c) { assert PopOwner(s, c); }
  }

  lemma CutTailCore(s: State, t: nat)
    requires Core(s) && t < |s.pcs| && s.pcs[t].CloseCut?
    ensures Core(CutTail(s, t))
  {
    var r := CutTail(s, t);
    assert ThreadInv(s, t);
    forall c: nat ensures TicketInv(r, c) { assert TicketInv(s, c); }
    forall u: nat | u < |r.pcs| ensures ThreadInv(r, u) { assert ThreadInv(s, u); }
    forall c: nat | c < r.tail ensures PushOwner(r, c) { assert c < s.tail ==> PushOwner(s, c); }
    forall c: nat | c < r.head ensures PopOwner(r, c) { assert PopOwner(s, c); }
  }

  lemma StoreClosedCore(s: State, t: nat)
    requires Core(s) && t < |s.pcs| && s.pcs[t].CloseStore?
    ensures Core(StoreClosed(s, t))
  {
    var r := StoreClosed(s, t);
    assert ThreadInv(s, t);
    forall c: nat ensures TicketInv(r, c) { assert TicketInv(s, c); }
    forall u: nat | u < |r.pcs| ensures ThreadInv(r, u) { assert ThreadInv(s, u); }
    forall c: nat | c < r.tail ensures PushOwner(r, c) { assert PushOwner(s, c); }
    forall c: nat | c < r.head ensures PopOwner(r, c) { assert PopOwner(s, c); }
  }

  lemma StepCore(s: State, e: Event)
    requires Core(s)
    ensures Core(Step(s, e))
  {
    var t := e.thread;
    if t < |s.pcs| {
      match s.pcs[t]
      case Idle =>
        match e.action {
          case StartPush(v) => TakePushCore(s, t, v);
          case StartPop => TakePopCore(s, t);
          case StartClose => BeginCloseCore(s, t);
          case Go(_) =>
        }
      case PushLoad(_, _) => LoadTailCore(s, t);
      case PushCheck(_, _) => CheckTailCore(s, t);
      case PushWrite(_, _) => WriteValueCore(s, t, Flag(e));
      case PushWake(_, _, _) => WakePushCore(s, t);
      case PopStart => TakePopCore(s, t);
      case PopLoad(_, _) => LoadHeadCore(s, t);
      case PopCheck(_, _) => CheckHeadCore(s, t);
      case PopRead(_) => ReadValueCore(s, t, Flag(e));
      case PopWake(_, _) => WakePopCore(s, t);
      case CloseCas => GuardCloseCore(s, t);
      case CloseCut => CutTailCore(s, t);
      case CloseStore => StoreClosedCore(s, t);
    }
  }

  // ---------------------------------------------------------------------------
  // One close

  lemma StepClose(s: State, e: Event)
    requires Inv(s) && Shape(Step(s, e))
    ensures CloseInv(Step(s, e))
  {
    if e.thread < |s.pcs| {
      var pc := s.pcs[e.thread];
      if pc.Pushing() {
        PushClose(s, e);
      } else if pc.PopStart? {
        TakePopClose(s, e.thread);
      } else if pc.Popping() {
        PopClose(s, e);
      } else if pc.Closing() {
        CloserClose(s, e);
      } else {
        StartClose(s, e);
      }
    }
  }

  lemma PushClose(s: State, e: Event)
    requires Inv(s) && Shape(Step(s, e)) && e.thread < |s.pcs| && s.pcs[e.thread].Pushing()
    ensures CloseInv(Step(s, e))
  {
    assert ThreadInv(s, e.thread);
  }

  lemma PopClose(s: State, e: Event)
    requires Inv(s) && Shape(Step(s, e)) && e.thread < |s.pcs| && s.pcs[e.thread].Popping()
    ensures CloseInv(Step(s, e))
  {
    assert ThreadInv(s, e.thread);
  }

  lemma CloserClose(s: State, e: Event)
    requires Inv(s) && Shape(Step(s, e)) && e.thread < |s.pcs| && s.pcs[e.thread].Closing()
    ensures CloseInv(Step(s, e))
  {
  }

  lemma StartClose(s: State, e: Event)
    requires Inv(s) && Shape(Step(s, e)) && e.thread < |s.pcs| && s.pcs[e.thread].Idle?
    ensures CloseInv(Step(s, e))
  {
    match e.action
    case StartPush(v) => TakePushClose(s, e.thread, v);
    case StartPop => TakePopClose(s, e.thread);
    case StartClose => BeginCloseClose(s, e.thread);
    case Go(_) =>
  }

  lemma TakePushClose(s: State, t: nat, v: Value)
    requires Inv(s) && t < |s.pcs| && s.pcs[t].Idle? && Shape(TakePush(s, t, v))
    ensures CloseInv(TakePush(s, t, v))
  {
  }

  lemma TakePopClose(s: State, t: nat)
    requires Inv(s) && t < |s.pcs| && (s.pcs[t].Idle? || s.pcs[t].PopStart?) && Shape(TakePop(s, t))
    ensures CloseInv(TakePop(s, t))
  {
  }

  lemma BeginCloseClose(s: State, t: nat)
    requires Inv(s) && t < |s.pcs| && s.pcs[t].Idle? && Shape(BeginClose(s, t))
    ensures CloseInv(BeginClose(s, t))
  {
  }

  lemma StepInv(s: State, e: Event)
    requires Inv(s)
    ensures Inv(Step(s, e))
  {
    StepCore(s, e);
    StepClose(s, e);
  }
}
