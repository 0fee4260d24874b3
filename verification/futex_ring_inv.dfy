/** Every step of the futex ring is a step of the spinning ring or none, and keeps the invariant. */
module FutexRingInv {
  import opened Values
  import opened Residues
  import opened SpinRing
  import opened SpinRingInv
  import opened FutexRing

  // The futex ring refines the spinning ring: sleeping, waking and sweeping change neither
  // tickets nor statuses nor values.
  lemma Refines(s: FutexState, e: Event)
    requires FutexShape(s)
    ensures FutexStep(s, e).ring == s.ring || FutexStep(s, e).ring == SpinRing.Step(s.ring, e)
  {
  }

  lemma FutexInitInv(size: nat, threads: nat, blank: Value)
    requires 0 < size
    ensures FutexInv(FutexInit(size, threads, blank))
  {
    InitInv(size, threads, blank);
  }

  // ---------------------------------------------------------------------------
  // What one step of the spinning ring leaves alone

  predicate SameSlots(s: State, r: State) {
    |s.slots| == |r.slots| && forall i :: 0 <= i < |s.slots| ==>
      r.slots[i].ticket == s.slots[i].ticket && r.slots[i].status == s.slots[i].status
  }

  predicate OtherPcs(s: State, r: State, t: nat) {
    |r.pcs| == |s.pcs| && forall u :: 0 <= u < |s.pcs| && u != t ==> r.pcs[u] == s.pcs[u]
  }

  predicate Quietly(s: State, r: State, t: nat) {
    && Shape(r) && r.size == s.size
    && OtherPcs(s, r, t)
    && SameSlots(s, r)
    && r.phase.Shut? == s.phase.Shut?
    && (r.IsCut() ==> (s.IsCut() && r.last == s.last) || !r.phase.Shut?)
    && (s.IsCut() ==> r.last == s.last)
  }

  lemma QuietStep(s: State, e: Event)
    requires Inv(s) && e.thread < |s.pcs| && !s.pcs[e.thread].Waking() && !s.pcs[e.thread].CloseStore?
    ensures Quietly(s, Step(s, e), e.thread)
  {
    StepCore(s, e);
    assert ThreadInv(s, e.thread) && CloseInv(s);
  }

  lemma PendingKept(a: seq<Mode<Word>>, b: seq<Mode<Word>>, i: nat)
    requires WakePending(a, i) && |a| == |b|
    requires forall u :: 0 <= u < |a| && a[u].Wakes(i) ==> b[u].Wakes(i)
    ensures WakePending(b, i)
  {
    var u :| 0 <= u < |a| && a[u].Wakes(i);
    assert b[u].Wakes(i);
  }

  // ---------------------------------------------------------------------------
  // Steps that wake no slot

  // A quiet step of thread t, with its new mode.
  lemma QuietInv(s: FutexState, ring: State, t: nat, mode: Mode<Word>)
    requires ModesInv(s) && t < |s.modes| && Quietly(s.ring, ring, t)
    requires !s.modes[t].Sweeps() && !mode.Sweeps() && !s.modes[t].Waking?
    requires var r := s.(ring := ring, modes := s.modes[t := mode]); FutexShape(r) && ModeInv(r, t)
    ensures ModesInv(s.(ring := ring, modes := s.modes[t := mode]))
  {
    var r := s.(ring := ring, modes := s.modes[t := mode]);
    forall u: nat | u < |r.modes| && u != t ensures ModeInv(r, u) {
      assert ModeInv(s, u);
      if s.modes[u].Asleep? && WakePending(s.modes, SlotOf(s, u)) {
        PendingKept(s.modes, r.modes, SlotOf(s, u));
      }
    }
  }

  lemma LoadSlotInv(s: FutexState, e: Event)
    requires FutexInv(s) && e.thread < |s.modes| && s.ring.pcs[e.thread].Loading()
    requires s.modes[e.thread].Plain? || s.modes[e.thread].Cas?
    ensures ModesInv(LoadSlot(s, e))
  {
    var t := e.thread;
    var r := LoadSlot(s, e);
    QuietStep(s.ring, e);
    assert ThreadInv(s.ring, t);
    var i := SlotOf(s, t);
    assert s.ring.Index(s.ring.slots[i].ticket) == i;
    assert s.flags[i].closed ==> s.swept[i];
    QuietInv(s, r.ring, t, r.modes[t]);
  }

  lemma CheckSlotInv(s: FutexState, e: Event)
    requires FutexInv(s) && e.thread < |s.modes| && s.modes[e.thread].Loaded?
    ensures ModesInv(CheckSlot(s, e))
  {
    var t := e.thread;
    var r := CheckSlot(s, e);
    QuietStep(s.ring, e);
    assert ModeInv(s, t);
    assert CloseInv(s.ring);
    QuietInv(s, r.ring, t, r.modes[t]);
  }

  lemma WaitCasInv(s: FutexState, e: Event)
    requires FutexInv(s) && e.thread < |s.modes| && s.modes[e.thread].Cas?
    ensures ModesInv(WaitCas(s, e))
  {
    var t := e.thread;
    var w := s.modes[t].word;
    var now := WordAt(s, SlotOf(s, t));
    if now == w || now == w.(waiting := true) {
      WaitingBitInv(s, t);
    } else {
      LoadSlotInv(s, e);
    }
  }

  // The compare-exchange that sets the waiting bit finds it set already if anybody sleeps on the
  // word, so no sleeper loses its word.
  lemma WaitingBitInv(s: FutexState, t: nat)
    requires ModesInv(s) && t < |s.modes| && s.modes[t].Cas?
    requires var w := s.modes[t].word;
             WordAt(s, SlotOf(s, t)) == w || WordAt(s, SlotOf(s, t)) == w.(waiting := true)
    ensures var i := SlotOf(s, t);
            ModesInv(s.(flags := s.flags[i := s.flags[i].(waiting := true)],
                        modes := s.modes[t := Sleep(s.modes[t].word.(waiting := true))]))
  {
    var i := SlotOf(s, t);
    var r := s.(flags := s.flags[i := s.flags[i].(waiting := true)],
                modes := s.modes[t := Sleep(s.modes[t].word.(waiting := true))]);
    forall u: nat | u < |r.modes| ensures ModeInv(r, u) { WaitingBitMode(s, t, u); }
  }

  lemma WaitingBitMode(s: FutexState, t: nat, u: nat)
    requires ModesInv(s) && t < |s.modes| && s.modes[t].Cas? && u < |s.modes|
    requires var w := s.modes[t].word;
             WordAt(s, SlotOf(s, t)) == w || WordAt(s, SlotOf(s, t)) == w.(waiting := true)
    ensures var i := SlotOf(s, t);
            var r := s.(flags := s.flags[i := s.flags[i].(waiting := true)],
                        modes := s.modes[t := Sleep(s.modes[t].word.(waiting := true))]);
            FutexShape(r) && ModeInv(r, u)
  {
    var i := SlotOf(s, t);
    var modes := s.modes[t := Sleep(s.modes[t].word.(waiting := true))];
    assert ModeInv(s, u);
    if u != t && s.modes[u].Asleep? {
      if WakePending(s.modes, SlotOf(s, u)) {
        PendingKept(s.modes, modes, SlotOf(s, u));
      } else {
        assert WordAt(s, SlotOf(s, u)) == s.modes[u].word;
      }
    }
  }

  // ---------------------------------------------------------------------------
  // Steps on the modes alone

  lemma FutexWaitInv(s: FutexState, t: nat)
    requires ModesInv(s) && t < |s.modes| && s.modes[t].Sleep?
    ensures ModesInv(FutexWait(s, t))
  {
    assert ModeInv(s, t);
    var r := FutexWait(s, t);
    QuietInv(s, s.ring, t, r.modes[t]);
  }

  lemma SpuriousWakeInv(s: FutexState, t: nat)
    requires ModesInv(s) && t < |s.modes| && s.modes[t].Asleep?
    ensures ModesInv(s.(modes := s.modes[t := Plain]))
  {
    QuietInv(s, s.ring, t, Plain);
  }

  // futex_wake drops the pending wake and, with it, every sleeper that relied on it.
  lemma FutexWakeModes(s: FutexState, t: nat, i: nat, next: Mode<Word>)
    requires ModesInv(s) && t < |s.modes| && s.modes[t].Wakes(i) && !next.Waits()
    ensures var r := FutexWake(s, t, i, next);
            FutexShape(r) && forall u: nat :: u < |r.modes| && u != t ==> ModeInv(r, u)
  {
    var r := FutexWake(s, t, i, next);
    forall u: nat | u < |r.modes| && u != t ensures ModeInv(r, u) { FutexWakeMode(s, t, i, next, u); }
  }

  lemma FutexWakeMode(s: FutexState, t: nat, i: nat, next: Mode<Word>, u: nat)
    requires ModesInv(s) && t < |s.modes| && s.modes[t].Wakes(i) && !next.Waits()
    requires u < |s.modes| && u != t
    ensures var r := FutexWake(s, t, i, next); FutexShape(r) && ModeInv(r, u)
  {
    var r := FutexWake(s, t, i, next);
    assert ModeInv(s, u);
    if r.modes[u].Asleep? && WakePending(s.modes, SlotOf(s, u)) {
      PendingKept(s.modes, r.modes, SlotOf(s, u));
    }
  }

  lemma WakingInv(s: FutexState, t: nat)
    requires ModesInv(s) && t < |s.modes| && s.modes[t].Waking?
    ensures ModesInv(FutexWake(s, t, s.modes[t].slot, Plain))
  {
    assert ModeInv(s, t);
    FutexWakeModes(s, t, s.modes[t].slot, Plain);
  }

  // ---------------------------------------------------------------------------
  // The exchange that passes a slot on

  predicate Advances(a: Slot, b: Slot) {
    a.ticket < b.ticket || (a.ticket == b.ticket && a.status == Empty && b.status != Empty)
  }

  lemma WakeStep(s: State, e: Event)
    requires Inv(s) && e.thread < |s.pcs| && s.pcs[e.thread].Waking()
    ensures var r := Step(s, e);
            var i := s.Index(s.pcs[e.thread].count);
            && Shape(r) && r.size == s.size
            && OtherPcs(s, r, e.thread)
            && Advances(s.slots[i], r.slots[i])
            && (forall j :: 0 <= j < s.size && j != i ==> r.slots[j] == s.slots[j])
            && r.phase == s.phase && r.last == s.last
            && (r.pcs[e.thread].Idle? || r.pcs[e.thread].PopStart?)
  {
    StepInv(s, e);
    assert ThreadInv(s, e.thread) && TicketInv(s, s.pcs[e.thread].count);
  }

  predicate PassesOn(s: FutexState, ring: State, t: nat)
    requires FutexShape(s) && t < |s.modes| && s.ring.pcs[t].Waking()
  {
    && Shape(ring) && ring.size == s.ring.size && OtherPcs(s.ring, ring, t)
    && Advances(s.ring.slots[SlotOf(s, t)], ring.slots[SlotOf(s, t)])
    && (forall j :: 0 <= j < s.ring.size && j != SlotOf(s, t) ==> ring.slots[j] == s.ring.slots[j])
    && ring.phase == s.ring.phase && ring.last == s.ring.last
    && (ring.pcs[t].Idle? || ring.pcs[t].PopStart?)
  }

  function Exchanged(s: FutexState, ring: State, t: nat): FutexState
    requires FutexShape(s) && t < |s.modes| && s.ring.pcs[t].Waking()
  {
    var i := SlotOf(s, t);
    s.(ring := ring, flags := s.flags[i := Flags(false, false)],
       modes := s.modes[t := if s.flags[i].waiting then Waking(i) else Plain])
  }

  // The exchange may erase the waiting and closed bits: the waiting bit it finds leaves a wake
  // pending, and the words of the threads that were cut off stay outdated.
  lemma ExchangeOther(s: FutexState, ring: State, t: nat, u: nat)
    requires FutexShape(s) && t < |s.modes| && s.modes[t].Plain? && s.ring.pcs[t].Waking()
    requires PassesOn(s, ring, t) && FutexShape(Exchanged(s, ring, t))
    requires u < |s.modes| && u != t && ModeInv(s, u)
    ensures ModeInv(Exchanged(s, ring, t), u)
  {
    var r := Exchanged(s, ring, t);
    var i := SlotOf(s, t);
    if s.modes[u].Asleep? {
      var j := SlotOf(s, u);
      if WakePending(s.modes, j) {
        PendingKept(s.modes, r.modes, j);
      } else if j == i {
        assert r.modes[t].Wakes(i);
      }
    }
  }

  lemma WakeSlotInv(s: FutexState, e: Event)
    requires FutexInv(s) && e.thread < |s.modes| && s.modes[e.thread].Plain? && s.ring.pcs[e.thread].Waking()
    ensures ModesInv(WakeSlot(s, e))
  {
    var t := e.thread;
    var ring := Step(s.ring, e);
    WakeStep(s.ring, e);
    var r := Exchanged(s, ring, t);
    forall u: nat | u < |r.modes| ensures ModeInv(r, u) {
      if u != t { ExchangeOther(s, ring, t, u); }
    }
  }

  // ---------------------------------------------------------------------------
  // The slot loop of close()

  lemma StoreStep(s: State, e: Event)
    requires Inv(s) && e.thread < |s.pcs| && s.pcs[e.thread].CloseStore?
    ensures var r := Step(s, e);
            && Shape(r) && r.size == s.size && OtherPcs(s, r, e.thread) && SameSlots(s, r)
            && r.phase.Shut? && !s.phase.Shut? && r.last == s.last && r.pcs[e.thread].Idle?
  {
    StepInv(s, e);
    assert ThreadInv(s, e.thread);
  }

  lemma StoreFlagInv(s: FutexState, e: Event)
    requires FutexInv(s) && e.thread < |s.modes| && s.modes[e.thread].Plain? && s.ring.pcs[e.thread].CloseStore?
    ensures ModesInv(StoreFlag(s, e))
  {
    var r := StoreFlag(s, e);
    StoreStep(s.ring, e);
    forall u: nat | u < |r.modes| ensures ModeInv(r, u) {
      assert ModeInv(s, u);
      if s.modes[u].Asleep? && WakePending(s.modes, SlotOf(s, u)) {
        PendingKept(s.modes, r.modes, SlotOf(s, u));
      }
    }
  }

  // The sweeping thread moves on within round k.
  lemma SweepMoveInv(s: FutexState, t: nat, mode: Mode<Word>)
    requires ModesInv(s) && t < |s.modes| && (s.modes[t].SweepLoad? || s.modes[t].SweepCas?)
    requires mode.SweepCas? && mode.k == s.modes[t].k
    ensures ModesInv(s.(modes := s.modes[t := mode]))
  {
    var r := s.(modes := s.modes[t := mode]);
    forall u: nat | u < |r.modes| ensures ModeInv(r, u) {
      assert ModeInv(s, u);
      if s.modes[u].Asleep? && WakePending(s.modes, SlotOf(s, u)) {
        PendingKept(s.modes, r.modes, SlotOf(s, u));
      }
    }
  }

  // The slot loop visits every slot.
  lemma AllSwept(last: nat, swept: seq<bool>)
    requires SweptUpTo(last, swept, |swept|)
    ensures forall i :: 0 <= i < |swept| ==> swept[i]
  {
    forall i | 0 <= i < |swept| ensures swept[i] {
      var b := Representative(last, i, |swept|);
      assert SweepIndex(last, b - last, |swept|) == i;
    }
  }

  lemma SweepCasInv(s: FutexState, t: nat, spurious: bool)
    requires ModesInv(s) && t < |s.modes| && s.modes[t].SweepCas?
    ensures ModesInv(SweepCasWord(s, t, spurious))
  {
    var SweepCas(k, w) := s.modes[t];
    var i := SweepSlot(s, k);
    if spurious || WordAt(s, i) != w {
      SweepMoveInv(s, t, SweepCas(k, WordAt(s, i)));
    } else {
      ClosedBitInv(s, t);
    }
  }

  lemma SweptNext(last: nat, swept: seq<bool>, k: nat)
    requires SweptUpTo(last, swept, k)
    ensures SweptUpTo(last, swept[SweepIndex(last, k, |swept|) := true], k + 1)
  {
  }

  // Setting the closed bit outdates the words of all threads cut off on this slot.
  lemma ClosedBitOthers(s: FutexState, t: nat, u: nat)
    requires ModesInv(s) && t < |s.modes| && s.modes[t].SweepCas?
    requires WordAt(s, SweepSlot(s, s.modes[t].k)) == s.modes[t].word
    requires u < |s.modes| && u != t
    ensures ModeInv(SweepCasWord(s, t, false), u)
  {
    var r := SweepCasWord(s, t, false);
    var i := SweepSlot(s, s.modes[t].k);
    assert ModeInv(s, t) && ModeInv(s, u);
    if s.modes[u].Asleep? {
      var j := SlotOf(s, u);
      if WakePending(s.modes, j) {
        PendingKept(s.modes, r.modes, j);
      } else if j == i {
        assert r.modes[t].Wakes(i);
      }
    }
  }

  lemma ClosedBitInv(s: FutexState, t: nat)
    requires ModesInv(s) && t < |s.modes| && s.modes[t].SweepCas?
    requires WordAt(s, SweepSlot(s, s.modes[t].k)) == s.modes[t].word
    ensures ModesInv(SweepCasWord(s, t, false))
  {
    var r := SweepCasWord(s, t, false);
    assert ModeInv(s, t);
    SweptNext(s.ring.last, s.swept, s.modes[t].k);
    if r.sweep.Done? { AllSwept(r.ring.last, r.swept); }
    forall u: nat | u < |r.modes| ensures ModeInv(r, u) {
      if u != t { ClosedBitOthers(s, t, u); }
    }
  }

  lemma SweepWakeInv(s: FutexState, t: nat)
    requires ModesInv(s) && t < |s.modes| && s.modes[t].SweepWake?
    ensures ModesInv(SweepWakeSlot(s, t))
  {
    var r := SweepWakeSlot(s, t);
    var SweepWake(k, i) := s.modes[t];
    var q := FutexWake(s, t, i, AfterSlot(s, k));
    assert ModeInv(s, t);
    FutexWakeModes(s, t, i, AfterSlot(s, k));
    assert SweptUpTo(r.ring.last, r.swept, k + 1);
    if r.sweep.Done? { AllSwept(r.ring.last, r.swept); }
    forall u: nat | u < |r.modes| ensures ModeInv(r, u) {
      assert u != t ==> ModeInv(q, u);
    }
  }

  // ---------------------------------------------------------------------------
  // All steps

  lemma FutexStepInv(s: FutexState, e: Event)
    requires FutexInv(s)
    ensures FutexInv(FutexStep(s, e))
  {
    StepInv(s.ring, e);
    Refines(s, e);
    var t := e.thread;
    if t < |s.modes| {
      assert ModeInv(s, t);
      match s.modes[t]
      case Plain => PlainStepInv(s, e);
      case Loaded(_) => CheckSlotInv(s, e);
      case Cas(_) => WaitCasInv(s, e);
      case Sleep(_) => FutexWaitInv(s, t);
      case Asleep(_) => SpuriousWakeInv(s, t);
      case Waking(_) => WakingInv(s, t);
      case SweepLoad(k) => SweepMoveInv(s, t, SweepCas(k, WordAt(s, SweepSlot(s, k))));
      case SweepCas(_, _) => SweepCasInv(s, t, Flag(e));
      case SweepWake(_, _) => SweepWakeInv(s, t);
    }
  }

  lemma PlainStepInv(s: FutexState, e: Event)
    requires FutexInv(s) && e.thread < |s.modes| && s.modes[e.thread].Plain?
    ensures ModesInv(FutexStep(s, e))
  {
    var t := e.thread;
    var pc := s.ring.pcs[t];
    assert ModeInv(s, t);
    if pc.Loading() {
      LoadSlotInv(s, e);
    } else if pc.Waking() {
      WakeSlotInv(s, e);
    } else if pc.CloseStore? {
      StoreFlagInv(s, e);
    } else {
      QuietStep(s.ring, e);
      assert s.modes == s.modes[t := Plain];
      QuietInv(s, Step(s.ring, e), t, Plain);
    }
  }
}
