/**
 The ring of evenk/bounded_queue.h with futex slots: the spinning ring plus the waiting and
 closed bits of the slot words, the threads asleep on them, and the slot loop of close().
 */
module FutexRing {
  import opened Values
  import opened SpinRing

  // A slot word as a thread loads it.
  datatype Word = Word(ticket: nat, status: Status, waiting: bool, closed: bool)

  datatype Flags = Flags(waiting: bool, closed: bool)

  // What a thread is doing to a slot word besides its step in the spinning ring:
  //   Loaded(w)         it loaded w, and the test of the wait loop failed on w
  //   Cas(w)            in slot.wait(w), before the compare-exchange
  //   Sleep(x)          in slot.wait, before futex_wait on x
  //   Asleep(x)         asleep in that futex_wait
  //   Waking(i)         after an exchange that found the waiting bit, before futex_wake
  //   SweepLoad(k), SweepCas(k, w), SweepWake(k, i)   in the slot loop of close(), at slot k
  datatype Mode<W> =
    | Plain
    | Loaded(word: W)
    | Cas(word: W)
    | Sleep(word: W)
    | Asleep(word: W)
    | Waking(slot: nat)
    | SweepLoad(k: nat)
    | SweepCas(k: nat, word: W)
    | SweepWake(k: nat, slot: nat)
  {
    predicate Waits() { Loaded? || Cas? || Sleep? || Asleep? }
    predicate Sweeps() { SweepLoad? || SweepCas? || SweepWake? }
    predicate Wakes(i: nat) { (Waking? || SweepWake?) && slot == i }
  }

  datatype Sweep = Before | Sweeping(thread: nat) | Done

  // `swept` marks the slots whose word the slot loop of close() has already updated.
  datatype FutexState = FutexState(
    ring: State,
    flags: seq<Flags>,
    modes: seq<Mode<Word>>,
    swept: seq<bool>,
    sweep: Sweep)

  predicate FutexShape(s: FutexState) {
    && Shape(s.ring)
    && |s.flags| == s.ring.size
    && |s.swept| == s.ring.size
    && |s.modes| == |s.ring.pcs|
    && (forall t :: 0 <= t < |s.modes| && s.modes[t].Loaded? ==> s.ring.pcs[t].Checking())
    && (forall t :: 0 <= t < |s.modes| && (s.modes[t].Cas? || s.modes[t].Sleep? || s.modes[t].Asleep?) ==>
          s.ring.pcs[t].Loading())
  }

  function FutexInit(size: nat, threads: nat, blank: Value): FutexState {
    FutexState(Init(size, threads, blank), seq(size, _ => Flags(false, false)),
               seq(threads, _ => Plain), seq(size, _ => false), Before)
  }

  function WordAt(s: FutexState, i: nat): Word
    requires FutexShape(s) && i < s.ring.size
  {
    Word(s.ring.slots[i].ticket, s.ring.slots[i].status, s.flags[i].waiting, s.flags[i].closed)
  }

  // The slot of the ticket a thread waits for.
  function SlotOf(s: FutexState, t: nat): (i: nat)
    requires FutexShape(s) && t < |s.modes| && (s.ring.pcs[t].Pushing() || s.ring.pcs[t].Popping())
    ensures i < s.ring.size
  {
    s.ring.Index(s.ring.pcs[t].count)
  }

  // The slot that close() updates in round k of its loop.
  function SweepIndex(last: nat, k: nat, size: nat): (i: nat)
    requires 0 < size
    ensures i < size
  {
    (last + k) % size
  }

  function SweepSlot(s: FutexState, k: nat): (i: nat)
    requires FutexShape(s)
    ensures i < s.ring.size
  {
    SweepIndex(s.ring.last, k, s.ring.size)
  }

  // ---------------------------------------------------------------------------
  // Atomic steps

  // slot.load(), or a failed compare-exchange, followed by the test of the wait loop.
  function LoadSlot(s: FutexState, e: Event): FutexState
    requires FutexShape(s) && e.thread < |s.modes| && s.ring.pcs[e.thread].Loading()
  {
    var t := e.thread;
    var ring := SpinRing.Step(s.ring, e);
    s.(ring := ring,
       modes := s.modes[t := if ring.pcs[t].Checking() then Loaded(WordAt(s, SlotOf(s, t))) else Plain])
  }

  // is_past_last(), then the choice of the backoff policy: a producer may load again instead of
  // waiting.
  function CheckSlot(s: FutexState, e: Event): FutexState
    requires FutexShape(s) && e.thread < |s.modes| && s.modes[e.thread].Loaded?
  {
    var t := e.thread;
    var ring := SpinRing.Step(s.ring, e);
    s.(ring := ring,
       modes := s.modes[t :=
         if ring.pcs[t].Idle? || (s.ring.pcs[t].PushCheck? && Flag(e)) then Plain else Cas(s.modes[t].word)])
  }

  // The compare-exchange of slot.wait(w).
  function WaitCas(s: FutexState, e: Event): FutexState
    requires FutexShape(s) && e.thread < |s.modes| && s.modes[e.thread].Cas?
  {
    var t := e.thread;
    var i := SlotOf(s, t);
    var w := s.modes[t].word;
    var x := w.(waiting := true);
    if WordAt(s, i) == w || WordAt(s, i) == x then
      s.(flags := s.flags[i := s.flags[i].(waiting := true)], modes := s.modes[t := Sleep(x)])
    else
      LoadSlot(s, e)
  }

  // futex_wait(x)
  function FutexWait(s: FutexState, t: nat): FutexState
    requires FutexShape(s) && t < |s.modes| && s.modes[t].Sleep?
  {
    var x := s.modes[t].word;
    s.(modes := s.modes[t := if WordAt(s, SlotOf(s, t)) == x then Asleep(x) else Plain])
  }

  // futex_wake(INT32_MAX) on slot i by thread t, which goes on in mode `next`.
  function FutexWake(s: FutexState, t: nat, i: nat, next: Mode<Word>): FutexState
    requires FutexShape(s) && t < |s.modes| && !next.Waits()
  {
    s.(modes := seq(|s.modes|, (u: nat) requires u < |s.modes| =>
         if u == t then next
         else if s.modes[u].Asleep? && SlotOf(s, u) == i then Plain
         else s.modes[u]))
  }

  // The exchange of slot.wake().
  function WakeSlot(s: FutexState, e: Event): FutexState
    requires FutexShape(s) && e.thread < |s.modes| && s.ring.pcs[e.thread].Waking()
  {
    var t := e.thread;
    var i := SlotOf(s, t);
    s.(ring := SpinRing.Step(s.ring, e),
       flags := s.flags[i := Flags(false, false)],
       modes := s.modes[t := if s.flags[i].waiting then Waking(i) else Plain])
  }

  // closed_.store(closed); the slot loop comes next.
  function StoreFlag(s: FutexState, e: Event): FutexState
    requires FutexShape(s) && e.thread < |s.modes|
  {
    s.(ring := SpinRing.Step(s.ring, e), modes := s.modes[e.thread := SweepLoad(0)], sweep := Sweeping(e.thread))
  }

  function AfterSlot(s: FutexState, k: nat): Mode<Word> {
    if k + 1 < s.ring.size then SweepLoad(k + 1) else Plain
  }

  function SweepAfter(s: FutexState, k: nat): Sweep {
    if k + 1 < s.ring.size then s.sweep else Done
  }

  function SweepLoadWord(s: FutexState, t: nat): FutexState
    requires FutexShape(s) && t < |s.modes| && s.modes[t].SweepLoad?
  {
    var k := s.modes[t].k;
    s.(modes := s.modes[t := SweepCas(k, WordAt(s, SweepSlot(s, k)))])
  }

  // compare_exchange_weak in the slot's close(); it may fail spuriously.
  function SweepCasWord(s: FutexState, t: nat, spurious: bool): FutexState
    requires FutexShape(s) && t < |s.modes| && s.modes[t].SweepCas?
  {
    var SweepCas(k, w) := s.modes[t];
    var i := SweepSlot(s, k);
    if spurious || WordAt(s, i) != w then
      s.(modes := s.modes[t := SweepCas(k, WordAt(s, i))])
    else
      s.(flags := s.flags[i := s.flags[i].(closed := true)],
         swept := s.swept[i := true],
         modes := s.modes[t := if w.waiting then SweepWake(k, i) else AfterSlot(s, k)],
         sweep := if w.waiting then s.sweep else SweepAfter(s, k))
  }

  function SweepWakeSlot(s: FutexState, t: nat): FutexState
    requires FutexShape(s) && t < |s.modes| && s.modes[t].SweepWake?
  {
    var SweepWake(k, i) := s.modes[t];
    FutexWake(s, t, i, AfterSlot(s, k)).(sweep := SweepAfter(s, k))
  }

  function FutexStep(s: FutexState, e: Event): FutexState
    requires FutexShape(s)
  {
    var t := e.thread;
    if t >= |s.modes| then s else
    match s.modes[t]
    case Plain =>
      var pc := s.ring.pcs[t];
      if pc.Loading() then LoadSlot(s, e)
      else if pc.Waking() then WakeSlot(s, e)
      else if pc.CloseStore? then StoreFlag(s, e)
      else s.(ring := SpinRing.Step(s.ring, e))
    case Loaded(_) => CheckSlot(s, e)
    case Cas(_) => WaitCas(s, e)
    case Sleep(_) => FutexWait(s, t)
    case Asleep(_) => s.(modes := s.modes[t := Plain])
    case Waking(i) => FutexWake(s, t, i, Plain)
    case SweepLoad(_) => SweepLoadWord(s, t)
    case SweepCas(_, _) => SweepCasWord(s, t, Flag(e))
    case SweepWake(_, _) => SweepWakeSlot(s, t)
  }

  // ---------------------------------------------------------------------------
  // The invariant

  ghost predicate WakePending(modes: seq<Mode<Word>>, i: nat) {
    exists u :: 0 <= u < |modes| && modes[u].Wakes(i)
  }

  // A loaded word failed the test of its thread and is no newer than the slot.
  predicate Snapshot(size: nat, pc: Pc<nat>, slot: Slot, swept: bool, w: Word)
    requires 0 < size && (pc.Loading() || pc.Checking())
  {
    && w.ticket % size == pc.count % size
    && (if pc.Popping() && pc.matched then w.ticket == pc.count && w.status == Empty else w.ticket != pc.count)
    && (w.ticket < slot.ticket || (w.ticket == slot.ticket && (w.status == slot.status || w.status == Empty)))
    && (w.closed ==> swept)
  }

  // The word differs from the slot in more than the waiting bit.
  predicate Outdated(slot: Slot, closed: bool, w: Word) {
    w.ticket != slot.ticket || w.status != slot.status || (!w.closed && closed)
  }

  // The thread holds a ticket that close() cut off, and its slot has been swept.
  predicate CutOff(s: FutexState, t: nat)
    requires FutexShape(s) && t < |s.modes| && s.ring.pcs[t].Loading()
  {
    s.ring.IsCut() && s.ring.last <= s.ring.pcs[t].count && s.swept[SlotOf(s, t)]
  }

  ghost predicate ModeInv(s: FutexState, t: nat)
    requires FutexShape(s) && t < |s.modes|
  {
    var pc := s.ring.pcs[t];
    var mode := s.modes[t];
    && (mode.Plain? ==> !pc.Checking())
    && (mode.Waits() ==>
          var i := SlotOf(s, t);
          && Snapshot(s.ring.size, pc, s.ring.slots[i], s.swept[i], mode.word)
          && (!mode.Loaded? && CutOff(s, t) ==> Outdated(s.ring.slots[i], s.flags[i].closed, mode.word))
          && (mode.Sleep? || mode.Asleep? ==> mode.word.waiting)
          && (mode.Asleep? ==> WordAt(s, i) == mode.word || WakePending(s.modes, i)))
    && (mode.Waking? ==> pc.Idle? || pc.PopStart?)
    && (mode.Sweeps() ==> pc.Idle? && mode.k < s.ring.size && s.sweep == Sweeping(t))
    && (mode.Sweeps() ==> SweptUpTo(s.ring.last, s.swept, mode.k))
    && (mode.SweepWake? ==> mode.slot == SweepIndex(s.ring.last, mode.k, s.ring.size) && s.swept[mode.slot])
  }

  predicate SweptUpTo(last: nat, swept: seq<bool>, k: nat) {
    |swept| > 0 && forall j: nat :: j < k ==> swept[SweepIndex(last, j, |swept|)]
  }

  ghost predicate ModesInv(s: FutexState) {
    && FutexShape(s)
    && (s.sweep.Before? <==> !s.ring.phase.Shut?)
    && (s.sweep.Sweeping? ==> s.sweep.thread < |s.modes| && s.modes[s.sweep.thread].Sweeps())
    && (s.sweep.Before? ==> forall i :: 0 <= i < s.ring.size ==> !s.swept[i])
    && (s.sweep.Done? ==> forall i :: 0 <= i < s.ring.size ==> s.swept[i])
    && (forall i :: 0 <= i < s.ring.size && s.flags[i].closed ==> s.swept[i])
    && (forall t: nat :: t < |s.modes| ==> ModeInv(s, t))
  }

  ghost predicate FutexInv(s: FutexState) {
    Inv(s.ring) && ModesInv(s)
  }
}
