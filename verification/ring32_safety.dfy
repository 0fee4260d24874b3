/** What the 32-bit ring promises of its own words and of the local variables of its threads. */
module Ring32Safety {
  import opened Values
  import opened Bits
  import opened SpinRing
  import opened SpinRingTheorems
  import opened RingOutcomes
  import opened FutexRing
  import opened FutexRingInv
  import opened FutexRingTheorems
  import opened Tokens
  import opened RingBounds
  import opened Ring32
  import opened Ring32Refines
  import opened Ring32Theorems

  // No two threads are inside the value of one slot.
  ghost predicate ValuesExclusive(v: Store)
    requires Shape32(v)
  {
    forall t, u :: 0 <= t < |v.pcs| && 0 <= u < |v.pcs| && t != u && InValue(v.pcs[t]) && InValue(v.pcs[u]) ==>
      Slot32(v, v.pcs[t].count) != Slot32(v, v.pcs[u].count)
  }

  // A thread is about to wake slot i.
  ghost predicate WakeComing(modes: seq<Mode<u32>>, i: nat) {
    exists u :: 0 <= u < |modes| && modes[u].Wakes(i)
  }

  // Nobody sleeps on a word that has changed, unless a wake of its slot is coming.
  ghost predicate SleepersCurrent(v: Store)
    requires Shape32(v)
  {
    forall t :: 0 <= t < |v.modes| && v.modes[t].Asleep? ==>
      var i := Slot32(v, v.pcs[t].count);
      v.words[i] == v.modes[t].word || WakeComing(v.modes, i)
  }

  // After the slot loop of close(), nobody with a ticket from last_ on sleeps, unless a wake of its
  // slot is coming.
  ghost predicate SleepersFreed(v: Store)
    requires Shape32(v)
  {
    v.closed == Closed && (forall u :: 0 <= u < |v.modes| ==> !v.modes[u].Sweeps()) ==>
      forall t :: 0 <= t < |v.modes| && v.modes[t].Asleep? && PastLast32(v, v.pcs[t].count) ==>
        WakeComing(v.modes, Slot32(v, v.pcs[t].count))
  }

  lemma WakeImage(m: FutexState, i: nat)
    requires WakePending(m.modes, i)
    ensures WakeComing(EncodeModes(m.modes), i)
  {
    var u :| 0 <= u < |m.modes| && m.modes[u].Wakes(i);
    assert EncodeModes(m.modes)[u].Wakes(i);
  }

  lemma ImageExclusive(m: FutexState)
    requires Good(m)
    ensures Shape32(Image(m)) && ValuesExclusive(Image(m))
  {
    ImageShape(m);
    var v := Image(m);
    forall t, u | 0 <= t < |v.pcs| && 0 <= u < |v.pcs| && t != u && InValue(v.pcs[t]) && InValue(v.pcs[u])
      ensures Slot32(v, v.pcs[t].count) != Slot32(v, v.pcs[u].count)
    {
      var c, d := m.ring.pcs[t].count, m.ring.pcs[u].count;
      SlotExact(m, c);
      SlotExact(m, d);
      if m.ring.Index(c) == m.ring.Index(d) { AloneInValue(m.ring, t, u); }
    }
  }

  // A sleeper of the image is one of the unbounded ring, on the same slot.
  lemma SleeperImage(m: FutexState, t: nat)
    requires Good(m) && t < |m.modes| && m.modes[t].Asleep?
    ensures Shape32(Image(m)) && Slot32(Image(m), Image(m).pcs[t].count) == SlotOf(m, t)
    ensures Image(m).pcs[t].count == m.ring.pcs[t].count % WORD
  {
    SlotExact(m, m.ring.pcs[t].count);
  }

  lemma ImageCurrent(m: FutexState)
    requires Good(m)
    ensures Shape32(Image(m)) && SleepersCurrent(Image(m))
  {
    ImageShape(m);
    var v := Image(m);
    forall t | 0 <= t < |v.modes| && v.modes[t].Asleep?
      ensures var i := Slot32(v, v.pcs[t].count); v.words[i] == v.modes[t].word || WakeComing(v.modes, i)
    {
      SleeperImage(m, t);
      assert ModeInv(m, t);
      if WakePending(m.modes, SlotOf(m, t)) { WakeImage(m, SlotOf(m, t)); }
    }
  }

  lemma SweepOver(m: FutexState)
    requires FutexInv(m) && m.ring.closed == Closed && forall u :: 0 <= u < |m.modes| ==> !m.modes[u].Sweeps()
    ensures m.sweep.Done? && m.ring.IsCut()
  {
    assert CloseInv(m.ring);
  }

  lemma ImageFreed(m: FutexState)
    requires Good(m) && Fits(m.ring)
    ensures Shape32(Image(m)) && SleepersFreed(Image(m))
  {
    ImageShape(m);
    var v := Image(m);
    if v.closed == Closed && forall u :: 0 <= u < |v.modes| ==> !v.modes[u].Sweeps() {
      forall u | 0 <= u < |m.modes| ensures !m.modes[u].Sweeps() { assert !v.modes[u].Sweeps(); }
      SweepOver(m);
      forall t | 0 <= t < |v.modes| && v.modes[t].Asleep? && PastLast32(v, v.pcs[t].count)
        ensures WakeComing(v.modes, Slot32(v, v.pcs[t].count))
      {
        FreedImage(m, t);
      }
    }
  }

  lemma FreedImage(m: FutexState, t: nat)
    requires Good(m) && Fits(m.ring) && m.sweep.Done? && m.ring.IsCut() && t < |m.modes| && m.modes[t].Asleep?
    requires Shape32(Image(m)) && PastLast32(Image(m), Image(m).pcs[t].count)
    ensures WakeComing(Image(m).modes, Slot32(Image(m), Image(m).pcs[t].count))
  {
    SleeperImage(m, t);
    TicketNear(m.ring, t, m.ring.pcs[t].count);
    SignedTestExact(m.ring.last, m.ring.pcs[t].count);
    SweptFreesSleeper(m, t);
    WakeImage(m, SlotOf(m, t));
  }

  // ---------------------------------------------------------------------------
  // What the words and the consumers tell of the values

  // The status bits of a slot word say that its ticket is published, and whether its assignment
  // threw; if it did not, the slot holds the value that was stored.
  ghost predicate WordTells(v: Store, m: FutexState, i: nat, thrown: set<nat>)
    requires Shape32(v) && FutexShape(m) && i < |v.words| == m.ring.size
  {
    var c := m.ring.slots[i].ticket;
    && And(v.words[i], STATUS_MASK) ==
       (if !Published(m.ring, c) then 0 else if c in thrown then STATUS_INVALID else STATUS_VALID)
    && (Published(m.ring, c) && c !in thrown ==> m.ring.pushed[c] == PushStored(v.values[i]))
  }

  // A consumer that has left the value of its slot has it, unless the move threw or there was none.
  ghost predicate ConsumerTells(v: Store, m: FutexState, t: nat, thrown: set<nat>, lost: set<nat>)
    requires Shape32(v) && FutexShape(m) && t < |v.pcs| == |m.ring.pcs| && v.pcs[t].PopWake? && m.ring.pcs[t].PopWake?
  {
    var c := m.ring.pcs[t].count;
    match v.pcs[t].out
    case Took(w) => c !in thrown && c !in lost && c < m.ring.tail && m.ring.pushed[c] == PushStored(w)
    case Lost(w) => c !in thrown && c in lost && c < m.ring.tail && m.ring.pushed[c] == PushStored(w)
    case Skipped => c in thrown
  }

  ghost predicate OutcomesTold(v: Store, m: FutexState, thrown: set<nat>, lost: set<nat>) {
    && Shape32(v) && FutexShape(m) && |v.words| == m.ring.size && |v.pcs| == |m.ring.pcs|
    && (forall i :: 0 <= i < |v.words| ==> WordTells(v, m, i, thrown))
    && (forall t :: 0 <= t < |v.pcs| && v.pcs[t].PopWake? ==>
          m.ring.pcs[t].PopWake? && ConsumerTells(v, m, t, thrown, lost))
  }

  lemma WordImageTells(m: FutexState, i: nat, thrown: set<nat>)
    requires Good(m) && i < m.ring.size
    requires var c := m.ring.slots[i].ticket; Threw(m.ring, c) <==> c in thrown
    ensures Shape32(Image(m)) && WordTells(Image(m), m, i, thrown)
  {
    ImageShape(m);
    var c := m.ring.slots[i].ticket;
    assert m.ring.Index(c) == i && TicketInv(m.ring, c);
    Decode(WordAt(m, i));
  }

  lemma ConsumerImageTells(m: FutexState, t: nat, thrown: set<nat>, lost: set<nat>)
    requires Good(m) && t < |m.ring.pcs| && m.ring.pcs[t].PopWake?
    requires var c := m.ring.pcs[t].count; (Threw(m.ring, c) <==> c in thrown) && (LostTicket(m.ring, c) <==> c in lost)
    ensures Shape32(Image(m)) && ConsumerTells(Image(m), m, t, thrown, lost)
  {
    ImageShape(m);
    var c := m.ring.pcs[t].count;
    assert ThreadInv(m.ring, t) && TicketInv(m.ring, c);
  }

  // After every run that fits, with the tickets whose assignments and moves threw in it.
  lemma ImageTells(size: u32, threads: nat, blank: Value, events: seq<Event>)
    requires GoodSize(size)
    requires (FutexInitInv(size, threads, blank); Good(FutexRun(FutexInit(size, threads, blank), events)))
    ensures FutexInv(FutexInit(size, threads, blank))
    ensures var s, r := FutexInit(size, threads, blank), FutexRun(FutexInit(size, threads, blank), events);
            OutcomesTold(Image(r), r, FutexThrown(s, events), FutexLost(s, events))
  {
    FutexInitInv(size, threads, blank);
    var s, r := FutexInit(size, threads, blank), FutexRun(FutexInit(size, threads, blank), events);
    ImageShape(r);
    forall i | 0 <= i < r.ring.size ensures WordTells(Image(r), r, i, FutexThrown(s, events)) {
      FutexOutcomes(size, threads, blank, events, r.ring.slots[i].ticket);
      WordImageTells(r, i, FutexThrown(s, events));
    }
    forall t | 0 <= t < |r.ring.pcs| && r.ring.pcs[t].PopWake?
      ensures ConsumerTells(Image(r), r, t, FutexThrown(s, events), FutexLost(s, events))
    {
      FutexOutcomes(size, threads, blank, events, r.ring.pcs[t].count);
      ConsumerImageTells(r, t, FutexThrown(s, events), FutexLost(s, events));
    }
  }
}
