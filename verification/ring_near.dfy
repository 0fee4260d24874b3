/** The words that threads keep in local variables stay close to their slots, too. */
module RingNear {
  import opened Bits
  import opened SpinRing
  import opened FutexRing
  import opened FutexRingInv
  import opened RingBounds

  predicate NearMode(s: FutexState, t: nat)
    requires FutexShape(s) && t < |s.modes|
  {
    var mode := s.modes[t];
    && (mode.Waits() ==> s.ring.pcs[t].count < mode.word.ticket + WORD)
    && (mode.SweepCas? ==>
          var i := SweepSlot(s, mode.k);
          && mode.word.ticket % s.ring.size == i
          && mode.word.ticket <= s.ring.slots[i].ticket
          && s.ring.last <= mode.word.ticket + (|s.ring.pcs| + 1) * s.ring.size)
  }

  ghost predicate Near(s: FutexState)
    requires FutexShape(s)
  {
    forall t: nat :: t < |s.modes| ==> NearMode(s, t)
  }

  lemma SlotsAdvance(s: State, e: Event)
    requires Inv(s)
    ensures var r := Step(s, e);
            && r.size == s.size && |r.slots| == |s.slots| && |r.pcs| == |s.pcs|
            && (forall i :: 0 <= i < s.size ==> s.slots[i].ticket <= r.slots[i].ticket)
            && (s.IsCut() ==> r.last == s.last)
            && (forall u :: 0 <= u < |s.pcs| && u != e.thread ==> r.pcs[u] == s.pcs[u])
  {
    if e.thread < |s.pcs| { assert ThreadInv(s, e.thread); }
  }

  // The word loaded in the slot loop of close() is as recent as the cut.
  lemma SweepWordNear(s: FutexState, k: nat)
    requires FutexInv(s) && s.ring.IsCut()
    ensures var w := WordAt(s, SweepSlot(s, k));
            && w.ticket % s.ring.size == SweepSlot(s, k)
            && s.ring.last <= w.ticket + (|s.ring.pcs| + 1) * s.ring.size
  {
    var i := SweepSlot(s, k);
    assert s.ring.Index(s.ring.slots[i].ticket) == i;
    SlotNear(s.ring, i);
  }

  lemma OthersNear(s: FutexState, e: Event, u: nat)
    requires FutexInv(s) && Near(s) && u < |s.modes| && u != e.thread && FutexShape(FutexStep(s, e))
    ensures NearMode(FutexStep(s, e), u)
  {
    SlotsAdvance(s.ring, e);
    Refines(s, e);
    OtherMode(s, e, u);
    assert NearMode(s, u) && ModeInv(s, u);
    assert CloseInv(s.ring);
  }

  // A step leaves the mode of another thread alone, or wakes it.
  lemma OtherMode(s: FutexState, e: Event, u: nat)
    requires FutexShape(s) && u < |s.modes| && u != e.thread
    ensures u < |FutexStep(s, e).modes|
    ensures FutexStep(s, e).modes[u] == s.modes[u] || FutexStep(s, e).modes[u].Plain?
  {
  }

  lemma NearStep(s: FutexState, e: Event)
    requires FutexInv(s) && Near(s) && Fits(s.ring)
    ensures FutexInv(FutexStep(s, e)) && Near(FutexStep(s, e))
  {
    FutexStepInv(s, e);
    var r := FutexStep(s, e);
    forall u: nat | u < |r.modes| ensures NearMode(r, u) {
      if u != e.thread { OthersNear(s, e, u); } else { SelfNear(s, e); }
    }
  }

  // A thread keeps the word it loads for the ticket it holds.
  lemma SelfNear(s: FutexState, e: Event)
    requires FutexInv(s) && Near(s) && Fits(s.ring) && e.thread < |s.modes|
    requires FutexShape(FutexStep(s, e))
    ensures NearMode(FutexStep(s, e), e.thread)
  {
    var t := e.thread;
    if s.modes[t].Sweeps() {
      assert ModeInv(s, t);
      assert CloseInv(s.ring);
      SweepWordNear(s, s.modes[t].k);
    } else {
      WaiterNear(s, e);
    }
  }

  lemma WaiterNear(s: FutexState, e: Event)
    requires FutexInv(s) && Near(s) && Fits(s.ring) && e.thread < |s.modes| && !s.modes[e.thread].Sweeps()
    requires FutexShape(FutexStep(s, e))
    ensures NearMode(FutexStep(s, e), e.thread)
  {
    var t := e.thread;
    var pc := s.ring.pcs[t];
    var r := FutexStep(s, e);
    if r.modes[t].Waits() {
      assert NearMode(s, t);
      WaiterWords(s, e);
      TicketNear(s.ring, t, pc.count);
    }
  }

  // A thread that waits keeps its ticket and the word it has, or has just loaded its slot.
  lemma WaiterWords(s: FutexState, e: Event)
    requires FutexShape(s) && e.thread < |s.modes| && !s.modes[e.thread].Sweeps()
    requires FutexShape(FutexStep(s, e)) && FutexStep(s, e).modes[e.thread].Waits()
    ensures var t := e.thread;
            var r := FutexStep(s, e);
            && Holds(s.ring.pcs[t], r.ring.pcs[t].count) && !r.modes[t].SweepCas?
            && (|| r.modes[t].word.ticket == s.ring.slots[s.ring.Index(r.ring.pcs[t].count)].ticket
                || (s.modes[t].Waits() && r.modes[t].word.ticket == s.modes[t].word.ticket))
  {
  }
}
