/**
 What becomes of a ticket of the ring depends on the assignments of its value and on nothing else:
 a producer's ticket is thrown away exactly when its assignment threw, and a consumer loses its
 value exactly when the move out threw.
 */
module RingOutcomes {
  import opened Values
  import opened SpinRing
  import opened SpinRingInv
  import opened SpinRingTheorems

  // The ticket whose assignment of slot.value throws in a step.
  function Thrower(s: State, e: Event): set<nat> {
    if e.thread < |s.pcs| && s.pcs[e.thread].PushWrite? && !Flag(e) then {s.pcs[e.thread].count} else {}
  }

  // The ticket whose move out of slot.value throws in a step.
  function Loser(s: State, e: Event): set<nat> {
    if e.thread < |s.pcs| && s.pcs[e.thread].PopRead? && !Flag(e) then {s.pcs[e.thread].count} else {}
  }

  // The tickets whose assignments throw in a run.
  ghost function Thrown(s: State, events: seq<Event>): set<nat>
    requires Inv(s)
    decreases |events|
  {
    if events == [] then {}
    else
      StepInv(s, events[0]);
      Thrower(s, events[0]) + Thrown(Step(s, events[0]), events[1..])
  }

  ghost function LostBy(s: State, events: seq<Event>): set<nat>
    requires Inv(s)
    decreases |events|
  {
    if events == [] then {}
    else
      StepInv(s, events[0]);
      Loser(s, events[0]) + LostBy(Step(s, events[0]), events[1..])
  }

  // Ticket c is thrown away, or its producer is about to say so.
  predicate Threw(s: State, c: nat) {
    && c < |s.pushed|
    && match s.pushed[c]
       case PushThrew => true
       case PushPending(t) => t < |s.pcs| && s.pcs[t].PushWake? && !s.pcs[t].stored
       case _ => false
  }

  // The value of ticket c is lost, or its consumer is about to pass the slot on without it.
  predicate LostTicket(s: State, c: nat) {
    && c < |s.popped|
    && match s.popped[c]
       case PopDone(out) => out.Lost?
       case PopPending(t) => t < |s.pcs| && s.pcs[t].PopWake? && s.pcs[t].out.Lost?
       case PopRefused => false
  }

  // A step of the producer or the consumer of the ticket itself.
  lemma OwnThrew(s: State, e: Event)
    requires Inv(s) && e.thread < |s.pcs| && s.pcs[e.thread].Pushing()
    ensures var c := s.pcs[e.thread].count; Threw(Step(s, e), c) <==> Threw(s, c) || c in Thrower(s, e)
  {
    assert ThreadInv(s, e.thread);
  }

  lemma OwnLost(s: State, e: Event)
    requires Inv(s) && e.thread < |s.pcs| && s.pcs[e.thread].Popping()
    ensures var c := s.pcs[e.thread].count; LostTicket(Step(s, e), c) <==> LostTicket(s, c) || c in Loser(s, e)
  {
    assert ThreadInv(s, e.thread);
  }

  // Any other ticket keeps its entry, or is taken in the step.
  lemma EntriesKept(s: State, e: Event, c: nat)
    requires Inv(s)
    ensures var r := Step(s, e);
            && |r.pcs| == |s.pcs| && (forall u :: 0 <= u < |s.pcs| && u != e.thread ==> r.pcs[u] == s.pcs[u])
            && (c < |s.pushed| && s.pushed[c] != PushPending(e.thread) ==> c < |r.pushed| && r.pushed[c] == s.pushed[c])
            && (c < |s.popped| && s.popped[c] != PopPending(e.thread) ==> c < |r.popped| && r.popped[c] == s.popped[c])
            && (|s.pushed| <= c < |r.pushed| ==> !Threw(r, c)) && (|s.popped| <= c < |r.popped| ==> !LostTicket(r, c))
  {
    if e.thread < |s.pcs| { assert ThreadInv(s, e.thread); }
  }

  lemma StepThrew(s: State, e: Event, c: nat)
    requires Inv(s)
    ensures Threw(Step(s, e), c) <==> Threw(s, c) || c in Thrower(s, e)
  {
    EntriesKept(s, e, c);
    if e.thread < |s.pcs| { assert ThreadInv(s, e.thread); }
    if c < s.tail {
      assert PushOwner(s, c);
      if s.pushed[c] == PushPending(e.thread) { OwnThrew(s, e); }
    }
  }

  lemma StepLost(s: State, e: Event, c: nat)
    requires Inv(s)
    ensures LostTicket(Step(s, e), c) <==> LostTicket(s, c) || c in Loser(s, e)
  {
    EntriesKept(s, e, c);
    if e.thread < |s.pcs| { assert ThreadInv(s, e.thread); }
    if c < s.head {
      assert PopOwner(s, c);
      if s.popped[c] == PopPending(e.thread) { OwnLost(s, e); }
    }
  }

  lemma {:induction false} RunOutcomes(s: State, events: seq<Event>, c: nat)
    requires Inv(s)
    ensures Threw(Run(s, events), c) <==> Threw(s, c) || c in Thrown(s, events)
    ensures LostTicket(Run(s, events), c) <==> LostTicket(s, c) || c in LostBy(s, events)
    decreases |events|
  {
    if events != [] {
      StepInv(s, events[0]);
      StepThrew(s, events[0], c);
      StepLost(s, events[0], c);
      RunOutcomes(Step(s, events[0]), events[1..], c);
    }
  }

  // In every run from the empty ring: exactly the tickets whose assignment threw are thrown away,
  // and exactly the values whose move threw are lost.
  lemma OutcomesExact(size: nat, threads: nat, blank: Value, events: seq<Event>, c: nat)
    requires 0 < size
    ensures Inv(Init(size, threads, blank))
    ensures var s, r := Init(size, threads, blank), Run(Init(size, threads, blank), events);
            && (Threw(r, c) <==> c in Thrown(s, events))
            && (LostTicket(r, c) <==> c in LostBy(s, events))
            && (c < r.tail && r.pushed[c].PushThrew? ==> c in Thrown(s, events))
            && (c < r.tail && r.pushed[c].PushStored? ==> c !in Thrown(s, events))
  {
    InitInv(size, threads, blank);
    RunOutcomes(Init(size, threads, blank), events, c);
  }

  // The consumer of ticket c gets what the producer of ticket c stored, unless its own move threw,
  // and skips the ticket exactly when the producer's assignment threw.
  lemma TicketsAgree(size: nat, threads: nat, blank: Value, events: seq<Event>, c: nat)
    requires 0 < size
    requires (InitInv(size, threads, blank); var r := Run(Init(size, threads, blank), events);
              c < |r.popped| && r.popped[c].PopDone?)
    ensures Inv(Init(size, threads, blank))
    ensures var s, r := Init(size, threads, blank), Run(Init(size, threads, blank), events);
            && c < |r.popped| && c < |r.pushed| && r.popped[c].PopDone?
            && (r.popped[c].out.Skipped? <==> c in Thrown(s, events))
            && (r.pushed[c].PushThrew? <==> c in Thrown(s, events))
            && (c !in Thrown(s, events) ==>
                  && r.pushed[c].PushStored?
                  && var v := r.pushed[c].value;
                     r.popped[c].out == if c in LostBy(s, events) then Lost(v) else Took(v))
  {
    OutcomesExact(size, threads, blank, events, c);
    assert TicketInv(Run(Init(size, threads, blank), events), c);
  }
}
