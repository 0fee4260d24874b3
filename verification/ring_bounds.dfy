/**
 How far apart the counters of the ring can drift.  The unfinished tickets of a slot form a
 chain c, c + size, c + 2 * size, ..., each held by a thread of its own, so the number of threads
 bounds every difference that the 32-bit code computes.
 */
module RingBounds {
  import opened Pigeonhole
  import opened Residues
  import opened Bits
  import opened SpinRing
  import opened SpinRingTheorems

  const HALF := 0x8000_0000

  lemma OneRoundMore(rounds: nat, size: nat)
    ensures (rounds + 1) * size == rounds * size + size
  {
  }

  // Ticket c is pending, in the hands of producer t.
  predicate PushHeld(s: State, c: nat, t: nat) {
    c < |s.pushed| && s.pushed[c] == PushPending(t) && t < |s.pcs| && s.pcs[t].Pushing() && s.pcs[t].count == c
  }

  predicate PopHeld(s: State, c: nat, t: nat) {
    c < |s.popped| && s.popped[c] == PopPending(t) && t < |s.pcs| && s.pcs[t].Popping() && s.pcs[t].count == c
  }

  // So are c, c + size, c + 2 * size, ..., each in the hands of one of the holders.
  predicate PushesHeld(s: State, c: nat, holders: seq<nat>) {
    forall i :: 0 <= i < |holders| ==> PushHeld(s, c + i * s.size, holders[i])
  }

  predicate PopsHeld(s: State, c: nat, holders: seq<nat>) {
    forall i :: 0 <= i < |holders| ==> PopHeld(s, c + i * s.size, holders[i])
  }

  lemma OneLinkMore(s: State, c: nat, t: nat, rest: seq<nat>)
    ensures PushHeld(s, c, t) && PushesHeld(s, c + s.size, rest) ==> PushesHeld(s, c, [t] + rest)
    ensures PopHeld(s, c, t) && PopsHeld(s, c + s.size, rest) ==> PopsHeld(s, c, [t] + rest)
  {
    var holders := [t] + rest;
    forall i | 0 < i < |holders| ensures c + i * s.size == c + s.size + (i - 1) * s.size && holders[i] == rest[i - 1] {
      OneRoundMore(i - 1, s.size);
    }
  }

  predicate Distinct(a: seq<nat>) { forall i, j :: 0 <= i < j < |a| ==> a[i] != a[j] }

  lemma Apart(i: nat, j: nat, size: nat)
    requires i < j && 0 < size
    ensures i * size < j * size
  {
    MultipleSign(j - i, size);
    assert j * size == i * size + (j - i) * size;
  }

  // Threads in a chain hold different tickets, so that a chain is no longer than there are threads.
  lemma HoldersDistinct(s: State, c: nat, holders: seq<nat>)
    requires 0 < s.size && (PushesHeld(s, c, holders) || PopsHeld(s, c, holders))
    ensures Distinct(holders) && |holders| <= |s.pcs|
  {
    forall i: nat, j: nat | i < j < |holders| ensures holders[i] != holders[j] { Apart(i, j, s.size); }
    DistinctSeq(holders, |s.pcs|);
  }

  // From a ticket that its slot has yet to serve, the unfinished tickets of the slot form a chain up
  // to the limit, each held by a thread of its own.
  lemma PushChain(s: State, c: nat) returns (holders: seq<nat>)
    requires Inv(s) && s.slots[s.Index(c)].ticket <= c && !Published(s, c)
    ensures PushesHeld(s, c, holders) && Distinct(holders) && |holders| <= |s.pcs|
    ensures Limit(s) <= c + |holders| * s.size
  {
    holders := PushLinks(s, c);
    HoldersDistinct(s, c, holders);
  }

  lemma {:induction false} PushLinks(s: State, c: nat) returns (holders: seq<nat>)
    requires Inv(s) && s.slots[s.Index(c)].ticket <= c && !Published(s, c)
    ensures PushesHeld(s, c, holders) && Limit(s) <= c + |holders| * s.size
    decreases Limit(s) - c
  {
    holders := [];
    if c < Limit(s) {
      var t := PushHolder(s, c);
      var rest := PushLinks(s, c + s.size);
      holders := [t] + rest;
      OneRoundMore(|rest|, s.size);
      OneLinkMore(s, c, t, rest);
    }
  }

  lemma PushHolder(s: State, c: nat) returns (t: nat)
    requires Inv(s) && c < Limit(s) && s.slots[s.Index(c)].ticket <= c && !Published(s, c)
    ensures PushHeld(s, c, t)
    ensures s.Index(c + s.size) == s.Index(c) && !Published(s, c + s.size)
  {
    assert PushOwner(s, c);
    t := s.pushed[c].thread;
    NextRound(c, s.size);
    assert TicketInv(s, c) && TicketInv(s, c + s.size);
  }

  function PopLimit(s: State): nat { if s.IsCut() && s.last < s.head then s.last else s.head }

  lemma PopChain(s: State, c: nat) returns (holders: seq<nat>)
    requires Inv(s) && s.slots[s.Index(c)].ticket <= c
    ensures PopsHeld(s, c, holders) && Distinct(holders) && |holders| <= |s.pcs|
    ensures PopLimit(s) <= c + |holders| * s.size
  {
    holders := PopLinks(s, c);
    HoldersDistinct(s, c, holders);
  }

  lemma {:induction false} PopLinks(s: State, c: nat) returns (holders: seq<nat>)
    requires Inv(s) && s.slots[s.Index(c)].ticket <= c
    ensures PopsHeld(s, c, holders) && PopLimit(s) <= c + |holders| * s.size
    decreases PopLimit(s) - c
  {
    holders := [];
    if c < PopLimit(s) {
      var t := PopHolder(s, c);
      var rest := PopLinks(s, c + s.size);
      holders := [t] + rest;
      OneRoundMore(|rest|, s.size);
      OneLinkMore(s, c, t, rest);
    }
  }

  lemma PopHolder(s: State, c: nat) returns (t: nat)
    requires Inv(s) && c < PopLimit(s) && s.slots[s.Index(c)].ticket <= c
    ensures PopHeld(s, c, t)
    ensures s.Index(c + s.size) == s.Index(c)
  {
    assert PopOwner(s, c) && TicketInv(s, c);
    t := s.popped[c].thread;
    NextRound(c, s.size);
  }

  // No counter runs ahead of a slot by more than one round per thread, and one for a full slot.
  lemma SlotNear(s: State, i: nat)
    requires Inv(s) && i < s.size
    ensures Limit(s) <= s.slots[i].ticket + (|s.pcs| + 1) * s.size
    ensures PopLimit(s) <= s.slots[i].ticket + |s.pcs| * s.size
  {
    var c := s.slots[i].ticket;
    var n, size := |s.pcs|, s.size;
    assert s.Index(c) == i && TicketInv(s, c);
    OneRoundMore(n, size);
    var pops := PopChain(s, c);
    MoreRounds(|pops|, n, size);
    if s.slots[i].status == Empty {
      var pushes := PushChain(s, c);
      MoreRounds(|pushes|, n, size);
    } else {
      NextRound(c, size);
      assert TicketInv(s, c + size);
      var pushes := PushChain(s, c + size);
      MoreRounds(|pushes|, n, size);
    }
  }

  lemma MoreRounds(i: nat, j: nat, size: nat)
    requires i <= j
    ensures i * size <= j * size
  {
    if i < j && 0 < size { Apart(i, j, size); }
  }

  // The premise of the 32-bit code: not too many threads for the ring, and, after close(), no ticket
  // more than 2^31 past the cut.
  predicate Fits(s: State) {
    && (|s.pcs| + 1) * s.size < HALF
    && (s.IsCut() ==> s.head <= s.last + HALF + 1 && s.tail <= s.last + HALF + 1)
  }

  predicate Holds(pc: Pc<nat>, c: nat) { (pc.Pushing() || pc.Popping()) && pc.count == c }

  // A ticket in the hands of a thread is close to its slot and to the cut.
  lemma TicketNear(s: State, t: nat, c: nat)
    requires Inv(s) && Fits(s) && t < |s.pcs| && Holds(s.pcs[t], c)
    ensures s.slots[s.Index(c)].ticket <= c < s.slots[s.Index(c)].ticket + WORD
    ensures s.IsCut() ==> s.last < c + HALF && c <= s.last + HALF
  {
    SlotNear(s, s.Index(c));
    assert ThreadInv(s, t) && TicketInv(s, c);
    assert (|s.pcs| + 1) * s.size == |s.pcs| * s.size + s.size;
  }
}
