/** The coding of tickets, statuses and flags in 32-bit slot words. */
module Tokens {
  import opened Residues
  import opened Bits
  import opened SpinRing
  import opened FutexRing

  const STATUS_VALID: u32 := 1
  const STATUS_INVALID: u32 := 2
  const STATUS_WAITING: u32 := 4
  const STATUS_CLOSED: u32 := 8
  const STATUS_MASK: u32 := 3
  const TICKET_MASK: u32 := WORD - 16
  const MIN_SIZE: u32 := 16

  function StatusBits(status: Status): u32 {
    match status case Empty => 0 case Valid => STATUS_VALID case Invalid => STATUS_INVALID
  }

  function Token(c: nat): (t: u32)
    ensures t % 16 == 0
  {
    c % WORD - c % 16
  }

  function Encode(w: Word): (x: u32)
    ensures x % 16 == StatusBits(w.status) + (if w.waiting then 4 else 0) + (if w.closed then 8 else 0)
    ensures x - x % 16 == Token(w.ticket)
  {
    Token(w.ticket) + StatusBits(w.status)
    + (if w.waiting then STATUS_WAITING else 0) + (if w.closed then STATUS_CLOSED else 0)
  }

  // ---------------------------------------------------------------------------
  // The masks

  lemma AndShiftTwice(x: nat, m: nat)
    ensures And(x, 4 * m) == 4 * And(x / 4, m)
  {
    AndShift(x, 2 * m);
    AndShift(x / 2, m);
    assert x / 2 / 2 == x / 4;
  }

  lemma MaskTicket(x: u32)
    ensures And(x, TICKET_MASK) == x - x % 16
  {
    PowValues();
    MaskHigh(x, 28);
  }

  lemma MaskHigh(x: nat, k: nat)
    requires x < 16 * Pow2(k)
    ensures And(x, 16 * (Pow2(k) - 1)) == 16 * (x / 16)
  {
    var m := Pow2(k) - 1;
    assert x / 4 / 4 == x / 16;
    AndShiftTwice(x, 4 * m);
    AndShiftTwice(x / 4, m);
    AndIdentity(x / 16, k);
  }

  lemma MaskStatus(x: u32)
    ensures And(x, STATUS_MASK) == x % 4 && And(x, STATUS_VALID) == x % 2
  {
    AndMask(x, 2);
    AndMask(x, 1);
  }

  lemma MaskWaiting(x: u32)
    ensures And(x, STATUS_WAITING) == 4 * (x / 4 % 2)
  {
    AndShift(x, 2);
    AndShift(x / 2, 1);
    AndMask(x / 4, 1);
  }

  lemma OrShift(a: nat, b: nat)
    ensures Or(a, 2 * b) == 2 * Or(a / 2, b) + a % 2
  {
  }

  lemma OrOne(a: nat)
    ensures Or(a, 1) == 2 * (a / 2) + 1
  {
  }

  lemma SetWaiting(x: u32)
    ensures Or(x, STATUS_WAITING) == x + 4 * (1 - x / 4 % 2)
  {
    OrShift(x, 2);
    OrShift(x / 2, 1);
    OrOne(x / 2 / 2);
  }

  lemma SetClosed(x: u32)
    ensures Or(x, STATUS_CLOSED) == x + 8 * (1 - x / 8 % 2)
  {
    assert Or(x, 8) == 2 * Or(x / 2, 4) + x % 2 by { OrShift(x, 4); }
    assert Or(x / 2, 4) == x / 2 + 4 * (1 - x / 2 / 4 % 2) by { SetWaiting(x / 2); }
  }

  lemma OrStatus(x: u32)
    requires x % 16 == 0
    ensures Or(x, STATUS_VALID) == x + STATUS_VALID && Or(x, STATUS_INVALID) == x + STATUS_INVALID
  {
    OrOne(x);
    OrShift(x, 1);
    OrOne(x / 2);
  }

  // ---------------------------------------------------------------------------
  // Reading and updating a slot word

  // The masks take a slot word apart into exactly what was put in.
  lemma Decode(w: Word)
    ensures And(Encode(w), TICKET_MASK) == Token(w.ticket)
    ensures And(Encode(w), STATUS_MASK) == StatusBits(w.status)
    ensures And(Encode(w), STATUS_VALID) == 0 <==> w.status != Valid
    ensures And(Encode(w), STATUS_WAITING) != 0 <==> w.waiting
  {
    MaskTicket(Encode(w));
    MaskStatus(Encode(w));
    MaskWaiting(Encode(w));
  }

  lemma NibbleBits(x: u32)
    ensures x / 4 % 2 == x % 16 / 4 % 2 && x / 8 % 2 == x % 16 / 8
  {
    NibbleParts(x / 16, x % 16);
  }

  lemma NibbleParts(q: nat, f: nat)
    requires f < 16
    ensures (16 * q + f) / 4 == 4 * q + f / 4 && (4 * q + f / 4) % 2 == f / 4 % 2
    ensures (16 * q + f) / 8 == 2 * q + f / 8 && (2 * q + f / 8) % 2 == f / 8
  {
    assert f == 4 * (f / 4) + f % 4 && f == 8 * (f / 8) + f % 8;
    assert 4 * q + f / 4 == 2 * (2 * q + f / 4 / 2) + f / 4 % 2;
  }

  // Setting a flag leaves ticket and status alone.
  lemma SetWaitingWord(w: Word)
    ensures Or(Encode(w), STATUS_WAITING) == Encode(w.(waiting := true))
  {
    var x := Encode(w);
    NibbleBits(x);
    assert x / 4 % 2 == if w.waiting then 1 else 0;
    SetWaiting(x);
  }

  lemma SetClosedWord(w: Word)
    ensures Or(Encode(w), STATUS_CLOSED) == Encode(w.(closed := true))
  {
    var x := Encode(w);
    NibbleBits(x);
    assert x / 8 % 2 == if w.closed then 1 else 0;
    SetClosed(x);
  }

  // A token with a status is the word of a published slot, by addition as well as by `|`.
  lemma Publish(c: nat)
    ensures And(c % WORD, TICKET_MASK) == Token(c)
    ensures Or(Token(c), STATUS_VALID) == Token(c) + STATUS_VALID == Encode(Word(c, Valid, false, false))
    ensures Or(Token(c), STATUS_INVALID) == Encode(Word(c, Invalid, false, false))
  {
    TokenMask(c);
    OrStatus(Token(c));
  }

  lemma TokenMask(c: nat)
    ensures And(c % WORD, TICKET_MASK) == Token(c)
  {
    MaskTicket(c % WORD);
    LowNibble(c, 0);
  }

  // ---------------------------------------------------------------------------
  // Ring sizes

  // The 32-bit sizes that the constructor accepts.
  ghost predicate GoodSize(size: nat) {
    MIN_SIZE <= size < WORD && IsPow2(size)
  }

  lemma PowValues()
    ensures Pow2(4) == 16 && Pow2(28) == 0x1000_0000 && Pow2(31) == 0x8000_0000 && Pow2(32) == WORD
  {
    assert Pow2(8) == 256;
    assert Pow2(16) == 0x1_0000;
    assert Pow2(24) == 0x100_0000;
  }

  lemma SizeExponent(size: nat) returns (k: nat)
    requires GoodSize(size)
    ensures size == Pow2(k) && 4 <= k <= 31
  {
    k :| size == Pow2(k);
    PowValues();
    PowOrder(k, 4);
    PowOrder(k, 32);
  }

  lemma SizeDivides(size: nat)
    requires GoodSize(size)
    ensures forall c: nat :: (c % WORD) % size == c % size
    ensures forall c: nat :: (c % size) % 16 == c % 16
    ensures forall c: nat :: And(c, size - 1) == c % size
    ensures size % 16 == 0
  {
    var k := SizeExponent(size);
    PowValues();
    forall c: nat ensures (c % WORD) % size == c % size { PowModMod(c, k, 32); }
    forall c: nat ensures (c % size) % 16 == c % 16 { PowModMod(c, 4, k); }
    forall c: nat ensures And(c, size - 1) == c % size { AndMask(c, k); }
    assert (size % size) % 16 == size % 16;
    ModUnique(size, 1, 0, size);
  }

  lemma PowModMod(c: nat, j: nat, k: nat)
    requires j <= k
    ensures (c % Pow2(k)) % Pow2(j) == c % Pow2(j)
  {
    PowSplit(j, k);
    var q: nat :| Pow2(k) == q * Pow2(j);
    ModMod(c, q, Pow2(j));
  }

  lemma {:induction false} PowOrder(j: nat, k: nat)
    ensures Pow2(j) < Pow2(k) <==> j < k
    decreases j + k
  {
    if 0 < j && 0 < k {
      PowOrder(j - 1, k - 1);
    } else if 0 < k {
      PowBigger(k);
    } else if 0 < j {
      PowBigger(j);
    }
  }

  lemma PowBigger(k: nat)
    requires 0 < k
    ensures 2 <= Pow2(k)
  {
  }

  // Passing a slot on commutes with masking, across the wrap of the 32-bit counter.
  lemma NextToken(c: nat, size: nat)
    requires size % 16 == 0 && size < WORD
    ensures (Token(c) + size) % WORD == Token(c + size) == Encode(Word(c + size, Empty, false, false))
  {
    var a, b := c % WORD, c % 16;
    LowNibble(c, size);
    assert (c + size) % WORD == if a + size < WORD then a + size else a + size - WORD;
  }

  lemma LowNibble(c: nat, size: nat)
    requires size % 16 == 0
    ensures c % WORD % 16 == c % 16 == (c + size) % 16
  {
    var p, q := c / WORD, c % WORD / 16;
    assert c == 16 * (0x1000_0000 * p + q) + c % WORD % 16;
    assert c + size == 16 * (c / 16 + size / 16) + c % 16;
  }

  lemma NextWord(c: nat, size: nat)
    requires GoodSize(size)
    ensures (And(c % WORD, TICKET_MASK) + size) % WORD == Encode(Word(c + size, Empty, false, false))
  {
    Publish(c);
    assert size % 16 == 0 by { SizeDivides(size); }
    NextToken(c, size);
  }

  lemma FirstWord(i: u32)
    ensures And(i, TICKET_MASK) == Encode(Word(i, Empty, false, false))
  {
    MaskTicket(i);
    assert i % WORD == i;
  }

  // Two tickets of one slot less than 2^32 apart have the same token only if they are equal.
  lemma SameToken(c: nat, d: nat)
    requires c % 16 == d % 16 && c < d + WORD && d < c + WORD
    ensures Token(c) == Token(d) <==> c == d
  {
  }

  lemma SameWord(v: Word, w: Word)
    requires v.ticket % 16 == w.ticket % 16 && v.ticket < w.ticket + WORD && w.ticket < v.ticket + WORD
    ensures Encode(v) == Encode(w) <==> v == w
  {
    SameToken(v.ticket, w.ticket);
  }

  // Slot index and token together determine the 32-bit count.
  lemma IndexAndToken(c: u32, d: u32, size: nat)
    requires GoodSize(size) && And(c, size - 1) == And(d, size - 1) && And(c, TICKET_MASK) == And(d, TICKET_MASK)
    ensures c == d
  {
    SizeDivides(size);
    MaskTicket(c);
    MaskTicket(d);
    assert c % size == d % size;
    assert c % 16 == (c % size) % 16 && d % 16 == (d % size) % 16;
  }
}
