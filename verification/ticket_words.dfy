/**
 shared_ticket_lock of evenk/spinlock.h on words: both counters packed in one word of 2 * half
 bits, the exclusive one below.  When it overflows, it carries into the shared one.
 */
module TicketWords {
  import opened Residues
  import opened Bits
  import opened TicketLock

  datatype WordLock = WordLock(half: nat, head: nat, tail: nat, pcs: seq<Pc<nat>>)
  {
    function SharedStep(): nat { Pow2(half) }
    function Mask(): nat { SharedStep() - 1 }

    // Addition of words.
    function Plus(a: nat, b: nat): nat
    {
      MultipleSign(SharedStep(), SharedStep());
      (a + b) % (SharedStep() * SharedStep())
    }

    function Goto(t: nat, pc: Pc<nat>): WordLock
      requires t < |pcs|
    {
      this.(pcs := pcs[t := pc])
    }
  }

  function WordInit(half: nat, threads: nat): WordLock {
    WordLock(half, 0, 0, seq(threads, _ => Out))
  }

  function WordStep(v: WordLock, e: Event): WordLock {
    var t := e.thread;
    if t >= |v.pcs| then v else
    match v.pcs[t]
    case Out =>
      (match e.action
       case Lock => v.Goto(t, WantX(v.tail)).(tail := v.Plus(v.tail, 1))
       case LockShared => v.Goto(t, WantS(And(v.tail, v.Mask()))).(tail := v.Plus(v.tail, v.SharedStep()))
       case TryLock => v.Goto(t, TryX(v.head))
       case TryLockShared => v.Goto(t, TryS(v.head))
       case Go => v)
    case WantX(ticket) => if ticket == v.head then v.Goto(t, HoldX(ticket)) else v
    case HoldX(_) => v.Goto(t, DropX(v.head))
    case DropX(head) => v.Goto(t, Out).(head := v.Plus(head, 1))
    case WantS(ticket) => if ticket == And(v.head, v.Mask()) then v.Goto(t, HoldS(ticket)) else v
    case HoldS(_) => v.Goto(t, Out).(head := v.Plus(v.head, v.SharedStep()))
    case TryX(head) => v.Goto(t, if head == v.tail then CasX(v.tail) else Out)
    case CasX(tail) =>
      if v.tail == tail then v.Goto(t, HoldX(tail)).(tail := v.Plus(tail, 1)) else v.Goto(t, Out)
    case TryS(head) => v.Goto(t, if And(head, v.Mask()) == And(v.tail, v.Mask()) then CasS(v.tail) else Out)
    case CasS(tail) =>
      if v.tail == tail then v.Goto(t, HoldS(And(tail, v.Mask()))).(tail := v.Plus(tail, v.SharedStep()))
      else v.Goto(t, Out)
  }

  // ---------------------------------------------------------------------------
  // The packing

  // The word of a pair of counters; b is the shared step.
  function Pack(b: nat, k: Ticket): nat
    requires 0 < b
  {
    MultipleSign(b, b);
    (k.x + b * k.s) % (b * b)
  }

  // Either step advances its own counter, with or without a carry.
  lemma PackSteps(b: nat, k: Ticket)
    requires 0 < b
    ensures 0 < b * b
    ensures (Pack(b, k) + 1) % (b * b) == Pack(b, k.(x := k.x + 1))
    ensures (Pack(b, k) + b) % (b * b) == Pack(b, k.(s := k.s + 1))
  {
    MultipleSign(b, b);
    AddMod(k.x + b * k.s, 1, b * b);
    AddMod(k.x + b * k.s, b, b * b);
    assert k.x + b * k.s + b == k.x + b * (k.s + 1);
  }

  // The low half of a word is the exclusive counter, whatever was carried.
  lemma PackLow(b: nat, k: Ticket)
    requires 0 < b
    ensures Pack(b, k) % b == k.x % b
  {
    MultipleSign(b, b);
    ModMod(k.x + b * k.s, b, b);
    assert k.x == (k.x / b) * b + k.x % b;
    assert k.x + b * k.s == (k.x / b + k.s) * b + k.x % b by {
      assert (k.x / b + k.s) * b == (k.x / b) * b + b * k.s;
    }
    ModUnique(k.x + b * k.s, k.x / b + k.s, k.x % b, b);
  }

  lemma CongruentApart(u: nat, d: nat, m: nat)
    requires 0 < m && (u + d) % m == u % m
    ensures d % m == 0
  {
    var p, q, r := (u + d) / m, u / m, u % m;
    assert u + d == p * m + r && u == q * m + r;
    var k := p - q;
    assert k * m == p * m - q * m;
    MultipleSign(k, m);
    ModUnique(d, k, 0, m);
  }

  lemma ApartCongruent(u: nat, d: nat, m: nat)
    requires 0 < m && d % m == 0
    ensures (u + d) % m == u % m
  {
    var p, q, r := d / m, u / m, u % m;
    assert d == p * m && u == q * m + r;
    assert (p + q) * m == p * m + q * m;
    ModUnique(u + d, p + q, r, m);
  }

  lemma Congruent(u: nat, d: nat, m: nat)
    requires 0 < m
    ensures (u + d) % m == u % m <==> d % m == 0
  {
    if (u + d) % m == u % m { CongruentApart(u, d, m); }
    if d % m == 0 { ApartCongruent(u, d, m); }
  }

  // The words of two pairs of counters coincide exactly when the distance of the packed counters
  // is a multiple of b * b.
  lemma PackCollides(b: nat, k: Ticket, l: Ticket)
    requires 0 < b && k.x <= l.x && k.s <= l.s
    ensures 0 < b * b
    ensures Pack(b, k) == Pack(b, l) <==> (l.x - k.x + b * (l.s - k.s)) % (b * b) == 0
  {
    MultipleSign(b, b);
    var m := b * b;
    var u, d := k.x + b * k.s, l.x - k.x + b * (l.s - k.s);
    PackDistance(b, k, l);
    Congruent(u, d, m);
  }

  lemma PackDistance(b: nat, k: Ticket, l: Ticket)
    requires k.x <= l.x && k.s <= l.s
    ensures l.x + b * l.s == k.x + b * k.s + (l.x - k.x + b * (l.s - k.s))
  {
    assert b * l.s == b * k.s + b * (l.s - k.s);
  }

  lemma SmallDistance(b: nat, dx: nat, ds: nat)
    requires dx < b && ds < b
    ensures 0 < b * b && ((dx + b * ds) % (b * b) == 0 <==> dx == 0 && ds == 0)
  {
    MultipleSign(b, b);
    var d := dx + b * ds;
    assert b * b == b * ds + b * (b - 1 - ds) + b;
    assert 0 <= b * (b - 1 - ds);
    ModUnique(d, 0, d, b * b);
    if ds > 0 { MultipleSign(ds, b); }
  }

  // Words of counters less than b apart are equal only if the counters are.
  lemma PackEqual(b: nat, k: Ticket, l: Ticket)
    requires 0 < b && k.x <= l.x < k.x + b && k.s <= l.s < k.s + b
    ensures Pack(b, k) == Pack(b, l) <==> k == l
  {
    PackCollides(b, k, l);
    SmallDistance(b, l.x - k.x, l.s - k.s);
  }

  lemma LowEqual(b: nat, x: nat, y: nat)
    requires 0 < b && x <= y < x + b
    ensures x % b == y % b <==> x == y
  {
    if x % b == y % b && x < y { Spacing(x, y, b); }
  }
}
