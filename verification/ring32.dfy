/**
 The ring of evenk/bounded_queue.h as it is written: 32-bit counters that wrap, slot words that
 pack ticket, status and flags, and comparisons of masked or signed differences.
 */
module Ring32 {
  import opened Values
  import opened Bits
  import opened SpinRing
  import opened FutexRing
  import opened Tokens
  import opened RingBounds

  // The variables of the ring, and the local variables of its threads.  `called` records that
  // close() was called.
  datatype Store = Store(
    mask: u32,
    head: u32,
    tail: u32,
    closed: CloseFlag,
    last: u32,
    words: seq<u32>,
    values: seq<Value>,
    pcs: seq<Pc<u32>>,
    modes: seq<Mode<u32>>,
    called: bool)

  ghost predicate Shape32(v: Store) {
    && GoodSize(v.mask + 1)
    && |v.words| == |v.values| == v.mask + 1
    && |v.pcs| == |v.modes|
    && (forall t :: 0 <= t < |v.modes| ==> Together(v.pcs[t], v.modes[t]))
  }

  predicate Together(pc: Pc<u32>, mode: Mode<u32>) {
    && (mode.Loaded? ==> pc.Checking())
    && (mode.Cas? || mode.Sleep? || mode.Asleep? ==> pc.Loading())
  }

  function Init32(size: u32, threads: nat, blank: Value): Store
    requires GoodSize(size)
  {
    Store(size - 1, 0, 0, Open, 0, seq(size, (i: nat) requires i < size => And(i, TICKET_MASK) as u32),
          seq(size, _ => blank), seq(threads, _ => Idle), seq(threads, _ => Plain), false)
  }

  // count & mask_
  function Slot32(v: Store, count: u32): (i: nat)
    requires Shape32(v)
    ensures i < |v.words|
  {
    And(count, v.mask)
  }

  function Plus(a: u32, b: nat): u32 { (a + b) % WORD }

  function Minus(a: u32, b: u32): u32 { (a - b) % WORD }

  function Signed(x: u32): int { if x < HALF then x else x - WORD }

  predicate PastLast32(v: Store, count: u32) {
    v.closed == Closed && Signed(Minus(v.last, count)) <= 0
  }

  function Goto(v: Store, t: nat, pc: Pc<u32>, mode: Mode<u32>): Store
    requires t < |v.pcs| && t < |v.modes|
  {
    v.(pcs := v.pcs[t := pc], modes := v.modes[t := mode])
  }

  // ---------------------------------------------------------------------------
  // Atomic steps

  function TakePush32(v: Store, t: nat, value: Value): Store
    requires Shape32(v) && t < |v.pcs|
  {
    Goto(v, t, PushLoad(v.tail, value), Plain).(tail := Plus(v.tail, 1))
  }

  function TakePop32(v: Store, t: nat): Store
    requires Shape32(v) && t < |v.pcs|
  {
    Goto(v, t, PopLoad(v.head, false), Plain).(head := Plus(v.head, 1))
  }

  // The test of the wait loops, on the word w that was just loaded.
  function Test32(v: Store, t: nat, w: u32): Store
    requires Shape32(v) && t < |v.pcs| && v.pcs[t].Loading()
  {
    var pc := v.pcs[t];
    var differs := And(w, TICKET_MASK) != And(pc.count, TICKET_MASK);
    if pc.PushLoad? then
      if differs then Goto(v, t, PushCheck(pc.count, pc.value), Loaded(w))
      else Goto(v, t, PushWrite(pc.count, pc.value), Plain)
    else if !pc.matched && differs then Goto(v, t, PopCheck(pc.count, false), Loaded(w))
    else if And(w, STATUS_MASK) == 0 then Goto(v, t, PopCheck(pc.count, true), Loaded(w))
    else if And(w, STATUS_VALID) != 0 then Goto(v, t, PopRead(pc.count), Plain)
    else Goto(v, t, PopWake(pc.count, Skipped), Plain)
  }

  function Load32(v: Store, t: nat): Store
    requires Shape32(v) && t < |v.pcs| && v.pcs[t].Loading()
  {
    Test32(v, t, v.words[Slot32(v, v.pcs[t].count)])
  }

  function Check32(v: Store, t: nat, retry: bool): Store
    requires Shape32(v) && t < |v.pcs| && v.modes[t].Loaded?
  {
    var pc := v.pcs[t];
    if PastLast32(v, pc.count) then Goto(v, t, Idle, Plain)
    else if pc.PushCheck? then
      Goto(v, t, PushLoad(pc.count, pc.value), if retry then Plain else Cas(v.modes[t].word))
    else Goto(v, t, PopLoad(pc.count, pc.matched), Cas(v.modes[t].word))
  }

  function WaitCas32(v: Store, t: nat): Store
    requires Shape32(v) && t < |v.pcs| && v.modes[t].Cas?
  {
    var i := Slot32(v, v.pcs[t].count);
    var w := v.modes[t].word;
    var x := OrWord(w, STATUS_WAITING);
    if v.words[i] == w || v.words[i] == x then
      Goto(v, t, v.pcs[t], Sleep(x)).(words := v.words[i := x])
    else
      Test32(v, t, v.words[i])
  }

  function FutexWait32(v: Store, t: nat): Store
    requires Shape32(v) && t < |v.pcs| && v.modes[t].Sleep?
  {
    var x := v.modes[t].word;
    Goto(v, t, v.pcs[t], if v.words[Slot32(v, v.pcs[t].count)] == x then Asleep(x) else Plain)
  }

  function FutexWake32(v: Store, t: nat, i: nat, next: Mode<u32>): Store
    requires Shape32(v) && t < |v.pcs|
  {
    v.(modes := seq(|v.modes|, (u: nat) requires u < |v.modes| => WokenMode(v, t, i, next, u)))
  }

  // The mode of thread u after a wake of slot i by thread t.
  function WokenMode(v: Store, t: nat, i: nat, next: Mode<u32>, u: nat): Mode<u32>
    requires Shape32(v) && u < |v.modes|
  {
    if u == t then next
    else if v.modes[u].Asleep? && Slot32(v, v.pcs[u].count) == i then Plain
    else v.modes[u]
  }

  // slot.wake(x)
  function Exchange32(v: Store, t: nat, x: u32, next: Pc<u32>): Store
    requires Shape32(v) && t < |v.pcs| && v.pcs[t].Waking()
  {
    var i := Slot32(v, v.pcs[t].count);
    Goto(v, t, next, if And(v.words[i], STATUS_WAITING) != 0 then Waking(i) else Plain).(words := v.words[i := x])
  }

  function WriteValue32(v: Store, t: nat, ok: bool): Store
    requires Shape32(v) && t < |v.pcs| && v.pcs[t].PushWrite?
  {
    var PushWrite(count, value) := v.pcs[t];
    var i := Slot32(v, count);
    Goto(v, t, PushWake(count, value, ok), Plain).(values := if ok then v.values[i := value] else v.values)
  }

  function WakePush32(v: Store, t: nat): Store
    requires Shape32(v) && t < |v.pcs| && v.pcs[t].PushWake?
  {
    var token := And(v.pcs[t].count, TICKET_MASK);
    Exchange32(v, t, OrWord(token, if v.pcs[t].stored then STATUS_VALID else STATUS_INVALID), Idle)
  }

  function ReadValue32(v: Store, t: nat, ok: bool): Store
    requires Shape32(v) && t < |v.pcs| && v.pcs[t].PopRead?
  {
    var count := v.pcs[t].count;
    var value := v.values[Slot32(v, count)];
    Goto(v, t, PopWake(count, if ok then Took(value) else Lost(value)), Plain)
  }

  function WakePop32(v: Store, t: nat): Store
    requires Shape32(v) && t < |v.pcs| && v.pcs[t].PopWake?
  {
    var token := And(v.pcs[t].count, TICKET_MASK);
    Exchange32(v, t, Plus(token, v.mask + 1), if v.pcs[t].out.Skipped? then PopStart else Idle)
  }

  function GuardClose32(v: Store, t: nat): Store
    requires Shape32(v) && t < |v.pcs|
  {
    if v.closed == Closing then Goto(v, t, Idle, Plain).(closed := Open) else Goto(v, t, CloseCut, Plain)
  }

  function CutTail32(v: Store, t: nat): Store
    requires Shape32(v) && t < |v.pcs|
  {
    Goto(v, t, CloseStore, Plain).(last := v.tail, tail := Plus(v.tail, v.mask + 1))
  }

  function StoreClosed32(v: Store, t: nat): Store
    requires Shape32(v) && t < |v.pcs|
  {
    Goto(v, t, Idle, SweepLoad(0)).(closed := Closed)
  }

  function SweepSlot32(v: Store, k: nat): (i: nat)
    requires Shape32(v)
    ensures i < |v.words|
  {
    Slot32(v, Plus(v.last, k))
  }

  function AfterSlot32(v: Store, k: nat): Mode<u32> {
    if k + 1 < v.mask + 1 then SweepLoad(k + 1) else Plain
  }

  function SweepCas32(v: Store, t: nat, spurious: bool): Store
    requires Shape32(v) && t < |v.pcs| && v.modes[t].SweepCas?
  {
    var SweepCas(k, w) := v.modes[t];
    var i := SweepSlot32(v, k);
    if spurious || v.words[i] != w then
      Goto(v, t, v.pcs[t], SweepCas(k, v.words[i]))
    else
      Goto(v, t, v.pcs[t], if And(w, STATUS_WAITING) != 0 then SweepWake(k, i) else AfterSlot32(v, k))
      .(words := v.words[i := OrWord(w, STATUS_CLOSED)])
  }

  function Step32(v: Store, e: Event): Store
    requires Shape32(v)
  {
    var t := e.thread;
    if t >= |v.pcs| then v else
    match v.modes[t]
    case Plain =>
      (match v.pcs[t]
       case Idle =>
         (match e.action
          case StartPush(value) => TakePush32(v, t, value)
          case StartPop => TakePop32(v, t)
          case StartClose => if v.called then v else Goto(v, t, CloseCas, Plain).(called := true)
          case Go(_) => v)
       case PushLoad(_, _) => Load32(v, t)
       case PushCheck(_, _) => v
       case PushWrite(_, _) => WriteValue32(v, t, Flag(e))
       case PushWake(_, _, _) => WakePush32(v, t)
       case PopStart => TakePop32(v, t)
       case PopLoad(_, _) => Load32(v, t)
       case PopCheck(_, _) => v
       case PopRead(_) => ReadValue32(v, t, Flag(e))
       case PopWake(_, _) => WakePop32(v, t)
       case CloseCas => GuardClose32(v, t)
       case CloseCut => CutTail32(v, t)
       case CloseStore => StoreClosed32(v, t))
    case Loaded(_) => Check32(v, t, Flag(e))
    case Cas(_) => WaitCas32(v, t)
    case Sleep(_) => FutexWait32(v, t)
    case Asleep(_) => Goto(v, t, v.pcs[t], Plain)
    case Waking(i) => FutexWake32(v, t, i, Plain)
    case SweepLoad(k) => Goto(v, t, v.pcs[t], SweepCas(k, v.words[SweepSlot32(v, k)]))
    case SweepCas(_, _) => SweepCas32(v, t, Flag(e))
    case SweepWake(k, i) => FutexWake32(v, t, i, AfterSlot32(v, k))
  }
}
