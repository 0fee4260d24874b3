/**
 The 32-bit ring does what the unbounded ring does, step by step, as long as the number of threads
 is small against the ring and close() is not followed by 2^31 calls.
 */
module Ring32Refines {
  import opened Values
  import opened Residues
  import opened Bits
  import opened SpinRing
  import opened FutexRing
  import opened Tokens
  import opened RingBounds
  import opened Ring32

  // ---------------------------------------------------------------------------
  // The 32-bit image of an unbounded state

  function EncodePc(pc: Pc<nat>): Pc<u32> {
    match pc
    case Idle => Idle
    case PushLoad(c, v) => PushLoad(c % WORD, v)
    case PushCheck(c, v) => PushCheck(c % WORD, v)
    case PushWrite(c, v) => PushWrite(c % WORD, v)
    case PushWake(c, v, stored) => PushWake(c % WORD, v, stored)
    case PopStart => PopStart
    case PopLoad(c, matched) => PopLoad(c % WORD, matched)
    case PopCheck(c, matched) => PopCheck(c % WORD, matched)
    case PopRead(c) => PopRead(c % WORD)
    case PopWake(c, out) => PopWake(c % WORD, out)
    case CloseCas => CloseCas
    case CloseCut => CloseCut
    case CloseStore => CloseStore
  }

  function EncodeMode(mode: Mode<Word>): Mode<u32> {
    match mode
    case Plain => Plain
    case Loaded(w) => Loaded(Encode(w))
    case Cas(w) => Cas(Encode(w))
    case Sleep(w) => Sleep(Encode(w))
    case Asleep(w) => Asleep(Encode(w))
    case Waking(i) => Waking(i)
    case SweepLoad(k) => SweepLoad(k)
    case SweepCas(k, w) => SweepCas(k, Encode(w))
    case SweepWake(k, i) => SweepWake(k, i)
  }

  function EncodeWords(slots: seq<Slot>, flags: seq<Flags>): (r: seq<u32>)
    requires |slots| == |flags|
    ensures |r| == |slots|
  {
    seq(|slots|, (i: nat) requires i < |slots| =>
      Encode(Word(slots[i].ticket, slots[i].status, flags[i].waiting, flags[i].closed)))
  }

  function EncodeValues(slots: seq<Slot>): (r: seq<Value>)
    ensures |r| == |slots|
  {
    seq(|slots|, (i: nat) requires i < |slots| => slots[i].value)
  }

  function EncodePcs(pcs: seq<Pc<nat>>): (r: seq<Pc<u32>>)
    ensures |r| == |pcs|
  {
    seq(|pcs|, (t: nat) requires t < |pcs| => EncodePc(pcs[t]))
  }

  function EncodeModes(modes: seq<Mode<Word>>): (r: seq<Mode<u32>>)
    ensures |r| == |modes|
  {
    seq(|modes|, (t: nat) requires t < |modes| => EncodeMode(modes[t]))
  }

  function Image(m: FutexState): Store
    requires FutexShape(m) && m.ring.size <= WORD
  {
    Store(m.ring.size - 1, m.ring.head % WORD, m.ring.tail % WORD, m.ring.closed, m.ring.last % WORD,
          EncodeWords(m.ring.slots, m.flags), EncodeValues(m.ring.slots),
          EncodePcs(m.ring.pcs), EncodeModes(m.modes), !m.ring.phase.Running?)
  }

  lemma ImageShape(m: FutexState)
    requires FutexShape(m) && GoodSize(m.ring.size)
    ensures Shape32(Image(m))
  {
  }

  lemma InitWords(size: u32, blank: Value)
    ensures seq(size, (i: nat) requires i < size => And(i, TICKET_MASK) as u32)
            == EncodeWords(seq(size, (i: nat) => Slot(i, Empty, blank)), seq(size, _ => Flags(false, false)))
  {
    var a := seq(size, (i: nat) requires i < size => And(i, TICKET_MASK) as u32);
    var b := EncodeWords(seq(size, (i: nat) => Slot(i, Empty, blank)), seq(size, _ => Flags(false, false)));
    forall i: nat | i < size ensures a[i] == b[i] {
      FirstWord(i);
    }
  }

  lemma InitImage(size: u32, threads: nat, blank: Value)
    requires GoodSize(size) && FutexShape(FutexInit(size, threads, blank))
    ensures Init32(size, threads, blank) == Image(FutexInit(size, threads, blank))
  {
    var v := Init32(size, threads, blank);
    var w := Image(FutexInit(size, threads, blank));
    InitWords(size, blank);
    assert v.values == w.values && v.pcs == w.pcs && v.modes == w.modes;
  }

  // ---------------------------------------------------------------------------
  // Updates

  lemma GotoImage(m: FutexState, t: nat, pc: Pc<nat>, mode: Mode<Word>)
    requires t < |m.ring.pcs| && t < |m.modes|
    ensures EncodePcs(m.ring.pcs[t := pc]) == EncodePcs(m.ring.pcs)[t := EncodePc(pc)]
    ensures EncodeModes(m.modes[t := mode]) == EncodeModes(m.modes)[t := EncodeMode(mode)]
  {
  }

  lemma WordImage(slots: seq<Slot>, flags: seq<Flags>, i: nat, slot: Slot, flag: Flags)
    requires |slots| == |flags| && i < |slots|
    ensures EncodeWords(slots[i := slot], flags[i := flag])
            == EncodeWords(slots, flags)[i := Encode(Word(slot.ticket, slot.status, flag.waiting, flag.closed))]
    ensures EncodeValues(slots[i := slot]) == EncodeValues(slots)[i := slot.value]
  {
  }

  lemma PlusExact(a: nat, b: nat)
    ensures Plus(a % WORD, b) == (a + b) % WORD
  {
    AddMod(a, b, WORD);
  }

  lemma SlotExact(m: FutexState, c: nat)
    requires FutexShape(m) && GoodSize(m.ring.size)
    ensures Shape32(Image(m)) && Slot32(Image(m), c % WORD) == m.ring.Index(c)
  {
    SizeDivides(m.ring.size);
    ImageShape(m);
  }

  // ---------------------------------------------------------------------------
  // The comparisons of the 32-bit code

  // The token test of the wait loops, on a word w of the slot of ticket c.
  lemma TokenTestExact(size: nat, w: Word, c: nat)
    requires GoodSize(size) && w.ticket % size == c % size && w.ticket <= c < w.ticket + WORD
    ensures And(Encode(w), TICKET_MASK) == And(c % WORD, TICKET_MASK) <==> w.ticket == c
  {
    SizeDivides(size);
    Decode(w);
    Publish(c);
    assert w.ticket % 16 == (w.ticket % size) % 16 && c % 16 == (c % size) % 16;
    SameToken(w.ticket, c);
  }

  lemma WordTestExact(size: nat, v: Word, w: Word)
    requires GoodSize(size) && v.ticket % size == w.ticket % size
    requires v.ticket < w.ticket + WORD && w.ticket < v.ticket + WORD
    ensures Encode(v) == Encode(w) <==> v == w
  {
    SizeDivides(size);
    assert v.ticket % 16 == (v.ticket % size) % 16 && w.ticket % 16 == (w.ticket % size) % 16;
    SameWord(v, w);
  }

  // is_past_last compares the signed difference with zero.
  lemma SignedTestExact(last: nat, c: nat)
    requires last < c + HALF && c <= last + HALF
    ensures Signed(Minus(last % WORD, c % WORD)) <= 0 <==> last <= c
  {
    var d := last - c;
    assert Minus(last % WORD, c % WORD) == d % WORD;
  }

  // What that comparison decides for any two counts: it is right exactly while a ticket cut off is
  // no more than 2^31 ahead of the cut, and a ticket in play less than 2^31 behind, modulo 2^32.
  lemma SignedTestWraps(last: nat, c: nat)
    ensures last <= c ==> (Signed(Minus(last % WORD, c % WORD)) <= 0 <==> (c - last) % WORD <= HALF)
    ensures c < last ==> (Signed(Minus(last % WORD, c % WORD)) > 0 <==> 0 < (last - c) % WORD < HALF)
  {
    var d := last - c;
    assert Minus(last % WORD, c % WORD) == d % WORD;
  }

  // ---------------------------------------------------------------------------
  // Steps outside the wait loops

  lemma PushImage(m: FutexState, t: nat, v: Value)
    requires FutexShape(m) && GoodSize(m.ring.size) && t < |m.modes| && m.modes[t].Plain?
    requires FutexShape(m.(ring := TakePush(m.ring, t, v)))
    ensures Shape32(Image(m)) && TakePush32(Image(m), t, v) == Image(m.(ring := TakePush(m.ring, t, v)))
  {
    ImageShape(m);
    PlusExact(m.ring.tail, 1);
    GotoImage(m, t, PushLoad(m.ring.tail, v), Plain);
  }

  lemma PopImage(m: FutexState, t: nat)
    requires FutexShape(m) && GoodSize(m.ring.size) && t < |m.modes| && m.modes[t].Plain?
    requires FutexShape(m.(ring := TakePop(m.ring, t)))
    ensures Shape32(Image(m)) && TakePop32(Image(m), t) == Image(m.(ring := TakePop(m.ring, t)))
  {
    ImageShape(m);
    PlusExact(m.ring.head, 1);
    GotoImage(m, t, PopLoad(m.ring.head, false), Plain);
  }

  lemma BeginImage(m: FutexState, t: nat)
    requires FutexShape(m) && GoodSize(m.ring.size) && t < |m.modes| && m.modes[t].Plain?
    requires FutexShape(m.(ring := BeginClose(m.ring, t)))
    ensures Shape32(Image(m))
    ensures (if Image(m).called then Image(m) else Goto(Image(m), t, CloseCas, Plain).(called := true))
            == Image(m.(ring := BeginClose(m.ring, t)))
  {
    ImageShape(m);
    GotoImage(m, t, CloseCas, Plain);
  }

  lemma SpuriousImage(m: FutexState, t: nat)
    requires FutexShape(m) && GoodSize(m.ring.size) && t < |m.modes| && m.modes[t].Asleep?
    requires FutexShape(m.(modes := m.modes[t := Plain]))
    ensures Shape32(Image(m))
    ensures Goto(Image(m), t, Image(m).pcs[t], Plain) == Image(m.(modes := m.modes[t := Plain]))
  {
    ImageShape(m);
    GotoImage(m, t, m.ring.pcs[t], Plain);
    assert m.ring.pcs[t := m.ring.pcs[t]] == m.ring.pcs;
  }

  lemma WriteImage(m: FutexState, t: nat, ok: bool)
    requires FutexShape(m) && GoodSize(m.ring.size) && t < |m.modes| && m.modes[t].Plain?
    requires m.ring.pcs[t].PushWrite? && FutexShape(m.(ring := WriteValue(m.ring, t, ok)))
    ensures Shape32(Image(m))
    ensures WriteValue32(Image(m), t, ok) == Image(m.(ring := WriteValue(m.ring, t, ok)))
  {
    var PushWrite(c, v) := m.ring.pcs[t];
    var i := m.ring.Index(c);
    SlotExact(m, c);
    GotoImage(m, t, PushWake(c, v, ok), Plain);
    WordImage(m.ring.slots, m.flags, i, m.ring.slots[i].(value := v), m.flags[i]);
  }

  lemma ReadImage(m: FutexState, t: nat, ok: bool)
    requires FutexShape(m) && GoodSize(m.ring.size) && t < |m.modes| && m.modes[t].Plain?
    requires m.ring.pcs[t].PopRead? && FutexShape(m.(ring := ReadValue(m.ring, t, ok)))
    ensures Shape32(Image(m))
    ensures ReadValue32(Image(m), t, ok) == Image(m.(ring := ReadValue(m.ring, t, ok)))
  {
    var c := m.ring.pcs[t].count;
    var v := m.ring.slots[m.ring.Index(c)].value;
    SlotExact(m, c);
    GotoImage(m, t, PopWake(c, if ok then Took(v) else Lost(v)), Plain);
  }

  // slot.wake() of thread t, which holds ticket c and goes on at `next`.
  lemma ExchangeImage(m: FutexState, t: nat, c: nat, slot: Slot, next: Pc<nat>)
    requires FutexShape(m) && GoodSize(m.ring.size) && t < |m.modes|
    requires m.ring.pcs[t].Waking() && m.ring.pcs[t].count == c
    requires slot.value == m.ring.slots[m.ring.Index(c)].value
    ensures Shape32(Image(m))
    ensures var i := m.ring.Index(c);
            var r := Exchange32(Image(m), t, Encode(Word(slot.ticket, slot.status, false, false)), EncodePc(next));
            && r.words == EncodeWords(m.ring.slots[i := slot], m.flags[i := Flags(false, false)])
            && r.values == EncodeValues(m.ring.slots[i := slot])
            && r.pcs == EncodePcs(m.ring.pcs[t := next])
            && r.modes == EncodeModes(m.modes[t := if m.flags[i].waiting then Waking(i) else Plain])
            && r == Image(m).(words := r.words, pcs := r.pcs, modes := r.modes)
  {
    var i := m.ring.Index(c);
    SlotExact(m, c);
    Decode(WordAt(m, i));
    GotoImage(m, t, next, if m.flags[i].waiting then Waking(i) else Plain);
    WordImage(m.ring.slots, m.flags, i, slot, Flags(false, false));
    assert EncodeValues(m.ring.slots)[i := slot.value] == EncodeValues(m.ring.slots);
  }

  lemma WakePushImage(m: FutexState, e: Event)
    requires FutexShape(m) && GoodSize(m.ring.size) && e.thread < |m.modes| && m.modes[e.thread].Plain?
    requires m.ring.pcs[e.thread].PushWake? && FutexShape(WakeSlot(m, e))
    ensures Shape32(Image(m)) && WakePush32(Image(m), e.thread) == Image(WakeSlot(m, e))
  {
    var t := e.thread;
    var PushWake(c, v, stored) := m.ring.pcs[t];
    var i := m.ring.Index(c);
    Publish(c);
    ExchangeImage(m, t, c, Slot(c, if stored then Valid else Invalid, m.ring.slots[i].value), Idle);
  }

  lemma WakePopWord(m: FutexState, t: nat)
    requires FutexShape(m) && GoodSize(m.ring.size) && t < |m.modes| && m.ring.pcs[t].PopWake?
    ensures Shape32(Image(m))
    ensures var PopWake(c, out) := m.ring.pcs[t];
            WakePop32(Image(m), t)
            == Exchange32(Image(m), t, Encode(Word(c + m.ring.size, Empty, false, false)),
                          EncodePc(if out.Skipped? then PopStart else Idle))
  {
    ImageShape(m);
    NextWord(m.ring.pcs[t].count, m.ring.size);
  }

  lemma WakePopImage(m: FutexState, e: Event)
    requires FutexShape(m) && GoodSize(m.ring.size) && e.thread < |m.modes| && m.modes[e.thread].Plain?
    requires m.ring.pcs[e.thread].PopWake? && FutexShape(WakeSlot(m, e))
    ensures Shape32(Image(m)) && WakePop32(Image(m), e.thread) == Image(WakeSlot(m, e))
  {
    var t := e.thread;
    var PopWake(c, out) := m.ring.pcs[t];
    WakePopWord(m, t);
    ExchangeImage(m, t, c, Slot(c + m.ring.size, Empty, m.ring.slots[m.ring.Index(c)].value),
                  if out.Skipped? then PopStart else Idle);
  }

  lemma GuardImage(m: FutexState, t: nat)
    requires FutexShape(m) && GoodSize(m.ring.size) && t < |m.modes| && m.modes[t].Plain?
    requires FutexShape(m.(ring := GuardClose(m.ring, t)))
    ensures Shape32(Image(m)) && GuardClose32(Image(m), t) == Image(m.(ring := GuardClose(m.ring, t)))
  {
    ImageShape(m);
    GotoImage(m, t, Idle, Plain);
    GotoImage(m, t, CloseCut, Plain);
  }

  lemma CutImage(m: FutexState, t: nat)
    requires FutexShape(m) && GoodSize(m.ring.size) && t < |m.modes| && m.modes[t].Plain?
    requires FutexShape(m.(ring := CutTail(m.ring, t))) && !m.ring.phase.Running?
    ensures Shape32(Image(m)) && CutTail32(Image(m), t) == Image(m.(ring := CutTail(m.ring, t)))
  {
    ImageShape(m);
    GotoImage(m, t, CloseStore, Plain);
    PlusExact(m.ring.tail, m.ring.size);
    assert m.modes[t := Plain] == m.modes;
  }

  lemma StoreImage(m: FutexState, e: Event)
    requires FutexShape(m) && GoodSize(m.ring.size) && e.thread < |m.modes| && m.modes[e.thread].Plain?
    requires m.ring.pcs[e.thread].CloseStore? && FutexShape(StoreFlag(m, e)) && !m.ring.phase.Running?
    ensures Shape32(Image(m)) && StoreClosed32(Image(m), e.thread) == Image(StoreFlag(m, e))
  {
    ImageShape(m);
    GotoImage(m, e.thread, Idle, SweepLoad(0));
  }

  // ---------------------------------------------------------------------------
  // Steps in the wait loops

  // The token test and the status tests decide as on unbounded tickets.
  lemma TestImage(m: FutexState, e: Event)
    requires FutexShape(m) && GoodSize(m.ring.size) && e.thread < |m.modes| && m.ring.pcs[e.thread].Loading()
    requires var c := m.ring.pcs[e.thread].count;
             var w := WordAt(m, SlotOf(m, e.thread));
             w.ticket % m.ring.size == c % m.ring.size && w.ticket <= c < w.ticket + WORD
    requires FutexShape(LoadSlot(m, e))
    ensures Shape32(Image(m))
    ensures Test32(Image(m), e.thread, Encode(WordAt(m, SlotOf(m, e.thread)))) == Image(LoadSlot(m, e))
  {
    var t := e.thread;
    var r := LoadSlot(m, e);
    var w := WordAt(m, SlotOf(m, t));
    ImageShape(m);
    TokenTestExact(m.ring.size, w, m.ring.pcs[t].count);
    Decode(w);
    GotoImage(m, t, r.ring.pcs[t], r.modes[t]);
  }

  lemma CheckImage(m: FutexState, e: Event)
    requires FutexShape(m) && GoodSize(m.ring.size) && e.thread < |m.modes| && m.modes[e.thread].Loaded?
    requires var c := m.ring.pcs[e.thread].count;
             m.ring.closed == Closed ==> m.ring.last < c + HALF && c <= m.ring.last + HALF
    requires FutexShape(CheckSlot(m, e))
    ensures Shape32(Image(m)) && Check32(Image(m), e.thread, Flag(e)) == Image(CheckSlot(m, e))
  {
    var t := e.thread;
    var r := CheckSlot(m, e);
    ImageShape(m);
    if m.ring.closed == Closed { SignedTestExact(m.ring.last, m.ring.pcs[t].count); }
    GotoImage(m, t, r.ring.pcs[t], r.modes[t]);
  }

  // The compare-exchange puts x into the slot word.
  lemma SleepImage(m: FutexState, t: nat, x: Word)
    requires FutexShape(m) && GoodSize(m.ring.size) && t < |m.modes| && m.modes[t].Cas?
    requires WordAt(m, SlotOf(m, t)).(waiting := true) == x
    requires var i := SlotOf(m, t);
             FutexShape(m.(flags := m.flags[i := m.flags[i].(waiting := true)], modes := m.modes[t := Sleep(x)]))
    ensures var i := SlotOf(m, t);
            var v := Image(m);
            && Shape32(v)
            && Goto(v, t, v.pcs[t], Sleep(Encode(x))).(words := v.words[i := Encode(x)])
               == Image(m.(flags := m.flags[i := m.flags[i].(waiting := true)], modes := m.modes[t := Sleep(x)]))
  {
    var i := SlotOf(m, t);
    ImageShape(m);
    GotoImage(m, t, m.ring.pcs[t], Sleep(x));
    WordImage(m.ring.slots, m.flags, i, m.ring.slots[i], m.flags[i].(waiting := true));
    assert m.ring.slots[i := m.ring.slots[i]] == m.ring.slots;
    assert m.ring.pcs[t := m.ring.pcs[t]] == m.ring.pcs;
  }

  // The compare-exchange succeeds exactly when the unbounded words are equal.
  lemma WaitCasImage(m: FutexState, e: Event)
    requires FutexShape(m) && GoodSize(m.ring.size) && e.thread < |m.modes| && m.modes[e.thread].Cas?
    requires var c := m.ring.pcs[e.thread].count;
             var now := WordAt(m, SlotOf(m, e.thread));
             var w := m.modes[e.thread].word;
             && now.ticket % m.ring.size == c % m.ring.size == w.ticket % m.ring.size
             && w.ticket <= now.ticket <= c < w.ticket + WORD
    requires FutexShape(WaitCas(m, e)) && FutexShape(LoadSlot(m, e))
    ensures Shape32(Image(m)) && WaitCas32(Image(m), e.thread) == Image(WaitCas(m, e))
  {
    var t := e.thread;
    var x := m.modes[t].word.(waiting := true);
    WaitCasWords(m, t);
    if WordAt(m, SlotOf(m, t)) == m.modes[t].word || WordAt(m, SlotOf(m, t)) == x {
      SleepImage(m, t, x);
    } else {
      TestImage(m, e);
    }
  }

  lemma WaitCasWords(m: FutexState, t: nat)
    requires FutexShape(m) && GoodSize(m.ring.size) && t < |m.modes| && m.modes[t].Cas?
    requires var c := m.ring.pcs[t].count;
             var now := WordAt(m, SlotOf(m, t));
             var w := m.modes[t].word;
             && now.ticket % m.ring.size == c % m.ring.size == w.ticket % m.ring.size
             && w.ticket <= now.ticket <= c < w.ticket + WORD
    ensures var v := Image(m);
            var now := WordAt(m, SlotOf(m, t));
            var w := m.modes[t].word;
            var x := w.(waiting := true);
            && Shape32(v) && Slot32(v, v.pcs[t].count) == SlotOf(m, t)
            && v.words[SlotOf(m, t)] == Encode(now) && v.modes[t] == Cas(Encode(w))
            && OrWord(Encode(w), STATUS_WAITING) == Encode(x)
            && (Encode(now) == Encode(w) <==> now == w) && (Encode(now) == Encode(x) <==> now == x)
  {
    var now, w := WordAt(m, SlotOf(m, t)), m.modes[t].word;
    SlotExact(m, m.ring.pcs[t].count);
    WordTestExact(m.ring.size, now, w);
    WordTestExact(m.ring.size, now, w.(waiting := true));
    SetWaitingWord(w);
  }

  lemma FutexWaitImage(m: FutexState, t: nat)
    requires FutexShape(m) && GoodSize(m.ring.size) && t < |m.modes| && m.modes[t].Sleep?
    requires var c := m.ring.pcs[t].count;
             var now := WordAt(m, SlotOf(m, t));
             var x := m.modes[t].word;
             && now.ticket % m.ring.size == c % m.ring.size == x.ticket % m.ring.size
             && x.ticket <= now.ticket <= c < x.ticket + WORD
    requires FutexShape(FutexWait(m, t))
    ensures Shape32(Image(m)) && FutexWait32(Image(m), t) == Image(FutexWait(m, t))
  {
    var r := FutexWait(m, t);
    SlotExact(m, m.ring.pcs[t].count);
    WordTestExact(m.ring.size, WordAt(m, SlotOf(m, t)), m.modes[t].word);
    GotoImage(m, t, m.ring.pcs[t], r.modes[t]);
    assert m.ring.pcs[t := m.ring.pcs[t]] == m.ring.pcs;
  }

  lemma FutexWakeImage(m: FutexState, t: nat, i: nat, next: Mode<Word>)
    requires FutexShape(m) && GoodSize(m.ring.size) && t < |m.modes| && !next.Waits()
    requires FutexShape(FutexWake(m, t, i, next))
    ensures Shape32(Image(m)) && FutexWake32(Image(m), t, i, EncodeMode(next)) == Image(FutexWake(m, t, i, next))
  {
    ImageShape(m);
    var a := FutexWake32(Image(m), t, i, EncodeMode(next)).modes;
    var b := EncodeModes(FutexWake(m, t, i, next).modes);
    forall u | 0 <= u < |a| ensures a[u] == b[u] {
      if m.modes[u].Asleep? { SlotExact(m, m.ring.pcs[u].count); }
    }
    assert a == b;
  }

  // ---------------------------------------------------------------------------
  // The slot loop of close()

  lemma SweepSlotExact(m: FutexState, k: nat)
    requires FutexShape(m) && GoodSize(m.ring.size)
    ensures Shape32(Image(m)) && SweepSlot32(Image(m), k) == SweepSlot(m, k)
  {
    SlotExact(m, m.ring.last + k);
    PlusExact(m.ring.last, k);
  }

  lemma SweepLoadImage(m: FutexState, t: nat)
    requires FutexShape(m) && GoodSize(m.ring.size) && t < |m.modes| && m.modes[t].SweepLoad?
    requires FutexShape(SweepLoadWord(m, t))
    ensures Shape32(Image(m))
    ensures var k := m.modes[t].k;
            var v := Image(m);
            Goto(v, t, v.pcs[t], SweepCas(k, v.words[SweepSlot32(v, k)])) == Image(SweepLoadWord(m, t))
  {
    var k := m.modes[t].k;
    SweepSlotExact(m, k);
    GotoImage(m, t, m.ring.pcs[t], SweepCas(k, WordAt(m, SweepSlot(m, k))));
    assert m.ring.pcs[t := m.ring.pcs[t]] == m.ring.pcs;
  }

  lemma SweepCasImage(m: FutexState, t: nat, spurious: bool)
    requires FutexShape(m) && GoodSize(m.ring.size) && t < |m.modes| && m.modes[t].SweepCas?
    requires var SweepCas(k, w) := m.modes[t];
             var now := WordAt(m, SweepSlot(m, k));
             && now.ticket % m.ring.size == w.ticket % m.ring.size
             && w.ticket <= now.ticket < w.ticket + WORD
    requires FutexShape(SweepCasWord(m, t, spurious))
    ensures Shape32(Image(m)) && SweepCas32(Image(m), t, spurious) == Image(SweepCasWord(m, t, spurious))
  {
    var r := SweepCasWord(m, t, spurious);
    var SweepCas(k, w) := m.modes[t];
    var i := SweepSlot(m, k);
    SweepSlotExact(m, k);
    WordTestExact(m.ring.size, WordAt(m, i), w);
    SetClosedWord(w);
    Decode(w);
    GotoImage(m, t, m.ring.pcs[t], r.modes[t]);
    WordImage(m.ring.slots, m.flags, i, m.ring.slots[i], m.flags[i].(closed := true));
    assert m.ring.slots[i := m.ring.slots[i]] == m.ring.slots;
    assert m.ring.pcs[t := m.ring.pcs[t]] == m.ring.pcs;
  }
}
