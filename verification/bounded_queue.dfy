/**
 The ring as an object: the shared variables of evenk/bounded_queue.h and the local variables of
 the threads, updated in place.  Each method is one atomic access of one thread, written with the
 operations of the source.
 */
module BoundedQueue {
  import opened Values
  import opened Bits
  import opened SpinRing
  import opened FutexRing
  import opened FutexRingInv
  import opened FutexRingTheorems
  import opened Tokens
  import opened RingBounds
  import opened Ring32
  import opened Ring32Refines
  import opened Ring32Theorems
  import opened Ring32Safety

  class Ring {
    const mask: u32
    const words: array<u32>
    const values: array<Value>
    var head: u32
    var tail: u32
    var closed: CloseFlag
    var last: u32
    var pcs: seq<Pc<u32>>
    var modes: seq<Mode<u32>>
    var called: bool

    ghost function View(): Store
      reads this, words, values
    {
      Store(mask, head, tail, closed, last, words[..], values[..], pcs, modes, called)
    }

    ghost predicate Valid()
      reads this, words, values
    {
      Shape32(View()) && words as object != values
    }

    constructor (size: u32, threads: nat, blank: Value)
      requires GoodSize(size)
      ensures fresh(words) && fresh(values)
      ensures Valid() && View() == Init32(size, threads, blank)
    {
      mask := size - 1;
      var w := new u32[size];
      var i: u32 := 0;
      while i < size
        invariant i <= size == w.Length && fresh(w)
        invariant forall j :: 0 <= j < i ==> w[j] == And(j, TICKET_MASK)
      {
        w[i] := And(i, TICKET_MASK);
        i := i + 1;
      }
      words := w;
      values := new Value[size](_ => blank);
      head, tail, closed, last, called := 0, 0, Open, 0, false;
      pcs := seq(threads, _ => Idle);
      modes := seq(threads, _ => Plain);
      new;
      assert words[..] == Init32(size, threads, blank).words;
      assert values[..] == Init32(size, threads, blank).values;
    }

    method Goto(t: nat, pc: Pc<u32>, mode: Mode<u32>)
      requires t < |pcs| && t < |modes|
      modifies `pcs, `modes
      ensures View() == Ring32.Goto(old(View()), t, pc, mode)
    {
      pcs := pcs[t := pc];
      modes := modes[t := mode];
    }

    // ---------------------------------------------------------------------------
    // wait_push and wait_pop

    method TakePush(t: nat, value: Value)
      requires Valid() && t < |pcs|
      modifies this
      ensures View() == TakePush32(old(View()), t, value)
    {
      var count := tail;
      tail := (tail + 1) % WORD;
      Goto(t, PushLoad(count, value), Plain);
    }

    method TakePop(t: nat)
      requires Valid() && t < |pcs|
      modifies this
      ensures View() == TakePop32(old(View()), t)
    {
      var count := head;
      head := (head + 1) % WORD;
      Goto(t, PopLoad(count, false), Plain);
    }

    // The test of the loops of wait_tail and wait_head on the loaded word w.
    method Test(t: nat, w: u32)
      requires Valid() && t < |pcs| && pcs[t].Loading()
      modifies this
      ensures View() == Test32(old(View()), t, w)
    {
      var pc := pcs[t];
      var token := And(pc.count, TICKET_MASK);
      if pc.PushLoad? {
        if And(w, TICKET_MASK) != token {
          Goto(t, PushCheck(pc.count, pc.value), Loaded(w));
        } else {
          Goto(t, PushWrite(pc.count, pc.value), Plain);
        }
      } else {
        if !pc.matched && And(w, TICKET_MASK) != token {
          Goto(t, PopCheck(pc.count, false), Loaded(w));
        } else if And(w, STATUS_MASK) == 0 {
          Goto(t, PopCheck(pc.count, true), Loaded(w));
        } else if And(w, STATUS_VALID) == 0 {
          Goto(t, PopWake(pc.count, Skipped), Plain);
        } else {
          Goto(t, PopRead(pc.count), Plain);
        }
      }
    }

    method Load(t: nat)
      requires Valid() && t < |pcs| && pcs[t].Loading()
      modifies this
      ensures View() == Load32(old(View()), t)
    {
      Test(t, words[And(pcs[t].count, mask)]);
    }

    method IsPastLast(count: u32) returns (past: bool)
      ensures past == PastLast32(View(), count)
    {
      if closed != Closed {
        return false;
      }
      var difference := (last - count) % WORD;
      past := difference == 0 || HALF <= difference;
    }

    method Check(t: nat, retry: bool)
      requires Valid() && t < |pcs| && modes[t].Loaded?
      modifies this
      ensures View() == Check32(old(View()), t, retry)
    {
      var pc := pcs[t];
      var past := IsPastLast(pc.count);
      if past {
        Goto(t, Idle, Plain);
      } else if pc.PushCheck? {
        Goto(t, PushLoad(pc.count, pc.value), if retry then Plain else Cas(modes[t].word));
      } else {
        Goto(t, PopLoad(pc.count, pc.matched), Cas(modes[t].word));
      }
    }

    // ---------------------------------------------------------------------------
    // The futex slot

    method WaitCas(t: nat)
      requires Valid() && t < |pcs| && modes[t].Cas?
      modifies this, words
      ensures View() == WaitCas32(old(View()), t)
    {
      var i := And(pcs[t].count, mask);
      var w := modes[t].word;
      var x := OrWord(w, STATUS_WAITING);
      if words[i] == w || words[i] == x {
        words[i] := x;
        assert words[..] == old(words[..])[i := x];
        Goto(t, pcs[t], Sleep(x));
      } else {
        Test(t, words[i]);
      }
    }

    method FutexWait(t: nat)
      requires Valid() && t < |pcs| && modes[t].Sleep?
      modifies this
      ensures View() == FutexWait32(old(View()), t)
    {
      var x := modes[t].word;
      Goto(t, pcs[t], if words[And(pcs[t].count, mask)] == x then Asleep(x) else Plain);
    }

    method FutexWake(t: nat, i: nat, next: Mode<u32>)
      requires Valid() && t < |pcs|
      modifies this
      ensures View() == FutexWake32(old(View()), t, i, next)
    {
      ghost var was := View();
      var u := 0;
      while u < |modes|
        invariant 0 <= u <= |modes| == |was.modes|
        invariant View() == was.(modes := modes)
        invariant forall w :: 0 <= w < u ==> modes[w] == WokenMode(was, t, i, next, w)
        invariant forall w :: u <= w < |modes| ==> modes[w] == was.modes[w]
      {
        assert Together(was.pcs[u], was.modes[u]);
        if u == t {
          modes := modes[u := next];
        } else if modes[u].Asleep? && And(pcs[u].count, mask) == i {
          modes := modes[u := Plain];
        }
        u := u + 1;
      }
      assert modes == FutexWake32(was, t, i, next).modes;
    }

    // slot.wake(x)
    method Exchange(t: nat, x: u32, next: Pc<u32>)
      requires Valid() && t < |pcs| && pcs[t].Waking()
      modifies this, words
      ensures View() == Exchange32(old(View()), t, x, next)
    {
      var i := And(pcs[t].count, mask);
      var w := words[i];
      words[i] := x;
      assert words[..] == old(words[..])[i := x];
      Goto(t, next, if And(w, STATUS_WAITING) != 0 then Waking(i) else Plain);
    }

    // ---------------------------------------------------------------------------
    // put_value and get_value

    method WriteValue(t: nat, ok: bool)
      requires Valid() && t < |pcs| && pcs[t].PushWrite?
      modifies this, values
      ensures View() == WriteValue32(old(View()), t, ok)
    {
      var PushWrite(count, value) := pcs[t];
      if ok {
        values[And(count, mask)] := value;
        assert values[..] == old(values[..])[And(count, mask) := value];
      }
      Goto(t, PushWake(count, value, ok), Plain);
    }

    method WakePush(t: nat)
      requires Valid() && t < |pcs| && pcs[t].PushWake?
      modifies this, words
      ensures View() == WakePush32(old(View()), t)
    {
      var token := And(pcs[t].count, TICKET_MASK);
      Exchange(t, OrWord(token, if pcs[t].stored then STATUS_VALID else STATUS_INVALID), Idle);
    }

    method ReadValue(t: nat, ok: bool)
      requires Valid() && t < |pcs| && pcs[t].PopRead?
      modifies this
      ensures View() == ReadValue32(old(View()), t, ok)
    {
      var count := pcs[t].count;
      var value := values[And(count, mask)];
      Goto(t, PopWake(count, if ok then Took(value) else Lost(value)), Plain);
    }

    method WakePop(t: nat)
      requires Valid() && t < |pcs| && pcs[t].PopWake?
      modifies this, words
      ensures View() == WakePop32(old(View()), t)
    {
      var token := And(pcs[t].count, TICKET_MASK);
      Exchange(t, (token + mask + 1) % WORD, if pcs[t].out.Skipped? then PopStart else Idle);
    }

    // ---------------------------------------------------------------------------
    // close

    method BeginClose(t: nat)
      requires Valid() && t < |pcs|
      modifies this
      ensures View() == if old(called) then old(View())
                        else Ring32.Goto(old(View()), t, CloseCas, Plain).(called := true)
    {
      if !called {
        called := true;
        Goto(t, CloseCas, Plain);
      }
    }

    method GuardClose(t: nat)
      requires Valid() && t < |pcs|
      modifies this
      ensures View() == GuardClose32(old(View()), t)
    {
      if closed == Closing {
        closed := Open;
        Goto(t, Idle, Plain);
      } else {
        Goto(t, CloseCut, Plain);
      }
    }

    method CutTail(t: nat)
      requires Valid() && t < |pcs|
      modifies this
      ensures View() == CutTail32(old(View()), t)
    {
      last := tail;
      tail := (tail + mask + 1) % WORD;
      Goto(t, CloseStore, Plain);
    }

    method StoreClosed(t: nat)
      requires Valid() && t < |pcs|
      modifies this
      ensures View() == StoreClosed32(old(View()), t)
    {
      closed := Closed;
      Goto(t, Idle, SweepLoad(0));
    }

    method SweepLoadWord(t: nat)
      requires Valid() && t < |pcs| && modes[t].SweepLoad?
      modifies this
      ensures var v := old(View());
              var k := old(modes[t].k);
              View() == Ring32.Goto(v, t, v.pcs[t], SweepCas(k, v.words[SweepSlot32(v, k)]))
    {
      var k := modes[t].k;
      Goto(t, pcs[t], SweepCas(k, words[And((last + k) % WORD, mask)]));
    }

    method SweepCasWord(t: nat, spurious: bool)
      requires Valid() && t < |pcs| && modes[t].SweepCas?
      modifies this, words
      ensures View() == SweepCas32(old(View()), t, spurious)
    {
      var SweepCas(k, w) := modes[t];
      var i := And((last + k) % WORD, mask);
      if spurious || words[i] != w {
        Goto(t, pcs[t], SweepCas(k, words[i]));
      } else {
        words[i] := OrWord(w, STATUS_CLOSED);
        assert words[..] == old(words[..])[i := OrWord(w, STATUS_CLOSED)];
        Goto(t, pcs[t],
             if And(w, STATUS_WAITING) != 0 then SweepWake(k, i)
             else if k < mask then SweepLoad(k + 1) else Plain);
      }
    }

    method SweepWakeSlot(t: nat)
      requires Valid() && t < |pcs| && modes[t].SweepWake?
      modifies this
      ensures View() == FutexWake32(old(View()), t, old(modes[t].slot), AfterSlot32(old(View()), old(modes[t].k)))
    {
      var SweepWake(k, i) := modes[t];
      FutexWake(t, i, if k < mask then SweepLoad(k + 1) else Plain);
    }

    // ---------------------------------------------------------------------------
    // Runs

    // Thread e.thread makes its next access.
    method Step(e: Event)
      requires Valid()
      modifies this, words, values
      ensures Valid() && View() == Step32(old(View()), e)
    {
      ShapeKept(View(), e);
      var t := e.thread;
      if t < |pcs| {
        assert Together(pcs[t], modes[t]);
        match modes[t]
        case Plain => PlainStep(e);
        case Loaded(_) => Check(t, Flag(e));
        case Cas(_) => WaitCas(t);
        case Sleep(_) => FutexWait(t);
        case Asleep(_) => Goto(t, pcs[t], Plain);
        case Waking(i) => FutexWake(t, i, Plain);
        case SweepLoad(_) => SweepLoadWord(t);
        case SweepCas(_, _) => SweepCasWord(t, Flag(e));
        case SweepWake(_, _) => SweepWakeSlot(t);
      }
    }

    method PlainStep(e: Event)
      requires Valid() && e.thread < |pcs| && modes[e.thread].Plain?
      modifies this, words, values
      ensures View() == Step32(old(View()), e)
    {
      var t := e.thread;
      match pcs[t]
      case Idle =>
        match e.action {
          case StartPush(value) => TakePush(t, value);
          case StartPop => TakePop(t);
          case StartClose => BeginClose(t);
          case Go(_) =>
        }
      case PushLoad(_, _) => Load(t);
      case PushCheck(_, _) =>
      case PushWrite(_, _) => WriteValue(t, Flag(e));
      case PushWake(_, _, _) => WakePush(t);
      case PopStart => TakePop(t);
      case PopLoad(_, _) => Load(t);
      case PopCheck(_, _) =>
      case PopRead(_) => ReadValue(t, Flag(e));
      case PopWake(_, _) => WakePop(t);
      case CloseCas => GuardClose(t);
      case CloseCut => CutTail(t);
      case CloseStore => StoreClosed(t);
    }

    // Any schedule of accesses.
    method Run(events: seq<Event>)
      requires Valid()
      modifies this, words, values
      ensures Valid() && View() == Run32(old(View()), events)
    {
      var k := 0;
      assert events[0..] == events;
      while k < |events|
        invariant 0 <= k <= |events|
        invariant Valid() && Run32(View(), events[k..]) == Run32(old(View()), events)
      {
        assert events[k..][0] == events[k] && events[k..][1..] == events[k + 1..];
        Step(events[k]);
        k := k + 1;
      }
    }
  }

  // The constructor's checks: the size must be a power of two and at least 16.
  method Create(size: u32, threads: nat, blank: Value) returns (ring: Ring?)
    ensures ring == null <==> size < MIN_SIZE || !IsPow2(size)
    ensures ring != null ==> ring.Valid() && ring.View() == Init32(size, threads, blank)
    ensures ring != null ==> fresh(ring) && fresh(ring.words) && fresh(ring.values)
  {
    if size < MIN_SIZE {
      return null;
    }
    PowerTest(size);
    if And(size, size - 1) != 0 {
      return null;
    }
    ring := new Ring(size, threads, blank);
  }

  // A ring of valid size, run under any schedule that fits the 32-bit counters, ends in the image
  // of the state that the unbounded ring reaches.  There no two threads are inside one value, nobody
  // sleeps on a word that has changed, and after close() nobody sleeps with a ticket from last_ on,
  // unless a wake is coming.
  method CreateAndRun(size: u32, threads: nat, blank: Value, events: seq<Event>) returns (ring: Ring)
    requires GoodSize(size)
    requires (FutexInitInv(size, threads, blank); FitsAll(FutexInit(size, threads, blank), events))
    ensures FutexInv(FutexInit(size, threads, blank))
    ensures var r := FutexRun(FutexInit(size, threads, blank), events);
            && FutexShape(r) && r.ring.size <= WORD && ring.View() == Image(r)
            && ring.Valid() && (Fits(r.ring) ==> SleepersFreed(ring.View()))
            && OutcomesTold(ring.View(), r, FutexThrown(FutexInit(size, threads, blank), events),
                            FutexLost(FutexInit(size, threads, blank), events))
    ensures ValuesExclusive(ring.View()) && SleepersCurrent(ring.View())
  {
    FutexInitInv(size, threads, blank);
    ring := new Ring(size, threads, blank);
    ring.Run(events);
    Ring32IsRing(size, threads, blank, events);
    ghost var r := FutexRun(FutexInit(size, threads, blank), events);
    ImageExclusive(r);
    ImageCurrent(r);
    if Fits(r.ring) { ImageFreed(r); }
    ImageTells(size, threads, blank, events);
  }
}
