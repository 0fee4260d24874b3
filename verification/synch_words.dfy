/**
 The 32-bit words of futex_lock and futex_cond_var beside the machine with unbounded notification
 numbers: what a thread keeps of its snapshot, and when the comparison of 32-bit words is exact.
 */
module SynchWords {
  import opened Bits
  import opened Synch
  import opened SynchInv
  import opened SynchTheorems

  function EncodeCont(next: Cont<nat>): Cont<u32> {
    match next case ToOut => ToOut case ToWait(v) => ToWait(v % WORD)
  }

  // The code keeps no number while it notifies.
  function EncodePc(pc: Pc<nat>): Pc<u32> {
    match pc
    case Out => Out
    case LockCas => LockCas
    case SlowFirst => SlowFirst
    case SlowWait => SlowWait
    case SleepLock => SleepLock
    case SlowXchg => SlowXchg
    case Held => Held
    case UnSub(v) => UnSub(v % WORD)
    case UnStore(next) => UnStore(EncodeCont(next))
    case UnWake(next) => UnWake(EncodeCont(next))
    case CvCount => CvCount
    case CvSnap => CvSnap
    case CvWait(v) => CvWait(v % WORD)
    case SleepCond(v) => SleepCond(v % WORD)
    case Requeued(v) => Requeued(v % WORD)
    case CvDec => CvDec
    case NotifyCount(all, held, _) => NotifyCount(all, held, 0)
    case NotifyOwner(held, _) => NotifyOwner(held, 0)
    case NotifyWake(all, held, _) => NotifyWake(all, held, 0)
  }

  function EncodePcs(pcs: seq<Pc<nat>>): (r: seq<Pc<u32>>)
    ensures |r| == |pcs| && forall t :: 0 <= t < |r| ==> r[t] == EncodePc(pcs[t])
  {
    seq(|pcs|, (t: nat) requires t < |pcs| => EncodePc(pcs[t]))
  }

  lemma EncodeMove(pcs: seq<Pc<nat>>, t: nat, pc: Pc<nat>)
    requires t < |pcs|
    ensures EncodePcs(pcs[t := pc]) == EncodePcs(pcs)[t := EncodePc(pc)]
  {
  }

  // ---------------------------------------------------------------------------
  // The comparison

  // A thread about to sleep on the condition took its snapshot fewer than 2^32 notifications ago.
  predicate Window(s: State, t: nat) {
    t < |s.pcs| && s.pcs[t].CvWait? ==> s.number < s.pcs[t].snap + WORD
  }

  // The same before each access of a run.
  ghost predicate WindowAll(s: State, events: seq<Event>)
    decreases |events|
  {
    events != [] ==> Window(s, events[0].thread) && WindowAll(Step(s, events[0]), events[1..])
  }

  // The 32-bit comparison of futex_wait is wrong exactly when a positive multiple of 2^32
  // notifications has come since the snapshot: then the thread sleeps though it was notified.
  lemma SleepsOvertaken(s: State, t: nat)
    requires Reachable(s) && t < |s.pcs| && s.pcs[t].CvWait?
    ensures var v := s.pcs[t].snap;
            && v <= s.number
            && (s.number % WORD == v % WORD && s.number != v <==> s.number > v && (s.number - v) % WORD == 0)
            && (Window(s, t) ==> (s.number % WORD == v % WORD <==> s.number == v))
  {
    ReachableInv(s);
    SnapshotTest(s, t);
  }

  lemma SnapshotTest(s: State, t: nat)
    requires Inv(s) && t < |s.pcs| && s.pcs[t].CvWait?
    ensures var v := s.pcs[t].snap;
            && v <= s.number
            && (s.number % WORD == v % WORD && s.number != v <==> s.number > v && (s.number - v) % WORD == 0)
            && (Window(s, t) ==> (s.number % WORD == v % WORD <==> s.number == v))
  {
    assert ThreadInv(s, t);
  }

  // ---------------------------------------------------------------------------
  // The machine of the code

  // Step, except that futex_wait compares 32-bit words.
  function WrapStep(s: State, e: Event): (r: State)
    ensures |r.pcs| == |s.pcs|
  {
    var t := e.thread;
    if t < |s.pcs| && s.pcs[t].CvWait? then
      var v := s.pcs[t].snap;
      Goto(s, t, if s.number % WORD == v % WORD then SleepCond(v) else CvDec)
    else Step(s, e)
  }

  lemma WrapInv(s: State, e: Event)
    requires Inv(s)
    ensures Inv(WrapStep(s, e))
  {
    var t := e.thread;
    if t < |s.pcs| && s.pcs[t].CvWait? {
      assert ThreadInv(s, t);
      MoveInv(s, t, WrapStep(s, e).pcs[t]);
    } else {
      StepInv(s, e);
    }
  }

  lemma WrapIsStep(s: State, e: Event)
    requires Inv(s) && Window(s, e.thread)
    ensures WrapStep(s, e) == Step(s, e)
  {
    if e.thread < |s.pcs| && s.pcs[e.thread].CvWait? { SnapshotTest(s, e.thread); }
  }

  function WrapRun(s: State, events: seq<Event>): State
    decreases |events|
  {
    if events == [] then s else WrapRun(WrapStep(s, events[0]), events[1..])
  }

  // Within the window the two machines make the same run.
  lemma {:induction false} WrapRunIsRun(s: State, events: seq<Event>)
    requires Inv(s) && WindowAll(s, events)
    ensures WrapRun(s, events) == Run(s, events)
    decreases |events|
  {
    if events != [] {
      WrapIsStep(s, events[0]);
      StepInv(s, events[0]);
      WrapRunIsRun(Step(s, events[0]), events[1..]);
    }
  }
}
