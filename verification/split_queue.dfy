/**
 The critical sections of synch_queue, access by access.  locked_push tests closed_ and then appends;
 locked_pop tests whether the deque is empty, then tests closed_, or moves the first value out and
 then removes it.  A thread may be stopped between any two of these accesses; `stages` tells where.
 */
module SplitQueue {
  import opened Values
  import opened Synch
  import opened MonitorQueue
  import opened QueueSpec

  // What a thread has found out since it took the lock.
  datatype Stage =
    | Fresh
    | SawOpen                // locked_push: closed_ was false
    | SawValue               // locked_pop: the deque was not empty
    | SawEmpty               // locked_pop: the deque was empty
    | Moved(value: Value)    // locked_pop: the value moved out of the front

  datatype SplitState = SplitState(q: QueueState, stages: seq<Stage>)

  predicate SplitShape(s: SplitState) { QueueShape(s.q) && |s.stages| == |s.q.roles| }

  function SplitInit(threads: nat): SplitState {
    SplitState(QueueInit(threads), seq(threads, _ => Fresh))
  }

  function At(s: SplitState, t: nat, stage: Stage): SplitState
    requires t < |s.stages|
  {
    s.(stages := s.stages[t := stage])
  }

  function PushStep(s: SplitState, t: nat, v: Value): SplitState
    requires SplitShape(s) && t < |s.stages|
  {
    match s.stages[t]
    case Fresh =>
      if s.q.closed then s.(q := Become(s.q, t, Leaver(WasClosed))) else At(s, t, SawOpen)
    case SawOpen =>
      At(s, t, Fresh).(q := Become(s.q, t, Notifier(false)).(queue := s.q.queue + [v], taken := s.q.taken + [v]))
    case _ => s
  }

  // The front of an empty deque does not exist: there the thread is stuck.
  function PopStep(s: SplitState, t: nat, wait: bool): SplitState
    requires SplitShape(s) && t < |s.stages|
  {
    match s.stages[t]
    case Fresh => At(s, t, if s.q.queue == [] then SawEmpty else SawValue)
    case SawEmpty =>
      var next := if s.q.closed then Leaver(WasClosed) else if wait then Waiter else Leaver(WasEmpty);
      At(s, t, Fresh).(q := Become(s.q, t, next))
    case SawValue => if s.q.queue == [] then s else At(s, t, Moved(s.q.queue[0]))
    case Moved(v) =>
      var rest := if s.q.queue == [] then [] else s.q.queue[1..];
      At(s, t, Fresh).(q := Become(s.q, t, Leaver(Got(v))).(queue := rest, given := s.q.given + [v]))
    case SawOpen => s
  }

  function SplitStep(s: SplitState, o: Order): (r: SplitState)
    requires SplitShape(s)
    ensures SplitShape(r) && |r.stages| == |s.stages|
  {
    var t := o.thread;
    if t < |s.stages| && s.q.base.pcs[t].Held? then
      match s.q.roles[t]
      case Pusher(v) => PushStep(s, t, v)
      case Popper(_) => PopStep(s, t, true)
      case Taster => PopStep(s, t, false)
      case _ => s.(q := QueueStep(s.q, o))
    else s.(q := QueueStep(s.q, o))
  }

  // ---------------------------------------------------------------------------
  // The invariant

  // What a thread in the middle of its section has found out still holds.
  predicate StageFits(stage: Stage, role: Role, pc: Pc<nat>, queue: seq<Value>, closed: bool) {
    match stage
    case Fresh => true
    case SawOpen => pc.Held? && role.Pusher? && !closed
    case SawValue => pc.Held? && (role.Popper? || role.Taster?) && queue != []
    case SawEmpty => pc.Held? && (role.Popper? || role.Taster?) && queue == []
    case Moved(v) => pc.Held? && (role.Popper? || role.Taster?) && queue != [] && queue[0] == v
  }

  predicate StageInv(s: SplitState, t: nat)
    requires SplitShape(s) && t < |s.stages|
  {
    StageFits(s.stages[t], s.q.roles[t], s.q.base.pcs[t], s.q.queue, s.q.closed)
  }

  ghost predicate SplitInv(s: SplitState) {
    && SplitShape(s)
    && QueueInv(s.q)
    && (forall t: nat :: t < |s.stages| ==> StageInv(s, t))
  }
}
