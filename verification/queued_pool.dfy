/**
 The thread pool of evenk/thread_pool.h over the monitor queue: workers block in wait_pop, submit
 calls push and shutdown calls close, access by access.  Worker w is thread w of the queue, client c
 is thread |workers| + c.
 */
module QueuedPool {
  import opened Values
  import opened Bits
  import opened Synch
  import opened MonitorQueue
  import opened QueueSpec
  import opened SplitQueue
  import opened SplitQueueTheorems
  import Pool = ThreadPool

  // A worker before the test of its loop, inside wait_pop, with a task in its hands, or gone.
  datatype WorkerAt = AtTest | InPop | AtTask(number: nat, task: Value) | Gone

  // A client between operations, inside push, before and inside the close of shutdown(), and in
  // wait(): before taking join_lock_, holding it, and in the join loop.
  datatype ClientAt =
    | Idle
    | InPush
    | ToClose(wait: bool)
    | InClose(wait: bool)
    | AtLock
    | AtJoinTest
    | AtJoin(index: nat)

  // The records: `numbers` are the numbers of the tasks that the workers took last, `takers` who
  // took each task, `runs` how often each was run, in the order in which the queue accepted them;
  // `ran` the tasks run, in that order; the others as in the pool with an atomic queue.
  datatype PoolState = PoolState(
    queue: SplitState,
    flags: nat,
    joinLock: Pool.Holder,
    joinDone: bool,
    workers: seq<WorkerAt>,
    clients: seq<ClientAt>,
    numbers: seq<nat>,
    takers: seq<nat>,
    runs: seq<nat>,
    ran: seq<Value>,
    joins: seq<nat>,
    shutdowns: nat,
    waited: bool)

  datatype Request = Submit(task: Value) | Stop | Wait | Continue

  // `flag` and `other` are the choices of the backoff policy and of the kernel.
  datatype PoolEvent =
    | Worker(worker: nat, flag: bool, other: nat)
    | Client(client: nat, request: Request, flag: bool, other: nat)

  function PoolInit(workers: nat, clients: nat): PoolState {
    PoolState(SplitInit(workers + clients), 0, Pool.Nobody, false, seq(workers, _ => AtTest), seq(clients, _ => Idle),
              seq(workers, _ => 0), [], [], [], seq(workers, _ => 0), 0, false)
  }

  predicate PoolShape(s: PoolState) {
    && SplitShape(s.queue)
    && |s.queue.stages| == |s.workers| + |s.clients|
    && |s.numbers| == |s.joins| == |s.workers|
    && |s.runs| == |s.queue.q.taken|
    && |s.takers| == |s.queue.q.given|
    && (forall w :: 0 <= w < |s.workers| && s.workers[w].AtTask? ==> s.workers[w].number < |s.runs|)
  }

  // ---------------------------------------------------------------------------
  // Steps

  predicate Accepts(ops: seq<Op>) { |ops| == 1 && ops[0].call.Push? && ops[0].result.Pushed? }

  predicate Takes(ops: seq<Op>) { |ops| == 1 && ops[0].result.Got? }

  predicate Closes(ops: seq<Op>) { |ops| == 1 && ops[0].call.Close? }

  // Thread t has made an access to the queue, which is now `next`; what took effect is recorded.
  function Used(s: PoolState, next: SplitState, t: nat, ops: seq<Op>): PoolState {
    s.(queue := next,
       runs := if Accepts(ops) then s.runs + [0] else s.runs,
       takers := if Takes(ops) then s.takers + [t] else s.takers,
       numbers := if Takes(ops) && t < |s.numbers| then s.numbers[t := |s.takers|] else s.numbers,
       shutdowns := if Closes(ops) then s.shutdowns + 1 else s.shutdowns)
  }

  // Where a worker is after an access inside wait_pop.
  function AfterPop(pc: Pc<nat>, role: Role, number: nat): WorkerAt {
    if !pc.Out? then InPop
    else match role
      case Leaver(result) =>
        (match result
         case Got(task) => AtTask(number, task)
         case WasClosed => Gone
         case _ => AtTest)
      case _ => AtTest
  }

  function PopUsed(s: PoolState, next: SplitState, w: nat, ops: seq<Op>): PoolState
    requires PoolShape(s) && w < |s.workers| && SplitShape(next) && |next.stages| == |s.queue.stages|
  {
    var r := Used(s, next, w, ops);
    r.(workers := s.workers[w := AfterPop(next.q.base.pcs[w], next.q.roles[w], r.numbers[w])])
  }

  function UsePop(s: PoolState, w: nat, o: Order): PoolState
    requires PoolShape(s) && w < |s.workers|
  {
    PopUsed(s, SplitStep(s.queue, o), w, Commit(s.queue, o))
  }

  predicate Stopped(s: PoolState) { And(s.flags, Pool.STOP_FLAG) != 0 }

  function WorkerStep(s: PoolState, w: nat, flag: bool, other: nat): PoolState
    requires PoolShape(s) && w < |s.workers|
  {
    match s.workers[w]
    case AtTest =>
      if Stopped(s) then s.(workers := s.workers[w := Gone])
      else UsePop(s, w, Order(w, WaitPop, other))
    case InPop => UsePop(s, w, Order(w, Proceed(flag), other))
    case AtTask(k, task) =>
      s.(runs := s.runs[k := s.runs[k] + 1], ran := s.ran + [task], workers := s.workers[w := AtTest])
    case Gone => s
  }

  // Client c makes an access to the queue, and then is `inside` or at `done`.
  function ClientUsed(s: PoolState, next: SplitState, c: nat, ops: seq<Op>, inside: ClientAt, done: ClientAt): PoolState
    requires PoolShape(s) && c < |s.clients| && SplitShape(next) && |next.stages| == |s.queue.stages|
  {
    var t := |s.workers| + c;
    Used(s, next, t, ops).(clients := s.clients[c := if next.q.base.pcs[t].Out? then done else inside])
  }

  function UseQueue(s: PoolState, c: nat, o: Order, inside: ClientAt, done: ClientAt): PoolState
    requires PoolShape(s) && c < |s.clients|
  {
    ClientUsed(s, SplitStep(s.queue, o), c, Commit(s.queue, o), inside, done)
  }

  function RaiseFlag(s: PoolState, c: nat, flag: nat): PoolState
    requires c < |s.clients|
  {
    var next :=
      if s.flags == 0 then ToClose(flag == Pool.WAIT_FLAG) else if flag == Pool.WAIT_FLAG then AtLock else Idle;
    s.(flags := Or(s.flags, flag), clients := s.clients[c := next])
  }

  function LeaveWait(s: PoolState, c: nat): PoolState
    requires c < |s.clients|
  {
    s.(joinLock := Pool.Nobody, waited := true, clients := s.clients[c := Idle])
  }

  function Closed(wait: bool): ClientAt { if wait then AtLock else Idle }

  // The client is at the queue, or is about to enter it.
  predicate AtQueue(at: ClientAt, request: Request) {
    at.InPush? || at.ToClose? || at.InClose? || (at.Idle? && request.Submit?)
  }

  function CallMade(at: ClientAt, request: Request, flag: bool): Call {
    if at.Idle? && request.Submit? then Push(request.task) else if at.ToClose? then Close else Proceed(flag)
  }

  function AtWork(at: ClientAt): ClientAt {
    if at.ToClose? || at.InClose? then InClose(at.wait) else InPush
  }

  function AtEnd(at: ClientAt): ClientAt {
    if at.ToClose? || at.InClose? then Closed(at.wait) else Idle
  }

  function LocalStep(s: PoolState, c: nat, request: Request): PoolState
    requires PoolShape(s) && c < |s.clients|
  {
    match s.clients[c]
    case Idle =>
      if request.Stop? then RaiseFlag(s, c, Pool.STOP_FLAG)
      else if request.Wait? then RaiseFlag(s, c, Pool.WAIT_FLAG)
      else s
    case AtLock =>
      if s.joinLock.Nobody? then s.(joinLock := Pool.Client(c), clients := s.clients[c := AtJoinTest]) else s
    case AtJoinTest => if s.joinDone then LeaveWait(s, c) else s.(clients := s.clients[c := AtJoin(0)])
    case AtJoin(i) =>
      if i >= |s.workers| then LeaveWait(s, c).(joinDone := true)
      else if s.workers[i].Gone? then
        s.(joins := s.joins[i := s.joins[i] + 1], clients := s.clients[c := AtJoin(i + 1)])
      else s
    case _ => s
  }

  function ClientStep(s: PoolState, c: nat, request: Request, flag: bool, other: nat): PoolState
    requires PoolShape(s) && c < |s.clients|
  {
    var at := s.clients[c];
    if AtQueue(at, request) then
      UseQueue(s, c, Order(|s.workers| + c, CallMade(at, request, flag), other), AtWork(at), AtEnd(at))
    else LocalStep(s, c, request)
  }

  function PoolStep(s: PoolState, e: PoolEvent): PoolState
    requires PoolShape(s)
  {
    match e
    case Worker(w, flag, other) => if w < |s.workers| then WorkerStep(s, w, flag, other) else s
    case Client(c, request, flag, other) => if c < |s.clients| then ClientStep(s, c, request, flag, other) else s
  }

  // ---------------------------------------------------------------------------
  // The pool with an atomic queue

  // A worker inside wait_pop has its answer as soon as its call takes effect, before it returns.
  function AbsWorker(at: WorkerAt, role: Role, number: nat): Pool.WorkerPc {
    match at
    case AtTest => Pool.CheckStop
    case InPop =>
      if !Answered(role) then Pool.PopTask
      else if ResultOf(role).Got? then Pool.RunTask(number)
      else Pool.Exited
    case AtTask(k, _) => Pool.RunTask(k)
    case Gone => Pool.Exited
  }

  function AbsClient(at: ClientAt, role: Role): Pool.ClientPc {
    match at
    case Idle => Pool.Outside
    case InPush => Pool.Outside
    case ToClose(wait) => Pool.Shutdown(wait)
    case InClose(wait) =>
      if !Answered(role) then Pool.Shutdown(wait) else if wait then Pool.JoinLock else Pool.Outside
    case AtLock => Pool.JoinLock
    case AtJoinTest => Pool.JoinTest
    case AtJoin(i) => Pool.Joining(i)
  }

  function AbsTask(k: nat, given: nat, runs: nat, taker: nat): Pool.TaskState {
    if k >= given then Pool.Queued else if runs > 0 then Pool.Done else Pool.Started(taker)
  }

  function AbsQueue(given: nat, taken: nat): (ids: seq<nat>)
    requires given <= taken
    ensures |ids| == taken - given && forall i :: 0 <= i < |ids| ==> ids[i] == given + i
  {
    seq(taken - given, (i: nat) => given + i)
  }

  function AbsTasks(s: PoolState): (r: seq<Pool.TaskState>)
    requires PoolShape(s)
    ensures |r| == |s.runs|
    ensures forall k :: 0 <= k < |r| ==>
              r[k] == AbsTask(k, |s.takers|, s.runs[k], if k < |s.takers| then s.takers[k] else 0)
  {
    seq(|s.runs|, (k: nat) requires k < |s.runs| =>
      AbsTask(k, |s.takers|, s.runs[k], if k < |s.takers| then s.takers[k] else 0))
  }

  function AbsWorkers(s: PoolState): (r: seq<Pool.WorkerPc>)
    requires PoolShape(s)
    ensures |r| == |s.workers|
    ensures forall w :: 0 <= w < |r| ==> r[w] == AbsWorker(s.workers[w], s.queue.q.roles[w], s.numbers[w])
  {
    seq(|s.workers|, (w: nat) requires w < |s.workers| => AbsWorker(s.workers[w], s.queue.q.roles[w], s.numbers[w]))
  }

  function AbsClients(s: PoolState): (r: seq<Pool.ClientPc>)
    requires PoolShape(s)
    ensures |r| == |s.clients|
    ensures forall c :: 0 <= c < |r| ==> r[c] == AbsClient(s.clients[c], s.queue.q.roles[|s.workers| + c])
  {
    seq(|s.clients|, (c: nat) requires c < |s.clients| => AbsClient(s.clients[c], s.queue.q.roles[|s.workers| + c]))
  }

  function Abs(s: PoolState): Pool.State
    requires PoolShape(s) && |s.takers| <= |s.runs|
  {
    Pool.State(s.flags, AbsQueue(|s.takers|, |s.runs|), s.queue.q.closed, s.joinLock, s.joinDone,
               AbsWorkers(s), AbsClients(s), AbsTasks(s), s.runs, s.joins, s.shutdowns, s.waited)
  }

  // ---------------------------------------------------------------------------
  // The invariant

  // The numbers of the tasks go with their values.
  predicate Numbered(given: seq<Value>, number: nat, task: Value) { number < |given| && given[number] == task }

  predicate WorkerFits(at: WorkerAt, pc: Pc<nat>, role: Role, number: nat, given: seq<Value>) {
    && (at.InPop? <==> !pc.Out?)
    && (at.InPop? ==>
          || (Asking(role) && CallOf(role).WaitPop?)
          || (Answered(role) && (ResultOf(role).WasClosed? ||
               (ResultOf(role).Got? && Numbered(given, number, ResultOf(role).value)))))
    && (at.AtTask? ==> Numbered(given, at.number, at.task))
  }

  predicate ClientFits(at: ClientAt, pc: Pc<nat>, role: Role) {
    && (at.InPush? || at.InClose? <==> !pc.Out?)
    && (at.InPush? ==> Answered(role) || (Asking(role) && CallOf(role).Push?))
    && (at.InClose? ==> Answered(role) || (Asking(role) && CallOf(role).Close?))
  }

  predicate WorkerOk(s: PoolState, w: nat)
    requires PoolShape(s) && w < |s.workers|
  {
    WorkerFits(s.workers[w], s.queue.q.base.pcs[w], s.queue.q.roles[w], s.numbers[w], s.queue.q.given)
  }

  predicate ClientOk(s: PoolState, c: nat)
    requires PoolShape(s) && c < |s.clients|
  {
    ClientFits(s.clients[c], s.queue.q.base.pcs[|s.workers| + c], s.queue.q.roles[|s.workers| + c])
  }

  // The values accepted are those handed out and those queued.
  predicate Balanced(q: SplitState) { q.q.taken == q.q.given + q.q.queue }

  ghost predicate PoolOk(s: PoolState) {
    && PoolShape(s)
    && Balanced(s.queue)
    && (forall w: nat :: w < |s.workers| ==> WorkerOk(s, w))
    && (forall c: nat :: c < |s.clients| ==> ClientOk(s, c))
  }

  ghost predicate PoolInv(s: PoolState) { SplitInv(s.queue) && PoolOk(s) && Pool.Inv(Abs(s)) }
}
