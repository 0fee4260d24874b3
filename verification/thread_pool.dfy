/**
 thread_pool of evenk/thread_pool.h: workers that take tasks from a queue until it is closed or
 the pool is stopped, and clients that submit tasks, stop the pool and wait for it.  The queue is
 one whose operations are atomic.  Tasks are numbered in the order in which they are accepted.
 */
module ThreadPool {
  import opened Bits

  const STOP_FLAG: nat := 1
  const WAIT_FLAG: nat := 2

  datatype WorkerPc = CheckStop | PopTask | RunTask(task: nat) | Exited

  // A client between operations, in close() before shutdown(), and in wait(): before taking
  // join_lock_, holding it, in the join loop, and after it.
  datatype ClientPc =
    | Outside
    | Shutdown(wait: bool)
    | JoinLock
    | JoinTest
    | Joining(index: nat)

  datatype TaskState = Queued | Started(worker: nat) | Done

  datatype Holder = Nobody | Client(client: nat)

  // `tasks`, `runs`, `joins` and `shutdowns` record what became of the tasks, how often each was
  // run, how often each worker was joined and how often the queue was closed; `waited` that some
  // wait() has returned.
  datatype State = State(
    flags: nat,
    queue: seq<nat>,
    closed: bool,
    joinLock: Holder,
    joinDone: bool,
    workers: seq<WorkerPc>,
    clients: seq<ClientPc>,
    tasks: seq<TaskState>,
    runs: seq<nat>,
    joins: seq<nat>,
    shutdowns: nat,
    waited: bool)

  datatype Event = Work(worker: nat) | Submit(client: nat) | Stop(client: nat) | Wait(client: nat) | Go(client: nat)

  function Init(workers: nat, clients: nat): State {
    State(0, [], false, Nobody, false, seq(workers, _ => CheckStop), seq(clients, _ => Outside), [], [],
          seq(workers, _ => 0), 0, false)
  }

  predicate Shape(s: State) {
    && |s.runs| == |s.tasks|
    && |s.joins| == |s.workers|
    && (forall w :: 0 <= w < |s.workers| && s.workers[w].RunTask? ==> s.workers[w].task < |s.tasks|)
    && (forall k :: 0 <= k < |s.queue| ==> s.queue[k] < |s.tasks|)
  }

  predicate Stopped(s: State) { And(s.flags, STOP_FLAG) != 0 }

  // ---------------------------------------------------------------------------
  // Workers

  function WorkStep(s: State, w: nat): State
    requires Shape(s) && w < |s.workers|
  {
    match s.workers[w]
    case CheckStop => s.(workers := s.workers[w := if Stopped(s) then Exited else PopTask])
    case PopTask =>
      if s.queue != [] then
        s.(queue := s.queue[1..],
           tasks := s.tasks[s.queue[0] := Started(w)],
           workers := s.workers[w := RunTask(s.queue[0])])
      else if s.closed then s.(workers := s.workers[w := Exited])
      else s
    case RunTask(k) =>
      s.(tasks := s.tasks[k := Done], runs := s.runs[k := s.runs[k] + 1], workers := s.workers[w := CheckStop])
    case Exited => s
  }

  // ---------------------------------------------------------------------------
  // Clients

  function SubmitTask(s: State): State {
    if s.closed then s
    else s.(queue := s.queue + [|s.tasks|], tasks := s.tasks + [Queued], runs := s.runs + [0])
  }

  // close(flag): flags_.fetch_or(flag)
  function RaiseFlag(s: State, c: nat, flag: nat): State
    requires c < |s.clients|
  {
    var next := if s.flags == 0 then Shutdown(flag == WAIT_FLAG) else if flag == WAIT_FLAG then JoinLock else Outside;
    s.(flags := Or(s.flags, flag), clients := s.clients[c := next])
  }

  function CloseQueue(s: State, c: nat): State
    requires c < |s.clients| && s.clients[c].Shutdown?
  {
    s.(closed := true, shutdowns := s.shutdowns + 1,
       clients := s.clients[c := if s.clients[c].wait then JoinLock else Outside])
  }

  function ReturnFromWait(s: State, c: nat): State
    requires c < |s.clients|
  {
    s.(joinLock := Nobody, waited := true, clients := s.clients[c := Outside])
  }

  function ClientStep(s: State, c: nat): State
    requires Shape(s) && c < |s.clients|
  {
    match s.clients[c]
    case Outside => s
    case Shutdown(_) => CloseQueue(s, c)
    case JoinLock =>
      if s.joinLock.Nobody? then s.(joinLock := Client(c), clients := s.clients[c := JoinTest]) else s
    case JoinTest => if s.joinDone then ReturnFromWait(s, c) else s.(clients := s.clients[c := Joining(0)])
    case Joining(i) =>
      if i < |s.workers| then
        if s.workers[i].Exited? then
          s.(joins := s.joins[i := s.joins[i] + 1], clients := s.clients[c := Joining(i + 1)])
        else s
      else ReturnFromWait(s, c).(joinDone := true)
  }

  function Step(s: State, e: Event): State
    requires Shape(s)
  {
    match e
    case Work(w) => if w < |s.workers| then WorkStep(s, w) else s
    case Submit(c) => if c < |s.clients| && s.clients[c].Outside? then SubmitTask(s) else s
    case Stop(c) => if c < |s.clients| && s.clients[c].Outside? then RaiseFlag(s, c, STOP_FLAG) else s
    case Wait(c) => if c < |s.clients| && s.clients[c].Outside? then RaiseFlag(s, c, WAIT_FLAG) else s
    case Go(c) => if c < |s.clients| then ClientStep(s, c) else s
  }

  // ---------------------------------------------------------------------------
  // The invariant

  predicate TaskInv(s: State, k: nat)
    requires Shape(s) && k < |s.tasks|
  {
    && (s.tasks[k].Queued? <==> |s.tasks| - |s.queue| <= k)
    && (s.tasks[k].Started? ==> s.tasks[k].worker < |s.workers| && s.workers[s.tasks[k].worker] == RunTask(k))
    && s.runs[k] == if s.tasks[k].Done? then 1 else 0
  }

  predicate WorkerInv(s: State, w: nat)
    requires Shape(s) && w < |s.workers|
  {
    && (s.workers[w].RunTask? ==> s.tasks[s.workers[w].task] == Started(w))
    && (s.workers[w].Exited? && !Stopped(s) ==> s.closed && s.queue == [])
  }

  // How many workers the one join loop of the pool has joined.
  function Joined(joinLock: Holder, joinDone: bool, clients: seq<ClientPc>, workers: nat): nat {
    if joinDone then workers
    else if joinLock.Client? && joinLock.client < |clients| && clients[joinLock.client].Joining? then
      clients[joinLock.client].index
    else 0
  }

  // join_lock_ is held by the client inside wait(), and the workers joined so far have exited.
  predicate JoinInv(joinLock: Holder, joinDone: bool, clients: seq<ClientPc>, workers: seq<WorkerPc>, joins: seq<nat>) {
    && |joins| == |workers|
    && (joinLock.Client? ==> joinLock.client < |clients|)
    && (forall c :: 0 <= c < |clients| ==> ((clients[c].JoinTest? || clients[c].Joining?) <==> joinLock == Client(c)))
    && (forall c :: 0 <= c < |clients| && clients[c].Joining? ==> !joinDone && clients[c].index <= |workers|)
    && (forall w :: 0 <= w < |workers| ==>
          joins[w] == if w < Joined(joinLock, joinDone, clients, |workers|) then 1 else 0)
    && (forall w :: 0 <= w < |workers| && joins[w] == 1 ==> workers[w].Exited?)
  }

  // The client that found no flag raised is the one that closes the queue.
  ghost predicate CloserInv(flags: nat, closed: bool, clients: seq<ClientPc>, shutdowns: nat) {
    && (forall c :: 0 <= c < |clients| && !clients[c].Outside? ==> flags != 0)
    && (forall c :: 0 <= c < |clients| && clients[c].Shutdown? ==> !closed)
    && (forall c, d :: 0 <= c < d < |clients| ==> !(clients[c].Shutdown? && clients[d].Shutdown?))
    && (flags != 0 ==> closed || exists c :: 0 <= c < |clients| && clients[c].Shutdown?)
    && (closed ==> flags != 0)
    && shutdowns == (if closed then 1 else 0)
  }

  // The queue holds the last tasks accepted, in order.
  predicate QueueInv(queue: seq<nat>, tasks: nat) {
    && |queue| <= tasks
    && (forall i :: 0 <= i < |queue| ==> queue[i] == tasks - |queue| + i)
  }

  ghost predicate Inv(s: State) {
    && Shape(s)
    && s.flags <= 3
    && QueueInv(s.queue, |s.tasks|)
    && (forall k: nat :: k < |s.tasks| ==> TaskInv(s, k))
    && (forall w: nat :: w < |s.workers| ==> WorkerInv(s, w))
    && JoinInv(s.joinLock, s.joinDone, s.clients, s.workers, s.joins)
    && CloserInv(s.flags, s.closed, s.clients, s.shutdowns)
    && (s.waited ==> s.joinDone)
  }
}
