/** Every step of the pool over the monitor queue is a step of the pool with an atomic queue. */
module QueuedPoolInv {
  import opened Values
  import opened Synch
  import opened SynchInv
  import opened MonitorQueue
  import opened QueueSpec
  import opened MonitorQueueTheorems
  import opened SplitQueue
  import opened SplitQueueTheorems
  import opened QueuedPool
  import Pool = ThreadPool
  import PoolTheorems = ThreadPoolTheorems

  // ---------------------------------------------------------------------------
  // What an access to the queue does

  ghost predicate Effect(q: SplitState, r: SplitState, t: nat, ops: seq<Op>) {
    && SplitShape(q) && SplitShape(r) && Balanced(q) && Balanced(r) && |r.stages| == |q.stages| && t < |q.stages|
    && (ops == [] ==> r.q.closed == q.q.closed)
    && (ops != [] ==> Fits(Contents(q), ops[0]) && r.q.closed == After(Contents(q), ops[0].call).closed)
    && |ops| <= 1
    && r.q.taken == (if Accepts(ops) then q.q.taken + [ops[0].call.value] else q.q.taken)
    && r.q.given == (if Takes(ops) then q.q.given + [ops[0].result.value] else q.q.given)
    && (forall u :: 0 <= u < |q.stages| && u != t ==>
          r.q.roles[u] == q.q.roles[u] && (r.q.base.pcs[u].Out? <==> q.q.base.pcs[u].Out?))
    && (r.q.base.pcs[t].Out? ==> r.q.roles[t].Nobody? || r.q.roles[t].Leaver?)
  }

  lemma OthersStayInside(q: SplitState, o: Order, u: nat)
    requires SplitInv(q) && u < |q.stages| && u != o.thread
    ensures SplitStep(q, o).q.base.pcs[u].Out? <==> q.q.base.pcs[u].Out?
  {
    SplitRefines(q, o);
    if o.thread < |q.stages| {
      AccessOfStep(q.q, o);
      OutStaysOut(q.q.base, QueueEvent(q.q, o), u);
    }
  }

  lemma OutStaysOut(s: State, e: Event, u: nat)
    requires u < |s.pcs| && u != e.thread
    ensures Step(s, e).pcs[u].Out? <==> s.pcs[u].Out?
  {
    if e.thread < |s.pcs| && !s.pcs[e.thread].UnWake? && !s.pcs[e.thread].NotifyWake? { OneMoves(s, e); }
  }

  lemma StepEffect(q: SplitState, o: Order)
    requires SplitInv(q) && o.thread < |q.stages|
    ensures Effect(q, SplitStep(q, o), o.thread, Commit(q, o))
  {
    var r, ops := SplitStep(q, o), Commit(q, o);
    SplitStepInv(q, o);
    CommitFits(q, o);
    CommitLedger(q, o);
    AnsweredReturns(r, o, o.thread);
    assert ops != [] ==> ops == [ops[0]];
    forall u: nat | u < |q.stages| && u != o.thread
      ensures r.q.roles[u] == q.q.roles[u] && (r.q.base.pcs[u].Out? <==> q.q.base.pcs[u].Out?)
    {
      AnsweredReturns(q, o, u);
      OthersStayInside(q, o, u);
    }
  }

  // ---------------------------------------------------------------------------
  // Workers

  lemma Lengths(s: PoolState)
    requires PoolShape(s) && Balanced(s.queue)
    ensures |s.runs| == |s.takers| + |s.queue.q.queue|
  {
  }

  // A worker enters wait_pop or goes on inside it.
  ghost predicate WorkerUse(s: PoolState, next: SplitState, w: nat, ops: seq<Op>) {
    && PoolOk(s) && w < |s.workers| && Effect(s.queue, next, w, ops)
    && var role, pc := next.q.roles[w], next.q.base.pcs[w];
       || (s.workers[w].AtTest? && !Stopped(s) && ops == [] && !pc.Out? && Asking(role) && CallOf(role).WaitPop?)
       || (s.workers[w].InPop? && RoleGoes(s.queue.q.roles[w], role, w, ops))
  }

  lemma WorkerUseShape(s: PoolState, next: SplitState, w: nat, ops: seq<Op>)
    requires WorkerUse(s, next, w, ops)
    ensures PoolShape(PopUsed(s, next, w, ops)) && WorkerOk(PopUsed(s, next, w, ops), w)
  {
    var r := PopUsed(s, next, w, ops);
    Lengths(s);
    assert WorkerOk(s, w);
    assert PoolShape(r);
    Lengths(r);
  }

  lemma WorkerUseOthers(s: PoolState, next: SplitState, w: nat, ops: seq<Op>)
    requires WorkerUse(s, next, w, ops) && PoolShape(PopUsed(s, next, w, ops))
    ensures var r := PopUsed(s, next, w, ops);
            && (forall v: nat :: v < |r.workers| && v != w ==> WorkerOk(r, v))
            && (forall c: nat :: c < |r.clients| ==> ClientOk(r, c))
  {
    var r := PopUsed(s, next, w, ops);
    forall v: nat | v < |r.workers| && v != w ensures WorkerOk(r, v) {
      assert WorkerOk(s, v);
    }
    forall c: nat | c < |r.clients| ensures ClientOk(r, c) {
      assert ClientOk(s, c);
    }
  }

  lemma WorkerUseOk(s: PoolState, next: SplitState, w: nat, ops: seq<Op>)
    requires WorkerUse(s, next, w, ops)
    ensures PoolOk(PopUsed(s, next, w, ops))
  {
    WorkerUseShape(s, next, w, ops);
    WorkerUseOthers(s, next, w, ops);
  }

  // A client enters push or close, or goes on inside it.
  ghost predicate ClientUse(s: PoolState, next: SplitState, c: nat, ops: seq<Op>, inside: ClientAt, done: ClientAt) {
    && PoolOk(s) && c < |s.clients| && Effect(s.queue, next, |s.workers| + c, ops)
    && (inside.InPush? || inside.InClose?)
    && done == (if inside.InPush? then Idle else Closed(inside.wait))
    && var role, pc := next.q.roles[|s.workers| + c], next.q.base.pcs[|s.workers| + c];
       || (s.clients[c] == (if inside.InPush? then Idle else ToClose(inside.wait)) && ops == [] && !pc.Out?
           && Asking(role) && (if inside.InPush? then CallOf(role).Push? else CallOf(role).Close?))
       || (s.clients[c] == inside && RoleGoes(s.queue.q.roles[|s.workers| + c], role, |s.workers| + c, ops))
  }

  lemma ClientUseShape(s: PoolState, next: SplitState, c: nat, ops: seq<Op>, inside: ClientAt, done: ClientAt)
    requires ClientUse(s, next, c, ops, inside, done)
    ensures var r := ClientUsed(s, next, c, ops, inside, done); PoolShape(r) && Balanced(r.queue)
    ensures !Takes(ops)
  {
    var r := ClientUsed(s, next, c, ops, inside, done);
    assert ClientOk(s, c);
    Lengths(s);
    assert PoolShape(r);
    Lengths(r);
  }

  lemma ClientUseOk(s: PoolState, next: SplitState, c: nat, ops: seq<Op>, inside: ClientAt, done: ClientAt)
    requires ClientUse(s, next, c, ops, inside, done)
    ensures PoolOk(ClientUsed(s, next, c, ops, inside, done))
  {
    var r := ClientUsed(s, next, c, ops, inside, done);
    ClientUseShape(s, next, c, ops, inside, done);
    forall v: nat | v < |r.workers| ensures WorkerOk(r, v) { assert WorkerOk(s, v); }
    forall d: nat | d < |r.clients| ensures ClientOk(r, d) { assert ClientOk(s, d); }
  }

  // ---------------------------------------------------------------------------
  // What it is in the pool with an atomic queue

  lemma OtherWorkers(s: PoolState, r: PoolState, t: nat)
    requires PoolShape(s) && PoolShape(r) && r.workers == s.workers && |r.clients| == |s.clients|
    requires r.numbers == s.numbers
    requires |s.workers| <= t
    requires forall u :: 0 <= u < |s.queue.stages| && u != t ==> r.queue.q.roles[u] == s.queue.q.roles[u]
    ensures AbsWorkers(r) == AbsWorkers(s)
  {
  }

  lemma OtherClients(s: PoolState, r: PoolState, t: nat)
    requires PoolShape(s) && PoolShape(r) && r.clients == s.clients && |r.workers| == |s.workers| && t < |s.workers|
    requires forall u :: 0 <= u < |s.queue.stages| && u != t ==> r.queue.q.roles[u] == s.queue.q.roles[u]
    ensures AbsClients(r) == AbsClients(s)
  {
  }

  lemma OneWorker(s: PoolState, r: PoolState, w: nat)
    requires PoolShape(s) && PoolShape(r) && w < |s.workers| == |r.workers| && |r.clients| == |s.clients|
    requires forall v :: 0 <= v < |s.workers| && v != w ==> r.workers[v] == s.workers[v] && r.numbers[v] == s.numbers[v]
    requires forall u :: 0 <= u < |s.queue.stages| && u != w ==> r.queue.q.roles[u] == s.queue.q.roles[u]
    ensures AbsWorkers(r) == AbsWorkers(s)[w := AbsWorker(r.workers[w], r.queue.q.roles[w], r.numbers[w])]
  {
  }

  lemma OneClient(s: PoolState, r: PoolState, c: nat)
    requires PoolShape(s) && PoolShape(r) && c < |s.clients| == |r.clients| && |r.workers| == |s.workers|
    requires forall d :: 0 <= d < |s.clients| && d != c ==> r.clients[d] == s.clients[d]
    requires forall u :: 0 <= u < |s.queue.stages| && u != |s.workers| + c ==> r.queue.q.roles[u] == s.queue.q.roles[u]
    ensures AbsClients(r) == AbsClients(s)[c := AbsClient(r.clients[c], r.queue.q.roles[|s.workers| + c])]
  {
  }

  // A worker takes the first task of the queue.
  lemma TookTasks(s: PoolState, r: PoolState, w: nat)
    requires PoolShape(s) && PoolShape(r) && |s.takers| < |s.runs| && r.runs == s.runs && r.takers == s.takers + [w]
    requires s.runs[|s.takers|] == 0
    ensures AbsQueue(|s.takers|, |s.runs|)[0] == |s.takers|
    ensures AbsQueue(|r.takers|, |r.runs|) == AbsQueue(|s.takers|, |s.runs|)[1..]
    ensures AbsTasks(r) == AbsTasks(s)[|s.takers| := Pool.Started(w)]
  {
  }

  // The pool with an atomic queue has all it needs to take a step.
  lemma AbsShape(s: PoolState)
    requires PoolOk(s)
    ensures Pool.Shape(Abs(s))
  {
    var a := Abs(s);
    forall w: nat | w < |a.workers| && a.workers[w].RunTask? ensures a.workers[w].task < |a.tasks| {
      assert WorkerOk(s, w);
    }
  }

  // Where the worker is in the pool with an atomic queue, before and after an access.
  lemma WorkerGoes(role: Role, next: Role, pc: Pc<nat>, w: nat, ops: seq<Op>, number: nat)
    requires RoleGoes(role, next, w, ops) && (pc.Out? ==> next.Leaver?)
    requires Asking(role) ==> CallOf(role).WaitPop?
    requires Answered(role) ==> ResultOf(role).WasClosed? || ResultOf(role).Got?
    requires ops != [] ==> ops[0].result.WasClosed? || ops[0].result.Got?
    ensures AbsWorker(AfterPop(pc, next, number), next, number) ==
              if ops == [] then AbsWorker(InPop, role, number)
              else if Takes(ops) then Pool.RunTask(number)
              else Pool.Exited
  {
  }

  lemma UseFits(s: PoolState, next: SplitState, w: nat, ops: seq<Op>)
    requires WorkerUse(s, next, w, ops)
    ensures ops != [] ==>
              && s.workers[w].InPop? && |ops| == 1 && ops[0].call.WaitPop?
              && (ops[0].result.WasClosed? || ops[0].result.Got?)
              && AbsWorker(InPop, s.queue.q.roles[w], s.numbers[w]) == Pool.PopTask
              && (if Takes(ops) then s.queue.q.queue != [] else s.queue.q.queue == [] && s.queue.q.closed)
              && next.q.closed == s.queue.q.closed
    ensures !s.workers[w].AtTest? ==>
              AbsWorker(PopUsed(s, next, w, ops).workers[w], next.q.roles[w], PopUsed(s, next, w, ops).numbers[w]) ==
              if ops == [] then AbsWorker(InPop, s.queue.q.roles[w], s.numbers[w])
              else if Takes(ops) then Pool.RunTask(|s.takers|)
              else Pool.Exited
  {
    assert WorkerOk(s, w);
    if !s.workers[w].AtTest? {
      WorkerGoes(s.queue.q.roles[w], next.q.roles[w], next.q.base.pcs[w], w, ops, PopUsed(s, next, w, ops).numbers[w]);
    }
  }

  lemma TookAbs(s: PoolState, next: SplitState, w: nat, ops: seq<Op>)
    requires WorkerUse(s, next, w, ops) && Takes(ops)
    requires |s.takers| < |s.runs| ==> s.runs[|s.takers|] == 0
    ensures PoolOk(PopUsed(s, next, w, ops)) && Pool.Shape(Abs(s))
    ensures Abs(PopUsed(s, next, w, ops)) == Pool.WorkStep(Abs(s), w)
  {
    var r := PopUsed(s, next, w, ops);
    WorkerUseOk(s, next, w, ops);
    AbsShape(s);
    Lengths(s);
    UseFits(s, next, w, ops);
    OneWorker(s, r, w);
    OtherClients(s, r, w);
    TookTasks(s, r, w);
  }

  lemma RefusedAbs(s: PoolState, next: SplitState, w: nat, ops: seq<Op>)
    requires WorkerUse(s, next, w, ops) && ops != [] && !Takes(ops)
    ensures PoolOk(PopUsed(s, next, w, ops)) && Pool.Shape(Abs(s))
    ensures Abs(PopUsed(s, next, w, ops)) == Pool.WorkStep(Abs(s), w)
  {
    var r := PopUsed(s, next, w, ops);
    WorkerUseOk(s, next, w, ops);
    AbsShape(s);
    Lengths(s);
    UseFits(s, next, w, ops);
    OneWorker(s, r, w);
    OtherClients(s, r, w);
    assert AbsTasks(r) == AbsTasks(s);
  }

  lemma QuietAbs(s: PoolState, next: SplitState, w: nat, ops: seq<Op>)
    requires WorkerUse(s, next, w, ops) && ops == []
    ensures PoolOk(PopUsed(s, next, w, ops)) && Pool.Shape(Abs(s))
    ensures Abs(PopUsed(s, next, w, ops)) == if s.workers[w].AtTest? then Pool.WorkStep(Abs(s), w) else Abs(s)
  {
    var r := PopUsed(s, next, w, ops);
    WorkerUseOk(s, next, w, ops);
    AbsShape(s);
    UseFits(s, next, w, ops);
    OneWorker(s, r, w);
    OtherClients(s, r, w);
    assert AbsTasks(r) == AbsTasks(s);
    assert AbsWorkers(s)[w := AbsWorkers(s)[w]] == AbsWorkers(s);
  }

  // A client's task is accepted.
  lemma AcceptedTasks(s: PoolState, r: PoolState)
    requires PoolShape(s) && PoolShape(r) && |s.takers| <= |s.runs| && r.takers == s.takers && r.runs == s.runs + [0]
    ensures AbsQueue(|r.takers|, |r.runs|) == AbsQueue(|s.takers|, |s.runs|) + [|s.runs|]
    ensures AbsTasks(r) == AbsTasks(s) + [Pool.Queued]
  {
  }

  lemma ClientFitsUse(s: PoolState, next: SplitState, c: nat, ops: seq<Op>, inside: ClientAt, done: ClientAt)
    requires ClientUse(s, next, c, ops, inside, done)
    ensures var r := ClientUsed(s, next, c, ops, inside, done);
            var t := |s.workers| + c;
            && AbsClient(r.clients[c], next.q.roles[t]) ==
               (if ops == [] || inside.InPush? then AbsClient(s.clients[c], s.queue.q.roles[t])
                else if inside.wait then Pool.JoinLock else Pool.Outside)
            && (ops != [] ==>
                  && |ops| == 1 && !Takes(ops)
                  && AbsClient(s.clients[c], s.queue.q.roles[t])
                     == (if inside.InPush? then Pool.Outside else Pool.Shutdown(inside.wait))
                  && Closes(ops) == inside.InClose?
                  && (Accepts(ops) <==> inside.InPush? && !s.queue.q.closed)
                  && next.q.closed == (s.queue.q.closed || inside.InClose?))
  {
    assert ClientOk(s, c);
  }

  lemma ClientQuietAbs(s: PoolState, next: SplitState, c: nat, inside: ClientAt, done: ClientAt)
    requires ClientUse(s, next, c, [], inside, done)
    ensures PoolOk(ClientUsed(s, next, c, [], inside, done)) && Abs(ClientUsed(s, next, c, [], inside, done)) == Abs(s)
  {
    var r := ClientUsed(s, next, c, [], inside, done);
    ClientUseOk(s, next, c, [], inside, done);
    ClientFitsUse(s, next, c, [], inside, done);
    OtherWorkers(s, r, |s.workers| + c);
    OneClient(s, r, c);
    assert AbsTasks(r) == AbsTasks(s);
    assert AbsClients(s)[c := AbsClients(s)[c]] == AbsClients(s);
  }

  lemma ClientCommitAbs(s: PoolState, next: SplitState, c: nat, ops: seq<Op>, inside: ClientAt, done: ClientAt)
    requires ClientUse(s, next, c, ops, inside, done) && ops != []
    ensures PoolOk(ClientUsed(s, next, c, ops, inside, done)) && Pool.Shape(Abs(s))
    ensures Abs(ClientUsed(s, next, c, ops, inside, done)) ==
              Pool.Step(Abs(s), if inside.InPush? then Pool.Submit(c) else Pool.Go(c))
  {
    var r := ClientUsed(s, next, c, ops, inside, done);
    ClientUseOk(s, next, c, ops, inside, done);
    AbsShape(s);
    ClientFitsUse(s, next, c, ops, inside, done);
    OtherWorkers(s, r, |s.workers| + c);
    OneClient(s, r, c);
    if Accepts(ops) { AcceptedTasks(s, r); } else { assert AbsTasks(r) == AbsTasks(s); }
    assert AbsClients(s)[c := AbsClients(s)[c]] == AbsClients(s);
  }

  lemma ClientUseAbs(s: PoolState, next: SplitState, c: nat, ops: seq<Op>, inside: ClientAt, done: ClientAt)
    requires ClientUse(s, next, c, ops, inside, done)
    ensures PoolOk(ClientUsed(s, next, c, ops, inside, done)) && Pool.Shape(Abs(s))
    ensures Abs(ClientUsed(s, next, c, ops, inside, done)) ==
              if ops == [] then Abs(s) else Pool.Step(Abs(s), if inside.InPush? then Pool.Submit(c) else Pool.Go(c))
  {
    AbsShape(s);
    if ops == [] {
      ClientQuietAbs(s, next, c, inside, done);
    } else {
      ClientCommitAbs(s, next, c, ops, inside, done);
    }
  }

  // ---------------------------------------------------------------------------
  // Steps outside the queue

  lemma LocalWorker(s: PoolState, w: nat, at: WorkerAt, runs: seq<nat>, ran: seq<Value>)
    requires PoolOk(s) && w < |s.workers| && |runs| == |s.runs|
    requires !s.workers[w].InPop? && (at.AtTest? || at.Gone?)
    ensures PoolOk(s.(workers := s.workers[w := at], runs := runs, ran := ran))
    ensures AbsWorkers(s.(workers := s.workers[w := at], runs := runs, ran := ran)) ==
              AbsWorkers(s)[w := if at.AtTest? then Pool.CheckStop else Pool.Exited]
  {
    var r := s.(workers := s.workers[w := at], runs := runs, ran := ran);
    forall v: nat | v < |r.workers| ensures WorkerOk(r, v) { assert WorkerOk(s, v); }
    forall c: nat | c < |r.clients| ensures ClientOk(r, c) { assert ClientOk(s, c); }
  }

  lemma StopSeen(s: PoolState, w: nat)
    requires PoolOk(s) && w < |s.workers| && s.workers[w].AtTest? && Stopped(s)
    ensures var r := s.(workers := s.workers[w := Gone]);
            PoolOk(r) && Pool.Shape(Abs(s)) && Abs(r) == Pool.WorkStep(Abs(s), w)
  {
    var r := s.(workers := s.workers[w := Gone]);
    AbsShape(s);
    LocalWorker(s, w, Gone, s.runs, s.ran);
    assert AbsTasks(r) == AbsTasks(s) && AbsClients(r) == AbsClients(s);
  }

  lemma TaskRun(s: PoolState, w: nat)
    requires PoolOk(s) && w < |s.workers| && s.workers[w].AtTask?
    ensures var k := s.workers[w].number;
            var r := s.(runs := s.runs[k := s.runs[k] + 1], ran := s.ran + [s.workers[w].task],
                        workers := s.workers[w := AtTest]);
            PoolOk(r) && Pool.Shape(Abs(s)) && Abs(r) == Pool.WorkStep(Abs(s), w)
  {
    var k := s.workers[w].number;
    var r := s.(runs := s.runs[k := s.runs[k] + 1], ran := s.ran + [s.workers[w].task],
                workers := s.workers[w := AtTest]);
    AbsShape(s);
    assert WorkerOk(s, w);
    LocalWorker(s, w, AtTest, r.runs, r.ran);
    assert AbsTasks(r) == AbsTasks(s)[k := Pool.Done] && AbsClients(r) == AbsClients(s);
  }

  lemma LocalClient(s: PoolState, r: PoolState, c: nat)
    requires PoolOk(s) && c < |s.clients| && !s.clients[c].InPush? && !s.clients[c].InClose?
    requires |r.clients| == |s.clients| && r.clients == s.clients[c := r.clients[c]]
    requires !r.clients[c].InPush? && !r.clients[c].InClose?
    requires r == s.(clients := r.clients, flags := r.flags, joinLock := r.joinLock, joinDone := r.joinDone,
                     joins := r.joins, waited := r.waited)
    requires |r.joins| == |s.joins|
    ensures PoolOk(r) && Pool.Shape(Abs(s)) && AbsWorkers(r) == AbsWorkers(s) && AbsTasks(r) == AbsTasks(s)
    ensures AbsClients(r) == AbsClients(s)[c := AbsClient(r.clients[c], Nobody)]
    ensures Abs(s).clients[c] == AbsClient(s.clients[c], Nobody)
  {
    AbsShape(s);
    forall v: nat | v < |r.workers| ensures WorkerOk(r, v) { assert WorkerOk(s, v); }
    forall d: nat | d < |r.clients| ensures ClientOk(r, d) { assert ClientOk(s, d); }
  }

  lemma FlagRaised(s: PoolState, c: nat, flag: nat)
    requires PoolOk(s) && c < |s.clients| && s.clients[c].Idle?
    ensures PoolOk(RaiseFlag(s, c, flag)) && Pool.Shape(Abs(s))
    ensures Abs(s).clients[c].Outside? && Abs(RaiseFlag(s, c, flag)) == Pool.RaiseFlag(Abs(s), c, flag)
  {
    LocalClient(s, RaiseFlag(s, c, flag), c);
  }

  lemma LocalSimulates(s: PoolState, c: nat, request: Request) returns (a: Pool.Event)
    requires PoolOk(s) && c < |s.clients| && !AtQueue(s.clients[c], request)
    ensures var r := LocalStep(s, c, request);
            PoolOk(r) && Pool.Shape(Abs(s)) && (Abs(r) == Abs(s) || Abs(r) == Pool.Step(Abs(s), a))
  {
    if s.clients[c].Idle? {
      a := if request.Stop? then Pool.Stop(c) else Pool.Wait(c);
      AbsShape(s);
      FlagRaised(s, c, if request.Stop? then Pool.STOP_FLAG else Pool.WAIT_FLAG);
    } else {
      a := Pool.Go(c);
      if s.clients[c].AtJoin? { JoinStepped(s, c, request); } else { LockStepped(s, c, request); }
    }
  }

  lemma LockStepped(s: PoolState, c: nat, request: Request)
    requires PoolOk(s) && c < |s.clients| && (s.clients[c].AtLock? || s.clients[c].AtJoinTest?)
    ensures var r := LocalStep(s, c, request);
            PoolOk(r) && Pool.Shape(Abs(s)) && (r == s || Abs(r) == Pool.ClientStep(Abs(s), c))
  {
    var r := LocalStep(s, c, request);
    assert s.clients == s.clients[c := s.clients[c]];
    LocalClient(s, r, c);
  }

  lemma JoinStepped(s: PoolState, c: nat, request: Request)
    requires PoolOk(s) && c < |s.clients| && s.clients[c].AtJoin?
    ensures var r := LocalStep(s, c, request);
            PoolOk(r) && Pool.Shape(Abs(s)) && (r == s || Abs(r) == Pool.ClientStep(Abs(s), c))
  {
    var r := LocalStep(s, c, request);
    if s.clients[c].index >= |s.workers| || s.workers[s.clients[c].index].Gone? {
      LocalClient(s, r, c);
    } else {
      AbsShape(s);
    }
  }

  // ---------------------------------------------------------------------------
  // All steps

  lemma WorkerSimulates(s: PoolState, w: nat, flag: bool, other: nat)
    requires PoolInv(s) && w < |s.workers|
    ensures var r := WorkerStep(s, w, flag, other);
            PoolOk(r) && (Abs(r) == Abs(s) || Abs(r) == Pool.WorkStep(Abs(s), w))
  {
    assert WorkerOk(s, w);
    match s.workers[w]
    case AtTest =>
      if Stopped(s) { StopSeen(s, w); } else { UseSimulates(s, w, Order(w, WaitPop, other)); }
    case InPop => UseSimulates(s, w, Order(w, Proceed(flag), other));
    case AtTask(_, _) => TaskRun(s, w);
    case Gone =>
  }

  lemma UseSimulates(s: PoolState, w: nat, o: Order)
    requires PoolInv(s) && w < |s.workers| && o.thread == w
    requires (s.workers[w].AtTest? && !Stopped(s) && o.call.WaitPop?) || s.workers[w].InPop?
    ensures var r := UsePop(s, w, o);
            PoolOk(r) && (Abs(r) == Abs(s) || Abs(r) == Pool.WorkStep(Abs(s), w))
  {
    var next, ops := SplitStep(s.queue, o), Commit(s.queue, o);
    assert WorkerOk(s, w);
    StepEffect(s.queue, o);
    if s.workers[w].AtTest? { CallStarts(s.queue, o); Entered(s.queue, o); } else { OneCommitPerCall(s.queue, o); }
    UseCases(s, next, w, ops);
  }

  lemma Entered(q: SplitState, o: Order)
    requires SplitInv(q) && o.thread < |q.stages| && q.q.base.pcs[o.thread].Out? && !o.call.Proceed?
    ensures !SplitStep(q, o).q.base.pcs[o.thread].Out?
  {
  }

  lemma UseCases(s: PoolState, next: SplitState, w: nat, ops: seq<Op>)
    requires WorkerUse(s, next, w, ops) && PoolInv(s)
    ensures var r := PopUsed(s, next, w, ops);
            PoolOk(r) && (Abs(r) == Abs(s) || Abs(r) == Pool.WorkStep(Abs(s), w))
  {
    if ops == [] {
      QuietAbs(s, next, w, ops);
    } else if Takes(ops) {
      if |s.takers| < |s.runs| { assert Pool.TaskInv(Abs(s), |s.takers|); }
      TookAbs(s, next, w, ops);
    } else {
      RefusedAbs(s, next, w, ops);
    }
  }

  lemma ClientSimulates(s: PoolState, c: nat, request: Request, flag: bool, other: nat) returns (a: Pool.Event)
    requires SplitInv(s.queue) && PoolOk(s) && c < |s.clients|
    ensures var r := ClientStep(s, c, request, flag, other);
            PoolOk(r) && Pool.Shape(Abs(s)) && (Abs(r) == Abs(s) || Abs(r) == Pool.Step(Abs(s), a))
  {
    var at := s.clients[c];
    if AtQueue(at, request) {
      a := if AtWork(at).InPush? then Pool.Submit(c) else Pool.Go(c);
      ClientQueue(s, c, request, Order(|s.workers| + c, CallMade(at, request, flag), other));
    } else {
      a := LocalSimulates(s, c, request);
    }
  }

  lemma ClientQueue(s: PoolState, c: nat, request: Request, o: Order)
    requires SplitInv(s.queue) && PoolOk(s) && c < |s.clients| && o.thread == |s.workers| + c
    requires AtQueue(s.clients[c], request)
    requires exists flag :: o.call == CallMade(s.clients[c], request, flag)
    ensures var inside := AtWork(s.clients[c]);
            var r := UseQueue(s, c, o, inside, AtEnd(s.clients[c]));
            && PoolOk(r) && Pool.Shape(Abs(s))
            && (Abs(r) == Abs(s) || Abs(r) == Pool.Step(Abs(s), if inside.InPush? then Pool.Submit(c) else Pool.Go(c)))
  {
    var next, ops := SplitStep(s.queue, o), Commit(s.queue, o);
    assert ClientOk(s, c);
    StepEffect(s.queue, o);
    if o.call.Proceed? { OneCommitPerCall(s.queue, o); } else { CallStarts(s.queue, o); Entered(s.queue, o); }
    ClientUseAbs(s, next, c, ops, AtWork(s.clients[c]), AtEnd(s.clients[c]));
  }

  // The access to the queue in a step of the pool.
  function OrderOf(s: PoolState, e: PoolEvent): Order {
    match e
    case Worker(w, flag, other) =>
      Order(w, if w < |s.workers| && s.workers[w].AtTest? then WaitPop else Proceed(flag), other)
    case Client(c, request, flag, other) =>
      var call := if c < |s.clients| then CallMade(s.clients[c], request, flag) else Proceed(flag);
      Order(|s.workers| + c, call, other)
  }

  lemma QueueOrder(s: PoolState, e: PoolEvent)
    requires PoolShape(s)
    ensures PoolStep(s, e).queue == s.queue || PoolStep(s, e).queue == SplitStep(s.queue, OrderOf(s, e))
  {
    if e.Worker? { WorkerOrder(s, e); } else { ClientOrder(s, e); }
  }

  lemma WorkerOrder(s: PoolState, e: PoolEvent)
    requires PoolShape(s) && e.Worker?
    ensures PoolStep(s, e).queue == s.queue || PoolStep(s, e).queue == SplitStep(s.queue, OrderOf(s, e))
  {
  }

  lemma ClientOrder(s: PoolState, e: PoolEvent)
    requires PoolShape(s) && e.Client?
    ensures PoolStep(s, e).queue == s.queue || PoolStep(s, e).queue == SplitStep(s.queue, OrderOf(s, e))
  {
    if e.client < |s.clients| {
      if AtQueue(s.clients[e.client], e.request) {
        ClientUses(s, e);
      } else {
        LocalKeeps(s, e.client, e.request);
      }
    }
  }

  lemma ClientUses(s: PoolState, e: PoolEvent)
    requires PoolShape(s) && e.Client? && e.client < |s.clients| && AtQueue(s.clients[e.client], e.request)
    ensures var at, o := s.clients[e.client], OrderOf(s, e);
            PoolStep(s, e) == ClientUsed(s, SplitStep(s.queue, o), e.client, Commit(s.queue, o), AtWork(at), AtEnd(at))
  {
  }

  lemma LocalKeeps(s: PoolState, c: nat, request: Request)
    requires PoolShape(s) && c < |s.clients|
    ensures var r := LocalStep(s, c, request); r.queue == s.queue && r.ran == s.ran && r.runs == s.runs
  {
  }

  lemma QueueKept(s: PoolState, e: PoolEvent)
    requires PoolShape(s) && SplitInv(s.queue)
    ensures SplitInv(PoolStep(s, e).queue)
  {
    QueueOrder(s, e);
    SplitStepInv(s.queue, OrderOf(s, e));
  }

  // A step that is one of the pool with an atomic queue keeps the invariant.
  lemma Concluded(s: PoolState, r: PoolState, a: Pool.Event)
    requires PoolOk(s) && Pool.Inv(Abs(s)) && SplitInv(r.queue) && PoolOk(r)
    requires Abs(r) == Abs(s) || Abs(r) == Pool.Step(Abs(s), a)
    ensures PoolInv(r)
  {
    PoolTheorems.StepInv(Abs(s), a);
  }

  lemma WorkerCase(s: PoolState, w: nat, flag: bool, other: nat)
    requires PoolInv(s) && w < |s.workers|
    ensures var r := WorkerStep(s, w, flag, other);
            PoolInv(r) && (Abs(r) == Abs(s) || Abs(r) == Pool.WorkStep(Abs(s), w))
  {
    var r := WorkerStep(s, w, flag, other);
    WorkerSimulates(s, w, flag, other);
    QueueKept(s, Worker(w, flag, other));
    Concluded(s, r, Pool.Work(w));
  }

  lemma ClientCase(s: PoolState, c: nat, request: Request, flag: bool, other: nat) returns (a: Pool.Event)
    requires PoolInv(s) && c < |s.clients|
    ensures var r := ClientStep(s, c, request, flag, other);
            PoolInv(r) && (Abs(r) == Abs(s) || Abs(r) == Pool.Step(Abs(s), a))
  {
    var r := ClientStep(s, c, request, flag, other);
    a := ClientSimulates(s, c, request, flag, other);
    QueueKept(s, Client(c, request, flag, other));
    Concluded(s, r, a);
  }

  // Every access of the pool over the monitor queue is one of the pool with an atomic queue, or
  // leaves that alone.
  lemma PoolSimulates(s: PoolState, e: PoolEvent) returns (a: Pool.Event)
    requires PoolInv(s)
    ensures var r := PoolStep(s, e);
            PoolInv(r) && (Abs(r) == Abs(s) || Abs(r) == Pool.Step(Abs(s), a))
    ensures e.Worker? ==> a == Pool.Work(e.worker)
  {
    if e.Worker? {
      a := Pool.Work(e.worker);
      if e.worker < |s.workers| { WorkerCase(s, e.worker, e.flag, e.other); }
    } else {
      a := Pool.Go(e.client);
      if e.client < |s.clients| { a := ClientCase(s, e.client, e.request, e.flag, e.other); }
    }
  }

  lemma PoolInitInv(workers: nat, clients: nat)
    ensures PoolInv(PoolInit(workers, clients)) && Abs(PoolInit(workers, clients)) == Pool.Init(workers, clients)
  {
    SplitInitInv(workers + clients);
    PoolInitAbs(workers, clients);
    PoolTheorems.InitInv(workers, clients);
  }

  lemma PoolInitAbs(workers: nat, clients: nat)
    ensures PoolOk(PoolInit(workers, clients)) && Abs(PoolInit(workers, clients)) == Pool.Init(workers, clients)
  {
    var s, a := PoolInit(workers, clients), Pool.Init(workers, clients);
    assert PoolOk(s);
    assert AbsWorkers(s) == a.workers && AbsClients(s) == a.clients;
  }
}
