/**
 What becomes of the values pushed into the monitor queue: each is accepted, refused because the
 queue is closed, or still in the hands of its caller.
 */
module QueueAccount {
  import opened Values
  import opened QueueSpec
  import opened MonitorQueue
  import opened MonitorQueueTheorems
  import opened SplitQueue
  import opened SplitQueueTheorems

  // The value that a thread is about to push.
  function Carried(role: Role): multiset<Value> {
    if role.Pusher? then multiset{role.value} else multiset{}
  }

  function InHand(roles: seq<Role>): multiset<Value> {
    if roles == [] then multiset{} else InHand(roles[..|roles| - 1]) + Carried(roles[|roles| - 1])
  }

  // The bag x is exchanged for y in both.
  lemma Exchange<T>(a: multiset<T>, x: multiset<T>, b: multiset<T>, y: multiset<T>, c: multiset<T>, d: multiset<T>)
    requires a + x == b + y && y + c == x + d
    ensures a + c == b + d
  {
    forall v: T ensures (a + c)[v] == (b + d)[v] {
      assert (a + x)[v] == (b + y)[v] && (y + c)[v] == (x + d)[v];
    }
  }

  lemma {:induction false} FlightCount(roles: seq<Role>, t: nat, role: Role, v: Value)
    requires t < |roles|
    ensures InHand(roles[t := role])[v] + Carried(roles[t])[v] == InHand(roles)[v] + Carried(role)[v]
    decreases |roles|
  {
    var n := |roles| - 1;
    if t == n {
      assert roles[t := role][..n] == roles[..n];
    } else {
      assert roles[t := role][..n] == roles[..n][t := role];
      FlightCount(roles[..n], t, role, v);
    }
  }

  lemma FlightUpdate(roles: seq<Role>, t: nat, role: Role)
    requires t < |roles|
    ensures InHand(roles[t := role]) + Carried(roles[t]) == InHand(roles) + Carried(role)
  {
    var a, b := InHand(roles[t := role]) + Carried(roles[t]), InHand(roles) + Carried(role);
    forall v: Value ensures a[v] == b[v] { FlightCount(roles, t, role, v); }
  }

  lemma {:induction false} NobodyCarries(roles: seq<Role>)
    requires forall t :: 0 <= t < |roles| ==> !roles[t].Pusher?
    ensures InHand(roles) == multiset{}
    decreases |roles|
  {
    if roles != [] { NobodyCarries(roles[..|roles| - 1]); }
  }

  // The values refused among the calls that take effect.
  function Refused(ops: seq<Op>): multiset<Value> {
    if ops == [] then multiset{}
    else (if ops[0].call.Push? && ops[0].result.WasClosed? then multiset{ops[0].call.value} else multiset{})
         + Refused(ops[1..])
  }

  lemma RefusedFirst(first: seq<Op>, rest: seq<Op>)
    requires |first| <= 1
    ensures Refused(first + rest) == Refused(first) + Refused(rest)
  {
    if first == [] {
      assert first + rest == rest;
    } else {
      assert (first + rest)[1..] == rest && first[1..] == [];
    }
  }

  // The value with which a thread enters push() in a step.
  function Entering(q: SplitState, o: Order): multiset<Value>
    requires SplitShape(q)
  {
    if o.thread < |q.stages| && q.q.base.pcs[o.thread].Out? && o.call.Push? then multiset{o.call.value} else multiset{}
  }

  // A call inside the queue keeps its value in hand, hands it over or gets it back.
  lemma RoleValue(role: Role, next: Role, t: nat, ops: seq<Op>, taken: seq<Value>, after: seq<Value>)
    requires RoleGoes(role, next, t, ops)
    requires after ==
             if ops != [] && ops[0].call.Push? && ops[0].result.Pushed? then taken + [ops[0].call.value] else taken
    requires ops != [] && ops[0].call.Push? ==> ops[0].result.Pushed? || ops[0].result.WasClosed?
    ensures Carried(next) + (multiset(after) + Refused(ops)) == Carried(role) + multiset(taken)
  {
    assert ops != [] ==> ops[1..] == [];
  }

  // What a step does to the values of its thread: it takes one in hand, hands it to the queue or
  // gets it back.
  ghost predicate OwnAccount(q: SplitState, r: SplitState, o: Order, ops: seq<Op>)
    requires SplitShape(q)
  {
    && o.thread < |q.stages| && |r.q.roles| == |q.q.roles|
    && Carried(r.q.roles[o.thread]) + (multiset(r.q.taken) + Refused(ops))
       == Carried(q.q.roles[o.thread]) + (multiset(q.q.taken) + Entering(q, o))
  }

  lemma InsideValue(q: SplitState, o: Order)
    requires SplitInv(q) && o.thread < |q.stages| && !q.q.base.pcs[o.thread].Out?
    ensures OwnAccount(q, SplitStep(q, o), o, Commit(q, o))
  {
    CommitLedger(q, o);
    CommitFits(q, o);
    OneCommitPerCall(q, o);
    RoleValue(q.q.roles[o.thread], SplitStep(q, o).q.roles[o.thread], o.thread, Commit(q, o), q.q.taken,
              SplitStep(q, o).q.taken);
  }

  lemma OutsideValue(q: SplitState, o: Order)
    requires SplitInv(q) && o.thread < |q.stages| && q.q.base.pcs[o.thread].Out?
    ensures OwnAccount(q, SplitStep(q, o), o, Commit(q, o))
  {
    CommitLedger(q, o);
    CallStarts(q, o);
    RoleInside(q, o.thread);
    if o.call.Proceed? { OutsideStays(q, o); }
  }

  // A thread outside that makes no call stays there.
  lemma OutsideStays(q: SplitState, o: Order)
    requires SplitInv(q) && o.thread < |q.stages| && q.q.base.pcs[o.thread].Out? && o.call.Proceed?
    ensures SplitStep(q, o).q.roles == q.q.roles
  {
  }

  // The values in hand, those accepted and those given back, against what came in.
  ghost predicate Balance(q: SplitState, r: SplitState, ops: seq<Op>, entering: multiset<Value>) {
    InHand(r.q.roles) + (multiset(r.q.taken) + Refused(ops)) == InHand(q.q.roles) + (multiset(q.q.taken) + entering)
  }

  lemma OwnBalance(q: SplitState, r: SplitState, o: Order, ops: seq<Op>)
    requires SplitShape(q) && OwnAccount(q, r, o, ops) && |q.q.roles| == |q.stages|
    requires forall u :: 0 <= u < |q.q.roles| && u != o.thread ==> r.q.roles[u] == q.q.roles[u]
    ensures Balance(q, r, ops, Entering(q, o))
  {
    var t := o.thread;
    assert r.q.roles == q.q.roles[t := r.q.roles[t]];
    FlightUpdate(q.q.roles, t, r.q.roles[t]);
    Exchange(InHand(r.q.roles), Carried(q.q.roles[t]), InHand(q.q.roles), Carried(r.q.roles[t]),
             multiset(r.q.taken) + Refused(ops), multiset(q.q.taken) + Entering(q, o));
  }

  lemma StepAccount(q: SplitState, o: Order)
    requires SplitInv(q)
    ensures Balance(q, SplitStep(q, o), Commit(q, o), Entering(q, o))
  {
    if o.thread < |q.stages| {
      if q.q.base.pcs[o.thread].Out? { OutsideValue(q, o); } else { InsideValue(q, o); }
      OthersKeep(q, o);
      OwnBalance(q, SplitStep(q, o), o, Commit(q, o));
    } else {
      NoThread(q, o);
    }
  }

  lemma OthersKeep(q: SplitState, o: Order)
    requires SplitInv(q)
    ensures forall u :: 0 <= u < |q.q.roles| && u != o.thread ==>
              u < |SplitStep(q, o).q.roles| && SplitStep(q, o).q.roles[u] == q.q.roles[u]
  {
    SplitRefines(q, o);
    OtherRoles(q.q, o);
  }

  lemma NoThread(q: SplitState, o: Order)
    requires SplitInv(q) && |q.stages| <= o.thread
    ensures SplitStep(q, o).q.roles == q.q.roles && SplitStep(q, o).q.taken == q.q.taken && Commit(q, o) == []
  {
  }

  // ---------------------------------------------------------------------------
  // Runs

  // The values with which threads enter push() in a run.
  ghost function Pushes(q: SplitState, orders: seq<Order>): multiset<Value>
    requires SplitInv(q)
    decreases |orders|
  {
    if orders == [] then multiset{}
    else
      SplitStepInv(q, orders[0]);
      Entering(q, orders[0]) + Pushes(SplitStep(q, orders[0]), orders[1..])
  }

  lemma BalanceThen(q: SplitState, m: SplitState, r: SplitState, first: seq<Op>, rest: seq<Op>, e: multiset<Value>,
                    f: multiset<Value>)
    requires |first| <= 1 && Balance(q, m, first, e) && Balance(m, r, rest, f)
    ensures Balance(q, r, first + rest, e + f)
  {
    RefusedFirst(first, rest);
    Chain(InHand(q.q.roles), multiset(q.q.taken), InHand(m.q.roles), multiset(m.q.taken), InHand(r.q.roles),
          multiset(r.q.taken), Refused(first), Refused(rest), e, f);
  }

  lemma Chain<T>(a: multiset<T>, a': multiset<T>, b: multiset<T>, b': multiset<T>, c: multiset<T>, c': multiset<T>,
                 x: multiset<T>, y: multiset<T>, e: multiset<T>, f: multiset<T>)
    requires b + (b' + x) == a + (a' + e) && c + (c' + y) == b + (b' + f)
    ensures c + (c' + (x + y)) == a + (a' + (e + f))
  {
    forall v: T ensures (c + (c' + (x + y)))[v] == (a + (a' + (e + f)))[v] {
      assert (b + (b' + x))[v] == (a + (a' + e))[v] && (c + (c' + y))[v] == (b + (b' + f))[v];
    }
  }

  // In every run from the empty queue, the values with which push() was called are those accepted,
  // those refused and those still in hand.
  lemma {:induction false} RunAccount(q: SplitState, orders: seq<Order>)
    requires SplitInv(q)
    ensures Balance(q, SplitRun(q, orders), History(q, orders), Pushes(q, orders))
    decreases |orders|
  {
    if orders != [] {
      var r := SplitStep(q, orders[0]);
      SplitStepInv(q, orders[0]);
      StepAccount(q, orders[0]);
      CommitLedger(q, orders[0]);
      RunAccount(r, orders[1..]);
      BalanceThen(q, r, SplitRun(r, orders[1..]), Commit(q, orders[0]), History(r, orders[1..]), Entering(q, orders[0]),
                  Pushes(r, orders[1..]));
    }
  }

  lemma EveryPushAccounted(threads: nat, orders: seq<Order>)
    ensures SplitInv(SplitInit(threads))
    ensures var s, r := SplitInit(threads), SplitRun(SplitInit(threads), orders);
            Pushes(s, orders) == InHand(r.q.roles) + (multiset(r.q.taken) + Refused(History(s, orders)))
  {
    SplitInitInv(threads);
    RunAccount(SplitInit(threads), orders);
    NobodyCarries(SplitInit(threads).q.roles);
  }
}
