/**
 synch_queue of evenk/synch_queue.h as an object: the deque and the flag, updated in place under the
 lock, and the lock with its condition variable.  Each method is one access of one thread.
 */
module SynchQueue {
  import opened Values
  import opened Bits
  import opened Synch
  import opened SynchWords
  import opened FutexSynch
  import opened MonitorQueue
  import opened QueueSpec
  import opened MonitorQueueTheorems
  import opened SplitQueue
  import opened SplitQueueTheorems

  // No snapshot is overtaken by 2^32 notifications before its thread goes to sleep.
  ghost predicate SplitWindowAll(s: SplitState, orders: seq<Order>)
    requires SplitShape(s)
    decreases |orders|
  {
    orders != [] ==>
      Window(s.q.base, orders[0].thread) && SplitWindowAll(SplitStep(s, orders[0]), orders[1..])
  }

  lemma SplitRunNext(s: SplitState, orders: seq<Order>, k: nat)
    requires SplitInv(s) && k < |orders| && SplitWindowAll(s, orders[k..])
    ensures Window(s.q.base, orders[k].thread) && SplitInv(SplitStep(s, orders[k]))
    ensures SplitWindowAll(SplitStep(s, orders[k]), orders[k + 1..])
    ensures SplitRun(s, orders[k..]) == SplitRun(SplitStep(s, orders[k]), orders[k + 1..])
  {
    SplitStepInv(s, orders[k]);
    assert orders[k..][0] == orders[k] && orders[k..][1..] == orders[k + 1..];
  }

  class Queue {
    const monitor: Monitor
    var deque: seq<Value>
    var closed: bool
    var roles: seq<Role>
    var stages: seq<Stage>
    ghost var taken: seq<Value>
    ghost var given: seq<Value>
    ghost var swept: bool

    ghost function View(): SplitState
      reads this, monitor
    {
      SplitState(QueueState(monitor.model, deque, closed, roles, taken, given, swept), stages)
    }

    ghost predicate Valid()
      reads this, monitor
    {
      monitor.Valid() && SplitShape(View())
    }

    constructor (threads: nat)
      ensures Valid() && fresh(monitor) && View() == SplitInit(threads)
    {
      monitor := new Monitor(threads);
      deque, closed, taken, given, swept := [], false, [], [], false;
      roles := seq(threads, _ => Nobody);
      stages := seq(threads, _ => Fresh);
    }

    // One access of locked_push.
    method Append(t: nat, v: Value)
      requires Valid() && t < |roles|
      modifies `deque, `roles, `stages, `taken
      ensures Valid() && View() == PushStep(old(View()), t, v)
    {
      match stages[t]
      case Fresh =>
        if closed {
          roles := roles[t := Leaver(WasClosed)];
        } else {
          stages := stages[t := SawOpen];
        }
      case SawOpen =>
        deque := deque + [v];
        roles := roles[t := Notifier(false)];
        stages := stages[t := Fresh];
        taken := taken + [v];
      case _ =>
    }

    // One access of locked_pop.
    method Remove(t: nat, wait: bool)
      requires Valid() && t < |roles|
      modifies `deque, `roles, `stages, `given
      ensures Valid() && View() == PopStep(old(View()), t, wait)
    {
      match stages[t]
      case Fresh => stages := stages[t := if deque == [] then SawEmpty else SawValue];
      case SawEmpty =>
        roles := roles[t := if closed then Leaver(WasClosed) else if wait then Waiter else Leaver(WasEmpty)];
        stages := stages[t := Fresh];
      case SawValue =>
        if deque != [] {
          stages := stages[t := Moved(deque[0])];
        }
      case Moved(v) =>
        deque := if deque == [] then [] else deque[1..];
        roles := roles[t := Leaver(Got(v))];
        stages := stages[t := Fresh];
        given := given + [v];
      case SawOpen =>
    }

    // close(): closed_ = true
    method SetClosed(t: nat)
      requires Valid() && t < |roles|
      modifies `closed, `roles
      ensures Valid() && View() == old(View()).(q := Become(old(View()).q, t, Notifier(true)).(closed := true))
    {
      closed := true;
      roles := roles[t := Notifier(true)];
    }

    // An access to the lock or the condition variable, after which thread t is to do `role`.
    method UseMonitor(t: nat, role: Role, action: Action, other: nat)
      requires Valid() && Inv(monitor.model) && t < |roles| && |roles| < WORD && Window(monitor.model, t)
      modifies `roles, monitor
      ensures Valid() && View() == old(View()).(q := Access(Become(old(View()).q, t, role), t, action, other))
    {
      monitor.Step(Event(t, action, other));
      roles := roles[t := role];
    }

    // push, wait_pop, try_pop and close start by taking the lock.
    method Start(t: nat, call: Call)
      requires Valid() && Inv(monitor.model) && t < |roles| && |roles| < WORD && Window(monitor.model, t)
      modifies `roles, monitor
      ensures Valid() && View() == old(View()).(q := Begin(old(View()).q, t, call))
    {
      match call
      case Push(v) => UseMonitor(t, Pusher(v), Lock, 0);
      case WaitPop => UseMonitor(t, Popper(true), Lock, 0);
      case TryPop => UseMonitor(t, Taster, Lock, 0);
      case Close => UseMonitor(t, Closer, Lock, 0);
      case Proceed(_) =>
    }

    // What a thread does while it holds the lock.
    method UnderLock(t: nat, o: Order)
      requires Valid() && Inv(monitor.model) && t < |roles| && |roles| < WORD && Window(monitor.model, t)
      requires o.thread == t && monitor.pcs[t].Held?
      modifies this, monitor
      ensures Valid() && View() == SplitStep(old(View()), o)
    {
      match roles[t]
      case Nobody =>
      case Pusher(v) => Append(t, v);
      case Popper(_) => Remove(t, true);
      case Taster => Remove(t, false);
      case Closer => SetClosed(t);
      case Waiter => UseMonitor(t, Popper(false), Wait, 0);
      case Notifier(all) =>
        UseMonitor(t, Leaver(if all then DidClose else Pushed), if all then NotifyAll else NotifyOne, 0);
      case Leaver(_) =>
        assert roles[t := roles[t]] == roles;
        UseMonitor(t, roles[t], Unlock, 0);
    }

    // A thread goes on inside the lock or the condition variable.
    method Advance(t: nat, flag: bool, other: nat)
      requires Valid() && Inv(monitor.model) && t < |roles| && |roles| < WORD && Window(monitor.model, t)
      modifies `swept, monitor
      ensures Valid()
      ensures View() == old(View()).(q := Access(old(View()).q, t, Go(flag), other).(swept := swept))
      ensures swept == (old(swept) || (NotifyingAll(old(monitor.model.pcs[t])) && monitor.model.pcs[t].Held?))
    {
      ghost var all := NotifyingAll(monitor.model.pcs[t]);
      monitor.Step(Event(t, Go(flag), other));
      swept := swept || (all && monitor.model.pcs[t].Held?);
    }

    // Thread o.thread makes its next access.
    method Step(o: Order)
      requires Valid() && SplitInv(View()) && |roles| < WORD && Window(monitor.model, o.thread)
      modifies this, monitor
      ensures Valid() && SplitInv(View()) && View() == SplitStep(old(View()), o)
      ensures |roles| == old(|roles|)
    {
      SplitStepInv(View(), o);
      var t := o.thread;
      if t < |roles| {
        if monitor.pcs[t].Out? {
          Start(t, o.call);
        } else if monitor.pcs[t].Held? {
          UnderLock(t, o);
        } else {
          Advance(t, o.call.Proceed? && o.call.flag, o.other);
        }
      }
    }

    // The same, telling which call took effect.
    method Perform(o: Order) returns (ops: seq<Op>)
      requires Valid() && SplitInv(View()) && o.thread < |roles| < WORD && Window(monitor.model, o.thread)
      modifies this, monitor
      ensures Valid() && View() == SplitStep(old(View()), o) && ops == Commit(old(View()), o)
      ensures |roles| == old(|roles|)
    {
      var before := roles[o.thread];
      Step(o);
      var after := roles[o.thread];
      ops := if Asking(before) && Answered(after) then [Op(o.thread, CallOf(before), ResultOf(after))] else [];
    }

    // Any schedule of accesses within the window.
    method Run(orders: seq<Order>)
      requires Valid() && SplitInv(View()) && SplitWindowAll(View(), orders) && |roles| < WORD
      modifies this, monitor
      ensures Valid() && SplitInv(old(View())) && View() == SplitRun(old(View()), orders)
    {
      var k := 0;
      assert orders[0..] == orders;
      while k < |orders|
        invariant 0 <= k <= |orders|
        invariant Valid() && SplitInv(View()) && |roles| < WORD
        invariant SplitWindowAll(View(), orders[k..])
        invariant SplitRun(View(), orders[k..]) == SplitRun(old(View()), orders)
      {
        SplitRunNext(View(), orders, k);
        Step(orders[k]);
        k := k + 1;
      }
    }
  }

  // What a run ends in.
  lemma RunResults(threads: nat, orders: seq<Order>, pcs: seq<Pc<u32>>)
    requires SplitInv(SplitInit(threads))
    requires pcs == EncodePcs(SplitRun(SplitInit(threads), orders).q.base.pcs)
    ensures var s := SplitRun(SplitInit(threads), orders);
            var history := History(SplitInit(threads), orders);
            && s.q.taken == s.q.given + s.q.queue
            && Legal(Fifo([], false), history) && Replay(Fifo([], false), history) == Fifo(s.q.queue, s.q.closed)
            && (s.q.swept ==> s.q.closed && forall t :: 0 <= t < |pcs| ==> !pcs[t].SleepCond?)
  {
    var s := SplitRun(SplitInit(threads), orders);
    assert SplitReachable(s);
    FirstInFirstOut(s);
    assert Contents(SplitInit(threads)) == Fifo([], false);
    Linearizable(SplitInit(threads), orders);
    SplitReachableQueue(s);
    if s.q.swept {
      CloseWakesEveryone(s.q);
      forall t: nat | t < |pcs| ensures !pcs[t].SleepCond? { SameKind(s.q.base.pcs[t]); }
    }
  }

  // Any schedule within the window: the queue is first in, first out; the calls that took effect
  // are a legal history of a sequential queue that ends with these contents; and once the
  // notify_all of a close() has returned, no thread of the object sleeps on the condition.
  method CreateAndRun(threads: nat, orders: seq<Order>) returns (queue: Queue)
    requires threads < WORD && SplitWindowAll(SplitInit(threads), orders)
    ensures fresh(queue) && fresh(queue.monitor)
    ensures queue.taken == queue.given + queue.deque
    ensures SplitInv(SplitInit(threads)) && Legal(Fifo([], false), History(SplitInit(threads), orders))
    ensures Replay(Fifo([], false), History(SplitInit(threads), orders)) == Fifo(queue.deque, queue.closed)
    ensures queue.swept ==>
              queue.closed && forall t :: 0 <= t < |queue.monitor.pcs| ==> !queue.monitor.pcs[t].SleepCond?
  {
    SplitInitInv(threads);
    queue := new Queue(threads);
    queue.Run(orders);
    RunResults(threads, orders, queue.monitor.pcs);
  }
}
