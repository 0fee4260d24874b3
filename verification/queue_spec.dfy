/** The queue of evenk as a sequential object, and the legal histories of its calls. */
module QueueSpec {
  import opened Values

  // Proceed stands for no call: its thread goes on with what it is doing.
  datatype Call = Push(value: Value) | WaitPop | TryPop | Close | Proceed(flag: bool)

  datatype Result = Pushed | Got(value: Value) | WasEmpty | WasClosed | DidClose

  // The queue as a sequential object: what a call answers and what it leaves.
  datatype Fifo = Fifo(items: seq<Value>, closed: bool)

  function PopAnswer(f: Fifo): Result {
    if f.items != [] then Got(f.items[0]) else if f.closed then WasClosed else WasEmpty
  }

  function Popped(f: Fifo): Fifo { if f.items != [] then f.(items := f.items[1..]) else f }

  function Answer(f: Fifo, call: Call): Result {
    match call
    case Push(_) => if f.closed then WasClosed else Pushed
    case WaitPop => PopAnswer(f)
    case TryPop => PopAnswer(f)
    case Close => DidClose
    case Proceed(_) => WasEmpty
  }

  function After(f: Fifo, call: Call): Fifo {
    match call
    case Push(v) => if f.closed then f else f.(items := f.items + [v])
    case WaitPop => Popped(f)
    case TryPop => Popped(f)
    case Close => f.(closed := true)
    case Proceed(_) => f
  }

  datatype Op = Op(thread: nat, call: Call, result: Result)

  // wait_pop answers only when there is a value or the queue is closed.
  predicate Fits(f: Fifo, op: Op) {
    && !op.call.Proceed?
    && op.result == Answer(f, op.call)
    && (op.call.WaitPop? ==> op.result != WasEmpty)
  }

  predicate Legal(f: Fifo, ops: seq<Op>)
    decreases |ops|
  {
    ops != [] ==> Fits(f, ops[0]) && Legal(After(f, ops[0].call), ops[1..])
  }

  function Replay(f: Fifo, ops: seq<Op>): Fifo
    requires Legal(f, ops)
    decreases |ops|
  {
    if ops == [] then f else Replay(After(f, ops[0].call), ops[1..])
  }

  lemma {:induction false} LegalAppend(f: Fifo, a: seq<Op>, b: seq<Op>)
    requires Legal(f, a) && Legal(Replay(f, a), b)
    ensures Legal(f, a + b) && Replay(f, a + b) == Replay(Replay(f, a), b)
    decreases |a|
  {
    if a == [] {
      assert a + b == b;
    } else {
      assert (a + b)[1..] == a[1..] + b;
      LegalAppend(After(f, a[0].call), a[1..], b);
    }
  }

  // The calls of thread t that take effect.
  function OpsOf(ops: seq<Op>, t: nat): seq<Op> {
    if ops == [] then [] else (if ops[0].thread == t then [ops[0]] else []) + OpsOf(ops[1..], t)
  }

  lemma Regroup<T>(x: seq<T>, y: seq<T>, z: seq<T>)
    ensures x + (y + z) == (x + y) + z
  {
  }

  lemma {:induction false} OpsOfAppend(a: seq<Op>, b: seq<Op>, t: nat)
    ensures OpsOf(a + b, t) == OpsOf(a, t) + OpsOf(b, t)
    decreases |a|
  {
    if a == [] {
      assert a + b == b;
    } else {
      assert (a + b)[1..] == a[1..] + b;
      OpsOfAppend(a[1..], b, t);
      Regroup(if a[0].thread == t then [a[0]] else [], OpsOf(a[1..], t), OpsOf(b, t));
    }
  }

  lemma OpsOfFirst(first: seq<Op>, rest: seq<Op>, t: nat)
    requires |first| <= 1
    ensures OpsOf(first + rest, t) == (if first != [] && first[0].thread == t then first else []) + OpsOf(rest, t)
  {
    if first == [] {
      assert first + rest == rest;
    } else {
      assert (first + rest)[1..] == rest;
    }
  }
}
