/**
 A run of futex_cond_var of evenk/synch.h in which 2^32 notifications, or a multiple of that, come
 between the snapshot of a waiter and its futex_wait: it sleeps behind all of them.
 */
module SynchWrap {
  import opened Bits
  import opened Synch
  import opened SynchWords

  // Thread 0 takes the lock and calls wait(), up to its futex_wait.
  function Settle(): seq<Event> {
    [Event(0, Lock, 0), Event(0, Go(false), 0), Event(0, Wait, 0), Event(0, Go(false), 0), Event(0, Go(false), 0),
     Event(0, Go(false), 0)]
  }

  // Thread 1 makes one whole call of notify_all().
  function Notify(): seq<Event> {
    [Event(1, NotifyAll, 0), Event(1, Go(false), 0), Event(1, Go(false), 0), Event(1, Go(false), 0)]
  }

  function Notifies(n: nat): seq<Event> {
    if n == 0 then [] else Notifies(n - 1) + Notify()
  }

  // Thread 0 is before its futex_wait, and n calls of notify_all() have come and gone.
  function Notified(threads: nat, n: nat): State {
    State(0, n, 1, true, seq(threads, t => if t == 0 then CvWait(0) else Out), Free, n)
  }

  lemma FirstWrap(s: State, e: Event, rest: seq<Event>)
    ensures WrapRun(s, [e] + rest) == WrapRun(WrapStep(s, e), rest)
  {
    assert ([e] + rest)[1..] == rest;
  }

  lemma {:induction false} WrapRunOn(s: State, a: seq<Event>, b: seq<Event>)
    ensures WrapRun(s, a + b) == WrapRun(WrapRun(s, a), b)
    decreases |a|
  {
    if a == [] {
      assert a + b == b;
    } else {
      assert (a + b)[1..] == a[1..] + b;
      WrapRunOn(WrapStep(s, a[0]), a[1..], b);
    }
  }

  lemma Settles(threads: nat)
    requires 2 <= threads
    ensures WrapRun(Init(threads), Settle()) == Notified(threads, 0)
  {
    var s := Init(threads);
    var go := Event(0, Go(false), 0);
    var e1, e3 := Event(0, Lock, 0), Event(0, Wait, 0);
    assert Settle() == [e1] + ([go] + ([e3] + ([go] + ([go] + ([go] + [])))));
    FirstWrap(s, e1, [go] + ([e3] + ([go] + ([go] + ([go] + [])))));
    var s1 := WrapStep(s, e1);
    FirstWrap(s1, go, [e3] + ([go] + ([go] + ([go] + []))));
    var s2 := WrapStep(s1, go);
    FirstWrap(s2, e3, [go] + ([go] + ([go] + [])));
    var s3 := WrapStep(s2, e3);
    FirstWrap(s3, go, [go] + ([go] + []));
    var s4 := WrapStep(s3, go);
    FirstWrap(s4, go, [go] + []);
    var s5 := WrapStep(s4, go);
    FirstWrap(s5, go, []);
    assert WrapStep(s5, go).pcs == Notified(threads, 0).pcs;
  }

  // A call of notify_all() finds the waiter counted and nobody asleep.
  lemma NotifiesOnce(threads: nat, n: nat)
    requires 2 <= threads
    ensures WrapRun(Notified(threads, n), Notify()) == Notified(threads, n + 1)
  {
    var s := Notified(threads, n);
    var e1, go := Event(1, NotifyAll, 0), Event(1, Go(false), 0);
    assert Notify() == [e1] + ([go] + ([go] + ([go] + [])));
    FirstWrap(s, e1, [go] + ([go] + ([go] + [])));
    var s1 := WrapStep(s, e1);
    FirstWrap(s1, go, [go] + ([go] + []));
    var s2 := WrapStep(s1, go);
    FirstWrap(s2, go, [go] + []);
    var s3 := WrapStep(s2, go);
    FirstWrap(s3, go, []);
    assert WrapStep(s3, go).pcs == Notified(threads, n + 1).pcs;
  }

  lemma NotifiesNext(s: State, events: seq<Event>, threads: nat, n: nat)
    requires 2 <= threads && WrapRun(s, events) == Notified(threads, n)
    ensures WrapRun(s, events + Notify()) == Notified(threads, n + 1)
  {
    WrapRunOn(s, events, Notify());
    NotifiesOnce(threads, n);
  }

  lemma {:induction false} NotifiesMany(s: State, events: seq<Event>, threads: nat, n: nat)
    requires 2 <= threads && WrapRun(s, events) == Notified(threads, 0)
    ensures WrapRun(s, events + Notifies(n)) == Notified(threads, n)
    decreases n
  {
    if n == 0 {
      assert events + Notifies(n) == events;
    } else {
      NotifiesMany(s, events, threads, n - 1);
      NotifiesNext(s, events + Notifies(n - 1), threads, n - 1);
      assert events + Notifies(n) == events + Notifies(n - 1) + Notify();
    }
  }

  // Its snapshot is 0, and so is the word after a multiple of 2^32 increments.
  lemma FallsAsleep(threads: nat, n: nat)
    requires 0 < threads && n % WORD == 0
    ensures WrapStep(Notified(threads, n), Event(0, Go(false), 0))
         == Notified(threads, n).(pcs := Notified(threads, n).pcs[0 := SleepCond(0)])
  {
  }

  lemma LastAccess(s: State, events: seq<Event>, e: Event)
    ensures WrapRun(s, events + [e]) == WrapStep(WrapRun(s, events), e)
  {
    WrapRunOn(s, events, [e]);
    FirstWrap(WrapRun(s, events), e, []);
    assert [e] + [] == [e];
  }

  // After k * 2^32 calls of notify_all() have returned, the waiter goes to sleep behind all of
  // them, and every other thread is outside the library.
  lemma OvertakenSleeps(threads: nat, k: nat)
    requires 2 <= threads && 0 < k
    ensures var r := WrapRun(Init(threads), Settle() + Notifies(k * WORD) + [Event(0, Go(false), 0)]);
            && |r.pcs| == threads && r.pcs[0] == SleepCond(0) && r.done == k * WORD && !Timely(r)
            && forall t :: 0 < t < threads ==> r.pcs[t].Out?
  {
    var n := k * WORD;
    Settles(threads);
    NotifiesMany(Init(threads), Settle(), threads, n);
    LastAccess(Init(threads), Settle() + Notifies(n), Event(0, Go(false), 0));
    FallsAsleep(threads, n);
    var r := Notified(threads, n).(pcs := Notified(threads, n).pcs[0 := SleepCond(0)]);
    assert r.pcs[0] == SleepCond(0) && r.done == n > 0;
  }
}
