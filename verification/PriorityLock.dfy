/** The lock of the radio slot: cancellable waiters, woken by priority and then by arrival,
    with direct handover.

    A future is named by the acquire call that waits for it. The heap is the set
    of its entries; what is popped is the least of them, which is unique. */
module PriorityLocks {
  import opened Options

  datatype Future = Pending | Granted | Cancelled

  datatype Entry = Entry(priority: int, arrival: nat, call: nat)

  predicate Before(a: Entry, b: Entry) {
    a.priority < b.priority || (a.priority == b.priority && a.arrival < b.arrival)
  }

  /** How an acquire call that was woken with an exception ends. */
  datatype Ending = Released | CancelledError | ValueError

  datatype Lock = Lock(locked: bool, waiters: set<Entry>, counter: nat, futures: map<nat, Future>) {
    ghost predicate Valid() {
      && (forall e <- waiters :: e.arrival < counter && e.call in futures)
      && (forall e <- waiters, f <- waiters :: e.arrival == f.arrival || e.call == f.call ==> e == f)
      && (forall e <- waiters :: futures[e.call] != Granted)
    }

    ghost predicate Live(e: Entry)
      requires Valid()
    {
      e in waiters && futures[e.call] == Pending
    }
  }

  const FREE := Lock(false, {}, 0, map[])

  ghost predicate IsLeast(e: Entry, queue: set<Entry>) {
    e in queue && forall f <- queue :: f == e || Before(e, f)
  }

  lemma LeastExists(queue: set<Entry>)
    requires queue != {}
    requires forall e <- queue, f <- queue :: e.arrival == f.arrival ==> e == f
    ensures exists e :: IsLeast(e, queue)
  {
    var some :| some in queue;
    var rest := queue - {some};
    if rest == {} {
      assert queue == {some} && IsLeast(some, queue);
    } else {
      LeastExists(rest);
      var e :| IsLeast(e, rest);
      assert queue == rest + {some};
      assert IsLeast(if Before(some, e) then some else e, queue);
    }
  }

  lemma LeastIsUnique(e: Entry, f: Entry, queue: set<Entry>)
    requires IsLeast(e, queue) && IsLeast(f, queue)
    ensures e == f
  {
  }

  ghost function Least(queue: set<Entry>): (e: Entry)
    requires queue != {}
    requires forall e <- queue, f <- queue :: e.arrival == f.arrival ==> e == f
    ensures IsLeast(e, queue)
  {
    LeastExists(queue);
    var e :| IsLeast(e, queue);
    e
  }

  // ---------------------------------------------------------------------------------------
  // What the three pieces of the lock do
  // ---------------------------------------------------------------------------------------

  /** `acquire` up to its first suspension: the call owns the lock, or waits with an entry. */
  function AfterRequest(l: Lock, call: nat, priority: int): (Lock, Option<Entry>) {
    if !l.locked && l.waiters == {} then (l.(locked := true), None)
    else
      var e := Entry(priority, l.counter, call);
      (l.(waiters := l.waiters + {e}, counter := l.counter + 1, futures := l.futures[call := Pending]), Some(e))
  }

  /** `release`: pop until a waiter is found whose future is not done, and hand over to it. */
  ghost function AfterRelease(l: Lock): Lock
    requires l.Valid()
    decreases l.waiters
  {
    if l.waiters == {} then l.(locked := false)
    else
      var e := Least(l.waiters);
      var popped := l.(waiters := l.waiters - {e});
      if l.futures[e.call] == Pending then popped.(futures := l.futures[e.call := Granted]) else AfterRelease(popped)
  }

  lemma ReleasePops(l: Lock, e: Entry)
    requires l.Valid() && IsLeast(e, l.waiters)
    ensures
      var popped := l.(waiters := l.waiters - {e});
      && popped.Valid() && e.call in l.futures
      && if l.futures[e.call] == Pending
         then popped.(futures := l.futures[e.call := Granted]).Valid()
              && AfterRelease(l) == popped.(futures := l.futures[e.call := Granted])
         else AfterRelease(l) == AfterRelease(popped)
  {
    LeastIsUnique(e, Least(l.waiters), l.waiters);
  }

  lemma SomeoneIsLeast(l: Lock)
    requires l.Valid() && l.waiters != {}
    ensures exists e :: IsLeast(e, l.waiters)
  {
    LeastExists(l.waiters);
  }

  lemma ReleaseFrees(l: Lock)
    requires l.Valid() && l.waiters == {}
    ensures AfterRelease(l) == l.(locked := false) && l.(locked := false).Valid()
  {
  }

  /** `acquire` after its future was interrupted: pass the lock on, or leave the queue. Leaving
      fails if a release has already popped the entry. */
  ghost function AfterInterrupt(l: Lock, e: Entry): (Lock, Ending)
    requires l.Valid() && e.call in l.futures
  {
    if l.futures[e.call] == Granted then (AfterRelease(l), CancelledError)
    else if e in l.waiters then (l.(waiters := l.waiters - {e}), CancelledError)
    else (l, ValueError)
  }

  class PriorityLock {
    var locked: bool
    var waiters: set<Entry>
    var counter: nat
    /** The futures of this lock, also those that have left the queue. */
    var futures: map<nat, Future>

    ghost function State(): Lock
      reads this
    {
      Lock(locked, waiters, counter, futures)
    }

    constructor ()
      ensures State() == FREE && State().Valid()
    {
      locked, waiters, counter, futures := false, {}, 0, map[];
    }

    method Acquire(call: nat, priority: int) returns (entry: Option<Entry>)
      requires State().Valid() && call !in futures
      modifies this
      ensures (State(), entry) == AfterRequest(old(State()), call, priority) && State().Valid()
    {
      if !locked && waiters == {} {
        locked := true;
        return None;
      }
      var e := Entry(priority, counter, call);
      futures := futures[call := Pending];
      counter := counter + 1;
      waiters := waiters + {e};
      return Some(e);
    }

    /** The exception handler of a waiting `acquire`. */
    method Interrupted(entry: Entry) returns (ending: Ending)
      requires State().Valid() && entry.call in futures
      modifies this
      ensures (State(), ending) == AfterInterrupt(old(State()), entry) && State().Valid()
    {
      if futures[entry.call] == Granted {
        Release();
        return CancelledError;
      } else if entry in waiters {
        waiters := waiters - {entry};
        return CancelledError;
      } else {
        return ValueError;
      }
    }

    method Release()
      requires State().Valid()
      modifies this
      ensures State() == AfterRelease(old(State())) && State().Valid()
    {
      hide Lock.Valid, AfterRelease, Before;
      while waiters != {}
        invariant State().Valid()
        invariant AfterRelease(State()) == AfterRelease(old(State()))
        decreases waiters
      {
        SomeoneIsLeast(State());
        var e :| e in waiters && forall f <- waiters :: f == e || Before(e, f);
        ReleasePops(State(), e);
        waiters := waiters - {e};
        if futures[e.call] == Pending {
          futures := futures[e.call := Granted];
          return;
        }
      }
      ReleaseFrees(State());
      locked := false;
    }
  }

  /** `m` is the least of the waiters whose future is not done. */
  ghost predicate IsNext(l: Lock, m: Entry)
    requires l.Valid()
  {
    l.Live(m) && forall e <- l.waiters :: l.Live(e) ==> e == m || Before(m, e)
  }

  /** The lock is handed to `m`; of the waiters only those after it are left. */
  function HandedTo(l: Lock, m: Entry): Lock {
    l.(waiters := (set e <- l.waiters | Before(m, e)), futures := l.futures[m.call := Granted])
  }

  /** A handover goes to the least of the waiters whose future is not done; it drops exactly the
      cancelled ones before it. The lock becomes free only when no such waiter is left. */
  lemma {:induction false} ReleaseServesTheLeast(l: Lock)
    requires l.Valid()
    ensures AfterRelease(l).Valid()
    ensures (forall e <- l.waiters :: !l.Live(e)) ==> AfterRelease(l) == l.(locked := false, waiters := {})
    ensures forall m :: IsNext(l, m) ==> AfterRelease(l) == HandedTo(l, m)
    ensures (exists m :: IsNext(l, m)) || forall e <- l.waiters :: !l.Live(e)
    decreases l.waiters
  {
    if l.waiters != {} {
      var e := Least(l.waiters);
      if l.futures[e.call] == Pending {
        assert HandedTo(l, e).waiters == l.waiters - {e};
        assert IsNext(l, e);
      } else {
        var popped := l.(waiters := l.waiters - {e});
        ReleaseServesTheLeast(popped);
        forall m ensures IsNext(l, m) <==> IsNext(popped, m)
                 ensures IsNext(l, m) ==> HandedTo(l, m) == HandedTo(popped, m) {
          PoppingACancelled(l, e, m);
        }
        NobodyNew(l, e);
        hide IsNext, HandedTo;
        if m :| IsNext(popped, m) {
          assert IsNext(l, m);
        }
      }
    }
  }

  /** Without its cancelled head nobody more is live. */
  lemma NobodyNew(l: Lock, e: Entry)
    requires l.Valid() && IsLeast(e, l.waiters) && l.futures[e.call] != Pending
    ensures
      var popped := l.(waiters := l.waiters - {e});
      && (forall f <- l.waiters :: !l.Live(f)) == (forall f <- popped.waiters :: !popped.Live(f))
      && popped.(locked := false, waiters := {}) == l.(locked := false, waiters := {})
  {
    var popped := l.(waiters := l.waiters - {e});
    if forall f <- popped.waiters :: !popped.Live(f) {
      forall f | f in l.waiters ensures !l.Live(f) {
        assert f != e ==> f in popped.waiters && !popped.Live(f);
      }
    }
  }

  lemma PoppingACancelled(l: Lock, e: Entry, m: Entry)
    requires l.Valid() && IsLeast(e, l.waiters) && l.futures[e.call] != Pending
    ensures var popped := l.(waiters := l.waiters - {e});
            && popped.Valid() && (IsNext(l, m) <==> IsNext(popped, m))
            && (IsNext(l, m) ==> HandedTo(l, m) == HandedTo(popped, m))
  {
    var popped := l.(waiters := l.waiters - {e});
    assert forall f :: l.Live(f) <==> popped.Live(f);
    if IsNext(l, m) {
      assert HandedTo(l, m).waiters == HandedTo(popped, m).waiters;
    }
  }
}
