/** The lock together with the event loop's queue of callbacks: a woken call, and the answer to a
    request in flight, run in the order in which they were scheduled. The queue is kept as the
    tickets drawn from a running number; the smallest ticket is the head. */
module EventLoop {
  import opened Options
  import opened PriorityLocks
  import opened LockRuns

  /** How a radio request ended: accepted, refused or failed, or cancelled. */
  datatype Outcome = Accepted | Failed | Interrupted

  datatype Ticket = Ticket(at: nat, outcome: Outcome)

  datatype Loop = Loop(sys: System, due: map<nat, Ticket>, clock: nat) {
    ghost predicate Inv() {
      && sys.Inv()
      && (forall c <- due :: due[c].at < clock && (Holds(c) || Done(c)))
      && (forall c <- due, d <- due :: due[c].at == due[d].at ==> c == d)
      && (forall c :: Done(c) ==> c in due)
    }

    /** It waits and its future is done: the event loop is going to resume it. */
    ghost predicate Done(c: nat) {
      c in sys.calls && sys.calls[c].Waiting? && c in sys.lock.futures && sys.lock.futures[c] != Pending
    }

    /** Its future is pending: it can only be woken by a handover or a cancellation. */
    ghost predicate Queued(c: nat) {
      c in sys.calls && sys.calls[c].Waiting? && c in sys.lock.futures && sys.lock.futures[c] == Pending
    }

    ghost predicate Holds(c: nat) { c in sys.calls && sys.calls[c] == Holding }

    /** It holds the slot and its answer has not come. */
    ghost predicate InFlight(c: nat) { Holds(c) && c !in due }

    /** It holds the slot, and its answer waits to be taken up. */
    ghost predicate Answered(c: nat) { c in due && Holds(c) }

    /** It has not been cancelled and has not ended. */
    ghost predicate Alive(c: nat) {
      || Holds(c)
      || (c in sys.calls && sys.calls[c].Waiting? && !sys.calls[c].cancelling
          && c in sys.lock.futures && sys.lock.futures[c] != Cancelled)
    }

    ghost predicate Open(c: nat) { c in sys.calls && !sys.calls[c].Ended? }

    ghost predicate IsHead(c: nat) { c in due && forall d <- due :: due[c].at <= due[d].at }

    /** Whatever `d` waits for, `c` gets there first. */
    ghost predicate Precedes(c: nat, d: nat) {
      if c in due then d in due ==> due[c].at < due[d].at
      else if InFlight(c) then Queued(d)
      else Queued(c) && Queued(d) && Before(sys.calls[c].entry, sys.calls[d].entry)
    }
  }

  const QUIET := Loop(START, map[], 0)

  // ---------------------------------------------------------------------------------------
  // Steps
  // ---------------------------------------------------------------------------------------

  ghost function Arriving(l: Loop, c: nat, priority: int): Loop
    requires l.Inv() && c !in l.sys.calls
  {
    l.(sys := Moved(l.sys, Arrive(c, priority)))
  }

  ghost function Scheduling(l: Loop, c: nat, outcome: Outcome): Loop {
    l.(due := l.due[c := Ticket(l.clock, outcome)], clock := l.clock + 1)
  }

  ghost function Cancelling(l: Loop, c: nat): Loop
    requires l.Inv() && Enabled(l.sys, Cancel(c))
  {
    var moved := l.(sys := Moved(l.sys, Cancel(c)));
    if l.Queued(c) then Scheduling(moved, c, Interrupted) else moved
  }

  ghost function Answering(l: Loop, c: nat, outcome: Outcome): Loop
    requires l.Inv() && l.InFlight(c)
  {
    Scheduling(l, c, outcome)
  }

  /** `c`, which owned the lock, is gone; `next` is served if there is one, and scheduled. */
  ghost function Serving(l: Loop, c: nat, ending: Ending, next: Option<Entry>): Loop {
    var calls, rest := l.sys.calls[c := Ended(ending)], l.due - {c};
    match next
    case Some(m) => Scheduling(Loop(System(HandedTo(l.sys.lock, m), calls), rest, l.clock), m.call, Accepted)
    case None => Loop(System(l.sys.lock.(locked := false, waiters := {}), calls), rest, l.clock)
  }

  ghost predicate Serves(l: Lock, next: Option<Entry>)
    requires l.Valid()
  {
    match next
    case Some(m) => IsNext(l, m)
    case None => forall e <- l.waiters :: !l.Live(e)
  }

  ghost function Next(l: Lock): (next: Option<Entry>)
    requires l.Valid()
    ensures Serves(l, next)
    ensures AfterRelease(l) == match next case Some(m) => HandedTo(l, m) case None => l.(locked := false, waiters := {})
  {
    ReleaseServesTheLeast(l);
    if m: Entry :| IsNext(l, m) then Some(m) else None
  }

  ghost function Gone(l: Loop, c: nat, ending: Ending): Loop
    requires l.Inv()
  {
    Serving(l, c, ending, Next(l.sys.lock))
  }

  ghost function Leaving(l: Loop, c: nat): Loop
    requires l.Inv() && Enabled(l.sys, Leave(c))
  {
    Gone(l, c, Released)
  }

  /** The head of the queue is a woken call: it holds the slot, or ends. */
  ghost function Waking(l: Loop, c: nat): Loop
    requires l.Inv() && l.IsHead(c) && l.Done(c)
  {
    if l.sys.lock.futures[c] == Granted && l.sys.calls[c].cancelling then Gone(l, c, CancelledError)
    else l.(sys := Moved(l.sys, Resume(c)), due := l.due - {c})
  }

  // ---------------------------------------------------------------------------------------
  // The queue stays consistent
  // ---------------------------------------------------------------------------------------

  /** A call `d` stays as it is, as far as the queue is concerned. */
  ghost predicate Same(l: Loop, k: Loop, d: nat) {
    && (k.Done(d) <==> l.Done(d))
    && (l.Holds(d) ==> k.Holds(d))
  }

  lemma TicketsKept(l: Loop, k: Loop, gone: set<nat>, c: nat, outcome: Outcome)
    requires l.Inv() && k.sys.Inv() && c !in l.due
    requires k.due == (l.due - gone)[c := Ticket(l.clock, outcome)] && k.clock == l.clock + 1 && k.Done(c)
    requires forall d :: if d in gone then !k.Done(d) else d == c || Same(l, k, d)
    ensures k.Inv()
  {
    forall d | d in k.due ensures d == c || (d in l.due && k.due[d] == l.due[d] && d !in gone && Same(l, k, d)) {
    }
  }

  lemma ServingSome(l: Loop, c: nat, ending: Ending, m: Entry)
    requires l.Inv() && l.sys.Owns(c) && IsNext(l.sys.lock, m)
    ensures Serving(l, c, ending, Some(m)).Inv()
  {
    var k := Serving(l, c, ending, Some(m));
    OwnerHandsOver(l.sys, c, ending, m);
    assert l.Queued(m.call) && m.call !in l.due && m.call != c;
    assert k.Done(m.call);
    forall d ensures if d in {c} then !k.Done(d) else d == m.call || Same(l, k, d) {
    }
    TicketsKept(l, k, {c}, m.call, Accepted);
  }

  lemma ServingKeepsInv(l: Loop, c: nat, ending: Ending, next: Option<Entry>)
    requires l.Inv() && l.sys.Owns(c) && Serves(l.sys.lock, next)
    ensures Serving(l, c, ending, next).Inv()
  {
    match next
    case Some(m) =>
      ServingSome(l, c, ending, m);
    case None =>
      OwnerFrees(l.sys, c, ending);
      var k := Serving(l, c, ending, None);
      assert k.sys.lock.futures == l.sys.lock.futures && k.sys.calls == l.sys.calls[c := Ended(ending)];
      assert forall d :: d != c ==> (k.Done(d) <==> l.Done(d));
  }

  lemma ArrivingKeepsInv(l: Loop, c: nat, priority: int)
    requires l.Inv() && c !in l.sys.calls
    ensures Arriving(l, c, priority).Inv()
  {
  }

  lemma CancellingQueued(l: Loop, c: nat)
    requires l.Inv() && Enabled(l.sys, Cancel(c)) && l.Queued(c)
    ensures Cancelling(l, c).Inv()
  {
    var k := Cancelling(l, c);
    assert k.sys == System(l.sys.lock.(futures := l.sys.lock.futures[c := Cancelled]), l.sys.calls);
    assert k.Done(c) && c !in l.due && l.due - {} == l.due;
    forall d ensures d == c || Same(l, k, d) {
    }
    TicketsKept(l, k, {}, c, Interrupted);
  }

  lemma CancellingKeepsInv(l: Loop, c: nat)
    requires l.Inv() && Enabled(l.sys, Cancel(c))
    ensures Cancelling(l, c).Inv()
  {
    if l.Queued(c) {
      CancellingQueued(l, c);
    }
  }

  lemma CancellingKeepsCalls(l: Loop, c: nat)
    requires l.Inv() && Enabled(l.sys, Cancel(c))
    ensures
      var k := Cancelling(l, c);
      && k.sys.calls.Keys == l.sys.calls.Keys
      && forall d <- l.sys.calls :: (k.Open(d) <==> l.Open(d))
           && (k.sys.calls[d].Waiting? ==> l.sys.calls[d].Waiting? && k.sys.calls[d].entry == l.sys.calls[d].entry)
  {
    hide System.Inv, Lock.Valid;
  }

  lemma AnsweringKeepsInv(l: Loop, c: nat, outcome: Outcome)
    requires l.Inv() && l.InFlight(c)
    ensures Answering(l, c, outcome).Inv()
  {
  }

  lemma WakingKeepsInv(l: Loop, c: nat)
    requires l.Inv() && l.IsHead(c) && l.Done(c)
    ensures Waking(l, c).Inv()
  {
    if l.sys.lock.futures[c] == Granted && l.sys.calls[c].cancelling {
      ServingKeepsInv(l, c, CancelledError, Next(l.sys.lock));
    }
  }

  // ---------------------------------------------------------------------------------------
  // The order of two calls is kept as long as neither ends and the later one is not cancelled
  // ---------------------------------------------------------------------------------------

  ghost predicate Ordered(l: Loop, c: nat, d: nat) { l.Open(c) && l.Alive(d) && l.Precedes(c, d) }

  lemma ServingKeepsOrder(l: Loop, x: nat, ending: Ending, next: Option<Entry>, c: nat, d: nat)
    requires l.Inv() && l.sys.Owns(x) && Serves(l.sys.lock, next) && x != c && x != d
    requires Ordered(l, c, d)
    ensures Ordered(Serving(l, x, ending, next), c, d)
  {
    NobodyElseOwns(l.sys, x, c);
    NobodyElseOwns(l.sys, x, d);
    if next.Some? {
      var m := next.value;
      assert l.Queued(m.call) && m.call !in l.due;
      if m.call == d {
        assert !l.Queued(c);
      }
    }
  }

  lemma ArrivingKeepsOrder(l: Loop, x: nat, priority: int, c: nat, d: nat)
    requires l.Inv() && x !in l.sys.calls && Ordered(l, c, d)
    ensures Ordered(Arriving(l, x, priority), c, d)
  {
  }

  lemma CancellingKeepsOrder(l: Loop, x: nat, c: nat, d: nat)
    requires l.Inv() && Enabled(l.sys, Cancel(x)) && x != d && Ordered(l, c, d)
    ensures Ordered(Cancelling(l, x), c, d)
  {
  }

  lemma AnsweringKeepsOrder(l: Loop, x: nat, outcome: Outcome, c: nat, d: nat)
    requires l.Inv() && l.InFlight(x) && Ordered(l, c, d)
    ensures Ordered(Answering(l, x, outcome), c, d)
  {
  }

  lemma WakingKeepsOrder(l: Loop, x: nat, c: nat, d: nat)
    requires l.Inv() && l.IsHead(x) && l.Done(x) && Ordered(l, c, d)
    requires Waking(l, x).Open(c)
    ensures x != d && Ordered(Waking(l, x), c, d)
  {
    if l.sys.lock.futures[x] == Granted {
      if l.sys.calls[x].cancelling {
        ServingKeepsOrder(l, x, CancelledError, Next(l.sys.lock), c, d);
      } else {
        NobodyElseOwns(l.sys, x, d);
        assert c == x ==> l.Queued(d);
      }
    }
  }

  lemma ServingKeepsAlive(l: Loop, x: nat, ending: Ending, next: Option<Entry>, d: nat)
    requires l.Inv() && l.sys.Owns(x) && Serves(l.sys.lock, next) && x != d
    ensures Serving(l, x, ending, next).Alive(d) ==> l.Alive(d)
  {
  }

  lemma WakingKeepsAlive(l: Loop, x: nat, d: nat)
    requires l.Inv() && l.IsHead(x) && l.Done(x) && x != d
    ensures Waking(l, x).Alive(d) ==> l.Alive(d)
  {
  }

  /** A call that arrives is preceded by every open call of no lesser urgency. */
  lemma NewcomerIsLast(l: Loop, c: nat, d: nat, priority: int)
    requires l.Inv() && d !in l.sys.calls && l.Open(c)
    requires l.sys.calls[c].Waiting? ==> l.sys.calls[c].entry.priority <= priority
    ensures Ordered(Arriving(l, d, priority), c, d)
  {
    if l.Holds(c) {
      assert l.sys.Owns(c);
    }
  }

  /** Nothing precedes a call at its turn. */
  lemma HeadIsNotPreceded(l: Loop, c: nat, d: nat)
    requires l.Inv() && l.IsHead(d)
    ensures !l.Precedes(c, d)
  {
  }

  // ---------------------------------------------------------------------------------------
  // The answered request
  // ---------------------------------------------------------------------------------------

  lemma OneIsAnswered(l: Loop, c: nat, d: nat)
    requires l.Inv() && l.Answered(c) && l.Answered(d)
    ensures c == d
  {
    assert l.sys.Owns(c) && l.sys.Owns(d);
  }

  lemma ServingAnswersNobody(l: Loop, x: nat, ending: Ending, next: Option<Entry>, d: nat)
    requires l.Inv() && l.sys.Owns(x) && Serves(l.sys.lock, next)
    ensures Serving(l, x, ending, next).Answered(d) ==> l.Answered(d) && d != x
  {
    if next.Some? {
      assert l.Queued(next.value.call);
    }
  }

  lemma ArrivingAnswersNobody(l: Loop, x: nat, priority: int, d: nat)
    requires l.Inv() && x !in l.sys.calls
    ensures Arriving(l, x, priority).Answered(d) ==> l.Answered(d)
  {
  }

  lemma CancellingAnswersNobody(l: Loop, x: nat, d: nat)
    requires l.Inv() && Enabled(l.sys, Cancel(x))
    ensures Cancelling(l, x).Answered(d) ==> l.Answered(d)
  {
  }

  lemma AnsweringAnswersOne(l: Loop, x: nat, outcome: Outcome, d: nat)
    requires l.Inv() && l.InFlight(x)
    ensures Answering(l, x, outcome).Answered(d) ==> l.Answered(d) || d == x
  {
  }

  lemma WakingAnswersNobody(l: Loop, x: nat, d: nat)
    requires l.Inv() && l.IsHead(x) && l.Done(x)
    ensures Waking(l, x).Answered(d) ==> l.Answered(d) && d != x
  {
    if l.sys.lock.futures[x] == Granted && l.sys.calls[x].cancelling {
      ServingAnswersNobody(l, x, CancelledError, Next(l.sys.lock), d);
    }
  }
}
