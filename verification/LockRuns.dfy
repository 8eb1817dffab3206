/** Everything the acquire calls of one lock can do, in any order: arrive, be cancelled before or
    after the handover, be resumed by the event loop, and leave. */
module LockRuns {
  import opened PriorityLocks

  /** A call waits for its future; `cancelling` marks a cancellation that came after the future
      was done and is delivered when the call is resumed. */
  datatype Phase = Waiting(entry: Entry, cancelling: bool) | Holding | Ended(ending: Ending)

  datatype System = System(lock: Lock, calls: map<nat, Phase>) {
    ghost predicate Owns(call: nat) {
      call in calls && match calls[call]
        case Holding => true
        case Waiting(_, _) => call in lock.futures && lock.futures[call] == Granted
        case Ended(_) => false
    }

    /** Calls and queue entries correspond; a call whose future is pending is queued. */
    ghost predicate Linked() {
      && (forall e <- lock.waiters :: e.call in calls && calls[e.call].Waiting? && calls[e.call].entry == e)
      && (forall c <- lock.futures :: c in calls)
      && (forall c <- calls :: calls[c].Waiting? ==>
            c in lock.futures && calls[c].entry.call == c && calls[c].entry.arrival < lock.counter
            && (lock.futures[c] == Pending ==> calls[c].entry in lock.waiters))
    }

    ghost predicate Inv() {
      && lock.Valid() && Linked()
      && (forall c, d :: Owns(c) && Owns(d) ==> c == d)
      && (lock.locked <==> exists c :: Owns(c))
      && (!lock.locked ==> lock.waiters == {})
    }
  }

  const START := System(FREE, map[])

  datatype Step = Arrive(call: nat, priority: int) | Cancel(call: nat) | Resume(call: nat) | Leave(call: nat)

  ghost predicate Enabled(s: System, step: Step)
    requires s.Inv()
  {
    match step
    case Arrive(c, _) => c !in s.calls
    case Cancel(c) => c in s.calls && s.calls[c].Waiting?
    case Resume(c) => c in s.calls && s.calls[c].Waiting? && s.lock.futures[c] != Pending
    case Leave(c) => c in s.calls && s.calls[c] == Holding
  }

  ghost function Apply(s: System, step: Step): System
    requires s.Inv() && Enabled(s, step)
  {
    match step
    case Arrive(c, priority) =>
      var (lock, entry) := AfterRequest(s.lock, c, priority);
      System(lock, s.calls[c := if entry.None? then Holding else Waiting(entry.value, false)])
    case Cancel(c) =>
      if s.lock.futures[c] == Pending then s.(lock := s.lock.(futures := s.lock.futures[c := Cancelled]))
      else s.(calls := s.calls[c := s.calls[c].(cancelling := true)])
    case Resume(c) =>
      if s.lock.futures[c] == Granted && !s.calls[c].cancelling then s.(calls := s.calls[c := Holding])
      else
        var (lock, ending) := AfterInterrupt(s.lock, s.calls[c].entry);
        System(lock, s.calls[c := Ended(ending)])
    case Leave(c) => System(AfterRelease(s.lock), s.calls[c := Ended(Released)])
  }

  lemma NobodyElseOwns(s: System, c: nat, d: nat)
    requires s.Inv() && s.Owns(c) && d != c
    ensures !s.Owns(d)
  {
  }

  lemma OwnerHandsOver(s: System, c: nat, ending: Ending, m: Entry)
    requires s.Inv() && s.Owns(c) && IsNext(s.lock, m)
    ensures System(HandedTo(s.lock, m), s.calls[c := Ended(ending)]).Inv()
  {
    var t := System(HandedTo(s.lock, m), s.calls[c := Ended(ending)]);
    assert t.lock.Valid() && t.Linked();
    assert t.Owns(m.call);
    forall d | t.Owns(d) ensures d == m.call {
      if d != m.call && d != c {
        NobodyElseOwns(s, c, d);
      }
    }
  }

  lemma OwnerFrees(s: System, c: nat, ending: Ending)
    requires s.Inv() && s.Owns(c) && forall e <- s.lock.waiters :: !s.lock.Live(e)
    ensures System(s.lock.(locked := false, waiters := {}), s.calls[c := Ended(ending)]).Inv()
  {
    var t := System(s.lock.(locked := false, waiters := {}), s.calls[c := Ended(ending)]);
    forall d ensures !t.Owns(d) {
      if d != c {
        NobodyElseOwns(s, c, d);
      }
    }
  }

  /** The owner ends: the lock is handed to one waiter, or nobody is left to own it. */
  lemma OwnerEnds(s: System, c: nat, ending: Ending)
    requires s.Inv() && s.Owns(c)
    ensures System(AfterRelease(s.lock), s.calls[c := Ended(ending)]).Inv()
  {
    ReleaseServesTheLeast(s.lock);
    if m :| IsNext(s.lock, m) {
      OwnerHandsOver(s, c, ending, m);
    } else {
      OwnerFrees(s, c, ending);
    }
  }

  lemma SameOwners(s: System, t: System)
    requires s.Inv() && t.lock.Valid() && t.Linked()
    requires forall d :: t.Owns(d) <==> s.Owns(d)
    requires t.lock.locked == s.lock.locked && t.lock.waiters <= s.lock.waiters
    ensures t.Inv()
  {
  }

  lemma ArriveKeepsInv(s: System, c: nat, priority: int)
    requires s.Inv() && Enabled(s, Arrive(c, priority))
    ensures Apply(s, Arrive(c, priority)).Inv()
  {
    var t := Apply(s, Arrive(c, priority));
    assert t.lock.Valid() && t.Linked();
    if s.lock.locked {
      assert forall d :: t.Owns(d) <==> s.Owns(d);
    } else {
      assert t.Owns(c);
      forall d | d != c ensures !t.Owns(d) {
        assert !s.Owns(d);
      }
    }
  }

  lemma StepKeepsInv(s: System, step: Step)
    requires s.Inv() && Enabled(s, step)
    ensures Apply(s, step).Inv()
  {
    var t := Apply(s, step);
    match step
    case Arrive(c, priority) =>
      ArriveKeepsInv(s, c, priority);
    case Cancel(c) =>
      SameOwners(s, t);
    case Resume(c) =>
      if s.lock.futures[c] == Granted && s.calls[c].cancelling {
        OwnerEnds(s, c, CancelledError);
      } else {
        SameOwners(s, t);
      }
    case Leave(c) =>
      OwnerEnds(s, c, Released);
  }

  ghost function Moved(s: System, step: Step): (t: System)
    requires s.Inv() && Enabled(s, step)
    ensures t.Inv()
  {
    StepKeepsInv(s, step);
    Apply(s, step)
  }

  // ---------------------------------------------------------------------------------------
  // Runs
  // ---------------------------------------------------------------------------------------

  ghost predicate Runs(s: System, steps: seq<Step>)
    requires s.Inv()
    decreases |steps|
  {
    steps == [] || (Enabled(s, steps[0]) && (StepKeepsInv(s, steps[0]); Runs(Apply(s, steps[0]), steps[1..])))
  }

  ghost function After(s: System, steps: seq<Step>): (t: System)
    requires s.Inv() && Runs(s, steps)
    ensures t.Inv()
    decreases |steps|
  {
    if steps == [] then s else (StepKeepsInv(s, steps[0]); After(Apply(s, steps[0]), steps[1..]))
  }

  lemma StartInv()
    ensures START.Inv()
  {
  }

  /** In every run at most one call owns the lock, the lock is free exactly when nobody owns it,
      and then nobody is queued: a waiter that is not cancelled always has an owner before it. */
  lemma NobodyIsStranded(steps: seq<Step>)
    requires (StartInv(); Runs(START, steps))
    ensures (StartInv();
            var s := After(START, steps);
            && (forall c, d :: s.Owns(c) && s.Owns(d) ==> c == d)
            && (!s.lock.locked <==> forall c :: !s.Owns(c))
            && (forall c <- s.calls :: s.calls[c].Waiting? && s.lock.futures[c] == Pending ==>
                  s.calls[c].entry in s.lock.waiters && exists d :: d != c && s.Owns(d)))
  {
    StartInv();
    var s := After(START, steps);
    forall c | c in s.calls && s.calls[c].Waiting? && s.lock.futures[c] == Pending
      ensures exists d :: d != c && s.Owns(d)
    {
      var d :| s.Owns(d);
    }
  }

  /** The call a step hands the lock to was the least of those waiting and not cancelled. */
  lemma HandoverGoesToTheLeast(s: System, step: Step, c: nat)
    requires s.Inv() && Enabled(s, step)
    requires c in s.calls && s.calls[c].Waiting? && s.lock.futures[c] != Granted
    requires c in Apply(s, step).lock.futures && Apply(s, step).lock.futures[c] == Granted
    ensures IsNext(s.lock, s.calls[c].entry)
    ensures step.Leave? || (step.Resume? && s.calls[step.call].cancelling)
  {
    ReleaseServesTheLeast(s.lock);
  }

  /** A lock only moves on: numbers are given out once, entries leave once, and a future that is
      done stays as it is. */
  ghost predicate MovesOn(l: Lock, m: Lock) {
    && l.counter <= m.counter
    && (forall e <- m.waiters :: e in l.waiters || e.arrival >= l.counter)
    && (forall c <- l.futures :: c in m.futures && (l.futures[c] != Pending ==> m.futures[c] == l.futures[c]))
  }

  lemma ReleaseMovesOn(l: Lock)
    requires l.Valid()
    ensures MovesOn(l, AfterRelease(l)) && AfterRelease(l).waiters <= l.waiters
    ensures forall e <- l.waiters :: l.futures[e.call] == Cancelled ==>
              (e !in AfterRelease(l).waiters <==> forall f <- l.waiters :: l.Live(f) ==> Before(e, f))
  {
    ReleaseServesTheLeast(l);
    if m :| IsNext(l, m) {
      assert AfterRelease(l) == HandedTo(l, m);
    }
  }

  lemma StepMovesOn(s: System, step: Step)
    requires s.Inv() && Enabled(s, step)
    ensures MovesOn(s.lock, Apply(s, step).lock)
  {
    ReleaseMovesOn(s.lock);
  }

  lemma {:induction false} RunMovesOn(s: System, steps: seq<Step>)
    requires s.Inv() && Runs(s, steps)
    ensures MovesOn(s.lock, After(s, steps).lock)
    decreases |steps|
  {
    if steps != [] {
      StepKeepsInv(s, steps[0]);
      StepMovesOn(s, steps[0]);
      RunMovesOn(Apply(s, steps[0]), steps[1..]);
    }
  }

  /** While `e` waits uncancelled to the end of a run, nobody behind it is served in that run. */
  lemma {:induction false} NobodyOvertakes(s: System, steps: seq<Step>, e: Entry, f: Entry)
    requires s.Inv() && Runs(s, steps) && s.lock.Live(e) && s.lock.Live(f) && Before(e, f)
    requires After(s, steps).lock.Live(e)
    ensures f.call in After(s, steps).lock.futures && After(s, steps).lock.futures[f.call] != Granted
    decreases |steps|
  {
    RunMovesOn(s, steps);
    if steps != [] {
      var t := Apply(s, steps[0]);
      StepKeepsInv(s, steps[0]);
      StepMovesOn(s, steps[0]);
      RunMovesOn(t, steps[1..]);
      if t.lock.futures[f.call] == Granted {
        HandoverGoesToTheLeast(s, steps[0], f.call);
      } else if t.lock.futures[f.call] == Pending {
        assert t.lock.Live(e) && t.lock.Live(f);
        NobodyOvertakes(t, steps[1..], e, f);
      }
    }
  }

  /** The waiters that are not cancelled and come before `e`. */
  ghost function Ahead(l: Lock, e: Entry): set<Entry>
    requires l.Valid()
  {
    set f <- l.waiters | l.Live(f) && Before(f, e)
  }

  /** Every handover serves `e` or shortens what is ahead of it. */
  lemma HandoverMakesProgress(s: System, step: Step, m: Entry, e: Entry)
    requires s.Inv() && Enabled(s, step) && s.lock.Live(e) && s.lock.Live(m)
    requires m.call in Apply(s, step).lock.futures && Apply(s, step).lock.futures[m.call] == Granted
    ensures m == e || (Apply(s, step).lock.Valid() && Apply(s, step).lock.Live(e)
                       && Ahead(Apply(s, step).lock, e) < Ahead(s.lock, e))
  {
    ReleaseServesTheLeast(s.lock);
    HandoverGoesToTheLeast(s, step, m.call);
    StepKeepsInv(s, step);
    hide System.Inv;
    if m != e {
      assert m in Ahead(s.lock, e) && m !in Ahead(Apply(s, step).lock, e);
    }
  }

  // ---------------------------------------------------------------------------------------
  // How a cancelled call ends
  // ---------------------------------------------------------------------------------------

  /** A call that was cancelled while queued ends with a cancellation if its entry is still
      queued when it is resumed, and with a `ValueError` exactly if a release popped it first. */
  lemma CancelledCallEnds(s: System, c: nat)
    requires s.Inv() && Enabled(s, Resume(c)) && s.lock.futures[c] == Cancelled
    ensures var t := Apply(s, Resume(c));
            && t.calls[c] == Ended(if s.calls[c].entry in s.lock.waiters then CancelledError else ValueError)
            && t.lock == s.lock.(waiters := s.lock.waiters - {s.calls[c].entry})
  {
  }

  /** The step that pops a cancelled entry is a release whose handover passes over it. */
  lemma PoppedBy(s: System, step: Step, e: Entry)
    requires s.Inv() && Enabled(s, step) && e in s.lock.waiters && step != Resume(e.call)
    requires s.lock.futures[e.call] == Cancelled
    ensures e !in Apply(s, step).lock.waiters <==>
              && (step.Leave?
                  || (step.Resume? && s.lock.futures[step.call] == Granted && s.calls[step.call].cancelling))
              && forall f <- s.lock.waiters :: s.lock.Live(f) ==> Before(e, f)
  {
    ReleaseMovesOn(s.lock);
  }

  /** The window exists whenever somebody waits: cancelled, then passed over by the owner's
      release, and only then resumed. An earlier waiter that is not cancelled closes it. */
  lemma CancelledThenReleased(s: System, owner: nat, w: nat)
    requires s.Inv() && Enabled(s, Leave(owner)) && Enabled(s, Cancel(w)) && s.lock.futures[w] == Pending
    ensures var s1 := Apply(s, Cancel(w));
            s1.Inv() && Enabled(s1, Leave(owner)) &&
            var s2 := Apply(s1, Leave(owner));
            s2.Inv() && Enabled(s2, Resume(w)) &&
            Apply(s2, Resume(w)).calls[w] ==
              Ended(if exists m :: s.lock.Live(m) && Before(m, s.calls[w].entry) then CancelledError else ValueError)
  {
    var e := s.calls[w].entry;
    StepKeepsInv(s, Cancel(w));
    var s1 := Apply(s, Cancel(w));
    assert forall f :: s1.lock.Live(f) <==> s.lock.Live(f) && f != e;
    StepKeepsInv(s1, Leave(owner));
    StepMovesOn(s1, Leave(owner));
    PoppedBy(s1, Leave(owner), e);
    var s2 := Apply(s1, Leave(owner));
    CancelledCallEnds(s2, w);
  }
}
