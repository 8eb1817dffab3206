/** Settings reads and writes of devices over the radio slot, in every interleaving.

    A write counts itself in `counts` when it begins, when its PUT ends and when its read-back
    ends; a read compares the count it began with, and the identity of the device, before it adopts
    anything. What this guarantees rests on the order in which the slot and the event loop serve. */
module SettingsTraffic {
  import opened PriorityLocks
  import opened LockRuns
  import opened EventLoop

  const QUERY := 10

  /** A setting is written with a read-back; a plain configuration write has none; the repeater
      mode is written with a read-back, but counted only at its beginning and its end. */
  datatype Kind = Setting | Plain | Repeater

  datatype WriteStage = Putting | ReadingBack | Closed

  /** `Adopted(both)`: the values were taken, `both` if the second read (repeater mode) was too. */
  datatype ReadStage = First | Second | Adopted(both: bool) | Dropped

  datatype Op =
    | Write(device: string, kind: Kind, put: WriteStage)
    | Read(device: string, identity: nat, started: nat, priority: int, twice: bool, read: ReadStage)
    | Other(priority: int, done: bool)
  {
    predicate Active() {
      match this
      case Write(_, _, stage) => stage != Closed
      case Read(_, _, _, _, _, stage) => stage == First || stage == Second
      case Other(_, done) => !done
    }

    function Priority(): int {
      match this
      case Write(_, _, _) => QUERY
      case Read(_, _, _, priority, _, _) => priority
      case Other(priority, _) => priority
    }

    /** The radio request the operation waits for: its first or its second. */
    function Call(id: nat): nat {
      if (Write? && put == ReadingBack) || (Read? && read == Second) then 2 * id + 1 else 2 * id
    }
  }

  datatype Traffic = Traffic(loop: Loop, counts: map<string, nat>, objects: map<string, nat>, next: nat,
                             ops: map<nat, Op>) {
    function Count(device: string): nat { if device in counts then counts[device] else 0 }

    /** Nothing was counted and the device was not forgotten since the read began. */
    predicate Clean(r: Op)
      requires r.Read?
    {
      r.device in objects && objects[r.device] == r.identity && Count(r.device) == r.started
    }

    /** An active operation waits for a request that is open; its second one is still to come. */
    ghost predicate OpOk(id: nat) {
      id in ops && ops[id].Active() ==>
        loop.Open(ops[id].Call(id)) && (ops[id].Call(id) == 2 * id ==> 2 * id + 1 !in loop.sys.calls)
    }

    ghost predicate CallOk(c: nat) {
      loop.Open(c) ==>
        && c / 2 in ops && ops[c / 2].Active() && ops[c / 2].Call(c / 2) == c
        && (loop.sys.calls[c].Waiting? ==> loop.sys.calls[c].entry.priority == ops[c / 2].Priority())
    }

    predicate ReadOk(id: nat) {
      id in ops && ops[id].Read? ==>
        && ops[id].identity < next
        && (ops[id].device in objects && objects[ops[id].device] == ops[id].identity ==>
          Count(ops[id].device) >= ops[id].started)
    }

    /** The operations agree with the queue, save for `skip`, which is between two requests. */
    ghost predicate InvBut(skip: int) {
      && loop.Inv()
      && (forall c <- loop.sys.calls :: c / 2 in ops)
      && (forall id <- ops :: ReadOk(id) && (id != skip ==> OpOk(id)))
      && (forall c <- loop.sys.calls :: c / 2 != skip ==> CallOk(c))
      && (forall d <- objects :: objects[d] < next)
    }

    ghost predicate Inv() { InvBut(-1) }

    /** `r` may still adopt what it reads. */
    ghost predicate Hopeful(r: nat) {
      r in ops && ops[r].Read? && ops[r].Active() && ops[r].priority >= QUERY && Clean(ops[r])
        && loop.Alive(ops[r].Call(r))
    }

    /** `w` is a write of the same device, begun and not ended. */
    ghost predicate Overlaps(w: nat, r: nat) {
      w in ops && r in ops && ops[w].Write? && ops[w].Active() && ops[r].Read? && ops[w].device == ops[r].device
    }

    /** A repeater write whose PUT has ended. */
    ghost predicate Uncounted(w: nat) {
      w in ops && ops[w].Write? && ops[w].kind == Repeater && ops[w].put == ReadingBack
    }

    ghost predicate InOrderFor(w: nat, r: nat) {
      Hopeful(r) && Overlaps(w, r) ==>
        && (Ordered(loop, ops[w].Call(w), ops[r].Call(r)) || (ops[r].read == First && Uncounted(w)))
        && (ops[r].read == Second ==> Uncounted(w))
    }

    /** Every write a hopeful read overlaps gets its next turn before the read, save for repeater
        writes reading back beside the first read; beside the second read there are no others. */
    ghost predicate InOrder() { forall w, r :: InOrderFor(w, r) }
  }

  const EMPTY := Traffic(QUIET, map[], map[], 0, map[])

  // ---------------------------------------------------------------------------------------
  // Steps
  // ---------------------------------------------------------------------------------------

  function Noted(t: Traffic, device: string): Traffic {
    t.(counts := t.counts[device := t.Count(device) + 1])
  }

  /** A request of `op` enters the radio queue. */
  ghost function Asking(t: Traffic, id: nat, op: Op): Traffic
    requires t.loop.Inv() && op.Call(id) !in t.loop.sys.calls
  {
    t.(loop := Arriving(t.loop, op.Call(id), op.Priority()), ops := t.ops[id := op])
  }

  /** A settings write begins: it is counted before it asks for the radio. One that is refused
      before that (`!admitted`) is counted at its end only, if it is one with a read-back; an
      invalid request ends it. */
  ghost function WriteBegins(t: Traffic, id: nat, device: string, kind: Kind, admitted: bool, valid: bool): Traffic
    requires t.loop.Inv() && 2 * id !in t.loop.sys.calls
  {
    var op := Write(device, kind, Putting);
    if !admitted then (if kind == Setting then Noted(t, device) else t).(ops := t.ops[id := op.(put := Closed)])
    else if valid then Asking(Noted(t, device), id, op)
    else
      var counted := Noted(Noted(if kind == Setting then Noted(t, device) else t, device), device);
      counted.(ops := t.ops[id := op.(put := Closed)])
  }

  ghost function ReadBegins(t: Traffic, id: nat, device: string, priority: int, twice: bool, valid: bool): Traffic
    requires t.loop.Inv() && 2 * id !in t.loop.sys.calls && device in t.objects
  {
    var op := Read(device, t.objects[device], t.Count(device), priority, twice, First);
    if valid then Asking(t, id, op) else t.(ops := t.ops[id := op.(read := Dropped)])
  }

  /** After the last answer: the count and the identity of the device decide. */
  function Compared(t: Traffic, id: nat, both: bool): Traffic
    requires id in t.ops && t.ops[id].Read?
  {
    var op := t.ops[id];
    t.(ops := t.ops[id := op.(read := if t.Clean(op) then Adopted(both) else Dropped)])
  }

  /** The operation `id` waits for a request; its second one, if any, is still to come. */
  ghost predicate InTurn(t: Traffic, id: nat) {
    && t.loop.Inv() && id in t.ops && t.ops[id].Active()
    && (t.ops[id].Call(id) == 2 * id ==> 2 * id + 1 !in t.loop.sys.calls)
  }

  /** A request of `id` has ended with `outcome` and the slot is passed on; the operation goes on
      in the same step. `valid` tells whether its next request may be queued. */
  ghost function GoesOn(t: Traffic, id: nat, outcome: Outcome, valid: bool): Traffic
    requires InTurn(t, id)
  {
    match t.ops[id]
    case Write(device, kind, stage) =>
      var closed := t.ops[id := Write(device, kind, Closed)];
      if stage == ReadingBack then Noted(t, device).(ops := closed)
      else
        var ended := if kind == Repeater then t else Noted(t, device);
        if kind == Plain then ended.(ops := closed)
        else if outcome == Accepted && valid then Asking(ended, id, Write(device, kind, ReadingBack))
        else Noted(ended, device).(ops := closed)
    case Read(device, identity, started, priority, twice, stage) =>
      var dropped := t.(ops := t.ops[id := Read(device, identity, started, priority, twice, Dropped)]);
      if outcome == Interrupted then dropped
      else if stage == Second then Compared(t, id, outcome == Accepted)
      else if outcome != Accepted then dropped
      else if twice && valid then Asking(t, id, Read(device, identity, started, priority, twice, Second))
      else Compared(t, id, false)
    case Other(priority, _) =>
      t.(ops := t.ops[id := Other(priority, true)])
  }

  datatype Step =
    | BeginWrite(id: nat, device: string, kind: Kind, admitted: bool, valid: bool)
    | BeginRead(id: nat, device: string, priority: int, twice: bool, valid: bool)
    | BeginOther(id: nat, priority: int)
    | Interrupt(id: nat)
    | Respond(id: nat, outcome: Outcome)
    | Run(call: nat, send: bool, valid: bool)
    | Forget(device: string)
    | Discover(device: string)

  ghost predicate CanStep(t: Traffic, step: Step)
    requires t.Inv()
  {
    match step
    case BeginWrite(id, _, _, _, _) => id !in t.ops
    case BeginRead(id, device, _, _, _) => id !in t.ops && device in t.objects
    case BeginOther(id, _) => id !in t.ops
    case Interrupt(id) => id in t.ops && t.ops[id].Active() && Enabled(t.loop.sys, Cancel(t.ops[id].Call(id)))
    case Respond(id, _) => id in t.ops && t.ops[id].Active() && t.loop.InFlight(t.ops[id].Call(id))
    case Run(c, _, _) => t.loop.IsHead(c)
    case Forget(_) => true
    case Discover(device) => device !in t.objects
  }

  /** The holder `c` leaves the slot, and its operation goes on. */
  ghost function Ends(t: Traffic, c: nat, outcome: Outcome, valid: bool): Traffic
    requires t.loop.Inv() && t.loop.Holds(c) && InTurn(t, c / 2)
  {
    OwnerLeaves(t.loop, c);
    GoesOn(t.(loop := Leaving(t.loop, c)), c / 2, outcome, valid)
  }

  /** The head of the queue runs: an answered request ends; a woken one is sent, refused by the
      last check (`!send`), or ends as cancelled. */
  ghost function Runs(t: Traffic, c: nat, send: bool, valid: bool): Traffic
    requires t.Inv() && t.loop.IsHead(c)
  {
    if !t.loop.Done(c) then Ends(t, c, t.loop.due[c].outcome, valid)
    else
      WakingFacts(t.loop, c);
      var woken := t.(loop := Waking(t.loop, c));
      if !woken.loop.Holds(c) then GoesOn(woken, c / 2, Interrupted, valid)
      else if send then woken
      else Ends(woken, c, Failed, valid)
  }

  ghost function Do(t: Traffic, step: Step): Traffic
    requires t.Inv() && CanStep(t, step)
  {
    match step
    case BeginWrite(id, device, kind, admitted, valid) => WriteBegins(t, id, device, kind, admitted, valid)
    case BeginRead(id, device, priority, twice, valid) => ReadBegins(t, id, device, priority, twice, valid)
    case BeginOther(id, priority) => Asking(t, id, Other(priority, false))
    case Interrupt(id) => t.(loop := Cancelling(t.loop, t.ops[id].Call(id)))
    case Respond(id, outcome) => t.(loop := Answering(t.loop, t.ops[id].Call(id), outcome))
    case Run(c, send, valid) => Runs(t, c, send, valid)
    case Forget(device) => t.(counts := t.counts - {device}, objects := t.objects - {device})
    case Discover(device) => t.(objects := t.objects[device := t.next], next := t.next + 1)
  }

  lemma OwnerLeaves(l: Loop, c: nat)
    requires l.Inv() && l.Holds(c)
    ensures Enabled(l.sys, Leave(c)) && Leaving(l, c).Inv()
    ensures Leaving(l, c).sys.calls == l.sys.calls[c := Ended(Released)]
  {
    assert l.sys.Owns(c);
    ServingKeepsInv(l, c, Released, Next(l.sys.lock));
  }

  lemma WakingFacts(l: Loop, c: nat)
    requires l.Inv() && l.IsHead(c) && l.Done(c)
    ensures var k := Waking(l, c);
            && k.Inv() && k.sys.calls.Keys == l.sys.calls.Keys
            && (k.Holds(c) || k.sys.calls[c].Ended?)
            && forall d <- l.sys.calls :: d != c ==> k.sys.calls[d] == l.sys.calls[d]
  {
    WakingKeepsInv(l, c);
  }

  // ---------------------------------------------------------------------------------------
  // The operations agree with the queue
  // ---------------------------------------------------------------------------------------

  /** From `l` to `k` the call `c` ended; nothing else came out of order or back to life. */
  ghost predicate CallEnded(l: Loop, k: Loop, c: nat) {
    && k.Inv() && c in l.sys.calls && k.sys.calls.Keys == l.sys.calls.Keys && k.sys.calls[c].Ended?
    && (forall d <- l.sys.calls :: d != c ==> k.sys.calls[d] == l.sys.calls[d])
    && (forall d :: d != c && k.Alive(d) ==> l.Alive(d))
    && (forall a, b :: a != c && b != c && Ordered(l, a, b) ==> Ordered(k, a, b))
  }

  lemma LeavingKeeps(l: Loop, c: nat, a: nat, b: nat)
    requires l.Inv() && l.Holds(c) && b != c
    ensures Leaving(l, c).Alive(b) ==> l.Alive(b)
    ensures a != c && Ordered(l, a, b) ==> Ordered(Leaving(l, c), a, b)
  {
    assert l.sys.Owns(c);
    ServingKeepsAlive(l, c, Released, Next(l.sys.lock), b);
    if a != c && Ordered(l, a, b) {
      ServingKeepsOrder(l, c, Released, Next(l.sys.lock), a, b);
    }
  }

  lemma LeavingEndsCall(l: Loop, c: nat, k: Loop)
    requires l.Inv() && l.Holds(c) && k == Leaving(l, c)
    ensures CallEnded(l, k, c)
  {
    OwnerLeaves(l, c);
    forall a, b | b != c ensures k.Alive(b) ==> l.Alive(b)
                         ensures a != c && Ordered(l, a, b) ==> Ordered(k, a, b) {
      LeavingKeeps(l, c, a, b);
    }
    assert forall d | d != c && k.Alive(d) :: l.Alive(d) by {
      forall d | d != c && k.Alive(d) ensures l.Alive(d) {
        LeavingKeeps(l, c, d, d);
      }
    }
  }

  lemma WakingKeeps(l: Loop, c: nat, a: nat, b: nat)
    requires l.Inv() && l.IsHead(c) && l.Done(c) && b != c
    ensures Waking(l, c).Alive(b) ==> l.Alive(b)
    ensures a != c && Ordered(l, a, b) ==> Ordered(Waking(l, c), a, b)
  {
    WakingKeepsAlive(l, c, b);
    if a != c && Ordered(l, a, b) {
      WakingFacts(l, c);
      WakingKeepsOrder(l, c, a, b);
    }
  }

  /** A woken call holds the slot or has ended. */
  lemma WakingEndsCall(l: Loop, c: nat, k: Loop)
    requires l.Inv() && l.IsHead(c) && l.Done(c) && k == Waking(l, c)
    ensures !k.Holds(c) ==> CallEnded(l, k, c)
    ensures k.Holds(c) ==> k.Inv() && CallEnded(l, Leaving(k, c), c)
  {
    WakingFacts(l, c);
    forall a, b | b != c ensures k.Alive(b) ==> l.Alive(b)
                         ensures a != c && Ordered(l, a, b) ==> Ordered(k, a, b) {
      WakingKeeps(l, c, a, b);
    }
    forall d | d != c && k.Alive(d) ensures l.Alive(d) {
      WakingKeeps(l, c, d, d);
    }
    if k.Holds(c) {
      LeavingEndsCall(k, c, Leaving(k, c));
    }
  }

  /** The request `c` of `t` ended, and `k` is where its operation goes on from. */
  ghost predicate EndedIn(t: Traffic, k: Traffic, c: nat) {
    t.Inv() && k == t.(loop := k.loop) && CallEnded(t.loop, k.loop, c) && t.loop.Open(c)
  }

  lemma Halfway(t: Traffic, k: Traffic, c: nat)
    requires EndedIn(t, k, c)
    ensures k.InvBut(c / 2) && InTurn(k, c / 2)
    ensures forall d <- k.loop.sys.calls :: d / 2 == c / 2 ==> !k.loop.Open(d)
  {
    hide System.Inv;
    forall id | id in k.ops && id != c / 2 ensures k.OpOk(id) {
      assert t.OpOk(id);
    }
    forall d | d in k.loop.sys.calls && d / 2 != c / 2 ensures k.CallOk(d) {
      assert t.CallOk(d);
    }
    assert t.CallOk(c) && t.OpOk(c / 2);
    forall d | d in k.loop.sys.calls && d / 2 == c / 2 ensures !k.loop.Open(d) {
      assert t.CallOk(d);
    }
    forall id | id in k.ops ensures k.ReadOk(id) {
      assert t.ReadOk(id);
    }
  }

  /** An operation that is between two requests, or new, asks for one. */
  lemma AskingKeepsInv(t: Traffic, id: nat, op: Op)
    requires t.InvBut(id) && op.Active() && op.Call(id) !in t.loop.sys.calls
    requires op.Call(id) == 2 * id ==> 2 * id + 1 !in t.loop.sys.calls
    requires forall d <- t.loop.sys.calls :: d / 2 == id ==> !t.loop.Open(d)
    requires t.(ops := t.ops[id := op]).ReadOk(id)
    ensures Asking(t, id, op).Inv()
  {
    hide System.Inv;
    var k, c := Asking(t, id, op), op.Call(id);
    ArrivingKeepsInv(t.loop, c, op.Priority());
    forall d | d in k.ops ensures k.OpOk(d) && k.ReadOk(d) {
      AskingKeepsOp(t, id, op, d);
    }
    forall d | d in k.loop.sys.calls ensures k.CallOk(d) && d / 2 in k.ops {
      assert c / 2 == id;
      if d != c {
        assert d / 2 != id ==> t.CallOk(d);
      }
    }
  }

  lemma AskingKeepsOp(t: Traffic, id: nat, op: Op, d: nat)
    requires t.InvBut(id) && op.Active() && op.Call(id) !in t.loop.sys.calls && d in t.ops.Keys + {id}
    requires op.Call(id) == 2 * id ==> 2 * id + 1 !in t.loop.sys.calls
    requires t.(ops := t.ops[id := op]).ReadOk(id)
    ensures Asking(t, id, op).OpOk(d) && Asking(t, id, op).ReadOk(d)
  {
    if d != id {
      assert t.OpOk(d) && t.ReadOk(d) && d != op.Call(id) / 2;
    }
  }

  /** An operation that was between two requests asks for no more. */
  lemma ClosingKeepsInv(t: Traffic, id: nat, op: Op)
    requires t.InvBut(id) && !op.Active() && t.(ops := t.ops[id := op]).ReadOk(id)
    requires forall d <- t.loop.sys.calls :: d / 2 == id ==> !t.loop.Open(d)
    ensures t.(ops := t.ops[id := op]).Inv()
  {
    var k := t.(ops := t.ops[id := op]);
    forall d | d in k.ops ensures k.OpOk(d) && k.ReadOk(d) {
      assert d != id ==> t.OpOk(d) && t.ReadOk(d);
    }
    forall d | d in k.loop.sys.calls ensures k.CallOk(d) && d / 2 in k.ops {
      assert d / 2 != id ==> t.CallOk(d);
    }
  }

  lemma NotingKeepsInv(t: Traffic, device: string, skip: int)
    requires t.InvBut(skip)
    ensures Noted(t, device).InvBut(skip)
  {
    var k := Noted(t, device);
    forall d | d in k.ops ensures k.ReadOk(d) && (d != skip ==> k.OpOk(d)) {
      assert t.ReadOk(d) && (d != skip ==> t.OpOk(d));
    }
    forall d | d in k.loop.sys.calls && d / 2 != skip ensures k.CallOk(d) {
      assert t.CallOk(d);
    }
  }

  lemma WriteGoesOnKeepsInv(t: Traffic, id: nat, outcome: Outcome, valid: bool)
    requires InTurn(t, id) && t.InvBut(id) && t.ops[id].Write?
    requires forall d <- t.loop.sys.calls :: d / 2 == id ==> !t.loop.Open(d)
    ensures GoesOn(t, id, outcome, valid).Inv()
  {
    hide System.Inv;
    var Write(device, kind, stage) := t.ops[id];
    var closed, reading := Write(device, kind, Closed), Write(device, kind, ReadingBack);
    var ended := if kind == Repeater || stage == ReadingBack then t else Noted(t, device);
    NotingKeepsInv(t, device, id);
    NotingKeepsInv(ended, device, id);
    hide Traffic.InvBut;
    if stage == Putting && kind == Plain {
      ClosingKeepsInv(ended, id, closed);
    } else if stage == Putting && outcome == Accepted && valid {
      AskingKeepsInv(ended, id, reading);
    } else {
      ClosingKeepsInv(Noted(ended, device), id, closed);
    }
  }

  lemma GoesOnKeepsInv(t: Traffic, id: nat, outcome: Outcome, valid: bool)
    requires InTurn(t, id) && t.InvBut(id)
    requires forall d <- t.loop.sys.calls :: d / 2 == id ==> !t.loop.Open(d)
    ensures GoesOn(t, id, outcome, valid).Inv()
  {
    hide System.Inv;
    match t.ops[id]
    case Write(_, _, _) =>
      WriteGoesOnKeepsInv(t, id, outcome, valid);
    case Read(device, identity, started, priority, twice, stage) =>
      assert t.ReadOk(id);
      if outcome == Accepted && stage == First && twice && valid {
        AskingKeepsInv(t, id, Read(device, identity, started, priority, twice, Second));
      } else {
        ClosingKeepsInv(t, id, GoesOn(t, id, outcome, valid).ops[id]);
      }
    case Other(priority, _) =>
      ClosingKeepsInv(t, id, Other(priority, true));
  }

  lemma EndingKeepsInv(t: Traffic, k: Traffic, c: nat, outcome: Outcome, valid: bool)
    requires EndedIn(t, k, c)
    ensures InTurn(k, c / 2) && GoesOn(k, c / 2, outcome, valid).Inv()
  {
    Halfway(t, k, c);
    GoesOnKeepsInv(k, c / 2, outcome, valid);
  }

  lemma AnsweredEnds(t: Traffic, c: nat)
    requires t.Inv() && t.loop.IsHead(c) && !t.loop.Done(c)
    ensures t.loop.Alive(c) && t.loop.Holds(c)
    ensures EndedIn(t, t.(loop := Leaving(t.loop, c)), c)
  {
    hide System.Inv;
    assert t.CallOk(c);
    LeavingEndsCall(t.loop, c, Leaving(t.loop, c));
  }

  lemma WokenEnds(t: Traffic, c: nat)
    requires t.Inv() && t.loop.IsHead(c) && t.loop.Done(c)
    ensures var k := Waking(t.loop, c);
            if k.Holds(c) then k.Inv() && t.loop.Alive(c) && EndedIn(t, t.(loop := Leaving(k, c)), c)
            else EndedIn(t, t.(loop := k), c)
  {
    hide System.Inv, CallEnded, Ordered;
    assert t.CallOk(c);
    WakingEndsCall(t.loop, c, Waking(t.loop, c));
  }

  /** What the head of the queue does: it gets the slot, or it ends and its operation goes on. */
  lemma RunsOrEnds(t: Traffic, c: nat, send: bool, valid: bool) returns (k: Traffic, outcome: Outcome, ended: bool)
    requires t.Inv() && t.loop.IsHead(c)
    ensures ended ==>
            EndedIn(t, k, c) && InTurn(k, c / 2) && Runs(t, c, send, valid) == GoesOn(k, c / 2, outcome, valid)
    ensures ended && outcome != Interrupted ==> t.loop.Alive(c)
    ensures ended && outcome == Accepted ==> t.loop.Answered(c)
    ensures !ended ==> t.loop.Done(c) && k == t.(loop := Waking(t.loop, c)) && k == Runs(t, c, send, valid)
                       && k.loop.Holds(c)
  {
    hide System.Inv, CallEnded, EndedIn, Ordered;
    ended := true;
    if !t.loop.Done(c) {
      AnsweredEnds(t, c);
      k, outcome := t.(loop := Leaving(t.loop, c)), t.loop.due[c].outcome;
    } else {
      WokenEnds(t, c);
      k := t.(loop := Waking(t.loop, c));
      if !k.loop.Holds(c) {
        outcome := Interrupted;
      } else if send {
        return k, Failed, false;
      } else {
        k, outcome := t.(loop := Leaving(k.loop, c)), Failed;
      }
    }
    Halfway(t, k, c);
  }

  lemma LeavingAnswersNobody(l: Loop, c: nat, d: nat)
    requires l.Inv() && l.Holds(c)
    ensures Enabled(l.sys, Leave(c)) && Leaving(l, c).Inv()
    ensures Leaving(l, c).Answered(d) ==> l.Answered(d) && d != c
  {
    OwnerLeaves(l, c);
    assert l.sys.Owns(c);
    ServingAnswersNobody(l, c, Released, Next(l.sys.lock), d);
  }

  lemma GoesOnAnswersNobody(t: Traffic, id: nat, outcome: Outcome, valid: bool, d: nat)
    requires InTurn(t, id)
    ensures GoesOn(t, id, outcome, valid).loop.Answered(d) ==> t.loop.Answered(d)
  {
    hide GoesOn, Loop.Inv, Loop.Answered;
    var u := GoesOn(t, id, outcome, valid);
    GoesOnAsks(t, id, outcome, valid);
    if u.loop != t.loop {
      ArrivingAnswersNobody(t.loop, u.ops[id].Call(id), u.ops[id].Priority(), d);
    }
  }

  lemma RunsAnswersNobody(t: Traffic, c: nat, send: bool, valid: bool, d: nat)
    requires t.Inv() && t.loop.IsHead(c)
    ensures Runs(t, c, send, valid).loop.Answered(d) ==> t.loop.Answered(d) && d != c
  {
    hide System.Inv, Ordered, CallEnded, EndedIn, Loop.Answered;
    if !t.loop.Done(c) {
      AnsweredEnds(t, c);
      LeavingAnswersNobody(t.loop, c, d);
      var j := t.(loop := Leaving(t.loop, c));
      Halfway(t, j, c);
      GoesOnAnswersNobody(j, c / 2, t.loop.due[c].outcome, valid, d);
    } else {
      WakingFacts(t.loop, c);
      WokenEnds(t, c);
      WakingAnswersNobody(t.loop, c, d);
      var k := t.(loop := Waking(t.loop, c));
      if !k.loop.Holds(c) {
        Halfway(t, k, c);
        GoesOnAnswersNobody(k, c / 2, Interrupted, valid, d);
      } else if !send {
        LeavingAnswersNobody(k.loop, c, d);
        var j := t.(loop := Leaving(k.loop, c));
        Halfway(t, j, c);
        GoesOnAnswersNobody(j, c / 2, Failed, valid, d);
      }
    }
  }

  lemma RunsKeepsInv(t: Traffic, c: nat, send: bool, valid: bool)
    requires t.Inv() && t.loop.IsHead(c)
    ensures Runs(t, c, send, valid).Inv()
  {
    hide System.Inv;
    var k, outcome, ended := RunsOrEnds(t, c, send, valid);
    if ended {
      EndingKeepsInv(t, k, c, outcome, valid);
    } else {
      SendingKeepsInv(t, c);
    }
  }

  lemma SendingKeepsInv(t: Traffic, c: nat)
    requires t.Inv() && t.loop.IsHead(c) && t.loop.Done(c) && Waking(t.loop, c).Holds(c)
    ensures t.(loop := Waking(t.loop, c)).Inv()
  {
    hide System.Inv;
    WakingFacts(t.loop, c);
    SameCallsKeepInv(t, t.(loop := Waking(t.loop, c)));
  }

  lemma InterruptKeepsInv(t: Traffic, c: nat)
    requires t.Inv() && Enabled(t.loop.sys, Cancel(c))
    ensures t.(loop := Cancelling(t.loop, c)).Inv()
  {
    CancellingKeepsInv(t.loop, c);
    CancellingKeepsCalls(t.loop, c);
    hide System.Inv, Loop.Inv, Cancelling, Loop.Open, Traffic.OpOk, Traffic.CallOk, Traffic.ReadOk;
    SameCallsKeepInv(t, t.(loop := Cancelling(t.loop, c)));
  }

  lemma RespondKeepsInv(t: Traffic, c: nat, outcome: Outcome)
    requires t.Inv() && t.loop.InFlight(c)
    ensures t.(loop := Answering(t.loop, c, outcome)).Inv()
  {
    hide System.Inv;
    AnsweringKeepsInv(t.loop, c, outcome);
    SameCallsKeepInv(t, t.(loop := Answering(t.loop, c, outcome)));
  }

  /** The loop moved, but every call is as open as it was. */
  lemma SameCallsKeepInv(t: Traffic, k: Traffic)
    requires t.Inv() && k == t.(loop := k.loop) && k.loop.Inv() && k.loop.sys.calls.Keys == t.loop.sys.calls.Keys
    requires forall c <- t.loop.sys.calls :: (k.loop.Open(c) <==> t.loop.Open(c))
               && (k.loop.sys.calls[c].Waiting? ==>
                 t.loop.sys.calls[c].Waiting? && k.loop.sys.calls[c].entry == t.loop.sys.calls[c].entry)
    ensures k.Inv()
  {
    hide System.Inv;
    forall id | id in k.ops ensures k.OpOk(id) && k.ReadOk(id) {
      assert t.OpOk(id) && t.ReadOk(id);
    }
    forall c | c in k.loop.sys.calls ensures k.CallOk(c) {
      assert t.CallOk(c);
    }
  }

  lemma BeginWriteKeepsInv(t: Traffic, id: nat, device: string, kind: Kind, admitted: bool, valid: bool)
    requires t.Inv() && id !in t.ops && 2 * id !in t.loop.sys.calls
    ensures WriteBegins(t, id, device, kind, admitted, valid).Inv()
  {
    NewOp(t, id);
    NotingKeepsInv(t, device, id);
    if !admitted {
      ClosingKeepsInv(if kind == Setting then Noted(t, device) else t, id, Write(device, kind, Closed));
    } else if valid {
      AskingKeepsInv(Noted(t, device), id, Write(device, kind, Putting));
    } else {
      var ended := if kind == Setting then Noted(t, device) else t;
      NotingKeepsInv(ended, device, id);
      NotingKeepsInv(Noted(ended, device), device, id);
      ClosingKeepsInv(Noted(Noted(ended, device), device), id, Write(device, kind, Closed));
    }
  }

  lemma BeginReadKeepsInv(t: Traffic, id: nat, device: string, priority: int, twice: bool, valid: bool)
    requires t.Inv() && id !in t.ops && 2 * id !in t.loop.sys.calls && device in t.objects
    ensures ReadBegins(t, id, device, priority, twice, valid).Inv()
  {
    NewOp(t, id);
    var op := Read(device, t.objects[device], t.Count(device), priority, twice, First);
    if valid {
      AskingKeepsInv(t, id, op);
    } else {
      ClosingKeepsInv(t, id, op.(read := Dropped));
    }
  }

  lemma DoKeepsInv(t: Traffic, step: Step)
    requires t.Inv() && CanStep(t, step)
    ensures Do(t, step).Inv()
  {
    hide System.Inv;
    match step
    case BeginWrite(id, device, kind, admitted, valid) =>
      BeginWriteKeepsInv(t, id, device, kind, admitted, valid);
    case BeginRead(id, device, priority, twice, valid) =>
      BeginReadKeepsInv(t, id, device, priority, twice, valid);
    case BeginOther(id, priority) =>
      NewOp(t, id);
      AskingKeepsInv(t, id, Other(priority, false));
    case Interrupt(id) =>
      InterruptKeepsInv(t, t.ops[id].Call(id));
    case Respond(id, outcome) =>
      RespondKeepsInv(t, t.ops[id].Call(id), outcome);
    case Run(c, send, valid) =>
      RunsKeepsInv(t, c, send, valid);
    case Forget(device) =>
      ObjectsKeepInv(t, Do(t, step));
    case Discover(device) =>
      ObjectsKeepInv(t, Do(t, step));
  }

  lemma NewOp(t: Traffic, id: nat)
    requires t.Inv() && id !in t.ops
    ensures t.InvBut(id) && forall d <- t.loop.sys.calls :: d / 2 != id
    ensures 2 * id !in t.loop.sys.calls && 2 * id + 1 !in t.loop.sys.calls
  {
    assert 2 * id / 2 == id && (2 * id + 1) / 2 == id;
  }

  lemma ObjectsKeepInv(t: Traffic, k: Traffic)
    requires t.Inv() && k.loop == t.loop && k.ops == t.ops && k.next >= t.next
    requires forall d <- k.objects :: k.objects[d] < k.next
               && ((d in t.objects && k.objects[d] == t.objects[d] && k.Count(d) == t.Count(d))
                 || k.objects[d] >= t.next)
    ensures k.Inv()
  {
    forall id | id in k.ops ensures k.OpOk(id) && k.ReadOk(id) {
      assert t.OpOk(id) && t.ReadOk(id);
    }
    forall c | c in k.loop.sys.calls ensures k.CallOk(c) {
      assert t.CallOk(c);
    }
  }

  // ---------------------------------------------------------------------------------------
  // Reads and writes stay in order
  // ---------------------------------------------------------------------------------------

  /** A hopeful read at its turn overlaps no write, save for repeater writes reading back. */
  lemma ReadAtItsTurn(t: Traffic, r: nat)
    requires t.Inv() && t.InOrder() && t.Hopeful(r) && t.loop.IsHead(t.ops[r].Call(r))
    ensures forall w :: t.Overlaps(w, r) ==> t.ops[r].read == First && t.Uncounted(w)
  {
    forall w | t.Overlaps(w, r) ensures t.ops[r].read == First && t.Uncounted(w) {
      assert t.InOrderFor(w, r);
      HeadIsNotPreceded(t.loop, t.ops[w].Call(w), t.ops[r].Call(r));
    }
  }

  /** Two operations that stay what they are also stay in order, if the loop keeps them so. */
  lemma OthersStayInOrder(t: Traffic, k: Traffic, w: nat, r: nat)
    requires t.InOrderFor(w, r) && t.ReadOk(r)
    requires w in t.ops && r in t.ops && w in k.ops && k.ops[w] == t.ops[w] && r in k.ops && k.ops[r] == t.ops[r]
    requires k.objects == t.objects && (t.ops[r].Read? ==> k.Count(t.ops[r].device) >= t.Count(t.ops[r].device))
    requires k.loop.Alive(t.ops[r].Call(r)) ==> t.loop.Alive(t.ops[r].Call(r))
    requires Ordered(t.loop, t.ops[w].Call(w), t.ops[r].Call(r)) && k.loop.Alive(t.ops[r].Call(r)) && t.ops[w].Active()
             ==>
               Ordered(k.loop, t.ops[w].Call(w), t.ops[r].Call(r))
    ensures k.InOrderFor(w, r)
  {
    hide Loop.Alive, Ordered;
  }

  lemma CallBelongs(op: Op, id: nat)
    ensures op.Call(id) / 2 == id
  {
  }

  /** A new call joins a loop that has kept two others in order. */
  lemma ThenArriving(l: Loop, k: Loop, c: nat, x: nat, priority: int, a: nat, b: nat)
    requires CallEnded(l, k, c) && a != c && b != c && x !in k.sys.calls && b != x
    ensures Arriving(k, x, priority).Alive(b) ==> l.Alive(b)
    ensures Ordered(l, a, b) ==> Ordered(Arriving(k, x, priority), a, b)
  {
    hide System.Inv;
    if Ordered(l, a, b) {
      ArrivingKeepsOrder(k, x, priority, a, b);
    }
  }

  /** The pairs a step of `id` does not touch. */
  lemma GoesOnLeavesOthers(t: Traffic, k: Traffic, c: nat, outcome: Outcome, valid: bool, w: nat, r: nat)
    requires EndedIn(t, k, c) && InTurn(k, c / 2) && t.InOrderFor(w, r) && w != c / 2 && r != c / 2
    ensures GoesOn(k, c / 2, outcome, valid).InOrderFor(w, r)
  {
    hide System.Inv, Loop.Inv, Ordered, Loop.Alive;
    var u := GoesOn(k, c / 2, outcome, valid);
    if u.Overlaps(w, r) {
      GoesOnLeaves(k, c / 2, outcome, valid, w);
      GoesOnLeaves(k, c / 2, outcome, valid, r);
      var a, b := t.ops[w].Call(w), t.ops[r].Call(r);
      CallBelongs(t.ops[w], w);
      CallBelongs(t.ops[r], r);
      assert t.ReadOk(r) && b != c && a != c;
      if u.loop != k.loop {
        GoesOnAsks(k, c / 2, outcome, valid);
        var x := u.ops[c / 2].Call(c / 2);
        CallBelongs(u.ops[c / 2], c / 2);
        ThenArriving(t.loop, k.loop, c, x, u.ops[c / 2].Priority(), a, b);
      }
      hide GoesOn, CallEnded;
      OthersStayInOrder(t, u, w, r);
    }
  }

  lemma NotedCountsMore(t: Traffic, device: string)
    ensures Noted(t, device) == t.(counts := Noted(t, device).counts)
    ensures forall other :: Noted(t, device).Count(other) >= t.Count(other)
  {
  }

  /** An operation that goes on leaves the others, and counts only go up. */
  lemma GoesOnLeaves(k: Traffic, id: nat, outcome: Outcome, valid: bool, other: nat)
    requires InTurn(k, id) && other != id
    ensures
      var u := GoesOn(k, id, outcome, valid);
      && (other in u.ops <==> other in k.ops) && (other in k.ops ==> u.ops[other] == k.ops[other])
      && u.objects == k.objects
      && forall device :: u.Count(device) >= k.Count(device)
  {
    forall t: Traffic, device { NotedCountsMore(t, device); }
    hide System.Inv, Loop.Inv, Arriving, Noted, Compared;
    if k.ops[id].Read? {
      ComparedLeaves(k, id);
    }
  }

  lemma ComparedLeaves(k: Traffic, id: nat)
    requires id in k.ops && k.ops[id].Read?
    ensures forall both :: Compared(k, id, both) == k.(ops := k.ops[id := Compared(k, id, both).ops[id]])
  {
  }

  lemma GoesOnAsks(k: Traffic, id: nat, outcome: Outcome, valid: bool)
    requires InTurn(k, id)
    ensures
      var u := GoesOn(k, id, outcome, valid);
      u.loop != k.loop ==>
        id in u.ops && u.ops[id].Call(id) !in k.loop.sys.calls
          && u.loop == Arriving(k.loop, u.ops[id].Call(id), u.ops[id].Priority())
  {
    hide System.Inv, Loop.Inv, Arriving;
  }

  /** The read is the same, but for how far it is. */
  ghost predicate SameRead(t: Traffic, k: Traffic, r: nat) {
    r in t.ops && r in k.ops && t.ops[r].Read? && k.ops[r].Read? && k.ops[r] == t.ops[r].(read := k.ops[r].read)
  }

  /** A read that goes on: it is the same read, and adopts only what is clean. */
  lemma ReadGoesOn(j: Traffic, r: nat, outcome: Outcome, valid: bool)
    requires InTurn(j, r) && j.ops[r].Read?
    ensures
      var u := GoesOn(j, r, outcome, valid);
      && SameRead(j, u, r) && u.counts == j.counts && u.objects == j.objects
      && (u.ops[r].read.Adopted? ==> j.Clean(j.ops[r]) && (j.ops[r].read == First ==> !(j.ops[r].twice && valid)))
      && (outcome == Accepted && j.ops[r].read == First && j.Clean(j.ops[r]) && !(j.ops[r].twice && valid) ==>
            u.ops[r].read == Adopted(false))
      && u.ops[r].read != First && (u.ops[r].read == Second ==> j.ops[r].read == First && outcome == Accepted)
      && (u.ops[r].read == Second ==> u.loop == Arriving(j.loop, 2 * r + 1, j.ops[r].priority))
      && (u.ops[r].read.Adopted? && (j.ops[r].read == First || u.ops[r].read.both) ==> outcome == Accepted)
      && (u.ops[r].read.Adopted? && u.ops[r].read.both ==> j.ops[r].read == Second)
  {
    hide System.Inv, Loop.Inv, Arriving;
  }

  /** The read whose request ended. */
  lemma ReadGoesOnInOrder(t: Traffic, k: Traffic, c: nat, outcome: Outcome, valid: bool, w: nat)
    requires EndedIn(t, k, c) && InTurn(k, c / 2) && t.InOrder() && t.loop.IsHead(c) && t.ops[c / 2].Read?
    requires outcome != Interrupted ==> t.loop.Alive(c)
    ensures GoesOn(k, c / 2, outcome, valid).InOrderFor(w, c / 2)
  {
    hide System.Inv, Loop.Alive, Ordered, Loop.Precedes, GoesOn, Arriving;
    var u, id := GoesOn(k, c / 2, outcome, valid), c / 2;
    ReadGoesOn(k, id, outcome, valid);
    if w != id {
      GoesOnLeaves(k, id, outcome, valid, w);
    }
    if u.Hopeful(id) && u.Overlaps(w, id) {
      assert t.CallOk(c) && u.ops[id].read == Second && w != id;
      ReadAtItsTurn(t, id);
      assert t.Overlaps(w, id) && t.OpOk(w);
      CallBelongs(t.ops[w], w);
      var a := t.ops[w].Call(w);
      assert t.CallOk(a) && k.loop.sys.calls[a] == t.loop.sys.calls[a];
      NewcomerIsLast(k.loop, a, u.ops[id].Call(id), u.ops[id].priority);
    }
  }

  /** The write whose request ended: it was counted, or is a repeater write that reads back. */
  lemma WriteGoesOnInOrder(t: Traffic, k: Traffic, c: nat, outcome: Outcome, valid: bool, r: nat)
    requires EndedIn(t, k, c) && InTurn(k, c / 2) && t.InOrderFor(c / 2, r) && t.ops[c / 2].Write?
    ensures GoesOn(k, c / 2, outcome, valid).InOrderFor(c / 2, r)
  {
    hide System.Inv, Loop.Inv, Ordered;
    var u, id := GoesOn(k, c / 2, outcome, valid), c / 2;
    if u.Hopeful(r) && u.Overlaps(id, r) {
      var op := t.ops[id];
      assert t.ReadOk(r) && u.ops[id].put == ReadingBack && op.put == Putting;
      assert op.kind == Repeater;
      var b := t.ops[r].Call(r);
      CallBelongs(t.ops[r], r);
      assert u.loop.Alive(b) ==> t.loop.Alive(b) by {
        ThenArriving(t.loop, k.loop, c, u.ops[id].Call(id), QUERY, b, b);
      }
    }
  }

  lemma RunsKeepsOrder(t: Traffic, c: nat, send: bool, valid: bool, w: nat, r: nat)
    requires t.Inv() && t.InOrder() && t.loop.IsHead(c)
    ensures Runs(t, c, send, valid).InOrderFor(w, r)
  {
    hide System.Inv, Loop.Inv, CallEnded, Ordered, Loop.Alive;
    var k, outcome, ended := RunsOrEnds(t, c, send, valid);
    assert t.InOrderFor(w, r) && t.CallOk(c);
    if !ended {
      SendingKeepsOrder(t, c, w, r);
    } else if r == c / 2 && t.ops[c / 2].Read? {
      ReadGoesOnInOrder(t, k, c, outcome, valid, w);
    } else if w == c / 2 && t.ops[c / 2].Write? {
      WriteGoesOnInOrder(t, k, c, outcome, valid, r);
    } else if w != c / 2 && r != c / 2 {
      GoesOnLeavesOthers(t, k, c, outcome, valid, w, r);
    }
  }

  lemma SendingKeepsOrder(t: Traffic, c: nat, w: nat, r: nat)
    requires t.Inv() && t.InOrderFor(w, r) && t.loop.IsHead(c) && t.loop.Done(c)
    requires Waking(t.loop, c).Holds(c)
    ensures t.(loop := Waking(t.loop, c)).InOrderFor(w, r)
  {
    hide System.Inv, Loop.Inv, Loop.Precedes;
    var k := t.(loop := Waking(t.loop, c));
    if k.Hopeful(r) && k.Overlaps(w, r) {
      assert t.OpOk(w) && t.OpOk(r);
      WakingKeepsPair(t.loop, c, t.ops[w].Call(w), t.ops[r].Call(r));
    }
  }

  lemma WakingKeepsPair(l: Loop, c: nat, a: nat, b: nat)
    requires l.Inv() && l.IsHead(c) && l.Done(c) && Waking(l, c).Holds(c) && l.Open(a)
    ensures Waking(l, c).Alive(b) ==> l.Alive(b)
    ensures Ordered(l, a, b) ==> Ordered(Waking(l, c), a, b)
  {
    hide System.Inv, Loop.Precedes;
    WakingFacts(l, c);
    if b != c {
      WakingKeepsAlive(l, c, b);
    }
    if Ordered(l, a, b) {
      WakingKeepsOrder(l, c, a, b);
    }
  }

  lemma InterruptKeepsOrder(t: Traffic, c: nat, w: nat, r: nat)
    requires t.Inv() && t.InOrderFor(w, r) && Enabled(t.loop.sys, Cancel(c))
    ensures t.(loop := Cancelling(t.loop, c)).InOrderFor(w, r)
  {
    hide System.Inv, Loop.Precedes;
    var k := t.(loop := Cancelling(t.loop, c));
    if k.Hopeful(r) && k.Overlaps(w, r) {
      var a, b := t.ops[w].Call(w), t.ops[r].Call(r);
      assert b != c && t.loop.Alive(b);
      if Ordered(t.loop, a, b) {
        CancellingKeepsOrder(t.loop, c, a, b);
      }
    }
  }

  lemma RespondKeepsOrder(t: Traffic, c: nat, outcome: Outcome, w: nat, r: nat)
    requires t.Inv() && t.InOrderFor(w, r) && t.loop.InFlight(c)
    ensures t.(loop := Answering(t.loop, c, outcome)).InOrderFor(w, r)
  {
    hide System.Inv, Loop.Precedes;
    if w in t.ops && r in t.ops {
      var a, b := t.ops[w].Call(w), t.ops[r].Call(r);
      if Ordered(t.loop, a, b) {
        AnsweringKeepsOrder(t.loop, c, outcome, a, b);
      }
    }
  }

  /** A new operation asks for its first request. */
  lemma BeginKeepsOrder(t: Traffic, k: Traffic, id: nat, op: Op, w: nat, r: nat)
    requires t.Inv() && t.InOrderFor(w, r) && id !in t.ops && op.Call(id) == 2 * id && 2 * id !in t.loop.sys.calls
    requires k == t.(counts := k.counts, loop := k.loop, ops := t.ops[id := op])
    requires k.loop == t.loop || k.loop == Arriving(t.loop, 2 * id, op.Priority())
    requires forall d :: k.Count(d) >= t.Count(d)
    requires op.Write? && op.Active() ==> k.Count(op.device) > t.Count(op.device)
    requires op.Read? && op.Active() ==> op.read == First && k.loop == Arriving(t.loop, 2 * id, op.Priority())
    ensures k.InOrderFor(w, r)
  {
    hide System.Inv, Loop.Precedes;
    if k.Hopeful(r) && k.Overlaps(w, r) {
      if r == id {
        var a := t.ops[w].Call(w);
        CallBelongs(t.ops[w], w);
        assert t.OpOk(w) && t.CallOk(a);
        NewcomerIsLast(t.loop, a, 2 * id, op.priority);
      } else if w != id {
        var a, b := t.ops[w].Call(w), t.ops[r].Call(r);
        CallBelongs(t.ops[r], r);
        assert t.ReadOk(r) && b != 2 * id;
        if k.loop != t.loop && Ordered(t.loop, a, b) {
          ArrivingKeepsOrder(t.loop, 2 * id, op.Priority(), a, b);
        }
        OthersStayInOrder(t, k, w, r);
      }
    }
  }

  lemma BeginsInOrder(t: Traffic, step: Step, k: Traffic, w: nat, r: nat)
    requires t.Inv() && t.InOrderFor(w, r) && CanStep(t, step) && k == Do(t, step)
    requires step.BeginWrite? || step.BeginRead? || step.BeginOther?
    ensures k.InOrderFor(w, r)
  {
    hide System.Inv, Loop.Inv, Traffic.InOrderFor, Loop.Alive, Arriving, Traffic.InvBut;
    NewOp(t, step.id);
    BeginKeepsOrder(t, k, step.id, k.ops[step.id], w, r);
  }

  lemma DoKeepsOrder(t: Traffic, step: Step)
    requires t.Inv() && t.InOrder() && CanStep(t, step)
    ensures Do(t, step).InOrder()
  {
    hide System.Inv, Loop.Inv, Traffic.InOrderFor, Loop.Alive;
    var k := Do(t, step);
    forall w, r ensures k.InOrderFor(w, r) {
      assert t.InOrderFor(w, r);
      match step
      case BeginWrite(_, _, _, _, _) =>
        BeginsInOrder(t, step, k, w, r);
      case BeginRead(_, _, _, _, _) =>
        BeginsInOrder(t, step, k, w, r);
      case BeginOther(_, _) =>
        BeginsInOrder(t, step, k, w, r);
      case Interrupt(id) =>
        InterruptKeepsOrder(t, t.ops[id].Call(id), w, r);
      case Respond(id, outcome) =>
        RespondKeepsOrder(t, t.ops[id].Call(id), outcome, w, r);
      case Run(c, send, valid) =>
        RunsKeepsOrder(t, c, send, valid, w, r);
      case Forget(_) =>
        ObjectsKeepOrder(t, k, w, r);
      case Discover(_) =>
        ObjectsKeepOrder(t, k, w, r);
    }
  }

  lemma ObjectsKeepOrder(t: Traffic, k: Traffic, w: nat, r: nat)
    requires t.InOrderFor(w, r) && t.ReadOk(r) && k.loop == t.loop && k.ops == t.ops
    requires forall d <- k.objects ::
             (d in t.objects && k.objects[d] == t.objects[d] && k.Count(d) == t.Count(d)) || k.objects[d] >= t.next
    ensures k.InOrderFor(w, r)
  {
    hide Loop.Alive, Ordered;
  }

  // ---------------------------------------------------------------------------------------
  // What an adopted read means
  // ---------------------------------------------------------------------------------------

  ghost predicate Good(t: Traffic) { t.Inv() && t.InOrder() }

  ghost predicate Steps(t: Traffic, steps: seq<Step>)
    requires Good(t)
    decreases |steps|
  {
    steps == []
    || (CanStep(t, steps[0])
        && (DoKeepsInv(t, steps[0]); DoKeepsOrder(t, steps[0]); Steps(Do(t, steps[0]), steps[1..])))
  }

  ghost function Reached(t: Traffic, steps: seq<Step>): (u: Traffic)
    requires Good(t) && Steps(t, steps)
    ensures Good(u)
    decreases |steps|
  {
    if steps == [] then t
    else (DoKeepsInv(t, steps[0]); DoKeepsOrder(t, steps[0]); Reached(Do(t, steps[0]), steps[1..]))
  }

  lemma EmptyIsGood()
    ensures Good(EMPTY)
  {
    StartInv();
  }

  /** `r` is a read that has not ended, asked for no more urgently than writes are. */
  ghost predicate Reading(t: Traffic, r: nat) {
    r in t.ops && t.ops[r].Read? && t.ops[r].Active() && t.ops[r].priority >= QUERY
  }

  /** A step leaves the operations there are as they are, or is one at its turn going on. */
  lemma StepShape(t: Traffic, step: Step, k: Traffic) returns (j: Traffic, outcome: Outcome, goesOn: bool)
    requires t.Inv() && CanStep(t, step) && k == Do(t, step)
    ensures goesOn ==>
              && step.Run? && step.call / 2 in t.ops && t.ops[step.call / 2].Call(step.call / 2) == step.call
              && j == t.(loop := j.loop) && InTurn(j, step.call / 2)
              && k == GoesOn(j, step.call / 2, outcome, step.valid)
              && t.loop.IsHead(step.call) && (outcome != Interrupted ==> t.loop.Alive(step.call))
              && (outcome == Accepted ==> t.loop.Answered(step.call))
    ensures !goesOn ==> forall id <- t.ops :: id in k.ops && k.ops[id] == t.ops[id]
    ensures !goesOn && step.Run? ==> k.ops == t.ops
    ensures !goesOn ==>
            forall d <- k.objects ::
              (d in t.objects && k.objects[d] == t.objects[d] && k.Count(d) >= t.Count(d)) || k.objects[d] >= t.next
  {
    hide System.Inv, Loop.Inv, Ordered, Loop.Alive, CallEnded, Runs;
    j, outcome, goesOn := t, Failed, false;
    if step.Run? {
      j, outcome, goesOn := RunsOrEnds(t, step.call, step.send, step.valid);
      assert t.CallOk(step.call);
    } else {
      OthersLeave(t, step, k);
      hide Do;
    }
  }

  lemma OthersLeave(t: Traffic, step: Step, k: Traffic)
    requires t.Inv() && CanStep(t, step) && k == Do(t, step) && !step.Run?
    ensures forall id <- t.ops :: id in k.ops && k.ops[id] == t.ops[id]
    ensures forall d <- k.objects ::
              (d in t.objects && k.objects[d] == t.objects[d] && k.Count(d) >= t.Count(d)) || k.objects[d] >= t.next
  {
    hide System.Inv, Loop.Inv, Arriving, Cancelling, Answering;
  }

  lemma StepOfARead(t: Traffic, step: Step, k: Traffic, r: nat)
    requires t.Inv() && CanStep(t, step) && k == Do(t, step) && r in t.ops && t.ops[r].Read?
    ensures SameRead(t, k, r)
    ensures !t.ops[r].Active() ==> k.ops[r] == t.ops[r]
    ensures !t.Clean(t.ops[r]) ==> !k.Clean(k.ops[r])
    ensures k.ops[r].read.Adopted? && t.ops[r].Active() ==> t.Clean(t.ops[r])
  {
    hide System.Inv, Loop.Inv, Loop.Alive, CanStep, Do, GoesOn;
    assert t.ReadOk(r);
    var j, outcome, goesOn := StepShape(t, step, k);
    if goesOn && r == step.call / 2 {
      ReadGoesOn(j, r, outcome, step.valid);
    } else if goesOn {
      GoesOnLeaves(j, step.call / 2, outcome, step.valid, r);
    }
  }

  /** At the step that adopts, the only writes of the device that are open are repeater writes
      reading back; and then it is the first answer of the read that ends it, because it asks for
      no second one or that one is refused at once. */
  lemma AdoptionOverlapsNothing(t: Traffic, step: Step, k: Traffic, w: nat, r: nat)
    requires t.Inv() && t.InOrder() && CanStep(t, step) && k == Do(t, step) && Reading(t, r) && t.Overlaps(w, r)
    requires r in k.ops && k.ops[r].Read? && k.ops[r].read.Adopted?
    ensures t.Uncounted(w) && !k.ops[r].read.both
    ensures step.Run? && step.call == 2 * r && t.ops[r].read == First && (!t.ops[r].twice || !step.valid)
  {
    hide System.Inv, Loop.Inv, Loop.Alive, CanStep, Do, Traffic.InOrder, Traffic.InOrderFor;
    StepOfARead(t, step, k, r);
    var j, outcome, goesOn := StepShape(t, step, k);
    assert t.Hopeful(r);
    ReadAtItsTurn(t, r);
    ReadGoesOn(j, r, outcome, step.valid);
  }

  /** The first answer of a clean read, at its turn: it is adopted exactly if the read asks for no
      second one or that one is refused at once, whatever writes are open. */
  lemma FirstAnswerIsAdoptedExactlyIf(t: Traffic, step: Step, r: nat)
    requires t.Inv() && r in t.ops && t.ops[r].Read? && t.ops[r].read == First && t.Clean(t.ops[r])
    requires step.Run? && step.call == 2 * r && CanStep(t, step)
    requires !t.loop.Done(step.call) && t.loop.due[step.call].outcome == Accepted
    ensures Do(t, step).ops[r].read.Adopted? <==> !(t.ops[r].twice && step.valid)
  {
    hide System.Inv, Loop.Inv, Ordered, CallEnded, EndedIn;
    AnsweredEnds(t, step.call);
    var j := t.(loop := Leaving(t.loop, step.call));
    Halfway(t, j, step.call);
    ReadGoesOn(j, r, Accepted, step.valid);
  }

  /** A write that ends while a read is under way leaves it unclean. */
  /** A write that goes on is open, or it was counted and the read is unclean. */
  lemma WriteGoesOn(j: Traffic, w: nat, outcome: Outcome, valid: bool)
    requires InTurn(j, w) && j.ops[w].Write?
    ensures
      var u, device := GoesOn(j, w, outcome, valid), j.ops[w].device;
      && w in u.ops && u.ops[w].Write? && u.ops[w].kind == j.ops[w].kind && u.ops[w].device == device
      && (u.ops[w].Active() || u.Count(device) > j.Count(device))
  {
    hide System.Inv, Loop.Inv, Arriving;
  }

  lemma OpenOrCounted(t: Traffic, step: Step, k: Traffic, w: nat, r: nat)
    requires t.Inv() && CanStep(t, step) && k == Do(t, step) && t.Overlaps(w, r) && t.Clean(t.ops[r])
    ensures SameRead(t, k, r) && w in k.ops && k.ops[w].Write? && k.ops[w].kind == t.ops[w].kind
    ensures k.Overlaps(w, r) || !k.Clean(k.ops[r])
  {
    hide System.Inv, Loop.Inv, Loop.Alive, CanStep, Do, GoesOn;
    StepOfARead(t, step, k, r);
    var j, outcome, goesOn := StepShape(t, step, k);
    if goesOn {
      var id := step.call / 2;
      if id == w {
        WriteGoesOn(j, w, outcome, step.valid);
        GoesOnLeaves(j, w, outcome, step.valid, r);
      } else {
        GoesOnLeaves(j, id, outcome, step.valid, w);
      }
    }
  }

  lemma {:induction false} UncleanIsNeverAdopted(t: Traffic, steps: seq<Step>, r: nat)
    requires Good(t) && Steps(t, steps) && r in t.ops && t.ops[r].Read?
    requires !t.ops[r].Active() || !t.Clean(t.ops[r])
    ensures SameRead(t, Reached(t, steps), r)
    ensures Reached(t, steps).ops[r].read.Adopted? ==> Reached(t, steps).ops[r] == t.ops[r]
    decreases |steps|
  {
    hide Traffic.Inv, Traffic.InOrder;
    if steps != [] {
      DoKeepsInv(t, steps[0]);
      DoKeepsOrder(t, steps[0]);
      StepOfARead(t, steps[0], Do(t, steps[0]), r);
      UncleanIsNeverAdopted(Do(t, steps[0]), steps[1..], r);
    }
  }

  /** The second request of the read is refused at once. */
  predicate SecondRefused(steps: seq<Step>, r: nat) {
    exists step <- steps :: step.Run? && step.call == 2 * r && !step.valid
  }

  /** In every interleaving: a read that is under way at the same time as a write of the same
      device, at any moment, is never adopted, unless the write is a repeater write and the read
      makes no second request; one that asks for the repeater mode as well must be refused it. */
  lemma {:induction false} AdoptedReadsOverlapNoWrite(t: Traffic, steps: seq<Step>, w: nat, r: nat)
    requires Good(t) && Steps(t, steps) && Reading(t, r) && t.Overlaps(w, r)
    ensures SameRead(t, Reached(t, steps), r)
    ensures Reached(t, steps).ops[r].read.Adopted? ==>
              && t.ops[w].kind == Repeater && !Reached(t, steps).ops[r].read.both
              && (t.ops[r].twice ==> SecondRefused(steps, r))
    decreases |steps|
  {
    hide Traffic.Inv, Traffic.InOrder;
    if !t.Clean(t.ops[r]) {
      UncleanIsNeverAdopted(t, steps, r);
    } else if steps != [] {
      var k := Do(t, steps[0]);
      DoKeepsInv(t, steps[0]);
      DoKeepsOrder(t, steps[0]);
      OpenOrCounted(t, steps[0], k, w, r);
      if k.ops[r].Active() && k.Overlaps(w, r) {
        AdoptedReadsOverlapNoWrite(k, steps[1..], w, r);
        assert forall step <- steps[1..] :: step in steps;
      } else {
        if k.ops[r].read.Adopted? {
          AdoptionOverlapsNothing(t, steps[0], k, w, r);
        }
        UncleanIsNeverAdopted(k, steps[1..], r);
      }
    }
  }
}
