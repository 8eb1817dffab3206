/** What devices hold, what answers tell and what is shown, while settings are read and written.

    A device may take the value of a write at any moment while the write is open, and as often as
    it likes; each time it holds a new version. An answer tells the version of the moment it was
    given, and an adopted answer is shown. */
module SettingVersions {
  import opened Options
  import opened EventLoop
  import opened SettingsTraffic

  /** The repeater mode is written and read apart from everything else. */
  datatype Part = Parameters | Mode

  function PartOf(kind: Kind): Part { if kind == Repeater then Mode else Parameters }

  /** `told` is what the answers to an operation told of a part, `shown` what is shown of the known
      devices; `target` is the identity of the device a write was begun for. */
  datatype Versions = Versions(t: Traffic, held: map<(string, Part), nat>, told: map<(nat, Part), nat>,
                               shown: map<(string, Part), nat>, target: map<nat, Option<nat>>) {
    function Held(device: string, part: Part): nat { if (device, part) in held then held[(device, part)] else 0 }

    function Told(id: nat, part: Part): nat { if (id, part) in told then told[(id, part)] else 0 }

    /** The answer to the last request of the operation has come, and it has not been taken up. */
    ghost predicate Answered(id: nat) { id in t.ops && t.ops[id].Active() && t.loop.Answered(t.ops[id].Call(id)) }

    /** The answer is what the device holds, unless a write of the part is open. */
    ghost predicate Fresh(r: nat, part: Part)
      requires r in t.ops && t.ops[r].Read?
    {
      Told(r, part) == Held(t.ops[r].device, part)
      || exists w :: t.Overlaps(w, r) && PartOf(t.ops[w].kind) == part
    }

    ghost predicate ReadOk(r: nat) {
      r in t.ops && t.ops[r].Read? ==>
        && t.ops[r].priority >= QUERY
        && (t.ops[r].Active() && t.Clean(t.ops[r]) ==>
              && (t.ops[r].read == Second || Answered(r) ==> Fresh(r, Parameters))
              && (t.ops[r].read == Second && Answered(r) ==> Fresh(r, Mode)))
    }

    /** A read-back tells nothing older than what is shown. */
    ghost predicate WriteOk(w: nat) {
      w in t.ops && t.ops[w].Write? && t.ops[w].put == ReadingBack && Answered(w) ==>
        var device, part := t.ops[w].device, PartOf(t.ops[w].kind);
        && Told(w, part) <= Held(device, part)
        && ((device, part) in shown ==> shown[(device, part)] <= Told(w, part))
    }

    ghost predicate Inv() {
      && Good(t)
      && (forall key <- shown :: shown[key] <= Held(key.0, key.1))
      && (forall id <- t.ops :: ReadOk(id) && WriteOk(id))
    }
  }

  const START := Versions(EMPTY, map[], map[], map[], map[])

  /** A step of the traffic, and whether a read-back it takes up is shown; or the device takes the
      value of a write. */
  datatype Event = Moves(step: Step, shows: bool) | Takes(w: nat)

  ghost predicate CanHappen(v: Versions, e: Event)
    requires Good(v.t)
  {
    match e
    case Moves(step, _) => CanStep(v.t, step) && (step.BeginRead? ==> step.priority >= QUERY)
    case Takes(w) => w in v.t.ops && v.t.ops[w].Write? && v.t.ops[w].Active()
  }

  function ToldAfter(v: Versions, step: Step): map<(nat, Part), nat> {
    if step.Respond? && step.id in v.t.ops then
      match v.t.ops[step.id]
      case Write(device, kind, _) => v.told[(step.id, PartOf(kind)) := v.Held(device, PartOf(kind))]
      case Read(device, _, _, _, _, stage) =>
        var part := if stage == Second then Mode else Parameters;
        v.told[(step.id, part) := v.Held(device, part)]
      case _ => v.told
    else v.told
  }

  /** The read is adopted by the step. */
  predicate Adopts(t: Traffic, k: Traffic, r: nat) {
    r in t.ops && r in k.ops && t.ops[r].Read? && k.ops[r].Read? && t.ops[r].Active() && k.ops[r].read.Adopted?
  }

  /** The read-back of the write is taken up by the step, for the device the write was begun for. */
  ghost predicate TakesUp(v: Versions, k: Traffic, step: Step, w: nat) {
    && step.Run? && step.call == 2 * w + 1 && w in v.t.ops && v.t.ops[w].Write? && v.t.ops[w].put == ReadingBack
    && w in k.ops && !k.ops[w].Active()
    && v.t.loop.Answered(step.call) && v.t.loop.due[step.call].outcome == Accepted
    && w in v.target && v.target[w].Some?
    && v.t.ops[w].device in k.objects && k.objects[v.t.ops[w].device] == v.target[w].value
  }

  ghost function ShownAfter(v: Versions, k: Traffic, step: Step, shows: bool): map<(string, Part), nat> {
    match step
    case Forget(device) => v.shown - {(device, Parameters), (device, Mode)}
    case Run(call, _, _) =>
      var id := call / 2;
      if Adopts(v.t, k, id) then
        var device := v.t.ops[id].device;
        var shown := v.shown[(device, Parameters) := v.Told(id, Parameters)];
        if k.ops[id].read.both then shown[(device, Mode) := v.Told(id, Mode)] else shown
      else if shows && TakesUp(v, k, step, id) then
        var part := PartOf(v.t.ops[id].kind);
        v.shown[(v.t.ops[id].device, part) := v.Told(id, part)]
      else v.shown
    case _ => v.shown
  }

  function TargetAfter(v: Versions, step: Step): map<nat, Option<nat>> {
    if step.BeginWrite? then
      var device := step.device;
      v.target[step.id := if device in v.t.objects then Some(v.t.objects[device]) else None]
    else v.target
  }

  ghost function Happens(v: Versions, e: Event): Versions
    requires Good(v.t) && CanHappen(v, e)
  {
    match e
    case Moves(step, shows) =>
      var k := Do(v.t, step);
      Versions(k, v.held, ToldAfter(v, step), ShownAfter(v, k, step, shows), TargetAfter(v, step))
    case Takes(w) =>
      var device, part := v.t.ops[w].device, PartOf(v.t.ops[w].kind);
      v.(held := v.held[(device, part) := v.Held(device, part) + 1])
  }

  // ---------------------------------------------------------------------------------------
  // Every event keeps the answers right
  // ---------------------------------------------------------------------------------------

  /** An operation whose answer waits has not moved, and the answer waited before or just came. */
  lemma AnsweredBefore(v: Versions, e: Event, id: nat)
    requires Good(v.t) && CanHappen(v, e) && Happens(v, e).Answered(id)
    ensures id in v.t.ops && v.t.ops[id] == Happens(v, e).t.ops[id]
    ensures v.Answered(id) || (e.Moves? && e.step.Respond? && e.step.id == id)
  {
    if e.Moves? {
      StepAnswers(v.t, e.step, Do(v.t, e.step), id);
    }
  }

  lemma BeginningAnswersNobody(t: Traffic, id: nat, priority: int, c: nat)
    requires t.Inv() && id !in t.ops && 2 * id !in t.loop.sys.calls
    ensures Arriving(t.loop, 2 * id, priority).Answered(c) ==> t.loop.Answered(c)
    ensures t.loop.Answered(c) ==> c / 2 != id
  {
    hide LockRuns.System.Inv;
    ArrivingAnswersNobody(t.loop, 2 * id, priority, c);
    hide Loop.Inv, Arriving;
  }

  lemma RunAnswers(t: Traffic, step: Step, k: Traffic, id: nat)
    requires t.Inv() && CanStep(t, step) && k == Do(t, step) && step.Run?
    requires id in k.ops && k.ops[id].Active() && k.loop.Answered(k.ops[id].Call(id))
    ensures id in t.ops && k.ops[id] == t.ops[id]
    ensures t.loop.Answered(t.ops[id].Call(id)) && t.ops[id].Call(id) != step.call
  {
    hide LockRuns.System.Inv, Loop.Inv, Ordered, Loop.Alive, GoesOn;
    var c := k.ops[id].Call(id);
    CallBelongs(k.ops[id], id);
    RunsAnswersNobody(t, step.call, step.send, step.valid, c);
    var j, outcome, goesOn := StepShape(t, step, k);
    assert t.CallOk(c);
    if goesOn && id != step.call / 2 {
      GoesOnLeaves(j, step.call / 2, outcome, step.valid, id);
    }
    hide Do;
  }

  lemma StepAnswers(t: Traffic, step: Step, k: Traffic, id: nat)
    requires Good(t) && CanStep(t, step) && k == Do(t, step)
    requires id in k.ops && k.ops[id].Active() && k.loop.Answered(k.ops[id].Call(id))
    ensures id in t.ops && k.ops[id] == t.ops[id]
    ensures t.loop.Answered(t.ops[id].Call(id)) || (step.Respond? && step.id == id)
  {
    hide LockRuns.System.Inv, Loop.Inv, Ordered, Traffic.InOrder, Arriving, Loop.Answered;
    var c := k.ops[id].Call(id);
    CallBelongs(k.ops[id], id);
    match step
    case Run(_, _, _) =>
      RunAnswers(t, step, k, id);
    case Interrupt(x) => CancellingAnswersNobody(t.loop, t.ops[x].Call(x), c);
    case Respond(x, outcome) =>
      CallBelongs(t.ops[x], x);
      AnsweringAnswersOne(t.loop, t.ops[x].Call(x), outcome, c);
    case BeginWrite(x, _, _, _, _) => NewOp(t, x); BeginningAnswersNobody(t, x, QUERY, c);
    case BeginRead(x, _, priority, _, _) => NewOp(t, x); BeginningAnswersNobody(t, x, priority, c);
    case BeginOther(x, priority) => NewOp(t, x); BeginningAnswersNobody(t, x, priority, c);
    case _ =>
  }

  lemma GoesOnAsItIs(t: Traffic, id: nat, outcome: Outcome, valid: bool)
    requires InTurn(t, id)
    ensures
      var u := GoesOn(t, id, outcome, valid);
      && id in u.ops && (u.ops[id].Read? <==> t.ops[id].Read?)
      && (t.ops[id].Write? ==> u.ops[id].Write? && u.ops[id] == t.ops[id].(put := u.ops[id].put))
  {
    hide LockRuns.System.Inv, Loop.Inv, Arriving;
  }

  /** Reads stay reads, and writes stay the same writes. */
  lemma StaysAsItIs(t: Traffic, step: Step, k: Traffic, id: nat)
    requires t.Inv() && CanStep(t, step) && k == Do(t, step) && id in t.ops
    ensures id in k.ops && (k.ops[id].Read? <==> t.ops[id].Read?)
    ensures t.ops[id].Write? ==> k.ops[id].Write? && k.ops[id] == t.ops[id].(put := k.ops[id].put)
  {
    hide LockRuns.System.Inv, Loop.Inv, Ordered, Loop.Alive, GoesOn, Do, CanStep;
    var j, outcome, goesOn := StepShape(t, step, k);
    if goesOn && id == step.call / 2 {
      GoesOnAsItIs(j, id, outcome, step.valid);
    } else if goesOn {
      GoesOnLeaves(j, step.call / 2, outcome, step.valid, id);
    }
  }

  /** How a read gets to its second request, and to its adoption. */
  lemma ReadMoves(t: Traffic, step: Step, k: Traffic, r: nat)
    requires t.Inv() && CanStep(t, step) && k == Do(t, step) && r in t.ops && t.ops[r].Read?
    ensures SameRead(t, k, r)
    ensures k.ops[r].Active() && t.ops[r] != k.ops[r] ==>
              step.Run? && k.ops[r].read == Second && t.ops[r].read == First && t.loop.Answered(2 * r)
    ensures Adopts(t, k, r) ==>
              && step.Run? && step.call / 2 == r && t.Clean(t.ops[r])
              && (t.ops[r].read == First ==> t.loop.Answered(2 * r))
              && (k.ops[r].read.both ==> t.ops[r].read == Second && t.loop.Answered(2 * r + 1))
    ensures k.ops[r].Active() && k.Clean(k.ops[r]) ==> t.ops[r].Active() && t.Clean(t.ops[r])
  {
    hide LockRuns.System.Inv, Loop.Inv, Ordered, Loop.Alive, GoesOn, Loop.Answered;
    StepOfARead(t, step, k, r);
    var j, outcome, goesOn := StepShape(t, step, k);
    if goesOn && r == step.call / 2 {
      ReadGoesOn(j, r, outcome, step.valid);
    } else if goesOn {
      GoesOnLeaves(j, step.call / 2, outcome, step.valid, r);
    }
    hide Do, CanStep;
  }

  lemma FreshStays(v: Versions, e: Event, r: nat, part: Part)
    requires Good(v.t) && CanHappen(v, e) && r in v.t.ops && v.t.ops[r].Read? && v.t.ops[r].Active() && v.Fresh(r, part)
    requires v.t.Clean(v.t.ops[r]) && r in Happens(v, e).t.ops
    requires SameRead(v.t, Happens(v, e).t, r) && Happens(v, e).t.Clean(Happens(v, e).t.ops[r])
    requires Happens(v, e).Told(r, part) == v.Told(r, part)
    ensures Happens(v, e).Fresh(r, part)
  {
    hide Traffic.Inv, Traffic.InOrder, Do, CanStep;
    var u := Happens(v, e);
    if w :| v.t.Overlaps(w, r) && PartOf(v.t.ops[w].kind) == part {
      if e.Moves? {
        OpenOrCounted(v.t, e.step, u.t, w, r);
      }
      assert u.t.Overlaps(w, r) && PartOf(u.t.ops[w].kind) == part;
    }
  }

  /** At the step that adopts a read, no write of what it adopts is open, and so its answers tell
      what the device holds at that moment. */
  lemma AdoptedIsHeld(v: Versions, step: Step, shows: bool, r: nat)
    requires v.Inv() && CanHappen(v, Moves(step, shows)) && Adopts(v.t, Do(v.t, step), r)
    ensures v.Told(r, Parameters) == v.Held(v.t.ops[r].device, Parameters)
    ensures Do(v.t, step).ops[r].read.both ==> v.Told(r, Mode) == v.Held(v.t.ops[r].device, Mode)
    ensures forall w :: v.t.Overlaps(w, r) ==> PartOf(v.t.ops[w].kind) == Mode && !Do(v.t, step).ops[r].read.both
  {
    hide Traffic.Inv, Traffic.InOrder, CanStep, Do, Loop.Answered;
    var k := Do(v.t, step);
    ReadMoves(v.t, step, k, r);
    assert v.ReadOk(r);
    forall w | v.t.Overlaps(w, r) ensures PartOf(v.t.ops[w].kind) == Mode && !k.ops[r].read.both {
      AdoptionOverlapsNothing(v.t, step, k, w, r);
    }
  }

  /** A read that was not there has just begun. */
  lemma NewRead(t: Traffic, step: Step, k: Traffic, r: nat)
    requires t.Inv() && CanStep(t, step) && k == Do(t, step) && r !in t.ops && r in k.ops && k.ops[r].Read?
    ensures step.BeginRead? && k.ops[r].priority == step.priority && k.ops[r].read != Second
  {
    hide LockRuns.System.Inv, Loop.Inv, Ordered, Loop.Alive, GoesOn, Arriving;
    if step.Run? {
      var j, outcome, goesOn := StepShape(t, step, k);
      if goesOn {
        GoesOnLeaves(j, step.call / 2, outcome, step.valid, r);
      }
      hide Do;
    }
  }

  lemma TellsNow(v: Versions, step: Step, shows: bool, r: nat)
    requires Good(v.t) && CanHappen(v, Moves(step, shows)) && r in v.t.ops && v.t.ops[r].Read?
    ensures
      var u, op := Happens(v, Moves(step, shows)), v.t.ops[r];
      && (step.Respond? && step.id == r ==>
            var part := if op.read == Second then Mode else Parameters;
            u.Told(r, part) == u.Held(op.device, part))
      && (!(step.Respond? && step.id == r) ==> forall part :: u.Told(r, part) == v.Told(r, part))
      && (op.read == Second ==> u.Told(r, Parameters) == v.Told(r, Parameters))
      && forall device, part :: u.Held(device, part) == v.Held(device, part)
  {
    hide Do, CanStep, ShownAfter, TargetAfter;
  }

  lemma ReadStaysOk(v: Versions, e: Event, r: nat)
    requires v.Inv() && CanHappen(v, e)
    ensures Happens(v, e).ReadOk(r)
  {
    hide Traffic.Inv, Traffic.InOrder, Versions.Fresh, CanStep, Do, Loop.Answered;
    var u := Happens(v, e);
    if r in u.t.ops && u.t.ops[r].Read? {
      if e.Takes? {
        assert v.ReadOk(r);
        forall part | u.t.ops[r].Active() && u.t.Clean(u.t.ops[r]) && v.Fresh(r, part) ensures u.Fresh(r, part) {
          FreshStays(v, e, r, part);
        }
      } else if r !in v.t.ops {
        NewRead(v.t, e.step, u.t, r);
        if u.Answered(r) {
          AnsweredBefore(v, e, r);
        }
      } else {
        OldReadStaysOk(v, e.step, e.shows, r);
      }
    }
  }

  lemma OldReadStaysOk(v: Versions, step: Step, shows: bool, r: nat)
    requires v.Inv() && CanHappen(v, Moves(step, shows)) && r in v.t.ops
    requires r in Do(v.t, step).ops && Do(v.t, step).ops[r].Read?
    ensures Happens(v, Moves(step, shows)).ReadOk(r)
  {
    hide Traffic.Inv, Traffic.InOrder, CanStep, Do, Loop.Answered;
    var u, e := Happens(v, Moves(step, shows)), Moves(step, shows);
    StaysAsItIs(v.t, step, u.t, r);
    ReadMoves(v.t, step, u.t, r);
    TellsNow(v, step, shows, r);
    assert v.ReadOk(r);
    if u.t.ops[r].Active() && u.t.Clean(u.t.ops[r]) {
      if u.Answered(r) {
        AnsweredBefore(v, e, r);
      }
      forall part | v.Fresh(r, part) && u.Told(r, part) == v.Told(r, part) ensures u.Fresh(r, part) {
        FreshStays(v, e, r, part);
      }
    }
  }

  /** While the answer that waits is taken up no other one waits. */
  lemma TakenUpAlone(t: Traffic, step: Step, k: Traffic, other: nat)
    requires t.Inv() && CanStep(t, step) && k == Do(t, step) && step.Run? && t.loop.Answered(step.call)
    ensures other in k.ops && k.ops[other].Active() ==> !k.loop.Answered(k.ops[other].Call(other))
  {
    hide LockRuns.System.Inv, Loop.Inv, Ordered, Loop.Alive, GoesOn, Do, CanStep;
    if other in k.ops && k.ops[other].Active() && k.loop.Answered(k.ops[other].Call(other)) {
      RunAnswers(t, step, k, other);
      OneIsAnswered(t.loop, step.call, t.ops[other].Call(other));
    }
  }

  /** What is shown after a step was shown before, or is what an adopted read or a read-back told. */
  lemma ShownMoves(v: Versions, step: Step, shows: bool, key: (string, Part))
    requires v.Inv() && CanHappen(v, Moves(step, shows)) && key in Happens(v, Moves(step, shows)).shown
    ensures
      var k, now := Do(v.t, step), Happens(v, Moves(step, shows)).shown[key];
      || (key in v.shown && now == v.shown[key])
      || (step.Run? && var id := step.call / 2;
            && id in v.t.ops && v.t.ops[id].device == key.0 && now == v.Told(id, key.1)
            && if v.t.ops[id].Read? then Adopts(v.t, k, id) && (key.1 == Mode ==> k.ops[id].read.both)
               else TakesUp(v, k, step, id) && PartOf(v.t.ops[id].kind) == key.1)
  {
    hide Traffic.Inv, Traffic.InOrder, CanStep, Do, Loop.Answered, Versions.ReadOk, Versions.WriteOk;
  }

  /** A step shows nothing older than before, and nothing the device has not held. */
  lemma ShownMovesForward(v: Versions, step: Step, shows: bool, key: (string, Part))
    requires v.Inv() && CanHappen(v, Moves(step, shows)) && key in Happens(v, Moves(step, shows)).shown
    ensures
      var now := Happens(v, Moves(step, shows)).shown[key];
      now <= v.Held(key.0, key.1) && (key in v.shown ==> v.shown[key] <= now)
  {
    hide Traffic.Inv, Traffic.InOrder, CanStep, Do, Loop.Answered, Versions.ReadOk;
    ShownMoves(v, step, shows, key);
    hide ShownAfter;
    if step.Run? && step.call / 2 in v.t.ops {
      var id := step.call / 2;
      if Adopts(v.t, Do(v.t, step), id) {
        AdoptedIsHeld(v, step, shows, id);
      } else {
        assert v.WriteOk(id);
      }
    }
  }

  lemma WriteStaysOk(v: Versions, e: Event, w: nat)
    requires v.Inv() && CanHappen(v, e)
    ensures Happens(v, e).WriteOk(w)
  {
    hide Traffic.Inv, Traffic.InOrder, CanStep, Do, Loop.Answered, Versions.ReadOk;
    var u := Happens(v, e);
    if w in u.t.ops && u.t.ops[w].Write? && u.t.ops[w].put == ReadingBack && u.Answered(w) {
      AnsweredBefore(v, e, w);
      assert v.WriteOk(w);
      var key := (u.t.ops[w].device, PartOf(u.t.ops[w].kind));
      if e.Moves? && key in u.shown {
        ShownMoves(v, e.step, e.shows, key);
        if e.step.Run? {
          WaitingIsNotOverrun(v, e.step, e.shows, w, key);
        }
        hide ShownAfter;
      }
    }
  }

  /** While the answer to a read-back waits, what is shown of its part does not change. */
  lemma WaitingIsNotOverrun(v: Versions, step: Step, shows: bool, w: nat, key: (string, Part))
    requires v.Inv() && CanHappen(v, Moves(step, shows)) && step.Run? && key in Happens(v, Moves(step, shows)).shown
    requires w in v.t.ops && v.t.ops[w].Write? && key == (v.t.ops[w].device, PartOf(v.t.ops[w].kind))
    requires Happens(v, Moves(step, shows)).Answered(w) && v.t.ops[w] == Do(v.t, step).ops[w]
    ensures key in v.shown && Happens(v, Moves(step, shows)).shown[key] == v.shown[key]
  {
    hide Traffic.Inv, Traffic.InOrder, CanStep, Do, Versions.ReadOk, Versions.WriteOk, Loop.Answered;
    ShownMoves(v, step, shows, key);
    hide ShownAfter;
    var id, k := step.call / 2, Do(v.t, step);
    if v.t.loop.Answered(step.call) {
      TakenUpAlone(v.t, step, k, w);
    } else if Adopts(v.t, k, id) {
      AdoptedIsHeld(v, step, shows, id);
      assert v.t.ops[id].device == key.0 ==> v.t.Overlaps(w, id);
    }
  }

  lemma HappensKeepsInv(v: Versions, e: Event)
    requires v.Inv() && CanHappen(v, e)
    ensures Happens(v, e).Inv()
  {
    hide Traffic.Inv, Traffic.InOrder, CanStep, Do, Versions.ReadOk, Versions.WriteOk;
    var u := Happens(v, e);
    if e.Moves? {
      DoKeepsInv(v.t, e.step);
      DoKeepsOrder(v.t, e.step);
      forall key | key in u.shown ensures u.shown[key] <= u.Held(key.0, key.1) {
        ShownMovesForward(v, e.step, e.shows, key);
      }
    }
    forall id | id in u.t.ops ensures u.ReadOk(id) && u.WriteOk(id) {
      ReadStaysOk(v, e, id);
      WriteStaysOk(v, e, id);
    }
    hide ShownAfter;
  }

  // ---------------------------------------------------------------------------------------
  // What is shown, over every run
  // ---------------------------------------------------------------------------------------

  lemma NothingIsShownAtFirst()
    ensures START.Inv()
  {
    EmptyIsGood();
  }

  ghost predicate CanRun(v: Versions, events: seq<Event>)
    requires v.Inv()
    decreases |events|
  {
    events == []
    || (CanHappen(v, events[0]) && (HappensKeepsInv(v, events[0]); CanRun(Happens(v, events[0]), events[1..])))
  }

  ghost function After(v: Versions, events: seq<Event>): (u: Versions)
    requires v.Inv() && CanRun(v, events)
    ensures u.Inv()
    decreases |events|
  {
    if events == [] then v else (HappensKeepsInv(v, events[0]); After(Happens(v, events[0]), events[1..]))
  }

  predicate Forgets(e: Event, device: string) { e.Moves? && e.step == Step.Forget(device) }

  /** A device that is not forgotten keeps showing what it shows. */
  lemma ShownStays(v: Versions, e: Event, key: (string, Part))
    requires v.Inv() && CanHappen(v, e) && key in v.shown && !Forgets(e, key.0)
    ensures key in Happens(v, e).shown && v.shown[key] <= Happens(v, e).shown[key]
  {
    hide Traffic.Inv, Traffic.InOrder, CanStep, Do, Versions.ReadOk, Versions.WriteOk, Loop.Answered;
    assert key in Happens(v, e).shown;
    if e.Moves? {
      ShownMovesForward(v, e.step, e.shows, key);
    }
  }

  /** Over every interleaving of reads, writes, cancellations and failures, and whenever the device
      takes what is written: what is shown of a device never goes back to an older version. So a
      confirmed value is never replaced by an older answer. */
  lemma {:induction false} ShownNeverGoesBack(v: Versions, events: seq<Event>, key: (string, Part))
    requires v.Inv() && CanRun(v, events) && key in v.shown && forall e <- events :: !Forgets(e, key.0)
    ensures key in After(v, events).shown
    ensures v.shown[key] <= After(v, events).shown[key] <= After(v, events).Held(key.0, key.1)
    decreases |events|
  {
    hide Good, Versions.ReadOk, Versions.WriteOk, CanHappen, Happens;
    if events != [] {
      HappensKeepsInv(v, events[0]);
      ShownStays(v, events[0], key);
      ShownNeverGoesBack(Happens(v, events[0]), events[1..], key);
    } else {
      ShownIsHeld(v, key);
    }
  }

  lemma ShownIsHeld(v: Versions, key: (string, Part))
    requires v.Inv() && key in v.shown
    ensures v.shown[key] <= v.Held(key.0, key.1)
  {
    hide Good, Versions.ReadOk, Versions.WriteOk;
  }

  /** An adopted read shows what the device holds at that moment: its parameters, and its repeater
      mode if that was read as well. Here a repeater write that overlaps is no exception. */
  lemma AdoptedReadIsCurrent(v: Versions, step: Step, shows: bool, r: nat)
    requires v.Inv() && CanHappen(v, Moves(step, shows)) && Adopts(v.t, Do(v.t, step), r)
    ensures
      var u, device := Happens(v, Moves(step, shows)), v.t.ops[r].device;
      && (device, Parameters) in u.shown && u.shown[(device, Parameters)] == u.Held(device, Parameters)
      && (u.t.ops[r].read.both ==> (device, Mode) in u.shown && u.shown[(device, Mode)] == u.Held(device, Mode))
  {
    hide Traffic.Inv, Traffic.InOrder, CanStep, Do, Loop.Answered;
    AdoptedIsHeld(v, step, shows, r);
    ReadMoves(v.t, step, Do(v.t, step), r);
    hide Versions.ReadOk, Versions.WriteOk, Versions.Fresh;
  }
}
