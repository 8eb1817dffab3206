/** The delayed status checks of the channels: timers ask for them, a queued check is shared by
    later timers of its channel, and whether it is still wanted is asked once, before sending. */
module StatusChecks {
  import opened Addresses
  import opened CommandTracking
  import opened CommandRuns

  datatype Stage = Queued | InFlight

  datatype Task = Task(channel: Address, stage: Stage)

  /** `reconciling` are the channels with a check; tasks are numbered as they start. */
  datatype Machine = Machine(world: World, reconciling: set<Address>, tasks: map<nat, Task>, started: nat) {
    predicate Wanted(c: Address) { c in world.book.needed }

    /** A check belongs to each channel in `reconciling`, and to no other, and there is one each. */
    ghost predicate Inv() {
      && (forall i <- tasks :: i < started && tasks[i].channel in reconciling)
      && (forall c <- reconciling :: exists i :: i in tasks && tasks[i].channel == c)
      && (forall i, j :: i in tasks && j in tasks && tasks[i].channel == tasks[j].channel ==> i == j)
    }

    function End(i: nat): Machine
      requires i in tasks
    {
      this.(tasks := tasks - {i}, reconciling := reconciling - {tasks[i].channel})
    }
  }

  /** A timer fires while the gateway is available or not and the device known or not; a queued
      check gets the radio slot or fails before; a sent one ends; or the book changes. A step that
      does not apply, such as the end of a check that is not in flight, changes nothing. */
  datatype Step =
    | Fire(channel: Address, available: bool, known: bool)
    | Grant(i: nat)
    | Fail(i: nat)
    | Done(i: nat)
    | Track(e: Event)

  /** A timer fires: it wishes for a check, and starts one of its own if the device is known and
      no check of the channel is under way. */
  function StartsCheck(reconciling: set<Address>, c: Address, available: bool, known: bool): bool {
    available && c !in reconciling && known
  }

  function AfterTimer(m: Machine, c: Address, available: bool, known: bool): Machine {
    var asked := if available then m.(world := Happens(m.world, Fires(c))) else m;
    if StartsCheck(m.reconciling, c, available, known)
    then asked.(reconciling := m.reconciling + {c}, tasks := m.tasks[m.started := Task(c, Queued)],
                started := m.started + 1)
    else asked
  }

  /** The question before sending consumes the flag. */
  function AfterQuestion(m: Machine, i: nat): Machine
    requires i in m.tasks
  {
    var c := m.tasks[i].channel;
    if m.Wanted(c) then m.(world := Happens(m.world, Sends(c)), tasks := m.tasks[i := Task(c, InFlight)])
    else m.End(i)
  }

  function Do(m: Machine, step: Step): Machine {
    match step
    case Fire(c, available, known) => AfterTimer(m, c, available, known)
    case Grant(i) => if i in m.tasks && m.tasks[i].stage == Queued then AfterQuestion(m, i) else m
    case Fail(i) => if i in m.tasks && m.tasks[i].stage == Queued then m.End(i) else m
    case Done(i) => if i in m.tasks && m.tasks[i].stage == InFlight then m.End(i) else m
    case Track(e) => if e.Fires? || e.Sends? then m else m.(world := Happens(m.world, e))
  }

  function Run(m: Machine, steps: seq<Step>): Machine {
    if steps == [] then m else Do(Run(m, steps[..|steps| - 1]), steps[|steps| - 1])
  }

  class StatusChecker {
    var reconcileNeeded: set<Address>
    var reconciling: set<Address>

    /** The timer callback: whether it starts a check of its own. */
    method QueryCallback(c: Address, available: bool, known: bool) returns (started: bool)
      modifies this
      ensures started == StartsCheck(old(reconciling), c, available, known)
      ensures reconcileNeeded == old(reconcileNeeded) + if available then {c} else {}
      ensures reconciling == old(reconciling) + if started then {c} else {}
    {
      if !available {
        return false;
      }
      reconcileNeeded := reconcileNeeded + {c};
      if c in reconciling {
        return false;
      }
      if !known {
        return false;
      }
      reconciling := reconciling + {c};
      return true;
    }

    method StillNeeded(c: Address) returns (send: bool)
      modifies this`reconcileNeeded
      ensures send <==> c in old(reconcileNeeded)
      ensures reconcileNeeded == old(reconcileNeeded) - {c}
    {
      if c !in reconcileNeeded {
        return false;
      }
      reconcileNeeded := reconcileNeeded - {c};
      return true;
    }
  }

  lemma StepKeepsInv(m: Machine, step: Step)
    requires m.Inv()
    ensures Do(m, step).Inv()
  {
    hide Happens;
    match step
    case Fire(c, available, known) =>
      if available && c !in m.reconciling && known {
        var n := Do(m, step);
        forall d <- n.reconciling ensures exists i :: i in n.tasks && n.tasks[i].channel == d {
          if d == c {
            assert m.started in n.tasks && n.tasks[m.started].channel == d;
          } else {
            var i :| i in m.tasks && m.tasks[i].channel == d;
            assert i in n.tasks && n.tasks[i].channel == d;
          }
        }
      }
    case Grant(i) => if i in m.tasks && m.tasks[i].stage == Queued { Moves(m, i, Do(m, step)); }
    case Fail(i) => if i in m.tasks && m.tasks[i].stage == Queued { Moves(m, i, Do(m, step)); }
    case Done(i) => if i in m.tasks && m.tasks[i].stage == InFlight { Moves(m, i, Do(m, step)); }
    case Track(e) =>
  }

  lemma Moves(m: Machine, i: nat, n: Machine)
    requires m.Inv() && i in m.tasks && n.started == m.started
    requires (n.tasks == m.tasks - {i} && n.reconciling == m.reconciling - {m.tasks[i].channel})
             || (n.tasks == m.tasks[i := Task(m.tasks[i].channel, InFlight)] && n.reconciling == m.reconciling)
    ensures n.Inv()
  {
    forall d <- n.reconciling ensures exists j :: j in n.tasks && n.tasks[j].channel == d {
      var j :| j in m.tasks && m.tasks[j].channel == d;
      assert j in n.tasks && n.tasks[j].channel == d;
    }
  }

  /** At every moment of every run there is at most one check per channel, queued or in flight. */
  lemma {:induction false} OneCheckPerChannel(m: Machine, steps: seq<Step>)
    requires m.Inv()
    ensures Run(m, steps).Inv()
    ensures
      var tasks := Run(m, steps).tasks;
      forall i, j :: i in tasks && j in tasks && tasks[i].channel == tasks[j].channel ==> i == j
  {
    if steps != [] {
      OneCheckPerChannel(m, steps[..|steps| - 1]);
      StepKeepsInv(Run(m, steps[..|steps| - 1]), steps[|steps| - 1]);
    }
  }

  // ---------------------------------------------------------------------------------------
  // Which check is sent
  // ---------------------------------------------------------------------------------------

  predicate Asks(step: Step, c: Address) { step.Fire? && step.available && step.channel == c }

  /** The step makes the check of the channel superfluous, or is the check being sent. */
  predicate Supersedes(m: Machine, step: Step, c: Address) {
    match step
    case Fire(_, _, _) => false
    case Grant(i) => i in m.tasks && m.tasks[i] == Task(c, Queued)
    case Fail(_) => false
    case Done(_) => false
    case Track(e) =>
      match e
      case Feedback(device, confirmed) => c in Settled(m.world.book, device, confirmed)
      case Cancel(device, number) => Covers(device, number, c)
      case Schedule(d, _, _) => d == c
      case Suspend(d) => d == c
      case Outage => true
      case Forget(device) => device == c.device
      case Fires(_) => false
      case Sends(_) => false
  }

  lemma WantedMoves(m: Machine, step: Step, c: Address)
    ensures Do(m, step).Wanted(c) <==> Asks(step, c) || (m.Wanted(c) && !Supersedes(m, step, c))
  {
    if step.Track? && step.e.Suspend? {
      CancelOne(m.world.book, step.e.channel);
    }
  }

  /** Step `k` of the run asks for a check of the channel, and no later step supersedes it. */
  predicate StandsFrom(m: Machine, steps: seq<Step>, k: nat, c: Address)
    requires k <= |steps|
  {
    forall j :: k <= j < |steps| ==> !Supersedes(Run(m, steps[..j]), steps[j], c)
  }

  ghost predicate AskedFor(m: Machine, steps: seq<Step>, c: Address) {
    || (m.Wanted(c) && StandsFrom(m, steps, 0, c))
    || exists k: nat :: k < |steps| && Asks(steps[k], c) && StandsFrom(m, steps, k + 1, c)
  }

  lemma StandsMore(m: Machine, steps: seq<Step>, step: Step, k: nat, c: Address)
    requires k <= |steps|
    ensures StandsFrom(m, steps + [step], k, c) <==> StandsFrom(m, steps, k, c) && !Supersedes(Run(m, steps), step, c)
  {
    hide Supersedes, Run;
    var all := steps + [step];
    assert all[..|steps|] == steps && all[|steps|] == step;
    forall j | k <= j < |steps| ensures all[..j] == steps[..j] && all[j] == steps[j] {}
  }

  lemma AskedMore(m: Machine, steps: seq<Step>, step: Step, c: Address)
    ensures AskedFor(m, steps + [step], c) <==>
            Asks(step, c) || (AskedFor(m, steps, c) && !Supersedes(Run(m, steps), step, c))
  {
    var all := steps + [step];
    forall k: nat | k <= |steps| { StandsMore(m, steps, step, k, c); }
    assert StandsFrom(m, all, |all|, c) && all[|steps|] == step;
    hide StandsFrom, Supersedes, Asks, Run;
    assert forall k: nat :: k < |steps| ==> all[k] == steps[k];
  }

  lemma {:induction false} WantedIfAskedFor(m: Machine, steps: seq<Step>, c: Address)
    ensures Run(m, steps).Wanted(c) <==> AskedFor(m, steps, c)
  {
    if steps != [] {
      var before, step := steps[..|steps| - 1], steps[|steps| - 1];
      assert steps == before + [step];
      WantedIfAskedFor(m, before, c);
      WantedMoves(Run(m, before), step, c);
      AskedMore(m, before, step, c);
    }
  }

  /** In every run a queued check that gets the radio slot is sent exactly if a timer asked for
      it and nothing superseded that since: no report that settles the channel, no newer command,
      no cancellation, no outage, and no earlier check sent for the same timer. */
  lemma SentExactlyIfAskedFor(m: Machine, steps: seq<Step>, i: nat)
    requires i in Run(m, steps).tasks && Run(m, steps).tasks[i].stage == Queued
    ensures
      var c, after := Run(m, steps).tasks[i].channel, Run(m, steps + [Grant(i)]);
      && (AskedFor(m, steps, c) ==> after.tasks == Run(m, steps).tasks[i := Task(c, InFlight)])
      && (!AskedFor(m, steps, c) ==> after.tasks == Run(m, steps).tasks - {i})
      && !after.Wanted(c)
  {
    var c := Run(m, steps).tasks[i].channel;
    assert (steps + [Grant(i)])[..|steps|] == steps;
    WantedIfAskedFor(m, steps, c);
    WantedMoves(Run(m, steps), Grant(i), c);
  }

  lemma {:induction false} RunsJoin(m: Machine, first: seq<Step>, second: seq<Step>)
    ensures Run(m, first + second) == Run(Run(m, first), second)
  {
    if second == [] {
      assert first + second == first;
    } else {
      RunsJoin(m, first, second[..|second| - 1]);
      assert (first + second)[..|first + second| - 1] == first + second[..|second| - 1];
    }
  }

  /** A timer that fires while the check of its channel is queued starts no other: that check is
      sent for it, unless it fails before or is superseded. */
  lemma QueuedCheckServesTheTimer(m: Machine, i: nat, known: bool, steps: seq<Step>)
    requires m.Inv() && i in m.tasks && m.tasks[i].stage == Queued
    requires
      var fired := Do(m, Fire(m.tasks[i].channel, true, known));
      i in Run(fired, steps).tasks && Run(fired, steps).tasks[i] == m.tasks[i]
        && StandsFrom(fired, steps, 0, m.tasks[i].channel)
    ensures
      var fired := Do(m, Fire(m.tasks[i].channel, true, known));
      && fired.tasks == m.tasks
      && Run(fired, steps + [Grant(i)]).tasks == Run(fired, steps).tasks[i := Task(m.tasks[i].channel, InFlight)]
  {
    var c := m.tasks[i].channel;
    var fired := Do(m, Fire(c, true, known));
    assert fired.Wanted(c);
    SentExactlyIfAskedFor(fired, steps, i);
  }

  /** No step of the run is an effective timer of the channel. */
  predicate Silent(steps: seq<Step>, c: Address) { forall s <- steps :: !Asks(s, c) }

  lemma {:induction false} SilenceStartsNothing(m: Machine, steps: seq<Step>, c: Address)
    requires Silent(steps, c)
    ensures forall j :: j in Run(m, steps).tasks && Run(m, steps).tasks[j].channel == c ==>
              j in m.tasks && m.tasks[j].channel == c
                && (m.tasks[j].stage == InFlight ==> Run(m, steps).tasks[j].stage == InFlight)
  {
    if steps != [] {
      var before, step := steps[..|steps| - 1], steps[|steps| - 1];
      assert Silent(before, c) by {
        assert forall s <- before :: s in steps;
      }
      SilenceStartsNothing(m, before, c);
      assert !Asks(step, c);
    }
  }

  /** A timer that fires while the check of its channel is in flight starts no other, neither
      then nor when that check ends: until another timer fires, whatever else happens, no check
      of the channel exists but the one in flight, and the timer's wish stays behind. */
  lemma TimerDuringACheckIsNotServed(m: Machine, i: nat, known: bool, steps: seq<Step>)
    requires m.Inv() && i in m.tasks && m.tasks[i].stage == InFlight && Silent(steps, m.tasks[i].channel)
    ensures
      var c, fired := m.tasks[i].channel, Do(m, Fire(m.tasks[i].channel, true, known));
      && fired.tasks == m.tasks && fired.Wanted(c)
      && (forall j :: j in Run(fired, steps).tasks && Run(fired, steps).tasks[j].channel == c ==>
            j == i && Run(fired, steps).tasks[j].stage == InFlight)
      && (StandsFrom(fired, steps, 0, c) ==> Run(fired, steps).Wanted(c))
  {
    var c, fired := m.tasks[i].channel, Do(m, Fire(m.tasks[i].channel, true, known));
    SilenceStartsNothing(fired, steps, c);
    WantedIfAskedFor(fired, steps, c);
  }
}
