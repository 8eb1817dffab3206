/** Whatever happens to a cover channel: when a target may be taken for its position. */
module CoverRuns {
  import opened Options
  import opened CoverTravel

  datatype Moment = Moment(cover: Cover, clock: real)

  /** `Estimate` is a position assumed by an acknowledged command, if nothing changed since its
      snapshot. A step that does not apply, such as a timer before its time, changes nothing. */
  datatype Step =
    | Start(target: int, via: Option<int>)
    | Sent(number: nat)
    | Accepted(number: nat)
    | Dropped(number: nat)
    | Elapse(number: nat)
    | Report(position: int)
    | Clear
    | FullTime(time: Option<real>)
    | Estimate(position: int, snapshot: nat)
    | Tick(passed: real)

  predicate InRange(step: Step) {
    match step
    case Start(target, via) => 0 <= target <= 100 && (via.Some? ==> via.value == 0 || via.value == 100)
    case Report(position) => 0 <= position <= 100
    case Estimate(position, _) => 0 <= position <= 100
    case _ => true
  }

  predicate Due(s: Moment, number: nat) {
    s.cover.Registered(number) && !s.cover.movement.value.elapsed && s.clock >= s.cover.movement.value.EndsAt()
  }

  function Do(s: Moment, step: Step): Moment
    requires s.cover.Inv()
  {
    var c := s.cover;
    match step
    case Start(target, via) => s.(cover := AfterStart(c, target, via, s.clock))
    case Sent(number) => s.(cover := AfterSent(c, number))
    case Accepted(number) => s.(cover := AfterAccepted(c, number))
    case Dropped(number) => s.(cover := AfterDropped(c, number))
    case Elapse(number) => if Due(s, number) then s.(cover := AfterElapsed(c, number)) else s
    case Report(position) => s.(cover := AfterReport(c, position))
    case Clear => s.(cover := Cleared(c))
    case FullTime(time) => s.(cover := c.(fullTime := time))
    case Estimate(position, snapshot) =>
      if c.revision == snapshot then s.(cover := c.(position := Some(position))) else s
    case Tick(passed) => if passed >= 0.0 then s.(clock := s.clock + passed) else s
  }

  ghost predicate Inv(s: Moment) {
    && s.cover.Inv()
    && (s.cover.movement.Some? && s.cover.movement.value.elapsed ==> s.clock >= s.cover.movement.value.EndsAt())
  }

  ghost predicate Runs(s: Moment, steps: seq<Step>) {
    Inv(s) && forall step <- steps :: InRange(step)
  }

  /** The step takes the target of the movement for the position. */
  ghost predicate Adopts(s: Moment, step: Step, number: nat)
    requires s.cover.Inv()
  {
    || (step == Elapse(number) && Due(s, number) && s.cover.movement.value.accepted)
    || (step == Accepted(number) && s.cover.Registered(number) && s.cover.movement.value.elapsed)
  }

  lemma StepKeepsInv(s: Moment, step: Step)
    requires Inv(s) && InRange(step)
    ensures Inv(Do(s, step))
  {
    if step.Start? {
      StartIsBounded(s.cover, step.target, step.via, s.clock);
      hide AfterStart;
    }
  }

  ghost function After(s: Moment, steps: seq<Step>): (r: Moment)
    requires Runs(s, steps)
    ensures Inv(r)
  {
    if steps == [] then s
    else
      var before := After(s, steps[..|steps| - 1]);
      StepKeepsInv(before, steps[|steps| - 1]);
      Do(before, steps[|steps| - 1])
  }

  /** From one moment to a later one: nothing goes back, a movement keeps its start, target and
      deadline while it is registered, and its number never comes back once it is not. */
  ghost predicate Follows(s: Moment, t: Moment, number: nat) {
    && s.clock <= t.clock && s.cover.started <= t.cover.started && s.cover.revision <= t.cover.revision
    && (number < s.cover.started && !s.cover.Registered(number) ==> !t.cover.Registered(number))
    && (s.cover.Registered(number) && t.cover.Registered(number) ==>
          var m, n := s.cover.movement.value, t.cover.movement.value;
          n == m.(accepted := n.accepted, elapsed := n.elapsed) && n.EndsAt() == m.EndsAt())
  }

  lemma FollowsOn(s: Moment, t: Moment, u: Moment, number: nat)
    requires s.cover.Inv() && Follows(s, t, number) && Follows(t, u, number)
    ensures Follows(s, u, number)
  {
  }

  /** What one step can do to the position and to a movement. */
  lemma StepMoves(s: Moment, step: Step, number: nat)
    requires Inv(s) && InRange(step)
    ensures Follows(s, Do(s, step), number)
    ensures s.cover.Registered(number) && Do(s, step).cover.Registered(number) ==>
              !s.cover.movement.value.accepted && Do(s, step).cover.movement.value.accepted ==> step == Accepted(number)
    ensures Adopts(s, step, number) ==>
              && number < s.cover.started && !Do(s, step).cover.Registered(number)
              && Do(s, step).cover.position == Some(s.cover.movement.value.target)
              && s.clock >= s.cover.movement.value.EndsAt()
              && (s.cover.movement.value.accepted || step == Accepted(number))
    ensures Do(s, step).cover.position != s.cover.position ==>
              || (s.cover.movement.Some? && Adopts(s, step, s.cover.movement.value.number))
              || step == Report(Do(s, step).cover.position.value)
              || step == Estimate(Do(s, step).cover.position.value, s.cover.revision)
  {
    if step.Start? {
      StartIsBounded(s.cover, step.target, step.via, s.clock);
      hide AfterStart;
    }
  }

  ghost function At(s: Moment, steps: seq<Step>, i: nat): (r: Moment)
    requires Runs(s, steps) && i <= |steps|
    ensures Inv(r)
  {
    After(s, steps[..i])
  }

  lemma AtMoves(s: Moment, steps: seq<Step>, i: nat)
    requires Runs(s, steps) && i < |steps|
    ensures At(s, steps, i + 1) == Do(At(s, steps, i), steps[i])
  {
    assert steps[..i + 1][..i] == steps[..i];
  }

  lemma {:induction false} MovementKeepsItsDeadline(s: Moment, steps: seq<Step>, i: nat, j: nat, number: nat)
    requires Runs(s, steps) && i <= j <= |steps|
    ensures Follows(At(s, steps, i), At(s, steps, j), number)
  {
    if i < j {
      MovementKeepsItsDeadline(s, steps, i, j - 1, number);
      AtMoves(s, steps, j - 1);
      assert InRange(steps[j - 1]);
      StepMoves(At(s, steps, j - 1), steps[j - 1], number);
      FollowsOn(At(s, steps, i), At(s, steps, j - 1), At(s, steps, j), number);
    }
  }

  /** The target of a movement becomes the position at most once in a run, only while it is the
      registered movement, not before its travel and grace are over, and only if its command was
      accepted or is being accepted. */
  lemma TargetIsAdoptedAtMostOnce(s: Moment, steps: seq<Step>, i: nat, j: nat, number: nat)
    requires Runs(s, steps) && i < |steps| && j < |steps|
    requires Adopts(At(s, steps, i), steps[i], number) && Adopts(At(s, steps, j), steps[j], number)
    ensures i == j
    ensures
      var m := At(s, steps, i).cover.movement.value;
      && At(s, steps, i).cover.Registered(number) && At(s, steps, i).clock >= m.EndsAt()
      && (m.accepted || steps[i] == Accepted(number))
      && At(s, steps, i + 1).cover.position == Some(m.target)
  {
    AdoptedNeverAgain(s, steps, i, j, number);
    AdoptedNeverAgain(s, steps, j, i, number);
    AtMoves(s, steps, i);
    StepMoves(At(s, steps, i), steps[i], number);
  }

  lemma AdoptedNeverAgain(s: Moment, steps: seq<Step>, i: nat, j: nat, number: nat)
    requires Runs(s, steps) && i < |steps| && j < |steps|
    requires Adopts(At(s, steps, i), steps[i], number) && Adopts(At(s, steps, j), steps[j], number)
    ensures j <= i
  {
    if i < j {
      AtMoves(s, steps, i);
      StepMoves(At(s, steps, i), steps[i], number);
      MovementKeepsItsDeadline(s, steps, i + 1, j, number);
      hide Do, At;
    }
  }

  /** Nothing but a report, an estimate on an unchanged channel and the end of the registered
      movement changes the position. */
  lemma PositionChangesByItsReasons(s: Moment, steps: seq<Step>, i: nat)
    requires Runs(s, steps) && i < |steps| && At(s, steps, i + 1).cover.position != At(s, steps, i).cover.position
    ensures
      var before, after := At(s, steps, i).cover, At(s, steps, i + 1).cover;
      || (before.movement.Some? && Adopts(At(s, steps, i), steps[i], before.movement.value.number)
        && after.position == Some(before.movement.value.target))
      || (after.position.Some? && steps[i] == Report(after.position.value))
      || (after.position.Some? && steps[i] == Estimate(after.position.value, before.revision))
  {
    AtMoves(s, steps, i);
    var moment := At(s, steps, i);
    if moment.cover.movement.Some? {
      StepMoves(moment, steps[i], moment.cover.movement.value.number);
    } else {
      StepMoves(moment, steps[i], 0);
    }
  }

  ghost predicate Waits(s: Moment, number: nat) { s.cover.Registered(number) ==> !s.cover.movement.value.accepted }

  lemma {:induction false} SentMovementWaits(s: Moment, steps: seq<Step>, i: nat, j: nat, number: nat)
    requires Runs(s, steps) && i < j <= |steps| && steps[i] == Sent(number) && At(s, steps, i).cover.Registered(number)
    requires forall k :: i < k < j ==> steps[k] != Accepted(number)
    ensures Waits(At(s, steps, j), number)
  {
    if j == i + 1 {
      AtMoves(s, steps, i);
    } else {
      SentMovementWaits(s, steps, i, j - 1, number);
      MovementKeepsItsDeadline(s, steps, i, j - 1, number);
      AtMoves(s, steps, j - 1);
      assert InRange(steps[j - 1]);
      UnacceptedStays(At(s, steps, i), At(s, steps, j - 1), steps[j - 1], number);
      hide Inv, Follows;
    }
  }

  /** After a command was sent its target is not adopted before it is acknowledged, however often
      the target is repeated. */
  lemma OwnTargetWaitsForItsAcknowledgement(s: Moment, steps: seq<Step>, i: nat, j: nat, number: nat)
    requires Runs(s, steps) && i < j < |steps| && steps[i] == Sent(number) && At(s, steps, i).cover.Registered(number)
    requires forall k :: i < k <= j ==> steps[k] != Accepted(number)
    ensures !Adopts(At(s, steps, j), steps[j], number)
  {
    SentMovementWaits(s, steps, i, j, number);
    MovementKeepsItsDeadline(s, steps, i, j, number);
    assert InRange(steps[j]);
    UnacceptedStays(At(s, steps, i), At(s, steps, j), steps[j], number);
  }

  lemma UnacceptedStays(sent: Moment, s: Moment, step: Step, number: nat)
    requires sent.cover.Inv() && sent.cover.Registered(number) && Inv(s) && Follows(sent, s, number)
    requires InRange(step) && step != Accepted(number)
    requires Waits(s, number)
    ensures Waits(Do(s, step), number)
    ensures !Adopts(s, step, number)
  {
    StepMoves(s, step, number);
    hide Do;
  }

  /** A command that starts a movement or repeats its target keeps its own estimate, and every
      other one from before, from replacing the last reported position. */
  lemma MovementBeatsTheEstimate(s: Moment, steps: seq<Step>, i: nat, j: nat, snapshot: nat)
    requires Runs(s, steps) && i < j < |steps| && steps[i].Start? && snapshot <= At(s, steps, i).cover.revision
    requires At(s, steps, i + 1).cover.movement.Some? && steps[j].Estimate? && steps[j].snapshot == snapshot
    ensures At(s, steps, j + 1) == At(s, steps, j)
  {
    AtMoves(s, steps, i);
    AtMoves(s, steps, j);
    assert InRange(steps[i]);
    StartIsBounded(At(s, steps, i).cover, steps[i].target, steps[i].via, At(s, steps, i).clock);
    MovementKeepsItsDeadline(s, steps, i + 1, j, 0);
    StartRaisesTheRevision(At(s, steps, i), steps[i].target, steps[i].via);
    hide At;
  }

  lemma StartRaisesTheRevision(s: Moment, target: int, via: Option<int>)
    requires s.cover.Inv() && Do(s, Start(target, via)).cover.movement.Some?
    ensures Do(s, Start(target, via)).cover.revision == s.cover.revision + 1
  {
  }
}
