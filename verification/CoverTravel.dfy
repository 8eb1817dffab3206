/** The travel estimate of one cover channel: from a command, or another controller's command,
    until the target is adopted, reported otherwise, or the estimate dropped. */
module CoverTravel {
  import opened Addresses
  import opened Options

  datatype Direction = Opening | Closing

  /** Movements are numbered as they start; the number stands for the identity of the estimate.
      An estimate for a command is not accepted before its acknowledgement. */
  datatype Movement = Movement(number: nat, start: Option<real>, target: int, startedAt: real, travel: real,
                               accepted: bool, elapsed: bool) {
    function Grace(): real { if target == 0 || target == 100 then 7.0 else 5.0 }

    function EndsAt(): real { startedAt + travel + Grace() }
  }

  datatype Cover = Cover(position: Option<int>, fullTime: Option<real>, direction: Option<Direction>, revision: nat,
                         movement: Option<Movement>, started: nat) {
    predicate Registered(number: nat) { movement.Some? && movement.value.number == number }

    predicate Inv() {
      && (position.Some? ==> 0 <= position.value <= 100)
      && (movement.None? ==> direction.None?)
      && (movement.Some? ==>
            && movement.value.number < started && movement.value.travel > 0.0
            && 0 <= movement.value.target <= 100
            && (movement.value.start.Some? ==> 0.0 <= movement.value.start.value <= 100.0))
    }
  }

  function Abs(x: real): real { if x < 0.0 then -x else x }

  function Clamp01(x: real): real { if x < 0.0 then 0.0 else if x > 1.0 then 1.0 else x }

  function Scaled(x: real, p: real): real { x * p }

  /** Where the cover is assumed to be while it moves. */
  function PositionAt(m: Movement, now: real): Option<real>
    requires m.travel > 0.0
  {
    match m.start
    case None => None
    case Some(from) => Some(from + Scaled(m.target as real - from, Clamp01((now - m.startedAt) / m.travel)))
  }

  function Cleared(c: Cover): Cover { if c.movement.None? then c else c.(movement := None, direction := None) }

  /** Time from one position to the next; all of it from an unknown position. */
  function Leg(from: Option<real>, target: int, full: real): real {
    match from case None => full case Some(p) => Abs(target as real - p) / 100.0 * full
  }

  function Travel(from: Option<real>, target: int, via: Option<int>, full: real): real {
    match via
    case None => Leg(from, target, full)
    case Some(end) => Leg(from, end, full) + Abs((target - end) as real) / 100.0 * full
  }

  function Current(c: Cover, now: real): Option<real>
    requires c.Inv()
  {
    match c.movement
    case Some(m) => PositionAt(m, now)
    case None => match c.position case None => None case Some(p) => Some(p as real)
  }

  /** A new movement from a position, if the travel time is known and there is a way to go. */
  function Departed(c: Cover, from: Option<real>, target: int, via: Option<int>, now: real): Cover {
    if c.fullTime.None? || c.fullTime.value <= 0.0 then c
    else
      var travel := Travel(from, target, via, c.fullTime.value);
      if travel == 0.0 then c
      else
        var first := if via.Some? then via.value else target;
        var closing := if from.None? then first > 50 else first as real > from.value;
        c.(direction := Some(if closing then Closing else Opening), revision := c.revision + 1,
           movement := Some(Movement(c.started, from, target, now, travel, true, false)), started := c.started + 1)
  }

  /** A command to a target; `via` is the end position a reference run visits first. */
  function AfterStart(c: Cover, target: int, via: Option<int>, now: real): Cover
    requires c.Inv()
  {
    if c.movement.Some? && c.movement.value.target == target then c.(revision := c.revision + 1)
    else Departed(Cleared(c), Current(c, now), target, via, now)
  }

  /** The movement the command waits for, if it has one. */
  function StartedBy(c: Cover, target: int, via: Option<int>, now: real): Option<nat>
    requires c.Inv()
  {
    var after := AfterStart(c, target, via, now);
    if after.movement.None? then None else Some(after.movement.value.number)
  }

  function Adopted(c: Cover): Cover
    requires c.movement.Some?
  {
    Cleared(c).(position := Some(c.movement.value.target), revision := c.revision + 1)
  }

  /** The time of the movement is over: its target is adopted if it was accepted. */
  function AfterElapsed(c: Cover, number: nat): Cover {
    if !c.Registered(number) then c
    else if c.movement.value.accepted then Adopted(c)
    else c.(movement := Some(c.movement.value.(elapsed := true)))
  }

  /** The command of the movement is on its way. */
  function AfterSent(c: Cover, number: nat): Cover {
    if !c.Registered(number) then c else c.(movement := Some(c.movement.value.(accepted := false)))
  }

  /** The command of the movement was acknowledged. */
  function AfterAccepted(c: Cover, number: nat): Cover {
    if !c.Registered(number) then c
    else if c.movement.value.elapsed then Adopted(c)
    else c.(movement := Some(c.movement.value.(accepted := true)))
  }

  /** The command failed or was deferred. */
  function AfterDropped(c: Cover, number: nat): Cover { if c.Registered(number) then Cleared(c) else c }

  /** A report with a position. */
  function AfterReport(c: Cover, position: int): Cover {
    Cleared(c).(position := Some(position), revision := c.revision + 1)
  }

  // ---------------------------------------------------------------------------------------
  // Lengths and positions
  // ---------------------------------------------------------------------------------------

  lemma ScaleDown(x: real, p: real)
    requires 0.0 <= p <= 1.0
    ensures 0.0 <= x ==> 0.0 <= Scaled(x, p) <= x
    ensures x <= 0.0 ==> x <= Scaled(x, p) <= 0.0
    ensures p == 0.0 ==> Scaled(x, p) == 0.0
    ensures p == 1.0 ==> Scaled(x, p) == x
  {
  }

  /** The assumed position lies between start and target at every moment, begins at the start and
      is at the target from the end of the travel on. */
  lemma PositionLiesBetween(m: Movement, now: real)
    requires m.travel > 0.0 && m.start.Some? && 0.0 <= m.start.value <= 100.0 && 0 <= m.target <= 100
    ensures
      var at := PositionAt(m, now).value;
      && (m.start.value <= m.target as real ==> m.start.value <= at <= m.target as real)
      && (m.target as real <= m.start.value ==> m.target as real <= at <= m.start.value)
      && 0.0 <= at <= 100.0
      && (now <= m.startedAt ==> at == m.start.value)
      && (m.startedAt + m.travel <= now ==> at == m.target as real)
  {
    var p := Clamp01((now - m.startedAt) / m.travel);
    ShareOfTravel(now - m.startedAt, m.travel);
    ScaleDown(m.target as real - m.start.value, p);
    hide Clamp01, Scaled;
  }

  /** The share of the travel that is over, at the limits. */
  lemma ShareOfTravel(passed: real, travel: real)
    requires travel > 0.0
    ensures 0.0 <= Clamp01(passed / travel) <= 1.0
    ensures passed <= 0.0 ==> Clamp01(passed / travel) == 0.0
    ensures passed >= travel ==> Clamp01(passed / travel) == 1.0
  {
    var q := passed / travel;
    TimesBack(passed, travel);
    Quotient(passed, travel, q);
    assert Clamp01(q) == if q < 0.0 then 0.0 else if q > 1.0 then 1.0 else q;
  }

  lemma Quotient(passed: real, travel: real, q: real)
    requires travel > 0.0 && q * travel == passed
    ensures passed <= 0.0 ==> q <= 0.0
    ensures passed >= travel ==> q >= 1.0
  {
    Share(q, travel);
  }

  lemma TimesBack(a: real, b: real)
    requires b > 0.0
    ensures a / b * b == a
  {
  }

  lemma Share(q: real, travel: real)
    requires travel > 0.0
    ensures q > 0.0 ==> q * travel > 0.0
    ensures q < 1.0 ==> q * travel < travel
  {
    if q < 1.0 {
      assert (1.0 - q) * travel > 0.0;
    }
  }

  lemma LegIsBounded(from: Option<real>, target: int, full: real)
    requires full > 0.0 && 0 <= target <= 100
    requires from.Some? ==> 0.0 <= from.value <= 100.0
    ensures 0.0 <= Leg(from, target, full) <= full
    ensures Leg(from, target, full) == 0.0 <==> from == Some(target as real)
  {
    if from.Some? {
      var share := Abs(target as real - from.value) / 100.0;
      assert 0.0 <= share <= 1.0;
      ScaleDown(full, share);
      assert Leg(from, target, full) == full * share;
    }
  }

  lemma TravelIsBounded(from: Option<real>, target: int, via: Option<int>, full: real)
    requires full > 0.0 && 0 <= target <= 100 && (via.Some? ==> 0 <= via.value <= 100)
    requires from.Some? ==> 0.0 <= from.value <= 100.0
    ensures 0.0 <= Travel(from, target, via, full) <= (if via.None? then full else 2.0 * full)
    ensures Travel(from, target, via, full) == 0.0 <==>
            from == Some(target as real) && (via.Some? ==> via.value == target)
  {
    match via
    case None => LegIsBounded(from, target, full);
    case Some(end) =>
      LegIsBounded(from, end, full);
      LegIsBounded(Some(end as real), target, full);
      assert Leg(Some(end as real), target, full) == Abs((target - end) as real) / 100.0 * full;
  }

  lemma CurrentIsInRange(c: Cover, now: real)
    requires c.Inv()
    ensures Current(c, now).Some? ==> 0.0 <= Current(c, now).value <= 100.0
  {
    if c.movement.Some? && c.movement.value.start.Some? {
      PositionLiesBetween(c.movement.value, now);
    }
  }

  /** A command starts a movement exactly if the travel time is known and the cover is not already
      there; it takes no longer than the full run, or twice that for a reference run. A repeated
      target changes nothing about the movement, its deadline included. */
  lemma StartIsBounded(c: Cover, target: int, via: Option<int>, now: real)
    requires c.Inv() && 0 <= target <= 100 && (via.Some? ==> 0 <= via.value <= 100)
    ensures
      var after, from := AfterStart(c, target, via, now), Current(c, now);
      var repeated := c.movement.Some? && c.movement.value.target == target;
      && after.Inv() && after.position == c.position
      && (repeated ==> after.movement == c.movement && after.revision > c.revision)
      && (!repeated ==>
            (after.movement.Some? <==>
               && c.fullTime.Some? && c.fullTime.value > 0.0
               && !(from == Some(target as real) && (via.Some? ==> via.value == target))))
      && (!repeated && after.movement.Some? ==>
            var m := after.movement.value;
            && m.number == c.started && m.start == from && m.target == target && m.startedAt == now && m.accepted
            && !m.elapsed
            && 0.0 < m.travel <= (if via.None? then c.fullTime.value else 2.0 * c.fullTime.value))
  {
    CurrentIsInRange(c, now);
    if c.fullTime.Some? && c.fullTime.value > 0.0 {
      TravelIsBounded(Current(c, now), target, via, c.fullTime.value);
    }
    hide Current, Travel;
  }

  /** Which way a cover really goes first: to the end position of a reference run, or to the
      target if it is at that end already. */
  predicate GoesDown(from: real, target: int, via: Option<int>) {
    if via.Some? && via.value as real != from then via.value as real > from else target as real > from
  }

  /** The direction shown is the way the cover goes first, except for a reference run to the top
      of a cover that is at the top: it shows opening while the cover closes. */
  lemma DirectionIsShownRightExactlyIf(c: Cover, target: int, via: Option<int>, now: real)
    requires c.Inv() && 0 <= target <= 100 && (via.Some? ==> via.value == 0 || via.value == 100)
    requires c.movement.Some? ==> c.movement.value.target != target
    requires Current(c, now).Some? && AfterStart(c, target, via, now).movement.Some?
    ensures
      var from := Current(c, now).value;
      (AfterStart(c, target, via, now).direction == Some(if GoesDown(from, target, via) then Closing else Opening))
      <==> !(via == Some(0) && from == 0.0)
  {
    StartIsBounded(c, target, via, now);
    CurrentIsInRange(c, now);
    hide Current, Travel;
  }

  /** Such a run: at the top, first to the top, then down to the middle. */
  lemma AClosingCoverCanShowOpening(now: real)
    ensures
      var c := Cover(Some(0), Some(60.0), None, 0, None, 0);
      && c.Inv() && GoesDown(0.0, 50, Some(0))
      && AfterStart(c, 50, Some(0), now).movement.Some? && AfterStart(c, 50, Some(0), now).direction == Some(Opening)
  {
    var c := Cover(Some(0), Some(60.0), None, 0, None, 0);
    StartIsBounded(c, 50, Some(0), now);
    hide Travel;
  }

  // ---------------------------------------------------------------------------------------
  // The channels of all covers
  // ---------------------------------------------------------------------------------------

  datatype ChannelState = ChannelState(position: Option<int>, fullTime: Option<real>, direction: Option<Direction>,
                                       revision: nat)

  const NEW_CHANNEL := ChannelState(None, None, None, 0)

  /** A device and the number of its channel. */
  function ChannelOf(channels: map<Address, ChannelState>, c: Address): ChannelState {
    if c in channels then channels[c] else NEW_CHANNEL
  }

  function CoverOf(channels: map<Address, ChannelState>, movements: map<Address, Movement>, counts: map<Address, nat>,
      c: Address): Cover
  {
    var channel := ChannelOf(channels, c);
    Cover(channel.position, channel.fullTime, channel.direction, channel.revision,
          if c in movements then Some(movements[c]) else None, if c in counts then counts[c] else 0)
  }

  /** The state of one channel has become `cover`; the others are as before. */
  ghost predicate Became(channels: map<Address, ChannelState>, movements: map<Address, Movement>,
      counts: map<Address, nat>, c: Address, cover: Cover,
      channels0: map<Address, ChannelState>, movements0: map<Address, Movement>, counts0: map<Address, nat>)
  {
    forall d :: CoverOf(channels, movements, counts, d) ==
                if d == c then cover else CoverOf(channels0, movements0, counts0, d)
  }

  class CoverEstimates {
    var channels: map<Address, ChannelState>
    var coverMovements: map<Address, Movement>
    var counts: map<Address, nat>

    ghost function State(c: Address): Cover
      reads this
    {
      CoverOf(channels, coverMovements, counts, c)
    }

    constructor ()
      ensures forall c :: CoverOf(channels, coverMovements, counts, c) == Cover(None, None, None, 0, None, 0)
    {
      channels, coverMovements, counts := map[], map[], map[];
    }

    method ClearMovement(c: Address)
      modifies this
      ensures counts == old(counts) && coverMovements == old(coverMovements) - {c}
      ensures c in old(coverMovements) ==>
              channels == old(channels)[c := ChannelOf(old(channels), c).(direction := None)]
      ensures c !in old(coverMovements) ==> channels == old(channels)
    {
      if c !in coverMovements {
        return;
      }
      coverMovements := coverMovements - {c};
      channels := channels[c := ChannelOf(channels, c).(direction := None)];
    }

    method Depart(c: Address, current: Option<real>, target: int, via: Option<int>, now: real)
      returns (movement: Option<nat>)
      requires c !in coverMovements
      modifies this
      ensures Became(channels, coverMovements, counts, c, Departed(old(State(c)), current, target, via, now),
                     old(channels), old(coverMovements), old(counts))
      ensures movement == if State(c).movement.None? then None else Some(State(c).movement.value.number)
    {
      hide Travel;
      var channel := ChannelOf(channels, c);
      if channel.fullTime.None? || channel.fullTime.value <= 0.0 {
        return None;
      }
      var travel := Travel(current, target, via, channel.fullTime.value);
      if travel == 0.0 {
        return None;
      }
      var first := if via.Some? then via.value else target;
      var closing := if current.None? then first > 50 else first as real > current.value;
      var number := if c in counts then counts[c] else 0;
      channels := channels[c := channel.(direction := Some(if closing then Closing else Opening),
                                         revision := channel.revision + 1)];
      coverMovements := coverMovements[c := Movement(number, current, target, now, travel, true, false)];
      counts := counts[c := number + 1];
      movement := Some(number);
    }

    /** The estimate the command waits for afterwards, if there is one. */
    method StartMovement(c: Address, target: int, via: Option<int>, now: real) returns (movement: Option<nat>)
      requires State(c).Inv()
      modifies this
      ensures Became(channels, coverMovements, counts, c, AfterStart(old(State(c)), target, via, now),
                     old(channels), old(coverMovements), old(counts))
      ensures movement == StartedBy(old(State(c)), target, via, now)
    {
      hide Departed, Clamp01;
      ghost var was := State(c);
      var channel := ChannelOf(channels, c);
      var current := if channel.position.None? then None else Some(channel.position.value as real);
      if c in coverMovements {
        var previous := coverMovements[c];
        if previous.target == target {
          channels := channels[c := channel.(revision := channel.revision + 1)];
          return Some(previous.number);
        }
        current := PositionAt(previous, now);
      }
      assert current == Current(was, now);
      hide Current, PositionAt;
      ClearMovement(c);
      assert State(c) == Cleared(was);
      movement := Depart(c, current, target, via, now);
      assert State(c) == AfterStart(was, target, via, now);
    }

    method FinishMovement(c: Address, number: nat)
      modifies this
      ensures Became(channels, coverMovements, counts, c, AfterElapsed(old(State(c)), number),
                     old(channels), old(coverMovements), old(counts))
    {
      if c !in coverMovements || coverMovements[c].number != number {
        return;
      }
      var movement := coverMovements[c];
      if !movement.accepted {
        coverMovements := coverMovements[c := movement.(elapsed := true)];
        return;
      }
      ClearMovement(c);
      var channel := ChannelOf(channels, c);
      channels := channels[c := channel.(position := Some(movement.target), revision := channel.revision + 1)];
    }

    method Acknowledged(c: Address, number: nat)
      modifies this
      ensures Became(channels, coverMovements, counts, c, AfterAccepted(old(State(c)), number),
                     old(channels), old(coverMovements), old(counts))
    {
      if c !in coverMovements || coverMovements[c].number != number {
        return;
      }
      coverMovements := coverMovements[c := coverMovements[c].(accepted := true)];
      if coverMovements[c].elapsed {
        FinishMovement(c, number);
      }
    }

    method FailedOrDeferred(c: Address, number: nat)
      modifies this
      ensures Became(channels, coverMovements, counts, c, AfterDropped(old(State(c)), number),
                     old(channels), old(coverMovements), old(counts))
    {
      if c in coverMovements && coverMovements[c].number == number {
        ClearMovement(c);
      }
    }
  }
}
