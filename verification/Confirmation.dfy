/** A report confirms a field of a command exactly if it sets that field of the channel. */
module Confirmation {
  import opened Options
  import opened Values
  import opened Devices
  import opened Protocol

  /** A commanded field of a channel; percentages as numbers. */
  datatype Field = Nothing | Is(b: bool) | Number(n: real) | Called(s: string)

  function Percentage(x: Option<int>): Field { match x case Some(n) => Field.Number(n as real) case None => Nothing }

  predicate Commanded(key: Key) {
    key in {Switch, DimValue, Position, Angle, Setpoint, LockingMode, Flagged(HeaterMode)}
  }

  function Text(x: Option<string>): Field { match x case Some(s) => Called(s) case None => Nothing }

  function FieldOf(l: Live, key: Key): Field
    requires Commanded(key)
  {
    match key
    case Switch => (match l.isOn case Some(b) => Is(b) case None => Nothing)
    case DimValue => Percentage(l.brightness)
    case Position => Percentage(l.position)
    case Angle => Percentage(l.angle)
    case Setpoint => (match l.setpoint case Some(n) => Field.Number(n) case None => Nothing)
    case LockingMode => Text(l.lockingMode)
    case Flagged(flag) => Text(Lookup(l.flags, flag))
  }

  predicate IsNumber(key: Key) { key in {DimValue, Position, Angle, Setpoint} }

  /** What the value says on its own, without any range. */
  function Said(read: NumberReader, key: Key, d: Datum): Field {
    if key == Switch then Is(TextOf(d) == Some("on"))
    else if !IsNumber(key) then Text(TextOf(d))
    else match NumberIn(read, d, None, None, false) case Some(n) => Field.Number(n) case None => Nothing
  }

  /** A heater reports these as well, and they are no answer to a command. */
  predicate Interim(key: Key, d: Datum) {
    key == Flagged(HeaterMode) && TextOf(d).Some? && TextOf(d).value in {"cooling", "configIncomplete", "error"}
  }

  /** What a value that confirms nothing leaves of the field of its key. */
  function Unconfirmed(read: NumberReader, l: Live, key: Key, d: Datum): Field
    requires Commanded(key)
  {
    if key == Setpoint && TextOf(d) == Some("notAvailable") then Nothing
    else if Interim(key, d) then Said(read, key, d) else FieldOf(l, key)
  }

  lemma NumbersAreWhatIsSaid(read: NumberReader, key: Key, d: Datum)
    requires IsNumber(key)
    ensures
      var n := NumberIn(read, d, Some(0.0), Some(if key == Setpoint then 40.0 else 100.0), key != Setpoint);
      && (Confirms(read, key, d) <==> n.Some?)
      && (n.Some? ==>
        Said(read, key, d) == Field.Number(n.value) && (key != Setpoint ==> n.value.Floor as real == n.value))
  {
  }

  /** A number in its range is taken, and any other leaves the field. */
  lemma NumberIsTaken(p: Profile, l: Live, key: Key, d: Datum)
    requires IsNumber(key)
    ensures
      var n := NumberIn(p.read, d, Some(0.0), Some(if key == Setpoint then 40.0 else 100.0), key != Setpoint);
      FieldOf(AfterReport(p, l, key, d), key) ==
      if key == Setpoint && d == Plain(Value.Text("notAvailable")) then Nothing
      else match n
        case Some(x) => Field.Number(if key == Setpoint then x else x.Floor as real)
        case None => FieldOf(l, key)
  {
    hide NumberIn;
  }

  lemma OwnNumber(p: Profile, l: Live, key: Key, d: Datum)
    requires IsNumber(key) && p.read("notAvailable").None?
    ensures
      var after := AfterReport(p, l, key, d);
      && (Confirms(p.read, key, d) ==> FieldOf(after, key) == Said(p.read, key, d) != Nothing)
      && (!Confirms(p.read, key, d) ==> FieldOf(after, key) == Unconfirmed(p.read, l, key, d))
  {
    NumbersAreWhatIsSaid(p.read, key, d);
    NumberIsTaken(p, l, key, d);
    assert TextOf(d) == Some("notAvailable") ==> NumberIn(p.read, d, Some(0.0), Some(40.0), false).None?;
    hide Confirms, Said, NumberIn, AfterReport, FieldOf;
  }

  lemma OwnText(p: Profile, l: Live, key: Key, d: Datum)
    requires Commanded(key) && !IsNumber(key)
    ensures
      var after := AfterReport(p, l, key, d);
      && (Confirms(p.read, key, d) ==> FieldOf(after, key) == Said(p.read, key, d) != Nothing)
      && (!Confirms(p.read, key, d) ==> FieldOf(after, key) == Unconfirmed(p.read, l, key, d))
  {
    hide NumberIn, Percent, AfterClimate, AfterMeter, AfterSensor, FaultReading, HandleState;
  }

  lemma OwnField(p: Profile, l: Live, key: Key, d: Datum)
    requires Commanded(key) && p.read("notAvailable").None?
    ensures
      var after := AfterReport(p, l, key, d);
      && (Confirms(p.read, key, d) ==> FieldOf(after, key) == Said(p.read, key, d) != Nothing)
      && (!Confirms(p.read, key, d) ==> FieldOf(after, key) == Unconfirmed(p.read, l, key, d))
  {
    hide AfterReport, Confirms, Said, Unconfirmed, FieldOf, IsNumber;
    if IsNumber(key) {
      OwnNumber(p, l, key, d);
    } else {
      OwnText(p, l, key, d);
    }
  }

  lemma OtherField(p: Profile, l: Live, key: Key, d: Datum, other: Key)
    requires Commanded(key) && Commanded(other) && other != key
    ensures
      var after := AfterReport(p, l, key, d);
      FieldOf(after, other) != FieldOf(l, other) ==>
        key == DimValue && other == Switch && after.isOn == Some(FieldOf(after, key) != Field.Number(0.0))
  {
    hide NumberIn, TextOf, FloatReading, Percent, Exactly, Texts;
    if key == DimValue {
      WholeIsItsFloor(NumberIn(p.read, d, Some(0.0), Some(100.0), true));
    }
  }

  lemma WholeIsItsFloor(n: Option<real>)
    ensures n.Some? && IsWhole(n.value) ==> n.value.Floor as real == n.value
  {
  }

  /** A report with a usable value sets the field to what it says; any other leaves it, but for a
      setpoint that is not available and what a heater reports in between. A commanded field is
      changed by its own key only, or by a dim value, which also tells whether the light is on. */
  lemma ConfirmedExactlyIfTaken(p: Profile, c: Channel, key: Key, d: Datum, other: Key)
    requires Commanded(key) && Commanded(other) && other != key && key !in p.readings && p.read("notAvailable").None?
    ensures
      var after := AfterFunction(p, c, key, d).live;
      && (Confirms(p.read, key, d) ==> FieldOf(after, key) == Said(p.read, key, d) != Nothing)
      && (!Confirms(p.read, key, d) ==> FieldOf(after, key) == Unconfirmed(p.read, c.live, key, d))
      && (FieldOf(after, other) != FieldOf(c.live, other) ==>
        key == DimValue && other == Switch && after.isOn == Some(FieldOf(after, key) != Field.Number(0.0)))
  {
    OwnField(p, c.live, key, d);
    OtherField(p, c.live, key, d, other);
    hide Confirms, Said, AfterReport, Unconfirmed, FieldOf;
  }

  // ---------------------------------------------------------------------------------------
  // Estimates
  // ---------------------------------------------------------------------------------------

  /** The key and the value of the command an estimate belongs to. */
  function CommandOf(e: Estimate): (Key, Value) {
    match e
    case SwitchTo(on) => (Switch, Value.Text(if on then "on" else "off"))
    case DimTo(value) => (DimValue, Value.Number(value as real))
    case MoveTo(position) => (Position, Value.Number(position as real))
    case TiltTo(angle) => (Angle, Value.Number(angle as real))
    case LockTo(mode) => (LockingMode, Value.Text(mode))
    case Permit(allowed) => (Unlock(true), Value.Text(if allowed then "allowed" else "notAllowed"))
  }

  /** The estimate is one a command can lead to. */
  predicate Possible(p: Profile, e: Estimate) {
    match e
    case SwitchTo(_) => true
    case DimTo(value) => 0 <= value <= 100
    case MoveTo(position) => 0 <= position <= 100
    case TiltTo(angle) => 0 <= angle <= 100
    case LockTo(mode) => mode in LOCKING_MODES
    case Permit(_) => p.autolock
  }

  lemma WholeNumber(read: NumberReader, n: int)
    requires 0 <= n <= 100
    ensures NumberIn(read, Plain(Value.Number(n as real)), Some(0.0), Some(100.0), true) == Some(n as real)
            && (n as real).Floor == n
  {
  }

  /** An estimate assumes exactly what a report of the commanded value would show. */
  lemma EstimateIsTheReportExpected(p: Profile, c: Channel, e: Estimate)
    requires Possible(p, e) && CommandOf(e).0 !in p.readings
    ensures AfterFunction(p, c, CommandOf(e).0, Plain(CommandOf(e).1)).live == Estimated(c, e).live
  {
    match e
    case DimTo(value) => WholeNumber(p.read, value); hide NumberIn;
    case MoveTo(position) => WholeNumber(p.read, position); hide NumberIn;
    case TiltTo(angle) => WholeNumber(p.read, angle); hide NumberIn;
    case _ => hide NumberIn;
  }
}
