/** One numeric setting from the entry of a number to the guard of the confirmed value. */
module SettingWrites {
  import opened Options
  import opened Values
  import opened Devices
  import opened SettingConflicts
  import opened SettingGrid
  import opened SettingGuards
  import opened GuardRuns

  /** A number the integration offers: its range, with the maximum given in steps, and its step
      with the decimals it is written with. */
  datatype Entry = Entry(setting: Setting, minimum: real, steps: int, step: real, decimals: nat) {
    function Maximum(): real { GridPoint(minimum, steps, step) }
  }

  const CATALOGUE: seq<Entry> := [
    Entry(VerticalMovementTime, 0.0, 65535, 0.01, 2),
    Entry(RotationTime, 0.0, 65535, 0.01, 2),
    Entry(MaxHoldingTime, 0.0, 65535, 1.0, 0),
    Entry(RampingTime, 0.0, 255, 0.1, 1),
    Entry(ShortPress, 0.0, 255, 0.01, 2),
    Entry(LongPress, 0.0, 255, 0.01, 2),
    Entry(RampingTimeRocker1, 0.0, 65530, 0.1, 1),
    Entry(RampingTimeRocker2, 0.0, 65530, 0.1, 1),
    Entry(RampingTimeRocker3, 0.0, 65530, 0.1, 1),
    Entry(RampingTimeSwitch, 0.0, 65530, 0.1, 1),
    Entry(LowerLimit, 15.0, 65, 1.0, 0),
    Entry(UpperLimit, 15.0, 65, 1.0, 0),
    Entry(Timer, 60.0, 7140, 1.0, 0),
    Entry(TimerLong, 60.0, 17940, 1.0, 0),
    Entry(SwitchOffWarning, 0.0, 45, 1.0, 0),
    Entry(SwitchOffWarningSignal, 0.2, 1800, 0.001, 3),
    Entry(IlluminationThreshold, 0.0, 1500, 1.0, 0)
  ]

  function KeyOf(s: Setting): string {
    match s
    case VerticalMovementTime => "verticalMovementTime"
    case MaxHoldingTime => "maxHoldingTime"
    case RotationTime => "rotationTime"
    case RampingTime => "rampingTime"
    case ShortPress => "shortPress"
    case LongPress => "longPress"
    case RampingTimeRocker1 => "rampingTimeRocker1"
    case RampingTimeRocker2 => "rampingTimeRocker2"
    case RampingTimeRocker3 => "rampingTimeRocker3"
    case RampingTimeSwitch => "rampingTimeSwitch"
    case LowerLimit => "lowerLimit"
    case UpperLimit => "upperLimit"
    case Timer => "timer"
    case TimerLong => "timerLong"
    case SwitchOffWarning => "switchOffWarning"
    case SwitchOffWarningSignal => "switchOffWarningSignal"
    case IlluminationThreshold => "illuminationThreshold"
    case AliveCycle => "aliveCycle"
    case PirOffTime => "pirOffTime"
    case RecomReadyTime => "recomReadyTime"
  }

  /** The step and the minimum have the decimals of the step, and the range is one of the device. */
  predicate OnItsGrid(e: Entry) {
    && e.step > 0.0 && HasDecimals(e.step, e.decimals) && HasDecimals(e.minimum, e.decimals)
    && Range(e.setting).0 <= e.minimum && (Range(e.setting).1.Some? ==> e.Maximum() <= Range(e.setting).1.value)
  }

  lemma Decimals()
    ensures HasDecimals(1.0, 0) && HasDecimals(0.1, 1) && HasDecimals(0.01, 2) && HasDecimals(0.001, 3)
    ensures HasDecimals(0.0, 0) && HasDecimals(0.0, 1) && HasDecimals(0.0, 2)
    ensures HasDecimals(15.0, 0) && HasDecimals(60.0, 0) && HasDecimals(0.2, 3)
  {
    assert Pow10(1) == 10.0 * Pow10(0) && Pow10(2) == 10.0 * Pow10(1) && Pow10(3) == 10.0 * Pow10(2);
  }

  lemma RangesFit(e: Entry)
    requires e in CATALOGUE
    ensures Range(e.setting).0 <= e.minimum && (Range(e.setting).1.Some? ==> e.Maximum() <= Range(e.setting).1.value)
  {
  }

  /** Every number the integration offers is on a grid that rounding keeps. */
  lemma CatalogueIsOnItsGrid(e: Entry)
    requires e in CATALOGUE
    ensures OnItsGrid(e)
  {
    hide HasDecimals, Range, GridPoint;
    Decimals();
    RangesFit(e);
  }

  /** A number in its range is written as a value of its grid, within half a step and in range. */
  lemma WrittenValueIsRight(e: Entry, value: real)
    requires e in CATALOGUE && e.minimum <= value <= e.Maximum()
    ensures
      e.step > 0.0 &&
      var written := Snap(value, e.step, e.minimum, e.decimals);
      && OnGrid(written, e.step, e.minimum) && -e.step / 2.0 <= written - value <= e.step / 2.0
      && Snap(written, e.step, e.minimum, e.decimals) == written
      && e.minimum <= written <= e.Maximum() && Catalogued(e.setting, written)
  {
    CatalogueIsOnItsGrid(e);
    hide CATALOGUE, HasDecimals, Snap, Range, GridPoint;
    SnapIsNearAndStays(value, e.step, e.minimum, e.decimals);
    SnapsToTheGridExactlyIf(value, e.step, e.minimum, e.decimals);
    SnapStaysInRange(value, e.step, e.minimum, e.steps, e.decimals);
  }

  // ---------------------------------------------------------------------------------------
  // A write
  // ---------------------------------------------------------------------------------------

  /** `Denied`: writes are off, or there is no such device or setting; `Refused`: the write would
      make a combination worse; `Unanswered`: the write or its read-back failed; `Differs`: the
      device holds another value, which is shown. */
  datatype Ending = Denied | Refused | Unanswered | Differs | Confirmed

  /** The settings a device lists, if it is known and its list has been read. */
  datatype Listed = NoDevice | Unread | Lists(keys: set<string>)

  predicate Admits(writable: bool, listed: Listed, key: string) {
    writable && match listed case NoDevice => false case Unread => true case Lists(keys) => key in keys
  }

  function Shown(settings: Settings, s: Setting): Option<Value> {
    if s in settings then Some(Number(settings[s])) else None
  }

  predicate Near(stored: real, written: real, step: real) { -step / 2.0 <= stored - written <= step / 2.0 }

  class SettingWriter {
    const book: GuardBook
    var settings: Settings

    constructor (book: GuardBook)
      ensures this.book == book && settings == map[]
    {
      this.book := book;
      settings := map[];
    }

    /** `answer` is what the read-back shows for the setting, if the device comes to that. */
    method SetDeviceParameter(device: string, writable: bool, listed: Listed, e: Entry, value: real,
          answer: Option<real>, now: real)
      returns (ending: Ending)
      requires e.step > 0.0 && Tidy(book.guards)
      modifies this, book
      ensures Tidy(book.guards)
      ensures
        var written := Snap(value, e.step, e.minimum, e.decimals);
        var admitted := Admits(writable, listed, KeyOf(e.setting));
        var accepted := Respects(old(settings), old(settings)[e.setting := written]);
        && (ending == Denied <==> !admitted)
        && (ending == Refused <==> admitted && !accepted)
        && (ending == Unanswered <==> admitted && accepted && answer == None)
        && (ending == Confirmed <==> admitted && accepted && answer.Some? && Near(answer.value, written, e.step))
      ensures ending in {Denied, Refused, Unanswered} ==> settings == old(settings) && book.guards == old(book.guards)
      ensures ending in {Differs, Confirmed} ==>
                && settings == AfterWrite(old(settings),
                                          Write(e.setting, Snap(value, e.step, e.minimum, e.decimals), answer.value))
                && book.guards == AfterConfirm(book.read, old(book.guards), device, KeyOf(e.setting),
                                               Shown(old(settings), e.setting), Number(answer.value), now)
    {
      hide Snap, AfterConfirm, KeyOf, Respects, Admits;
      if !Admits(writable, listed, KeyOf(e.setting)) {
        return Denied;
      }
      var written := Snap(value, e.step, e.minimum, e.decimals);
      var conflicts := FindConflicts(settings, Some(e.setting), Some(written));
      if conflicts != [] {
        return Refused;
      }
      if answer.None? {
        return Unanswered;
      }
      var previous := Shown(settings, e.setting);
      if Catalogued(e.setting, answer.value) {
        settings := settings[e.setting := answer.value];
      }
      book.GuardConfirmedSetting(device, KeyOf(e.setting), previous, Number(answer.value), now);
      ending := if Near(answer.value, written, e.step) then Confirmed else Differs;
    }
  }

  /** A number in its range whose write is confirmed: the device holds it within a step, the value
      is shown, the one shown before is kept out for the time of the guard unless it is the same,
      and with room for half a step no combination has become worse. */
  lemma ConfirmedWriteIsRight(read: NumberReader, settings: Settings, guards: Guards, device: string, e: Entry,
      value: real, stored: real, now: real, later: real)
    requires e in CATALOGUE && e.minimum <= value <= e.Maximum() && e.step > 0.0 && now <= later <= now + GUARD_SECONDS
    requires
      var written := Snap(value, e.step, e.minimum, e.decimals);
      && Accepted(settings, Write(e.setting, written, stored))
      && Near(stored, written, e.step)
      && Catalogued(e.setting, stored)
    ensures
      var written := Snap(value, e.step, e.minimum, e.decimals);
      var after := AfterWrite(settings, Write(e.setting, written, stored));
      var guarded := AfterConfirm(read, guards, device, KeyOf(e.setting), Shown(settings, e.setting), Number(stored),
        now);
      && Shown(after, e.setting) == Some(Number(stored)) && -e.step <= stored - value <= e.step
      && (e.setting in settings && !Same(read, Number(settings[e.setting]), Number(stored)) ==>
            var g := Get(guarded, device, KeyOf(e.setting));
            g.Some? && Repeats(read, g.value, Number(settings[e.setting]), later))
      && ((forall c <- CONSTRAINTS :: HasMargin(settings, e.setting, written, e.step / 2.0, c)) ==>
        Respects(settings, after))
  {
    hide AfterConfirm, KeyOf, Respects, Snap, Repeats, HasMargin, Same, CATALOGUE;
    WrittenValueIsRight(e, value);
    var written := Snap(value, e.step, e.minimum, e.decimals);
    assert Accepted(settings, Write(e.setting, written, written));
    if e.setting in settings && !Same(read, Number(settings[e.setting]), Number(stored)) {
      ShownValueIsKeptOut(read, guards, device, KeyOf(e.setting), Number(settings[e.setting]), Number(stored), now,
        later);
    }
    if forall c <- CONSTRAINTS :: HasMargin(settings, e.setting, written, e.step / 2.0, c) {
      MarginIsEnough(settings, e.setting, written, e.step / 2.0, stored);
    }
  }
}
