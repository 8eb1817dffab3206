/** The state of a device and what a telegram makes of it. */
module Devices {
  import opened Options
  import opened Values

  /** A function value: a number, a text or something else, or a truth value. */
  datatype Datum = Plain(value: Value) | Truth(b: bool)

  datatype Setting =
    | VerticalMovementTime | MaxHoldingTime | RotationTime
    | RampingTime | ShortPress | LongPress
    | RampingTimeRocker1 | RampingTimeRocker2 | RampingTimeRocker3 | RampingTimeSwitch
    | LowerLimit | UpperLimit | Timer | TimerLong | SwitchOffWarning | SwitchOffWarningSignal
    | IlluminationThreshold | AliveCycle | PirOffTime | RecomReadyTime

  function Range(s: Setting): (real, Option<real>) {
    match s
    case VerticalMovementTime => (0.0, None)
    case MaxHoldingTime => (0.0, Some(65535.0))
    case RotationTime => (0.0, None)
    case RampingTime => (0.0, Some(25.5))
    case ShortPress => (0.0, Some(2.55))
    case LongPress => (0.0, Some(2.55))
    case RampingTimeRocker1 => (0.0, Some(6553.0))
    case RampingTimeRocker2 => (0.0, Some(6553.0))
    case RampingTimeRocker3 => (0.0, Some(6553.0))
    case RampingTimeSwitch => (0.0, Some(6553.0))
    case LowerLimit => (15.0, Some(80.0))
    case UpperLimit => (15.0, Some(80.0))
    case Timer => (60.0, Some(7200.0))
    case TimerLong => (60.0, Some(18000.0))
    case SwitchOffWarning => (0.0, Some(45.0))
    case SwitchOffWarningSignal => (0.2, Some(2.0))
    case IlluminationThreshold => (0.0, Some(1500.0))
    case AliveCycle => (0.0, Some(1440.0))
    case PirOffTime => (0.0, Some(3600.0))
    case RecomReadyTime => (0.0, Some(655350.0))
  }

  datatype Choice =
    | OperationMode | LedColor | LedChannel | FunctionExternalInput | FunctionRockerA | FunctionRockerB
    | RoutingTime | RepeaterState | DimmerMode

  /** Reports whose value is one of a few texts. */
  datatype Flag =
    | HeaterMode | ThermalMode | PowerState | TemperatureOrigin | LocalControl
    | ActuatorDeactivated | ActuatorLowBattery | ActuatorNotResponding | MissingTemperature | CircuitInUse
    | CommunicationError | HeatCircuitsError | RemoteLowBattery | RemoteMalfunction

  function Texts(f: Flag): set<string> {
    match f
    case HeaterMode => {"heating", "cooling", "on", "off", "autoOff", "configIncomplete", "error"}
    case ThermalMode => {"heating", "cooling"}
    case PowerState => {"active", "inactive"}
    case TemperatureOrigin => {"external", "internal"}
    case LocalControl => {"on", "off"}
    case ActuatorDeactivated => {"info", "reset"}
    case ActuatorLowBattery => {"warning", "reset"}
    case ActuatorNotResponding => {"warning", "error", "reset"}
    case MissingTemperature => {"info", "warning", "error", "reset"}
    case CircuitInUse => {"error", "reset"}
    case CommunicationError => {"error", "reset"}
    case HeatCircuitsError => {"error", "reset"}
    case RemoteLowBattery => {"warning", "reset"}
    case RemoteMalfunction => {"error", "reset"}
  }

  /** Reports of a number; the flag tells whether "notAvailable" clears them. */
  datatype Meter = Energy | Power | FeedTemperature | EnergyConsumption | ValvePosition | SupplyVoltage

  function Scale(m: Meter): (Option<real>, Option<real>, bool) {
    match m
    case Energy => (None, None, false)
    case Power => (None, None, false)
    case FeedTemperature => (Some(0.0), Some(80.0), true)
    case EnergyConsumption => (Some(0.0), Some(10.0), true)
    case ValvePosition => (Some(0.0), Some(100.0), true)
    case SupplyVoltage => (Some(0.0), None, true)
  }

  /** Reports that are true, false or unknown. */
  datatype Sensor =
    | Motion | SmokeAlarm | Contact | BatteryLow | LiquidDetected | WindowOpen | SummerMode
    | Locked | UnlockRequest | MechanicsFault

  /** The keys of functions. A `scoped` key is another name that counts only on devices of its
      kind. */
  datatype Key =
    | Selector | Stop
    | Switch | DimValue | Position | Angle | LockingMode | Unlock(scoped: bool)
    | Temperature | Setpoint | Humidity | Illuminance(scoped: bool) | ErrorCode | Handle(scoped: bool)
    | Flagged(flag: Flag) | Metered(meter: Meter) | Sensed(sensor: Sensor, scoped: bool)
    | BatteryLevel | Button(name: string)
    | Numeric(setting: Setting) | Choosing(choice: Choice)
    | Unknown(text: string)

  /** One function of a telegram, with its own channel selector if it has one. */
  datatype Func = Func(key: Key, datum: Datum, selector: Option<Datum>)

  /** A reading a profile lists: how it is validated, and the texts that mean "no reading". */
  datatype Spec =
    | Numbers(minimum: Option<real>, maximum: Option<real>, unavailable: set<string>)
    | Enum(options: set<string>, unavailable: set<string>)
    | Flag(trues: set<string>, falses: set<string>, unavailable: set<string>)
    | Words(unavailable: set<string>)

  datatype Reading = Amount(n: real) | Word(s: string) | Mark(b: bool)

  /** What the product and the profile of a device decide: its readings and ranges, which of the
      scoped keys count, and whether buttons mean motion. `show` is how a number is written as
      text. */
  datatype Profile = Profile(readings: map<Key, Spec>, coldest: real, hottest: real, brightest: real,
                             presence: bool, motionRocker: bool, autolock: bool, smoke: bool, contact: bool,
                             handle: bool, read: NumberReader, show: real -> string)

  datatype Fault = NoError | Code(n: int)

  /** What a device reports of itself and a command may set: everything a stored setting is not. */
  datatype Live = Live(isOn: Option<bool>, brightness: Option<int>, position: Option<int>, angle: Option<int>,
                       lockingMode: Option<string>, unlockAllowed: Option<bool>, temperature: Option<real>,
                       setpoint: Option<real>, humidity: Option<real>, illuminance: Option<real>,
                       overRange: Option<bool>, errorCode: Option<Fault>, handle: Option<string>,
                       flags: map<Flag, string>, meters: map<Meter, real>, sensors: map<Sensor, bool>)

  datatype Channel = Channel(revision: nat, live: Live, batteryLevel: Option<real>, settings: map<Setting, real>,
                             choices: map<Choice, string>, readings: map<Key, Option<Reading>>,
                             button: Option<(string, string)>)

  const UNSEEN := Live(None, None, None, None, None, None, None, None, None, None, None, None, None, map[], map[],
                       map[])

  const NEW := Channel(0, UNSEEN, None, map[], map[], map[], None)

  const LOCKING_MODES: set<string> := {"block", "unblock", "alarm"}

  // ---------------------------------------------------------------------------------------
  // Reading values
  // ---------------------------------------------------------------------------------------

  function NumberIn(read: NumberReader, d: Datum, minimum: Option<real>, maximum: Option<real>,
      whole: bool): (r: Option<real>)
    ensures r.Some? ==>
              && (minimum.Some? ==> minimum.value <= r.value)
              && (maximum.Some? ==> r.value <= maximum.value)
              && (whole ==> IsWhole(r.value))
  {
    if d.Truth? then None else ParseNumber(read, d.value, minimum, maximum, whole)
  }

  function Percent(read: NumberReader, current: Option<int>, d: Datum): Option<int> {
    match NumberIn(read, d, Some(0.0), Some(100.0), true) case Some(n) => Some(n.Floor) case None => current
  }

  function FloatReading(read: NumberReader, current: Option<real>, d: Datum, minimum: Option<real>,
      maximum: Option<real>, clears: bool): Option<real>
  {
    if clears && d == Plain(Text("notAvailable")) then None
    else match NumberIn(read, d, minimum, maximum, false) case Some(n) => Some(n) case None => current
  }

  function LowerChar(c: char): char { if 'A' <= c <= 'Z' then c - 'A' + 'a' else c }

  function Lower(s: string): string { seq(|s|, i requires 0 <= i < |s| => LowerChar(s[i])) }

  function ParseBoolean(d: Datum): Option<bool> {
    match d
    case Truth(b) => Some(b)
    case Plain(Text(s)) =>
      if Lower(Trim(s)) == "true" then Some(true) else if Lower(Trim(s)) == "false" then Some(false) else None
    case _ => None
  }

  function Detector(d: Datum, active: string, inactive: string): Option<bool> {
    var text := if d.Plain? && d.value.Text? then Plain(Text(Trim(d.value.s))) else d;
    if text == Plain(Text(active)) then Some(true)
    else if text == Plain(Text(inactive)) then Some(false)
    else ParseBoolean(text)
  }

  function TextOf(d: Datum): Option<string> { if d.Plain? && d.value.Text? then Some(d.value.s) else None }

  function OptionReading(p: Profile, choice: Choice, d: Datum): Option<string> {
    if choice == RoutingTime then
      if TextOf(d) == Some("off") || TextOf(d) == Some("on") then TextOf(d)
      else
        match NumberIn(p.read, d, Some(0.0), None, false)
        case Some(n) => if n > 0.0 then Some("on") else None
        case None => None
    else
      match d
      case Plain(Text(s)) => if s == "" then None else Some(s)
      case Plain(Number(n)) => Some(p.show(n))
      case _ => None
  }

  /** A listed "no reading" clears a reading; a malformed value keeps it. */
  function ReadingOf(read: NumberReader, spec: Spec, d: Datum, current: Option<Reading>): Option<Reading> {
    var text := TextOf(d);
    if text.Some? && text.value in spec.unavailable then None
    else
      match spec
      case Numbers(minimum, maximum, _) =>
        (match NumberIn(read, d, minimum, maximum, false) case Some(n) => Some(Amount(n)) case None => current)
      case Enum(options, _) => if text.Some? && text.value in options then Some(Word(text.value)) else current
      case Flag(trues, falses, _) =>
        if text.None? then current
        else if text.value in trues then Some(Mark(true))
        else if text.value in falses then Some(Mark(false)) else current
      case Words(_) =>
        if text.Some? && Trim(text.value) != "" && |Trim(text.value)| <= 255 then Some(Word(Trim(text.value)))
        else current
  }

  function AfterSetting(read: NumberReader, c: Channel, s: Setting, d: Datum): Channel {
    if s == RotationTime && TextOf(d).Some? && Trim(TextOf(d).value) == "noRotation"
    then c.(settings := c.settings[s := 0.0])
    else
      match NumberIn(read, d, Some(Range(s).0), Range(s).1, false)
      case Some(n) => c.(settings := c.settings[s := n])
      case None => c
  }

  function ButtonOf(current: Option<(string, string)>, name: string, d: Datum): Option<(string, string)> {
    if TextOf(d) == Some("pressed") || TextOf(d) == Some("released") then Some((name, TextOf(d).value)) else current
  }

  /** On the motion detector one button means motion and another none; a release says nothing. */
  function RockerMotion(sensors: map<Sensor, bool>, name: string, d: Datum): map<Sensor, bool> {
    if TextOf(d) != Some("pressed") then sensors
    else if name == "buttonAI" then sensors[Motion := true]
    else if name == "buttonA0" then sensors[Motion := false] else sensors
  }

  function With<K, V>(m: map<K, V>, k: K, v: Option<V>): map<K, V> {
    match v case Some(x) => m[k := x] case None => m - {k}
  }

  function Lookup<K, V>(m: map<K, V>, k: K): Option<V> { if k in m then Some(m[k]) else None }

  function Exactly(d: Datum, on: string, off: string): Option<bool> {
    if d == Plain(Text(on)) then Some(true) else if d == Plain(Text(off)) then Some(false) else None
  }

  function SensorReading(s: Sensor, current: Option<bool>, d: Datum): Option<bool> {
    match s
    case Motion => Detector(d, "detected", "noMotion")
    case SmokeAlarm => if Exactly(d, "on", "off").Some? then Exactly(d, "on", "off") else Detector(d, "alarm", "idle")
    case Contact => Exactly(d, "open", "closed")
    case BatteryLow => Detector(d, "low", "ok")
    case Locked => Exactly(d, "locked", "unlocked")
    case UnlockRequest => Detector(d, "requested", "notRequested")
    case MechanicsFault => Detector(d, "error", "ok")
    case _ => if ParseBoolean(d).Some? then ParseBoolean(d) else current
  }

  /** The other name of the report counts on this device. */
  predicate InScope(p: Profile, s: Sensor) {
    match s
    case Motion => p.presence
    case SmokeAlarm => p.smoke
    case Contact => p.contact
    case MechanicsFault => p.autolock
    case _ => true
  }

  function HandleState(d: Datum): Option<string> {
    match TextOf(d)
    case None => None
    case Some(text) =>
      if text in {"tilted", "tilt", "up"} then Some("tilted")
      else if text in {"open", "closed"} then Some(text) else None
  }

  /** Brighter than the sensor can measure shows its maximum. */
  function AfterIlluminance(p: Profile, l: Live, d: Datum): Live {
    if d == Plain(Text("overRange")) then l.(illuminance := Some(p.brightest), overRange := Some(true))
    else
      l.(illuminance := FloatReading(p.read, l.illuminance, d, Some(0.0), None, true),
         overRange := if d == Plain(Text("notAvailable")) then None
                      else if NumberIn(p.read, d, Some(0.0), None, false).Some? then Some(false) else l.overRange)
  }

  function FaultReading(read: NumberReader, current: Option<Fault>, d: Datum): Option<Fault> {
    if d == Plain(Text("noError")) then Some(NoError)
    else
      match NumberIn(read, d, Some(251.0), Some(255.0), true)
      case Some(n) => Some(Code(n.Floor))
      case None => current
  }

  /** The answer to the handle is told from its request by the value. */
  function AfterUnlock(l: Live, d: Datum): Live {
    match Exactly(d, "allowed", "notAllowed")
    case Some(allowed) => l.(unlockAllowed := Some(allowed))
    case None => AfterSensor(l, UnlockRequest, d)
  }

  function AfterSensor(l: Live, s: Sensor, d: Datum): Live {
    l.(sensors := With(l.sensors, s, SensorReading(s, Lookup(l.sensors, s), d)))
  }

  function AfterMeter(read: NumberReader, l: Live, m: Meter, d: Datum): Live {
    var (minimum, maximum, clears) := Scale(m);
    l.(meters := With(l.meters, m, FloatReading(read, Lookup(l.meters, m), d, minimum, maximum, clears)))
  }

  predicate IsClimate(key: Key) {
    key in {Temperature, Setpoint, Humidity} || key.Illuminance?
  }

  /** What a sensor says of the room. */
  function AfterClimate(p: Profile, l: Live, key: Key, d: Datum): Live {
    match key
    case Temperature =>
      l.(temperature := FloatReading(p.read, l.temperature, d, Some(p.coldest), Some(p.hottest), true))
    case Setpoint => l.(setpoint := FloatReading(p.read, l.setpoint, d, Some(0.0), Some(40.0), true))
    case Humidity => l.(humidity := FloatReading(p.read, l.humidity, d, Some(0.0), Some(100.0), true))
    case Illuminance(scoped) => if scoped && !p.presence then l else AfterIlluminance(p, l, d)
    case _ => l
  }

  /** What an actuator or a window handle says of itself. */
  function AfterLevel(p: Profile, l: Live, key: Key, d: Datum): Live {
    match key
    case Switch => if Exactly(d, "on", "off").Some? then l.(isOn := Exactly(d, "on", "off")) else l
    case DimValue =>
      (match NumberIn(p.read, d, Some(0.0), Some(100.0), true)
       case Some(n) => l.(brightness := Some(n.Floor), isOn := Some(n > 0.0))
       case None => l)
    case Position => l.(position := Percent(p.read, l.position, d))
    case Angle => l.(angle := Percent(p.read, l.angle, d))
    case LockingMode => if TextOf(d).Some? && TextOf(d).value in LOCKING_MODES then l.(lockingMode := TextOf(d)) else l
    case ErrorCode => if p.presence then l.(errorCode := FaultReading(p.read, l.errorCode, d)) else l
    case Handle(scoped) => if scoped && !p.handle then l else l.(handle := HandleState(d))
    case _ => l
  }

  function AfterFlag(l: Live, f: Flag, d: Datum): Live {
    if TextOf(d).Some? && TextOf(d).value in Texts(f) then l.(flags := l.flags[f := TextOf(d).value]) else l
  }

  /** What a report of a key makes of the live values. */
  function AfterReport(p: Profile, l: Live, key: Key, d: Datum): Live {
    match key
    case Flagged(flag) => AfterFlag(l, flag, d)
    case Metered(meter) => AfterMeter(p.read, l, meter, d)
    case Sensed(sensor, scoped) => if scoped && !InScope(p, sensor) then l else AfterSensor(l, sensor, d)
    case Unlock(scoped) => if scoped && !p.autolock then l else AfterUnlock(l, d)
    case _ => if IsClimate(key) then AfterClimate(p, l, key, d) else AfterLevel(p, l, key, d)
  }

  /** The change of a channel by a function of a key that is not in the readings of the profile. */
  function AfterKey(p: Profile, c: Channel, key: Key, d: Datum): Channel {
    match key
    case Button(name) =>
      c.(button := ButtonOf(c.button, name, d),
         live := if p.motionRocker then c.live.(sensors := RockerMotion(c.live.sensors, name, d)) else c.live)
    case BatteryLevel =>
      c.(batteryLevel := FloatReading(p.read, c.batteryLevel, WithoutPercent(d), Some(0.0), Some(100.0), true))
    case Numeric(setting) => AfterSetting(p.read, c, setting, d)
    case Choosing(choice) =>
      (match OptionReading(p, choice, d) case Some(text) => c.(choices := c.choices[choice := text]) case None => c)
    case _ => c.(live := AfterReport(p, c.live, key, d))
  }

  function WithoutPercent(d: Datum): Datum {
    match TextOf(d)
    case None => d
    case Some(s) =>
      var t := Trim(s);
      Plain(Text(Trim(if t != "" && t[|t| - 1] == '%' then t[..|t| - 1] else t)))
  }

  /** A stored setting is no feedback, everything else raises the revision. */
  predicate IsSetting(key: Key) { key.Numeric? || key.Choosing? }

  function AfterFunction(p: Profile, c: Channel, key: Key, d: Datum): Channel {
    var raised := c.(revision := c.revision + if IsSetting(key) then 0 else 1);
    if key in p.readings then
      var current := if key in c.readings then c.readings[key] else None;
      raised.(readings := c.readings[key := ReadingOf(p.read, p.readings[key], d, current)])
    else AfterKey(p, raised, key, d)
  }

  // ---------------------------------------------------------------------------------------
  // Telegrams
  // ---------------------------------------------------------------------------------------

  type Channels = map<nat, Channel>

  function ChannelId(read: NumberReader, d: Datum): Option<nat> {
    if d.Truth? then None else ParseChannel(read, d.value)
  }

  /** The selector of a telegram: zero if there is none, nothing if the first one is malformed. */
  function Standard(read: NumberReader, functions: seq<Func>): Option<nat> {
    if functions == [] then Some(0)
    else if functions[0].key == Selector then ChannelId(read, functions[0].datum)
    else Standard(read, functions[1..])
  }

  /** The channel a function is applied to, if any. */
  function Target(read: NumberReader, f: Func, standard: Option<nat>): Option<nat> {
    if f.key == Selector then None
    else match f.selector case Some(d) => ChannelId(read, d) case None => standard
  }

  function At(channels: Channels, n: nat): Channel { if n in channels then channels[n] else NEW }

  function AfterOne(p: Profile, channels: Channels, f: Func, standard: Option<nat>): Channels {
    match Target(p.read, f, standard)
    case None => channels
    case Some(n) => channels[n := AfterFunction(p, At(channels, n), f.key, f.datum)]
  }

  function Fold(p: Profile, channels: Channels, functions: seq<Func>, standard: Option<nat>): Channels {
    if functions == [] then channels
    else AfterOne(p, Fold(p, channels, functions[..|functions| - 1], standard), functions[|functions| - 1], standard)
  }

  /** Button occurrences belong to one telegram only. */
  function Quiet(channels: Channels): Channels { map n | n in channels :: channels[n].(button := None) }

  function AfterTelegram(p: Profile, channels: Channels, functions: seq<Func>): Channels {
    Fold(p, Quiet(channels), functions, Standard(p.read, functions))
  }

  /** What a command saw of its channel before it was sent. */
  datatype Snapshot = Snapshot(n: nat, channel: Option<nat>)

  function SnapshotOf(channels: Channels, n: nat): Snapshot {
    Snapshot(n, if n in channels then Some(channels[n].revision) else None)
  }

  datatype Estimate =
    | SwitchTo(on: bool)
    | DimTo(value: int)
    | MoveTo(position: int)
    | TiltTo(angle: int)
    | LockTo(mode: string)
    | Permit(allowed: bool)

  function Estimated(c: Channel, e: Estimate): Channel {
    match e
    case SwitchTo(on) => c.(live := c.live.(isOn := Some(on)))
    case DimTo(value) => c.(live := c.live.(brightness := Some(value), isOn := Some(value > 0)))
    case MoveTo(position) => c.(live := c.live.(position := Some(position)))
    case TiltTo(angle) => c.(live := c.live.(angle := Some(angle)))
    case LockTo(mode) => c.(live := c.live.(lockingMode := Some(mode)))
    case Permit(allowed) => c.(live := c.live.(unlockAllowed := Some(allowed)))
  }

  class Device {
    var channels: map<nat, Channel>

    constructor ()
      ensures channels == map[]
    {
      channels := map[];
    }

    method GetOrCreateChannel(n: nat) returns (channel: Channel)
      modifies this
      ensures n in channels && channel == channels[n]
      ensures channels == old(channels)[n := At(old(channels), n)]
    {
      if n !in channels {
        channels := channels[n := NEW];
      }
      channel := channels[n];
    }

    method ClearButtonOccurrence()
      modifies this
      ensures channels == Quiet(old(channels))
    {
      var rest := channels.Keys;
      while rest != {}
        invariant rest <= old(channels).Keys && channels.Keys == old(channels).Keys
        invariant forall n <- channels ::
                  channels[n] == if n in rest then old(channels)[n] else old(channels)[n].(button := None)
      {
        var n :| n in rest;
        channels := channels[n := channels[n].(button := None)];
        rest := rest - {n};
      }
    }

    method UpdateFromTelegram(p: Profile, functions: seq<Func>)
      modifies this
      ensures channels == AfterTelegram(p, old(channels), functions)
    {
      hide AfterFunction;
      ClearButtonOccurrence();
      var standard := Some(0);
      for i := 0 to |functions|
        invariant standard == Some(0) && Standard(p.read, functions) == Standard(p.read, functions[i..])
        invariant channels == Quiet(old(channels))
      {
        if functions[i].key == Selector {
          standard := ChannelId(p.read, functions[i].datum);
          break;
        }
      }
      ghost var quiet := channels;
      assert standard == Standard(p.read, functions);
      for i := 0 to |functions|
        invariant channels == Fold(p, quiet, functions[..i], standard)
      {
        var f := functions[i];
        assert functions[..i + 1][..i] == functions[..i];
        var target := Target(p.read, f, standard);
        if target.None? {
          continue;
        }
        var channel := GetOrCreateChannel(target.value);
        channels := channels[target.value := AfterFunction(p, channel, f.key, f.datum)];
      }
      assert functions[..|functions|] == functions;
    }

    method SnapshotChannelState(n: nat) returns (snapshot: Snapshot)
      ensures snapshot == SnapshotOf(channels, n)
    {
      snapshot := Snapshot(n, if n in channels then Some(channels[n].revision) else None);
    }

    /** The commanded value is assumed unless the channel changed since the snapshot. */
    method ApplyEstimate(snapshot: Snapshot, e: Estimate) returns (applied: bool)
      modifies this
      ensures applied <==> SnapshotOf(old(channels), snapshot.n) == snapshot
      ensures channels == if applied then old(channels)[snapshot.n := Estimated(At(old(channels), snapshot.n), e)]
              else old(channels)
    {
      var now := SnapshotChannelState(snapshot.n);
      if now != snapshot {
        return false;
      }
      var channel := GetOrCreateChannel(snapshot.n);
      channels := channels[snapshot.n := Estimated(channel, e)];
      applied := true;
    }
  }
}
