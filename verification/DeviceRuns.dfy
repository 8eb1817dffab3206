/** What any sequence of telegrams keeps, which channel a function can change, and when the
    estimate of an acknowledged command may still be applied. */
module DeviceRuns {
  import opened Options
  import opened Values
  import opened Devices

  // ---------------------------------------------------------------------------------------
  // Ranges
  // ---------------------------------------------------------------------------------------

  predicate Within(x: real, low: Option<real>, high: Option<real>) {
    (low.Some? ==> low.value <= x) && (high.Some? ==> x <= high.value)
  }

  predicate PercentOrUnknown(x: Option<int>) { x.Some? ==> 0 <= x.value <= 100 }

  predicate Fits(spec: Spec, r: Option<Reading>) {
    r.Some? ==>
      match spec
      case Numbers(minimum, maximum, _) => r.value.Amount? && Within(r.value.n, minimum, maximum)
      case Enum(options, _) => r.value.Word? && r.value.s in options
      case Flag(_, _, _) => r.value.Mark?
      case Words(_) => r.value.Word? && 1 <= |r.value.s| <= 255
  }

  /** Ranges that depend on the profile are those of one of the profiles the device has had. */
  ghost predicate Tempered(had: seq<Profile>, t: real) { exists p <- had :: p.coldest <= t <= p.hottest }

  ghost predicate Dazzled(had: seq<Profile>, lux: real) { exists p <- had :: p.brightest == lux }

  predicate FlagsFit(flags: map<Flag, string>) { forall f <- flags :: flags[f] in Texts(f) }

  predicate MetersFit(meters: map<Meter, real>) { forall m <- meters :: Within(meters[m], Scale(m).0, Scale(m).1) }

  /** An illumination above the range is shown as the maximum, and only then. */
  ghost predicate LightFits(had: seq<Profile>, lux: Option<real>, over: Option<bool>) {
    match (lux, over)
    case (None, None) => true
    case (Some(x), Some(beyond)) => if beyond then Dazzled(had, x) else x >= 0.0
    case _ => false
  }

  predicate ClimateFits(setpoint: Option<real>, humidity: Option<real>) {
    && (setpoint.Some? ==> 0.0 <= setpoint.value <= 40.0)
    && (humidity.Some? ==> 0.0 <= humidity.value <= 100.0)
  }

  predicate LevelsFit(l: Live) {
    && PercentOrUnknown(l.brightness) && PercentOrUnknown(l.position) && PercentOrUnknown(l.angle)
    && (l.lockingMode.Some? ==> l.lockingMode.value in LOCKING_MODES)
    && (l.errorCode.Some? && l.errorCode.value.Code? ==> 251 <= l.errorCode.value.n <= 255)
    && (l.handle.Some? ==> l.handle.value in {"open", "closed", "tilted"})
  }

  ghost predicate LiveFits(had: seq<Profile>, l: Live) {
    && LevelsFit(l) && ClimateFits(l.setpoint, l.humidity) && FlagsFit(l.flags) && MetersFit(l.meters)
    && (l.temperature.Some? ==> Tempered(had, l.temperature.value)) && LightFits(had, l.illuminance, l.overRange)
  }

  predicate SettingsFit(settings: map<Setting, real>) {
    forall s <- settings :: Within(settings[s], Some(Range(s).0), Range(s).1)
  }

  predicate ChoicesFit(choices: map<Choice, string>) {
    RoutingTime in choices ==> choices[RoutingTime] == "on" || choices[RoutingTime] == "off"
  }

  ghost predicate ReadingFits(had: seq<Profile>, k: Key, r: Option<Reading>) {
    r.Some? ==> exists p <- had :: k in p.readings && Fits(p.readings[k], r)
  }

  ghost predicate ReadingsFit(had: seq<Profile>, readings: map<Key, Option<Reading>>) {
    forall k <- readings :: ReadingFits(had, k, readings[k])
  }

  /** Every field of a channel is unknown or in its range. */
  ghost predicate InRange(had: seq<Profile>, c: Channel) {
    && LiveFits(had, c.live) && (c.batteryLevel.Some? ==> 0.0 <= c.batteryLevel.value <= 100.0)
    && SettingsFit(c.settings) && ChoicesFit(c.choices) && ReadingsFit(had, c.readings)
  }

  lemma FloatStays(read: NumberReader, current: Option<real>, d: Datum, low: Option<real>, high: Option<real>,
      clears: bool)
    ensures
      var r := FloatReading(read, current, d, low, high, clears);
      r == current || r == None || (r.Some? && Within(r.value, low, high))
  {
    hide NumberIn;
  }

  lemma PercentStays(read: NumberReader, current: Option<int>, d: Datum)
    requires PercentOrUnknown(current)
    ensures PercentOrUnknown(Percent(read, current, d))
  {
    hide NumberIn;
  }

  lemma LightStays(had: seq<Profile>, p: Profile, l: Live, d: Datum)
    requires p in had && LightFits(had, l.illuminance, l.overRange)
    ensures
      var after := AfterIlluminance(p, l, d);
      && LightFits(had, after.illuminance, after.overRange)
      && after == l.(illuminance := after.illuminance, overRange := after.overRange)
  {
    hide NumberIn;
  }

  lemma MeterStays(read: NumberReader, l: Live, m: Meter, d: Datum)
    requires MetersFit(l.meters)
    ensures MetersFit(AfterMeter(read, l, m, d).meters)
  {
    var (low, high, clears) := Scale(m);
    FloatStays(read, Lookup(l.meters, m), d, low, high, clears);
    hide Scale, FloatReading;
  }

  lemma FlagStays(l: Live, f: Flag, d: Datum)
    requires FlagsFit(l.flags)
    ensures FlagsFit(AfterFlag(l, f, d).flags) && AfterFlag(l, f, d) == l.(flags := AfterFlag(l, f, d).flags)
  {
    hide Texts;
  }

  lemma FaultStays(read: NumberReader, current: Option<Fault>, d: Datum)
    ensures
      var r := FaultReading(read, current, d);
      r == current || r == Some(NoError) || (r.Some? && r.value.Code? && 251 <= r.value.n <= 255)
  {
  }

  lemma LevelStays(had: seq<Profile>, p: Profile, l: Live, key: Key, d: Datum)
    requires LiveFits(had, l)
    ensures LiveFits(had, AfterLevel(p, l, key, d))
  {
    PercentStays(p.read, l.position, d);
    PercentStays(p.read, l.angle, d);
    FaultStays(p.read, l.errorCode, d);
    hide NumberIn, Percent, FaultReading, TextOf, Exactly, LightFits, Tempered, FlagsFit, MetersFit, ClimateFits;
  }

  lemma ClimateStays(had: seq<Profile>, p: Profile, l: Live, key: Key, d: Datum)
    requires p in had && LiveFits(had, l)
    ensures LiveFits(had, AfterClimate(p, l, key, d))
  {
    FloatStays(p.read, l.temperature, d, Some(p.coldest), Some(p.hottest), true);
    FloatStays(p.read, l.setpoint, d, Some(0.0), Some(40.0), true);
    FloatStays(p.read, l.humidity, d, Some(0.0), Some(100.0), true);
    LightStays(had, p, l, d);
    hide NumberIn, FloatReading, LightFits, LevelsFit, FlagsFit, MetersFit;
  }

  lemma FlagKeepsRange(had: seq<Profile>, l: Live, f: Flag, d: Datum)
    requires LiveFits(had, l)
    ensures LiveFits(had, AfterFlag(l, f, d))
  {
    FlagStays(l, f, d);
    hide AfterFlag, ClimateFits, LightFits, Tempered, FlagsFit, MetersFit;
  }

  lemma MeterKeepsRange(had: seq<Profile>, read: NumberReader, l: Live, m: Meter, d: Datum)
    requires LiveFits(had, l)
    ensures LiveFits(had, AfterMeter(read, l, m, d))
  {
    MeterStays(read, l, m, d);
    hide FloatReading, With, Lookup, Scale, ClimateFits, LightFits, Tempered, FlagsFit, MetersFit;
  }

  /** Sensors and the unlock permission have no range. */
  lemma UnboundedKeepsRange(had: seq<Profile>, l: Live, after: Live)
    requires LiveFits(had, l) && after == l.(sensors := after.sensors, unlockAllowed := after.unlockAllowed)
    ensures LiveFits(had, after)
  {
    hide ClimateFits, LightFits, Tempered, FlagsFit, MetersFit;
  }

  lemma SensorKeepsRange(had: seq<Profile>, l: Live, s: Sensor, d: Datum)
    requires LiveFits(had, l)
    ensures LiveFits(had, AfterSensor(l, s, d)) && LiveFits(had, AfterUnlock(l, d))
  {
    hide SensorReading, With, Lookup, Exactly, LiveFits;
    UnboundedKeepsRange(had, l, AfterSensor(l, s, d));
    UnboundedKeepsRange(had, l, AfterUnlock(l, d));
  }

  lemma ReportKeepsRange(had: seq<Profile>, p: Profile, l: Live, key: Key, d: Datum)
    requires p in had && LiveFits(had, l)
    ensures LiveFits(had, AfterReport(p, l, key, d))
  {
    hide AfterLevel, AfterClimate, AfterFlag, AfterMeter, AfterSensor, AfterUnlock, LiveFits, IsClimate, InScope;
    match key
    case Flagged(flag) => FlagKeepsRange(had, l, flag, d);
    case Metered(meter) => MeterKeepsRange(had, p.read, l, meter, d);
    case Sensed(sensor, _) => SensorKeepsRange(had, l, sensor, d);
    case Unlock(_) => SensorKeepsRange(had, l, UnlockRequest, d);
    case _ => LevelStays(had, p, l, key, d); ClimateStays(had, p, l, key, d);
  }

  lemma SettingKeepsRange(read: NumberReader, c: Channel, s: Setting, d: Datum)
    requires SettingsFit(c.settings)
    ensures SettingsFit(AfterSetting(read, c, s, d).settings)
    ensures AfterSetting(read, c, s, d) == c.(settings := AfterSetting(read, c, s, d).settings)
  {
    assert s == RotationTime ==> Within(0.0, Some(Range(s).0), Range(s).1);
    hide Range;
  }

  lemma RoutingIsOnOrOff(p: Profile, choice: Choice, d: Datum)
    ensures choice == RoutingTime ==> OptionReading(p, choice, d) in {None, Some("on"), Some("off")}
  {
    hide NumberIn;
  }

  lemma KeyKeepsRange(had: seq<Profile>, p: Profile, c: Channel, key: Key, d: Datum)
    requires p in had && InRange(had, c)
    ensures InRange(had, AfterKey(p, c, key, d))
  {
    hide AfterReport, AfterSetting, OptionReading, LiveFits, SettingsFit, ReadingsFit, FloatReading, WithoutPercent,
      ButtonOf, RockerMotion;
    match key
    case Button(_) => UnboundedKeepsRange(had, c.live, AfterKey(p, c, key, d).live);
    case BatteryLevel => FloatStays(p.read, c.batteryLevel, WithoutPercent(d), Some(0.0), Some(100.0), true);
    case Numeric(setting) => SettingKeepsRange(p.read, c, setting, d);
    case Choosing(choice) => RoutingIsOnOrOff(p, choice, d);
    case _ => ReportKeepsRange(had, p, c.live, key, d);
  }

  lemma ReadingIsKeptOrFits(read: NumberReader, spec: Spec, d: Datum, current: Option<Reading>)
    ensures ReadingOf(read, spec, d, current) == current || Fits(spec, ReadingOf(read, spec, d, current))
  {
  }

  lemma FunctionKeepsRange(had: seq<Profile>, p: Profile, c: Channel, key: Key, d: Datum)
    requires p in had && InRange(had, c)
    ensures InRange(had, AfterFunction(p, c, key, d))
  {
    hide AfterKey, ReadingOf, LiveFits, SettingsFit, ChoicesFit, Fits;
    var raised := c.(revision := c.revision + if IsSetting(key) then 0 else 1);
    if key in p.readings {
      ReadingIsKeptOrFits(p.read, p.readings[key], d, if key in c.readings then c.readings[key] else None);
    } else {
      KeyKeepsRange(had, p, raised, key, d);
    }
  }

  lemma HavingMoreKeepsRange(had: seq<Profile>, p: Profile, c: Channel)
    requires InRange(had, c)
    ensures InRange(had + [p], c)
  {
    assert forall q <- had :: q in had + [p];
    hide LevelsFit, ClimateFits, FlagsFit, MetersFit, SettingsFit, ChoicesFit, Fits;
  }

  ghost predicate AllInRange(had: seq<Profile>, channels: Channels) {
    forall n <- channels :: InRange(had, channels[n])
  }

  lemma {:induction false} FoldKeepsRange(had: seq<Profile>, p: Profile, channels: Channels, functions: seq<Func>,
      standard: Option<nat>)
    requires p in had && AllInRange(had, channels)
    ensures AllInRange(had, Fold(p, channels, functions, standard))
  {
    if functions != [] {
      var before, f := Fold(p, channels, functions[..|functions| - 1], standard), functions[|functions| - 1];
      FoldKeepsRange(had, p, channels, functions[..|functions| - 1], standard);
      var target := Target(p.read, f, standard);
      if target.Some? {
        assert InRange(had, NEW);
        FunctionKeepsRange(had, p, At(before, target.value), f.key, f.datum);
      }
      hide InRange, AfterFunction;
    }
  }

  /** A telegram, and the profile the device has when it comes. */
  datatype Heard = Heard(profile: Profile, functions: seq<Func>)

  function Profiles(heard: seq<Heard>): seq<Profile> {
    if heard == [] then [] else Profiles(heard[..|heard| - 1]) + [heard[|heard| - 1].profile]
  }

  function AfterTelegrams(channels: Channels, heard: seq<Heard>): Channels {
    if heard == [] then channels
    else
      var last := heard[|heard| - 1];
      AfterTelegram(last.profile, AfterTelegrams(channels, heard[..|heard| - 1]), last.functions)
  }

  /** Whatever telegrams a device sends, and whatever profiles it is given meanwhile, every field
      stays unknown or in its range. */
  lemma {:induction false} RangesHold(heard: seq<Heard>)
    ensures AllInRange(Profiles(heard), AfterTelegrams(map[], heard))
  {
    if heard != [] {
      var rest, last := heard[..|heard| - 1], heard[|heard| - 1];
      var before, had := AfterTelegrams(map[], rest), Profiles(rest);
      RangesHold(rest);
      forall n | n in before ensures InRange(had + [last.profile], Quiet(before)[n]) {
        HavingMoreKeepsRange(had, last.profile, before[n]);
      }
      assert (had + [last.profile])[|had|] == last.profile;
      FoldKeepsRange(had + [last.profile], last.profile, Quiet(before), last.functions,
        Standard(last.profile.read, last.functions));
      hide InRange, Fold;
    }
  }

  // ---------------------------------------------------------------------------------------
  // Channels do not touch each other
  // ---------------------------------------------------------------------------------------

  function Find(channels: Channels, n: nat): Option<Channel> { if n in channels then Some(channels[n]) else None }

  function Or(c: Option<Channel>): Channel { if c.Some? then c.value else NEW }

  /** The functions applied to one channel, in order. */
  function Addressed(read: NumberReader, functions: seq<Func>, standard: Option<nat>, n: nat): seq<Func> {
    if functions == [] then []
    else
      var before, last := Addressed(read, functions[..|functions| - 1], standard, n), functions[|functions| - 1];
      if Target(read, last, standard) == Some(n) then before + [last] else before
  }

  /** One channel on its own. */
  function Alone(p: Profile, c: Option<Channel>, functions: seq<Func>): Option<Channel> {
    if functions == [] then c
    else
      var before, last := Alone(p, c, functions[..|functions| - 1]), functions[|functions| - 1];
      Some(AfterFunction(p, Or(before), last.key, last.datum))
  }

  lemma OneFunction(p: Profile, channels: Channels, f: Func, standard: Option<nat>, n: nat)
    ensures Find(AfterOne(p, channels, f, standard), n) ==
              if Target(p.read, f, standard) == Some(n) then Some(AfterFunction(p, At(channels, n), f.key, f.datum))
              else Find(channels, n)
  {
    hide AfterFunction, Target;
  }

  lemma AloneMore(p: Profile, c: Option<Channel>, functions: seq<Func>, f: Func)
    ensures Alone(p, c, functions + [f]) == Some(AfterFunction(p, Or(Alone(p, c, functions)), f.key, f.datum))
  {
    hide AfterFunction;
    assert (functions + [f])[..|functions + [f]| - 1] == functions;
  }

  lemma FoldMore(p: Profile, channels: Channels, functions: seq<Func>, f: Func, standard: Option<nat>)
    ensures Fold(p, channels, functions + [f], standard)
            == AfterOne(p, Fold(p, channels, functions, standard), f, standard)
  {
    hide AfterOne;
    assert (functions + [f])[..|functions + [f]| - 1] == functions;
  }

  lemma AddressedMore(read: NumberReader, functions: seq<Func>, f: Func, standard: Option<nat>, n: nat)
    ensures Addressed(read, functions + [f], standard, n)
            == Addressed(read, functions, standard, n) + if Target(read, f, standard) == Some(n) then [f] else []
  {
    hide Target;
    assert (functions + [f])[..|functions + [f]| - 1] == functions;
  }

  ghost predicate Isolated(p: Profile, channels: Channels, functions: seq<Func>, standard: Option<nat>, n: nat) {
    Find(Fold(p, channels, functions, standard), n)
      == Alone(p, Find(channels, n), Addressed(p.read, functions, standard, n))
  }

  lemma IsolationGoesOn(p: Profile, channels: Channels, before: seq<Func>, last: Func, standard: Option<nat>, n: nat)
    requires Isolated(p, channels, before, standard, n)
    ensures Isolated(p, channels, before + [last], standard, n)
  {
    hide Fold, Alone, Addressed, AfterOne, AfterFunction, Target, Find, Or, At;
    FoldMore(p, channels, before, last, standard);
    AddressedMore(p.read, before, last, standard, n);
    var own := Addressed(p.read, before, standard, n);
    OneFunction(p, Fold(p, channels, before, standard), last, standard, n);
    AtFinds(Fold(p, channels, before, standard), n);
    AloneMore(p, Find(channels, n), own, last);
    assert own + [] == own;
  }

  /** A channel becomes what the functions that name it make of it: nothing else in the telegram
      and no other channel matters, and a function with a malformed selector names none. */
  lemma {:induction false} ChannelIsIsolated(p: Profile, channels: Channels, functions: seq<Func>,
      standard: Option<nat>, n: nat)
    ensures Isolated(p, channels, functions, standard, n)
  {
    if functions == [] {
      hide AfterOne, AfterFunction, Target;
    } else {
      hide *;
      var before, last := functions[..|functions| - 1], functions[|functions| - 1];
      assert functions == before + [last];
      ChannelIsIsolated(p, channels, before, standard, n);
      IsolationGoesOn(p, channels, before, last, standard, n);
    }
  }

  lemma AtFinds(channels: Channels, n: nat)
    ensures Or(Find(channels, n)) == At(channels, n)
  {
  }

  /** A telegram in full: a channel it does not name keeps everything but its button. */
  lemma TelegramChangesOnlyWhatItNames(p: Profile, channels: Channels, functions: seq<Func>, n: nat)
    ensures
      var own := Addressed(p.read, functions, Standard(p.read, functions), n);
      var quiet := if n in channels then Some(channels[n].(button := None)) else None;
      Find(AfterTelegram(p, channels, functions), n) == Alone(p, quiet, own)
    ensures Addressed(p.read, functions, Standard(p.read, functions), n) == [] ==>
              Find(AfterTelegram(p, channels, functions), n) ==
              if n in channels then Some(channels[n].(button := None)) else None
  {
    ChannelIsIsolated(p, Quiet(channels), functions, Standard(p.read, functions), n);
  }

  /** The functions with a usable selector. */
  function Usable(read: NumberReader, functions: seq<Func>, standard: Option<nat>): seq<Func> {
    if functions == [] then []
    else
      var before, last := Usable(read, functions[..|functions| - 1], standard), functions[|functions| - 1];
      if Target(read, last, standard).Some? then before + [last] else before
  }

  /** Without its malformed functions a telegram has the same effect. */
  lemma {:induction false} MalformedFunctionsChangeNothing(p: Profile, channels: Channels, functions: seq<Func>,
      standard: Option<nat>)
    ensures Fold(p, channels, Usable(p.read, functions, standard), standard) == Fold(p, channels, functions, standard)
  {
    if functions != [] {
      var before, last := functions[..|functions| - 1], functions[|functions| - 1];
      MalformedFunctionsChangeNothing(p, channels, before, standard);
      var usable := Usable(p.read, before, standard);
      if Target(p.read, last, standard).Some? {
        assert (usable + [last])[..|usable + [last]| - 1] == usable;
      }
      hide AfterFunction, Target;
    }
  }

  // ---------------------------------------------------------------------------------------
  // Revisions
  // ---------------------------------------------------------------------------------------

  function Reports(functions: seq<Func>): nat {
    if functions == [] then 0
    else Reports(functions[..|functions| - 1]) + if IsSetting(functions[|functions| - 1].key) then 0 else 1
  }

  lemma KeyMoves(p: Profile, c: Channel, key: Key, d: Datum)
    ensures AfterFunction(p, c, key, d).revision == c.revision + if IsSetting(key) then 0 else 1
    ensures IsSetting(key) || key == BatteryLevel ==> AfterFunction(p, c, key, d).live == c.live
  {
    hide ReadingOf, AfterReport, WithoutPercent, FloatReading, OptionReading, ButtonOf, RockerMotion;
    if key.Numeric? {
      SettingsOnly(p.read, c.(revision := c.revision), key.setting, d);
    }
  }

  lemma SettingsOnly(read: NumberReader, c: Channel, s: Setting, d: Datum)
    ensures AfterSetting(read, c, s, d) == c.(settings := AfterSetting(read, c, s, d).settings)
  {
    hide Range;
  }

  /** The revision of a channel counts the functions that name it and are no settings, and while
      it stays the same nothing live has changed. */
  lemma {:induction false} RevisionCountsReports(p: Profile, c: Option<Channel>, functions: seq<Func>)
    ensures Or(Alone(p, c, functions)).revision == Or(c).revision + Reports(functions)
    ensures Reports(functions) == 0 ==> Or(Alone(p, c, functions)).live == Or(c).live
  {
    if functions != [] {
      var last := functions[|functions| - 1];
      RevisionCountsReports(p, c, functions[..|functions| - 1]);
      KeyMoves(p, Or(Alone(p, c, functions[..|functions| - 1])), last.key, last.datum);
      hide AfterFunction;
    }
  }

  /** No telegram changes a live value without raising the revision, and stored settings alone
      never raise it. */
  lemma LiveChangesRaiseTheRevision(p: Profile, channels: Channels, functions: seq<Func>, n: nat)
    ensures
      var before, after := At(channels, n), At(AfterTelegram(p, channels, functions), n);
      && after.revision == before.revision + Reports(Addressed(p.read, functions, Standard(p.read, functions), n))
      && (after.live != before.live ==> after.revision > before.revision)
      && ((forall f <- functions :: IsSetting(f.key) || f.key == Selector) ==>
        after.revision == before.revision && after.live == before.live)
  {
    TelegramChangesOnlyWhatItNames(p, channels, functions, n);
    var own := Addressed(p.read, functions, Standard(p.read, functions), n);
    var quiet := if n in channels then Some(channels[n].(button := None)) else None;
    RevisionCountsReports(p, quiet, own);
    if forall f <- functions :: IsSetting(f.key) || f.key == Selector {
      SettingsAreNoReports(p.read, functions, Standard(p.read, functions), n);
    }
    hide AfterTelegram, Addressed, Alone, Reports;
  }

  lemma {:induction false} SettingsAreNoReports(read: NumberReader, functions: seq<Func>, standard: Option<nat>, n: nat)
    requires forall f <- functions :: IsSetting(f.key) || f.key == Selector
    ensures Reports(Addressed(read, functions, standard, n)) == 0
  {
    if functions != [] {
      var before, last := functions[..|functions| - 1], functions[|functions| - 1];
      SettingsAreNoReports(read, before, standard, n);
      var own := Addressed(read, before, standard, n);
      assert (own + [last])[..|own + [last]| - 1] == own;
    }
  }

  // ---------------------------------------------------------------------------------------
  // Estimates
  // ---------------------------------------------------------------------------------------

  /** `Moves` is the start, repetition or end of a cover movement, `Opens` one that does not start
      because its travel time is unknown; `Assumes` is the estimate of another command. */
  datatype Event =
    | Telegram(profile: Profile, functions: seq<Func>)
    | Moves(n: nat)
    | Opens(n: nat)
    | Assumes(n: nat, e: Estimate)

  function Happens(channels: Channels, e: Event): Channels {
    match e
    case Telegram(p, functions) => AfterTelegram(p, channels, functions)
    case Moves(n) => channels[n := At(channels, n).(revision := At(channels, n).revision + 1)]
    case Opens(n) => channels[n := At(channels, n)]
    case Assumes(n, estimate) => channels[n := Estimated(At(channels, n), estimate)]
  }

  function After(channels: Channels, events: seq<Event>): Channels {
    if events == [] then channels else Happens(After(channels, events[..|events| - 1]), events[|events| - 1])
  }

  function Own(p: Profile, functions: seq<Func>, n: nat): seq<Func> {
    Addressed(p.read, functions, Standard(p.read, functions), n)
  }

  /** The event reports something about the channel, or moves it. */
  predicate Touches(e: Event, n: nat) {
    match e
    case Telegram(p, functions) => Reports(Own(p, functions, n)) > 0
    case Moves(m) => m == n
    case Opens(_) => false
    case Assumes(_, _) => false
  }

  /** The event creates the channel if it is not there yet. */
  predicate Names(e: Event, n: nat) {
    match e
    case Telegram(p, functions) => Own(p, functions, n) != []
    case Moves(m) => m == n
    case Opens(m) => m == n
    case Assumes(m, _) => m == n
  }

  lemma EventMoves(channels: Channels, e: Event, n: nat)
    ensures n in Happens(channels, e) <==> n in channels || Names(e, n)
    ensures At(Happens(channels, e), n).revision >= At(channels, n).revision
    ensures At(Happens(channels, e), n).revision == At(channels, n).revision <==> !Touches(e, n)
  {
    if e.Telegram? {
      LiveChangesRaiseTheRevision(e.profile, channels, e.functions, n);
      TelegramChangesOnlyWhatItNames(e.profile, channels, e.functions, n);
      hide AfterTelegram, Reports;
    }
  }

  lemma {:induction false} RunMoves(channels: Channels, events: seq<Event>, n: nat)
    ensures n in After(channels, events) <==> n in channels || exists e <- events :: Names(e, n)
    ensures At(After(channels, events), n).revision >= At(channels, n).revision
    ensures At(After(channels, events), n).revision == At(channels, n).revision <==>
            forall e <- events :: !Touches(e, n)
  {
    if events != [] {
      var before, last := events[..|events| - 1], events[|events| - 1];
      RunMoves(channels, before, n);
      EventMoves(After(channels, before), last, n);
      assert forall e :: e in events <==> e in before || e == last;
      hide Happens, Touches, Names;
    }
  }

  /** An acknowledged command may assume its value exactly if, since it was sent, no report and no
      cover movement touched the channel; for a channel that was not there, if nothing at all
      created it, not even a stored setting or a movement that did not start. */
  lemma EstimateAppliesExactlyIfUntouched(channels: Channels, events: seq<Event>, n: nat)
    ensures SnapshotOf(After(channels, events), n) == SnapshotOf(channels, n) <==>
              if n in channels then forall e <- events :: !Touches(e, n) else forall e <- events :: !Names(e, n)
  {
    RunMoves(channels, events, n);
    hide After, Touches, Names;
  }

  /** So the first position command of a cover not seen before is never shown at once: it opens its
      channel, and no estimate for it applies. */
  lemma AnUnseenCoverShowsNoEstimate(channels: Channels, n: nat)
    requires n !in channels
    ensures SnapshotOf(After(channels, [Opens(n)]), n) != SnapshotOf(channels, n)
  {
    assert [Opens(n)][..0] == [];
  }

  // ---------------------------------------------------------------------------------------
  // Lists that are no state
  // ---------------------------------------------------------------------------------------

  /** The part of a device list a refresh applies to a known device. */
  predicate IsConfiguration(key: Key) { IsSetting(key) || key == BatteryLevel || key == Selector }

  function Configuration(functions: seq<Func>): seq<Func> {
    if functions == [] then []
    else
      var before, last := Configuration(functions[..|functions| - 1]), functions[|functions| - 1];
      if IsConfiguration(last.key) then before + [last] else before
  }

  lemma {:induction false} ConfigurationKeepsLive(p: Profile, c: Option<Channel>, functions: seq<Func>)
    requires forall f <- functions :: IsConfiguration(f.key) && f.key != Selector
    ensures Or(Alone(p, c, functions)).live == Or(c).live
  {
    if functions != [] {
      var last := functions[|functions| - 1];
      ConfigurationKeepsLive(p, c, functions[..|functions| - 1]);
      KeyMoves(p, Or(Alone(p, c, functions[..|functions| - 1])), last.key, last.datum);
      assert last in functions;
      hide AfterFunction;
    }
  }

  lemma {:induction false} OnlyConfiguration(functions: seq<Func>)
    ensures forall f <- Configuration(functions) :: IsConfiguration(f.key) && f in functions
  {
    if functions != [] {
      OnlyConfiguration(functions[..|functions| - 1]);
    }
  }

  lemma {:induction false} AddressedAreThose(read: NumberReader, functions: seq<Func>, standard: Option<nat>, n: nat)
    ensures forall f <- Addressed(read, functions, standard, n) :: f in functions && f.key != Selector
  {
    if functions != [] {
      AddressedAreThose(read, functions[..|functions| - 1], standard, n);
    }
  }

  /** A refreshed list of a known device changes nothing live on any channel, whatever it holds.
      It does raise the revision where it names a battery level, and only there. */
  lemma RefreshChangesNothingLive(p: Profile, channels: Channels, listed: seq<Func>, n: nat)
    ensures
      var functions := Configuration(listed);
      var before, after := At(channels, n), At(AfterTelegram(p, channels, functions), n);
      && after.live == before.live
      && (after.revision > before.revision <==>
            exists f <- Addressed(p.read, functions, Standard(p.read, functions), n) :: f.key == BatteryLevel)
  {
    var functions := Configuration(listed);
    var own := Addressed(p.read, functions, Standard(p.read, functions), n);
    var quiet := if n in channels then Some(channels[n].(button := None)) else None;
    TelegramChangesOnlyWhatItNames(p, channels, functions, n);
    RevisionCountsReports(p, quiet, own);
    OnlyConfiguration(listed);
    AddressedAreThose(p.read, functions, Standard(p.read, functions), n);
    ConfigurationKeepsLive(p, quiet, own);
    ReportsExist(own);
    hide AfterTelegram, Alone, Addressed, Configuration, Reports;
  }

  /** Such a list: one battery level, while a command on the channel awaits its acknowledgement. */
  lemma ABatteryLevelEndsAnEstimate(p: Profile, c: Channel)
    ensures
      var listed := [Func(BatteryLevel, Plain(Number(80.0)), None)];
      var channels := map[0 := c];
      Configuration(listed) == listed
      && SnapshotOf(AfterTelegram(p, channels, Configuration(listed)), 0) != SnapshotOf(channels, 0)
  {
    var level := Func(BatteryLevel, Plain(Number(80.0)), None);
    var listed, channels := [level], map[0 := c];
    assert listed[..|listed| - 1] == [];
    assert Configuration(listed) == listed;
    assert Target(p.read, level, Standard(p.read, listed)) == Some(0);
    AddressedMore(p.read, [], level, Standard(p.read, listed), 0);
    assert [] + listed == listed;
    RefreshChangesNothingLive(p, channels, listed, 0);
    assert level in Addressed(p.read, listed, Standard(p.read, listed), 0);
    hide AfterTelegram, Addressed;
  }

  lemma {:induction false} ReportsExist(functions: seq<Func>)
    ensures Reports(functions) > 0 <==> exists f <- functions :: !IsSetting(f.key)
  {
    if functions != [] {
      var before, last := functions[..|functions| - 1], functions[|functions| - 1];
      ReportsExist(before);
      assert forall f :: f in functions <==> f in before || f == last;
    }
  }
}
