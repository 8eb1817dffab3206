/** The functions a device object of the gateway carries: its state, and its stored settings with
    the channel each of them belongs to. */
module DeviceLists {
  import opened Options
  import opened Values
  import opened Devices
  import opened DeviceRuns

  /** One entry of a list of the gateway, which may lack its key or its value; what is no object
      lacks both. `channel` is its own channel, if it has one. */
  datatype Entry = Entry(key: Option<Key>, value: Option<Datum>, channel: Option<Datum>)

  /** The channel in force before entry `i`: that of the last selector, or of the configuration. */
  function ChannelAt(parameters: seq<Entry>, channel: Datum, i: nat): Datum
    requires i <= |parameters|
  {
    if i == 0 then channel
    else if parameters[i - 1].key == Some(Selector) then
      if parameters[i - 1].value.Some? then parameters[i - 1].value.value else Plain(Other)
    else ChannelAt(parameters, channel, i - 1)
  }

  /** The function an entry stands for: a setting that has a value, a routing time as off or on. */
  function Yielded(p: Profile, entry: Entry, channel: Datum): Option<Func> {
    if entry.value.None? || entry.key.None? || !IsSetting(entry.key.value) then None
    else if entry.key == Some(Choosing(RoutingTime)) then
      match OptionReading(p, RoutingTime, entry.value.value)
      case Some(text) => Some(Func(entry.key.value, Plain(Text(text)), Some(channel)))
      case None => None
    else
      var own := if entry.channel.Some? then entry.channel.value else channel;
      Some(Func(entry.key.value, entry.value.value, Some(own)))
  }

  function Settings(p: Profile, parameters: seq<Entry>, channel: Datum, n: nat): seq<Func>
    requires n <= |parameters|
  {
    if n == 0 then []
    else
      var last := Yielded(p, parameters[n - 1], ChannelAt(parameters, channel, n - 1));
      Settings(p, parameters, channel, n - 1) + if last.Some? then [last.value] else []
  }

  /** Every entry yields its function under the channel in force at its place, in order. */
  method ConfigurationStateFunctions(p: Profile, parameters: seq<Entry>, channel: Datum)
    returns (functions: seq<Func>)
    ensures functions == Settings(p, parameters, channel, |parameters|)
  {
    hide OptionReading;
    functions := [];
    var current := channel;
    for i := 0 to |parameters|
      invariant current == ChannelAt(parameters, channel, i) && functions == Settings(p, parameters, channel, i)
    {
      var entry := parameters[i];
      if entry.key == Some(Selector) {
        current := if entry.value.Some? then entry.value.value else Plain(Other);
      } else if entry.key == Some(Choosing(RoutingTime)) && entry.value.Some? {
        var routing := OptionReading(p, RoutingTime, entry.value.value);
        if routing.Some? {
          functions := functions + [Func(entry.key.value, Plain(Text(routing.value)), Some(current))];
        }
      } else if entry.key.Some? && IsSetting(entry.key.value) && entry.value.Some? {
        functions := functions + [Func(entry.key.value, entry.value.value,
                                       Some(if entry.channel.Some? then entry.channel.value else current))];
      }
    }
  }

  /** What a device object carries besides its settings. `slots` tells of a smoke detector whose
      first two transmit modes may come without a key. */
  datatype Listing = Listing(state: seq<Entry>, states: seq<Entry>, modes: seq<Entry>, slots: bool,
                             repeater: Option<string>, battery: Option<Datum>, targets: seq<Entry>)

  /** Buttons are never state: they tell of a past occurrence. */
  predicate IsState(key: Key) { !key.Button? }

  predicate IsMode(key: Key) { key == Sensed(BatteryLow, false) || (key.Sensed? && key.sensor == SmokeAlarm) }

  predicate IsAnswer(key: Key) { key == Unlock(true) }

  predicate Holds(entry: Entry, keep: Key -> bool) { entry.key.Some? && entry.value.Some? && keep(entry.key.value) }

  /** The functions of the complete entries of some keys, in order. */
  function Kept(entries: seq<Entry>, keep: Key -> bool): seq<Func> {
    if entries == [] then []
    else
      var before, last := Kept(entries[..|entries| - 1], keep), entries[|entries| - 1];
      if Holds(last, keep) then before + [Func(last.key.value, last.value.value, last.channel)] else before
  }

  const SLOTS := [Sensed(SmokeAlarm, false), Sensed(BatteryLow, false)]

  function InSlot(entry: Entry, i: nat): Entry {
    if i < |SLOTS| && entry.key in {None, Some(Unknown(""))} then entry.(key := Some(SLOTS[i])) else entry
  }

  function Modes(l: Listing): seq<Entry> {
    if l.slots then seq(|l.modes|, i requires 0 <= i < |l.modes| => InSlot(l.modes[i], i)) else l.modes
  }

  function Extras(l: Listing): seq<Func> {
    Kept(Modes(l), IsMode)
    + (if l.repeater.Some? && l.repeater.value != ""
       then [Func(Choosing(RepeaterState), Plain(Text(l.repeater.value)), Some(Plain(Number(0.0))))] else [])
    + (if l.battery.Some? then [Func(BatteryLevel, l.battery.value, None)] else [])
    + Kept(l.targets, IsAnswer)
  }

  /** The state besides the settings: the first of the two places that holds any counts. */
  function Beside(l: Listing): seq<Func> {
    (if Kept(l.state, IsState) != [] then Kept(l.state, IsState) else Kept(l.states, IsState)) + Extras(l)
  }

  function StateFunctions(p: Profile, l: Listing, parameters: seq<Entry>, channel: Datum): seq<Func> {
    Beside(l) + Settings(p, parameters, channel, |parameters|)
  }

  method CompleteFunctions(entries: seq<Entry>, keep: Key -> bool) returns (functions: seq<Func>)
    ensures functions == Kept(entries, keep)
  {
    functions := [];
    for i := 0 to |entries|
      invariant functions == Kept(entries[..i], keep)
    {
      assert entries[..i + 1][..i] == entries[..i];
      var entry := entries[i];
      if Holds(entry, keep) {
        functions := functions + [Func(entry.key.value, entry.value.value, entry.channel)];
      }
    }
    assert entries[..|entries|] == entries;
  }

  /** The first two transmit modes of such a detector get the keys of their slots. */
  method TransmitModes(l: Listing) returns (modes: seq<Entry>)
    ensures modes == Modes(l)
  {
    modes := l.modes;
    if l.slots {
      modes := [];
      for i := 0 to |l.modes|
        invariant modes == Modes(l)[..i]
      {
        modes := modes + [InSlot(l.modes[i], i)];
      }
    }
  }

  /** The first of the two places that holds any state. */
  method StateOf(l: Listing) returns (functions: seq<Func>)
    ensures functions == if Kept(l.state, IsState) != [] then Kept(l.state, IsState) else Kept(l.states, IsState)
  {
    var sources := [l.state, l.states];
    functions := [];
    for i := 0 to 2
      invariant functions == []
      invariant i > 0 ==> Kept(l.state, IsState) == []
      invariant i > 1 ==> Kept(l.states, IsState) == []
    {
      functions := CompleteFunctions(sources[i], IsState);
      if functions != [] {
        break;
      }
    }
  }

  method DeviceStateFunctions(p: Profile, l: Listing, parameters: seq<Entry>, channel: Datum)
    returns (functions: seq<Func>)
    ensures functions == StateFunctions(p, l, parameters, channel)
  {
    hide Kept, Modes, Settings;
    functions := StateOf(l);
    var modes := TransmitModes(l);
    var reported := CompleteFunctions(modes, IsMode);
    var extras := reported;
    if l.repeater.Some? && l.repeater.value != "" {
      extras := extras + [Func(Choosing(RepeaterState), Plain(Text(l.repeater.value)), Some(Plain(Number(0.0))))];
    }
    if l.battery.Some? {
      extras := extras + [Func(BatteryLevel, l.battery.value, None)];
    }
    var answers := CompleteFunctions(l.targets, IsAnswer);
    var settings := ConfigurationStateFunctions(p, parameters, channel);
    assert extras + answers == Extras(l);
    functions := functions + (extras + answers) + settings;
  }

  // ---------------------------------------------------------------------------------------
  // What lists can and cannot do
  // ---------------------------------------------------------------------------------------

  lemma {:induction false} SettingsAreSettings(p: Profile, parameters: seq<Entry>, channel: Datum, n: nat)
    requires n <= |parameters|
    ensures forall f <- Settings(p, parameters, channel, n) :: IsSetting(f.key) && f.selector.Some?
  {
    if n > 0 {
      SettingsAreSettings(p, parameters, channel, n - 1);
    }
  }

  lemma {:induction false} SelectedFoldAlike(p: Profile, channels: Channels, functions: seq<Func>, one: Option<nat>,
      other: Option<nat>)
    requires forall f <- functions :: f.selector.Some?
    ensures Fold(p, channels, functions, one) == Fold(p, channels, functions, other)
  {
    hide AfterFunction;
    if functions != [] {
      var before, last := functions[..|functions| - 1], functions[|functions| - 1];
      SelectedFoldAlike(p, channels, before, one, other);
      assert last in functions;
      assert Target(p.read, last, one) == Target(p.read, last, other);
    }
  }

  lemma {:induction false} FoldJoins(p: Profile, channels: Channels, first: seq<Func>, second: seq<Func>,
      standard: Option<nat>)
    ensures Fold(p, channels, first + second, standard) == Fold(p, Fold(p, channels, first, standard), second, standard)
  {
    hide AfterOne;
    if second == [] {
      assert first + second == first;
    } else {
      var before, last := second[..|second| - 1], second[|second| - 1];
      FoldJoins(p, channels, first, before, standard);
      assert first + second == (first + before) + [last];
      FoldMore(p, channels, first + before, last, standard);
    }
  }

  /** The channel entry `i` belongs to: its own, but for a routing time, or the one in force. */
  function BelongsTo(read: NumberReader, parameters: seq<Entry>, channel: Datum, i: nat): Option<nat>
    requires i < |parameters|
  {
    ChannelId(read, if parameters[i].channel.Some? && parameters[i].key != Some(Choosing(RoutingTime))
                    then parameters[i].channel.value
                    else ChannelAt(parameters, channel, i))
  }

  /** Each listed setting goes to the channel its place in the list says, whatever the state beside
      it selects: the settings part can be applied with any other selector to the same effect. */
  lemma SettingsKnowTheirChannel(p: Profile, channels: Channels, l: Listing, parameters: seq<Entry>,
      channel: Datum, other: Option<nat>)
    ensures
      var functions := StateFunctions(p, l, parameters, channel);
      var standard, settings := Standard(p.read, functions), Settings(p, parameters, channel, |parameters|);
      && AfterTelegram(p, channels, functions)
         == Fold(p, Fold(p, Quiet(channels), Beside(l), standard), settings, other)
      && forall i :: 0 <= i < |parameters| && Yielded(p, parameters[i], ChannelAt(parameters, channel, i)).Some? ==>
           Target(p.read, Yielded(p, parameters[i], ChannelAt(parameters, channel, i)).value, other)
           == BelongsTo(p.read, parameters, channel, i)
  {
    hide Fold, OptionReading, ChannelId, ChannelAt, Kept, Extras;
    var functions := StateFunctions(p, l, parameters, channel);
    var standard, settings := Standard(p.read, functions), Settings(p, parameters, channel, |parameters|);
    assert functions == Beside(l) + settings;
    FoldJoins(p, Quiet(channels), Beside(l), settings, standard);
    SettingsAreSettings(p, parameters, channel, |parameters|);
    SelectedFoldAlike(p, Fold(p, Quiet(channels), Beside(l), standard), settings, standard, other);
  }

  lemma {:induction false} KeptAreThose(entries: seq<Entry>, keep: Key -> bool)
    ensures forall f <- Kept(entries, keep) :: keep(f.key)
  {
    if entries != [] {
      KeptAreThose(entries[..|entries| - 1], keep);
    }
  }

  lemma StateHasNoButtons(p: Profile, l: Listing, parameters: seq<Entry>, channel: Datum)
    ensures forall f <- StateFunctions(p, l, parameters, channel) :: !f.key.Button?
  {
    KeptAreThose(l.state, IsState);
    KeptAreThose(l.states, IsState);
    KeptAreThose(Modes(l), IsMode);
    KeptAreThose(l.targets, IsAnswer);
    SettingsAreSettings(p, parameters, channel, |parameters|);
    hide Kept, Settings, Modes;
  }

  lemma OnlyButtonsPress(p: Profile, c: Channel, key: Key, d: Datum)
    requires !key.Button?
    ensures AfterFunction(p, c, key, d).button == c.button
  {
    if key.Numeric? {
      SettingsOnly(p.read, c.(revision := c.revision), key.setting, d);
    }
    hide ReadingOf, AfterReport, WithoutPercent, FloatReading, OptionReading, AfterSetting;
  }

  lemma {:induction false} QuietStaysQuiet(p: Profile, channels: Channels, functions: seq<Func>, standard: Option<nat>)
    requires forall f <- functions :: !f.key.Button?
    requires forall n <- channels :: channels[n].button == None
    ensures forall n <- Fold(p, channels, functions, standard) ::
            Fold(p, channels, functions, standard)[n].button == None
  {
    hide AfterFunction, Target;
    if functions != [] {
      var before, last := functions[..|functions| - 1], functions[|functions| - 1];
      QuietStaysQuiet(p, channels, before, standard);
      assert last in functions;
      var target := Target(p.read, last, standard);
      if target.Some? {
        OnlyButtonsPress(p, At(Fold(p, channels, before, standard), target.value), last.key, last.datum);
      }
    }
  }

  /** A list never shows a button occurrence, whatever the device object holds, and it ends the
      one there was. */
  lemma AListPressesNoButton(p: Profile, channels: Channels, l: Listing, parameters: seq<Entry>, channel: Datum,
      n: nat)
    requires n in AfterTelegram(p, channels, StateFunctions(p, l, parameters, channel))
    ensures AfterTelegram(p, channels, StateFunctions(p, l, parameters, channel))[n].button == None
  {
    var functions := StateFunctions(p, l, parameters, channel);
    StateHasNoButtons(p, l, parameters, channel);
    QuietStaysQuiet(p, Quiet(channels), functions, Standard(p.read, functions));
    hide StateFunctions, Fold;
  }
}
