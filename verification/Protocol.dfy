/** Which fields of which channels a report confirms, and which ones a command waits for. */
module Protocol {
  import opened Options
  import opened Values
  import opened Devices

  /** Fields per channel; a channel without fields is not listed. */
  type FieldsByChannel = map<nat, set<Key>>

  function FieldsOf(fields: FieldsByChannel, channel: nat): set<Key> {
    if channel in fields then fields[channel] else {}
  }

  /** The value is one a device can report for the key. */
  predicate Confirms(read: NumberReader, key: Key, d: Datum) {
    if key in {DimValue, Position, Angle, Setpoint} then
      NumberIn(read, d, Some(0.0), Some(if key == Setpoint then 40.0 else 100.0), key != Setpoint).Some?
    else
      match key
      case Switch => d in {Plain(Text("on")), Plain(Text("off"))}
      case Flagged(flag) =>
        flag == HeaterMode && TextOf(d).Some? && TextOf(d).value in {"heating", "on", "off", "autoOff"}
      case LockingMode => TextOf(d).Some? && TextOf(d).value in LOCKING_MODES
      case _ => false
  }

  predicate AsksToStop(f: Func) { f.key == Stop && f.datum == Plain(Text("true")) }

  /** `functions` report the field of the channel with a usable value. */
  predicate Reports(read: NumberReader, functions: seq<Func>, standard: Option<nat>, channel: nat,
      field: Key)
  {
    exists f <- functions :: f.key == field && Confirms(read, f.key, f.datum)
      && Target(read, f, standard) == Some(channel)
  }

  /** The channel is stopped, which calls for its final position, and angle if it has one. */
  predicate Stops(read: NumberReader, functions: seq<Func>, standard: Option<nat>, channel: nat) {
    exists f <- functions :: AsksToStop(f)
      && Target(read, f, standard) == Some(channel)
  }

  predicate NoneEmpty(fields: FieldsByChannel) { forall c <- fields :: fields[c] != {} }

  lemma ReportsMore(read: NumberReader, functions: seq<Func>, f: Func, standard: Option<nat>,
      channel: nat, field: Key)
    ensures Reports(read, functions + [f], standard, channel, field)
            <==> (Reports(read, functions, standard, channel, field)
                  || (f.key == field && Confirms(read, f.key, f.datum)
                      && Target(read, f, standard) == Some(channel)))
  {
    forall g ensures g in functions + [f] <==> g in functions || g == f {
      assert (functions + [f])[|functions|] == f;
    }
  }

  lemma StopsMore(read: NumberReader, functions: seq<Func>, f: Func, standard: Option<nat>,
      channel: nat)
    ensures Stops(read, functions + [f], standard, channel)
            <==> (Stops(read, functions, standard, channel)
                  || (AsksToStop(f) && Target(read, f, standard) == Some(channel)))
  {
    forall g ensures g in functions + [f] <==> g in functions || g == f {
      assert (functions + [f])[|functions|] == f;
    }
  }

  lemma NothingStops(read: NumberReader, standard: Option<nat>, channel: nat)
    ensures !Stops(read, [], standard, channel)
  {
  }

  /** The fields a report confirms are exactly those it reports with a usable value. */
  method ConfirmedFieldsByChannel(read: NumberReader, functions: seq<Func>) returns (confirmed: FieldsByChannel)
    ensures NoneEmpty(confirmed)
    ensures forall c, field :: field in FieldsOf(confirmed, c) <==>
            Reports(read, functions, Standard(read, functions), c, field)
  {
    var standard := Standard(read, functions);
    confirmed := map[];
    for i := 0 to |functions|
      invariant NoneEmpty(confirmed)
      invariant forall c, field :: field in FieldsOf(confirmed, c) <==>
                Reports(read, functions[..i], standard, c, field)
    {
      var f := functions[i];
      assert functions[..i + 1] == functions[..i] + [f];
      forall c, field { ReportsMore(read, functions[..i], f, standard, c, field); }
      var channel := Target(read, f, standard);
      if Confirms(read, f.key, f.datum) && channel.Some? {
        confirmed := confirmed[channel.value := FieldsOf(confirmed, channel.value) + {f.key}];
      }
    }
    assert functions[..|functions|] == functions;
  }

  /** A command waits for what a report of it would confirm; a stop also for the final position
      of its channel, and for the angle where the channel has slats (`tilts`). */
  method CommandFieldsByChannel(read: NumberReader, functions: seq<Func>, tilts: set<nat>)
    returns (expected: FieldsByChannel)
    ensures NoneEmpty(expected)
    ensures forall c, field :: field in FieldsOf(expected, c) <==>
              || Reports(read, functions, Standard(read, functions), c, field)
              || (Stops(read, functions, Standard(read, functions), c)
                  && (field == Position || (field == Angle && c in tilts)))
  {
    hide Reports, Stops, Confirms, Target;
    var standard := Standard(read, functions);
    expected := ConfirmedFieldsByChannel(read, functions);
    forall c ensures !Stops(read, functions[..0], standard, c) { NothingStops(read, standard, c); }
    for i := 0 to |functions|
      invariant NoneEmpty(expected)
      invariant forall c, field :: field in FieldsOf(expected, c) <==>
                  || Reports(read, functions, standard, c, field)
                  || (Stops(read, functions[..i], standard, c)
                      && (field == Position || (field == Angle && c in tilts)))
    {
      var f := functions[i];
      assert functions[..i + 1] == functions[..i] + [f];
      var channel := Target(read, f, standard);
      ghost var before := expected;
      if AsksToStop(f) && channel.Some? {
        var fields := FieldsOf(expected, channel.value) + {Position};
        if channel.value in tilts {
          fields := fields + {Angle};
        }
        expected := expected[channel.value := fields];
      }
      forall c, field
        ensures field in FieldsOf(expected, c) <==>
                  || Reports(read, functions, standard, c, field)
                  || (Stops(read, functions[..i + 1], standard, c)
                      && (field == Position || (field == Angle && c in tilts)))
      {
        StopsMore(read, functions[..i], f, standard, c);
        assert field in FieldsOf(before, c) <==>
                 || Reports(read, functions, standard, c, field)
                 || (Stops(read, functions[..i], standard, c)
                     && (field == Position || (field == Angle && c in tilts)));
      }
    }
    assert functions[..|functions|] == functions;
  }
}
