/** The protection of confirmed settings against the gateway's cached copy of them. */
module SettingGuards {
  import opened Options
  import opened Values

  /** A reported setting as a number; `noRotation` is zero. */
  function SettingNumber(read: NumberReader, value: Value): Option<real> {
    match value
    case Number(n) => Some(n)
    case Text(s) => if Trim(s) == "noRotation" then Some(0.0) else read(s)
    case Other => None
  }

  const TOLERANCE := 0.000001

  /** Two reports mean the same value. With its tolerance this is no equivalence. */
  predicate Same(read: NumberReader, a: Value, b: Value) {
    var m, n := SettingNumber(read, a), SettingNumber(read, b);
    if m.Some? && n.Some? then -TOLERANCE <= m.value - n.value <= TOLERANCE
    else a.Text? && b.Text? && Trim(a.s) == Trim(b.s)
  }

  const GUARD_SECONDS := 93600.0
  const STALE_VALUES := 4

  datatype Guard = Guard(stale: seq<Value>, written: Value, at: real)

  type DeviceGuards = map<string, Guard>
  type Guards = map<string, DeviceGuards>

  /** One setting of a device list or of a settings read. */
  datatype Function = Function(key: Option<string>, channel: nat, value: Value)

  function Get(guards: Guards, device: string, key: string): Option<Guard> {
    if device in guards && key in guards[device] then Some(guards[device][key]) else None
  }

  function OfDevice(guards: Guards, device: string): DeviceGuards {
    if device in guards then guards[device] else map[]
  }

  /** The guards of a device are replaced; a device without guards is not listed. */
  function Set(guards: Guards, device: string, own: DeviceGuards): Guards {
    if own == map[] then guards - {device} else guards[device := own]
  }

  // ---------------------------------------------------------------------------------------
  // A confirmed write
  // ---------------------------------------------------------------------------------------

  predicate Known(read: NumberReader, value: Value, values: seq<Value>) { exists v <- values :: Same(read, value, v) }

  /** The candidates that differ from the written value and from each other, in order. */
  function Distinct(read: NumberReader, candidates: seq<Value>, written: Value): seq<Value> {
    if candidates == [] then []
    else
      var before, last := Distinct(read, candidates[..|candidates| - 1], written), candidates[|candidates| - 1];
      if Same(read, last, written) || Known(read, last, before) then before else before + [last]
  }

  function Candidates(previous: Option<Value>, older: Option<Guard>): seq<Value> {
    (if previous.Some? then [previous.value] else []) + (if older.Some? then older.value.stale else [])
  }

  function FirstStale(values: seq<Value>): seq<Value> {
    if |values| <= STALE_VALUES then values else values[..STALE_VALUES]
  }

  function AfterConfirm(read: NumberReader, guards: Guards, device: string, key: string, previous: Option<Value>,
      written: Value, now: real): Guards
  {
    var own := OfDevice(guards, device);
    var stale := FirstStale(Distinct(read, Candidates(previous, Get(guards, device, key)), written));
    Set(guards, device, if stale == [] then own - {key} else own[key := Guard(stale, written, now)])
  }

  // ---------------------------------------------------------------------------------------
  // A device list
  // ---------------------------------------------------------------------------------------

  /** The value is one from before the write, and the protection still runs. */
  predicate Repeats(read: NumberReader, guard: Guard, value: Value, now: real) {
    now - guard.at <= GUARD_SECONDS && !Same(read, value, guard.written) && Known(read, value, guard.stale)
  }

  /** One of the first `n` functions ends the protection of `key`. */
  predicate Released(read: NumberReader, own: DeviceGuards, functions: seq<Function>, n: nat, key: string, now: real)
    requires n <= |functions|
  {
    key in own
    && exists i :: 0 <= i < n && functions[i].key == Some(key) && !Repeats(read, own[key], functions[i].value, now)
  }

  /** A function is applied unless its setting is protected and nothing up to it released that. */
  predicate Applied(read: NumberReader, own: DeviceGuards, functions: seq<Function>, i: nat, now: real)
    requires i < |functions|
  {
    match functions[i].key
    case None => true
    case Some(key) => key !in own || Released(read, own, functions, i + 1, key, now)
  }

  function Survivors(read: NumberReader, own: DeviceGuards, functions: seq<Function>, n: nat, now: real): seq<Function>
    requires n <= |functions|
  {
    if n == 0 then []
    else Survivors(read, own, functions, n - 1, now)
         + if Applied(read, own, functions, n - 1, now) then [functions[n - 1]] else []
  }

  function Remaining(read: NumberReader, own: DeviceGuards, functions: seq<Function>, n: nat, now: real): DeviceGuards
    requires n <= |functions|
  {
    map key <- own | !Released(read, own, functions, n, key, now) :: own[key]
  }

  function AfterList(read: NumberReader, guards: Guards, device: string, functions: seq<Function>, now: real): Guards {
    Set(guards, device, Remaining(read, OfDevice(guards, device), functions, |functions|, now))
  }

  /** Settings the device itself reported are no longer protected. */
  function AfterRead(guards: Guards, device: string, functions: seq<Function>): Guards {
    Set(guards, device, OfDevice(guards, device) - set f <- functions | f.key.Some? :: f.key.value)
  }

  function AfterForget(guards: Guards, device: string): Guards { guards - {device} }

  /** No device is listed without guards. */
  predicate Tidy(guards: Guards) { forall d <- guards :: guards[d] != map[] }

  class GuardBook {
    const read: NumberReader
    var guards: Guards
    /** How often saving was asked for. */
    var saves: nat

    constructor (read: NumberReader)
      ensures guards == map[] && this.read == read
    {
      this.read := read;
      guards, saves := map[], 0;
    }

    method Save()
      modifies `saves
      ensures saves == old(saves) + 1
    {
      saves := saves + 1;
    }

    method DifferentValues(candidates: seq<Value>, written: Value) returns (stale: seq<Value>)
      ensures stale == Distinct(read, candidates, written)
    {
      stale := [];
      for i := 0 to |candidates|
        invariant stale == Distinct(read, candidates[..i], written)
      {
        assert candidates[..i + 1][..i] == candidates[..i];
        if !Same(read, candidates[i], written) && !(exists known <- stale :: Same(read, candidates[i], known)) {
          stale := stale + [candidates[i]];
        }
      }
      assert candidates[..|candidates|] == candidates;
    }

    method GuardConfirmedSetting(device: string, key: string, previous: Option<Value>, written: Value, now: real)
      requires Tidy(guards)
      modifies this
      ensures guards == AfterConfirm(read, old(guards), device, key, previous, written, now) && Tidy(guards)
      ensures saves == old(saves)
                       + if Get(old(guards), device, key).Some? || Get(guards, device, key).Some? then 1 else 0
    {
      hide Distinct, FirstStale, Same, AfterConfirm, Tidy;
      var own := if device in guards then guards[device] else map[];
      var candidates := if previous.Some? then [previous.value] else [];
      if key in own {
        candidates := candidates + own[key].stale;
      }
      assert candidates == Candidates(previous, Get(guards, device, key));
      var stale := DifferentValues(candidates, written);
      if stale == [] {
        NothingIsGuarded(read, guards, device, key, previous, written, now);
        var released := key in own;
        own := own - {key};
        guards := if own == map[] then guards - {device} else guards[device := own];
        if released {
          Save();
        }
        return;
      }
      SomeAreGuarded(read, guards, device, key, previous, written, now);
      guards := guards[device := own[key := Guard(FirstStale(stale), written, now)]];
      Save();
    }

    method WithoutStaleSettings(device: string, functions: seq<Function>, now: real) returns (kept: seq<Function>)
      requires Tidy(guards)
      modifies this
      ensures kept == Survivors(read, OfDevice(old(guards), device), functions, |functions|, now)
      ensures guards == AfterList(read, old(guards), device, functions, now) && Tidy(guards)
      ensures saves == old(saves) + if guards != old(guards) then 1 else 0
    {
      if device !in guards {
        AllSurvive(read, functions, |functions|, now);
        assert functions[..|functions|] == functions;
        assert Remaining(read, map[], functions, |functions|, now) == map[];
        assert guards - {device} == guards;
        return functions;
      }
      var start := guards[device];
      var own := start;
      kept := [];
      var released := false;
      for i := 0 to |functions|
        invariant kept == Survivors(read, start, functions, i, now)
        invariant own == Remaining(read, start, functions, i, now)
        invariant released <==> own != start
        invariant guards == old(guards) && saves == old(saves)
      {
        RemainingStep(read, start, functions, i, now);
        var function_ := functions[i];
        if function_.key.None? || function_.key.value !in own {
          kept := kept + [function_];
        } else {
          var guard := own[function_.key.value];
          if !Repeats(read, guard, function_.value, now) {
            own := own - {function_.key.value};
            released := true;
            kept := kept + [function_];
          }
        }
      }
      assert own == start ==> guards[device := own] == guards;
      guards := if own == map[] then guards - {device} else guards[device := own];
      assert own != start ==> device !in guards || guards[device] != start;
      if released {
        Save();
      }
    }

    /** After the settings a device holds were read from it. */
    method ReleaseRead(device: string, functions: seq<Function>)
      requires Tidy(guards)
      modifies this
      ensures guards == AfterRead(old(guards), device, functions) && Tidy(guards)
      ensures saves == old(saves) + if guards != old(guards) then 1 else 0
    {
      if device !in guards {
        return;
      }
      var own := guards[device];
      var released := false;
      for i := 0 to |functions|
        invariant own == old(guards)[device] - set f <- functions[..i] | f.key.Some? :: f.key.value
        invariant released <==> own != old(guards)[device]
      {
        assert functions[..i + 1] == functions[..i] + [functions[i]];
        if functions[i].key.Some? {
          released := released || functions[i].key.value in own;
          own := own - {functions[i].key.value};
        }
      }
      assert functions[..|functions|] == functions;
      guards := if own == map[] then guards - {device} else guards[device := own];
      if released {
        Save();
      }
    }

    method ForgetDevice(device: string)
      requires Tidy(guards)
      modifies this
      ensures guards == AfterForget(old(guards), device) && Tidy(guards)
      ensures saves == old(saves) + if device in old(guards) then 1 else 0
    {
      if device in guards {
        Save();
      }
      guards := guards - {device};
    }
  }

  lemma StaleIsEmpty(values: seq<Value>)
    ensures FirstStale(values) == [] <==> values == []
  {
  }

  lemma NothingIsGuarded(read: NumberReader, guards: Guards, device: string, key: string, previous: Option<Value>,
      written: Value, now: real)
    requires Tidy(guards) && Distinct(read, Candidates(previous, Get(guards, device, key)), written) == []
    ensures
      var after := AfterConfirm(read, guards, device, key, previous, written, now);
      var own := OfDevice(guards, device) - {key};
      && after == (if own == map[] then guards - {device} else guards[device := own])
      && Tidy(after) && Get(after, device, key) == None
  {
    StaleIsEmpty([]);
    hide Distinct, FirstStale, Same, Candidates;
  }

  lemma SomeAreGuarded(read: NumberReader, guards: Guards, device: string, key: string, previous: Option<Value>,
      written: Value, now: real)
    requires Tidy(guards) && Distinct(read, Candidates(previous, Get(guards, device, key)), written) != []
    ensures
      var after := AfterConfirm(read, guards, device, key, previous, written, now);
      var all := Distinct(read, Candidates(previous, Get(guards, device, key)), written);
      && after == guards[device := OfDevice(guards, device)[key := Guard(FirstStale(all), written, now)]]
      && Tidy(after) && Get(after, device, key).Some?
  {
    var all := Distinct(read, Candidates(previous, Get(guards, device, key)), written);
    StaleIsEmpty(all);
    var own := OfDevice(guards, device)[key := Guard(FirstStale(all), written, now)];
    assert key in own;
    hide Distinct, FirstStale, Same, Candidates;
  }

  lemma AllSurvive(read: NumberReader, functions: seq<Function>, n: nat, now: real)
    requires n <= |functions|
    ensures Survivors(read, map[], functions, n, now) == functions[..n]
  {
    if n > 0 {
      AllSurvive(read, functions, n - 1, now);
      assert functions[..n] == functions[..n - 1] + [functions[n - 1]];
    }
  }

  /** What one more function does to the guards and to what is kept. */
  lemma RemainingStep(read: NumberReader, own: DeviceGuards, functions: seq<Function>, i: nat, now: real)
    requires i < |functions|
    ensures var left, key := Remaining(read, own, functions, i, now), functions[i].key;
            if key.None? || key.value !in left then
              Applied(read, own, functions, i, now) && Remaining(read, own, functions, i + 1, now) == left
            else
              && left[key.value] == own[key.value]
              && (Applied(read, own, functions, i, now) <==> !Repeats(read, left[key.value], functions[i].value, now))
              && Remaining(read, own, functions, i + 1, now)
                 == if Applied(read, own, functions, i, now) then left - {key.value} else left
  {
    assert forall k :: Released(read, own, functions, i + 1, k, now) <==>
      Released(read, own, functions, i, k, now)
      || (k in own && functions[i].key == Some(k) && !Repeats(read, own[k], functions[i].value, now));
  }
}
