/** Saving the protection of confirmed settings and restoring it after a restart. */
module GuardStorage {
  import opened Options
  import opened SettingGuards
  import opened Values
  import opened GuardRuns

  /** A saved key: text, or something a file of this integration never holds. */
  datatype Key = Name(s: string) | Strange(n: nat)

  datatype Json =
    | Null | Flag(b: bool) | Num(n: real) | NonFinite | Str(s: string)
    | Items(items: seq<Json>) | Dict(entries: map<Key, Json>)

  function Field(entries: map<Key, Json>, name: string): Json {
    if Name(name) in entries then entries[Name(name)] else Null
  }

  function ToJson(value: Value): Json {
    match value case Number(n) => Num(n) case Text(s) => Str(s) case Other => Null
  }

  function GuardToJson(g: Guard, nowMonotonic: real, nowWall: real): Json {
    Dict(map[Name("stale") := Items(seq(|g.stale|, i requires 0 <= i < |g.stale| => ToJson(g.stale[i]))),
             Name("written") := ToJson(g.written),
             Name("written_at") := Num(nowWall - (nowMonotonic - g.at))])
  }

  function DeviceToJson(own: DeviceGuards, nowMonotonic: real, nowWall: real): Json {
    Dict(map k | k in own :: Name(k) := GuardToJson(own[k], nowMonotonic, nowWall))
  }

  /** What is saved: each guard with the wall-clock time of its write. */
  function ToStorage(guards: Guards, nowMonotonic: real, nowWall: real): Json {
    Dict(map[Name("guards") := Dict(map d | d in guards :: Name(d) := DeviceToJson(guards[d], nowMonotonic, nowWall))])
  }

  function StoredValue(value: Json): Option<Value> {
    match value case Str(s) => Some(Text(s)) case Num(n) => Some(Number(n)) case _ => None
  }

  /** The usable values of a list, in order. */
  function StoredValues(items: seq<Json>): seq<Value> {
    if items == [] then []
    else StoredValues(items[..|items| - 1])
         + match StoredValue(items[|items| - 1]) case Some(v) => [v] case None => []
  }

  function Max(a: real, b: real): real { if a >= b then a else b }

  /** One saved guard, if it is well-formed and still runs. */
  function Restored(entry: Json, nowMonotonic: real, nowWall: real): Option<Guard> {
    if !entry.Dict? then None
    else
      var written, at, list := StoredValue(Field(entry.entries, "written")), Field(entry.entries, "written_at"),
        Field(entry.entries, "stale");
      if written.None? || !at.Num? || !list.Items? then None
      else
        var stale := StoredValues(if |list.items| <= STALE_VALUES then list.items else list.items[..STALE_VALUES]);
        var age := Max(0.0, nowWall - at.n);
        if stale == [] || age > GUARD_SECONDS then None else Some(Guard(stale, written.value, nowMonotonic - age))
  }

  /** The saved entry of a setting, if the saved data has the shape to hold one. */
  function Saved(saved: Json, device: string, key: string): Option<Json> {
    if !saved.Dict? then None
    else match Field(saved.entries, "guards")
      case Dict(devices) =>
        (match Field(devices, device)
         case Dict(own) => if Name(key) in own then Some(own[Name(key)]) else None
         case _ => None)
      case _ => None
  }

  function FromSaved(entry: Option<Json>, nowMonotonic: real, nowWall: real): Option<Guard> {
    match entry case Some(e) => Restored(e, nowMonotonic, nowWall) case None => None
  }

  /** Restoring keeps, of everything saved, exactly the well-formed guards that still run. */
  ghost predicate IsRestored(guards: Guards, saved: Json, nowMonotonic: real, nowWall: real) {
    && Tidy(guards)
    && (forall d, k :: Get(guards, d, k) == FromSaved(Saved(saved, d, k), nowMonotonic, nowWall))
  }

  method GuardsFromStorage(saved: Json, nowMonotonic: real, nowWall: real) returns (restored: Guards)
    ensures IsRestored(restored, saved, nowMonotonic, nowWall)
  {
    hide Restored;
    restored := map[];
    if !saved.Dict? || !Field(saved.entries, "guards").Dict? {
      return;
    }
    var devices := Field(saved.entries, "guards").entries;
    var left := devices.Keys;
    while left != {}
      invariant left <= devices.Keys && Tidy(restored)
      invariant forall d, k :: Get(restored, d, k) ==
                  if Name(d) in left then None else FromSaved(Saved(saved, d, k), nowMonotonic, nowWall)
    {
      var device :| device in left;
      ghost var before := restored;
      left := left - {device};
      if device.Name? && devices[device].Dict? {
        var own := RestoreDevice(devices[device].entries, nowMonotonic, nowWall);
        if own != map[] {
          restored := restored[device.s := own];
        }
      }
      forall d, k
        ensures Get(restored, d, k) ==
                if Name(d) in left then None else FromSaved(Saved(saved, d, k), nowMonotonic, nowWall)
      {
        assert Get(before, d, k) ==
                 if Name(d) in left + {device} then None else FromSaved(Saved(saved, d, k), nowMonotonic, nowWall);
        assert Name(d) != device ==> Get(restored, d, k) == Get(before, d, k);
      }
    }
  }

  /** The inner loop: the guards of one device. */
  method RestoreDevice(entries: map<Key, Json>, nowMonotonic: real, nowWall: real) returns (own: DeviceGuards)
    ensures forall k :: (if k in own then Some(own[k]) else None) ==
              if Name(k) in entries then Restored(entries[Name(k)], nowMonotonic, nowWall) else None
  {
    own := map[];
    var left := entries.Keys;
    while left != {}
      invariant left <= entries.Keys
      invariant forall k :: (if k in own then Some(own[k]) else None) ==
                  if Name(k) in entries && Name(k) !in left then Restored(entries[Name(k)], nowMonotonic, nowWall)
                  else None
    {
      var key :| key in left;
      left := left - {key};
      if key.Name? && entries[key].Dict? {
        var entry := entries[key].entries;
        var written, at, list := StoredValue(Field(entry, "written")), Field(entry, "written_at"),
          Field(entry, "stale");
        if written.Some? && at.Num? && list.Items? {
          var stale := StoredValues(if |list.items| <= STALE_VALUES then list.items else list.items[..STALE_VALUES]);
          var age := Max(0.0, nowWall - at.n);
          if stale != [] && age <= GUARD_SECONDS {
            own := own[key.s := Guard(stale, written.value, nowMonotonic - age)];
          }
        }
      }
    }
  }

  // ---------------------------------------------------------------------------------------
  // Whatever was saved, and what was saved by us
  // ---------------------------------------------------------------------------------------

  lemma {:induction false} StoredValuesAreUsable(items: seq<Json>)
    ensures |StoredValues(items)| <= |items| && Other !in StoredValues(items)
  {
    if items != [] {
      StoredValuesAreUsable(items[..|items| - 1]);
    }
  }

  /** Arbitrary data never yields an empty or over-long guard, nor one that is over its age or
      from the future. */
  lemma AnyDataYieldsUsableGuards(guards: Guards, saved: Json, nowMonotonic: real, nowWall: real, device: string,
      key: string)
    requires IsRestored(guards, saved, nowMonotonic, nowWall) && Get(guards, device, key).Some?
    ensures var g := Get(guards, device, key).value;
            && 1 <= |g.stale| <= STALE_VALUES && Other !in g.stale && g.written != Other
            && 0.0 <= nowMonotonic - g.at <= GUARD_SECONDS
  {
    var entry := Saved(saved, device, key).value;
    var list := Field(entry.entries, "stale");
    StoredValuesAreUsable(if |list.items| <= STALE_VALUES then list.items else list.items[..STALE_VALUES]);
  }

  lemma {:induction false} ValuesRoundTrip(values: seq<Value>, items: seq<Json>)
    requires Other !in values && |items| == |values| && forall i :: 0 <= i < |values| ==> items[i] == ToJson(values[i])
    ensures StoredValues(items) == values
    decreases |values|
  {
    if values != [] {
      var n := |values| - 1;
      ValuesRoundTrip(values[..n], items[..n]);
      assert values[n] in values && values == values[..n] + [values[n]];
    }
  }

  predicate Storable(g: Guard) { 1 <= |g.stale| <= STALE_VALUES && Other !in g.stale && g.written != Other }

  /** The age a guard has after a restart: what it had, and the wall time since; never negative. */
  function AgeAfter(g: Guard, savedMonotonic: real, savedWall: real, nowWall: real): real {
    Max(0.0, (savedMonotonic - g.at) + (nowWall - savedWall))
  }

  lemma GuardRoundTrip(g: Guard, savedMonotonic: real, savedWall: real, nowMonotonic: real, nowWall: real)
    requires Storable(g)
    ensures var age := AgeAfter(g, savedMonotonic, savedWall, nowWall);
            Restored(GuardToJson(g, savedMonotonic, savedWall), nowMonotonic, nowWall)
              == if age <= GUARD_SECONDS then Some(g.(at := nowMonotonic - age)) else None
  {
    var entry := GuardToJson(g, savedMonotonic, savedWall).entries;
    var items := Field(entry, "stale").items;
    ValuesRoundTrip(g.stale, items);
    assert Name("stale") != Name("written_at") && Name("written") != Name("written_at")
           && Name("stale") != Name("written") by {
      assert "stale"[0] != "written"[0] && |"written"| != |"written_at"| && |"stale"| != |"written_at"|;
    }
  }

  /** Round trip: restoring what was saved keeps exactly the guards that still run, with their
      values, their age counted on by the wall clock, and drops exactly those that have expired. */
  lemma SavedGuardsComeBack(guards: Guards, restored: Guards, savedMonotonic: real, savedWall: real,
      nowMonotonic: real, nowWall: real)
    requires forall d <- guards :: forall k <- guards[d] :: Storable(guards[d][k])
    requires IsRestored(restored, ToStorage(guards, savedMonotonic, savedWall), nowMonotonic, nowWall)
    ensures forall d, k :: Get(restored, d, k) ==
              match Get(guards, d, k)
              case None => None
              case Some(g) =>
                var age := AgeAfter(g, savedMonotonic, savedWall, nowWall);
                if age <= GUARD_SECONDS then Some(g.(at := nowMonotonic - age)) else None
  {
    var saved := ToStorage(guards, savedMonotonic, savedWall);
    forall d, k ensures Saved(saved, d, k) == match Get(guards, d, k)
                          case None => None
                          case Some(g) => Some(GuardToJson(g, savedMonotonic, savedWall))
    {
      SavedEntry(guards, savedMonotonic, savedWall, d, k);
    }
    forall d, k | Get(guards, d, k).Some? {
      GuardRoundTrip(Get(guards, d, k).value, savedMonotonic, savedWall, nowMonotonic, nowWall);
    }
  }

  lemma SavedEntry(guards: Guards, savedMonotonic: real, savedWall: real, d: string, k: string)
    ensures Saved(ToStorage(guards, savedMonotonic, savedWall), d, k) == match Get(guards, d, k)
              case None => None
              case Some(g) => Some(GuardToJson(g, savedMonotonic, savedWall))
  {
    var saved := ToStorage(guards, savedMonotonic, savedWall);
    var devices := Field(saved.entries, "guards").entries;
    assert Name(d) in devices <==> d in guards;
    if d in guards {
      assert devices[Name(d)] == DeviceToJson(guards[d], savedMonotonic, savedWall);
      assert Name(k) in devices[Name(d)].entries <==> k in guards[d];
    }
  }

  /** So a restart keeps every guard sound. */
  lemma RestartKeepsSound(read: NumberReader, guards: Guards, restored: Guards, savedMonotonic: real, savedWall: real,
      nowMonotonic: real, nowWall: real)
    requires AllSound(read, guards) && forall d <- guards :: forall k <- guards[d] :: Storable(guards[d][k])
    requires IsRestored(restored, ToStorage(guards, savedMonotonic, savedWall), nowMonotonic, nowWall)
    ensures AllSound(read, restored)
  {
    hide Same, AgeAfter, IsRestored;
    assert Tidy(restored) by {
      TidyIfRestored(restored, ToStorage(guards, savedMonotonic, savedWall), nowMonotonic, nowWall);
    }
    SavedGuardsComeBack(guards, restored, savedMonotonic, savedWall, nowMonotonic, nowWall);
    hide Storable, ToStorage;
    SoundIfAgedOnly(read, guards, restored);
    hide Tidy, AllSound;
  }

  lemma SoundIfAgedOnly(read: NumberReader, guards: Guards, restored: Guards)
    requires AllSound(read, guards) && Tidy(restored)
    requires forall d, k :: Get(restored, d, k).Some? ==>
               Get(guards, d, k).Some? && Get(restored, d, k).value.stale == Get(guards, d, k).value.stale
               && Get(restored, d, k).value.written == Get(guards, d, k).value.written
    ensures AllSound(read, restored)
  {
    hide Same;
    forall d, k | d in restored && k in restored[d] ensures Sound(read, restored[d][k]) {
      assert Get(restored, d, k) == Some(restored[d][k]) && Get(guards, d, k).Some?;
    }
  }

  lemma TidyIfRestored(guards: Guards, saved: Json, nowMonotonic: real, nowWall: real)
    requires IsRestored(guards, saved, nowMonotonic, nowWall)
    ensures Tidy(guards)
  {
  }
}
