/** Combinations of settings that do not fit together, and writes that may not make them worse. */
module SettingConflicts {
  import opened Options
  import opened Values
  import opened Devices

  /** The `larger` setting should not be below the `smaller` one. */
  datatype Constraint = Constraint(name: string, larger: Setting, smaller: Setting)

  const CONSTRAINTS: seq<Constraint> := [
    Constraint("holding_time_shorter_than_travel_time", MaxHoldingTime, VerticalMovementTime),
    Constraint("travel_time_shorter_than_rotation_time", VerticalMovementTime, RotationTime),
    Constraint("cleaning_time_shorter_than_run_on_time", TimerLong, Timer),
    Constraint("switch_off_warning_longer_than_run_on_time", Timer, SwitchOffWarning),
    Constraint("upper_limit_below_lower_limit", UpperLimit, LowerLimit)
  ]

  type Settings = map<Setting, real>

  function Gap(settings: Settings, c: Constraint): Option<real> {
    if c.larger in settings && c.smaller in settings then Some(settings[c.larger] - settings[c.smaller]) else None
  }

  /** The combination is right, unknown, or no worse than before. */
  predicate NoWorse(before: Settings, after: Settings, c: Constraint) {
    var was, now := Gap(before, c), Gap(after, c);
    now.None? || now.value >= 0.0 || (was.Some? && now.value >= was.value)
  }

  predicate Respects(before: Settings, after: Settings) { forall c <- CONSTRAINTS :: NoWorse(before, after, c) }

  predicate Concerns(c: Constraint, key: Option<Setting>) {
    key.None? || key.value == c.larger || key.value == c.smaller
  }

  /** The combination is wrong, or with a value its write would create or worsen it. */
  predicate Offends(settings: Settings, key: Option<Setting>, value: Option<real>, c: Constraint) {
    match (key, value)
    case (_, None) => Concerns(c, key) && Gap(settings, c).Some? && Gap(settings, c).value < 0.0
    case (Some(k), Some(v)) => !NoWorse(settings, settings[k := v], c)
    case (None, Some(_)) => false
  }

  method CheckConstraint(settings: Settings, key: Option<Setting>, value: Option<real>, c: Constraint)
    returns (wrong: bool)
    requires c.larger != c.smaller
    ensures wrong <==> Offends(settings, key, value, c)
  {
    if key.Some? && key.value != c.larger && key.value != c.smaller {
      return false;
    }
    var current := Gap(settings, c);
    if value.None? {
      return current.Some? && current.value < 0.0;
    }
    var high := if key == Some(c.larger) then value
                else if c.larger in settings then Some(settings[c.larger]) else None;
    var low := if key == Some(c.smaller) then value
               else if c.smaller in settings then Some(settings[c.smaller]) else None;
    if high.None? || low.None? {
      return false;
    }
    var gap := high.value - low.value;
    wrong := gap < 0.0 && (current.None? || gap < current.value);
  }

  /** The names of the combinations a setting offends, or a write of it would; without any of them
      a write keeps all five. */
  method FindConflicts(settings: Settings, key: Option<Setting>, value: Option<real>) returns (conflicts: seq<string>)
    ensures forall c <- CONSTRAINTS :: c.name in conflicts <==> Offends(settings, key, value, c)
    ensures value.Some? && key.Some? ==> (conflicts == [] <==> Respects(settings, settings[key.value := value.value]))
  {
    hide Offends, Respects;
    conflicts := [];
    ConstraintsRelateTwo();
    hide CONSTRAINTS;
    for i := 0 to |CONSTRAINTS|
      invariant forall name <- conflicts :: exists k ::
                0 <= k < i && CONSTRAINTS[k].name == name && Offends(settings, key, value, CONSTRAINTS[k])
      invariant forall k :: 0 <= k < i && Offends(settings, key, value, CONSTRAINTS[k]) ==>
                CONSTRAINTS[k].name in conflicts
    {
      var c := CONSTRAINTS[i];
      var wrong := CheckConstraint(settings, key, value, c);
      if wrong {
        conflicts := conflicts + [c.name];
      }
    }
    NamesTell(settings, key, value, conflicts);
    NoConflictMeansRespect(settings, key, value, conflicts);
  }

  lemma NamesTell(settings: Settings, key: Option<Setting>, value: Option<real>, conflicts: seq<string>)
    requires forall name <- conflicts :: exists k ::
               0 <= k < |CONSTRAINTS| && CONSTRAINTS[k].name == name && Offends(settings, key, value, CONSTRAINTS[k])
    requires forall k :: 0 <= k < |CONSTRAINTS| && Offends(settings, key, value, CONSTRAINTS[k]) ==>
               CONSTRAINTS[k].name in conflicts
    ensures forall c <- CONSTRAINTS :: c.name in conflicts <==> Offends(settings, key, value, c)
    ensures conflicts != [] ==> exists c <- CONSTRAINTS :: c.name in conflicts
  {
    hide Offends;
    NamesDiffer();
    hide CONSTRAINTS;
    forall c | c in CONSTRAINTS
      ensures c.name in conflicts <==> Offends(settings, key, value, c)
    {
      var i :| 0 <= i < |CONSTRAINTS| && CONSTRAINTS[i] == c;
    }
    if conflicts != [] {
      assert conflicts[0] in conflicts;
      var k :| 0 <= k < |CONSTRAINTS| && CONSTRAINTS[k].name == conflicts[0];
      assert CONSTRAINTS[k] in CONSTRAINTS;
    }
  }

  lemma NoConflictMeansRespect(settings: Settings, key: Option<Setting>, value: Option<real>, conflicts: seq<string>)
    requires forall c <- CONSTRAINTS :: c.name in conflicts <==> Offends(settings, key, value, c)
    requires conflicts != [] ==> exists c <- CONSTRAINTS :: c.name in conflicts
    ensures value.Some? && key.Some? ==> (conflicts == [] <==> Respects(settings, settings[key.value := value.value]))
  {
    hide NoWorse;
  }

  lemma NamesDiffer()
    ensures forall i, k | 0 <= i < |CONSTRAINTS| && 0 <= k < |CONSTRAINTS| ::
              CONSTRAINTS[i].name == CONSTRAINTS[k].name ==> i == k
  {
    var n := seq(|CONSTRAINTS|, i requires 0 <= i < |CONSTRAINTS| => |CONSTRAINTS[i].name|);
    assert n == [37, 38, 38, 42, 29];
    assert CONSTRAINTS[1].name[0] != CONSTRAINTS[2].name[0];
  }

  // ---------------------------------------------------------------------------------------
  // Sequences of writes
  // ---------------------------------------------------------------------------------------

  /** A write of a value and what the device then reports for the setting. */
  datatype Write = Write(key: Setting, value: real, stored: real)

  predicate Accepted(settings: Settings, w: Write) { Respects(settings, settings[w.key := w.value]) }

  predicate Catalogued(key: Setting, value: real) {
    Range(key).0 <= value && (Range(key).1.Some? ==> value <= Range(key).1.value)
  }

  /** A refused write changes nothing; after another the stored value is adopted, unless it is
      outside the range of the setting. */
  function AfterWrite(settings: Settings, w: Write): Settings {
    if Accepted(settings, w) && Catalogued(w.key, w.stored) then settings[w.key := w.stored] else settings
  }

  /** The adopted value is the one a telegram with the stored value leaves on the channel. */
  lemma WritesAreReports(p: Profile, c: Channel, w: Write)
    requires Numeric(w.key) !in p.readings && Accepted(c.settings, w)
    ensures AfterFunction(p, c, Numeric(w.key), Plain(Number(w.stored))).settings == AfterWrite(c.settings, w)
  {
    hide Accepted;
  }

  function AfterWrites(settings: Settings, writes: seq<Write>): Settings {
    if writes == [] then settings else AfterWrite(AfterWrites(settings, writes[..|writes| - 1]), writes[|writes| - 1])
  }

  lemma NoWorseOn(a: Settings, b: Settings, d: Settings, c: Constraint)
    requires NoWorse(a, b, c) && NoWorse(b, d, c)
    ensures NoWorse(a, d, c)
  {
  }

  /** Over every sequence of writes that read back as written, no combination becomes wrong or
      more wrong, all five together. */
  lemma {:induction false} WritesNeverWorsen(settings: Settings, writes: seq<Write>)
    requires forall w <- writes :: w.stored == w.value
    ensures Respects(settings, AfterWrites(settings, writes))
  {
    if writes != [] {
      var before := AfterWrites(settings, writes[..|writes| - 1]);
      WritesNeverWorsen(settings, writes[..|writes| - 1]);
      forall c | c in CONSTRAINTS ensures NoWorse(settings, AfterWrites(settings, writes), c) {
        assert NoWorse(before, AfterWrites(settings, writes), c);
        NoWorseOn(settings, before, AfterWrites(settings, writes), c);
      }
    }
  }

  // ---------------------------------------------------------------------------------------
  // Values stored near the written one
  // ---------------------------------------------------------------------------------------

  /** How small the gap of a combination may become: it may not be wrong, or no more than it is. */
  function Allowed(settings: Settings, c: Constraint): real {
    var gap := Gap(settings, c);
    if gap.Some? && gap.value < 0.0 then gap.value else 0.0
  }

  /** The lowest and the highest value of the setting within `half` of the written one. */
  function Lowest(key: Setting, value: real, half: real): real {
    if value - half < Range(key).0 then Range(key).0 else value - half
  }

  function Highest(key: Setting, value: real, half: real): real {
    var top := Range(key).1;
    if top.Some? && value + half > top.value then top.value else value + half
  }

  /** The combination allows the setting at the unfavourable end of that range. */
  predicate HasMargin(settings: Settings, key: Setting, value: real, half: real, c: Constraint) {
    && (key == c.larger && c.smaller in settings ==>
          Lowest(key, value, half) - settings[c.smaller] >= Allowed(settings, c))
    && (key == c.smaller && c.larger in settings ==>
          settings[c.larger] - Highest(key, value, half) >= Allowed(settings, c))
  }

  /** Some value of the setting lies within `half` of the written one. */
  predicate Reachable(key: Setting, value: real, half: real) { Lowest(key, value, half) <= Highest(key, value, half) }

  lemma OneStoredValue(settings: Settings, key: Setting, value: real, half: real, stored: real, c: Constraint)
    requires c.larger != c.smaller && HasMargin(settings, key, value, half, c)
    requires Lowest(key, value, half) <= stored <= Highest(key, value, half)
    ensures NoWorse(settings, settings[key := stored], c)
  {
  }

  /** The unfavourable end shows whether the combination has its margin. */
  lemma EndsDecide(settings: Settings, key: Setting, value: real, half: real, c: Constraint)
    requires c.larger != c.smaller
    requires NoWorse(settings, settings[key := Lowest(key, value, half)], c)
    requires NoWorse(settings, settings[key := Highest(key, value, half)], c)
    ensures HasMargin(settings, key, value, half, c)
  {
  }

  lemma ConstraintsRelateTwo()
    ensures forall c <- CONSTRAINTS :: c.larger != c.smaller
  {
  }

  /** Before an accepted write: whatever the device stores within `half` of the written value, all
      five combinations are kept, exactly if those of the setting have room for the worst of it. */
  lemma RoundingIsHarmlessExactlyIf(settings: Settings, key: Setting, value: real, half: real)
    requires half >= 0.0 && Accepted(settings, Write(key, value, value))
    ensures (forall stored: real :: value - half <= stored <= value + half ==>
               Respects(settings, AfterWrite(settings, Write(key, value, stored))))
            <==> (Reachable(key, value, half) ==> forall c <- CONSTRAINTS :: HasMargin(settings, key, value, half, c))
  {
    ConstraintsRelateTwo();
    if Reachable(key, value, half) && forall stored: real :: value - half <= stored <= value + half ==>
         Respects(settings, AfterWrite(settings, Write(key, value, stored))) {
      EndsAreStored(settings, key, value, half);
      forall c | c in CONSTRAINTS ensures HasMargin(settings, key, value, half, c) {
        EndsDecide(settings, key, value, half, c);
      }
    }
    if Reachable(key, value, half) ==> forall c <- CONSTRAINTS :: HasMargin(settings, key, value, half, c) {
      forall stored: real | value - half <= stored <= value + half
        ensures Respects(settings, AfterWrite(settings, Write(key, value, stored)))
      {
        MarginIsEnough(settings, key, value, half, stored);
      }
    }
  }

  lemma EndsAreStored(settings: Settings, key: Setting, value: real, half: real)
    requires half >= 0.0 && Reachable(key, value, half) && Accepted(settings, Write(key, value, value))
    requires forall stored: real :: value - half <= stored <= value + half ==>
               Respects(settings, AfterWrite(settings, Write(key, value, stored)))
    ensures Respects(settings, settings[key := Lowest(key, value, half)])
    ensures Respects(settings, settings[key := Highest(key, value, half)])
  {
    var low, high := Lowest(key, value, half), Highest(key, value, half);
    assert Catalogued(key, low) && Catalogued(key, high);
    hide Respects, Range;
    assert AfterWrite(settings, Write(key, value, low)) == settings[key := low];
    assert AfterWrite(settings, Write(key, value, high)) == settings[key := high];
  }

  lemma MarginIsEnough(settings: Settings, key: Setting, value: real, half: real, stored: real)
    requires value - half <= stored <= value + half
    requires Reachable(key, value, half) ==> forall c <- CONSTRAINTS :: HasMargin(settings, key, value, half, c)
    ensures Respects(settings, AfterWrite(settings, Write(key, value, stored)))
  {
    ConstraintsRelateTwo();
    if Catalogued(key, stored) {
      assert Lowest(key, value, half) <= stored <= Highest(key, value, half);
      forall c | c in CONSTRAINTS ensures NoWorse(settings, settings[key := stored], c) {
        OneStoredValue(settings, key, value, half, stored, c);
      }
    }
    hide Range, HasMargin, Lowest, Highest, NoWorse;
    forall c | c in CONSTRAINTS ensures NoWorse(settings, AfterWrite(settings, Write(key, value, stored)), c) {
      Unchanged(settings, c);
    }
  }

  lemma Unchanged(settings: Settings, c: Constraint)
    ensures NoWorse(settings, settings, c)
  {
  }

  /** A value stored within half a step of the written one counts as confirmed. It can still
      create a wrong combination that no write would be allowed to create. */
  lemma AConfirmedWriteCanCreateAConflict()
    ensures
      var settings, w := map[VerticalMovementTime := 29.8], Write(MaxHoldingTime, 30.0, 29.6);
      && -0.5 <= w.stored - w.value <= 0.5 && Accepted(settings, w) && Catalogued(w.key, w.stored)
      && Gap(AfterWrite(settings, w), CONSTRAINTS[0]) == Some(29.6 - 29.8)
      && !Accepted(settings, Write(w.key, w.stored, w.stored))
  {
    var settings, w := map[VerticalMovementTime := 29.8], Write(MaxHoldingTime, 30.0, 29.6);
    assert CONSTRAINTS[0] in CONSTRAINTS;
    assert !NoWorse(settings, settings[w.key := w.stored], CONSTRAINTS[0]);
    forall c | c in CONSTRAINTS ensures NoWorse(settings, settings[w.key := w.value], c) {}
  }
}
