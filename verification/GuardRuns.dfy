/** What the protection of confirmed settings guarantees over every run of writes, device lists,
    settings reads and forgotten devices. */
module GuardRuns {
  import opened Options
  import opened SettingGuards
  import opened Values

  datatype Event =
    | Confirm(device: string, key: string, previous: Option<Value>, written: Value, now: real)
    | List(device: string, functions: seq<Function>, now: real)
    | Read(device: string, functions: seq<Function>)
    | Forget(device: string)

  function AfterEvent(read: NumberReader, guards: Guards, e: Event): Guards {
    match e
    case Confirm(device, key, previous, written, now) => AfterConfirm(read, guards, device, key, previous, written, now)
    case List(device, functions, now) => AfterList(read, guards, device, functions, now)
    case Read(device, functions) => AfterRead(guards, device, functions)
    case Forget(device) => AfterForget(guards, device)
  }

  function AfterEvents(read: NumberReader, guards: Guards, events: seq<Event>): Guards
    decreases |events|
  {
    if events == [] then guards else AfterEvents(read, AfterEvent(read, guards, events[0]), events[1..])
  }

  lemma GetAfterSet(guards: Guards, device: string, own: DeviceGuards, d: string, k: string)
    ensures Get(Set(guards, device, own), d, k)
         == if d != device then Get(guards, d, k) else if k in own then Some(own[k]) else None
  {
    assert k in own ==> own != map[];
  }

  // ---------------------------------------------------------------------------------------
  // Guards are sound
  // ---------------------------------------------------------------------------------------

  /** One to four pairwise different stale values, none of them the written one. */
  predicate Sound(read: NumberReader, g: Guard) {
    && 1 <= |g.stale| <= STALE_VALUES
    && (forall i, j :: 0 <= i < j < |g.stale| ==> !Same(read, g.stale[i], g.stale[j]))
    && (forall v <- g.stale :: !Same(read, v, g.written))
  }

  predicate AllSound(read: NumberReader, guards: Guards) {
    Tidy(guards) && forall d <- guards :: forall k <- guards[d] :: Sound(read, guards[d][k])
  }

  lemma SameIsSymmetric(read: NumberReader, a: Value, b: Value)
    ensures Same(read, a, b) <==> Same(read, b, a)
  {
  }

  /** With the tolerance, sameness does not carry over from neighbour to neighbour. */
  lemma SameIsNotTransitive(read: NumberReader)
    ensures var a, b, c := Number(0.0), Number(0.000001), Number(0.000002);
            Same(read, a, b) && Same(read, b, c) && !Same(read, a, c)
  {
  }

  lemma {:induction false} DistinctIsSound(read: NumberReader, candidates: seq<Value>, written: Value)
    ensures var r := Distinct(read, candidates, written);
            && (forall i, j :: 0 <= i < j < |r| ==> !Same(read, r[i], r[j]))
            && (forall v <- r :: !Same(read, v, written) && v in candidates)
            && (forall c <- candidates :: c == Other || Same(read, c, written) || Known(read, c, r))
  {
    if candidates != [] {
      var before, last := candidates[..|candidates| - 1], candidates[|candidates| - 1];
      DistinctIsSound(read, before, written);
      var kept, r := Distinct(read, before, written), Distinct(read, candidates, written);
      assert candidates == before + [last];
      forall i, j | 0 <= i < j < |r| ensures !Same(read, r[i], r[j]) {
        SameIsSymmetric(read, r[i], r[j]);
      }
      SameAsItself(read, last, written);
      forall c | c in candidates && c != Other ensures Same(read, c, written) || Known(read, c, r) {
        if c in before && !Same(read, c, written) {
          var v :| v in kept && Same(read, c, v);
          assert v in r;
        } else if c == last && r == kept + [last] {
          assert last in r;
        }
      }
    }
  }

  /** A value that can be compared at all is the same as itself. `Other` never is. */
  lemma SameAsItself(read: NumberReader, v: Value, w: Value)
    ensures v != Other ==> Same(read, v, v)
    ensures v == Other ==> !Same(read, v, w)
  {
  }

  /** Every run keeps every guard sound. */
  lemma {:induction false} EventsKeepSound(read: NumberReader, guards: Guards, events: seq<Event>)
    requires AllSound(read, guards)
    ensures AllSound(read, AfterEvents(read, guards, events))
    decreases |events|
  {
    if events != [] {
      EventKeepsSound(read, guards, events[0]);
      EventsKeepSound(read, AfterEvent(read, guards, events[0]), events[1..]);
    }
  }

  lemma EventKeepsSound(read: NumberReader, guards: Guards, e: Event)
    requires AllSound(read, guards)
    ensures AllSound(read, AfterEvent(read, guards, e))
  {
    hide Same, Distinct, FirstStale, Candidates, Sound;
    if e.Confirm? {
      var own, older := OfDevice(guards, e.device), Candidates(e.previous, Get(guards, e.device, e.key));
      ConfirmedIsSound(read, older, e.written, e.now);
      var stale := FirstStale(Distinct(read, older, e.written));
      var changed := if stale == [] then own - {e.key} else own[e.key := Guard(stale, e.written, e.now)];
      assert stale != [] ==> e.key in changed;
      assert forall k <- changed :: Sound(read, changed[k]);
    }
  }

  lemma ConfirmedIsSound(read: NumberReader, older: seq<Value>, written: Value, now: real)
    ensures var stale := FirstStale(Distinct(read, older, written));
            stale != [] ==> Sound(read, Guard(stale, written, now))
  {
    hide Same, Distinct;
    DistinctIsSound(read, older, written);
    FirstAreAmong(Distinct(read, older, written));
  }

  lemma FirstAreAmong(values: seq<Value>)
    ensures FirstStale(values) <= values && |FirstStale(values)| <= STALE_VALUES
    ensures forall v <- FirstStale(values) :: v in values
  {
  }

  // ---------------------------------------------------------------------------------------
  // A write protects against the values before it
  // ---------------------------------------------------------------------------------------

  /** After a confirmed write every earlier value, the shown one and those still protected, is the
      written one or protected, exactly if at most four of them differ. The fifth is given up. */
  lemma ConfirmProtectsTheOlderValues(read: NumberReader, guards: Guards, device: string, key: string,
      previous: Option<Value>, written: Value, now: real)
    requires var older := Candidates(previous, Get(guards, device, key)); Other !in older
    ensures var older := Candidates(previous, Get(guards, device, key));
            var g := Get(AfterConfirm(read, guards, device, key, previous, written, now), device, key);
            (forall v <- older :: Same(read, v, written) || (g.Some? && Known(read, v, g.value.stale)))
            <==> |Distinct(read, older, written)| <= STALE_VALUES
  {
    hide Same;
    var older := Candidates(previous, Get(guards, device, key));
    var all := Distinct(read, older, written);
    DistinctIsSound(read, older, written);
    var own := OfDevice(guards, device);
    var g := Get(AfterConfirm(read, guards, device, key, previous, written, now), device, key);
    StaleIsEmpty(all);
    GetAfterSet(guards, device,
                if all == [] then own - {key} else own[key := Guard(FirstStale(all), written, now)], device, key);
    assert g == if all == [] then None else Some(Guard(FirstStale(all), written, now));
    if |all| > STALE_VALUES {
      var lost := all[STALE_VALUES];
      assert lost in older && !Same(read, lost, written);
      forall v | v in FirstStale(all) ensures !Same(read, lost, v) {
        var i :| 0 <= i < STALE_VALUES && all[i] == v;
        SameIsSymmetric(read, lost, v);
      }
    }
  }

  lemma {:induction false} FirstIsDistinct(read: NumberReader, candidates: seq<Value>, written: Value)
    requires candidates != [] && !Same(read, candidates[0], written)
    ensures var r := Distinct(read, candidates, written); r != [] && r[0] == candidates[0]
  {
    hide Same;
    if |candidates| > 1 {
      FirstIsDistinct(read, candidates[..|candidates| - 1], written);
    } else {
      assert candidates[..0] == [];
      assert Distinct(read, candidates[..0], written) == [];
    }
  }

  /** The value shown before a confirmed write is kept out from then on, unless it is the same. */
  lemma ShownValueIsKeptOut(read: NumberReader, guards: Guards, device: string, key: string, shown: Value,
      written: Value, now: real, later: real)
    requires shown != Other && !Same(read, shown, written) && now <= later <= now + GUARD_SECONDS
    ensures
      var g := Get(AfterConfirm(read, guards, device, key, Some(shown), written, now), device, key);
      g.Some? && g.value.written == written && Repeats(read, g.value, shown, later)
  {
    FirstIsDistinct(read, Candidates(Some(shown), Get(guards, device, key)), written);
    SameAsItself(read, shown, written);
    hide Same, Distinct;
    var stale := FirstStale(Distinct(read, Candidates(Some(shown), Get(guards, device, key)), written));
    assert stale != [] && stale[0] == shown;
    var own := OfDevice(guards, device);
    GetAfterSet(guards, device, own[key := Guard(stale, written, now)], device, key);
  }

  function Tens(n: nat): (values: seq<Value>)
    ensures |values| == n && forall i :: 0 <= i < n ==> values[i] == Number((10 * i) as real)
  {
    seq(n, i => Number((10 * i) as real))
  }

  lemma TensDiffer(read: NumberReader, n: nat, written: Value)
    requires n <= 5 && (written == Number(50.0) || written == Number(60.0))
    ensures forall i, j :: 0 <= i < j < n ==> !Same(read, Tens(n)[j], Tens(n)[i]) && !Same(read, Tens(n)[i], Tens(n)[j])
    ensures forall v <- Tens(n) :: !Same(read, v, written)
  {
    hide Tens;
  }

  /** Five different old values, the shown one and four protected ones, and a new one: the fifth is
      given up. */
  lemma AFifthOldValueIsGivenUp(read: NumberReader)
    ensures Sound(read, Guard(Tens(5)[1..], Number(60.0), 0.0))
    ensures
      var guards := map["device" := map["timer" := Guard(Tens(5)[1..], Number(60.0), 0.0)]];
      Get(AfterConfirm(read, guards, "device", "timer", Some(Number(0.0)), Number(50.0), 1.0), "device", "timer")
      == Some(Guard(Tens(4), Number(50.0), 1.0))
  {
    hide Same, Distinct, Tens;
    var values, guards := Tens(5), map["device" := map["timer" := Guard(Tens(5)[1..], Number(60.0), 0.0)]];
    TensDiffer(read, 5, Number(50.0));
    TensDiffer(read, 5, Number(60.0));
    assert Candidates(Some(Number(0.0)), Get(guards, "device", "timer")) == values;
    AllDiffer(read, values, Number(50.0));
    assert FirstStale(values) == Tens(4);
    hide FirstStale, Candidates;
    GetAfterSet(guards, "device", guards["device"]["timer" := Guard(Tens(4), Number(50.0), 1.0)], "device", "timer");
  }

  lemma {:induction false} AllDiffer(read: NumberReader, values: seq<Value>, written: Value)
    requires forall i, j :: 0 <= i < j < |values| ==> !Same(read, values[j], values[i])
    requires forall v <- values :: !Same(read, v, written)
    ensures Distinct(read, values, written) == values
  {
    hide Same;
    if values != [] {
      var before := values[..|values| - 1];
      AllDiffer(read, before, written);
      assert values == before + [values[|values| - 1]];
    }
  }

  /** Writing back a value that is the only one protected against leaves no guard. */
  lemma WritingBackReleases(read: NumberReader, guards: Guards, device: string, key: string, previous: Option<Value>,
      written: Value, now: real)
    ensures Get(AfterConfirm(read, guards, device, key, previous, written, now), device, key).None?
       <==> forall v <- Candidates(previous, Get(guards, device, key)) :: Same(read, v, written)
  {
    hide Same;
    var older := Candidates(previous, Get(guards, device, key));
    var all, own := Distinct(read, older, written), OfDevice(guards, device);
    DistinctIsEmpty(read, older, written);
    StaleIsEmpty(all);
    GetAfterSet(guards, device,
                if all == [] then own - {key} else own[key := Guard(FirstStale(all), written, now)], device, key);
  }

  lemma {:induction false} DistinctIsEmpty(read: NumberReader, candidates: seq<Value>, written: Value)
    ensures Distinct(read, candidates, written) == [] <==> forall v <- candidates :: Same(read, v, written)
  {
    if candidates != [] {
      var before, last := candidates[..|candidates| - 1], candidates[|candidates| - 1];
      DistinctIsEmpty(read, before, written);
      assert candidates == before + [last];
    }
  }

  // ---------------------------------------------------------------------------------------
  // How a guard ends, and what it keeps out
  // ---------------------------------------------------------------------------------------

  /** The value ends the protection: it is the written one, or none of the old ones, or the
      protection has run out. */
  predicate Ends(read: NumberReader, g: Guard, value: Value, now: real) {
    Same(read, value, g.written) || !Known(read, value, g.stale) || now - g.at > GUARD_SECONDS
  }

  /** Events other than a confirmed write leave a guard as it is, unless a list shows a value that
      ends it, the device reports the setting itself, or the device is forgotten. */
  predicate Removes(read: NumberReader, e: Event, device: string, key: string, g: Guard) {
    match e
    case Confirm(d, k, _, _, _) => d == device && k == key
    case List(d, functions, now) =>
      d == device && exists f <- functions :: f.key == Some(key) && Ends(read, g, f.value, now)
    case Read(d, functions) => d == device && exists f <- functions :: f.key == Some(key)
    case Forget(d) => d == device
  }

  lemma GuardEndsOnlyByItsReasons(read: NumberReader, guards: Guards, e: Event, device: string, key: string)
    requires Get(guards, device, key).Some?
    requires e.Confirm? ==> e.device != device || e.key != key
    ensures var g, later := Get(guards, device, key).value, Get(AfterEvent(read, guards, e), device, key);
            if Removes(read, e, device, key, g) then later.None? else later == Some(g)
  {
    hide Same;
    var g := Get(guards, device, key).value;
    match e
    case Confirm(d, k, previous, written, now) =>
      var own, stale := OfDevice(guards, d),
        FirstStale(Distinct(read, Candidates(previous, Get(guards, d, k)), written));
      GetAfterSet(guards, d, if stale == [] then own - {k} else own[k := Guard(stale, written, now)], device, key);
    case Forget(_) =>
    case Read(d, functions) =>
      GetAfterSet(guards, d, OfDevice(guards, d) - set f <- functions | f.key.Some? :: f.key.value, device, key);
    case List(d, fs, now) =>
      var own := OfDevice(guards, d);
      GetAfterSet(guards, d, Remaining(read, own, fs, |fs|, now), device, key);
      if d == device {
        assert Released(read, own, fs, |fs|, key, now) <==> Removes(read, e, device, key, g) by {
          if f :| f in fs && f.key == Some(key) && Ends(read, g, f.value, now) {
            var i :| 0 <= i < |fs| && fs[i] == f;
          }
        }
      }
  }

  /** A device list applies a protected old value exactly if an earlier entry of the same list
      ended the protection of that setting. */
  lemma OldValuesAreDropped(read: NumberReader, own: DeviceGuards, functions: seq<Function>, i: nat, now: real)
    requires i < |functions| && functions[i].key.Some? && functions[i].key.value in own
    requires Repeats(read, own[functions[i].key.value], functions[i].value, now)
    ensures Applied(read, own, functions, i, now) <==>
              exists j ::
                0 <= j < i && functions[j].key == functions[i].key
                && Ends(read, own[functions[i].key.value], functions[j].value, now)
  {
    hide Same;
    var key := functions[i].key.value;
    if j :| 0 <= j < i && functions[j].key == Some(key) && Ends(read, own[key], functions[j].value, now) {
      assert !Repeats(read, own[key], functions[j].value, now);
    }
  }

  /** Such a list: first the written value of a channel, then the old one of the same. */
  lemma AnOldValueCanComeBack(read: NumberReader)
    ensures var guard := Guard([Number(10.0)], Number(20.0), 0.0);
            var list := [Function(Some("timer"), 0, Number(20.0)), Function(Some("timer"), 0, Number(10.0))];
            Sound(read, guard) && Repeats(read, guard, list[1].value, 1.0)
            && Survivors(read, map["timer" := guard], list, 2, 1.0) == list
  {
    var guard, own := Guard([Number(10.0)], Number(20.0), 0.0),
      map["timer" := Guard([Number(10.0)], Number(20.0), 0.0)];
    var list := [Function(Some("timer"), 0, Number(20.0)), Function(Some("timer"), 0, Number(10.0))];
    assert Same(read, Number(20.0), Number(20.0)) && Same(read, Number(10.0), Number(10.0));
    assert Number(10.0) in guard.stale;
    assert Ends(read, guard, list[0].value, 1.0);
    assert Applied(read, own, list, 0, 1.0) by {
      assert !Repeats(read, own["timer"], list[0].value, 1.0);
      assert Released(read, own, list, 1, "timer", 1.0);
    }
    OldValuesAreDropped(read, own, list, 1, 1.0);
    assert Survivors(read, own, list, 0, 1.0) == [];
    assert Survivors(read, own, list, 1, 1.0) == [list[0]];
    assert list == [list[0]] + [list[1]];
  }

  /** Whether a list applies some value to the setting. */
  predicate Shows(kept: seq<Function>, key: string) { exists f <- kept :: f.key == Some(key) }

  lemma {:induction false} SurvivorsOfKey(read: NumberReader, own: DeviceGuards, functions: seq<Function>, n: nat,
      now: real, key: string)
    requires n <= |functions| && key in own
    ensures Shows(Survivors(read, own, functions, n, now), key) <==> Released(read, own, functions, n, key, now)
  {
    hide Same, Repeats;
    if n > 0 {
      SurvivorsOfKey(read, own, functions, n - 1, now, key);
      var before, all := Survivors(read, own, functions, n - 1, now), Survivors(read, own, functions, n, now);
      assert Released(read, own, functions, n, key, now) <==>
        Released(read, own, functions, n - 1, key, now)
        || (functions[n - 1].key == Some(key) && !Repeats(read, own[key], functions[n - 1].value, now));
      assert Shows(before, key) ==> Shows(all, key) by {
        if f :| f in before && f.key == Some(key) {
          assert f in all;
        }
      }
      if Applied(read, own, functions, n - 1, now) {
        assert functions[n - 1] in all;
      }
    }
  }

  /** In every run: until something removes it, a guard stays, and no device list applies any value
      to its setting, however many lists repeat the old ones. */
  lemma {:induction false} ProtectedUntilRemoved(read: NumberReader, guards: Guards, events: seq<Event>,
      device: string, key: string)
    requires Get(guards, device, key).Some?
    requires forall e <- events :: !Removes(read, e, device, key, Get(guards, device, key).value)
    ensures Get(AfterEvents(read, guards, events), device, key) == Get(guards, device, key)
    ensures forall i :: 0 <= i < |events| && events[i].List? && events[i].device == device ==>
              var own := OfDevice(AfterEvents(read, guards, events[..i]), device);
              !Shows(Survivors(read, own, events[i].functions, |events[i].functions|, events[i].now), key)
    decreases |events|
  {
    hide Same, Removes, Get;
    if events != [] {
      var next := AfterEvent(read, guards, events[0]);
      KeptByOneEvent(read, guards, events[0], device, key);
      ProtectedUntilRemoved(read, next, events[1..], device, key);
      forall i | 0 <= i < |events| && events[i].List? && events[i].device == device
        ensures var own := OfDevice(AfterEvents(read, guards, events[..i]), device);
                !Shows(Survivors(read, own, events[i].functions, |events[i].functions|, events[i].now), key)
      {
        if i > 0 {
          assert events[..i][0] == events[0] && events[..i][1..] == events[1..][..i - 1]
            && events[1..][i - 1] == events[i];
        } else {
          assert events[..0] == [];
        }
      }
    }
  }

  lemma KeptByOneEvent(read: NumberReader, guards: Guards, e: Event, device: string, key: string)
    requires Get(guards, device, key).Some? && !Removes(read, e, device, key, Get(guards, device, key).value)
    ensures Get(AfterEvent(read, guards, e), device, key) == Get(guards, device, key)
    ensures e.List? && e.device == device ==>
              !Shows(Survivors(read, OfDevice(guards, device), e.functions, |e.functions|, e.now), key)
  {
    hide Same;
    GuardEndsOnlyByItsReasons(read, guards, e, device, key);
    if e.List? && e.device == device {
      SurvivorsOfKey(read, guards[device], e.functions, |e.functions|, e.now, key);
    }
  }
}
