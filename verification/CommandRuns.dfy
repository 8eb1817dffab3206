/** What a command may rely on when the gateway has acknowledged it, whatever happened to the
    same gateway between queueing, sending and the acknowledgement. */
module CommandRuns {
  import opened Options
  import opened Addresses
  import opened Devices
  import opened Protocol
  import opened CommandTracking

  /** The book and how often each device was forgotten. */
  datatype World = World(book: Book, generations: map<string, nat>) {
    function Generation(device: string): nat { if device in generations then generations[device] else 0 }
  }

  /** Everything that touches the book. `Fires` is a timer, `Sends` a background check leaving. */
  datatype Event =
    | Feedback(device: string, confirmed: FieldsByChannel)
    | Cancel(device: string, number: Option<nat>)
    | Schedule(channel: Address, fields: set<Key>, remaining: Option<real>)
    | Suspend(channel: Address)
    | Outage
    | Forget(device: string)
    | Fires(channel: Address)
    | Sends(channel: Address)

  function Happens(w: World, e: Event): World {
    match e
    case Feedback(device, confirmed) => w.(book := AfterFeedback(w.book, device, confirmed))
    case Cancel(device, number) => w.(book := AfterCancel(w.book, device, number))
    case Schedule(c, fields, remaining) => w.(book := AfterSchedule(w.book, c, fields, remaining))
    case Suspend(c) => w.(book := AfterSuspend(w.book, c))
    case Outage => w.(book := AfterOutage(w.book))
    case Forget(device) => World(AfterForget(w.book, device), w.generations[device := w.Generation(device) + 1])
    case Fires(c) => w.(book := w.book.(needed := w.book.needed + {c}))
    case Sends(c) => w.(book := w.book.(needed := w.book.needed - {c}))
  }

  function After(w: World, events: seq<Event>): World {
    if events == [] then w else Happens(After(w, events[..|events| - 1]), events[|events| - 1])
  }

  /** The event reports the field of the channel. */
  predicate Reports(e: Event, c: Address, field: Key) {
    e.Feedback? && c.device == e.device && field in FieldsOf(e.confirmed, c.number)
  }

  /** The event ends the wait for the field. */
  predicate Ends(e: Event, c: Address, field: Key) {
    || Reports(e, c, field)
    || (e.Cancel? && Covers(e.device, e.number, c))
    || e.Outage?
    || (e.Forget? && e.device == c.device)
  }

  predicate Begins(e: Event, c: Address, field: Key) { e.Schedule? && e.channel == c && field in e.fields }

  // ---------------------------------------------------------------------------------------
  // How long a field stays pending
  // ---------------------------------------------------------------------------------------

  lemma PendingMoves(w: World, e: Event, c: Address, field: Key)
    requires w.book.Inv()
    ensures Happens(w, e).book.Inv()
    ensures field in Happens(w, e).book.Pending(c) <==>
              Begins(e, c, field) || (field in w.book.Pending(c) && !Ends(e, c, field))
  {
    var b := w.book;
    match e
    case Feedback(device, confirmed) =>
      var settled := Settled(b, device, confirmed);
      forall d <- b.fields.Keys - settled ensures Left(b, device, confirmed, d) != {} {
        assert d.device == device && d.number in confirmed ==> d == Address(device, d.number);
      }
      assert AfterFeedback(b, device, confirmed).Pending(c) == Left(b, device, confirmed, c);
    case Suspend(d) => CancelOne(b, d);
    case _ =>
  }

  lemma {:induction false} RunKeepsInv(w: World, events: seq<Event>)
    requires w.book.Inv()
    ensures After(w, events).book.Inv()
  {
    if events != [] {
      RunKeepsInv(w, events[..|events| - 1]);
      PendingMoves(After(w, events[..|events| - 1]), events[|events| - 1], Address("", 0), Selector);
    }
  }

  /** Nothing from position `i` on ends the wait. */
  predicate Undisturbed(events: seq<Event>, i: nat, c: Address, field: Key)
    requires i <= |events|
  {
    forall j :: i <= j < |events| ==> !Ends(events[j], c, field)
  }

  predicate Explained(initially: bool, events: seq<Event>, c: Address, field: Key) {
    || (initially && Undisturbed(events, 0, c, field))
    || exists i :: 0 <= i < |events| && Begins(events[i], c, field) && Undisturbed(events, i + 1, c, field)
  }

  lemma UndisturbedMore(events: seq<Event>, e: Event, i: nat, c: Address, field: Key)
    requires i <= |events|
    ensures Undisturbed(events + [e], i, c, field) <==> Undisturbed(events, i, c, field) && !Ends(e, c, field)
  {
    hide Ends;
    assert (events + [e])[|events|] == e;
    assert forall j :: i <= j < |events| ==> (events + [e])[j] == events[j];
  }

  lemma ExplainedMore(initially: bool, events: seq<Event>, e: Event, c: Address, field: Key)
    ensures Explained(initially, events + [e], c, field) <==>
              Begins(e, c, field) || (Explained(initially, events, c, field) && !Ends(e, c, field))
  {
    var all := events + [e];
    forall i: nat | i <= |events| { UndisturbedMore(events, e, i, c, field); }
    assert Undisturbed(all, |all|, c, field) && all[|events|] == e;
    hide Undisturbed, Ends, Begins;
    assert forall i: nat :: i < |events| ==> all[i] == events[i];
  }

  /** A field is pending exactly if it was scheduled, or was pending from the start, and since
      then nothing ended the wait: a report of it, a cancellation of its channel, an outage or
      forgetting its device. */
  lemma {:induction false} PendingIsExplained(w: World, events: seq<Event>, c: Address, field: Key)
    requires w.book.Inv()
    ensures field in After(w, events).book.Pending(c) <==> Explained(field in w.book.Pending(c), events, c, field)
  {
    if events != [] {
      var before, e := events[..|events| - 1], events[|events| - 1];
      assert events == before + [e];
      PendingIsExplained(w, before, c, field);
      RunKeepsInv(w, before);
      PendingMoves(After(w, before), e, c, field);
      ExplainedMore(field in w.book.Pending(c), before, e, c, field);
    }
  }

  // ---------------------------------------------------------------------------------------
  // Reports since a moment
  // ---------------------------------------------------------------------------------------

  predicate ReportedIn(events: seq<Event>, c: Address, field: Key) { exists e <- events :: Reports(e, c, field) }

  lemma CountMoves(w: World, e: Event, c: Address, field: Key)
    ensures Happens(w, e).Generation(c.device) == w.Generation(c.device) + if e == Forget(c.device) then 1 else 0
    ensures e != Forget(c.device) ==>
              Happens(w, e).book.Count(c, field) == w.book.Count(c, field) + if Reports(e, c, field) then 1 else 0
  {
    if e.Feedback? {
      assert (c, field) in Reported(e.device, e.confirmed) <==> Reports(e, c, field);
    }
  }

  /** While the device is not forgotten, its fields were reported exactly if their counts rose. */
  lemma {:induction false} CountsTellReports(w: World, events: seq<Event>, c: Address, field: Key)
    ensures After(w, events).Generation(c.device) >= w.Generation(c.device)
    ensures After(w, events).Generation(c.device) == w.Generation(c.device) ==>
              && After(w, events).book.Count(c, field) >= w.book.Count(c, field)
              && (After(w, events).book.Count(c, field) == w.book.Count(c, field) <==> !ReportedIn(events, c, field))
  {
    if events != [] {
      var before, e := events[..|events| - 1], events[|events| - 1];
      CountsTellReports(w, before, c, field);
      CountMoves(After(w, before), e, c, field);
      assert events == before + [e];
      ReportedMore(before, e, c, field);
      hide Happens, Reports, ReportedIn;
    }
  }

  lemma ReportedMore(events: seq<Event>, e: Event, c: Address, field: Key)
    ensures ReportedIn(events + [e], c, field) <==> ReportedIn(events, c, field) || Reports(e, c, field)
  {
    hide Reports;
    forall g ensures g in events + [e] <==> g in events || g == e {
      assert (events + [e])[|events|] == e;
    }
  }

  lemma {:induction false} RunsJoin(w: World, first: seq<Event>, second: seq<Event>)
    ensures After(w, first + second) == After(After(w, first), second)
  {
    if second == [] {
      assert first + second == first;
    } else {
      RunsJoin(w, first, second[..|second| - 1]);
      assert (first + second)[..|first + second| - 1] == first + second[..|second| - 1];
    }
  }

  /** The command was queued at `w`, sent after `before` and acknowledged after `after`; the
      device was not forgotten meanwhile, or the request would have failed. Then what is pending
      is what was pending anyway and what the device did not report after sending, however often
      it reported it before. Each such channel has its two checks ahead, counted from now or from
      the end of its movement. */
  lemma AcknowledgedCommandIsTracked(w: World, before: seq<Event>, after: seq<Event>, device: string,
      expected: FieldsByChannel, remaining: map<nat, real>, a: Book)
    requires w.book.Inv()
    requires After(w, before + after).Generation(device) == w.Generation(device)
    requires Acknowledges(After(w, before + after).book, a, device, expected,
             CountsOf(After(w, before).book, device, expected), remaining)
    ensures a.Inv()
    ensures forall c: Address, field :: field in a.Pending(c) <==>
              || field in After(w, before + after).book.Pending(c)
              || (c.device == device && field in FieldsOf(expected, c.number) && !ReportedIn(after, c, field))
    ensures forall c: Address, field ::
            c.device == device && field in FieldsOf(expected, c.number) && !ReportedIn(after, c, field) ==>
              a.Checks(c) == Some(Delays(a.Pending(c), RemainingOf(remaining, c))) && c !in a.needed
    ensures forall c: Address :: a.Pending(c) != {} && a.Checks(c) == Some([]) <==>
              && After(w, before + after).book.Pending(c) != {} && After(w, before + after).book.Checks(c) == Some([])
              && (c.device == device ==> forall field <- FieldsOf(expected, c.number) :: ReportedIn(after, c, field))
  {
    var sent, back := After(w, before), After(w, before + after);
    RunsJoin(w, before, after);
    var revisions := CountsOf(sent.book, device, expected);
    forall c: Address, field
      ensures field in Missing(back.book, device, expected, revisions, c) <==>
                c.device == device && field in FieldsOf(expected, c.number) && !ReportedIn(after, c, field)
    {
      if c.device == device && field in FieldsOf(expected, c.number) {
        CountsTellReports(w, before, c, field);
        CountsTellReports(sent, after, c, field);
        assert c == Address(device, c.number);
        assert revisions[(c.number, field)] == sent.book.Count(c, field);
      }
    }
    TrackedFromMissing(back.book, a, device, expected, revisions, remaining, after);
  }

  lemma TrackedFromMissing(b: Book, a: Book, device: string, expected: FieldsByChannel, revisions: Revisions,
      remaining: map<nat, real>, after: seq<Event>)
    requires Acknowledges(b, a, device, expected, revisions, remaining)
    requires forall c: Address, field :: field in Missing(b, device, expected, revisions, c) <==>
               c.device == device && field in FieldsOf(expected, c.number) && !ReportedIn(after, c, field)
    ensures forall c: Address, field :: field in a.Pending(c) <==>
              field in b.Pending(c)
              || (c.device == device && field in FieldsOf(expected, c.number) && !ReportedIn(after, c, field))
    ensures forall c: Address, field ::
            c.device == device && field in FieldsOf(expected, c.number) && !ReportedIn(after, c, field) ==>
              a.Checks(c) == Some(Delays(a.Pending(c), RemainingOf(remaining, c))) && c !in a.needed
    ensures forall c: Address :: a.Pending(c) != {} && a.Checks(c) == Some([]) <==>
              && b.Pending(c) != {} && b.Checks(c) == Some([])
              && (c.device == device ==> forall field <- FieldsOf(expected, c.number) :: ReportedIn(after, c, field))
  {
    hide ReportedIn, RemainingOf;
    forall c: Address
      ensures forall field :: field in a.Pending(c) <==>
              field in b.Pending(c) || field in Missing(b, device, expected, revisions, c)
      ensures Missing(b, device, expected, revisions, c) != {} ==>
                a.Checks(c) == Some(Delays(a.Pending(c), RemainingOf(remaining, c))) && c !in a.needed
      ensures a.Pending(c) != {} && a.Checks(c) == Some([]) <==>
                b.Pending(c) != {} && b.Checks(c) == Some([]) && Missing(b, device, expected, revisions, c) == {}
    {
      assert AcknowledgesOne(b, a, Missing(b, device, expected, revisions, c), RemainingOf(remaining, c), c);
      assert |Delays(a.Pending(c), RemainingOf(remaining, c))| == 2;
    }
    hide Missing, Delays;
  }

  // ---------------------------------------------------------------------------------------
  // Pending without checks
  // ---------------------------------------------------------------------------------------

  /** Something is pending on the channel and nothing will ask for it. */
  predicate Unasked(b: Book, c: Address) { b.Pending(c) != {} && b.Checks(c) == Some([]) }

  predicate Stops(w: World, e: Event, c: Address) { e == Suspend(c) && w.book.Pending(c) != {} }

  lemma UnaskedMoves(w: World, e: Event, c: Address)
    requires w.book.Inv()
    ensures Unasked(Happens(w, e).book, c) <==>
              || Stops(w, e, c)
              || (Unasked(w.book, c) && !(e.Schedule? && e.channel == c) && Happens(w, e).book.Pending(c) != {})
  {
    var b := w.book;
    match e
    case Feedback(device, confirmed) =>
      var settled := Settled(b, device, confirmed);
      assert AfterFeedback(b, device, confirmed).Pending(c) == Left(b, device, confirmed, c);
      assert c in settled ==> Left(b, device, confirmed, c) == {};
    case Cancel(device, number) =>
    case Schedule(d, fields, remaining) =>
      assert |Delays(b.Pending(d) + fields, remaining)| == 2;
    case Suspend(d) => CancelOne(b, d);
    case _ =>
  }

  /** Event `j` schedules no checks for the channel, and something stays pending. */
  ghost predicate Leaves(w: World, events: seq<Event>, j: nat, c: Address)
    requires j < |events|
  {
    !(events[j].Schedule? && events[j].channel == c) && After(w, events[..j + 1]).book.Pending(c) != {}
  }

  /** From step `i` on the channel is never scheduled and always has something pending. */
  ghost predicate StaysUnasked(w: World, events: seq<Event>, i: nat, c: Address)
    requires i <= |events|
  {
    forall j: nat :: i <= j < |events| ==> Leaves(w, events, j, c)
  }

  ghost predicate LeftUnasked(w: World, events: seq<Event>, c: Address) {
    || (Unasked(w.book, c) && StaysUnasked(w, events, 0, c))
    || exists i: nat :: i < |events| && Stops(After(w, events[..i]), events[i], c) && StaysUnasked(w, events, i + 1, c)
  }

  /** The event leaves a channel that is not asked for as it is. */
  ghost predicate Goes(w: World, events: seq<Event>, e: Event, c: Address) {
    !(e.Schedule? && e.channel == c) && After(w, events + [e]).book.Pending(c) != {}
  }

  lemma StaysUnaskedMore(w: World, events: seq<Event>, e: Event, i: nat, c: Address)
    requires i <= |events|
    ensures StaysUnasked(w, events + [e], i, c) <==> StaysUnasked(w, events, i, c) && Goes(w, events, e, c)
  {
    var all, n := events + [e], |events|;
    assert all[..n + 1] == all && all[n] == e;
    assert Leaves(w, all, n, c) == Goes(w, events, e, c);
    forall j: nat | j < n ensures Leaves(w, all, j, c) == Leaves(w, events, j, c) {
      assert all[..j + 1] == events[..j + 1] && all[j] == events[j];
    }
    hide Leaves, Goes;
  }

  lemma LeftUnaskedMore(w: World, events: seq<Event>, e: Event, c: Address)
    ensures LeftUnasked(w, events + [e], c) <==>
              || Stops(After(w, events), e, c)
              || (LeftUnasked(w, events, c) && Goes(w, events, e, c))
  {
    var all, n := events + [e], |events|;
    StaysUnaskedMore(w, events, e, 0, c);
    hide Stops, After, Unasked;
    if i: nat :| i < |all| && Stops(After(w, all[..i]), all[i], c) && StaysUnasked(w, all, i + 1, c) {
      StoppedEarlierOrNow(w, events, e, c, i);
    }
    if Stops(After(w, events), e, c) {
      assert all[n] == e && all[..n] == events && StaysUnasked(w, all, n + 1, c);
    }
    if Goes(w, events, e, c) {
      if i: nat :| i < n && Stops(After(w, events[..i]), events[i], c) && StaysUnasked(w, events, i + 1, c) {
        StoppedStays(w, events, e, c, i);
      }
    }
    hide StaysUnasked;
  }

  lemma StoppedEarlierOrNow(w: World, events: seq<Event>, e: Event, c: Address, i: nat)
    requires i < |events + [e]| && Stops(After(w, (events + [e])[..i]), (events + [e])[i], c)
    requires StaysUnasked(w, events + [e], i + 1, c)
    ensures Stops(After(w, events), e, c) || (LeftUnasked(w, events, c) && Goes(w, events, e, c))
  {
    hide Stops, After, Unasked;
    var all, n := events + [e], |events|;
    if i < n {
      assert all[..i] == events[..i] && all[i] == events[i];
      StaysUnaskedMore(w, events, e, i + 1, c);
    } else {
      assert all[..i] == events;
    }
    hide StaysUnasked;
  }

  lemma StoppedStays(w: World, events: seq<Event>, e: Event, c: Address, i: nat)
    requires i < |events| && Stops(After(w, events[..i]), events[i], c) && StaysUnasked(w, events, i + 1, c)
    requires Goes(w, events, e, c)
    ensures LeftUnasked(w, events + [e], c)
  {
    hide Stops, After, Unasked;
    var all := events + [e];
    assert all[..i] == events[..i] && all[i] == events[i];
    StaysUnaskedMore(w, events, e, i + 1, c);
    hide StaysUnasked;
  }

  /** Over every run: a channel has something pending that nothing asks for exactly if it had at
      the start, or a movement stopped its checks while something was pending, and since then no
      command scheduled checks for it and something stayed pending. */
  lemma {:induction false} UnaskedIsExplained(w: World, events: seq<Event>, c: Address)
    requires w.book.Inv()
    ensures Unasked(After(w, events).book, c) <==> LeftUnasked(w, events, c)
  {
    if events != [] {
      var before, e := events[..|events| - 1], events[|events| - 1];
      assert events == before + [e];
      UnaskedIsExplained(w, before, c);
      RunKeepsInv(w, before);
      UnaskedMoves(After(w, before), e, c);
      LeftUnaskedMore(w, before, e, c);
      hide Unasked, LeftUnasked, Happens;
    }
  }

  /** How a command that stopped the checks of a channel can end other than acknowledged: deferred,
      rejected by the gateway, or failed otherwise (by timeout, refusal or cancellation), with its
      movement still registered or not. */
  datatype Ending = Deferred | Rejected | Failed(registered: bool)

  function Ended(w: World, c: Address, ending: Ending): World {
    match ending
    case Deferred => w
    case Rejected => Happens(w, Cancel(c.device, None))
    case Failed(registered) => if registered then Happens(w, Cancel(c.device, Some(c.number))) else w
  }

  /** Whatever happened while such a command was under way: if the checks it stopped were stopped
      to the end, they stay so, unless it was rejected or failed with its movement still
      registered. */
  lemma UnfinishedCommandsLeaveNoChecks(w: World, events: seq<Event>, c: Address, ending: Ending)
    requires w.book.Inv() && w.book.Pending(c) != {}
    ensures Unasked(Ended(After(w, [Suspend(c)] + events), c, ending).book, c) <==>
              LeftUnasked(w, [Suspend(c)] + events, c) && ending in {Deferred, Failed(false)}
  {
    UnaskedIsExplained(w, [Suspend(c)] + events, c);
    RunKeepsInv(w, [Suspend(c)] + events);
    UnaskedMoves(After(w, [Suspend(c)] + events), Cancel(c.device, Some(c.number)), c);
    UnaskedMoves(After(w, [Suspend(c)] + events), Cancel(c.device, None), c);
    hide After, LeftUnasked;
  }

  /** A deferred position command leaves a pending angle without checks, no report needed. */
  lemma ADeferredCommandLeavesNoChecks(device: string)
    ensures
      var c, w := Address(device, 0), World(Book(map[], map[], {}, map[]), map[]);
      Unasked(Ended(After(w, [Schedule(c, {Angle}, None), Suspend(c)]), c, Deferred).book, c)
  {
    var c, w := Address(device, 0), World(Book(map[], map[], {}, map[]), map[]);
    var schedule, suspend := Schedule(c, {Angle}, None), Suspend(c);
    var one := Happens(w, schedule);
    assert one.book.Pending(c) == {Angle};
    UnaskedMoves(one, suspend, c);
    RunsStep(w, [], schedule);
    RunsStep(w, [schedule], suspend);
    assert [schedule] + [suspend] == [schedule, suspend];
    hide After, Happens;
  }

  /** An acknowledged one leaves it so if the position was reported before the acknowledgement. */
  lemma AFieldCanStayWithoutChecks(device: string)
    ensures
      var c, w := Address(device, 0), World(Book(map[], map[], {}, map[]), map[]);
      var before, after := [Schedule(c, {Angle}, None), Suspend(c)], [Feedback(device, map[0 := {Position}])];
      var back, expected := After(w, before + after).book, map[0 := {Position}];
      && Acknowledges(back, back, device, expected, CountsOf(After(w, before).book, device, expected), map[])
      && back.Pending(c) == {Angle} && back.Checks(c) == Some([])
  {
    var c, w := Address(device, 0), World(Book(map[], map[], {}, map[]), map[]);
    var schedule, suspend, report := Schedule(c, {Angle}, None), Suspend(c),
      Feedback(device, map[0 := {Position}]);
    var one := Happens(w, schedule);
    var two := Happens(one, suspend);
    assert one.book.Pending(c) == {Angle} == two.book.Pending(c);
    assert two.book.fields == map[c := {Angle}];
    assert two.book == Book(map[c := []], map[c := {Angle}], {}, map[]);
    RunsStep(w, [], schedule);
    RunsStep(w, [schedule], suspend);
    RunsStep(w, [schedule, suspend], report);
    assert [schedule] + [suspend] == [schedule, suspend];
    hide After, AfterSchedule, AfterSuspend, AfterFeedback;
    OnlyTheAngleIsLeft(two.book, device);
  }

  lemma OnlyTheAngleIsLeft(b: Book, device: string)
    requires b == Book(map[Address(device, 0) := []], map[Address(device, 0) := {Angle}], {}, map[])
    ensures
      var c, expected := Address(device, 0), map[0 := {Position}];
      var back := AfterFeedback(b, device, expected);
      && Acknowledges(back, back, device, expected, CountsOf(b, device, expected), map[])
      && back.Pending(c) == {Angle} && back.Checks(c) == Some([])
  {
    var c, expected := Address(device, 0), map[0 := {Position}];
    assert Left(b, device, expected, c) == {Angle};
    assert Settled(b, device, expected) == {};
    var back := AfterFeedback(b, device, expected);
    assert back.Pending(c) == {Angle};
    assert (c, Position) in Reported(device, expected);
    hide AfterFeedback, Left, Settled;
    forall d: Address ensures Missing(back, device, expected, CountsOf(b, device, expected), d) == {} {
      assert d.device == device && d.number == 0 ==> d == c;
    }
    hide Missing, Delays;
  }

  lemma RunsStep(w: World, events: seq<Event>, e: Event)
    ensures After(w, events + [e]) == Happens(After(w, events), e)
  {
    assert (events + [e])[..|events + [e]| - 1] == events;
  }
}
