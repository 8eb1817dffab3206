/** What is still unknown after a command: the fields a channel has not reported yet and the
    delayed status checks that ask for them. */
module CommandTracking {
  import opened Options
  import opened Addresses
  import opened Devices
  import opened Protocol

  predicate Covers(device: string, number: Option<nat>, c: Address) {
    c.device == device && (number.None? || number.value == c.number)
  }

  /** `timers` holds the delays of the checks of a channel, `needed` the channels whose check is
      wanted now, `feedback` how often a field was reported. */
  datatype Book = Book(timers: map<Address, seq<real>>, fields: map<Address, set<Key>>,
                       needed: set<Address>, feedback: map<(Address, Key), nat>) {
    /** Nothing is pending without an entry for its checks, which may be empty for a while. */
    predicate Inv() {
      && fields.Keys <= timers.Keys
      && forall c <- fields :: fields[c] != {}
    }

    function Pending(c: Address): set<Key> { if c in fields then fields[c] else {} }

    /** The delays of the checks of a channel, if it has an entry for them. */
    function Checks(c: Address): Option<seq<real>> { if c in timers then Some(timers[c]) else None }

    function Count(c: Address, field: Key): nat { if (c, field) in feedback then feedback[(c, field)] else 0 }
  }

  const DELAYS: seq<real> := [5.0, 20.0]
  const COVER_DELAYS: seq<real> := [10.0, 20.0]

  function Max0(x: real): real { if x < 0.0 then 0.0 else x }

  /** The delays of the two checks; after a cover movement they start when it has ended. */
  function Delays(expected: set<Key>, remaining: Option<real>): seq<real> {
    if Position in expected && remaining.Some?
    then [Max0(remaining.value) + COVER_DELAYS[0], Max0(remaining.value) + COVER_DELAYS[1]]
    else DELAYS
  }

  /** A check that asks for a position is not due before the movement has ended, with ten seconds
      to spare; without a movement the checks come after five and twenty seconds. */
  lemma ChecksFollowTheMovement(expected: set<Key>, endsAt: Option<real>, now: real)
    ensures
      var delays := Delays(expected, match endsAt case Some(at) => Some(at - now) case None => None);
      && |delays| == 2
      && (endsAt.Some? && Position in expected ==>
            now + delays[0] >= endsAt.value + 10.0 && delays[0] >= 10.0 && delays[1] == delays[0] + 10.0
            && (now <= endsAt.value ==> now + delays[0] == endsAt.value + 10.0))
      && (endsAt.None? || Position !in expected ==> delays[0] == 5.0 && delays[1] == 20.0)
  {
  }

  function AfterCancel(b: Book, device: string, number: Option<nat>): Book {
    b.(timers := map c | c in b.timers && !Covers(device, number, c) :: b.timers[c],
       fields := map c | c in b.fields && !Covers(device, number, c) :: b.fields[c],
       needed := set c | c in b.needed && !Covers(device, number, c))
  }

  function AfterSchedule(b: Book, c: Address, fields: set<Key>, remaining: Option<real>): Book {
    var expected := b.Pending(c) + fields;
    b.(timers := b.timers[c := Delays(expected, remaining)],
       fields := if expected == {} then b.fields - {c} else b.fields[c := expected],
       needed := b.needed - {c})
  }

  /** A new movement stops the checks of its channel but keeps what is unconfirmed. */
  function AfterSuspend(b: Book, c: Address): Book {
    if b.Pending(c) == {} then AfterCancel(b, c.device, Some(c.number))
    else b.(timers := b.timers[c := []], needed := b.needed - {c})
  }

  /** What is still missing on a channel after a report of its device. */
  function Left(b: Book, device: string, confirmed: FieldsByChannel, c: Address): set<Key> {
    b.Pending(c) - (if c.device == device then FieldsOf(confirmed, c.number) else {})
  }

  /** The channels a report settles: nothing remains to be asked there. */
  function Settled(b: Book, device: string, confirmed: FieldsByChannel): set<Address> {
    set n | n in confirmed && Left(b, device, confirmed, Address(device, n)) == {} :: Address(device, n)
  }

  function Reported(device: string, confirmed: FieldsByChannel): set<(Address, Key)> {
    set n, field | n in confirmed && field in confirmed[n] :: (Address(device, n), field)
  }

  function Counted(feedback: map<(Address, Key), nat>, reported: set<(Address, Key)>): map<(Address, Key), nat>
  {
    map k | k in feedback.Keys + reported ::
      (if k in feedback then feedback[k] else 0) + (if k in reported then 1 else 0)
  }

  function AfterFeedback(b: Book, device: string, confirmed: FieldsByChannel): Book {
    var settled := Settled(b, device, confirmed);
    Book(b.timers - settled,
         map c | c in b.fields.Keys - settled :: Left(b, device, confirmed, c),
         b.needed - settled,
         Counted(b.feedback, Reported(device, confirmed)))
  }

  function AfterOutage(b: Book): Book { b.(timers := map[], fields := map[], needed := {}) }

  function AfterForget(b: Book, device: string): Book {
    AfterCancel(b, device, None).(feedback := map k | k in b.feedback && k.0.device != device :: b.feedback[k])
  }

  /** How often each field the command waits for had been reported when it was sent. */
  type Revisions = map<(nat, Key), nat>

  function CountsOf(b: Book, device: string, expected: FieldsByChannel): Revisions {
    map k | k in (set n, field | n in expected && field in expected[n] :: (n, field)) ::
      b.Count(Address(device, k.0), k.1)
  }

  predicate Covering(revisions: Revisions, expected: FieldsByChannel) {
    forall n <- expected :: forall field <- expected[n] :: (n, field) in revisions
  }

  /** The fields of a channel that were not reported since the command was sent. */
  function Missing(b: Book, device: string, expected: FieldsByChannel, revisions: Revisions, c: Address): set<Key> {
    if c.device != device then {}
    else
      set f |
        f in FieldsOf(expected, c.number) && (c.number, f) in revisions && b.Count(c, f) == revisions[(c.number, f)]
  }

  function RemainingOf(remaining: map<nat, real>, c: Address): Option<real> {
    if c.number in remaining then Some(remaining[c.number]) else None
  }

  /** What is missing on the channel becomes pending, with new checks. */
  predicate AcknowledgesOne(b: Book, a: Book, missing: set<Key>, remaining: Option<real>, c: Address) {
    && a.Pending(c) == b.Pending(c) + missing
    && a.Checks(c) == (if missing == {} then b.Checks(c) else Some(Delays(a.Pending(c), remaining)))
    && (c in a.needed <==> c in b.needed && missing == {})
  }

  /** The command was accepted: what was not reported since it was sent is pending from now on. */
  ghost predicate Acknowledges(b: Book, a: Book, device: string, expected: FieldsByChannel, revisions: Revisions,
      remaining: map<nat, real>)
  {
    && a.Inv() && a.feedback == b.feedback
    && forall c: Address ::
         AcknowledgesOne(b, a, Missing(b, device, expected, revisions, c), RemainingOf(remaining, c), c)
  }

  lemma LeftJoins(b: Book, device: string, done: FieldsByChannel, n: nat, fields: set<Key>, c: Address)
    requires n !in done
    ensures Left(AfterFeedback(b, device, done), device, map[n := fields], c) == Left(b, device, done[n := fields], c)
  {
    assert AfterFeedback(b, device, done).Pending(c) == Left(b, device, done, c);
  }

  lemma SettledJoins(b: Book, device: string, done: FieldsByChannel, n: nat, fields: set<Key>)
    requires n !in done
    ensures Settled(b, device, done[n := fields])
            == Settled(b, device, done) + Settled(AfterFeedback(b, device, done), device, map[n := fields])
  {
    forall c { LeftJoins(b, device, done, n, fields, c); }
    forall c: Address | c.number in done ensures Left(b, device, done[n := fields], c) == Left(b, device, done, c) {}
    hide Left, AfterFeedback;
  }

  lemma FeedbackJoins(b: Book, device: string, done: FieldsByChannel, n: nat, fields: set<Key>)
    requires n !in done
    ensures AfterFeedback(AfterFeedback(b, device, done), device, map[n := fields])
            == AfterFeedback(b, device, done[n := fields])
  {
    hide Left, Settled, Counted, Reported;
    var first, one, both := AfterFeedback(b, device, done), map[n := fields], done[n := fields];
    var l, r := AfterFeedback(first, device, one), AfterFeedback(b, device, both);
    SettledJoins(b, device, done, n, fields);
    forall c { LeftJoins(b, device, done, n, fields, c); }
    CountedJoins(b, device, done, n, fields);
    assert l.timers == r.timers;
    assert l.fields == r.fields;
  }

  lemma NothingReported(b: Book, device: string)
    ensures AfterFeedback(b, device, map[]) == b
  {
    assert Counted(b.feedback, Reported(device, map[])) == b.feedback;
    assert forall c <- b.fields :: Left(b, device, map[], c) == b.fields[c];
  }

  /** A report of one channel in full. */
  lemma SettledOne(b: Book, c: Address, fields: set<Key>)
    requires b.Inv()
    ensures
      var left, reported := b.Pending(c) - fields, map[c.number := fields];
      AfterFeedback(b, c.device, reported) ==
        (if left == {} then AfterCancel(b, c.device, Some(c.number)) else b.(fields := b.fields[c := left]))
        .(feedback := Counted(b.feedback, Reported(c.device, reported)))
  {
    hide Counted, Reported;
    var left, after := b.Pending(c) - fields, AfterFeedback(b, c.device, map[c.number := fields]);
    assert Left(b, c.device, map[c.number := fields], c) == left;
    assert Settled(b, c.device, map[c.number := fields]) == if left == {} then {c} else {};
    assert forall d <- b.fields :: d != c ==> Left(b, c.device, map[c.number := fields], d) == b.fields[d];
    hide Left, Settled;
    if left == {} {
      assert after.fields == b.fields - {c};
      CancelOne(b, c);
    } else {
      assert after.fields == b.fields[c := left];
    }
  }

  lemma CountedOne(feedback: map<(Address, Key), nat>, reported: set<(Address, Key)>, k: (Address, Key))
    requires k !in reported
    ensures Counted(feedback, reported + {k})
            == Counted(feedback, reported)[k := (if k in feedback then feedback[k] else 0) + 1]
    ensures k in Counted(feedback, reported) <==> k in feedback
    ensures k in feedback ==> Counted(feedback, reported)[k] == feedback[k]
  {
  }

  lemma CountedJoins(b: Book, device: string, done: FieldsByChannel, n: nat, fields: set<Key>)
    requires n !in done
    ensures Counted(Counted(b.feedback, Reported(device, done)), Reported(device, map[n := fields]))
            == Counted(b.feedback, Reported(device, done[n := fields]))
  {
    var was, one, both := Reported(device, done), Reported(device, map[n := fields]),
      Reported(device, done[n := fields]);
    assert both == was + one && was !! one;
    hide Reported;
  }

  lemma CancelRemoves(b: Book, device: string, number: Option<nat>, keys: set<Address>)
    requires b.Inv() && keys == set c | c in b.timers && Covers(device, number, c)
    ensures AfterCancel(b, device, number)
            == b.(timers := b.timers - keys, fields := b.fields - keys,
                  needed := b.needed - (set c | c in b.needed && Covers(device, number, c)))
  {
    hide Covers;
    assert AfterCancel(b, device, number).fields == b.fields - keys;
  }

  class CommandTracker {
    var pendingQueries: map<Address, seq<real>>
    var pendingFields: map<Address, set<Key>>
    var reconcileNeeded: set<Address>
    var feedbackRevisions: map<(Address, Key), nat>

    ghost function State(): Book
      reads this
    {
      Book(pendingQueries, pendingFields, reconcileNeeded, feedbackRevisions)
    }

    ghost predicate Valid()
      reads this
    {
      State().Inv()
    }

    constructor ()
      ensures Valid() && State() == Book(map[], map[], {}, map[])
    {
      pendingQueries, pendingFields, reconcileNeeded, feedbackRevisions := map[], map[], {}, map[];
    }

    method CancelQueries(device: string, number: Option<nat>)
      requires Valid()
      modifies this
      ensures Valid() && State() == AfterCancel(old(State()), device, number)
    {
      var keys := set c | c in pendingQueries && Covers(device, number, c);
      CancelRemoves(State(), device, number, keys);
      hide AfterCancel, Covers;
      var rest := keys;
      while rest != {}
        invariant rest <= keys && Valid() && keys <= old(pendingQueries).Keys
        invariant pendingQueries == old(pendingQueries) - (keys - rest)
        invariant pendingFields == old(pendingFields) - (keys - rest)
        invariant reconcileNeeded == old(reconcileNeeded) && feedbackRevisions == old(feedbackRevisions)
      {
        var key :| key in rest;
        pendingFields := pendingFields - {key};
        pendingQueries := pendingQueries - {key};
        rest := rest - {key};
      }
      reconcileNeeded := reconcileNeeded - (set c | c in reconcileNeeded && Covers(device, number, c));
    }

    method StartTimers(c: Address, delays: seq<real>)
      requires c in pendingQueries && pendingQueries[c] == []
      modifies this`pendingQueries
      ensures pendingQueries == old(pendingQueries)[c := delays]
    {
      for i := 0 to |delays|
        invariant pendingQueries == old(pendingQueries)[c := delays[..i]]
      {
        assert delays[..i + 1] == delays[..i] + [delays[i]];
        pendingQueries := pendingQueries[c := pendingQueries[c] + [delays[i]]];
      }
      assert delays[..|delays|] == delays;
    }

    method CancelChannel(c: Address)
      requires Valid()
      modifies this
      ensures Valid() && pendingQueries == old(pendingQueries) - {c} && pendingFields == old(pendingFields) - {c}
      ensures reconcileNeeded == old(reconcileNeeded) - {c} && feedbackRevisions == old(feedbackRevisions)
    {
      CancelQueries(c.device, Some(c.number));
      CancelOne(old(State()), c);
    }

    method ScheduleQueries(c: Address, fields: set<Key>, remaining: Option<real>)
      requires Valid()
      modifies this
      ensures Valid() && State() == AfterSchedule(old(State()), c, fields, remaining)
    {
      hide Delays, Book.Inv;
      ghost var b := State();
      var expected := (if c in pendingFields then pendingFields[c] else {}) + fields;
      CancelChannel(c);
      pendingQueries := pendingQueries[c := []];
      if expected != {} {
        pendingFields := pendingFields[c := expected];
        assert pendingFields == b.fields[c := expected];
      }
      StartTimers(c, Delays(expected, remaining));
      assert pendingQueries == b.timers[c := Delays(expected, remaining)];
      ScheduleKeepsInv(b, c, fields, remaining);
    }

    method Suspend(c: Address)
      requires Valid()
      modifies this
      ensures Valid() && State() == AfterSuspend(old(State()), c)
    {
      var pending := if c in pendingFields then pendingFields[c] else {};
      CancelQueries(c.device, Some(c.number));
      if pending != {} {
        pendingFields := pendingFields[c := pending];
        pendingQueries := pendingQueries[c := []];
      }
      assert pending != {} ==> State() == AfterSuspend(old(State()), c);
    }

    method CountFeedback(c: Address, fields: set<Key>)
      modifies this`feedbackRevisions
      ensures feedbackRevisions == Counted(old(feedbackRevisions), Reported(c.device, map[c.number := fields]))
    {
      var rest := fields;
      ghost var counted: set<(Address, Key)> := {};
      while rest != {}
        invariant rest <= fields && counted == set f | f in fields - rest :: (c, f)
        invariant feedbackRevisions == Counted(old(feedbackRevisions), counted)
      {
        var field :| field in rest;
        CountedOne(old(feedbackRevisions), counted, (c, field));
        var seen := if (c, field) in feedbackRevisions then feedbackRevisions[(c, field)] else 0;
        feedbackRevisions := feedbackRevisions[(c, field) := seen + 1];
        rest := rest - {field};
        counted := counted + {(c, field)};
      }
      assert Reported(c.device, map[c.number := fields]) == counted;
    }

    /** What one channel reported counts, and only what is still missing stays pending. */
    method RecordFields(c: Address, fields: set<Key>)
      requires Valid()
      modifies this
      ensures Valid() && State() == AfterFeedback(old(State()), c.device, map[c.number := fields])
    {
      hide Counted, Reported;
      CountFeedback(c, fields);
      SettledOne(old(State()), c, fields);
      var expected := {};
      if c in pendingFields {
        expected := pendingFields[c] - fields;
        pendingFields := if expected == {} then pendingFields - {c} else pendingFields[c := expected];
      }
      if expected == {} {
        CancelQueries(c.device, Some(c.number));
      }
    }

    /** Every reported field counts, and only what is still missing stays pending. */
    method RecordConfirmedFeedback(device: string, confirmed: FieldsByChannel)
      requires Valid()
      modifies this
      ensures Valid() && State() == AfterFeedback(old(State()), device, confirmed)
    {
      var rest := confirmed.Keys;
      ghost var done: FieldsByChannel := map[];
      NothingReported(State(), device);
      while rest != {}
        invariant rest <= confirmed.Keys && done == confirmed - rest
        invariant Valid() && State() == AfterFeedback(old(State()), device, done)
      {
        var n :| n in rest;
        FeedbackJoins(old(State()), device, done, n, confirmed[n]);
        RecordFields(Address(device, n), confirmed[n]);
        rest := rest - {n};
        done := done[n := confirmed[n]];
      }
      assert done == confirmed;
    }

    method CancelBackgroundWork()
      requires Valid()
      modifies this
      ensures Valid() && State() == AfterOutage(old(State()))
    {
      var rest := pendingQueries.Keys;
      while rest != {}
        invariant Valid() && pendingQueries.Keys == rest && feedbackRevisions == old(feedbackRevisions)
      {
        var c :| c in rest;
        CancelQueries(c.device, Some(c.number));
        rest := rest - {c};
      }
      reconcileNeeded := {};
    }

    method ForgetDevice(device: string)
      requires Valid()
      modifies this
      ensures Valid() && State() == AfterForget(old(State()), device)
    {
      CancelQueries(device, None);
      feedbackRevisions := map k | k in feedbackRevisions && k.0.device != device :: feedbackRevisions[k];
    }

    method SnapshotFeedback(device: string, expected: FieldsByChannel) returns (revisions: Revisions)
      ensures revisions == CountsOf(State(), device, expected)
    {
      revisions := map k | k in (set n, field | n in expected && field in expected[n] :: (n, field)) ::
        if (Address(device, k.0), k.1) in feedbackRevisions then feedbackRevisions[(Address(device, k.0), k.1)] else 0;
    }

    /** The end of an accepted command; `remaining` is how long registered movements still take. */
    method Acknowledged(device: string, expected: FieldsByChannel, revisions: Revisions, remaining: map<nat, real>)
      requires Valid() && Covering(revisions, expected)
      modifies this
      ensures Valid() && Acknowledges(old(State()), State(), device, expected, revisions, remaining)
    {
      var rest := expected.Keys;
      ghost var done: FieldsByChannel := map[];
      while rest != {}
        invariant rest <= expected.Keys && done == expected - rest
        invariant Valid() && Acknowledges(old(State()), State(), device, done, revisions, remaining)
      {
        var n :| n in rest;
        var c := Address(device, n);
        var unconfirmed := set field | field in expected[n]
          && (if (c, field) in feedbackRevisions then feedbackRevisions[(c, field)] else 0) == revisions[(n, field)];
        assert unconfirmed == Missing(old(State()), device, map[n := expected[n]], revisions, c);
        AcknowledgementJoins(old(State()), State(), device, done, n, expected[n], revisions, remaining);
        if unconfirmed != {} {
          ScheduleQueries(c, unconfirmed, if n in remaining then Some(remaining[n]) else None);
        }
        rest := rest - {n};
        done := done[n := expected[n]];
      }
      assert done == expected;
    }
  }

  lemma MissingJoins(b: Book, device: string, done: FieldsByChannel, n: nat, fields: set<Key>,
      revisions: Revisions, c: Address)
    requires n !in done
    ensures Missing(b, device, done[n := fields], revisions, c) ==
              if c == Address(device, n) then Missing(b, device, map[n := fields], revisions, c)
              else Missing(b, device, done, revisions, c)
  {
  }

  lemma AcknowledgementJoins(b: Book, a: Book, device: string, done: FieldsByChannel, n: nat, fields: set<Key>,
      revisions: Revisions, remaining: map<nat, real>)
    requires n !in done && Acknowledges(b, a, device, done, revisions, remaining)
    ensures
      var c := Address(device, n);
      var missing := Missing(b, device, map[n := fields], revisions, c);
      Acknowledges(b, if missing == {} then a else AfterSchedule(a, c, missing, RemainingOf(remaining, c)),
                   device, done[n := fields], revisions, remaining)
  {
    hide Missing, RemainingOf, AcknowledgesOne, AfterSchedule;
    var c := Address(device, n);
    var missing := Missing(b, device, map[n := fields], revisions, c);
    var after := if missing == {} then a else AfterSchedule(a, c, missing, RemainingOf(remaining, c));
    assert Missing(b, device, done, revisions, c) == {} by { NoMissing(b, device, done, revisions, c); }
    forall d: Address
      ensures AcknowledgesOne(b, after, Missing(b, device, done[n := fields], revisions, d),
              RemainingOf(remaining, d), d)
    {
      MissingJoins(b, device, done, n, fields, revisions, d);
      assert AcknowledgesOne(b, a, Missing(b, device, done, revisions, d), RemainingOf(remaining, d), d);
      ScheduleAt(b, a, c, missing, RemainingOf(remaining, c), d, Missing(b, device, done, revisions, d),
        RemainingOf(remaining, d));
    }
    ScheduleKeepsInv(a, c, missing, RemainingOf(remaining, c));
  }

  lemma NoMissing(b: Book, device: string, expected: FieldsByChannel, revisions: Revisions, c: Address)
    requires c.number !in expected
    ensures Missing(b, device, expected, revisions, c) == {}
  {
  }

  lemma ScheduleKeepsInv(b: Book, c: Address, fields: set<Key>, remaining: Option<real>)
    requires b.Inv()
    ensures AfterSchedule(b, c, fields, remaining).Inv()
            && AfterSchedule(b, c, fields, remaining).feedback == b.feedback
  {
    hide Delays;
  }

  lemma ScheduleAt(b: Book, a: Book, c: Address, missing: set<Key>, remaining: Option<real>, d: Address,
      before: set<Key>, left: Option<real>)
    requires AcknowledgesOne(b, a, before, left, d)
    requires d == c ==> before == {} && left == remaining
    ensures AcknowledgesOne(b, if missing == {} then a else AfterSchedule(a, c, missing, remaining),
                            if d == c then missing else before, left, d)
  {
    hide Delays;
  }

  lemma CancelOne(b: Book, c: Address)
    ensures AfterCancel(b, c.device, Some(c.number))
            == b.(timers := b.timers - {c}, fields := b.fields - {c}, needed := b.needed - {c})
  {
    var after := AfterCancel(b, c.device, Some(c.number));
    assert forall d :: Covers(c.device, Some(c.number), d) <==> d == c;
    assert after.timers == b.timers - {c};
    assert after.fields == b.fields - {c};
    assert after.needed == b.needed - {c};
  }
}
