/** A run in which a settings read is adopted while a repeater write of the device is open: the
    end of its PUT is not counted, and the second request of the read, which would queue behind the
    read-back of the write, is refused because an outage began during the first answer. */
module RepeaterOverlap {
  import opened Options
  import opened PriorityLocks
  import opened LockRuns
  import opened EventLoop
  import opened SettingsTraffic

  const DEVICE := "device"

  const READ := Entry(QUERY, 0, 2)
  const READ_BACK := Entry(QUERY, 1, 1)

  function State(lock: Lock, calls: map<nat, Phase>, due: map<nat, Ticket>, clock: nat, count: nat, put: WriteStage,
      read: ReadStage): Traffic
  {
    Traffic(Loop(System(lock, calls), due, clock), map[DEVICE := count], map[DEVICE := 0], 1,
            map[0 := Write(DEVICE, Repeater, put), 1 := Read(DEVICE, 0, 1, QUERY, true, read)])
  }

  const FOUND := Traffic(QUIET, map[], map[DEVICE := 0], 1, map[])

  /** The write holds the slot. */
  const WRITING := Traffic(Loop(System(Lock(true, {}, 0, map[]), map[0 := Holding]), map[], 0),
                           map[DEVICE := 1], map[DEVICE := 0], 1, map[0 := Write(DEVICE, Repeater, Putting)])

  const BEHIND := Lock(true, {READ}, 1, map[2 := Pending])
  const AHEAD := Lock(true, {READ_BACK}, 2, map[2 := Granted, 1 := Pending])

  /** The read is queued behind the PUT; then the PUT is answered. */
  const QUEUED := State(BEHIND, map[0 := Holding, 2 := Waiting(READ, false)], map[], 0, 1, Putting, First)
  const ANSWERED := State(BEHIND, map[0 := Holding, 2 := Waiting(READ, false)], map[0 := Ticket(0, Accepted)], 1, 1,
                          Putting, First)

  /** The slot goes to the read, and the read-back queues behind it. */
  const HANDED := State(AHEAD, map[0 := Ended(Released), 2 := Waiting(READ, false), 1 := Waiting(READ_BACK, false)],
                        map[2 := Ticket(1, Accepted)], 2, 1, ReadingBack, First)
  const SENT := State(AHEAD, map[0 := Ended(Released), 2 := Holding, 1 := Waiting(READ_BACK, false)],
                      map[], 2, 1, ReadingBack, First)
  const READ_ANSWERED := State(AHEAD, map[0 := Ended(Released), 2 := Holding, 1 := Waiting(READ_BACK, false)],
                               map[2 := Ticket(2, Accepted)], 3, 1, ReadingBack, First)

  /** The read is adopted; the write is still reading back. */
  const ADOPTED := State(Lock(true, {}, 2, map[2 := Granted, 1 := Granted]),
                         map[0 := Ended(Released), 2 := Ended(Released), 1 := Waiting(READ_BACK, false)],
                         map[1 := Ticket(3, Accepted)], 4, 1, ReadingBack, Adopted(false))

  ghost predicate Leads(t: Traffic, step: SettingsTraffic.Step, k: Traffic) {
    Good(t) && CanStep(t, step) && Do(t, step) == k && Good(k)
  }

  lemma LeadsTo(t: Traffic, step: SettingsTraffic.Step, k: Traffic)
    requires Good(t) && CanStep(t, step) && Do(t, step) == k
    ensures Leads(t, step, k)
  {
    hide System.Inv, Loop.Inv, CanStep, Do;
    DoKeepsInv(t, step);
    DoKeepsOrder(t, step);
  }

  lemma Chain(t: Traffic, step: SettingsTraffic.Step, k: Traffic, steps: seq<SettingsTraffic.Step>, u: Traffic)
    requires Leads(t, step, k) && Steps(k, steps) && Reached(k, steps) == u
    ensures Steps(t, [step] + steps) && Reached(t, [step] + steps) == u
  {
    hide Good, CanStep, Do;
    assert ([step] + steps)[0] == step && ([step] + steps)[1..] == steps;
  }

  ghost predicate OnlyWaits(l: Lock, e: Entry) { l.Valid() && l.waiters == {e} && l.Live(e) }

  lemma OnlyWaiter(l: Lock, e: Entry)
    requires OnlyWaits(l, e)
    ensures Next(l) == Some(e)
  {
    assert l.Live(e);
    match Next(l)
    case Some(m) =>
    case None =>
  }

  /** The loop after `c` left and its only waiter was served. */
  function Served(l: Loop, c: nat, e: Entry): Loop {
    Loop(System(l.sys.lock.(waiters := {}, futures := l.sys.lock.futures[e.call := Granted]),
                l.sys.calls[c := Ended(Released)]),
         (l.due - {c})[e.call := Ticket(l.clock, Accepted)], l.clock + 1)
  }

  lemma LeavingServes(l: Loop, c: nat, e: Entry)
    requires l.Inv() && Enabled(l.sys, Leave(c)) && OnlyWaits(l.sys.lock, e)
    ensures Leaving(l, c) == Served(l, c, e)
  {
    OnlyWaiter(l.sys.lock, e);
    assert HandedTo(l.sys.lock, e).waiters == {};
  }

  /** The answered request `c` ends, its operation goes on, and the loop is then `l`. */
  ghost predicate EndsIn(t: Traffic, c: nat, valid: bool, l: Loop) {
    && t.Inv() && t.loop.IsHead(c) && InTurn(t.(loop := l), c / 2)
    && Do(t, Run(c, true, valid)) == GoesOn(t.(loop := l), c / 2, t.loop.due[c].outcome, valid)
  }

  lemma AnsweredGoesOn(t: Traffic, c: nat, valid: bool)
    requires Good(t) && t.loop.IsHead(c) && t.loop.Holds(c)
    ensures Enabled(t.loop.sys, Leave(c)) && EndsIn(t, c, valid, Leaving(t.loop, c))
  {
    hide System.Inv, Ordered, CallEnded, Traffic.InOrder, Loop.Inv, EndedIn;
    AnsweredEnds(t, c);
    Halfway(t, t.(loop := Leaving(t.loop, c)), c);
  }

  lemma RunsAnswered(t: Traffic, c: nat, e: Entry, valid: bool)
    requires Good(t) && t.loop.IsHead(c) && t.loop.Holds(c) && OnlyWaits(t.loop.sys.lock, e)
    ensures EndsIn(t, c, valid, Served(t.loop, c, e))
  {
    hide System.Inv, Ordered, Traffic.InOrder, Do;
    AnsweredGoesOn(t, c, valid);
    LeavingServes(t.loop, c, e);
  }

  lemma Step1()
    requires Good(EMPTY)
    ensures Leads(EMPTY, Discover(DEVICE), FOUND)
  {
    LeadsTo(EMPTY, Discover(DEVICE), FOUND);
  }

  lemma Step2()
    requires Good(FOUND)
    ensures Leads(FOUND, BeginWrite(0, DEVICE, Repeater, true, true), WRITING)
  {
    LeadsTo(FOUND, BeginWrite(0, DEVICE, Repeater, true, true), WRITING);
  }

  lemma Step3()
    requires Good(WRITING)
    ensures Leads(WRITING, BeginRead(1, DEVICE, QUERY, true, true), QUEUED)
  {
    LeadsTo(WRITING, BeginRead(1, DEVICE, QUERY, true, true), QUEUED);
  }

  lemma Step4()
    requires Good(QUEUED)
    ensures Leads(QUEUED, Respond(0, Accepted), ANSWERED)
  {
    LeadsTo(QUEUED, Respond(0, Accepted), ANSWERED);
  }

  /** The answered PUT of the write goes on to its read-back. */
  lemma ReadsBack()
    requires InTurn(ANSWERED.(loop := Served(ANSWERED.loop, 0, READ)), 0)
    ensures GoesOn(ANSWERED.(loop := Served(ANSWERED.loop, 0, READ)), 0, Accepted, true) == HANDED
  {
    hide System.Inv, Loop.Inv;
    var l := Served(ANSWERED.loop, 0, READ);
    assert Arriving(l, 1, QUERY) == HANDED.loop by { QueuesBehind(l); }
    hide Arriving, Served;
    assert GoesOn(ANSWERED.(loop := l), 0, Accepted, true)
           == Asking(ANSWERED.(loop := l), 0, Write(DEVICE, Repeater, ReadingBack));
  }

  lemma QueuesBehind(l: Loop)
    requires l.Inv() && l == Served(ANSWERED.loop, 0, READ)
    ensures Arriving(l, 1, QUERY) == HANDED.loop
  {
    hide System.Inv, Loop.Inv;
    assert l.sys.lock == Lock(true, {}, 1, map[2 := Granted]);
    assert l.sys.calls == map[0 := Ended(Released), 2 := Waiting(READ, false)];
  }

  lemma Step5()
    requires Good(ANSWERED)
    ensures Leads(ANSWERED, Run(0, true, true), HANDED)
  {
    hide Good, System.Inv, Loop.Inv, Do, GoesOn;
    RunsAnswered(ANSWERED, 0, READ, true);
    ReadsBack();
    LeadsTo(ANSWERED, Run(0, true, true), HANDED);
  }

  lemma Wakes(l: Loop)
    requires l.Inv() && l == HANDED.loop && l.IsHead(2) && l.Done(2)
    ensures Waking(l, 2) == SENT.loop
  {
    hide System.Inv, Loop.Inv;
  }

  lemma Step6()
    requires Good(HANDED)
    ensures Leads(HANDED, Run(2, true, true), SENT)
  {
    Wakes(HANDED.loop);
    hide Good, System.Inv, Loop.Inv, Waking, Ends, GoesOn;
    LeadsTo(HANDED, Run(2, true, true), SENT);
  }

  lemma Step7()
    requires Good(SENT)
    ensures Leads(SENT, Respond(1, Accepted), READ_ANSWERED)
  {
    LeadsTo(SENT, Respond(1, Accepted), READ_ANSWERED);
  }

  /** The first answer is compared and adopted, because there is no second request. */
  lemma Adopts(l: Loop)
    requires InTurn(READ_ANSWERED.(loop := l), 1) && l == ADOPTED.loop
    ensures GoesOn(READ_ANSWERED.(loop := l), 1, Accepted, false) == ADOPTED
  {
    hide System.Inv, Loop.Inv, Arriving, Noted;
  }

  lemma ReadBackServed()
    ensures Served(READ_ANSWERED.loop, 2, READ_BACK) == ADOPTED.loop
  {
    var l := Served(READ_ANSWERED.loop, 2, READ_BACK);
    assert l.sys.lock == Lock(true, {}, 2, map[2 := Granted, 1 := Granted]);
    assert l.sys.calls == map[0 := Ended(Released), 2 := Ended(Released), 1 := Waiting(READ_BACK, false)];
    assert l.due == map[1 := Ticket(3, Accepted)];
  }

  lemma Step8()
    requires Good(READ_ANSWERED)
    ensures Leads(READ_ANSWERED, Run(2, true, false), ADOPTED)
  {
    hide Good, System.Inv, Loop.Inv, Do, GoesOn, Served;
    RunsAnswered(READ_ANSWERED, 2, READ_BACK, false);
    ReadBackServed();
    Adopts(ADOPTED.loop);
    LeadsTo(READ_ANSWERED, Run(2, true, false), ADOPTED);
  }

  const FIRST: seq<SettingsTraffic.Step> :=
    [Discover(DEVICE), BeginWrite(0, DEVICE, Repeater, true, true), BeginRead(1, DEVICE, QUERY, true, true),
     Respond(0, Accepted)]
  const THEN: seq<SettingsTraffic.Step> :=
    [Run(0, true, true), Run(2, true, true), Respond(1, Accepted), Run(2, true, false)]

  lemma Four(t: Traffic, k1: Traffic, k2: Traffic, k3: Traffic, u: Traffic, steps: seq<SettingsTraffic.Step>)
    requires |steps| == 4 && Leads(t, steps[0], k1) && Leads(k1, steps[1], k2) && Leads(k2, steps[2], k3)
             && Leads(k3, steps[3], u)
    ensures Good(t) && Steps(t, steps) && Reached(t, steps) == u && Good(u)
  {
    hide Good, CanStep, Do;
    assert steps == [steps[0]] + ([steps[1]] + ([steps[2]] + ([steps[3]] + [])));
    Chain(k3, steps[3], u, [], u);
    Chain(k2, steps[2], k3, [steps[3]] + [], u);
    Chain(k1, steps[1], k2, [steps[2]] + ([steps[3]] + []), u);
    Chain(t, steps[0], k1, [steps[1]] + ([steps[2]] + ([steps[3]] + [])), u);
  }

  lemma FirstPart()
    ensures Good(EMPTY) && Steps(EMPTY, FIRST) && Reached(EMPTY, FIRST) == ANSWERED && Good(ANSWERED)
  {
    hide Good, CanStep, Do;
    EmptyIsGood();
    Step1();
    Step2();
    Step3();
    Step4();
    Four(EMPTY, FOUND, WRITING, QUEUED, ANSWERED, FIRST);
  }

  lemma SecondPart()
    requires Good(ANSWERED)
    ensures Steps(ANSWERED, THEN) && Reached(ANSWERED, THEN) == ADOPTED
  {
    hide Good, CanStep, Do;
    Step5();
    Step6();
    Step7();
    Step8();
    Four(ANSWERED, HANDED, SENT, READ_ANSWERED, ADOPTED, THEN);
  }

  /** From an empty system, a read begun during the PUT of a repeater write is adopted while that
      write is still reading back, once its second request is refused. */
  lemma ARepeaterWriteCanBeOverlapped()
    ensures Good(EMPTY) && Steps(EMPTY, FIRST) && Reached(EMPTY, FIRST) == ANSWERED
    ensures Good(ANSWERED) && Steps(ANSWERED, THEN) && Reached(ANSWERED, THEN) == ADOPTED
    ensures ANSWERED.Overlaps(0, 1) && ADOPTED.Overlaps(0, 1) && ADOPTED.ops[1].read == Adopted(false)
            && ADOPTED.ops[1].twice
  {
    hide Good, CanStep, Do;
    FirstPart();
    SecondPart();
  }
}
