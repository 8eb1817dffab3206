/** The readers of the event stream: which of them applies documents, and how long it waits between
    attempts. */
module StreamReader {
  import opened Options

  function Pow2(n: nat): (r: nat)
    ensures r >= 1
  {
    if n == 0 then 1 else 2 * Pow2(n - 1)
  }

  function Min(a: int, b: int): int { if a < b then a else b }

  /** The pause without its random share: doubling from one second up to a minute. */
  function Nominal(failures: int): int { Min(60, Pow2(Min(if failures < 0 then 0 else failures, 32))) }

  function RetryDelay(failures: int, share: real): real {
    var clamped := if share < 0.0 then 0.0 else if share > 1.0 then 1.0 else share;
    Nominal(failures) as real * (1.0 + 0.25 * clamped)
  }

  // ---------------------------------------------------------------------------------------
  // What readers share, and one reader
  // ---------------------------------------------------------------------------------------

  /** Readers are numbered by generation as they start; a cancelled one ends when it is resumed. An
      unload cancels them all, which is what its flag says. */
  datatype World = World(unloaded: bool, authFailed: bool, generation: nat, cancelled: set<nat>, available: bool,
                         connected: bool) {
    predicate Current(reader: nat) { !unloaded && reader == generation }
  }

  /** What else happens to the connection: a stream is started or restarted, everything is
      unloaded, the gateway is found to answer or not, or rejects the credentials. */
  datatype Elsewhere = StartStream | RestartStream | Unload | Answers(available: bool) | Rejects

  function Started(w: World): World {
    if w.unloaded || w.authFailed then w else w.(generation := w.generation + 1)
  }

  function Happens(w: World, e: Elsewhere): World {
    match e
    case StartStream => Started(w)
    case RestartStream => Started(w.(cancelled := w.cancelled + {w.generation}, connected := false))
    case Unload => w.(unloaded := true, available := false)
    case Answers(available) => w.(available := available)
    case Rejects => w.(available := false, authFailed := true)
  }

  function HappenAll(w: World, es: seq<Elsewhere>): World
    decreases |es|
  {
    if es == [] then w else HappenAll(Happens(w, es[0]), es[1..])
  }

  /** Where a reader waits: in a stream, in the pause after one, or nowhere any more. */
  datatype Place = Streaming | Pausing | Gone

  datatype Reader = Reader(place: Place, connectedAt: Option<real>, failures: nat)

  const FRESH := Reader(Streaming, None, 0)

  /** What a reader is resumed with. `setup` tells whether the setup still waits for a first list;
      it then learns of the rejection. */
  datatype Resumption =
    | Document(document: nat, now: real)
    | Over(now: real, share: real)
    | Unauthorized(setup: bool)
    | Wake

  datatype Act = Applies(document: nat) | Pauses(delay: real)

  /** A reader goes on until it waits again. It asks whether it is the current one only where the
      loop does: before a document, after a stream, on a rejection and before an attempt. */
  function Resumed(w: World, g: nat, r: Reader, x: Resumption): (World, Reader, seq<Act>) {
    var gone := (w, r.(place := Gone), []);
    if r.place == Gone then (w, r, [])
    else if g in w.cancelled then gone
    else
      match (r.place, x)
      case (Streaming, Document(document, now)) =>
        if !w.Current(g) then gone
        else (w.(connected := w.connected || r.connectedAt == None, available := true),
              r.(connectedAt := if r.connectedAt == None then Some(now) else r.connectedAt),
              [Applies(document)])
      case (Streaming, Over(now, share)) =>
        if !w.Current(g) then gone
        else
          var failures := if r.connectedAt.Some? && now - r.connectedAt.value >= 10.0 then 0 else r.failures;
          (w.(connected := false, available := w.available && r.connectedAt.Some?),
           Reader(Pausing, None, failures + 1), [Pauses(RetryDelay(failures, share))])
      case (Streaming, Unauthorized(setup)) =>
        if !w.Current(g) then gone
        else (w.(connected := false, available := w.available && setup, authFailed := w.authFailed || !setup),
              r.(place := Gone), [])
      case (Pausing, Wake) => if w.Current(g) then (w, r.(place := Streaming), []) else gone
      case _ => (w, r, [])
  }

  predicate Fits(r: Reader, x: Resumption) { r.place == if x == Wake then Pausing else Streaming }

  // ---------------------------------------------------------------------------------------
  // The loop of one reader
  // ---------------------------------------------------------------------------------------

  /** What happens before the reader is resumed, and with what it is. */
  datatype Moment = Moment(meanwhile: seq<Elsewhere>, resumption: Resumption)

  datatype Played = Played(world: World, reader: Reader, acts: seq<Act>) {
    function After(before: seq<Act>): Played { this.(acts := before + acts) }
  }

  lemma AfterBoth(p: Played, first: seq<Act>, second: seq<Act>)
    ensures p.After(second).After(first) == p.After(first + second)
  {
    assert first + (second + p.acts) == first + second + p.acts;
  }

  function Play(w: World, g: nat, r: Reader, moments: seq<Moment>): Played
    decreases |moments|
  {
    if moments == [] || r.place == Gone then Played(w, r, [])
    else
      var (v, q, acts) := Resumed(HappenAll(w, moments[0].meanwhile), g, r, moments[0].resumption);
      Play(v, g, q, moments[1..]).After(acts)
  }

  /** A document that arrives; and one attempt: its documents, its end, its random share and what
      happens during the pause after it. */
  datatype Arrival = Arrival(meanwhile: seq<Elsewhere>, document: nat, now: real)

  datatype Ending = Closed(share: real) | Denied(setup: bool)

  datatype Attempt = Attempt(arrivals: seq<Arrival>, meanwhile: seq<Elsewhere>, ending: Ending, now: real,
                             pause: seq<Elsewhere>)

  function Arrive(arrivals: seq<Arrival>): seq<Moment> {
    if arrivals == [] then []
    else [Moment(arrivals[0].meanwhile, Document(arrivals[0].document, arrivals[0].now))] + Arrive(arrivals[1..])
  }

  function EndOf(a: Attempt): Resumption {
    match a.ending case Closed(share) => Over(a.now, share) case Denied(setup) => Unauthorized(setup)
  }

  function Moments(script: seq<Attempt>): seq<Moment> {
    if script == [] then []
    else
      Arrive(script[0].arrivals)
      + ([Moment(script[0].meanwhile, EndOf(script[0])), Moment(script[0].pause, Wake)] + Moments(script[1..]))
  }

  lemma PlayOne(w: World, g: nat, r: Reader, m: Moment, rest: seq<Moment>)
    requires r.place != Gone
    ensures
      var (v, q, acts) := Resumed(HappenAll(w, m.meanwhile), g, r, m.resumption);
      Play(w, g, r, [m] + rest) == Play(v, g, q, rest).After(acts)
  {
    hide Resumed, HappenAll;
    assert ([m] + rest)[1..] == rest;
  }

  lemma {:induction false} PlayJoins(w: World, g: nat, r: Reader, first: seq<Moment>, rest: seq<Moment>)
    ensures
      var one := Play(w, g, r, first);
      Play(w, g, r, first + rest) == Play(one.world, g, one.reader, rest).After(one.acts)
    decreases |first|
  {
    hide Resumed, HappenAll;
    if first == [] || r.place == Gone {
      assert r.place != Gone ==> first + rest == rest;
    } else {
      var (v, q, acts) := Resumed(HappenAll(w, first[0].meanwhile), g, r, first[0].resumption);
      assert (first + rest)[1..] == first[1..] + rest;
      PlayJoins(v, g, q, first[1..], rest);
      var one := Play(v, g, q, first[1..]);
      assert acts + (one.acts + Play(one.world, g, one.reader, rest).acts)
             == acts + one.acts + Play(one.world, g, one.reader, rest).acts;
    }
  }

  class StreamReaders {
    var unloaded: bool
    var authFailed: bool
    var streamGeneration: nat
    var cancelled: set<nat>
    var gatewayAvailable: bool
    var streamConnected: bool

    ghost function State(): World
      reads this
    {
      World(unloaded, authFailed, streamGeneration, cancelled, gatewayAvailable, streamConnected)
    }

    constructor ()
      ensures State() == World(false, false, 0, {}, false, false)
    {
      unloaded, authFailed, streamGeneration, cancelled, gatewayAvailable, streamConnected := false, false, 0, {},
        false, false;
    }

    predicate IsCurrentStream(generation: nat)
      reads this
    {
      !unloaded && generation == streamGeneration
    }

    method BeginStream()
      modifies this
      ensures State() == Happens(old(State()), StartStream)
    {
      if unloaded || authFailed {
        return;
      }
      streamGeneration := streamGeneration + 1;
    }

    method ReplaceStream()
      modifies this
      ensures State() == Happens(old(State()), RestartStream)
    {
      cancelled := cancelled + {streamGeneration};
      streamConnected := false;
      BeginStream();
    }

    /** The reader waits, and other things happen. */
    method Meanwhile(es: seq<Elsewhere>)
      modifies this
      ensures State() == HappenAll(old(State()), es)
    {
      hide Started;
      for i := 0 to |es|
        invariant HappenAll(old(State()), es) == HappenAll(State(), es[i..])
      {
        assert es[i..][1..] == es[i + 1..];
        match es[i]
        case StartStream => BeginStream();
        case RestartStream => ReplaceStream();
        case Unload => unloaded, gatewayAvailable := true, false;
        case Answers(available) => gatewayAvailable := available;
        case Rejects => gatewayAvailable, authFailed := false, true;
      }
    }

    /** A document arrives. */
    method TakeDocument(g: nat, a: Arrival, connectedAt: Option<real>, ghost failures: nat)
        returns (acts: seq<Act>, since: Option<real>, gone: bool)
      modifies this
      ensures
        var (w, r, acted) := Resumed(HappenAll(old(State()), a.meanwhile), g,
          Reader(Streaming, connectedAt, failures), Document(a.document, a.now));
        && State() == w && acts == acted && r == Reader(if gone then Gone else Streaming, since, failures)
    {
      hide HappenAll;
      acts, since, gone := [], connectedAt, false;
      Meanwhile(a.meanwhile);
      if g in cancelled || !IsCurrentStream(g) {
        gone := true;
        return;
      }
      if connectedAt == None {
        since := Some(a.now);
        streamConnected := true;
      }
      acts := [Applies(a.document)];
      if !gatewayAvailable {
        gatewayAvailable := true;
      }
    }

    /** One stream up to its end; `gone` if the reader was cancelled or replaced. */
    method ReadStream(g: nat, arrivals: seq<Arrival>, ghost failures: nat)
      returns (acts: seq<Act>, connectedAt: Option<real>, gone: bool)
      modifies this
      ensures Played(State(), Reader(if gone then Gone else Streaming, connectedAt, failures), acts)
              == Play(old(State()), g, Reader(Streaming, None, failures), Arrive(arrivals))
    {
      hide HappenAll, Resumed;
      acts, connectedAt, gone := [], None, false;
      ghost var all := Play(State(), g, Reader(Streaming, None, failures), Arrive(arrivals));
      assert arrivals[0..] == arrivals;
      for i := 0 to |arrivals|
        invariant all == Play(State(), g, Reader(Streaming, connectedAt, failures), Arrive(arrivals[i..])).After(acts)
      {
        var a := arrivals[i];
        assert arrivals[i..][1..] == arrivals[i + 1..];
        PlayOne(State(), g, Reader(Streaming, connectedAt, failures),
          Moment(a.meanwhile, Document(a.document, a.now)), Arrive(arrivals[i + 1..]));
        ghost var before := acts;
        var applied;
        applied, connectedAt, gone := TakeDocument(g, a, connectedAt, failures);
        acts := acts + applied;
        AfterBoth(Play(State(), g, Reader(if gone then Gone else Streaming, connectedAt, failures),
          Arrive(arrivals[i + 1..])), before, applied);
        if gone {
          return;
        }
      }
    }

    /** A stream ends. */
    method EndStream(g: nat, a: Attempt, connectedAt: Option<real>, failures: nat)
      returns (acts: seq<Act>, counted: nat, gone: bool)
      modifies this
      ensures
        var (w, r, acted) := Resumed(HappenAll(old(State()), a.meanwhile), g,
          Reader(Streaming, connectedAt, failures), EndOf(a));
        && State() == w && acts == acted && (gone <==> r.place == Gone)
        && (!gone ==> r == Reader(Pausing, None, counted))
    {
      hide HappenAll, RetryDelay;
      acts, counted, gone := [], failures, true;
      Meanwhile(a.meanwhile);
      if g in cancelled || !IsCurrentStream(g) {
        return;
      }
      streamConnected := false;
      if a.ending.Denied? {
        if !a.ending.setup {
          gatewayAvailable, authFailed := false, true;
        }
        return;
      }
      gone := false;
      if connectedAt == None {
        gatewayAvailable := false;
      } else if a.now - connectedAt.value >= 10.0 {
        counted := 0;
      }
      acts := [Pauses(RetryDelay(counted, a.ending.share))];
      counted := counted + 1;
    }

    /** One attempt and the pause after it. */
    method MakeAttempt(g: nat, a: Attempt, failures: nat) returns (acts: seq<Act>, counted: nat, gone: bool)
      modifies this
      ensures
        var played := Play(old(State()), g, Reader(Streaming, None, failures), Moments([a]));
        && State() == played.world && acts == played.acts && (gone <==> played.reader.place == Gone)
        && (!gone ==> played.reader == Reader(Streaming, None, counted))
    {
      hide HappenAll, Resumed;
      ghost var ending, wake := Moment(a.meanwhile, EndOf(a)), Moment(a.pause, Wake);
      OneAttempt(a);
      PlayJoins(State(), g, Reader(Streaming, None, failures), Arrive(a.arrivals), [ending, wake]);
      var connectedAt;
      counted := failures;
      acts, connectedAt, gone := ReadStream(g, a.arrivals, failures);
      if gone {
        return;
      }
      assert [ending, wake] == [ending] + [wake];
      PlayOne(State(), g, Reader(Streaming, connectedAt, failures), ending, [wake]);
      var ended;
      ended, counted, gone := EndStream(g, a, connectedAt, failures);
      acts := acts + ended;
      if gone {
        return;
      }
      gone := WaitOut(g, a.pause, counted);
      assert acts + [] == acts;
    }

    /** The pause, and the test before the next attempt. */
    method WaitOut(g: nat, pause: seq<Elsewhere>, ghost failures: nat) returns (gone: bool)
      modifies this
      ensures Played(State(), Reader(if gone then Gone else Streaming, None, failures), [])
              == Play(old(State()), g, Reader(Pausing, None, failures), [Moment(pause, Wake)])
    {
      hide HappenAll;
      Meanwhile(pause);
      gone := g in cancelled || !IsCurrentStream(g);
    }

    /** The reader of a generation, from its start. */
    method RunStream(g: nat, script: seq<Attempt>) returns (acts: seq<Act>)
      modifies this
      ensures
        var begun := if old(State()).Current(g) then FRESH else FRESH.(place := Gone);
        var played := Play(old(State()), g, begun, Moments(script));
        State() == played.world && acts == played.acts
    {
      hide HappenAll, Resumed;
      acts := [];
      if !IsCurrentStream(g) {
        return;
      }
      var failures := 0;
      ghost var all := Play(State(), g, FRESH, Moments(script));
      assert script[0..] == script;
      for i := 0 to |script|
        invariant all == Play(State(), g, Reader(Streaming, None, failures), Moments(script[i..])).After(acts)
      {
        MomentsSplit(script[i..]);
        assert script[i..][1..] == script[i + 1..] && script[i..][0] == script[i];
        PlayJoins(State(), g, Reader(Streaming, None, failures), Moments([script[i]]), Moments(script[i + 1..]));
        ghost var before := acts;
        ghost var played := Play(State(), g, Reader(Streaming, None, failures), Moments([script[i]]));
        var attempted, gone;
        attempted, failures, gone := MakeAttempt(g, script[i], failures);
        acts := acts + attempted;
        AfterBoth(Play(played.world, g, played.reader, Moments(script[i + 1..])), before, attempted);
        if gone {
          return;
        }
      }
    }
  }

  lemma OneAttempt(a: Attempt)
    ensures Moments([a]) == Arrive(a.arrivals) + [Moment(a.meanwhile, EndOf(a)), Moment(a.pause, Wake)]
  {
    assert [a][1..] == [];
  }

  lemma MomentsSplit(script: seq<Attempt>)
    requires script != []
    ensures Moments(script) == Moments([script[0]]) + Moments(script[1..])
  {
    hide Arrive, EndOf;
    OneAttempt(script[0]);
    Regroup(Arrive(script[0].arrivals),
      [Moment(script[0].meanwhile, EndOf(script[0])), Moment(script[0].pause, Wake)], Moments(script[1..]));
  }

  lemma Regroup<T>(a: seq<T>, b: seq<T>, c: seq<T>)
    ensures a + (b + c) == a + b + c
  {
  }

  // ---------------------------------------------------------------------------------------
  // How long unhealthy attempts take
  // ---------------------------------------------------------------------------------------

  /** The stream stayed open long enough to count. */
  predicate Healthy(a: Attempt) { a.arrivals != [] && a.now - a.arrivals[0].now >= 10.0 }

  /** The attempts since the last healthy one, which counts as none, after `first` earlier ones. */
  function Failures(first: nat, script: seq<Attempt>, i: nat): nat
    requires i < |script|
  {
    if Healthy(script[i]) then 0 else if i == 0 then first else Failures(first, script, i - 1) + 1
  }

  function ShareOf(a: Attempt): real { if a.ending.Closed? then a.ending.share else 0.0 }

  function DelaysOf(acts: seq<Act>): seq<real> {
    if acts == [] then []
    else (if acts[0].Pauses? then [acts[0].delay] else []) + DelaysOf(acts[1..])
  }

  lemma {:induction false} DelaysJoin(one: seq<Act>, two: seq<Act>)
    ensures DelaysOf(one + two) == DelaysOf(one) + DelaysOf(two)
  {
    if one == [] {
      assert one + two == two;
    } else {
      assert (one + two)[0] == one[0] && (one + two)[1..] == one[1..] + two;
      DelaysJoin(one[1..], two);
    }
  }

  /** The documents of a stream pause nothing, and the first one tells since when it is open. */
  lemma {:induction false} DocumentsDoNotPause(w: World, g: nat, since: Option<real>, failures: nat,
      arrivals: seq<Arrival>)
    ensures
      var p := Play(w, g, Reader(Streaming, since, failures), Arrive(arrivals));
      && DelaysOf(p.acts) == []
      && (p.reader.place != Gone ==>
            p.reader == Reader(Streaming,
                               if since.Some? || arrivals == [] then since else Some(arrivals[0].now), failures))
    decreases |arrivals|
  {
    hide HappenAll;
    if arrivals != [] {
      var m := Moment(arrivals[0].meanwhile, Document(arrivals[0].document, arrivals[0].now));
      PlayOne(w, g, Reader(Streaming, since, failures), m, Arrive(arrivals[1..]));
      var (v, q, acts) := Resumed(HappenAll(w, m.meanwhile), g, Reader(Streaming, since, failures), m.resumption);
      if q.place == Streaming {
        DocumentsDoNotPause(v, g, q.connectedAt, failures, arrivals[1..]);
        DelaysJoin(acts, Play(v, g, q, Arrive(arrivals[1..])).acts);
        assert DelaysOf(acts) == [] by { assert acts[1..] == []; }
      } else {
        assert acts == [];
        assert Play(v, g, q, Arrive(arrivals[1..])).acts == [];
      }
    }
  }

  /** An attempt pauses at most once, by the failures it leaves. */
  lemma AttemptPauses(w: World, g: nat, failures: nat, a: Attempt)
    ensures
      var p, counted := Play(w, g, Reader(Streaming, None, failures), Moments([a])), if Healthy(a) then 0 else failures;
      && (DelaysOf(p.acts) == [] || (a.ending.Closed? && DelaysOf(p.acts) == [RetryDelay(counted, ShareOf(a))]))
      && (DelaysOf(p.acts) == [] ==> p.reader.place == Gone)
      && (p.reader.place != Gone ==> p.reader == Reader(Streaming, None, counted + 1))
  {
    hide HappenAll, RetryDelay;
    var r, ending, wake := Reader(Streaming, None, failures), Moment(a.meanwhile, EndOf(a)), Moment(a.pause, Wake);
    OneAttempt(a);
    PlayJoins(w, g, r, Arrive(a.arrivals), [ending, wake]);
    DocumentsDoNotPause(w, g, None, failures, a.arrivals);
    var one := Play(w, g, r, Arrive(a.arrivals));
    if one.reader.place == Gone {
      assert Play(one.world, g, one.reader, [ending, wake]).acts == [];
      assert one.acts + [] == one.acts;
    } else {
      EndPauses(one.world, g, one.reader, a);
      DelaysJoin(one.acts, Play(one.world, g, one.reader, [ending, wake]).acts);
    }
  }

  lemma EndPauses(w: World, g: nat, r: Reader, a: Attempt)
    requires r.place == Streaming
    ensures
      var p := Play(w, g, r, [Moment(a.meanwhile, EndOf(a)), Moment(a.pause, Wake)]);
      var counted := if r.connectedAt.Some? && a.now - r.connectedAt.value >= 10.0 then 0 else r.failures;
      && (p.acts == [] || (a.ending.Closed? && p.acts == [Pauses(RetryDelay(counted, ShareOf(a)))]))
      && DelaysOf(p.acts) == (if p.acts == [] then [] else [RetryDelay(counted, ShareOf(a))])
      && (p.acts == [] ==> p.reader.place == Gone)
      && (p.reader.place != Gone ==> p.reader == Reader(Streaming, None, counted + 1))
  {
    hide HappenAll, RetryDelay;
    var ending, wake := Moment(a.meanwhile, EndOf(a)), Moment(a.pause, Wake);
    assert [ending, wake] == [ending] + [wake] && [wake] == [wake] + [];
    PlayOne(w, g, r, ending, [wake]);
    var (v, q, acts) := Resumed(HappenAll(w, a.meanwhile), g, r, EndOf(a));
    if q.place == Pausing {
      PlayOne(v, g, q, wake, []);
      assert acts + [] == acts && acts[1..] == [];
    } else {
      assert acts == [];
      assert Play(v, g, q, [wake]).acts == [];
    }
  }

  /** The pauses of a reader are those of its failures, one for each attempt that it outlives. */
  lemma {:induction false} ReaderPauses(w: World, g: nat, first: nat, script: seq<Attempt>)
    ensures
      var pauses := DelaysOf(Play(w, g, Reader(Streaming, None, first), Moments(script)).acts);
      && |pauses| <= |script|
      && forall i :: 0 <= i < |pauses| ==> pauses[i] == RetryDelay(Failures(first, script, i), ShareOf(script[i]))
    decreases |script|
  {
    hide RetryDelay, Resumed, HappenAll, Healthy;
    if script != [] {
      var r, a, rest := Reader(Streaming, None, first), script[0], script[1..];
      MomentsSplit(script);
      PlayJoins(w, g, r, Moments([a]), Moments(rest));
      AttemptPauses(w, g, first, a);
      var one := Play(w, g, r, Moments([a]));
      var two := Play(one.world, g, one.reader, Moments(rest));
      DelaysJoin(one.acts, two.acts);
      if one.reader.place == Gone {
        assert two.acts == [];
      } else {
        var counted := one.reader.failures;
        ReaderPauses(one.world, g, counted, rest);
        forall i: nat | i < |DelaysOf(two.acts)|
          ensures Failures(first, script, i + 1) == Failures(counted, rest, i)
        {
          FailuresShift(first, script, i);
        }
      }
    }
  }

  lemma {:induction false} FailuresShift(first: nat, script: seq<Attempt>, i: nat)
    requires i + 1 < |script|
    ensures Failures(first, script, i + 1) == Failures((if Healthy(script[0]) then 0 else first) + 1, script[1..], i)
  {
    hide Healthy;
    if i > 0 {
      FailuresShift(first, script, i - 1);
    }
  }

  function SumOf(pauses: seq<real>): real {
    if pauses == [] then 0.0 else SumOf(pauses[..|pauses| - 1]) + pauses[|pauses| - 1]
  }

  /** What a number of unhealthy attempts take at least. */
  function AtLeast(n: nat): int { if n <= 6 then Pow2(n) - 1 else 63 + 60 * (n - 6) }

  lemma {:induction false} Pow2Grows(m: nat, n: nat)
    requires m <= n
    ensures Pow2(m) <= Pow2(n)
  {
    if m < n {
      Pow2Grows(m, n - 1);
    }
  }

  lemma NominalGrows(m: nat, n: nat)
    requires m <= n
    ensures Nominal(m) <= Nominal(n)
  {
    Pow2Grows(Min(m, 32), Min(n, 32));
  }

  lemma NominalIs(n: nat)
    ensures Nominal(n) == if n <= 5 then Pow2(n) else 60
    ensures Pow2(0) == 1 && Pow2(1) == 2 && Pow2(2) == 4 && Pow2(3) == 8 && Pow2(4) == 16 && Pow2(5) == 32
            && Pow2(6) == 64
  {
    if n >= 6 {
      Pow2Grows(6, Min(n, 32));
    }
  }

  lemma PauseIsBounded(failures: nat, share: real)
    ensures Nominal(failures) as real <= RetryDelay(failures, share) <= 1.25 * Nominal(failures) as real
    ensures 1.0 <= RetryDelay(failures, share) <= 75.0
  {
    NominalIs(failures);
    var n, s := Nominal(failures) as real, if share < 0.0 then 0.0 else if share > 1.0 then 1.0 else share;
    assert 1.0 <= n <= 60.0;
    Product(n, s);
  }

  lemma Product(n: real, s: real)
    requires n >= 0.0 && 0.0 <= s <= 1.0
    ensures n <= n * (1.0 + 0.25 * s) <= 1.25 * n
  {
    assert 0.0 <= n * s <= n;
    assert n * (1.0 + 0.25 * s) == n + 0.25 * (n * s);
  }

  /** In a row of unhealthy attempts each counts at least the ones before it. */
  lemma {:induction false} FailuresInARow(earlier: nat, script: seq<Attempt>, first: nat, k: nat)
    requires first + k < |script| && forall j :: first <= j <= first + k ==> !Healthy(script[j])
    ensures Failures(earlier, script, first + k) >= k
  {
    if k > 0 {
      FailuresInARow(earlier, script, first, k - 1);
    }
  }

  /** However the reader got there, `n` unhealthy attempts in a row make it pause for at least
      2^n - 1 seconds up to six of them and for another minute for each one more; no pause is
      shorter than a second or longer than 75. */
  lemma {:induction false} UnhealthyAttemptsPause(w: World, g: nat, earlier: nat, script: seq<Attempt>,
      pauses: seq<real>, first: nat, n: nat)
    requires pauses == DelaysOf(Play(w, g, Reader(Streaming, None, earlier), Moments(script)).acts)
    requires first + n <= |pauses| && forall j :: first <= j < first + n && j < |script| ==> !Healthy(script[j])
    ensures SumOf(pauses[first..first + n]) >= AtLeast(n) as real
    ensures forall i :: 0 <= i < |pauses| ==> 1.0 <= pauses[i] <= 75.0
  {
    hide RetryDelay, Failures, Healthy, Nominal, AtLeast, Play, Moments;
    ReaderPauses(w, g, earlier, script);
    forall i | 0 <= i < |pauses| ensures 1.0 <= pauses[i] <= 75.0 {
      PauseIsBounded(Failures(earlier, script, i), ShareOf(script[i]));
    }
    if n > 0 {
      UnhealthyAttemptsPause(w, g, earlier, script, pauses, first, n - 1);
      var last := first + n - 1;
      FailuresInARow(earlier, script, first, n - 1);
      PauseIsBounded(Failures(earlier, script, last), ShareOf(script[last]));
      NominalGrows(n - 1, Failures(earlier, script, last));
      AtLeastAdds(n);
      assert pauses[first..first + n][..n - 1] == pauses[first..last];
    } else {
      AtLeastOfNone();
    }
  }

  lemma AtLeastOfNone()
    ensures AtLeast(0) == 0
  {
  }

  lemma AtLeastAdds(n: nat)
    requires n > 0
    ensures AtLeast(n) == AtLeast(n - 1) + Nominal(n - 1)
  {
    NominalIs(n - 1);
  }

  /** The bound is reached: from the start and without random shares the pauses are exactly that. */
  lemma FreshAttemptsPauseExactly(w: World, g: nat, script: seq<Attempt>, pauses: seq<real>)
    requires pauses == DelaysOf(Play(w, g, FRESH, Moments(script)).acts)
    requires forall j :: 0 <= j < |pauses| && j < |script| ==> !Healthy(script[j]) && ShareOf(script[j]) == 0.0
    ensures SumOf(pauses) == AtLeast(|pauses|) as real
  {
    hide RetryDelay, Failures, Healthy, Play, Moments, SumOf, AtLeast;
    ReaderPauses(w, g, 0, script);
    FreshSum(script, pauses);
  }

  lemma {:induction false} FreshSum(script: seq<Attempt>, pauses: seq<real>)
    requires |pauses| <= |script|
    requires forall i :: 0 <= i < |pauses| ==> pauses[i] == RetryDelay(Failures(0, script, i), ShareOf(script[i]))
    requires forall j :: 0 <= j < |pauses| ==> !Healthy(script[j]) && ShareOf(script[j]) == 0.0
    ensures |pauses| > 0 ==> Failures(0, script, |pauses| - 1) == |pauses| - 1
    ensures SumOf(pauses) == AtLeast(|pauses|) as real
  {
    hide Healthy, ShareOf, AtLeast, Pow2;
    AtLeastOfNone();
    if pauses != [] {
      FreshSum(script, pauses[..|pauses| - 1]);
      AtLeastAdds(|pauses|);
      assert RetryDelay(|pauses| - 1, 0.0) == Nominal(|pauses| - 1) as real;
    }
  }

  // ---------------------------------------------------------------------------------------
  // Readers that replace each other
  // ---------------------------------------------------------------------------------------

  /** All readers there ever were, and what each of them did, in order. */
  datatype Streams = Streams(world: World, readers: map<nat, Reader>, log: seq<(nat, Act)>) {
    predicate Inv() { forall g <- readers :: g <= world.generation }
  }

  /** Some reader is resumed, or something else happens; a stream that is started has its reader. */
  datatype Step = Other(e: Elsewhere) | Resume(g: nat, x: Resumption)

  function Tagged(g: nat, acts: seq<Act>): seq<(nat, Act)> { seq(|acts|, i requires 0 <= i < |acts| => (g, acts[i])) }

  function Do(s: Streams, step: Step): Streams {
    match step
    case Other(e) =>
      var w := Happens(s.world, e);
      s.(world := w,
         readers := if w.generation > s.world.generation then s.readers[w.generation := FRESH] else s.readers)
    case Resume(g, x) =>
      if g !in s.readers then s
      else
        var (w, r, acts) := Resumed(s.world, g, s.readers[g], x);
        Streams(w, s.readers[g := r], s.log + Tagged(g, acts))
  }

  function Run(s: Streams, steps: seq<Step>): Streams
    decreases |steps|
  {
    if steps == [] then s else Run(Do(s, steps[0]), steps[1..])
  }

  function ActsOf(log: seq<(nat, Act)>, g: nat): seq<Act> {
    if log == [] then []
    else
      var before, last := ActsOf(log[..|log| - 1], g), log[|log| - 1];
      if last.0 == g then before + [last.1] else before
  }

  lemma {:induction false} ActsJoin(log: seq<(nat, Act)>, h: nat, acts: seq<Act>, g: nat)
    ensures ActsOf(log + Tagged(h, acts), g) == ActsOf(log, g) + if h == g then acts else []
  {
    if acts == [] {
      assert log + Tagged(h, acts) == log;
    } else {
      var before := acts[..|acts| - 1];
      ActsJoin(log, h, before, g);
      assert log + Tagged(h, acts) == (log + Tagged(h, before)) + [(h, acts[|acts| - 1])];
      assert acts == before + [acts[|acts| - 1]];
    }
  }

  /** The reader was replaced, cancelled or unloaded. */
  predicate IsOver(w: World, g: nat) { w.unloaded || g < w.generation || g in w.cancelled }

  lemma StepMoves(s: Streams, step: Step, g: nat)
    requires s.Inv() && g in s.readers
    ensures Do(s, step).Inv() && g in Do(s, step).readers
    ensures s.world.generation <= Do(s, step).world.generation
    ensures IsOver(s.world, g) ==> IsOver(Do(s, step).world, g)
    ensures step.Other? || step.g != g ==> Do(s, step).readers[g] == s.readers[g]
  {
  }

  /** Resuming a reader that is over does nothing at all but end it: no document is applied, no
      pause begun, and neither the availability of the gateway nor anything else is changed. */
  lemma ReaderThatIsOverEnds(s: Streams, g: nat, x: Resumption)
    requires s.Inv() && g in s.readers && IsOver(s.world, g)
    ensures
      var t := Do(s, Resume(g, x));
      && t.world == s.world && t.log == s.log && g in t.readers && t.readers - {g} == s.readers - {g}
      && (t.readers[g] == s.readers[g] || t.readers[g] == s.readers[g].(place := Gone))
      && (Fits(s.readers[g], x) ==> t.readers[g].place == Gone)
  {
    assert s.log + Tagged(g, []) == s.log;
  }

  predicate ResumesIt(steps: seq<Step>, g: nat, r: Reader) {
    exists step <- steps :: step.Resume? && step.g == g && Fits(r, step.x)
  }

  /** In every run, whatever other readers do and wherever this one waited: once it is over it never
      does anything again, and at its next resumption it ends. */
  lemma {:induction false} ReplacedReaderIsSilent(s: Streams, steps: seq<Step>, g: nat)
    requires s.Inv() && g in s.readers && IsOver(s.world, g)
    ensures
      var t := Run(s, steps);
      && g in t.readers && IsOver(t.world, g) && ActsOf(t.log, g) == ActsOf(s.log, g)
      && (t.readers[g] == s.readers[g] || t.readers[g] == s.readers[g].(place := Gone))
      && (ResumesIt(steps, g, s.readers[g]) ==> t.readers[g].place == Gone)
    decreases |steps|
  {
    hide Resumed, Happens, ActsOf, Fits;
    if steps != [] {
      var k, step, rest := Do(s, steps[0]), steps[0], steps[1..];
      StepMoves(s, step, g);
      if step.Resume? && step.g == g {
        ReaderThatIsOverEnds(s, g, step.x);
      } else if step.Resume? && step.g in s.readers {
        var (w, r, acts) := Resumed(s.world, step.g, s.readers[step.g], step.x);
        ActsJoin(s.log, step.g, acts, g);
        assert ActsOf(s.log, g) + [] == ActsOf(s.log, g);
      }
      ReplacedReaderIsSilent(k, rest, g);
      ResumedLater(steps, g, s.readers[g]);
      GoneIsNotResumed(s.readers[g]);
    }
  }

  lemma ResumedLater(steps: seq<Step>, g: nat, r: Reader)
    requires steps != []
    ensures ResumesIt(steps, g, r) <==>
              (steps[0].Resume? && steps[0].g == g && Fits(r, steps[0].x)) || ResumesIt(steps[1..], g, r)
  {
    assert steps == [steps[0]] + steps[1..];
    hide Fits;
  }

  lemma GoneIsNotResumed(r: Reader)
    ensures forall x :: r.place == Gone ==> !Fits(r, x)
  {
  }

  /** In every run everything readers do is done by the one that is current just then, so their
      acts follow the order of the generations. */
  lemma {:induction false} OnlyTheCurrentReaderActs(s: Streams, steps: seq<Step>)
    requires s.Inv()
    ensures
      var t := Run(s, steps);
      && t.Inv() && s.world.generation <= t.world.generation && s.log <= t.log
      && (forall i :: |s.log| <= i < |t.log| ==> s.world.generation <= t.log[i].0 <= t.world.generation)
      && (forall i, j :: |s.log| <= i <= j < |t.log| ==> t.log[i].0 <= t.log[j].0)
    decreases |steps|
  {
    if steps != [] {
      var k := Do(s, steps[0]);
      ActsAreCurrent(s, steps[0]);
      OnlyTheCurrentReaderActs(k, steps[1..]);
      hide Do;
    }
  }

  lemma ActsAreCurrent(s: Streams, step: Step)
    requires s.Inv()
    ensures
      var k := Do(s, step);
      && k.Inv() && s.world.generation <= k.world.generation && s.log <= k.log
      && (|k.log| > |s.log| ==> step.Resume? && s.world.Current(step.g) && k.world.generation == s.world.generation)
      && forall i :: |s.log| <= i < |k.log| ==> k.log[i].0 == s.world.generation
  {
    hide RetryDelay;
  }

  // ---------------------------------------------------------------------------------------
  // The loop is one of the readers
  // ---------------------------------------------------------------------------------------

  function OtherSteps(es: seq<Elsewhere>): seq<Step> { seq(|es|, i requires 0 <= i < |es| => Other(es[i])) }

  function StepsOf(g: nat, moments: seq<Moment>): seq<Step> {
    if moments == [] then []
    else OtherSteps(moments[0].meanwhile) + ([Resume(g, moments[0].resumption)] + StepsOf(g, moments[1..]))
  }

  lemma {:induction false} RunsJoin(s: Streams, first: seq<Step>, second: seq<Step>)
    ensures Run(s, first + second) == Run(Run(s, first), second)
    decreases |first|
  {
    hide Do;
    if first == [] {
      assert first + second == second;
    } else {
      assert (first + second)[1..] == first[1..] + second;
      RunsJoin(Do(s, first[0]), first[1..], second);
    }
  }

  lemma {:induction false} OthersHappen(s: Streams, es: seq<Elsewhere>, g: nat)
    requires s.Inv() && g in s.readers
    ensures
      var t := Run(s, OtherSteps(es));
      t.Inv() && g in t.readers && t.world == HappenAll(s.world, es) && t.readers[g] == s.readers[g] && t.log == s.log
    decreases |es|
  {
    if es != [] {
      StepMoves(s, Other(es[0]), g);
      assert OtherSteps(es)[1..] == OtherSteps(es[1..]);
      OthersHappen(Do(s, Other(es[0])), es[1..], g);
      hide Happens;
    }
  }

  /** What the loop of a reader does is what that reader does among all of them, resumed in turn
      with the rest of the world going on. */
  lemma {:induction false} TheLoopIsThatReader(s: Streams, g: nat, moments: seq<Moment>)
    requires s.Inv() && g in s.readers
    ensures
      var t, p := Run(s, StepsOf(g, moments)), Play(s.world, g, s.readers[g], moments);
      && t.Inv() && g in t.readers && ActsOf(t.log, g) == ActsOf(s.log, g) + p.acts
      && (if p.reader.place == Gone then t.readers[g].place == Gone else t.world == p.world && t.readers[g] == p.reader)
    decreases |moments|
  {
    hide Resumed, HappenAll, Happens, ActsOf;
    if moments == [] {
      assert ActsOf(s.log, g) + [] == ActsOf(s.log, g);
    } else {
      var m, rest := moments[0], moments[1..];
      var u := Run(s, OtherSteps(m.meanwhile));
      OthersHappen(s, m.meanwhile, g);
      RunsJoin(s, OtherSteps(m.meanwhile), [Resume(g, m.resumption)] + StepsOf(g, rest));
      var k := Do(u, Resume(g, m.resumption));
      assert ([Resume(g, m.resumption)] + StepsOf(g, rest))[1..] == StepsOf(g, rest);
      StepMoves(u, Resume(g, m.resumption), g);
      var (v, q, acts) := Resumed(u.world, g, u.readers[g], m.resumption);
      ActsJoin(u.log, g, acts, g);
      TheLoopIsThatReader(k, g, rest);
      if s.readers[g].place == Gone {
        GoneStaysGone(u.world, g, s.readers[g], m.resumption);
        assert Play(k.world, g, k.readers[g], rest).acts == [];
        assert ActsOf(s.log, g) + [] + [] == ActsOf(s.log, g) + [];
      } else {
        var p := Play(v, g, q, rest);
        assert ActsOf(s.log, g) + acts + p.acts == ActsOf(s.log, g) + (acts + p.acts);
      }
    }
  }

  lemma GoneStaysGone(w: World, g: nat, r: Reader, x: Resumption)
    requires r.place == Gone
    ensures Resumed(w, g, r, x) == (w, r, [])
  {
  }
}
