/** Which queued radio requests may still be sent: an outage, an unload or a forgotten device
    between queueing and sending stops a request, also when the gateway is back by then. */
module RadioRequests {
  import opened Options
  import opened LockRuns

  /** The connection state a request is checked against. */
  datatype Gate = Gate(unloaded: bool, available: bool, outage: nat, devices: map<string, nat>) {
    function Device(id: string): nat { if id in devices then devices[id] else 0 }

    function Generation(id: string): (nat, nat) { (outage, Device(id)) }
  }

  datatype Refusal = RequestCancelled | GatewayUnavailable

  function Check(g: Gate, device: string, generation: (nat, nat)): Option<Refusal> {
    if g.unloaded || generation.1 != g.Device(device) then Some(RequestCancelled)
    else if !g.available || generation.0 != g.outage then Some(GatewayUnavailable)
    else None
  }

  /** What happens to the connection, apart from requests. */
  datatype Event = Lose | Return | Unload | Forget(device: string)

  function Happens(g: Gate, event: Event): Gate {
    match event
    case Lose => if g.available then g.(available := false, outage := g.outage + 1) else g
    case Return => g.(available := true)
    case Unload =>
      g.(unloaded := true, available := false, outage := if g.available then g.outage + 1 else g.outage)
    case Forget(device) => g.(devices := g.devices[device := g.Device(device) + 1])
  }

  class RequestGate {
    var unloaded: bool
    var gatewayAvailable: bool
    var outageGeneration: nat
    var deviceGenerations: map<string, nat>

    ghost function State(): Gate
      reads this
    {
      Gate(unloaded, gatewayAvailable, outageGeneration, deviceGenerations)
    }

    constructor ()
      ensures State() == Gate(false, false, 0, map[])
    {
      unloaded, gatewayAvailable, outageGeneration, deviceGenerations := false, false, 0, map[];
    }

    method SetGatewayAvailable(available: bool)
      modifies this
      ensures State() == Happens(old(State()), if available then Return else Lose)
    {
      if gatewayAvailable == available {
        return;
      }
      gatewayAvailable := available;
      if !available {
        outageGeneration := outageGeneration + 1;
      }
    }

    method AsyncUnload()
      modifies this
      ensures State() == Happens(old(State()), Unload)
    {
      unloaded := true;
      SetGatewayAvailable(false);
    }

    method ForgetDevice(device: string)
      modifies this
      ensures State() == Happens(old(State()), Forget(device))
    {
      var generation := if device in deviceGenerations then deviceGenerations[device] else 0;
      deviceGenerations := deviceGenerations[device := generation + 1];
    }

    method CheckRequestValid(device: string, generation: (nat, nat)) returns (error: Option<Refusal>)
      ensures error == Check(State(), device, generation)
    {
      var current := if device in deviceGenerations then deviceGenerations[device] else 0;
      if unloaded || generation.1 != current {
        return Some(RequestCancelled);
      }
      if !gatewayAvailable || generation.0 != outageGeneration {
        return Some(GatewayUnavailable);
      }
      return None;
    }
  }

  // ---------------------------------------------------------------------------------------
  // Requests over the lock
  // ---------------------------------------------------------------------------------------

  datatype Stage = Queued | InFlight | Finished

  datatype Request = Request(device: string, generation: (nat, nat), stage: Stage)

  datatype Radio = Radio(sys: System, gate: Gate, requests: map<nat, Request>) {
    /** A request is in flight exactly while its call holds the lock. */
    ghost predicate Inv() {
      && sys.Inv() && requests.Keys == sys.calls.Keys
      && forall id <- requests :: match requests[id].stage
           case Queued => sys.calls[id].Waiting?
           case InFlight => sys.calls[id] == Holding
           case Finished => sys.calls[id].Ended?
    }
  }

  /** `wanted` is the last question before sending: a superseded background check says no. */
  datatype Action =
    | Begin(id: nat, device: string, priority: int, wanted: bool)
    | Wake(id: nat, wanted: bool)
    | Interrupt(id: nat)
    | Answer(id: nat)
    | Connection(event: Event)

  ghost predicate CanDo(r: Radio, action: Action)
    requires r.Inv()
  {
    match action
    case Begin(id, _, _, _) => id !in r.requests
    case Wake(id, _) => Enabled(r.sys, Resume(id))
    case Interrupt(id) => Enabled(r.sys, Cancel(id))
    case Answer(id) => id in r.requests && r.requests[id].stage == InFlight
    case Connection(_) => true
  }

  /** The part of a request that owns the slot: check again, then send, or give the slot back. */
  ghost function Send(r: Radio, s: System, id: nat, request: Request, wanted: bool): Radio
    requires s.Inv() && id in s.calls && s.calls[id] == Holding
  {
    if Check(r.gate, request.device, request.generation) == None && wanted then
      r.(sys := s, requests := r.requests[id := request.(stage := InFlight)])
    else
      r.(sys := Moved(s, Leave(id)), requests := r.requests[id := request.(stage := Finished)])
  }

  ghost function Do(r: Radio, action: Action): Radio
    requires r.Inv() && CanDo(r, action)
  {
    match action
    case Begin(id, device, priority, wanted) =>
      var request := Request(device, r.gate.Generation(device), Queued);
      if Check(r.gate, device, request.generation) != None then r
      else
        var s := Moved(r.sys, Arrive(id, priority));
        if s.calls[id] == Holding then Send(r, s, id, request, wanted)
        else r.(sys := s, requests := r.requests[id := request])
    case Wake(id, wanted) =>
      var s := Moved(r.sys, Resume(id));
      if s.calls[id] == Holding then Send(r, s, id, r.requests[id], wanted)
      else r.(sys := s, requests := r.requests[id := r.requests[id].(stage := Finished)])
    case Interrupt(id) => r.(sys := Moved(r.sys, Cancel(id)))
    case Answer(id) =>
      r.(sys := Moved(r.sys, Leave(id)), requests := r.requests[id := r.requests[id].(stage := Finished)])
    case Connection(event) => r.(gate := Happens(r.gate, event))
  }

  lemma SendKeepsInv(r: Radio, s: System, id: nat, request: Request, wanted: bool)
    requires s.Inv() && id in s.calls && s.calls[id] == Holding
    requires r.requests.Keys + {id} == s.calls.Keys
    requires forall d <- r.requests :: d != id ==> match r.requests[d].stage
               case Queued => s.calls[d].Waiting?
               case InFlight => s.calls[d] == Holding
               case Finished => s.calls[d].Ended?
    ensures Send(r, s, id, request, wanted).Inv()
  {
  }

  lemma DoKeepsInv(r: Radio, action: Action)
    requires r.Inv() && CanDo(r, action)
    ensures Do(r, action).Inv()
  {
    match action
    case Begin(id, device, priority, wanted) =>
      var request := Request(device, r.gate.Generation(device), Queued);
      var s := Moved(r.sys, Arrive(id, priority));
      if s.calls[id] == Holding {
        SendKeepsInv(r, s, id, request, wanted);
      }
    case Wake(id, wanted) =>
      var s := Moved(r.sys, Resume(id));
      if s.calls[id] == Holding {
        SendKeepsInv(r, s, id, r.requests[id], wanted);
      }
    case Interrupt(_) =>
    case Answer(_) =>
    case Connection(_) =>
  }

  ghost predicate Runs(r: Radio, actions: seq<Action>)
    requires r.Inv()
    decreases |actions|
  {
    actions == [] || (CanDo(r, actions[0]) && (DoKeepsInv(r, actions[0]); Runs(Do(r, actions[0]), actions[1..])))
  }

  ghost function After(r: Radio, actions: seq<Action>): (t: Radio)
    requires r.Inv() && Runs(r, actions)
    ensures t.Inv()
    decreases |actions|
  {
    if actions == [] then r else (DoKeepsInv(r, actions[0]); After(Do(r, actions[0]), actions[1..]))
  }

  ghost const IDLE := Radio(START, Gate(false, false, 0, map[]), map[])

  lemma IdleInv()
    ensures IDLE.Inv()
  {
    StartInv();
  }

  /** At most one radio request is in flight, in every run. */
  lemma OneRequestInFlight(actions: seq<Action>, a: nat, b: nat)
    requires (IdleInv(); Runs(IDLE, actions))
    requires (IdleInv(); var r := After(IDLE, actions); a in r.requests && b in r.requests)
    requires (IdleInv(); var r := After(IDLE, actions); r.requests[a].stage == r.requests[b].stage == InFlight)
    ensures a == b
  {
    IdleInv();
    var s := After(IDLE, actions).sys;
    assert s.Owns(a) && s.Owns(b);
  }

  predicate Disturbs(action: Action, device: string) {
    action.Connection? && (action.event.Lose? || action.event.Unload? || action.event == Forget(device))
  }

  /** Generations never go back, and once a generation is over it never comes again. */
  ghost predicate Over(g: Gate, device: string, generation: (nat, nat)) {
    g.unloaded || g.outage > generation.0 || g.Device(device) > generation.1
  }

  lemma {:induction false} OverForEver(r: Radio, actions: seq<Action>, device: string, generation: (nat, nat))
    requires r.Inv() && Runs(r, actions) && Over(r.gate, device, generation)
    ensures Over(After(r, actions).gate, device, generation)
    decreases |actions|
  {
    if actions != [] {
      DoKeepsInv(r, actions[0]);
      OverForEver(Do(r, actions[0]), actions[1..], device, generation);
    }
  }

  /** A request that was valid when it was queued passes the check at its turn exactly if nothing
      disturbed it meanwhile. It does not matter whether the gateway has come back since. */
  lemma {:induction false} ValidMeansUndisturbed(r: Radio, actions: seq<Action>, device: string, generation: (nat, nat))
    requires r.Inv() && Runs(r, actions) && Check(r.gate, device, generation) == None
    ensures Check(After(r, actions).gate, device, generation) == None
       <==> forall action <- actions :: !Disturbs(action, device)
    decreases |actions|
  {
    if actions != [] {
      var t := Do(r, actions[0]);
      DoKeepsInv(r, actions[0]);
      assert actions == [actions[0]] + actions[1..];
      if Disturbs(actions[0], device) {
        OverForEver(t, actions[1..], device, generation);
      } else {
        ValidMeansUndisturbed(t, actions[1..], device, generation);
      }
    }
  }

  /** The generation a request was queued with stays its own until it is finished. */
  lemma {:induction false} RequestKeepsItsGeneration(r: Radio, actions: seq<Action>, id: nat)
    requires r.Inv() && Runs(r, actions) && id in r.requests
    ensures id in After(r, actions).requests
    ensures After(r, actions).requests[id].device == r.requests[id].device
    ensures After(r, actions).requests[id].generation == r.requests[id].generation
    decreases |actions|
  {
    if actions != [] {
      DoKeepsInv(r, actions[0]);
      RequestKeepsItsGeneration(Do(r, actions[0]), actions[1..], id);
    }
  }

  /** A queued request whose turn comes is sent exactly if it is still wanted and since it was
      queued no outage began, its device was not forgotten and nothing was unloaded. */
  lemma SentExactlyIfUndisturbed(r: Radio, begin: Action, actions: seq<Action>, wanted: bool)
    requires r.Inv() && begin.Begin? && CanDo(r, begin) && Do(r, begin).Inv()
    requires begin.id in Do(r, begin).requests && Do(r, begin).requests[begin.id].stage == Queued
    requires Runs(Do(r, begin), actions)
    requires var t := After(Do(r, begin), actions);
             CanDo(t, Wake(begin.id, wanted)) && Apply(t.sys, Resume(begin.id)).calls[begin.id] == Holding
    ensures Do(After(Do(r, begin), actions), Wake(begin.id, wanted)).requests[begin.id].stage == InFlight
       <==> wanted && forall action <- actions :: !Disturbs(action, begin.device)
  {
    var q := Do(r, begin);
    RequestKeepsItsGeneration(q, actions, begin.id);
    ValidMeansUndisturbed(q, actions, begin.device, q.requests[begin.id].generation);
  }
}
