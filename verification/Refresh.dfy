/**
 The browser client's token refresh.  The code between two awaits runs without interruption, so
 each such stretch is one step; steps of any number of calls come in any order.
 */
module Refresh {
  import opened Basics

  type CallId = string

  /** The promise of one refresh: its request is out, its body is being read, or it is settled. */
  datatype Flight = Requested | Reading | Fulfilled(token: string) | Rejected

  /** Where a call stands, and the tokens its requests carried so far. */
  datatype Call =
    | FirstOut(sent: seq<Option<string>>)
    | Awaiting(flight: nat, sent: seq<Option<string>>)
    | SecondOut(flight: nat, sent: seq<Option<string>>)
    | Returned(joined: Option<nat>, status: int, sent: seq<Option<string>>)
    | ThrewAuth(flight: nat, sent: seq<Option<string>>)
    | ThrewNetwork(sent: seq<Option<string>>)

  datatype Client = Client(accessToken: Option<string>, refreshInFlight: Option<nat>, flights: seq<Flight>, calls: map<CallId, Call>)

  datatype Step =
    | SetToken(token: Option<string>)                   // login, logout
    | Send(call: CallId)
    | Response(call: CallId, status: int)
    | NetworkError(call: CallId)
    | RefreshResponse(ok: bool)                         // a rejected request counts as not ok
    | RefreshBody(read: Option<string>)
    | Resume(call: CallId)

  const UNAUTHORIZED := 401

  const INITIAL := Client(None, None, [], map[])

  predicate Outstanding(f: Flight) {
    f.Requested? || f.Reading?
  }

  /** The stage of the refresh that refreshInFlight holds. */
  predicate FlightIs(c: Client, stage: Flight) {
    c.refreshInFlight.Some? && c.refreshInFlight.value < |c.flights| && c.flights[c.refreshInFlight.value] == stage
  }

  predicate Ready(c: Client, step: Step) {
    match step
    case SetToken(_) => true
    case Send(id) => id !in c.calls
    case Response(id, _) => id in c.calls && (c.calls[id].FirstOut? || c.calls[id].SecondOut?)
    case NetworkError(id) => id in c.calls && (c.calls[id].FirstOut? || c.calls[id].SecondOut?)
    case RefreshResponse(_) => FlightIs(c, Requested)
    case RefreshBody(_) => FlightIs(c, Reading)
    case Resume(id) =>
      id in c.calls && c.calls[id].Awaiting? && c.calls[id].flight < |c.flights|
      && !Outstanding(c.flights[c.calls[id].flight])
  }

  /** A refresh settles: `finally` clears refreshInFlight, and then the promise gets its outcome. */
  function Settle(c: Client, k: nat, outcome: Flight): Client
    requires k < |c.flights|
  {
    c.(flights := c.flights[k := outcome], refreshInFlight := None)
  }

  function Join(c: Client, id: CallId, sent: seq<Option<string>>): Client {
    match c.refreshInFlight
    case Some(k) => c.(calls := c.calls[id := Awaiting(k, sent)])
    case None =>
      c.(refreshInFlight := Some(|c.flights|), flights := c.flights + [Requested],
         calls := c.calls[id := Awaiting(|c.flights|, sent)])
  }

  function Stepped(c: Client, step: Step): Client
    requires Ready(c, step)
  {
    match step
    case SetToken(token) => c.(accessToken := token)
    case Send(id) => c.(calls := c.calls[id := FirstOut([c.accessToken])])
    case Response(id, status) =>
      var call := c.calls[id];
      if call.SecondOut? then c.(calls := c.calls[id := Returned(Some(call.flight), status, call.sent)])
      else if status != UNAUTHORIZED then c.(calls := c.calls[id := Returned(None, status, call.sent)])
      else Join(c, id, call.sent)
    case NetworkError(id) => c.(calls := c.calls[id := ThrewNetwork(c.calls[id].sent)])
    case RefreshResponse(ok) =>
      var k := c.refreshInFlight.value;
      if ok then c.(flights := c.flights[k := Reading]) else Settle(c, k, Rejected)
    case RefreshBody(read) =>
      var k := c.refreshInFlight.value;
      if read.Some? then Settle(c, k, Fulfilled(read.value)).(accessToken := read) else Settle(c, k, Rejected)
    case Resume(id) =>
      var call := c.calls[id];
      match c.flights[call.flight]
      case Fulfilled(token) => c.(calls := c.calls[id := SecondOut(call.flight, call.sent + [Some(token)])])
      case _ => c.(accessToken := None, calls := c.calls[id := ThrewAuth(call.flight, call.sent)])
  }

  ghost predicate Run(steps: seq<Step>)
    decreases |steps|, 0
  {
    steps == [] || (Run(steps[..|steps| - 1]) && Ready(End(steps[..|steps| - 1]), steps[|steps| - 1]))
  }

  ghost function End(steps: seq<Step>): Client
    requires Run(steps)
    decreases |steps|, 1
  {
    if steps == [] then INITIAL else Stepped(End(steps[..|steps| - 1]), steps[|steps| - 1])
  }

  // ---- single flight ------------------------------------------------------------------

  /** A refresh is outstanding exactly while refreshInFlight holds it; so there is at most one. */
  ghost predicate SingleFlight(c: Client) {
    && (c.refreshInFlight.Some? ==> c.refreshInFlight.value < |c.flights|)
    && (forall k :: 0 <= k < |c.flights| ==> (Outstanding(c.flights[k]) <==> c.refreshInFlight == Some(k)))
  }

  /** What a call got and sent is what the refresh it joined came to. */
  ghost predicate Faithful(c: Client, call: Call) {
    match call
    case FirstOut(sent) => |sent| == 1
    case Awaiting(k, sent) => |sent| == 1 && k < |c.flights|
    case SecondOut(k, sent) => |sent| == 2 && k < |c.flights| && SentFresh(c, k, sent)
    case Returned(None, status, sent) => |sent| == 1 && status != UNAUTHORIZED
    case Returned(Some(k), _, sent) => |sent| == 2 && k < |c.flights| && SentFresh(c, k, sent)
    case ThrewAuth(k, sent) => |sent| == 1 && k < |c.flights| && c.flights[k].Rejected?
    case ThrewNetwork(sent) => 1 <= |sent| <= 2
  }

  ghost predicate SentFresh(c: Client, k: nat, sent: seq<Option<string>>)
    requires |sent| == 2 && k < |c.flights|
  {
    c.flights[k].Fulfilled? && sent[1] == Some(c.flights[k].token)
  }

  ghost predicate AllFaithful(c: Client) {
    forall id :: id in c.calls ==> Faithful(c, c.calls[id])
  }

  lemma SingleFlightStep(c: Client, step: Step)
    requires SingleFlight(c) && Ready(c, step)
    ensures SingleFlight(Stepped(c, step))
  {
  }

  /** Settled refreshes stay as they are. */
  lemma SettledStays(c: Client, step: Step, k: nat)
    requires SingleFlight(c) && Ready(c, step) && k < |c.flights|
    ensures k < |Stepped(c, step).flights|
    ensures !Outstanding(c.flights[k]) ==> Stepped(c, step).flights[k] == c.flights[k]
  {
  }

  lemma FaithfulStep(c: Client, step: Step)
    requires SingleFlight(c) && AllFaithful(c) && Ready(c, step)
    ensures AllFaithful(Stepped(c, step))
  {
    var d := Stepped(c, step);
    forall id | id in d.calls ensures Faithful(d, d.calls[id]) {
      if id in c.calls {
        assert Faithful(c, c.calls[id]);
        forall k: nat | k < |c.flights| {
          SettledStays(c, step, k);
        }
      }
    }
  }

  /**
   Over every interleaving of calls: one refresh at most is outstanding, and refreshInFlight tells
   which; a call sends one request or two, the second only after the refresh it joined succeeded,
   with exactly the token that refresh returned; a call that throws for authentication joined one
   that failed.
   */
  lemma {:induction false} RefreshProtocol(steps: seq<Step>)
    requires Run(steps)
    ensures SingleFlight(End(steps)) && AllFaithful(End(steps))
    decreases |steps|
  {
    if steps != [] {
      var front, step := steps[..|steps| - 1], steps[|steps| - 1];
      RefreshProtocol(front);
      SingleFlightStep(End(front), step);
      FaithfulStep(End(front), step);
    }
  }

  lemma AtMostOneOutstanding(steps: seq<Step>, j: nat, k: nat)
    requires Run(steps) && j < |End(steps).flights| && k < |End(steps).flights|
    requires Outstanding(End(steps).flights[j]) && Outstanding(End(steps).flights[k])
    ensures j == k && End(steps).refreshInFlight == Some(k)
  {
    RefreshProtocol(steps);
  }

  // ---- which token is current, and which is sent first ------------------------------------

  /** The token last set: by login or logout, by a refresh that was read, or cleared after one that failed. */
  ghost function LastToken(steps: seq<Step>): Option<string>
    requires Run(steps)
  {
    if steps == [] then None
    else
      var front, step := steps[..|steps| - 1], steps[|steps| - 1];
      if step.SetToken? then step.token
      else if step.RefreshBody? && step.read.Some? then step.read
      else if step.Resume? && End(front).flights[End(front).calls[step.call].flight].Rejected? then None
      else LastToken(front)
  }

  /** The token that was current when a call was made. */
  ghost function TokenAtSend(steps: seq<Step>, id: CallId): Option<string>
    requires Run(steps)
  {
    if steps == [] then None
    else
      var front, step := steps[..|steps| - 1], steps[|steps| - 1];
      if step == Send(id) then LastToken(front) else TokenAtSend(front, id)
  }

  function Sent(call: Call): seq<Option<string>> {
    call.sent
  }

  lemma {:induction false} TokenIsLast(steps: seq<Step>)
    requires Run(steps)
    ensures End(steps).accessToken == LastToken(steps)
    decreases |steps|
  {
    if steps != [] {
      TokenIsLast(steps[..|steps| - 1]);
    }
  }

  /** In every run the client holds the token last set, and each call's first request went out with the one of its moment. */
  lemma {:induction false} FirstCarriesToken(steps: seq<Step>, id: CallId)
    requires Run(steps) && id in End(steps).calls
    ensures End(steps).accessToken == LastToken(steps)
    ensures Sent(End(steps).calls[id]) != [] && Sent(End(steps).calls[id])[0] == TokenAtSend(steps, id)
    decreases |steps|
  {
    TokenIsLast(steps);
    if steps != [] {
      var front, step := steps[..|steps| - 1], steps[|steps| - 1];
      TokenIsLast(front);
      if id in End(front).calls {
        FirstCarriesToken(front, id);
      }
    }
  }

  /** Any request can fail on the network: its call throws, and neither the token nor a refresh is touched. */
  lemma NetworkErrorIsLocal(c: Client, id: CallId)
    requires id in c.calls && (c.calls[id].FirstOut? || c.calls[id].SecondOut?)
    ensures Ready(c, NetworkError(id)) && Stepped(c, NetworkError(id)) == c.(calls := c.calls[id := ThrewNetwork(c.calls[id].sent)])
  {
  }

  // ---- how many refreshes there are ------------------------------------------------------

  /** How many first requests came back unauthorized. */
  ghost function Refusals(steps: seq<Step>): nat
    requires Run(steps)
  {
    if steps == [] then 0
    else
      var front, step := steps[..|steps| - 1], steps[|steps| - 1];
      Refusals(front)
      + (if step.Response? && step.status == UNAUTHORIZED && End(front).calls[step.call].FirstOut? then 1 else 0)
  }

  /** How many of them came while no refresh was outstanding. */
  ghost function LoneRefusals(steps: seq<Step>): nat
    requires Run(steps)
  {
    if steps == [] then 0
    else
      var front, step := steps[..|steps| - 1], steps[|steps| - 1];
      LoneRefusals(front)
      + (if step.Response? && step.status == UNAUTHORIZED && End(front).calls[step.call].FirstOut?
            && End(front).refreshInFlight.None? then 1 else 0)
  }

  /** Refresh requests are sent exactly for the refusals that found none outstanding; a refused retry causes none. */
  lemma {:induction false} RefreshesSent(steps: seq<Step>)
    requires Run(steps)
    ensures |End(steps).flights| == LoneRefusals(steps) <= Refusals(steps)
    decreases |steps|
  {
    if steps != [] {
      RefreshesSent(steps[..|steps| - 1]);
      RefreshProtocol(steps[..|steps| - 1]);
    }
  }

  // ---- no call waits for ever --------------------------------------------------------------

  /** How many of the client's own steps are still to come: every one but a new call or a new token counts down. */
  ghost function Work(call: Call): nat {
    match call
    case FirstOut(_) => 5
    case Awaiting(_, _) => 2
    case SecondOut(_, _) => 1
    case _ => 0
  }

  ghost function FlightWork(c: Client): nat {
    match c.refreshInFlight
    case Some(k) => if k < |c.flights| && c.flights[k].Requested? then 2 else 1
    case None => 0
  }

  ghost function WorkOf(c: Client): CallId -> nat {
    (id: CallId) => if id in c.calls then Work(c.calls[id]) else 0
  }

  ghost function WorkLeft(c: Client): nat {
    Sum(c.calls.Keys, WorkOf(c)) + FlightWork(c)
  }

  lemma OneCallMoves(c: Client, d: Client, id: CallId)
    requires id in c.calls && d.calls.Keys == c.calls.Keys
    requires forall other :: other in c.calls && other != id ==> d.calls[other] == c.calls[other]
    ensures Sum(d.calls.Keys, WorkOf(d)) == Sum(c.calls.Keys, WorkOf(c)) - Work(c.calls[id]) + Work(d.calls[id])
  {
    SumUpdate(c.calls.Keys, WorkOf(c), WorkOf(d), id);
  }

  /** Each answer, body and resumption brings the client closer to rest. */
  lemma EveryStepCounts(c: Client, step: Step)
    requires SingleFlight(c) && Ready(c, step) && !step.SetToken? && !step.Send?
    ensures WorkLeft(Stepped(c, step)) < WorkLeft(c)
  {
    var d := Stepped(c, step);
    match step
    case Response(id, _) => OneCallMoves(c, d, id);
    case NetworkError(id) => OneCallMoves(c, d, id);
    case Resume(id) => OneCallMoves(c, d, id);
    case _ => SumAgree(c.calls.Keys, WorkOf(c), WorkOf(d));
  }

  /** The client is at rest exactly when every call has returned or thrown; before that some step is always ready. */
  lemma NeverStuck(steps: seq<Step>, id: CallId) returns (step: Step)
    requires Run(steps) && id in End(steps).calls && Work(End(steps).calls[id]) > 0
    ensures Ready(End(steps), step) && !step.SetToken? && !step.Send?
  {
    var c := End(steps);
    RefreshProtocol(steps);
    assert Faithful(c, c.calls[id]);
    var call := c.calls[id];
    if !call.Awaiting? {
      step := Response(id, 200);
    } else if !Outstanding(c.flights[call.flight]) {
      step := Resume(id);
    } else if c.flights[call.flight].Requested? {
      step := RefreshResponse(true);
    } else {
      step := RefreshBody(None);
    }
  }
}

/** The client's module variables, its suspended calls, and the code that runs between awaits. */
module ApiClient {
  import opened Basics
  import opened Refresh

  class Api {
    var accessToken: Option<string>
    var refreshInFlight: Option<nat>
    var flights: seq<Flight>
    var calls: map<CallId, Call>

    ghost function State(): Client
      reads this
    {
      Client(accessToken, refreshInFlight, flights, calls)
    }

    constructor ()
      ensures State() == INITIAL
    {
      accessToken, refreshInFlight, flights, calls := None, None, [], map[];
    }

    method SetAccessToken(token: Option<string>)
      modifies this`accessToken
      ensures State() == Stepped(old(State()), SetToken(token))
    {
      accessToken := token;
    }

    /** apiFetch up to its first await: the request goes out with the token of that moment. */
    method ApiFetch(id: CallId)
      requires Ready(State(), Send(id))
      modifies this`calls
      ensures State() == Stepped(old(State()), Send(id))
      ensures calls == old(calls)[id := FirstOut([accessToken])]
    {
      calls := calls[id := FirstOut([accessToken])];
    }

    /** refresh up to its first await: the flight to wait for, a new one only when there is none. */
    method StartRefresh() returns (k: nat)
      modifies this`refreshInFlight, this`flights
      ensures old(refreshInFlight).Some? ==> k == old(refreshInFlight).value && flights == old(flights) && refreshInFlight == old(refreshInFlight)
      ensures old(refreshInFlight).None? ==>
        k == |old(flights)| && flights == old(flights) + [Requested] && refreshInFlight == Some(k)
    {
      if refreshInFlight.Some? {
        return refreshInFlight.value;
      }
      k := |flights|;
      flights := flights + [Requested];
      refreshInFlight := Some(k);
    }

    /** A response to a call's request. */
    method OnResponse(id: CallId, status: int)
      requires Ready(State(), Response(id, status))
      modifies this`calls, this`refreshInFlight, this`flights
      ensures State() == Stepped(old(State()), Response(id, status))
      ensures old(calls[id]).SecondOut? ==> calls == old(calls)[id := Returned(Some(old(calls[id]).flight), status, old(calls[id]).sent)]
      ensures old(calls[id]).FirstOut? && status != UNAUTHORIZED ==> calls == old(calls)[id := Returned(None, status, old(calls[id]).sent)]
      ensures old(calls[id]).FirstOut? && status == UNAUTHORIZED ==>
        refreshInFlight.Some? && calls == old(calls)[id := Awaiting(refreshInFlight.value, old(calls[id]).sent)]
    {
      var call := calls[id];
      if call.SecondOut? {
        calls := calls[id := Returned(Some(call.flight), status, call.sent)];
        return;
      }
      if status != UNAUTHORIZED {
        calls := calls[id := Returned(None, status, call.sent)];
        return;
      }
      var k := StartRefresh();
      calls := calls[id := Awaiting(k, call.sent)];
    }

    /** The answer to the refresh request; `finally` clears refreshInFlight when it is a refusal. */
    method OnRefreshResponse(ok: bool)
      requires Ready(State(), RefreshResponse(ok))
      modifies this`flights, this`refreshInFlight
      ensures State() == Stepped(old(State()), RefreshResponse(ok))
    {
      var k := refreshInFlight.value;
      if ok {
        flights := flights[k := Reading];
      } else {
        flights := flights[k := Rejected];
        refreshInFlight := None;
      }
    }

    method OnRefreshBody(read: Option<string>)
      requires Ready(State(), RefreshBody(read))
      modifies this`flights, this`refreshInFlight, this`accessToken
      ensures State() == Stepped(old(State()), RefreshBody(read))
      ensures accessToken == (if read.Some? then read else old(accessToken)) && refreshInFlight == None
    {
      var k := refreshInFlight.value;
      if read.Some? {
        SetAccessToken(read);
        flights := flights[k := Fulfilled(read.value)];
      } else {
        flights := flights[k := Rejected];
      }
      refreshInFlight := None;
    }

    /** apiFetch after awaiting its refresh: the retry with the fresh token, or the error. */
    method OnSettled(id: CallId)
      requires Ready(State(), Resume(id))
      modifies this`calls, this`accessToken
      ensures State() == Stepped(old(State()), Resume(id))
      ensures
        var flight := flights[old(calls[id].flight)];
        if flight.Fulfilled? then
          accessToken == old(accessToken) && calls == old(calls)[id := SecondOut(old(calls[id].flight), old(calls[id].sent) + [Some(flight.token)])]
        else accessToken == None && calls == old(calls)[id := ThrewAuth(old(calls[id].flight), old(calls[id].sent))]
    {
      var call := calls[id];
      var outcome := flights[call.flight];
      if outcome.Fulfilled? {
        calls := calls[id := SecondOut(call.flight, call.sent + [Some(outcome.token)])];
      } else {
        SetAccessToken(None);
        calls := calls[id := ThrewAuth(call.flight, call.sent)];
      }
    }
  }
}
