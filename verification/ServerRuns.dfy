// Requests one after another through one router, none beside another, with any
// other operation in between: what the answers of the past mean for the requests
// to come. Verdicts.dfy says what remains of this for requests side by side.

module ServerRuns {
  import opened Wrappers
  import opened Types
  import opened Routing
  import opened RoutingRuns
  import opened Replay
  import opened Server
  import I = Interleaving
  import opened ServerLaws

  // A request with its reply and its sends, or an operation that is no request.
  datatype Happening =
    | Asked(key: string, index: seq<Account>, body: Body, outside: Outside, reply: Reply, sends: seq<Send>)
    | Happened(e: Event)

  function RouteOf(h: Happening): Event
    requires h.Asked?
  {
    DoRoute(h.index, h.key, h.outside.routedAt)
  }

  // The step from s to t: a request goes as the proxy takes it, and every route
  // is part of a request.
  ghost predicate Took(s: RouterState, h: Happening, t: RouterState, policy: Policy) {
    match h
    case Asked(key, index, b, o, reply, sends) => Proxied(s, t, key, index, b, o, policy, reply, sends)
    case Happened(e) => !e.DoRoute? && t == Apply(s, e)
  }

  // The states before, between and after the steps.
  ghost predicate History(states: seq<RouterState>, hs: seq<Happening>, policy: Policy) {
    && |states| == |hs| + 1
    && forall i :: 0 <= i < |hs| ==> Took(states[i], hs[i], states[i + 1], policy)
  }

  // ---------------------------------------------------------------- verdicts

  // What a reply says about the account that was used.
  function VerdictOf(reply: Reply, index: seq<Account>, id: Id, policy: Policy, now: Time): Verdict {
    match reply
    case LoginRequired => Opens(Circuit(ReauthRequired, None))
    case FromUpstream(answer, _, _) =>
      if answer.failure.Some? then Opens(CircuitFor(answer.failure.value, index, id, policy, now))
      else if 200 <= answer.status <= 299 then Closes
      else Silent
    case _ => Silent
  }

  // What a request says about an account.
  function VerdictOn(s: RouterState, h: Happening, policy: Policy, id: Id): Verdict {
    if h.Happened? || Served(s, RouteOf(h)) != Some(id) then Silent
    else VerdictOf(h.reply, h.index, id, policy, h.outside.judgedAt)
  }

  // The step makes a circuit with this deadline go.
  predicate Ends(s: RouterState, h: Happening, c: Circuit) {
    match h
    case Asked(_, _, _, o, _, _) => !s.paused && Due(c, o.routedAt)
    case Happened(e) => e.DoExpire? && Due(c, e.now)
  }

  // An operation that leaves the circuit of the account to its deadline.
  predicate LeavesAlone(h: Happening, id: Id) {
    h.Happened? ==> !Touches(h.e, id) && !h.e.DoRestart?
  }

  // The circuit after a step without verdict.
  function Left(s: RouterState, h: Happening, c: Option<Circuit>): Option<Circuit> {
    if c.Some? && Ends(s, h, c.value) then None else c
  }

  // What an answer to the request of another account leaves of a circuit.
  lemma OutcomeElsewhere(t: RouterState, other: Id, reply: Reply, index: seq<Account>, policy: Policy, now: Time,
                         id: Id, c: Option<Circuit>)
    requires other != id && Carries(t, id, c)
    ensures Carries(Outcome(t, other, reply, index, policy, now), id, c)
  {
    var leased := t.(active := Acquired(t.active, other));
    match reply
    case LoginRequired => OpenedElsewhere(leased, other, ReauthRequired, None, id, c);
    case FromUpstream(answer, _, refused) =>
      if refused { OpenedElsewhere(leased, other, ReauthRequired, None, id, c); }
      JudgedElsewhere(AfterRefusal(leased, other, refused), other, answer, index, policy, now, id, c);
    case _ =>
  }

  lemma OpenedElsewhere(
      t: RouterState, other: Id, reason: CircuitReason, until: Option<Time>, id: Id, c: Option<Circuit>)
    requires other != id && Carries(t, id, c)
    ensures Carries(Opened(t, other, reason, until), id, c)
  {
  }

  lemma JudgedElsewhere(t: RouterState, other: Id, a: Inspected, index: seq<Account>, policy: Policy, now: Time,
                        id: Id, c: Option<Circuit>)
    requires other != id && Carries(t, id, c)
    ensures Carries(Judged(t, other, a, index, policy, now), id, c)
  {
    if a.failure.Some? {
      var d := CircuitFor(a.failure.value, index, other, policy, now);
      OpenedElsewhere(t, other, d.reason, d.until, id, c);
    }
  }

  lemma OutcomeSilent(s: RouterState, t: RouterState, h: Happening, policy: Policy, id: Id)
    requires h.Asked? && Served(s, RouteOf(h)) == Some(id) && VerdictOn(s, h, policy, id).Silent?
    requires Forwarded(id, h.body, h.outside, policy, h.reply, h.sends)
    ensures Outcome(t, id, h.reply, h.index, policy, h.outside.judgedAt).circuits == t.circuits
  {
    if h.reply.FromUpstream? && h.reply.refreshRefused {
      RefusedRefreshIsExpiredToken(id, h.body, h.outside, policy, h.reply, h.sends);
    }
    SilentReply(t, id, h.reply, h.index, policy, h.outside.judgedAt);
  }

  lemma SilentReply(t: RouterState, id: Id, reply: Reply, index: seq<Account>, policy: Policy, now: Time)
    requires !reply.LoginRequired?
    requires reply.FromUpstream? ==>
      !reply.refreshRefused && reply.answer.failure.None? && !(200 <= reply.answer.status <= 299)
    ensures Outcome(t, id, reply, index, policy, now).circuits == t.circuits
  {
  }

  lemma SilentRequest(s: RouterState, h: Happening, t: RouterState, policy: Policy, id: Id, c: Option<Circuit>)
    requires h.Asked? && Took(s, h, t, policy) && VerdictOn(s, h, policy, id).Silent? && Carries(s, id, c)
    ensures Carries(t, id, Left(s, h, c))
  {
    var e := RouteOf(h);
    var routed := Apply(s, e);
    RouteEnds(s, e, id, c);
    match Served(s, e)
    case None =>
    case Some(other) =>
      if other == id {
        OutcomeSilent(s, routed, h, policy, id);
      } else {
        OutcomeElsewhere(routed, other, h.reply, h.index, policy, h.outside.judgedAt, id, Left(s, h, c));
      }
  }

  lemma SilentStep(s: RouterState, h: Happening, t: RouterState, policy: Policy, id: Id, c: Option<Circuit>)
    requires Took(s, h, t, policy) && VerdictOn(s, h, policy, id).Silent? && LeavesAlone(h, id) && Carries(s, id, c)
    ensures Carries(t, id, Left(s, h, c))
  {
    if h.Asked? {
      SilentRequest(s, h, t, policy, id, c);
    } else {
      EventLeavesCircuit(s, h.e, id, c);
    }
  }

  lemma VerdictStep(s: RouterState, h: Happening, t: RouterState, policy: Policy, id: Id)
    requires h.Asked? && Took(s, h, t, policy) && !VerdictOn(s, h, policy, id).Silent?
    ensures var v := VerdictOn(s, h, policy, id); Carries(t, id, if v.Opens? then Some(v.circuit) else None)
  {
    OutcomeCarries(Apply(s, RouteOf(h)), id, h.reply, h.index, policy, h.outside.judgedAt);
  }

  lemma OutcomeCarries(s: RouterState, id: Id, reply: Reply, index: seq<Account>, policy: Policy, now: Time)
    requires !VerdictOf(reply, index, id, policy, now).Silent?
    ensures var v := VerdictOf(reply, index, id, policy, now);
      Carries(Outcome(s, id, reply, index, policy, now), id, if v.Opens? then Some(v.circuit) else None)
  {
  }

  // ---------------------------------------------------------------- the last verdict

  // Step k of the history says nothing about the account and leaves its circuit alone.
  predicate SilentAt(states: seq<RouterState>, hs: seq<Happening>, policy: Policy, k: nat, id: Id)
    requires k < |hs| < |states|
  {
    VerdictOn(states[k], hs[k], policy, id).Silent? && LeavesAlone(hs[k], id)
  }

  // A circuit that was set before step i is ended by one of the steps from i to j.
  ghost predicate EndedBy(states: seq<RouterState>, hs: seq<Happening>, i: nat, j: nat, c: Circuit)
    requires j <= |hs| < |states|
  {
    exists k :: i <= k < j && Ends(states[k], hs[k], c)
  }

  // What is left of it after them.
  ghost function Remains(states: seq<RouterState>, hs: seq<Happening>, i: nat, j: nat, c: Option<Circuit>)
    : Option<Circuit>
    requires j <= |hs| < |states|
  {
    if c.Some? && EndedBy(states, hs, i, j, c.value) then None else c
  }

  lemma RemainsNext(states: seq<RouterState>, hs: seq<Happening>, i: nat, j: nat, c: Option<Circuit>)
    requires i < j <= |hs| < |states|
    ensures Remains(states, hs, i, j, c) == Left(states[j - 1], hs[j - 1], Remains(states, hs, i, j - 1, c))
  {
    if c.Some? && EndedBy(states, hs, i, j, c.value) {
      var k :| i <= k < j && Ends(states[k], hs[k], c.value);
      assert k < j - 1 || k == j - 1;
    }
  }

  lemma SilentNext(
      states: seq<RouterState>, hs: seq<Happening>, policy: Policy, k: nat, id: Id, c: Option<Circuit>)
    requires k < |hs| && History(states, hs, policy) && SilentAt(states, hs, policy, k, id) && Carries(states[k], id, c)
    ensures Carries(states[k + 1], id, Left(states[k], hs[k], c))
  {
    assert Took(states[k], hs[k], states[k + 1], policy);
    SilentStep(states[k], hs[k], states[k + 1], policy, id, c);
  }

  lemma {:induction false} SilentRun(
      states: seq<RouterState>, hs: seq<Happening>, policy: Policy, i: nat, j: nat, id: Id, c: Option<Circuit>)
    requires i <= j <= |hs| && History(states, hs, policy) && Carries(states[i], id, c)
    requires forall k :: i <= k < j ==> SilentAt(states, hs, policy, k, id)
    ensures Carries(states[j], id, Remains(states, hs, i, j, c))
  {
    if i < j {
      SilentRun(states, hs, policy, i, j - 1, id, c);
      SilentNext(states, hs, policy, j - 1, id, Remains(states, hs, i, j - 1, c));
      RemainsNext(states, hs, i, j, c);
    }
  }

  // The circuit of an account is that of the last answer that said something
  // about it, however many requests and operations follow one another: it is open if that
  // answer was a failure, until its deadline passes at a later route or expiry,
  // and closed if it was a success.
  lemma LastVerdictStands(states: seq<RouterState>, hs: seq<Happening>, policy: Policy, i: nat, id: Id)
    requires i < |hs| && History(states, hs, policy) && hs[i].Asked?
    requires !VerdictOn(states[i], hs[i], policy, id).Silent?
    requires forall k :: i < k < |hs| ==> SilentAt(states, hs, policy, k, id)
    ensures var t := states[|hs|];
      match VerdictOn(states[i], hs[i], policy, id)
      case Closes => id !in t.circuits
      case Opens(c) =>
        && (id in t.circuits <==> !EndedBy(states, hs, i + 1, |hs|, c))
        && (id in t.circuits ==> t.circuits[id] == c)
      case Silent => true
  {
    var v := VerdictOn(states[i], hs[i], policy, id);
    VerdictStep(states[i], hs[i], states[i + 1], policy, id);
    SilentRun(states, hs, policy, i + 1, |hs|, id, if v.Opens? then Some(v.circuit) else None);
  }

  // ---------------------------------------------------------------- after a failure

  // The step comes before the deadline, if there is one.
  predicate InTime(h: Happening, c: Circuit) {
    match h
    case Asked(_, _, _, o, _, _) => !Due(c, o.routedAt)
    case Happened(e) => e.DoExpire? ==> !Due(c, e.now)
  }

  lemma BlockedIsNotAsked(s: RouterState, h: Happening, t: RouterState, policy: Policy, id: Id, c: Circuit)
    requires Took(s, h, t, policy) && Remembered(s, id, c) && InTime(h, c) && LeavesAlone(h, id)
    ensures Remembered(t, id, c)
    ensures h.Asked? ==> forall k :: 0 <= k < |h.sends| ==> h.sends[k].account != id
  {
    if h.Asked? {
      QuarantinedIsNotServed(s, RouteOf(h), id);
      match Served(s, RouteOf(h))
      case None =>
      case Some(other) => ForwardedFaithfully(other, h.body, h.outside, policy, h.reply, h.sends);
    }
    SilentStep(s, h, t, policy, id, Some(c));
  }

  lemma {:induction false} BlockedRun(
      states: seq<RouterState>, hs: seq<Happening>, policy: Policy, i: nat, j: nat, id: Id, c: Circuit)
    requires i <= j <= |hs| && History(states, hs, policy) && Remembered(states[i], id, c)
    requires forall k :: i <= k < j ==> InTime(hs[k], c) && LeavesAlone(hs[k], id)
    ensures Remembered(states[j], id, c)
  {
    if i < j {
      BlockedRun(states, hs, policy, i, j - 1, id, c);
      BlockedIsNotAsked(states[j - 1], hs[j - 1], states[j], policy, id, c);
    }
  }

  // After a failed answer no later request sends anything for the account until
  // the deadline of the failure, and never if it has none, whatever is asked and
  // whatever else happens, unless someone opens or closes its circuit, attaches a
  // store, or restarts the process. The requests come one after another.
  lemma FailedAccountIsSentNothing(
      states: seq<RouterState>, hs: seq<Happening>, policy: Policy, i: nat, j: nat, id: Id, c: Circuit)
    requires i < j < |hs| && History(states, hs, policy) && hs[i].Asked? && hs[j].Asked?
    requires VerdictOn(states[i], hs[i], policy, id) == Opens(c)
    requires forall k :: i < k <= j ==> InTime(hs[k], c) && LeavesAlone(hs[k], id)
    ensures forall k :: 0 <= k < |hs[j].sends| ==> hs[j].sends[k].account != id
  {
    VerdictStep(states[i], hs[i], states[i + 1], policy, id);
    BlockedRun(states, hs, policy, i + 1, j, id, c);
    BlockedIsNotAsked(states[j], hs[j], states[j + 1], policy, id, c);
  }

  // ---------------------------------------------------------------- requests side by side

  // A refused refresh is followed by the verdict on the expired token it was for.
  predicate RefusedForExpired(reply: Reply) {
    reply.FromUpstream? && reply.refreshRefused ==>
      reply.answer.failure.Some? && reply.answer.failure.value.kind == TokenExpired
  }

  // From the lease to the verdict ..
  function JudgedAt(s: RouterState, id: Id, reply: Reply, index: seq<Account>, policy: Policy, now: Time): RouterState {
    AfterForward(s.(active := Acquired(s.active, id)), id, reply, index, policy, now)
  }

  lemma RuledIsForwarded(s: RouterState, id: Id, reply: Reply, index: seq<Account>, policy: Policy, now: Time)
    requires RefusedForExpired(reply)
    ensures var refused := reply.FromUpstream? && reply.refreshRefused;
      var t := if refused then Ruled(s, id, Opens(I.REAUTH)) else s;
      Ruled(t, id, VerdictOf(reply, index, id, policy, now)) == AfterForward(s, id, reply, index, policy, now)
    ensures reply.FromUpstream? && reply.refreshRefused ==>
      VerdictOf(reply, index, id, policy, now) == Opens(I.REAUTH)
  {
  }

  lemma VerdictIsRun(s: RouterState, requests: map<nat, I.Phase>, r: nat, key: string, id: Id, reply: Reply,
                     index: seq<Account>, policy: Policy, now: Time)
    requires r in requests && requests[r] == I.RoutedTo(key, id) && RefusedForExpired(reply)
    ensures I.Leads(I.System(s, requests),
                    I.System(JudgedAt(s, id, reply, index, policy, now), requests[r := I.Leased(id, I.Settled)]),
                    I.OfRequests({r}))
  {
    var ok, a, v := I.OfRequests({r}), I.System(s, requests), VerdictOf(reply, index, id, policy, now);
    var leased := s.(active := Acquired(s.active, id));
    var b := I.System(leased, requests[r := I.Leased(id, I.Sending)]);
    RuledIsForwarded(leased, id, reply, index, policy, now);
    I.OneStep(a, I.Leasing(r), ok);
    assert I.Next(a, I.Leasing(r)) == b;
    if reply.FromUpstream? && reply.refreshRefused {
      I.LeadsOn(a, b, I.Refusing(r), ok);
      b := I.System(Ruled(leased, id, Opens(I.REAUTH)), b.requests[r := I.Leased(id, I.Denied)]);
    }
    I.LeadsOn(a, b, I.Judging(r, v), ok);
    assert b.requests[r := I.Leased(id, I.Settled)] == requests[r := I.Leased(id, I.Settled)];
  }

  // .. and to the end of the request, or to its stream: taken alone these are its
  // steps among other requests, without anything in between.
  function Finished(s: RouterState, requests: map<nat, I.Phase>, r: nat, id: Id, reply: Reply, index: seq<Account>,
                    policy: Policy, now: Time): I.System {
    I.System(Outcome(s, id, reply, index, policy, now),
             if KeepsLease(reply) then requests[r := I.Leased(id, I.Settled)] else requests - {r})
  }

  lemma RequestIsRun(s: RouterState, requests: map<nat, I.Phase>, r: nat, key: string, id: Id, reply: Reply,
                     index: seq<Account>, policy: Policy, now: Time)
    requires r in requests && requests[r] == I.RoutedTo(key, id) && RefusedForExpired(reply)
    ensures I.Leads(I.System(s, requests), Finished(s, requests, r, id, reply, index, policy, now), I.OfRequests({r}))
  {
    var d := I.System(JudgedAt(s, id, reply, index, policy, now), requests[r := I.Leased(id, I.Settled)]);
    VerdictIsRun(s, requests, r, key, id, reply, index, policy, now);
    if !KeepsLease(reply) {
      I.LeadsOn(I.System(s, requests), d, I.Dropping(r), I.OfRequests({r}));
      assert d.requests - {r} == requests - {r};
    }
  }

  lemma ServedIsRun(s: RouterState, e: Event, id: Id, reply: Reply, policy: Policy, now: Time,
                    requests: map<nat, I.Phase>, r: nat)
    requires r !in requests && e.DoRoute? && Served(s, e) == Some(id) && RefusedForExpired(reply)
    ensures var routed := requests[r := I.RoutedTo(e.key, id)];
      I.Leads(I.System(s, requests), Finished(Apply(s, e), routed, r, id, reply, e.index, policy, now),
              I.OfRequests({r}))
  {
    var routed := requests[r := I.RoutedTo(e.key, id)];
    var a, b, ok := I.System(s, requests), I.System(Apply(s, e), routed), I.OfRequests({r});
    assert I.Leads(a, b, ok) by { I.RouteIsRun(a, r, e.index, e.key, e.now); }
    var c := Finished(Apply(s, e), routed, r, id, reply, e.index, policy, now);
    assert I.Leads(b, c, ok) by { RequestIsRun(Apply(s, e), routed, r, e.key, id, reply, e.index, policy, now); }
    I.LeadsTrans(a, b, c, ok);
  }

  // The requests after one: it stays while its answer streams.
  function WhileStreaming(requests: map<nat, I.Phase>, r: nat, served: Option<Id>, reply: Reply): map<nat, I.Phase> {
    if served.Some? && KeepsLease(reply) then requests[r := I.Leased(served.value, I.Settled)] else requests
  }

  // So a whole request taken alone is a run of the steps that requests take side
  // by side.
  lemma ProxiedIsRun(
      s: RouterState, t: RouterState, key: string, index: seq<Account>, b: Body, o: Outside, policy: Policy,
      reply: Reply, sends: seq<Send>, requests: map<nat, I.Phase>, r: nat)
    requires r !in requests && Proxied(s, t, key, index, b, o, policy, reply, sends)
    ensures var served := Served(s, DoRoute(index, key, o.routedAt));
      I.Leads(I.System(s, requests), I.System(t, WhileStreaming(requests, r, served, reply)), I.OfRequests({r}))
  {
    var e := DoRoute(index, key, o.routedAt);
    if Served(s, e).None? {
      I.RouteIsRun(I.System(s, requests), r, index, key, o.routedAt);
    } else {
      var id := Served(s, e).value;
      if reply.FromUpstream? && reply.refreshRefused {
        RefusedRefreshIsExpiredToken(id, b, o, policy, reply, sends);
      }
      ServedIsRun(s, e, id, reply, policy, o.judgedAt, requests, r);
      FinishedAfter(Apply(s, e), key, id, reply, index, policy, o.judgedAt, requests, r);
    }
  }

  lemma FinishedAfter(s: RouterState, key: string, id: Id, reply: Reply, index: seq<Account>, policy: Policy,
                      now: Time, requests: map<nat, I.Phase>, r: nat)
    requires r !in requests
    ensures Finished(s, requests[r := I.RoutedTo(key, id)], r, id, reply, index, policy, now) ==
      I.System(Outcome(s, id, reply, index, policy, now), WhileStreaming(requests, r, Some(id), reply))
  {
    var routed := requests[r := I.RoutedTo(key, id)];
    assert routed - {r} == requests;
    assert routed[r := I.Leased(id, I.Settled)] == requests[r := I.Leased(id, I.Settled)];
  }
}
