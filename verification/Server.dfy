// One client request through the proxy (src/proxy/server.rs): route, lease,
// send, bounded replays for the same account, then the circuit of that account.
// Nothing else runs in between; Interleaving.dfy covers requests side by side.

module Server {
  import opened Wrappers
  import opened Types
  import opened Routing
  import opened RoutingRuns
  import opened SharedRouter
  import opened Replay
  import T = Tracker

  const MAX_ERROR_BODY: nat := 1024 * 1024

  datatype FailureKind =
    | TokenExpired | BadCredential | WrongOrganization | LostMembership | BlockedIp
    | Refused403 | TemporaryRateLimit | QuotaGone | UnknownUnauthorized | UnknownRateLimit

  datatype Failure = Failure(kind: FailureKind, retryAfter: Option<nat>)

  // What upstream does with one send. `body` is the length of the body that
  // could be read; the failure classes are those the two kinds of inspection find.
  datatype Answer =
    | Unreachable
    | Response(status: nat, length: Option<nat>, body: Option<nat>, byBody: Failure, byHeaders: Failure)

  datatype Inspected =
    | Streaming(status: nat, failure: Option<Failure>)
    | Buffered(status: nat, failure: Option<Failure>, size: nat)

  datatype Credentials = Credentials(token: string, accountHeader: Option<string>)

  datatype RefreshAnswer = Refreshed | StillValid | NeedsLogin | RefreshFailed

  // Everything outside: the i-th send is answered `upstream(i)`, by which time
  // `pulled(i)` chunks of the client's body were read.
  datatype Outside = Outside(
    upstream: nat -> Answer,
    pulled: nat -> nat,
    credentials: Option<Credentials>,      // the snapshot of the account, None if unreadable
    reread: Option<Credentials>,           // .. read again after a proactive refresh
    renewed: Option<Credentials>,          // .. and after the refresh of a rejected token
    isJwt: string -> bool,
    proactive: RefreshAnswer,
    onRejection: RefreshAnswer,
    routedAt: Time,
    judgedAt: Time)

  datatype Policy = Policy(refreshOnceOn401: bool, fallbackSeconds: nat)

  datatype Send = Send(account: Id, token: string, header: Option<string>, body: seq<Byte>)

  datatype Reply =
    | NoAccount(refusal: RouteResult)                   // 503
    | LoginRequired                                     // 401 made here
    | Failed                                            // 502 made by the caller
    | FromUpstream(answer: Inspected, retries: nat, refreshRefused: bool)

  datatype Stats = Stats(total: nat, failed: nat, upstreamResponses: nat, retries: nat,
                         http401: nat, http403: nat, http429: nat, http5xx: nat)

  function Inspect(a: Answer): Result<Inspected> {
    if a.Unreachable? then Err
    else if a.status !in {401, 403, 429} then Ok(Streaming(a.status, None))
    else if a.length.Some? && a.length.value <= MAX_ERROR_BODY then
      if a.body.None? || a.body.value > MAX_ERROR_BODY then Err
      else Ok(Buffered(a.status, Some(a.byBody), a.body.value))
    else Ok(Streaming(a.status, Some(a.byHeaders)))
  }

  predicate ServerError(a: Answer) {
    a.Response? && 500 <= a.status <= 599
  }

  // ---------------------------------------------------------------- circuits

  function SoonestReset(index: seq<Account>, id: Id): Option<Time> {
    var a := Find(index, id);
    if a.None? then None
    else
      var p, q := ResetOf(a.value.status.primary), ResetOf(a.value.status.secondary);
      var reset := if p <= q then p else q;
      if MIN_TIMESTAMP <= reset <= MAX_TIMESTAMP then Some(reset * SECOND) else None
  }

  function CircuitFor(f: Failure, index: seq<Account>, id: Id, policy: Policy, now: Time): Circuit {
    match f.kind
    case TokenExpired => Circuit(ReauthRequired, None)
    case BadCredential => Circuit(InvalidCredential, None)
    case WrongOrganization => Circuit(OrganizationMismatch, None)
    case LostMembership => Circuit(MembershipRemoved, None)
    case BlockedIp => Circuit(IpAllowlist, None)
    case Refused403 => Circuit(Forbidden, None)
    case QuotaGone => Circuit(QuotaBlocked, None)
    case UnknownUnauthorized => Circuit(Unauthorized, None)
    case _ =>
      var until :=
        if f.retryAfter.Some? then Some(now + f.retryAfter.value * SECOND)
        else if SoonestReset(index, id).Some? then SoonestReset(index, id)
        else if policy.fallbackSeconds > 0 then Some(now + policy.fallbackSeconds * SECOND)
        else None;
      Circuit(CircuitReason.RateLimited, until)
  }

  // What the answer that is passed on does to the circuit of its account.
  function Judged(s: RouterState, id: Id, a: Inspected, index: seq<Account>, policy: Policy, now: Time): RouterState {
    if a.failure.Some? then
      var c := CircuitFor(a.failure.value, index, id, policy, now);
      Opened(s, id, c.reason, c.until)
    else if 200 <= a.status <= 299 then Closed(s, id)
    else s
  }

  // A refused refresh opens the circuit first.
  function AfterRefusal(s: RouterState, id: Id, refused: bool): RouterState {
    if refused then Opened(s, id, ReauthRequired, None) else s
  }

  // ---------------------------------------------------------------- which send is judged

  predicate CanReplay(o: Outside, b: Body, i: nat) {
    Replayable(b, o.pulled(i))
  }

  // After an unreachable first send, the replay takes its place.
  function Reached(o: Outside, b: Body): nat {
    if o.upstream(0).Unreachable? && CanReplay(o, b, 0) then 1 else 0
  }

  // A server error is replayed once.
  function Settled(o: Outside, b: Body): nat {
    var k := Reached(o, b);
    if ServerError(o.upstream(k)) && CanReplay(o, b, k) then k + 1 else k
  }

  predicate Rejected(o: Outside, b: Body, policy: Policy) {
    var m := Settled(o, b);
    && policy.refreshOnceOn401 && Inspect(o.upstream(m)).Ok?
    && Inspect(o.upstream(m)).value.failure.Some?
    && Inspect(o.upstream(m)).value.failure.value.kind == TokenExpired
    && CanReplay(o, b, m)
  }

  predicate Usable(a: RefreshAnswer) {
    a.Refreshed? || a.StillValid?
  }

  predicate Renews(o: Outside, b: Body, policy: Policy) {
    && Rejected(o, b, policy) && Usable(o.onRejection) && o.renewed.Some?
  }

  // The send whose answer decides.
  function LastSend(o: Outside, b: Body, policy: Policy): nat {
    Settled(o, b) + if Renews(o, b, policy) then 1 else 0
  }

  // Every answer that is inspected can be, and a refreshed token can be read back.
  predicate Concludes(o: Outside, b: Body, policy: Policy) {
    && Inspect(o.upstream(Settled(o, b))).Ok? && Inspect(o.upstream(LastSend(o, b, policy))).Ok?
    && (Rejected(o, b, policy) && Usable(o.onRejection) ==> o.renewed.Some?)
  }

  // The sends made, in order: all for one account, all with the whole body.
  ghost predicate Sent(sends: seq<Send>, id: Id, first: Credentials, o: Outside, b: Body, policy: Policy) {
    && |sends| == LastSend(o, b, policy) + 1
    && forall i :: 0 <= i < |sends| ==>
         && sends[i].account == id && sends[i].header == first.accountHeader && sends[i].body == Whole(b)
         && (i <= Settled(o, b) || o.renewed.Some?)
         && sends[i].token == if i <= Settled(o, b) then first.token else o.renewed.value.token
  }

  // The reply carries the answer to the last send.
  ghost predicate Passed(r: Reply, sends: seq<Send>, o: Outside, b: Body, policy: Policy) {
    && sends != [] && r.FromUpstream? && r.retries == |sends| - 1
    && Inspect(o.upstream(|sends| - 1)) == Ok(r.answer)
    && (r.refreshRefused <==> Rejected(o, b, policy) && !Usable(o.onRejection))
  }

  // The token of an expiring login is refreshed before the first send.
  predicate LoginNeeded(o: Outside) {
    o.credentials.Some? && o.isJwt(o.credentials.value.token) && o.proactive == NeedsLogin
  }

  function FirstCredentials(o: Outside): Option<Credentials> {
    if o.credentials.None? then None
    else if o.isJwt(o.credentials.value.token) && o.proactive == Refreshed then
      if o.reread.None? then None
      else Some(Credentials(o.reread.value.token, o.credentials.value.accountHeader))
    else o.credentials
  }

  // What a forwarded request leaves of its account's circuit.
  function AfterForward(s: RouterState, id: Id, r: Reply, index: seq<Account>, policy: Policy, now: Time): RouterState {
    match r
    case LoginRequired => Opened(s, id, ReauthRequired, None)
    case FromUpstream(answer, _, refused) => Judged(AfterRefusal(s, id, refused), id, answer, index, policy, now)
    case _ => s
  }

  // The router after a request that route gave account `id`. A response that
  // still streams keeps its lease.
  function Outcome(s: RouterState, id: Id, r: Reply, index: seq<Account>, policy: Policy, now: Time): RouterState {
    var leased := s.(active := Acquired(s.active, id));
    var t := AfterForward(leased, id, r, index, policy, now);
    if KeepsLease(r) then t else t.(active := Released(t.active, id))
  }

  ghost predicate Forwarded(id: Id, b: Body, o: Outside, policy: Policy, reply: Reply, sends: seq<Send>) {
    && (reply == LoginRequired <==> LoginNeeded(o))
    && (sends != [] <==> !LoginNeeded(o) && FirstCredentials(o).Some?)
    && (reply.FromUpstream? <==> sends != [] && Concludes(o, b, policy))
    && (sends != [] ==> Sent(sends, id, FirstCredentials(o).value, o, b, policy))
    && (reply.FromUpstream? ==> Passed(reply, sends, o, b, policy))
  }

  // At most four sends, all for one account with one body, each but the first a retry.
  lemma ForwardedFaithfully(id: Id, b: Body, o: Outside, policy: Policy, reply: Reply, sends: seq<Send>)
    requires Forwarded(id, b, o, policy, reply, sends)
    ensures |sends| <= 4 && (reply.FromUpstream? ==> reply.retries == |sends| - 1)
    ensures forall i :: 0 <= i < |sends| ==> sends[i].account == id && sends[i].body == Whole(b)
  {
  }

  // A request as a whole: what it does to the router, what it sends, what it answers.
  ghost predicate Proxied(
      before: RouterState, after: RouterState, key: string, index: seq<Account>, b: Body, o: Outside, policy: Policy,
      reply: Reply, sends: seq<Send>)
  {
    var s := AfterRoute(before, index, key, o.routedAt);
    match Served(before, DoRoute(index, key, o.routedAt))
    case None =>
      reply.NoAccount? && Answers(before, index, key, o.routedAt, reply.refusal) && after == s && sends == []
    case Some(id) =>
      && !reply.NoAccount? && after == Outcome(s, id, reply, index, policy, o.judgedAt)
      && Forwarded(id, b, o, policy, reply, sends)
  }

  // No body is a request that could not be read or addressed.
  ghost predicate Handled(
      before: RouterState, after: RouterState, key: string, index: seq<Account>, body: Option<Body>, o: Outside,
      policy: Policy, reply: Reply, sends: seq<Send>)
  {
    match body
    case None => reply == Failed && sends == [] && after == before
    case Some(b) => Proxied(before, after, key, index, b, o, policy, reply, sends)
  }

  predicate KeepsLease(r: Reply) {
    r.FromUpstream? && r.answer.Streaming?
  }

  function Counted(s: Stats, r: Reply): Stats {
    if !r.FromUpstream? then s
    else
      var status := r.answer.status;
      s.(upstreamResponses := s.upstreamResponses + 1, retries := s.retries + r.retries,
         http401 := s.http401 + if status == 401 then 1 else 0,
         http403 := s.http403 + if status == 403 then 1 else 0,
         http429 := s.http429 + if status == 429 then 1 else 0,
         http5xx := s.http5xx + if 500 <= status <= 599 then 1 else 0)
  }

  function Accepted(s: Stats): Stats {
    s.(total := s.total + 1)
  }

  function Concluded(s: Stats, r: Reply): Stats {
    s.(failed := s.failed + if r == Failed then 1 else 0)
  }

  // What a handled request adds to the counters.
  predicate Tallies(before: Stats, after: Stats, r: Reply) {
    && after.total == before.total + 1
    && after.failed == before.failed + (if r.Failed? then 1 else 0)
    && after.upstreamResponses == before.upstreamResponses + (if r.FromUpstream? then 1 else 0)
    && after.retries == before.retries + (if r.FromUpstream? then r.retries else 0)
    && after.http401 == before.http401 + (if r.FromUpstream? && r.answer.status == 401 then 1 else 0)
    && after.http403 == before.http403 + (if r.FromUpstream? && r.answer.status == 403 then 1 else 0)
    && after.http429 == before.http429 + (if r.FromUpstream? && r.answer.status == 429 then 1 else 0)
    && after.http5xx == before.http5xx + (if r.FromUpstream? && 500 <= r.answer.status < 600 then 1 else 0)
  }

  lemma CountsTally(before: Stats, r: Reply)
    ensures Tallies(before, Concluded(Counted(Accepted(before), r), r), r)
  {
  }

  ghost predicate Monotone(o: Outside) {
    forall i, j :: 0 <= i <= j ==> o.pulled(i) <= o.pulled(j)
  }

  class ProxyServer {
    const router: Router
    const tracker: T.ConnectionTracker
    const policy: Policy
    var stats: Stats
    var currentAccount: Option<Id>

    constructor (router: Router, tracker: T.ConnectionTracker, policy: Policy)
      ensures this.router == router && this.tracker == tracker && this.policy == policy
      ensures stats == Stats(0, 0, 0, 0, 0, 0, 0, 0) && currentAccount == None
    {
      this.router, this.tracker, this.policy := router, tracker, policy;
      stats, currentAccount := Stats(0, 0, 0, 0, 0, 0, 0, 0), None;
    }

    // The first send, its replay when upstream was not reached, and the replay of
    // a server error. None is a transport error.
    method SendUntilSettled(id: Id, first: Credentials, b: Body, o: Outside)
      returns (r: Option<Answer>, replay: Option<seq<Byte>>, sends: seq<Send>)
      requires Framed(b) && Monotone(o)
      ensures |sends| == Settled(o, b) + 1
      ensures forall i :: 0 <= i < |sends| ==> sends[i] == Send(id, first.token, first.accountHeader, Whole(b))
      ensures r == if o.upstream(Settled(o, b)).Unreachable? then None else Some(o.upstream(Settled(o, b)))
      ensures r.Some? ==> replay == if CanReplay(o, b, Settled(o, b)) then Some(Whole(b)) else None
    {
      var capture: ReplayCapture;
      if b.Collected? {
        capture := new ReplayCapture.Complete(b.bytes);
      } else {
        capture := new ReplayCapture.Empty(b.contentLength);
      }
      var pulled := 0;
      sends := [Send(id, first.token, first.accountHeader, Whole(b))];
      var answer := o.upstream(0);
      pulled, replay := Read(capture, b, pulled, o.pulled(0));
      if answer.Unreachable? {
        if replay.None? {
          return None, None, sends;
        }
        sends := sends + [Send(id, first.token, first.accountHeader, replay.value)];
        answer := o.upstream(1);
        pulled, replay := Read(capture, b, pulled, o.pulled(1));
        if answer.Unreachable? {
          return None, None, sends;
        }
      }
      if ServerError(answer) && replay.Some? {
        sends := sends + [Send(id, first.token, first.accountHeader, replay.value)];
        answer := o.upstream(|sends| - 1);
        pulled, replay := Read(capture, b, pulled, o.pulled(|sends| - 1));
        if answer.Unreachable? {
          return None, None, sends;
        }
      }
      r := Some(answer);
    }

    // The sends of one leased request, the last after a refresh of the rejected
    // token. None is an error passed to the caller.
    method SendAll(id: Id, first: Credentials, b: Body, o: Outside) returns (r: Option<Reply>, sends: seq<Send>)
      requires Framed(b) && Monotone(o)
      modifies router`circuits, router.store
      ensures Sent(sends, id, first, o, b, policy)
      ensures r.Some? <==> Concludes(o, b, policy)
      ensures r.Some? ==> Passed(r.value, sends, o, b, policy)
      ensures router.State() == AfterRefusal(old(router.State()), id, r.Some? && r.value.refreshRefused)
    {
      var answer, replay;
      answer, replay, sends := SendUntilSettled(id, first, b, o);
      if answer.None? {
        return None, sends;
      }
      var retries := |sends| - 1;
      var inspected := Inspect(answer.value);
      if inspected.Err? {
        return None, sends;
      }
      var refused := false;
      var failure := inspected.value.failure;
      if policy.refreshOnceOn401 && failure.Some? && failure.value.kind == TokenExpired && replay.Some? {
        if Usable(o.onRejection) {
          if o.renewed.None? {
            return None, sends;
          }
          sends := sends + [Send(id, o.renewed.value.token, first.accountHeader, replay.value)];
          inspected := Inspect(o.upstream(|sends| - 1));
          if inspected.Err? {
            return None, sends;
          }
          retries := retries + 1;
        } else {
          router.OpenCircuit(id, ReauthRequired, None);
          refused := true;
        }
      }
      r := Some(FromUpstream(inspected.value, retries, refused));
    }

    // From the lease to the reply.
    method Forward(id: Id, index: seq<Account>, b: Body, o: Outside) returns (reply: Reply, sends: seq<Send>)
      requires Framed(b) && Monotone(o)
      modifies this`stats, router`circuits, router.store
      ensures stats == Counted(old(stats), reply) && !reply.NoAccount?
      ensures router.State() == AfterForward(old(router.State()), id, reply, index, policy, o.judgedAt)
      ensures Forwarded(id, b, o, policy, reply, sends)
    {
      var first := o.credentials;
      if first.None? {
        return Failed, [];
      }
      if o.isJwt(first.value.token) {
        if o.proactive == NeedsLogin {
          router.OpenCircuit(id, ReauthRequired, None);
          return LoginRequired, [];
        }
        if o.proactive == Refreshed {
          if o.reread.None? {
            return Failed, [];
          }
          first := Some(Credentials(o.reread.value.token, first.value.accountHeader));
        }
      }
      var r;
      r, sends := SendAll(id, first.value, b, o);
      if r.None? {
        return Failed, sends;
      }
      reply := r.value;
      Judge(id, reply.answer, index, o.judgedAt);
      stats := Counted(stats, reply);
    }

    // The lease is dropped on every way out but a streaming response.
    method Serve(id: Id, index: seq<Account>, b: Body, o: Outside) returns (reply: Reply, sends: seq<Send>)
      requires Framed(b) && Monotone(o)
      modifies this`currentAccount, this`stats, router`active, router`circuits, router.store
      ensures stats == Counted(old(stats), reply) && !reply.NoAccount? && currentAccount == Some(id)
      ensures router.State() == Outcome(old(router.State()), id, reply, index, policy, o.judgedAt)
      ensures Forwarded(id, b, o, policy, reply, sends)
    {
      router.Acquire(id);
      currentAccount := Some(id);
      reply, sends := Forward(id, index, b, o);
      if !KeepsLease(reply) {
        router.Release(id);
      }
    }

    method ProxyRequest(key: string, index: seq<Account>, b: Body, o: Outside)
      returns (reply: Reply, sends: seq<Send>)
      requires Framed(b) && Monotone(o)
      modifies this`currentAccount, this`stats, router, router.store
      ensures stats == Counted(old(stats), reply)
      ensures Proxied(old(router.State()), router.State(), key, index, b, o, policy, reply, sends)
      ensures Served(old(router.State()), DoRoute(index, key, o.routedAt)).Some? ==>
        currentAccount == Served(old(router.State()), DoRoute(index, key, o.routedAt))
      ensures |sends| <= 4 && (reply.FromUpstream? ==> reply.retries == |sends| - 1)
      ensures forall i :: 0 <= i < |sends| ==>
        && Served(old(router.State()), DoRoute(index, key, o.routedAt)) == Some(sends[i].account)
        && sends[i].body == Whole(b)
    {
      sends := [];
      var decision := router.Route(index, key, o.routedAt);
      ServedIsAnswer(old(router.State()), DoRoute(index, key, o.routedAt), decision);
      if decision.Refused? {
        return NoAccount(decision), [];
      }
      reply, sends := Serve(decision.id, index, b, o);
      ForwardedFaithfully(decision.id, b, o, policy, reply, sends);
    }

    // One request as the connection sees it: tracked while it runs, and counted.
    method HandleRequest(request: Id, metadata: T.Metadata, key: string, index: seq<Account>, body: Option<Body>,
                         o: Outside) returns (reply: Reply, sends: seq<Send>)
      requires (body.Some? ==> Framed(body.value)) && Monotone(o)
      modifies this`currentAccount, this`stats, tracker, router, router.store
      ensures tracker.active == old(tracker.active) + if reply.FromUpstream? && reply.answer.Streaming? then 1 else 0
      ensures tracker.inFlight ==
        if reply.FromUpstream? && reply.answer.Streaming? then old(tracker.inFlight)[request := metadata]
        else old(tracker.inFlight) - {request}
      ensures Tallies(old(stats), stats, reply)
      ensures true == Handled(old(router.State()), router.State(), key, index, body, o, policy, reply, sends)
    {
      ghost var before := stats;
      Accept(request, metadata);
      reply, sends := Answer(key, index, body, o);
      Conclude(request, reply);
      CountsTally(before, reply);
    }

    // Every request is counted and tracked.
    method Accept(request: Id, metadata: T.Metadata)
      modifies this`stats, tracker
      ensures tracker.active == old(tracker.active) + 1
      ensures tracker.inFlight == old(tracker.inFlight)[request := metadata]
      ensures stats == Accepted(old(stats)) && router.State() == old(router.State())
    {
      tracker.TrackRequest(request, metadata);
      stats := stats.(total := stats.total + 1);
    }

    method Answer(key: string, index: seq<Account>, body: Option<Body>, o: Outside)
      returns (reply: Reply, sends: seq<Send>)
      requires (body.Some? ==> Framed(body.value)) && Monotone(o)
      modifies this`currentAccount, this`stats, router, router.store
      ensures stats == Counted(old(stats), reply)
      ensures Handled(old(router.State()), router.State(), key, index, body, o, policy, reply, sends)
    {
      if body.None? {
        reply, sends := Failed, [];
      } else {
        reply, sends := ProxyRequest(key, index, body.value, o);
      }
    }

    // A reply that is not streamed drops its guard; a failure is counted.
    method Conclude(request: Id, reply: Reply)
      requires tracker.active > 0
      modifies this`stats, tracker
      ensures tracker.active == old(tracker.active) - if KeepsLease(reply) then 0 else 1
      ensures tracker.inFlight == if KeepsLease(reply) then old(tracker.inFlight) else old(tracker.inFlight) - {request}
      ensures stats == Concluded(old(stats), reply)
      ensures router.State() == old(router.State())
    {
      if !KeepsLease(reply) {
        tracker.CompleteRequest(request);
      }
      if reply == Failed {
        stats := stats.(failed := stats.failed + 1);
      }
    }

    // A streamed response ends, or is given up: guard and lease are dropped.
    method FinishStream(request: Id, id: Id, completed: bool, failed: bool) returns (partialFailure: bool)
      requires tracker.active > 0
      modifies tracker, router`active
      ensures tracker.active == old(tracker.active) - 1 && tracker.inFlight == old(tracker.inFlight) - {request}
      ensures router.State() == old(router.State()).(active := Released(old(router.active), id))
      ensures partialFailure <==> failed || !completed
    {
      tracker.CompleteRequest(request);
      router.Release(id);
      partialFailure := failed || !completed;
    }

    method Judge(id: Id, a: Inspected, index: seq<Account>, now: Time)
      modifies router`circuits, router.store
      ensures router.State() == Judged(old(router.State()), id, a, index, policy, now)
    {
      if a.failure.Some? {
        var c := CircuitFor(a.failure.value, index, id, policy, now);
        router.OpenCircuit(id, c.reason, c.until);
      } else if 200 <= a.status <= 299 {
        router.CloseCircuit(id);
      }
    }
  }

  // Reads the body up to chunk `to` and asks the capture for a replay.
  method Read(capture: ReplayCapture, b: Body, from: nat, to: nat) returns (pulled: nat, replay: Option<seq<Byte>>)
    requires Framed(b) && Captures(capture, b, from) && (b.Streamed? ==> from <= to)
    modifies capture
    ensures Captures(capture, b, pulled) && (b.Streamed? ==> pulled <= to)
    ensures replay == if Replayable(b, to) then Some(Whole(b)) else None
  {
    pulled := PullTo(capture, b, from, to);
    replay := capture.Replay();
    if b.Streamed? && Replayable(b, to) {
      ReplayableIsComplete(b, to);
    }
  }

  ghost predicate Captures(capture: ReplayCapture, b: Body, pulled: nat)
    reads capture
  {
    match b
    case Collected(bytes) =>
      capture.Valid() && capture.pushed == bytes && !capture.overflow && capture.expected == Some(|bytes|)
    case Streamed(chunks, length) =>
      && capture.Incremental() && pulled <= |chunks|
      && capture.pushed == Concat(chunks[..pulled]) && capture.expected == length
  }
}
