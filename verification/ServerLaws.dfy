// What every proxied request promises: when a body is replayed and which answer
// is passed on, and the circuit the account is left with.

module ServerLaws {
  import opened Wrappers
  import opened Types
  import opened Routing
  import opened Selection
  import opened Replay
  import opened Server

  // A streamed body that is too long, or whose length was not announced, is sent once.
  lemma UnreplayableIsSentOnce(id: Id, b: Body, o: Outside, policy: Policy, reply: Reply, sends: seq<Send>)
    requires Forwarded(id, b, o, policy, reply, sends) && Framed(b) && b.Streamed?
    requires |Whole(b)| > 33_554_432 || b.contentLength.None?
    ensures |sends| <= 1
  {
    forall i: nat ensures !CanReplay(o, b, i) {
      if CanReplay(o, b, i) { ReplayableIsComplete(b, o.pulled(i)); }
    }
    assert !CanReplay(o, b, 0);
  }

  // What is read of a response: a rejection is classified by its body if that is
  // announced to fit into a mebibyte, and by its headers otherwise; a body that
  // cannot be read or does not fit after all is an error.
  predicate ReadFrom(x: Inspected, a: Answer) {
    && a.Response? && x.status == a.status
    && var fits := a.length.Some? && a.length.value <= 1_048_576;
       if a.status == 401 || a.status == 403 || a.status == 429 then
         if fits then x.Buffered? && x.failure == Some(a.byBody) && a.body == Some(x.size) && x.size <= 1_048_576
         else x.Streaming? && x.failure == Some(a.byHeaders)
       else x.Streaming? && x.failure.None?
  }

  lemma InspectReads(a: Answer)
    ensures Inspect(a).Ok? ==> ReadFrom(Inspect(a).value, a)
    ensures Inspect(a).Err? ==> forall x :: !ReadFrom(x, a)
  {
  }

  predicate IsServerError(a: Answer) {
    a.Response? && 500 <= a.status < 600
  }

  // The response rejects an expired token.
  ghost predicate IsExpiredToken(a: Answer) {
    exists x :: ReadFrom(x, a) && x.failure.Some? && x.failure.value.kind.TokenExpired?
  }

  // Why an answer was not passed on: upstream was not reached, failed, or
  // rejected an expired token; and the body could be replayed.
  ghost predicate Retried(o: Outside, b: Body, i: nat) {
    && CanReplay(o, b, i)
    && (o.upstream(i).Unreachable? || IsServerError(o.upstream(i)) || IsExpiredToken(o.upstream(i)))
  }

  lemma ExpiredTokenIs(a: Answer)
    ensures IsExpiredToken(a) <==>
      Inspect(a).Ok? && Inspect(a).value.failure.Some? && Inspect(a).value.failure.value.kind.TokenExpired?
  {
    InspectReads(a);
    if x :| ReadFrom(x, a) && x.failure.Some? && x.failure.value.kind.TokenExpired? {
      assert Inspect(a).Ok?;
    }
  }

  // The last answer is passed on and every earlier one was worth a retry. A
  // server error or an expired token is passed on only if it cannot be replayed
  // or that was done once: a server error for a response before it, an expired
  // token after a renewal or a refused refresh.
  lemma LastAnswerIsFinal(id: Id, b: Body, o: Outside, policy: Policy, reply: Reply, sends: seq<Send>)
    requires Forwarded(id, b, o, policy, reply, sends) && reply.FromUpstream?
    ensures var n := |sends| - 1;
      && ReadFrom(reply.answer, o.upstream(n))
      && (forall i :: 0 <= i < n ==> Retried(o, b, i))
      && (IsServerError(o.upstream(n)) && CanReplay(o, b, n) ==> exists i :: 0 <= i < n && o.upstream(i).Response?)
      && (IsExpiredToken(o.upstream(n)) && policy.refreshOnceOn401 && CanReplay(o, b, n) ==>
            reply.refreshRefused || RenewedAt(o, sends, n))
      && (reply.refreshRefused ==>
            IsExpiredToken(o.upstream(n)) && (o.onRejection.NeedsLogin? || o.onRejection.RefreshFailed?))
  {
    var n, k, m := |sends| - 1, Reached(o, b), Settled(o, b);
    InspectReads(o.upstream(n));
    ExpiredTokenIs(o.upstream(n));
    ExpiredTokenIs(o.upstream(m));
    assert n == LastSend(o, b, policy) && k <= m <= n;
    assert k == 1 ==> Retried(o, b, 0);
    assert m > k ==> Retried(o, b, k) && o.upstream(k).Response?;
    assert n > m ==> Retried(o, b, m) && o.upstream(m).Response?;
    assert !ServerError(o.upstream(k)) || !CanReplay(o, b, k) || m > k;
  }

  // The last send goes out with the token read back after a refresh.
  predicate RenewedAt(o: Outside, sends: seq<Send>, n: nat)
    requires n < |sends|
  {
    n > 0 && (o.onRejection.Refreshed? || o.onRejection.StillValid?)
    && o.renewed.Some? && sends[n].token == o.renewed.value.token
  }

  // A refused refresh is reported with the rejection it followed.
  lemma RefusedRefreshIsExpiredToken(id: Id, b: Body, o: Outside, policy: Policy, reply: Reply, sends: seq<Send>)
    requires Forwarded(id, b, o, policy, reply, sends) && reply.FromUpstream? && reply.refreshRefused
    ensures reply.answer.failure.Some? && reply.answer.failure.value.kind == TokenExpired
  {
  }

  // The circuit of the account at the end of a request that got an answer: open
  // for a 401, 403 or 429, closed on success, otherwise as it was. Without an
  // answer it is as it was. Why it is blocked follows from the failure, and so
  // does until when. No other circuit, no binding and no preference changes.
  lemma FinalCircuit(
      s: RouterState, id: Id, b: Body, o: Outside, policy: Policy, reply: Reply, sends: seq<Send>, index: seq<Account>)
    requires Forwarded(id, b, o, policy, reply, sends) && sends != []
    ensures var t := Outcome(s, id, reply, index, policy, o.judgedAt);
      && t.bindings == s.bindings && t.preferred == s.preferred && t.circuits - {id} == s.circuits - {id}
      && (if reply.FromUpstream? && reply.answer.status in {401, 403, 429} then
            && reply.answer.failure.Some? && id in t.circuits
            && Blocks(t.circuits[id], reply.answer.failure.value, index, id, policy, o.judgedAt)
          else if reply.FromUpstream? && 200 <= reply.answer.status <= 299 then
            id !in t.circuits
          else
            t.circuits == s.circuits)
  {
    var t := AfterForward(s.(active := Acquired(s.active, id)), id, reply, index, policy, o.judgedAt);
    if reply.FromUpstream? {
      FailureIffRejection(o.upstream(|sends| - 1));
      if reply.refreshRefused { RefusedRefreshIsExpiredToken(id, b, o, policy, reply, sends); }
      JudgedCircuit(s.(active := Acquired(s.active, id)), id, reply.answer, index, policy, o.judgedAt,
                    reply.refreshRefused);
    }
  }

  // A 401, 403 or 429 is always a classified failure, so a success never is.
  lemma FailureIffRejection(a: Answer)
    requires Inspect(a).Ok?
    ensures Inspect(a).value.failure.Some? <==> a.status in {401, 403, 429}
    ensures Inspect(a).value.status == a.status
  {
  }

  lemma JudgedCircuit(
      s: RouterState, id: Id, a: Inspected, index: seq<Account>, policy: Policy, now: Time, refused: bool)
    requires refused ==> a.failure.Some?
    ensures var t := Judged(AfterRefusal(s, id, refused), id, a, index, policy, now);
      && t.bindings == s.bindings && t.preferred == s.preferred && t.circuits - {id} == s.circuits - {id}
      && (a.failure.Some? ==>
            && id in t.circuits && Blocks(t.circuits[id], a.failure.value, index, id, policy, now))
      && (a.failure.None? && 200 <= a.status <= 299 ==> id !in t.circuits)
      && (a.failure.None? && !(200 <= a.status <= 299) ==> t.circuits == s.circuits)
  {
    if a.failure.Some? {
      BlocksAs(a.failure.value, index, id, policy, now);
      var c := CircuitFor(a.failure.value, index, id, policy, now);
      var s1 := AfterRefusal(s, id, refused);
      assert s1.circuits - {id} == s.circuits - {id};
      assert s1.circuits[id := c] - {id} == s1.circuits - {id};
    } else {
      assert s.circuits - {id} - {id} == s.circuits - {id};
    }
  }

  ghost predicate FirstReset(a: Account, t: int) {
    WindowResets(a, t) && forall u :: WindowResets(a, u) ==> t <= u
  }

  // The first account with the identifier first resets at this second, and that
  // is an instant.
  ghost predicate AccountResets(index: seq<Account>, id: Id, t: int) {
    && -8_334_601_228_800 <= t <= 8_210_266_876_799
    && exists a :: IsFirst(index, id, a) && FirstReset(a, t)
  }

  // How long a rate limit blocks: as long as upstream asks, or until the account
  // resets, or for the fallback time, or without end.
  ghost predicate Waits(until: Option<Time>, f: Failure, index: seq<Account>, id: Id, policy: Policy, now: Time) {
    if f.retryAfter.Some? then until == Some(now + f.retryAfter.value * SECOND)
    else
      && (forall t :: AccountResets(index, id, t) ==> until == Some(t * SECOND))
      && ((forall t :: !AccountResets(index, id, t)) ==>
            until == if policy.fallbackSeconds > 0 then Some(now + policy.fallbackSeconds * SECOND) else None)
  }

  // Why an account is blocked, and until when: by itself a block ends only after
  // a rate limit.
  ghost predicate Blocks(c: Circuit, f: Failure, index: seq<Account>, id: Id, policy: Policy, now: Time) {
    && (f.kind.TokenExpired? ==> c.reason == ReauthRequired)
    && (f.kind.BadCredential? ==> c.reason == InvalidCredential)
    && (f.kind.WrongOrganization? ==> c.reason == OrganizationMismatch)
    && (f.kind.LostMembership? ==> c.reason == MembershipRemoved)
    && (f.kind.BlockedIp? ==> c.reason == IpAllowlist)
    && (f.kind.Refused403? ==> c.reason == Forbidden)
    && (f.kind.QuotaGone? ==> c.reason == QuotaBlocked)
    && (f.kind.UnknownUnauthorized? ==> c.reason == Unauthorized)
    && (if f.kind.TemporaryRateLimit? || f.kind.UnknownRateLimit? then
          c.reason == CircuitReason.RateLimited && Waits(c.until, f, index, id, policy, now)
        else c.until.None?)
  }

  lemma ResetIsFirst(index: seq<Account>, id: Id)
    ensures forall t :: AccountResets(index, id, t) ==> SoonestReset(index, id) == Some(t * SECOND)
    ensures SoonestReset(index, id).Some? ==> exists t :: AccountResets(index, id, t)
  {
    var found := Find(index, id);
    if found.Some? {
      var a := found.value;
      FindsFirst(index, id, a);
      var p, q := ResetOf(a.status.primary), ResetOf(a.status.secondary);
      var first := if p <= q then p else q;
      if MIN_TIMESTAMP <= first <= MAX_TIMESTAMP {
        assert FirstReset(a, first);
        assert AccountResets(index, id, first);
      }
    }
    forall t | AccountResets(index, id, t) ensures SoonestReset(index, id) == Some(t * SECOND) {
      var a :| IsFirst(index, id, a) && FirstReset(a, t);
      FindsFirst(index, id, a);
      var p, q := ResetOf(a.status.primary), ResetOf(a.status.secondary);
      var first := if p <= q then p else q;
      assert WindowResets(a, t) && first <= t;
      assert WindowResets(a, first);
    }
  }

  lemma BlocksAs(f: Failure, index: seq<Account>, id: Id, policy: Policy, now: Time)
    ensures Blocks(CircuitFor(f, index, id, policy, now), f, index, id, policy, now)
  {
    ResetIsFirst(index, id);
  }

  // Every lease that is taken is given back: at once, or when the stream ends.
  lemma LeaseIsReturned(s: RouterState, id: Id, reply: Reply, index: seq<Account>, policy: Policy, now: Time)
    requires id in s.active ==> s.active[id] > 0
    ensures var t := Outcome(s, id, reply, index, policy, now);
      if reply.FromUpstream? && reply.answer.Streaming? then
        ActiveCount(t.active, id) == ActiveCount(s.active, id) + 1 && Released(t.active, id) == s.active
      else t.active == s.active
  {
    var leased := Acquired(s.active, id);
    assert Released(leased, id) == s.active by {
      if id in s.active {
        assert leased[id := leased[id] - 1] == s.active;
      } else {
        assert leased - {id} == s.active;
      }
    }
  }
}
