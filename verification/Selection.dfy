// Which account a new key gets, for every index and every router state.

module Selection {
  import opened Wrappers
  import opened Types
  import opened Sorting
  import opened Routing

  lemma RouteOrderIsTotal()
    ensures TotalPreorder(RouteOrder)
  {
  }

  lemma {:induction false} InCandidates(s: RouterState, index: seq<Account>, now: Time, a: Account)
    ensures a in Candidates(s, index, now) <==> a in index && Eligible(s, a, false, now)
  {
    if index != [] {
      var n := |index| - 1;
      InCandidates(s, index[..n], now, a);
      assert index == index[..n] + [index[n]];
    }
  }

  lemma {:induction false} InOfPriority(xs: seq<Account>, priority: int, a: Account)
    ensures a in OfPriority(xs, priority) <==> a in xs && a.priority == priority
  {
    if xs != [] {
      var n := |xs| - 1;
      InOfPriority(xs[..n], priority, a);
      assert xs == xs[..n] + [xs[n]];
    }
  }

  lemma {:induction false} OfPrioritySorted(xs: seq<Account>, priority: int)
    requires Sorted(xs, RouteOrder)
    ensures Sorted(OfPriority(xs, priority), RouteOrder)
  {
    if xs != [] {
      var n := |xs| - 1;
      var rest := OfPriority(xs[..n], priority);
      OfPrioritySorted(xs[..n], priority);
      forall i | 0 <= i < |rest| ensures RouteOrder(rest[i], xs[n]) {
        InOfPriority(xs[..n], priority, rest[i]);
        assert rest[i] in rest && rest[i] in xs[..n];
        var k :| 0 <= k < n && xs[..n][k] == rest[i];
        assert RouteOrder(xs[k], xs[n]);
      }
    }
  }

  ghost predicate IsBest(s: RouterState, index: seq<Account>, now: Time, a: Account) {
    && a in index && Eligible(s, a, false, now)
    && forall b :: b in index && Eligible(s, b, false, now) ==> a.priority <= b.priority
  }

  lemma InSorted(xs: seq<Account>, a: Account)
    ensures a in SortBy(xs, RouteOrder) <==> a in xs
  {
    RouteOrderIsTotal();
    SortBySorts(xs, RouteOrder);
    assert a in SortBy(xs, RouteOrder) <==> a in multiset(xs);
  }

  // Of some accounts, the tier holds exactly those of the least priority value.
  lemma InTierOf(eligible: seq<Account>, a: Account)
    ensures a in TierOf(eligible) <==> a in eligible && forall b :: b in eligible ==> a.priority <= b.priority
  {
    var sorted := SortBy(eligible, RouteOrder);
    RouteOrderIsTotal();
    SortBySorts(eligible, RouteOrder);
    InSorted(eligible, a);
    if sorted == [] {
      assert eligible == [];
    } else {
      var first := sorted[0];
      InOfPriority(sorted, first.priority, a);
      InSorted(eligible, first);
      forall b | b in eligible ensures first.priority <= b.priority {
        InSorted(eligible, b);
        var k :| 0 <= k < |sorted| && sorted[k] == b;
        assert k == 0 || RouteOrder(sorted[0], sorted[k]);
      }
    }
  }

  // The best tier holds exactly the eligible accounts of the least priority value.
  lemma InBestTier(s: RouterState, index: seq<Account>, now: Time, a: Account)
    ensures a in BestTier(s, index, now) <==> IsBest(s, index, now, a)
  {
    InTierOf(Candidates(s, index, now), a);
    forall b ensures b in Candidates(s, index, now) <==> b in index && Eligible(s, b, false, now) {
      InCandidates(s, index, now, b);
    }
  }

  lemma BestTierIsSorted(s: RouterState, index: seq<Account>, now: Time)
    ensures Sorted(BestTier(s, index, now), RouteOrder)
    ensures forall i, j :: 0 <= i < j < |BestTier(s, index, now)| ==>
      BestTier(s, index, now)[i].id.bits <= BestTier(s, index, now)[j].id.bits
  {
    var tier := BestTier(s, index, now);
    RouteOrderIsTotal();
    SortBySorts(Candidates(s, index, now), RouteOrder);
    var sorted := SortBy(Candidates(s, index, now), RouteOrder);
    if sorted != [] {
      OfPrioritySorted(sorted, sorted[0].priority);
    }
    forall i, j | 0 <= i < j < |tier| ensures tier[i].id.bits <= tier[j].id.bits {
      assert tier[i] in tier && tier[j] in tier && RouteOrder(tier[i], tier[j]);
      InBestTier(s, index, now, tier[i]);
      InBestTier(s, index, now, tier[j]);
    }
  }

  // An index without duplicates gives a tier without duplicates.
  lemma {:induction false} CandidatesDistinct(s: RouterState, index: seq<Account>, now: Time)
    requires DistinctIds(index)
    ensures DistinctIds(Candidates(s, index, now))
  {
    if index != [] {
      var n := |index| - 1;
      CandidatesDistinct(s, index[..n], now);
      forall a | a in Candidates(s, index[..n], now) ensures a.id != index[n].id {
        InCandidates(s, index[..n], now, a);
        var i :| 0 <= i < n && index[..n][i] == a;
        assert index[i] == a;
      }
      AppendDistinct(Candidates(s, index[..n], now), index[n]);
    }
  }

  lemma AppendDistinct(xs: seq<Account>, a: Account)
    requires DistinctIds(xs) && forall x :: x in xs ==> x.id != a.id
    ensures DistinctIds(xs + [a])
  {
    assert forall i :: 0 <= i < |xs| ==> xs[i] in xs;
  }

  lemma {:induction false} OfPriorityDistinct(xs: seq<Account>, priority: int)
    requires DistinctIds(xs)
    ensures DistinctIds(OfPriority(xs, priority))
  {
    if xs != [] {
      var n := |xs| - 1;
      OfPriorityDistinct(xs[..n], priority);
      forall a | a in OfPriority(xs[..n], priority) ensures a.id != xs[n].id {
        InOfPriority(xs[..n], priority, a);
        var i :| 0 <= i < n && xs[..n][i] == a;
        assert xs[i] == a;
      }
      AppendDistinct(OfPriority(xs[..n], priority), xs[n]);
    }
  }

  lemma {:induction false} DistinctInsert(xs: seq<Account>, a: Account)
    requires DistinctIds(xs) && forall x :: x in xs ==> x.id != a.id
    ensures DistinctIds(Insert(xs, a, RouteOrder))
  {
    if xs == [] || RouteOrder(xs[|xs| - 1], a) {
      AppendDistinct(xs, a);
    } else {
      var n := |xs| - 1;
      DistinctInsert(xs[..n], a);
      InsertPermutes(xs[..n], a, RouteOrder);
      forall x | x in Insert(xs[..n], a, RouteOrder) ensures x.id != xs[n].id {
        assert x in multiset(Insert(xs[..n], a, RouteOrder));
        assert x == a || x in xs[..n];
        if x != a {
          var i :| 0 <= i < n && xs[..n][i] == x;
          assert xs[i] == x;
        } else {
          assert xs[n] in xs;
        }
      }
      AppendDistinct(Insert(xs[..n], a, RouteOrder), xs[n]);
    }
  }

  lemma {:induction false} SortDistinct(xs: seq<Account>)
    requires DistinctIds(xs)
    ensures DistinctIds(SortBy(xs, RouteOrder))
  {
    if xs != [] {
      var n := |xs| - 1;
      SortDistinct(xs[..n]);
      forall x | x in SortBy(xs[..n], RouteOrder) ensures x.id != xs[n].id {
        InSorted(xs[..n], x);
        var i :| 0 <= i < n && xs[..n][i] == x;
        assert xs[i] == x;
      }
      DistinctInsert(SortBy(xs[..n], RouteOrder), xs[n]);
    }
  }

  lemma TierIsDistinct(s: RouterState, index: seq<Account>, now: Time)
    requires DistinctIds(index)
    ensures DistinctIds(BestTier(s, index, now))
  {
    CandidatesDistinct(s, index, now);
    SortDistinct(Candidates(s, index, now));
    var sorted := SortBy(Candidates(s, index, now), RouteOrder);
    if sorted != [] { OfPriorityDistinct(sorted, sorted[0].priority); }
  }

  // Whatever the preference and the strategy, an account of the tier is picked.
  lemma PickedInTier(s: RouterState, tier: seq<Account>, now: Time) returns (a: Account)
    requires tier != []
    ensures a in tier && a.id == Picked(s, tier, now).id
  {
    if s.preferred.Some? { Finds(tier, s.preferred.value); }
    var k := LastBestIsLastBest(tier, s.config.strategy, now);
    assert tier[k] in tier && tier[s.cursor % |tier|] in tier;
    a :| a in tier && a.id == Picked(s, tier, now).id;
  }

  // The tier is empty exactly when nothing is eligible.
  lemma TierOfEligible(s: RouterState, index: seq<Account>, now: Time)
    ensures BestTier(s, index, now) != [] <==> exists a :: a in index && Eligible(s, a, false, now)
  {
    var cs := Candidates(s, index, now);
    RouteOrderIsTotal();
    SortBySorts(cs, RouteOrder);
    var sorted := SortBy(cs, RouteOrder);
    if sorted == [] {
      forall a ensures !(a in index && Eligible(s, a, false, now)) {
        InCandidates(s, index, now, a);
        assert a !in cs;
      }
    } else {
      assert sorted[0] in sorted;
      InSorted(cs, sorted[0]);
      InCandidates(s, index, now, sorted[0]);
      InOfPriority(sorted, sorted[0].priority, sorted[0]);
    }
  }

  lemma {:induction false} LastBestIsLastBest(tier: seq<Account>, strategy: Strategy, now: Time) returns (k: nat)
    requires tier != []
    ensures k < |tier| && LastBest(tier, strategy, now) == tier[k]
    ensures forall i :: 0 <= i < |tier| ==> Score(strategy, tier[i], now) <= Score(strategy, tier[k], now)
    ensures forall i :: k < i < |tier| ==> Score(strategy, tier[i], now) < Score(strategy, tier[k], now)
  {
    var n := |tier| - 1;
    k := n;
    if n > 0 {
      var j := LastBestIsLastBest(tier[..n], strategy, now);
      if Score(strategy, tier[j], now) > Score(strategy, tier[n], now) { k := j; }
      assert forall i :: 0 <= i < n ==> tier[..n][i] == tier[i];
    }
  }

  lemma {:induction false} Finds(index: seq<Account>, id: Id)
    ensures Find(index, id).Some? <==> exists a :: a in index && a.id == id
    ensures Find(index, id).Some? ==> Find(index, id).value in index && Find(index, id).value.id == id
  {
    if index != [] {
      Finds(index[1..], id);
      assert index == [index[0]] + index[1..];
      if index[0].id == id { assert index[0] in index; }
    }
  }

  // The account a scored strategy picks: none scores higher, and of equal
  // scores it has the greatest id.
  ghost predicate TopScored(s: RouterState, index: seq<Account>, now: Time, a: Account) {
    && IsBest(s, index, now, a)
    && forall b :: IsBest(s, index, now, b) ==>
         var x, y := Score(s.config.strategy, b, now), Score(s.config.strategy, a, now);
         x < y || (x == y && b.id.bits <= a.id.bits)
  }

  lemma ScoredChoice(s: RouterState, index: seq<Account>, now: Time)
    requires BestTier(s, index, now) != []
    ensures TopScored(s, index, now, LastBest(BestTier(s, index, now), s.config.strategy, now))
  {
    var tier := BestTier(s, index, now);
    var k := LastBestIsLastBest(tier, s.config.strategy, now);
    assert tier[k] in tier;
    InBestTier(s, index, now, tier[k]);
    BestTierIsSorted(s, index, now);
    forall b | IsBest(s, index, now, b)
      ensures var x, y := Score(s.config.strategy, b, now), Score(s.config.strategy, tier[k], now);
        x < y || (x == y && b.id.bits <= tier[k].id.bits)
    {
      InBestTier(s, index, now, b);
      var i :| 0 <= i < |tier| && tier[i] == b;
      assert i <= k || Score(s.config.strategy, tier[i], now) < Score(s.config.strategy, tier[k], now);
    }
  }

  // ---------------------------------------------------------------- what an account is worth

  // Fit for a request at this moment, for a new key or for a bound one.
  predicate Healthy(s: RouterState, a: Account, newKey: bool, now: Time) {
    && a.enabled && a.proxyEnabled && a.tenantId == "local"
    && a.status.kind == Live && a.status.checkedAt.Some? && now <= a.status.checkedAt.value + 90 * SECOND
    && (a.id in s.circuits ==> s.circuits[a.id].until.Some? && s.circuits[a.id].until.value <= now)
    && (a.concurrencyLimit > 0 ==> a.id !in s.active || s.active[a.id] < a.concurrencyLimit)
    && (newKey ==> a.status.primary.Some? && a.status.primary.value.usedPercent < s.config.threshold)
  }

  lemma HealthyIsEligible(s: RouterState, a: Account, newKey: bool, now: Time)
    ensures Healthy(s, a, newKey, now) <==> Eligible(Expired(s, now), a, !newKey, now)
  {
  }

  // Of the healthy accounts of the index, one of the least priority value.
  ghost predicate Foremost(s: RouterState, index: seq<Account>, now: Time, a: Account) {
    && a in index && Healthy(s, a, true, now)
    && forall b :: b in index && Healthy(s, b, true, now) ==> a.priority <= b.priority
  }

  lemma ForemostIsBest(s: RouterState, index: seq<Account>, now: Time, a: Account)
    ensures Foremost(s, index, now, a) <==> IsBest(Expired(s, now), index, now, a)
  {
    forall b ensures Healthy(s, b, true, now) <==> Eligible(Expired(s, now), b, false, now) {
      HealthyIsEligible(s, b, true, now);
    }
  }

  // What is left of the account: the greatest of nothing and what its quota
  // windows have left, in percent.
  ghost predicate HasLeft(a: Account, x: real) {
    var p, q := a.status.primary, a.status.secondary;
    && 0.0 <= x && (p.Some? ==> 100.0 - p.value.usedPercent <= x) && (q.Some? ==> 100.0 - q.value.usedPercent <= x)
    && (x == 0.0 || (p.Some? && x == 100.0 - p.value.usedPercent) || (q.Some? && x == 100.0 - q.value.usedPercent))
  }

  // A quota window of the account resets at this second.
  predicate WindowResets(a: Account, t: int) {
    || (a.status.primary.Some? && a.status.primary.value.resetsAt == Some(t))
    || (a.status.secondary.Some? && a.status.secondary.value.resetsAt == Some(t))
  }

  // .. half an hour ahead at most.
  ghost predicate ResetsSoon(a: Account, now: Time) {
    exists t :: WindowResets(a, t) && (t - 1800) * SECOND <= now
  }

  // What a scored strategy makes of it: five percent more before a reset.
  ghost predicate IsWorth(strategy: Strategy, a: Account, now: Time, x: real) {
    match strategy
    case MaxRemaining => HasLeft(a, x)
    case Smart => HasLeft(a, x - if ResetsSoon(a, now) then 5.0 else 0.0)
    case RoundRobin => false
  }

  // The clock shows a date.
  predicate Dated(now: Time) {
    now <= 8_210_266_876_799 * SECOND
  }

  lemma ResetsSoonIff(a: Account, now: Time)
    requires Dated(now)
    ensures var p, q := ResetOf(a.status.primary), ResetOf(a.status.secondary);
      ResetsSoon(a, now) <==> (if p <= q then p else q) - Seconds(now) <= 1800
  {
    var p, q := ResetOf(a.status.primary), ResetOf(a.status.secondary);
    var first := if p <= q then p else q;
    if first - Seconds(now) <= 1800 {
      HalfAnHour(first, now);
      assert WindowResets(a, first);
    }
    if ResetsSoon(a, now) {
      var t :| WindowResets(a, t) && (t - 1800) * SECOND <= now;
      HalfAnHour(t, now);
      assert first <= t;
    }
  }

  lemma HalfAnHour(t: int, now: Time)
    ensures (t - 1800) * SECOND <= now <==> t - Seconds(now) <= 1800
  {
  }

  lemma WorthIsScore(strategy: Strategy, a: Account, now: Time, x: real)
    requires strategy != RoundRobin && (strategy == Smart ==> Dated(now))
    ensures IsWorth(strategy, a, now, x) <==> x == Score(strategy, a, now)
  {
    if strategy == Smart { ResetsSoonIff(a, now); }
  }

  // None of the foremost accounts is worth more, and of those worth as much it
  // has the greatest id.
  ghost predicate MostWorth(s: RouterState, index: seq<Account>, now: Time, a: Account) {
    && Foremost(s, index, now, a)
    && exists y :: IsWorth(s.config.strategy, a, now, y)
         && forall b, x :: Foremost(s, index, now, b) && IsWorth(s.config.strategy, b, now, x) ==>
              x < y || (x == y && b.id.bits <= a.id.bits)
  }

  lemma TopIsMostWorth(s: RouterState, index: seq<Account>, now: Time, a: Account)
    requires TopScored(Expired(s, now), index, now, a)
    requires s.config.strategy != RoundRobin && (s.config.strategy == Smart ==> Dated(now))
    ensures MostWorth(s, index, now, a)
  {
    var strategy := s.config.strategy;
    var y := Score(strategy, a, now);
    ForemostIsBest(s, index, now, a);
    WorthIsScore(strategy, a, now, y);
    forall b, x | Foremost(s, index, now, b) && IsWorth(strategy, b, now, x)
      ensures x < y || (x == y && b.id.bits <= a.id.bits)
    {
      ForemostIsBest(s, index, now, b);
      WorthIsScore(strategy, b, now, x);
    }
  }

  // ---------------------------------------------------------------- answers

  // Routing a key without binding succeeds exactly when routing is not paused
  // and some account is healthy. The account taken is healthy and of the least
  // priority value among the healthy; it is the preferred one when that is among
  // those, and otherwise, under a scored strategy, one that is worth most.
  lemma UnboundRoute(s: RouterState, index: seq<Account>, key: string, now: Time, r: RouteResult)
    requires key !in s.bindings && Answers(s, index, key, now, r)
    ensures r.Routed? <==> !s.paused && exists a :: a in index && Healthy(s, a, true, now)
    ensures r.Routed? ==>
      && (exists a: Account :: a.id == r.id && Foremost(s, index, now, a))
      && (r.why == Manual <==>
            s.preferred.Some? && exists a: Account :: a.id == s.preferred.value && Foremost(s, index, now, a))
      && (r.why == Manual ==> r.id == s.preferred.value)
      && (r.why == ByStrategy(MaxRemaining) || (r.why == ByStrategy(Smart) && Dated(now)) ==>
            exists a: Account :: a.id == r.id && MostWorth(s, index, now, a))
      && (r.why.ByStrategy? ==> r.why.strategy == s.config.strategy)
      && r.why != Sticky
  {
    if !s.paused {
      var e := Expired(s, now);
      var tier := BestTier(e, index, now);
      forall a ensures Foremost(s, index, now, a) <==> a in tier {
        ForemostIsBest(s, index, now, a);
        InBestTier(e, index, now, a);
      }
      SomeHealthy(s, index, now);
      if tier != [] {
        if s.preferred.Some? { Finds(tier, s.preferred.value); }
        var a := PickedInTier(e, tier, now);
        ScoredChoice(e, index, now);
        var best := LastBest(tier, s.config.strategy, now);
        if s.config.strategy != RoundRobin && (s.config.strategy == Smart ==> Dated(now)) {
          TopIsMostWorth(s, index, now, best);
        }
      }
    }
  }

  lemma SomeHealthy(s: RouterState, index: seq<Account>, now: Time)
    ensures BestTier(Expired(s, now), index, now) != [] <==> exists a :: a in index && Healthy(s, a, true, now)
  {
    TierOfEligible(Expired(s, now), index, now);
    forall a ensures Healthy(s, a, true, now) <==> Eligible(Expired(s, now), a, false, now) {
      HealthyIsEligible(s, a, true, now);
    }
  }

  // The first account of the index with an identifier.
  ghost predicate IsFirst(index: seq<Account>, id: Id, a: Account) {
    exists i :: 0 <= i < |index| && index[i] == a && a.id == id && forall j :: 0 <= j < i ==> index[j].id != id
  }

  lemma {:induction false} FindsFirst(index: seq<Account>, id: Id, a: Account)
    ensures Find(index, id) == Some(a) <==> IsFirst(index, id, a)
  {
    if index != [] {
      var rest := index[1..];
      FindsFirst(rest, id, a);
      if index[0].id == id {
        if IsFirst(index, id, a) {
          var i :| 0 <= i < |index| && index[i] == a && a.id == id && forall j :: 0 <= j < i ==> index[j].id != id;
          assert i == 0;
        }
      } else {
        if IsFirst(rest, id, a) {
          var i :| 0 <= i < |rest| && rest[i] == a && a.id == id && forall j :: 0 <= j < i ==> rest[j].id != id;
          assert index[i + 1] == a && forall j :: 0 <= j < i + 1 ==> j == 0 || index[j] == rest[j - 1];
        }
        if IsFirst(index, id, a) {
          var i :| 0 <= i < |index| && index[i] == a && a.id == id && forall j :: 0 <= j < i ==> index[j].id != id;
          assert i > 0 && rest[i - 1] == a && forall j :: 0 <= j < i - 1 ==> rest[j] == index[j + 1];
        }
      }
    }
  }

  // A bound key is answered with its account or refused; it never moves.
  lemma BoundRoute(s: RouterState, index: seq<Account>, key: string, now: Time, r: RouteResult)
    requires key in s.bindings && Answers(s, index, key, now, r)
    ensures r.Routed? ==> r == Routed(s.bindings[key], Sticky)
    ensures r.Routed? <==>
      !s.paused && exists a :: IsFirst(index, s.bindings[key], a) && Healthy(s, a, false, now)
    ensures !s.paused && r.Refused? ==> r.reason == BoundUnavailable
    ensures AfterRoute(s, index, key, now).bindings == s.bindings
  {
    var found := Find(index, s.bindings[key]);
    if found.Some? {
      FindsFirst(index, s.bindings[key], found.value);
      HealthyIsEligible(s, found.value, false, now);
    }
    forall a | IsFirst(index, s.bindings[key], a) ensures found == Some(a) {
      FindsFirst(index, s.bindings[key], a);
    }
  }

  // ---------------------------------------------------------------- refusals

  // An instant at which a route may succeed again: a quota window of an account
  // of the pool resets, or a circuit that is not due ends.
  ghost predicate Recovers(s: RouterState, index: seq<Account>, now: Time, t: Time) {
    || (exists id :: id in s.circuits && s.circuits[id].until == Some(t) && now < t)
    || PoolRecovers(index, now, t)
  }

  ghost predicate PoolRecovers(index: seq<Account>, now: Time, t: Time) {
    exists a, u :: a in index && a.proxyEnabled && WindowResets(a, u) && t == u * SECOND && now < t
                   && -8_334_601_228_800 <= u <= 8_210_266_876_799
  }

  // The wait in whole seconds, and at least one of them.
  predicate WaitsFor(seconds: nat, wait: int) {
    if wait < 2 * SECOND then seconds == 1 else seconds * SECOND <= wait < seconds * SECOND + SECOND
  }

  // A refusal names the soonest recovery there is and asks to wait for it, or for
  // half a minute if there is none; of an unbound key it says whether the pool is
  // empty. While paused it asks for a second.
  lemma RefusalHint(s: RouterState, index: seq<Account>, key: string, now: Time, r: RouteResult)
    requires Answers(s, index, key, now, r) && r.Refused?
    ensures r.reason == Paused <==> s.paused
    ensures s.paused ==> r.retryAfter == 1 && r.recovery.None?
    ensures !s.paused && r.recovery.None? ==> r.retryAfter == 30 && forall t :: !Recovers(s, index, now, t)
    ensures !s.paused && r.recovery.Some? ==>
      && Recovers(s, index, now, r.recovery.value) && WaitsFor(r.retryAfter, r.recovery.value - now)
      && forall t :: Recovers(s, index, now, t) ==> r.recovery.value <= t
    ensures !s.paused && key !in s.bindings ==>
      r.reason == if exists a :: a in index && a.proxyEnabled then NoneEligible else EmptyPool
  {
    if !s.paused {
      forall t ensures Recovers(s, index, now, t) <==>
        t in QuotaRecoveries(index, now) + CircuitRecoveries(Expired(s, now).circuits)
      {
        RecoveryIff(s, index, now, t);
      }
      assert (exists a :: a in index && a.proxyEnabled) <==> AnyInPool(index);
    }
  }

  lemma RecoveryIff(s: RouterState, index: seq<Account>, now: Time, t: Time)
    ensures Recovers(s, index, now, t) <==>
      t in QuotaRecoveries(index, now) + CircuitRecoveries(Expired(s, now).circuits)
  {
    var e := Expired(s, now);
    PoolRecoveryIff(index, now, t);
    if id :| id in s.circuits && s.circuits[id].until == Some(t) && now < t {
      assert id !in DueIds(s, now) && id in e.circuits;
    }
    if t in CircuitRecoveries(e.circuits) {
      var id :| id in e.circuits && e.circuits[id].until == Some(t);
      assert id !in DueIds(s, now);
    }
  }

  lemma {:induction false} PoolRecoveryIff(index: seq<Account>, now: Time, t: Time)
    ensures t in QuotaRecoveries(index, now) <==> PoolRecovers(index, now, t)
  {
    if index != [] {
      var n := |index| - 1;
      PoolRecoveryIff(index[..n], now, t);
      assert index == index[..n] + [index[n]];
      AccountRecoveryIff(index[n], now, t);
    }
  }

  lemma AccountRecoveryIff(a: Account, now: Time, t: Time)
    ensures t in Instants(QuotaRecovery(a.status.primary, now)) + Instants(QuotaRecovery(a.status.secondary, now)) <==>
      exists u :: WindowResets(a, u) && t == u * SECOND && now < t && -8_334_601_228_800 <= u <= 8_210_266_876_799
  {
    var p, q := QuotaRecovery(a.status.primary, now), QuotaRecovery(a.status.secondary, now);
    if p == Some(t) { assert WindowResets(a, a.status.primary.value.resetsAt.value); }
    if q == Some(t) { assert WindowResets(a, a.status.secondary.value.resetsAt.value); }
  }
}
