// The router object, with its fields and the store it shares with the daemon.

module SharedRouter {
  import opened Wrappers
  import opened Types
  import opened Sorting
  import opened Storage
  import opened Metadata
  import opened Routing
  import opened Selection
  import opened RoutingRuns

  class Router {
    var config: Config
    var bindings: map<string, Id>
    var circuits: map<Id, Circuit>
    var cursor: nat
    var paused: bool
    var preferred: Option<Id>
    var active: map<Id, nat>
    var store: MetadataStore?

    ghost function State(): RouterState
      reads this, store
    {
      RouterState(config, bindings, circuits, cursor, paused, preferred, active,
                  if store == null then None else Some(store.db))
    }

    constructor (config: Config)
      ensures State() == Fresh(config) && store == null
    {
      this.config := config;
      bindings, circuits, cursor := map[], map[], 0;
      paused, preferred, active, store := false, None, map[], null;
    }

    method AttachStore(s: MetadataStore, now: Time)
      modifies this, s
      ensures State() == Attached(old(State()), old(s.db), now) && store == s
    {
      s.db := PurgeBindings(s.db, now);
      bindings := bindings + LoadedBindings(s.db);
      circuits := circuits + LoadedCircuits(s.db, now);
      store := s;
    }

    method Pause()
      modifies this`paused
      ensures State() == old(State()).(paused := true) == Apply(old(State()), DoPause)
    {
      paused := true;
    }

    method Resume()
      modifies this`paused
      ensures State() == old(State()).(paused := false) == Apply(old(State()), DoResume)
    {
      paused := false;
    }

    method UpdateConfig(newer: Config)
      modifies this`config
      ensures State() == old(State()).(config := newer) == Apply(old(State()), DoConfig(newer))
    {
      config := newer;
    }

    method Prefer(id: Id)
      modifies this`preferred, this`bindings
      ensures State() == Preferred(old(State()), id)
    {
      preferred := Some(id);
      bindings := map[];
    }

    method Unbind(key: string)
      modifies this`bindings, store
      ensures State() == Unbound(old(State()), key)
    {
      bindings := bindings - {key};
      if store != null {
        store.DeleteBinding(key);
      }
    }

    method BindKey(key: string, id: Id, now: Time)
      modifies this`bindings, store
      ensures State() == Bind(old(State()), key, id, now)
    {
      bindings := bindings[key := id];
      if SessionKey(key) && store != null {
        var _ := store.SaveBinding(key, id, now, BINDING_TTL);
      }
    }

    method Acquire(id: Id)
      modifies this`active
      ensures State() == old(State()).(active := Acquired(old(active), id))
    {
      if id !in active {
        active := active[id := 0];
      }
      active := active[id := active[id] + 1];
      assert active == Acquired(old(active), id);
    }

    method Release(id: Id)
      modifies this`active
      ensures State() == old(State()).(active := Released(old(active), id))
    {
      if id in active {
        var count := if active[id] == 0 then 0 else active[id] - 1;
        active := active[id := count];
        if count == 0 {
          active := active - {id};
        }
        assert active == Released(old(active), id);
      }
    }

    method OpenCircuit(id: Id, reason: CircuitReason, until: Option<Time>)
      modifies this`circuits, store
      ensures State() == Opened(old(State()), id, reason, until)
    {
      circuits := circuits[id := Circuit(reason, until)];
      if store != null {
        store.SaveCircuit(id, ReasonName(reason), until);
      }
    }

    method CloseCircuit(id: Id)
      modifies this`circuits, store
      ensures State() == Closed(old(State()), id)
    {
      circuits := circuits - {id};
      if store != null {
        store.ClearCircuit(id);
      }
    }

    // Drops the due circuits first, then clears each in the store.
    method ExpireCircuits(now: Time)
      modifies this`circuits, store
      ensures State() == Expired(old(State()), now)
    {
      ghost var due := DueIds(State(), now);
      var expired: set<Id> := {};
      var rest := circuits.Keys;
      while rest != {}
        invariant rest <= old(circuits.Keys) && State() == old(State()).(circuits := circuits)
        invariant expired == due - rest && circuits == old(circuits) - expired
      {
        var id := Next(rest);
        if Due(circuits[id], now) {
          expired := expired + {id};
          circuits := circuits - {id};
        }
        rest := rest - {id};
      }
      assert expired == due;
      if store != null {
        ClearNothing(store.db);
        ghost var cleared: set<Id> := {};
        while expired != {}
          invariant cleared + expired == due
          invariant store.db == ClearCircuits(old(store.db), cleared)
          invariant circuits == old(circuits) - due
        {
          var id := Next(expired);
          ClearTwice(old(store.db), cleared, {id});
          store.ClearCircuit(id);
          expired := expired - {id};
          cleared := cleared + {id};
        }
      }
    }

    method FilterEligible(index: seq<Account>, now: Time) returns (eligible: seq<Account>)
      ensures eligible == Candidates(State(), index, now)
    {
      eligible := [];
      for i := 0 to |index|
        invariant eligible == Candidates(State(), index[..i], now)
      {
        assert index[..i + 1][..i] == index[..i];
        if Qualifies(index[i], false, now) {
          eligible := eligible + [index[i]];
        }
      }
      assert index[..|index|] == index;
    }

    predicate Qualifies(a: Account, bound: bool, now: Time)
      reads this, store
      ensures Qualifies(a, bound, now) == Eligible(State(), a, bound, now)
    {
      && a.enabled && a.proxyEnabled && a.tenantId == "local" && a.status.kind == Live
      && a.id !in circuits
      && (a.concurrencyLimit == 0 || ActiveCount(active, a.id) < a.concurrencyLimit)
      && a.status.checkedAt.Some? && now - a.status.checkedAt.value <= FRESHNESS
      && (bound || (a.status.primary.Some? && a.status.primary.value.usedPercent < config.threshold))
    }

    method Unavailable(index: seq<Account>, now: Time, why: Refusal) returns (r: RouteResult)
      ensures Explains(State(), index, now, r, why)
    {
      var earliest := EarliestReset(index, now);
      earliest := EarliestEnd(QuotaRecoveries(index, now), earliest);
      r := Refused(why, RetryAfter(earliest, now), earliest);
    }

    // The earliest quota reset ahead in the pool ..
    static method EarliestReset(index: seq<Account>, now: Time) returns (earliest: Option<Time>)
      ensures IsEarliest(QuotaRecoveries(index, now), earliest)
    {
      earliest := None;
      for i := 0 to |index|
        invariant true == IsEarliest(QuotaRecoveries(index[..i], now), earliest)
      {
        assert index[..i + 1][..i] == index[..i];
        if index[i].proxyEnabled {
          var primary, secondary := index[i].status.primary, index[i].status.secondary;
          ghost var seen := QuotaRecoveries(index[..i], now);
          earliest := Sooner(seen, earliest, QuotaRecovery(primary, now));
          earliest := Sooner(seen + Instants(QuotaRecovery(primary, now)), earliest, QuotaRecovery(secondary, now));
          AddTwo(seen, Instants(QuotaRecovery(primary, now)), Instants(QuotaRecovery(secondary, now)));
        }
      }
      assert index[..|index|] == index;
    }

    // .. or deadline of a circuit, whichever comes first.
    method EarliestEnd(ghost quotas: set<Time>, reset: Option<Time>) returns (earliest: Option<Time>)
      requires IsEarliest(quotas, reset)
      ensures IsEarliest(quotas + CircuitRecoveries(circuits), earliest)
    {
      earliest := reset;
      var rest := circuits.Keys;
      ghost var seen: map<Id, Circuit> := map[];
      assert quotas + CircuitRecoveries(seen) == quotas;
      while rest != {}
        invariant rest <= circuits.Keys && seen == circuits - rest
        invariant true == IsEarliest(quotas + CircuitRecoveries(seen), earliest)
      {
        var id := Next(rest);
        RecoveriesExtend(quotas, seen, id, circuits[id]);
        earliest := Sooner(quotas + CircuitRecoveries(seen), earliest, circuits[id].until);
        seen := seen[id := circuits[id]];
        rest := rest - {id};
      }
      assert seen == circuits;
    }

    // The eligible accounts with the least priority value.
    method Tier(index: seq<Account>, now: Time) returns (tier: seq<Account>)
      ensures tier == BestTier(State(), index, now)
    {
      var eligible := FilterEligible(index, now);
      if eligible == [] {
        return [];
      }
      var sorted := Sort(eligible, RouteOrder);
      RouteOrderIsTotal();
      SortBySorts(eligible, RouteOrder);
      tier := OfPriority(sorted, sorted[0].priority);
    }

    // The account for a key without binding; None when nothing is eligible.
    method SelectNew(index: seq<Account>, ghost key: string, now: Time) returns (c: Option<(Id, Why)>)
      requires key !in bindings
      modifies this`cursor
      ensures c.None? ==> BestTier(old(State()), index, now) == [] && State() == old(State())
      ensures c.Some? ==>
        && Choose(old(State()), index, key, now) == New(c.value.0, c.value.1)
        && State() == Advanced(old(State()), index, now, New(c.value.0, c.value.1))
    {
      var tier := Tier(index, now);
      if tier == [] {
        return None;
      }
      if preferred.Some? && Find(tier, preferred.value).Some? {
        c := Some((preferred.value, Manual));
      } else if config.strategy == RoundRobin {
        c := Some((tier[cursor % |tier|].id, ByStrategy(RoundRobin)));
        cursor := (cursor + 1) % |tier|;
      } else {
        var best := MaxBy(tier, config.strategy, now);
        c := Some((best.id, ByStrategy(config.strategy)));
      }
    }

    method Route(index: seq<Account>, key: string, now: Time) returns (r: RouteResult)
      modifies this`bindings, this`circuits, this`cursor, store
      ensures State() == AfterRoute(old(State()), index, key, now)
      ensures Answers(old(State()), index, key, now, r)
    {
      if paused {
        return Refused(Paused, 1, None);
      }
      ExpireCircuits(now);
      ghost var e := State();
      if key in bindings {
        var found := Find(index, bindings[key]);
        if found.Some? && Qualifies(found.value, true, now) {
          return Routed(bindings[key], Sticky);
        }
        r := Unavailable(index, now, BoundUnavailable);
        return;
      }

      var c := SelectNew(index, key, now);
      if c.None? {
        r := Unavailable(index, now, if AnyInPool(index) then NoneEligible else EmptyPool);
        return;
      }
      BindKey(key, c.value.0, now);
      r := Routed(c.value.0, c.value.1);
    }
  }

  method MaxBy(tier: seq<Account>, strategy: Strategy, now: Time) returns (best: Account)
    requires tier != []
    ensures best == LastBest(tier, strategy, now)
  {
    best := tier[0];
    for i := 1 to |tier|
      invariant best == LastBest(tier[..i], strategy, now)
    {
      assert tier[..i + 1][..i] == tier[..i];
      if Score(strategy, best, now) <= Score(strategy, tier[i], now) {
        best := tier[i];
      }
    }
    assert tier[..|tier|] == tier;
  }

  // The minimum of what was seen and of at most one more instant.
  method Sooner(ghost seen: set<Time>, earliest: Option<Time>, more: Option<Time>) returns (sooner: Option<Time>)
    requires IsEarliest(seen, earliest)
    ensures IsEarliest(seen + Instants(more), sooner)
  {
    sooner := earliest;
    if more.Some? && (earliest.None? || more.value < earliest.value) {
      sooner := more;
    }
    assert more.None? ==> seen + Instants(more) == seen;
  }

  lemma RecoveriesExtend(quotas: set<Time>, circuits: map<Id, Circuit>, id: Id, c: Circuit)
    requires id !in circuits
    ensures quotas + CircuitRecoveries(circuits[id := c]) == quotas + CircuitRecoveries(circuits) + Instants(c.until)
  {
    var more := circuits[id := c];
    forall t | t in CircuitRecoveries(circuits) ensures t in CircuitRecoveries(more) {
      var i :| i in circuits && circuits[i].until == Some(t);
      assert i in more && more[i].until == Some(t);
    }
    if c.until.Some? { assert id in more && more[id].until == c.until; }
    assert CircuitRecoveries(more) == CircuitRecoveries(circuits) + Instants(c.until);
  }

  lemma AddTwo(seen: set<Time>, a: set<Time>, b: set<Time>)
    ensures seen + a + b == seen + (a + b)
  {
  }

  lemma ClearNothing(db: Db)
    ensures ClearCircuits(db, {}) == db
  {
    assert ClearCircuits(db, {}).runtime == db.runtime;
  }

  lemma ClearTwice(db: Db, ids: set<Id>, more: set<Id>)
    ensures ClearCircuits(ClearCircuits(db, ids), more) == ClearCircuits(db, ids + more)
  {
    assert ClearCircuits(ClearCircuits(db, ids), more).runtime == ClearCircuits(db, ids + more).runtime;
  }
}
