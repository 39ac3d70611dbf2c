// Whole runs of the router, the store it writes, and process restarts. Here one
// route is one step; Interleaving.dfy splits it.

module RoutingRuns {
  import opened Wrappers
  import opened Types
  import opened Storage
  import opened Routing
  import opened Selection

  datatype Event =
    | DoRoute(index: seq<Account>, key: string, now: Time)
    | DoOpen(id: Id, reason: CircuitReason, until: Option<Time>)
    | DoClose(id: Id)
    | DoExpire(now: Time)
    | DoAcquire(id: Id)
    | DoRelease(id: Id)
    | DoPause
    | DoResume
    | DoConfig(config: Config)
    | DoPrefer(id: Id)
    | DoUnbind(key: string)
    | DoReplace(index: seq<Account>)          // the daemon replaces the stored accounts
    | DoReconcile(index: seq<Account>)
    | DoAttach(db: Db, now: Time)             // a store is attached
    | DoRestart(config: Config, now: Time)    // a new process on the same store

  function WithDb(s: RouterState, d: Option<Db>): RouterState {
    if d.Some? then s.(store := d) else s
  }

  function Apply(s: RouterState, e: Event): RouterState {
    match e
    case DoRoute(index, key, now) => AfterRoute(s, index, key, now)
    case DoOpen(id, reason, until) => Opened(s, id, reason, until)
    case DoClose(id) => Closed(s, id)
    case DoExpire(now) => Expired(s, now)
    case DoAcquire(id) => s.(active := Acquired(s.active, id))
    case DoRelease(id) => s.(active := Released(s.active, id))
    case DoPause => s.(paused := true)
    case DoResume => s.(paused := false)
    case DoConfig(config) => s.(config := config)
    case DoPrefer(id) => Preferred(s, id)
    case DoUnbind(key) => Unbound(s, key)
    case DoReplace(index) => if s.store.Some? then WithDb(s, Replaced(s.store.value, index)) else s
    case DoReconcile(index) => if s.store.Some? then WithDb(s, Reconciled(s.store.value, index)) else s
    case DoAttach(db, now) => Attached(s, db, now)
    case DoRestart(config, now) =>
      if s.store.Some? then Attached(Fresh(config), s.store.value, now) else Fresh(config)
  }

  function After(s: RouterState, es: seq<Event>): RouterState {
    if es == [] then s else Apply(After(s, es[..|es| - 1]), es[|es| - 1])
  }

  lemma AfterNext(s: RouterState, es: seq<Event>, i: nat)
    requires i < |es|
    ensures After(s, es[..i + 1]) == Apply(After(s, es[..i]), es[i])
  {
    assert es[..i + 1][..i] == es[..i];
  }

  // The account a route event is answered with.
  function Served(s: RouterState, e: Event): Option<Id> {
    if !e.DoRoute? || s.paused then None
    else
      match Choose(Expired(s, e.now), e.index, e.key, e.now)
      case Bound(id) => Some(id)
      case New(id, _) => Some(id)
      case NoChoice(_) => None
  }

  lemma ServedIsAnswer(s: RouterState, e: Event, r: RouteResult)
    requires e.DoRoute? && Answers(s, e.index, e.key, e.now, r)
    ensures Served(s, e) == if r.Routed? then Some(r.id) else None
  {
  }

  // ---------------------------------------------------------------- sessions never migrate

  // The events after which a key may be served by another account.
  predicate Rebinds(e: Event, key: string) {
    || (e.DoUnbind? && e.key == key)
    || e.DoPrefer? || e.DoAttach? || e.DoRestart?
  }

  lemma BindingKept(s: RouterState, e: Event, key: string)
    requires key in s.bindings && !Rebinds(e, key)
    ensures key in Apply(s, e).bindings && Apply(s, e).bindings[key] == s.bindings[key]
  {
  }

  predicate BoundTo(s: RouterState, key: string, id: Id) {
    key in s.bindings && s.bindings[key] == id
  }

  lemma {:induction false} BindingStays(s: RouterState, es: seq<Event>, i: nat, j: nat, key: string, id: Id)
    requires i <= j <= |es| && BoundTo(After(s, es[..i]), key, id)
    requires forall k :: i <= k < j ==> !Rebinds(es[k], key)
    ensures BoundTo(After(s, es[..j]), key, id)
  {
    if i < j {
      BindingStays(s, es, i, j - 1, key, id);
      AfterNext(s, es, j - 1);
      BindingKept(After(s, es[..j - 1]), es[j - 1], key);
    }
  }

  lemma ServedBinds(s: RouterState, e: Event)
    requires Served(s, e).Some?
    ensures e.key in Apply(s, e).bindings && Apply(s, e).bindings[e.key] == Served(s, e).value
    ensures e.key in s.bindings ==> Served(s, e).value == s.bindings[e.key]
  {
  }

  // Event i of the run routes the key, and to this account.
  predicate ServedAt(s: RouterState, es: seq<Event>, i: nat, key: string, id: Id) {
    && i < |es| && es[i].DoRoute? && es[i].key == key
    && Served(After(s, es[..i]), es[i]) == Some(id)
  }

  // Two successful routes of one key give the same account, whatever else
  // happens between them, unless that key was unbound, a preference was set, or
  // a store was attached, as a restart does.
  lemma SessionsNeverMigrate(s: RouterState, es: seq<Event>, i: nat, j: nat, key: string, a: Id, b: Id)
    requires i < j && ServedAt(s, es, i, key, a) && ServedAt(s, es, j, key, b)
    requires forall k :: i < k < j ==> !Rebinds(es[k], key)
    ensures a == b
  {
    ServedBinds(After(s, es[..i]), es[i]);
    AfterNext(s, es, i);
    BindingStays(s, es, i + 1, j, key, a);
    ServedBinds(After(s, es[..j]), es[j]);
  }

  // ---------------------------------------------------------------- quarantine

  // The events that set, lift or overlay the circuit of an account.
  predicate Touches(e: Event, id: Id) {
    || ((e.DoOpen? || e.DoClose?) && e.id == id)
    || e.DoAttach?
  }

  predicate Before(e: Event, until: Option<Time>) {
    until.Some? && (e.DoRoute? || e.DoExpire? || e.DoRestart?) ==> e.now < until.value
  }

  // The replacement at this point removes the account from the store.
  predicate Drops(s: RouterState, e: Event, id: Id) {
    e.DoReplace? && s.store.Some? && Replaced(s.store.value, e.index).Some? && id !in Ids(e.index)
  }

  predicate Remembered(s: RouterState, id: Id, c: Circuit) {
    id in s.circuits && s.circuits[id] == c
  }

  predicate Recorded(s: RouterState, id: Id, c: Circuit) {
    && s.store.Some? && id in s.store.value.runtime
    && s.store.value.runtime[id].circuitReason == Some(ReasonName(c.reason))
    && s.store.value.runtime[id].circuitUntil == c.until
  }

  predicate Unrecorded(s: RouterState, id: Id) {
    s.store.None? || id !in s.store.value.runtime || s.store.value.runtime[id].circuitReason.None?
  }

  lemma {:induction false} UpsertAllCircuit(db: Db, index: seq<Account>, id: Id)
    requires UpsertAll(db, index).Some?
    ensures var d := UpsertAll(db, index).value;
      && (id in db.runtime ==>
            && id in d.runtime && d.runtime[id].circuitReason == db.runtime[id].circuitReason
            && d.runtime[id].circuitUntil == db.runtime[id].circuitUntil)
      && (id !in db.runtime && id in d.runtime ==> d.runtime[id].circuitReason.None?)
      && (db.accounts.Keys <= d.accounts.Keys && Ids(index) <= d.accounts.Keys)
      && (d.accounts.Keys <= db.accounts.Keys + Ids(index))
      && (id in Ids(index) ==> id in d.runtime)
  {
    if index != [] {
      UpsertAllCircuit(db, index[..|index| - 1], id);
    }
  }

  lemma {:induction false} InsertMissingCircuit(db: Db, index: seq<Account>, id: Id)
    requires InsertMissing(db, index).Some?
    ensures var d := InsertMissing(db, index).value;
      && (id in db.runtime ==>
            && id in d.runtime && d.runtime[id].circuitReason == db.runtime[id].circuitReason
            && d.runtime[id].circuitUntil == db.runtime[id].circuitUntil)
      && (id !in db.runtime && id in d.runtime ==> d.runtime[id].circuitReason.None?)
  {
    if index != [] {
      InsertMissingCircuit(db, index[..|index| - 1], id);
    }
  }

  // A stored circuit belongs to a stored account, as the foreign key demands.
  ghost predicate Keyed(s: RouterState) {
    s.store.Some? ==> s.store.value.runtime.Keys == s.store.value.accounts.Keys
  }

  lemma ReplaceKeepsCircuit(db: Db, index: seq<Account>, id: Id)
    requires Replaced(db, index).Some? && db.runtime.Keys == db.accounts.Keys
    ensures var d := Replaced(db, index).value;
      if id in Ids(index) then
        && id in d.runtime
        && (id in db.runtime ==>
              && d.runtime[id].circuitReason == db.runtime[id].circuitReason
              && d.runtime[id].circuitUntil == db.runtime[id].circuitUntil)
        && (id !in db.runtime ==> d.runtime[id].circuitReason.None?)
      else id !in d.runtime
  {
    UpsertAllCircuit(db, index, id);
    UpsertAllKeyed(db, index);
  }

  lemma {:induction false} UpsertAllKeyed(db: Db, index: seq<Account>)
    requires UpsertAll(db, index).Some? && db.runtime.Keys == db.accounts.Keys
    ensures UpsertAll(db, index).value.runtime.Keys == UpsertAll(db, index).value.accounts.Keys
  {
    if index != [] {
      UpsertAllKeyed(db, index[..|index| - 1]);
    }
  }

  lemma {:induction false} InsertMissingKeyed(db: Db, index: seq<Account>)
    requires InsertMissing(db, index).Some? && db.runtime.Keys == db.accounts.Keys
    ensures InsertMissing(db, index).value.runtime.Keys == InsertMissing(db, index).value.accounts.Keys
  {
    if index != [] {
      InsertMissingKeyed(db, index[..|index| - 1]);
    }
  }

  lemma ExpiryKeepsCircuit(s: RouterState, now: Time, id: Id, c: Circuit)
    requires c.until.Some? ==> now < c.until.value
    ensures Remembered(s, id, c) ==> Remembered(Expired(s, now), id, c)
    ensures id !in s.circuits ==> id !in Expired(s, now).circuits
    ensures Remembered(s, id, c) || id !in s.circuits ==> Recorded(s, id, c) ==> Recorded(Expired(s, now), id, c)
    ensures Unrecorded(s, id) ==> Unrecorded(Expired(s, now), id)
  {
  }

  lemma RouteKeepsCircuit(s: RouterState, e: Event, id: Id, c: Circuit)
    requires e.DoRoute? && Before(e, c.until)
    ensures Remembered(s, id, c) ==> Remembered(Apply(s, e), id, c)
    ensures id !in s.circuits ==> id !in Apply(s, e).circuits
    ensures Remembered(s, id, c) || id !in s.circuits ==> Recorded(s, id, c) ==> Recorded(Apply(s, e), id, c)
    ensures Unrecorded(s, id) ==> Unrecorded(Apply(s, e), id)
  {
    ExpiryKeepsCircuit(s, e.now, id, c);
    RouteLeavesCircuits(s, e.index, e.key, e.now);
  }

  // `t` is `s` but for bindings, in memory or stored, and the cursor.
  ghost predicate OnlyBinds(s: RouterState, t: RouterState) {
    && t.circuits == s.circuits && t.store.Some? == s.store.Some?
    && (t.store.Some? ==> t.store.value.runtime == s.store.value.runtime
                          && t.store.value.accounts == s.store.value.accounts)
  }

  lemma BindOnlyBinds(s: RouterState, index: seq<Account>, c: Choice, key: string, now: Time)
    requires c.New?
    ensures OnlyBinds(s, Bind(Advanced(s, index, now, c), key, c.id, now))
  {
    var y := Advanced(s, index, now, c);
    assert y.store == s.store && y.circuits == s.circuits;
  }

  // Past the expiry a route writes bindings and the cursor only.
  lemma RouteLeavesCircuits(s: RouterState, index: seq<Account>, key: string, now: Time)
    ensures OnlyBinds(if s.paused then s else Expired(s, now), AfterRoute(s, index, key, now))
  {
    if !s.paused {
      var e := Expired(s, now);
      var c := Choose(e, index, key, now);
      if c.New? { BindOnlyBinds(e, index, c, key, now); }
    }
  }

  lemma ReplaceKeyed(db: Db, index: seq<Account>)
    requires Replaced(db, index).Some? && db.runtime.Keys == db.accounts.Keys
    ensures Replaced(db, index).value.runtime.Keys == Replaced(db, index).value.accounts.Keys
  {
    UpsertAllKeyed(db, index);
  }

  lemma KeyedStays(s: RouterState, e: Event)
    requires Keyed(s) && !e.DoAttach?
    ensures Keyed(Apply(s, e))
  {
    match e
    case DoRoute(index, key, now) => RouteLeavesCircuits(s, index, key, now);
    case DoReplace(index) =>
      if s.store.Some? && Replaced(s.store.value, index).Some? {
        ReplaceKeyed(s.store.value, index);
      }
    case DoReconcile(index) =>
      if s.store.Some? && Reconciled(s.store.value, index).Some? {
        InsertMissingKeyed(s.store.value, index);
      }
    case _ =>
  }

  lemma ReplaceStep(s: RouterState, index: seq<Account>, id: Id, c: Circuit)
    requires Keyed(s)
    ensures var t := Apply(s, DoReplace(index));
      && t.circuits == s.circuits
      && (Recorded(s, id, c) && !Drops(s, DoReplace(index), id) ==> Recorded(t, id, c))
      && (Unrecorded(s, id) || Drops(s, DoReplace(index), id) ==> Unrecorded(t, id))
  {
    if s.store.Some? && Replaced(s.store.value, index).Some? {
      ReplaceKeepsCircuit(s.store.value, index, id);
    }
  }

  lemma ReconcileStep(s: RouterState, index: seq<Account>, id: Id, c: Circuit)
    ensures var t := Apply(s, DoReconcile(index));
      && t.circuits == s.circuits
      && (Recorded(s, id, c) ==> Recorded(t, id, c)) && (Unrecorded(s, id) ==> Unrecorded(t, id))
  {
    if s.store.Some? && Reconciled(s.store.value, index).Some? {
      InsertMissingCircuit(s.store.value, index, id);
    }
  }

  // A restart gives back what is stored, and only that.
  lemma RestartStep(s: RouterState, config: Config, now: Time, id: Id, c: Circuit)
    requires c.until.Some? ==> now < c.until.value
    ensures var t := Apply(s, DoRestart(config, now));
      && (Recorded(s, id, c) ==> Remembered(t, id, c) && Recorded(t, id, c))
      && (Unrecorded(s, id) ==> Unrecorded(t, id) && id !in t.circuits)
  {
    ReasonRoundTrip(c.reason);
  }

  // One event, seen from an account it does not touch, while the deadline of the
  // circuit is still ahead.
  lemma CircuitStep(s: RouterState, e: Event, id: Id, c: Circuit)
    requires Keyed(s) && !Touches(e, id) && Before(e, c.until)
    ensures var t := Apply(s, e);
      && (Remembered(s, id, c) && !e.DoRestart? ==> Remembered(t, id, c))
      && (Remembered(s, id, c) && Recorded(s, id, c) && !Drops(s, e, id) ==> Recorded(t, id, c))
      && (Recorded(s, id, c) && e.DoRestart? ==> Remembered(t, id, c))
  {
    match e
    case DoRoute(_, _, _) => RouteKeepsCircuit(s, e, id, c);
    case DoExpire(now) => ExpiryKeepsCircuit(s, now, id, c);
    case DoReplace(index) => ReplaceStep(s, index, id, c);
    case DoReconcile(index) => ReconcileStep(s, index, id, c);
    case DoRestart(config, now) => RestartStep(s, config, now, id, c);
    case _ =>
  }

  // The same of an account whose stored circuit is gone.
  lemma UnrecordedStep(s: RouterState, e: Event, id: Id)
    requires Keyed(s) && !Touches(e, id)
    ensures var t := Apply(s, e);
      && (Drops(s, e, id) ==> Unrecorded(t, id))
      && (Unrecorded(s, id) ==> Unrecorded(t, id))
      && (Unrecorded(s, id) && (id !in s.circuits || e.DoRestart?) ==> id !in t.circuits)
  {
    var c := Circuit(Forbidden, None);
    match e
    case DoRoute(index, key, now) => RouteKeepsCircuit(s, e, id, c);
    case DoReplace(index) => ReplaceStep(s, index, id, c);
    case DoReconcile(index) => ReconcileStep(s, index, id, c);
    case DoRestart(config, now) => RestartStep(s, config, now, id, c);
    case _ =>
  }

  // Some replacement in the run removed the account from the store ..
  predicate DroppedIn(s: RouterState, es: seq<Event>, id: Id) {
    && es != []
    && (DroppedIn(s, es[..|es| - 1], id) || Drops(After(s, es[..|es| - 1]), es[|es| - 1], id))
  }

  // .. and the process was restarted after that.
  predicate ForgottenIn(s: RouterState, es: seq<Event>, id: Id) {
    && es != []
    && (ForgottenIn(s, es[..|es| - 1], id) || (DroppedIn(s, es[..|es| - 1], id) && es[|es| - 1].DoRestart?))
  }

  lemma {:induction false} QuarantineInvariant(s: RouterState, es: seq<Event>, id: Id, c: Circuit)
    requires Keyed(s) && Remembered(s, id, c) && Recorded(s, id, c)
    requires forall i :: 0 <= i < |es| ==> !Touches(es[i], id) && Before(es[i], c.until)
    ensures var t := After(s, es);
      && Keyed(t)
      && (if DroppedIn(s, es, id) then Unrecorded(t, id) else Recorded(t, id, c))
      && (if ForgottenIn(s, es, id) then DroppedIn(s, es, id) && id !in t.circuits else Remembered(t, id, c))
  {
    if es != [] {
      var n := |es| - 1;
      QuarantineInvariant(s, es[..n], id, c);
      CircuitStep(After(s, es[..n]), es[n], id, c);
      UnrecordedStep(After(s, es[..n]), es[n], id);
      KeyedStays(After(s, es[..n]), es[n]);
    }
  }

  lemma QuarantinedIsNotServed(s: RouterState, e: Event, id: Id)
    requires e.DoRoute? && id in s.circuits && !Due(s.circuits[id], e.now)
    ensures Served(s, e) != Some(id)
  {
    if !s.paused {
      var x := Expired(s, e.now);
      assert id in x.circuits;
      if e.key in x.bindings {
        Finds(e.index, x.bindings[e.key]);
      } else {
        var tier := BestTier(x, e.index, e.now);
        if tier != [] {
          var a := PickedInTier(x, tier, e.now);
          InBestTier(x, e.index, e.now, a);
        }
      }
    }
  }

  predicate HealthyFor(s: RouterState, e: Event, a: Account)
    requires e.DoRoute?
  {
    Healthy(s, a, e.key !in s.bindings, e.now)
  }

  // Whatever the strategy, the preference and the binding, only a healthy account
  // of the index is given.
  lemma ServedIsHealthy(s: RouterState, e: Event, id: Id)
    requires e.DoRoute? && Served(s, e) == Some(id)
    ensures exists a :: a in e.index && a.id == id && HealthyFor(s, e, a)
  {
    var x := Expired(s, e.now);
    if e.key in x.bindings {
      Finds(e.index, x.bindings[e.key]);
      HealthyIsEligible(s, Find(e.index, id).value, false, e.now);
    } else {
      var a := PickedInTier(x, BestTier(x, e.index, e.now), e.now);
      InBestTier(x, e.index, e.now, a);
      HealthyIsEligible(s, a, true, e.now);
    }
  }

  // A circuit blocked on a stored account outlives every later event that leaves
  // it alone and comes before its deadline, restarts and replacements of the
  // stored accounts included, except exactly when a replacement drops the
  // account and a restart follows. While it lasts no route gives the account.
  lemma QuarantineHolds(
      s: RouterState, id: Id, reason: CircuitReason, until: Option<Time>, es: seq<Event>, next: Event)
    requires Keyed(s) && s.store.Some? && id in s.store.value.runtime
    requires forall i :: 0 <= i < |es| ==> !Touches(es[i], id) && Before(es[i], until)
    requires next.DoRoute? && Before(next, until)
    ensures var blocked := Opened(s, id, reason, until);
      && (id in After(blocked, es).circuits <==> !ForgottenIn(blocked, es, id))
      && (!ForgottenIn(blocked, es, id) ==> Served(After(blocked, es), next) != Some(id))
  {
    var blocked := Opened(s, id, reason, until);
    QuarantineInvariant(blocked, es, id, Circuit(reason, until));
    if !ForgottenIn(blocked, es, id) {
      QuarantinedIsNotServed(After(blocked, es), next, id);
    }
  }

  // While every replacement keeps the account, nothing is forgotten.
  lemma {:induction false} KeptIsRemembered(s: RouterState, es: seq<Event>, id: Id)
    requires forall i :: 0 <= i < |es| && es[i].DoReplace? ==> id in Ids(es[i].index)
    ensures !DroppedIn(s, es, id) && !ForgottenIn(s, es, id)
  {
    if es != [] {
      KeptIsRemembered(s, es[..|es| - 1], id);
    }
  }

  // At its deadline a circuit ends with the first route, unless routing is
  // paused: it leaves the router and the store.
  lemma DeadlineEndsCircuit(s: RouterState, e: Event, id: Id)
    requires e.DoRoute? && id in s.circuits && Due(s.circuits[id], e.now)
    ensures id !in Apply(s, e).circuits <==> !s.paused
    ensures !s.paused ==> Unrecorded(Apply(s, e), id)
  {
    assert id in DueIds(s, e.now);
  }

  // The circuit of the account, or that it has none.
  predicate Carries(s: RouterState, id: Id, c: Option<Circuit>) {
    if c.None? then id !in s.circuits else Remembered(s, id, c.value)
  }

  lemma RouteEnds(s: RouterState, e: Event, id: Id, c: Option<Circuit>)
    requires e.DoRoute? && Carries(s, id, c)
    ensures Carries(Apply(s, e), id, if c.Some? && !s.paused && Due(c.value, e.now) then None else c)
  {
    RouteLeavesCircuits(s, e.index, e.key, e.now);
    assert id in DueIds(s, e.now) <==> id in s.circuits && Due(s.circuits[id], e.now);
  }

  lemma EventLeavesCircuit(s: RouterState, e: Event, id: Id, c: Option<Circuit>)
    requires !e.DoRoute? && !Touches(e, id) && !e.DoRestart? && Carries(s, id, c)
    ensures Carries(Apply(s, e), id, if c.Some? && e.DoExpire? && Due(c.value, e.now) then None else c)
  {
  }

  // A stored circuit for a known reason that is not due.
  ghost predicate StoredCircuit(db: Db, id: Id, now: Time, c: Circuit) {
    && id in db.runtime && db.runtime[id].circuitReason == Some(ReasonName(c.reason))
    && db.runtime[id].circuitUntil == c.until && (c.until.Some? ==> now < c.until.value)
  }

  // Attaching a store loads exactly those circuits, over the ones that are there ..
  lemma AttachLoadsCircuits(s: RouterState, db: Db, now: Time, id: Id)
    ensures var t := Apply(s, DoAttach(db, now));
      && (forall c :: StoredCircuit(db, id, now, c) ==> Remembered(t, id, c))
      && ((forall c :: !StoredCircuit(db, id, now, c)) ==>
            (id in t.circuits <==> id in s.circuits) && (id in s.circuits ==> t.circuits[id] == s.circuits[id]))
  {
    var loaded := LoadedCircuits(PurgeBindings(db, now), now);
    forall c | StoredCircuit(db, id, now, c) ensures id in loaded && loaded[id] == c {
      ReasonRoundTrip(c.reason);
    }
    if id in loaded {
      KnownReason(db.runtime[id].circuitReason.value);
      assert StoredCircuit(db, id, now, loaded[id]);
    }
  }

  // .. and exactly the sessions that have not expired; the expired rows go.
  lemma AttachLoadsSessions(s: RouterState, db: Db, now: Time, key: string)
    ensures var t := Apply(s, DoAttach(db, now));
      && t.store.Some? && t.store.value.runtime == db.runtime
      && (key in t.store.value.bindings <==> key in db.bindings && now < db.bindings[key].expiresAt)
      && if "session:" <= key && key in db.bindings && now < db.bindings[key].expiresAt
         then key in t.bindings && t.bindings[key] == db.bindings[key].accountId
         else (key in t.bindings <==> key in s.bindings) && (key in s.bindings ==> t.bindings[key] == s.bindings[key])
  {
  }

  lemma KnownReason(name: string)
    ensures ReasonFromName(name).Some? ==> ReasonName(ReasonFromName(name).value) == name
  {
  }

  // ---------------------------------------------------------------- sessions across restarts

  predicate SessionStored(s: RouterState, key: string, row: BindingRow) {
    && SessionKey(key) && s.store.Some?
    && key in s.store.value.bindings && s.store.value.bindings[key] == row
  }

  lemma {:induction false} UpsertAllBindings(db: Db, index: seq<Account>)
    requires UpsertAll(db, index).Some?
    ensures UpsertAll(db, index).value.bindings == db.bindings
    ensures UpsertAll(db, index).value.accounts.Keys == db.accounts.Keys + Ids(index)
  {
    if index != [] {
      UpsertAllBindings(db, index[..|index| - 1]);
    }
  }

  lemma {:induction false} InsertMissingBindings(db: Db, index: seq<Account>)
    requires InsertMissing(db, index).Some?
    ensures InsertMissing(db, index).value.bindings == db.bindings
  {
    if index != [] {
      InsertMissingBindings(db, index[..|index| - 1]);
    }
  }

  lemma BindKeepsSession(s: RouterState, other: string, id: Id, now: Time, key: string, row: BindingRow)
    requires key != other && SessionStored(s, key, row) && BoundTo(s, key, row.accountId)
    ensures var t := Bind(s, other, id, now);
      SessionStored(t, key, row) && BoundTo(t, key, row.accountId)
  {
  }

  // A route stores the session it binds and leaves every other session alone.
  lemma RouteKeepsSession(s: RouterState, e: Event, key: string, row: BindingRow)
    requires e.DoRoute? && SessionStored(s, key, row) && BoundTo(s, key, row.accountId)
    ensures SessionStored(Apply(s, e), key, row) && BoundTo(Apply(s, e), key, row.accountId)
  {
    if !s.paused {
      var x := Expired(s, e.now);
      var c := Choose(x, e.index, e.key, e.now);
      if c.New? {
        assert e.key !in x.bindings;
        BindKeepsSession(Advanced(x, e.index, e.now, c), e.key, c.id, e.now, key, row);
      }
    }
  }

  lemma ReplaceKeepsBinding(db: Db, index: seq<Account>, key: string)
    requires Replaced(db, index).Some? && key in db.bindings && db.bindings[key].accountId in Ids(index)
    ensures var d := Replaced(db, index).value;
      key in d.bindings && d.bindings[key] == db.bindings[key]
  {
    UpsertAllBindings(db, index);
    DeleteKeepsBinding(UpsertAll(db, index).value, Ids(index), key);
  }

  lemma DeleteKeepsBinding(db: Db, keep: set<Id>, key: string)
    requires key in db.bindings && db.bindings[key].accountId in keep
    ensures var d := DeleteAccounts(db, db.accounts.Keys - keep);
      key in d.bindings && d.bindings[key] == db.bindings[key]
  {
  }

  lemma ReplaceKeepsSession(s: RouterState, index: seq<Account>, key: string, row: BindingRow)
    requires SessionStored(s, key, row) && !Drops(s, DoReplace(index), row.accountId)
    ensures SessionStored(Apply(s, DoReplace(index)), key, row)
  {
    if Replaced(s.store.value, index).Some? {
      ReplaceKeepsBinding(s.store.value, index, key);
    }
  }

  lemma SessionStep(s: RouterState, e: Event, key: string, row: BindingRow)
    requires SessionStored(s, key, row) && BoundTo(s, key, row.accountId)
    requires !(e.DoUnbind? && e.key == key) && !e.DoPrefer? && !e.DoAttach?
    requires !Drops(s, e, row.accountId) && (e.DoRestart? ==> e.now < row.expiresAt)
    ensures var t := Apply(s, e);
      SessionStored(t, key, row) && BoundTo(t, key, row.accountId)
  {
    match e
    case DoRoute(_, _, _) => RouteKeepsSession(s, e, key, row);
    case DoReplace(index) => ReplaceKeepsSession(s, index, key, row);
    case DoReconcile(index) =>
      if Reconciled(s.store.value, index).Some? {
        InsertMissingBindings(s.store.value, index);
      }
    case _ =>
  }

  // A session bound to a stored account keeps it across restarts until its
  // binding expires, while the account stays stored.
  lemma {:induction false} SessionSurvivesRestarts(s: RouterState, es: seq<Event>, key: string, row: BindingRow)
    requires SessionStored(s, key, row) && key in s.bindings && s.bindings[key] == row.accountId
    requires forall i :: 0 <= i < |es| ==>
      !(es[i].DoUnbind? && es[i].key == key) && !es[i].DoPrefer? && !es[i].DoAttach?
      && (es[i].DoRestart? ==> es[i].now < row.expiresAt)
    requires !DroppedIn(s, es, row.accountId)
    ensures var t := After(s, es);
      SessionStored(t, key, row) && key in t.bindings && t.bindings[key] == row.accountId
  {
    if es != [] {
      SessionSurvivesRestarts(s, es[..|es| - 1], key, row);
      SessionStep(After(s, es[..|es| - 1]), es[|es| - 1], key, row);
    }
  }

  lemma BindStores(s: RouterState, key: string, id: Id, now: Time)
    requires SessionKey(key) && s.store.Some? && id in s.store.value.accounts
    ensures SessionStored(Bind(s, key, id, now), key, BindingRow(id, now + BINDING_TTL))
  {
  }

  // A new session key is stored with the account it was given, for a day.
  lemma NewSessionIsStored(s: RouterState, e: Event)
    requires Served(s, e).Some? && "session:" <= e.key && e.key !in s.bindings
    requires s.store.Some? && Served(s, e).value in s.store.value.accounts
    ensures SessionStored(Apply(s, e), e.key, BindingRow(Served(s, e).value, e.now + 24 * 3600 * SECOND))
  {
    var x := Expired(s, e.now);
    var c := Choose(x, e.index, e.key, e.now);
    var y := Advanced(x, e.index, e.now, c);
    assert y.store == x.store && x.store.value.accounts == s.store.value.accounts;
    BindStores(y, e.key, c.id, e.now);
  }

  // ---------------------------------------------------------------- preferences and restarts

  // The route binds the key anew, and in the store too, to another account.
  predicate Moves(s: RouterState, e: Event, key: string, id: Id) {
    && e.DoRoute? && e.key == key && key !in s.bindings
    && Served(s, e).Some? && Served(s, e).value != id
    && s.store.Some? && Served(s, e).value in s.store.value.accounts
  }

  predicate MovedIn(s: RouterState, es: seq<Event>, key: string, id: Id) {
    && es != []
    && (MovedIn(s, es[..|es| - 1], key, id) || Moves(After(s, es[..|es| - 1]), es[|es| - 1], key, id))
  }

  // The stored row of the session names the account and lasts until then.
  predicate StoredUntil(s: RouterState, key: string, id: Id, time: Time) {
    && SessionKey(key) && s.store.Some? && key in s.store.value.bindings
    && s.store.value.bindings[key].accountId == id && time <= s.store.value.bindings[key].expiresAt
  }

  // The key is bound, and no stored row names the account.
  predicate MovedAway(s: RouterState, key: string, id: Id) {
    && key in s.bindings && s.store.Some?
    && (key in s.store.value.bindings ==> s.store.value.bindings[key].accountId != id)
  }

  // An event of the running process that neither rebinds the key nor drops the account.
  predicate Between(s: RouterState, e: Event, key: string, id: Id) {
    !Rebinds(e, key) && !Drops(s, e, id)
  }

  lemma ReplaceBindings(db: Db, index: seq<Account>, key: string)
    requires Replaced(db, index).Some?
    ensures var d := Replaced(db, index).value;
      key in d.bindings ==> key in db.bindings && d.bindings[key] == db.bindings[key]
  {
    UpsertAllBindings(db, index);
  }

  // What a route writes to the stored bindings: a new session, for a day, and
  // nothing else.
  lemma RouteWrites(s: RouterState, e: Event)
    requires e.DoRoute? && s.store.Some?
    ensures var t := Apply(s, e);
      && t.store.Some?
      && t.store.value.bindings ==
           if Served(s, e).Some? && e.key !in s.bindings && "session:" <= e.key
              && Served(s, e).value in s.store.value.accounts
           then s.store.value.bindings[e.key := BindingRow(Served(s, e).value, e.now + 24 * 3600 * SECOND)]
           else s.store.value.bindings
  {
    if !s.paused {
      var x := Expired(s, e.now);
      var c := Choose(x, e.index, e.key, e.now);
      var y := Advanced(x, e.index, e.now, c);
      assert y.store == x.store && y.bindings == s.bindings;
    }
  }

  lemma MovedAwayStays(s: RouterState, e: Event, key: string, id: Id)
    requires MovedAway(s, key, id) && !Rebinds(e, key)
    ensures MovedAway(Apply(s, e), key, id)
  {
    BindingKept(s, e, key);
    match e
    case DoRoute(_, _, _) => RouteWrites(s, e);
    case DoReplace(index) =>
      if Replaced(s.store.value, index).Some? { ReplaceBindings(s.store.value, index, key); }
    case DoReconcile(index) =>
      if Reconciled(s.store.value, index).Some? { InsertMissingBindings(s.store.value, index); }
    case _ =>
  }

  lemma StoredStays(s: RouterState, e: Event, key: string, id: Id, time: Time)
    requires StoredUntil(s, key, id, time) && Between(s, e, key, id)
    requires e.DoRoute? ==> time <= e.now + BINDING_TTL
    ensures if Moves(s, e, key, id) then MovedAway(Apply(s, e), key, id) else StoredUntil(Apply(s, e), key, id, time)
  {
    match e
    case DoRoute(_, _, _) =>
      RouteWrites(s, e);
      if Moves(s, e, key, id) { ServedBinds(s, e); }
    case DoReplace(index) =>
      if Replaced(s.store.value, index).Some? { ReplaceKeepsBinding(s.store.value, index, key); }
    case DoReconcile(index) =>
      if Reconciled(s.store.value, index).Some? { InsertMissingBindings(s.store.value, index); }
    case _ =>
  }

  lemma {:induction false} StoredUntilMoved(s: RouterState, es: seq<Event>, key: string, id: Id, time: Time)
    requires StoredUntil(s, key, id, time)
    requires forall i :: 0 <= i < |es| ==>
      !Rebinds(es[i], key) && (es[i].DoRoute? ==> time <= es[i].now + BINDING_TTL)
    requires !DroppedIn(s, es, id)
    ensures if MovedIn(s, es, key, id) then MovedAway(After(s, es), key, id)
      else StoredUntil(After(s, es), key, id, time)
  {
    if es != [] {
      var n := |es| - 1;
      StoredUntilMoved(s, es[..n], key, id, time);
      if MovedIn(s, es[..n], key, id) {
        MovedAwayStays(After(s, es[..n]), es[n], key, id);
      } else {
        StoredStays(After(s, es[..n]), es[n], key, id, time);
      }
    }
  }

  // What a new process takes from the store: a session whose row has not expired.
  lemma RestartBindsIff(s: RouterState, config: Config, now: Time, key: string, id: Id)
    requires s.store.Some?
    ensures var d := s.store.value;
      BoundTo(Apply(s, DoRestart(config, now)), key, id) <==>
        "session:" <= key && key in d.bindings && d.bindings[key].accountId == id && d.bindings[key].expiresAt > now
  {
  }

  lemma RestartAfterMove(s: RouterState, config: Config, now: Time, key: string, id: Id)
    requires MovedAway(s, key, id)
    ensures !BoundTo(Apply(s, DoRestart(config, now)), key, id)
  {
    RestartBindsIff(s, config, now, key, id);
  }

  // A preference clears the bindings of the running process only. After it, and
  // whatever else the process does with the account still stored, a restart
  // before the stored session expires puts the session back on the account it was
  // moved away from, if and only if no route in between stored it with another.
  lemma PreferenceUndoneIff(
      s: RouterState, key: string, row: BindingRow, other: Id, es: seq<Event>, config: Config, now: Time)
    requires SessionStored(s, key, row) && now < row.expiresAt
    requires forall i :: 0 <= i < |es| ==>
      !Rebinds(es[i], key) && (es[i].DoRoute? ==> row.expiresAt <= es[i].now + BINDING_TTL)
    requires !DroppedIn(Apply(s, DoPrefer(other)), es, row.accountId)
    ensures var p := Apply(s, DoPrefer(other));
      && key !in p.bindings
      && (BoundTo(Apply(After(p, es), DoRestart(config, now)), key, row.accountId) <==>
            !MovedIn(p, es, key, row.accountId))
  {
    var p := Apply(s, DoPrefer(other));
    StoredUntilMoved(p, es, key, row.accountId, row.expiresAt);
    if MovedIn(p, es, key, row.accountId) {
      RestartAfterMove(After(p, es), config, now, key, row.accountId);
    } else {
      RestartBindsIff(After(p, es), config, now, key, row.accountId);
    }
  }

  // ---------------------------------------------------------------- an expiry in two steps

  // The expiry drops the due circuits in memory ..
  function DroppedDue(s: RouterState, now: Time): RouterState {
    s.(circuits := s.circuits - DueIds(s, now))
  }

  // .. and clears the rows of the same accounts after its lock is free.
  function ClearedDue(s: RouterState, due: set<Id>): RouterState {
    s.(store := if s.store.Some? then Some(ClearCircuits(s.store.value, due)) else None)
  }

  // With nothing in between the two make up an expiry. A circuit opened in between
  // for a stored account stays in memory, and outlives a restart before its
  // deadline if and only if the expiry had not just dropped one of that account.
  lemma OpenedDuringExpiry(s: RouterState, now: Time, id: Id, c: Circuit, config: Config, later: Time)
    requires s.store.Some? && id in s.store.value.runtime && !Due(c, later)
    ensures ClearedDue(DroppedDue(s, now), DueIds(s, now)) == Expired(s, now)
    ensures var t := ClearedDue(Opened(DroppedDue(s, now), id, c.reason, c.until), DueIds(s, now));
      && Remembered(t, id, c)
      && (id in Apply(t, DoRestart(config, later)).circuits <==> id !in DueIds(s, now))
  {
    var due := DueIds(s, now);
    var t := ClearedDue(Opened(DroppedDue(s, now), id, c.reason, c.until), due);
    assert if id in due then Unrecorded(t, id) else Recorded(t, id, c);
    RestartStep(t, config, later, id, c);
  }
}
