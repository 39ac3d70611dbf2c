// Requests that run side by side. The router takes its locks one at a time, so
// a route is many steps: the lookup of the binding, the eligibility of each
// account in turn, the selection, and the binding of a newly selected account.
// The lease is a step of its own after that, and so are the verdict on the
// answer and the end of the lease.

module Interleaving {
  import opened Arithmetic
  import opened Wrappers
  import opened Types
  import opened Storage
  import opened Sorting
  import opened Routing
  import opened Selection
  import opened RoutingRuns

  // How far the eligible accounts have been collected. The settings are those
  // read at the start of the route.
  datatype Look = Look(index: seq<Account>, config: Config, now: Time, next: nat, eligible: seq<Account>)

  // How far a leased request is: it sends, it was refused a token refresh, or
  // its answer has been judged and at most streams on.
  datatype Stage = Sending | Denied | Settled

  datatype Phase =
    | Reading(key: string, look: Look) // found no binding, collects the eligible accounts
    | Chosen(key: string, id: Id)      // selected for a key without binding, not yet bound
    | RoutedTo(key: string, id: Id)    // route returned, or found its binding eligible; no lease yet
    | Leased(id: Id, stage: Stage)

  datatype System = System(router: RouterState, requests: map<nat, Phase>)

  datatype Step =
    | Looking(r: nat, index: seq<Account>, key: string, now: Time)
    | Weighing(r: nat)
    | Selecting(r: nat)
    | Binding(r: nat, now: Time)
    | Leasing(r: nat)
    | Refusing(r: nat)
    | Judging(r: nat, verdict: Verdict)
    | Dropping(r: nat)
    | Elsewhere(e: Event)              // any operation that is not part of a request

  predicate Enabled(s: System, p: Step) {
    match p
    case Looking(r, _, _, _) => r !in s.requests
    case Weighing(r) => Looks(s, r) && s.requests[r].look.next < |s.requests[r].look.index|
    case Selecting(r) => Looks(s, r) && s.requests[r].look.next == |s.requests[r].look.index|
    case Binding(r, _) => r in s.requests && s.requests[r].Chosen?
    case Leasing(r) => r in s.requests && s.requests[r].RoutedTo?
    case Refusing(r) => r in s.requests && s.requests[r].Leased? && s.requests[r].stage.Sending?
    case Judging(r, v) => r in s.requests && s.requests[r].Leased? && MayJudge(s.requests[r].stage, v)
    case Dropping(r) => r in s.requests && s.requests[r].Leased?
    case Elsewhere(e) => !e.DoRoute? && !e.DoAcquire? && !e.DoRelease? && !e.DoRestart?
  }

  const REAUTH: Circuit := Circuit(ReauthRequired, None)

  // An answer is judged once; after a refused refresh it is an expired token.
  predicate MayJudge(stage: Stage, v: Verdict) {
    stage.Sending? || (stage.Denied? && v == Opens(REAUTH))
  }

  predicate Looks(s: System, r: nat) {
    r in s.requests && s.requests[r].Reading?
  }

  // Expires circuits and looks the key up; a bound account is checked at once.
  function LookingStep(s: System, r: nat, index: seq<Account>, key: string, now: Time): System {
    if s.router.paused then s
    else
      var e := Expired(s.router, now);
      if key !in e.bindings then System(e, s.requests[r := Reading(key, Look(index, e.config, now, 0, []))])
      else
        var a := Find(index, e.bindings[key]);
        if a.Some? && Eligible(e, a.value, true, now) then System(e, s.requests[r := RoutedTo(key, e.bindings[key])])
        else System(e, s.requests)
  }

  // Reads the circuit and the count of one account.
  function Weighed(s: RouterState, look: Look): Look
    requires look.next < |look.index|
  {
    var a := look.index[look.next];
    var more := if Eligible(s.(config := look.config), a, false, look.now) then [a] else [];
    look.(next := look.next + 1, eligible := look.eligible + more)
  }

  function CursorAfter(cursor: nat, tier: seq<Account>, c: Choice): nat
    requires tier != []
  {
    if c.New? && c.why == ByStrategy(RoundRobin) then (cursor + 1) % |tier| else cursor
  }

  // Reads the preference and moves the cursor.
  function SelectingStep(s: System, r: nat): System
    requires Looks(s, r)
  {
    var p := s.requests[r];
    var tier := TierOf(p.look.eligible);
    if tier == [] then System(s.router, s.requests - {r})
    else
      var c := Picked(s.router.(config := p.look.config), tier, p.look.now);
      System(s.router.(cursor := CursorAfter(s.router.cursor, tier, c)), s.requests[r := Chosen(p.key, c.id)])
  }

  function Next(s: System, p: Step): System
    requires Enabled(s, p)
  {
    match p
    case Looking(r, index, key, now) => LookingStep(s, r, index, key, now)
    case Weighing(r) =>
      System(s.router, s.requests[r := Reading(s.requests[r].key, Weighed(s.router, s.requests[r].look))])
    case Selecting(r) => SelectingStep(s, r)
    case Binding(r, now) =>
      var q := s.requests[r];
      System(Bind(s.router, q.key, q.id, now), s.requests[r := RoutedTo(q.key, q.id)])
    case Leasing(r) =>
      var id := s.requests[r].id;
      System(s.router.(active := Acquired(s.router.active, id)), s.requests[r := Leased(id, Sending)])
    case Refusing(r) =>
      var id := s.requests[r].id;
      System(Ruled(s.router, id, Opens(REAUTH)), s.requests[r := Leased(id, Denied)])
    case Judging(r, v) =>
      var id := s.requests[r].id;
      System(Ruled(s.router, id, v), s.requests[r := Leased(id, Settled)])
    case Dropping(r) =>
      System(s.router.(active := Released(s.router.active, s.requests[r].id)), s.requests - {r})
    case Elsewhere(e) => System(Apply(s.router, e), s.requests)
  }

  predicate Runs(s: System, ps: seq<Step>)
    decreases |ps|
  {
    ps == [] || (Enabled(s, ps[0]) && Runs(Next(s, ps[0]), ps[1..]))
  }

  function End(s: System, ps: seq<Step>): System
    requires Runs(s, ps)
    decreases |ps|
  {
    if ps == [] then s else End(Next(s, ps[0]), ps[1..])
  }

  predicate AllOf(ps: seq<Step>, ok: Step -> bool) {
    forall i | 0 <= i < |ps| :: ok(ps[i])
  }

  // A run of such steps leads from s to t.
  ghost predicate Leads(s: System, t: System, ok: Step -> bool) {
    exists ps :: Runs(s, ps) && End(s, ps) == t && AllOf(ps, ok)
  }

  function OfRequests(rs: set<nat>): Step -> bool {
    (p: Step) => !p.Elsewhere? && p.r in rs
  }

  lemma {:induction false} RunsConcat(s: System, a: seq<Step>, b: seq<Step>)
    requires Runs(s, a) && Runs(End(s, a), b)
    ensures Runs(s, a + b) && End(s, a + b) == End(End(s, a), b)
    decreases |a|
  {
    if a == [] {
      assert a + b == b;
    } else {
      RunsConcat(Next(s, a[0]), a[1..], b);
      assert (a + b)[0] == a[0] && (a + b)[1..] == a[1..] + b;
    }
  }

  lemma LeadsSelf(s: System, ok: Step -> bool)
    ensures Leads(s, s, ok)
  {
    assert Runs(s, []) && End(s, []) == s && AllOf([], ok);
  }

  lemma LeadsTrans(s: System, t: System, u: System, ok: Step -> bool)
    requires Leads(s, t, ok) && Leads(t, u, ok)
    ensures Leads(s, u, ok)
  {
    var a :| Runs(s, a) && End(s, a) == t && AllOf(a, ok);
    var b :| Runs(t, b) && End(t, b) == u && AllOf(b, ok);
    RunsConcat(s, a, b);
    assert AllOf(a + b, ok);
  }

  lemma OneStep(s: System, p: Step, ok: Step -> bool)
    requires Enabled(s, p) && ok(p)
    ensures Leads(s, Next(s, p), ok)
  {
    var ps, t := [p], Next(s, p);
    var rest := ps[1..];
    assert ps[0] == p && rest == [];
    assert Runs(t, rest) && End(t, rest) == t;
    assert Runs(s, ps);
    assert End(s, ps) == End(t, rest);
    assert AllOf(ps, ok);
  }

  lemma LeadsOn(s: System, t: System, p: Step, ok: Step -> bool)
    requires Leads(s, t, ok) && Enabled(t, p) && ok(p)
    ensures Leads(s, Next(t, p), ok)
  {
    OneStep(t, p, ok);
    LeadsTrans(s, t, Next(t, p), ok);
  }

  // ---------------------------------------------------------------- an uninterrupted route

  // Everything up to the selection as one step.
  function Choosing(s: System, r: nat, index: seq<Account>, key: string, now: Time): System {
    if s.router.paused then s
    else
      var e := Expired(s.router, now);
      var c := Choose(e, index, key, now);
      match c
      case Bound(id) => System(e, s.requests[r := RoutedTo(key, id)])
      case New(id, _) => System(Advanced(e, index, now, c), s.requests[r := Chosen(key, id)])
      case NoChoice(_) => System(e, s.requests)
  }

  // The first n accounts of the index weighed without a step of another.
  function ReadUpTo(e: RouterState, requests: map<nat, Phase>, r: nat, index: seq<Account>, key: string, now: Time,
                    n: nat): System
    requires n <= |index|
  {
    System(e, requests[r := Reading(key, Look(index, e.config, now, n, Candidates(e, index[..n], now)))])
  }

  lemma ReadsOne(e: RouterState, requests: map<nat, Phase>, r: nat, index: seq<Account>, key: string, now: Time, n: nat)
    requires n < |index|
    ensures Enabled(ReadUpTo(e, requests, r, index, key, now, n), Weighing(r))
    ensures Next(ReadUpTo(e, requests, r, index, key, now, n), Weighing(r)) ==
      ReadUpTo(e, requests, r, index, key, now, n + 1)
  {
    assert index[..n + 1][..n] == index[..n];
    assert e.(config := e.config) == e;
    var p := ReadUpTo(e, requests, r, index, key, now, n).requests[r];
    assert Weighed(e, p.look).eligible == Candidates(e, index[..n + 1], now);
    assert requests[r := p][r := Reading(key, Weighed(e, p.look))] == requests[r := Reading(key, Weighed(e, p.look))];
  }

  lemma {:induction false} ReadsAll(
      e: RouterState, requests: map<nat, Phase>, r: nat, index: seq<Account>, key: string, now: Time, n: nat,
      ok: Step -> bool)
    requires n <= |index| && ok(Weighing(r))
    ensures Leads(ReadUpTo(e, requests, r, index, key, now, 0), ReadUpTo(e, requests, r, index, key, now, n), ok)
  {
    if n == 0 {
      LeadsSelf(ReadUpTo(e, requests, r, index, key, now, 0), ok);
    } else {
      ReadsAll(e, requests, r, index, key, now, n - 1, ok);
      ReadsOne(e, requests, r, index, key, now, n - 1);
      LeadsOn(ReadUpTo(e, requests, r, index, key, now, 0), ReadUpTo(e, requests, r, index, key, now, n - 1),
              Weighing(r), ok);
    }
  }

  lemma SelectsChoice(s: System, r: nat, index: seq<Account>, key: string, now: Time)
    requires r !in s.requests && !s.router.paused && key !in s.router.bindings
    ensures var t := ReadUpTo(Expired(s.router, now), s.requests, r, index, key, now, |index|);
      Enabled(t, Selecting(r)) && Next(t, Selecting(r)) == Choosing(s, r, index, key, now)
  {
    var e := Expired(s.router, now);
    var t := ReadUpTo(e, s.requests, r, index, key, now, |index|);
    assert index[..|index|] == index;
    assert e.(config := e.config) == e;
    assert t.requests - {r} == s.requests;
    var c := Choose(e, index, key, now);
    assert c.New? ==> t.requests[r := Chosen(key, c.id)] == s.requests[r := Chosen(key, c.id)];
  }

  // A kind of step that lets the request choose and bind.
  predicate LetsRoute(ok: Step -> bool, r: nat, index: seq<Account>, key: string, now: Time) {
    ok(Looking(r, index, key, now)) && ok(Weighing(r)) && ok(Selecting(r)) && ok(Binding(r, now))
  }

  lemma WholeChoice(s: System, r: nat, index: seq<Account>, key: string, now: Time, ok: Step -> bool)
    requires r !in s.requests && LetsRoute(ok, r, index, key, now)
    ensures Leads(s, Choosing(s, r, index, key, now), ok)
  {
    var p := Looking(r, index, key, now);
    OneStep(s, p, ok);
    if !s.router.paused && key !in s.router.bindings {
      var e := Expired(s.router, now);
      var t := ReadUpTo(e, s.requests, r, index, key, now, |index|);
      assert index[..0] == [];
      assert Next(s, p) == ReadUpTo(e, s.requests, r, index, key, now, 0);
      ReadsAll(e, s.requests, r, index, key, now, |index|, ok);
      LeadsTrans(s, Next(s, p), t, ok);
      SelectsChoice(s, r, index, key, now);
      LeadsOn(s, t, Selecting(r), ok);
    } else {
      assert Next(s, p) == Choosing(s, r, index, key, now);
    }
  }

  // A whole route as one step.
  function WholeRoute(s: System, r: nat, index: seq<Account>, key: string, now: Time): System {
    System(AfterRoute(s.router, index, key, now),
           match Served(s.router, DoRoute(index, key, now))
           case Some(id) => s.requests[r := RoutedTo(key, id)]
           case None => s.requests)
  }

  // Without anything in between, the steps of a request up to its binding make up
  // one route.
  lemma RouteIsRun(s: System, r: nat, index: seq<Account>, key: string, now: Time)
    requires r !in s.requests
    ensures Leads(s, WholeRoute(s, r, index, key, now), OfRequests({r}))
  {
    var t, ok := Choosing(s, r, index, key, now), OfRequests({r});
    assert Leads(s, t, ok) by { WholeChoice(s, r, index, key, now, ok); }
    if r in t.requests && t.requests[r].Chosen? {
      var u := Next(t, Binding(r, now));
      LeadsOn(s, t, Binding(r, now), ok);
      assert u.requests == s.requests[r := RoutedTo(key, t.requests[r].id)];
    }
  }

  // ---------------------------------------------------------------- concurrency limits

  function LeasesOn(requests: map<nat, Phase>, id: Id): set<nat> {
    set r | r in requests && requests[r].Leased? && requests[r].id == id
  }

  function Found(look: Look): seq<Id> {
    seq(|look.eligible|, i requires 0 <= i < |look.eligible| => look.eligible[i].id)
  }

  // The request read the account as eligible and may still take a lease on it.
  predicate Holds(p: Phase, id: Id) {
    match p
    case Reading(_, look) => id in Found(look)
    case Chosen(_, a) => a == id
    case RoutedTo(_, a) => a == id
    case Leased(_, _) => false
  }

  function PendingOn(requests: map<nat, Phase>, id: Id): set<nat> {
    set r | r in requests && Holds(requests[r], id)
  }

  // The count of each account is the number of its live leases, and no account
  // without a lease has an entry.
  ghost predicate Counted(s: System) {
    && (forall id :: ActiveCount(s.router.active, id) == |LeasesOn(s.requests, id)|)
    && (forall id :: id in s.router.active ==> s.router.active[id] > 0)
  }

  lemma PutRequest(requests: map<nat, Phase>, r: nat, p: Phase, id: Id)
    ensures LeasesOn(requests[r := p], id) ==
      if p.Leased? && p.id == id then LeasesOn(requests, id) + {r} else LeasesOn(requests, id) - {r}
    ensures PendingOn(requests[r := p], id) ==
      if Holds(p, id) then PendingOn(requests, id) + {r} else PendingOn(requests, id) - {r}
  {
  }

  lemma RemoveRequest(requests: map<nat, Phase>, r: nat, id: Id)
    ensures LeasesOn(requests - {r}, id) == LeasesOn(requests, id) - {r}
    ensures PendingOn(requests - {r}, id) == PendingOn(requests, id) - {r}
  {
  }

  // A request without a lease that moves on without one leaves the leases alone.
  lemma LeasesUntouched(s: System, t: System, r: nat, id: Id)
    requires r in s.requests ==> !s.requests[r].Leased?
    requires t.requests == s.requests || t.requests == s.requests - {r} ||
      (r in t.requests && !t.requests[r].Leased? && t.requests == s.requests[r := t.requests[r]])
    ensures LeasesOn(t.requests, id) == LeasesOn(s.requests, id)
  {
    RemoveRequest(s.requests, r, id);
    if r in t.requests { PutRequest(s.requests, r, t.requests[r], id); }
    assert r !in LeasesOn(s.requests, id);
    assert LeasesOn(s.requests, id) - {r} == LeasesOn(s.requests, id);
  }

  lemma RouteStepShape(s: System, p: Step)
    requires Enabled(s, p) && (p.Looking? || p.Weighing? || p.Selecting? || p.Binding?)
    ensures var t := Next(s, p);
      && t.router.active == s.router.active
      && (p.r in s.requests ==> !s.requests[p.r].Leased?)
      && (t.requests == s.requests || t.requests == s.requests - {p.r} ||
          (p.r in t.requests && !t.requests[p.r].Leased? && t.requests == s.requests[p.r := t.requests[p.r]]))
  {
  }

  // A verdict touches the circuits, not the counts.
  lemma VerdictShape(s: System, p: Step, id: Id)
    requires Enabled(s, p) && (p.Refusing? || p.Judging?)
    ensures var t := Next(s, p);
      && t.router.active == s.router.active && t.router.bindings == s.router.bindings
      && LeasesOn(t.requests, id) == LeasesOn(s.requests, id)
      && PendingOn(t.requests, id) == PendingOn(s.requests, id)
  {
    PutRequest(s.requests, p.r, Next(s, p).requests[p.r], id);
    assert p.r !in PendingOn(s.requests, id);
    assert p.r in LeasesOn(s.requests, id) <==> s.requests[p.r].id == id;
  }

  lemma ActiveUntouched(s: System, p: Step)
    requires Enabled(s, p) && !p.Leasing? && !p.Dropping?
    ensures Next(s, p).router.active == s.router.active
    ensures forall id :: LeasesOn(Next(s, p).requests, id) == LeasesOn(s.requests, id)
  {
    if p.Refusing? || p.Judging? {
      forall id ensures LeasesOn(Next(s, p).requests, id) == LeasesOn(s.requests, id) {
        VerdictShape(s, p, id);
      }
    } else if !p.Elsewhere? {
      RouteStepShape(s, p);
      forall id ensures LeasesOn(Next(s, p).requests, id) == LeasesOn(s.requests, id) {
        LeasesUntouched(s, Next(s, p), p.r, id);
      }
    } else {
      ElsewhereLeavesCounts(s.router, p.e);
    }
  }

  lemma ElsewhereLeavesCounts(s: RouterState, e: Event)
    requires !e.DoRoute? && !e.DoAcquire? && !e.DoRelease? && !e.DoRestart?
    ensures Apply(s, e).active == s.active
  {
  }

  lemma LeasingCounts(s: System, r: nat)
    requires Counted(s) && Enabled(s, Leasing(r))
    ensures Counted(Next(s, Leasing(r)))
  {
    var t := Next(s, Leasing(r));
    forall id ensures ActiveCount(t.router.active, id) == |LeasesOn(t.requests, id)| {
      PutRequest(s.requests, r, Leased(s.requests[r].id, Sending), id);
      assert r !in LeasesOn(s.requests, id);
      assert LeasesOn(s.requests, id) - {r} == LeasesOn(s.requests, id);
    }
  }

  lemma ReleasedCount(active: map<Id, nat>, id: Id, other: Id)
    requires ActiveCount(active, id) > 0
    ensures ActiveCount(Released(active, id), other) == ActiveCount(active, other) - if other == id then 1 else 0
    ensures other in Released(active, id) ==>
      other in active && (active[other] > 0 ==> Released(active, id)[other] > 0)
  {
  }

  lemma DropsOne(s: System, r: nat, id: Id)
    requires Enabled(s, Dropping(r))
    ensures |LeasesOn(Next(s, Dropping(r)).requests, id)| ==
      |LeasesOn(s.requests, id)| - if id == s.requests[r].id then 1 else 0
  {
    RemoveRequest(s.requests, r, id);
    var leases := LeasesOn(s.requests, id);
    assert r in leases <==> id == s.requests[r].id;
    if r !in leases { assert leases - {r} == leases; }
  }

  lemma DroppingCounts(s: System, r: nat)
    requires Counted(s) && Enabled(s, Dropping(r))
    ensures Counted(Next(s, Dropping(r))) && ActiveCount(s.router.active, s.requests[r].id) > 0
  {
    var t, a := Next(s, Dropping(r)), s.requests[r].id;
    assert r in LeasesOn(s.requests, a);
    forall id ensures ActiveCount(t.router.active, id) == |LeasesOn(t.requests, id)| {
      ReleasedCount(s.router.active, a, id);
      DropsOne(s, r, id);
    }
    forall id | id in t.router.active ensures t.router.active[id] > 0 {
      ReleasedCount(s.router.active, a, id);
    }
  }

  // Counts and leases agree after every step; a release never finds a zero.
  lemma CountedStays(s: System, p: Step)
    requires Counted(s) && Enabled(s, p)
    ensures Counted(Next(s, p))
    ensures p.Dropping? ==> ActiveCount(s.router.active, s.requests[p.r].id) > 0
  {
    if p.Leasing? {
      LeasingCounts(s, p.r);
    } else if p.Dropping? {
      DroppingCounts(s, p.r);
    } else {
      ActiveUntouched(s, p);
    }
  }

  // The limit of the account is `limit` in an index ..
  predicate LimitIn(index: seq<Account>, id: Id, limit: nat) {
    forall i | 0 <= i < |index| :: index[i].id == id ==> index[i].concurrencyLimit == limit
  }

  // .. in every index a step brings, and in every index a request is reading.
  predicate Limits(p: Step, id: Id, limit: nat) {
    p.Looking? ==> LimitIn(p.index, id, limit)
  }

  predicate LimitRead(p: Phase, id: Id, limit: nat) {
    p.Reading? ==> LimitIn(p.look.index, id, limit)
  }

  ghost predicate LimitsRead(s: System, id: Id, limit: nat) {
    forall r :: r in s.requests ==> LimitRead(s.requests[r], id, limit)
  }

  lemma LimitsReadStays(s: System, p: Step, id: Id, limit: nat)
    requires LimitsRead(s, id, limit) && Enabled(s, p) && Limits(p, id, limit)
    ensures LimitsRead(Next(s, p), id, limit)
  {
    var t := Next(s, p);
    forall r | r in t.requests ensures LimitRead(t.requests[r], id, limit) {
      assert r in s.requests ==> LimitRead(s.requests[r], id, limit);
    }
  }

  function Load(s: System, id: Id): nat {
    |LeasesOn(s.requests, id)| + |PendingOn(s.requests, id)|
  }

  // A request that newly holds an account has just read its count below the limit.
  lemma LookingReads(s: System, p: Step, id: Id, limit: nat)
    requires Enabled(s, p) && p.Looking? && limit > 0 && LimitIn(p.index, id, limit)
    ensures var t := Next(s, p);
      ActiveCount(s.router.active, id) < limit || PendingOn(t.requests, id) <= PendingOn(s.requests, id)
  {
    var t := Next(s, p);
    if p.r in t.requests {
      PutRequest(s.requests, p.r, t.requests[p.r], id);
      if t.requests[p.r] == RoutedTo(p.key, id) { Finds(p.index, id); }
    }
  }

  lemma WeighingReads(s: System, r: nat, id: Id, limit: nat)
    requires Enabled(s, Weighing(r)) && limit > 0 && LimitRead(s.requests[r], id, limit)
    ensures var t := Next(s, Weighing(r));
      ActiveCount(s.router.active, id) < limit || PendingOn(t.requests, id) <= PendingOn(s.requests, id)
  {
    var t := Next(s, Weighing(r));
    var look := s.requests[r].look;
    PutRequest(s.requests, r, t.requests[r], id);
    if ActiveCount(s.router.active, id) >= limit && Holds(t.requests[r], id) {
      WeighedFound(s.router, look, id);
      assert r in PendingOn(s.requests, id);
    }
  }

  lemma WeighedFound(s: RouterState, look: Look, id: Id)
    requires look.next < |look.index| && id in Found(Weighed(s, look))
    ensures id in Found(look) ||
      (look.index[look.next].id == id && Eligible(s.(config := look.config), look.index[look.next], false, look.now))
  {
    var after := Weighed(s, look);
    var i :| 0 <= i < |Found(after)| && Found(after)[i] == id;
    if i < |look.eligible| {
      assert Found(look)[i] == id;
    }
  }

  // The selection is one of the accounts that were read as eligible.
  lemma SelectedWasRead(s: RouterState, eligible: seq<Account>, now: Time)
    requires TierOf(eligible) != []
    ensures exists a :: a in eligible && a.id == Picked(s, TierOf(eligible), now).id
  {
    var a := PickedInTier(s, TierOf(eligible), now);
    InTierOf(eligible, a);
  }

  lemma SelectingKeeps(s: System, r: nat, id: Id)
    requires Enabled(s, Selecting(r))
    ensures PendingOn(Next(s, Selecting(r)).requests, id) <= PendingOn(s.requests, id)
  {
    var t := Next(s, Selecting(r));
    var look := s.requests[r].look;
    if TierOf(look.eligible) == [] {
      RemoveRequest(s.requests, r, id);
    } else {
      PutRequest(s.requests, r, t.requests[r], id);
      SelectedWasRead(s.router.(config := look.config), look.eligible, look.now);
      if t.requests[r].id == id {
        var a :| a in look.eligible && a.id == id;
        var i :| 0 <= i < |look.eligible| && look.eligible[i] == a;
        assert Found(look)[i] == id;
        assert r in PendingOn(s.requests, id);
      }
    }
  }

  lemma LoadReads(s: System, p: Step, id: Id, limit: nat, overlap: nat)
    requires Counted(s) && Enabled(s, p) && (p.Looking? || p.Weighing?) && limit > 0
    requires Limits(p, id, limit) && LimitsRead(s, id, limit)
    requires Load(s, id) <= limit - 1 + overlap
    requires |PendingOn(Next(s, p).requests, id)| <= overlap
    ensures Load(Next(s, p), id) <= limit - 1 + overlap
  {
    ActiveUntouched(s, p);
    if p.Looking? { LookingReads(s, p, id, limit); } else { WeighingReads(s, p.r, id, limit); }
    if PendingOn(Next(s, p).requests, id) <= PendingOn(s.requests, id) {
      Smaller(PendingOn(Next(s, p).requests, id), PendingOn(s.requests, id));
    } else {
      assert |LeasesOn(s.requests, id)| == ActiveCount(s.router.active, id) < limit;
    }
  }

  lemma BindingKeeps(s: System, p: Step, id: Id)
    requires Enabled(s, p) && p.Binding?
    ensures PendingOn(Next(s, p).requests, id) <= PendingOn(s.requests, id)
  {
    PutRequest(s.requests, p.r, Next(s, p).requests[p.r], id);
    assert p.r in PendingOn(s.requests, id) <==> s.requests[p.r].id == id;
  }

  lemma LoadMoves(s: System, p: Step, id: Id)
    requires Enabled(s, p) && (p.Selecting? || p.Binding? || p.Refusing? || p.Judging? || p.Elsewhere?)
    ensures Load(Next(s, p), id) <= Load(s, id)
  {
    ActiveUntouched(s, p);
    var before, after := PendingOn(s.requests, id), PendingOn(Next(s, p).requests, id);
    if p.Selecting? {
      SelectingKeeps(s, p.r, id);
    } else if p.Binding? {
      BindingKeeps(s, p, id);
    } else if !p.Elsewhere? {
      VerdictShape(s, p, id);
    } else {
      assert after == before;
    }
    Smaller(after, before);
    assert LeasesOn(Next(s, p).requests, id) == LeasesOn(s.requests, id);
  }

  lemma LoadLeasing(s: System, r: nat, id: Id)
    requires Enabled(s, Leasing(r))
    ensures Load(Next(s, Leasing(r)), id) <= Load(s, id)
  {
    var leases, pending := LeasesOn(s.requests, id), PendingOn(s.requests, id);
    PutRequest(s.requests, r, Leased(s.requests[r].id, Sending), id);
    assert r !in leases;
    if s.requests[r].id == id {
      assert r in pending;
      MovesOver(pending, leases, r);
    } else {
      assert r !in pending;
      assert leases - {r} == leases && pending - {r} == pending;
    }
  }

  lemma MovesOver(a: set<nat>, b: set<nat>, r: nat)
    requires r in a && r !in b
    ensures |a - {r}| + |b + {r}| == |a| + |b|
  {
  }

  lemma LoadDropping(s: System, r: nat, id: Id)
    requires Enabled(s, Dropping(r))
    ensures Load(Next(s, Dropping(r)), id) <= Load(s, id)
  {
    var t := Next(s, Dropping(r));
    RemoveRequest(s.requests, r, id);
    Smaller(LeasesOn(t.requests, id), LeasesOn(s.requests, id));
    Smaller(PendingOn(t.requests, id), PendingOn(s.requests, id));
  }

  lemma Smaller(a: set<nat>, b: set<nat>)
    requires a <= b
    ensures |a| <= |b|
  {
    assert b == a + (b - a);
  }

  lemma LoadStays(s: System, p: Step, id: Id, limit: nat, overlap: nat)
    requires Counted(s) && Enabled(s, p) && limit > 0 && Limits(p, id, limit) && LimitsRead(s, id, limit)
    requires Load(s, id) <= limit - 1 + overlap && |PendingOn(Next(s, p).requests, id)| <= overlap
    ensures Load(Next(s, p), id) <= limit - 1 + overlap
  {
    if p.Looking? || p.Weighing? {
      LoadReads(s, p, id, limit, overlap);
    } else if p.Leasing? {
      LoadLeasing(s, p.r, id);
    } else if p.Dropping? {
      LoadDropping(s, p.r, id);
    } else {
      LoadMoves(s, p, id);
    }
  }

  // At most `overlap` requests hold the account without a lease, all along.
  ghost predicate Overlaps(s: System, ps: seq<Step>, id: Id, overlap: nat)
    requires Runs(s, ps)
    decreases |ps|
  {
    && |PendingOn(s.requests, id)| <= overlap
    && (ps != [] ==> Overlaps(Next(s, ps[0]), ps[1..], id, overlap))
  }

  // In every reachable state an account with limit L > 0 has at most L - 1 + T
  // requests, leased or still able to take a lease, when at most T are ever
  // between reading it as eligible and taking or giving up the lease; so the
  // limit itself holds when they do not overlap. Its count is the number of its
  // live leases.
  lemma {:induction false} LimitHolds(s: System, ps: seq<Step>, id: Id, limit: nat, overlap: nat)
    requires Counted(s) && LimitsRead(s, id, limit) && Runs(s, ps) && limit > 0 && Overlaps(s, ps, id, overlap)
    requires forall i :: 0 <= i < |ps| ==> Limits(ps[i], id, limit)
    requires Load(s, id) <= limit - 1 + overlap
    ensures Counted(End(s, ps)) && Load(End(s, ps), id) <= limit - 1 + overlap
    ensures ActiveCount(End(s, ps).router.active, id) + |PendingOn(End(s, ps).requests, id)| <= limit - 1 + overlap
    decreases |ps|
  {
    if ps != [] {
      CountedStays(s, ps[0]);
      LimitsReadStays(s, ps[0], id, limit);
      LoadStays(s, ps[0], id, limit, overlap);
      forall i | 0 <= i < |ps[1..]| ensures Limits(ps[1..][i], id, limit) {
        assert ps[1..][i] == ps[i + 1];
      }
      LimitHolds(Next(s, ps[0]), ps[1..], id, limit, overlap);
    }
  }

  // ---------------------------------------------------------------- whole routes

  // The same requests with a route as one step: what begins by looking ends by
  // being routed or refused, and the rest goes as before.
  predicate EnabledWhole(s: System, p: Step) {
    Enabled(s, p) && !p.Weighing? && !p.Selecting? && !p.Binding?
  }

  function NextWhole(s: System, p: Step): System
    requires EnabledWhole(s, p)
  {
    if p.Looking? then WholeRoute(s, p.r, p.index, p.key, p.now) else Next(s, p)
  }

  predicate RunsWhole(s: System, ps: seq<Step>)
    decreases |ps|
  {
    ps == [] || (EnabledWhole(s, ps[0]) && RunsWhole(NextWhole(s, ps[0]), ps[1..]))
  }

  function EndWhole(s: System, ps: seq<Step>): System
    requires RunsWhole(s, ps)
    decreases |ps|
  {
    if ps == [] then s else EndWhole(NextWhole(s, ps[0]), ps[1..])
  }

  ghost predicate OverlapsWhole(s: System, ps: seq<Step>, id: Id, overlap: nat)
    requires RunsWhole(s, ps)
    decreases |ps|
  {
    && |PendingOn(s.requests, id)| <= overlap
    && (ps != [] ==> OverlapsWhole(NextWhole(s, ps[0]), ps[1..], id, overlap))
  }

  lemma RouteLeavesCounts(s: System, r: nat, index: seq<Account>, key: string, now: Time, id: Id)
    requires r !in s.requests
    ensures var t := WholeRoute(s, r, index, key, now);
      t.router.active == s.router.active && LeasesOn(t.requests, id) == LeasesOn(s.requests, id)
  {
    var t := WholeRoute(s, r, index, key, now);
    if r in t.requests { PutRequest(s.requests, r, t.requests[r], id); }
    assert r !in LeasesOn(s.requests, id);
    assert LeasesOn(s.requests, id) - {r} == LeasesOn(s.requests, id);
  }

  // A route that gives the account found its count below the limit.
  lemma RoutingReads(s: System, r: nat, index: seq<Account>, key: string, now: Time, id: Id, limit: nat)
    requires r !in s.requests && limit > 0 && LimitIn(index, id, limit)
    ensures var t := WholeRoute(s, r, index, key, now);
      ActiveCount(s.router.active, id) < limit || PendingOn(t.requests, id) == PendingOn(s.requests, id)
  {
    var e, t := DoRoute(index, key, now), WholeRoute(s, r, index, key, now);
    assert r !in PendingOn(s.requests, id);
    if r in t.requests { PutRequest(s.requests, r, t.requests[r], id); }
    if Served(s.router, e) == Some(id) {
      ServedIsHealthy(s.router, e, id);
    } else {
      assert PendingOn(s.requests, id) - {r} == PendingOn(s.requests, id);
    }
  }

  lemma WholeStays(s: System, p: Step, id: Id, limit: nat, overlap: nat)
    requires Counted(s) && EnabledWhole(s, p) && limit > 0 && Limits(p, id, limit)
    requires Load(s, id) <= limit - 1 + overlap && |PendingOn(NextWhole(s, p).requests, id)| <= overlap
    ensures Counted(NextWhole(s, p)) && Load(NextWhole(s, p), id) <= limit - 1 + overlap
  {
    if p.Looking? {
      forall a ensures LeasesOn(NextWhole(s, p).requests, a) == LeasesOn(s.requests, a) {
        RouteLeavesCounts(s, p.r, p.index, p.key, p.now, a);
      }
      RouteLeavesCounts(s, p.r, p.index, p.key, p.now, id);
      RoutingReads(s, p.r, p.index, p.key, p.now, id, limit);
      assert |LeasesOn(s.requests, id)| == ActiveCount(s.router.active, id);
    } else {
      CountedStays(s, p);
      if p.Leasing? {
        LoadLeasing(s, p.r, id);
      } else if p.Dropping? {
        LoadDropping(s, p.r, id);
      } else {
        LoadMoves(s, p, id);
      }
    }
  }

  // With whole routes the overlap counts from the return of the route: at most T
  // requests that were routed to the account and hold no lease yet make for at
  // most L - 1 + T in all. With one at a time the limit is exact, whatever routes
  // weigh the account in between.
  lemma {:induction false} LimitHoldsPerRoute(s: System, ps: seq<Step>, id: Id, limit: nat, overlap: nat)
    requires Counted(s) && RunsWhole(s, ps) && limit > 0 && OverlapsWhole(s, ps, id, overlap)
    requires forall i :: 0 <= i < |ps| ==> Limits(ps[i], id, limit)
    requires Load(s, id) <= limit - 1 + overlap
    ensures Counted(EndWhole(s, ps)) && Load(EndWhole(s, ps), id) <= limit - 1 + overlap
    decreases |ps|
  {
    if ps != [] {
      WholeStays(s, ps[0], id, limit, overlap);
      forall i | 0 <= i < |ps[1..]| ensures Limits(ps[1..][i], id, limit) {
        assert ps[1..][i] == ps[i + 1];
      }
      LimitHoldsPerRoute(NextWhole(s, ps[0]), ps[1..], id, limit, overlap);
    }
  }

  lemma FreshIsCounted(config: Config, id: Id, limit: nat)
    ensures var s := System(Fresh(config), map[]); Counted(s) && LimitsRead(s, id, limit) && Load(s, id) == 0
  {
    forall a ensures LeasesOn(map[], a) == {} && PendingOn(map[], a) == {} {
    }
  }

  // ---------------------------------------------------------------- the bound is reached

  predicate Offers(s: RouterState, a: Account, key: string, now: Time) {
    !s.paused && s.circuits == map[] && key !in s.bindings && Eligible(s, a, false, now)
  }

  lemma TierOfOne(s: RouterState, a: Account, now: Time)
    requires Eligible(s, a, false, now)
    ensures BestTier(s, [a], now) == [a]
  {
    assert [a][..0] == [];
    assert Candidates(s, [a], now) == [a];
    assert SortBy([a], RouteOrder) == [a];
    assert OfPriority([a], a.priority) == [a];
  }

  lemma OnlyChoice(s: RouterState, a: Account, key: string, now: Time)
    requires key !in s.bindings && Eligible(s, a, false, now)
    ensures Choose(s, [a], key, now).New? && Choose(s, [a], key, now).id == a.id
  {
    TierOfOne(s, a, now);
    Finds([a], if s.preferred.Some? then s.preferred.value else a.id);
    assert s.cursor % 1 == 0;
  }

  lemma ChooseOnly(s: System, r: nat, a: Account, key: string, now: Time)
    requires Offers(s.router, a, key, now)
    ensures var t := Choosing(s, r, [a], key, now);
      t.requests == s.requests[r := Chosen(key, a.id)] && Offers(t.router, a, key, now)
  {
    var x := Expired(s.router, now);
    assert x.circuits == map[];
    assert Eligible(x, a, false, now);
    OnlyChoice(x, a, key, now);
  }

  lemma LoadOfNew(s: System, t: System, r: nat, key: string, id: Id)
    requires r !in s.requests && t.requests == s.requests[r := Chosen(key, id)]
    ensures Load(t, id) == Load(s, id) + 1
  {
    PutRequest(s.requests, r, Chosen(key, id), id);
    assert r !in PendingOn(s.requests, id) && r !in LeasesOn(s.requests, id);
    assert LeasesOn(s.requests, id) - {r} == LeasesOn(s.requests, id);
  }

  // Any number of requests can be given an account with one free place, when
  // each chooses before any takes its lease: the bound of LimitHolds is tight.
  lemma {:induction false} OverlapOverrunsLimit(
      s: System, r: nat, n: nat, a: Account, key: string, now: Time, rs: set<nat>) returns (t: System)
    requires forall i :: r <= i ==> i !in s.requests
    requires forall i :: r <= i < r + n ==> i in rs
    requires Offers(s.router, a, key, now)
    ensures Leads(s, t, OfRequests(rs)) && Load(t, a.id) == Load(s, a.id) + n
    decreases n
  {
    if n == 0 {
      LeadsSelf(s, OfRequests(rs));
      t := s;
    } else {
      var u := Choosing(s, r, [a], key, now);
      assert r in rs;
      WholeChoice(s, r, [a], key, now, OfRequests(rs));
      ChooseOnly(s, r, a, key, now);
      LoadOfNew(s, u, r, key, a.id);
      t := OverlapOverrunsLimit(u, r + 1, n - 1, a, key, now, rs);
      LeadsTrans(s, u, t, OfRequests(rs));
    }
  }

  // ---------------------------------------------------------------- sessions, one lock at a time

  // The request may still bind the key.
  predicate WillBind(p: Phase, key: string) {
    (p.Reading? || p.Chosen?) && p.key == key
  }

  function Unbinding(requests: map<nat, Phase>, key: string): set<nat> {
    set r | r in requests && WillBind(requests[r], key)
  }

  // A request on the key that is not leased is on its way to this account.
  predicate OnItsWay(p: Phase, key: string, id: Id) {
    !p.Leased? && p.key == key ==> !p.Reading? && p.id == id
  }

  // The key is on its way to one account, and no request took it elsewhere.
  ghost predicate Anchored(s: System, key: string, id: Id) {
    && (key in s.router.bindings ==> s.router.bindings[key] == id)
    && (forall r :: r in s.requests ==> OnItsWay(s.requests[r], key, id))
    && (key in s.router.bindings || Unbinding(s.requests, key) != {})
  }

  // Before the key is bound, a request may start on it only while none may still
  // bind it.
  predicate Orderly(s: System, p: Step, key: string) {
    && (p.Looking? && p.key == key ==> key in s.router.bindings || Unbinding(s.requests, key) == {})
    && (p.Elsewhere? ==> !Rebinds(p.e, key))
  }

  ghost predicate OrderlyRun(s: System, ps: seq<Step>, key: string)
    requires Runs(s, ps)
    decreases |ps|
  {
    ps != [] ==> Orderly(s, ps[0], key) && OrderlyRun(Next(s, ps[0]), ps[1..], key)
  }

  // What a step writes: one request, and a binding only for the key it holds.
  lemma StepBindings(s: System, p: Step)
    requires Enabled(s, p) && !p.Elsewhere?
    ensures var t := Next(s, p);
      t.router.bindings ==
        if p.Binding? then s.router.bindings[s.requests[p.r].key := s.requests[p.r].id] else s.router.bindings
  {
  }

  lemma AnchorLooking(s: System, p: Step, key: string, id: Id)
    requires Anchored(s, key, id) && Enabled(s, p) && Orderly(s, p, key) && p.Looking?
    ensures forall r :: r in Next(s, p).requests ==> OnItsWay(Next(s, p).requests[r], key, id)
    ensures Unbinding(s.requests, key) <= Unbinding(Next(s, p).requests, key)
  {
    var t := Next(s, p);
    forall r | r in t.requests ensures OnItsWay(t.requests[r], key, id) {
      assert r in s.requests ==> OnItsWay(s.requests[r], key, id);
    }
  }

  lemma AnchorMoves(s: System, p: Step, key: string, id: Id)
    requires Anchored(s, key, id) && Enabled(s, p) && !p.Looking? && !p.Elsewhere?
    ensures forall r :: r in Next(s, p).requests ==> OnItsWay(Next(s, p).requests[r], key, id)
    ensures Unbinding(s.requests, key) - (if p.Binding? then {p.r} else {}) <= Unbinding(Next(s, p).requests, key)
  {
    var t := Next(s, p);
    assert p.r in s.requests && OnItsWay(s.requests[p.r], key, id);
    forall r | r in t.requests ensures OnItsWay(t.requests[r], key, id) {
      assert r in s.requests && OnItsWay(s.requests[r], key, id);
    }
  }

  lemma AnchorStays(s: System, p: Step, key: string, id: Id)
    requires Anchored(s, key, id) && Enabled(s, p) && Orderly(s, p, key)
    ensures Anchored(Next(s, p), key, id)
  {
    var t := Next(s, p);
    if p.Elsewhere? {
      AnchorElsewhere(s.router, p.e, key);
    } else {
      StepBindings(s, p);
      if p.Looking? { AnchorLooking(s, p, key, id); } else { AnchorMoves(s, p, key, id); }
      assert p.Binding? ==> OnItsWay(s.requests[p.r], key, id);
      if key !in t.router.bindings {
        var r :| r in Unbinding(s.requests, key);
        assert p.Binding? ==> r != p.r;
        assert r in Unbinding(t.requests, key);
      }
    }
  }

  lemma AnchorElsewhere(s: RouterState, e: Event, key: string)
    requires !e.DoRoute? && !Rebinds(e, key)
    ensures key in s.bindings <==> key in Apply(s, e).bindings
    ensures key in s.bindings ==> Apply(s, e).bindings[key] == s.bindings[key]
  {
  }

  // With locks taken one at a time, a key stays on its account if no two first
  // requests overlap between looking it up and binding it.
  lemma {:induction false} OrderlySessionsNeverMigrate(s: System, ps: seq<Step>, key: string, id: Id)
    requires Anchored(s, key, id) && Runs(s, ps) && OrderlyRun(s, ps, key)
    ensures Anchored(End(s, ps), key, id)
    decreases |ps|
  {
    if ps != [] {
      AnchorStays(s, ps[0], key, id);
      OrderlySessionsNeverMigrate(Next(s, ps[0]), ps[1..], key, id);
    }
  }

  // ---------------------------------------------------------------- overlapping first requests

  // Whoever has been routed on the key has been given this account.
  predicate KeepsTo(s: System, key: string, id: Id) {
    forall r | r in s.requests && s.requests[r].RoutedTo? && s.requests[r].key == key :: s.requests[r].id == id
  }

  // Any step but those that unbind or rebind the key; every route reads this index.
  function Further(key: string, index: seq<Account>): Step -> bool {
    (p: Step) => (p.Elsewhere? ==> !Rebinds(p.e, key)) && (p.Looking? ==> p.index == index)
  }

  predicate Rebinding(p: Step, key: string) {
    p.Elsewhere? && Rebinds(p.e, key)
  }

  // Once bound, the key stays, however its requests overlap.
  lemma {:induction false} BoundKeyStays(s: System, ps: seq<Step>, key: string, id: Id)
    requires Anchored(s, key, id) && key in s.router.bindings && Runs(s, ps)
    requires forall i :: 0 <= i < |ps| ==> !Rebinding(ps[i], key)
    ensures Anchored(End(s, ps), key, id) && key in End(s, ps).router.bindings && KeepsTo(End(s, ps), key, id)
    decreases |ps|
  {
    if ps == [] {
      assert forall r :: r in s.requests ==> OnItsWay(s.requests[r], key, id);
    } else {
      var p := ps[0];
      assert !Rebinding(p, key);
      AnchorStays(s, p, key, id);
      if p.Elsewhere? { AnchorElsewhere(s.router, p.e, key); } else { StepBindings(s, p); }
      forall i | 0 <= i < |ps[1..]| ensures !Rebinding(ps[1..][i], key) {
        assert ps[1..][i] == ps[i + 1];
      }
      BoundKeyStays(Next(s, p), ps[1..], key, id);
    }
  }

  // A route on a key without binding is not given an account with an open circuit.
  lemma ChoosesOpen(x: RouterState, index: seq<Account>, key: string, now: Time, b: Account)
    requires key !in x.bindings && b in index && Eligible(x, b, false, now)
    ensures var c := Choose(x, index, key, now); c.New? && c.id !in x.circuits
  {
    TierOfEligible(x, index, now);
    var a := PickedInTier(x, BestTier(x, index, now), now);
    InBestTier(x, index, now, a);
  }

  lemma NextFree(requests: map<nat, Phase>) returns (q: nat)
    ensures q !in requests
  {
    q := Above(requests.Keys);
  }

  // While a request holds its choice without having bound the key, another can be
  // given a different account, whatever the strategy: the first account need only
  // drop out, and any other be eligible.
  lemma UnboundKeyMoves(s: System, r: nat, key: string, id: Id, index: seq<Account>, b: Account, now: Time)
    returns (t: System, q: nat)
    requires r in s.requests && s.requests[r] == Chosen(key, id) && key !in s.router.bindings
    requires b in index && b.id != id && Eligible(Expired(s.router, now), b, false, now)
    ensures Leads(s, t, Further(key, index)) && q !in s.requests && q in t.requests
    ensures t.requests[q].RoutedTo? && t.requests[q].key == key && t.requests[q].id != id
    ensures r in t.requests && t.requests[r] == RoutedTo(key, id)
  {
    var ok := Further(key, index);
    q := NextFree(s.requests);
    var u := DropsOut(s, key, id, index, b, now);
    var other := ChoosesAnother(u, q, key, id, index, b, now);
    assert Leads(u, Choosing(u, q, index, key, now), ok) by { WholeChoice(u, q, index, key, now, ok); }
    var v := Choosing(u, q, index, key, now);
    LeadsTrans(s, u, v, ok);
    t := BothBind(s, v, r, q, key, id, other, index, now);
  }

  lemma DropsOut(s: System, key: string, id: Id, index: seq<Account>, b: Account, now: Time) returns (u: System)
    requires b.id != id && Eligible(Expired(s.router, now), b, false, now)
    ensures Leads(s, u, Further(key, index)) && u.requests == s.requests
    ensures !u.router.paused && u.router.bindings == s.router.bindings
    ensures id in u.router.circuits && u.router.circuits[id].until.None?
    ensures Eligible(Expired(u.router, now), b, false, now)
  {
    var ok, open := Further(key, index), Elsewhere(DoOpen(id, Forbidden, None));
    OneStep(s, Elsewhere(DoResume), ok);
    u := Next(s, Elsewhere(DoResume));
    LeadsOn(s, u, open, ok);
    u := Next(u, open);
  }

  // With the circuit of the account open, a choice falls on another one.
  lemma ChoosesAnother(s: System, q: nat, key: string, id: Id, index: seq<Account>, b: Account, now: Time)
    returns (other: Id)
    requires !s.router.paused && key !in s.router.bindings
    requires id in s.router.circuits && s.router.circuits[id].until.None?
    requires b in index && Eligible(Expired(s.router, now), b, false, now)
    ensures other != id && Choosing(s, q, index, key, now).requests == s.requests[q := Chosen(key, other)]
  {
    var x := Expired(s.router, now);
    assert id in x.circuits;
    ChoosesOpen(x, index, key, now, b);
    other := Choose(x, index, key, now).id;
  }

  lemma BothBind(
      s: System, t: System, r: nat, q: nat, key: string, a: Id, b: Id, index: seq<Account>, now: Time)
    returns (u: System)
    requires Leads(s, t, Further(key, index)) && r != q && r in t.requests && q in t.requests
    requires t.requests[r] == Chosen(key, a) && t.requests[q] == Chosen(key, b)
    ensures Leads(s, u, Further(key, index)) && r in u.requests && q in u.requests
    ensures u.requests[r] == RoutedTo(key, a) && u.requests[q] == RoutedTo(key, b)
  {
    LeadsOn(s, t, Binding(r, now), Further(key, index));
    var v := Next(t, Binding(r, now));
    LeadsOn(s, v, Binding(q, now), Further(key, index));
    u := Next(v, Binding(q, now));
  }

  // From a state in which the key is on its way to one account, and another one is
  // eligible, every further request on the key is given the same account if and
  // only if the key is bound already: the lookup of the binding decides, and
  // neither the strategy nor the preference matters.
  lemma KeyStaysIffBound(s: System, key: string, id: Id, index: seq<Account>, b: Account, now: Time)
    requires Anchored(s, key, id)
    requires b in index && b.id != id && Eligible(Expired(s.router, now), b, false, now)
    ensures key in s.router.bindings <==> forall t :: Leads(s, t, Further(key, index)) ==> KeepsTo(t, key, id)
  {
    if key in s.router.bindings {
      forall t | Leads(s, t, Further(key, index)) ensures KeepsTo(t, key, id) {
        var ps :| Runs(s, ps) && End(s, ps) == t && AllOf(ps, Further(key, index));
        BoundKeyStays(s, ps, key, id);
      }
    } else {
      var r :| r in Unbinding(s.requests, key);
      assert OnItsWay(s.requests[r], key, id);
      var t, q := UnboundKeyMoves(s, r, key, id, index, b, now);
      assert !KeepsTo(t, key, id);
    }
  }

  lemma {:induction false} CandidatesIgnoreCursor(s: RouterState, cursor: nat, index: seq<Account>, now: Time)
    ensures Candidates(s.(cursor := cursor), index, now) == Candidates(s, index, now)
  {
    if index != [] {
      CandidatesIgnoreCursor(s, cursor, index[..|index| - 1], now);
    }
  }

  lemma ExpiredOnce(s: RouterState, cursor: nat, now: Time)
    ensures Expired(Expired(s, now).(cursor := cursor), now) == Expired(s, now).(cursor := cursor)
  {
    var e := Expired(s, now).(cursor := cursor);
    assert DueIds(e, now) == {};
    assert e.circuits - {} == e.circuits;
    if e.store.Some? { assert ClearCircuits(e.store.value, {}).runtime == e.store.value.runtime; }
  }

  // A tier that can be split: more than one account, none of them preferred,
  // served in turn.
  predicate Splits(s: RouterState, tier: seq<Account>) {
    && s.config.strategy == RoundRobin && |tier| > 1
    && (s.preferred.Some? ==> Find(tier, s.preferred.value).None?)
  }

  lemma PicksDiffer(s: RouterState, tier: seq<Account>, now: Time)
    requires tier != [] && DistinctIds(tier)
    ensures var c := Picked(s, tier, now);
      Picked(s.(cursor := CursorAfter(s.cursor, tier, c)), tier, now).id != c.id <==> Splits(s, tier)
  {
    var n := |tier|;
    ModStep(s.cursor, n);
    ModUnique((s.cursor + 1) % n, n, 0, (s.cursor + 1) % n);
    assert n > 1 ==> tier[(s.cursor + 1) % n].id != tier[s.cursor % n].id;
  }

  lemma ChoosesPicked(s: System, r: nat, index: seq<Account>, key: string, now: Time)
    requires !s.router.paused && key !in s.router.bindings
    requires BestTier(Expired(s.router, now), index, now) != []
    ensures var e := Expired(s.router, now);
      var tier := BestTier(e, index, now);
      var c := Picked(e, tier, now);
      Choosing(s, r, index, key, now) ==
        System(e.(cursor := CursorAfter(e.cursor, tier, c)), s.requests[r := Chosen(key, c.id)])
  {
  }

  // Two requests that choose one right after the other for a key without binding,
  // and find an account, are routed to different accounts if and only if the
  // strategy is round robin and the best tier has more than one account and no
  // preferred one.
  lemma UndisturbedPairSplitsIff(s: System, r: nat, q: nat, index: seq<Account>, key: string, now: Time)
    returns (t: System)
    requires r != q && r !in s.requests && q !in s.requests && !s.router.paused && key !in s.router.bindings
    requires DistinctIds(index) && BestTier(Expired(s.router, now), index, now) != []
    ensures Leads(s, t, OfRequests({r, q})) && r in t.requests && q in t.requests
    ensures t.requests[r].RoutedTo? && t.requests[q].RoutedTo? && t.requests[r].key == t.requests[q].key == key
    ensures t.requests[r].id != t.requests[q].id <==> Splits(s.router, BestTier(Expired(s.router, now), index, now))
  {
    var e := Expired(s.router, now);
    var tier := BestTier(e, index, now);
    var c := Picked(e, tier, now);
    var e1 := e.(cursor := CursorAfter(e.cursor, tier, c));
    var s1 := System(e1, s.requests[r := Chosen(key, c.id)]);
    var ok := OfRequests({r, q});
    WholeChoice(s, r, index, key, now, ok);
    ChoosesPicked(s, r, index, key, now);

    ExpiredOnce(s.router, e1.cursor, now);
    CandidatesIgnoreCursor(e, e1.cursor, index, now);
    var d := Picked(e1, tier, now);
    WholeChoice(s1, q, index, key, now, ok);
    ChoosesPicked(s1, q, index, key, now);
    TierIsDistinct(e, index, now);
    PicksDiffer(e, tier, now);

    var s2 := Choosing(s1, q, index, key, now);
    LeadsTrans(s, s1, s2, ok);
    assert s2.requests[r] == Chosen(key, c.id) && s2.requests[q] == Chosen(key, d.id);
    LeadsOn(s, s2, Binding(r, now), ok);
    var s3 := Next(s2, Binding(r, now));
    LeadsOn(s, s3, Binding(q, now), ok);
    t := Next(s3, Binding(q, now));
  }

  // On a fresh round-robin router with two equal accounts this happens.
  lemma OverlappingFirstRequestsMigrate(a: Account, b: Account, key: string, now: Time, threshold: real)
    returns (t: System)
    requires a.id.bits < b.id.bits && a.priority == b.priority
    requires var s := Fresh(Config(RoundRobin, threshold)); Eligible(s, a, false, now) && Eligible(s, b, false, now)
    ensures Leads(System(Fresh(Config(RoundRobin, threshold)), map[]), t, OfRequests({0, 1}))
    ensures 0 in t.requests && 1 in t.requests && t.requests[0].RoutedTo? && t.requests[1].RoutedTo?
    ensures t.requests[0].key == t.requests[1].key == key && t.requests[0].id != t.requests[1].id
  {
    var s := System(Fresh(Config(RoundRobin, threshold)), map[]);
    assert Expired(s.router, now) == s.router;
    TierOfTwo(s.router, a, b, now);
    t := UndisturbedPairSplitsIff(s, 0, 1, [a, b], key, now);
  }

  lemma TierOfTwo(s: RouterState, a: Account, b: Account, now: Time)
    requires a.id.bits < b.id.bits && a.priority == b.priority
    requires Eligible(s, a, false, now) && Eligible(s, b, false, now)
    ensures BestTier(s, [a, b], now) == [a, b]
  {
    assert [a, b][..1] == [a] && [a][..0] == [];
    assert Candidates(s, [a], now) == [a];
    assert Candidates(s, [a, b], now) == [a, b];
    assert SortBy([a], RouteOrder) == [a];
    assert SortBy([a, b], RouteOrder) == [a, b];
    assert OfPriority([a], a.priority) == [a];
    assert OfPriority([a, b], a.priority) == [a, b];
  }
}
