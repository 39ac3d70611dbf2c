// Requests side by side, up to the verdict on each answer: what a failure means
// for the routes that follow, while other requests still use the account.

module Verdicts {
  import opened Wrappers
  import opened Types
  import opened Routing
  import opened Selection
  import opened RoutingRuns
  import opened Interleaving

  // ---------------------------------------------------------------- the last verdict

  // The step says something about the account, or sets its circuit by hand.
  predicate RulesOn(s: System, p: Step, id: Id)
    requires Enabled(s, p)
  {
    match p
    case Refusing(r) => s.requests[r].id == id
    case Judging(r, v) => s.requests[r].id == id && !v.Silent?
    case Elsewhere(e) => Touches(e, id)
    case _ => false
  }

  predicate EndsAt(s: System, p: Step, c: Circuit) {
    || (p.Looking? && !s.router.paused && Due(c, p.now))
    || (p.Elsewhere? && p.e.DoExpire? && Due(c, p.e.now))
  }

  predicate RuledIn(s: System, ps: seq<Step>, id: Id)
    requires Runs(s, ps)
    decreases |ps|
  {
    ps != [] && (RulesOn(s, ps[0], id) || RuledIn(Next(s, ps[0]), ps[1..], id))
  }

  predicate EndedIn(s: System, ps: seq<Step>, c: Circuit)
    requires Runs(s, ps)
    decreases |ps|
  {
    ps != [] && (EndsAt(s, ps[0], c) || EndedIn(Next(s, ps[0]), ps[1..], c))
  }

  lemma RuledCarries(s: RouterState, other: Id, v: Verdict, id: Id, c: Option<Circuit>)
    requires Carries(s, id, c) && (other == id ==> v.Silent?)
    ensures Carries(Ruled(s, other, v), id, c)
  {
  }

  lemma ExpiryCarries(s: RouterState, now: Time, id: Id, c: Option<Circuit>)
    requires Carries(s, id, c)
    ensures Carries(Expired(s, now), id, if c.Some? && Due(c.value, now) then None else c)
  {
    assert id in DueIds(s, now) <==> id in s.circuits && Due(s.circuits[id], now);
  }

  lemma StepCarries(s: System, p: Step, id: Id, c: Option<Circuit>)
    requires Enabled(s, p) && !RulesOn(s, p, id) && Carries(s.router, id, c)
    ensures Carries(Next(s, p).router, id, if c.Some? && EndsAt(s, p, c.value) then None else c)
  {
    if p.Looking? {
      ExpiryCarries(s.router, p.now, id, c);
    } else if p.Refusing? {
      RuledCarries(s.router, s.requests[p.r].id, Opens(REAUTH), id, c);
    } else if p.Judging? {
      RuledCarries(s.router, s.requests[p.r].id, p.verdict, id, c);
    } else if p.Elsewhere? {
      EventLeavesCircuit(s.router, p.e, id, c);
    }
  }

  lemma {:induction false} RunCarries(s: System, ps: seq<Step>, id: Id, c: Option<Circuit>)
    requires Runs(s, ps) && !RuledIn(s, ps, id) && Carries(s.router, id, c)
    ensures Carries(End(s, ps).router, id, if c.Some? && EndedIn(s, ps, c.value) then None else c)
    decreases |ps|
  {
    if ps != [] {
      var d := if c.Some? && EndsAt(s, ps[0], c.value) then None else c;
      StepCarries(s, ps[0], id, c);
      RunCarries(Next(s, ps[0]), ps[1..], id, d);
    }
  }

  // However requests overlap, the circuit of an account is that of the verdict
  // that came last: open after a failure until a lookup or an expiry finds its
  // deadline past, closed after a success.
  lemma LastVerdictStands(s: System, r: nat, v: Verdict, ps: seq<Step>)
    requires Enabled(s, Judging(r, v)) && !v.Silent? && Runs(Next(s, Judging(r, v)), ps)
    requires !RuledIn(Next(s, Judging(r, v)), ps, s.requests[r].id)
    ensures var id, t := s.requests[r].id, Next(s, Judging(r, v));
      var circuits := End(t, ps).router.circuits;
      if v.Opens? then
        && (id in circuits <==> !EndedIn(t, ps, v.circuit))
        && (id in circuits ==> circuits[id] == v.circuit)
      else id !in circuits
  {
    RunCarries(Next(s, Judging(r, v)), ps, s.requests[r].id, if v.Opens? then Some(v.circuit) else None);
  }

  // ---------------------------------------------------------------- rivals

  predicate HasId(accounts: seq<Account>, id: Id) {
    exists a | a in accounts :: a.id == id
  }

  // The request can still bring the account a success: it sends on a lease of the
  // account, or can still be given one. A request that collects accounts can still
  // select those of the best tier so far; one that is judged says nothing more.
  predicate MayClose(p: Phase, id: Id) {
    match p
    case Reading(_, look) => HasId(TierOf(look.eligible), id)
    case Chosen(_, a) => a == id
    case RoutedTo(_, a) => a == id
    case Leased(a, stage) => a == id && stage.Sending?
  }

  function Rivals(requests: map<nat, Phase>, id: Id): set<nat> {
    set r | r in requests && MayClose(requests[r], id)
  }

  // A rival holds a lease on the account or is about to take one.
  lemma RivalsAreHolders(requests: map<nat, Phase>, id: Id)
    ensures Rivals(requests, id) <= LeasesOn(requests, id) + PendingOn(requests, id)
  {
    forall r | r in Rivals(requests, id) ensures r in LeasesOn(requests, id) + PendingOn(requests, id) {
      if requests[r].Reading? {
        var eligible := requests[r].look.eligible;
        var a :| a in TierOf(eligible) && a.id == id;
        InTierOf(eligible, a);
        var i :| 0 <= i < |eligible| && eligible[i] == a;
        assert Found(requests[r].look)[i] == id;
      }
    }
  }

  // ---------------------------------------------------------------- after a failure

  // d does not end before c.
  predicate Outlasts(d: Circuit, c: Circuit) {
    d.until.Some? ==> c.until.Some? && c.until.value <= d.until.value
  }

  // Steps before the deadline of c that leave the circuit of the account to the
  // requests: nobody opens or closes it by hand, and no store is attached.
  function Sparing(id: Id, c: Circuit): Step -> bool {
    (p: Step) => (p.Looking? ==> !Due(c, p.now))
                 && (p.Elsewhere? ==> !Touches(p.e, id) && (p.e.DoExpire? ==> !Due(c, p.e.now)))
  }

  predicate Blocked(s: RouterState, id: Id, c: Circuit) {
    id in s.circuits && Outlasts(s.circuits[id], c)
  }

  ghost predicate Quarantined(s: System, id: Id, c: Circuit) {
    Blocked(s.router, id, c) && forall r :: r in s.requests ==> !MayClose(s.requests[r], id)
  }

  lemma ExpiryKeepsBlock(s: RouterState, now: Time, id: Id, c: Circuit)
    requires Blocked(s, id, c) && !Due(c, now)
    ensures Blocked(Expired(s, now), id, c)
  {
  }

  lemma ElsewhereKeepsBlock(s: RouterState, e: Event, id: Id, c: Circuit)
    requires Blocked(s, id, c) && !e.DoRoute? && !e.DoRestart? && !Touches(e, id)
    requires e.DoExpire? ==> !Due(c, e.now)
    ensures Blocked(Apply(s, e), id, c)
  {
  }

  lemma RuledKeepsBlock(s: RouterState, other: Id, v: Verdict, id: Id, c: Circuit)
    requires Blocked(s, id, c) && (other == id ==> v == Opens(REAUTH))
    ensures Blocked(Ruled(s, other, v), id, c)
  {
  }

  // What is not in the tier does not come into it with another account.
  lemma TierGrows(eligible: seq<Account>, x: Account, id: Id)
    requires !HasId(TierOf(eligible), id) && x.id != id
    ensures !HasId(TierOf(eligible + [x]), id)
  {
    forall a | a in TierOf(eligible + [x]) ensures a.id != id {
      InTierOf(eligible + [x], a);
      if a != x {
        assert a in eligible;
        forall b | b in eligible ensures a.priority <= b.priority { assert b in eligible + [x]; }
        InTierOf(eligible, a);
      }
    }
  }

  lemma LookingQuarantined(s: System, p: Step, id: Id, c: Circuit)
    requires Quarantined(s, id, c) && Enabled(s, p) && p.Looking? && !Due(c, p.now)
    ensures Quarantined(Next(s, p), id, c)
  {
    var t := Next(s, p);
    ExpiryKeepsBlock(s.router, p.now, id, c);
    if p.r in t.requests {
      var q := t.requests[p.r];
      if q.RoutedTo? {
        Finds(p.index, q.id);
      } else {
        assert q.look.eligible == [] && TierOf([]) == [];
      }
      assert !MayClose(q, id);
    }
  }

  lemma WeighingQuarantined(s: System, r: nat, id: Id, c: Circuit)
    requires Quarantined(s, id, c) && Enabled(s, Weighing(r))
    ensures Quarantined(Next(s, Weighing(r)), id, c)
  {
    var look := s.requests[r].look;
    assert !MayClose(s.requests[r], id);
    var a := look.index[look.next];
    if Eligible(s.router.(config := look.config), a, false, look.now) {
      TierGrows(look.eligible, a, id);
    } else {
      assert look.eligible + [] == look.eligible;
    }
  }

  lemma SelectingQuarantined(s: System, r: nat, id: Id, c: Circuit)
    requires Quarantined(s, id, c) && Enabled(s, Selecting(r))
    ensures Quarantined(Next(s, Selecting(r)), id, c)
  {
    var look := s.requests[r].look;
    assert !MayClose(s.requests[r], id);
    if TierOf(look.eligible) != [] {
      var a := PickedInTier(s.router.(config := look.config), TierOf(look.eligible), look.now);
    }
  }

  lemma OthersQuarantined(s: System, p: Step, id: Id, c: Circuit)
    requires Quarantined(s, id, c) && Enabled(s, p)
    requires p.Binding? || p.Leasing? || p.Refusing? || p.Judging? || p.Dropping?
    ensures Quarantined(Next(s, p), id, c)
  {
    assert !MayClose(s.requests[p.r], id);
    var other := s.requests[p.r].id;
    if p.Refusing? { RuledKeepsBlock(s.router, other, Opens(REAUTH), id, c); }
    if p.Judging? { RuledKeepsBlock(s.router, other, p.verdict, id, c); }
  }

  lemma StepQuarantined(s: System, p: Step, id: Id, c: Circuit)
    requires Quarantined(s, id, c) && Enabled(s, p) && Sparing(id, c)(p)
    ensures Quarantined(Next(s, p), id, c)
  {
    if p.Looking? {
      LookingQuarantined(s, p, id, c);
    } else if p.Weighing? {
      WeighingQuarantined(s, p.r, id, c);
    } else if p.Selecting? {
      SelectingQuarantined(s, p.r, id, c);
    } else if p.Elsewhere? {
      ElsewhereKeepsBlock(s.router, p.e, id, c);
    } else {
      OthersQuarantined(s, p, id, c);
    }
  }

  lemma {:induction false} RunQuarantined(s: System, ps: seq<Step>, id: Id, c: Circuit)
    requires Quarantined(s, id, c) && Runs(s, ps) && AllOf(ps, Sparing(id, c))
    ensures Quarantined(End(s, ps), id, c)
    decreases |ps|
  {
    if ps != [] {
      StepQuarantined(s, ps[0], id, c);
      RunQuarantined(Next(s, ps[0]), ps[1..], id, c);
    }
  }

  // ---------------------------------------------------------------- what a rival can do

  // A route has given the account and its lease is yet to be taken.
  predicate GivenTo(requests: map<nat, Phase>, id: Id) {
    exists r | r in requests :: requests[r].RoutedTo? && requests[r].id == id
  }

  lemma ChosenIsGiven(s: System, q: nat, id: Id, c: Circuit) returns (t: System)
    requires q in s.requests && s.requests[q].Chosen? && s.requests[q].id == id
    ensures Leads(s, t, Sparing(id, c)) && GivenTo(t.requests, id)
  {
    OneStep(s, Binding(q, 0), Sparing(id, c));
    t := Next(s, Binding(q, 0));
    assert t.requests[q].RoutedTo? && t.requests[q].id == id;
  }

  // The other accounts still to be weighed can all drop out.
  lemma {:induction false} ReadsNoMore(s: System, q: nat, id: Id, c: Circuit) returns (t: System)
    requires Looks(s, q) && id in s.router.circuits && s.requests[q].look.next <= |s.requests[q].look.index|
    ensures Leads(s, t, Sparing(id, c)) && Looks(t, q) && t.requests[q].look.next == |t.requests[q].look.index|
    ensures t.requests[q].look.eligible == s.requests[q].look.eligible
    decreases |s.requests[q].look.index| - s.requests[q].look.next
  {
    var ok, look := Sparing(id, c), s.requests[q].look;
    LeadsSelf(s, ok);
    if look.next == |look.index| {
      t := s;
    } else {
      var x := look.index[look.next].id;
      var u := s;
      if x != id {
        LeadsOn(s, s, Elsewhere(DoOpen(x, Forbidden, None)), ok);
        u := Next(s, Elsewhere(DoOpen(x, Forbidden, None)));
      }
      LeadsOn(s, u, Weighing(q), ok);
      var v := Next(u, Weighing(q));
      assert look.eligible + [] == look.eligible;
      t := ReadsNoMore(v, q, id, c);
      LeadsTrans(s, v, t, ok);
    }
  }

  lemma ReaderIsGiven(s: System, q: nat, id: Id, c: Circuit) returns (t: System)
    requires Looks(s, q) && MayClose(s.requests[q], id) && id in s.router.circuits
    requires s.requests[q].look.next <= |s.requests[q].look.index|
    ensures Leads(s, t, Sparing(id, c)) && GivenTo(t.requests, id)
  {
    var ok := Sparing(id, c);
    var u := ReadsNoMore(s, q, id, c);
    LeadsOn(s, u, Elsewhere(DoPrefer(id)), ok);
    var v := Next(u, Elsewhere(DoPrefer(id)));
    Finds(TierOf(v.requests[q].look.eligible), id);
    LeadsOn(s, v, Selecting(q), ok);
    var w := Next(v, Selecting(q));
    t := ChosenIsGiven(w, q, id, c);
    LeadsTrans(s, w, t, ok);
  }

  // Every lease on the account can be given back.
  lemma {:induction false} LeasesEnd(s: System, id: Id, c: Circuit) returns (t: System)
    requires Counted(s)
    ensures Leads(s, t, Sparing(id, c)) && ActiveCount(t.router.active, id) == 0
    ensures t.router == s.router.(active := t.router.active)
    decreases |LeasesOn(s.requests, id)|
  {
    var ok := Sparing(id, c);
    LeadsSelf(s, ok);
    if LeasesOn(s.requests, id) == {} {
      t := s;
    } else {
      var r :| r in LeasesOn(s.requests, id);
      LeadsOn(s, s, Dropping(r), ok);
      var u := Next(s, Dropping(r));
      CountedStays(s, Dropping(r));
      RemoveRequest(s.requests, r, id);
      t := LeasesEnd(u, id, c);
      LeadsTrans(s, u, t, ok);
    }
  }

  // Fit for a new session but for its circuit and its load.
  predicate Fit(s: RouterState, a: Account, now: Time) {
    Eligible(s.(circuits := map[], active := map[]), a, false, now)
  }

  // The success of another request closes the circuit, and the next route gives
  // the account again.
  lemma SenderReopens(s: System, q: nat, id: Id, c: Circuit, a: Account, now: Time) returns (t: System)
    requires Counted(s) && q in s.requests && s.requests[q] == Leased(id, Sending)
    requires a.id == id && Fit(s.router, a, now) && !Due(c, now)
    ensures Leads(s, t, Sparing(id, c)) && GivenTo(t.requests, id)
  {
    var ok := Sparing(id, c);
    OneStep(s, Judging(q, Closes), ok);
    var u := Next(s, Judging(q, Closes));
    CountedStays(s, Judging(q, Closes));
    var v := LeasesEnd(u, id, c);
    LeadsTrans(s, u, v, ok);
    t := FreeIsGiven(v, id, c, a, now);
    LeadsTrans(s, v, t, ok);
  }

  lemma FreeIsGiven(s: System, id: Id, c: Circuit, a: Account, now: Time) returns (t: System)
    requires id !in s.router.circuits && ActiveCount(s.router.active, id) == 0
    requires a.id == id && Fit(s.router, a, now) && !Due(c, now)
    ensures Leads(s, t, Sparing(id, c)) && GivenTo(t.requests, id)
  {
    var ok, key := Sparing(id, c), "";
    var r := NextFree(s.requests);
    LeadsSelf(s, ok);
    LeadsOn(s, s, Elsewhere(DoResume), ok);
    var u := Next(s, Elsewhere(DoResume));
    LeadsOn(s, u, Elsewhere(DoUnbind(key)), ok);
    u := Next(u, Elsewhere(DoUnbind(key)));
    var x := Expired(u.router, now);
    assert Eligible(x, a, false, now);
    OnlyChoice(x, a, key, now);
    WholeChoice(u, r, [a], key, now, ok);
    var v := Choosing(u, r, [a], key, now);
    LeadsTrans(s, u, v, ok);
    t := ChosenIsGiven(v, r, id, c);
    LeadsTrans(s, v, t, ok);
  }

  // ---------------------------------------------------------------- the condition

  // A request that collects accounts has not passed the end of its index.
  ghost predicate InIndex(s: System) {
    forall r :: r in s.requests && s.requests[r].Reading? ==> s.requests[r].look.next <= |s.requests[r].look.index|
  }

  lemma InIndexStays(s: System, p: Step)
    requires InIndex(s) && Enabled(s, p)
    ensures InIndex(Next(s, p))
  {
  }

  // After a failure opened the circuit of an account, no route gives the account
  // before the deadline of the failure, in everything that can follow, if and only
  // if no other request has, or can still be given, a lease on the account that is
  // yet to be judged. A success of such a request closes the circuit.
  lemma FailureEndsRoutingIff(s: System, r: nat, c: Circuit, a: Account, now: Time)
    requires Counted(s) && InIndex(s) && Enabled(s, Judging(r, Opens(c)))
    requires a.id == s.requests[r].id && Fit(s.router, a, now) && !Due(c, now)
    ensures var t := Next(s, Judging(r, Opens(c)));
      Rivals(t.requests, a.id) == {} <==> forall u :: Leads(t, u, Sparing(a.id, c)) ==> !GivenTo(u.requests, a.id)
  {
    var id, t := a.id, Next(s, Judging(r, Opens(c)));
    CountedStays(s, Judging(r, Opens(c)));
    InIndexStays(s, Judging(r, Opens(c)));
    if Rivals(t.requests, id) == {} {
      forall u | Leads(t, u, Sparing(id, c)) ensures !GivenTo(u.requests, id) {
        NoRivalNoRoute(s, r, c, u);
      }
    } else {
      var q :| q in Rivals(t.requests, id);
      var u := RivalIsGiven(t, q, id, c, a, now);
    }
  }

  // Without a rival this holds for any account, fit or not.
  lemma NoRivalNoRoute(s: System, r: nat, c: Circuit, u: System)
    requires Enabled(s, Judging(r, Opens(c)))
    requires var t := Next(s, Judging(r, Opens(c)));
      Rivals(t.requests, s.requests[r].id) == {} && Leads(t, u, Sparing(s.requests[r].id, c))
    ensures !GivenTo(u.requests, s.requests[r].id) && s.requests[r].id in u.router.circuits
  {
    var id, t := s.requests[r].id, Next(s, Judging(r, Opens(c)));
    forall q | q in t.requests ensures !MayClose(t.requests[q], id) { assert q !in Rivals(t.requests, id); }
    var ps :| Runs(t, ps) && End(t, ps) == u && AllOf(ps, Sparing(id, c));
    RunQuarantined(t, ps, id, c);
    assert forall q :: q in u.requests ==> !MayClose(u.requests[q], id);
  }

  lemma RivalIsGiven(s: System, q: nat, id: Id, c: Circuit, a: Account, now: Time) returns (t: System)
    requires Counted(s) && InIndex(s) && id in s.router.circuits && q in Rivals(s.requests, id)
    requires a.id == id && Fit(s.router, a, now) && !Due(c, now)
    ensures Leads(s, t, Sparing(id, c)) && GivenTo(t.requests, id)
  {
    var p := s.requests[q];
    if p.Reading? {
      t := ReaderIsGiven(s, q, id, c);
    } else if p.Chosen? {
      t := ChosenIsGiven(s, q, id, c);
    } else if p.RoutedTo? {
      LeadsSelf(s, Sparing(id, c));
      t := s;
    } else {
      t := SenderReopens(s, q, id, c, a, now);
    }
  }
}
