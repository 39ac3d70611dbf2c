// The round-robin cursor over whole runs: it serves the accounts of the best tier
// in turn, from any starting value and with anything else happening in between.
// The tier is told by its identifiers: its accounts may be checked again, change
// their quotas or be renamed from pick to pick.

module RoundRobinFairness {
  import opened Arithmetic
  import opened Wrappers
  import opened Types
  import opened Routing
  import opened RoutingRuns

  predicate IsPick(s: RouterState, e: Event) {
    && e.DoRoute? && !s.paused
    && var c := Choose(Expired(s, e.now), e.index, e.key, e.now);
       c.New? && c.why == ByStrategy(RoundRobin)
  }

  function TierAt(s: RouterState, e: Event): seq<Account>
    requires e.DoRoute?
  {
    BestTier(Expired(s, e.now), e.index, e.now)
  }

  function IdsOf(tier: seq<Account>): seq<Id> {
    seq(|tier|, i requires 0 <= i < |tier| => tier[i].id)
  }

  ghost predicate Distinct(ids: seq<Id>) {
    forall i, j :: 0 <= i < j < |ids| ==> ids[i] != ids[j]
  }

  // Every pick of the run meets a tier of the same accounts, and no restart
  // resets the cursor.
  ghost predicate Steady(s: RouterState, es: seq<Event>, ids: seq<Id>) {
    es != [] ==>
      && Steady(s, es[..|es| - 1], ids)
      && !es[|es| - 1].DoRestart?
      && Meets(After(s, es[..|es| - 1]), es[|es| - 1], ids)
  }

  predicate Meets(s: RouterState, e: Event, ids: seq<Id>) {
    IsPick(s, e) ==> IdsOf(TierAt(s, e)) == ids
  }

  // The accounts served by the picks of the run, in order.
  function Picks(s: RouterState, es: seq<Event>): seq<Id> {
    if es == [] then []
    else
      var n := |es| - 1;
      Picks(s, es[..n]) + PickOf(After(s, es[..n]), es[n])
  }

  // Turn k is served by position (c + k) mod |ids|.
  ghost predicate Rotates(picks: seq<Id>, ids: seq<Id>, c: nat)
    requires ids != []
  {
    forall k :: 0 <= k < |picks| ==> picks[k] == ids[(c + k) % |ids|]
  }

  lemma RotatesPrefix(picks: seq<Id>, ids: seq<Id>, c: nat, m: nat)
    requires ids != [] && m <= |picks| && Rotates(picks, ids, c)
    ensures Rotates(picks[..m], ids, c)
  {
    forall k | 0 <= k < m ensures picks[..m][k] == ids[(c + k) % |ids|] {
      assert picks[..m][k] == picks[k];
    }
  }

  lemma RotatesWindow(picks: seq<Id>, ids: seq<Id>, c: nat, i: nat, j: nat)
    requires ids != [] && i <= j <= |picks| && Rotates(picks, ids, c)
    ensures Rotates(picks[i..j], ids, c + i)
  {
    forall k | 0 <= k < j - i ensures picks[i..j][k] == ids[(c + i + k) % |ids|] {
      assert picks[i..j][k] == picks[i + k] && c + i + k == c + (i + k);
    }
  }

  lemma PickStep(s: RouterState, e: Event, ids: seq<Id>)
    requires ids != [] && !e.DoRestart? && Meets(s, e, ids)
    ensures if IsPick(s, e)
      then Served(s, e) == Some(ids[s.cursor % |ids|]) && Apply(s, e).cursor == (s.cursor + 1) % |ids|
      else Apply(s, e).cursor == s.cursor
  {
    assert IsPick(s, e) ==> |TierAt(s, e)| == |ids| && IdsOf(TierAt(s, e))[s.cursor % |ids|] == ids[s.cursor % |ids|];
  }

  // The cursor, after so many picks, is congruent to the count of turns.
  ghost predicate Turned(cursor: nat, c: nat, picks: seq<Id>, n: nat)
    requires 0 < n
  {
    cursor % n == (c + |picks|) % n
  }

  lemma TurnOnce(picks: seq<Id>, ids: seq<Id>, c: nat, cursor: nat)
    requires ids != [] && Rotates(picks, ids, c) && Turned(cursor, c, picks, |ids|)
    ensures var next := picks + [ids[cursor % |ids|]];
      Rotates(next, ids, c) && Turned((cursor + 1) % |ids|, c, next, |ids|)
  {
    ModStep(cursor, |ids|);
    ModStep(c + |picks|, |ids|);
    ModUnique((cursor + 1) % |ids|, |ids|, 0, (cursor + 1) % |ids|);
  }

  function PickOf(s: RouterState, e: Event): seq<Id> {
    if IsPick(s, e) then [Served(s, e).value] else []
  }

  lemma RotateStep(t: RouterState, e: Event, ids: seq<Id>, c: nat, picks: seq<Id>)
    requires ids != [] && !e.DoRestart? && Meets(t, e, ids)
    requires Rotates(picks, ids, c) && Turned(t.cursor, c, picks, |ids|)
    ensures Rotates(picks + PickOf(t, e), ids, c)
    ensures Turned(Apply(t, e).cursor, c, picks + PickOf(t, e), |ids|)
  {
    PickStep(t, e, ids);
    TurnOnce(picks, ids, c, t.cursor);
    assert !IsPick(t, e) ==> picks + PickOf(t, e) == picks;
  }

  lemma {:induction false} PicksRotate(s: RouterState, es: seq<Event>, ids: seq<Id>)
    requires ids != [] && Steady(s, es, ids)
    ensures Rotates(Picks(s, es), ids, s.cursor)
    ensures Turned(After(s, es).cursor, s.cursor, Picks(s, es), |ids|)
  {
    if es != [] {
      var n := |es| - 1;
      PicksRotate(s, es[..n], ids);
      RotateStep(After(s, es[..n]), es[n], ids, s.cursor, Picks(s, es[..n]));
    }
  }

  // How often position p comes up in the first m turns from cursor c.
  function Hits(c: nat, m: nat, p: nat, n: nat): nat
    requires 0 < n
  {
    if m == 0 then 0 else Hits(c, m - 1, p, n) + if (c + m - 1) % n == p then 1 else 0
  }

  // The turn below n at which position p comes up.
  function Offset(c: nat, p: nat, n: nat): nat
    requires p < n
  {
    if c % n <= p then p - c % n else p + n - c % n
  }

  lemma HitIffOffset(c: nat, m: nat, p: nat, n: nat)
    requires m < n && p < n
    ensures (c + m) % n == p <==> m == Offset(c, p, n)
  {
    var r, q := c % n, c / n;
    if r + m < n {
      ModUnique(c + m, n, q, r + m);
    } else {
      assert c + m == n * (q + 1) + (r + m - n);
      ModUnique(c + m, n, q + 1, r + m - n);
    }
  }

  lemma {:induction false} HitsInFirstRound(c: nat, m: nat, p: nat, n: nat)
    requires m <= n && p < n
    ensures Hits(c, m, p, n) == if Offset(c, p, n) < m then 1 else 0
  {
    if m > 0 {
      HitsInFirstRound(c, m - 1, p, n);
      HitIffOffset(c, m - 1, p, n);
    }
  }

  lemma {:induction false} HitsPerRound(c: nat, m: nat, p: nat, n: nat)
    requires p < n
    ensures Hits(c, m + n, p, n) == Hits(c, m, p, n) + 1
  {
    if m == 0 {
      HitsInFirstRound(c, n, p, n);
    } else {
      HitsPerRound(c, m - 1, p, n);
      var x := c + m - 1;
      assert x + n == n * (x / n + 1) + x % n;
      ModUnique(x + n, n, x / n + 1, x % n);
    }
  }

  lemma {:induction false} HitsAreEven(c: nat, m: nat, p: nat, q: nat, n: nat)
    requires p < n && q < n
    ensures Hits(c, m, p, n) <= Hits(c, m, q, n) + 1
    decreases m
  {
    if m <= n {
      HitsInFirstRound(c, m, p, n);
      HitsInFirstRound(c, m, q, n);
    } else {
      HitsPerRound(c, m - n, p, n);
      HitsPerRound(c, m - n, q, n);
      HitsAreEven(c, m - n, p, q, n);
    }
  }

  lemma {:induction false} PicksCount(picks: seq<Id>, ids: seq<Id>, c: nat, p: nat)
    requires ids != [] && Distinct(ids) && p < |ids|
    requires Rotates(picks, ids, c)
    ensures multiset(picks)[ids[p]] == Hits(c, |picks|, p, |ids|)
  {
    if picks != [] {
      var m := |picks| - 1;
      RotatesPrefix(picks, ids, c, m);
      PicksCount(picks[..m], ids, c, p);
      assert picks == picks[..m] + [picks[m]];
      var i := (c + m) % |ids|;
      assert i != p ==> ids[i] != ids[p];
    }
  }

  // Over any number of picks, two accounts of the tier are served equally often
  // up to one.
  lemma FairOverall(s: RouterState, es: seq<Event>, ids: seq<Id>, p: nat, q: nat)
    requires ids != [] && Distinct(ids) && Steady(s, es, ids) && p < |ids| && q < |ids|
    ensures multiset(Picks(s, es))[ids[p]] <= multiset(Picks(s, es))[ids[q]] + 1
  {
    PicksRotate(s, es, ids);
    EvenCounts(Picks(s, es), ids, s.cursor, p, q);
  }

  lemma EvenCounts(picks: seq<Id>, ids: seq<Id>, c: nat, p: nat, q: nat)
    requires ids != [] && Distinct(ids) && Rotates(picks, ids, c) && p < |ids| && q < |ids|
    ensures multiset(picks)[ids[p]] <= multiset(picks)[ids[q]] + 1
  {
    PicksCount(picks, ids, c, p);
    PicksCount(picks, ids, c, q);
    HitsAreEven(c, |picks|, p, q, |ids|);
  }

  // Any |ids| consecutive picks serve each account of the tier exactly once.
  lemma FairPerRound(s: RouterState, es: seq<Event>, ids: seq<Id>, i: nat, p: nat)
    requires ids != [] && Distinct(ids) && Steady(s, es, ids) && p < |ids|
    requires i + |ids| <= |Picks(s, es)|
    ensures multiset(Picks(s, es)[i..i + |ids|])[ids[p]] == 1
  {
    PicksRotate(s, es, ids);
    OnceInWindow(Picks(s, es), ids, s.cursor, i, p);
  }

  lemma OnceInWindow(picks: seq<Id>, ids: seq<Id>, c: nat, i: nat, p: nat)
    requires ids != [] && Distinct(ids) && Rotates(picks, ids, c) && p < |ids|
    requires i + |ids| <= |picks|
    ensures multiset(picks[i..i + |ids|])[ids[p]] == 1
  {
    var window := picks[i..i + |ids|];
    RotatesWindow(picks, ids, c, i, i + |ids|);
    assert |window| == |ids|;
    OncePerRound(window, ids, c + i, p);
  }

  lemma OncePerRound(picks: seq<Id>, ids: seq<Id>, c: nat, p: nat)
    requires ids != [] && Distinct(ids) && Rotates(picks, ids, c) && p < |ids| == |picks|
    ensures multiset(picks)[ids[p]] == 1
  {
    PicksCount(picks, ids, c, p);
    HitsInFirstRound(c, |ids|, p, |ids|);
  }

  // While the strategy is round robin and no preferred account is in the ids,
  // every successful route of a key without binding is a pick.
  lemma NewKeyIsPick(s: RouterState, e: Event)
    requires e.DoRoute? && e.key !in s.bindings && s.config.strategy == RoundRobin
    requires Served(s, e).Some?
    requires s.preferred.Some? ==> Find(TierAt(s, e), s.preferred.value).None?
    ensures IsPick(s, e)
  {
  }
}
