// What the account transactions promise: they succeed exactly when no statement
// meets the unique index, and then store precisely the given accounts.

module StorageLaws {
  import opened Wrappers
  import opened Types
  import opened Sorting
  import opened Storage

  lemma IdsPrefix(index: seq<Account>, n: nat)
    requires n < |index|
    ensures Ids(index[..n + 1]) == Ids(index[..n]) + {index[n].id}
    ensures index[..n + 1][..n] == index[..n]
  {
    assert index[..n + 1][..n] == index[..n];
    assert index[..n + 1][n] == index[n];
  }

  // `d` is `db` with exactly the rows of `index` rewritten.
  ghost predicate Rewritten(db: Db, index: seq<Account>, d: Db) {
    && d.revision == db.revision && d.bindings == db.bindings
    && RowsRewritten(db, index, d)
    && QuotasRewritten(db, index, d)
  }

  ghost predicate RowsRewritten(db: Db, index: seq<Account>, d: Db) {
    && d.accounts.Keys == db.accounts.Keys + Ids(index)
    && d.runtime.Keys == db.runtime.Keys + Ids(index)
    && (forall i :: 0 <= i < |index| ==> WrittenFrom(d, index[i], db))
    && (forall id :: id !in Ids(index) ==> SameRows(d, db, id))
  }

  ghost predicate WrittenFrom(d: Db, a: Account, db: Db) {
    && a.id in d.accounts && d.accounts[a.id] == RowOf(a)
    && a.id in d.runtime && d.runtime[a.id] == RuntimeOf(a, db.runtime)
  }

  ghost predicate SameRows(d: Db, db: Db, id: Id) {
    && (id in db.accounts ==> id in d.accounts && d.accounts[id] == db.accounts[id])
    && (id in db.runtime ==> id in d.runtime && d.runtime[id] == db.runtime[id])
  }

  ghost predicate QuotasRewritten(db: Db, index: seq<Account>, d: Db) {
    && (forall i :: 0 <= i < |index| ==> SameQuotas(d.quotas, Windows(index[i]), index[i].id))
    && (forall id :: id !in Ids(index) ==> SameQuotas(d.quotas, db.quotas, id))
  }

  ghost predicate SameQuotas(m: map<QuotaKey, Quota>, n: map<QuotaKey, Quota>, id: Id) {
    forall kind :: SameAt(m, n, QuotaKey(id, kind))
  }

  ghost predicate SameAt(m: map<QuotaKey, Quota>, n: map<QuotaKey, Quota>, k: QuotaKey) {
    (k in m <==> k in n) && (k in m ==> m[k] == n[k])
  }

  lemma UpsertQuotas(db: Db, a: Account, id: Id)
    requires Upsert(db, a).Some?
    ensures SameQuotas(Upsert(db, a).value.quotas, if id == a.id then Windows(a) else db.quotas, id)
  {
  }

  lemma UpsertWrites(db: Db, index: seq<Account>, n: nat, before: Db, d: Db)
    requires n < |index| && DistinctIds(index)
    requires RowsRewritten(db, index[..n], before)
    requires Upsert(before, index[n]) == Some(d)
    ensures forall i :: 0 <= i < n + 1 ==> WrittenFrom(d, index[i], db)
  {
    InIds(index[..n], index[n].id);
    assert SameRows(before, db, index[n].id);
    forall i | 0 <= i < n + 1 ensures WrittenFrom(d, index[i], db) {
      if i < n { assert WrittenFrom(before, index[..n][i], db); }
    }
  }

  lemma UpsertRows(db: Db, index: seq<Account>, n: nat, before: Db, d: Db)
    requires n < |index| && DistinctIds(index)
    requires RowsRewritten(db, index[..n], before)
    requires Upsert(before, index[n]) == Some(d)
    ensures RowsRewritten(db, index[..n + 1], d)
  {
    IdsPrefix(index, n);
    UpsertWrites(db, index, n, before, d);
    forall id | id !in Ids(index[..n]) + {index[n].id} ensures SameRows(d, db, id) {
      UpsertOthers(before, index[n], d, id);
      assert SameRows(before, db, id);
    }
    UpsertKeys(before, index[n], d);
  }

  lemma UpsertOthers(db: Db, a: Account, d: Db, id: Id)
    requires Upsert(db, a) == Some(d) && id != a.id
    ensures SameRows(d, db, id)
  {
  }

  lemma UpsertKeys(db: Db, a: Account, d: Db)
    requires Upsert(db, a) == Some(d)
    ensures d.accounts.Keys == db.accounts.Keys + {a.id} && d.runtime.Keys == db.runtime.Keys + {a.id}
  {
  }

  lemma UpsertQuotaRows(db: Db, index: seq<Account>, n: nat, before: Db, d: Db)
    requires n < |index| && DistinctIds(index)
    requires QuotasRewritten(db, index[..n], before)
    requires Upsert(before, index[n]) == Some(d)
    ensures QuotasRewritten(db, index[..n + 1], d)
  {
    IdsPrefix(index, n);
    var a := index[n];
    forall i | 0 <= i < n + 1 ensures SameQuotas(d.quotas, Windows(index[i]), index[i].id) {
      UpsertQuotas(before, a, index[i].id);
      if i < n {
        assert index[..n][i] == index[i];
        SameQuotasChains(d.quotas, before.quotas, Windows(index[i]), index[i].id);
      }
    }
    forall id | id !in Ids(index[..n + 1]) ensures SameQuotas(d.quotas, db.quotas, id) {
      UpsertQuotas(before, a, id);
      SameQuotasChains(d.quotas, before.quotas, db.quotas, id);
    }
  }

  lemma SameQuotasChains(m: map<QuotaKey, Quota>, n: map<QuotaKey, Quota>, o: map<QuotaKey, Quota>, id: Id)
    requires SameQuotas(m, n, id) && SameQuotas(n, o, id)
    ensures SameQuotas(m, o, id)
  {
    forall kind ensures SameAt(m, o, QuotaKey(id, kind)) {
      assert SameAt(m, n, QuotaKey(id, kind)) && SameAt(n, o, QuotaKey(id, kind));
    }
  }

  lemma {:induction false} UpsertAllRewrites(db: Db, index: seq<Account>)
    requires DistinctIds(index) && UpsertAll(db, index).Some?
    ensures Rewritten(db, index, UpsertAll(db, index).value)
  {
    if index != [] {
      var n := |index| - 1;
      UpsertAllRewrites(db, index[..n]);
      UpsertRows(db, index, n, UpsertAll(db, index[..n]).value, UpsertAll(db, index).value);
      UpsertQuotaRows(db, index, n, UpsertAll(db, index[..n]).value, UpsertAll(db, index).value);
      assert index[..n + 1] == index;
    }
  }

  // ---------------------------------------------------------------- when a replacement is refused

  // Row `i` claims an upstream identifier that an earlier row of the index took,
  // or that a stored account holds which no earlier row has rewritten. Deletions
  // come last, so a stored account blocks even when the replacement drops it.
  ghost predicate Collides(db: Db, index: seq<Account>, i: nat)
    requires i < |index|
  {
    var u := index[i].accountId;
    && u.Some?
    && ((exists j :: 0 <= j < i && index[j].accountId == u) ||
        (exists id :: id in db.accounts && id != index[i].id && id !in Ids(index[..i])
                      && db.accounts[id].upstreamId == u))
  }

  ghost predicate Admissible(db: Db, index: seq<Account>) {
    forall i :: 0 <= i < |index| ==> Storable(index[i]) && !Collides(db, index, i)
  }

  lemma TakenIffCollides(db: Db, index: seq<Account>, n: nat, before: Db)
    requires n < |index| && DistinctIds(index) && Rewritten(db, index[..n], before)
    ensures UpstreamTaken(before, index[n]) <==> Collides(db, index, n)
  {
    var a := index[n];
    if UpstreamTaken(before, a) {
      var id :| id in before.accounts && id != a.id && before.accounts[id].upstreamId == a.accountId;
      if id in Ids(index[..n]) {
        var j := PositionOf(index[..n], id);
        assert index[..n][j] == index[j];
        assert WrittenFrom(before, index[..n][j], db);
      } else {
        assert SameRows(before, db, id);
      }
    }
    if Collides(db, index, n) {
      if j :| 0 <= j < n && index[j].accountId == a.accountId {
        assert index[..n][j] == index[j];
        assert WrittenFrom(before, index[..n][j], db) && index[j].id != a.id;
        assert before.accounts[index[j].id].upstreamId == a.accountId;
      } else {
        var id :| id in db.accounts && id != a.id && id !in Ids(index[..n])
          && db.accounts[id].upstreamId == a.accountId;
        assert SameRows(before, db, id);
      }
    }
  }

  lemma CollidesPrefix(db: Db, index: seq<Account>, n: nat, i: nat)
    requires i < n <= |index|
    ensures Collides(db, index[..n], i) <==> Collides(db, index, i)
  {
    assert index[..n][..i] == index[..i];
    assert forall j :: 0 <= j < i ==> index[..n][j] == index[j];
  }

  lemma {:induction false} UpsertAllSucceedsIff(db: Db, index: seq<Account>)
    requires DistinctIds(index)
    ensures UpsertAll(db, index).Some? <==> Admissible(db, index)
  {
    if index != [] {
      var n := |index| - 1;
      UpsertAllSucceedsIff(db, index[..n]);
      AdmissiblePrefix(db, index, n);
      if UpsertAll(db, index[..n]).Some? {
        UpsertAllRewrites(db, index[..n]);
        TakenIffCollides(db, index, n, UpsertAll(db, index[..n]).value);
      }
    }
  }

  lemma AdmissiblePrefix(db: Db, index: seq<Account>, n: nat)
    requires n + 1 == |index|
    ensures Admissible(db, index) <==>
      Admissible(db, index[..n]) && Storable(index[n]) && !Collides(db, index, n)
  {
    forall i | 0 <= i < n
      ensures Storable(index[..n][i]) && !Collides(db, index[..n], i) <==> Storable(index[i]) && !Collides(db, index, i)
    {
      CollidesPrefix(db, index, n, i);
    }
    if Admissible(db, index[..n]) && Storable(index[n]) && !Collides(db, index, n) {
      forall i | 0 <= i < |index| ensures Storable(index[i]) && !Collides(db, index, i) {
        if i < n { assert Storable(index[..n][i]) && !Collides(db, index[..n], i); }
      }
    }
    if Admissible(db, index) {
      forall i | 0 <= i < n ensures Storable(index[..n][i]) && !Collides(db, index[..n], i) {
        assert Storable(index[i]) && !Collides(db, index, i);
      }
    }
  }

  lemma ReplaceIffAdmissible(db: Db, index: seq<Account>)
    requires DistinctIds(index)
    ensures Replaced(db, index).Some? <==> Admissible(db, index)
  {
    UpsertAllSucceedsIff(db, index);
  }

  // Every number fits a signed column of 64 bits.
  predicate FitsColumns(a: Account) {
    && a.concurrencyLimit < 0x8000_0000_0000_0000 && a.revision < 0x8000_0000_0000_0000
    && (a.status.primary.Some? && a.status.primary.value.windowMinutes.Some? ==>
          a.status.primary.value.windowMinutes.value < 0x8000_0000_0000_0000)
    && (a.status.secondary.Some? && a.status.secondary.value.windowMinutes.Some? ==>
          a.status.secondary.value.windowMinutes.value < 0x8000_0000_0000_0000)
  }

  // A replacement commits exactly when no row collides and every number fits.
  lemma ReplaceSucceedsIff(db: Db, index: seq<Account>)
    requires DistinctIds(index)
    ensures Replaced(db, index).Some? <==>
      forall i :: 0 <= i < |index| ==> FitsColumns(index[i]) && !Collides(db, index, i)
  {
    ReplaceIffAdmissible(db, index);
    forall i | 0 <= i < |index| ensures FitsColumns(index[i]) <==> Storable(index[i]) {
    }
  }

  // Two stored accounts cannot exchange their upstream identifiers in one
  // replacement, although the result would respect the unique index.
  lemma SwapIsRefused(db: Db, a: Account, b: Account)
    requires Valid(db) && a.id != b.id && a.id in db.accounts && b.id in db.accounts
    requires db.accounts[b.id].upstreamId.Some? && db.accounts[a.id].upstreamId.Some?
    requires a.accountId == db.accounts[b.id].upstreamId && b.accountId == db.accounts[a.id].upstreamId
    ensures a.accountId != b.accountId && Replaced(db, [a, b]).None?
  {
    assert Collides(db, [a, b], 0) by { assert [a, b][..0] == []; }
    ReplaceIffAdmissible(db, [a, b]);
  }

  // ---------------------------------------------------------------- loading

  function Window(db: Db, id: Id, kind: string): Option<Quota> {
    var k := QuotaKey(id, kind);
    if k in db.quotas then Some(db.quotas[k]) else None
  }

  // The row an outer join of accounts, runtime and quota windows gives.
  function AccountOf(db: Db, id: Id): Account
    requires id in db.accounts
  {
    var row := db.accounts[id];
    var status :=
      if id in db.runtime then
        var r := db.runtime[id];
        CheckStatus(StatusFromName(r.status), r.checkedAt, r.detail, Window(db, id, PRIMARY), Window(db, id, SECONDARY))
      else CheckStatus(Unknown, None, UNCHECKED, Window(db, id, PRIMARY), Window(db, id, SECONDARY));
    Account(id, row.title, row.source, row.importedAt, row.email, row.plan, row.upstreamId, status,
            row.tenantId, row.proxyEnabled, row.enabled, row.priority, row.concurrencyLimit, row.revision)
  }

  // ORDER BY priority, imported_at, id.
  predicate LoadedBefore(a: Account, b: Account) {
    || a.priority < b.priority
    || (a.priority == b.priority &&
        (a.importedAt < b.importedAt || (a.importedAt == b.importedAt && a.id.bits < b.id.bits)))
  }

  ghost predicate IsLoaded(db: Db, loaded: seq<Account>) {
    && Sorted(loaded, LoadedBefore)
    && (forall a :: a in loaded <==> a.id in db.accounts && a == AccountOf(db, a.id))
  }

  // The order leaves a load no freedom.
  lemma LoadIsUnique(db: Db, xs: seq<Account>, ys: seq<Account>)
    requires IsLoaded(db, xs) && IsLoaded(db, ys)
    ensures xs == ys
  {
    StrictlySortedUnique(xs, ys, LoadedBefore);
  }

  lemma LoadedIsDistinct(db: Db, loaded: seq<Account>)
    requires IsLoaded(db, loaded)
    ensures DistinctIds(loaded) && Ids(loaded) == db.accounts.Keys
  {
    forall i, j | 0 <= i < j < |loaded| ensures loaded[i].id != loaded[j].id {
      assert loaded[i] in loaded && loaded[j] in loaded;
      assert LoadedBefore(loaded[i], loaded[j]);
    }
    forall id ensures id in Ids(loaded) <==> id in db.accounts.Keys {
      InIds(loaded, id);
      if id in db.accounts { assert AccountOf(db, id) in loaded; }
    }
  }

  // What storing an account does to it: only its detail is rewritten.
  function Stored(a: Account): Account {
    a.(status := a.status.(detail := Sanitize(a.status.detail)))
  }

  lemma WindowOfRewritten(quotas: map<QuotaKey, Quota>, a: Account, kind: string)
    requires SameQuotas(quotas, Windows(a), a.id)
    ensures var k := QuotaKey(a.id, kind);
      (if k in quotas then Some(quotas[k]) else None) == (if k in Windows(a) then Some(Windows(a)[k]) else None)
  {
    assert SameAt(quotas, Windows(a), QuotaKey(a.id, kind));
  }

  lemma WindowsAt(a: Account)
    ensures var p, s := QuotaKey(a.id, PRIMARY), QuotaKey(a.id, SECONDARY);
      && (if p in Windows(a) then Some(Windows(a)[p]) else None) == a.status.primary
      && (if s in Windows(a) then Some(Windows(a)[s]) else None) == a.status.secondary
  {
    assert PRIMARY != SECONDARY by { assert |PRIMARY| != |SECONDARY|; }
  }

  lemma AccountOfRewritten(db: Db, index: seq<Account>, d: Db, i: nat)
    requires Rewritten(db, index, d) && i < |index|
    ensures index[i].id in d.accounts && AccountOf(d, index[i].id) == Stored(index[i])
  {
    var a := index[i];
    assert WrittenFrom(d, a, db);
    StatusRoundTrip(a.status.kind);
    WindowOfRewritten(d.quotas, a, PRIMARY);
    WindowOfRewritten(d.quotas, a, SECONDARY);
    WindowsAt(a);
  }

  lemma AccountOfDeleted(db: Db, gone: set<Id>, id: Id)
    requires id in db.accounts && id !in gone
    ensures id in DeleteAccounts(db, gone).accounts && AccountOf(DeleteAccounts(db, gone), id) == AccountOf(db, id)
  {
  }

  // An account as it was given, but for what is kept of its detail.
  ghost predicate LoadedFrom(a: Account, given: Account) {
    KeptOf(a.status.detail, given.status.detail)
    && a == given.(status := given.status.(detail := a.status.detail))
  }

  lemma LoadedFromStored(a: Account, given: Account)
    ensures LoadedFrom(a, given) <==> a == Stored(given)
  {
    SanitizeKeeps(given.status.detail);
  }

  ghost predicate Harmless(detail: string) {
    !Confidential(detail) && |detail| <= 1024
  }

  // By priority value, then by import time, then by identifier.
  ghost predicate InLoadOrder(a: Account, b: Account) {
    && a.priority <= b.priority && (a.priority == b.priority ==> a.importedAt <= b.importedAt)
    && (a.priority == b.priority && a.importedAt == b.importedAt ==> a.id.bits < b.id.bits)
  }

  // Replacing and then loading gives back exactly the given accounts, in load
  // order, each with what is kept of its detail; the revision is one higher. An
  // account with a short and harmless detail comes back as it was given.
  lemma ReplaceThenLoad(db: Db, index: seq<Account>, loaded: seq<Account>)
    requires DistinctIds(index) && Replaced(db, index).Some?
    requires IsLoaded(Replaced(db, index).value, loaded)
    ensures forall a :: a in loaded <==> exists i :: 0 <= i < |index| && LoadedFrom(a, index[i])
    ensures forall i :: 0 <= i < |index| && Harmless(index[i].status.detail) ==> index[i] in loaded
    ensures |loaded| == |index| && forall i, j :: 0 <= i < j < |loaded| ==> InLoadOrder(loaded[i], loaded[j])
    ensures Replaced(db, index).value.revision == db.revision + 1
  {
    var e := Replaced(db, index).value;
    ReplacedAccounts(db, index);
    LoadedAreStored(e, index, loaded);
    LoadedIsDistinct(e, loaded);
    DistinctCount(loaded);
    DistinctCount(index);
    forall a, i | 0 <= i < |index| ensures LoadedFrom(a, index[i]) <==> a == Stored(index[i]) {
      LoadedFromStored(a, index[i]);
    }
    forall i, j | 0 <= i < j < |loaded| ensures InLoadOrder(loaded[i], loaded[j]) {
      assert LoadedBefore(loaded[i], loaded[j]);
    }
    forall i | 0 <= i < |index| && Harmless(index[i].status.detail) ensures index[i] in loaded {
      assert LoadedFrom(index[i], index[i]);
    }
  }

  lemma ReplacedAccounts(db: Db, index: seq<Account>)
    requires DistinctIds(index) && Replaced(db, index).Some?
    ensures var e := Replaced(db, index).value;
      && e.accounts.Keys == Ids(index) && e.revision == db.revision + 1
      && forall i :: 0 <= i < |index| ==> LoadsAs(e, index[i].id, Stored(index[i]))
  {
    assert Rewritten(db, index, UpsertAll(db, index).value) by { UpsertAllRewrites(db, index); }
    KeptKeys(UpsertAll(db, index).value, db.accounts.Keys, Ids(index));
    forall i | 0 <= i < |index| ensures LoadsAs(Replaced(db, index).value, index[i].id, Stored(index[i])) {
      ReplacedAccount(db, index, i);
    }
  }

  lemma KeptKeys(d: Db, others: set<Id>, keep: set<Id>)
    requires d.accounts.Keys == others + keep
    ensures DeleteAccounts(d, d.accounts.Keys - keep).accounts.Keys == keep
    ensures DeleteAccounts(d, d.accounts.Keys - keep).revision == d.revision
  {
  }

  lemma ReplacedAccount(db: Db, index: seq<Account>, i: nat)
    requires i < |index| && Replaced(db, index).Some? && Rewritten(db, index, UpsertAll(db, index).value)
    ensures LoadsAs(Replaced(db, index).value, index[i].id, Stored(index[i]))
  {
    var d := UpsertAll(db, index).value;
    var gone := d.accounts.Keys - Ids(index);
    IdAt(index, i);
    AccountOfRewritten(db, index, d, i);
    assert index[i].id in d.accounts by { assert WrittenFrom(d, index[i], db); }
    AccountOfDeleted(d, gone, index[i].id);
    SameLoad(Replaced(db, index).value, DeleteAccounts(d, gone), index[i].id);
  }

  // The revision plays no part in what a load gives.
  lemma SameLoad(d: Db, e: Db, id: Id)
    requires id in e.accounts && d == e.(revision := d.revision)
    ensures id in d.accounts && AccountOf(d, id) == AccountOf(e, id)
  {
  }

  ghost predicate LoadsAs(e: Db, id: Id, a: Account) {
    id in e.accounts && AccountOf(e, id) == a
  }

  lemma LoadedAreStored(e: Db, index: seq<Account>, loaded: seq<Account>)
    requires e.accounts.Keys == Ids(index) && IsLoaded(e, loaded)
    requires forall i :: 0 <= i < |index| ==> LoadsAs(e, index[i].id, Stored(index[i]))
    ensures forall a :: a in loaded <==> exists i :: 0 <= i < |index| && a == Stored(index[i])
  {
    forall a ensures a in loaded <==> exists i :: 0 <= i < |index| && a == Stored(index[i]) {
      if a in loaded {
        var i := PositionOf(index, a.id);
        assert LoadsAs(e, index[i].id, Stored(index[i]));
        assert a == Stored(index[i]);
      }
      if i :| 0 <= i < |index| && a == Stored(index[i]) {
        assert LoadsAs(e, index[i].id, Stored(index[i])) && a.id == index[i].id;
      }
    }
  }

  lemma {:induction false} DistinctCount(index: seq<Account>)
    requires DistinctIds(index)
    ensures |Ids(index)| == |index|
  {
    if index != [] {
      var n := |index| - 1;
      DistinctCount(index[..n]);
      IdsPrefix(index, n);
      assert index[..n + 1] == index;
      InIds(index[..n], index[n].id);
    }
  }

  // An account that stays keeps its circuit and its failure count; one that goes
  // leaves no account, runtime, quota or binding row; other bindings stay.
  lemma ReplaceRetainsAndCascades(db: Db, index: seq<Account>, id: Id)
    requires Valid(db) && DistinctIds(index) && Replaced(db, index).Some?
    ensures var e := Replaced(db, index).value;
      if id in Ids(index) then
        && id in e.runtime
        && (id in db.runtime ==>
              && e.runtime[id].failureCount == db.runtime[id].failureCount
              && e.runtime[id].circuitReason == db.runtime[id].circuitReason
              && e.runtime[id].circuitUntil == db.runtime[id].circuitUntil)
        && (id !in db.runtime ==> e.runtime[id].failureCount == 0 && e.runtime[id].circuitReason.None?)
        && (forall key :: key in db.bindings && db.bindings[key].accountId == id ==>
              key in e.bindings && e.bindings[key] == db.bindings[key])
      else
        && id !in e.accounts && id !in e.runtime
        && (forall k :: k in e.quotas ==> k.id != id)
        && (forall key :: key in e.bindings ==> e.bindings[key].accountId != id)
  {
    UpsertAllRewrites(db, index);
    var d := UpsertAll(db, index).value;
    if id in Ids(index) {
      var i := PositionOf(index, id);
      assert WrittenFrom(d, index[i], db);
    } else {
      forall k | k in Replaced(db, index).value.quotas ensures k.id != id {
        assert k in d.quotas && SameQuotas(d.quotas, db.quotas, id);
        assert SameAt(d.quotas, db.quotas, QuotaKey(id, k.kind));
      }
    }
  }

  // ---------------------------------------------------------------- fixpoint

  lemma WindowsOfLoaded(db: Db, id: Id, k: QuotaKey)
    requires id in db.accounts && (k in db.quotas ==> k.kind in {PRIMARY, SECONDARY})
    ensures if k.id == id then SameAt(Windows(AccountOf(db, id)), db.quotas, k) else k !in Windows(AccountOf(db, id))
  {
    if k.id == id && k in db.quotas {
      assert k == QuotaKey(id, PRIMARY) || k == QuotaKey(id, SECONDARY);
    }
    assert PRIMARY != SECONDARY by { assert |PRIMARY| != |SECONDARY|; }
  }

  lemma QuotasOfLoaded(db: Db, id: Id)
    requires id in db.accounts && forall k :: k in db.quotas ==> k.kind in {PRIMARY, SECONDARY}
    ensures WithWindows(db.quotas, AccountOf(db, id)) == db.quotas
  {
    var rest := map k | k in db.quotas && k.id != id :: db.quotas[k];
    var windows := Windows(AccountOf(db, id));
    forall k ensures SameAt(rest + windows, db.quotas, k) {
      WindowsOfLoaded(db, id, k);
    }
    forall k | k in db.quotas ensures k in rest + windows { assert SameAt(rest + windows, db.quotas, k); }
    forall k | k in rest + windows ensures k in db.quotas && (rest + windows)[k] == db.quotas[k] {
      assert SameAt(rest + windows, db.quotas, k);
    }
  }

  lemma RowsOfLoaded(db: Db, id: Id)
    requires Valid(db) && id in db.accounts
    ensures var a := AccountOf(db, id);
      && RowOf(a) == db.accounts[id] && RuntimeOf(a, db.runtime) == db.runtime[id]
      && Storable(a) && !UpstreamTaken(db, a)
  {
    assert CanonicalRow(db.runtime[id]) && FittingRow(db.accounts[id]);
  }

  lemma UpsertOfLoaded(db: Db, id: Id)
    requires Valid(db) && id in db.accounts
    ensures Upsert(db, AccountOf(db, id)) == Some(db)
  {
    RowsOfLoaded(db, id);
    QuotasOfLoaded(db, id);
    assert db.accounts[id := db.accounts[id]] == db.accounts;
    assert db.runtime[id := db.runtime[id]] == db.runtime;
  }

  lemma {:induction false} UpsertAllOfLoaded(db: Db, index: seq<Account>)
    requires Valid(db)
    requires forall i :: 0 <= i < |index| ==> index[i].id in db.accounts && index[i] == AccountOf(db, index[i].id)
    ensures UpsertAll(db, index) == Some(db)
  {
    if index != [] {
      UpsertAllOfLoaded(db, index[..|index| - 1]);
      UpsertOfLoaded(db, index[|index| - 1].id);
    }
  }

  // Writing back what was just loaded succeeds and changes the revision only.
  lemma ReplaceWithLoadedIsFixpoint(db: Db, loaded: seq<Account>)
    requires Valid(db) && IsLoaded(db, loaded)
    ensures Replaced(db, loaded) == Some(db.(revision := db.revision + 1))
  {
    forall i | 0 <= i < |loaded| ensures loaded[i].id in db.accounts && loaded[i] == AccountOf(db, loaded[i].id) {
      assert loaded[i] in loaded;
    }
    UpsertAllOfLoaded(db, loaded);
    LoadedIsDistinct(db, loaded);
    ReplaceOfWritten(db, loaded);
  }

  lemma ReplaceOfWritten(db: Db, index: seq<Account>)
    requires UpsertAll(db, index) == Some(db) && Ids(index) == db.accounts.Keys
    ensures Replaced(db, index) == Some(db.(revision := db.revision + 1))
  {
    assert db.accounts.Keys - Ids(index) == {};
    DeleteNothing(db);
  }

  lemma DeleteNothing(db: Db)
    ensures DeleteAccounts(db, {}) == db
  {
    var kept := DeleteAccounts(db, {});
    assert kept.accounts == db.accounts;
    assert kept.runtime == db.runtime;
    assert kept.quotas == db.quotas;
    assert kept.bindings == db.bindings;
  }

  lemma {:induction false} InsertMissingCovers(db: Db, index: seq<Account>)
    requires InsertMissing(db, index).Some?
    ensures forall id :: id in db.accounts ==> id in InsertMissing(db, index).value.accounts
    ensures forall i :: 0 <= i < |index| ==> index[i].id in InsertMissing(db, index).value.accounts
  {
    if index != [] {
      var n := |index| - 1;
      InsertMissingCovers(db, index[..n]);
      assert forall i :: 0 <= i < n ==> index[..n][i] == index[i];
    }
  }

  lemma {:induction false} InsertMissingOfPresent(db: Db, index: seq<Account>)
    requires forall i :: 0 <= i < |index| ==> index[i].id in db.accounts
    ensures InsertMissing(db, index) == Some(db)
  {
    if index != [] {
      InsertMissingOfPresent(db, index[..|index| - 1]);
    }
  }

  lemma {:induction false} InsertMissingKeepsRows(db: Db, index: seq<Account>, id: Id)
    requires InsertMissing(db, index).Some? && id in db.accounts && id in db.runtime
    ensures var d := InsertMissing(db, index).value;
      && id in d.accounts && d.accounts[id] == db.accounts[id]
      && id in d.runtime && d.runtime[id] == db.runtime[id]
      && d.revision == db.revision && d.bindings == db.bindings
  {
    if index != [] {
      InsertMissingKeepsRows(db, index[..|index| - 1], id);
    }
  }

  // Reconciling the legacy index twice is reconciling it once, and it never
  // rewrites an account the store already has.
  lemma ReconcileIsIdempotent(db: Db, legacy: seq<Account>)
    requires Valid(db) && Reconciled(db, legacy).Some?
    ensures var d := Reconciled(db, legacy).value;
      && Reconciled(d, legacy) == Some(d)
      && (forall id :: id in db.accounts ==>
            && id in d.accounts && d.accounts[id] == db.accounts[id]
            && id in d.runtime && d.runtime[id] == db.runtime[id])
      && (forall i :: 0 <= i < |legacy| ==> legacy[i].id in d.accounts)
  {
    var d := Reconciled(db, legacy).value;
    InsertMissingCovers(db, legacy);
    forall id | id in db.accounts
      ensures id in d.accounts && d.accounts[id] == db.accounts[id]
      ensures id in d.runtime && d.runtime[id] == db.runtime[id]
    {
      InsertMissingKeepsRows(db, legacy, id);
    }
    InsertMissingOfPresent(d, legacy);
  }
}
