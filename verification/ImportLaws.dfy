// What an import means for the store that saves the index and for the router
// that reads it.

module ImportLaws {
  import opened Arithmetic
  import opened Import
  import opened Routing
  import opened RoutingRuns
  import opened Storage
  import opened StorageLaws
  import opened Types
  import opened Wrappers

  // Renewing a login keeps the label and every scheduling setting of the account
  // and never loses an identity it had ..
  lemma RenewalKeepsSettings(a: Account, c: Credential, source: string, now: Time)
    ensures var r := Renewed(a, c, source, now);
      && r.id == a.id && r.title == a.title && r.tenantId == a.tenantId
      && r.proxyEnabled == a.proxyEnabled && r.enabled == a.enabled
      && r.priority == a.priority && r.concurrencyLimit == a.concurrencyLimit
      && (a.accountId.Some? ==> r.accountId.Some?) && (a.email.Some? ==> r.email.Some?)
      && (a.revision < U64_MAX ==> r.revision == a.revision + 1)
  {
  }

  // .. but no route gives it, whatever the router's state, until it is checked again.
  lemma RenewedIsNotServed(s: RouterState, e: Event, p: nat, a: Account, c: Credential, source: string, now: Time)
    requires e.DoRoute? && DistinctIds(e.index) && p < |e.index| && e.index[p] == Renewed(a, c, source, now)
    ensures Served(s, e) != Some(a.id)
  {
    UncheckedIsNotServed(s, e, p);
  }

  lemma UncheckedIsNotServed(s: RouterState, e: Event, p: nat)
    requires e.DoRoute? && DistinctIds(e.index) && p < |e.index| && e.index[p].status == DEFAULT_STATUS
    ensures Served(s, e) != Some(e.index[p].id)
  {
    var id := e.index[p].id;
    forall a | a in e.index && a.id == id ensures !HealthyFor(s, e, a) {
      var q :| 0 <= q < |e.index| && e.index[q] == a;
      assert q == p;
    }
    if Served(s, e) == Some(id) { ServedIsHealthy(s, e, id); }
  }

  // Nor does any route give the account an import has just written, new or known.
  lemma ImportedIsNotServed(
      s: RouterState, e: Event, accounts: seq<Account>, c: Credential, name: Option<string>, at: Arrival)
    requires e.DoRoute? && e.index == Imported(accounts, c, name, at)
    requires DistinctIds(accounts) && forall i :: 0 <= i < |accounts| ==> accounts[i].id != at.newId
    ensures Served(s, e) != Some(e.index[Target(accounts, c)].id)
  {
    ImportedIds(accounts, c, name, at);
    UncheckedIsNotServed(s, e, Target(accounts, c));
  }

  lemma ImportedIds(accounts: seq<Account>, c: Credential, name: Option<string>, at: Arrival)
    requires DistinctIds(accounts) && forall i :: 0 <= i < |accounts| ==> accounts[i].id != at.newId
    ensures var after := Imported(accounts, c, name, at);
      && DistinctIds(after) && |accounts| <= |after|
      && forall i :: 0 <= i < |accounts| ==> after[i].id == accounts[i].id
  {
  }

  // An index in which an import split an upstream identifier cannot be saved in
  // any database.
  lemma SplitIsNeverStored(db: Db, accounts: seq<Account>, c: Credential, name: Option<string>, at: Arrival)
    requires DistinctIds(accounts) && forall i :: 0 <= i < |accounts| ==> accounts[i].id != at.newId
    requires Splits(accounts, c)
    ensures Replaced(db, Imported(accounts, c, name, at)).None?
  {
    var after := Imported(accounts, c, name, at);
    var p := Target(accounts, c);
    ImportedIds(accounts, c, name, at);
    var j :| p < j < |accounts| && accounts[j].accountId == c.accountId;
    assert after[j] == accounts[j] && after[p].accountId == c.accountId;
    assert Collides(db, after, j);
    ReplaceIffAdmissible(db, after);
  }

  // The index holds exactly the stored accounts, as the unique index and the
  // column ranges leave them.
  ghost predicate InStep(db: Db, accounts: seq<Account>) {
    && DistinctIds(accounts) && DistinctUpstream(accounts)
    && (forall i :: 0 <= i < |accounts| ==> IsRow(db, accounts[i]))
    && (forall id :: id in db.accounts ==> exists k :: 0 <= k < |accounts| && accounts[k].id == id)
  }

  ghost predicate IsRow(db: Db, a: Account) {
    a.id in db.accounts && a.accountId == db.accounts[a.id].upstreamId && Storable(a)
  }

  lemma LoadedRow(db: Db, accounts: seq<Account>, i: nat)
    requires Valid(db) && IsLoaded(db, accounts) && i < |accounts|
    ensures IsRow(db, accounts[i])
  {
    assert accounts[i] in accounts;
    RowsOfLoaded(db, accounts[i].id);
  }

  lemma RowsAreDistinct(db: Db, accounts: seq<Account>)
    requires UniqueUpstream(db.accounts) && DistinctIds(accounts)
    requires forall i :: 0 <= i < |accounts| ==> IsRow(db, accounts[i])
    ensures DistinctUpstream(accounts)
  {
    forall i, j | 0 <= i < j < |accounts| && accounts[i].accountId.Some?
      ensures accounts[i].accountId != accounts[j].accountId
    {
      assert IsRow(db, accounts[i]) && IsRow(db, accounts[j]);
    }
  }

  lemma LoadedIsInStep(db: Db, accounts: seq<Account>)
    requires Valid(db) && IsLoaded(db, accounts)
    ensures InStep(db, accounts)
  {
    LoadedIsDistinct(db, accounts);
    forall i | 0 <= i < |accounts| ensures IsRow(db, accounts[i]) {
      LoadedRow(db, accounts, i);
    }
    RowsAreDistinct(db, accounts);
    forall id | id in db.accounts ensures exists k :: 0 <= k < |accounts| && accounts[k].id == id {
      var k := PositionOf(accounts, id);
    }
  }

  // Where the accounts of the new index come from.
  lemma ImportedAt(accounts: seq<Account>, c: Credential, name: Option<string>, at: Arrival, i: nat)
    requires i < |Imported(accounts, c, name, at)|
    ensures var a, p := Imported(accounts, c, name, at)[i], Target(accounts, c);
      && (i != p ==> i < |accounts| && a == accounts[i])
      && (i == p < |accounts| ==> a.id == accounts[p].id && a.accountId == OrElse(c.accountId, accounts[p].accountId))
      && (i == p == |accounts| ==> a.id == at.newId && a.accountId == c.accountId)
  {
  }

  // A stored account that still holds the identifier of a row of the new index.
  lemma HolderSplits(
      db: Db, accounts: seq<Account>, c: Credential, name: Option<string>, at: Arrival, i: nat, k: nat)
    requires InStep(db, accounts) && at.newId !in db.accounts && k < |accounts|
    requires i < |Imported(accounts, c, name, at)|
    requires var a := Imported(accounts, c, name, at)[i];
      a.accountId.Some? && accounts[k].id != a.id && accounts[k].accountId == a.accountId
    ensures Splits(accounts, c)
  {
    var p := Target(accounts, c);
    ImportedAt(accounts, c, name, at, i);
    PositionMatches(accounts, c);
    assert i < |accounts| ==> k != i;
    assert c.accountId.Some? && accounts[k].accountId == c.accountId ==> Matches(accounts[k], c) && p <= k;
  }

  lemma NoCollision(db: Db, accounts: seq<Account>, c: Credential, name: Option<string>, at: Arrival, i: nat)
    requires InStep(db, accounts) && at.newId !in db.accounts && !Splits(accounts, c)
    requires i < |Imported(accounts, c, name, at)|
    ensures !Collides(db, Imported(accounts, c, name, at), i)
  {
    var after := Imported(accounts, c, name, at);
    UpstreamStaysDistinctIff(accounts, c, name, at);
    assert DistinctUpstream(after);
    forall id | id in db.accounts && id != after[i].id && after[i].accountId.Some?
      ensures db.accounts[id].upstreamId != after[i].accountId
    {
      var k :| 0 <= k < |accounts| && accounts[k].id == id;
      assert IsRow(db, accounts[k]);
      if db.accounts[id].upstreamId == after[i].accountId { HolderSplits(db, accounts, c, name, at, i, k); }
    }
  }

  lemma WrittenFits(db: Db, accounts: seq<Account>, c: Credential, name: Option<string>, at: Arrival)
    requires InStep(db, accounts)
    ensures var after, p := Imported(accounts, c, name, at), Target(accounts, c);
      && (Storable(after[p]) <==> (p < |accounts| ==> accounts[p].revision < I64_MAX))
      && forall i :: 0 <= i < |after| && i != p ==> Storable(after[i])
  {
    var after, p := Imported(accounts, c, name, at), Target(accounts, c);
    assert p < |accounts| ==> IsRow(db, accounts[p]);
    forall i | 0 <= i < |after| && i != p ensures Storable(after[i]) {
      assert after[i] == accounts[i] && IsRow(db, accounts[i]);
    }
  }

  // After an import into an index that was just loaded, the whole index can be
  // saved if and only if the import did not split an upstream identifier, and the
  // revision it raised still fits its column.
  lemma ImportIsStorableIff(db: Db, accounts: seq<Account>, c: Credential, name: Option<string>, at: Arrival)
    requires Valid(db) && IsLoaded(db, accounts) && at.newId !in db.accounts
    ensures var p := Target(accounts, c);
      Replaced(db, Imported(accounts, c, name, at)).Some? <==>
        !Splits(accounts, c) && (p < |accounts| ==> accounts[p].revision < I64_MAX)
  {
    var after := Imported(accounts, c, name, at);
    LoadedIsInStep(db, accounts);
    InStepFresh(db, accounts, at.newId);
    ImportedIds(accounts, c, name, at);
    ReplaceIffAdmissible(db, after);
    WrittenFits(db, accounts, c, name, at);
    if Splits(accounts, c) {
      SplitIsNeverStored(db, accounts, c, name, at);
    } else {
      forall i | 0 <= i < |after| ensures !Collides(db, after, i) {
        NoCollision(db, accounts, c, name, at, i);
      }
    }
  }

  // A renewal of a loaded index can be saved if and only if the login belongs to
  // no other account, and the raised revision fits its column.
  lemma RenewalIsStorableIff(db: Db, accounts: seq<Account>, p: nat, c: Credential, now: Time)
    requires Valid(db) && IsLoaded(db, accounts) && p < |accounts|
    ensures Replaced(db, RenewedAt(accounts, p, c, now)).Some? <==>
      !BelongsElsewhere(accounts, p, c) && accounts[p].revision < I64_MAX
  {
    assert InStep(db, accounts) by { LoadedIsInStep(db, accounts); }
    RenewedIds(accounts, p, c, now);
    ReplaceIffAdmissible(db, RenewedAt(accounts, p, c, now));
    RenewedIsAdmissibleIff(db, accounts, p, c, now);
  }

  lemma RenewedIds(accounts: seq<Account>, p: nat, c: Credential, now: Time)
    requires p < |accounts| && DistinctIds(accounts)
    ensures DistinctIds(RenewedAt(accounts, p, c, now))
  {
    assert forall k :: 0 <= k < |accounts| ==> RenewedAt(accounts, p, c, now)[k].id == accounts[k].id;
  }

  lemma RenewedIsAdmissibleIff(db: Db, accounts: seq<Account>, p: nat, c: Credential, now: Time)
    requires InStep(db, accounts) && p < |accounts|
    ensures Admissible(db, RenewedAt(accounts, p, c, now)) <==>
      !BelongsElsewhere(accounts, p, c) && accounts[p].revision < I64_MAX
  {
    var after := RenewedAt(accounts, p, c, now);
    RenewedFits(db, accounts, p, c, now);
    if BelongsElsewhere(accounts, p, c) {
      RenewedCollides(db, accounts, p, c, now);
    } else {
      forall i | 0 <= i < |after| ensures !Collides(db, after, i) {
        RenewedIsFree(db, accounts, p, c, now, i);
      }
    }
  }

  lemma RenewedFits(db: Db, accounts: seq<Account>, p: nat, c: Credential, now: Time)
    requires InStep(db, accounts) && p < |accounts|
    ensures var after := RenewedAt(accounts, p, c, now);
      && (Storable(after[p]) <==> accounts[p].revision < I64_MAX)
      && forall i :: 0 <= i < |after| && i != p ==> Storable(after[i])
  {
    assert forall i :: 0 <= i < |accounts| ==> IsRow(db, accounts[i]);
  }

  // The row that is renewed or the one that holds the identifier meets the other.
  lemma RenewedCollides(db: Db, accounts: seq<Account>, p: nat, c: Credential, now: Time)
    requires InStep(db, accounts) && p < |accounts| && BelongsElsewhere(accounts, p, c)
    ensures var after := RenewedAt(accounts, p, c, now);
      exists i :: 0 <= i < |after| && Collides(db, after, i)
  {
    var after := RenewedAt(accounts, p, c, now);
    var j :| 0 <= j < |accounts| && j != p && accounts[j].accountId == c.accountId;
    assert after[j] == accounts[j] && after[p].accountId == c.accountId;
    if j < p {
      assert Collides(db, after, p);
    } else {
      assert Collides(db, after, j);
    }
  }

  lemma RenewedIsFree(db: Db, accounts: seq<Account>, p: nat, c: Credential, now: Time, i: nat)
    requires InStep(db, accounts) && p < |accounts| && i < |accounts| && !BelongsElsewhere(accounts, p, c)
    ensures !Collides(db, RenewedAt(accounts, p, c, now), i)
  {
    var after := RenewedAt(accounts, p, c, now);
    RenewalStaysDistinctIff(accounts, p, c, now);
    forall id | id in db.accounts && id != after[i].id && after[i].accountId.Some?
      ensures db.accounts[id].upstreamId != after[i].accountId
    {
      var k :| 0 <= k < |accounts| && accounts[k].id == id;
      assert IsRow(db, accounts[k]);
      OtherIdentifier(accounts, p, c, now, i, k);
    }
  }

  lemma OtherIdentifier(accounts: seq<Account>, p: nat, c: Credential, now: Time, i: nat, k: nat)
    requires DistinctUpstream(accounts) && !BelongsElsewhere(accounts, p, c)
    requires p < |accounts| && i < |accounts| && k < |accounts| && i != k
    ensures var after := RenewedAt(accounts, p, c, now);
      after[i].accountId.Some? ==> accounts[k].accountId != after[i].accountId
  {
    assert accounts[i].accountId.Some? && i < k ==> accounts[i].accountId != accounts[k].accountId;
    assert accounts[k].accountId.Some? && k < i ==> accounts[k].accountId != accounts[i].accountId;
  }

  lemma InStepFresh(db: Db, accounts: seq<Account>, id: Id)
    requires InStep(db, accounts) && id !in db.accounts
    ensures forall i :: 0 <= i < |accounts| ==> accounts[i].id != id
  {
    assert forall i :: 0 <= i < |accounts| ==> IsRow(db, accounts[i]);
  }
}
