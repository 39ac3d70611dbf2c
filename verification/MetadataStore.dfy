// The store object: each transaction works on a copy of the tables and commits
// it only when every statement was accepted.

module Metadata {
  import opened Wrappers
  import opened Types
  import opened Sorting
  import opened Storage
  import opened StorageLaws

  lemma DeleteTwice(db: Db, gone: set<Id>, more: set<Id>)
    ensures DeleteAccounts(DeleteAccounts(db, gone), more) == DeleteAccounts(db, gone + more)
  {
    var d, e := DeleteAccounts(DeleteAccounts(db, gone), more), DeleteAccounts(db, gone + more);
    assert d.accounts == e.accounts;
    assert d.runtime == e.runtime;
    assert d.quotas == e.quotas;
    assert d.bindings == e.bindings;
  }

  predicate LoadedNotAfter(a: Account, b: Account) {
    !LoadedBefore(b, a)
  }

  lemma InsertLoaded(loaded: seq<Account>, a: Account)
    requires Sorted(loaded, LoadedNotAfter)
    ensures Sorted(Insert(loaded, a, LoadedNotAfter), LoadedNotAfter)
    ensures forall x :: x in Insert(loaded, a, LoadedNotAfter) <==> x in loaded || x == a
  {
    InsertSorted(loaded, a, LoadedNotAfter);
    InsertPermutes(loaded, a, LoadedNotAfter);
    forall x ensures x in Insert(loaded, a, LoadedNotAfter) <==> x in loaded || x == a {
      assert x in Insert(loaded, a, LoadedNotAfter) <==> x in multiset(loaded) + multiset{a};
    }
  }

  // With one row per id, ORDER BY leaves no ties.
  lemma LoadedIsStrict(db: Db, loaded: seq<Account>)
    requires Sorted(loaded, LoadedNotAfter) && DistinctIds(loaded)
    requires forall a :: a in loaded <==> a.id in db.accounts && a == AccountOf(db, a.id)
    ensures IsLoaded(db, loaded)
  {
    forall i, j | 0 <= i < j < |loaded| ensures LoadedBefore(loaded[i], loaded[j]) {
      assert LoadedNotAfter(loaded[i], loaded[j]);
      assert loaded[i].id != loaded[j].id;
    }
  }

  lemma {:induction false} InsertDistinct(loaded: seq<Account>, a: Account)
    requires DistinctIds(loaded) && forall x :: x in loaded ==> x.id != a.id
    ensures DistinctIds(Insert(loaded, a, LoadedNotAfter))
    ensures forall x :: x in Insert(loaded, a, LoadedNotAfter) ==> x in loaded || x == a
  {
    if loaded != [] && !LoadedNotAfter(loaded[|loaded| - 1], a) {
      var n := |loaded| - 1;
      InsertDistinct(loaded[..n], a);
      var rest := Insert(loaded[..n], a, LoadedNotAfter);
      forall i | 0 <= i < |rest| ensures rest[i].id != loaded[n].id {
        assert rest[i] in rest;
        if rest[i] in loaded[..n] {
          var k :| 0 <= k < n && loaded[k] == rest[i];
        }
      }
    }
  }

  // One step through a table, in no particular order.
  method Next(rows: set<Id>) returns (id: Id)
    requires rows != {}
    ensures id in rows
  {
    id :| id in rows;
  }

  class MetadataStore {
    var db: Db

    constructor ()
      ensures db == EMPTY_DB
    {
      db := EMPTY_DB;
    }

    method ReplaceAccounts(index: seq<Account>) returns (r: Result<nat>)
      modifies this
      ensures match Replaced(old(db), index)
        case Some(d) => db == d && r == Ok(d.revision)
        case None => db == old(db) && r.Err?
    {
      var tx := db;
      for i := 0 to |index|
        invariant UpsertAll(db, index[..i]) == Some(tx)
        invariant db == old(db)
      {
        UpsertAllPrefix(db, index, i);
        match Upsert(tx, index[i])
        case None => return Err;
        case Some(written) => tx := written;
      }
      assert index[..|index|] == index;

      ghost var written := tx;
      var retained := Ids(index);
      var existing := tx.accounts.Keys;
      DeleteNothing(written);
      assert (written.accounts.Keys - existing) - retained == {};
      while existing != {}
        invariant existing <= written.accounts.Keys && db == old(db)
        invariant tx == DeleteAccounts(written, (written.accounts.Keys - existing) - retained)
      {
        var id := Next(existing);
        if id !in retained {
          DeleteTwice(written, (written.accounts.Keys - existing) - retained, {id});
          tx := DeleteAccounts(tx, {id});
        }
        ghost var before := (written.accounts.Keys - existing) - retained;
        existing := existing - {id};
        assert (written.accounts.Keys - existing) - retained == if id in retained then before else before + {id};
      }
      assert written.accounts.Keys - {} == written.accounts.Keys;
      tx := tx.(revision := tx.revision + 1);
      db := tx;
      r := Ok(tx.revision);
    }

    method ReconcileAccounts(legacy: seq<Account>) returns (r: Result<(seq<Account>, nat)>)
      modifies this
      ensures match Reconciled(old(db), legacy)
        case Some(d) => db == d && r.Ok? && IsLoaded(d, r.value.0) && r.value.1 == d.revision
        case None => db == old(db) && r.Err?
    {
      var tx := db;
      for i := 0 to |legacy|
        invariant InsertMissing(db, legacy[..i]) == Some(tx)
        invariant db == old(db)
      {
        InsertMissingPrefix(db, legacy, i);
        if legacy[i].id !in tx.accounts {
          match Upsert(tx, legacy[i])
          case None => return Err;
          case Some(written) => tx := written;
        }
      }
      assert legacy[..|legacy|] == legacy;
      if legacy != [] && tx.revision < 1 {
        tx := tx.(revision := 1);
      }
      db := tx;
      var loaded := LoadAccounts();
      r := Ok((loaded, db.revision));
    }

    method LoadAccounts() returns (loaded: seq<Account>)
      ensures IsLoaded(db, loaded)
    {
      loaded := [];
      var rows := db.accounts.Keys;
      while rows != {}
        invariant rows <= db.accounts.Keys
        invariant Sorted(loaded, LoadedNotAfter) && DistinctIds(loaded)
        invariant forall a :: a in loaded <==> a.id in db.accounts.Keys - rows && a == AccountOf(db, a.id)
      {
        var id := Next(rows);
        var a := AccountOf(db, id);
        InsertLoaded(loaded, a);
        InsertDistinct(loaded, a);
        loaded := Insert(loaded, a, LoadedNotAfter);
        rows := rows - {id};
      }
      LoadedIsStrict(db, loaded);
    }

    method SaveCircuit(id: Id, reason: string, until: Option<Time>)
      modifies this
      ensures db == Storage.SaveCircuit(old(db), id, reason, until)
    {
      if id in db.runtime {
        var row := db.runtime[id];
        row := row.(circuitReason := Some(reason), circuitUntil := until);
        row := row.(failureCount := row.failureCount + 1);
        db := db.(runtime := db.runtime[id := row]);
      }
    }

    method ClearCircuit(id: Id)
      modifies this
      ensures db == ClearCircuits(old(db), {id})
    {
      if id in db.runtime {
        db := db.(runtime := db.runtime[id := Cleared(db.runtime[id])]);
      }
      assert db.runtime == ClearCircuits(old(db), {id}).runtime;
    }

    method SaveBinding(key: string, id: Id, now: Time, ttl: Time) returns (r: Result<()>)
      modifies this
      ensures match Storage.SaveBinding(old(db), key, id, now + ttl)
        case Some(d) => db == d && r.Ok?
        case None => db == old(db) && r.Err?
    {
      if id !in db.accounts {
        return Err;
      }
      db := db.(bindings := db.bindings[key := BindingRow(id, now + ttl)]);
      r := Ok(());
    }

    method DeleteBinding(key: string)
      modifies this
      ensures db == Storage.DeleteBinding(old(db), key)
    {
      db := db.(bindings := db.bindings - {key});
    }
  }

  lemma {:induction false} UpsertAllPrefix(db: Db, index: seq<Account>, n: nat)
    requires n < |index| && UpsertAll(db, index[..n]).Some?
    ensures UpsertAll(db, index[..n + 1]) == Upsert(UpsertAll(db, index[..n]).value, index[n])
    ensures Upsert(UpsertAll(db, index[..n]).value, index[n]).None? ==> UpsertAll(db, index).None?
    decreases |index| - n
  {
    assert index[..n + 1][..n] == index[..n];
    if Upsert(UpsertAll(db, index[..n]).value, index[n]).None? {
      RefusedPrefix(db, index, n + 1);
    }
  }

  lemma {:induction false} RefusedPrefix(db: Db, index: seq<Account>, n: nat)
    requires n <= |index| && UpsertAll(db, index[..n]).None?
    ensures UpsertAll(db, index).None?
    decreases |index| - n
  {
    if n == |index| {
      assert index[..n] == index;
    } else {
      assert index[..n + 1][..n] == index[..n];
      RefusedPrefix(db, index, n + 1);
    }
  }

  lemma {:induction false} InsertMissingPrefix(db: Db, index: seq<Account>, n: nat)
    requires n < |index| && InsertMissing(db, index[..n]).Some?
    ensures var tx := InsertMissing(db, index[..n]).value;
      && InsertMissing(db, index[..n + 1]) == (if index[n].id in tx.accounts then Some(tx) else Upsert(tx, index[n]))
      && (index[n].id !in tx.accounts && Upsert(tx, index[n]).None? ==> InsertMissing(db, index).None?)
  {
    assert index[..n + 1][..n] == index[..n];
    if InsertMissing(db, index[..n + 1]).None? {
      MissingRefusedPrefix(db, index, n + 1);
    }
  }

  lemma {:induction false} MissingRefusedPrefix(db: Db, index: seq<Account>, n: nat)
    requires n <= |index| && InsertMissing(db, index[..n]).None?
    ensures InsertMissing(db, index).None?
    decreases |index| - n
  {
    if n == |index| {
      assert index[..n] == index;
    } else {
      assert index[..n + 1][..n] == index[..n];
      MissingRefusedPrefix(db, index, n + 1);
    }
  }
}
