// The metadata store (src/storage.rs): the account tables, their foreign keys
// and unique index, and the transactions that rewrite them. A table is a map
// from its primary key; every SQL statement below is one function on `Db`.

module Storage {
  import opened Wrappers
  import opened Types

  // SQLite integers are signed 64-bit; the driver refuses a larger unsigned value.
  const I64_MAX: nat := 0x7FFF_FFFF_FFFF_FFFF

  const PRIMARY: string := "primary"
  const SECONDARY: string := "secondary"

  datatype AccountRow = AccountRow(
    title: string, source: string, importedAt: Time, email: Option<string>, plan: Option<string>,
    upstreamId: Option<string>, tenantId: string, proxyEnabled: bool, enabled: bool,
    priority: int, concurrencyLimit: nat, revision: nat)

  datatype RuntimeRow = RuntimeRow(
    status: string, checkedAt: Option<Time>, detail: string,
    failureCount: nat, circuitReason: Option<string>, circuitUntil: Option<Time>)

  datatype QuotaKey = QuotaKey(id: Id, kind: string)

  datatype BindingRow = BindingRow(accountId: Id, expiresAt: Time)

  datatype Db = Db(
    revision: nat,
    accounts: map<Id, AccountRow>,
    runtime: map<Id, RuntimeRow>,
    quotas: map<QuotaKey, Quota>,
    bindings: map<string, BindingRow>)

  const EMPTY_DB: Db := Db(0, map[], map[], map[], map[])

  // ---------------------------------------------------------------- codecs

  function StatusName(kind: StatusKind): string {
    match kind
    case Live => "healthy"
    case Exhausted => "quota_exhausted"
    case Reauth => "reauth_required"
    case AccessDenied => "access_denied"
    case RateLimited => "rate_limited"
    case TemporaryFailure => "temporary_failure"
    case Disabled => "disabled"
    case Invalid => "invalid"
    case Unknown => "unknown"
  }

  function StatusFromName(name: string): StatusKind {
    if name == "healthy" then Live
    else if name == "quota_exhausted" then Exhausted
    else if name == "reauth_required" then Reauth
    else if name == "access_denied" then AccessDenied
    else if name == "rate_limited" then RateLimited
    else if name == "temporary_failure" then TemporaryFailure
    else if name == "disabled" then Disabled
    else if name == "invalid" then Invalid
    else Unknown
  }

  lemma StatusRoundTrip(kind: StatusKind)
    ensures StatusFromName(StatusName(kind)) == kind
  {
    match kind
    case Live =>
    case Exhausted =>
    case Reauth =>
    case AccessDenied =>
    case RateLimited =>
    case TemporaryFailure =>
    case Disabled =>
    case Invalid =>
    case Unknown =>
  }

  const REDACTED: string := "[敏感信息已隐藏]"
  const MAX_DETAIL: nat := 1024

  // `marker` occurs in `text`, ignoring ASCII case.
  predicate Mentions(text: string, marker: string) {
    exists i | 0 <= i <= |text| - |marker| :: OccursAt(text, marker, i)
  }

  predicate OccursAt(text: string, marker: string, i: nat)
    requires i + |marker| <= |text|
  {
    forall k | 0 <= k < |marker| :: Lower(text[i + k]) == marker[k]
  }

  predicate Sensitive(text: string) {
    || Mentions(text, "authorization")
    || Mentions(text, "bearer ")
    || Mentions(text, "access_token")
    || Mentions(text, "refresh_token")
    || Mentions(text, "id_token")
  }

  function Sanitize(text: string): string {
    if Sensitive(text) then REDACTED
    else if |text| <= MAX_DETAIL then text
    else text[..MAX_DETAIL]
  }

  lemma PrefixMentions(text: string, n: nat, marker: string)
    requires n <= |text| && Mentions(text[..n], marker)
    ensures Mentions(text, marker)
  {
    var i :| 0 <= i <= n - |marker| && OccursAt(text[..n], marker, i);
    assert OccursAt(text, marker, i);
  }

  lemma RedactedIsClean()
    ensures !Sensitive(REDACTED)
  {
    assert |REDACTED| == 9;
    forall i | 0 <= i <= 2 ensures !OccursAt(REDACTED, "bearer ", i) {
      assert Lower(REDACTED[i + 0]) != "bearer "[0];
    }
    forall i | 0 <= i <= 1 ensures !OccursAt(REDACTED, "id_token", i) {
      assert Lower(REDACTED[i + 0]) != "id_token"[0];
    }
  }

  // No stored detail mentions a credential marker, none is longer than the
  // limit, and sanitizing twice changes nothing.
  lemma SanitizeSettles(text: string)
    ensures !Sensitive(Sanitize(text))
    ensures |Sanitize(text)| <= MAX_DETAIL
    ensures Sanitize(Sanitize(text)) == Sanitize(text)
  {
    RedactedIsClean();
    if !Sensitive(text) && |text| > MAX_DETAIL && Sensitive(text[..MAX_DETAIL]) {
      var marker :| marker in {"authorization", "bearer ", "access_token", "refresh_token", "id_token"}
        && Mentions(text[..MAX_DETAIL], marker);
      PrefixMentions(text, MAX_DETAIL, marker);
    }
  }

  // A letter of a text that reads as one of a marker, in either case.
  predicate ReadsAs(c: char, m: char) {
    c == m || ('a' <= m <= 'z' && c as int + 32 == m as int)
  }

  ghost predicate Contains(text: string, marker: string) {
    exists i :: 0 <= i && i + |marker| <= |text| && ContainsAt(text, marker, i)
  }

  ghost predicate ContainsAt(text: string, marker: string, i: nat)
    requires i + |marker| <= |text|
  {
    forall k :: 0 <= k < |marker| ==> ReadsAs(text[i + k], marker[k])
  }

  // The text may carry a credential.
  ghost predicate Confidential(text: string) {
    || Contains(text, "authorization") || Contains(text, "bearer ") || Contains(text, "access_token")
    || Contains(text, "refresh_token") || Contains(text, "id_token")
  }

  // What is kept of a detail: the notice instead of a text that may carry a
  // credential, and of any other text the first 1024 characters.
  ghost predicate KeptOf(kept: string, text: string) {
    if Confidential(text) then kept == "[敏感信息已隐藏]"
    else kept <= text && |kept| == if |text| < 1024 then |text| else 1024
  }

  lemma ContainsIffMentions(text: string, marker: string)
    requires forall k :: 0 <= k < |marker| ==> !('A' <= marker[k] <= 'Z')
    ensures Contains(text, marker) <==> Mentions(text, marker)
  {
    forall i: nat | i + |marker| <= |text| ensures ContainsAt(text, marker, i) <==> OccursAt(text, marker, i) {
      forall k | 0 <= k < |marker| ensures ReadsAs(text[i + k], marker[k]) <==> Lower(text[i + k]) == marker[k] {
      }
    }
    if Contains(text, marker) {
      var i :| 0 <= i && i + |marker| <= |text| && ContainsAt(text, marker, i);
      assert OccursAt(text, marker, i);
    }
    if Mentions(text, marker) {
      var i :| 0 <= i <= |text| - |marker| && OccursAt(text, marker, i);
      assert ContainsAt(text, marker, i);
    }
  }

  lemma SanitizeKeeps(text: string)
    ensures KeptOf(Sanitize(text), text)
  {
    ContainsIffMentions(text, "authorization");
    ContainsIffMentions(text, "bearer ");
    ContainsIffMentions(text, "access_token");
    ContainsIffMentions(text, "refresh_token");
    ContainsIffMentions(text, "id_token");
  }

  // ---------------------------------------------------------------- rows

  function RowOf(a: Account): AccountRow {
    AccountRow(a.title, a.source, a.importedAt, a.email, a.plan, a.accountId, a.tenantId,
               a.proxyEnabled, a.enabled, a.priority, a.concurrencyLimit, a.revision)
  }

  // An update keeps the circuit and the failure count of the row it finds.
  function RuntimeOf(a: Account, runtime: map<Id, RuntimeRow>): RuntimeRow {
    var blank := RuntimeRow(StatusName(a.status.kind), a.status.checkedAt, Sanitize(a.status.detail), 0, None, None);
    if a.id in runtime then
      blank.(failureCount := runtime[a.id].failureCount,
             circuitReason := runtime[a.id].circuitReason,
             circuitUntil := runtime[a.id].circuitUntil)
    else blank
  }

  function Windows(a: Account): map<QuotaKey, Quota> {
    (if a.status.primary.Some? then map[QuotaKey(a.id, PRIMARY) := a.status.primary.value] else map[]) +
    (if a.status.secondary.Some? then map[QuotaKey(a.id, SECONDARY) := a.status.secondary.value] else map[])
  }

  // DELETE of the account's windows, and an INSERT of those it has.
  function WithWindows(quotas: map<QuotaKey, Quota>, a: Account): map<QuotaKey, Quota> {
    (map k | k in quotas && k.id != a.id :: quotas[k]) + Windows(a)
  }

  predicate FitsWindow(q: Option<Quota>) {
    q.Some? && q.value.windowMinutes.Some? ==> q.value.windowMinutes.value <= I64_MAX
  }

  predicate Storable(a: Account) {
    a.concurrencyLimit <= I64_MAX && a.revision <= I64_MAX
    && FitsWindow(a.status.primary) && FitsWindow(a.status.secondary)
  }

  // The unique index on the non-null upstream identifiers.
  predicate UpstreamTaken(db: Db, a: Account) {
    a.accountId.Some? && exists id | id in db.accounts :: id != a.id && db.accounts[id].upstreamId == a.accountId
  }

  // INSERT .. ON CONFLICT(id) DO UPDATE for one account; None is a refused statement.
  function Upsert(db: Db, a: Account): Option<Db> {
    if !Storable(a) || UpstreamTaken(db, a) then None
    else
      Some(db.(accounts := db.accounts[a.id := RowOf(a)],
               runtime := db.runtime[a.id := RuntimeOf(a, db.runtime)],
               quotas := WithWindows(db.quotas, a)))
  }

  function UpsertAll(db: Db, index: seq<Account>): Option<Db> {
    if index == [] then Some(db)
    else
      var before := UpsertAll(db, index[..|index| - 1]);
      if before.None? then None else Upsert(before.value, index[|index| - 1])
  }

  // DELETE FROM accounts with its ON DELETE CASCADE references.
  function DeleteAccounts(db: Db, gone: set<Id>): Db {
    db.(accounts := map id | id in db.accounts && id !in gone :: db.accounts[id],
        runtime := map id | id in db.runtime && id !in gone :: db.runtime[id],
        quotas := map k | k in db.quotas && k.id !in gone :: db.quotas[k],
        bindings := map key | key in db.bindings && db.bindings[key].accountId !in gone :: db.bindings[key])
  }

  function Replaced(db: Db, index: seq<Account>): Option<Db> {
    var written := UpsertAll(db, index);
    if written.None? then None
    else
      var kept := DeleteAccounts(written.value, written.value.accounts.Keys - Ids(index));
      Some(kept.(revision := kept.revision + 1))
  }

  function InsertMissing(db: Db, index: seq<Account>): Option<Db> {
    if index == [] then Some(db)
    else
      var before := InsertMissing(db, index[..|index| - 1]);
      var a := index[|index| - 1];
      if before.None? then None
      else if a.id in before.value.accounts then before
      else Upsert(before.value, a)
  }

  function Reconciled(db: Db, legacy: seq<Account>): Option<Db> {
    var written := InsertMissing(db, legacy);
    if written.None? || legacy == [] then written
    else Some(written.value.(revision := if written.value.revision < 1 then 1 else written.value.revision))
  }

  // ---------------------------------------------------------------- circuits and bindings

  // An UPDATE: an account without a runtime row is left without one.
  function SaveCircuit(db: Db, id: Id, reason: string, until: Option<Time>): Db {
    if id !in db.runtime then db
    else
      var row := db.runtime[id];
      db.(runtime := db.runtime[id := row.(circuitReason := Some(reason), circuitUntil := until,
                                           failureCount := row.failureCount + 1)])
  }

  function Cleared(row: RuntimeRow): RuntimeRow {
    row.(circuitReason := None, circuitUntil := None, failureCount := 0)
  }

  function ClearCircuits(db: Db, ids: set<Id>): Db {
    db.(runtime := map id | id in db.runtime :: if id in ids then Cleared(db.runtime[id]) else db.runtime[id])
  }

  // A saved circuit counts one more failure of its account, a cleared one none,
  // and what the last check found stays; the other rows are as they were.
  lemma CircuitColumns(db: Db, id: Id, reason: string, until: Option<Time>, ids: set<Id>, other: Id)
    requires other in db.runtime
    ensures var row, saved := db.runtime[other], SaveCircuit(db, id, reason, until).runtime;
      && saved.Keys == db.runtime.Keys
      && saved[other] ==
           if other == id
           then RuntimeRow(row.status, row.checkedAt, row.detail, row.failureCount + 1, Some(reason), until)
           else row
    ensures var row, cleared := db.runtime[other], ClearCircuits(db, ids).runtime;
      && cleared.Keys == db.runtime.Keys
      && cleared[other] ==
           if other in ids then RuntimeRow(row.status, row.checkedAt, row.detail, 0, None, None) else row
  {
  }

  // None is a foreign-key violation.
  function SaveBinding(db: Db, key: string, id: Id, expiresAt: Time): Option<Db> {
    if id !in db.accounts then None
    else Some(db.(bindings := db.bindings[key := BindingRow(id, expiresAt)]))
  }

  function DeleteBinding(db: Db, key: string): Db {
    db.(bindings := db.bindings - {key})
  }

  function PurgeBindings(db: Db, now: Time): Db {
    db.(bindings := map key | key in db.bindings && db.bindings[key].expiresAt > now :: db.bindings[key])
  }

  // ---------------------------------------------------------------- invariant

  ghost predicate UniqueUpstream(accounts: map<Id, AccountRow>) {
    forall i, j :: i in accounts && j in accounts && i != j && accounts[i].upstreamId.Some?
      ==> accounts[i].upstreamId != accounts[j].upstreamId
  }

  ghost predicate CanonicalRow(r: RuntimeRow) {
    StatusName(StatusFromName(r.status)) == r.status && Sanitize(r.detail) == r.detail
  }

  ghost predicate CanonicalRows(runtime: map<Id, RuntimeRow>) {
    forall id :: id in runtime ==> CanonicalRow(runtime[id])
  }

  ghost predicate FittingRow(r: AccountRow) {
    r.concurrencyLimit <= I64_MAX && r.revision <= I64_MAX
  }

  ghost predicate FittingRows(accounts: map<Id, AccountRow>) {
    forall id :: id in accounts ==> FittingRow(accounts[id])
  }

  ghost predicate FittingQuotas(quotas: map<QuotaKey, Quota>, ids: set<Id>) {
    forall k :: k in quotas ==> k.id in ids && k.kind in {PRIMARY, SECONDARY} && FitsWindow(Some(quotas[k]))
  }

  ghost predicate KnownBindings(bindings: map<string, BindingRow>, ids: set<Id>) {
    forall key :: key in bindings ==> bindings[key].accountId in ids
  }

  // Foreign keys, the unique index, and the shape every write gives its rows.
  ghost predicate Valid(db: Db) {
    && db.runtime.Keys == db.accounts.Keys
    && FittingQuotas(db.quotas, db.accounts.Keys) && KnownBindings(db.bindings, db.accounts.Keys)
    && CanonicalRows(db.runtime) && FittingRows(db.accounts) && UniqueUpstream(db.accounts)
  }

  lemma UpsertKeepsUnique(db: Db, a: Account)
    requires UniqueUpstream(db.accounts) && Upsert(db, a).Some?
    ensures UniqueUpstream(Upsert(db, a).value.accounts)
  {
    var rows := db.accounts[a.id := RowOf(a)];
    forall i, j | i in rows && j in rows && i != j && rows[i].upstreamId.Some?
      ensures rows[i].upstreamId != rows[j].upstreamId
    {
      if i == a.id {
        assert j in db.accounts && rows[j] == db.accounts[j];
      } else if j == a.id {
        assert i in db.accounts && rows[i] == db.accounts[i];
      } else {
        assert i in db.accounts && j in db.accounts;
      }
    }
  }

  lemma WindowsFit(a: Account, k: QuotaKey)
    requires Storable(a) && k in Windows(a)
    ensures k.id == a.id && k.kind in {PRIMARY, SECONDARY} && FitsWindow(Some(Windows(a)[k]))
  {
    if k == QuotaKey(a.id, SECONDARY) {
    } else {
      assert k == QuotaKey(a.id, PRIMARY);
    }
  }

  lemma UpsertKeepsQuotas(quotas: map<QuotaKey, Quota>, ids: set<Id>, a: Account)
    requires FittingQuotas(quotas, ids) && Storable(a)
    ensures FittingQuotas(WithWindows(quotas, a), ids + {a.id})
  {
    var after := WithWindows(quotas, a);
    forall k | k in after
      ensures k.id in ids + {a.id} && k.kind in {PRIMARY, SECONDARY} && FitsWindow(Some(after[k]))
    {
      if k in Windows(a) {
        WindowsFit(a, k);
      } else {
        assert k in quotas && after[k] == quotas[k];
      }
    }
  }

  lemma UpsertKeepsRows(db: Db, a: Account)
    requires CanonicalRows(db.runtime) && FittingRows(db.accounts) && Storable(a)
    ensures CanonicalRows(db.runtime[a.id := RuntimeOf(a, db.runtime)])
    ensures FittingRows(db.accounts[a.id := RowOf(a)])
  {
    StatusRoundTrip(a.status.kind);
    SanitizeSettles(a.status.detail);
  }

  lemma UpsertKeepsValid(db: Db, a: Account)
    requires Valid(db) && Upsert(db, a).Some?
    ensures Valid(Upsert(db, a).value)
  {
    var d := Upsert(db, a).value;
    assert d.accounts.Keys == db.accounts.Keys + {a.id} == d.runtime.Keys;
    UpsertKeepsUnique(db, a);
    UpsertKeepsQuotas(db.quotas, db.accounts.Keys, a);
    UpsertKeepsRows(db, a);
  }

  lemma {:induction false} UpsertAllKeepsValid(db: Db, index: seq<Account>)
    requires Valid(db) && UpsertAll(db, index).Some?
    ensures Valid(UpsertAll(db, index).value)
  {
    if index != [] {
      UpsertAllKeepsValid(db, index[..|index| - 1]);
      UpsertKeepsValid(UpsertAll(db, index[..|index| - 1]).value, index[|index| - 1]);
    }
  }

  lemma {:induction false} InsertMissingKeepsValid(db: Db, index: seq<Account>)
    requires Valid(db) && InsertMissing(db, index).Some?
    ensures Valid(InsertMissing(db, index).value)
  {
    if index != [] {
      InsertMissingKeepsValid(db, index[..|index| - 1]);
      var before := InsertMissing(db, index[..|index| - 1]).value;
      if index[|index| - 1].id !in before.accounts {
        UpsertKeepsValid(before, index[|index| - 1]);
      }
    }
  }

  // Every account transaction that commits leaves a consistent store.
  lemma TransactionsKeepValid(db: Db, index: seq<Account>)
    requires Valid(db)
    ensures Replaced(db, index).Some? ==> Valid(Replaced(db, index).value)
    ensures Reconciled(db, index).Some? ==> Valid(Reconciled(db, index).value)
  {
    if Replaced(db, index).Some? {
      UpsertAllKeepsValid(db, index);
      var written := UpsertAll(db, index).value;
      DeleteKeepsValid(written, written.accounts.Keys - Ids(index));
    }
    if Reconciled(db, index).Some? {
      InsertMissingKeepsValid(db, index);
    }
  }

  lemma DeleteKeepsValid(db: Db, gone: set<Id>)
    requires Valid(db)
    ensures Valid(DeleteAccounts(db, gone))
  {
  }

  // Rows whose status and detail stay as they were stay canonical.
  lemma RuntimeUpdateKeepsValid(db: Db, runtime: map<Id, RuntimeRow>)
    requires Valid(db) && runtime.Keys == db.runtime.Keys
    requires forall i :: i in runtime ==>
      runtime[i].status == db.runtime[i].status && runtime[i].detail == db.runtime[i].detail
    ensures Valid(db.(runtime := runtime))
  {
    forall i | i in runtime ensures CanonicalRow(runtime[i]) {
      assert CanonicalRow(db.runtime[i]);
    }
  }

  lemma CircuitWritesKeepValid(db: Db, id: Id, ids: set<Id>, reason: string, until: Option<Time>)
    requires Valid(db)
    ensures Valid(SaveCircuit(db, id, reason, until)) && Valid(ClearCircuits(db, ids))
  {
    SaveCircuitKeepsValid(db, id, reason, until);
    RuntimeUpdateKeepsValid(db, ClearCircuits(db, ids).runtime);
  }

  lemma SaveCircuitKeepsValid(db: Db, id: Id, reason: string, until: Option<Time>)
    requires Valid(db)
    ensures Valid(SaveCircuit(db, id, reason, until))
  {
    if id in db.runtime {
      var runtime := SaveCircuit(db, id, reason, until).runtime;
      assert runtime.Keys == db.runtime.Keys;
      RuntimeUpdateKeepsValid(db, runtime);
    }
  }

  lemma BindingWritesKeepValid(db: Db, id: Id, key: string, now: Time)
    requires Valid(db)
    ensures SaveBinding(db, key, id, now).Some? ==> Valid(SaveBinding(db, key, id, now).value)
    ensures Valid(DeleteBinding(db, key)) && Valid(PurgeBindings(db, now))
  {
    var ids := db.accounts.Keys;
    if id in ids {
      assert KnownBindings(db.bindings[key := BindingRow(id, now)], ids);
    }
    assert KnownBindings(DeleteBinding(db, key).bindings, ids);
    assert KnownBindings(PurgeBindings(db, now).bindings, ids);
  }
}
