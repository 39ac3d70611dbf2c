// Importing credentials into the account index (src/account.rs). A value is what
// the parsers read from it; reading and writing files is one step.

module Import {
  import opened Arithmetic
  import opened Types
  import opened Wrappers

  // What a login value carries; `secret` stands for its canonical token snapshot.
  datatype Credential = Credential(accountId: Option<string>, email: Option<string>, plan: Option<string>, secret: nat)

  // An entry of a bundle; no login is one without credentials or access token.
  datatype Entry = Entry(
    login: Option<Credential>,
    name: Option<string>,
    priority: Option<int>,
    concurrency: Option<nat>,
    disabled: bool)

  // A value is a bundle if it has entries, and otherwise a login if it has an
  // access token.
  datatype Value = Value(entries: Option<seq<Entry>>, login: Option<Credential>)

  const DEFAULT_PRIORITY: int := 100
  const DEFAULT_LIMIT: nat := 1

  // ---------------------------------------------------------------- identity

  // Only ASCII letters are folded.
  predicate SameEmail(a: string, b: string) {
    |a| == |b| && forall i :: 0 <= i < |a| ==> Lower(a[i]) == Lower(b[i])
  }

  predicate HasIdentity(c: Credential) {
    c.accountId.Some? || c.email.Some?
  }

  predicate Matches(a: Account, c: Credential) {
    || (c.accountId.Some? && c.accountId == a.accountId)
    || (c.email.Some? && a.email.Some? && SameEmail(c.email.value, a.email.value))
  }

  // The first matching position.
  function Position(accounts: seq<Account>, c: Credential): (p: Option<nat>)
    ensures p.Some? ==> p.value < |accounts|
  {
    if accounts == [] then None
    else
      var n := |accounts| - 1;
      var before := Position(accounts[..n], c);
      if before.Some? then before else if Matches(accounts[n], c) then Some(n) else None
  }

  lemma {:induction false} PositionMatches(accounts: seq<Account>, c: Credential)
    ensures var p := Position(accounts, c);
      && (p.None? <==> forall i :: 0 <= i < |accounts| ==> !Matches(accounts[i], c))
      && (p.Some? ==> Matches(accounts[p.value], c) && forall i :: 0 <= i < p.value ==> !Matches(accounts[i], c))
  {
    if accounts != [] {
      PositionMatches(accounts[..|accounts| - 1], c);
    }
  }

  // The same letter in either case, of those that ASCII has.
  predicate SameLetter(x: char, y: char) {
    || x == y
    || ('A' <= x <= 'Z' && y as int == x as int + 32)
    || ('A' <= y <= 'Z' && x as int == y as int + 32)
  }

  ghost predicate SameAddress(a: string, b: string) {
    |a| == |b| && forall i :: 0 <= i < |a| ==> SameLetter(a[i], b[i])
  }

  // The credential is of this account: of one of the two it carries, the account
  // has the same.
  ghost predicate IsOf(c: Credential, a: Account) {
    || (c.accountId.Some? && a.accountId.Some? && c.accountId.value == a.accountId.value)
    || (c.email.Some? && a.email.Some? && SameAddress(c.email.value, a.email.value))
  }

  lemma IsOfMatches(c: Credential, a: Account)
    ensures Matches(a, c) <==> IsOf(c, a)
  {
    if c.email.Some? && a.email.Some? && |c.email.value| == |a.email.value| {
      var x, y := c.email.value, a.email.value;
      forall i | 0 <= i < |x| ensures Lower(x[i]) == Lower(y[i]) <==> SameLetter(x[i], y[i]) {
      }
    }
  }

  // The position found is that of the first account the credential is of.
  lemma PositionIsFirst(accounts: seq<Account>, c: Credential)
    ensures var p := Position(accounts, c);
      && (p.None? <==> forall i :: 0 <= i < |accounts| ==> !IsOf(c, accounts[i]))
      && (p.Some? ==> IsOf(c, accounts[p.value]) && forall i :: 0 <= i < p.value ==> !IsOf(c, accounts[i]))
  {
    PositionMatches(accounts, c);
    forall i | 0 <= i < |accounts| ensures Matches(accounts[i], c) <==> IsOf(c, accounts[i]) {
      IsOfMatches(c, accounts[i]);
    }
  }

  // ---------------------------------------------------------------- one import

  function OrElse<T>(a: Option<T>, b: Option<T>): Option<T> {
    if a.Some? then a else b
  }

  // Where a value comes from, with the file stem of that; when; and the
  // identifier a new account would get.
  datatype Arrival = Arrival(source: string, stem: string, now: Time, newId: Id)

  function Renewed(a: Account, c: Credential, source: string, now: Time): Account {
    a.(source := source, importedAt := now, email := OrElse(c.email, a.email), plan := OrElse(c.plan, a.plan),
       accountId := OrElse(c.accountId, a.accountId), status := DEFAULT_STATUS, revision := Bump(a.revision))
  }

  function Added(c: Credential, name: Option<string>, at: Arrival): Account {
    var title := if name.Some? then name.value else if c.email.Some? then c.email.value else at.stem;
    Account(at.newId, title, at.source, at.now, c.email, c.plan, c.accountId, DEFAULT_STATUS, "local", false, true,
            DEFAULT_PRIORITY, DEFAULT_LIMIT, 1)
  }

  // The position an import writes.
  function Target(accounts: seq<Account>, c: Credential): (p: nat)
    ensures p <= |accounts|
  {
    if Position(accounts, c).Some? then Position(accounts, c).value else |accounts|
  }

  function Written(accounts: seq<Account>, c: Credential, name: Option<string>, at: Arrival): Account {
    var p := Target(accounts, c);
    if p < |accounts| then
      var a := Renewed(accounts[p], c, at.source, at.now);
      if name.Some? then a.(title := name.value) else a
    else Added(c, name, at)
  }

  function Imported(accounts: seq<Account>, c: Credential, name: Option<string>, at: Arrival): (after: seq<Account>)
    ensures Target(accounts, c) < |after|
  {
    var p := Target(accounts, c);
    var a := Written(accounts, c, name, at);
    if p < |accounts| then accounts[p := a] else accounts + [a]
  }

  // The account whose snapshot is saved.
  function WrittenId(accounts: seq<Account>, c: Credential, at: Arrival): Id {
    if Target(accounts, c) < |accounts| then accounts[Target(accounts, c)].id else at.newId
  }

  // What is unknown of an account until it is checked.
  predicate Unchecked(status: CheckStatus) {
    status.kind == Unknown && status.checkedAt.None? && status.primary.None? && status.secondary.None?
    && status.detail == "尚未检测"
  }

  // The identity an import gives, where it carries one, and else what was there.
  predicate TakesIdentity(a: Account, c: Credential, accountId: Option<string>, email: Option<string>,
                          plan: Option<string>) {
    && a.accountId == (if c.accountId.Some? then c.accountId else accountId)
    && a.email == (if c.email.Some? then c.email else email)
    && a.plan == (if c.plan.Some? then c.plan else plan)
  }

  // A known account renewed, under a name if one is given: scheduling is as before.
  predicate RenewedFrom(a: Account, b: Account, c: Credential, name: Option<string>, at: Arrival) {
    && a.id == b.id && a.title == (if name.Some? then name.value else b.title)
    && a.source == at.source && a.importedAt == at.now && Unchecked(a.status)
    && TakesIdentity(a, c, b.accountId, b.email, b.plan)
    && a.tenantId == b.tenantId && a.proxyEnabled == b.proxyEnabled && a.enabled == b.enabled
    && a.priority == b.priority && a.concurrencyLimit == b.concurrencyLimit
    && a.revision == (if b.revision < 0xFFFF_FFFF_FFFF_FFFF then b.revision + 1 else 0xFFFF_FFFF_FFFF_FFFF)
  }

  // A new account: enabled, but not in the pool, and for one request at a time.
  predicate NewFrom(a: Account, c: Credential, name: Option<string>, at: Arrival) {
    && a.id == at.newId
    && a.title == (if name.Some? then name.value else if c.email.Some? then c.email.value else at.stem)
    && a.source == at.source && a.importedAt == at.now && Unchecked(a.status)
    && TakesIdentity(a, c, None, None, None)
    && a.tenantId == "local" && !a.proxyEnabled && a.enabled
    && a.priority == 100 && a.concurrencyLimit == 1 && a.revision == 1
  }

  // An import renews the first account the credential is of, or adds one, and
  // leaves every other as it is.
  lemma ImportWrites(accounts: seq<Account>, c: Credential, name: Option<string>, at: Arrival)
    requires forall a :: a in accounts ==> a.revision <= U64_MAX
    ensures var after := Imported(accounts, c, name, at);
      && (forall i :: 0 <= i < |accounts| && !IsOf(c, accounts[i]) ==> after[i] == accounts[i])
      && (if exists i :: 0 <= i < |accounts| && IsOf(c, accounts[i]) then
            && |after| == |accounts|
            && exists p ::
                 && 0 <= p < |accounts| && IsOf(c, accounts[p]) && RenewedFrom(after[p], accounts[p], c, name, at)
                 && forall i :: 0 <= i < |accounts| && i != p ==>
                      after[i] == accounts[i] && (i < p ==> !IsOf(c, accounts[i]))
          else |after| == |accounts| + 1 && NewFrom(after[|accounts|], c, name, at))
  {
    var p := Target(accounts, c);
    PositionIsFirst(accounts, c);
    var after := Imported(accounts, c, name, at);
    if p < |accounts| {
      assert accounts[p] in accounts;
      assert RenewedFrom(after[p], accounts[p], c, name, at);
    }
  }

  lemma SameEmailReflexive(c: Credential, a: Account)
    requires HasIdentity(c)
    requires (c.accountId.Some? ==> a.accountId == c.accountId) && (c.email.Some? ==> a.email == c.email)
    ensures Matches(a, c)
  {
  }

  // After an import the first match of the same credential is the account just
  // written, exactly when the credential carries an email or an account id.
  lemma WrittenIsFound(accounts: seq<Account>, c: Credential, name: Option<string>, at: Arrival)
    ensures Position(Imported(accounts, c, name, at), c) ==
      if HasIdentity(c) then Some(Target(accounts, c)) else None
  {
    var after := Imported(accounts, c, name, at);
    var p := Target(accounts, c);
    PositionMatches(accounts, c);
    PositionMatches(after, c);
    if HasIdentity(c) {
      SameEmailReflexive(c, after[p]);
      forall i | 0 <= i < p ensures !Matches(after[i], c) {
        assert after[i] == accounts[i];
      }
    }
  }

  // Importing a credential twice adds at most one account exactly when it
  // carries an identity; the second import then rewrites the account of the
  // first, and no other account changes in either.
  lemma ImportTwice(
      accounts: seq<Account>, c: Credential, name: Option<string>, at: Arrival, name': Option<string>, at': Arrival)
    ensures var once := Imported(accounts, c, name, at);
      var twice := Imported(once, c, name', at');
      && |once| <= |accounts| + 1
      && (forall i :: 0 <= i < |accounts| && i != Target(accounts, c) ==> once[i] == accounts[i])
      && (|twice| == |once| <==> HasIdentity(c))
      && (HasIdentity(c) ==>
            var p := Target(accounts, c);
            && twice[p].id == once[p].id == (if p < |accounts| then accounts[p].id else at.newId)
            && forall i :: 0 <= i < |accounts| && i != p ==> twice[i] == accounts[i])
  {
    WrittenIsFound(accounts, c, name, at);
  }

  // No two accounts share an upstream id, as the store's unique index demands.
  ghost predicate DistinctUpstream(accounts: seq<Account>) {
    forall i, j :: 0 <= i < j < |accounts| && accounts[i].accountId.Some? ==>
      accounts[i].accountId != accounts[j].accountId
  }

  // The email match comes first although another account has the account id.
  predicate Splits(accounts: seq<Account>, c: Credential) {
    && c.accountId.Some?
    && exists j :: Target(accounts, c) < j < |accounts| && accounts[j].accountId == c.accountId
  }

  // An import keeps upstream ids distinct exactly when it does not match an
  // earlier account by email while a later one already has the account id.
  lemma UpstreamStaysDistinctIff(
      accounts: seq<Account>, c: Credential, name: Option<string>, at: Arrival)
    requires DistinctUpstream(accounts)
    ensures DistinctUpstream(Imported(accounts, c, name, at)) <==> !Splits(accounts, c)
  {
    var after := Imported(accounts, c, name, at);
    var p := Target(accounts, c);
    PositionMatches(accounts, c);
    if Splits(accounts, c) {
      var j :| p < j < |accounts| && accounts[j].accountId == c.accountId;
      assert after[p].accountId == after[j].accountId;
    } else {
      forall i, j | 0 <= i < j < |after| && after[i].accountId.Some?
        ensures after[i].accountId != after[j].accountId
      {
        if i == p && c.accountId.Some? {
          assert after[j] == accounts[j];
        } else if j == p && c.accountId.Some? {
          assert after[i] == accounts[i] && !Matches(accounts[i], c);
        } else {
          assert i < |accounts| && after[i].accountId == accounts[i].accountId;
          assert j < |accounts| ==> after[j].accountId == accounts[j].accountId;
        }
      }
    }
  }

  // ---------------------------------------------------------------- a renewal

  // The account at this position logged in anew, with whatever identity that has.
  function RenewedAt(accounts: seq<Account>, p: nat, c: Credential, now: Time): seq<Account>
    requires p < |accounts|
  {
    accounts[p := Relogged(accounts[p], c, now)]
  }

  // The login belongs to another account of the index.
  predicate BelongsElsewhere(accounts: seq<Account>, p: nat, c: Credential) {
    c.accountId.Some? && exists j | 0 <= j < |accounts| :: j != p && accounts[j].accountId == c.accountId
  }

  // A renewal keeps upstream ids distinct exactly when the login belongs to no
  // other account; unlike an import it does not look.
  lemma RenewalStaysDistinctIff(accounts: seq<Account>, p: nat, c: Credential, now: Time)
    requires p < |accounts| && DistinctUpstream(accounts)
    ensures DistinctUpstream(RenewedAt(accounts, p, c, now)) <==> !BelongsElsewhere(accounts, p, c)
  {
    var after := RenewedAt(accounts, p, c, now);
    assert forall k :: 0 <= k < |after| && k != p ==> after[k] == accounts[k];
    if BelongsElsewhere(accounts, p, c) {
      var j :| 0 <= j < |accounts| && j != p && accounts[j].accountId == c.accountId;
      assert after[j].accountId == after[p].accountId;
    } else {
      forall i, j | 0 <= i < j < |after| && after[i].accountId.Some?
        ensures after[i].accountId != after[j].accountId
      {
        assert accounts[i].accountId.Some? ==> accounts[i].accountId != accounts[j].accountId;
      }
    }
  }

  // ---------------------------------------------------------------- bundles

  function Clamped(x: int, low: int, high: int): int {
    if x < low then low else if x > high then high else x
  }

  function PriorityOf(e: Entry): int {
    Clamped(if e.priority.Some? then e.priority.value else DEFAULT_PRIORITY, -10_000, 10_000)
  }

  function LimitOf(e: Entry): nat {
    var limit := if e.concurrency.Some? then e.concurrency.value else DEFAULT_LIMIT;
    if limit > 10_000 then 10_000 else limit
  }

  function Configured(a: Account, e: Entry): Account {
    a.(priority := PriorityOf(e), concurrencyLimit := LimitOf(e), enabled := !e.disabled,
       proxyEnabled := a.proxyEnabled && !e.disabled)
  }

  // The settings go to the first account that matches after the import.
  function SettingsApplied(accounts: seq<Account>, e: Entry): seq<Account>
    requires e.login.Some?
  {
    var p := Position(accounts, e.login.value);
    if p.Some? then accounts[p.value := Configured(accounts[p.value], e)] else accounts
  }

  // What an import changes: the index and the saved snapshots.
  datatype Stored = Stored(accounts: seq<Account>, snapshots: map<Id, Credential>)

  function LoginStored(s: Stored, c: Credential, name: Option<string>, at: Arrival): Stored {
    Stored(Imported(s.accounts, c, name, at), s.snapshots[WrittenId(s.accounts, c, at) := c])
  }

  // An entry without login changes nothing; the import stops there.
  function EntryStored(s: Stored, e: Entry, name: Option<string>, at: Arrival): Stored {
    if e.login.None? then s
    else
      var after := LoginStored(s, e.login.value, OrElse(name, e.name), at);
      after.(accounts := SettingsApplied(after.accounts, e))
  }

  function EntriesStored(s: Stored, entries: seq<Entry>, name: Option<string>, ats: seq<Arrival>, n: nat): Stored
    requires n <= |entries| == |ats|
  {
    if n == 0 then s
    else EntryStored(EntriesStored(s, entries, name, ats, n - 1), entries[n - 1], name, ats[n - 1])
  }

  // The state t comes from the state s by one entry, or by the first n.
  ghost predicate ByEntry(s: Stored, t: Stored, e: Entry, name: Option<string>, at: Arrival) {
    t == EntryStored(s, e, name, at)
  }

  ghost predicate ByEntries(s: Stored, t: Stored, entries: seq<Entry>, name: Option<string>, ats: seq<Arrival>, n: nat)
    requires n <= |entries| == |ats|
  {
    t == EntriesStored(s, entries, name, ats, n)
  }

  lemma OneMoreEntry(s: Stored, t: Stored, u: Stored, entries: seq<Entry>, name: Option<string>, ats: seq<Arrival>,
                     n: nat)
    requires n < |entries| == |ats|
    requires ByEntries(s, t, entries, name, ats, n) && ByEntry(t, u, entries[n], name, ats[n])
    ensures ByEntries(s, u, entries, name, ats, n + 1)
  {
  }

  // The entries before the first one without login.
  predicate GoodPrefix(entries: seq<Entry>, n: nat) {
    && n <= |entries|
    && (forall i :: 0 <= i < n ==> entries[i].login.Some?)
    && (n < |entries| ==> entries[n].login.None?)
  }

  lemma ConfiguresWritten(s: Stored, e: Entry, name: Option<string>, at: Arrival)
    requires e.login.Some?
    ensures var c := e.login.value;
      var plain := Imported(s.accounts, c, OrElse(name, e.name), at);
      var p := Target(s.accounts, c);
      EntryStored(s, e, name, at).accounts ==
        if HasIdentity(c) then plain[p := Configured(plain[p], e)] else plain
  {
    WrittenIsFound(s.accounts, e.login.value, OrElse(name, e.name), at);
  }

  // The value that was given, or another, held to a range.
  predicate Held(x: int, given: Option<int>, otherwise: int, low: int, high: int) {
    var wanted := if given.Some? then given.value else otherwise;
    && low <= x <= high
    && (low <= wanted <= high ==> x == wanted)
    && (wanted < low ==> x == low) && (high < wanted ==> x == high)
  }

  // The account b as the settings of an entry leave the account a.
  ghost predicate SetBy(b: Account, a: Account, e: Entry) {
    && (b.enabled <==> !e.disabled)
    && (b.proxyEnabled <==> a.proxyEnabled && !e.disabled)
    && Held(b.priority, e.priority, 100, -10_000, 10_000)
    && Held(b.concurrencyLimit, e.concurrency, 1, 0, 10_000)
    && b == a.(enabled := b.enabled, proxyEnabled := b.proxyEnabled, priority := b.priority,
               concurrencyLimit := b.concurrencyLimit)
  }

  // An entry's settings land on exactly the account it wrote if the entry
  // carries an identity, and are dropped if it does not: whether it is disabled,
  // its priority and its limit, and nothing else.
  lemma SettingsLandOnWritten(s: Stored, e: Entry, name: Option<string>, at: Arrival)
    requires e.login.Some?
    ensures var c := e.login.value;
      var plain, after := Imported(s.accounts, c, OrElse(name, e.name), at), EntryStored(s, e, name, at).accounts;
      var p := Target(s.accounts, c);
      if HasIdentity(c) then
        && |after| == |plain| && SetBy(after[p], plain[p], e)
        && forall i :: 0 <= i < |after| && i != p ==> after[i] == plain[i]
      else after == plain
  {
    ConfiguresWritten(s, e, name, at);
  }

  // A disabled entry without an identity is added enabled, with default settings.
  lemma AnonymousEntryIgnoresSettings(s: Stored, e: Entry, name: Option<string>, at: Arrival)
    requires e.login.Some? && !HasIdentity(e.login.value)
    ensures var after := EntryStored(s, e, name, at).accounts;
      var n := |s.accounts|;
      && |after| == n + 1 && after[..n] == s.accounts
      && NewFrom(after[n], e.login.value, if name.Some? then name else e.name, at)
  {
    PositionMatches(s.accounts, e.login.value);
    ConfiguresWritten(s, e, name, at);
  }

  predicate Writes(accounts: seq<Account>, e: Entry, k: nat) {
    e.login.Some? && Target(accounts, e.login.value) == k
  }

  // Whether one of the first n entries writes the account at position k.
  predicate WrittenIn(s: Stored, entries: seq<Entry>, name: Option<string>, ats: seq<Arrival>, n: nat, k: nat)
    requires n <= |entries| == |ats|
  {
    && n > 0
    && (|| WrittenIn(s, entries, name, ats, n - 1, k)
        || Writes(EntriesStored(s, entries, name, ats, n - 1).accounts, entries[n - 1], k))
  }

  lemma EntryFrame(s: Stored, e: Entry, name: Option<string>, at: Arrival)
    ensures var accounts, after := s.accounts, EntryStored(s, e, name, at).accounts;
      && |accounts| <= |after| <= |accounts| + 1
      && (forall k :: 0 <= k < |accounts| ==> after[k].id == accounts[k].id)
      && (forall k :: 0 <= k < |accounts| && !Writes(accounts, e, k) ==> after[k] == accounts[k])
  {
    if e.login.Some? {
      ConfiguresWritten(s, e, name, at);
    }
  }

  // A whole bundle keeps every identifier in its place, adds at most one account
  // for each entry, and leaves an account that no entry writes as it was.
  lemma {:induction false} BundleFrame(
      s: Stored, entries: seq<Entry>, name: Option<string>, ats: seq<Arrival>, n: nat, k: nat)
    requires n <= |entries| == |ats| && k < |s.accounts|
    ensures var after := EntriesStored(s, entries, name, ats, n).accounts;
      && |s.accounts| <= |after| <= |s.accounts| + n
      && after[k].id == s.accounts[k].id
      && (!WrittenIn(s, entries, name, ats, n, k) ==> after[k] == s.accounts[k])
  {
    if n > 0 {
      BundleFrame(s, entries, name, ats, n - 1, k);
      EntryFrame(EntriesStored(s, entries, name, ats, n - 1), entries[n - 1], name, ats[n - 1]);
    }
  }

  ghost predicate Unused(ats: seq<Arrival>, accounts: seq<Account>) {
    && (forall i, j :: 0 <= i < j < |ats| ==> ats[i].newId != ats[j].newId)
    && (forall i, k :: 0 <= i < |ats| && 0 <= k < |accounts| ==> ats[i].newId != accounts[k].id)
  }

  lemma EntryKeepsDistinct(s: Stored, e: Entry, name: Option<string>, ats: seq<Arrival>)
    requires ats != [] && DistinctIds(s.accounts) && Unused(ats, s.accounts)
    ensures var after := EntryStored(s, e, name, ats[0]).accounts;
      DistinctIds(after) && Unused(ats[1..], after)
  {
    var after := EntryStored(s, e, name, ats[0]).accounts;
    EntryFrame(s, e, name, ats[0]);
    EntryAddsNewId(s, e, name, ats[0]);
    assert forall k :: 0 <= k < |after| ==> after[k].id == if k < |s.accounts| then s.accounts[k].id else ats[0].newId;
  }

  lemma EntryAddsNewId(s: Stored, e: Entry, name: Option<string>, at: Arrival)
    ensures var n, after := |s.accounts|, EntryStored(s, e, name, at).accounts;
      |after| > n ==> after[n].id == at.newId
  {
    if e.login.Some? {
      ConfiguresWritten(s, e, name, at);
    }
  }

  // New identifiers stay apart through a whole bundle.
  lemma {:induction false} BundleKeepsDistinct(
      s: Stored, entries: seq<Entry>, name: Option<string>, ats: seq<Arrival>, n: nat)
    requires n <= |entries| == |ats| && DistinctIds(s.accounts) && Unused(ats, s.accounts)
    ensures var after := EntriesStored(s, entries, name, ats, n).accounts;
      DistinctIds(after) && Unused(ats[n..], after)
  {
    if n == 0 {
      assert ats[0..] == ats;
    } else {
      BundleKeepsDistinct(s, entries, name, ats, n - 1);
      var rest := ats[n - 1..];
      assert rest[0] == ats[n - 1] && rest[1..] == ats[n..];
      EntryKeepsDistinct(EntriesStored(s, entries, name, ats, n - 1), entries[n - 1], name, rest);
    }
  }

  // ---------------------------------------------------------------- the index

  class AccountIndex {
    var accounts: seq<Account>
    var snapshots: map<Id, Credential>

    constructor (accounts: seq<Account>)
      ensures this.accounts == accounts && snapshots == map[]
    {
      this.accounts := accounts;
      snapshots := map[];
    }

    function State(): Stored
      reads this
    {
      Stored(accounts, snapshots)
    }

    method ImportLogin(c: Credential, name: Option<string>, at: Arrival)
      modifies this
      ensures State() == LoginStored(old(State()), c, name, at)
    {
      var existing := Position(accounts, c);
      var id := if existing.Some? then accounts[existing.value].id else at.newId;
      snapshots := snapshots[id := c];
      if existing.Some? {
        var account := Renewed(accounts[existing.value], c, at.source, at.now);
        if name.Some? {
          account := account.(title := name.value);
        }
        accounts := accounts[existing.value := account];
      } else {
        accounts := accounts + [Added(c, name, at)];
      }
    }

    // An entry without login stops the import; the entries before it stay imported.
    method ImportBundle(entries: seq<Entry>, name: Option<string>, ats: seq<Arrival>)
      returns (ok: bool, ghost done: nat)
      requires |ats| == |entries|
      modifies this
      ensures GoodPrefix(entries, done) && (ok <==> entries != [] && done == |entries|)
      // The bundle's name is used only when it has a single entry.
      ensures ByEntries(old(State()), State(), entries, if |entries| == 1 then name else None, ats, done)
    {
      if entries == [] {
        return false, 0;
      }
      var applyName := if |entries| == 1 then name else None;
      ok, done := ImportEntries(entries, applyName, ats);
    }

    method ImportEntries(entries: seq<Entry>, applyName: Option<string>, ats: seq<Arrival>)
      returns (ok: bool, ghost done: nat)
      requires |ats| == |entries|
      modifies this
      ensures GoodPrefix(entries, done) && (ok <==> done == |entries|)
      ensures ByEntries(old(State()), State(), entries, applyName, ats, done)
    {
      done := 0;
      ghost var start := State();
      for n := 0 to |entries|
        invariant forall i :: 0 <= i < n ==> entries[i].login.Some?
        // Compared with true, the predicate stays folded.
        invariant true == ByEntries(start, State(), entries, applyName, ats, n)
      {
        if entries[n].login.None? {
          return false, n;
        }
        ghost var before := State();
        ImportEntry(entries[n], applyName, ats[n]);
        OneMoreEntry(start, before, State(), entries, applyName, ats, n);
      }
      ok, done := true, |entries|;
    }


    method ImportEntry(e: Entry, name: Option<string>, at: Arrival)
      requires e.login.Some?
      modifies this
      ensures ByEntry(old(State()), State(), e, name, at)
    {
      ImportLogin(e.login.value, OrElse(name, e.name), at);
      Configure(e);
    }

    method Configure(e: Entry)
      requires e.login.Some?
      modifies this`accounts
      ensures accounts == SettingsApplied(old(accounts), e)
    {
      var found := Position(accounts, e.login.value);
      if found.Some? {
        accounts := accounts[found.value := Configured(accounts[found.value], e)];
      }
    }

    method ImportValue(value: Value, name: Option<string>, ats: seq<Arrival>) returns (ok: bool, ghost done: nat)
      requires |ats| == if value.entries.Some? then |value.entries.value| else 1
      modifies this
      ensures match value
        case Value(Some(entries), _) =>
          && GoodPrefix(entries, done) && (ok <==> entries != [] && done == |entries|)
          && State() == EntriesStored(old(State()), entries, if |entries| == 1 then name else None, ats, done)
        case Value(None, Some(c)) => ok && State() == LoginStored(old(State()), c, name, ats[0])
        case Value(None, None) => !ok && State() == old(State())
    {
      done := 0;
      if value.entries.Some? {
        ok, done := ImportBundle(value.entries.value, name, ats);
      } else if value.login.Some? {
        ImportLogin(value.login.value, name, ats[0]);
        ok := true;
      } else {
        ok := false;
      }
    }

    // Renews the credentials of the first account with the identifier from the
    // current login; whichever identity that has, every other account stays as it is.
    method UpdateFromCurrent(value: Value, id: Id, now: Time) returns (ok: bool)
      modifies this
      ensures ok <==> value.login.Some? && exists i :: 0 <= i < |old(accounts)| && old(accounts)[i].id == id
      ensures !ok ==> State() == old(State())
      ensures ok ==> snapshots == old(snapshots)[id := value.login.value]
      ensures ok ==> exists p ::
        && 0 <= p < |old(accounts)| && old(accounts)[p].id == id
        && (forall k :: 0 <= k < p ==> old(accounts)[k].id != id)
        && accounts == RenewedAt(old(accounts), p, value.login.value, now)
    {
      if value.login.None? {
        return false;
      }
      var c := value.login.value;
      for i := 0 to |accounts|
        invariant accounts == old(accounts) && snapshots == old(snapshots)
        invariant forall k :: 0 <= k < i ==> accounts[k].id != id
      {
        if accounts[i].id == id {
          snapshots := snapshots[id := c];
          accounts := accounts[i := Relogged(accounts[i], c, now)];
          return true;
        }
      }
      ok := false;
    }
  }

  function Relogged(a: Account, c: Credential, now: Time): Account {
    Renewed(a, c, "current-codex-login", now)
  }
}
