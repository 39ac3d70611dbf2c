// Shared values: the account record and its parts (src/types.rs).

module Wrappers {
  datatype Option<+T> = None | Some(value: T)

  datatype Result<+T> = Ok(value: T) | Err
}

module Types {
  import opened Wrappers

  // Account identifiers are UUIDs, ordered by their bits.
  datatype Id = Uuid(bits: nat)

  // Instants are nanoseconds since the Unix epoch.
  type Time = int

  const SECOND: int := 1_000_000_000
  const HOUR: int := 3600 * SECOND

  datatype StatusKind =
    | Live | Exhausted | Reauth | AccessDenied | RateLimited
    | TemporaryFailure | Disabled | Invalid | Unknown

  datatype Quota = Quota(usedPercent: real, windowMinutes: Option<nat>, resetsAt: Option<int>)

  datatype CheckStatus = CheckStatus(
    kind: StatusKind,
    checkedAt: Option<Time>,
    detail: string,
    primary: Option<Quota>,
    secondary: Option<Quota>)

  const UNCHECKED: string := "尚未检测"

  const DEFAULT_STATUS: CheckStatus := CheckStatus(Unknown, None, UNCHECKED, None, None)

  datatype Account = Account(
    id: Id,
    title: string, // the field `label`, which is a Dafny keyword
    source: string,
    importedAt: Time,
    email: Option<string>,
    plan: Option<string>,
    accountId: Option<string>,
    status: CheckStatus,
    tenantId: string,
    proxyEnabled: bool,
    enabled: bool,
    priority: int,
    concurrencyLimit: nat,
    revision: nat)

  // ASCII case folding.
  function Lower(c: char): char {
    if 'A' <= c <= 'Z' then c + 32 as char else c
  }

  ghost predicate DistinctIds(index: seq<Account>) {
    forall i, j :: 0 <= i < j < |index| ==> index[i].id != index[j].id
  }

  function Ids(index: seq<Account>): set<Id> {
    if index == [] then {} else Ids(index[..|index| - 1]) + {index[|index| - 1].id}
  }

  // Membership in Ids, by position.
  lemma {:induction false} InIds(index: seq<Account>, id: Id)
    ensures id in Ids(index) <==> exists i :: 0 <= i < |index| && index[i].id == id
  {
    if index != [] {
      var n := |index| - 1;
      InIds(index[..n], id);
      if i :| 0 <= i < n && index[..n][i].id == id {
        assert index[i].id == id;
      }
      if i :| 0 <= i < |index| && index[i].id == id {
        assert i == n || index[..n][i].id == id;
      }
    }
  }

  lemma IdAt(index: seq<Account>, i: nat)
    requires i < |index|
    ensures index[i].id in Ids(index)
  {
    InIds(index, index[i].id);
  }

  lemma PositionOf(index: seq<Account>, id: Id) returns (i: nat)
    requires id in Ids(index)
    ensures i < |index| && index[i].id == id
  {
    InIds(index, id);
    i :| 0 <= i < |index| && index[i].id == id;
  }
}
