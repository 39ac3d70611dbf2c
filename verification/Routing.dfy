// The router (src/proxy/routing.rs): what one call does to the shared state.
// One call is one step, and it reads the clock once.

module Routing {
  import opened Wrappers
  import opened Types
  import opened Sorting
  import opened Storage

  datatype Strategy = Smart | MaxRemaining | RoundRobin

  datatype Config = Config(strategy: Strategy, threshold: real)

  datatype CircuitReason =
    | Unauthorized | InvalidCredential | OrganizationMismatch | MembershipRemoved
    | IpAllowlist | Forbidden | RateLimited | QuotaBlocked | ReauthRequired

  datatype Circuit = Circuit(reason: CircuitReason, until: Option<Time>)

  datatype Why = Sticky | Manual | ByStrategy(strategy: Strategy)

  datatype Refusal = Paused | BoundUnavailable | EmptyPool | NoneEligible

  datatype RouteResult =
    | Routed(id: Id, why: Why)
    | Refused(reason: Refusal, retryAfter: nat, recovery: Option<Time>)

  datatype RouterState = RouterState(
    config: Config,
    bindings: map<string, Id>,
    circuits: map<Id, Circuit>,
    cursor: nat,
    paused: bool,
    preferred: Option<Id>,
    active: map<Id, nat>,
    store: Option<Db>)

  function Fresh(config: Config): RouterState {
    RouterState(config, map[], map[], 0, false, None, map[], None)
  }

  const BINDING_TTL: Time := 24 * HOUR
  const FRESHNESS: Time := 90 * SECOND
  const SESSION_PREFIX: string := "session:"
  const I64_LIMIT: int := 0x7FFF_FFFF_FFFF_FFFF

  // ---------------------------------------------------------------- reason codec

  function ReasonName(reason: CircuitReason): string {
    match reason
    case Unauthorized => "unauthorized"
    case InvalidCredential => "invalid_credential"
    case OrganizationMismatch => "organization_mismatch"
    case MembershipRemoved => "membership_removed"
    case IpAllowlist => "ip_allowlist_error"
    case Forbidden => "forbidden"
    case RateLimited => "rate_limited"
    case QuotaBlocked => "quota_blocked"
    case ReauthRequired => "reauth_required"
  }

  function ReasonFromName(name: string): Option<CircuitReason> {
    if name == "unauthorized" then Some(Unauthorized)
    else if name == "invalid_credential" then Some(InvalidCredential)
    else if name == "organization_mismatch" then Some(OrganizationMismatch)
    else if name == "membership_removed" then Some(MembershipRemoved)
    else if name == "ip_allowlist_error" then Some(IpAllowlist)
    else if name == "forbidden" then Some(Forbidden)
    else if name == "rate_limited" then Some(CircuitReason.RateLimited)
    else if name == "quota_blocked" then Some(QuotaBlocked)
    else if name == "reauth_required" then Some(ReauthRequired)
    else None
  }

  lemma ReasonRoundTrip(reason: CircuitReason)
    ensures ReasonFromName(ReasonName(reason)) == Some(reason)
  {
    match reason
    case Unauthorized =>
    case InvalidCredential =>
    case OrganizationMismatch =>
    case MembershipRemoved =>
    case IpAllowlist =>
    case Forbidden =>
    case RateLimited =>
    case QuotaBlocked =>
    case ReauthRequired =>
  }

  // ---------------------------------------------------------------- circuits

  predicate Due(c: Circuit, now: Time) {
    c.until.Some? && c.until.value <= now
  }

  function DueIds(s: RouterState, now: Time): set<Id> {
    set id | id in s.circuits && Due(s.circuits[id], now)
  }

  function Expired(s: RouterState, now: Time): RouterState {
    s.(circuits := s.circuits - DueIds(s, now),
       store := if s.store.Some? then Some(ClearCircuits(s.store.value, DueIds(s, now))) else None)
  }

  function Opened(s: RouterState, id: Id, reason: CircuitReason, until: Option<Time>): RouterState {
    s.(circuits := s.circuits[id := Circuit(reason, until)],
       store := if s.store.Some? then Some(SaveCircuit(s.store.value, id, ReasonName(reason), until)) else None)
  }

  function Closed(s: RouterState, id: Id): RouterState {
    s.(circuits := s.circuits - {id},
       store := if s.store.Some? then Some(ClearCircuits(s.store.value, {id})) else None)
  }

  // What the answer to a request says about its account.
  datatype Verdict = Opens(circuit: Circuit) | Closes | Silent

  function Ruled(s: RouterState, id: Id, v: Verdict): RouterState {
    match v
    case Opens(c) => Opened(s, id, c.reason, c.until)
    case Closes => Closed(s, id)
    case Silent => s
  }

  // ---------------------------------------------------------------- leases

  function ActiveCount(active: map<Id, nat>, id: Id): nat {
    if id in active then active[id] else 0
  }

  function Acquired(active: map<Id, nat>, id: Id): map<Id, nat> {
    active[id := ActiveCount(active, id) + 1]
  }

  function Released(active: map<Id, nat>, id: Id): map<Id, nat> {
    if id !in active then active
    else if active[id] <= 1 then active - {id}
    else active[id := active[id] - 1]
  }

  // ---------------------------------------------------------------- eligibility

  predicate Eligible(s: RouterState, a: Account, bound: bool, now: Time) {
    && a.enabled && a.proxyEnabled && a.tenantId == "local" && a.status.kind == Live
    && a.id !in s.circuits
    && (a.concurrencyLimit > 0 ==> ActiveCount(s.active, a.id) < a.concurrencyLimit)
    && a.status.checkedAt.Some? && now - a.status.checkedAt.value <= FRESHNESS
    && (bound || (a.status.primary.Some? && a.status.primary.value.usedPercent < s.config.threshold))
  }

  function Find(index: seq<Account>, id: Id): Option<Account> {
    if index == [] then None
    else if index[0].id == id then Some(index[0])
    else Find(index[1..], id)
  }

  function Candidates(s: RouterState, index: seq<Account>, now: Time): seq<Account> {
    if index == [] then []
    else
      var last := index[|index| - 1];
      Candidates(s, index[..|index| - 1], now) + if Eligible(s, last, false, now) then [last] else []
  }

  // sort_by_key on (priority, id)
  predicate RouteOrder(a: Account, b: Account) {
    a.priority < b.priority || (a.priority == b.priority && a.id.bits <= b.id.bits)
  }

  function OfPriority(xs: seq<Account>, priority: int): seq<Account> {
    if xs == [] then []
    else
      OfPriority(xs[..|xs| - 1], priority) + if xs[|xs| - 1].priority == priority then [xs[|xs| - 1]] else []
  }

  // Those of the least priority value, by id.
  function TierOf(eligible: seq<Account>): seq<Account> {
    var sorted := SortBy(eligible, RouteOrder);
    if sorted == [] then [] else OfPriority(sorted, sorted[0].priority)
  }

  function BestTier(s: RouterState, index: seq<Account>, now: Time): seq<Account> {
    TierOf(Candidates(s, index, now))
  }

  // ---------------------------------------------------------------- scores

  function Left(q: Option<Quota>): real {
    if q.Some? then 100.0 - q.value.usedPercent else 0.0
  }

  function MaxReal(x: real, y: real): real { if x < y then y else x }

  function Remaining(a: Account): real {
    MaxReal(MaxReal(0.0, Left(a.status.primary)), Left(a.status.secondary))
  }

  function ResetOf(q: Option<Quota>): int {
    if q.Some? && q.value.resetsAt.Some? then q.value.resetsAt.value else I64_LIMIT
  }

  function Seconds(t: Time): int { t / SECOND }

  function SmartScore(a: Account, now: Time): real {
    var p, q := ResetOf(a.status.primary), ResetOf(a.status.secondary);
    var reset := if p <= q then p else q;
    Remaining(a) + if reset - Seconds(now) <= 1800 then 5.0 else 0.0
  }

  function Score(strategy: Strategy, a: Account, now: Time): real {
    if strategy == Smart then SmartScore(a, now) else Remaining(a)
  }

  // max_by keeps the last of equal maxima.
  function LastBest(tier: seq<Account>, strategy: Strategy, now: Time): Account
    requires tier != []
  {
    var last := tier[|tier| - 1];
    if |tier| == 1 then last
    else
      var best := LastBest(tier[..|tier| - 1], strategy, now);
      if Score(strategy, best, now) <= Score(strategy, last, now) then last else best
  }

  // ---------------------------------------------------------------- refusals

  // The instants a timestamp in seconds can denote.
  const MIN_TIMESTAMP: int := -8334601228800
  const MAX_TIMESTAMP: int := 8210266876799

  function QuotaRecovery(q: Option<Quota>, now: Time): Option<Time> {
    if q.Some? && q.value.resetsAt.Some? && MIN_TIMESTAMP <= q.value.resetsAt.value <= MAX_TIMESTAMP
       && q.value.resetsAt.value * SECOND > now
    then Some(q.value.resetsAt.value * SECOND)
    else None
  }

  function Instants(t: Option<Time>): set<Time> {
    if t.Some? then {t.value} else {}
  }

  function QuotaRecoveries(index: seq<Account>, now: Time): set<Time> {
    if index == [] then {}
    else
      var a := index[|index| - 1];
      QuotaRecoveries(index[..|index| - 1], now) +
      if a.proxyEnabled then
        Instants(QuotaRecovery(a.status.primary, now)) + Instants(QuotaRecovery(a.status.secondary, now))
      else {}
  }

  function CircuitRecoveries(circuits: map<Id, Circuit>): set<Time> {
    set id | id in circuits && circuits[id].until.Some? :: circuits[id].until.value
  }

  ghost predicate IsEarliest(times: set<Time>, earliest: Option<Time>) {
    match earliest
    case None => times == {}
    case Some(t) => t in times && forall u :: u in times ==> t <= u
  }

  predicate AnyInPool(index: seq<Account>) {
    exists i | 0 <= i < |index| :: index[i].proxyEnabled
  }

  function RetryAfter(recovery: Option<Time>, now: Time): nat {
    if recovery.None? then 30
    else
      var wait := recovery.value - now;
      var seconds := if wait < 0 then -(-wait / SECOND) else wait / SECOND;
      if seconds < 1 then 1 else seconds
  }

  // The refusal names the earliest instant at which a quota of the pool resets
  // or a circuit ends.
  ghost predicate Explains(s: RouterState, index: seq<Account>, now: Time, r: RouteResult, why: Refusal) {
    && r.Refused? && r.reason == why
    && IsEarliest(QuotaRecoveries(index, now) + CircuitRecoveries(s.circuits), r.recovery)
    && r.retryAfter == RetryAfter(r.recovery, now)
  }

  // ---------------------------------------------------------------- routing

  datatype Choice =
    | Bound(id: Id)                  // an existing binding whose account is eligible
    | New(id: Id, why: Why)          // chosen for a key without binding
    | NoChoice(reason: Refusal)

  // The preferred account if it is in the tier, and else the strategy's.
  function Picked(s: RouterState, tier: seq<Account>, now: Time): (c: Choice)
    requires tier != []
    ensures c.New?
  {
    if s.preferred.Some? && Find(tier, s.preferred.value).Some? then New(s.preferred.value, Manual)
    else if s.config.strategy == RoundRobin then New(tier[s.cursor % |tier|].id, ByStrategy(RoundRobin))
    else New(LastBest(tier, s.config.strategy, now).id, ByStrategy(s.config.strategy))
  }

  // Everything up to the decision, on a state whose circuits were just expired.
  function Choose(s: RouterState, index: seq<Account>, key: string, now: Time): Choice {
    if key in s.bindings then
      var found := Find(index, s.bindings[key]);
      if found.Some? && Eligible(s, found.value, true, now) then Bound(s.bindings[key]) else NoChoice(BoundUnavailable)
    else
      var tier := BestTier(s, index, now);
      if tier == [] then NoChoice(if AnyInPool(index) then NoneEligible else EmptyPool) else Picked(s, tier, now)
  }

  // Only a round-robin pick moves the cursor.
  function Advanced(s: RouterState, index: seq<Account>, now: Time, c: Choice): RouterState {
    if c.New? && c.why == ByStrategy(RoundRobin) then
      var tier := BestTier(s, index, now);
      if tier == [] then s else s.(cursor := (s.cursor + 1) % |tier|)
    else s
  }

  predicate SessionKey(key: string) {
    SESSION_PREFIX <= key
  }

  function BindingSaved(db: Db, key: string, id: Id, now: Time): Db {
    match SaveBinding(db, key, id, now + BINDING_TTL)
    case Some(d) => d
    case None => db
  }

  function Bind(s: RouterState, key: string, id: Id, now: Time): RouterState {
    s.(bindings := s.bindings[key := id],
       store := if s.store.Some? && SessionKey(key) then Some(BindingSaved(s.store.value, key, id, now)) else s.store)
  }

  function AfterRoute(s: RouterState, index: seq<Account>, key: string, now: Time): RouterState {
    if s.paused then s
    else
      var e := Expired(s, now);
      var c := Choose(e, index, key, now);
      if c.New? then Bind(Advanced(e, index, now, c), key, c.id, now) else e
  }

  // What a route may answer; it leaves open only the order of equal minima.
  ghost predicate Answers(s: RouterState, index: seq<Account>, key: string, now: Time, r: RouteResult) {
    if s.paused then r == Refused(Paused, 1, None)
    else
      var e := Expired(s, now);
      match Choose(e, index, key, now)
      case Bound(id) => r == Routed(id, Sticky)
      case New(id, why) => r == Routed(id, why)
      case NoChoice(reason) => Explains(e, index, now, r, reason)
  }

  // ---------------------------------------------------------------- the other operations

  function Preferred(s: RouterState, id: Id): RouterState {
    s.(preferred := Some(id), bindings := map[])
  }

  function Unbound(s: RouterState, key: string): RouterState {
    s.(bindings := s.bindings - {key},
       store := if s.store.Some? then Some(DeleteBinding(s.store.value, key)) else None)
  }

  // Session bindings that have not expired, and circuits that are known and not due.
  function LoadedBindings(db: Db): map<string, Id> {
    map key | key in db.bindings && SessionKey(key) :: db.bindings[key].accountId
  }

  predicate Loadable(row: RuntimeRow, now: Time) {
    && row.circuitReason.Some? && ReasonFromName(row.circuitReason.value).Some?
    && (row.circuitUntil.None? || row.circuitUntil.value > now)
  }

  function LoadedCircuit(row: RuntimeRow): Circuit
    requires row.circuitReason.Some? && ReasonFromName(row.circuitReason.value).Some?
  {
    Circuit(ReasonFromName(row.circuitReason.value).value, row.circuitUntil)
  }

  function LoadedCircuits(db: Db, now: Time): map<Id, Circuit> {
    map id | id in db.runtime && Loadable(db.runtime[id], now) :: LoadedCircuit(db.runtime[id])
  }

  function Attached(s: RouterState, db: Db, now: Time): RouterState {
    var d := PurgeBindings(db, now);
    s.(bindings := s.bindings + LoadedBindings(d),
       circuits := s.circuits + LoadedCircuits(d, now),
       store := Some(d))
  }
}
