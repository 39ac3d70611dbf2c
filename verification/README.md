# Codex Switcher: a verified model

Codex Switcher keeps several ChatGPT accounts on one machine and runs a local
proxy that sends each Codex session to one of them. This project models the
parts of it that carry its guarantees and proves those guarantees with Dafny.
`dafny verify dfyconfig.toml` checks everything.

## What is modelled

- **Routing** (`Routing`, `Selection`, `Router`, `RoutingRuns`,
  `RoundRobinFairness`, `Interleaving`). The router holds sticky bindings, circuit
  breakers with optional deadlines, active counts, a round-robin cursor, a
  preferred account and a pause flag. Its methods change those fields in place
  and are proved against functions on `RouterState`; the theorems are about
  those functions, over every run of events.
- **Requests** (`Replay`, `Server`, `ServerLaws`, `ServerRuns`, `Verdicts`,
  `Tracker`). One request is routed, leased, sent, replayed a bounded number of
  times, and judged. Upstream is a function from the number of the send to an
  answer. `ServerRuns` is about any sequence of requests, one after another, with
  other operations in between; `Verdicts` is about requests side by side.
- **The metadata store** (`Storage`, `StorageLaws`, `MetadataStore`, `Metrics`).
  Tables are maps, a transaction either commits or leaves the database as it was.
- **The Codex integration** (`Integration`): a reversible edit of a document that
  others edit too, with an undo record and a migration between record versions.
- **The supervisor and the token refresh** (`Runtime`, `Auth`): step relations
  with program counters, for every interleaving. The methods of the supervisor
  are proved to be runs of its step relation.
- **Import, text field, chart axis** (`Import`, `ImportLaws`, `Editor`, `Axis`).
- `Types`, `Sorting` and `Arithmetic` hold what these share.

What an operation computes with, such as a score, a deadline, a kept detail, the
settings of an entry or the counts of a report, is also described from its inputs
alone, without the function that computes it (`UnboundRoute` and `WorthIsScore`,
`FinalCircuit` and `BlocksAs`, `ReplaceThenLoad` and `SanitizeKeeps`,
`SettingsLandOnWritten` and `ImportWrites`, `Metrics.Query`).

### How fine the steps are

| theorem | one step is |
|---|---|
| `UnboundRoute`, `BoundRoute`, `SessionsNeverMigrate`, `QuarantineHolds`, `DeadlineEndsCircuit`, `SessionSurvivesRestarts`, `FairPerRound`, `FairOverall` | one router or store operation, one route included; a restart builds a fresh router on the same store |
| `LimitHolds`, `OrderlySessionsNeverMigrate`, `KeyStaysIffBound`, `FailureEndsRoutingIff`, `Verdicts.LastVerdictStands` | expiry with the lookup of the binding, the eligibility of one account, the selection, the binding, the lease, a refused refresh, the verdict, the end of the lease: separate steps of a request, with those of others and any operation in between; `RouteIsRun` and `ProxiedIsRun` show that they make up a route and a whole request |
| `LimitHoldsPerRoute` | the same, with a route as one step |
| `ServerLaws` | one request from its route to its verdict, alone |
| `ServerRuns.LastVerdictStands`, `FailedAccountIsSentNothing` | one whole request, none beside another, or one router or store operation |
| `TrackerSafety`, `DrainedIff` | one update of the counter or of the map |
| `SingleServer`, `StopEndsStopped`, `MarkBlockedIsSafeIff` | one read or write of a shared field; control operations come one after another, tasks run in between |
| `SingleFlight` | taking the lock, reading, sending, writing |

### What turned out to hold only under a condition

- A replacement of the stored accounts checks the unique upstream identifier row by
  row and deletes last: an identifier moves only to an account that comes after its
  old holder in the new index, not to one whose holder is dropped, and two stored
  accounts cannot exchange theirs (`ReplaceSucceedsIff`, `SwapIsRefused`).
- A circuit on a stored account survives restarts and replacements except exactly
  when a replacement drops the account and a restart follows (`QuarantineHolds`).
- `prefer` clears the bindings of the running process but not the stored ones. A
  restart before the stored session expires puts it back on the account it was moved
  away from exactly when no route in between stored it with another
  (`PreferenceUndoneIff`).
- With more than one account eligible, a key stays on its account, whatever its requests
  do side by side, exactly when it is bound: while a first request has chosen an account
  and not yet bound the key, a second one can be given another, under every strategy
  (`KeyStaysIffBound`, `BoundKeyStays`, `UnboundKeyMoves`). If no two first requests
  overlap, the key stays (`OrderlySessionsNeverMigrate`). Two that choose right after
  each other with nothing in between part exactly under round robin with more than one
  account in the best tier and no preferred one (`UndisturbedPairSplitsIff`).
- A limit L is kept as L - 1 + T when T requests have read the account as eligible
  and hold no lease yet, and that bound is reached (`LimitHolds`,
  `OverlapOverrunsLimit`). With a route as one step, T counts from its return
  (`LimitHoldsPerRoute`).
- After a failure on an account that is otherwise fit, no route gives it before the
  deadline of the failure exactly when no other request has a lease on it that is yet to
  be judged, or can still be given one (`FailureEndsRoutingIff`): the success of such a
  request closes the circuit. For requests one after another this needs no condition
  (`FailedAccountIsSentNothing`).
- A circuit that is opened between the two halves of an expiry, which frees its lock
  before it clears the store, does not outlive a restart if the expiry had just ended a
  circuit of the same account (`OpenedDuringExpiry`).
- `mark_blocked` keeps to one server in everything that can follow exactly when every
  task has settled when it runs: ended, or past its last write of the state
  (`MarkBlockedIsSafeIff`). A task that serves or is on its way there gets a second
  one beside it with the next start; a task that has left serve but still writes its
  last state makes room for a second one after that (`SecondServer`). The step
  relation behind `SingleServer` has the condition as its assumption. One shipped
  caller does not keep it: src/daemon/control_api.rs:607-622 calls `mark_blocked` on
  any start request that finds no eligible account, whatever the state of the proxy.
- A refresh token kept only at the top level of a snapshot is lost on the first
  refresh that does not rotate it (`RefreshKeepsToken`). Every writer in the
  repository stores the token nested (src/account.rs:153, src/proxy/auth.rs:157-167),
  so such a snapshot can come only from outside.
- Migrating an integration and then disabling it is disabling it directly exactly
  when the document's `openai_base_url` agrees with the backup's
  (`MigrationCommutesWithUndo`).
- Enabling where a version 2 integration with another proxy address exists succeeds and
  leaves that address in place (`EnabledPointsHereIff`).
- A bundle entry without email and account id is added, but its priority, limit and
  enabled flag are dropped (`SettingsLandOnWritten`, `AnonymousEntryIgnoresSettings`).
- An import that matches an earlier account by email while a later one has the account
  id gives two accounts the same upstream identifier (`UpstreamStaysDistinctIff`), and
  the index then cannot be saved in any database (`SplitIsNeverStored`,
  `ImportIsStorableIff`).
- Renewing an account with a login that belongs to another account does the same, as
  nothing is checked (`RenewalStaysDistinctIff`, `RenewalIsStorableIff`).
- Renewing a login keeps every scheduling setting, but the account is not routed to
  until it is checked again (`RenewalKeepsSettings`, `RenewedIsNotServed`); the
  comment on `update_from_current` says that routing behaviour never changes.
- The chart axis covers the value exactly up to 10^19; above that the 64-bit product
  wraps (`NiceAxisCoversIff`).

The comment at the top of `src/integration.rs` says that only `model_provider` and
the provider table are managed. The code manages `model_provider` and
`openai_base_url`, and touches the provider table only to undo a version 1 record
or a leftover of one; the model follows the code.

## Model

| member | source | states |
|---|---|---|
| `Storage.StatusRoundTrip` | src/storage.rs:937-963 | every status survives the name it is stored under |
| `Storage.SanitizeSettles` | src/storage.rs:1008-1024 | a sanitized text mentions no marker, is short, and is left alone by another pass |
| `Storage.SanitizeKeeps` | src/storage.rs:1008-1024 | a text that contains a credential marker, in either case, becomes the notice; any other keeps its first 1024 characters |
| `Storage.TransactionsKeepValid` | src/storage.rs:351-413 | both transactions keep the foreign keys, the unique index and the shape of every row |
| `Storage.UpsertKeepsValid` | src/storage.rs:866-935 | one written account keeps all of that too |
| `Storage.CircuitWritesKeepValid` | src/storage.rs:504-536 | so do saving and clearing circuits |
| `Storage.CircuitColumns` | src/storage.rs:504-536 | a saved circuit adds one failure, a cleared one resets reason, deadline and failures, and neither changes another column or row |
| `Storage.BindingWritesKeepValid` | src/storage.rs:561-614 | so do saving, deleting and purging bindings |
| `StorageLaws.UpsertAllRewrites` | src/storage.rs:866-935 | writing accounts rewrites exactly their rows and quota windows and leaves every other row alone |
| `StorageLaws.ReplaceSucceedsIff` | src/storage.rs:370-413 | a replacement commits if and only if no account takes an upstream identifier another row holds at that moment, and limits, revisions and window lengths are below 2^63 |
| `StorageLaws.SwapIsRefused` | src/storage.rs:370-413 | two stored accounts cannot exchange upstream identifiers in one replacement |
| `StorageLaws.LoadIsUnique` | src/storage.rs:415-491 | the order by priority, import time and id leaves one possible result |
| `StorageLaws.ReplaceThenLoad` | src/storage.rs:370-491 | loading after a replacement gives exactly the given accounts, by priority, import time and id, each with what is kept of its detail: the notice in place of a text with a credential marker, else its first 1024 characters; a short harmless detail comes back as given; the revision is one higher |
| `StorageLaws.ReplaceRetainsAndCascades` | src/storage.rs:370-413 | a kept account keeps circuit, failure count and bindings; a removed one leaves no row in any table |
| `StorageLaws.ReplaceWithLoadedIsFixpoint` | src/storage.rs:370-491 | writing back what was loaded changes only the revision |
| `StorageLaws.ReconcileIsIdempotent` | src/storage.rs:351-368 | reconciling twice is reconciling once, never rewrites an account the store has, and leaves every legacy account stored |
| `Metadata.MetadataStore.ReplaceAccounts` | src/storage.rs:370-413 | all or nothing: the database becomes the replaced one, or an error leaves it as it was |
| `Metadata.MetadataStore.ReconcileAccounts` | src/storage.rs:351-368 | inserts the missing accounts or leaves the database as it was, and returns what is then loaded |
| `Metadata.MetadataStore.LoadAccounts` | src/storage.rs:415-491 | returns exactly the stored accounts in load order |
| `Metadata.MetadataStore.SaveCircuit` | src/storage.rs:504-524 | writes the circuit of an account that has a runtime row, and nothing else |
| `Metadata.MetadataStore.ClearCircuit` | src/storage.rs:526-536 | clears the stored circuit of one account, and nothing else |
| `Metadata.MetadataStore.SaveBinding` | src/storage.rs:561-573 | stores the binding, or fails without change when the account is unknown |
| `Metadata.MetadataStore.DeleteBinding` | src/storage.rs:575-584 | removes the binding of one key, and nothing else |
| `Routing.ReasonRoundTrip` | src/proxy/routing.rs:368-395 | every circuit reason survives the name it is stored under |
| `Selection.UnboundRoute` | src/proxy/routing.rs:124-202 | a key without binding is served if and only if routing is not paused and some account of the index is healthy; the account taken is a healthy one of least priority value, the preferred one if that is among these, and otherwise, under a scored strategy, the one with most quota left in percent, under Smart counting five more when a window resets within half an hour; of equals the greatest id |
| `Selection.BoundRoute` | src/proxy/routing.rs:139-155 | a bound key is served by its account if and only if the first account with that id is healthy, and is refused otherwise; it never moves |
| `Selection.RefusalHint` | src/proxy/routing.rs:334-366 | a refusal names the soonest of the resets ahead of pool accounts and the deadlines of circuits, and the wait in whole seconds, at least one, or half a minute if there is none; it says whether the pool is empty |
| `Selection.InBestTier` | src/proxy/routing.rs:157-167 | the tier holds exactly the eligible accounts with the least priority value |
| `Selection.HealthyIsEligible` | src/proxy/routing.rs:286-315 | an account is eligible once due circuits are gone if and only if it is enabled, in the pool, local, live, checked within 90 seconds, without a circuit that lasts, below its limit, and for a new key below the threshold |
| `Selection.ScoredChoice` | src/proxy/routing.rs:180-194 | the account taken under a scored strategy has the highest score, and the greatest id among equals |
| `Selection.WorthIsScore` | src/proxy/routing.rs:397-421 | the score is the greatest of nothing and what the quota windows have left in percent, under Smart with five more when one resets within half an hour |
| `Selection.TopIsMostWorth` | src/proxy/routing.rs:180-186 | so the top scored account has most left, and of equals the greatest id |
| `Selection.LastBestIsLastBest` | src/proxy/routing.rs:180-186 | the maximum kept is the last of the equal ones |
| `SharedRouter.Router.AttachStore` | src/proxy/routing.rs:78-102 | loads unexpired session bindings and known circuits that are not due over the present ones |
| `SharedRouter.Router.Pause` | src/proxy/routing.rs:104-106 | sets the pause flag only |
| `SharedRouter.Router.Resume` | src/proxy/routing.rs:107-109 | clears the pause flag only |
| `SharedRouter.Router.UpdateConfig` | src/proxy/routing.rs:116-118 | replaces the settings only |
| `SharedRouter.Router.Prefer` | src/proxy/routing.rs:119-122 | sets the preferred account and forgets the bindings in memory, not the stored ones |
| `SharedRouter.Router.Unbind` | src/proxy/routing.rs:204-209 | forgets one key in memory and in the store |
| `SharedRouter.Router.BindKey` | src/proxy/routing.rs:211-224 | binds one key, and stores session keys for a day |
| `SharedRouter.Router.Acquire` | src/proxy/routing.rs:226-228 | raises one count by one |
| `SharedRouter.Router.Release` | src/proxy/routing.rs:230-238 | lowers one count, never below zero, and drops a zero entry |
| `SharedRouter.Router.OpenCircuit` | src/proxy/routing.rs:256-269 | sets one circuit in memory and in the store |
| `SharedRouter.Router.CloseCircuit` | src/proxy/routing.rs:271-276 | removes one circuit in memory and in the store |
| `SharedRouter.Router.ExpireCircuits` | src/proxy/routing.rs:317-332 | removes exactly the circuits that are due, in memory and in the store |
| `SharedRouter.Router.FilterEligible` | src/proxy/routing.rs:157-161 | returns exactly the eligible accounts, in index order |
| `SharedRouter.Router.Unavailable` | src/proxy/routing.rs:334-366 | the refusal names the earliest quota reset or circuit deadline there is |
| `SharedRouter.Router.Tier` | src/proxy/routing.rs:157-167 | sorts the eligible accounts and keeps those of least priority value |
| `SharedRouter.Router.SelectNew` | src/proxy/routing.rs:157-196 | makes the specified choice and moves the cursor only for a round-robin pick |
| `SharedRouter.Router.Route` | src/proxy/routing.rs:124-202 | answers as specified and leaves the state the specification gives |
| `SharedRouter.MaxBy` | src/proxy/routing.rs:180-186 | the loop finds the last of the best scored accounts |
| `RoutingRuns.ServedIsAnswer` | src/proxy/routing.rs:124-202 | the account an event serves is the one the route answers with |
| `RoutingRuns.SessionsNeverMigrate` | src/proxy/routing.rs:119-224 | over any run, two successful routes of one key give the same account unless in between the key was unbound, a preference set, or a store attached, as a restart does |
| `RoutingRuns.QuarantinedIsNotServed` | src/proxy/routing.rs:286-296 | no route gives an account whose circuit is not due |
| `RoutingRuns.ServedIsHealthy` | src/proxy/routing.rs:286-315 | whatever strategy, preference or binding, the account given is in the index, enabled, in the pool, live, checked within 90 seconds, without a circuit that is not due, below its limit, and for a new key below the threshold |
| `RoutingRuns.QuarantineInvariant` | src/proxy/routing.rs:256-276 | along a run the circuit is in memory and in the store, or lost exactly by a drop, respectively a drop and a restart |
| `RoutingRuns.QuarantineHolds` | src/proxy/routing.rs:78-102 | a circuit on a stored account outlives every run that leaves it alone until its deadline, restarts included, if and only if no replacement drops the account before a restart; meanwhile no route gives the account |
| `RoutingRuns.KeptIsRemembered` | src/storage.rs:370-413 | replacements that keep the account never make the circuit forgotten |
| `RoutingRuns.AttachLoadsCircuits` | src/proxy/routing.rs:78-102 | attaching a store loads exactly the stored circuits for a known reason that are not due, over what is there |
| `RoutingRuns.AttachLoadsSessions` | src/proxy/routing.rs:78-102 | and exactly the sessions whose stored row has not expired, and the expired rows go |
| `RoutingRuns.DeadlineEndsCircuit` | src/proxy/routing.rs:317-332 | at its deadline a circuit leaves router and store with the first route, if and only if routing is not paused |
| `RoutingRuns.OpenedDuringExpiry` | src/proxy/routing.rs:317-332 | a circuit opened between the two halves of an expiry stays in memory, and outlives a restart if and only if the expiry had not just dropped one of that account |
| `RoutingRuns.SessionSurvivesRestarts` | src/proxy/routing.rs:78-102 | a stored session keeps its account over every run with restarts before its expiry that neither unbinds, prefers nor drops the account |
| `RoutingRuns.NewSessionIsStored` | src/proxy/routing.rs:211-224 | a new session key is stored with its account for a day |
| `RoutingRuns.RouteWrites` | src/proxy/routing.rs:211-224 | a route writes to the stored bindings the session key it binds anew to a stored account, for a day, and nothing else |
| `RoutingRuns.PreferenceUndoneIff` | src/proxy/routing.rs:119-122 | over any run after a preference without unbind, attach, drop or another preference, a restart before its expiry puts a stored session back on its old account if and only if no route in between stored it with another |
| `RoundRobinFairness.PicksRotate` | src/proxy/routing.rs:187-192 | while the best tier consists of the same identifiers, in the same order, the picks go round them from the cursor, whatever else changes: rechecks, quotas, circuits, bindings, and time without limit |
| `RoundRobinFairness.FairOverall` | src/proxy/routing.rs:187-192 | over any number of picks from any cursor, two accounts of the tier differ by at most one, also when its accounts are rechecked and their quotas change in between |
| `RoundRobinFairness.FairPerRound` | src/proxy/routing.rs:187-192 | any n consecutive picks from a tier of n identifiers give each account exactly once |
| `RoundRobinFairness.NewKeyIsPick` | src/proxy/routing.rs:165-192 | every successful route of a key without binding is such a pick, if the strategy is round robin and the preferred account is not in the tier |
| `Interleaving.CountedStays` | src/proxy/routing.rs:226-242 | after every step each count is the number of live leases and no zero entry stays; a release never finds a zero |
| `Interleaving.RouteIsRun` | src/proxy/routing.rs:124-202 | the separate steps of one request up to its binding, with nothing in between, make up the route of the router |
| `Interleaving.LimitHolds` | src/proxy/routing.rs:297-301 | in every reachable state an account with limit L > 0 has at most L - 1 + T requests leased or about to be, if at most T are ever between reading it as eligible and taking or giving up the lease; the count is the number of live leases |
| `Interleaving.LimitHoldsPerRoute` | src/proxy/server.rs:380-391 | with a route as one step the same bound holds with T counted from its return, so one request at a time between route and lease keeps the limit exactly, whatever other routes weigh the account |
| `Interleaving.OverlapOverrunsLimit` | src/proxy/server.rs:380-391 | n overlapping requests can all be given one account that has a free place: the bound is reached |
| `Interleaving.FreshIsCounted` | src/proxy/routing.rs:65-76 | a fresh router counts its leases and holds none, so the bound applies from the start |
| `Interleaving.OrderlySessionsNeverMigrate` | src/proxy/routing.rs:139-196 | with every lock separate, a key stays on its account if no two of its first requests overlap between choosing and binding |
| `Interleaving.BoundKeyStays` | src/proxy/routing.rs:139-155 | once the key is bound, every request on it is given the same account in every run that does not unbind or rebind it, however requests overlap |
| `Interleaving.UnboundKeyMoves` | src/proxy/routing.rs:139-196 | from any state with a first request between choice and binding and another eligible account in the index, a second request with that index can be routed to a different account |
| `Interleaving.KeyStaysIffBound` | src/proxy/routing.rs:139-196 | with a second eligible account, every further request on the key is given the same account in everything that can follow if and only if the key is already bound |
| `Interleaving.UndisturbedPairSplitsIff` | src/proxy/routing.rs:139-196 | two requests that choose for an unbound key right after each other, with no other step in between, are routed to different accounts if and only if the strategy is round robin and the best tier has more than one account and no preferred one, for every state and index |
| `Interleaving.OverlappingFirstRequestsMigrate` | src/proxy/routing.rs:139-196 | so on a fresh round-robin router two overlapping first requests are routed to two equal accounts |
| `Tracker.ConnectionTracker.TrackRequest` | src/proxy/connection_tracker.rs:43-46 | counts the request and enters it in the map |
| `Tracker.ConnectionTracker.CompleteRequest` | src/proxy/connection_tracker.rs:48-51 | uncounts the request and removes it from the map |
| `Tracker.TrackerSafety` | src/proxy/connection_tracker.rs:43-105 | in every interleaving the counter is the map size plus the requests mid-track minus those mid-complete, never wraps, and is zero exactly when every tracked request has begun completing |
| `Tracker.TrackThenComplete` | src/proxy/connection_tracker.rs:43-51 | tracking and completing a new request leaves the tracker as it was |
| `Tracker.DrainedIff` | src/proxy/connection_tracker.rs:53-81 | in every state the tracker can reach the counter is zero if and only if every tracked request has begun completing |
| `Tracker.WaitForDrain` | src/proxy/connection_tracker.rs:70-81 | polling the tracker along any run of it, reports true exactly when the last poll finds every tracked request completing; no earlier one did, and it gives up only when the time is up |
| `Replay.ReplayCapture.Push` | src/proxy/server.rs:156-164 | the capture holds the concatenation of all chunks, or has overflowed exactly when their total passed 32 MiB |
| `Replay.ReplayCapture.Replay` | src/proxy/server.rs:166-169 | a replay is the whole captured body, given exactly when it did not overflow and has the announced length |
| `Replay.ReplayableIsComplete` | src/proxy/server.rs:146-170 | a body that can be replayed while it is streamed has been read to its end |
| `Replay.PullTo` | src/proxy/server.rs:366-377 | what streams past is exactly what was captured |
| `Replay.CollectBody` | src/proxy/server.rs:172-187 | collects the whole body, or fails exactly when it passes the bound |
| `Server.ProxyServer.SendUntilSettled` | src/proxy/server.rs:421-469 | the first send, its replay after a transport error, and one replay after a server error, each for the same account with the same body |
| `Server.ProxyServer.SendAll` | src/proxy/server.rs:421-505 | those sends and one more after a refreshed token; which answer is passed on, and how often it was retried |
| `Server.ProxyServer.Forward` | src/proxy/server.rs:395-505 | credentials, proactive refresh and sends: the reply, the sends and whether a refused refresh opened the circuit |
| `Server.ProxyServer.ProxyRequest` | src/proxy/server.rs:339-636 | routes, leases, forwards, judges: at most four sends, each for the account the route gave and with the body first sent, retries are the sends less one; reply, counters and the state of the router after it |
| `Server.ProxyServer.HandleRequest` | src/proxy/server.rs:301-337 | a request is counted, tracked until its reply unless it streams, counted as failed exactly when the proxy fails, and its answer by status |
| `Server.ProxyServer.FinishStream` | src/proxy/server.rs:64-142 | the end of a stream drops guard and lease once; it is partial exactly when it failed or did not complete |
| `Server.ProxyServer.Judge` | src/proxy/server.rs:507-523 | opens the circuit of a classified failure, closes it on success, and otherwise leaves the router alone |
| `ServerLaws.UnreplayableIsSentOnce` | src/proxy/server.rs:146-170 | a streamed body over 32 MiB or without announced length is sent at most once |
| `ServerLaws.LastAnswerIsFinal` | src/proxy/server.rs:421-505 | the last answer is passed on as it reads, and every earlier one was worth a retry; a server error or an expired token is passed on only if it cannot be replayed, or was replayed, or renewed or refused, before |
| `ServerLaws.InspectReads` | src/proxy/server.rs:746-776 | a 401, 403 or 429 is classified by its body if that is announced to fit a mebibyte and else by its headers, no other response is, and a body that cannot be read or does not fit is an error |
| `ServerLaws.FinalCircuit` | src/proxy/server.rs:507-523 | after a request the circuit of its account is open for a 401, 403 or 429 for the reason its failure gives, gone on success, otherwise as before; only a rate limit ends by itself: when upstream says, else at the first reset of the account, else after the fallback time; no other circuit, binding or preference changes |
| `ServerLaws.BlocksAs` | src/proxy/server.rs:676-728 | each kind of failure blocks for its own reason; a rate limit as long as upstream asks, else until the earliest reset among the windows of the first account with the id, else for the fallback time, else without end; the others without end |
| `ServerLaws.LeaseIsReturned` | src/proxy/server.rs:75-118 | every lease is given back, at once or with the end of the stream |
| `ServerRuns.LastVerdictStands` | src/proxy/server.rs:339-636 | over any sequence of requests one after another, with other operations in between, the circuit of an account is that of the last answer that said something about it: open after a failure until a later route or expiry finds its deadline past, closed after a success |
| `ServerRuns.FailedAccountIsSentNothing` | src/proxy/server.rs:507-523 | of requests that come one after another, none after a failed answer sends anything for that account until the deadline of the failure, and never if it has none, unless its circuit is set by hand, a store attached, or the process restarted |
| `ServerRuns.ProxiedIsRun` | src/proxy/server.rs:339-636 | a whole request taken alone is a run of the separate steps of one request |
| `Verdicts.LastVerdictStands` | src/proxy/server.rs:507-523 | however requests overlap, the circuit of an account is that of the verdict that came last, until a lookup or an expiry finds its deadline past |
| `Verdicts.NoRivalNoRoute` | src/proxy/server.rs:507-523 | after a failure without a rival the account keeps an open circuit and no route gives it, in everything that can follow before the deadline |
| `Verdicts.RivalIsGiven` | src/proxy/server.rs:507-523 | a rival, whether it sends, waits for its lease, has chosen, or still collects accounts, can lead to a route of the account before the deadline |
| `Verdicts.FailureEndsRoutingIff` | src/proxy/server.rs:507-523 | after a failure on an account that is fit but for its circuit and its load, no route gives it before the deadline, in everything that can follow, if and only if no other request has or can still be given a lease on it that is yet to be judged |
| `Verdicts.RivalsAreHolders` | src/proxy/routing.rs:297-301 | such a request holds a lease on the account or has read it as eligible and holds none yet |
| `Integration.CodexIntegration.Status` | src/integration.rs:72-87 | disabled, enabled or drifted, without writing anything |
| `Integration.CodexIntegration.Enable` | src/integration.rs:103-170 | writes document, backup and record as specified, or fails and writes nothing |
| `Integration.CodexIntegration.Disable` | src/integration.rs:172-216 | writes the undone document and removes the record, or fails and writes nothing |
| `Integration.CodexIntegration.MigrateLegacyRecord` | src/integration.rs:218-258 | rewrites a healthy version 1 integration as version 2, or fails and writes nothing |
| `Integration.CodexIntegration.MigrateIfNeeded` | src/integration.rs:91-101 | migrates exactly an enabled version 1 integration |
| `Integration.EnableEditDisable` | src/integration.rs:103-216 | enable, any edits to other keys, disable: both managed keys are back as before, every other key is as last edited |
| `Integration.EnableIsIdempotent` | src/integration.rs:103-170 | enabling twice is enabling once, and leaves the status enabled |
| `Integration.EnabledPointsHereIff` | src/integration.rs:103-170 | a successful enable selects the built-in provider, leaves other keys alone, keeps an existing backup, and points at this proxy if and only if no version 2 integration with another address was there |
| `Integration.DriftIsRefused` | src/integration.rs:313-321 | an integration, of either version, whose managed values are not as written is drifted, and enable, disable and migration change nothing |
| `Integration.StatusIs` | src/integration.rs:72-87 | disabled without a record, enabled if and only if every managed value is as written for its version, drifted if one is not |
| `Integration.EnableSucceedsIff` | src/integration.rs:103-170 | enabling succeeds if and only if nothing is there and both keys are absent or texts, or an integration is intact, a version 1 one with a usable backup |
| `Integration.DisableSucceedsIff` | src/integration.rs:172-216 | disabling succeeds if and only if nothing is there, or the integration is intact and its record has the values it promises |
| `Integration.MigrateThenDisable` | src/integration.rs:172-258 | after migration and disable the base URL is the backup's and every other key is as a direct disable leaves it |
| `Integration.MigrationCommutesWithUndo` | src/integration.rs:172-258 | migrate then disable equals disable if and only if document and backup agree on the base URL |
| `Runtime.StepKeepsInv` | src/proxy/mod.rs:110-187 | every step keeps at most one task unsettled, matched by state and handle |
| `Runtime.SingleServer` | src/proxy/mod.rs:118-150 | in every reachable state at most one task is inside serve, and while one is unsettled a start does nothing, if mark_blocked finds every task settled |
| `Runtime.LeadsKeepsInv` | src/proxy/mod.rs:110-187 | so whatever a method below leaves behind keeps the invariant and the single server |
| `Runtime.SecondServer` | src/proxy/mod.rs:110-116 | marking blocked while any task is unsettled leads to two tasks in serve, although every later mark_blocked keeps to the rule |
| `Runtime.MarkBlockedIsSafeIff` | src/daemon/control_api.rs:607-622 | marking blocked keeps to one server in everything that can follow if and only if every task has settled |
| `Runtime.InitialInv` | src/proxy/mod.rs:92-100 | the initial state satisfies the invariant |
| `Runtime.StopEndsStopped` | src/proxy/mod.rs:166-186 | a stop that waited for its task ends stopped, not running, with nothing serving, in every interleaving |
| `Runtime.EarlyStopEndsStopped` | src/proxy/mod.rs:166-170 | so does a stop that finds nothing to stop, but for a task that still has to clear its running flag |
| `Runtime.StopRacesWithStarting` | src/proxy/mod.rs:131-147 | a spawned run's write of Running can land after the stop's write of Draining, and it then writes Stopped itself |
| `Runtime.ProxyRuntime.Start` | src/proxy/mod.rs:118-150 | starts a task unless one is starting, running or paused: a run of the step relation |
| `Runtime.ProxyRuntime.Pause` | src/proxy/mod.rs:152-157 | pauses the router, and the state only when running: a run of the step relation |
| `Runtime.ProxyRuntime.Resume` | src/proxy/mod.rs:159-164 | resumes the router, and the state only when paused: a run of the step relation |
| `Runtime.ProxyRuntime.MarkBlocked` | src/proxy/mod.rs:110-116 | records the error, the state and that nothing runs: a run of the step relation from the first write on |
| `Runtime.ProxyRuntime.Stop` | src/proxy/mod.rs:166-186 | stops a running proxy, whatever steps its tasks take during the two waits, as a run of the step relation: it ends stopped with nothing serving, and says whether the requests drained |
| `Runtime.StopLeads` | src/proxy/mod.rs:166-186 | a stop with arbitrary steps of the tasks during its two waits is a run, and nothing is unsettled or serving after it |
| `Runtime.StopCanComplete` | src/proxy/mod.rs:166-186 | from every idle state of the invariant a stop can run to its end: the tasks have steps that end the one it waits for |
| `Runtime.TaskStarts` | src/proxy/mod.rs:131-140 | a spawned task says that it runs, in flag and state, and serves |
| `Runtime.TaskFinishes` | src/proxy/mod.rs:136-147 | a task whose serve fails leaves the error and the state Error, one that ends leaves Stopped unless a stop is under way, and neither runs any more |
| `Runtime.ServingStays` | src/proxy/mod.rs:131-147 | a task in serve stays there while requests are accepted, unless it fails |
| `Auth.TokenRefresher.RefreshInner` | src/proxy/auth.rs:74-177 | when nothing is sent, which token is, with which outcome, and what is stored then: the new access token, the issued refresh token or the old nested one, and the next revision; nothing is written otherwise |
| `Auth.RefreshKeepsToken` | src/proxy/auth.rs:144-175 | a refresh leaves a usable refresh token if and only if one was issued or the old one was nested |
| `Auth.AloneAttempts` | src/proxy/auth.rs:74-177 | a caller of the step relation that is neither overtaken nor cancelled does what one attempt does, and leaves the lock free |
| `Auth.CancelFrees` | src/proxy/auth.rs:80-86 | a caller given up while it waits or sends leaves the lock free and the snapshot as it was |
| `Auth.SingleFlight` | src/proxy/auth.rs:74-177 | of any number of callers rejected with one token at most one is Refreshed, if the endpoint never issues that token again; each token sent is the stored one; the revision rises by one per Refreshed, up to saturation |
| `Auth.StepKeepsInv` | src/proxy/auth.rs:74-177 | every step keeps the lock exclusive and its holder working from the stored snapshot |
| `Auth.InitialInv` | src/proxy/auth.rs:45-54 | a state without callers satisfies the invariant |
| `Auth.LockExcludes` | src/proxy/auth.rs:80-86 | at most one caller is past the lock |
| `Metrics.EdgesAligned` | src/storage.rs:718-726 | every bucket edge is a multiple of the bucket size |
| `Metrics.GridCoversWindow` | src/storage.rs:713-726 | the last bucket holds now, and the buckets reach back over the whole window but for the rest of the current bucket |
| `Metrics.LandsInItsInterval` | src/storage.rs:773-780 | a request between the cutoff and now lands in the bucket whose half-open interval holds it; the index clamp does nothing |
| `Metrics.IndexIff` | src/storage.rs:773-779 | the index computed for a row is the bucket whose interval holds it, the last one for anything later |
| `Metrics.BucketHoldsItsInterval` | src/storage.rs:727-792 | for every log, window and bucket size each bucket holds exactly the rows of its half-open interval, the last one all from its edge on |
| `Metrics.NoFutureRows` | src/storage.rs:773-779 | without rows in the future the last interval is half-open like the others |
| `Metrics.BucketsPartition` | src/storage.rs:772-798 | bucket requests add up to the total, and bucket failures to the total less the successes |
| `Metrics.PercentileIsSample` | src/storage.rs:1000-1006 | a reported percentile is one of the samples |
| `Metrics.PercentileCovers` | src/storage.rs:1000-1006 | at least p percent of the samples are at most the reported value, and fewer than that share of the others, and one, are below it |
| `Metrics.PercentilesOrdered` | src/storage.rs:810-815 | the 50th, 95th and 99th percentile are in order, and absent exactly without samples |
| `Metrics.Tabulate` | src/storage.rs:763-798 | the loops fill each bucket with the counts, the average and the percentile of its own rows |
| `Metrics.Query` | src/storage.rs:712-818 | the whole answer against the log: the window and its buckets laid as asked, the rows from the first bucket on and those of status 200 to 399, the rates as quotients, and for each bucket the rows of its interval, those without such a status, and the average and percentile of its times to first byte; the buckets add up to the totals |
| `Metrics.AnswerReports` | src/storage.rs:712-817 | what the query computes from the recent rows and the grid is what the log says, position by position |
| `Metrics.AnswerIsLaid` | src/storage.rs:713-726 | window and bucket length are held to their ranges, and the buckets follow each other on multiples of their length, the last one around the present |
| `Import.PositionIsFirst` | src/account.rs:193-202 | the position found is the first whose account id is equal or whose email is equal but for the case of ASCII letters |
| `Import.WrittenIsFound` | src/account.rs:193-248 | after an import the first match is the account just written, if and only if the value carries an email or account id |
| `Import.ImportWrites` | src/account.rs:193-248 | an import renews the first account the credential is of, field by field, or adds one with the defaults, and leaves every other as it is |
| `Import.ImportTwice` | src/account.rs:193-248 | a second import of the value updates the account of the first and adds none, if and only if it carries an identity; no other account changes |
| `Import.UpstreamStaysDistinctIff` | src/account.rs:193-230 | an import keeps upstream identifiers distinct if and only if it does not match an earlier account while a later one has the identifier |
| `Import.RenewalStaysDistinctIff` | src/account.rs:388-410 | a renewal keeps upstream identifiers distinct if and only if the login belongs to no other account |
| `Import.SettingsLandOnWritten` | src/account.rs:263-291 | an entry with an identity sets exactly the account it wrote: enabled unless the entry is disabled, out of the pool if it is, priority as given or 100, held to 10000 either way, limit as given or 1, held to 10000; without an identity its settings are dropped |
| `Import.AnonymousEntryIgnoresSettings` | src/account.rs:274-291 | a disabled entry without identity is added as a new account, enabled and with default settings |
| `Import.BundleFrame` | src/account.rs:252-293 | a bundle keeps identifiers in place, adds at most one account per entry, and leaves unwritten accounts as they were |
| `Import.BundleKeepsDistinct` | src/account.rs:252-293 | identifiers stay distinct through a bundle |
| `Import.AccountIndex.ImportLogin` | src/account.rs:191-249 | writes snapshot and account of the first match, or a new account |
| `Import.AccountIndex.ImportEntry` | src/account.rs:263-291 | imports one entry and applies its settings to the first match |
| `Import.AccountIndex.ImportBundle` | src/account.rs:252-293 | fails on an empty bundle, and at the first bad entry with the ones before it imported; a name is used only for a single entry |
| `Import.AccountIndex.ImportValue` | src/account.rs:181-250 | dispatches on bundle, login or neither |
| `Import.AccountIndex.UpdateFromCurrent` | src/account.rs:388-410 | renews exactly the account of the given id and keeps every other, or fails without change |
| `ImportLaws.RenewalKeepsSettings` | src/account.rs:383-410 | a renewed account keeps identifier, label, tenant, pool membership, priority and limit, and loses no identity it had |
| `ImportLaws.RenewedIsNotServed` | src/account.rs:388-410 | no route gives a renewed account, in any state of the router, until it is checked again |
| `ImportLaws.ImportedIsNotServed` | src/account.rs:219-248 | nor the account an import has just written |
| `ImportLaws.SplitIsNeverStored` | src/account.rs:193-230 | an index with a split upstream identifier is refused by every database |
| `ImportLaws.ImportIsStorableIff` | src/account.rs:181-250 | an import into a loaded index can be saved if and only if it splits no upstream identifier and the raised revision fits |
| `ImportLaws.RenewalIsStorableIff` | src/account.rs:388-410 | a renewal of a loaded index can be saved if and only if the login belongs to no other account and the raised revision fits |
| `Editor.DecodeEncode` | src/tui/ui.rs:253-274 | decoding the bytes of a character gives the character back, and they are as few as the encoding allows |
| `Editor.BoundaryIffOffset` | src/tui/ui.rs:202-203 | a byte position is a character boundary if and only if it is the offset of a character or the end |
| `Editor.PreviousIsOneBack` | src/tui/ui.rs:309-314 | scanning bytes back for a boundary is one character back |
| `Editor.NextIsOneOn` | src/tui/ui.rs:316-321 | scanning on is one character on |
| `Editor.InsertThenBackspace` | src/tui/ui.rs:222-243 | typing a character and taking it back restores text and cursor |
| `Editor.PreviousWordIff` | src/tui/ui.rs:253-270 | there is exactly one whitespace run and one word before the cursor, and the loops find them |
| `Editor.DeletesExactlyPreviousWord` | src/tui/ui.rs:253-274 | deleting the previous word removes exactly those two runs |
| `Editor.TextEditorState.Reset` | src/tui/ui.rs:210-216 | takes the value with the cursor at its end |
| `Editor.TextEditorState.Insert` | src/tui/ui.rs:222-226 | refines typing one character |
| `Editor.TextEditorState.MoveLeft` | src/tui/ui.rs:228-230 | refines one character back |
| `Editor.TextEditorState.MoveRight` | src/tui/ui.rs:232-234 | refines one character on |
| `Editor.TextEditorState.Backspace` | src/tui/ui.rs:236-243 | refines removing the character before the cursor |
| `Editor.TextEditorState.Delete` | src/tui/ui.rs:245-251 | refines removing the character at the cursor |
| `Editor.TextEditorState.DeletePreviousWord` | src/tui/ui.rs:253-274 | terminates and refines removing the previous word |
| `Editor.TextEditorState.KillBefore` | src/tui/ui.rs:276-280 | refines removing everything before the cursor |
| `Editor.TextEditorState.KillAfter` | src/tui/ui.rs:282-285 | refines removing everything after the cursor |
| `Editor.TextEditorState.NextSuggestion` | src/tui/ui.rs:287-291 | steps round the suggestions |
| `Editor.TextEditorState.PreviousSuggestion` | src/tui/ui.rs:293-298 | steps back round the suggestions |
| `Editor.TextEditorState.AcceptSuggestion` | src/tui/ui.rs:300-306 | takes the chosen suggestion with the cursor at its end |
| `Editor.TextEditorState.Perform` | src/tui/events.rs:986-1030 | over every sequence of edits the bytes follow the characters and the cursor stays on a boundary |
| `Axis.BoundIsLeastNice` | src/tui/ui.rs:720-733 | the bound is the least of 1, 2, 5 times a power of ten at or above the value, and below 2.5 times it |
| `Axis.NiceAxisCoversIff` | src/tui/ui.rs:720-733 | the 64-bit axis is at least the value if and only if the value is at most 10^19 |
| `Axis.StableAxisCovers` | src/tui/ui.rs:706-718 | the stable axis covers every sample, is at most twice the nice bound, and is a fixpoint |
| `Axis.AxisMovesIff` | src/tui/ui.rs:706-718 | the axis stays if and only if it covers the bound with at most twice the room |
| `Axis.AxisIsSteady` | src/tui/ui.rs:706-718 | over windows with one nice bound the axis moves at most once, at the first |

## Left out

- SQLite itself: tables are maps, an error inside a transaction rolls everything back, and a write of the store that fails for another reason (which the router ignores) does not happen in the model.
- TOML, JSON, JWT and zstd: documents are maps from keys to items without formatting and comments; a login value is what the parsers read from it, with the token snapshot as an opaque number.
- HTTP, TCP, SSE and process inspection: an answer is a status, the length and readability of its body, and a failure class; the substring tables that find the class are not modelled.
- Floating point: percentages and scores are reals, so NaN and rounding are not captured.
- The clock: each step reads the time once and takes it as a parameter; the source reads it several times within one route. In `Interleaving` one request keeps the time of its first step.
- The locks inside the check of one account: `Interleaving` reads its circuit and its count in one step, and expiry and binding lookup in one.
- A write of the router in memory and its write of the store are one step, except in `OpenedDuringExpiry`: other operations between the two (an open or a close beside an expiry or beside each other, a binding beside an unbind) can leave the store behind the memory.
- What a leased request sends between its lease and the verdict, when requests run side by side: `Verdicts` has the refused refresh and the verdict as steps, not the sends.
- Machine integers except where a theorem is about them (saturating revisions, the 64-bit axis, the ranges a row can hold): the latency sums, request counters and the reset arithmetic are unbounded, and durations too long for the time type do not panic.
- Sleeping: the wait for a drain is a sequence of polls, each with what it reads and whether the timeout has passed by then.
- Freshness of random identifiers is an assumption of the operations that take a new one.
- File system permissions, symbolic links and atomic rename: one file write is one step; a crash between two writes of the integration is not modelled, nor is an import whose snapshot write fails.
- Runtime.SingleServer: assumes that `mark_blocked` finds every task settled, because without that it is false; `MarkBlockedIsSafeIff` shows that nothing less would do.
- Writers of a snapshot file other than the refresher, and control operations of the supervisor that run at the same time: the source does not serialise these, and `SingleFlight`, `SingleServer` and `StopEndsStopped` assume it.
- The exclusiveness of the listening address, which makes a second server fail to bind: the supervisor's guarantee is proved without it.
- The order in which SQL returns rows with equal start times, and the order of equal minima in a refusal: nothing that is returned depends on them except the recovery hint, which names a least one.
- Names shown to the user: the file stem of an import source is a parameter, display texts of refusals are an enumeration.
- Values of a snapshot beyond the tokens (identity token, account, refresh time) are not modelled in `Auth`.
- The event log, its retention and its queries, the account events, and the response byte counters.
- The recommender, the switcher and the monitor, which repeat the router's selection in a weaker form, and the control interface, which only dispatches.
- Drawing, key bindings beyond the text field, themes, translations, the command line, notifications and service managers.
