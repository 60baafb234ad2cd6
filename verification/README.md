# AXIAM C++ SDK: a verified model

A Dafny 4.11 model of the parts of the AXIAM C++ SDK whose correctness is a property of a whole
run rather than of one call. `dafny verify dfyconfig.toml` checks every file.

## What is modelled

**The manifest reconciler** (`Manifest*.dfy`, `Tenant.dfy`). A manifest is a sequence of entities;
a tenant is tables of rows, role bindings by subject and role, versioned network rows and a session
timeout cap that clamps what a profile read shows. The tenant answers each request
(`Tenant.Handle`) or the call fails without effect; `faults` is any set of call numbers, so a
theorem about a world is about every pattern of failures. `plan`, `perform`,
`reconcile_role_bindings` and `apply` are functions of the world, and the loops of the source are
methods proved to compute them (`ManifestValidate`, `ManifestApi`). On top:

- `validate` accepts exactly the coherent manifests; its step-counting cycle check is exact.
- The apply order is a strict total order, the same for every permutation of the entities.
- A complete apply makes the next plan all Unchanged **exactly** when every metadata text parses,
  the scanned page of 200 rows holds what there is and what is created, the stated cap neither
  cuts nor uncovers a profile the plan left as it was, and declarations matched to one server name
  agree in what they both state and bind. Rule 6 of section 27.6 of CONTRACT.md promises it without
  conditions; `ManifestExamples` gives complete applies that do not converge because raising the
  cap uncovers a longer stored timeout, and because two resources under different parents share a
  name, by which alone the plan finds them.
- Where rows are *created* under one name (`ManifestShared`, `ManifestTwins`): the server refuses
  the second permission, role or group, two service accounts make the next plan refuse, and of
  several resources the next plan sees the last one. Convergence then needs, exactly, that every
  such resource states the metadata the last one is stored with and that no binding is narrowed to
  an earlier one.
- A run that stopped anywhere can be resumed: what landed plans as Unchanged.
- No conditional write is ever stale; no id or segment version is missing when it is needed,
  provided a resource sorts after the resource it depends on. Keys distinct across kinds are
  enough; without that an apply to an empty tenant does stop (`ManifestLookups`), because
  `validate` and `ordered` look a dependency up by key alone and `perform` by key and kind.
- Under any failures role bindings the manifest does not name are untouched, a binding that was
  there is gone or has the tenant scope it had, and a failed rebind reports truthfully what the
  subject is left with.

**The single-flight refresh guard** (`RefreshGuard.dfy`). A transition system over any number of
callers, stepping at the lock, the wire, the publication, the vacating, the wait and the return, in
any interleaving. A value that cannot be copied into the promise is a step of its own
(`PublishThrows`): the owner throws, the slot is vacated with the future unsettled, and the waiters
get a broken promise. The guard's own fields and critical sections are the class `Guard`.

**The bounded handle pools** (`HandlePool.dfy`). Two monitors with blocked, woken and
about-to-notify requests, barging, spurious wakes and failed allocations; the class `Handles` holds
the critical sections.

**The decision memo and the client around it** (`DecisionMemo.dfy`, `AccessClient.dfy`,
`Retry.dfy`). The memo answers exactly what its history remembers; a memo hit in `check_access` is
an answer the server gave under the present credential; the retry loop's wire calls, start events
and sleeps are bounded for every sequence of replies.

**The generator** (`ModelOrder.dfy`, `SchemaClosure.dfy`, `ModelCodec.dfy`, `Sorting.dfy`).
Emission order, reachable schemas, and the generated codec read as an interpreter of a schema's
field list.

**Small codecs and ownership** (`Base64Url.dfy`, `UmaChallenge.dfy`, `OpaqueExchange.dfy`).
base64url (section 5 of RFC 4648), the UMA challenge header, and the native handles of an OPAQUE
exchange.

## Model

| member | source | states |
|---|---|---|
| ManifestValidate.Validate | src/management_manifest.cpp:378-550 | refuses nothing exactly when the manifest is coherent, and a refusal names a violation the manifest really has |
| ManifestValidate.OverrunsFrom | src/management_manifest.cpp:417-430 | the counting walk from one start overruns exactly when that many dependency steps lead somewhere |
| ManifestValidate.OverrunIffCycle | src/management_manifest.cpp:417-430 | some start overruns its step count exactly when the dependencies have a cycle |
| ManifestCycle.CountingCheckExact | src/management_manifest.cpp:417-430 | some entity can take as many dependency steps as there are entities exactly when there is a cycle |
| ManifestOrder.DepthOf | src/management_manifest.cpp:552-575 | the guarded loop computes the same-kind depth |
| ManifestOrder.GuardNeverCuts | src/management_manifest.cpp:552-575 | in a coherent manifest a larger guard gives the same depth, so the guard never cuts a walk short |
| ManifestOrder.ParentDepth | src/management_manifest.cpp:552-575 | a same-kind parent has the smaller depth |
| ManifestOrder.OrderedSpec | src/management_manifest.cpp:552-588 | the order is a permutation of the manifest, strictly sorted, without duplicates |
| ManifestOrder.OrderedPermutationInvariant | src/management_manifest.cpp:552-588 | with keys distinct across kinds every permutation of the entities is ordered alike |
| ManifestOrder.CoherentPermuted | src/management_manifest.cpp:378-550 | with keys distinct across kinds coherence does not depend on the order of declaration |
| ManifestApi.WalkPages | src/management_manifest.cpp:127-139 | paging with the scan limit returns every row once, in order, and ends |
| ManifestApi.PlanManifest | src/management_manifest.cpp:1055-1162 | the plan loop, its per-kind cache and its walks of the network lists compute the difference between manifest and tenant, writing nothing |
| ManifestApi.PlanNetworkEntity | src/management_manifest.cpp:285-343 | with every network list walked page by page, once and when first needed, the searches give the same row, drift and refusal as the plan's definition |
| ManifestApi.PlanNamedEntity | src/management_manifest.cpp:604-653 | the cached scan finds the same row, the same ambiguity and the same drift as the plan's definition |
| ManifestApi.RebindRole | src/management_manifest.cpp:793-825 | unassign, assign and the restoring assign leave the tenant and the report of the rebind function |
| ManifestApi.ReconcileRoleBindings | src/management_manifest.cpp:763-825 | the loop over declared bindings computes the reconcile function, stopping at the first failure |
| ManifestApi.PerformNamedChange | src/management_manifest.cpp:833-1051 | a named change writes its row, records its id, reads bindings afresh unless it created the subject, and reconciles them |
| ManifestApi.PerformNetworkChange | src/management_manifest.cpp:962-1051 | a network change sends its conditional write with the threaded versions and records the new ones only on success |
| ManifestApi.RunChanges | src/management_manifest.cpp:1183-1224 | the apply loop threads ids and versions, stops at the first failure and reports applied, failed and remaining changes |
| ManifestApi.ApplyManifest | src/management_manifest.cpp:1164-1224 | the whole call: plan, seeds, loop; a plan that refuses leaves the server untouched |
| ManifestPlan.ConvergedIffSettled | src/management_manifest.cpp:1055-1162 | the plan is all Unchanged exactly when every entity on its own plans as Unchanged |
| ManifestBindings.RebindOutcome | src/management_manifest.cpp:793-825 | a rebind touches one binding; on success it holds the new one with the old tenant scope, on failure what the report says |
| ManifestRebind.RebindReportIsTrueOfLast | src/management_manifest.cpp:1186-1222 | after an apply that failed on a rebind the subject holds the binding it had when that change began exactly when the report says restored, and none of that role otherwise |
| ManifestRebind.RebindReportIsTrue | src/management_manifest.cpp:1186-1222 | with subjects told apart by name, that binding is the one the apply found |
| ManifestRebind.TenantScopesCarried | src/management_manifest.cpp:763-825 | whatever fails, a binding that existed before an apply is afterwards gone or has the tenant scope it had; after a complete one it is there |
| ManifestUntouched.UnnamedBindingsUntouched | src/management_manifest.cpp:763-825 | whatever fails, bindings of existing subjects to existing roles that the manifest does not name are as before |
| ManifestRun.NoStaleWrite | src/management_manifest.cpp:962-1001 | every conditional write of a run carries the versions the server holds when it arrives, whichever calls fail |
| ManifestRun.NothingUnresolved | src/management_manifest.cpp:735-746 | when parents sort first, no id or segment version a write needs is ever missing, whichever calls fail |
| ManifestRun.DistinctKeysParentsFirst | src/management_manifest.cpp:562-575 | keys distinct across kinds make every resource sort after the resource it depends on |
| ManifestLookups.ParentLastFails | src/management_manifest.cpp:845-856 | a resource that sorts before its parent makes an apply to an empty tenant stop unresolved with no call failing, unless the server first refuses two resources of one name under one parent |
| ManifestLookups.SharedKeyExample | src/management_manifest.cpp:24-39 | a validated manifest whose key shared across kinds puts a resource before its parent |
| ManifestTheorems.LandedPlansUnchanged | src/management_manifest.cpp:1164-1224 | under the conditions for convergence everything applied or found in order plans as Unchanged, wherever the run stopped |
| ManifestTheorems.ConvergenceExact | src/management_manifest.cpp:1055-1224 | a complete apply makes the next plan all Unchanged exactly when metadata parses, the page has room, the cap keeps the unchanged profiles and declarations of one name agree |
| ManifestTheorems.ConvergenceOfDistinctNames | src/management_manifest.cpp:1055-1224 | with names distinct within each kind the first three conditions are exact |
| ManifestTheorems.SharedNamesAgree | src/management_manifest.cpp:1075-1117 | no tenant is in order for two declarations of one name that state different descriptions or metadata |
| ManifestTheorems.SharedBindingsAgree | src/management_manifest.cpp:1118-1152 | nor for declarations of one name that bind a role of one name differently, or for one that does so under two keys |
| ManifestTheorems.CompleteNamesDistinct | src/management_manifest.cpp:833-940 | a complete apply has created no two permissions, roles or groups of one name |
| ManifestTheorems.SharedAccountsNeverConverge | src/management_manifest.cpp:634-651 | two service accounts created under one name on the page make the next plan refuse |
| ManifestShared.SharedResourceSettles | src/management_manifest.cpp:604-618 | a resource created under a shared name is in order afterwards exactly when it states no metadata or what the last of the name was stored with |
| ManifestShared.ConvergenceOnOnePage | src/management_manifest.cpp:1055-1224 | on one page, whatever names are shared, a complete apply converges exactly when metadata parses, the cap keeps, names agree, created resources of one name state what the last is stored with, and no two accounts are created under one name |
| ManifestTwins.ConvergenceOfSharedResources | src/management_manifest.cpp:1055-1224 | with roles and subjects told apart by name, having no binding narrowed to an earlier resource of a created name is one of the exact conditions |
| ManifestTheorems.ConvergedApplySendsNothing | src/management_manifest.cpp:1164-1224 | applying to a converged tenant sends no request and reports nothing applied |
| ManifestExamples.RaisedCapUncovers | src/management_manifest.cpp:182-191 | a complete apply that does not converge: raising the cap uncovers a longer stored timeout |
| ManifestExamples.SharedNameNeverSettles | src/management_manifest.cpp:604-653 | a complete apply of two resources of one name under different parents that state different metadata, for which no tenant is in order (an instance of `SharedNamesAgree`) |
| ManifestExamples.PlainTwinOverrides | src/management_manifest.cpp:604-618 | agreeing in what both state is not enough for resources created under different parents: the second states no metadata, and the first is matched to its row |
| RefreshGuard.Guard.Enter | src/refresh_guard.hpp:114-126 | under the lock a caller joins the live future or installs a new one under the next generation |
| RefreshGuard.Guard.Vacate | src/refresh_guard.hpp:253-258 | clears the slot only for the newest generation |
| RefreshGuard.Guard.RunAlone | src/refresh_guard.hpp:109-152 | an uncontended run hands back its own outcome, settles its future and leaves the slot empty |
| RefreshGuard.AtMostOneWireCall | src/refresh_guard.hpp:109-152 | in every interleaving no two callers are on the wire at once |
| RefreshGuard.DeadSlotMeansPublished | src/refresh_guard.hpp:222-258 | with the slot empty or settled every earlier wire call is over and published, unless publishing threw |
| RefreshGuard.OnlyItsOwnerEndsIt | src/refresh_guard.hpp:253-258 | a live slot stops being live only by its own owner's publish or vacate, never by a late one |
| RefreshGuard.JoinerServed | src/refresh_guard.hpp:128-135 | a joiner returns the outcome of the call that was live when it joined, the same as that call's owner, or a broken promise where the owner could not publish |
| RefreshGuard.NeverServedStale | src/refresh_guard.hpp:246-249 | nobody returns the outcome of a call that had settled before they arrived |
| RefreshGuard.RunsEnd | src/refresh_guard.hpp:109-152 | a run without new arrivals is no longer than the steps its callers have left |
| RefreshGuard.EveryCallerReturns | src/refresh_guard.hpp:109-152 | a run that cannot go on has every caller back, the slot empty, and exactly one answered wire call for each owner, in generation order |
| HandlePool.Handles.Acquire | src/http_curl.cpp:218-237 | one turn of the acquire loop: the last idle handle, a new one below the cap, null when none can be made, or a wait |
| HandlePool.Handles.Release | src/http_curl.cpp:267-274 | the handle goes back to the idle list and the use count down |
| HandlePool.HandlesPartitioned | src/http_curl.cpp:218-275 | in every interleaving a created handle is idle or leased by exactly one request, and no more than the cap exist |
| HandlePool.OneLeaseEach | src/http_curl.cpp:694-710 | no request holds handles of both pools |
| HandlePool.IdleHandleIsSpokenFor | src/http_curl.cpp:258-275 | while a request is blocked, idle handles never outnumber the requests woken or about to notify; so with a handle idle there is one, and no wakeup is lost |
| HandlePool.RunsEnd | src/http_curl.cpp:218-275 | a run without newcomers is bounded; a spurious wake adds two steps at most |
| HandlePool.EveryRequestFinishes | src/http_curl.cpp:218-275 | a run that only newcomers could continue has every request done, the use count zero and every handle idle |
| DecisionMemo.DecisionMemo.EraseLocked | src/decision_memo.hpp:159-167 | the erase loop takes the key out of the map and its one place in the queue |
| DecisionMemo.DecisionMemo.GetDecision | src/decision_memo.hpp:100-113 | a young entry is returned whole, an expired one erased |
| DecisionMemo.DecisionMemo.PutDecision | src/decision_memo.hpp:121-135 | the old entry is replaced at the back of the queue and the oldest evicted down to the cap |
| DecisionMemo.MemoBounded | src/decision_memo.hpp:121-167 | after every history queue and map hold the same keys, each once, at most 1024, oldest first |
| DecisionMemo.LookupIsRemembered | src/decision_memo.hpp:100-167 | a lookup hits exactly when the last put since the last clear is younger than the TTL and fewer than 1024 other keys were put after it, and then returns that decision |
| AccessClient.KeyEqualIff | src/decision_memo.hpp:89-97 | questions without the separator have one key exactly when they agree part by part, an absent part counting as its mark |
| AccessClient.KeyInjectiveIff | src/decision_memo.hpp:66-97 | one key means one question exactly when no present part spells the mark of an absent one |
| AccessClient.SeparatorForges | src/decision_memo.hpp:69-72 | two different questions with the separator inside a part share a key |
| AccessClient.Client.CheckAccess | src/client.cpp:970-1005 | memo first under the acting tenant's key, then the wire; only a readable answer is stored, after any refresh on the way cleared the memo |
| AccessClient.Client.ChangeCredential | src/client.cpp:423-429 | a credential-changing call clears the memo before the wire, whatever the server answers; a refusal leaves the old credential |
| AccessClient.Client.RefreshSession | src/client_impl.hpp:535-550 | a refresh clears the memo once it succeeded; one that failed throws and changes nothing |
| AccessClient.HitIsAnAnswer | src/client.cpp:970-1005 | in every sequential run a memo hit was answered by the server to the same key, under the present credential, less than the TTL before |
| DecisionMemo.ClampTtl | src/decision_memo.hpp:58-62 | the effective TTL is the requested one up to five seconds, five seconds above, and zero exactly for requests of zero or less |
| Retry.Backoff | src/retry.hpp:38-43 | the doubling loop with its early exit computes the capped power of two |
| Retry.DelayBounds | src/retry.hpp:58-66 | a wait is never below the hint and never above the backoff or the hint |
| Retry.SecondsHint | src/retry.hpp:88-108 | a whole number of seconds, however long and however padded, is read as that many milliseconds up to an hour |
| Retry.ExecuteRetrying | src/client_impl.hpp:419-501 | the loop emits the rounds up to the first reply that is not retried, then settles: the answer, the error, or one refresh and one more call; the last reply is handed back exactly when it succeeded |
| Retry.CallsBounded | src/client_impl.hpp:419-501 | wire calls are numbered and announced one for one, at most four; the extra one only after a 401 and a successful refresh |
| Retry.SleepsBounded | src/client_impl.hpp:452-470 | at most two sleeps, none below its hint, 600 ms together without hints |
| ModelOrder.Emitter.Visit | scripts/gen_management.py:1095-1116 | a depth-first visit keeps the emitted list deps-first and ends with the name emitted, or has closed a cycle |
| ModelOrder.ModelledOrdered | scripts/gen_management.py:1078-1120 | emits every model once with all by-value dependencies before it, or refuses, exactly when the by-value graph has a cycle |
| ModelOrder.OneEntryEach | scripts/gen_management.py:1090-1120 | with distinct rendered names the output has one entry for every item, with that item's dependencies |
| SchemaClosure.SchemaClosure | scripts/gen_management.py:653-684 | returns exactly the schemas reachable from the operations by references, sorted |
| ModelCodec.EncodesIff | scripts/gen_management.py:1587-1657 | a value encodes exactly when nowhere in it an enum member or an open union's tag is unknown and every tagged union has exactly one arm |
| ModelCodec.RoundTripIff | scripts/gen_management.py:1384-1657 | decoding an encoding gives the value back exactly when its JSON texts parse, no optional one says null, no omit-when-empty list is empty, and the raw text of each union is an object with the union's own tag and, for an open one, no secret |
| ModelCodec.TaggedForwardedIff | scripts/gen_management.py:1587-1602 | a decoded tagged union is sent on exactly when its object stated one arm and the value can be sent |
| ModelCodec.UnionForwarded | scripts/gen_management.py:1603-1640 | a closed union is sent on exactly as it was received |
| ModelCodec.OpenUnionForwarded | scripts/gen_management.py:1603-1640 | an open union is sent on without the secret members it was received with, and refused when its tag is unknown |
| ModelCodec.MemberIff | scripts/gen_management.py:1436-1485 | member by member, absent, null and present are kept apart |
| ModelCodec.DecodeIgnoresOthers | scripts/gen_management.py:1436-1485 | members under other wire names do not change a decoding |
| Base64Url.Encode | src/jose.cpp:63-85 | the three-byte loop computes the encoding |
| Base64Url.Decode | src/jwks.cpp:14-47 | the masked loop computes the decoding, stopping at padding, refusing a foreign character |
| Base64Url.MaskingHarmless | src/jwks.cpp:27-45 | on every input the 24-bit accumulator emits the bytes of one that never wraps |
| Base64Url.DecodesIff | src/jwks.cpp:34-46 | an input decodes exactly when everything before the first padding is in the alphabet, to six eighths as many bytes |
| Base64Url.RoundTrip | src/jwks.cpp:14-47 | decoding an encoding gives the bytes back, with or without padding behind it |
| Base64Url.EncodedShape | src/jose.cpp:63-85 | the encoding is four thirds as long, rounded up, and all in the alphabet |
| UmaChallenge.Parse | src/client.cpp:1554-1587 | the comma loop computes the parsed challenge |
| UmaChallenge.RoundTripIff | src/client.cpp:1554-1593 | parsing a printed challenge gives its three members back exactly when none of them holds a comma |
| UmaChallenge.PartReads | src/client.cpp:1566-1583 | a printed parameter is read back whatever quotes, equals signs or spaces its value holds |
| UmaChallenge.PaddedHeader | src/client.cpp:1555-1560 | surrounding blanks do not change what is parsed |
| OpaqueExchange.ExchangeObject.FinishExchange | src/opaque.cpp:461-510 | the key-stretching handle is built before the state is spent and released however finish leaves |
| OpaqueExchange.ExchangeObject.AssignFrom | src/opaque.cpp:423-434 | move assignment closes what was held, takes over the source and empties it; self-assignment changes nothing |
| OpaqueExchange.ExchangeObject.CloseExchange | src/opaque.cpp:436-446 | close releases an unspent handle once and is a no-op after |
| OpaqueExchange.StateHandlesOwnedOnce | src/opaque.cpp:409-510 | over every run a state handle is finished once or released once, never both, by a call of its own kind, and until then held by exactly one live object |
| OpaqueExchange.NothingLeaks | src/opaque.cpp:344-510 | once all objects are destroyed every state handle was finished or released, and every key-stretching handle released, exactly once |
| OpaqueExchange.RefusedThenFinished | src/opaque.cpp:461-510 | over a run: after any number of refused functions one accepted finish spends the state handle, and nothing that follows finishes or releases it again |

## Left out

- ManifestTheorems.ConvergenceExact: leaves aside resources and service accounts created twice under one name, which `ConvergenceOnOnePage` and `ConvergenceOfSharedResources` take up; `SharedNamesAgree` is necessary for them too, and `PlainTwinOverrides` shows it is not sufficient.
- ManifestShared.ConvergenceOnOnePage: assumes that the page has room, since beyond it the next plan need not see the last row of a name; and that no binding is narrowed to an earlier resource of a created name, which `ConvergenceOfSharedResources` shows necessary where roles and subjects have names of their own. Elsewhere a later subject of the same name may bind the role anew.
- ManifestTheorems.LandedPlansUnchanged: assumes that no row is created twice under one name, since the second row takes the first one's place in the next plan.
- ManifestRebind.RebindReportIsTrue: assumes that subjects are told apart by name, since two subjects of one name act on one row and the second starts from what the first left; `RebindReportIsTrueOfLast` compares with the tenant just before the failing change and assumes nothing of names.
- RefreshGuard.JoinerServed: joiners see a broken promise where the owner's outcome could not be copied; the promise class itself is taken as the C++ standard describes it.
- AccessClient.HitIsAnAnswer: is about sequential runs; nothing in the source orders a late put after another thread's clear.
- ModelCodec.RoundTripIff: tells JSON text members apart by what they parse to, not by their spelling, and leaves out doubles and the two raw texts that a network reply profile decodes and never encodes (scripts/gen_management.py:1488-1497).
- Retry.CallsBounded: leaves out the end event of the call after a refresh, which a transport failure skips.
- ManifestApi.PlanManifest: leaves out reads of the plan that fail, and other writers to the tenant during a run.
- The one-time secret a service-account creation answers with, and the network nodes of the resource tree.
- Write refusals other than stale versions, caps, duplicate names (a resource's within its parent), existing bindings and profiles; any other refusal is one of the calls that fail.
- Message texts, the description strings of a plan and a report, and which of several violations `validate` names first beyond its own order.
- Rows are listed in the order they were created, a new one last, and a subject's assignments in the order of the role table. What is said of the page's room and of the last row of a name rests on it.
- Generations are unbounded numbers; the source counts them in 64 bits.
- An allocation failure inside the critical section of the refresh guard, which changes nothing.
- libcurl, OpenSSL, the native OPAQUE library and the JSON parser: transfers, handles and parsed texts are given from outside.
- The cookie window and the per-request handle options of the HTTP transport, and its destructor.
- The HTTP-date form of Retry-After is an outcome given from outside; jitter is a real fraction, so floating-point rounding is not modelled.
- HandlePool.EveryRequestFinishes: assumes that a transfer returns. `perform_isolated` gives its plain handle back without a guard (src/http_curl.cpp:694-710), so an allocation that throws in between would keep it leased.
- Blocking in acquire and in a joined future is a state of the transition system; the classes hold the critical sections between waits.
- The checks of `acting_tenant` on the identifier and on reach, and what each credential-changing call sends.
- A reference in a schema that is not a string, on which the generator would stop.
- The constructor and header text the generator emits.
- Token claim checks, resource indicators, OIDC, SSF, CIBA, WebAuthn and revocation polling: mostly single-branch facts.
