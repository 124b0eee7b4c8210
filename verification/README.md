# Verified model of the gateway

Arbr is a gateway that routes LLM requests: it picks a model for each request, sends it to a provider
(possibly one of several replicas), accounts for what it cost, and evaluates cheaper models offline.
This project models the parts of it whose guarantees depend on more than one function, and proves them.

`dafny verify dfyconfig.toml` checks everything. One file per component:

| file | component |
|---|---|
| `ReplicaPool.dfy` | circuit breaker, half-open trials and dispatch order of a replica pool |
| `ReplicaDispatch.dfy` | many requests failing over across the shared pool at once |
| `PolicyEngine.dfy` | the deterministic model-selection policy |
| `RoutePipeline.dfy` | one chat request from the model field to the provider call |
| `Connections.dfy` | stored provider keys, their default, and the snapshot requests read |
| `KeyWrites.dfy` | the writers of those keys at work at the same time |
| `CapEngine.dfy` | usage caps: counting, enforcement, overshoot under concurrency |
| `RateLimit.dfy` | requests per minute over a fleet of replicas |
| `Ingest.dfy` | batches of reported events, deduplication and counting |
| `CatalogSync.dfy` | discover, cleanup and refresh of the model registry |
| `EvalRun.dfy` | replay, aggregation, thresholds and re-scoring of an evaluation run |
| `Sampler.dfy` | deduplication and stratified sampling of evaluation records |
| `SemanticCache.dfy` | cosine similarity and the bounded cache of responses |
| `SseRelay.dfy` | the incremental SSE line buffer against a whole-text parser |
| `JsonBlock.dfy` | the right-to-left scan for a JSON block |
| `CsvLine.dfy` | the CSV reader of the command line tool |
| `Seqs.dfy` | filtering, stable sorting and string order shared by the others |

Code that changes state is a class or a method proved against a specification function; the theorems are
lemmas about those functions. Requests that run at once are a state machine whose steps are the stretches of
code between two `await`s. JavaScript numbers in costs, rates and vectors are reals. Clocks, probes, fetches,
`JSON.parse`, hashes and the decisions of components outside the model are parameters that may take any value.

## Where the code differs from what it says

- `capEngine.js` documents alert caps as notification only; `enforcement` degrades routing for any breached
  cap that is not a block cap (`AlertCapDegrades`). `AlertsMatterIff` says exactly when that changes a verdict.
- `capEngine.js` promises an overshoot of at most one in-flight request. With K unrecorded requests the bound
  is limit + K * c, and it holds exactly for caps on the application, user, department or workflow and for the
  global request quota (`BoundHoldsIffSteady`). Caps on a provider or a model are also charged by requests that
  a downgrade, a fallback or a replica moved there after enforcement, and the global spend cap by internal
  calls; none of these reads the cap, and no bound holds.
- `semanticCache.js` gives cosine similarity as 0 to 1; it is -1 to 1, and in 0 to 1 exactly where the dot
  product is not negative (`UnitRangeIff`).
- `rateLimit.js` speaks of slight overshoot under concurrency; the shared counter has none
  (`SharedAdmitsFirst`). What can exceed a window's limit is the fallback to memory, by one limit for each
  replica that used it, and a clock that steps back (`ClockBackReopensWindow`): the memory of one slot per key
  gives the verdicts of a full table exactly where every window with more than rpm requests has them together
  (`SlotMatchesTableIff`).
- `replicaPool.js` says a trial is cleared as soon as its request reports, and expires only for a request that
  never reports back. A trial answered with a status that is neither a success nor retryable, such as a 400,
  is never reported on, so it ends only by expiry (`TrialUnreportedIff`, `BadRequestKeepsTrial`).
- A catalogue sync is not always settled after one run (`OneRunSufficesIff`).
- Replayed reports are harmless only while equal request ids carry equal reports
  (`ReplaySafeIffConsistent`, `ConflictingReports`).
- Re-scoring an evaluation run misreads a failure whose error message was empty as a scored result
  (`RecomputeReproducesIff`, `SilentFailureComesBackScored`).
- A budget downgrade may move a request to a provider that is not connected (`DowngradeConnectedIff`,
  `DowngradeCanDisconnect`), and the guardrail one whose base model is registered with such a provider
  (`RouteConnectedIff`, `GuardrailCanDisconnect`).
- The allowed-set check falls back to the key's own default without checking that it is allowed, and an
  opt-out to a global default without doing so (`OutsiderDeliveredIff`, `OutsiderIsServed`); the violation is
  recorded either way. An opted-out model is served where the global default is opted out as well
  (`OptedOutDeliveredIff`, `OptedOutIsServed`).
- The streaming relay never reads a last line without its newline; the whole-text parser does
  (`WrapIsRelayPlusTail`).
- A stray closing brace after a JSON block hides the block from `parseJsonBlock` (`BlockIsTriedIff`).
- A CSV record of one empty unquoted field is dropped (`OneRowPerRecordIff`).
- Writers of different keys of a provider that work at the same time can leave several default keys
  (`ConcurrentSetsKeepOneIff`, `RacingLeavesTwo`).

## Model

| member | source | states |
|---|---|---|
| ReplicaPool.OrderPermutesLive | server/src/gateway/replicaPool.js:63-88 | `order` returns every member that is not draining exactly once, with at most one trial, in front; any other recovering member comes after the healthy ones |
| ReplicaPool.OrderFollowsPriority | server/src/gateway/replicaPool.js:52-88 | of two candidates the earlier is never outranked: trial, then healthy by load and turn, then cooling by recovery time |
| ReplicaPool.OrderInFields | server/src/gateway/replicaPool.js:50-88 | of two candidates, past the first due trial: a member that is up comes first, then fewer in flight, then the nearer turn; of two that are down the one whose cooldown ends sooner |
| ReplicaPool.OrderWrites | server/src/gateway/replicaPool.js:63-75 | a call moves the pool's turn by one and, exactly where its first candidate was due and free for a trial, ends that trial 60 seconds later; nothing else changes |
| ReplicaPool.PoolInFields | server/src/gateway/replicaPool.js:32-43 | a pool is the custom endpoints of one pool name; its members come by id, drained ones left out of the order |
| ReplicaPool.CallsInFields | server/src/gateway/replicaPool.js:90-133 | either report ends the trial, a success clears the streak, a failure adds to it and opens the breaker from the threshold on; other members are untouched |
| ReplicaPool.EqualLoadRotates | server/src/gateway/replicaPool.js:76-82 | with all members healthy and equally loaded, the head is the member whose turn it is |
| ReplicaPool.EachFirstOnce | server/src/gateway/replicaPool.js:63-88 | over n calls in a row on a pool of n healthy, equally loaded members, each member comes first on exactly one |
| ReplicaPool.LoadStaysEven | server/src/gateway/replicaPool.js:63-91 | any run of calls, each followed by acquiring its first candidate, from equal load without releases, keeps all loads within one of each other |
| ReplicaPool.BreakerVerdict | server/src/gateway/replicaPool.js:48-52 | in every reachable state `downUntil` is set iff the failure streak reached the threshold; healthy and recovering are exactly what the reported history says |
| ReplicaPool.TrialsSeparated | server/src/gateway/replicaPool.js:45-75 | two trial claims on one member have a report on it between them or lie at least TRIAL_MS apart |
| ReplicaPool.Dispatcher.TakeOneTrial | server/src/gateway/replicaPool.js:63-75 | the loop over recovering members claims the first free trial, writes only that member, and lists the others as waiting |
| ReplicaPool.Dispatcher.NextOrder | server/src/gateway/replicaPool.js:63-88 | `order` with its writes to `trialUntil` and the rotation counter meets the specification the lemmas are about |
| ReplicaPool.Dispatcher.OrderLive | server/src/gateway/replicaPool.js:63-88 | the order over the live members, after the trial was taken |
| ReplicaPool.Dispatcher.Acquire | server/src/gateway/replicaPool.js:90-90 | one slot taken |
| ReplicaPool.Dispatcher.Release | server/src/gateway/replicaPool.js:91-91 | one slot given back, clamped at zero |
| ReplicaPool.Dispatcher.ReportSuccess | server/src/gateway/replicaPool.js:93-100 | the report closes the breaker and ends the trial |
| ReplicaPool.Dispatcher.ReportFailure | server/src/gateway/replicaPool.js:127-133 | the report counts, ends the trial and opens the breaker at the threshold |
| ReplicaDispatch.InFlightIsHolders | server/src/gateway/openaiCompat.js:204-263 | in every interleaving a member's in-flight count is the number of requests holding a slot on it, and zero when all are over |
| ReplicaDispatch.ClampNeverActs | server/src/gateway/replicaPool.js:90-91 | no release in any interleaving finds a count of zero, and it is the first call its action makes |
| ReplicaDispatch.OverMeansSettled | server/src/gateway/openaiCompat.js:207-263 | a finished request released as often as it acquired; a refused one failed on every candidate once, in order; an answer of 429 or from 500 on is relayed only by the last candidate |
| ReplicaDispatch.AnswerIsRetriedIff | server/src/gateway/openaiCompat.js:241-249 | an answer is cancelled iff another candidate is left and its status is 429 or from 500 on; every other is relayed, and nothing else of the gateway changes |
| ReplicaDispatch.HealthReportedIff | server/src/gateway/openaiCompat.js:270-283 | a whole answer is a success iff its status is 200 to 299 and its body readable; a failure iff such a status came without one, or 429, or from 500 on; otherwise the member is left as it is |
| ReplicaDispatch.SecondEndIsSilent | server/src/gateway/openaiCompat.js:260-263 | whichever of finish and close comes second changes nothing |
| ReplicaDispatch.RunHasHistory | server/src/gateway/openaiCompat.js:204-263 | the pool after any interleaving is one that a plain sequence of calls reaches |
| ReplicaDispatch.EnabledIff | server/src/gateway/openaiCompat.js:204-283 | which awaits of a request can end when |
| ReplicaDispatch.RunTrialsSeparated | server/src/gateway/replicaPool.js:45-75 | half-open over every interleaving: between two requests that take a member's trial lies a report on it, or TRIAL_MS |
| ReplicaDispatch.TrialUnreportedIff | server/src/gateway/replicaPool.js:45-47 | the request that took a member's trial reports on it before it is done, except iff that member answered with a status that is neither a success nor retryable |
| ReplicaDispatch.BadRequestKeepsTrial | server/src/gateway/replicaPool.js:45-47 | a trial answered 400 is done and unreported, and nobody gets another until it expires |
| ReplicaDispatch.Server.TakeSlot | server/src/gateway/openaiCompat.js:221-221 | acquire for the candidate at hand |
| ReplicaDispatch.Server.TurnTo | server/src/gateway/openaiCompat.js:205-221 | the head of the loop: refused when nobody is left, else probe or acquire |
| ReplicaDispatch.Server.NextCandidate | server/src/gateway/openaiCompat.js:216-220 | reports the failure and moves on to the next candidate |
| ReplicaDispatch.Server.OnArrival | server/src/gateway/openaiCompat.js:175-211 | orders the candidates and turns to the first |
| ReplicaDispatch.Server.OnProbe | server/src/gateway/openaiCompat.js:216-221 | acquires a reachable member, else moves on |
| ReplicaDispatch.Server.OnFetchFailure | server/src/gateway/openaiCompat.js:233-237 | gives the slot back, reports and moves on |
| ReplicaDispatch.Server.OnAnswer | server/src/gateway/openaiCompat.js:241-249 | a retryable answer is cancelled unless it is the last candidate's |
| ReplicaDispatch.Server.OnCancelled | server/src/gateway/openaiCompat.js:242-247 | gives the slot back, reports and moves on |
| ReplicaDispatch.Server.OnResponseEnd | server/src/gateway/openaiCompat.js:259-263 | gives the slot back once |
| ReplicaDispatch.Server.OnBodyRead | server/src/gateway/openaiCompat.js:270-283 | reports success, failure or nothing by the answer's status and body |
| ReplicaDispatch.AloneFindsFirst | server/src/gateway/openaiCompat.js:204-256 | a request left to itself relays the first candidate that answers, and is refused iff none does |
| ReplicaDispatch.Proxy | server/src/gateway/openaiCompat.js:172-256 | the failover loop on the pool object is the state machine's run of that request |
| PolicyEngine.QualityScore | server/src/routing/aiPolicy.js:275-283 | the accumulating loop computes the weighted mean, and the unknown score when nothing is weighted |
| PolicyEngine.PassesGates | server/src/routing/aiPolicy.js:319-324 | passes iff no strongly needed dimension is below the floor |
| PolicyEngine.FillBuckets | server/src/routing/aiPolicy.js:327-336 | the tier buckets give the pool of the task's tier and goal, and all models when it is empty |
| PolicyEngine.AssessPool | server/src/routing/aiPolicy.js:368-376 | one candidate per pool model, in order, with its quality, cost and gate verdict |
| PolicyEngine.RankCandidates | server/src/routing/aiPolicy.js:361-415 | the staged ranking meets its specification; the bar was met iff some ranked candidate clears it |
| PolicyEngine.PreferenceIsTotalOrder | server/src/routing/aiPolicy.js:378-403 | the stages and the comparator amount to one strict total order on models with different ids |
| PolicyEngine.WinnerIsBest | server/src/routing/aiPolicy.js:361-403 | through all relax-if-empty stages the winner is the model this order puts before every other live model |
| PolicyEngine.WinnerPassesStages | server/src/routing/aiPolicy.js:295-403 | against any model the winner passes each stage in turn: priced, in the tier pool, past the gates, measured on premium tasks, over the quality bar |
| PolicyEngine.WinnerServesGoal | server/src/routing/aiPolicy.js:388-403 | among models level on the stages, the quality goal takes the best and then the cheapest, every other goal the cheapest and then the best; then measured, then the smaller id |
| PolicyEngine.StagesInFields | server/src/routing/aiPolicy.js:295-384 | the stages on a model's own fields: a positive rate, its tier, at least 0.55 wherever 0.7 is needed, measured on premium tasks, a quality of 0.7, 0.8 or any by goal |
| PolicyEngine.ScoresInFields | server/src/routing/aiPolicy.js:275-350 | quality is the need-weighted mean over the seven dimensions, 0.4 where nothing is known; cost that of a thousand requests, output at the input rate without one of its own |
| PolicyEngine.WinnerSurvivesShrinking | server/src/routing/aiPolicy.js:302-336 | removing other models, or reordering the pool, never changes the winner |
| PolicyEngine.WinnerOfMore | server/src/routing/aiPolicy.js:361-403 | adding models changes the winner only to one of them |
| PolicyEngine.ImprovingKeepsWinning | server/src/routing/aiPolicy.js:275-403 | a better score or a lower cost never loses a model its assignment |
| PolicyEngine.AdjustmentOnlySaves | server/src/routing/aiPolicy.js:169-203 | a difficulty adjustment only moves to a strictly cheaper, live, chat-capable model |
| PolicyEngine.AdjustedIff | server/src/routing/aiPolicy.js:169-203 | the adjustment is made iff asked for, the request is rated otherwise than its task, and the best servable model of that tier is cheaper; it moves to that one |
| RoutePipeline.Explain.PushOverride | server/src/gateway/explain.js:12-16 | appends to the chain and keeps `override` at its last entry |
| RoutePipeline.TrailExplainsDelivery | server/src/gateway/handler.js:331-389 | the overrides of a delivered answer are a connected chain from the first-chosen model to the delivered one, each stage once and in order |
| RoutePipeline.DecisionMatchesTrail | server/src/gateway/handler.js:735-740 | the routing decision of a delivered answer is the one its last override made |
| RoutePipeline.PinSkipsPolicies | server/src/gateway/handler.js:78-109 | a pin is served as it is whatever rules, policies and experiments there are, moved only by allowed set and opt-out; one that does not resolve is refused |
| RoutePipeline.RulesComeFirst | server/src/gateway/handler.js:274-330 | without a pin and where nothing moves it later: a rule iff there is one, then the policy iff it has a connected target, or the guardrail iff it has one, then the defaults |
| RoutePipeline.DecisionIff | server/src/gateway/handler.js:266-389 | pin, rule, policy and guardrail each decide iff they had a say and nothing later moved the request, a canary iff it took over and stayed; the target is theirs |
| RoutePipeline.BaseInFields | server/src/gateway/handler.js:115-127 | the key's own default where registered with a connected provider, else the hinted provider if connected or the default one, with its configured or built-in model in the order each has |
| RoutePipeline.FirstInFields | server/src/gateway/handler.js:274-328 | the model chosen first: pin, rule, policy on a connected provider, guardrail, defaults |
| RoutePipeline.DivertedIff | server/src/gateway/handler.js:329-350 | a canary takes over iff the provider its candidate is registered with, or for an unregistered one the stored one, is connected |
| RoutePipeline.RouteInFields | server/src/gateway/handler.js:329-389 | the whole trail and target of a route: diverted, barred and opted-out moves are recorded exactly where they happened, and the violation names an outsider |
| RoutePipeline.RefusedIff | server/src/gateway/handler.js:250-391 | each refusal iff its one cause: unknown model, provider off, model not allowed, image without vision |
| RoutePipeline.KeyInFields | server/src/gateway/handler.js:405-447 | the rule's pin where the rule decided, else the application's for that provider, each where the provider holds that key; else its default, noted as fallen back |
| RoutePipeline.FallbacksAreExactly | server/src/gateway/handler.js:129-170 | a failed call is retried on exactly the default models the scope reaches that are allowed, not opted out, registered with a price and able to see the image |
| RoutePipeline.FallbacksInOrder | server/src/gateway/handler.js:136-150 | retries on other providers go through the connected ones in their order |
| RoutePipeline.DeliveredIsGoverned | server/src/gateway/handler.js:158-190 | what is delivered is the model the route settled on or one that passes `checkModel`, and is priced if it was a fallback |
| RoutePipeline.OutsidersAreNamed | server/src/gateway/handler.js:370-379 | a model delivered outside a non-empty allowed list is named by the recorded violation |
| RoutePipeline.OutsiderRoutedIff | server/src/gateway/handler.js:344-379 | the route settles on a model outside the allowed set iff an opt-out sends it to a global default outside, or the chosen model and the key's own default are both outside |
| RoutePipeline.OutsiderDeliveredIff | server/src/gateway/handler.js:344-379 | a model outside the allowed set is delivered iff the route settles on it, no cap moves it and its first call succeeds |
| RoutePipeline.OutsiderIsServed | server/src/gateway/handler.js:344-357 | a key allowed one model, with another as its own default, is served that default |
| RoutePipeline.OptOutHonouredUnlessDefaultIsOut | server/src/gateway/handler.js:359-368 | an opted-out model is delivered only if the global default is opted out too |
| RoutePipeline.OptedOutDeliveredIff | server/src/gateway/handler.js:359-368 | an opted-out model is delivered iff what the allowed set left is opted out together with the global default, no cap moves it and its first call succeeds |
| RoutePipeline.OptedOutIsServed | server/src/gateway/handler.js:359-368 | a pinned, opted-out model is served while the global default is opted out too |
| RoutePipeline.ImagesNeedVision | server/src/gateway/handler.js:381-389 | an image without a pinned model is only answered by a vision-capable model |
| RoutePipeline.KeysStayHome | server/src/gateway/handler.js:172-182 | every provider call carries a key of the provider receiving it, the default one anywhere but on the served provider |
| RoutePipeline.RecordedAliasIsTheKeyUsed | server/src/gateway/handler.js:70-76 | an alias in the log is the alias of the key the answering call carried, and no alias means the default key |
| RoutePipeline.RulePinNeedsRule | server/src/gateway/handler.js:402-410 | a rule's key reaches the request iff the rule decided it, and then nothing moved the request off the rule's target |
| RoutePipeline.ReplicaKeysStayHome | server/src/gateway/openaiCompat.js:212-215 | replica failover never carries the routed provider's key to another member, and uses the key a direct call would |
| RoutePipeline.EveryCandidateIsTried | server/src/gateway/handler.js:158-190 | without a cached response the calls are the candidates in order up to the first that answers; the request fails iff none does |
| RoutePipeline.ReplyIff | server/src/gateway/handler.js:554-760 | refused iff its route is, stopped iff a block cap is hit, and a cached answer is returned or withheld without any provider call |
| RoutePipeline.RouteConnectedIff | server/src/gateway/handler.js:263-342 | the routed provider is not connected iff the guardrail decides, nothing moves its target, and the base model is registered with a provider that is not connected |
| RoutePipeline.GuardrailCanDisconnect | server/src/gateway/handler.js:317-324 | a default model registered with another provider takes the request there under the guardrail |
| RoutePipeline.DowngradeConnectedIff | server/src/gateway/handler.js:577-596 | after the budget step the provider is connected iff no downgrade happened or the model's registered provider is |
| RoutePipeline.DowngradeIff | server/src/gateway/handler.js:577-590 | a cap moves a request iff the light model of its model's own provider is another one that is allowed, not opted out and able to see the image |
| RoutePipeline.DowngradeKeepsKey | server/src/gateway/handler.js:584-593 | a downgraded request keeps its key on its provider; on another it has the application's pin there or that provider's default |
| RoutePipeline.DowngradeKeepsNote | server/src/gateway/handler.js:584-593 | and its note: kept on its provider, elsewhere that of the application's pin there, or none |
| RoutePipeline.DowngradeCanDisconnect | server/src/pricing/registry.js:219-225 | a downgrade onto a provider that is not connected fails a request that was servable |
| RoutePipeline.InvokeWithFallback | server/src/gateway/handler.js:158-190 | the retry loop stops at the first success and makes exactly the calls before it |
| RoutePipeline.PickAlias | server/src/gateway/handler.js:431-447 | the alias and the explain note of the pinned key, the note removed when nothing is pinned |
| RoutePipeline.ApplyGovernance | server/src/gateway/handler.js:344-410 | allowed set, opt-out, violation, vision and key, with their writes to the explain record |
| RoutePipeline.Resolve | server/src/gateway/handler.js:229-416 | the whole resolution, with its writes to the explain record |
| RoutePipeline.AnswerChat | server/src/gateway/handler.js:604-757 | cached response or provider calls, fallback and output guardrail, with their writes to the explain record |
| RoutePipeline.HandleChat | server/src/gateway/handler.js:549-757 | resolution, budget, cache, invocation, fallback and guardrail of one request meet the specification the lemmas are about |
| Connections.RunKeepsOneDefault | server/src/providers/connections.js:368-444 | any run of set, remove, disconnect and set-default keeps exactly one default among a provider's keys whenever it has any |
| Connections.NextIs | server/src/providers/connections.js:368-443 | an operation on a stored key takes effect on that provider's keys, one on a key that is not there leaves them |
| Connections.SetDefaultRepairs | server/src/providers/connections.js:435-441 | setting the default leaves that key the only default whatever was stored, and every other field of every key as it was |
| Connections.SetKeyInFields | server/src/providers/connections.js:385-400 | adding a key replaces or appends that key alone, and takes the mark from the others iff it is made the default |
| Connections.PromotedOutdoes | server/src/providers/connections.js:414-430 | of the keys left after the default one was removed, the promoted one is marked "default" by name, or else the oldest, then the smallest id |
| Connections.SnapshotIgnoresOrder | server/src/providers/connections.js:152-163 | the snapshot does not depend on the order the database returns the rows in |
| Connections.SnapshotKeys | server/src/providers/connections.js:165-251 | every entry's default key is one of its keys, and each key comes from the provider's own rows or environment, or from the custom provider that shadows it |
| Connections.KeysInFields | server/src/providers/connections.js:176-206 | a snapshot holds exactly the usable stored keys under their aliases and the environment's under "env" |
| Connections.ServingOutdoes | server/src/providers/connections.js:155-230 | without one from the environment the serving key outdoes every usable one: the mark, the name "default", age, id |
| Connections.ConnectedIff | server/src/providers/connections.js:165-258 | a provider is connected iff it is user-added, or built in with a key from the environment or a usable stored one |
| Connections.StoredDefaultServes | server/src/providers/connections.js:165-219 | unpinned traffic gets the stored default, unless the environment provides a key |
| Connections.CredentialStore.SetCredential | server/src/providers/connections.js:368-407 | storing a key, with the first one or an explicit request becoming the default |
| Connections.CredentialStore.RemoveCredential | server/src/providers/connections.js:412-430 | removing one key with promotion of a successor, or all of them |
| Connections.CredentialStore.SetDefaultCredential | server/src/providers/connections.js:435-444 | moves the default, or fails on an unknown alias without changing anything |
| KeyWrites.UninterruptedIsAtomic | server/src/providers/connections.js:368-444 | a writer whose database calls nobody interrupts does what the operation says |
| KeyWrites.InterleavingKeepsOneIff | server/src/providers/connections.js:368-444 | after any interleaving of any writers exactly one default is left iff exactly one key was marked, or default at the start, and not cleared since |
| KeyWrites.ConcurrentSetsKeepOneIff | server/src/providers/connections.js:386-444 | any number of concurrent `setCredential` and `setDefaultCredential` calls for different keys leave one default iff nobody reset, or some writer reset after all the others had marked theirs |
| KeyWrites.RacingLeavesTwo | server/src/providers/connections.js:386-397 | two first keys that count, reset and write in step leave two defaults |
| CapEngine.RecordedCharge | server/src/routing/capEngine.js:81-127 | logging a request moves a cap's current counter by exactly its charge and no other window |
| CapEngine.ChargedIffInScope | server/src/routing/capEngine.js:38-127 | a logged request adds its cost to spend caps and one to request caps exactly where it carries the cap's value for the cap's own dimension, in the UTC day or month; internal calls reach global spend caps only |
| CapEngine.ChargedWhereAnswered | server/src/logging/logger.js:90-109 | caps on a provider or model are charged by where the request was answered, the others by what enforcement saw |
| CapEngine.BlockCapRefuses | server/src/routing/capEngine.js:133-153 | a breached block cap in scope refuses whatever other caps there are |
| CapEngine.RefusedIffInScope | server/src/routing/capEngine.js:55-172 | a request is refused iff a block cap carrying its value for the cap's own dimension has reached its limit in the current window, admitted iff no cap in scope has |
| CapEngine.AdmitMeansNothingBreached | server/src/routing/capEngine.js:129-153 | routing is left alone iff no cap in scope, of any action, is breached |
| CapEngine.AlertCapDegrades | server/src/routing/capEngine.js:151-152 | an alert cap whose counter has reached its positive limit degrades routing |
| CapEngine.AlertsMatterIff | server/src/routing/capEngine.js:129-153 | alert caps change the kind of a verdict iff one of them is breached and no other cap in scope is |
| CapEngine.OvershootBound | server/src/routing/capEngine.js:7-10 | in every interleaving and across rollovers a block cap's counter stays below limit + K * c plus what traffic that never read it charged, with K readers unrecorded at once and c the most one charges |
| CapEngine.BoundHoldsIffSteady | server/src/routing/capEngine.js:47-67 | for enforced requests, moved or not, and internal calls, limit + K * c bounds the counter iff the cap is on the application, user, department or workflow, or is the global request quota |
| CapEngine.OvershootIsApproached | server/src/routing/capEngine.js:7-10 | for every amount below the limit some run ends at that amount plus K * c |
| CapEngine.QuotaChargesOne | server/src/routing/capEngine.js:119-127 | a request quota is charged at most 1, and exactly 1 by matching customer traffic, so its overshoot is at most K requests |
| CapEngine.CapStore.BumpAll | server/src/routing/capEngine.js:88-105 | one increment per chosen cap that matches |
| CapEngine.CapStore.RecordSpend | server/src/routing/capEngine.js:111-117 | increments exactly the spend caps in scope |
| CapEngine.CapStore.RecordRequest | server/src/routing/capEngine.js:122-127 | increments exactly the request caps in scope |
| CapEngine.CapStore.Enforcement | server/src/routing/capEngine.js:133-153 | the loop refuses at the first breached block cap, else degrades for the first breached cap |
| RateLimit.SharedAdmitsFirst | server/src/routing/rateLimit.js:42-54 | on the shared counter exactly the first rpm requests of a window are admitted, whatever replicas and clocks they come from |
| RateLimit.WindowsAreMinutes | server/src/routing/rateLimit.js:14-16 | a window starts on the minute and holds the arrivals of its 60 seconds |
| RateLimit.UnlimitedAdmitsAll | server/src/routing/rateLimit.js:20-45 | a limit of zero or less refuses nothing and counts nothing |
| RateLimit.MemoryAdmitsFirst | server/src/routing/rateLimit.js:26-36 | so does each replica's memory of the requests it answers, while its clock does not go back |
| RateLimit.MinuteBound | server/src/routing/rateLimit.js:14-60 | at most rpm per window and 2 * rpm in any half-open minute, times the number of counters that ever answered (one while the database is up) |
| RateLimit.MinuteBoundIsTight | server/src/routing/rateLimit.js:14-21 | two bursts of rpm two milliseconds apart are all admitted |
| RateLimit.SlotMatchesTable | server/src/routing/rateLimit.js:26-36 | while the clock does not go back, one slot per key gives the verdicts of the full table of windows |
| RateLimit.SlotMatchesTableIff | server/src/routing/rateLimit.js:26-36 | on any clock the slot gives the table's verdict at every request of a key iff each of its windows has at most rpm requests or has them together, none of another window in between |
| RateLimit.SlotNeverStricter | server/src/routing/rateLimit.js:26-36 | on any clock the slot refuses nothing the table would admit |
| RateLimit.ClockBackReopensWindow | server/src/routing/rateLimit.js:29-33 | a clock stepping back reopens a full window |
| RateLimit.Limiter.OverRpmLimitMemory | server/src/routing/rateLimit.js:26-36 | the memory limiter as a step on its slots |
| RateLimit.RateBuckets.Increment | server/src/routing/rateLimit.js:46-53 | the atomic increment of one bucket, created at zero |
| RateLimit.Limiter.OverRpmLimit | server/src/routing/rateLimit.js:42-59 | the shared counter, or the memory while the database is unavailable, one of them moved and the other not |
| Ingest.ReplaySafeIffConsistent | server/src/gateway/ingest.js:53-100 | order and repetition of reports leave the same records iff equal request ids carry equal reports |
| Ingest.ConflictingReports | server/src/gateway/ingest.js:53-100 | one id reported as a success and as a failure is inconsistent |
| Ingest.ReplayKeepsRecords | server/src/gateway/ingest.js:53-100 | replaying the same events in any order and number leaves the same record set |
| Ingest.ReplayKeepsCharges | server/src/logging/logger.js:87-109 | and charges every cap the same in total |
| Ingest.ChargeInFields | server/src/logging/logger.js:87-109 | only a successful record is charged, its cost or one, to exactly the caps whose value it carries for their dimension |
| Ingest.CountersAreCharges | server/src/logging/logger.js:87-109 | at any time, for every window, a cap's counter is the total charge of the records created in that window, each once |
| Ingest.CountersAddUp | server/src/logging/logger.js:87-109 | over all windows of a run the counters add up to what each created record charges once |
| Ingest.ReplayKeepsCounters | server/src/gateway/ingest.js:53-100 | replaying at whatever times leaves the same counter within one window, and the same sum over windows otherwise |
| Ingest.OtherWindowsUntouched | server/src/logging/logger.js:87-109 | and nothing in any other window |
| Ingest.NamespaceInjective | server/src/gateway/ingest.js:16-18 | with colon-free key ids a namespaced id determines the key and the caller's id |
| Ingest.ValidInFields | server/src/gateway/ingest.js:20-28 | an event is valid iff it has a request id, a model and no other status than the three, and each reason is the first thing missing |
| Ingest.RecordInFields | server/src/gateway/ingest.js:65-92 | the event's own labels, its application before the key's, its provider before the registered one, a success without a status |
| Ingest.OutcomeIff | server/src/gateway/ingest.js:53-100 | invalid, refused by the database, a duplicate iff its id is taken, or stored as it is |
| Ingest.KeysCollideIff | server/src/gateway/ingest.js:16-18 | two different key ids can collide iff one is the other followed by a colon and anything |
| Ingest.ConsistentPerKey | server/src/gateway/ingest.js:16-18 | so consistency is each integration's own business: equal request ids under one key with equal events are enough |
| Ingest.SortedAccountsForAll | server/src/gateway/ingest.js:53-100 | the three lists are the ids of a partition of the batch, each in order, and the collection grows by exactly the accepted events' records, in order |
| Ingest.LogFromIsRun | server/src/gateway/ingest.js:53-100 | a batch continues the run of submissions before it |
| Ingest.Endpoint.WriteOrThrow | server/src/logging/logger.js:87-109 | create first, count only what was created, at that time |
| Ingest.Endpoint.HandleIngest | server/src/gateway/ingest.js:30-100 | the batch loop meets the specification, and a refused batch changes nothing |
| CatalogSync.BuildIndex | server/src/litellm/sync.js:119-164 | the index lists each wanted catalogue key once, the first of equals, and its two tables agree |
| CatalogSync.RunKeeps | server/src/litellm/sync.js:227-284 | a row outlives a run iff it is not stale, built-in rows always, with tier, label, builtIn and enabled unchanged |
| CatalogSync.RunPublishes | server/src/litellm/sync.js:187-284 | after a run a listed model shows what the catalogue knows of it and keeps what it does not; a row the run added is enabled with the tier of its prices |
| CatalogSync.CleanRunIsFinal | server/src/litellm/sync.js:180-284 | a run that starts without stale rows reaches a fixed point |
| CatalogSync.TwoRunsSuffice | server/src/litellm/sync.js:180-284 | two runs always reach the fixed point |
| CatalogSync.OneRunSufficesIff | server/src/litellm/sync.js:180-239 | one run is enough iff no stale row holds an id the catalogue offers |
| CatalogSync.BlockedIdFilledLate | server/src/litellm/sync.js:220-239 | such an id is emptied by the first run and filled by the second |
| CatalogSync.OneRunNotEnough | server/src/litellm/sync.js:180-239 | a registry and catalogue that one run does not settle |
| CatalogSync.Registry.Run | server/src/litellm/sync.js:180-284 | discover, cleanup and refresh over the stored table meet the specification |
| CatalogSync.Registry.RunDiscover | server/src/litellm/sync.js:180-225 | inserts the listed keys that are missing, dropping those whose id is taken |
| CatalogSync.Registry.RunCleanup | server/src/litellm/sync.js:227-239 | deletes exactly the stale rows |
| CatalogSync.Registry.RunRefresh | server/src/litellm/sync.js:241-284 | refreshes every row once |
| EvalRun.AggregatePermutes | server/src/eval/replay.js:29-80 | the summary, percentile and rates included, does not depend on the order of the entries |
| EvalRun.SummaryAddsUp | server/src/eval/replay.js:29-80 | entries are errored or scored, judged ones have one verdict and one severity, and the tallies add up to them |
| EvalRun.SummaryCounts | server/src/eval/replay.js:29-50 | an entry moves each count, and the tally of its severity, by its own field; one that errored moves only the errored count |
| EvalRun.SummarySums | server/src/eval/replay.js:52-80 | costs, mean latencies and the critical and format rates move by the entry's own fields |
| EvalRun.EmptySummary | server/src/eval/replay.js:29-80 | the summary of no entries |
| EvalRun.RatesInFields | server/src/eval/replay.js:40-75 | the gated worse rate weighs a trivial regression 0.3 and a critical one 3; the saving is positive iff the candidate is cheaper |
| EvalRun.LatencyWithin | server/src/eval/replay.js:58-78 | where every item with a baseline is between lo and hi slower, so are the mean and the 95th percentile of the regression |
| EvalRun.UncuratedRateIsRaw | server/src/eval/replay.js:40-45 | with every severity normal the weighted worse-rate is the raw one |
| EvalRun.RecomputeReproducesIff | server/src/eval/replay.js:298-327 | re-scoring reproduces the summary, without the items that had no messages, iff no failure was stored with an empty message; then every threshold answers as before |
| EvalRun.RescoredInFields | server/src/eval/replay.js:298-327 | a stored result is scored again with the human verdict before the judge's; one of an item that is gone counts as normal |
| EvalRun.SilentFailureComesBackScored | server/src/eval/replay.js:306-307 | one failure stored with an empty message: errored before, scored after |
| EvalRun.OverridesNeverFail | server/src/eval/replay.js:294-327 | human verdicts of better or equal never turn a passed run into a failed one |
| EvalRun.PercentileCovers | server/src/eval/replay.js:20-24 | at least p of every hundred values are at or below the percentile |
| EvalRun.SummaryPercentile | server/src/eval/replay.js:58-78 | the regression percentile of a summary is the 95th of the deltas of its items with a baseline |
| EvalRun.FailuresAreBroken | server/src/eval/thresholds.js:35-60 | the failures name every broken threshold and no other, each on its own figure and direction; passed iff there is none |
| EvalRun.EvaluateRun | server/src/eval/thresholds.js:35-60 | the list is built in the order of the checks, and the verdict is that all thresholds hold |
| EvalRun.ExecuteRun | server/src/eval/replay.js:161-248 | entries, stored results and cost of the items replayed, an answer whose judging throws being paid for and errored, stopping at the cost cap or a cancellation |
| EvalRun.ItemInFields | server/src/eval/replay.js:161-248 | one item: scored iff answered, judged and stored, an overturned worse counted as equal; paid for whenever it was answered |
| EvalRun.ItemsInOrder | server/src/eval/replay.js:161-248 | entries, stored results and cost grow item by item |
| EvalRun.CountBySeverity | server/src/eval/replay.js:46-50 | the breakdown has a tally for exactly the severities that were judged |
| Sampler.FirstsKeepEachPromptOnce | server/src/eval/dataset.js:44-55 | one record per prompt hash, none lost, each the earliest |
| Sampler.DedupeByPromptHash | server/src/eval/dataset.js:45-55 | the loop with its set of seen hashes keeps those records |
| Sampler.SampleTakesPrefixes | server/src/eval/dataset.js:59-77 | exactly min(target, n) records, of each stratum a prefix in order |
| Sampler.SampleIsFair | server/src/eval/dataset.js:57-77 | while a stratum has records left, no other has given more than one more |
| Sampler.SampleRepeatsNothing | server/src/eval/dataset.js:59-77 | no record is sampled more often than it occurs |
| Sampler.SampleKeepsPromptsDistinct | server/src/eval/dataset.js:45-77 | a sample of deduplicated records has no two equal prompt hashes |
| Sampler.StratifiedSample | server/src/eval/dataset.js:59-77 | bucketing and turn-taking on shifted queues give that sample |
| Sampler.TakeTurn | server/src/eval/dataset.js:72-74 | one turn over the queues, cut off where the target is reached |
| SemanticCache.DotBounded | server/src/routing/semanticCache.js:51-58 | dot^2 <= magA * magB as the loop accumulates them |
| SemanticCache.SimilarityBounded | server/src/routing/semanticCache.js:50-61 | similarity lies in [-1, 1] and is symmetric |
| SemanticCache.UnitRangeIff | server/src/routing/semanticCache.js:50-61 | it lies in [0, 1] iff the lengths differ or the dot product is not negative |
| SemanticCache.OppositesMeetBelowZero | server/src/routing/semanticCache.js:50-61 | it is not always in [0, 1] |
| SemanticCache.SelfSimilar | server/src/routing/semanticCache.js:50-61 | a vector's similarity to itself is 1 |
| SemanticCache.NothingInCommon | server/src/routing/semanticCache.js:50-61 | vectors of different lengths, empty ones and zero ones have similarity 0 |
| SemanticCache.CosineSimilarity | server/src/routing/semanticCache.js:51-61 | the loop computes the similarity |
| SemanticCache.LookupIsDetermined | server/src/routing/semanticCache.js:107-113 | a lookup has one answer, and reads null iff the threshold is at most -1 and no live entry is above it |
| SemanticCache.RunBounded | server/src/routing/semanticCache.js:116-143 | no run of set, get and clear leaves more than 1000 entries |
| SemanticCache.EntryIsRetained | server/src/routing/semanticCache.js:130-143 | an entry stays until it is cleared, found expired, or followed by a thousand more |
| SemanticCache.Store.Get | server/src/routing/semanticCache.js:88-114 | evicts the expired and returns the value of a most similar live entry at or above the threshold, or nothing |
| SemanticCache.Store.Set | server/src/routing/semanticCache.js:116-141 | appends the entry, dropping the oldest when full |
| SemanticCache.Store.EvictExpired | server/src/routing/semanticCache.js:82-86 | drops exactly the expired entries |
| SemanticCache.Store.Clear | server/src/routing/semanticCache.js:143-143 | empties the store |
| SseRelay.Relay | server/src/gateway/openaiCompat.js:326-361 | for every cutting of the stream the client gets exactly its text, and usage and response text are those of its complete lines |
| SseRelay.StreamTotals | server/src/gateway/openaiCompat.js:342-360 | the logged text is the pieces of the messages its lines carry, in order, and each count the last positive one of theirs |
| SseRelay.PayloadIff | server/src/gateway/openaiCompat.js:345-348 | a line carries payload p iff it is "data:" and p with white space around either |
| SseRelay.Drain | server/src/gateway/openaiCompat.js:343-360 | the inner loop folds the buffer's complete lines and leaves the rest |
| SseRelay.LinesAppend | server/src/gateway/openaiCompat.js:342-346 | complete lines and the rest of a text are those of its parts taken in turn |
| SseRelay.ParseOpenAISSE | clients/cli/src/wrap.js:46-60 | the whole-text parser as a fold over all lines |
| SseRelay.WrapIsRelayPlusTail | clients/cli/src/wrap.js:46-60 | on plain lines the two parsers differ by the unterminated tail and nothing else |
| SseRelay.TerminatedStreamsAgree | clients/cli/src/wrap.js:46-60 | on newline-terminated plain lines, cut anywhere, the token counts agree |
| SseRelay.UnterminatedLineIsLost | server/src/gateway/openaiCompat.js:344-346 | a last data line without its newline is counted by one and not by the other |
| JsonBlock.ParseJsonBlock | server/src/classify/classifier.js:180-193 | tries every block from right to left, none missed, and returns the first that parses, or null when none does |
| JsonBlock.TriesTopLevelBlocks | server/src/classify/classifier.js:178-193 | on balanced text those blocks are exactly the top-level ones |
| JsonBlock.OpeningStartsBlock | server/src/classify/classifier.js:180-193 | there, every brace opening outside all others starts one |
| JsonBlock.AnswerIsUnique | server/src/classify/classifier.js:180-193 | that description leaves one result |
| JsonBlock.BlockIsTriedIff | server/src/classify/classifier.js:180-193 | on any text a block is tried iff the braces after it cancel out |
| JsonBlock.StrayBraceHides | server/src/classify/classifier.js:180-193 | a closing brace after a block hides it from the scan |
| JsonBlock.LastBlockIsFound | server/src/classify/classifier.js:178-193 | an answer with brace-free text after its last block yields that block, whatever precedes it |
| CsvLine.ParseCsvLine | clients/cli/src/remote.js:14-38 | the index loop computes the specified fields |
| CsvLine.ParseInvertsPrint | clients/cli/src/remote.js:9-38 | the parser inverts every way of printing non-empty fields, each quoted or, where it needs no quotes, bare |
| CsvLine.ParseInvertsBothPrinters | clients/cli/src/remote.js:9-38 | in particular quoting always and quoting when needed (section 2 of RFC 4180) |
| CsvLine.OpenFieldRunsOut | clients/cli/src/remote.js:14-38 | a quoted field that is never closed runs to the end of the line |
| CsvLine.ParseCsv | clients/cli/src/remote.js:40-50 | splitting, header and rows as specified |
| CsvLine.LinesRejoin | clients/cli/src/remote.js:41-41 | splitting cuts at every line feed, with the return before it where there is one, and loses nothing else |
| CsvLine.TableInvertsExport | clients/cli/src/remote.js:40-50 | an export with either line ending reads back as one row per record, each value under its header |
| CsvLine.OneRowPerRecordIff | clients/cli/src/remote.js:40-50 | an export reads back with one row per record iff no record prints as an empty line |
| CsvLine.VanishingRecordIsLost | clients/cli/src/remote.js:41-41 | a record of one empty bare field is read as no record |

## Left out

- ReplicaDispatch.Proxy: one request whose awaits nothing interrupts; the stretches between awaits, in any interleaving, are the methods of `Server`.
- RoutePipeline.HandleChat: model calls without any model id (a custom default provider with no default model) are passed on as such; the two response caches are one lookup, and the response's shape, masking and token clamp are not modelled.
- RoutePipeline.KeysStayHome: the router object is taken to hold the snapshot's default keys; the signature by which it is rebuilt compares only part of a key.
- Connections.RunKeepsOneDefault: operations run one at a time; what interleavings keep is stated in `KeyWrites`.
- KeyWrites.ConcurrentSetsKeepOneIff: keys are added and made default at the same time; removals among them are covered by `InterleavingKeepsOneIff`, whose condition follows each key through the schedule.
- Connections.CredentialStore.SetCredential: aliases are taken as normalised and credentials as complete; the errors for unknown providers and missing fields come before any of this.
- CapEngine.OvershootBound: a request counts as unrecorded from the moment enforcement reads this cap's counter, because enforcement goes on to await other caps; failed counter writes and caps edited during a run are not modelled.
- CapEngine.BoundHoldsIffSteady: embeddings, realtime sessions and ingested reports are logged without enforcement and break the bound of any cap they match; they appear as `Unenforced` events of `OvershootBound`.
- RateLimit.MinuteBound: all requests of a key carry the same limit; the expiry of stored buckets is not modelled.
- EvalRun.RecomputeReproducesIff: sums and means are over reals, so rounding that depends on the order of addition is not modelled; the count of human overrides is left out of the summary.
- SemanticCache.SimilarityBounded: exact roots and real arithmetic; a rounded similarity may exceed 1 slightly.
- SseRelay.Relay: chunks are sequences of characters; UTF-8 decoding is not modelled.
- CatalogSync.Registry.Run: rounding of prices and the derived display label are parameters, and a failed insert of one row is the only insert failure.
- Ingest.Endpoint.HandleIngest: counting follows creation at once, without a crash or a failed write in between; timestamps are not modelled.
- Records written by one process while another crashes, and the database itself: collections are maps with a unique key and atomic updates.
- `reconcileFromAnalytics`: it sets calendar windows from rolling totals, so nothing clean holds across it.
- Classification, regular-expression tables, capability and price tables: parameters.
- Rule matching, canary bucketing and the cheap-task guardrail themselves: their results are parameters of the pipeline.
- The LangChain adapters, embeddings, realtime relay, sessions, encryption, dashboards and reports: plumbing.
- Rationale texts and evidence fields of the ranking, severity notes and cost estimates of an evaluation run: straight-line mappings.
