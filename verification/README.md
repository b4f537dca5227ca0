# ContAIned: verified models

ContAIned is a gateway for typed hubs (ingestion, agent, workflow, evaluation) in front of a GPU
inference server. This project models its stateful parts in Dafny and proves what they keep over
whole runs. `dafny verify dfyconfig.toml` checks everything.

| file | part of the system |
|---|---|
| `Options.dfy` | values that may be absent |
| `VramLru.dfy` | models under a VRAM budget as a recency list |
| `VramInclusion.dfy` | two managers with different budgets and clocks of their own: when one holds part of the other |
| `VramArbiter.dfy` | the arbiter as a state machine: registration while a load is in flight, loaders that raise |
| `VramTraces.dfy` | traces of requests as runs of the arbiter; what a failed load does to inclusion |
| `VramManager.dfy` | the class with its dict of timestamped slots, proved to refine that machine |
| `AgentRuntime.dfy` | the agent configuration cache, and its coherence with the database over all interleavings |
| `InferenceClient.dfy` | the retry loop and the circuit breaker |
| `RateLimiter.dfy` | the per-key minute limiter |
| `Login.dfy` | the login lockout |
| `Sessions.dfy` | session tokens, the revocation store, and the account operations that revoke |
| `Invites.dfy` | the invite life cycle, the sign-up paths that consume invites, the expiry sweep |
| `InviteAnswers.dfy` | each invite and sign-up operation by the rows it meets: who is answered what, and what changes |
| `HubRepository.dfy` | hubs, owners, slugs, links |
| `HubResolver.dfy` | cross-hub resolution, its link cache, and the listing of linked hubs |
| `ExternalModels.dfy` | resolving and listing `{hub_slug}/{agent_slug}` for an API key |
| `Litellm.dfy` | context truncation and model fallback |
| `Routes.dfy` | the frontend's hub path builders and their parser |
| `RoundRobin.dfy` | round-robin routing of prompts |

The stateful parts are classes with the fields of the code. Each method states its whole new state
as a function of the old one (`State() == Next(old(State()), ...)`), and the theorems are about runs
of these functions. Clocks, random tokens, UUIDs, password verdicts, HTTP replies and the token
counter are parameters.

Where the code and its documentation, or an expectation one may have of it, part ways, the model
follows the code:

- `parseHubRoute` says it expects an empty first path segment but never looks at it
  (`Routes.AcceptedIff`).
- `transfer_ownership` says the new owner is a member; any other active user becomes one
  (`HubRepository.TransferNeverHitsLastOwner`). A hub's `owner_id` can name someone who has left
  (`HubRepository.OwnerLeavesIff`), and hard deletion asks for `owner_id` only, so a hub can lose its
  last owner with the account (`HubRepository.StepKeepsOwnedIff`, `HubRepository.PurgeStrandsHub`).
- An initial link that fails is meant to be logged and skipped; its handler names a logger that the
  module does not define, so the request fails and the hub is not created (`HubRepository.CreationIff`).
- The limiter's comment speaks of a sliding window; it is a fixed one, and a 60-second window admits
  up to twice the limit; the windows that keep the limit are exactly the aligned ones
  (`RateLimiter.WindowKeepsLimitIff`).
- The unique index for open invites was dropped (migrations/versions/9505282eda4d_add_provider_credential.py:113),
  so only the code keeps one pending invite per email. It does, and also keeps none for an existing
  account, over these steps, except exactly when the first account ever signs in by OAuth over its own
  pending invite (`Invites.StepKeepsInvIff`). Two more places create accounts without looking for an
  invite and are no such steps: the owner row of `create_hub` (common/services/hub_repository.py:136-144)
  and the startup accounts (gateway/core/setup.py:118-151). Startup seeds an active admin under another email
  (gateway/core/setup.py:118-131), so that state needs the seeding to have failed or its account to
  have been removed.
- A sign-up that consumes an invite joins none of the hubs its preview shows
  (`Invites.OnlyRedemptionJoinsHubs`).
- A larger VRAM budget can hold less: a loader that raises, or an idle sweep after loads that took
  time, breaks the inclusion that holds otherwise (`VramTraces.FailedLoadBreaksInclusion`,
  `VramInclusion.SweepBreaksInclusion`).
- A sweep of expired invites is noticed by resends, issues and sign-ups that meet an overdue one
  (`Invites.ResendNoticesSweepIff` and the lemmas after it).
- Exceptions that the retry loop does not catch leave the breaker's clock alone, so an open breaker
  does not limit such calls (`InferenceClient.EscapesAreNotLimited`).
- A hard deletion that a foreign key refuses leaves the account and still revokes its tokens
  (`Sessions.RefusedDeletionSignsOut`).
- The admin floor counts soft-deleted admins (`Sessions.FloorCountsDeletedAdmins`).
- The revocation store lives in one process (`Sessions.RestartForgets`), and a token is determined by
  user, role and second of issue, so a sign-in in the second of a logout is refused
  (`Sessions.SignInAcceptedIff`).
- Agent cache keys join hub and agent with a colon; ids that contain colons collide
  (`AgentRuntime.EntriesCollideIff`).
- The external model queries do not look at the deletion flag (`ExternalModels.DeletedHubStillServesIff`),
  and the listing of linked hubs does not look at the source hub (`HubResolver.ListingAgreesIff`).

## Model

| member | source | states |
|---|---|---|
| VramLru.EvictIsShortestPrefix | inference/core/vram_manager.py:181-187 | eviction drops exactly the shortest least-recent prefix that makes room; with one fewer dropped the model would not fit |
| VramLru.EvictsAllIff | inference/core/vram_manager.py:181-187 | eviction empties the manager exactly when its most recent model alone does not fit beside the new one |
| VramLru.PlacedLastIff | inference/core/vram_manager.py:26-28 | a stamp puts its model at the recent end exactly when it is later than the latest one, or ties with it and was inserted later, as `min` over a dict breaks ties |
| VramLru.ApplyKeepsOrder | inference/core/vram_manager.py:96-219 | whatever the clock reads, each request leaves the models ordered by age with distinct names and positions |
| VramInclusion.EvictInclusion | inference/core/vram_manager.py:181-187 | evicting for the same model under a smaller budget leaves a more recent part |
| VramInclusion.RequestIff | inference/core/vram_manager.py:107-160 | one request, each loader returning or raising: the smaller manager's models stay the most recent part of the larger one's exactly under a condition on what is loaded, which loader succeeds and whether eviction empties the smaller manager |
| VramInclusion.SweepIff | inference/core/vram_manager.py:206-219 | an idle sweep, each manager by its own clock, keeps the inclusion exactly when every model it leaves the smaller manager it leaves the larger one too |
| VramInclusion.StepIff | inference/core/vram_manager.py:96-219 | both, and unloading, for managers with clocks of their own |
| VramInclusion.InsideThroughoutIff | inference/core/vram_manager.py:96-219 | over any trace the inclusion holds at every moment exactly when every step meets its condition |
| VramInclusion.InsideMeansFewerLoads | inference/core/vram_manager.py:107-160 | and then the larger budget never calls a loader more often |
| VramInclusion.LargerBudgetIncludesSmaller | inference/core/vram_manager.py:96-187 | with independent clocks, any sizes, successful loaders and no idle sweep nothing more is asked: the models under a smaller budget are the most recent part of those under a larger one, which never loads more often |
| VramInclusion.SharedReadingsKeepInside | inference/core/vram_manager.py:96-219 | if loads take no time, so that both managers read the same clock, idle sweeps are covered as well, and the larger budget never loads more often |
| VramInclusion.SweepBreaksInclusion | inference/core/vram_manager.py:206-219 | a trace from the start in which a slow cold load lets an idle sweep keep a model in the smaller manager only |
| VramArbiter.RemovalKeepsInv | inference/core/vram_manager.py:173-219 | whichever models are removed, accounting, order and cold-start balance hold |
| VramArbiter.TouchKeepsInv | inference/core/vram_manager.py:108-116 | serving a loaded model keeps the invariant and moves only its time stamp |
| VramArbiter.EvictionKeepsInv | inference/core/vram_manager.py:118-125 | after eviction the model about to load fits, or it will be the only one |
| VramArbiter.ReturnKeepsInv | inference/core/vram_manager.py:154-160 | inserting with the size read before the load keeps the budget, whatever was re-registered meanwhile |
| VramArbiter.NextKeepsInv | inference/core/vram_manager.py:83-219 | every step keeps the invariant: register, request, load returned or raised, unload, sweep |
| VramArbiter.BudgetSafety | inference/core/vram_manager.py:83-219 | in every reachable state used VRAM is within budget or one model is loaded, every loaded model has a loader and a semaphore, and cold loads of a name are its removals plus one if it is loaded |
| VramArbiter.LastRegistrationCounts | inference/core/vram_manager.py:83-116 | over any run a model's size and its semaphore's permits are those of its last registration |
| VramTraces.TraceIsRun | inference/core/vram_manager.py:96-219 | every trace of requests is a run of the arbiter: a cold request is its request step and the return or the failure of its loader |
| VramTraces.FailedLoadKeepsIff | inference/core/vram_manager.py:124-156 | a load that raises under the smaller budget keeps the inclusion exactly when the larger manager has the model cold too, or eviction left the smaller one empty |
| VramTraces.FailedLoadBreaksInclusion | inference/core/vram_manager.py:124-156 | two runs from the start with the same requests and one load that raises, after which the smaller manager holds a model that the larger one has lost |
| VramManager.SlotSumIsUsed | inference/core/vram_manager.py:189-192 | summing the dict in any order gives the list's total |
| VramManager.PopRefines | inference/core/vram_manager.py:184-185 | popping a slot of least time stamp is dropping the head of the recency list |
| VramManager.RemovalRefines | inference/core/vram_manager.py:173-178 | deleting a key is removing its model from the list |
| VramManager.PlaceRefines | inference/core/vram_manager.py:184 | a key put into the dict with any stamp is its model placed by age in the list |
| VramManager.InsertionRefines | inference/core/vram_manager.py:158-160 | inserting a new slot is placing its model, at the next insertion position |
| VramManager.TouchRefines | inference/core/vram_manager.py:26-28 | restamping a slot, to any time, is moving its model in the list |
| VramManager.SweepRefines | inference/core/vram_manager.py:206-219 | dropping idle slots from the dict is dropping idle models from the list |
| VramManager.EvictedAreOlder | inference/core/vram_manager.py:181-187 | every evicted slot is older than every surviving one |
| VramManager.EvictionIsMinimal | inference/core/vram_manager.py:181-187 | the survivors leave room or none survives, and with the last evicted slot put back the model would not fit |
| VramManager.VRAMManager.constructor | inference/core/vram_manager.py:66-74 | the empty manager meets the invariant |
| VramManager.VRAMManager.RegisterLoader | inference/core/vram_manager.py:83-94 | replaces loader and semaphore, touches no slot, also while a load is in flight |
| VramManager.VRAMManager.UsedMb | inference/core/vram_manager.py:189-192 | the sum over all slots |
| VramManager.VRAMManager.LeastRecentlyUsed | inference/core/vram_manager.py:184 | the slot of least time stamp, the first inserted of several |
| VramManager.VRAMManager.EvictToFit | inference/core/vram_manager.py:181-187 | the loop terminates with the list cut to its shortest fitting form, surviving slots untouched |
| VramManager.VRAMManager.Touch | inference/core/vram_manager.py:26-28 | restamps the slot and moves its model accordingly, sizes unchanged |
| VramManager.VRAMManager.BeginEnsure | inference/core/vram_manager.py:107-125 | serves a loaded model behind its current semaphore, refuses an unregistered one, else evicts and starts the load |
| VramManager.VRAMManager.InsertSlot | inference/core/vram_manager.py:158-160 | adds the slot at the next insertion position |
| VramManager.VRAMManager.FinishLoad | inference/core/vram_manager.py:154-171 | records the cold start and inserts the model by its stamp, with the size read before the load |
| VramManager.VRAMManager.RecordColdStart | inference/core/vram_manager.py:237-240 | appends to the model's cold starts only |
| VramManager.VRAMManager.AbortLoad | inference/core/vram_manager.py:154 | a loader that raises leaves the evictions made and nothing else |
| VramManager.VRAMManager.Unload | inference/core/vram_manager.py:173-179 | removes that model, or nothing |
| VramManager.VRAMManager.CleanupIdle | inference/core/vram_manager.py:206-219 | removes exactly the models idle for longer than the timeout |
| AgentRuntime.EvictReaches | common/services/agent_runtime.py:44-51 | evicting hub h reaches an entry of another hub exactly when one id continues the other with a colon |
| AgentRuntime.KeysOfColonFreeHubs | common/services/agent_runtime.py:33-51 | for colon-free hub ids keys are injective and the eviction prefix selects exactly that hub |
| AgentRuntime.EntriesCollideIff | common/services/agent_runtime.py:33-34 | two different agents can share an entry exactly when one hub id continues the other with a colon |
| AgentRuntime.ReloadedFields | common/services/agent_runtime.py:70-86 | a reloaded entry shows the row field by field, absent lists as empty ones, and no other entry changes |
| AgentRuntime.AgentRuntimeManager.GetAgent | common/services/agent_runtime.py:36-38 | the entry under the key, if any |
| AgentRuntime.AgentRuntimeManager.SetAgentInCache | common/services/agent_runtime.py:40-42 | replaces that entry only |
| AgentRuntime.AgentRuntimeManager.PopAll | common/services/agent_runtime.py:48-49 | the loop pops exactly the collected keys |
| AgentRuntime.AgentRuntimeManager.PurgeHub | common/services/agent_runtime.py:44-51 | removes exactly the entries under the prefix and returns how many |
| AgentRuntime.AgentRuntimeManager.FinishReload | common/services/agent_runtime.py:53-87 | stores the row read, with empty lists for absent ones, or removes the entry of a missing row |
| AgentRuntime.AgentRuntimeManager.HandleSyncEvent | common/services/agent_runtime.py:89-111 | what each action does to the cache, and which ones go on to reload |
| CacheCoherence.TakeKeepsAccount | common/clients/redis.py:93-100 | taking any message keeps every stale entry accounted for |
| CacheCoherence.NextKeepsInv | gateway/api/agent_crud.py:151-154 | commit, publish, injected message, take, read and write each keep: a stale entry has an event or reload to come |
| CacheCoherence.CoherentOnceQuiet | common/services/agent_runtime.py:53-111 | over every interleaving a stale entry has an unprocessed event or an in-flight reload; once all are handled every cached entry is its row and no deleted agent is cached |
| CacheCoherence.ListenerDrains | common/clients/redis.py:85-102 | from every reachable world with nothing left to publish the listener takes at most `Work` steps in any order, and when it can take no more the world is quiet and the cache coherent |
| CacheCoherence.StaleStays | common/services/agent_runtime.py:89-111 | a stale entry with no reload under way stays stale until a commit of its row, an event about it or its hub's eviction |
| CacheCoherence.FirstLoadCaches | common/services/agent_runtime.py:53-111 | from an empty start, a created agent whose event is published, taken and handled is cached as its row, with nothing left to do |
| CacheCoherence.LostEventLeavesStale | common/clients/redis.py:72-82 | so after that start and one swallowed publish of an update the old entry is served through any run without such a step |
| InferenceClient.InferenceClient.constructor | common/clients/inference.py:47-52 | a new client's breaker is closed |
| InferenceClient.InferenceClient.Conclude | common/clients/inference.py:98-133 | a reply that is not retried resets the breaker, leaves it alone or counts as a failure |
| InferenceClient.InferenceClient.Retry | common/clients/inference.py:80-133 | the loop's outcome, the times it sends at and the breaker it leaves, for any replies |
| InferenceClient.InferenceClient.ExecuteRequestWithRetry | common/clients/inference.py:67-133 | an open breaker in its cooldown blocks the call; otherwise it is the loop |
| InferenceClient.RetrySchedule | common/clients/inference.py:80-120 | at most four attempts, each sent 1, 2, then 4 seconds after the previous one ended |
| InferenceClient.AnswerOfCall | common/clients/inference.py:80-133 | connection trouble and status 502, 503 and 504 are retried, three times at most; the first other reply ends the call, returned whatever its status, escaping, or failing at once |
| InferenceClient.RefusedIff | common/clients/inference.py:71-92 | a call is blocked exactly within 30 seconds of an open breaker's last failure; it sends nothing then, or for an unsupported verb |
| InferenceClient.CounterIsTrailingFailures | common/clients/inference.py:98-130 | over any run the counter is the trailing number of failed unblocked calls, and the breaker is open exactly when it is at least five |
| InferenceClient.OpenBound | common/clients/inference.py:71-78 | until a given time an open breaker lets four attempts through per 30 seconds since its last failure, and four per call left by an uncaught exception |
| InferenceClient.OpenBreakerRate | common/clients/inference.py:71-133 | one caller, breaker open, no response: any window of length L sees at most 4 * (floor(L / 30) + 1) attempts, plus four for each call with attempts in the window that an uncaught exception left |
| InferenceClient.EscapesAreNotLimited | common/clients/inference.py:103-133 | the second term is needed: calls left by an uncaught exception are not limited, any number of attempts in one instant |
| RateLimiter.APIKeyMiddleware.Dispatch | gateway/auth/api_key_middleware.py:85-159 | one request: the key, its use, the stored counter and the decision, Redis answering or not |
| RateLimiter.AnswerOfRequest | gateway/auth/api_key_middleware.py:67-159 | over any run of requests and key changes, Redis acting within 30 s: a missing or inactive key is refused; else a request is admitted exactly when fewer than its limit of the key's earlier requests in its minute were counted, `remaining` is what is then left, and both answers name the start of the next minute |
| RateLimiter.CounterIsExact | gateway/auth/api_key_middleware.py:122-138 | the counter seen is one plus the key's earlier requests in that minute: the 90 s expiry never drops it, if Redis runs within 30 s of the clock reading |
| RateLimiter.CounterIsExactIff | gateway/auth/api_key_middleware.py:122-138 | whatever the delays, the counter seen is exact exactly when no increment of that key and minute came 90 seconds or more after the one before it |
| RateLimiter.LateIncrementRestartsCounter | gateway/auth/api_key_middleware.py:134-135 | 31 seconds of delay are enough for the counter to restart inside its minute |
| RateLimiter.FirstLimitAdmitted | gateway/auth/api_key_middleware.py:142-159 | exactly the first `limit` requests of a key in a minute are admitted |
| RateLimiter.AdmittedPerMinute | gateway/auth/api_key_middleware.py:122-159 | a minute admits min(limit, requests) |
| RateLimiter.RemainingIsLeft | gateway/auth/api_key_middleware.py:124-138 | of the key's requests that follow in the minute exactly `remaining` are admitted, if so many come |
| RateLimiter.SlidingWindowBound | gateway/auth/api_key_middleware.py:121-159 | any 60 second window admits at most twice the limit |
| RateLimiter.UnalignedWindowIsTight | gateway/auth/api_key_middleware.py:121-159 | in every window that does not start with a minute some history admits twice the limit |
| RateLimiter.WindowKeepsLimitIff | gateway/auth/api_key_middleware.py:121-159 | a 60 second window never admits more than the limit exactly when it starts with a minute, or the limit is 0 |
| Login.LoginService.LoginUser | gateway/auth/routes.py:466-525 | the answer to one attempt and the committed row: an expired lock clears the count, a locked or barred attempt commits nothing |
| Login.AnswerIff | gateway/auth/routes.py:477-519 | who logs in, is locked out, rejected or barred, each exactly when: only the right password of an active account that is not deleted and not locked logs in |
| Login.LoginClearsFailures | gateway/auth/routes.py:486-525 | after a login the next four wrong passwords set no lock, whatever comes between |
| Login.WrongPasswordsNeverIn | gateway/auth/routes.py:492-501 | no run of wrong passwords logs in |
| Login.RowRecordsStreak | gateway/auth/routes.py:477-525 | over any history the row holds the number of rejections since the last login or the last five, and a lock exactly until 15 minutes after the fifth |
| Login.LockedIffFiveFailures | gateway/auth/routes.py:477-497 | over any history the lock is set exactly when five failures are counted |
| Login.RejectionsSitOutLocks | gateway/auth/routes.py:477-501 | the j-th rejection from any state has sat out one lock per five failures |
| Login.LockoutBound | gateway/auth/routes.py:474-525 | without a successful login n attempts answered 401 span at least 15 * floor((n - 1) / 5) minutes |
| Sessions.AuthService.Authenticate | gateway/auth/resolver.py:102-155 | a token passes when it is in date and not revoked and, if the database answers, its user exists, is active and not deleted |
| Sessions.AuthenticatesIff | gateway/auth/resolver.py:102-155 | in date, not revoked and, if the database answers, of an account that exists, is active and is not deleted |
| Sessions.AuthService.RevokeTokensOf | gateway/auth/utils.py:119-125 | every selected session's token enters the store, none other |
| Sessions.AuthService.RevokeSessions | gateway/auth/utils.py:109-132 | the user's sessions but the kept one end, their tokens are revoked, and the count is returned |
| Sessions.AuthService.AddSession | gateway/auth/routes.py:537-549 | a sign-in stores one session for the token it returns |
| Sessions.AuthService.LogOut | gateway/auth/routes.py:366-386 | revokes the presented token and all sessions of the user |
| Sessions.AuthService.SetPassword | gateway/auth/routes.py:560-602 | refuses without a password login, with a wrong password, or with a new one against the policy; else ends all other sessions |
| Sessions.AuthService.UpdateUser | gateway/api/admin_users.py:348-394 | a demotion is guarded and revokes; a promotion does neither |
| Sessions.AuthService.ApproveUser | gateway/api/admin_users.py:396-462 | only a pending user becomes active, with the role and the hub memberships given; an invalid role or grant leaves everything as it was |
| Sessions.AuthService.JoinHubs | gateway/api/admin_users.py:429-457 | the loop adds the grants in order, or none of them if one is invalid |
| Sessions.AuthService.RejectUser | gateway/api/admin_users.py:485-533 | only a pending user is rejected, and loses all sessions |
| Sessions.AuthService.SuspendUser | gateway/api/admin_users.py:536-577 | the guards in their order, then suspension with revocation |
| Sessions.AuthService.ReinstateUser | gateway/api/admin_users.py:580-614 | only a suspended user is reinstated; no token comes back |
| Sessions.AuthService.DeleteUser | gateway/api/admin_users.py:617-685 | soft or hard by flag and current state, guarded, with revocation; a hard deletion takes the memberships with it, or is refused at the commit for the owner of a closed hub |
| Sessions.AuthService.DeleteOwnAccount | gateway/auth/routes.py:204-224 | soft deletion with revocation, not for the local admin |
| Sessions.RevokeMoves | gateway/auth/utils.py:109-132 | exactly the user's own live tokens but the kept one move from the table to the store |
| Sessions.StepMoves | gateway/auth/utils.py:98-132 | one step moves a live token to the store exactly if it revokes that user's tokens and does not keep this one |
| Sessions.IssuedIsAccountedFor | gateway/auth/utils.py:95-132 | over any run the store only grows and every token issued is in the table or in the store |
| Sessions.EarlierTokensStayRevoked | gateway/auth/utils.py:95-132 | after logout, demotion, rejection, suspension, deletion or password change every earlier token of the user but the kept one is refused for the rest of the run, also when the database does not answer |
| Sessions.SurvivesIffSpared | gateway/auth/utils.py:109-132 | a live token survives a run exactly when no step revoked its user's tokens without keeping it |
| Sessions.SignInAcceptedIff | gateway/auth/utils.py:25-52 | a new token is accepted exactly when the same claims were not revoked before: one second, one token |
| Sessions.RestartForgets | gateway/auth/utils.py:95-106 | a logged-out token of an active account is accepted again after a restart |
| Sessions.ActivatesIff | gateway/api/admin_users.py:396-614 | an account becomes active exactly by reinstatement, approval or registration |
| Sessions.InactiveIsShutOut | gateway/auth/resolver.py:133-150 | after a suspension or rejection no token of the user authenticates while the database answers, restarts or not, until the account is made active again |
| Sessions.DeletedIsShutOut | gateway/auth/resolver.py:128-137 | after a deletion, soft or hard, none ever does, unless the id is registered anew |
| Sessions.LogoutEffect | gateway/auth/routes.py:366-386 | all sessions of the user end and the token presented is refused, in the table or not |
| Sessions.PasswordChangeIff | gateway/auth/routes.py:560-602 | each refusal exactly when, in their order; success ends all sessions but the current one and changes nothing else |
| Sessions.RoleChangeIff | gateway/api/admin_users.py:348-394 | only demotions are refused, of oneself and of the last active admin, and only they end sessions |
| Sessions.RejectionIff | gateway/api/admin_users.py:485-533 | exactly a pending account is rejected, and signed out |
| Sessions.SuspensionIff | gateway/api/admin_users.py:536-577 | each refusal exactly when, the admin guard before the look-up of the row; success signs out |
| Sessions.ReinstatementIff | gateway/api/admin_users.py:580-614 | exactly a suspended account is reinstated; sessions and store stay as they are |
| Sessions.DeletionIff | gateway/api/admin_users.py:617-685 | each refusal exactly when; hard exactly if asked or already deleted, taking row and memberships, else only the mark is set |
| Sessions.SelfDeletionIff | gateway/auth/routes.py:204-224 | anybody but the local admin, once |
| Sessions.RefusedDeletionSignsOut | gateway/api/admin_users.py:649-663 | a hard deletion refused at the commit leaves account, memberships and sessions, and of the tokens that were accepted refuses exactly those sessions' |
| Sessions.GrantsJoin | gateway/api/admin_users.py:429-457 | the grants of an approval add exactly the memberships they name; an existing one keeps its role |
| Sessions.FirstGrantCounts | gateway/api/admin_users.py:443-457 | of several grants for one hub the first counts |
| Sessions.ApprovalIff | gateway/api/admin_users.py:408-462 | an approval succeeds exactly for a pending account with a valid role or none and valid grants, is all or nothing, and puts the account in every hub granted |
| Sessions.FloorKept | gateway/api/admin_users.py:183-202 | over any run some row is an active admin |
| Sessions.FloorCountsDeletedAdmins | gateway/api/admin_users.py:185-194 | but the last admin who can sign in can be lost: a self-deletion, then a suspension |
| Sessions.LiveAdminRemainsIff | gateway/api/admin_users.py:183-202 | a demotion, suspension or deletion leaves an admin who can sign in exactly when another one existed |
| Invites.InviteService.AddInvite | gateway/auth/invites.py:141-211 | an email with an account or an open invite is refused, else one pending invite is added |
| Invites.InviteService.ValidateGrants | gateway/auth/invites.py:101-125 | accepts exactly the lists in which every grant names an open hub and a hub role |
| Invites.InviteService.AddInvites | gateway/auth/invites.py:141-211 | one result per email, in order |
| Invites.InviteService.CreateInvites | gateway/auth/invites.py:81-212 | 422 for a bad role or grant, else one result per distinct email in order |
| Invites.Deduplicate | gateway/auth/invites.py:134-135 | the distinct non-empty emails in order of first occurrence |
| Invites.InviteService.ListOpenGrants | gateway/auth/invites.py:250-266 | the grants whose hub exists and is not archived, in order |
| Invites.InviteService.GetInvitePreview | gateway/auth/invites.py:215-274 | shown, or 404 or 409, by the invite the token is on |
| Invites.InviteService.RedeemInvite | gateway/auth/invites.py:277-399 | the checks in their order; success adds the account, its memberships and closes the invite |
| Invites.InviteService.ResendInvite | gateway/auth/invites.py:402-446 | rotates token and expiry of a pending invite and counts the resend, else 404 |
| Invites.InviteService.RevokeInvite | gateway/auth/invites.py:449-475 | closes a pending invite, else 404 |
| Invites.InviteService.SweepExpiredInvites | gateway/auth/invites.py:478-495 | marks exactly the pending invites past their expiry and counts them |
| Invites.InviteService.RegisterUser | gateway/auth/routes.py:395-456 | silent for an existing account; else creates one and consumes its pending invite, however old |
| Invites.InviteService.ResolveSignup | gateway/auth/signup_service.py:15-51 | status, role and invite for an email that signs up |
| Invites.InviteService.AddResolvedAccount | gateway/auth/identities.py:188-269 | bootstrap admin, invited account or approval rule, with what each does to the pending invite |
| Invites.InviteService.ResolveIdentity | gateway/auth/identities.py:124-269 | known identity, then known email, then a new account |
| Invites.CreateEachKeeps | gateway/auth/invites.py:141-211 | issuing any number of invites in one call keeps the invariant |
| Invites.RedeemKeeps | gateway/auth/invites.py:277-399 | redemption keeps it and never meets an existing account |
| Invites.ResolveKeepsIff | gateway/auth/identities.py:188-237 | OAuth sign-in keeps it exactly when it does not bootstrap over a pending invite |
| Invites.StepKeepsInvIff | gateway/auth/invites.py:135-185 | every step keeps: at most one pending invite per email, none for an email with an account, tokens distinct; except exactly that bootstrap |
| Invites.BootstrapLeavesInviteOpen | gateway/auth/identities.py:198-209 | the instance: the invited founder signs in, the invite stays pending and can no longer be redeemed |
| Invites.EstablishedIsSafe | gateway/auth/identities.py:198-209 | once a non-system account exists and none is purged the invariant holds for good |
| Invites.ConsumptionMakesOneAccount | gateway/auth/invites.py:329-383 | an invite is consumed together with exactly one new account for its email; by redemption only with its current token and before expiry |
| Invites.OnlyRedemptionJoinsHubs | gateway/auth/routes.py:422-454 | no step but a redemption adds memberships: signing up consumes the invite without its hub grants |
| Invites.ConsumedAtMostOnce | gateway/auth/invites.py:293-383 | over any run an invite is consumed once if it ends up accepted, else never |
| Invites.ResendRetiresToken | gateway/auth/invites.py:415-423 | after a resend the earlier token never previews or redeems again |
| Invites.PreviewMatchesRedemption | gateway/auth/invites.py:215-383 | the preview is shown exactly when the invite's email could redeem, with the role and memberships redemption gives |
| Invites.SweepIsUnobservable | gateway/auth/invites.py:478-495 | in any run of any steps, inserting sweeps anywhere leaves every answer but those of revocations the same, as long as no resend, sign-up or issue meets an invite that an inserted sweep has marked |
| Invites.SweepIsUnobservableToQueries | gateway/auth/invites.py:225-244 | and among previews, redemptions, revocations, archivals, purges and sweeps none does, so no preview and no redemption ever notices |
| Invites.ResendNoticesSweepIff | gateway/auth/invites.py:408-413 | a resend of an open invite notices a sweep exactly when the invite was overdue |
| Invites.RevivalNoticesSweepIff | gateway/auth/invites.py:408-420 | and exactly then the link it would have revived stays closed |
| Invites.IssueNoticesSweepIff | gateway/auth/invites.py:154-168 | issuing for a free email with an open invite notices a sweep exactly when that invite was overdue |
| Invites.RegistrationNoticesSweepIff | gateway/auth/signup_service.py:27-36 | a registration with an open invite makes a different account after a sweep exactly when the invite was overdue and gives more than the approval rule would |
| Invites.OAuthNoticesSweepIff | gateway/auth/identities.py:188-221 | the same for a sign-up by OAuth |
| InviteAnswers.IssueIff | gateway/auth/invites.py:94-135 | issuing is refused as a whole exactly for a role that is none, or a grant without an open hub or a hub role |
| InviteAnswers.EachAsIfAlone | gateway/auth/invites.py:141-211 | of several emails each is answered as if it were alone: refused exactly if it has an account or a pending invite, else given a new pending invite |
| InviteAnswers.EmailsInOrder | gateway/auth/invites.py:134-135 | distinct emails keep the order of their first occurrence |
| InviteAnswers.OpenGrantsOfTwo | gateway/auth/invites.py:250-266 | grants of closed hubs drop out one by one, the order stays |
| InviteAnswers.PreviewIff | gateway/auth/invites.py:215-274 | shown exactly for a pending invite in time, 409 for an accepted one, 404 for the others |
| InviteAnswers.RedemptionIff | gateway/auth/invites.py:277-327 | each refusal exactly when, in their order; redeemed exactly by the right email, in time, with a good password |
| InviteAnswers.RedemptionEffect | gateway/auth/invites.py:329-399 | one active account of the invite's role, one identity, one membership per open grant, and the invite closed by it |
| InviteAnswers.UnknownTokenIsRefused | gateway/auth/invites.py:215-293 | a token that no invite holds opens nothing |
| InviteAnswers.ResendAndRevokeIff | gateway/auth/invites.py:402-475 | exactly pending invites are resent or revoked, and nothing else changes |
| InviteAnswers.SweepIff | gateway/auth/invites.py:478-495 | exactly the pending invites past their expiry are marked, and they are counted |
| InviteAnswers.RegistrationIff | gateway/auth/routes.py:395-456 | each refusal exactly when; a known email changes nothing; a new one is admitted as its pending invite, its domain or neither says |
| InviteAnswers.OAuthIff | gateway/auth/identities.py:124-269 | the known identity's user, else the email's user with the identity added, else a new account |
| InviteAnswers.OAuthAccount | gateway/auth/identities.py:188-237 | which is admitted as by registration, but the first one is an active admin and leaves its invite pending |
| HubRepository.HubStore.Create | common/services/hub_repository.py:107-181 | refuses a live slug, takes a deleted hub's slug from it, enrols the resolved owner and stores the initial links, or does none of it when a link fails |
| HubRepository.HubStore.AddInitialLinks | common/services/hub_repository.py:168-177 | the loop stores the links in order up to the first that fails |
| HubRepository.HubStore.AddLink | common/services/hub_repository.py:352-384 | stores or overwrites a link between two hubs that are not deleted, in an allowed direction |
| HubRepository.HubStore.Update | gateway/api/hubs.py:272-306 | the slug of an ingestion hub with datastores is locked; otherwise the slug changes under the rules of a creation and every detail given replaces the old one |
| HubRepository.HubStore.Amend | common/services/hub_repository.py:209-218 | replaces the details given and no others |
| HubRepository.HubStore.Archive | common/services/hub_repository.py:224-231 | sets the flag of a hub that is not deleted |
| HubRepository.HubStore.DeleteIfEmpty | common/services/hub_repository.py:234-263 | soft deletion under a suffixed slug, refused for an unforced non-empty hub |
| HubRepository.HubStore.Upsert | common/services/hub_repository.py:290-316 | sets a role unless it demotes the last owner |
| HubRepository.HubStore.Remove | common/services/hub_repository.py:319-331 | removes a member unless it is the last owner |
| HubRepository.HubStore.AddMember | gateway/api/hubs.py:390-439 | only owners and platform admins grant ownership, only to active non-members |
| HubRepository.HubStore.UpdateRole | gateway/api/hubs.py:442-491 | the route's checks in their order, then the upsert |
| HubRepository.HubStore.RemoveFromHub | gateway/api/hubs.py:494-542 | oneself, or a maintainer removing another; never the last owner |
| HubRepository.HubStore.Transfer | gateway/api/hubs.py:545-597 | promotes the target, names it owner, demotes the caller unless told not to |
| HubRepository.HubStore.Purge | gateway/api/admin_users.py:635-663 | the hard deletion of an account: refused for the `owner_id` of any hub, else takes the memberships with it |
| HubRepository.HubStore.CreateLink | gateway/api/hubs.py:683-724 | stores a link that passed validation and did not exist |
| HubRepository.HubStore.UpdateLink | gateway/api/hubs.py:727-755 | changes an existing link's access level only |
| HubRepository.HubStore.DeleteLink | gateway/api/hubs.py:758-784 | removes that link only |
| HubRepository.MembershipKeepsOwner | common/services/hub_repository.py:290-331 | no upsert or removal takes a hub's last owner |
| HubRepository.CreationIff | common/services/hub_repository.py:107-181 | a creation succeeds exactly when the slug is free and every initial link goes to a hub that is not deleted, in an allowed direction; otherwise nothing changes |
| HubRepository.CreationEffect | common/services/hub_repository.py:107-181 | the hub as requested; owned by the requested owner, or if there is no such account by an admin, or if there is none by a new admin account; that owner's membership is the only one added; each target linked at the level last given |
| HubRepository.StepKeepsOwnedIff | gateway/api/admin_users.py:635-663 | after any step every hub that is not deleted has an owner, exactly unless the step hard-deletes the only owner of one |
| HubRepository.StepKeepsSlugs | common/services/hub_repository.py:107-263 | given fresh suffixes any step keeps slugs unique per type, deleted hubs included |
| HubRepository.StepKeepsLinks | common/services/hub_resolver.py:288-312 | any step keeps every link direction-checked and no self-link |
| HubRepository.RunKeepsSlugsAndLinks | common/services/hub_repository.py:107-387 | both over every run |
| HubRepository.RunKeepsOwnedIff | common/services/hub_repository.py:107-331 | every hub that is not deleted has an owner at each point of a run exactly when no hard deletion on the way takes an only owner |
| HubRepository.PurgeStrandsHub | migrations/versions/a6b1c2d3e4f5_v6_hub_tenancy_stage1_additive.py:64-82 | any hub can come to that: its founder makes somebody an owner and leaves, and that account is hard-deleted |
| HubRepository.TransferNeverHitsLastOwner | gateway/api/hubs.py:545-597 | a transfer succeeds exactly for another active user, never stops on the last-owner rule, and leaves `owner_id` an owner |
| HubRepository.UpdateIff | gateway/api/hubs.py:272-306 | not found, slug locked, slug in use, each exactly when |
| HubRepository.UpdateEffect | common/services/hub_repository.py:184-221 | what is absent stays, what is given replaces; other hubs stay, but for a deleted one that gives up the slug |
| HubRepository.ArchiveAndDeleteIff | common/services/hub_repository.py:224-263 | each answer exactly when; the archive flag, or the deletion flag and the suffixed slug, and nothing else |
| HubRepository.MembershipGuards | common/services/hub_repository.py:290-331 | an upsert or a removal fails exactly when it takes the role of the only owner; removing no member does nothing |
| HubRepository.AddingIff | gateway/api/hubs.py:390-439 | each refusal exactly when, in their order; one membership is added |
| HubRepository.RoleUpdateIff | gateway/api/hubs.py:442-491 | each refusal exactly when; 409 exactly for demoting the only owner |
| HubRepository.RemovalIff | gateway/api/hubs.py:494-542 | each refusal exactly when; oneself or, for a maintainer, anybody but the only owner |
| HubRepository.PurgeIff | gateway/api/admin_users.py:635-663 | an account is hard-deleted exactly if no hub names it in `owner_id`, with its memberships |
| HubRepository.LinkCreationIff | common/services/hub_resolver.py:278-328 | each refusal exactly when, in their order; by a platform admin, or a maintainer of the source who contributes to the target |
| HubRepository.LinkChangeIff | gateway/api/hubs.py:727-784 | exactly an existing link is changed or deleted, and no other |
| HubRepository.OwnerLeavesIff | gateway/api/hubs.py:494-542 | an owner can leave exactly when the hub has another one, also the user whom `owner_id` names |
| HubRepository.DeletedSlugReusable | common/services/hub_repository.py:111-126 | a creation with a just-deleted hub's slug is never refused for its slug |
| HubResolver.ResolveLinked | common/services/hub_resolver.py:76-171 | with any cache or none: no row, or same hub, or what the hubs and the link seen allow, a cached link going before the stored one; a link looked up is remembered |
| HubResolver.ConsistentCacheIsInvisible | common/services/hub_resolver.py:146-153 | with a cache consistent with the store that is no row, or same hub, or what `assert_link` says, and the cache stays consistent |
| HubResolver.ResolveLinkedMany | common/services/hub_resolver.py:174-195 | a batch equals uncached single resolutions, or aborts with the first that fails |
| HubResolver.CheckLink | common/services/hub_resolver.py:198-245 | passes only between two live, different hubs, in an allowed direction, over a stored link of sufficient access |
| HubResolver.LookupIff | common/services/hub_resolver.py:30-125 | which table each resource type is looked up in, collections in one of two; unknown types |
| HubResolver.AssertionIff | common/services/hub_resolver.py:198-245 | each refusal exactly when, in their order |
| HubResolver.ResolutionIff | common/services/hub_resolver.py:76-171 | found exactly when the row looked up belongs to the source, or to a hub the source may be asserted to |
| HubResolver.OnlyDirectLinkMatters | common/services/hub_resolver.py:76-171 | the outcome depends on no link but the direct one |
| HubResolver.StaleEntryOutlivesRevocation | common/services/hub_resolver.py:146-161 | after a link is deleted a resolution that used it still finds the row exactly when the link is in the cache |
| HubResolver.CreatedLinkIsAsserted | common/services/hub_resolver.py:206-245 | a created link is asserted at exactly the levels it satisfies, and refused once deleted |
| HubResolver.ListLinkedHubIds | common/services/hub_resolver.py:248-275 | exactly the live targets of the type over links of sufficient access, each once |
| HubResolver.ListingAgreesIff | common/services/hub_resolver.py:206-275 | listing and asserting agree exactly when the source is live or nothing is listed |
| HubResolver.ListingAgreesWithAsserting | common/services/hub_resolver.py:198-275 | so in every reachable state, for a live source, a target is listed exactly when it can be asserted |
| HubResolver.DeletedSourceStillLists | common/services/hub_resolver.py:266-275 | a deleted source still lists targets it can no longer reach |
| ExternalModels.NameParses | gateway/api/external_resolution.py:20-22 | a name of the qualified form determines its two slugs |
| ExternalModels.ParseIff | gateway/api/external_resolution.py:20-22 | the qualified form: exactly two slugs of at most 64 and 100 characters around a slash |
| ExternalModels.Resolve | gateway/api/external_resolution.py:25-108 | resolves exactly when an unarchived agent hub of that slug admits the key and holds the named active agent; each error in its place |
| ExternalModels.GrantsIff | gateway/api/external_resolution.py:37-108 | a name resolves to an agent exactly when it carries the slugs of the agent and its hub, the hub is an unarchived agent hub, the agent active, and the key of that hub or of an active admin or contributor |
| ExternalModels.ListModels | gateway/api/external.py:340-401 | the registry, then exactly the names of active agents in the key's hubs |
| ExternalModels.ListedIff | gateway/api/external.py:355-399 | listed exactly: an active agent with a slug, of an unarchived agent hub that is the key's, or where its user is an admin or a member |
| ExternalModels.AppendAgents | gateway/api/external.py:387-399 | adds exactly one hub's active agents with a slug |
| ExternalModels.ResolvableImpliesListed | gateway/api/external_resolution.py:37-108 | every name a key resolves is on its list |
| ExternalModels.HubKeyListsExactlyResolvable | gateway/api/external.py:367-369 | for a hub-scoped key listed and resolvable names of the form are the same |
| ExternalModels.UserKeyResolvesIff | gateway/api/external.py:370-384 | for a user-bound key a listed name resolves exactly when the user is active and an admin or contributor there |
| ExternalModels.GrantedAgentIsUnique | gateway/api/external_resolution.py:94-108 | given unique slugs a model string resolves to one agent at most |
| ExternalModels.DeletedHubStillServesIff | gateway/api/external_resolution.py:44-50 | for the key of a soft-deleted hub an agent still resolves under the suffixed slug, exactly when that name parses |
| ExternalModels.DeletedHubStillServesUserIff | gateway/api/external_resolution.py:44-92 | and for a user key exactly when moreover its user may use the hub |
| Litellm.TruncateMessages | common/clients/litellm.py:20-64 | the loop keeps what the recursive cut keeps, for any counter, raising ones included |
| Litellm.CutIsFirstThatFits | common/clients/litellm.py:52-64 | the cut is the least one whose remainder fits or cannot be counted, else leaves the last message |
| Litellm.TruncationKeepsLongestFittingSuffix | common/clients/litellm.py:30-64 | everything if it fits, else the system message with the longest fitting proper suffix, else with the last message |
| Litellm.TruncationIsIdempotent | common/clients/litellm.py:20-64 | truncating again changes nothing |
| Litellm.WhatFitsIsKept | common/clients/litellm.py:26-45 | a conversation counted within the limit, or not counted, stays as it is |
| Litellm.CandidatesAre | common/clients/litellm.py:154-183 | who is asked in which order, the primary key by the provider prefix, its window by the model's name, a fallback without a window with 8000 |
| Litellm.BuildCandidates | common/clients/litellm.py:154-183 | the primary model with its key and window, then the fallbacks with theirs, default 8000 |
| Litellm.CompletionWithFallback | common/clients/litellm.py:186-222 | the first succeeding candidate's reply; each one tried saw the original messages cut to its own window; else the last error |
| Routes.PathJoinsSegments | frontend/src/routes.ts:20-71 | every builder that takes a hub id joins the segments it stands for |
| Routes.RoundTrip | frontend/src/routes.ts:17-194 | parsing a built path gives back its type, id and sub-path |
| Routes.AcceptedIff | frontend/src/routes.ts:183-194 | exactly the accepted paths; the first segment may be anything |
| Routes.RebuiltIff | frontend/src/routes.ts:183-194 | an accepted path is rebuilt from its parse up to one trailing slash, unless only a further slash follows the id |
| RoundRobin.PromptRouter.Select | gateway/api/agent_invoke.py:349-352 | picks the next candidate and moves the hub's counter |
| RoundRobin.PickedEveryRound | gateway/api/agent_invoke.py:349-352 | from any counter a candidate is picked after its wait and then once per round |
| RoundRobin.TakingTurns | gateway/api/agent_invoke.py:349-352 | call number k gets candidate counter + k, wrapped around |
| RoundRobin.Fair | gateway/api/agent_invoke.py:349-352 | over any number of calls no two candidates differ by more than one |

## Left out

- VramInclusion.InsideThroughoutIff: the stamps that one manager writes increase strictly; with ties or a clock that goes back, `VramLru.PlacedLastIff` says when a model is not moved to the recent end. Sizes are fixed. The arbiter itself (`VramArbiter`, `VramManager`) is modelled for any clock.
- VRAM: actual GPU memory, models still held by outstanding wrappers, the download before a load, the latency summary, `load_count` (always 1) and the list of loaded models.
- A cap on concurrent calls per model: re-registering replaces the semaphore, so no single cap holds.
- CacheCoherence.CoherentOnceQuiet: delivery may reorder and repeat but not lose; `CacheCoherence.LostEventLeavesStale` shows what a loss does. Several processes are several copies of the same listener.
- InferenceClient.OpenBreakerRate: one caller at a time, sleeps of exactly the delay; concurrent callers share the breaker and each may pass an expired cooldown.
- RateLimiter.FirstLimitAdmitted: the key's limit stays the same and Redis answers its requests; `RateLimiter.AnswerOfRequest` is without either.
- Login.LoginService.LoginUser: one attempt is one transaction; concurrent attempts could lose an increment.
- Sessions: the email and expiry claims (the email of an account does not change, the expiry follows from the time of issue); the rules of the password policy; `reset_password`, which compares an aware with a naive datetime; API keys as callers; display names and audit rows.
- Invites.InviteService.ResolveIdentity: profile fetching, display names and avatars; `autoApproved` stands for the domain rule.
- Invites.InviteService.RedeemInvite: repeated grants of one hub in one invite, which meet a unique constraint.
- HubRepository.HubStore.AddMember: `is_active` of the user model is not part of this model; it is read as status active.
- HubRepository.HubStore.Purge: the foreign keys of hubs and memberships as the migration declares them; those of other tables, and what the object mapper does with loaded children, are not part of this model.
- The role, access and direction tables (`hub_role_satisfies`, `link_access_satisfies`, `is_link_direction_allowed`) are arbitrary functions here.
- ExternalModels.Parse: the surrounding whitespace is already stripped.
- Litellm.CompletionWithFallback: reading the fallback chain from the registry, timeouts and usage logging.
- Startup accounts, OAuth, SQL, Redis and HTTP plumbing, hashing, encryption, evaluation, retrieval and ingestion logic, React components.
