# Statelog in Dafny

Statelog decides access and ownership-transfer requests against rights, policies and risk history, logs every
decision, and delivers events to webhooks. This project models the parts of it that keep state under
concurrency, and the pure decisions they rest on, and proves what they keep in every run.

The protocols are state machines: a state is the database (and process memory), a step is one statement or one
commit of one worker, and a run is any sequence of steps of any number of workers. A crash may happen between any
two steps. Lemmas about `Run` therefore speak of every interleaving. For the outbox, the re-encryption, the access
transaction and the versioned tables there is also a class with the code itself: it updates its tables in place, lets
others take any steps between its statements, and each statement is proved to be a step of the protocol, so that
the guarantees over runs are guarantees about the code.

| files | subject |
|---|---|
| `OutboxProtocol`, `OutboxSafety`, `OutboxTheorems`, `OutboxDelivery`, `OutboxProgress`, `OutboxWorker` | leases, fencing, attempts and delivery of outbox events |
| `AccessProtocol`, `AccessSafety`, `AccessLedger`, `AccessRights`, `AccessIdempotency`, `AccessTokens`, `AccessSingleUse`, `AccessProgress`, `AccessAuthentication`, `AccessAnswers`, `AccessExamples`, `AccessService`, `DecisionResponses` | the transaction of `POST /request/access`: quota, billing, rights, revocation, idempotency, single use of tokens |
| `VersionedStore`, `PolicyStore`, `AuditReplay`, `ReplaySafety`, `ReplayTheorem`, `ReplayFields`, `ReplayExample` | optimistic versioning of policies and workflows, recovery of versions, the decision and its audit replay |
| `RequestRuns` | both together: requests whose decisions go by the history, policies and workflow they loaded |
| `Secrets`, `ReencryptProtocol`, `ReencryptSafety`, `ReencryptProgress`, `ReencryptLeases`, `ReencryptService` | key rotation of webhook secrets |
| `ReplayProtection`, `RateLimit` | replay marks and rate limits |
| `RiskEngine`, `RiskHistory`, `PolicyEngine`, `PolicySelection`, `WorkflowEngine`, `CommaLists`, `AuditLog` | the decision functions and their inputs |
| `Prelude`, `Text`, `Sorting` | options, string order, insertion sort |

What a step, an engine or an answer is, is stated twice: as a function that the code is proved against, and, in
`OutboxProgress`, `AccessAuthentication`, `AccessAnswers`, `ReplayFields`, `ReencryptProgress`, `ReencryptLeases`,
`RiskEngine` and `PolicySelection`, by lemmas with the conditions, columns and numbers written out.

Conventions. Time is `real` seconds. A `sessions` table stands for what the workers hold in local variables. Primary
keys are indices where rows are never deleted. A unique or foreign key, a conditional `UPDATE` and a version column
are atomic tests at the step that executes them; a row written by an open transaction is locked until it ends. Claim
tokens and token ids are never reused. Encryption is symbolic: a ciphertext records its key, plaintext and nonce.
Whether the database may fail is an input of the outbox, access and re-encryption classes (`faultless`), and so is
whether others take steps in between (`undisturbed`, `quiet`). The request fingerprint is an arbitrary function of the
fields it covers.

Where the code differs from what one would expect of it, the model follows the code; the exact condition is proved,
and a concrete input is given:

- A policy evaluation without a clock reading raises exactly when a policy with an expiry comes before any that settles
  the matter (`PolicySelection.RaisesExactlyWhen`, by keys `KeysTellWhenItRaises`); the simulation endpoint passes no
  clock reading (`PolicySelection.SimulationCanRaise`).
- Audit replay gives back a decision only under three conditions. In every run, every log can be replayed, and all of it
  matches exactly when the ownership rules did not override the decision (replay does not re-apply them), the logs the
  request saw raise the same signals as those stamped before its own log, and the policy version that decided was still
  open at the stamp (`ReplayTheorem.ReplayMatchesExactlyWhen`). Each condition can fail: a transfer to nobody
  (`ReplayExample.OverriddenDecisionMismatches`), a request overtaken by another one of the same right between its load
  and its commit (`OverlappingRequestsMismatch`), a policy that expires between evaluation and stamp
  (`ExpiredPolicyMismatches`). If no log of the right overtook the request and the clock passed no edge of a signal's
  window meanwhile, the second condition holds; with the third, an overridden decision still differs only in reason,
  decision and path (`ReplayTheorem.ReplayIsFaithful`).
- A token is marked after it was decoded, with a lifetime of at least a second, so a mark made after the token's expiry
  does not outlive it. A mark is refused exactly while an earlier one is running (`AccessSingleUse.ReplaysAreDetected`),
  a token whose own marks were made before its expiry is for single use (`TokensAreSingleUse`), and a token marked late
  can have two committed logs (`AccessExamples.LateTokenIsUsedTwice`).
- A retry of a successful transfer is turned away before the idempotency lookup, exactly when the right is valid and its
  transfers have left it with somebody else (`AccessRights.RetryOfTransferIsRefused`), as in the run of
  `AccessExamples.RetryAfterTransferFails`.
- `remaining` counts only stale rows that are not leased by others. A call that answers False has left a stale row behind
  exactly when one was under a lease that had not run out (`ReencryptProgress.StaleRowsAreLeftWhen`), as in
  `LeasedRowIsOverlooked`; when every lease has run out False is the truth (`RemainingIsTruthful`).

## Model

| member | source | states |
|---|---|---|
| `OutboxTheorems.AttemptRowsAreSound` | app/outbox_worker.py:159-192 | In every run, each committed attempt row is numbered within 1..attempts of its event, the unique index over (event, subscription, attempt) is never violated, and a pair has at most one successful row |
| `OutboxTheorems.LifecycleIsSound` | app/outbox_worker.py:391-413 | Delivered and dead-lettered exclude each other, terminal events carry no claim, and pending events have attempts left |
| `OutboxTheorems.FinalisationsAreSerialised` | app/outbox_worker.py:284-425 | The attempt numbers committed for an event along any run are 1, 2, 3, ... up to its attempts column: no increment is lost or doubled |
| `OutboxTheorems.FinalisationsAreBounded` | app/outbox_worker.py:391-393 | At most max_attempts passes (one, if the setting is below one) are ever committed for an event |
| `OutboxTheorems.TerminalEventsAreFinal` | app/outbox_worker.py:87-99 | No run changes a delivered or dead-lettered event or adds attempt rows for it |
| `OutboxTheorems.SparingRun` | app/outbox_worker.py:77-157 | Until a claim finds the event claimable or whoever carries its token commits or releases, no interleaving touches the event or its rows |
| `OutboxTheorems.LeaseIsExclusive` | app/outbox_worker.py:87-104 | While claimers' clocks are before the lease's expiry and no worker that carries the event's token commits or releases, nobody takes, changes or finalises the event; the claiming worker may crash and go on to other events |
| `OutboxTheorems.HolderIsUnique` | app/outbox_worker.py:84-104 | Two workers never hold the same event |
| `OutboxTheorems.LostClaimsStayLost` | app/outbox_worker.py:84-104 | A claim token that is no longer in its row never returns to it |
| `OutboxTheorems.OvertakenWorkersAreFenced` | app/outbox_worker.py:133-157 | A worker overtaken by another claim leaves no attempt row and no event change, however the run goes on |
| `OutboxTheorems.BackoffNeverShrinks` | app/outbox_worker.py:74-75 | The delay min(2^k, 300) does not decrease in k |
| `OutboxTheorems.BackoffIsObserved` | app/outbox_worker.py:391-405 | After failed attempt k nothing happens to the event until a claim reads a clock at least min(2^k, 300) seconds later |
| `OutboxDelivery.DeliveredMeansSettled` | app/outbox_worker.py:234-425 | Only a fenced commit turns an event delivered, and then every subscription in that pass's list has a committed success or is disabled |
| `OutboxDelivery.EmittedEventsReachSubscribers` | app/outbox_worker.py:234-271 | For a delivered event, every matching subscription that existed before it was emitted has a committed success or is disabled |
| `OutboxProgress.FinishConcludes` | app/outbox_worker.py:382-425 | In every reached state a worker past its loop writes exactly if the row carries its token on a lease later than now; without a failed post the event becomes delivered, otherwise attempts + 1 and, exactly if that reaches the cap, dead-lettered, else due again at stamp + 1, 2, 4, ... 256, 300 seconds, with the last failure as its error |
| `OutboxProgress.ClaimTakes` | app/outbox_worker.py:77-111 | A claim succeeds exactly on an event that is neither delivered nor dead-lettered, whose time has come and whose lease, if any, has run out; the row then carries a new token until now + lease |
| `OutboxProgress.LoadFinds` | app/outbox_worker.py:229-282 | A pass begins exactly if the row carries the token, with the enabled subscriptions of its tenant and type in order; a payload that is no JSON ends it if there are any |
| `OutboxProgress.RoundGoesOn` | app/outbox_worker.py:288-380 | A subscription is skipped exactly if it has a committed success or is disabled by now; else it gets one post, recorded as successful exactly for a status 200 to 299 |
| `OutboxProgress.UndisturbedPassDelivers` | app/outbox_worker.py:217-425 | From every reached state a pass that claims a due event, has its posts accepted and fences before its lease runs out delivers it, and changes no other event |
| `OutboxProgress.CrashedWorkersAreReplaced` | app/outbox_worker.py:87-99 | While the lease of a crashed worker runs no claim of its event succeeds; from its expiry on the claim of any idle worker does, once the event is due |
| `OutboxProgress.FailedPassIsForgotten` | app/outbox_worker.py:113-131 | After a pass that fails and its release the event is as it was, unclaimed and due at its time, with no attempt row written |
| `OutboxProgress.EmittedIsDue` | app/models.py:195-213 | An emitted event is appended with its data, no attempts, and is due exactly from its time on |
| `OutboxSafety.RunKeepsInv` | app/outbox_worker.py:195-425 | The invariant of events, attempt rows, leases and worker memories holds along every run |
| `OutboxSafety.FinishKeepsRows` | app/models.py:219-227 | Rows added by a fenced commit are new to the unique index and repeat no success |
| `OutboxWorker.OutboxDatabase.ClaimOutboxEvent` | app/outbox_worker.py:77-111 | The conditional UPDATE: exactly on a due event a new token is returned and stands in the row until now + lease; otherwise no event changes |
| `OutboxWorker.OutboxDatabase.ReleaseOutboxClaim` | app/outbox_worker.py:113-131 | Clears the claim, and answers True, exactly if the row still carries the token; otherwise no event changes |
| `OutboxWorker.OutboxDatabase.FenceOutboxClaim` | app/outbox_worker.py:133-157 | True exactly when the row carries the token and claim_expires_at is later than now |
| `OutboxWorker.OutboxDatabase.AlreadyDelivered` | app/outbox_worker.py:159-169 | Skips the subscription exactly when a committed success exists |
| `OutboxWorker.OutboxDatabase.RecordAttempt` | app/outbox_worker.py:172-192 | The attempt row and the failure flag stay in the worker's memory until the fenced commit |
| `OutboxWorker.OutboxDatabase.FinishPass` | app/outbox_worker.py:382-425 | The fence and what follows are one step with the outcome of FinishConcludes; it reports a delivery exactly if the fence passed and no post failed |
| `OutboxWorker.OutboxDatabase.SelectBatch` | app/outbox_worker.py:199-215 | The batch is made of due events, oldest first, and leaves out none that is older |
| `OutboxWorker.OutboxDatabase.DeliverPendingEvents` | app/outbox_worker.py:195-425 | The returned count is the number of events this worker's own commits turned delivered, whatever others did; it raises only if the database failed or a payload is no JSON; when nobody disturbs it, nothing fails and no lease runs out, it delivers exactly the oldest due events up to the batch size and returns their number |
| `AccessLedger.QuotaIsConserved` | app/main.py:423-452 | In every run usage_count is the number of the tenant's committed logs and within its quota, decision events match the logs one to one in order, and billing events carry exactly 1..usage_count |
| `AccessLedger.ReservationsAreKept` | app/main.py:423-452 | A reserved request carries the number of its tenant's logs plus one, within the quota, until it commits or aborts |
| `AccessRights.RightsAreRecorded` | app/main.py:1512-1517 | In every run version = 1 + transfers + revocations, owner_change_count = committed allowed transfers, owner = the last one's new owner (or the creator's choice), at most one revocation, after which the right is invalid |
| `AccessRights.AllowedMeansOwned` | app/main.py:1402-1405 | When an allowed log commits, the right is valid and owned by the token's subject at that moment, and a transfer names another owner |
| `AccessRights.AllowedLogsLinearise` | app/main.py:1504-1517 | In commit order each allowed log was made by the owner left by the allowed transfers before it |
| `AccessRights.RevocationIsFinal` | app/main.py:1221-1235 | Once right.revoked is committed, no decision.allowed of that right follows it in the outbox |
| `AccessRights.RetryOfTransferIsRefused` | app/main.py:1402-1405 | In every run, a request of the subject of any earlier allowed log of the right is refused as owner_mismatch, before the idempotency lookup and whatever its key, exactly when the right is valid and its transfers have left it with somebody else |
| `AccessRights.OnlyTheOwnerGoesOn` | app/main.py:1402-1405 | In every run, a request gets past its right exactly if the right is valid and the owner that the allowed transfers have left is its subject |
| `AccessRights.LatestGiverIsTurnedAway` | app/main.py:1402-1405 | The giver of the latest transfer never gets past the right |
| `AccessExamples.RetryAfterTransferFails` | app/main.py:1402-1445 | A concrete run with a transfer committed under an Idempotency-Key and the refused retry under the same key and fingerprint |
| `AccessProgress.UndisturbedRequestCommits` | app/main.py:1447-1628 | From any reachable state, a request past its lookup with an unmarked token, a new key, quota left, a free row and an unchanged right commits exactly its own writes, whatever its decision goes by; it is allowed exactly if the ownership rules, the risk engine on that history and the policies let it pass |
| `AccessProgress.RequestsArrive` | app/main.py:1370-1445 | From any reachable state, an authentic request of the owner of a valid right, without an Idempotency-Key or with an unused one of at most 128 characters, passes its lookup and changes nothing else |
| `AccessAuthentication.EntersExactlyWhen` | app/main.py:1370-1400 | A request is authenticated exactly if its device exists and is enabled, its token was issued and now is before its exp, tenant, device and scope agree and the tenant exists; otherwise it is refused with the error of the first of these that fails |
| `AccessAuthentication.EveryLogWasAuthenticated` | app/main.py:1370-1400 | In every run each committed log belongs to a call that passed all these tests, before its token's exp, and carries that call's identity and circumstances |
| `AccessAnswers.EveryAnswerHasItsCause` | app/main.py:1355-1687 | In every run every answer was given by a step in a state where the condition for exactly this answer held, condition by condition, and has stood since |
| `AccessAnswers.CommitConcludes` | app/main.py:1512-1628 | A commit goes through exactly if no log of the tenant has the key and a right to be written is at the version read; then counter, right, log and two events are written column by column, and nothing else; otherwise nothing is |
| `AccessAnswers.RevocationConcludes` | app/main.py:1196-1241 | A revocation goes through exactly at the version read; then the right is invalid at the next version, with everything else as it was, and one event says so; otherwise nothing is written |
| `AccessAnswers.TokenIsIssuedWhen` | app/main.py:1243-1267 | A token is issued exactly for an enabled device and to the owner of a valid right |
| `AccessAnswers.FingerprintsTellRequests` | app/main.py:1407-1428 | With a hash without collisions two fingerprints are equal exactly if tenant, right, type, device, address, country, new owner and token are; without headers so are the keys |
| `AccessAnswers.ExplicitKeyMeans` | app/main.py:1419-1428 | A header of blanks counts as none; else the key is the header without the blanks around it |
| `AccessIdempotency.OneLogPerKey` | app/models.py:130 | In every run there is at most one log per (tenant, key), and its row determines the answer that was given with it |
| `AccessIdempotency.RetriesAreIdempotent` | app/main.py:1429-1445 | At the lookup, and after a lost commit race, a request with a used explicit key gets exactly the first answer if the fingerprints agree and a conflict otherwise, and nothing but its own session changes |
| `AccessIdempotency.FoundLogIsTheOne` | app/main.py:1609-1614 | The query by tenant and key finds the only such log |
| `DecisionResponses.RetryAnswersTheSame` | app/main.py:1268-1352 | The response rebuilt from a log row equals the response of the original request, through the comma-separated signals and the recomputed trust score |
| `DecisionResponses.ResponseTellsLog` | app/main.py:1268-1352 | Each field of the rebuilt answer by its column, the trust score as 100 minus the risk score clipped to 0..100, and each contributor with the points 35, 30, 15 or 10 of its name |
| `DecisionResponses.TotalOfNames` | app/main.py:1300-1316 | The scores looked up by signal name add up to the score of the signals |
| `AccessTokens.RunKeepsMarks` | app/replay_protection.py:17-30 | In every run each running mark is in the replay store, nothing else is, and marks of one token are at least their lifetimes apart |
| `AccessTokens.RunKeepsUse` | app/main.py:1447-1459 | Each call marks its token at most once and before it commits, and commits at most one log |
| `AccessSingleUse.ReplaysAreDetected` | app/main.py:1449-1452 | A request is told replay_detected exactly when an earlier mark of its token is still running |
| `AccessSingleUse.MarksAreUnique` | app/main.py:1449-1452 | When the marks of a token are made before its expiry, there is only one, as it outlives the token |
| `AccessSingleUse.TokensAreSingleUse` | app/main.py:1449-1452 | A token whose own marks were made before its expiry has at most one committed log, whatever happened to other tokens |
| `AccessExamples.LateTokenIsUsedTwice` | app/main.py:1449-1452 | A concrete run in which a token decoded in time and marked late has two committed logs |
| `AccessSingleUse.CacheNeverAnswers` | app/main.py:1454-1459 | In every run, whoever is answered from the decision cache has a token that was marked late; the others never are |
| `AccessSafety.RunKeepsInv` | app/main.py:1355-1628 | In every run reads of rights stay comparable to the current row, and a tenant's row is held by one transaction at a time |
| `AccessSafety.JudgementIsOk` | app/main.py:1461-1572 | Every decision carries its request's identity, answers as a retry would, and never allows a transfer to nobody or to the same owner |
| `AccessService.Service.ReserveTenantQuota` | app/main.py:423-452 | Waits for the tenant's row; with the row it reserves usage + 1 exactly when usage is below the quota and refuses otherwise, and it fails when the wait is given up; no log of the call exists yet |
| `AccessService.Service.Authenticate` | app/main.py:1370-1400 | Goes on exactly if the request may enter, as the call with its token's claims; otherwise it is refused for the reason that belongs to it |
| `AccessService.Service.CommitOr409` | app/main.py:458-482 | Either all writes of the request, as CommitConcludes says, exactly when its key is new and the right it writes is still at the version read, or none; it is unavailable only if the database may fail, and then nothing is written |
| `AccessService.Service.WriteTables` | app/main.py:1512-1597 | Counter, right, log and the two events are written as the protocol's commit says |
| `AccessService.Service.ReadRight` | app/main.py:1402-1405 | Goes on exactly when the right exists, is valid and is owned by the token's subject, with the refusal named for each failing test |
| `AccessService.Service.Lookup` | app/main.py:1419-1445 | Only an explicit key can end the request here: as invalid above 128 characters, with the answer of the log that has the key if the fingerprints agree, as a conflict if not |
| `AccessService.Service.MarkToken` | app/main.py:1447-1452 | The quota test on the tenant as read, then the mark: refused exactly while an earlier one runs, else made for max(exp - now, 1) seconds; no table is written |
| `AccessService.Service.ConsultCache` | app/main.py:373-388 | Only an access request can be answered here, exactly by an unexpired entry of the very same request at this version of the right; an expired entry is dropped, no table is written |
| `AccessService.Service.RequestAccess` | app/main.py:1355-1687 | Among any other requests, the call takes only protocol steps, its log exists exactly if it answers with a decision of its own, every answer is given for the cause that belongs to it, and it is unavailable only if the database may fail or another request held the tenant's row |
| `AccessService.Service.RevokeRight` | app/main.py:1196-1241 | Not found exactly for a missing right; an invalid right is reported at its version; a valid one is revoked at the next version, or the revocation fails exactly because the version has moved on, or because the database may fail |
| `AccessService.Service.CommitRevocation` | app/main.py:1221-1241 | The revocation commits exactly when the right is still at the version that was read; it is unavailable only if the database may fail, and then writes nothing |
| `ReplayTheorem.ReplayMatchesExactlyWhen` | app/main.py:1947-2135 | In every run of interleaved requests and concurrent policy and workflow changes, with separate clock readings for history, risk, policies, hour and stamp: every log can be replayed, all of it matches exactly when the ownership rule did not override it, the seen and the earlier logs raise the same signals, and the deciding version was still open at the stamp; the signals match exactly under the second condition, and under it the policy exactly under the third |
| `ReplayFields.ReplayTellsEachField` | app/main.py:1947-2135 | In every run and for every log, each of the eight fields matches exactly when the points, signals and policy verdict recomputed from the earlier logs and the recorded version agree with the log in that respect: the source, for one, exactly if "risk allows and a policy matched" is as true as it was at the decision |
| `ReplayFields.EveryLogTells` | app/main.py:1461-1572 | In every run what each log says: its request, the points of the logs that the request saw, allowed exactly if these are below 70, no policy denied and the ownership rules do not object, the reason of whichever decided, and policy as its source exactly if risk allowed and a policy matched |
| `ReplayFields.OpinionMeans` | app/main.py:1461-1495 | The risk is that of the loaded history and the verdict that of the most urgent live policy that applies at the clock readings of the evaluation, column by column of the policies table |
| `ReplayFields.ReplayAnswersExactlyWhen` | app/main.py:1953-1996 | On any tables, which error a replay answers, by what is missing: log, tenant, workflow version, half a policy reference, policy version, in this order |
| `ReplayTheorem.ReplayIsFaithful` | app/main.py:1947-2135 | For every log whose request was not overtaken by a log of the same right, with no boundary passed between evaluation and stamp: everything matches exactly when the ownership rule had not overridden the decision; when it had, the reason differs, decision and path differ exactly if the engines alone would have allowed, and the rest still matches |
| `ReplayExample.OverriddenDecisionMismatches` | app/main.py:1504-1510 | A concrete overridden decision whose replay reports decision, reason and path as different |
| `ReplayExample.OverlappingRequestsMismatch` | app/main.py:1461-1465 | A run of two overlapping requests (load, load, commit, commit) of which the second replays with other signals and another score |
| `ReplayExample.ExpiredPolicyMismatches` | app/main.py:1482-1494 | A run in which the deciding policy expires before the stamp, and is not found applicable by the replay |
| `ReplayTheorem.RiskRecursExactlyWhen` | app/main.py:1997-2011 | The risk recomputed from the logs before the stamp has the signals of the one computed at decision time exactly when both lists of logs, each at its time, show the same facts, and then it is the same risk |
| `RiskEngine.SignalsAgreeExactlyWhen` | app/risk_engine.py:41-80 | Two lists of logs raise the same signals exactly when they agree on three recent denials, on device, address and country being new, and for a transfer on two recent transfers |
| `ReplaySafety.DecisionIsBacked` | app/main.py:1477-1495 | A policy decision is that of a version on record that applied, or no match |
| `ReplayTheorem.PolicyRecursExactlyWhen` | app/main.py:2013-2028 | On the same risk the version that decided, alone, decides again exactly if it has neither expired nor closed for the hour; otherwise no policy matches |
| `ReplayTheorem.PolicyIsFound` | app/main.py:1985-1996 | A policy version recorded at decision time is found again by its id and version |
| `ReplayTheorem.WorkflowIsFound` | app/main.py:1964-1975 | The workflow configuration in force at decision time is found again by its version |
| `ReplaySafety.RunKeepsInv` | app/main.py:1461-1572 | Along every run each log is made of what its request found: the history of the logs committed when it loaded, the risk of that history, a policy version and a workflow version on record |
| `RequestRuns.JointRunsProject` | app/main.py:1355-1687 | A run of whole requests is a run of the request protocol, so that quota, rights, idempotency and single use hold of it, and a run of decisions and policy changes |
| `RequestRuns.RequestsReplayExactly` | app/main.py:1461-1576 | In it both keep the same logs, each made of what its own request found, and each can be replayed with the exact outcome above |
| `RequestRuns.RequestsTellTheirDecisions` | app/main.py:1461-2135 | In these runs each committed log says what its request found and decided, and its replay reports each of the eight fields, as EveryLogTells and ReplayTellsEachField have it |
| `RequestRuns.RequestsCanDecide` | app/main.py:1461-1572 | From any reachable state a request past its cache can load, be evaluated and decide, whatever the others have done |
| `VersionedStore.LiveVersionsAreRecovered` | app/main.py:830-949 | Any version that was ever live is loaded with its original content after any concurrent updates and deletes |
| `VersionedStore.LoadedVersionsWereLive` | app/main.py:191-275 | Whatever is loaded was live with that content at some point of the run |
| `VersionedStore.RunKeepsInv` | app/models.py:255-260 | Each (key, version) is snapshotted at most once, and history holds only past versions |
| `PolicyStore.PolicyVersionsAreRecovered` | app/main.py:191-275 | load_policy_version gives back exactly the policy the engine saw, even after its deletion |
| `PolicyStore.UpdatedVersionIsKept` | app/main.py:125-145 | An update leaves, under the old version, exactly what was live before it |
| `PolicyStore.Table.CommitUpdate` | app/main.py:912-918 | History row and versioned UPDATE are written together exactly when the version is still the one read |
| `PolicyStore.Table.CommitDelete` | app/main.py:1001-1028 | The same for a delete |
| `PolicyStore.CreatePolicy` | app/main.py:783-810 | An unknown tenant and a taken name are refused and write nothing; otherwise the policy is created at version 1 |
| `PolicyStore.UpdatePolicy` | app/main.py:831-949 | A successful update replaced the version it read (the expected one, if given) after saving it, and each column has the value given or, where none was, the one before; any other answer wrote nothing: not found exactly for a missing policy, a bad window exactly if the result would end before it starts, a version conflict only for an outdated expectation or a row that has moved on |
| `PolicyStore.DeletePolicy` | app/main.py:1001-1028 | A successful delete removed the version it read after saving it; any other answer wrote nothing, and a version conflict is answered only if the row has moved on |
| `PolicyStore.UpdateWorkflowConfig` | app/main.py:677-723 | A successful update installs the configuration one version above the one it saved; an unknown tenant and an outdated expected version are refused, a conflict is answered only for these or a row that has moved on, and no other answer wrote anything |
| `RiskHistory.TruncatedHistoryIsExact` | app/main.py:1083-1133 | For every table and clock, the decision on "last hour or latest ten", supplied in any order, is the decision on all eligible logs |
| `RiskHistory.LoadRiskHistory` | app/main.py:1083-1133 | The loaded rows are the two queries merged by id in dictionary order |
| `RiskHistory.LoadedRowsMean` | app/main.py:1083-1133 | A row is loaded, once, exactly if it is of the tenant and right, before the replayed log or up to the clock reading, and of the last hour or one of the last ten such rows by time and id |
| `RiskHistory.LoadedIsTail` | app/main.py:1101-1133 | The loaded rows are a tail of the whole history in time order |
| `RiskHistory.TailDecides` | app/risk_engine.py:41-94 | No signal depends on anything before that tail |
| `RiskEngine.Evaluate` | app/risk_engine.py:29-93 | Whatever order the logs come in, the decision is that of the sorted history, and is made of the facts as RiskMeans says |
| `RiskEngine.SignalsMean` | app/risk_engine.py:41-80 | Which facts about the logs raise each signal, exactly: three denials within 15 minutes, a device or address unknown to the last five logs, a country unknown to the last ten, two transfers within the hour, or a transfer without these |
| `RiskEngine.RiskMeans` | app/risk_engine.py:41-93 | The score is the sum of 35 for the denials, 15 for the device, 10 for the address, 15 for the country and 30 or 10 for a transfer; allowed exactly below 70; the trust score is 100 minus it, within 0..100; the signals stand in this order, and the reason is their names or else allowed or deny |
| `PolicySelection.LeastApplicableDecides` | app/policy_engine.py:56-116 | With a clock, the decision is that of an applicable allow or deny policy with the least key, and no-match exactly when there is none |
| `PolicySelection.EvaluationMeans` | app/policy_engine.py:22-116 | With a clock, a policy decides exactly if it is allow or deny in any letter case, in force, concerns the request by type, device, country, score, trust, amount and hour, and no other such policy is more urgent by priority, deny before allow, name, id and version; what it decides, field by field |
| `PolicySelection.OrderOfPoliciesIsIrrelevant` | app/policy_engine.py:45-54 | With distinct keys any permutation of the policies gives the same evaluation |
| `PolicySelection.DistinctNamesSuffice` | app/models.py:241-243 | Policies with different names, or ids, have distinct keys |
| `PolicySelection.DenyWins` | app/policy_engine.py:45-54 | An allow stands only with a strictly more urgent priority than every applicable deny |
| `PolicySelection.WinnerDecidesAlone` | app/main.py:2013-2028 | The deciding policy alone gives the same decision |
| `PolicySelection.RaisesExactlyWhen` | app/policy_engine.py:72-80 | Evaluation raises exactly when there is no clock reading and a policy with an expiry is reached, in sorted order, before one that settles the matter |
| `PolicySelection.KeysTellWhenItRaises` | app/policy_engine.py:45-80 | For distinct keys: exactly when some policy with an expiry has no settling policy with a key up to its own |
| `PolicySelection.SimulationCanRaise` | app/main.py:639-674 | A concrete policy and query without a clock reading that raise |
| `WorkflowEngine.Evaluate` | app/workflow_engine.py:35-87 | The appended path and the source are those of the configuration |
| `WorkflowEngine.PathTellsOutcome` | app/workflow_engine.py:35-87 | The reported path alone tells, whatever the configuration, which steps it had and in which order, whether a policy matched, if that was looked at, and the outcome |
| `WorkflowEngine.DecisionMeans` | app/workflow_engine.py:35-87 | The source is policy exactly if risk allowed and a policy matched; the path by its places and words |
| `CommaLists.ItemsOfJoin` | app/main.py:95-109 | Splitting undoes joining on trimmed non-blank comma-free items |
| `CommaLists.ItemsAreStable` | app/main.py:95-109 | Splitting, joining and splitting again changes nothing, for every string |
| `CommaLists.SignalsOfJoin` | app/main.py:1269-1273 | A log gives back the signals it was written with |
| `CommaLists.FilterIsMembership` | app/main.py:1837-1855 | For a comma-free signal the four-way filter holds exactly when it is a field of the column |
| `Secrets.DecryptSecretWithKeyVersion` | app/security.py:103-132 | The loop over candidate kids is the ordered search with the stated version first |
| `Secrets.DecryptFindsTheKey` | app/security.py:103-132 | Decryption succeeds exactly when a key of the ring opens the ciphertext, and names a kid that does, the stated one when it is right |
| `Secrets.DecryptUndoesEncrypt` | app/security.py:94-132 | Whoever still has the writer's key reads the plaintext, under any label |
| `ReencryptSafety.SecretsSurviveRotation` | app/services/webhook_service.py:98-155 | In every run every secret keeps its plaintext, and a verified label names an existing key that opens the ciphertext |
| `ReencryptSafety.VerifiedSecretsOpen` | app/security.py:112-128 | So a process with that key opens it under the label, whatever the row's label was before |
| `ReencryptSafety.CommitsReplaceWhatTheyRead` | app/services/webhook_service.py:134-155 | A rewrite was computed from the very row it replaces, still under the worker's own lease |
| `ReencryptSafety.RunKeepsInv` | app/services/webhook_service.py:17-69 | Rows, leases and open transactions stay consistent along every run |
| `ReencryptProgress.CallMigratesLimit` | app/services/webhook_service.py:79-172 | An uncontended successful call migrates exactly min(limit, n) of the n stale rows whose claim is missing, has no expiry or expires at or before now, the lowest ids first |
| `ReencryptProgress.ChosenAreLowest` | app/services/webhook_service.py:79-96 | The query picks exactly these rows, in order |
| `ReencryptProgress.CallsFinish` | app/services/webhook_service.py:79-174 | When every claim has run out by the clock of each of k such calls, max(0, n - k * limit) of n stale rows are left after them, and every ciphertext opens under the active key alone exactly if k * limit covers n |
| `ReencryptProgress.LastCallAnswersFalse` | app/services/webhook_service.py:172-174 | Then the last of the calls answers remaining = False exactly when k * limit covers the stale rows, and exactly when every row is on the active key |
| `ReencryptProgress.RemainingIsTruthful` | app/services/webhook_service.py:172 | When every claim has run out an uncontended call answers False exactly when it leaves every row on the active key |
| `ReencryptProgress.StaleRowsAreLeftWhen` | app/services/webhook_service.py:86-94 | A call that answers False leaves a stale row exactly if one was under a claim that expires later than now |
| `ReencryptProgress.LeasedRowIsOverlooked` | app/services/webhook_service.py:86-94 | A concrete table whose only row is stale and leased, for which the call answers False |
| `ReencryptLeases.ClaimTakes` | app/services/webhook_service.py:17-48 | The UPDATE of a candidate waits for an open transaction on the row, and leases it until the call's clock reading plus the lease exactly unless another lease runs; a call leases no more rows than its limit |
| `ReencryptLeases.LeaseIsExclusive` | app/services/webhook_service.py:25-48 | In every interleaving a leased row stays exactly as it is while claiming calls go by clock readings before its expiry and no holder of the lease commits or releases |
| `ReencryptLeases.RewriteMeans` | app/services/webhook_service.py:124-145 | A rewrite succeeds exactly if some key of the ring opens the secret; it keeps the plaintext, under the active key and a verified label without claim, leaves a ciphertext of the active key as it is and makes any other anew |
| `ReencryptLeases.ReleaseFrees` | app/services/webhook_service.py:51-69 | A release clears the claim exactly if the row still carries the token, and touches nothing else |
| `ReencryptService.WebhookStore.ClaimNext` | app/services/webhook_service.py:17-48 | The conditional UPDATE of one candidate is the claiming step |
| `ReencryptService.WebhookStore.RewriteNext` | app/services/webhook_service.py:124-153 | Decryption, re-encryption and conditional UPDATE are the rewriting step, with its outcome |
| `ReencryptService.WebhookStore.RollbackAndRelease` | app/services/webhook_service.py:157-170 | After a rollback and the releases, whether they succeed or raise, an uncontended call has changed no secret, label or verified flag |
| `ReencryptService.WebhookStore.ReencryptWebhookSecrets` | app/services/webhook_service.py:71-174 | In any company it takes only protocol steps, remaining is the answer for the table at its selection and the count is that of the key changes in its committed transaction; alone it either migrates exactly the lowest stale rows without a running lease, up to its limit, or changes no secret; it raises ValueError only for a missing active key or an undecryptable row, and a database error only if the database may fail or another transaction held a row |
| `ReplayProtection.InMemoryReplayStore.MarkIfFirstSeen` | app/replay_protection.py:21-30 | The purge and the insertion compute the specified store and answer |
| `ReplayProtection.HybridReplayStore.MarkIfFirstSeen` | app/replay_protection.py:46-60 | The same through Redis, failing closed or falling back |
| `ReplayProtection.AcceptedExactlyWhen` | app/replay_protection.py:17-60 | Without fallback a call that reaches its store is first exactly when every earlier acceptance of the token has run out |
| `ReplayProtection.AcceptancesAreApart` | app/replay_protection.py:17-60 | Two acceptances of a token are at least a lifetime apart, whatever failures lie between |
| `ReplayProtection.TokensAreSingleUse` | app/main.py:1449-1452 | Of the calls that mark a token before its expiry at most one is first |
| `ReplayProtection.LateMarksRepeat` | app/main.py:1449-1452 | Two late marks of one token that are both first |
| `RateLimit.InMemoryRateLimiter.Allow` | app/rate_limit.py:22-30 | The popping loop prunes the key's bucket as specified and leaves other keys alone |
| `RateLimit.BucketIsRecentHistory` | app/rate_limit.py:22-30 | The bucket is exactly the recent part of the full history of admissions |
| `RateLimit.SlidingLimit` | app/rate_limit.py:22-30 | Any limit + 1 consecutive admissions span at least a window |
| `RateLimit.AdmittedExactlyWhen` | app/rate_limit.py:22-30 | A call is admitted exactly if fewer than limit admissions are less than a window old |
| `RateLimit.RedisRateLimiter.Allow` | app/rate_limit.py:37-47 | INCR and EXPIRE of the current window's key, with the error that either may raise |
| `RateLimit.HybridRateLimiter.Allow` | app/rate_limit.py:56-64 | Redis decides as long as it answers; after an error the call is refused, or the memory decides |
| `RateLimit.CountersAreExact` | app/rate_limit.py:37-44 | A counter outlives its window, also without its EXPIRE, so it counts every call of the window that reached it |
| `RateLimit.AnswersExactly` | app/rate_limit.py:37-47 | A call raises exactly if INCR fails, or EXPIRE on the first call of its window; otherwise it passes exactly if it is among the first limit calls of the window that got through |
| `RateLimit.FixedWindowLimit` | app/rate_limit.py:37-47 | An aligned window admits at most min(limit, calls), whatever errors occur, and exactly that many without errors |
| `RateLimit.TwiceTheLimit` | app/rate_limit.py:37-47 | Any interval as long as a window admits at most twice the limit |

## Left out

- ReplayTheorem.ReplayIsFaithful: the two queries of one history load see the same committed logs; the clock readings of one request are in order; policy ids are never reused.
- AccessRights.RevocationIsFinal: the outbox is taken in commit order; autoincrement ids may differ from it.
- AccessSingleUse.TokensAreSingleUse: one replay store that never falls back, and marks of that token before its expiry; the exact behaviour without the latter is `ReplaysAreDetected`.
- ReplayProtection.HybridReplayStore.MarkIfFirstSeen: Redis expires keys at the same instant as the in-memory store; after a failure with fallback there is no single-use claim.
- DecisionResponses.RetryAnswersTheSame: the `reason` fields nested under explanation.risk and explanation.policy are replaced by the final reason on a retry and are not part of the model; neither is a malformed stored decision path.
- RateLimit.HybridRateLimiter.Allow: with fallback to memory, what both stores admit together is not bounded.
- OutboxDelivery.DeliveredMeansSettled: speaks of committed rows; the HTTP deliveries themselves are at least once.
- AccessProtocol: the device, the claims and the tenant are read in one step, the right in the next; what a decision goes by is left open there (any values), and supplied in `RequestRuns`.
- AccessService.Service.CommitOr409: a connection lost while COMMIT is being answered counts as not committed.
- AccessProtocol: the fingerprint covers what the code covers, which is not the transaction amount; nothing is claimed about requests that differ only there.
- Rate limiting, client authentication and metrics at the beginning and end of `request_access`.
- HTTP, DNS and URL checks, signatures, JWT and Fernet encodings: a send has any outcome, a token is its claims.
- SQL isolation anomalies, LIKE escapes and case folding; Unicode white space and case mapping.
- Error texts, HTTP status codes and log messages, beyond telling the errors apart.
- Configuration checks, Pydantic validators, migrations, dashboards, demo and load scripts.
