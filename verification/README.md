# Verification of the SSO revocation pipeline

This project models the single sign-on system's central promise: when a central
session is revoked, a password is changed or a group loses access, the relying
applications' own sessions end too, although the news travels through an outbox,
a broker, a retrying worker and a back-channel endpoint, each of which may crash,
repeat itself or lose an answer.

The model is a protocol of steps. Every SQL transaction is one atomic step. Faults
are choices of the environment and are enabled in every state: a statement fails
with or without having taken effect, a POST is applied or not and its answer comes
back or not, work is cancelled, the broker connection drops, the process dies. A
run is any sequence of steps; a step that is not enabled only moves the clock.

| file | what it models |
|---|---|
| `Domain.dfy` | identifiers, instants, the revocation event |
| `Backoff.dfy`, `Delivery.dfy` | the wait before a retry; one event to one application: the durable row, the retry program, crash and restart histories |
| `Worker.dfy` | validation, target resolution, the settle decision |
| `Outbox.dfy` | the publisher's rounds and how fast they drain the outbox |
| `AppStore.dfy` | an application's database and `/internal/logout` (App A and App B run the same code; the application id is a parameter) |
| `SessionStore.dfy`, `Access.dfy` | central sessions, policies and memberships, and the events written in the same transactions |
| `AuthServer.dfy`, `Handlers.dfy` | `/authorize`, `/token`, `/userinfo` interleaved step by step, and as the programs they are |
| `Lingering.dfy` | which requests and codes can still end in a session once a path is lost |
| `Mfa.dfy`, `Enrollment.dfy` | attempt-limited second factor and its enrollment |
| `Contract.dfy` | what the server writes against what worker and applications accept |
| `Pipeline.dfy` | all of it as one state machine: server, outbox, broker, handlers, rows, applications |
| `Conservation.dfy`, `RowSoundness.dfy`, `Exclusive.dfy`, `EndToEnd.dfy` | what every run of the pipeline keeps |
| `LateSessions.dfy` | two runs in which a session outlives the acknowledged message of its revocation |

Code that changes things in place is modelled by classes and loops
(`DeliveryStore`, `OutboxPublisher`, `Store`, the two `Repository` classes,
`MfaRepository`, `TotpRepository`, `AuthHandler`) whose methods are proved equal
to the transition functions the theorems are about. The methods of `AuthHandler`,
and `Mfa.LoginMfa`, run a whole request at once; each is proved to be a run of the
steps that the state machines interleave (`Handlers.AuthorizeRun`,
`Handlers.TokenRun`, `Handlers.UserInfoRun`, `Mfa.LoginRun`).

## Main results

1. End to end (`EndToEnd.RevocationIsEffective`): once a message is acknowledged,
   any session its event was meant to end that is still live in any application
   was created after that application processed the event. The proof needs no
   assumption on how many handlers or duplicates there are: a callback must pass
   the session check of `/userinfo` before it stores a session, its token row is
   there by then, and so target resolution includes the application.
   `EndToEnd.SilentForGoodIff` gives the exact remainder for a revoked session: it
   comes back in an application if and only if a callback is already past that
   check. `EndToEnd.PairSilentIff` does so for a lost access path.
2. Exactly-once effect, message conservation, sound delivery rows, and the settle
   decision with one live handler per event.
3. Access loss is computed exactly; tokens that outlive a lost path are
   characterised and shown to exist; codes are single-use; the second factor keeps
   its limit, and its enrollment does between clears of the counter.

## What does not hold, and what holds instead

- `attempt_count` may exceed the maximum number of retries. It does so if and only
  if at some point a handler opens an attempt on a row that is not terminal and has
  none left, which BeginDelivery does not refuse: `RowSoundness.CapPassedIff` for any
  number of handlers, `Delivery.CapPassedIff` for one at a time. With one handler at a
  time the excess is at most the number of interrupted runs (`Delivery.RetryBound`,
  reached by `Delivery.RetryBoundTight`); two concurrent handlers exceed the cap
  without any interruption (`Delivery.TwoHandlersPassCap`).
- Terminal rows are absorbing only with one live handler per (event, application).
  The `MarkDelivery*` updates carry no status guard: `Delivery.TerminalOverwritten`
  says exactly when an operation overwrites a terminal row and
  `Delivery.TwoHandlersUndoSuccess` is a concrete pair of handlers that does it. In
  whole runs a terminal row keeps its status if and only if no handler records the
  different outcome of an attempt it still had open (`RowSoundness.TerminalKeptIff`).
  Unless that happens a handler's verdict agrees with the rows
  (`Exclusive.VerdictUnlessOverturned`), and even then every target of an
  acknowledged message has the event on record (`EndToEnd.AckIsSound`).
- The enrollment throttle does not hold across clears of the counter. A clear, such as
  a visit to the enrollment page, is harmless if and only if the last attempt is more
  than a lock old (`Enrollment.ClearIsHarmlessIff`); runs whose clears are all of that
  kind keep the bound on all their attempts (`Enrollment.LateClearsKeepThrottle`).
  `Enrollment.EnrollDefeatsThrottle` is the concrete input for the rest.
- A confirmed second factor can be downgraded to a pending one, although EnrollPending
  refuses a confirmed credential: it reads and writes in two statements. It happens if
  and only if a confirmation comes between the two (`Enrollment.DowngradedIff`, with
  `Enrollment.DowngradeHappens`).
- An arbitrary outbox drains exactly when fewer than a batch of unsupported rows stand
  ahead of the last supported one (`Outbox.PublisherDrainsIff`). The server never
  writes an unsupported row, so its own outbox always drains, a full batch each
  fault-free round (`Contract.ServerOutboxDrains`).
- An unrevoked token need not have an allow path, because `/token` does not look at
  group policy again: `AuthServer.BackedIff`, `AuthServer.LaggingTokenExists`.
- An acknowledged event does not end sessions stored later. For a revoked central
  session `EndToEnd.SilentForGoodIff`, and for a lost access path
  `EndToEnd.PairSilentIff`, say exactly when none follows.
  `LateSessions.RevokedSessionReturns` and `LateSessions.LostAccessReturns` are runs
  from the initial state in which one does: a logout while a callback is between
  `/userinfo` and its insert, and a policy deleted between the authorization check and
  the redemption of the code.

## Assumptions

Transactions are serialised. Fresh identifiers are unused and never nil; events are
numbered in the order they are written. Every step moves the clock of the Auth Provider,
which the applications share, by at least one instant. So the lifetimes that `Lingering`
says a code or a session must still have are counted in steps, one instant each.
`createdAt` and `processed.at` are the instants at which their transactions commit,
while the program reads some of its timestamps shortly before. The PKCE transformation,
the TOTP verifier and client authentication are parameters or taken as passed; a bearer
token says what its token row says.

## Model

| member | source | states |
|---|---|---|
| Backoff.BackoffFor | auth-provider/sync-worker/internal/worker/worker.go:432-450 | the doubling loop returns min(max, base * 2^n) for every attempt and never leaves int64 |
| Backoff.DoubledIsPower | auth-provider/sync-worker/internal/worker/worker.go:439-445 | repeated doubling is base * 2^n |
| Backoff.ScheduledIsPower | auth-provider/sync-worker/internal/worker/worker.go:432-450 | the wait is 0 without a positive base, the base without a maximum, and otherwise min(max, base * 2^n) |
| Backoff.ScheduledMonotone | auth-provider/sync-worker/internal/worker/worker.go:432-450 | waits never get shorter from one attempt to the next and are never negative |
| Backoff.TotalWaitCap | auth-provider/sync-worker/internal/worker/worker.go:284-306 | k waits take at most k times the cap |
| Backoff.TotalWaitGeometric | auth-provider/sync-worker/internal/worker/worker.go:284-306 | they take base * (2^k - 1) if and only if the last wait does not exceed the cap |
| Delivery.StepFacts | auth-provider/sync-worker/internal/worker/worker.go:222-265 | whatever other handlers do to the row, attempts only grow, a POST is opened under a number no attempt had, success is reported or recorded only after a 2xx |
| Delivery.RunFacts | auth-provider/sync-worker/internal/worker/worker.go:217-308 | an undisturbed run reports the durable outcome, never touches a terminal row, stops at the cap or one attempt past the count it found, and ends without an outcome only after a store error or a cancellation |
| Delivery.StepReports | auth-provider/sync-worker/internal/worker/worker.go:221-307 | what one operation answers for any row: a recorded outcome is reported, a 2xx ends in succeeded, a refusal in retrying at the scheduled instant or, at the cap, in failed; no outcome only after a store error or a cancellation |
| Delivery.RunIsDone | auth-provider/sync-worker/internal/worker/worker.go:221-308 | the retry loop ends, after a number of operations bounded by the attempts left, in every environment |
| Delivery.ContendedEnds | auth-provider/sync-worker/internal/worker/worker.go:221-308 | the loop also ends while any number of other handlers write the row: its own attempt numbers grow strictly up to the cap |
| Delivery.ExhaustedDelivery | auth-provider/sync-worker/internal/worker/worker.go:267-306 | if every POST is refused the row fails at attempt number cap, after all scheduled waits |
| Delivery.ExhaustedWait | auth-provider/sync-worker/internal/worker/worker.go:284-306 | those waits total at most (cap - 1) * max, and base * (2^(cap - 1) - 1) if and only if no wait is cut off |
| Delivery.WaitsInOrder | auth-provider/sync-worker/internal/worker/worker.go:284-306 | in any run from a fresh row attempt k + 1 is preceded by the first k scheduled waits, in order |
| Delivery.WaitsBound | auth-provider/sync-worker/internal/worker/worker.go:284-306 | so any run waits at most (cap - 1) * max |
| Delivery.RetryBound | auth-provider/sync-worker/internal/store/store.go:197-216 | over any crash and restart history attempt_count is at most the cap plus the number of interrupted runs |
| Delivery.RetryBoundTight | auth-provider/sync-worker/internal/store/store.go:197-216 | for every number of interruptions some history reaches that bound |
| Delivery.CapPassedIff | auth-provider/sync-worker/internal/store/store.go:197-216 | with one handler at a time attempt_count exceeds the cap if and only if some run opens an attempt on a row at the cap and not terminal |
| Delivery.TwoHandlersPassCap | auth-provider/sync-worker/internal/store/store.go:197-216 | two handlers, neither interrupted, take a row past a cap of one |
| Delivery.TerminalAbsorbs | auth-provider/sync-worker/internal/store/store.go:197-216 | with one handler at a time a terminal row never changes again |
| Delivery.TerminalOverwritten | auth-provider/sync-worker/internal/store/store.go:219-250 | with several, an operation overwrites a terminal row's status if and only if its handler holds an open attempt with a different outcome |
| Delivery.TwoHandlersUndoSuccess | auth-provider/sync-worker/internal/store/store.go:219-250 | two handlers turn a succeeded row back to retrying |
| Delivery.DeliveryStore.BeginDelivery | auth-provider/sync-worker/internal/store/store.go:172-217 | inserts the row if missing and opens an attempt unless the row is terminal, in one transaction that may fail with or without effect |
| Delivery.DeliveryStore.MarkDeliverySucceeded | auth-provider/sync-worker/internal/store/store.go:219-228 | overwrites the row's status without a guard, and touches no other row |
| Delivery.DeliveryStore.MarkDeliveryRetrying | auth-provider/sync-worker/internal/store/store.go:230-239 | the same for a scheduled retry |
| Delivery.DeliveryStore.MarkDeliveryFailed | auth-provider/sync-worker/internal/store/store.go:241-250 | the same for a failure |
| Delivery.Attempt | auth-provider/sync-worker/internal/worker/worker.go:221-307 | one pass of the loop is a run of operations of the specified program; a succeeded or failed row is reported as it is; a pass that loops has used up an attempt below the cap |
| Delivery.RecordOutcome | auth-provider/sync-worker/internal/worker/worker.go:255-307 | its second half: recording what became of the POST |
| Delivery.Pass | auth-provider/sync-worker/internal/worker/worker.go:221-307 | seen from the start of the run, a pass that loops has used exactly four operations and raised the count |
| Delivery.DeliverTarget | auth-provider/sync-worker/internal/worker/worker.go:217-308 | the loop terminates and is, operation for operation, the specified program on its own row and no other; it reports a row already succeeded or failed unchanged, its report is what the row says, and it reports no outcome only after a store error or a cancellation |
| Worker.ResolveTargets | auth-provider/sync-worker/internal/store/store.go:103-170 | succeeds if and only if every selected application has credentials and a named application was found; lists each selected application once |
| Worker.SelectedExactly | auth-provider/sync-worker/internal/store/store.go:112-140 | selected are exactly the active application the event names or else the active ones with a token row of the user, and of the session if one is named |
| Worker.ConfiguredIsLast | auth-provider/sync-worker/internal/store/store.go:103-170 | of several entries for an application the last one is used |
| Worker.UniqueTargets | auth-provider/sync-worker/internal/worker/worker.go:361-375 | fails on a nil id, else keeps the first target of each id in order |
| Worker.FirstsKeepIds | auth-provider/sync-worker/internal/worker/worker.go:361-375 | no id is lost or invented |
| Worker.FirstsDistinct | auth-provider/sync-worker/internal/worker/worker.go:361-375 | no id is repeated |
| Worker.FirstsAreFirst | auth-provider/sync-worker/internal/worker/worker.go:361-375 | the entry kept is the first one with its id |
| Worker.PlanTargets | auth-provider/sync-worker/internal/worker/worker.go:342-359 | requeue on a store error, reject on missing configuration, otherwise deliver to exactly the selected applications |
| Worker.PlanIsExact | auth-provider/sync-worker/internal/worker/worker.go:342-359 | a delivery names exactly the applications the event concerns, each once, each with credentials |
| Worker.NoPlan | auth-provider/sync-worker/internal/worker/worker.go:342-359 | nothing is delivered after a failing query, which is retried, or for an application without credentials or not active, which is rejected |
| Worker.FoldResults | auth-provider/sync-worker/internal/worker/worker.go:139-171 | requeue if and only if some result is missing, dead-letter if and only if none is and some delivery failed, ACK if and only if all succeeded |
| Worker.SettleIgnoresOrder | auth-provider/sync-worker/internal/worker/worker.go:141-161 | the order in which goroutines finish does not matter |
| Worker.DeliverAll | auth-provider/sync-worker/internal/worker/worker.go:141-150 | each result is its own target's program run on its own row, and no other row changes |
| Worker.ResultsAreDurable | auth-provider/sync-worker/internal/worker/worker.go:139-171 | undisturbed: requeue if and only if some target reported no outcome; otherwise all rows are terminal, dead-letter if and only if one is failed, ACK if and only if all are succeeded |
| Worker.HandleDelivery | auth-provider/sync-worker/internal/worker/worker.go:102-172 | malformed messages are dead-lettered untouched, a failing query requeues, and otherwise requeue, dead-letter and ACK are exactly what the targets' results say |
| AppStore.InternalLogoutFacts | applications/app-a/internal/handlers/internal_logout.go:50-110 | a 2xx, or any change, only with the configured token; a 2xx only for an event on record; a rejected request leaves no trace; only live sessions the event concerns change |
| AppStore.ProcessExactly | applications/app-a/internal/store/store.go:204-247 | the first delivery of an event revokes exactly the live sessions of its central session or, for the two other types, of its user, and records it |
| AppStore.HandleInternalLogout | applications/app-a/internal/handlers/internal_logout.go:29-111 | for every request and fault: no token configured, wrong token, malformed event and database failure each get their own answer and change nothing; otherwise the event is on record |
| AppStore.RecordedIff | applications/app-a/internal/store/store.go:204-247 | after any history an event is on record if and only if it was or was delivered |
| AppStore.ExactlyOnce | applications/app-a/internal/store/store.go:204-247 | any history leaves both tables as if every repeated delivery had not happened |
| AppStore.RevokedForGood | applications/app-a/internal/store/store.go:48-53 | a revoked session's row never changes again and is never active again |
| AppStore.Survivors | applications/app-a/internal/store/store.go:87-124 | without logins, exactly the sessions no event or logout hits survive |
| AppStore.OrderIrrelevant | applications/app-a/internal/store/store.go:204-247 | without logins the live sessions depend only on which events and logouts happened, not on order, repetition or timing |
| AppStore.Store.ProcessRevocation | applications/app-a/internal/store/store.go:204-247 | record and revoke in one transaction or neither, counting exactly the sessions revoked; a duplicate revokes none |
| AppStore.Store.RevokeWhere | applications/app-a/internal/store/store.go:100-124 | exactly the live selected sessions change |
| AppStore.Store.Create | applications/app-a/internal/store/store.go:66-74 | inserts the given session, live, under a fresh id, under every fault of the statement; a failing one may still have committed |
| AppStore.Store.FindActiveSession | applications/app-a/internal/store/store.go:34-53 | finds a session if and only if it is active, not revoked and not expired |
| AppStore.Store.Revoke | applications/app-a/internal/store/store.go:87-96 | revokes one session if it is live |
| Outbox.RoutingKeyForEvent | shared/queue/queue.go:36-45 | the lookup loop finds a key exactly for the three known types |
| Outbox.BatchIsOldest | auth-provider/sync-worker/internal/store/store.go:58-72 | a batch is the oldest rows not yet marked |
| Outbox.OutboxPublisher.PublishRow | shared/queue/queue.go:337-356 | one row: handed over only with a routing key, marked only after the broker took and confirmed it, success only if the mark committed too |
| Outbox.OutboxPublisher.PublishBatch | shared/queue/queue.go:319-358 | one round over the oldest unpublished rows: a bad row does not stop the rest and the first trouble is reported; success means every row of the batch was taken, confirmed and marked |
| Outbox.FirstTroubleFacts | shared/queue/queue.go:336-357 | a round succeeds if and only if every row was published and marked; otherwise the first that was not is named |
| Outbox.PublishedWasSent | shared/queue/queue.go:319-358 | over any rounds with any faults, what is marked was handed over, taken and confirmed by the broker, and only supported types are handed over |
| Outbox.DrainRate | auth-provider/sync-worker/internal/store/store.go:58-90 | on the list of pending rows: with u unsupported ones and batch size B > u, each fault-free round takes B - u supported rows |
| Outbox.DrainsIff | auth-provider/sync-worker/internal/store/store.go:66-72 | on the list of pending rows: it drains eventually if and only if fewer than a batch of unsupported rows stand ahead of the last supported one |
| Outbox.RoundIsAfterRound | shared/queue/queue.go:319-358 | a fault-free round of the publisher is a round of the drain model |
| Outbox.PublisherDrainRate | shared/queue/queue.go:319-358 | from any state of the publisher, k fault-free rounds mark every supported row once k * (B - u) >= n |
| Outbox.PublisherDrainsIff | shared/queue/queue.go:319-358 | from any state fault-free rounds of the publisher mark every supported row eventually if and only if fewer than a batch of unsupported pending rows stand ahead of the last supported one |
| SessionStore.RevokeEachSessions | auth-provider/server/internal/repository/users.go:351-366 | the revoking loop revokes exactly the sessions it is given |
| SessionStore.RevokeEachEvents | auth-provider/server/internal/repository/users.go:351-366 | and appends one event for each, in order |
| SessionStore.ApplyAgrees | auth-provider/server/internal/repository/sessions.go:62-125 | every transaction keeps sessions and outbox in agreement |
| SessionStore.RevokedIffNamedOnce | auth-provider/server/internal/repository/sessions.go:62-154 | over every run, committed or rolled back, a session is revoked if and only if exactly one outbox event names it |
| SessionStore.Repository.RevokeRow | auth-provider/server/internal/repository/sessions.go:138-154 | the guarded update hits exactly the live row or reports that there is none |
| SessionStore.Repository.RevokeLoop | auth-provider/server/internal/repository/sessions.go:86-96 | the loop is the specified bulk revocation unless an event insert fails |
| SessionStore.Repository.RevokeAndCreateEvent | auth-provider/server/internal/repository/sessions.go:62-79 | logout of a usable session: it is revoked and its event written, both or neither |
| SessionStore.Repository.RevokeAllForUser | auth-provider/server/internal/repository/sessions.go:81-97 | all the user's live sessions and no other are revoked, with one event for each, all or none |
| SessionStore.Repository.SetUserStatusAndRevoke | auth-provider/server/internal/repository/sessions.go:99-125 | the status is set, and on deactivation exactly the user's live sessions are revoked with one event for each, all or none |
| SessionStore.Repository.UpdateUserAndRevoke | auth-provider/server/internal/repository/users.go:313-375 | a password change revokes exactly the user's live sessions with one event for each, other updates none |
| Access.DeleteSelectsLosers | auth-provider/server/internal/repository/policies.go:84-97 | the query run after the delete selects exactly the pairs that had an allow path and have none |
| Access.RemoveSelectsLosers | auth-provider/server/internal/repository/groups.go:66-80 | so does the one run before the delete |
| Access.RevokedIsLost | auth-provider/server/internal/repository/groups.go:57-102 | every transaction revokes the pairs that lost their last path, each once, and no other |
| Access.LossIsExact | auth-provider/server/internal/repository/policies.go:73-112 | an unrevoked token is revoked if and only if its pair lost its last path; one event per such pair; everything else is unchanged |
| Access.ChangesAreLocal | auth-provider/server/internal/repository/policies.go:44-112 | a new policy or membership gives access to exactly the pairs of its row, a removed one takes it from none but those |
| Access.Telescoping | auth-provider/server/internal/repository/groups.go:53-102 | over any run events equal losses, and gains minus losses equal access now minus access at the start |
| Access.Repository.Set | auth-provider/server/internal/repository/policies.go:44-57 | idempotent insert under the foreign keys on application and group |
| Access.Repository.Add | auth-provider/server/internal/repository/groups.go:53-55 | succeeds exactly for a known user and group that are not joined yet |
| Access.Repository.Delete | auth-provider/server/internal/repository/policies.go:73-112 | delete, query, revoke: the specified transaction, rolled back on any failure |
| Access.Repository.Remove | auth-provider/server/internal/repository/groups.go:57-102 | query, delete, revoke: the specified transaction, rolled back on any failure |
| AuthServer.StepKeepsInv | auth-provider/server/internal/handlers/auth.go:682-851 | every step of every request keeps codes, tokens, requests in flight, sessions and outbox consistent |
| AuthServer.CodesAreSingleUse | auth-provider/server/internal/repository/authorization_codes.go:51-67 | for every interleaving and failed insert, a code is used if and only if exactly one token row came from it, with the code's user, application and session, redirect URI and a matching verifier |
| AuthServer.LaggingTokens | auth-provider/server/internal/handlers/auth.go:776-851 | an unrevoked token without an allow path was redeemed after the pair's last loss, from a code checked before that loss |
| AuthServer.LossIsNoted | auth-provider/server/internal/repository/policies.go:73-112 | the last loss of a pair is the last transaction that took its last path |
| AuthServer.BackedIff | auth-provider/server/internal/handlers/auth.go:682-721 | every unrevoked token has an allow path throughout a run if and only if every redemption in it happened while the pair had one |
| AuthServer.LaggingTokenExists | auth-provider/server/internal/handlers/auth.go:776-851 | a run that deletes the policy between the authorization check and the token request leaves an unrevoked token without a path |
| AuthServer.StepPasses | auth-provider/server/internal/handlers/auth.go:900-927 | no callback passes the session check of /userinfo anew unless the session is usable at that moment |
| Handlers.AuthHandler.Redeem | auth-provider/server/internal/repository/authorization_codes.go:51-67 | code and token row, both or neither |
| Handlers.AuthHandler.Authorize | auth-provider/server/internal/handlers/auth.go:613-728 | a code, carrying what was asked, is issued if and only if the request is well-formed, its redirect URI registered, and application, session, user and policy all pass |
| Handlers.AuthHandler.Token | auth-provider/server/internal/handlers/auth.go:750-854 | a token row, carrying what the code says, is made if and only if request, client, code, challenge, session and user pass and the insert succeeds; otherwise nothing changes |
| Handlers.AuthHandler.UserInfo | auth-provider/server/internal/handlers/auth.go:862-949 | answers if and only if the client is authenticated, the token row unrevoked, unexpired and as the bearer says, its session live and its user's, the user active, and the groups can be read |
| Handlers.AuthorizeRun | auth-provider/server/internal/handlers/auth.go:682-728 | the specified effect of a well-formed /authorize request is the run of its interleaved steps |
| Handlers.TokenRun | auth-provider/server/internal/handlers/auth.go:776-854 | so is that of /token: token row and bearer, or nothing |
| Handlers.UserInfoRun | auth-provider/server/internal/handlers/auth.go:862-949 | a bearer passes the steps of /userinfo, one after the other, if and only if the program's checks pass |
| Handlers.Callback | applications/app-a/internal/handlers/oauth.go:61-103 | exchange, profile, session: stores a session if and only if the code can be redeemed, the profile read and cached and the insert commits under a fresh id, with the token row already there; only a clean insert is reported as success |
| Mfa.Limits | auth-provider/server/internal/handlers/auth.go:219-261 | for every interleaving of any number of requests at most five codes are verified, at most one session is made, from a claimed attempt with a valid code |
| Mfa.VerifiedCompletes | auth-provider/server/internal/repository/users.go:77-90 | who verified a code completes if and only if nobody else has and the challenge is not expired |
| Mfa.LastClaimCompletes | auth-provider/server/internal/repository/users.go:77-90 | the holder of any unspent claim, the fifth included, can still log in |
| Mfa.GuardsDiffer | auth-provider/server/internal/repository/users.go:54-90 | a reachable state where nothing can be claimed but five claims can be consumed |
| Mfa.MfaRepository.FindActive | auth-provider/server/internal/repository/users.go:31-43 | finds exactly the claimable challenge |
| Mfa.MfaRepository.ClaimAttempt | auth-provider/server/internal/repository/users.go:54-62 | counts one attempt or touches nothing, and reports a claim only if it counted |
| Mfa.MfaRepository.ConsumeAndCreateSession | auth-provider/server/internal/repository/users.go:77-90 | challenge used and session inserted, both or neither |
| Mfa.LoginRun | auth-provider/server/internal/handlers/auth.go:219-261 | what the four steps, one after the other, make of challenge and sessions |
| Mfa.LoginMfa | auth-provider/server/internal/handlers/auth.go:219-261 | the request is the run of its four steps: a session is made only after a claim, for a code the verifier accepts, under every fault of both statements |
| Enrollment.RunKeepsSpacing | auth-provider/server/internal/repository/users.go:202-216 | between clears, from the maxAttempts-th grant on grants are more than the lock apart |
| Enrollment.WindowBound | auth-provider/server/internal/repository/users.go:202-216 | since the last clear, at most maxAttempts grants in any window of the lock's length |
| Enrollment.ClearIsHarmlessIff | auth-provider/server/internal/repository/users.go:130-154 | a clear keeps at most maxAttempts of all attempts, old and new, in every such window of every continuation if and only if they did before and the last one is more than a lock old |
| Enrollment.LateClearsKeepThrottle | auth-provider/server/internal/repository/users.go:130-154 | a run with only such clears keeps the bound on all its attempts |
| Enrollment.LongRunBound | auth-provider/server/internal/repository/users.go:202-216 | at most maxAttempts + floor(T / lock) grants in the T after the first |
| Enrollment.LongRunTight | auth-provider/server/internal/repository/users.go:202-216 | maxAttempts + floor(T / (lock + 1)) in instants is reached for every T |
| Enrollment.EnrollDefeatsThrottle | auth-provider/server/internal/repository/users.go:130-154 | across clears any number of attempts is granted in one instant |
| Enrollment.DowngradedIff | auth-provider/server/internal/repository/users.go:130-154 | a step turns a confirmed credential into a pending one if and only if it is the write of an enrollment that read it pending, with a confirmation and no other such write in between |
| Enrollment.DowngradeHappens | auth-provider/server/internal/repository/users.go:130-154 | a run in which that happens |
| Enrollment.TotpRepository.EnrollPending | auth-provider/server/internal/repository/users.go:130-154 | uninterrupted: writes a pending credential with a cleared counter, never over a confirmed one |
| Enrollment.TotpRepository.WriteEnrollment | auth-provider/server/internal/repository/users.go:130-154 | its second statement alone: overwrites whatever is there by then |
| Enrollment.TotpRepository.ClaimEnrollAttempt | auth-provider/server/internal/repository/users.go:202-216 | grants if and only if the row is not locked, counting and locking in the same statement |
| Enrollment.TotpRepository.ResetEnrollAttempts | auth-provider/server/internal/repository/users.go:220-223 | clears counter and lock |
| Enrollment.ConfirmMfaEnrollment | auth-provider/server/internal/handlers/auth.go:441-474 | succeeds if and only if the claim is granted, the code is valid and the confirmation commits; under every fault of its three statements the credential is left as the specified steps leave it |
| Contract.StepAppends | auth-provider/server/internal/repository/audit_events.go:35-77 | every step only appends to the outbox, and only events of the shape the constructors give them |
| Contract.EventsAreValid | auth-provider/sync-worker/internal/worker/worker.go:403-415 | every event ever written has a routing key and is valid to the worker if and only if its reason is not empty |
| Contract.AccessEventPlan | auth-provider/sync-worker/internal/store/store.go:114-168 | an AccessPolicyChanged event is delivered to exactly its own application if that is active and configured, and rejected if it is not |
| Contract.SelectedAppAccepts | applications/app-a/internal/handlers/internal_logout.go:50-84 | an application the event is sent to finds it well-formed unless it is configured with another application's id |
| Contract.NeverRejected | applications/app-a/internal/handlers/internal_logout.go:50-110 | in every run an event sent to an application that knows its id and the token is refused only when the application's database fails |
| Contract.ServerOutboxDrains | shared/queue/queue.go:319-358 | in every run of the server, from any state of the publisher, k fault-free rounds mark every event once k batches hold the pending rows |
| Conservation.EveryCopyInOneBook | auth-provider/sync-worker/main.go:240-272 | over every run an accepted message is in exactly one of ready, unacked, acked, dead-lettered |
| Conservation.LeavesOnlyWhenSettled | auth-provider/sync-worker/internal/worker/worker.go:391-401 | a message leaves only by the ACK or dead-lettering NACK of the one live handler holding it, for good; a requeueing NACK makes it ready |
| Conservation.LostBooks | auth-provider/sync-worker/main.go:361-381 | connection loss and process death return every unsettled message, prefetched, held or discarded unread, to the queue |
| Conservation.RunConsumerLoop | auth-provider/sync-worker/main.go:240-272 | the loop hands exactly the deliveries before the signal to handlers, in order, but for goroutines that see the signal too; it is a run of the pipeline that settles nothing and leaves the rest unacked, held by nobody or still in the channel |
| Conservation.AllHandled | auth-provider/sync-worker/main.go:240-272 | without a signal every delivery is handled |
| Conservation.RedeliveredAfterLoss | auth-provider/sync-worker/main.go:361-381 | all of these are ready again once the connection is gone |
| Conservation.DrainDeliveriesUnacked | auth-provider/sync-worker/main.go:361-381 | the drain, up to its deadline, leaves every message it reads unacked and held by nobody, and settles none |
| Conservation.MarkedIsAccounted | shared/queue/queue.go:345-355 | every event marked published is in the broker, acknowledged or dead-lettered |
| RowSoundness.PostsAreNumbered | auth-provider/sync-worker/internal/worker/worker.go:222-265 | under any interleaving of handlers no two POSTs for an event and application carry the same attempt number, and the row has counted each |
| RowSoundness.AttemptsOnlyGrow | auth-provider/sync-worker/internal/store/store.go:172-250 | attempt_count never decreases |
| RowSoundness.CapPassedIff | auth-provider/sync-worker/internal/store/store.go:197-216 | in every run of any number of handlers the cap is exceeded if and only if a handler opened an attempt on a row at the cap and not terminal |
| RowSoundness.TerminalKeptIff | auth-provider/sync-worker/internal/store/store.go:219-250 | from every state and for any number of handlers a terminal row keeps its status through a run if and only if no handler records the different outcome of an open attempt |
| Exclusive.VerdictIsDurable | auth-provider/sync-worker/internal/worker/worker.go:139-171 | with one handler per event: requeue if and only if some program reports no outcome; otherwise dead-letter if and only if some row is failed, ACK if and only if all are succeeded |
| Exclusive.VerdictOfReports | auth-provider/sync-worker/internal/worker/worker.go:139-171 | the verdict in terms of what the programs report, both ways |
| Exclusive.VerdictWithoutTargets | auth-provider/sync-worker/internal/worker/worker.go:102-138 | malformed and rejected events are dead-lettered, failed resolutions requeued |
| Exclusive.VerdictUnlessOverturned | auth-provider/sync-worker/internal/worker/worker.go:139-171 | with any number of handlers per event the same, unless a terminal row of the event was overwritten that way |
| Exclusive.VerdictIgnoresArrival | auth-provider/sync-worker/internal/worker/worker.go:141-161 | the verdict is the same for every arrival order |
| Exclusive.TerminalIsFinal | auth-provider/sync-worker/internal/store/store.go:197-250 | with one handler per event terminal rows are absorbing |
| EndToEnd.SucceededIsRecorded | auth-provider/sync-worker/internal/store/store.go:219-228 | in every run a succeeded row means the application has the event on record |
| EndToEnd.AckIsSound | auth-provider/sync-worker/internal/worker/worker.go:139-171 | with any number of handlers an ACK verdict means every target has the event on record |
| EndToEnd.MustIsSelected | auth-provider/sync-worker/internal/store/store.go:120-130 | every application with a local session of the central session, or about to store one, is selected by target resolution |
| EndToEnd.BoundStays | auth-provider/server/internal/handlers/auth.go:908-927 | once an event names a session no application becomes bound to it |
| EndToEnd.StoredByCallback | applications/app-a/internal/handlers/oauth.go:61-103 | an application gains a session only from a callback whose profile was answered, for its user and central session |
| EndToEnd.StepKeepsInv | auth-provider/sync-worker/internal/worker/worker.go:102-172 | every step of the whole system keeps the invariant behind the results below |
| EndToEnd.RevocationIsEffective | auth-provider/sync-worker/internal/worker/worker.go:102-172 | once a message is acknowledged, any live session its event was meant to end was created after its application processed the event |
| EndToEnd.DrainedMeansRevoked | auth-provider/sync-worker/internal/worker/worker.go:102-172 | the same for every published event that was not dead-lettered once the broker is empty |
| EndToEnd.SilentForGoodIff | applications/app-a/internal/handlers/oauth.go:61-103 | a revoked session stays out of an application for good if and only if none is live there and no callback is past the session check |
| EndToEnd.PairSilentIff | auth-provider/server/internal/handlers/auth.go:776-851 | while a pair has no path its user stays without a live session in the application if and only if there is none and no code or request of the pair can still be carried to its end |
| LateSessions.RevokedSessionReturns | applications/app-a/internal/handlers/oauth.go:61-103 | from the initial state, for every wiring with the application configured, a run in which a live session of a revoked central session exists after its event was acknowledged |
| LateSessions.LostAccessReturns | auth-provider/server/internal/handlers/auth.go:776-851 | the same for a lost access path |
| Lingering.StepFinishesNothingNew | auth-provider/server/internal/handlers/auth.go:682-721 | while a pair has no path no step makes anything that can end in a session |
| Lingering.LostTokensAreRefused | auth-provider/server/internal/handlers/auth.go:900-913 | once a pair has lost its last path /userinfo refuses every token issued to it before, in every continuation |
| Lingering.Advance | auth-provider/server/internal/handlers/auth.go:776-927 | whatever can still end in a session can be taken one step further |

## Left out

- Control panel, HTML pages, health and metrics endpoints, audit and activity logs, profile cache: no invariant beyond what is here.
- Cryptography (SHA-256, bcrypt, AES-GCM, TOTP, JWT signatures, random tokens): parameters, or identified with the rows they stand for.
- Isolation anomalies: transactions are serialised.
- Wall-clock shutdown budgets, wait groups and goroutine scheduling in `main.go`: kept is what shutdown does to messages, in `Conservation.RunConsumerLoop` and as the steps Prefetch, Dispatch, Discard, ConnectionLost and Crash.
- The broker's prefetch limit of eight: any number of messages may be prefetched, which allows more runs.
- Goroutines of one handler in `Worker.DeliverAll` run one after the other on separate rows; their interleaving with each other and with other handlers is in `Pipeline`.
- The publisher's polling loop and final drain: any number of rounds, and in `Pipeline` any interleaving of single publications and marks.
- Login and the one-time `state` of the application's login redirect: sign-in is one step that creates a session, and a callback starts with the code exchange.
- In the interleaved model the last read of `/userinfo`, the user's groups, is a request that may be abandoned; `Handlers.AuthHandler.UserInfo` has it.
- Worker configurations without a target resolver: the program always installs one.
- Repository helpers no handler calls (`Revoke` without an event, `ConsumeAtomically`, `IncrementAttempts`, `Consume`, `RecordEvent`, `RecordEnrollFailure`).
- Contract.EventsAreValid: the reason given to `RevokeAllForUser` is free, so validity is stated up to a non-empty reason; no handler calls that function.
- Contract.NeverRejected: holds for an application configured with its own id; `Contract.SelectedAppAccepts` says exactly which others reject.
- Exclusive.VerdictIsDurable: assumes one handler per event at every point of the run, which duplicates of a message can break; `Exclusive.VerdictUnlessOverturned` says what is left without that.
- Enrollment.WindowBound: counts from the last clear of the counter; `Enrollment.ClearIsHarmlessIff` says exactly when the bound survives a clear.
- Conservation.DrainDeliveriesUnacked: the deadline is a number of messages, not an instant.
- Handlers.AuthHandler.Token: client authentication is one boolean; every code is taken to carry the method S256, the only one `/authorize` writes.
- `PolicyRepository.Set` reads and inserts in two statements; the read changes nothing and the insert is one step.
