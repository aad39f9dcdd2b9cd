# A verified model of the ACS

This project models the state machines of a TR-069 Auto Configuration Server and proves what every run of them keeps. It is written in Dafny 4.11; `dafny verify dfyconfig.toml` checks all of it.

An Inform opens a CWMP session, recovers what earlier sessions left behind and releases parked diagnostics. Every later POST answers the job in flight, leases the next one and sends its RPC, or closes the session. TransferComplete arrives outside that flow. Around this core sit the upload receipt protocol, the firmware rollout, the graduation of a device from the shared bootstrap credential to its own, the Connection Request worker, two small caches and two text formats.

| file | what it holds |
|---|---|
| `Options.dfy` | the optional value |
| `Paths.dfy` | parameter paths, their order, and the limit on instances of a table |
| `Discovery.dfy` | the incremental discovery walk stored in a job |
| `Verification.dfy` | parameter writes, the read-back comparison, sealed secret handles |
| `Jobs.dfy` | one job row: what an answer, a lease, a dropped session, a TransferComplete or the reaper does to it |
| `Gateway.dfy` | the store and the steps of the gateway as a state machine |
| `GatewayService.dfy` | the handlers as a class that updates the store in place, proved against `Gateway` |
| `SingleFlight.dfy`, `Isolation.dfy`, `SessionEnds.dfy`, `Transfers.dfy`, `Diagnostics.dfy`, `Retries.dfy`, `VerifiedWrites.dfy` | properties of all runs of the gateway |
| `UploadReceipt.dfy` | concurrent PUTs on one upload slot |
| `Rollout.dfy` | waves, brake and rollback |
| `Graduation.dfy`, `BootstrapCookie.dfy` | the guard stack, the credential lifecycle, and the cookie of the graduation exchange |
| `ConnectionRequests.dfy` | the Connection Request worker |
| `TokenVersions.dfy`, `SpentTickets.dfy` | the token-version cache and the spent-ticket map |
| `DiscoveryLibrary.dfy` | the per-firmware library of discovered parameters |

## Assumptions

- A request handler is one atomic step, and store operations do not fail, except where a model says otherwise: upload receipt and the token-version cache interleave the steps of their requests; upload receipt lets disk and database fail; rollout lets queueing and recording fail; discovery lets persisting fail.
- Rows are identified by their position, so a smaller id is an older row. Command keys are unique, so a TransferComplete names at most one job.
- What a handler learns from outside (the clock, firmware, write-only parameters, sealed secrets, the reads and writes other subsystems ask for) is one record, `Env`, given per request.
- Jobs queued from outside are as the creating code makes them: a write has not reached its read-back, and a walk is one that steps from a fresh walk could have reached.
- A digest is a function of the bytes; a ticket stands for its own hash; a Digest or Basic proof is a boolean of the request.

## What turned out different from the documentation

- A session need not end. A CPE that answers the verification read with a SetParameterValuesResponse has the read queued again every time, past every attempt limit (`SessionEnds.RestartedReadbackNeverEnds`). `SessionEnds.OnlyRestartRequeues` shows that no other answer does this, and `SessionEnds.SessionEnds` is the bound that holds without it.
- A verified write can succeed without its read-back: handleTransferComplete looks at the status of the job a CommandKey names, not at its type (`VerifiedWrites.TransferCompleteSkipsReadback`). It does so exactly when an admitted, fault-free TransferComplete names it while it is in flight (`VerifiedWrites.UnconfirmedExactlyBySkip` for one step, `VerifiedWrites.SuccessIsConfirmed` for every run).
- A diagnostic is sent once per Inform, but not once per session: a POST on an older session that is still open sends it there again (`Diagnostics.OldSessionSendsTwice`). The dispatch that repeats is always the one on the old session (`Diagnostics.OnlyOldSessionsRepeat`). In the same way two open sessions of a device can each have a job in flight (`SingleFlight.OldSessionDoubles`).
- The ACS recognises a transfer it gave up on by its stored fault code. A CPE that reports one of those three codes itself can have its outcome replaced later, and only then (`Transfers.OutcomeIsFinal`).
- When the CPE answers a Download or Upload with something other than its response, the order of that answer and a successful TransferComplete matters (`Transfers.TransferOrder` gives the exact condition).
- credentials.Activate promotes a row of any status, where its comment says PENDING; a revoked Connection Request credential can be brought back by hand (`Graduation.RevokedConnectionRequestReturns`). Digest credentials cannot (`Graduation.RevokedDigestStays`).
- Downloads that MarkDispatched failed to record are invisible to the rollout brake (`Rollout.LostRecordsEscapeTheBrake`). `Rollout.HurtDevicesBound` gives the bound that holds in every run, with those devices as its last term.
- A logout takes effect immediately on this replica only if no revocation check is between its lookup and its store (`TokenVersions.LogoutTakesEffectAtOnce`, `TokenVersions.FetchAcrossLogout`), and a revoked token can outlive the TTL by as long as such a lookup takes (`TokenVersions.SlowLookupOutlivesTtl`).
- The rollback does not reach every device that takes the bad build: a download that succeeds after the brake fired is left out (`Rollout.LateSuccessKeepsBuild`). `Rollout.RollbackTargets` says exactly which devices it reaches.
- Exporting an older walk again can change the type of a parameter row, and nothing else (`DiscoveryLibrary.ReexportChangesOnlyTypes`, `DiscoveryLibrary.TypesFlip`).
- The library file reads back also with an empty path (`DiscoveryLibrary.FileRoundTrip`).
- A failed rename leaves an upload slot RECEIVED with nothing to serve (`UploadReceipt.FailedRenameLosesTheFile`). A received slot has a file exactly when the one request that committed it was promoted (`UploadReceipt.ReceivedHasOneOwner`).

## Model

| member | source | states |
|---|---|---|
| Paths.CollapseInstances | backend/internal/jobs/discovery.go:239-277 | The three loops keep, in order, exactly the listed objects that are no instance or whose table lists fewer lower-numbered instances than its limit. |
| Paths.KeptIsAllowed | backend/internal/jobs/discovery.go:251-265 | That is the sorted list cut at the limit: an instance is kept exactly when its number is among the lowest ones. |
| Paths.ShortTableKeptWhole | backend/internal/jobs/discovery.go:208-212 | A table that lists no more instances than its limit is walked whole. |
| Discovery.AdvanceDiscovery | backend/internal/jobs/discovery.go:27-72 | The loops over the answered names, the sort and the collapse compute exactly the step the walk's state machine takes: refuse, continue at the next new object, or finish. |
| Discovery.AdvanceKeepsSound | backend/internal/jobs/discovery.go:27-72 | Taking an answer keeps the walk sound: nothing queued twice, nothing visited queued, the object budget kept; what the walk knows grows by exactly the new children. |
| Discovery.SkipKeepsSound | backend/internal/jobs/discovery.go:87-114 | Deferring or giving up an object keeps the walk sound, forgets nothing, and uses up one of its chances. |
| Discovery.WalkEnds | backend/internal/jobs/discovery.go:15-114 | Whatever the CPE answers, a walk takes fewer answers than its remaining steps, 1025 from the start. |
| Discovery.RequestedAtMostTwice | backend/internal/jobs/discovery.go:78-114 | No object is requested more than twice in a walk, and none after it was visited. |
| Discovery.FinishedWalkIsComplete | backend/internal/jobs/discovery.go:27-114 | A walk that finishes has visited exactly what it knew or admitted; each of those objects was either answered with names or given up after two failures, never both, and at most 32 were given up; its names are exactly those its answers reported. |
| Discovery.AdmittedExactly | backend/internal/jobs/discovery.go:39-60 | A reported object is admitted exactly when it is new to the walk and fewer instances of its table with a lower number are reported than the table's limit. |
| Verification.CompareReadback | backend/internal/jobs/verification.go:48-76 | The four lists the loop builds make the success test true exactly when every checked parameter is reported with the value written and there is at least one; their sizes account for every parameter. |
| Verification.ConfirmedHasPath | backend/internal/jobs/verification.go:28-47 | A write has a verification path exactly when some parameter is neither sensitive nor known unreadable. |
| Verification.SecretStore.OpenSecretHandles | backend/cmd/acs/dispatch.go:73-110 | Succeeds exactly when every handle opens, and then equals plain substitution; each distinct handle is opened once, in order of first use, up to the first that cannot be, and what was opened is used up on failure too. |
| Verification.SubstituteLeavesNoHandle | backend/cmd/acs/dispatch.go:73-110 | After substitution no handle is left, equal handles have equal values, and order, names and plain writes are unchanged. |
| Verification.HandlesAreDistinct | backend/cmd/acs/dispatch.go:84-103 | The handles opened are exactly those in use, each once. |
| Jobs.SentJobsAreRenderable | backend/cmd/acs/dispatch.go:114-282 | A job whose RPC is sent is of a type and payload renderJobRequest accepts, and nothing but its payload was touched on the way. |
| Jobs.AnsweredLeavesFlight | backend/cmd/acs/dispatch.go:292-521 | Every job that can be in flight leaves RPC_SENT when answered, whatever the answer; it keeps its device, type and attempts and queues only new reads or walks of the same device. |
| Gateway.NextQueuedIsOldest | backend/internal/jobs/lease.go:61-107 | Lease never passes over an older job the session could send. |
| Gateway.AnswerRow | backend/cmd/acs/session.go:571-578 | Answering changes the row of the session's current job if it is this device's and in flight, and no other row. |
| GatewayService.Handler.Lease | backend/internal/jobs/lease.go:61-107 | The scan leases exactly the oldest queued job the session may send, with one attempt more, and changes nothing else. |
| GatewayService.Handler.CompleteSetParameter | backend/cmd/acs/dispatch.go:327-384 | The branches for a write and its read-back leave the store the specification gives. |
| GatewayService.Handler.CompleteWalk | backend/cmd/acs/discovery.go:83-151 | Fault, empty answer, fallback, merge and walk each leave the specified rows. |
| GatewayService.Handler.CollectWritable | backend/cmd/acs/discovery.go:122-126 | The loop builds the dictionary of the list, a later entry overriding an earlier one. |
| GatewayService.Handler.CompleteJob | backend/cmd/acs/dispatch.go:292-521 | For every job type and answer the store ends where the state machine puts it. |
| GatewayService.Handler.Dispatch | backend/cmd/acs/session.go:536-638 | Every POST that is neither Inform nor TransferComplete takes the store, and replies, exactly as the state machine says, refusals included. |
| GatewayService.Handler.HandleTransferComplete | backend/cmd/acs/session.go:745-807 | A TransferComplete takes the store exactly where the state machine says. |
| GatewayService.Handler.RecoverAbandonedDiscovery | backend/cmd/acs/discovery.go:273-286 | The loop skips the object of each walk in flight and leaves root-level and legacy walks alone. |
| GatewayService.Handler.RecoverDroppedSessionJobs | backend/cmd/acs/session.go:918-957 | The loop settles each dropped job as its classification says and touches no other row. |
| GatewayService.Handler.ReleaseAwaitingDiagnostics | backend/internal/jobs/diagnostics.go:113-124 | Exactly the device's parked diagnostics are queued again. |
| GatewayService.Handler.HandleInform | backend/cmd/acs/session.go:286-440 | An Inform is refused or takes the store exactly where the state machine says: device, session, recovery, release, in that order. |
| SingleFlight.AtMostOneInFlight | backend/cmd/acs/session.go:571-598 | In every run in which the device posts on its latest session, whatever other devices do and leases expire, its job in RPC_SENT is the current job of that session or a discovery walk left to the reaper, and two such jobs are never both the former. |
| SingleFlight.OldSessionDoubles | backend/cmd/acs/session.go:571-598 | Without that, two open sessions of a device are each sent a job. |
| SingleFlight.RootWalkIsStranded | backend/cmd/acs/discovery.go:273-286 | The exception is real: a walk still at its root survives the next Inform in RPC_SENT with no session holding it. |
| Isolation.RequestStaysInsideItsDevice | backend/cmd/acs/session.go:318-343 | In every run, a request authenticated by a per-device credential or a certificate with a CommonName changes and adds only rows of that device and is sent only that device's RPCs; the first Inform of an unregistered device included. |
| Isolation.KeysStayDistinct | backend/cmd/acs/session.go:345-350 | No run gives two device rows the same natural key. |
| SessionEnds.DispatchSpends | backend/cmd/acs/session.go:571-592 | Every dispatch uses up at least one unit of a measure over the device's jobs and the open session, apart from named credit. |
| SessionEnds.SessionBudget | backend/cmd/acs/session.go:536-638 | Over any run in which the device does not Inform again, leases expiring or not, POSTs served on a session plus the work left never exceed the work stored at the start, one closing POST, and the credit brought in from outside or by the reaper. |
| SessionEnds.SessionEnds | backend/cmd/acs/session.go:536-638 | With no new Inform of the device, nothing added from outside, nothing put back by the reaper and no restarted read-back, a session serves at most one POST per unit of stored work and one more, which closes it. |
| SessionEnds.ReapCostsOne | backend/internal/jobs/lease.go:245-296 | What the reaper puts back costs one unit per job it queues again, and nothing for a job it gives up. |
| SessionEnds.OnlyRestartRequeues | backend/cmd/acs/dispatch.go:327-359 | Answering a verification read puts the job back in the queue exactly when the answer is a fault-free SetParameterValuesResponse. |
| SessionEnds.ReadbackReached | backend/cmd/acs/dispatch.go:352-359 | The state of that loop is reached by queueing one verified write and acknowledging it. |
| SessionEnds.RestartedReadbackNeverEnds | backend/cmd/acs/dispatch.go:352-359 | From there n such answers leave the session open and the read in flight again, for every n. |
| Transfers.TransferOrder | backend/cmd/acs/session.go:770-803 | Response and TransferComplete give the transfer the same row in either order, whatever other devices and jobs do in between; with another answer to the RPC, statuses agree exactly when the TransferComplete is a fault or the answer's fault reads as the ACS's own. |
| Transfers.AcceptanceCommutes | backend/cmd/acs/dispatch.go:416-443 | The whole store agrees in either order of acceptance and TransferComplete, confirmation read included. |
| Transfers.RepeatChangesNothing | backend/cmd/acs/session.go:776-782 | A repeated TransferComplete changes no row and queues nothing, whatever the job's state. |
| Transfers.OutcomeIsFinal | backend/internal/jobs/session_recovery.go:128-137 | Once an outcome is applied, a different one is ignored exactly unless the first was one of the ACS's own give-up codes. |
| Transfers.FinishedMovesOnlyLate | backend/cmd/acs/session.go:770-782 | No step of any kind moves a finished job, except a TransferComplete naming one the ACS had given up on; it stays finished. |
| Transfers.SettledForEver | backend/cmd/acs/session.go:770-782 | A finished job the ACS had not given up on keeps its row in every continuation. |
| Transfers.OnlyReaperGivesUp | backend/internal/jobs/lease.go:245-316 | A transfer becomes reconcilable only through the reaper, or a CPE fault that repeats the ACS's code. |
| Diagnostics.DispatchedOncePerInform | backend/cmd/acs/dispatch.go:557-656 | In every run where the job's lease does not expire, its device opened a session between any two of its dispatches; the first is the trigger, and polls only follow triggers. |
| Diagnostics.OnlyOldSessionsRepeat | backend/internal/jobs/diagnostics.go:113-124 | In the same runs a dispatch on the device's latest session is in a later session than every dispatch before it; one that is not is itself on an old session. |
| Diagnostics.DispatchedOncePerSession | backend/internal/jobs/diagnostics.go:113-124 | So when the device posts on its latest session, its dispatches are in strictly increasing sessions. |
| Diagnostics.OldSessionSendsTwice | backend/cmd/acs/session.go:571-598 | Without that a POST on an older open session sends the trigger there a second time. |
| Diagnostics.AnsweredLands | backend/cmd/acs/dispatch.go:557-641 | An answered diagnostic is finished, or parked with a deadline and attempts left; its first deadline is never moved. |
| Diagnostics.AnswersAreBounded | backend/cmd/acs/dispatch.go:618-632 | In every run at most MaxAttempts (at least one) dispatches of a diagnostic are answered, and fewer while it is unfinished. |
| Retries.SentWithinLimit | backend/internal/jobs/lease.go:245-296 | In every run, with dropped sessions, expired leases and any answers, a job that is no walk, diagnostic or Connection Request is leased and sent at most MaxAttempts times (at least one); a write that reads back sends its SetParameterValues at most as often. |
| Retries.SentAtMostOnce | backend/internal/jobs/lease.go:245-262 | In every run an AddObject, DeleteObject, Reboot, FactoryReset, Download or Upload is sent at most once. |
| Retries.RecoveredWithin | backend/internal/jobs/session_recovery.go:43-62 | A new Inform queues a dropped job again only below its limit, and never one that must not be repeated. |
| VerifiedWrites.SuccessIsConfirmed | backend/cmd/acs/dispatch.go:327-359 | In every run a verifiable write has SUCCESS without an acknowledgement and a later read-back with nothing missing or different exactly when an admitted, fault-free TransferComplete named it in flight. |
| VerifiedWrites.UnconfirmedExactlyBySkip | backend/cmd/acs/session.go:770-803 | The same of every single step on an unfinished write. |
| VerifiedWrites.TransferCompleteSkipsReadback | backend/cmd/acs/session.go:770-790 | That happens: three steps from an empty store make a verifiable write succeed unread. |
| VerifiedWrites.HandlesStaySealed | backend/cmd/acs/session.go:607-619 | The stored row keeps its sealed handles; the RPC carries the substitution and no handle. |
| VerifiedWrites.ReadbackOpensNothing | backend/cmd/acs/dispatch.go:73-83 | A verification read is prepared the same whatever secrets exist, and is a GetParameterValues. |
| UploadReceipt.AtMostOnePromoted | backend/cmd/api/upload_handlers.go:119-177 | Under every interleaving at most one PUT is promoted; an object under the final name means RECEIVED with exactly the recorded size and digest, within the size limit, and a promoted PUT means it is there. |
| UploadReceipt.StepIsLocal | backend/cmd/api/upload_handlers.go:138-177 | A step of a request touches its own staged object only, plus the final one when it is the winner; row and final object, once set, do not change. |
| UploadReceipt.ServedFileMatches | backend/cmd/api/upload_handlers.go:225-260 | Every file served matches the row read before it, whatever happens in between, and is served unchanged for ever. |
| UploadReceipt.ReceivedHasOneOwner | backend/internal/uploads/uploads.go:70-81 | A slot is RECEIVED exactly when a request committed it; no two requests did; and there is a file exactly when that request was promoted. |
| UploadReceipt.FailedRenameLosesTheFile | backend/cmd/api/upload_handlers.go:170-177 | A failed rename leaves RECEIVED and nothing to serve. |
| UploadReceipt.SlotStore.Save | backend/internal/objstore/local.go:29-41 | The copy loop stores the whole body or, over the limit or broken off, nothing. |
| UploadReceipt.SlotStore.ReceiveUpload | backend/cmd/api/upload_handlers.go:99-187 | Alone on the slot, a PUT is stored exactly when every check passes; row and object then match it. One turned away by a check leaves no trace; one that only fails its rename leaves the row RECEIVED and its body staged. |
| UploadReceipt.SanitizeUploadFilename | backend/cmd/api/upload_handlers.go:192-202 | The loop returns the first 200 bytes that survive filtering. |
| UploadReceipt.SanitizedIsSafe | backend/cmd/api/upload_handlers.go:189-202 | A sanitised name is short, free of quotes, backslashes and control bytes, and unchanged by a second pass. |
| Rollout.RolloutService.DispatchRolloutBatch | backend/cmd/api/rollout_handlers.go:234-344 | The wave loop and its guards take the rollout, and reply, exactly as the specification says. |
| Rollout.RolloutService.DispatchRollback | backend/cmd/api/rollout_handlers.go:352-378 | The rollback loop queues for the successful devices once, or does nothing. |
| Rollout.BrakesAtRate | backend/internal/rollout/rollout.go:321-338 | The brake fires exactly when something is resolved and failed/resolved exceeds the maximum. |
| Rollout.FailureBound | backend/cmd/api/rollout_handlers.go:254-272 | In every run recorded failures never exceed m*T + (D-T) + w, taken at the last check that let a wave out. |
| Rollout.HurtDevicesBound | backend/cmd/api/rollout_handlers.go:291-325 | In every run the devices a download failed on are the recorded failures and those whose failure was never recorded, and are at most m*T + (D-T) + w plus the latter. |
| Rollout.RecordedHurtBound | backend/cmd/api/rollout_handlers.go:291-325 | When every queued download is recorded, the first three terms bound them all. |
| Rollout.LostRecordsEscapeTheBrake | backend/cmd/api/rollout_handlers.go:319-322 | Without that it does not: two unrecorded failures pass a brake set to zero. |
| Rollout.ListingSize | backend/internal/rollout/rollout.go:206-237 | Eligible plus dispatched devices are always the whole pool. |
| Rollout.SmoothSchedule | backend/cmd/api/rollout_handlers.go:291-333 | When all queueing succeeds and the brake is quiet, k advances dispatch exactly min(N, (k+1)*w) devices and COMPLETED comes with advance max(1, ceil(N/w)-1); an empty rollout stays DRAFT. |
| Rollout.CompletedTriedEveryone | backend/cmd/api/rollout_handlers.go:304-333 | A rollout that becomes COMPLETED has tried, in that wave, every device still undispatched. |
| Rollout.FinalStatus | backend/cmd/api/rollout_handlers.go:240-247 | BLOCKED and COMPLETED are absorbing; nothing more is dispatched or rolled back. |
| Rollout.RollbackOnce | backend/cmd/api/rollout_handlers.go:352-371 | A rollback is sent only by the brake, with an image configured, and no device is rolled back twice; with FinalStatus, at most once. |
| Rollout.RollbackTargets | backend/cmd/api/rollout_handlers.go:346-371 | In every run that ends BLOCKED with an image configured, the rollback went to exactly the devices that had succeeded when the brake fired, minus those whose queueing failed. |
| Rollout.LateSuccessKeepsBuild | backend/cmd/api/rollout_handlers.go:346-371 | A download still running then and succeeding later leaves its device on the build. |
| Rollout.GoodDevicesExact | backend/internal/rollout/rollout.go:243-262 | A rollback is queued for exactly the devices that took the build and could be queued, once each. |
| Graduation.BootstrapNeverReachesNormal | backend/cmd/acs/mux.go:31-56 | Through the whole guard stack, a POST with the bootstrap Digest username and no client certificate never reaches the normal handler, opens no session and touches no existing credential or managed state. |
| Graduation.EstablishedIsRefused | backend/cmd/acs/bootstrap_graduation.go:222-232 | The bootstrap credential changes nothing for an established device outside a re-enrolment window. |
| Graduation.BootstrapAloneManagesNothing | backend/cmd/acs/bootstrap_graduation.go:90-203 | In every run whose CWMP traffic is all bootstrap, no session is opened and no device becomes managed. |
| Graduation.DigestActivation | backend/cmd/acs/session.go:318-337 | A CWMP_DIGEST credential becomes ACTIVE only from PENDING, in an Inform that proves its secret and whose natural key resolves to its own device. |
| Graduation.ActiveWasProved | backend/cmd/acs/main.go:139-163 | In every run a Digest credential that is ACTIVE or GRACE has such an Inform behind it. |
| Graduation.RunsStayExclusive | backend/internal/credentials/credentials.go:338-376 | In every run a device has at most one ACTIVE credential of a type and at most one PENDING Digest credential. |
| Graduation.RevokedDigestStays | backend/internal/credentials/credentials.go:382-394 | A revoked Digest credential stays revoked in every run. |
| Graduation.RevokedConnectionRequestReturns | backend/internal/credentials/credentials.go:343-376 | A revoked Connection Request credential returns exactly when an operator activates it. |
| Graduation.InferBootstrapDataModelRoot | backend/cmd/acs/bootstrap_graduation.go:310-328 | The loop returns the root all recognised names agree on, and unknown for none or a mixture. |
| Graduation.CredentialService.ActivateRow | backend/internal/credentials/credentials.go:343-376 | Demotes the ACTIVE row of the same device and type and promotes the chosen one, and nothing else. |
| Graduation.CredentialService.Authenticated | backend/cmd/acs/main.go:146-163 | The hook activates a PENDING credential and closes the re-enrolment window, and otherwise does nothing. |
| Graduation.CredentialService.GraduateInform | backend/cmd/acs/bootstrap_graduation.go:205-263 | The graduation Inform registers the device, keeps one PENDING credential and names it in the cookie, or refuses. |
| Graduation.CredentialService.ActivateDeviceCredential | backend/cmd/api/credential_handlers.go:182-234 | Only a Connection Request credential of the named device can be activated by hand. |
| BootstrapCookie.Base64RoundTrip | backend/cmd/acs/bootstrap_graduation.go:356-370 | Unpadded base64url decoding undoes encoding for every byte string, and the text holds no dot. |
| BootstrapCookie.CookieRoundTrip | backend/cmd/acs/bootstrap_graduation.go:356-370 | The cookie gives back id and namespace exactly when the id is non-empty without a dot and the namespace is non-empty. |
| ConnectionRequests.EveryRequestEnds | backend/cmd/api/connreq_worker.go:142-298 | For every device and every network behaviour an uncancelled job is marked exactly once, SUCCESS needs an event-6 Inform after the last sending, and waiting stays within 150.5 s of a 300 s lease. |
| ConnectionRequests.PathIsSelected | backend/cmd/api/connreq_xmpp.go:61-75 | The transports dialled are exactly those of the selected path, selected again without XMPP after a failed try; UDP follows HTTP exactly when HTTP failed and the device has a UDP address. |
| ConnectionRequests.MarkIsExact | backend/cmd/api/connreq_worker.go:200-298 | The job is marked FAILED exactly when the device does not load or no transport dialled took the request; otherwise, without a shutdown, SUCCESS exactly when a poll in time sees the Inform, and TIMEOUT when none does. |
| ConnectionRequests.BehindNatIsNeverDialled | backend/cmd/api/connreq_worker.go:186-198 | A device selected as behind NAT is dialled neither over HTTP nor UDP. |
| ConnectionRequests.AwaitExact | backend/cmd/api/connreq_xmpp.go:171-187 | Without a shutdown the wait succeeds exactly when one of its polls sees the Inform. |
| ConnectionRequests.AwaitEnds | backend/cmd/api/connreq_xmpp.go:171-187 | The wait ends within one poll of its deadline, and sees only Informs since the attempt. |
| ConnectionRequests.Worker.WaitForInform | backend/cmd/api/connreq_xmpp.go:171-187 | The polling loop computes that result and only moves the clock. |
| ConnectionRequests.Worker.AttemptXmpp | backend/cmd/api/connreq_xmpp.go:119-167 | Handled exactly when the CPE took the request; otherwise only the clock and the dial list moved. |
| ConnectionRequests.Worker.ProcessJob | backend/cmd/api/connreq_worker.go:142-253 | The handler's own tests, in its order, follow the selector's path. |
| TokenVersions.AcceptedWasCurrent | backend/cmd/api/auth_handlers.go:60-82 | Under every interleaving a token is accepted only with at least the version its own check read, or one some check read and stamped at most 15 s ago. |
| TokenVersions.RevokedWorksAtMost | backend/cmd/api/auth_handlers.go:48-82 | A token accepted from the cache at t has at least the version live at some moment no earlier than t - 15 s minus the longest time a lookup takes to be stamped. |
| TokenVersions.SlowLookupOutlivesTtl | backend/cmd/api/auth_handlers.go:67-73 | That bound is reached, for every such delay. |
| TokenVersions.LiveTokenAccepted | backend/cmd/api/auth_handlers.go:57-82 | Under every interleaving a token at the live version is turned away only by a failing lookup. |
| TokenVersions.LogoutTakesEffectAtOnce | backend/cmd/api/auth_handlers.go:462-482 | A logout takes effect for every token presented after it, in every continuation, if and only if no check in flight holds an older version that is not yet too old to be used. |
| TokenVersions.FetchAcrossLogout | backend/cmd/api/auth_handlers.go:64-90 | Such a check exists: one whose lookup returned before the revocation stores the old version after it. |
| TokenVersions.VersionCache.TokenCurrent | backend/cmd/api/auth_handlers.go:60-82 | With nothing in between, the cache in place answers and changes as the steps of the check do. |
| SpentTickets.SweptAnswersExactly | backend/cmd/api/grafana_gate.go:47-68 | The swept map answers as a record that never forgets, except for a ticket presented again after it expired. |
| SpentTickets.AcceptedOnce | backend/cmd/api/grafana_gate.go:53-68 | A ticket presented at or before its expiry is accepted at most once. |
| SpentTickets.SweepKeepsNothingOld | backend/cmd/api/grafana_gate.go:58-67 | Every entry left after a call is unexpired or the one just added. |
| SpentTickets.TicketBook.SpendTicket | backend/cmd/api/grafana_gate.go:53-68 | The sweep loop, look-up and insertion compute that answer and map. |
| DiscoveryLibrary.EntryIsUnion | scripts/export-discovery-library.py:130-141 | After any exports the entry holds exactly the union of the paths, a path is RW exactly when some walk found it writable, and never_observed is disjoint from it. |
| DiscoveryLibrary.ExportTwice | scripts/export-discovery-library.py:130-134 | Exporting the same walk twice in a row changes no row. |
| DiscoveryLibrary.ReexportChangesOnlyTypes | scripts/export-discovery-library.py:130-134 | Exported again after any others, a walk adds no path and no access, and changes a row exactly when it names another type for it. |
| DiscoveryLibrary.TypesFlip | scripts/export-discovery-library.py:130-134 | Two walks that disagree about a type change it back and forth. |
| DiscoveryLibrary.Merge | scripts/export-discovery-library.py:130-134 | The merge loop computes the union, whatever order the names come in. |
| DiscoveryLibrary.FileRoundTrip | scripts/export-discovery-library.py:71-91 | load_entry undoes write_entry exactly when no path starts with '#' and no path or type holds a tab or a line break. |
| DiscoveryLibrary.ExportsThroughFile | scripts/export-discovery-library.py:71-134 | With the file written and read back between exports, it holds the union of the walks after each of them exactly when every path and type those walks name can be stored. |
| DiscoveryLibrary.LoadEntry | scripts/export-discovery-library.py:71-81 | The reading loop computes the parameters of the lines. |
| DiscoveryLibrary.WriteEntry | scripts/export-discovery-library.py:84-90 | The writing loop builds the header and one line per path, in the order of the paths. |

## Left out

- SOAP and XML parsing and rendering, compression, redaction and TLS: an RPC is a datatype value and a body says which elements it carries.
- Parsing of the Authorization header: a request carries one scheme and one user name, so the two parsers of the header are taken to agree.
- SQL and its locking: each repository operation has the effect its statement describes.
- CPE-initiated requests such as GetRPCMethods outside the bootstrap exchange: they are answered without touching a job or session.
- The onboarding decision itself, auto-provisioning, policies, mesh and Wi-Fi rules: they appear as jobs a request asks to queue.
- Discovery: path lengths are counted in characters, where the source counts bytes.
- Verification.SensitivePath: folds ASCII letters only.
- GatewayService.Handler: leasing and every other store operation is an assignment; transactions, row locks and competing replicas are not modelled.
- The USP controller (cmd/uspc), which leases rows of the same queue and requeues them (cmd/uspc/dispatcher.go, lines 215 and 248): the run properties of the gateway, single flight and the sending limits among them, are about a queue only CWMP sessions lease from.
- UploadReceipt.SlotStore.ReceiveUpload: takes a failed database call as one that did not commit; the interleaving model has both.
- Rollout: the status ABORTED, the maintenance window's clock arithmetic, concurrent advance calls on one rollout and floating-point rounding of the failure rate.
- Graduation: XMPP credentials, password storage, cookie expiry and the partial unique index.
- ConnectionRequests: a shutdown is seen at the waits, not inside a sending; the idempotency key of the periodic-Inform write.
- SpentTickets: the signature and audience checks made before a ticket is spent.
- DiscoveryLibrary: meta.json apart from never_observed, and the index file.
- createDeviceUpload, createRollout, listings, dashboards, reports, tenancy, metrics, audit, captures and TMF events: one-branch handlers or no effect on the modelled state.
