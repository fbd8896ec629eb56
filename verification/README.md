# Verified models of winRemoteControl

Dafny models of the parts of the remote-control application whose correctness is a matter of whole
runs: the pairing of two devices, the file-transfer session, the session commands, the automation
event log, the frame watermark, the keyboard routing and the H.264 level policy. `dafny verify
dfyconfig.toml` checks everything.

**Pairing.** A controller and a controlled endpoint exchange Hello, Decision, Ready and Committed; each
drives a store of trusted devices through prepare, commit and complete, and recovers its file when a
session begins. `TrustedDevices` is the service and its file, `TrustRecovery` what recovery and the
transactions promise, `PairingTransactions` the progress bits and the cached responses.
`AuthenticationFlow` says what each handler computes, and `AuthenticationService` is the class whose
methods compute it. `PairingTrace` states what every event of a run owes to the events before it, and
reads agreement, the two-phase order and the common choice of trust off such runs; `PairingInvariant`,
`PairingHandlers` and `PairingSystem` prove that every run of two honest endpoints is of that kind. The
network of `PairingSystem` may lose, repeat, delay and reorder the messages of a session, any save may
fail, and an endpoint may crash between any two of its effects and come back with its file only.
`PairingProgress` and `PairingQuiescence` prove, for FIFO channels without faults, that every run ends
and ends completed.

**File transfer.** `FileTransfer` has the handlers of a sending and a receiving task, `TransferTasks` the
two classes. `TransferAttempt` joins them by a FIFO data channel, a control path each way and the
receiver's FIFO worker; `TransferWindow` proves the window and the exact delivery, `TransferProgress`
what runs keep in which the first pump follows Ack(0), and `TransferLiveness` exactly when an attempt can
still complete. `ControlQueue` is the bounded queue behind the
control path and refines the Ack path of an attempt. `ListingPages` is the paged exchange of a listing.
`CopyPlan`, `CopyPlanReceiver` and `CopyPlanRoundTrip` are the plan of a copy: its scan, its manifest,
the receiver's accounting, and that an accepted plan arrives.

**The rest.** `CommandDispatcher`: retries, the result cache and one outcome per command. `EventLog`: the
buffer against the full history. `FrameWatermark`: 108 bits in an array of pixels and back, with noise.
`KeyboardRouting`: the keys held on the remote side. `LevelPolicy`: the level table.

State that the program updates in place is a class here; every method's contract gives the whole new
state as a function of the old one, and the theorems are about those functions. In the table below the
cell of such a method says what that function does; the entry points of the pairing flow and of the two
transfer tasks also promise the invariant their theorems rest on. Saves, worker jobs,
channels, clocks and user answers are parameters, so a theorem holds for every way they can turn out.

Where the code does not do what one would expect:

- `markCompleted` does not test for the Failed state (`FailedCanStillComplete`); the flow never lets it
  matter, because a failure always resets the transaction.
- A pump before the receiver's Ack(0) fails the attempt (`EarlyPumpFails`); a frame is refused exactly
  when the write session is not open (`FrameFits`).
- A refused Ack is made up for only when another chunk has been written, so the window can close for good
  (`RefusedAcksBlockForever`). Exactly when an attempt can still complete is `LiveExactly`.
- A pause while the destination is being opened gives the new write session up. After the resume the next
  frame fails the attempt with `invalid_offset`; for an empty file it stalls (`MirroredPauseFails`), and so it
  does when the control path refused the Pause (`PausedOpenStalls`).
- A full control queue may keep an older Ack offset and still answer true; the window survives it
  (`NoDeadlock`).
- A queued `stopHook` that runs late strands a key (`LateStopHookStrandsKey`), and so do two keys with one
  identifier (`CollidingKeysStrand`); exactly when the balance holds is `KeyBalance` and `BalancedExactly`.
- A listing that is no longer retained is not answered at all, so its exchange ends in silence
  (`DroppedMeansSilence`), exactly when a page is asked for after 32 others (`ExchangeRoundTrip`).
- An event cursor of 2^64 - 1 wraps round and always reports a gap.

## Model

| member | source | states |
|---|---|---|
| `PairingSystem.RunGuarantees` | src/session/deviceauthenticationflow.cpp:356-710 | For every run of the two endpoints, with loss, repetition, reordering, failing saves, timeouts, cancellations and crashes between any two effects: two endpoints that complete a request hold the same permissions, which are the controlled side's decision, contain ViewScreen and are part of what was requested; both sides of a session choose trust together, and exactly when the two files, as they are at the two choices, give the same non-null commit id; and behind an untrusted completion stand, for either endpoint, both Ready messages before its Committed, its Pending record on disk at its Ready and its Mutual record at its Committed. |
| `PairingSystem.EveryRunIsGood` | src/session/deviceauthenticationflow.cpp:173-238 | Every run of honest endpoints satisfies the system invariant: every save, choice, message and outcome in its history is justified by what precedes it. |
| `PairingSystem.StepInv` | src/session/deviceauthenticationflow.cpp:173-238 | One message, user answer, timeout, cancellation or session start at either endpoint, cut off by a crash anywhere or not at all, keeps the system invariant, for the endpoint that moves and for the other. |
| `PairingSystem.ConnectInv` | src/session/deviceauthenticationflow.cpp:80-118 | Opening a session with a fresh request id keeps the system invariant whatever earlier sessions left behind. |
| `PairingSystem.ReplayedWasSent` | src/session/deviceauthenticationflow.cpp:579-585 | What an endpoint replays it had originated before. |
| `PairingTrace.Agreement` | src/session/deviceauthenticationflow.cpp:587-710 | Two completions of one request carry equal permissions: the controlled side's decision, with ViewScreen, within what every connection of that request asked for. |
| `PairingTrace.TwoPhaseOrder` | src/session/deviceauthenticationflow.cpp:587-654 | An untrusted completion anywhere implies, for each endpoint, both Readys before its Committed, a Pending record in its file when it sent Ready and a Mutual record of the same request, peer and permissions when it sent Committed. |
| `PairingTrace.SameChoice` | src/session/deviceauthenticationflow.cpp:435-473 | Both sides of a session make the same choice between trust and a prompt; the commit ids of the choices are those the two files give at the two choices, and the choice is trust if and only if they are equal and not null, whatever was half-committed, rolled back or lost before. |
| `PairingTrace.TrustRestsOnBothRecords` | src/session/trusteddeviceservice.cpp:96-116 | Where both choose trust, both files hold a Mutual record of the other's device and key under one id, and if that id was a request of the run, with equal permissions. |
| `PairingTrace.ChoiceSeesOther` | src/session/deviceauthenticationflow.cpp:435-473 | The commit id a choice compares with is the one the other side's own choice was made with. |
| `PairingTrace.HelloAnnounces` | src/session/deviceauthenticationflow.cpp:475-489 | The commit id in an endpoint's Hello is the one its own choice was made with, although the two are read at different moments. |
| `PairingTrace.SentOnce` | src/session/pairingtransaction.cpp:38-82 | An endpoint originates at most one Hello, Decision, Ready and Committed per request, over whole runs with crashes. |
| `PairingTrace.ChosenOnce` | src/session/deviceauthenticationflow.cpp:339-349 | An endpoint chooses between trust and a prompt at most once per request. |
| `PairingTrace.DiskKnown` | src/session/trusteddeviceservice.cpp:118-183 | Every record a file ever holds for a request of the run has the permissions the controlled side decided. |
| `AuthenticationService.DeviceAuthenticationFlow.SetSecurePeerIdentity` | src/session/deviceauthenticationflow.cpp:75-78 | The peer of the secure channel, and nothing else, is replaced. |
| `PairingHandlers.MessageOk` | src/session/deviceauthenticationflow.cpp:173-203 | Any message of the peer, in any order and number, leaves the endpoint idle, done, waiting or in a transaction whose bits, cached responses, trust memory and file agree with the history. |
| `PairingHandlers.DuplicateHelloOk` | src/session/deviceauthenticationflow.cpp:305-314 | A duplicate Hello changes nothing but the history, which gains at most the replay of a message originated before. |
| `PairingHandlers.RespondOk` | src/session/deviceauthenticationflow.cpp:205-238 | A user's answer keeps the endpoint's invariant; what it sends is justified. |
| `PairingHandlers.CancelOk` | src/session/deviceauthenticationflow.cpp:240-262 | Cancelling, with or without an outcome or a notice, keeps the endpoint's invariant. |
| `PairingHandlers.BeginOutgoingOk` | src/session/deviceauthenticationflow.cpp:80-119 | A controller that begins a session, whatever it was doing, ends up idle or in a transaction whose Hello announces what its recovered file gives. |
| `PairingHandlers.BeginIncomingOk` | src/session/deviceauthenticationflow.cpp:121-155 | A controlled endpoint that begins a session ends up idle or waiting with its recovered file and nothing of the new request in its history. |
| `PairingInvariant.TryPrepareOk` | src/session/deviceauthenticationflow.cpp:587-624 | Preparing keeps the invariant, including the branches that refuse the permissions and whose save fails; a Ready leaves only behind both decisions and a Pending record. |
| `PairingInvariant.TryCommitOk` | src/session/deviceauthenticationflow.cpp:626-654 | Committing keeps the invariant; a Committed leaves only behind both Readys and a Mutual record, and a failed save ends the pairing. |
| `PairingInvariant.TryCompleteOk` | src/session/deviceauthenticationflow.cpp:656-710 | Completion happens only behind both Committeds and keeps the invariant, whether the metadata and cleanup saves succeed or fail. |
| `PairingInvariant.FailOk` | src/session/deviceauthenticationflow.cpp:757-824 | A failure anywhere in a pairing, with any answer of its two rollback saves, leaves an idle endpoint whose file is still justified. |
| `PairingInvariant.AcceptHelloOk` | src/session/deviceauthenticationflow.cpp:341-354 | Accepting a Hello records one justified choice and keeps the invariant through the automatic decision, the prompt and the refusals. |
| `PairingProgress.DuplicateReplaysLatest` | src/session/pairingcommand.cpp:43-54 | In a fault-free session a repeated Hello changes nothing and is answered with exactly the endpoint's latest message once it has answered. |
| `PairingProgress.DecisionProgress` | src/session/deviceauthenticationflow.cpp:356-372 | In a fault-free session the peer's decision leaves the endpoint with its Ready sent and its record saved if it has decided itself, and with its prompt still open if not; the permissions of both sides are kept. |
| `PairingProgress.ReadyMessageProgress` | src/session/deviceauthenticationflow.cpp:374-391 | In a fault-free session the peer's Ready makes the endpoint save its Mutual record and send its Committed, and nothing else. |
| `PairingProgress.CommittedMessageProgress` | src/session/deviceauthenticationflow.cpp:393-405 | In a fault-free session the peer's Committed completes the endpoint with the permissions it had. |
| `PairingQuiescence.EveryRunCompletes` | src/session/deviceauthenticationflow.cpp:173-710 | From two endpoints that begin a session, whatever earlier sessions left in their histories, with both users accepting and no faults: every run over the FIFO channels has at most ten moves, and where nothing is in flight and no prompt is open both endpoints are completed with the controlled side's decision. |
| `PairingQuiescence.QuiescentIsComplete` | src/session/deviceauthenticationflow.cpp:656-710 | Empty channels and no open prompt imply that both endpoints are completed with equal permissions. |
| `PairingQuiescence.MoveInv` | src/session/pairingtransaction.cpp:173-204 | Every delivery and every user answer keeps the session invariant and strictly lowers the work that is left. |
| `PairingTransactions.MarkOnce` | src/session/pairingtransaction.cpp:38-82 | Every mark keeps the order of the phases, sets its own bit only, lowers the measure of unset bits by one, and is refused the second time without a change. |
| `PairingTransactions.CompletedImpliesAllPhases` | src/session/pairingtransaction.cpp:84-90 | Completion needs both decisions, both preparations and both commits, and is refused the second time. |
| `PairingTransactions.FailedCanStillComplete` | src/session/pairingtransaction.cpp:84-96 | `markCompleted` does not look for the Failed state: a failed transaction can still be completed if and only if both commits are marked. |
| `PairingTransactions.PairingTransaction.MarkFlag` | src/session/pairingtransaction.cpp:173-185 | The guarded mark, with the derived state, as the transaction function says. Refines the specification MarkOnce and its neighbours speak of. |
| `PairingTransactions.PairingTransaction.MarkLocalDecided` | src/session/pairingtransaction.cpp:48-54 | The own decision with its permissions, refused when a guard or the mark refuses. Refines the specification MarkOnce and its neighbours speak of. |
| `PairingTransactions.PairingTransaction.MarkRemoteDecided` | src/session/pairingtransaction.cpp:56-62 | The peer's decision with its permissions. Refines the specification MarkOnce and its neighbours speak of. |
| `PairingTransactions.PairingTransaction.Finish` | src/session/pairingtransaction.cpp:84-90 | Completion on the flags alone. Refines the specification MarkOnce and its neighbours speak of. |
| `PairingTransactions.PairingTransaction.Abandon` | src/session/pairingtransaction.cpp:92-96 | The Failed state, with the progress kept. Refines the specification MarkOnce and its neighbours speak of. |
| `PairingTransactions.PairingTransaction.UpdateState` | src/session/pairingtransaction.cpp:192-204 | The state derived from the progress bits. Refines the specification MarkOnce and its neighbours speak of. |
| `PairingTransactions.PairingCommand.Classify` | src/session/pairingcommand.cpp:17-31 | New, duplicate or conflicting, by request, generation and whole payload. |
| `PairingTransactions.PairingCommand.CacheResponse` | src/session/pairingcommand.cpp:38-41 | The latest response of each type; rejections are not kept. |
| `PairingTransactions.PairingCommand.ReplayResponse` | src/session/pairingcommand.cpp:43-54 | The response of the latest phase, by Committed, Ready, Decision, Hello. |
| `TrustRecovery.CrashRecovery` | src/session/trusteddeviceservice.cpp:16-183 | From the file left by prepare, or by prepare and commit, recovery gives the previous store after prepare; after commit it keeps an earlier confirmed record of the device exactly when the new one is not older, in particular when it was paired strictly earlier, and keeps the new record when the device had none. |
| `TrustRecovery.RecoverKeepsOrder` | src/session/trusteddeviceservice.cpp:16-74 | What recovery keeps stands in the order of the file. |
| `TrustRecovery.RecoverIsCanonical` | src/session/trusteddeviceservice.cpp:16-74 | Recovery keeps only Mutual records of the file, one for each device. |
| `TrustRecovery.RecoverKeepsOldest` | src/session/trusteddeviceservice.cpp:35-62 | A recovered record is the least of its device by (paired time, transaction id). |
| `TrustRecovery.RecoverCovers` | src/session/trusteddeviceservice.cpp:35-62 | No device with a Mutual record in the file is lost. |
| `TrustRecovery.RecoverFixedPoint` | src/session/trusteddeviceservice.cpp:16-74 | The stores recovery leaves alone are exactly the canonical ones, and its result is one of them. |
| `TrustRecovery.TransactionSteps` | src/session/trusteddeviceservice.cpp:118-183 | The memory and the file after prepare and after commit, in closed form. |
| `TrustRecovery.RollbackRestores` | src/session/trusteddeviceservice.cpp:185-199 | Rollback after prepare, after prepare and commit, and after a commit whose save failed restores memory and file exactly. |
| `TrustRecovery.CompletionLeavesOneRecord` | src/session/trusteddeviceservice.cpp:219-246 | Prepare, commit and complete leave every other device's records as they were and one record of the device, the new Mutual one, which a reload leaves alone and the next Hello announces. |
| `TrustedDevices.TrustedDeviceService.LoadDevices` | src/session/trusteddeviceservice.cpp:16-74 | The recovered store in memory and, when anything was dropped, on disk; nothing changes when reading or the recovery save fails. |
| `TrustedDevices.TrustedDeviceService.FindDevice` | src/session/trusteddeviceservice.cpp:81-94 | The first Mutual record of the device, otherwise its last other one. |
| `TrustedDevices.TrustedDeviceService.GetMutualCommitId` | src/session/trusteddeviceservice.cpp:96-108 | The commit id of the device and key, or none. |
| `TrustedDevices.TrustedDeviceService.GetMutuallyTrusted` | src/session/trusteddeviceservice.cpp:110-116 | Trust: a commit id equal to the peer's. |
| `TrustedDevices.TrustedDeviceService.PrepareRecord` | src/session/trusteddeviceservice.cpp:118-159 | A Pending record behind the store and the snapshot to roll back to; a refused or failed preparation leaves memory and file. |
| `TrustedDevices.TrustedDeviceService.CommitRecord` | src/session/trusteddeviceservice.cpp:161-183 | The Pending record turned Mutual, and Pending again when the save fails. |
| `TrustedDevices.TrustedDeviceService.RollbackTransaction` | src/session/trusteddeviceservice.cpp:185-199 | The snapshot restored, or everything left when the save fails. |
| `TrustedDevices.TrustedDeviceService.UpdateAuthenticatedDevice` | src/session/trusteddeviceservice.cpp:201-217 | Refreshed metadata, taken back when the save fails. |
| `TrustedDevices.TrustedDeviceService.CompleteTransaction` | src/session/trusteddeviceservice.cpp:219-246 | The device's other records dropped, and the transaction closed even when the cleanup save fails. |
| `TrustedDevices.RemovePending` | src/session/trusteddeviceservice.cpp:27-34 | The loop from the last record to the first leaves the Mutual records in order. |
| `TrustedDevices.OldestByDevice` | src/session/trusteddeviceservice.cpp:35-53 | The hash gives, for every device, the index of a record no other record of the device is older than. |
| `TrustedDevices.RemoveSuperseded` | src/session/trusteddeviceservice.cpp:54-62 | The loop from the last record to the first leaves each device's oldest record, in order. |
| `TrustedDevices.KeptMembers` | src/session/trusteddeviceservice.cpp:226-236 | Completion keeps a record exactly if it is of another device or of the transaction. |
| `AuthenticationService.DeviceAuthenticationFlow.HandleHello` | src/session/deviceauthenticationflow.cpp:279-354 | A rejection for a conflicting request, failure for a conflicting payload, a replay for a duplicate, and the new Hello. |
| `AuthenticationService.DeviceAuthenticationFlow.HandleNewHello` | src/session/deviceauthenticationflow.cpp:315-354 | The verification method and the sender are checked before the controlled side adopts the request. |
| `AuthenticationService.DeviceAuthenticationFlow.HandlePairingDecision` | src/session/deviceauthenticationflow.cpp:356-372 | Ignored before the Hello and from another device; a refusal ends the pairing, an acceptance is marked once. |
| `AuthenticationService.DeviceAuthenticationFlow.HandlePrepared` | src/session/deviceauthenticationflow.cpp:374-391 | Other permissions than the effective ones end the pairing; otherwise the mark, the own preparation and the commit. |
| `AuthenticationService.DeviceAuthenticationFlow.HandleCommitted` | src/session/deviceauthenticationflow.cpp:393-405 | Ignored with other permissions; otherwise the mark, the own commit and completion. |
| `AuthenticationService.DeviceAuthenticationFlow.HandleMessage` | src/session/deviceauthenticationflow.cpp:173-203 | Dispatch on type, generation and request; a message the peer originated keeps the invariant of every session and adds own events only. |
| `AuthenticationService.DeviceAuthenticationFlow.InspectPeerTrust` | src/session/deviceauthenticationflow.cpp:435-473 | A revoked record or a changed key is refused; trust needs the peer's commit id, and the limit is compared without file transfer. |
| `AuthenticationService.DeviceAuthenticationFlow.SendHello` | src/session/deviceauthenticationflow.cpp:475-489 | Marked once, with the commit id the store gives at that moment. |
| `AuthenticationService.DeviceAuthenticationFlow.BeginPairingOrAutomaticDecision` | src/session/deviceauthenticationflow.cpp:491-524 | A trusted peer is answered within the stored limit; otherwise a prompt, or failure without channel binding. |
| `AuthenticationService.DeviceAuthenticationFlow.SendPairingDecision` | src/session/deviceauthenticationflow.cpp:556-569 | The decision is marked and sent once, and preparation follows. |
| `AuthenticationService.DeviceAuthenticationFlow.ReplayCurrentPairingResponse` | src/session/deviceauthenticationflow.cpp:579-585 | The response of the latest phase goes out again, uncached. |
| `AuthenticationService.DeviceAuthenticationFlow.TryPrepare` | src/session/deviceauthenticationflow.cpp:587-624 | Only behind both decisions: ViewScreen is required, the Pending record saved, then Ready. |
| `AuthenticationService.DeviceAuthenticationFlow.TryCommit` | src/session/deviceauthenticationflow.cpp:626-654 | Only behind both Readys: the Mutual record is saved, then Committed. |
| `AuthenticationService.DeviceAuthenticationFlow.TryComplete` | src/session/deviceauthenticationflow.cpp:656-710 | Only behind both Committeds, once: metadata, the completed mark, cleanup and the outcome. |
| `AuthenticationService.DeviceAuthenticationFlow.RollbackPairing` | src/session/deviceauthenticationflow.cpp:712-726 | An open trust transaction is rolled back, and stays open when the save fails. |
| `AuthenticationService.DeviceAuthenticationFlow.Fail` | src/session/deviceauthenticationflow.cpp:757-801 | Rollback, the Failed mark, the notice unless the peer caused it, and the empty context. |
| `AuthenticationService.DeviceAuthenticationFlow.Clear` | src/session/deviceauthenticationflow.cpp:803-824 | Rollback and the empty context, with the history and the store kept. |
| `AuthenticationService.DeviceAuthenticationFlow.RespondPairing` | src/session/deviceauthenticationflow.cpp:205-238 | Only the prompted request is answered; the controlled side's grant is cut to what was requested; the invariant of every session is kept. |
| `AuthenticationService.DeviceAuthenticationFlow.Cancel` | src/session/deviceauthenticationflow.cpp:240-262 | Rollback, then failure, notice or nothing as asked; the invariant of every session is kept. |
| `AuthenticationService.DeviceAuthenticationFlow.LoadTrust` | src/session/deviceauthenticationflow.cpp:407-420 | Identity first, then the recovered store. |
| `AuthenticationService.DeviceAuthenticationFlow.BeginOutgoing` | src/session/deviceauthenticationflow.cpp:80-119 | The old session is cleared, the store recovered and the Hello sent; an endpoint that has not begun a session satisfies its invariant behind the call. |
| `AuthenticationService.DeviceAuthenticationFlow.BeginIncoming` | src/session/deviceauthenticationflow.cpp:121-155 | The old session is cleared and the store recovered; an endpoint that has not begun a session satisfies its invariant behind the call. |
| `TransferAttempt.EveryRunKeepsWindow` | src/file_transfer/filetransfersessionservice.cpp:2806-2948 | For every interleaving of frames, Acks, read and write jobs, coalescing, refusals, pauses and resumes: acked <= last Ack <= written <= queued <= sent <= acked + 1 MiB; no Ack, pending chunk or completion is ever reported invalid; and a frame is refused if and only if the write session is not open. |
| `TransferAttempt.ExactDelivery` | src/file_transfer/filetransfersessionservice.cpp:3183-3299 | The frames sent are the consecutive chunks of the source, the destination is a prefix of the source, every announced digest is the source's, at most one finalization is queued and only with everything written, what is published is the source, and a finished task means it is published. |
| `TransferAttempt.FrameFits` | src/file_transfer/filetransfersessionservice.cpp:3183-3226 | At every reachable state the next frame is accepted exactly if the receiver's write session is open. |
| `TransferAttempt.AckFits` | src/file_transfer/filetransfersessionservice.cpp:3586-3597 | The Ack at the head of the channel is between the sender's acknowledged and sent offsets, so `invalid_ack` is unreachable. |
| `TransferAttempt.StepInv` | src/file_transfer/filetransfersessionservice.cpp:2806-3299 | Every single step keeps the invariant that joins both tasks, both paths and the worker. |
| `TransferWindow.PumpInv` | src/file_transfer/filetransfersessionservice.cpp:2806-2865 | Pumping keeps the sender inside the window and its frames the chunks of the source. |
| `TransferWindow.SendPendingInv` | src/file_transfer/filetransfersessionservice.cpp:2867-2948 | Sending, refusing or keeping a pending chunk skips and repeats nothing and announces the end once. |
| `TransferWindow.WorkerRunsInv` | src/adapters/windows/file_transfer/windowsfilesystemadapter.cpp:1896-1936 | Whatever the file system answers to a job, the destination stays a prefix of the source. |
| `TransferWindow.WriteDoneInv` | src/file_transfer/filetransfersessionservice.cpp:3206-3250 | The callback of a written chunk, or of a failed one, keeps the receiver's invariant. |
| `TransferWindow.PutAckKeepsOrder` | src/file_transfer/filetransfersessionservice.cpp:4173-4236 | However the control path takes an Ack, the offsets between the tasks stay in order. |
| `TransferProgress.PromptedRunsRefuseNothing` | src/file_transfer/filetransfersessionservice.cpp:2806-2865 | When the first pump follows Ack(0), no frame reaches an active receiver whose write session is not open: `invalid_offset` is unreachable. |
| `TransferLiveness.NoDeadlock` | src/file_transfer/filetransfersessionservice.cpp:3228-3250 | When the control path refuses no Ack of a written chunk, an attempt at rest is never blocked by the window, whatever Acks were coalesced or kept old, and it can complete if and only if the destination is still being opened or Ack(0) has arrived; then seven steps a chunk and sixteen more complete it. |
| `TransferProgress.StuckExactly` | src/file_transfer/filetransfersessionservice.cpp:3228-3250 | With refusals allowed: at rest a pump moves the transferring sender if and only if the last Ack that arrived is less than 1 MiB behind what was written. |
| `TransferProgress.RefusedAcksBlockForever` | src/file_transfer/filetransfersessionservice.cpp:3228-3250 | For every file over 1 MiB there is a run in which every Ack after the first is refused and the window closes for good, with nothing under way. |
| `TransferProgress.EarlyPumpFails` | src/file_transfer/filetransfersessionservice.cpp:784-803 | A pump on a low watermark before Ack(0) makes the receiver fail the attempt with `invalid_offset`, for every non-empty file. |
| `TransferProgress.FinalizationVerifies` | src/adapters/windows/file_transfer/windowsfilesystemadapter.cpp:1938-2098 | A finalization finds the whole source, so the digest check passes and the outcome is the file system's alone. |
| `TransferLiveness.RestMeansEnded` | src/file_transfer/filetransfersessionservice.cpp:3252-3299 | With no refused Ack of a chunk, an attempt at rest whose FileComplete messages have arrived has not announced its end; the next pump moves the sender, which may be pumped if Ack(0) has arrived, and the attempt can complete if and only if Ack(0) has arrived or the destination is still being opened. |
| `TransferLiveness.LiveExactly` | src/file_transfer/filetransfersessionservice.cpp:2806-3299 | For every run whose first pump follows Ack(0), with any Acks refused: an attempt at rest can complete if and only if the sender is active and the destination is being opened, or Ack(0) has arrived and everything has been sent or the window reaches the next Ack or the end of the file; then a number of steps linear in what is left completes it, with the source published. |
| `TransferLiveness.LiveForReceiver` | src/file_transfer/filetransfersessionservice.cpp:3141-3181 | When no Ack at all is refused, the receiver can tell: an attempt at rest can complete if and only if its write session is open or being opened. |
| `TransferLiveness.MirroredPauseFails` | src/file_transfer/filetransfersessionservice.cpp:3598-3614 | A pause of the receiver while its destination is being opened, which the sender mirrors as it does the resume: the new write session is given up and the sender's resume pumps; if the source is not empty its first frame fails the receiver with invalid_offset, an empty one announces its digest and stops with both tasks transferring and no such failure ever; in neither case does any continuation finish the sender. |
| `TransferLiveness.ClosedExactly` | src/file_transfer/filetransfersessionservice.cpp:3183-3203 | An attempt whose write session was given up never completes, under any steps at all, and fails with invalid_offset if and only if a frame meets the receiver while that is active. |
| `TransferLiveness.PausedOpenStalls` | src/file_transfer/filetransfersessionservice.cpp:3147-3163 | The same pause when the control path refuses to send it, so that the sender neither pauses nor pumps: after the resume both tasks transfer, nothing has failed, and no continuation completes the attempt. |
| `TransferLiveness.RestCompletes` | src/file_transfer/filetransfersessionservice.cpp:2806-3299 | From rest with room in the window the attempt completes within seven steps a chunk and eleven more. |
| `TransferTasks.SendingTask.PumpSender` | src/file_transfer/filetransfersessionservice.cpp:2806-2865 | The guards of phase, window and channel, then the pending chunk or the next read; keeps the sender's invariant for every source. |
| `TransferTasks.SendingTask.SendPendingSourceRead` | src/file_transfer/filetransfersessionservice.cpp:2867-2927 | An offset other than the sent one fails; a refused chunk waits or fails; keeps the sender's invariant for every source. |
| `TransferTasks.SendingTask.SendFileComplete` | src/file_transfer/filetransfersessionservice.cpp:2929-2948 | The digest of what was sent, announced once. |
| `TransferTasks.SendingTask.OnReadDone` | src/file_transfer/filetransfersessionservice.cpp:2826-2865 | A finished read becomes pending and is sent; keeps the sender's invariant for the source that was read. |
| `TransferTasks.SendingTask.OnAck` | src/file_transfer/filetransfersessionservice.cpp:3586-3597 | An Ack outside acked..sent fails the task; any other keeps the sender's invariant. |
| `TransferTasks.SendingTask.Pause` | src/file_transfer/filetransfersessionservice.cpp:3598-3605 | Only a transferring task pauses. |
| `TransferTasks.SendingTask.Resume` | src/file_transfer/filetransfersessionservice.cpp:3606-3614 | Only a paused task resumes, and pumps. |
| `TransferTasks.SendingTask.Fail` | src/file_transfer/filetransfersessionservice.cpp:4004-4086 | An active task fails and gives its source up. |
| `TransferTasks.ReceivingTask.AppendReceivedData` | src/file_transfer/filetransfersessionservice.cpp:3183-3250 | A frame that does not fit fails the task; the next frame of a source keeps the receiver's invariant. |
| `TransferTasks.ReceivingTask.OnWriteOpened` | src/file_transfer/filetransfersessionservice.cpp:3119-3181 | A transferring task takes the write session and sends Ack(0); any other gives it up. |
| `TransferTasks.ReceivingTask.OnChunkWritten` | src/file_transfer/filetransfersessionservice.cpp:3218-3250 | A written chunk counts and is acknowledged when 256 KiB or the end are reached; a failed one fails the task. |
| `TransferTasks.ReceivingTask.TryFinalizeReceiver` | src/file_transfer/filetransfersessionservice.cpp:3252-3299 | Queued once, with everything written and the digest announced. |
| `TransferTasks.ReceivingTask.OnFinalized` | src/file_transfer/filetransfersessionservice.cpp:3270-3299 | Success ends the task, a failed check fails it. |
| `TransferTasks.ReceivingTask.OnFileComplete` | src/file_transfer/filetransfersessionservice.cpp:3663-3675 | Another size fails the task; otherwise the digest to check. |
| `TransferTasks.ReceivingTask.Fail` | src/file_transfer/filetransfersessionservice.cpp:4004-4086 | An active task fails and gives its write session up. |
| `TransferTasks.ReceivingTask.RunNextJob` | src/adapters/windows/file_transfer/windowsfilesystemadapter.cpp:1896-2098 | The worker's append, finalize and abort on the file, with partial writes and failures. |
| `TransferTasks.ReceivingTask.OnJobDone` | src/file_transfer/filetransfersessionservice.cpp:3206-3299 | The callback of the oldest job that has run keeps the receiver's invariant, whatever the job and its outcome. |
| `TransferTasks.ReceivingTask.OnWriteNotOpened` | src/file_transfer/filetransfersessionservice.cpp:3164-3169 | A failed open fails a transferring task and leaves any other. |
| `ControlQueue.EveryRun` | src/file_transfer/filetransfersessionservice.cpp:4173-4251 | For every sequence of sends and flushes: the byte counter is the sum of the queued sizes, at most 4 MiB and 1024 messages wait, a file has at most one queued Ack, the accepted other messages reach the wire in the order of their calls without loss, and if the calls for a file's Acks never go back neither do the offsets on the wire. |
| `ControlQueue.SendValid` | src/file_transfer/filetransfersessionservice.cpp:4173-4236 | Sending keeps the exact counter, both limits and one Ack per file. |
| `ControlQueue.SendKeepsOrder` | src/file_transfer/filetransfersessionservice.cpp:4173-4236 | A message other than an Ack goes behind all others if accepted; nothing else moves them. |
| `ControlQueue.SendRefines` | src/file_transfer/filetransfersessionservice.cpp:4188-4219 | For the file of an Ack the queue does what the Ack path of a transfer attempt does, answer included; the Acks of other files stay. |
| `ControlQueue.FlushRefines` | src/file_transfer/filetransfersessionservice.cpp:4238-4251 | Flushing hands a file's waiting Ack over exactly when it is among the messages taken. |
| `ControlQueue.FileTransferControl.SendControl` | src/file_transfer/filetransfersessionservice.cpp:4173-4186 | The direct send, or the queue. |
| `ControlQueue.FileTransferControl.EnqueueControl` | src/file_transfer/filetransfersessionservice.cpp:4188-4236 | The loop that finds a waiting Ack, the coalescing, the limits and the insertion. |
| `ControlQueue.FileTransferControl.FlushControlQueue` | src/file_transfer/filetransfersessionservice.cpp:4238-4251 | The flush loop; the clamp of a negative counter never acts. |
| `ListingPages.ExchangeRoundTrip` | src/file_transfer/filetransfersessionservice.cpp:1468-1642 | A paged exchange ends within 2n + 1 of its own steps; the listing is retained if and only if fewer than 32 others were published meanwhile; with no message refused the exchange ends in silence, nothing shown and nothing reported, if and only if a page was asked for after 32 others; if it ends otherwise, the pane has exactly the owner's entries if and only if they can be transferred, and a reported error if and only if not; and it never shows anything else. |
| `ListingPages.SilentExactly` | src/file_transfer/filetransfersessionservice.cpp:3350-3371 | From any state of an exchange that has not ended: it falls silent if and only if a page is asked for when 32 other listings have followed, whatever else happens before and after. |
| `ListingPages.RetainedInRun` | src/file_transfer/filetransfersessionservice.cpp:1644-1654 | During an exchange a listing stays exactly while fewer than 32 others have been published behind it. |
| `ListingPages.DroppedMeansSilence` | src/file_transfer/filetransfersessionservice.cpp:3362-3365 | When 32 other listings are published before the second page is asked for, the owner does not answer and the pane neither shows anything nor reports an error. |
| `ListingPages.PageEndIsMaximal` | src/file_transfer/filetransfersessionservice.cpp:1476-1496 | A page holds at most 256 entries, fits with every prefix, and could not take the next entry. |
| `ListingPages.TokenConsumed` | src/file_transfer/filetransfersessionservice.cpp:3349-3372 | A token answers once; asked for again it is stale. |
| `ListingPages.RetainedExactly` | src/file_transfer/filetransfersessionservice.cpp:1644-1654 | A listing is retained exactly while fewer than 32 others have been published after it. |
| `ListingPages.ListingOwner.RetainOwnListing` | src/file_transfer/filetransfersessionservice.cpp:1644-1654 | The oldest listings are dropped until 32 are left. |
| `ListingPages.ListingOwner.SendListingPage` | src/file_transfer/filetransfersessionservice.cpp:1468-1515 | The longest page that fits, a token if more follows, or an error if not one entry fits. |
| `ListingPages.ListingOwner.PublishLocalListing` | src/file_transfer/filetransfersessionservice.cpp:1412-1466 | The listing is retained under a fresh id before its first page goes out. |
| `ListingPages.ListingOwner.HandlePageRequest` | src/file_transfer/filetransfersessionservice.cpp:3349-3372 | The token is consumed; an unknown one is stale, one of a dropped listing met with silence. |
| `ListingPages.RemotePane.HandleListingResponse` | src/file_transfer/filetransfersessionservice.cpp:1568-1642 | Too many pages or entries, another listing or a repeated token end the exchange with an error; the last page is shown with all before it. |
| `ListingPages.RemotePane.HandleListingError` | src/file_transfer/filetransfersessionservice.cpp:3407-3419 | Only the pending exchange is cleared, and the error reported. |
| `CopyPlanRoundTrip.AcceptedPlanCompletes` | src/file_transfer/filetransfersessionservice.cpp:1962-2596 | A plan the scan accepts is accepted by the receiver, manifest and every file, in every honest run; the receiver is never broken, and is done exactly when the directories are ready and every announced file is over, with the announced bytes. |
| `CopyPlanRoundTrip.ManifestTaken` | src/file_transfer/filetransfersessionservice.cpp:2237-2346 | The receiver takes the manifest of an accepted plan message by message and ends with the plan's directories and its number of files. |
| `CopyPlanReceiver.PlanConservation` | src/file_transfer/filetransfersessionservice.cpp:2445-2596 | Whatever arrives: completed <= received <= expected, received bytes are the children's and within the announced total, and a plan is done only when all counts and bytes are equal, once and for good. |
| `CopyPlan.ManifestGoesOutOnce` | src/file_transfer/filetransfersessionservice.cpp:2110-2183 | Under any backpressure what has been sent is a prefix of Begin, the directories in order, End; the whole goes out exactly when the manifest has ended, and has ended when the path has taken that many messages. |
| `CopyPlan.PlanGoesOut` | src/file_transfer/filetransfersessionservice.cpp:2110-2235 | Under any backpressure and with other tasks queued at any time: what has been sent is a prefix of Begin, the directories in order, End; no file is queued before all of it is out; the queued files stand in their original order in front of every other task, 128 more with every batch; and the manifest is out as soon as the control path has taken that many messages and refused none. |
| `CopyPlan.QueueOneBatch` | src/file_transfer/filetransfersessionservice.cpp:2192-2220 | The loop of a batch. |
| `CopyPlan.CopyPlanSender.SendManifest` | src/file_transfer/filetransfersessionservice.cpp:2120-2182 | The loops over Begin, the directories and End, stopped where the control path stops. |
| `CopyPlan.ScannedPlanOk` | src/file_transfer/filetransfersessionservice.cpp:1962-2068 | An accepted plan has 1 to 50000 items with pairwise different folded paths, every file's parent among its directories, and the exact 64-bit total. |
| `CopyPlan.ParentBelow` | src/file_transfer/filetransfersessionservice.cpp:1984-2040 | The parent and the name of a path below a folder. |
| `CopyPlan.ScanSelections` | src/file_transfer/filetransfersessionservice.cpp:1962-2068 | The loops over selections, directories and files compute the plan of the specification. |
| `CopyPlan.CopyPlanSender.PumpPlanManifest` | src/file_transfer/filetransfersessionservice.cpp:2110-2183 | The manifest goes out as far as the path takes it; behind its end the first batch of files is queued. |
| `CopyPlan.CopyPlanSender.QueuePlanFiles` | src/file_transfer/filetransfersessionservice.cpp:2185-2235 | Up to 128 files are put in front of the queue, last to first. |
| `CopyPlanReceiver.CopyPlanReceiverTask.OnDirectory` | src/file_transfer/filetransfersessionservice.cpp:2288-2313 | A folded duplicate breaks the plan; directories beyond the announced items are ignored. |
| `CopyPlanReceiver.CopyPlanReceiverTask.OnEnd` | src/file_transfer/filetransfersessionservice.cpp:2315-2346 | The files expected are the announced items that are not directories. |
| `CopyPlanReceiver.CopyPlanReceiverTask.OnFileBegin` | src/file_transfer/filetransfersessionservice.cpp:2445-2534 | Before the directories are ready a file waits, once; then it is refused for its count, task, name, folder or bytes, or recorded. |
| `CopyPlanReceiver.CopyPlanReceiverTask.OnDirectoriesPrepared` | src/file_transfer/filetransfersessionservice.cpp:2348-2443 | Every directory must have been prepared; then the waiting files are taken in order. |
| `CopyPlanReceiver.CopyPlanReceiverTask.OnChildOver` | src/file_transfer/filetransfersessionservice.cpp:3976-4001 | A child counts as completed once, and the plan's end is looked at. |
| `CopyPlanReceiver.CopyPlanReceiverTask.CompletePlanIfReady` | src/file_transfer/filetransfersessionservice.cpp:2536-2596 | All counts equal and all bytes there, or broken; once. |
| `CommandDispatcher.OneOutcome` | src/session/sessioncommanddispatcher.cpp:37-67 | For every sequence of sends, ticks, results and drops with fresh ids: a command is transmitted at most twice; a transmitted command has exactly one end unless it is still pending; a second transmission and a timeout come no sooner than the timeout after the transmission before, and a timeout only after two of them; and the timer runs exactly while something is pending. |
| `CommandDispatcher.AtMostOnce` | src/session/sessioncommanddispatcher.cpp:69-129 | For every history of deliveries and clears: between two runs of one id lies a clear or at least 128 other runs; a command delivered again runs again if and only if since its last run the cache was cleared or 128 others have run, and otherwise is answered with the identical result. |
| `CommandDispatcher.SessionCommandDispatcher.SendCommand` | src/session/sessioncommanddispatcher.cpp:37-67 | A refused transmission completes the command at once, an accepted one makes it pending. |
| `CommandDispatcher.SessionCommandDispatcher.HandleTimer` | src/session/sessioncommanddispatcher.cpp:139-179 | Every pending command is looked at once, and the timer stops when none is left. |
| `CommandDispatcher.SessionCommandDispatcher.HandleCommandResult` | src/session/sessioncommanddispatcher.cpp:181-199 | Only a pending command of the same generation is completed. |
| `CommandDispatcher.SessionCommandDispatcher.HandleIncomingCommand` | src/session/sessioncommanddispatcher.cpp:69-107 | A cached result is sent again; otherwise the handler runs and its result is remembered. |
| `CommandDispatcher.SessionCommandDispatcher.RememberCommandResult` | src/session/sessioncommanddispatcher.cpp:216-224 | The newest 128 results stay. |
| `CommandDispatcher.SessionCommandDispatcher.Clear` | src/session/sessioncommanddispatcher.cpp:123-129 | Pending commands and cached results are dropped without a completion. |
| `CommandDispatcher.SessionCommandDispatcher.FailAllPending` | src/session/sessioncommanddispatcher.cpp:109-121 | Every pending command completes with a failure, and the cache is dropped. |
| `EventLog.AutomationEventLog.AppendEvent` | src/automation/automationhostbridge.cpp:535-586 | The buffer stays the newest 256 critical, 192 state and 64 telemetry events of the history, which grows by this event under the next number; the overflow loop never runs. |
| `EventLog.AutomationEventLog.EventsSnapshot` | src/automation/automationhostbridge.cpp:662-692 | The retained events behind the cursor; a gap is reported exactly if some number between cursor and next number is no longer retained, or the cursor is 2^64 - 1. |
| `EventLog.RetainedExactly` | src/automation/automationhostbridge.cpp:552-577 | An event is retained exactly while fewer than its category's limit have followed it. |
| `EventLog.NewestWithLess` | src/automation/automationhostbridge.cpp:552-577 | Appending to a full category drops its oldest event and nothing else. |
| `EventLog.NewestAscends` | src/automation/automationhostbridge.cpp:535-586 | The buffer is in the order of its numbers. |
| `EventLog.NewestSize` | src/automation/automationhostbridge.cpp:578-585 | The category limits add up to the overall limit. |
| `FrameWatermark.RobustRoundTrip` | src/common/framewatermark.cpp:125-204 | For every buffer of at least 108 x 9, reading what was written gives the frame and input numbers modulo 2^32 and the age clamped to 0..65535, even if every colour byte of the mark has moved by up to 127 and every other byte is arbitrary. |
| `FrameWatermark.PayloadRoundTrip` | src/common/framewatermark.cpp:43-77 | The checksum and the bit fields carry the watermark and nothing is refused. |
| `FrameWatermark.AddressIsCell` | src/common/framewatermark.cpp:79-99 | The pixel addresses of the blocks tile the 108 x 9 rectangle: an address belongs to exactly one cell. |
| `FrameWatermark.RemoveForgetsMark` | src/common/framewatermark.cpp:206-231 | Removal gives the same buffer with and without the mark. |
| `FrameWatermark.SetBits` | src/common/framewatermark.cpp:62-66 | The field's bits, the others left. |
| `FrameWatermark.ReadBits` | src/common/framewatermark.cpp:68-77 | The number the field's bits stand for. |
| `FrameWatermark.WriteBlock` | src/common/framewatermark.cpp:79-99 | Exactly the bytes of the block's cells are written. |
| `FrameWatermark.ReadBlock` | src/common/framewatermark.cpp:101-121 | The bit of the block's mean brightness. |
| `FrameWatermark.WriteBgra` | src/common/framewatermark.cpp:125-165 | The marked buffer, no byte outside the rectangle touched, or nothing. |
| `FrameWatermark.ReadBgra` | src/common/framewatermark.cpp:167-204 | The watermark, or none for a wrong size, magic, version or checksum. |
| `FrameWatermark.RemoveBgra` | src/common/framewatermark.cpp:206-231 | The covered buffer, nothing else touched. |
| `KeyboardRouting.KeyBalance` | src/input/remotekeyboardroutingservice.cpp:83-256 | When queued calls run before the next event, the balance holds after every event - the keys held on the remote side are exactly the remembered ones, no key was released that was not held, and outside the capture mode none is held - if and only if no handler presses or releases a key while its identifier stands for a different one. |
| `KeyboardRouting.BalancedExactly` | src/input/remotekeyboardroutingservice.cpp:83-256 | However late queued calls run, the balance holds throughout if and only if no queued `stopHook` runs while keys are sent and no handler presses or releases a key while its identifier stands for a different one. |
| `KeyboardRouting.LateStopHookStrandsKey` | src/input/remotekeyboardroutingservice.cpp:386-393 | A queued `stopHook` that runs after the next capture began leaves a key pressed on the remote side without a hook. |
| `KeyboardRouting.KeyIdInjective` | src/input/remotekeyboardroutingservice.cpp:395-399 | Keys with 8-bit virtual-key codes and scan codes below 2^9 have different identifiers. |
| `KeyboardRouting.AltGrTwin` | src/input/remotekeyboardroutingservice.cpp:395-399 | The left Ctrl of AltGr, with scan code 0x21D, shares its identifier with exactly one such key. |
| `KeyboardRouting.DistinctKeysBalance` | src/input/remotekeyboardroutingservice.cpp:83-256 | With keys whose identifiers are pairwise different the balance always holds. |
| `KeyboardRouting.PlainKeysBalance` | src/input/remotekeyboardroutingservice.cpp:83-256 | With 8-bit virtual keys and scan codes below 2^9, and on keyboards with AltGr, the balance always holds. |
| `KeyboardRouting.CollidingKeysStrand` | src/input/remotekeyboardroutingservice.cpp:347-365 | Two keys with one identifier, the second an extended left Ctrl that only an unusual layout delivers: releasing the second forgets the first, which stays held, and releases a key that is not held. |
| `KeyboardRouting.ReleasesHeld` | src/input/remotekeyboardroutingservice.cpp:367-377 | Releasing the sent keys leaves exactly the others held. |
| `KeyboardRouting.RemoteKeyboardRoutingService.SendRemoteKey` | src/input/remotekeyboardroutingservice.cpp:347-365 | A press is remembered under its identifier, a release forgets the identifier. |
| `KeyboardRouting.RemoteKeyboardRoutingService.FlushPendingModifiers` | src/input/remotekeyboardroutingservice.cpp:125-132 | Under capture the waiting modifiers are pressed in order. |
| `KeyboardRouting.RemoteKeyboardRoutingService.ReleaseSentRemoteKeys` | src/input/remotekeyboardroutingservice.cpp:367-377 | Everything is forgotten first, then released key by key. |
| `KeyboardRouting.RemoteKeyboardRoutingService.StopKeyboardHook` | src/input/remotekeyboardroutingservice.cpp:386-393 | The key sets are emptied and the mode inactive; what is sent stays. |
| `KeyboardRouting.RemoteKeyboardRoutingService.ReleaseKeyboardCapture` | src/input/remotekeyboardroutingservice.cpp:103-114 | Sent keys are released; while keys are physically down the mode drains. |
| `KeyboardRouting.RemoteKeyboardRoutingService.HandleVideoFocusLost` | src/input/remotekeyboardroutingservice.cpp:116-123 | Sent keys are released and the hook stops. |
| `KeyboardRouting.RemoteKeyboardRoutingService.RequestKeyboardCapture` | src/input/remotekeyboardroutingservice.cpp:83-101 | An ineligible request changes nothing; otherwise the hook is stopped and started again. |
| `KeyboardRouting.RemoteKeyboardRoutingService.BeginShortcutRecording` | src/input/remotekeyboardroutingservice.cpp:134-157 | Capture or draining ends before a recording starts. |
| `KeyboardRouting.RemoteKeyboardRoutingService.CancelShortcutRecording` | src/input/remotekeyboardroutingservice.cpp:159-166 | Only a recording is ended. |
| `KeyboardRouting.RemoteKeyboardRoutingService.HandleKeyboardEvent` | src/input/remotekeyboardroutingservice.cpp:168-193 | Nothing is sent outside capture; the last key of a draining mode queues the stop. |
| `KeyboardRouting.RemoteKeyboardRoutingService.HandleRemoteCaptureEvent` | src/input/remotekeyboardroutingservice.cpp:195-256 | A shortcut is consumed, any other key flushes the modifiers and is sent. |
| `KeyboardRouting.RemoteKeyboardRoutingService.HandleRecordingEvent` | src/input/remotekeyboardroutingservice.cpp:258-299 | The key that ends a recording queues its end. |
| `LevelPolicy.MinimumExact` | src/codec/h264levelpolicy.cpp:50-80 | A level of the table admits a stream if and only if the minimum level is positive and no higher. |
| `LevelPolicy.UpwardClosed` | src/codec/h264levelpolicy.cpp:50-68 | What fits a level fits every higher level of the table (Table A-1 of ITU-T H.264). |
| `LevelPolicy.DownwardClosed` | src/codec/h264levelpolicy.cpp:50-80 | A stream that is nowhere larger fits too and needs no higher level. |
| `LevelPolicy.BitrateExact` | src/codec/h264levelpolicy.cpp:44-68 | For a stream that fits, another bitrate fits exactly up to the level's maximum. |
| `LevelPolicy.NoOverflow` | src/codec/h264levelpolicy.cpp:58-67 | For 32-bit sizes and rates every product formed fits 64 bits, those with the frame rate because of the size check before them (section A.3.1 of ITU-T H.264). |
| `KeyboardRouting.HandleExactly` | src/input/remotekeyboardroutingservice.cpp:83-299 | A handler keeps the balance if and only if every key it presses or releases is apart from those sent under the same identifier; it queues at most one call, a `stopHook` only outside the capture mode, and none when it sends keys. |
| `KeyboardRouting.QueuedKeepsExactly` | src/input/remotekeyboardroutingservice.cpp:103-166 | A queued call keeps the balance if and only if it is not a `stopHook` that finds keys sent. |
| `KeyboardRouting.RemoteKeyboardRoutingService.HandleModifierEvent` | src/input/remotekeyboardroutingservice.cpp:195-256 | A modifier under capture: held back when pressed, flushed and released when it ends. |
| `KeyboardRouting.RemoteKeyboardRoutingService.ConsumeShortcut` | src/input/remotekeyboardroutingservice.cpp:332-345 | The held modifiers and the key are consumed, and nothing waits. |
| `CopyPlanReceiver.StepValid` | src/file_transfer/filetransfersessionservice.cpp:2237-2596 | Every event keeps the plan's accounting and its announced totals, and leaves a plan that is done alone. |
| `CopyPlan.ScanSelection` | src/file_transfer/filetransfersessionservice.cpp:1972-2057 | One selection, a file or a folder. |
| `CopyPlan.ScanFolder` | src/file_transfer/filetransfersessionservice.cpp:2001-2056 | A folder with its limits, its own path, its directories and its files. |
| `CopyPlan.ScanDirectories` | src/file_transfer/filetransfersessionservice.cpp:2026-2039 | The loop over a folder's directories and its refusals. |
| `CopyPlan.ScanFiles` | src/file_transfer/filetransfersessionservice.cpp:2040-2055 | The loop over a folder's files, its refusals and the byte total. |
| `ListingPages.StepInv` | src/file_transfer/filetransfersessionservice.cpp:1468-1642 | Every step of an exchange, and every listing published in between, keeps what both sides hold and is in flight. |
| `ListingPages.GoneForGood` | src/file_transfer/filetransfersessionservice.cpp:1644-1654 | A listing that has been dropped does not come back. |
| `CommandDispatcher.ApplyOk` | src/session/sessioncommanddispatcher.cpp:37-67 | Every call of the sending side keeps the counts of transmissions and ends of every command. |
| `CommandDispatcher.ServeOk` | src/session/sessioncommanddispatcher.cpp:69-129 | Every delivery and every clear keeps the cache the newest 128 results since the last clear, and two runs of one id apart by a clear or 128 others. |
| `CommandDispatcher.RunsExactly` | src/session/sessioncommanddispatcher.cpp:69-107 | A delivered command runs, once and with the handler's result remembered, exactly when it has not run recently; a recent one is answered with the result of that run. |
| `CommandDispatcher.SessionCommandDispatcher.CheckPending` | src/session/sessioncommanddispatcher.cpp:143-176 | One command of the sweep: left, retried or timed out. |
| `EventLog.AutomationEventLog.CategoryCount` | src/automation/automationhostbridge.cpp:549-558 | The number of retained events of a category. |
| `EventLog.AutomationEventLog.RemoveOldestCategory` | src/automation/automationhostbridge.cpp:559-570 | The category's first event removed, and whether there was one. |
| `FrameWatermark.Marked` | src/common/framewatermark.cpp:152-164 | The marked buffer differs from the original inside the 108 x 9 rectangle only. |
| `FrameWatermark.EncodeBits` | src/common/framewatermark.cpp:133-150 | The bits of a watermark. |
| `FrameWatermark.DecodeBits` | src/common/framewatermark.cpp:188-203 | The watermark in the bits, or none. |
| `TrustedDevices.KeptRecords` | src/session/trusteddeviceservice.cpp:224-234 | The records completion keeps, in order. |
| `TrustedDevices.TrustedDeviceService.FindTransactionIndex` | src/session/trusteddeviceservice.cpp:269-278 | The first record of the transaction. |
| `TrustedDevices.TrustedDeviceService.SaveCurrent` | src/session/trusteddeviceservice.cpp:287-291 | The file replaced, or left when the save fails. |
| `PairingTransactions.PairingTransaction.Start` | src/session/pairingtransaction.cpp:5-17 | A new transaction. |
| `PairingTransactions.PairingTransaction.Reset` | src/session/pairingtransaction.cpp:19-27 | No transaction. |
| `PairingTransactions.PairingCommand.Start` | src/session/pairingcommand.cpp:3-8 | A new transaction and nothing cached. |
| `PairingTransactions.PairingCommand.Reset` | src/session/pairingcommand.cpp:10-15 | No transaction and nothing cached. |
| `PairingTransactions.PairingCommand.AcceptHello` | src/session/pairingcommand.cpp:33-36 | The Hello that duplicates are compared with. |
| `TransferTasks.SendingTask.Finish` | src/file_transfer/filetransfersessionservice.cpp:3676-3681 | The end of the sending task when the receiver reports it. |
| `TransferTasks.ReceivingTask.SendAcknowledgement` | src/file_transfer/filetransfersessionservice.cpp:4173-4236 | An Ack and the answer of the control path. |
| `TransferProgress.QuiescentOffsets` | src/file_transfer/filetransfersessionservice.cpp:3183-3250 | With nothing under way, everything sent has been written. |
| `TransferProgress.RunPrompt` | src/file_transfer/filetransfersessionservice.cpp:2806-2865 | Runs whose first pump follows Ack(0) keep the write session open for every frame. |

## Left out

- Return values of the flow's message handlers, the rate limiter's counters and the timers themselves: an
  expired timer is a step, a rate limit an answer.
- Text of identifiers: request, device, file and listing ids are numbers, fresh where the program draws a
  UUID; the null UUID and the empty string are both 0, and a session's generation is not 0.
- Between the opening of a session and its beginning at an endpoint, `PairingSystem` has no timeout, answer
  or cancellation of the endpoint's earlier session: they touch the earlier request only, and a run with
  them is one in which they come before the opening.
- Roles are fixed for each pairing endpoint, and the TLS peer is the other endpoint; a peer that does not
  follow the protocol is not part of `PairingSystem`.
- TLS, certificates, keying material, SHA-256, JSON and UTF-8 sizes, and Unicode case folding: functions or
  answers of the environment. `Agrees` and `EncodesAcks` state what is assumed of the last two;
  a digest determines its content.
- The store file's own format, sorting and validation: a save either replaces the file's records or fails.
- Retrying a task, clearing completed tasks, the immediate cancellation of a write, frames lost by a
  reconnection, and changes of the source file other than the one its read reports.
- Skip, overwrite and keep-both answers for single files: the receiver's write session opens or fails.
- Wrap-around of 64-bit offsets, sequence numbers and timestamps, except the event cursor at 2^64 - 1.
- Iteration orders of hashes are parameters that list every key once.
- Copy plans: the requests for unknown plans, wrong destinations and cancelled plans, which only end a plan.
- Tables of shortcuts and modifiers, window focus and eligibility: inputs of the keyboard model.
- Signals to the user interface, traces, progress reports and the JSON of events.
- The session state machine, the codecs' bodies and the file-system port under `core/` are not part of
  this model.
- Capture, rendering, encoding, clipboard, privacy and the small generation guards: foreign calls, or
  variations of what is shown here.
- ControlQueue.FileTransferControl.FlushControlQueue: a channel that closes, is backpressured or refuses a
  message during a flush is one number, the messages it takes.
- TransferLiveness.NoDeadlock: assumes that no Ack of a chunk is refused, because it fails otherwise; the
  exact condition for every run is in `LiveExactly`.
- TransferLiveness.RestMeansEnded: assumes the same.
- TransferTasks.SendingTask.Fail: the error text, the failure of a plan and the start of the next task are
  not modelled.
- TransferTasks.ReceivingTask.Fail: the same.
- TransferProgress.PromptedRunsRefuseNothing: assumes that the first pump follows Ack(0), because it fails
  otherwise; `FrameFits` has the exact condition for each frame.
