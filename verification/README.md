# TunnelProxy: a verified model

This project models three parts of TunnelProxy whose state changes under interleaving, and
proves what they keep over every run.

1. **Agent credential rotation.** The enrollment tables of the control plane (bootstrap
   tokens, credentials, a versioned authorization snapshot) with every transaction as one
   atomic step; the Agent's `rotate` with its token file and durable journal, under crashes,
   lost, late and repeated messages, expiries and the operations of others; the authority
   that puts durable snapshots live; the credential bundle on disk and the reload cell.
2. **The bounded fair multiplexing writer.** The fair queue, the permit-bounded data lane,
   the writer actor with its control burst, and the half-close loop of one stream.
3. **The HTTPS route catalog.** Hostname normalisation, the repository with managed
   hostnames, the canonical codec, the framing, and the distribution to an Edge.

The files are Dafny 4.11. `dafny verify dfyconfig.toml` covers all of them.

## How the model is built

- A transaction is a function from the tables before to the tables after and the reply; a
  run is a sequence of operations in any order. The repository class, whose methods read and
  write the tables statement by statement, is proved equal to these functions.
- SHA-256 is an injective wrapper (`Digest`). Random tokens, requests and keys are values
  that occur nowhere yet. Clocks, query answers that SQL leaves open, random bytes and the
  outcome of I/O are parameters, so each statement holds for all of them.
- Interleaving is explicit. The rotation protocol, the authority, the bundle directory, the
  writer and the route distribution are machines whose steps include every crash, loss,
  restart and foreign operation; a step that is not enabled changes nothing. The writer's
  loop, the Agent's calls and the Edge's runtime are also written as classes with the loops
  of the source, and proved to be runs of their machine or to keep its invariant.
- Each transaction has its outcome stated apart from its definition: exactly when it
  succeeds, everything it then changes, and that nothing else does. Each protocol has what
  it keeps over every run, and that it gets somewhere: rotation ends with a new credential,
  a waiting frame of either lane is written, an Edge catches up, a mutation is answered.
- Widths are explicit: versions stop at `u64::MAX`, times at `i64::MAX`, durations at
  `Duration::MAX`.

Three promises do not hold unconditionally. For each the exact condition is proved, and a
lemma shows a run in which it fails.

- From a bootstrap token, rotation is recoverable if and only if the token has neither run
  out unused nor been consumed by a request that has since expired
  (`RotationRecovery.RotationIsCrashSafe`); an Agent that is issued its first credential and
  reconciled before it activates is lost (`RotationStuck.BootstrapCanBeLost`).
- `replace_file` removes the old file before it renames the new one into place. A journal
  lost in between costs nothing, and a load of the credential bundle stays whole or is
  refused. The token file is different: an Agent that stops in between finds no token ever
  after, although its credential is Active and its journal holds the next token
  (`RotationStuck.TokenCanBeLost`, `RotationRecovery.GoneIsForever`). At every other point
  its files are recoverable.
- The control plane reads the version of the route catalog and its routes one after the
  other, outside a transaction, while the operator's commands change the tables from another
  process. A load was durable if and only if the routes it read are those of its version
  (`RouteAuthority.LoadIsDurable`). Without such a torn load the publisher refuses nothing
  and publishes durable catalogs only (`RouteAuthority.RoutesAreDurableBeforeLive`); with
  one, the refresh fails or a catalog that never was durable goes live
  (`RouteAuthority.TornLoadFails`).

## Files

| part | files |
|---|---|
| shared | Primitives, Publication, BigEndian, Utf8 |
| enrollment | Snapshots, Enrollment, EnrollmentInvariants, EnrollmentRuns, EnrollmentOutcomes, Reconciliation, SnapshotRepository, EnrollmentRepository |
| rotation | Rotation, RotationLedger, RotationViews, RotationSafety, RotationRecovery, RotationStuck, RotationGenerations, RotationPublication, RotationProgress, RotationAgent, PendingJournal |
| live snapshot and bundles | Authority, SnapshotAuthority, CredentialBundles, TlsReload |
| writer | FairQueue, Writer, WriterOrder, WriterFairness, WriterControl, WriterScript, WriterActor, LocalStream |
| routes | Hostname, RouteCatalog, RouteCodec, RouteCodecMethods, RouteProtocol, ManagedHostname, RouteRepository, RouteOutcomes, RouteTables, RouteAuthority, PersistentRoutes, RouteDistribution, RouteProgress, RouteClient |
| reconnect delay | Backoff |

## Model

| member | source | states |
|---|---|---|
| Snapshots.RemoveAgentTunnelExact | crates/control-plane/src/enrollment_repository.rs:945-961 | removing (agent, tunnel) takes authority from exactly that pair; every other certificate, agent and tunnel gets the same answer as before |
| Snapshots.RemoveAgentTunnelIdempotent | crates/control-plane/src/enrollment_repository.rs:945-961 | removing the same pair again leaves the grants as they are |
| Snapshots.StatusDecides | crates/control-plane/src/lib.rs:223-241 | disabling a tunnel denies exactly its certificate and tunnel, enabling it grants exactly that to the certificate's Agent |
| EnrollmentInvariants.StepKeepsInvariant | crates/control-plane/src/enrollment_repository.rs:182-531 | every transaction, successful or not, keeps the whole invariant (unique requests and generations, a Pending credential's predecessor has its identity and is Active or Retired, grants match states), moves each row only along the allowed state transitions and the snapshot by at most one version |
| EnrollmentRuns.RunKeepsInvariant | crates/control-plane/src/enrollment_repository.rs:182-531 | the invariant holds after every run of operations |
| EnrollmentRuns.AuthorityFollowsState | crates/control-plane/src/enrollment_repository.rs:211-263 | coherence: in every run from empty enrollment tables a certificate has a grant exactly while its credential is Pending or Active, and is authorized for exactly its own Agent and tunnel |
| EnrollmentRuns.TerminalStatesAbsorb | crates/control-plane/src/enrollment_repository.rs:385-400 | no run changes any column of a Retired, Revoked or Expired row, although activation overwrites two states unseen |
| EnrollmentRuns.VersionsAreMonotone | crates/control-plane/src/enrollment_repository.rs:971-1029 | snapshot versions never go back, and an unchanged version means an unchanged snapshot |
| EnrollmentRuns.GenerationsIncrease | crates/control-plane/src/enrollment_repository.rs:211-212 | a credential added in a run has a generation above every generation and version that existed before |
| EnrollmentRuns.ReplayRepeatsIssuance | crates/control-plane/src/enrollment_repository.rs:197-202 | a request that is answered again after any run gets the issuance it was first given, and the replay changes nothing |
| EnrollmentRuns.ActivationBeatsDeadline | crates/control-plane/src/enrollment_repository.rs:364-400 | a step that makes a credential Active found it Pending, is its own activation, and happens before its activation deadline |
| EnrollmentRuns.RevocationHolds | crates/control-plane/src/enrollment_repository.rs:405-455 | after a revocation, and until a bootstrap token for the pair is created again, no run reaches a state that authorizes a certificate for the pair, issues for a claim of the pair or for one of its tokens under any claimed identity, replays one of its requests, or activates one of its credentials |
| EnrollmentRuns.RevocationIsExact | crates/control-plane/src/enrollment_repository.rs:432-448 | a successful revocation changes the authorization answer for exactly the revoked pair |
| EnrollmentRuns.RevocationIsIdempotent | crates/control-plane/src/enrollment_repository.rs:405-455 | revoking again affects no credential and leaves all tables as they are |
| EnrollmentOutcomes.ActivationSucceeds | crates/control-plane/src/enrollment_repository.rs:319-403 | an activation succeeds if and only if its request, renewal token and fingerprint name one row that is Active, or Pending before its deadline with a version left if it has a predecessor to retire |
| EnrollmentOutcomes.ActivationTakesOver | crates/control-plane/src/enrollment_repository.rs:364-403 | a first credential becomes Active and nothing else changes; a later one also retires its predecessor and takes its authority in the next version; the reply is the head's version then |
| EnrollmentOutcomes.PredecessorStaysRetired | crates/control-plane/src/enrollment_repository.rs:371-402 | after that the predecessor is Retired and authorized for nothing in every later run |
| EnrollmentOutcomes.LateActivationExpires | crates/control-plane/src/enrollment_repository.rs:364-370 | an activation at or after the deadline expires its row and takes its authority in the next version and says so; without a version or a time in range it fails and changes nothing |
| EnrollmentOutcomes.RevocationSucceeds | crates/control-plane/src/enrollment_repository.rs:405-431 | a revocation is refused if and only if its time is out of range, there is no snapshot, or a grant would change and no version is left |
| EnrollmentOutcomes.RevocationRevokes | crates/control-plane/src/enrollment_repository.rs:432-455 | exactly the pair's Pending and Active rows are revoked at that time, and counted; exactly its bootstrap tokens too; the version moves by one if and only if a grant changed |
| EnrollmentOutcomes.RevocationBites | crates/control-plane/src/enrollment_repository.rs:405-455 | with a live credential and a version left a revocation succeeds, and the certificate loses its authority |
| EnrollmentOutcomes.IssuanceSucceeds | crates/control-plane/src/enrollment_repository.rs:182-263 | a new request is issued if and only if its times are in order, there is room and a version, the fingerprint is new, and its token is an unused bootstrap token in time or the renewal token of an Active credential of the pair |
| EnrollmentOutcomes.IssuanceAdds | crates/control-plane/src/enrollment_repository.rs:204-280 | what is added: one Pending row on the request's terms, with its predecessor if it renews one, numbered by the version that grants it to exactly its pair; a bootstrap token is consumed; nothing else changes |
| EnrollmentOutcomes.RetrySucceeds | crates/control-plane/src/enrollment_repository.rs:190-203 | a request that has a credential is answered with it if and only if it repeats every term and the credential is Pending or Active; the tables stay |
| EnrollmentOutcomes.PreflightAgrees | crates/control-plane/src/enrollment_repository.rs:286-317 | what the check before signing answers or refuses is what the transaction after it answers or refuses on the same tables, and what it lets through has a good token |
| EnrollmentOutcomes.RefusalIsExact | crates/control-plane/src/enrollment_repository.rs:736-803 | which refusal a token gets: another identity first, then revocation, then use, then time |
| EnrollmentOutcomes.CreatedTokenIsGood | crates/control-plane/src/enrollment_repository.rs:136-165 | a token is made if and only if its hash is new and its time in range, and is then good for exactly its pair until it runs out |
| Reconciliation.ReconcileDrains | crates/control-plane/src/enrollment_repository.rs:457-531 | n credentials overdue at a time are gone after exactly ceil(n/256) calls at that time; each call takes 256 of them and one version, touches no other row, and later calls change nothing |
| Reconciliation.ReconcileIdle | crates/control-plane/src/enrollment_repository.rs:486-494 | with nothing overdue a call changes nothing and reports the current version |
| Reconciliation.ReconcileExhausted | crates/control-plane/src/enrollment_repository.rs:501-512 | at the last version an overdue credential stays: the call fails and changes nothing |
| SnapshotRepository.SnapshotTables.ReplaceRows | crates/control-plane/src/enrollment_repository.rs:971-1010 | deleting and reinserting rows leaves the two tables holding exactly the given grants |
| SnapshotRepository.SnapshotTables.LoadLatest | crates/control-plane/src/repository.rs:194-254 | loading the rows gives back the grants that were stored; the digest comparison never fails |
| SnapshotRepository.SnapshotTables.Commit | crates/control-plane/src/repository.rs:76-167 | a commit replaces the head exactly for a newer version, accepts the same content again, and refuses older or conflicting ones unchanged |
| SnapshotRepository.RepresentsOne | crates/control-plane/src/repository.rs:194-254 | the row tables determine the grants |
| SnapshotRepository.CommitOutcomeIsExact | crates/control-plane/src/repository.rs:76-167 | a commit is accepted if and only if it can be encoded and is newer than the head or the same again, and is the head then |
| EnrollmentRepository.TakeFirst | crates/control-plane/src/enrollment_repository.rs:466-484 | the selected fingerprints are the first of the overdue ones in order, at most the limit, without repetition |
| EnrollmentRepository.Repository.FindRenewal | crates/control-plane/src/enrollment_repository.rs:776-792 | the row found for a renewal token is one the query may return: Active or Revoked, a Revoked one first |
| EnrollmentRepository.Repository.Authenticate | crates/control-plane/src/enrollment_repository.rs:736-803 | the statement-by-statement authentication is the specified one for an answer the query may give |
| EnrollmentRepository.Repository.CreateToken | crates/control-plane/src/enrollment_repository.rs:136-165 | tables and reply are those of the transaction, and the invariant is kept |
| EnrollmentRepository.Repository.Preflight | crates/control-plane/src/enrollment_repository.rs:286-317 | the answer is the durable issuance of an exact retry, nothing yet for a good token, or the specified refusal |
| EnrollmentRepository.Repository.Commit | crates/control-plane/src/enrollment_repository.rs:182-280 | tables and reply are those of the issuance transaction, and the invariant is kept |
| EnrollmentRepository.Repository.ActivateCredential | crates/control-plane/src/enrollment_repository.rs:319-403 | tables and reply are those of the activation transaction, including expiry at the deadline, and the invariant is kept |
| EnrollmentRepository.Repository.Expire | crates/control-plane/src/enrollment_repository.rs:906-943 | the overdue credential expires together with its grant |
| EnrollmentRepository.Repository.Revoke | crates/control-plane/src/enrollment_repository.rs:405-455 | tables and reply are those of the revocation transaction, and the invariant is kept |
| EnrollmentRepository.Repository.ExpireRows | crates/control-plane/src/enrollment_repository.rs:516-524 | the row-by-row updates expire exactly the selected Pending rows |
| EnrollmentRepository.Repository.Reconcile | crates/control-plane/src/enrollment_repository.rs:457-531 | tables and reply are those of the reconciliation transaction, and the invariant is kept |
| RotationLedger.ForeignKeepsMine | crates/control-plane/src/enrollment_repository.rs:182-531 | an operation by somebody without the Agent's secrets that does not revoke it changes none of the Agent's rows or tokens, except that a Pending row may expire |
| RotationSafety.StepKeepsWorld | crates/agent/src/enrollment.rs:288-408 | every step of the protocol (of the Agent, of the service, of others, every crash) keeps the joint invariant of history, tables, disk, messages and program |
| RotationSafety.NewJournalKeeps | crates/agent/src/enrollment.rs:445-484 | writing a fresh journal where there is none keeps every disk promise: the token on disk is live or spent, and no past attempt can be issued or activated any more |
| RotationSafety.DropJournalKeeps | crates/common/src/credential_bundle.rs:72-111 | removing the journal of an expired request, the first half of its replacement, keeps every disk promise, so a stop there loses nothing |
| RotationSafety.RemoveJournalKeeps | crates/agent/src/enrollment.rs:309-319 | removing a journal whose token is already the one on disk leaves a live token and a settled attempt |
| RotationSafety.WriteTokenKeeps | crates/agent/src/enrollment.rs:392-400 | replacing the token once the journal's request is Active keeps every disk promise: the new token is that of an Active credential |
| RotationRecovery.RotationIsCrashSafe | crates/agent/src/enrollment.rs:288-408 | in every run from a first start the Agent can go on from its files: its token file is there and the token authenticates, or the journal is answered with the issuance already made for it; from a renewal token if and only if the token file is not inside, or was not left inside, its replacement; from a bootstrap token if and only if moreover it has not run out unused and the request made with it has not expired; a token equal to the journal's next one authenticates |
| RotationRecovery.GoneIsForever | crates/agent/src/enrollment.rs:293-296 | an Agent that stopped inside the replacement of its token file never changes its files again |
| RotationStuck.BootstrapCanBeLost | crates/agent/src/enrollment.rs:288-408 | for every new Agent there is a run (ask, be issued, be reconciled at the deadline) after which neither its token nor its journal is accepted at any time |
| RotationStuck.TokenCanBeLost | crates/common/src/credential_bundle.rs:94-111 | for every new Agent there is a run (ask, be issued, publish, activate, stop between removal and renaming) after which it has no token file and cannot go on at any time |
| RotationRecovery.LiveRenewalAccepted | crates/control-plane/src/enrollment_repository.rs:776-803 | a renewal token of an Active credential authenticates for every row the query may answer with |
| RotationRecovery.JournalAnswer | crates/control-plane/src/enrollment_repository.rs:286-317 | the journal's replay is accepted exactly while its request is Pending or Active |
| RotationGenerations.GenerationsNeverGoBack | crates/agent/src/enrollment.rs:348-364 | over its whole life an Agent publishes bundles whose generations never go back, also after whatever bundles an earlier life left in its directory, and equal generations are the same certificate and key |
| RotationGenerations.AgentReloadNeverRefuses | crates/common/src/tls_reload.rs:131-162 | a running Agent's reload cell never meets a stale or conflicting generation from its own rotations, whether its directory was empty or held earlier bundles |
| RotationPublication.ActiveIsPublished | crates/agent/src/enrollment.rs:348-388 | publish before activate: in every run a credential the Agent requested is or was Active only if the bundle of its certificate and its journal's key has been published |
| RotationProgress.RotationProgresses | crates/agent/src/enrollment.rs:288-408 | progress: in every run from a first start, wherever the Agent stops with its token file there and not stuck, at most 22 steps of two calls and of a service that answers them end with a new token on disk, its credential Active and its bundle the last one published |
| RotationProgress.FromExpired | crates/agent/src/enrollment.rs:331-337 | a call whose request has expired is told so and leaves a fresh journal in its place, which the next call is issued a credential for |
| RotationProgress.UsedUpIsForever | crates/agent/src/enrollment.rs:288-408 | an Agent whose bootstrap token was used up by a request that has expired never gets another token, whatever happens |
| RotationAgent.Agent.LoadOrCreateJournal | crates/agent/src/enrollment.rs:293-304 | the journal is on disk before anything is sent; an existing one is reused |
| RotationAgent.Agent.BeginIssue | crates/agent/src/enrollment.rs:305-330 | a journal whose next token is on disk is removed, otherwise exactly its request goes out |
| RotationAgent.Agent.Reject | crates/agent/src/enrollment.rs:331-337 | a rejection keeps the token, and replaces the journal exactly when the request has expired; a failed renaming leaves none |
| RotationAgent.Agent.PublishIssued | crates/agent/src/enrollment.rs:340-383 | the issued bundle is published only if it checks out, and its activation is asked for only once it is published and reloaded; neither file changes |
| RotationAgent.Agent.ReplaceToken | crates/common/src/credential_bundle.rs:72-111 | the token file is missing and then there with the new token; if the renaming fails it stays missing |
| RotationAgent.Agent.Complete | crates/agent/src/enrollment.rs:392-400 | only after a confirmed activation the token is replaced and then the journal removed: the files pass through exactly these states |
| RotationAgent.Agent.SaveToken | crates/common/src/credential_bundle.rs:94-111 | a change of the token file is one step of the protocol from files that were in step, and is put on record |
| RotationAgent.Agent.SaveJournal | crates/agent/src/enrollment.rs:445-484 | a write or removal of the journal is one step of the protocol from files that were in step, and is put on record |
| RotationAgent.Agent.Rotate | crates/agent/src/enrollment.rs:288-408 | a whole call, whatever the service does meanwhile and whichever answer, check, store, reload or renaming fails, leaves the token and journal specified for it and is a run of the protocol |
| RotationAgent.Agent.FilesAreRecoverable | crates/agent/src/enrollment.rs:288-408 | every state the two files were ever in is one of the run's, and at every point of the run they are recoverable under exactly the conditions of the crash-safety theorem |
| PendingJournal.CreatedReadsBack | crates/agent/src/enrollment.rs:456-521 | every journal an Agent makes decodes back to itself: with a P-256 key and identifiers of at most 64 bytes it stays far below the limit |
| PendingJournal.DecodeOfEncode | crates/agent/src/enrollment.rs:486-521 | an encoding decodes back if and only if it is at most 128 KiB long |
| PendingJournal.EncodeOfDecode | crates/agent/src/enrollment.rs:499-521 | every accepted journal is the encoding of what it decodes to |
| PendingJournal.EncodePending | crates/agent/src/enrollment.rs:486-497 | the buffer holds the specified encoding |
| PendingJournal.DecodePending | crates/agent/src/enrollment.rs:499-545 | the offset-driven decoder accepts and refuses exactly as specified |
| Utf8.ValidIsText | crates/agent/src/enrollment.rs:516-518 | bytes accepted as text are the encoding of a sequence of Unicode scalar values |
| Utf8.TextIsValid | crates/agent/src/enrollment.rs:516-518 | every sequence of Unicode scalar values encodes to bytes that are accepted |
| Publication.Publisher.PublishCandidate | crates/control-plane/src/lib.rs:353-384 | a candidate is applied if newer, ignored if identical, refused if stale or conflicting, and only an applied one reaches the channel |
| SnapshotAuthority.Authority.Commit | crates/control-plane/src/repository.rs:343-363 | a commit that succeeds is live when it returns, one that fails changes nothing live, and the publisher never refuses |
| SnapshotAuthority.Authority.Refresh | crates/control-plane/src/repository.rs:367-380 | after a refresh the durable head is live |
| Authority.StepKeepsOk | crates/control-plane/src/enrollment_service.rs:372-461 | every step of the authority, of a request behind the mutation gate, and of any other process keeps the joint invariant |
| Authority.DurableBeforeLive | crates/control-plane/src/repository.rs:343-380 | whatever is committed, imported or enrolled meanwhile, PublishInvariant is unreachable, subscribers see only once-durable snapshots in increasing versions, live never exceeds durable, and a reply goes out only when the version of its mutation is live |
| Authority.RefreshMakesLive | crates/control-plane/src/repository.rs:367-380 | a refresh that nothing interrupts puts the durable head live |
| Authority.CommitMakesLive | crates/control-plane/src/repository.rs:343-363 | a commit that nothing interrupts is durable and live |
| Authority.ElsewhereGetsLive | crates/control-plane/src/repository.rs:367-380 | end to end: what another process does to the tables is live after one refresh |
| Authority.ImportGetsLive | crates/control-plane/src/repository.rs:367-380 | and so is an operator's import that is accepted |
| Authority.ReplyGoesOut | crates/control-plane/src/enrollment_service.rs:372-461 | a mutation that succeeded is answered: its refresh makes the head live and the reply carries both versions |
| Authority.SuccessIsAnswered | crates/control-plane/src/enrollment_service.rs:372-411 | every successful issuance goes on to its refresh and reply |
| Authority.ActivationIsAnswered | crates/control-plane/src/enrollment_service.rs:413-462 | so does every successful activation, and every one that expired its row |
| Authority.OperationMovesHead | crates/control-plane/src/enrollment_repository.rs:1023-1029 | even on tables an import has made incoherent, an operation moves the head only to a higher version and keeps generations at or below it |
| CredentialBundles.BundleDirectory.Publish | crates/common/src/credential_bundle.rs:37-111 | a publication takes the directory through exactly eight states, each file removed and then there, the manifest last; one that fails through those before its failure, and a refused one through none |
| CredentialBundles.LoadGeneration | crates/common/src/generation_reload.rs:67-108 | a load over reads at different moments succeeds exactly when the manifest names the expected files and each file read matches its digest, and returns those files; a material error names the first file that does not match |
| CredentialBundles.LoadIsWhole | crates/common/src/generation_reload.rs:67-108 | whatever publications run or are cut off between the reads of a load, a successful load is one whole bundle whose publication had begun |
| CredentialBundles.ManifestsProgress | crates/common/src/credential_bundle.rs:53-63 | a manifest read later is never older, also across moments without one, and the same generation is the same manifest |
| CredentialBundles.PublishedLoads | crates/common/src/generation_reload.rs:67-108 | a completed publication that nothing follows can be loaded, and is exactly the bundle, whatever the directory held before |
| CredentialBundles.PublicationIsHistory | crates/common/src/credential_bundle.rs:37-63 | a publication that is not cut off continues every history at rest and leaves exactly its bundle |
| TlsReload.ReloadNeverRefuses | crates/common/src/tls_reload.rs:131-162 | from a cell filled by an earlier load no later load is refused as stale or conflicting |
| TlsReload.ServesNewest | crates/common/src/tls_reload.rs:131-162 | after any polls the cell serves one thing whole (generation, digest, configuration and validity): what it served at first or one candidate offered in its time; nothing offered in its time is newer |
| TlsReload.PollServes | crates/common/src/tls_reload.rs:131-169 | a poll installs its candidate whole if and only if that is in its time and newer, and counts as failed unless it brought a newer candidate or the same again |
| TlsReload.InstalledExactly | crates/common/src/tls_reload.rs:131-162 | the configuration changes exactly with the reply that says so, and is then the offered one |
| TlsReload.ReloadableConfig.Publish | crates/common/src/tls_reload.rs:131-162 | the cell and the reply are those specified for a candidate: time first, then stale, same, conflicting or newer |
| TlsReload.ReloadableConfig.Status | crates/common/src/tls_reload.rs:171-193 | expiry outranks a failed reload, which outranks an approaching expiry |
| FairQueue.BoundedFairQueue.Push | crates/common/src/bounded_fair_queue.rs:199-212 | an item is refused exactly at capacity; otherwise it joins the back of its key, and a new key the back of the line |
| FairQueue.BoundedFairQueue.Pop | crates/common/src/bounded_fair_queue.rs:215-234 | the first item of the first active key is returned, the key goes to the back or leaves, and neither expectation can fail |
| FairQueue.PushKeeps | crates/common/src/bounded_fair_queue.rs:199-212 | active keys stay distinct and exactly those with items, and the length grows by one |
| FairQueue.PopKeeps | crates/common/src/bounded_fair_queue.rs:215-234 | active keys stay distinct and exactly those with items, and the length shrinks by one |
| FairQueue.KeyIsFifo | crates/common/src/bounded_fair_queue.rs:178-247 | over every run of pushes and pops each key is a FIFO of its own: handed out plus waiting is waiting at first plus accepted |
| FairQueue.ServedInOrder | crates/common/src/bounded_fair_queue.rs:215-234 | under any pushes, the next pops serve the active keys exactly in line order |
| FairQueue.OneRoundBetweenServices | crates/common/src/bounded_fair_queue.rs:226-232 | between two services of a key every other key active at its re-queueing is served exactly once |
| Writer.AdmissionHolds | crates/common/src/bounded_fair_queue.rs:43-112 | in every run channelled, scheduled and in-flight items stay within the capacity and the schedule never refuses one |
| Writer.AdmissionIsExact | crates/common/src/bounded_fair_queue.rs:43-70 | while the data lane is open a sender is admitted if and only if fewer items than the capacity are; its frame joins the lane, and a written frame makes room |
| Writer.ControlIsAccepted | crates/agent/src/multiplex.rs:481-493 | a control frame is accepted if and only if the lane is open, and the data lane closes only when no sender is left with a permit |
| Writer.WorkKeepsGood | crates/agent/src/multiplex.rs:469-533 | every step of the actor keeps permits, queues and lane flags consistent |
| WriterOrder.NothingIsLost | crates/agent/src/multiplex.rs:469-533 | in every run control frames keep their order, and each stream's frames on the wire, in flight, scheduled and channelled are those accepted, in order |
| WriterOrder.WriterTerminates | crates/agent/src/multiplex.rs:469-536 | once all senders have closed, the actor ends within a bounded number of its steps |
| WriterOrder.EverythingIsWritten | crates/agent/src/multiplex.rs:457-536 | a session that has ended has written every accepted frame exactly once, control frames in order and each stream in order |
| WriterFairness.HeadIsWritten | crates/agent/src/multiplex.rs:469-506 | the head frame of a scheduled stream is written within its budget of writes, before any other data frame of its stream, whatever arrives |
| WriterFairness.FairnessBound | crates/agent/src/multiplex.rs:469-506 | the head frame of the stream at index i is among the next 9 * (i + 1) frames, plus the one in flight |
| WriterFairness.BurstIsBounded | crates/agent/src/multiplex.rs:481-493 | while data is scheduled no nine written frames in a row are control frames |
| WriterControl.ControlIsWritten | crates/agent/src/multiplex.rs:469-533 | a control frame waiting in the lane is written within its budget, after those before it, whatever arrives |
| WriterControl.ControlBound | crates/agent/src/multiplex.rs:481-493 | the control frame at index j is among the next j + j/8 + 2 frames written |
| WriterControl.BurstIsUsed | crates/agent/src/multiplex.rs:481-506 | after a data frame up to eight waiting control frames go next, in order and with nothing between them |
| WriterControl.WaitPrefersControl | crates/agent/src/multiplex.rs:512-533 | while the loop waits, a control frame that is there is the next frame written |
| WriterControl.DrainIsComplete | crates/agent/src/multiplex.rs:470-479 | when the drain ends, nothing is left in the data lane |
| WriterActor.Actor.DrainLane | crates/agent/src/multiplex.rs:470-479 | the inner loop is a run of the machine that ends before the control lane's turn |
| WriterActor.Actor.TryControl | crates/agent/src/multiplex.rs:481-493 | the control lane's turn is a run of the machine under the burst rule |
| WriterActor.Actor.Select | crates/agent/src/multiplex.rs:512-533 | the biased wait is a run of the machine and makes progress |
| WriterActor.Actor.RunUntilClosed | crates/agent/src/multiplex.rs:457-536 | for every script of the senders the loop terminates; unless a write fails, the wire holds every control frame the script sends before the lane is closed and every data frame handed over with a permit, once and in order; at a failed write it holds exactly the writes before it, the first of those frames |
| WriterScript.SessionFollowsScript | crates/agent/src/multiplex.rs:457-536 | at any moment of a session under a script the wire holds the first of the control frames the script sends, and of each stream frames the script sends on it, in order; when it has ended, all that were accepted |
| WriterScript.OfferedByScript | crates/agent/src/multiplex.rs:457-536 | what the senders have done is the script's batches in order and then only closing, so once the control lane is closed no control frame of the script is missing |
| LocalStream.Task.OnInbound | crates/agent/src/multiplex.rs:403-428 | DATA and END are delivered until the peer has ended; a failed delivery resets with an I/O failure, a valid reset ends silently, anything else resets as a violation |
| LocalStream.Task.OnRead | crates/agent/src/multiplex.rs:429-446 | a read becomes one DATA frame of its bytes, the end of the socket one END frame, and a refused one stops the loop |
| LocalStream.Task.Run | crates/agent/src/multiplex.rs:398-452 | the loop stops at the first event that must stop it, with the reset that event calls for, or when both sides have ended, and until then queues exactly the frames of its reads and delivers exactly the bytes received |
| LocalStream.QueuedRelays | crates/agent/src/multiplex.rs:429-446 | what the loop queues is DATA* and then END exactly at the end of the socket, and carries exactly the bytes read |
| LocalStream.NothingAfterEnd | crates/agent/src/multiplex.rs:403-428 | after the peer's END the loop takes in nothing more from it, and before that only DATA and END that the local socket took |
| LocalStream.WireShape | crates/agent/src/multiplex.rs:392-536 | whatever a stream's events and the writer's run, the stream is on the wire as DATA* and at most one END, each DATA holds 1 to 16384 bytes, and the bytes are a prefix of those read; after a finished session that accepted all, they are the bytes read, with END exactly if the socket ended |
| Hostname.CanonicalIsFixed | crates/common/src/public_hostname.rs:50-82 | a hostname is accepted unchanged exactly when it is canonical: 1 to 253 bytes, lower case, valid labels, not an IPv4 address |
| Hostname.NormalizeIsIdempotent | crates/common/src/public_hostname.rs:50-82 | every accepted value normalizes to a canonical one, and normalizing again changes nothing |
| Hostname.NormalizeIsExact | crates/common/src/public_hostname.rs:50-82 | a value is accepted as a name if and only if the name is canonical and the value writes it, up to capitals and one dot at the end |
| RouteCatalog.NewCatalogIsExact | crates/control-plane/src/https_route_repository.rs:174-189 | a catalog is made exactly of at most 64 routes with distinct hostnames, and holds the same routes strictly sorted |
| RouteCatalog.NewOfSorted | crates/control-plane/src/https_route_repository.rs:174-189 | routes already in order are kept as they are |
| RouteCodec.TakeRoutes | crates/control-plane/src/https_route_codec.rs:48-67 | routes that are read are valid, strictly ascending, and what the bytes encode |
| RouteCodec.DecodeOfEncode | crates/control-plane/src/https_route_codec.rs:13-72 | every catalog encodes into at most 20618 of the 65536 bytes allowed and decodes back to itself |
| RouteCodec.EncodeOfDecode | crates/control-plane/src/https_route_codec.rs:35-72 | every accepted byte string is the encoding of a valid catalog, the one it decodes to |
| RouteCodecMethods.EncodeCatalog | crates/control-plane/src/https_route_codec.rs:13-33 | the encoding loop produces the specified bytes and no size limit is ever hit |
| RouteCodecMethods.DecodeCatalog | crates/control-plane/src/https_route_codec.rs:35-72 | the cursor-driven decoder accepts and refuses exactly as specified |
| RouteCodecMethods.Input.Take | crates/control-plane/src/https_route_codec.rs:91-102 | the cursor moves by what it returns, or not at all |
| RouteProtocol.DecodeOfEncode | crates/control-plane/src/https_route_protocol.rs:45-124 | every message decodes from its encoding |
| RouteProtocol.EncodeOfDecode | crates/control-plane/src/https_route_protocol.rs:72-124 | each message has one accepted encoding |
| RouteProtocol.ReadAll | crates/control-plane/src/https_route_protocol.rs:126-149 | reading off the concatenated encodings of any list returns that list and leaves nothing |
| RouteProtocol.ReadIsExact | crates/control-plane/src/https_route_protocol.rs:126-149 | a message that is read is read off its own encoding at the front of the stream |
| RouteProtocol.FramingIsInjective | crates/control-plane/src/https_route_protocol.rs:45-149 | the same bytes never frame two lists of messages |
| ManagedHostname.EveryEntropyWorks | crates/control-plane/src/https_route_repository.rs:20-26 | a base domain accepted with zero bytes yields a valid, matching hostname for every sixteen random bytes |
| ManagedHostname.NameIsCanonical | crates/control-plane/src/https_route_repository.rs:633-644 | the name is a valid hostname exactly when the base domain leaves 36 bytes, whatever the random bytes |
| ManagedHostname.NamesAreDistinct | crates/control-plane/src/https_route_repository.rs:633-644 | different random bytes give different hostnames |
| ManagedHostname.MatchesIsExact | crates/control-plane/src/https_route_repository.rs:646-662 | a hostname that matches a base domain is the name of some sixteen bytes under it |
| RouteRepository.NeverCorrupt | crates/control-plane/src/https_route_repository.rs:282-488 | over every run there are at most 64 routes, each managed hostname is an enabled route of its tunnel, no operation reports corruption, a failed one changes nothing and a successful change is the next version |
| RouteRepository.UpsertSparesManaged | crates/control-plane/src/https_route_repository.rs:282-330 | a manual upsert changes no managed route or allocation, and is refused if it names one |
| RouteRepository.RemoveSparesManaged | crates/control-plane/src/https_route_repository.rs:332-368 | a manual removal changes no managed route or allocation, and is refused if it names one |
| RouteRepository.AllocateThenRelease | crates/control-plane/src/https_route_repository.rs:380-488 | releasing what was just allocated restores the tables two versions later |
| RouteOutcomes.UpsertOutcome | crates/control-plane/src/https_route_repository.rs:282-330 | an upsert succeeds if and only if the hostname is not managed and it is so already, or there is a version and room; then exactly that hostname resolves to it |
| RouteOutcomes.RemoveOutcome | crates/control-plane/src/https_route_repository.rs:332-368 | a removal succeeds if and only if the hostname is not managed and has no route, or there is a version; then exactly that hostname no longer resolves |
| RouteOutcomes.SelectOutcome | crates/control-plane/src/https_route_repository.rs:411-423 | the search for a name ends with the first free one, if and only if there is one before the random bytes run out |
| RouteOutcomes.AllocateOutcome | crates/control-plane/src/https_route_repository.rs:380-447 | an allocation succeeds if and only if the tunnel has a name under this base, or has none and there is room, a version and a free name among the attempts |
| RouteOutcomes.AllocateGives | crates/control-plane/src/https_route_repository.rs:380-447 | a new name is that of the first free attempt, resolves to the tunnel, and nothing else changes; an existing one is given again |
| RouteOutcomes.ReleaseOutcome | crates/control-plane/src/https_route_repository.rs:449-488 | a release succeeds if and only if there is nothing to release or a version left; then exactly the tunnel's name is gone |
| RouteTables.DnsRulesAreLawful | crates/control-plane/src/https_route_repository.rs:20-26 | the DNS hostname rules are rules the repository's results apply to |
| RouteTables.FreshTablesNeverCorrupt | crates/control-plane/src/https_route_repository.rs:282-488 | over every run from the tables as migration makes them, no operation reports corruption |
| RouteTables.Tables.Check | crates/control-plane/src/https_route_repository.rs:536-582 | the row-by-row validation accepts exactly the valid tables |
| RouteTables.Tables.UpsertRoute | crates/control-plane/src/https_route_repository.rs:282-330 | tables and reply are those of the transaction |
| RouteTables.Tables.RemoveRoute | crates/control-plane/src/https_route_repository.rs:332-368 | tables and reply are those of the transaction |
| RouteTables.Tables.SelectName | crates/control-plane/src/https_route_repository.rs:411-423 | the attempts end at the first free name, at missing random bytes, or after the last attempt |
| RouteTables.Tables.AllocateName | crates/control-plane/src/https_route_repository.rs:380-447 | tables and reply are those of the transaction |
| RouteTables.Tables.ReleaseName | crates/control-plane/src/https_route_repository.rs:449-488 | tables and reply are those of the transaction |
| RouteAuthority.RoutesAreDurableBeforeLive | crates/control-plane/src/https_route_distribution.rs:225-312 | in every run, with other processes changing the tables at any moment, published versions increase and never exceed the tables, and a reply goes out only when its version is live; unless a load was torn, PublishInvariant is unreachable and only durable catalogs are published |
| RouteAuthority.LoadIsDurable | crates/control-plane/src/https_route_repository.rs:664-715 | a load yields a durable catalog if and only if the routes read are those of the version read |
| RouteAuthority.RefusedExactly | crates/control-plane/src/https_route_distribution.rs:50-79 | a load is never stale; it is refused if and only if it has other routes under the live version |
| RouteAuthority.UndisturbedLoadsAreSafe | crates/control-plane/src/https_route_distribution.rs:248-260 | if no other process acts between the two reads of a load, nothing is refused and only durable catalogs are published |
| RouteAuthority.TornLoadFails | crates/control-plane/src/https_route_repository.rs:664-715 | one upsert elsewhere between the two reads makes a refresh fail, or puts a catalog live that never was durable |
| RouteAuthority.StepKeepsConsistent | crates/control-plane/src/https_route_distribution.rs:225-312 | every step of the authority and of other processes keeps the joint invariant |
| RouteAuthority.LoadMakesLive | crates/control-plane/src/https_route_distribution.rs:297-310 | a load that nothing disturbs puts the durable catalog live and sends the reply that waits for it |
| RouteAuthority.MutationIsAnswered | crates/control-plane/src/https_route_distribution.rs:262-295 | an allocation or release that succeeds and that nothing disturbs is live and answered |
| PersistentRoutes.PersistentCatalog.PublishDurable | crates/control-plane/src/https_route_distribution.rs:297-310 | on tables that stay put, what is durable is live afterwards and the publisher never refuses |
| PersistentRoutes.PersistentCatalog.AllocateManaged | crates/control-plane/src/https_route_distribution.rs:262-279 | an allocation that succeeds is live when it returns, one that fails changes nothing durable or live |
| PersistentRoutes.PersistentCatalog.ReleaseManaged | crates/control-plane/src/https_route_distribution.rs:281-295 | a release that succeeds is live when it returns, one that fails changes nothing durable or live |
| RouteDistribution.DistributionHolds | crates/control-plane/src/https_route_distribution.rs:488-826 | from a bootstrap at a server with any history, across any disconnects, restarts and expiries, the Edge's catalog is one the server served, what it shows never goes back, update errors, unexpected messages and ClientAhead are unreachable, a stream is held at the loop head exactly when the source is Live, and at quiescence the Edge has the current catalog |
| RouteDistribution.StepKeepsConsistent | crates/control-plane/src/https_route_distribution.rs:488-570 | every step of the control plane, of a served connection and of the Edge keeps the joint invariant |
| RouteDistribution.AcceptOk | crates/control-plane/src/https_route_distribution.rs:50-79 | a catalog that arrives in order is accepted and becomes the Edge's own |
| RouteProgress.EdgeCatchesUp | crates/control-plane/src/https_route_distribution.rs:488-826 | from every state in which the runtime has not ended, a bounded number of steps of the connection and of the Edge, and none of the control plane, leads to a quiet stream on which the Edge has the current catalog and is Live |
| RouteProgress.NewCatalogReachesEdge | crates/control-plane/src/https_route_distribution.rs:488-826 | end to end: a newer catalog, published or found at a restart, reaches every Edge whose runtime has not ended |
| RouteProgress.HeldCatchesUp | crates/control-plane/src/https_route_distribution.rs:552-570 | a held connection that the server has not dropped gets quiet within the messages under way and five steps |
| RouteProgress.HealthMoves | crates/control-plane/src/https_route_distribution.rs:752-822 | the source becomes Stale only by a lost stream, Expired only by its age, Live only by word from the server |
| RouteProgress.HealthFollows | crates/control-plane/src/https_route_distribution.rs:752-822 | and does so then |
| RouteClient.EdgeRuntime.OnStream | crates/control-plane/src/https_route_distribution.rs:752-774 | the runtime goes where the protocol's Edge goes on a message: a catalog is published and the stream kept, anything else ends the runtime, a broken stream leaves the source Stale |
| RouteClient.EdgeRuntime.OnWait | crates/control-plane/src/https_route_distribution.rs:777-822 | expiry, a failed connection and every answer lead where the protocol's Edge goes, with the delay doubled up to its maximum on a retry and reset on success |
| RouteClient.EdgeRuntime.Run | crates/control-plane/src/https_route_distribution.rs:746-826 | the loop ends where its turns lead the protocol's Edge; at every loop head a stream is held exactly when the source is Live, and what is shown never goes back, whatever the server sends |
| RouteClient.EventsAreSteps | crates/control-plane/src/https_route_distribution.rs:746-826 | what each event of the runtime makes of it is what a step of the protocol makes of the Edge |
| RouteClient.AnswerIsStep | crates/control-plane/src/https_route_distribution.rs:785-822 | and so for every answer to a subscription |
| Backoff.DelayBase | crates/agent/src/runtime.rs:77-89 | the loop computes min(initial * multiplier^(failures - 1), max), overflow included, in at most 94 rounds |
| Backoff.DelayIsBounded | crates/agent/src/runtime.rs:90-93 | with exact scaling the delay lies between (100 - jitter)% of the base and the base, is at most the maximum and never zero |
| Backoff.DelayNeverShrinks | crates/agent/src/runtime.rs:77-94 | for one sample the delay never decreases as failures mount |

## Left out

- TLS, certificate parsing and signing, Ed25519, base64 and randomness: library code; values are abstract, digests injective, random values fresh.
- SQLite: transactions are atomic, and so is a single query; the file system: removal and renaming are atomic and durable at once.
- SnapshotRepository.SnapshotTables.LoadLatest: the three queries of a snapshot load are one; a change between them is found by the stored digest in the source. The byte limit of an encoded snapshot (1 MiB) and rows that do not decode are not modelled.
- EnrollmentRepository.Repository.Commit: keeps the limits of 4096 certificates and 4096 tunnels per certificate, but not the byte limit of 1 MiB, which an operator's import can bring a snapshot close to.
- Conversion between grant lists and maps in `AuthorizationSnapshot::new` and `grants`: snapshots are maps throughout, so only the map side appears; the canonical order of the listing is not modelled.
- Operator import of whole snapshots: part of `Authority.DurableBeforeLive` only, because an import may replace grants freely and so ends coherence, absorption and revocation.
- More than one Active credential for an Agent and tunnel: the code allows it and nothing here excludes it.
- Rotation by two processes of the same Agent at once, and revocation of the Agent's own identity during rotation.
- RotationRecovery.RotationIsCrashSafe: a first start needs a token that no live request of anybody has used; a renewal token already spent elsewhere is not covered.
- RotationGenerations.AgentReloadNeverRefuses: for an unchanged server CA, as the bundle directory is modelled with a constant one.
- PendingJournal.CreatedReadsBack: the sizes of an encoded key and of a signing request are upper bounds for what the certificate library produces.
- CredentialBundles.LoadGeneration: the manifest is a value; malformed JSON and malformed digests in it are not modelled.
- RouteProtocol.ReadAll: reads from a complete byte stream; partial reads and I/O errors end a read and are not modelled further.
- RouteTables.Tables.Check: the tables hold hostnames and identifiers that were checked when they were made; rows with raw text that no operation writes are not modelled.
- PersistentRoutes.PersistentCatalog.PublishDurable: one call on tables that nobody else changes meanwhile; other processes are part of the machine in RouteAuthority.
- LocalStream.WireShape: stream identifiers are fresh, so that one loop feeds each stream; connecting to the local service and the opening acknowledgement are not modelled.
- WriterActor.Actor.RunUntilClosed: a sender waiting for a permit is one that tries again, so which data frames are accepted depends on the schedule; the final shutdown of the transport is not modelled.
- Hostname.CanonicalIsFixed: an IPv6 literal is refused because of its colon; the choice between the two error codes for it is not modelled.
- Backoff.DelayIsBounded: over real numbers; the rounding of `mul_f64` is not modelled.
- Backoff.DelayNeverShrinks: over real numbers; the rounding of `mul_f64` is not modelled.
- Wall-clock timeouts, final task joining, the retry schedule of the runtime, telemetry, logging, the CLI, operations endpoints, the reachability probe, and the Edge and protocol crates.
