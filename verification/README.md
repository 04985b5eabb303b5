# Research governance, verified

A Dafny model of the parts of the alpha harness that decide who may run, publish, continue, admit or
evaluate something: the Campaign dispatch protocol, bundle and report publication, the durable
research loop, the trusted input snapshot and its calendar, follow-up plan history, signed
deployment envelopes, two point-in-time data checks, and the holdout gate. Each piece is written in
the form of its source: concurrent protocols as step machines over values, code that updates fields
or builds collections in loops as classes and methods proved against specification functions, pure
checks as functions. `dafny verify dfyconfig.toml` checks everything.

| file | what it models |
|---|---|
| `Base64.dfy`, `SecretPayload.dfy` | the hand-written decoder against the encoder of section 4 of RFC 4648, and the Secret payload check built on it |
| `Dispatch.dfy`, `DispatchSuccess.dfy`, `DispatchProgress.dfy` | claim, create or adopt, bind, place the Secret, release by a conditional patch (sections 4.3, 4.6 and 5 of RFC 6902), with any number of dispatchers, crashes, late requests and a cluster that edits, deletes and replaces objects; what success means, and what undisturbed attempts achieve |
| `BundlePublish.dfy`, `ReportPublish.dfy` | the two no-clobber two-file publications, interleaved at every file system call |
| `LoopModel.dfy`, `LoopSafety.dfy`, `LoopReplay.dfy`, `LoopOutcome.dfy`, `LoopController.dfy` | the durable loop as values, what holds of every saved version over a whole life, what re-running does, which stop an invocation reaches from what it reads, and the loop as imperative code |
| `Calendar.dfy`, `Snapshot.dfy` | calendar resolution, protocol binding and row partitions; recomputed against remembered prechecks |
| `PlanHistory.dfy` | the bounded chain of follow-up plans |
| `Sorting.dfy`, `Envelope.dfy` | sort plus dedup as a normal form; the envelope gate |
| `AsOfJoin.dfy`, `SeriesBounds.dfy` | the binary-search join and the one-pass series check |
| `Holdout.dfy` | the evidence list, the exactly-one gate, and the lineages the store can hold |

## What turned out not to hold

- `decode_base64` accepts texts no encoder writes: padding in any quartet and nonzero spare bits
  (`Base64.LaxTexts`). Re-encoding gives the text back exactly when it is canonical
  (`Base64.ReencodeIffCanonical`). It refuses the empty text, so a Secret with an empty value is
  never accepted (`SecretPayload.FaithfulReadback`).
- A published ONNX bundle can lose its model. Without I/O errors it is safe exactly when no two
  requests name the same file and bytes under different model records
  (`BundlePublish.ModelSafetyIffNoSharedFile`); with I/O errors, exactly when no two publishers share
  a model file at all (`BundlePublish.ModelSafetyIffApart`).
- The remembered precheck alone accepts a confirmed receipt in a plan moved to another label horizon,
  which plan validation does not refuse (`Snapshot.MemoryAloneIgnoresTheHorizon`,
  `Snapshot.MovedHorizonIsValid`). For validated plans memory agrees with recomputation exactly when
  the label horizon is the materialization's own (`Snapshot.ValidatedPlansAgreeIff`); for any plan,
  exactly when the protocol check passes (`Snapshot.CachedRouteAgreesWithRows`).
- A limit of minus zero is a valid zero limit with a different scope hash
  (`Envelope.NegativeZeroChangesScope`); equal amounts give equal limits exactly when their zeros have
  equal signs (`Envelope.EqualAmountsIff`).

## Model

| member | source | states |
|---|---|---|
| Base64.ReadQuartet | rust_hft/alpha-harness/app/src/mission_dispatch.rs:1051-1080 | the inner loop with its padding counter decodes one quartet exactly as specified, or refuses it |
| Base64.DecodeBase64 | rust_hft/alpha-harness/app/src/mission_dispatch.rs:1046-1084 | the nested loops compute the specified decoding of every byte string |
| Base64.AcceptedLanguage | rust_hft/alpha-harness/app/src/mission_dispatch.rs:1046-1075 | accepted texts are exactly the nonempty runs of quartets with 0, 1 or 2 trailing pads |
| Base64.RoundTrip | rust_hft/alpha-harness/app/src/mission_dispatch.rs:1046-1084 | decoding undoes the RFC 4648 encoder on every nonempty byte string, and the empty one is refused |
| Base64.ReencodeIffCanonical | rust_hft/alpha-harness/app/src/mission_dispatch.rs:1046-1084 | re-encoding a decoded text returns it if and only if only its last quartet is padded and its spare bits are zero |
| Base64.LaxTexts | rust_hft/alpha-harness/app/src/mission_dispatch.rs:1071-1080 | two concrete non-canonical texts are accepted |
| SecretPayload.ValidateCompletePayload | rust_hft/alpha-harness/app/src/mission_dispatch.rs:1020-1044 | accepts iff the Secret has exactly the expected keys and every value decodes to the expected bytes |
| SecretPayload.FaithfulReadback | rust_hft/alpha-harness/app/src/mission_dispatch.rs:1020-1044 | a faithfully stored Secret is accepted iff no value is empty |
| SecretPayload.AcceptedPayloadIsUnique | rust_hft/alpha-harness/app/src/mission_dispatch.rs:1020-1044 | one observed Secret is accepted for at most one expected payload |
| Dispatch.ReleasePatchIsConditional | rust_hft/alpha-harness/app/src/mission_dispatch.rs:890-907 | the patch takes effect exactly on the uid and resourceVersion it was built from, and changes only the suspension |
| Dispatch.ReleasesHitTheBoundValidatedJob | rust_hft/alpha-harness/app/src/mission_dispatch.rs:512-639 | in every run each effective release hits the UID bound in the ledger; the patched Job is exactly the validated version, with the target's name, request digest and projection; its immutable Secret, owned by it, decodes to the whole payload; only the suspension changes |
| Dispatch.AdoptableIff | rust_hft/alpha-harness/app/src/mission_dispatch.rs:789-801 | a Job is adopted iff its name, request digest and projection are the target's and it is suspended or running |
| Dispatch.ValidSecretIff | rust_hft/alpha-harness/app/src/mission_dispatch.rs:992-1044 | a Secret passes iff name, immutability, owner, digest, keys and every decoded value are the target's |
| Dispatch.AdmissionMeans | rust_hft/alpha-harness/store/src/campaign_ledger/dispatch.rs:608-658 | a guard admits an action iff the ledger shows this target and this UID at that moment; a release also needs a resourceVersion |
| DispatchSuccess.SuccessMeansReleased | rust_hft/alpha-harness/app/src/mission_dispatch.rs:597-633 | in every run a dispatcher succeeds only after its bound Job was released, and only if the answer to its patch was that Job, running and the target's own in every field |
| Dispatch.OneCreateAndOneClaim | rust_hft/alpha-harness/app/src/mission_dispatch.rs:524-573 | over all attempts at most one Job create request is issued, and the claim and its bound UID never go back |
| Dispatch.BoundAfterSuspendedReadback | rust_hft/alpha-harness/app/src/mission_dispatch.rs:642-673 | the one binding names a dispatcher that itself read exactly that Job from the cluster, suspended and with the expected identity and projection |
| Dispatch.NeverRecreated | rust_hft/alpha-harness/app/src/mission_dispatch.rs:650-656 | once the claimant has sent its create or crashed before it, no run of any length issues another create |
| Dispatch.RunKeepsInv | rust_hft/alpha-harness/store/src/campaign_ledger/dispatch.rs:412-508 | every run keeps the protocol invariant and only extends the ledger: claim once, bind once |
| Dispatch.DeliverPatchKeepsInv | rust_hft/alpha-harness/app/src/mission_dispatch.rs:596-636 | a release request that takes effect late, even after its sender failed, still keeps the invariant |
| DispatchProgress.StoredSecretIsValid | rust_hft/alpha-harness/app/src/mission_dispatch.rs:992-1044 | a faithfully stored Secret with a nonempty text payload and the digest of its request passes the readback checks for its own Job |
| DispatchProgress.UndisturbedAttemptSucceeds | rust_hft/alpha-harness/app/src/mission_dispatch.rs:512-639 | a first attempt with nobody interfering succeeds with one create, one binding and one release |
| DispatchProgress.RetrySucceeds | rust_hft/alpha-harness/app/src/mission_dispatch.rs:650-672 | from any state in which the claimed Job is bound, or unbound and still suspended, an undisturbed retry adopts and releases that very Job without another create |
| BundlePublish.BundleIsImmutable | rust_hft/alpha-harness/app/src/governance.rs:787-819 | in every interleaving with crashes and I/O errors a published bundle never changes, and Ok returns only to publishers of exactly that bundle |
| BundlePublish.DifferentBundlesNeverBothSucceed | rust_hft/alpha-harness/app/src/governance.rs:787-819 | two publishers of different bundles never both return Ok |
| BundlePublish.ModelIsNeverLost | rust_hft/alpha-harness/app/src/governance.rs:744-847 | when no two requests share a file under different records, every interleaving without I/O errors keeps the published model, and after any Ok both files are there with matching content |
| BundlePublish.RemoveKeepsInv | rust_hft/alpha-harness/app/src/governance.rs:821-842 | the rollback removes a file only while the published bundle lives elsewhere |
| BundlePublish.ModelSafetyIffNoSharedFile | rust_hft/alpha-harness/app/src/governance.rs:744-847 | the published model survives all such runs if and only if no two requests share a file under different records |
| BundlePublish.SharedFileLosesModel | rust_hft/alpha-harness/app/src/governance.rs:821-842 | for any two requests with one file and different records some run deletes the model under a bundle whose publisher got Ok |
| BundlePublish.IoErrorLosesModel | rust_hft/alpha-harness/app/src/governance.rs:821-842 | for any two publishers that share a file, even with equal requests, some run with an I/O error loses the model after an Ok |
| BundlePublish.ModelSafetyIffApart | rust_hft/alpha-harness/app/src/governance.rs:744-847 | with I/O errors anywhere, every run keeps the published model if and only if no two publishers share a model file |
| BundlePublish.Directory.Stage | rust_hft/alpha-harness/app/src/governance.rs:884-979 | staging refuses exactly a conflicting bundle or a model file with other bytes, and brings a model exactly when its path is free |
| BundlePublish.Directory.Publish | rust_hft/alpha-harness/app/src/governance.rs:744-847 | completes the pair, or refuses and undoes its own link unless the published bundle uses that record |
| BundlePublish.Directory.Materialize | rust_hft/alpha-harness/app/src/governance.rs:725-731 | undisturbed, staging and publishing is all or nothing, with the exact condition for success |
| BundlePublish.UninterruptedRunIsTheCall | rust_hft/alpha-harness/app/src/governance.rs:744-847 | the step machine, left alone, returns within nine calls and does exactly what the sequential call does |
| BundlePublish.LonePublisher | rust_hft/alpha-harness/app/src/governance.rs:725-979 | from its first call a publisher left alone returns within eleven calls, Ok iff both paths were free or held its own content; then both files are in place, otherwise nothing has changed |
| BundlePublish.AgreeingPublishersAreNotRefused | rust_hft/alpha-harness/app/src/governance.rs:773-817 | publishers of one bundle into an agreeing directory, racing and crashing as they may, are never refused without an I/O error |
| ReportPublish.FileStore.PersistImmutable | rust_hft/alpha-harness/app/src/mission_metrics.rs:179-195 | creates the file or accepts identical bytes, and otherwise leaves it alone |
| ReportPublish.FileStore.PersistReport | rust_hft/alpha-harness/app/src/mission_metrics.rs:59-87 | succeeds iff the paths differ, both sizes are within four MiB and each path is free or holds the same bytes; then both hold the report, otherwise nothing has changed |
| ReportPublish.FilesAreImmutable | rust_hft/alpha-harness/app/src/mission_metrics.rs:160-195 | in every interleaving with crashes no file's bytes change once written, and Ok means both files hold that writer's report for good |
| ReportPublish.ConflictingReportsNeverBothSucceed | rust_hft/alpha-harness/app/src/mission_metrics.rs:59-87 | two reports that disagree on a shared path never both succeed |
| ReportPublish.RerunAfterCrashCompletesThePair | rust_hft/alpha-harness/app/src/mission_metrics.rs:72-86 | after a crash at any step, calling again ends as an undisturbed call would have |
| ReportPublish.UninterruptedRunIsTheCall | rust_hft/alpha-harness/app/src/mission_metrics.rs:59-87 | left alone, a writer returns within six calls and does exactly what the sequential call does |
| LoopSafety.CreatedIsLoaded | rust_hft/alpha-harness/app/src/loop_control.rs:244-263 | the run written when the store has none satisfies everything a loaded run must |
| LoopSafety.WholeLifeIsSafe | rust_hft/alpha-harness/app/src/loop_control.rs:28-200 | over any invocations, each cut short anywhere: at most `max` distinct missions are executed, all among the first `max` entries of a list that only grows; every saved version is coherent (texts, worklist, record missions, status against stop); record ids never collide; a completed stage follows all earlier ones; a target stop is earned; nothing is saved after a terminal version |
| LoopSafety.ExecutionsAreBounded | rust_hft/alpha-harness/app/src/loop_control.rs:39-68 | every mission executed so far is within the mission limit of the worklist now on disk |
| LoopSafety.TerminalRunNeverChanges | rust_hft/alpha-harness/app/src/loop_control.rs:28-33 | a terminal run is unchanged by any further life, and nothing more is executed |
| LoopSafety.HistoryOnlyGrows | rust_hft/alpha-harness/store/src/lib.rs:789-834 | any later saved version extends every earlier one, with the same identity and policy |
| LoopSafety.RecordIdDeterminesCounter | rust_hft/alpha-harness/app/src/loop_control.rs:473-479 | equal record ids have equal trailing counters, whatever colons the other parts contain |
| LoopSafety.PlanIsInOrder | rust_hft/alpha-harness/app/src/loop_control.rs:268-396 | stages are noted consecutively from the first, all of them up to the target when it is reached |
| LoopSafety.VerdictTellsEvidence | rust_hft/alpha-harness/app/src/loop_control.rs:268-396 | the target is reached iff the evidence supports every stage up to it; otherwise the first unsupported stage is awaited, or is an error if it could not be read |
| LoopSafety.InvokeKeepsOk | rust_hft/alpha-harness/app/src/loop_control.rs:17-200 | one invocation in any world keeps the loop invariant and only extends journal, records and children |
| LoopReplay.PausedRunIsAFixedPoint | rust_hft/alpha-harness/app/src/loop_control.rs:149-168 | re-running a run paused on missing evidence while the world reads back the same gives the very same run and executes nothing |
| LoopReplay.FreshRunCanPause | rust_hft/alpha-harness/app/src/loop_control.rs:279-287 | a fresh run whose completed root has no walk-forward candidate pauses on that stage |
| LoopOutcome.CompletedStops | rust_hft/alpha-harness/app/src/loop_control.rs:149-169 | a completed mission stops the run as Completed on the target iff the evidence supports it, else as Paused on the first unsupported stage, and stops nowhere if that stage could not be read |
| LoopOutcome.UnfinishedStops | rust_hft/alpha-harness/app/src/loop_control.rs:129-148 | a failed mission stops the run as Failed with its reason, a paused one as Paused; any other report is an error that saves nothing |
| LoopOutcome.EngineErrorStops | rust_hft/alpha-harness/app/src/loop_control.rs:71-92 | an engine error is returned and leaves the run saved as Failed with that error |
| LoopOutcome.ExhaustedStops | rust_hft/alpha-harness/app/src/loop_control.rs:170-187 | an exhausted mission: a learning error leaves the run Failed; without follow-ups it stops as BudgetExhausted; otherwise exactly the follow-ups join the worklist and the loop goes on |
| LoopOutcome.LimitStops | rust_hft/alpha-harness/app/src/loop_control.rs:43-51 | with no mission left or allowed the run stops as BudgetExhausted on the limit |
| LoopOutcome.NextMissionDecides | rust_hft/alpha-harness/app/src/loop_control.rs:43-199 | the next mission's stop or error is the invocation's, and only an exhausted mission passes on |
| LoopOutcome.InvocationStarts | rust_hft/alpha-harness/app/src/loop_control.rs:34-42 | a loaded run that is not terminal starts running, saved, on its own worklist |
| LoopOutcome.VisitExecutes | rust_hft/alpha-harness/app/src/loop_control.rs:58-70 | a visit executes its own mission once, exactly when the stored mission is not in a final state |
| LoopOutcome.NotesSay | rust_hft/alpha-harness/app/src/loop_control.rs:288-394 | what each stage record of a completed mission says |
| LoopOutcome.JoinSays | rust_hft/alpha-harness/app/src/loop_control.rs:294-297 | candidates are listed in order, separated by commas |
| LoopOutcome.StageNamesDiffer | rust_hft/alpha-harness/app/src/loop_control.rs:505-515 | no two stages share a name in record identifiers |
| LoopController.Controller.Persist | rust_hft/alpha-harness/store/src/lib.rs:789-834 | a version is journalled exactly when it is valid, extends the stored one and its children exist |
| LoopController.Controller.LatestStage | rust_hft/alpha-harness/app/src/loop_control.rs:449-458 | the backward search returns the latest record of the mission and stage |
| LoopController.Controller.AppendStageIfChanged | rust_hft/alpha-harness/app/src/loop_control.rs:460-489 | nothing for an unchanged stage; else one numbered record, persisted, and a refused record is taken back |
| LoopController.Controller.StopAndPersist | rust_hft/alpha-harness/app/src/loop_control.rs:491-498 | a running run gets the reason and its status and is persisted |
| LoopController.Controller.AddChildMission | rust_hft/alpha-harness/domain/src/lib.rs:4340-4353 | adds a new child once, refuses blank ids and the root, and undoes an invalid addition |
| LoopController.Controller.ProgressCompletedMission | rust_hft/alpha-harness/app/src/loop_control.rs:268-396 | the sequential code carries out exactly the plan that the evidence determines |
| LoopController.Controller.CloseLearningStage | rust_hft/alpha-harness/app/src/loop_control.rs:398-447 | returns the outcome with its record persisted, or records the failure and stops the run |
| LoopController.Controller.DriveWorklist | rust_hft/alpha-harness/app/src/loop_control.rs:39-199 | the while loop over the growing list terminates with measure `max` minus cursor and refines the recursive loop that the laws are about |
| LoopController.Controller.RunLoop | rust_hft/alpha-harness/app/src/loop_control.rs:17-200 | one imperative invocation is the specified invocation |
| Calendar.LeadingBelow | rust_hft/alpha-harness/domain/src/evaluation_calendar.rs:81-86 | the boundary row: everything before it is below the boundary, and the row itself is not |
| Calendar.ResolveIff | rust_hft/alpha-harness/domain/src/evaluation_calendar.rs:38-94 | a calendar resolves iff its boundaries ascend, its arithmetic is representable, the clocks step by one bucket from within two buckets of the start to within horizon plus one of the end, and every window holds a clock |
| Calendar.ProtocolValidIff | rust_hft/alpha-harness/domain/src/lib.rs:262-310 | a protocol is valid iff costs, counts and version agree, the calendar's windows are the protocol's, and all rows together are representable |
| Calendar.PartitionsMean | rust_hft/alpha-harness/domain/src/evaluation_partition.rs:29-71 | rows are partitioned iff the protocol is valid, made for this many and its folds fit before what is reserved; the views then tile the rows |
| Calendar.BoundFolds | rust_hft/alpha-harness/domain/src/evaluation_calendar.rs:108-139 | half of the usable development rows, rounded down, is validated in the folds and all the rest trains first |
| Calendar.BindKeeps | rust_hft/alpha-harness/domain/src/evaluation_calendar.rs:100-144 | a bound protocol is valid, records its binding and keeps labels, costs, purge, embargo and fold count |
| Calendar.BoundPartitions | rust_hft/alpha-harness/domain/src/evaluation_partition.rs:29-71 | a bound protocol always partitions its rows, the development folds end exactly at the purge, and the boundaries are the calendar's rows |
| Calendar.BindSucceedsIff | rust_hft/alpha-harness/domain/src/evaluation_calendar.rs:100-144 | a valid protocol binds iff development holds two purges, all embargoes and two rows a fold, and the later windows stay nonempty; no checked sum overflows |
| Calendar.RegisteredHorizonsBind | rust_hft/alpha-harness/domain/src/evaluation_calendar.rs:169-235 | for the 5, 10 and 30 second horizons a four/two/two hour calendar resolves at rows 14398 and 21598 and binds |
| Calendar.CalendarKeepsViewsApart | rust_hft/alpha-harness/domain/src/evaluation_calendar.rs:38-144 | no leakage: labels of search rows mature before the development boundary, labels of selection rows before the sealed rows begin |
| Snapshot.PreparedInputs.VerifyDevelopmentPrecheck | rust_hft/alpha-harness/app/src/mission_render.rs:1049-1078 | recomputes and remembers while rows are present, and consults memory afterwards |
| Snapshot.CheckMeans | rust_hft/alpha-harness/app/src/mission_render.rs:1049-1078 | what is accepted without a calendar, by recomputation, and from memory |
| Snapshot.DevelopmentRowsAreThePrefix | rust_hft/alpha-harness/engine/src/label_precheck.rs:75-104 | on resolved clocks the precheck reads exactly the rows before the development boundary, in order |
| Snapshot.DevelopmentRowsAreTheWindow | rust_hft/alpha-harness/engine/src/label_precheck.rs:92-102 | whatever the clocks, exactly the rows inside the window, as often as they occur |
| Snapshot.PrecheckIgnoresLaterRows | rust_hft/alpha-harness/engine/src/label_precheck.rs:73-104 | non-interference: with equal clocks, nothing at or after the development boundary can change a receipt |
| Snapshot.ReceiptMeans | rust_hft/alpha-harness/app/src/mission_render.rs:1011-1047 | every field of a receipt: identities, calendar, policy digest, scope, horizon and the statistics of the development rows |
| Snapshot.PolicyMeans | rust_hft/alpha-harness/app/src/mission_render.rs:529-542 | long only exactly on spot, cost-aware for a holding plan, none for other markets or unrepresentable holding times |
| Snapshot.ApprovedMeans | rust_hft/alpha-harness/app/src/mission_render.rs:1587-1637 | when a protocol is approved for a materialization, and its exact counts and costs |
| Snapshot.PlanProtocolMeans | rust_hft/alpha-harness/app/src/mission_render.rs:1639-1666 | what an approved calendar protocol guarantees about the receipt in the plan, wherever that came from |
| Snapshot.PlainPlanProtocol | rust_hft/alpha-harness/app/src/mission_render.rs:1643-1647 | a plan without a calendar gets the approved protocol and needs no receipt |
| Snapshot.RebindIsRecompute | rust_hft/alpha-harness/app/src/mission_render.rs:1639-1666 | rebinding the recorded boundary rows gives what resolving the calendar from rows gives, under any approved horizon |
| Snapshot.ReceiptAgreement | rust_hft/alpha-harness/app/src/mission_render.rs:1011-1047 | a plan carrying a receipt made from rows passes recomputation iff it passes the protocol check, which then returns the recorded protocol |
| Snapshot.CachedRouteAgreesWithRows | rust_hft/alpha-harness/app/src/mission_render.rs:1049-1078 | with trusted memory, a plan accepted from memory is accepted by recomputation iff it passes the protocol check |
| Snapshot.MemoryAloneIgnoresTheHorizon | rust_hft/alpha-harness/app/src/mission_render.rs:1074-1076 | a confirmed receipt in any plan moved to a horizon whose labels do not fit passes memory and fails both recomputation and the protocol check |
| Snapshot.MovedHorizonIsValid | rust_hft/alpha-harness/app/src/mission_render.rs:598-660 | plan validation accepts moving a validated calendar plan to any other registered horizon |
| Snapshot.ValidatedPlansAgreeIff | rust_hft/alpha-harness/app/src/mission_render.rs:1209-1210 | validated plans, loaded, checked, exported and restored: what memory accepts recomputation accepts iff the label horizon is the materialization's, with no assumption on digests |
| Snapshot.RegisteredPlansBind | rust_hft/alpha-harness/app/src/mission_render.rs:1587-1637 | the registered horizons are approved and bind on eight hours of one-second rows |
| Snapshot.RemembersConfirmed | rust_hft/alpha-harness/app/src/mission_render.rs:1065-1073 | after any checks exactly the receipts confirmed by recomputation are remembered |
| Snapshot.RestoreUndoesExport | rust_hft/alpha-harness/app/src/mission_render.rs:954-999 | restoring exported metadata of an admitted snapshot gives it back without its rows |
| Snapshot.RestoreIff | rust_hft/alpha-harness/app/src/mission_render.rs:971-999 | restoring succeeds iff the metadata is the export of some admitted snapshot with these identities, and gives it back without rows |
| Snapshot.RestoredSnapshotAgrees | rust_hft/alpha-harness/app/src/mission_render.rs:954-1078 | load, check any plans, export, restore: a calendar plan is accepted iff its receipt was confirmed before, so earlier acceptances survive, and with the protocol check none are new |
| PlanHistory.IdIgnoresParentIffTyped | rust_hft/alpha-harness/app/src/mission_render.rs:281-300 | a revision keeps its id under another parent iff it is typed |
| PlanHistory.EligibleIsTyped | rust_hft/alpha-harness/app/src/mission_campaign.rs:1280-1323 | every untried allowlisted revision with the preferred sizing is typed, and rebuilding it gives the declared id |
| PlanHistory.FollowUpValidIff | rust_hft/alpha-harness/app/src/mission_render.rs:673-844 | extending a valid plan passes the history and directive checks iff it is below the bound, untried, fits the failure class and has well-formed bindings |
| PlanHistory.ChainsAreBounded | rust_hft/alpha-harness/app/src/mission_render.rs:673-844 | every chain of valid follow-ups has at most four plans, starts canonical, repeats no revision, stays in the allowlist, and rolls back one step at a time |
| PlanHistory.ValidPlanMeans | rust_hft/alpha-harness/app/src/mission_render.rs:673-844 | any valid plan, however made, field by field: bounded distinct history inside the allowlist; canonical without lineage, or a parent and a directive that bind a typed allowlisted revision rolled back to an earlier attempt |
| PlanHistory.ChainCanContinue | rust_hft/alpha-harness/app/src/mission_campaign.rs:1258-1430 | while the allowlist holds more revisions of the preferred sizing than were attempted, a valid follow-up exists |
| Sorting.NormalFormIff | rust_hft/governance-contracts/src/lib.rs:418-423 | under a total order, sort plus adjacent dedup of two lists agree iff the lists have the same members |
| Envelope.ValidateRuntimePolicy | rust_hft/governance-contracts/src/lib.rs:478-513 | the loop with its set of seen ids returns the first error in order, and none exactly for valid policies |
| Envelope.PolicyErrorIff | rust_hft/governance-contracts/src/lib.rs:478-513 | no error iff all fields are valid and approval ids are pairwise distinct |
| Envelope.VerifiesIffAdmissible | rust_hft/governance-contracts/src/lib.rs:259-343 | an envelope verifies iff a gate stated in its own field-by-field terms holds, and is returned unchanged |
| Envelope.AcceptedIsApproved | rust_hft/governance-contracts/src/lib.rs:319-343 | an accepted envelope cites at least one approval, and each is in the policy, in its window, not revoked, of its class, about its promotion and over exactly its account, venue, limits and sets |
| Envelope.PayloadErrorIff | rust_hft/governance-contracts/src/lib.rs:156-213 | a payload passes iff all texts, hashes, lists, amounts and the window are in order |
| Envelope.ApprovalErrorIff | rust_hft/governance-contracts/src/lib.rs:79-93 | an approval passes iff its texts, scope, class, window and revocation are in order |
| Envelope.ApprovesIff | rust_hft/governance-contracts/src/lib.rs:332-340 | an approval approves a payload iff it covers its class, promotion, time and exact scope |
| Envelope.PayloadRefusal | rust_hft/governance-contracts/src/lib.rs:156-213 | which error an ill-formed payload gets |
| Envelope.ApprovalRefusal | rust_hft/governance-contracts/src/lib.rs:79-93 | which error an ill-formed approval gets |
| Envelope.PolicyRefusal | rust_hft/governance-contracts/src/lib.rs:478-513 | which error an ill-formed policy gets before its approvals, and for its limits alone |
| Envelope.FirstBadApproval | rust_hft/governance-contracts/src/lib.rs:494-500 | the first ill-formed or repeated approval decides the error of the list |
| Envelope.ForgeryMeans | rust_hft/governance-contracts/src/lib.rs:266-281 | which error an envelope that is not authentic gets |
| Envelope.RejectionMeans | rust_hft/governance-contracts/src/lib.rs:282-343 | which error an authentic envelope gets: the first of window, nonce, binding, limits and approvals that fails |
| Envelope.RuntimeErrorsNeedAuthenticity | rust_hft/governance-contracts/src/lib.rs:266-290 | time and nonces have no influence on the verdict about an envelope that is not authentic |
| Envelope.AcceptingTimesAreAnInterval | rust_hft/governance-contracts/src/lib.rs:95-99 | with the nonce unused, accepting times form an interval |
| Envelope.AcceptanceSurvivesWidening | rust_hft/governance-contracts/src/lib.rs:291-343 | acceptance survives more instruments, intents and approvals and higher limits in a valid policy |
| Envelope.AcceptanceIgnoresPolicyOrder | rust_hft/governance-contracts/src/lib.rs:291-343 | acceptance is the same under any reordering of the policy's lists |
| Envelope.SignedIsAuthentic | rust_hft/governance-contracts/src/lib.rs:241-257 | signing keeps the payload, and the result is authentic iff the key id maps to the signer's key |
| Envelope.SignsIff | rust_hft/governance-contracts/src/lib.rs:241-257 | signing succeeds iff the payload is in order and the key id has text |
| Envelope.SignatureBindsPayload | rust_hft/governance-contracts/src/lib.rs:269-281 | two verified envelopes with one signature are the same envelope |
| Envelope.ScopeIff | rust_hft/governance-contracts/src/lib.rs:417-447 | canonical scopes are equal iff account, venue, limits, instrument set and intent set are equal |
| Envelope.EqualAmountsIff | rust_hft/governance-contracts/src/lib.rs:424-435 | valid limits equal as numbers are identical iff their zeros have the same sign |
| Envelope.NegativeZeroChangesScope | rust_hft/governance-contracts/src/lib.rs:424-435 | replacing a zero limit by minus zero keeps the payload valid and changes its scope |
| AsOfJoin.PartitionPoint | rust_hft/alpha-harness/app/src/diagnostic_input.rs:236-236 | binary search returns the exact boundary between observations received by the clock and later ones |
| AsOfJoin.VerifyNoSettlement | rust_hft/alpha-harness/app/src/diagnostic_input.rs:216-263 | accepts iff clocks are distinct and every row's latest available observation exists, is fresh on both clocks and settles after the label, without overflow |
| AsOfJoin.OrderIsIrrelevant | rust_hft/alpha-harness/app/src/diagnostic_input.rs:217-224 | the verdict ignores the order of the observations |
| AsOfJoin.LaterMarksAreIrrelevant | rust_hft/alpha-harness/app/src/diagnostic_input.rs:236-240 | a row's verdict depends only on observations received by its decision clock |
| AsOfJoin.FutureMarksAreIrrelevant | rust_hft/alpha-harness/app/src/diagnostic_input.rs:216-263 | adding observations after every decision clock, with distinct clocks, changes no verdict |
| AsOfJoin.SelectSeries | rust_hft/alpha-harness/app/src/diagnostic_input.rs:176-206 | rows pass through when no series is requested; otherwise it succeeds iff the positive id fills one nonempty run, and returns that run relabelled and otherwise unchanged with its receipt |
| SeriesBounds.CollectBounds | rust_hft/alpha-harness/app/src/data_mission.rs:182-209 | the one-pass map holds exactly the series present, each with its true bounds and closing label, iff every row obeys the row rules |
| SeriesBounds.CheckSeries | rust_hft/alpha-harness/app/src/data_mission.rs:229-252 | a series matches iff declared bounds are the true ones and its closing label is one horizon after its last event |
| SeriesBounds.BoundsUnique | rust_hft/alpha-harness/app/src/data_mission.rs:193-208 | the rows determine the bounds, ties closed by the last row in list order |
| SeriesBounds.MatchDeclared | rust_hft/alpha-harness/app/src/data_mission.rs:213-218 | the removal loop succeeds iff declared ids are distinct, present and match |
| SeriesBounds.ValidateFeatureRows | rust_hft/alpha-harness/app/src/data_mission.rs:170-252 | accepts iff the horizon is representable and declared series and rows agree in ids, minimum, maximum, closing label and row rules |
| Holdout.ValidatedEvidence | rust_hft/alpha-harness/app/src/governance.rs:249-332 | the pushing loop, sort and dedup compute the specified evidence, or fail on the first malformed evaluation |
| Holdout.EvidenceIsTheQualifyingPairs | rust_hft/alpha-harness/app/src/governance.rs:249-332 | with unique ids, evidence exists iff the lineage is well formed, and is the strictly sorted list of exactly the qualifying pairs |
| Holdout.EvidenceIgnoresOrder | rust_hft/alpha-harness/app/src/governance.rs:238-332 | evidence and selection do not depend on the order of the lineage's lists |
| Holdout.GateIff | rust_hft/alpha-harness/app/src/governance.rs:422-461 | the gate opens iff the requested pair is the only qualifying pair and the candidate's first iteration was kept and not offline reinforcement learning |
| Holdout.StoredLineagesAreUnique | rust_hft/alpha-harness/store/src/lib.rs:2925-3047 | every lineage read back after any writes has unique ids, one iteration a candidate, and an iteration for every evaluation |
| Holdout.WriteIsStored | rust_hft/alpha-harness/store/src/lib.rs:2973-3047 | a write that names its own artifacts under new ids is stored row by row |
| Holdout.OneIterationGateIff | rust_hft/alpha-harness/app/src/governance.rs:422-461 | with one iteration a candidate the gate opens iff the requested pair is the only qualifying pair and no iteration of its candidate is offline reinforcement learning |
| Holdout.GateIgnoresOrder | rust_hft/alpha-harness/app/src/governance.rs:443-460 | the whole gate then ignores the order of the lineage's lists |
| Holdout.StoredGateIff | rust_hft/alpha-harness/app/src/governance.rs:422-461 | both laws hold of every lineage the store can hold, with nothing assumed |
| Holdout.OneIterationIsNeeded | rust_hft/alpha-harness/store/src/lib.rs:3003-3008 | the store's refusal of a repeated candidate is needed: a second, discarded iteration would make the gate depend on order |

## Assumptions

- SHA-256 and Ed25519 are ideal: a digest is the value it was taken of, a signature is the key and
  message that made it. `Snapshot` takes its digests and the label statistics as parameters and
  assumes only that policy digests are injective.
- The API server gives every write a resourceVersion it never used before; nothing is assumed about
  UIDs. Requests may take effect late or never, and the answer to a release is whatever the server says.
- A file system call is one step; a hard link or no-clobber rename either creates the whole file or
  reports that it exists.
- JSON numbers are finite where the source reads them from JSON; envelope limits keep the IEEE special values.

## Left out

- kubectl, object storage, the database, JSON encoding, clocks and logging: they appear as parameters or steps.
- Dispatch: one ledger operation on values rather than on mutable objects, because its steps interleave; object state reporting (`job_state`, `secret_state`) and receipt publication are not modelled, and any failure without an effect is a crash.
- Dispatch: the ledger's grants, budgets and approvals behind `guarded`; the guard is a check of target and UID, not a lock, which only adds runs.
- Dispatch: the inside of the execution projection; it is one compared value.
- BundlePublish: created directories, the staging directory and path canonicalisation; the bundle file and model files live in separate name spaces because the source refuses a shared path.
- ReportPublish: symbolic links and non-regular files, which the source refuses.
- LoopModel: argument validation, the refusal of an existing run with another root or policy, and two loops running on one run at the same time.
- LoopModel: the inside of mission execution, learning and evidence queries; each mission is consulted once per invocation.
- Snapshot: the statistics in a precheck report, and plan checks on fields the prechecks do not read.
- Snapshot: `native_metadata`, which blanks one path of the manifest.
- PlanHistory: feature-field, text, calendar, holding and multilayer-perceptron checks of a plan, and the tie-break among eligible revisions; every eligible choice is shown to be valid.
- Envelope: which text field an EmptyField error names, hexadecimal decoding, and who consumes nonces.
- AsOfJoin: which of the refusals is reported.
- SeriesBounds: the metadata checks that run first.
- Holdout: the store's other tables and the checks on an iteration's own fields; the sealed evaluation lookup after the gate, ONNX registration, and the candidate list derived from the evidence.
- Runtime bundle and attribution field checks, historical replay validators, manifest rendering, scoring and floating-point statistics: long lists of comparisons or numeric code with easier claims.
