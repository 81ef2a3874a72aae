# Applik8s: a verified model of the operation-plan runtime and its neighbours

A handler of an Applik8s operator answers with a plan: a list of applies, patches, deletes, status
updates, events, finalizer changes and requeues. The host validates the whole plan, then carries it out
against the Kubernetes API while other writers keep changing the cluster. This project models that host,
and five smaller pieces of the repository whose correctness rests on an argument rather than on a line
of code, and proves what they are for.

`dafny verify dfyconfig.toml` checks everything.

## How it is built

**The API server** (`Json`, `JsonPatch`, `ApiServer`). Objects are JSON documents under a key. A
state has a clock; uids and resourceVersions are tokens of that clock and are never issued twice.
`Evolves(a, b)` says what any number of writes, deletes and re-creations by others may do between two
states: whatever is not exactly what it was carries a newer version. The class `Cluster` has the calls
the host makes and `Interfere()`, which moves to an arbitrary later state. Server-side apply works on
leaf paths: it fails on a field that another manager owns with a different value unless forced, drops what
the manager no longer applies, and renews the manager's `managedFields` entry in its place. The status
subresource has entries of its own and writes nothing but the status. JSON Patch is evaluated entry by
entry, all or nothing (sections 4, 5 and appendix A of RFC 6902).

**Plans** (`Contract`, `PlanValidation`, `ApplyDocument`, `TargetDocuments`, `PlanEffects`,
`PlanApplier`, `Finalizers`, `OwnerWrites`, `PlanFinalizerRun`, `RepeatedApply`, `PlanReplay`). `Accepted` is the declarative form of validation;
`Carried` says what an operation makes of the server its write meets, after what it read from an earlier
one, and `Logged` which write that is. The executor is a class whose methods make the calls one by one with
interference between them. Its ghost result is one span for each operation: the states it read, met and
left, and the writes it made; the writes of all spans in a row are exactly what the server logged.

**Remote applies** (`RemoteAuthority`, `OwnershipCleanup`, `RemoteApply`, `RemoteApplyClient`,
`RemoteRecovery`, `GuardedMutation`). The protocol read / create / verify / apply / clean up is a state
machine whose steps interleave with other writers and with crashes; the methods are proved to run it.

**Canonical JSON** (`StableSort`, `Utf16`, `MemberOrder`, `CanonicalJson`, `CanonicalMeaning`). A
JavaScript object is a list of members, array-index names first; its meaning is a map. The comparator of
member names is a parameter.

**Guestbook, tools, evidence, onboarding** (`GuestbookSnapshot`, `Markup`, `ToolSelection`, `ToolName`,
`Evidence`, `Onboarding`). Loops are methods with invariants, proved against a definition that does not
mention the loop. Onboarding is an engine whose task attempts may each take effect and still fail.

`Wrappers`, `Sequences`, `Text` and `Digits` are shared helpers.

## What turned out to be false, and exactly when it holds

* Printing two equal objects gives equal text only if no object has two member names that tie under the
  locale comparison and can be enumerated in either order, array indices having a fixed place
  (`CanonicalMeaning.CanonicalIffNoTies`). Equal texts always mean equal values.
* A report of a failed remote apply that did not set its field manager names the local default, not
  the remote default that was used (`PlanEffects.ReportNamesEffectiveManager`, with an accepted plan in
  `PlanEffects.AcceptedPlanMisreports` and the run that reports it in `PlanApplier.ReportUnresolvedRemote`).
* An accepted plan can undo its own finalizer without any other writer: finalizer edits and local applies
  share a field manager, so an apply of the owner that lists no finalizers abandons the list
  (`OwnerWrites.ApplyUndoesFinalizer`). What an apply of the owner leaves is exact
  (`OwnerWrites.OwnerApplyList`).
* A crashed create can be resumed with other values only by a forced apply or if the two intents agree
  where both speak (`RemoteRecovery.ResumeAfterCreate`).
* Injecting management metadata into a document that was not pruned first works only if the handler set
  both annotations and labels (`ApplyDocument.PruningIsNeeded`).
* A repeated tenant transition is a no-op only if the last request delivered carried the same id
  (`Onboarding.RepeatIsNoOp`): a Ready commit repeated after a decommissioning makes the row Ready again
  (`Onboarding.LateRepeatRevives`). A compensated failure leaves a Ready row behind exactly when a Ready
  commit that was reported as failed had taken effect (`Onboarding.CompensationLeavesReadyRow`).
* A cancelled task ends onboarding as cancelled unless it is the compensating removal inside the catch:
  then the intervention commit follows and decides the result
  (`Onboarding.CancellationIsSwallowedOnlyInCatch`, with a run in `Onboarding.SwallowedCancellation`).
* The v0.6 checker is weaker than the v0.7 checker by exactly the required assertion set and by test
  names that are blank but not empty (`Evidence.CheckersAgree`).

## Model

| member | source | states |
|---|---|---|
| PlanApplier.Applier.ApplyPlan | crates/applik8s-runtime-bridge/src/applier.rs:111-389 | A rejected plan leaves server and write log untouched. A run of an accepted plan, under any interference, is one span for each operation in plan order: each does what its definition says to the state it met; a failure names the first failed operation and its counters are those of the operations before it; the server log grows by exactly the writes of the spans, each on the target of its operation and within its authority; operations of lower canonical order come first |
| PlanApplier.Applier.Execute | crates/applik8s-runtime-bridge/src/applier.rs:120-385 | One operation answers and writes as defined for its kind, only on its target and within its authority; a failure other than of a managed apply writes nothing; a missing event namespace is never reported after validation |
| PlanApplier.Applier.ApplyResource | crates/applik8s-runtime-bridge/src/applier.rs:392-458 | The built document is applied under the effective manager and force flag; with managed authority the whole call is a run of the remote protocol that ends where the result says |
| PlanApplier.Applier.PatchResource | crates/applik8s-runtime-bridge/src/applier.rs:151-235 | Reads, verifies and sends the guarded entries as defined; a success under an authority is the effect of the handler's own entries on an object unchanged since the read that proves the authority |
| PlanApplier.Applier.DeleteResource | crates/applik8s-runtime-bridge/src/applier.rs:236-329 | After success the key is empty; under an authority only the object that was verified is deleted, unchanged since; an object already gone counts as deleted |
| PlanApplier.Applier.DeletePreconditionsOf | crates/applik8s-runtime-bridge/src/applier.rs:261-313 | Under an authority the preconditions sent are the verified uid and resourceVersion, and declared ones must equal that pair; without one they are the declared ones |
| PlanApplier.Applier.PatchStatus | crates/applik8s-runtime-bridge/src/applier.rs:470-486 | Applies the status to the target or the owner under the default manager; every other field of it, its finalizers included, stays |
| PlanApplier.Applier.RecordEvent | crates/applik8s-runtime-bridge/src/applier.rs:525-582 | Creates the event or finds it there, both a success; fails for a missing namespace only if neither object has one |
| PlanApplier.Applier.MutateFinalizer | crates/applik8s-runtime-bridge/src/applier.rs:488-523 | On success the owner holds the list that was read with the one edit made, stored by one unforced apply; a failure writes nothing |
| PlanApplier.TallyCompletes | crates/applik8s-runtime-bridge/src/applier.rs:32-55 | The per-kind counters of a list of operations add up to its length |
| PlanApplier.LowerOrderSucceededBefore | crates/applik8s-runtime-bridge/src/applier.rs:858-871 | When an operation is carried out, every operation of lower canonical order has already been carried out with success: finalizer removals after all effects, additions before them |
| PlanApplier.TurnsAreAttributed | crates/applik8s-runtime-bridge/src/applier.rs:119-386 | In every run of an accepted plan, each write made during an operation is on its target and within its authority |
| PlanEffects.PatchNarrows | crates/applik8s-runtime-bridge/src/applier.rs:170-194 | A patch that succeeds under an authority does what it would do without one, to an object unchanged since it was read that proves the authority |
| PlanEffects.DeleteNarrows | crates/applik8s-runtime-bridge/src/applier.rs:277-313 | The same for a delete, declared preconditions included, or there was nothing left to delete |
| PlanEffects.AnsweredWithinAuthority | crates/applik8s-runtime-bridge/src/applier.rs:119-386 | All writes of an accepted operation, of a whole protocol run too, go to its target and within its authority |
| PlanEffects.ReportNamesEffectiveManager | crates/applik8s-runtime-bridge/src/applier.rs:1357-1386 | A failure report names the manager the apply used if and only if it was set, or the apply is local, or the two defaults coincide |
| PlanEffects.AcceptedPlanMisreports | crates/applik8s-runtime-bridge/src/applier.rs:411-416 | An accepted plan for which the two differ |
| PlanApplier.ReportUnresolvedRemote | crates/applik8s-runtime-bridge/src/applier.rs:119-149 | Running any accepted remote apply without a manager whose connection does not resolve returns the failure report naming the local default, though the remote one is the effective manager |
| PlanFinalizerRun.RunLeavesPlanResult | crates/applik8s-runtime-bridge/src/applier.rs:488-523 | A successful run of an accepted plan leaves the owner with the surviving members in order, then the missing additions once each, provided that other writers leave the list alone and that each apply, patch or delete aimed at the owner itself is of a kind that keeps it, which its document, its entries and the owner's managed fields decide before the call |
| OwnerWrites.OwnerApplyList | crates/applik8s-runtime-bridge/src/applier.rs:402-453 | The list an apply of the owner leaves: the one it gives, else the one there was, unless its manager alone owned that and abandons it |
| OwnerWrites.WritesKeepList | crates/applik8s-runtime-bridge/src/applier.rs:119-386 | An apply that exactly so keeps the list, a patch with no entry at, above or below it, and a delete of an owner without one, all keep it |
| OwnerWrites.PatchKeepsList | crates/applik8s-runtime-bridge/src/applier.rs:151-235 | A patch whose entries write aside of the list leaves it, whatever its operations |
| OwnerWrites.ApplyUndoesFinalizer | crates/applik8s-runtime-bridge/src/applier.rs:508-521 | An accepted plan that adds a finalizer and then drops it by applying its owner, nobody else acting |
| PlanReplay.SecondRunChangesNothing | crates/applik8s-runtime-bridge/src/applier.rs:111-389 | A plan of local unconditional applies of distinct objects, statuses of distinct objects, finalizer edits that do not contradict each other, events and requeues, whose manager never applied the owner's status outside the subresource, run a second time without interference, changes no object and issues no version |
| PlanReplay.RepeatedRunChangesNothing | crates/applik8s-runtime-bridge/src/applier.rs:111-389 | The same for two successful runs of the applier in a row |
| PlanReplay.UndisturbedRun | crates/applik8s-runtime-bridge/src/applier.rs:119-386 | A successful run nobody interferes with is the operations' definitions one after another |
| RepeatedApply.AppliedTwice | crates/applik8s-runtime-bridge/src/applier.rs:450-453 | The same server-side apply a second time changes nothing, ownership records included, and meets no conflict |
| RepeatedApply.HoldsUnderStatus | crates/applik8s-runtime-bridge/src/applier.rs:470-486 | What a manager applied still stands after a status write, by whomever |
| RepeatedApply.StatusHoldsUnderApply | crates/applik8s-runtime-bridge/src/applier.rs:508-521 | A status still stands after an apply that neither has nor abandons one |
| PlanFinalizerRun.OperationEdits | crates/applik8s-runtime-bridge/src/applier.rs:119-386 | A finalizer operation makes its edit; status writes, events, requeues and operations on other objects, managed remote applies among them, keep the list |
| TargetDocuments.StatusTouchesOnlyStatus | crates/applik8s-runtime-bridge/src/applier.rs:470-486 | A status apply changes nothing but the status and the bookkeeping of a write |
| TargetDocuments.StatusCarried | crates/applik8s-runtime-bridge/src/applier.rs:470-486 | The status stored carries every value of the status sent |
| TargetDocuments.FinalizersKeepStatus | crates/applik8s-runtime-bridge/src/applier.rs:508-521 | A finalizer edit leaves the status alone, provided this manager never applied a status outside the subresource |
| Finalizers.PlanFinalizers | crates/applik8s-runtime-bridge/src/applier.rs:499-508 | Folding the finalizer operations of an ordered plan over any list gives that same closed form |
| Finalizers.PlanFinalizersReplay | crates/applik8s-runtime-bridge/src/applier.rs:1021-1034 | Members afterwards are exactly those listed or added and not removed, and replaying the plan changes nothing |
| Finalizers.MissingMembers | crates/applik8s-runtime-bridge/src/applier.rs:500-504 | The names appended are exactly the added ones that were not there, without repetition |
| PlanValidation.ValidateOperationPlan | crates/applik8s-runtime-bridge/src/applier.rs:853-994 | Accepts exactly the plans whose owner and every operation are valid, whose order is canonical and which use at most one connection; otherwise reports the first offence |
| PlanValidation.CheckOperation | crates/applik8s-runtime-bridge/src/applier.rs:858-985 | One turn of the validation loop extends validity and order by one operation or rejects the plan |
| PlanValidation.AcceptedApply | crates/applik8s-runtime-bridge/src/applier.rs:874-906 | An accepted apply carries no resourceVersion, its owner references can be built, and a remote one is managed and asks for no ownership |
| PlanValidation.PipelineIsTotal | crates/applik8s-runtime-bridge/src/applier.rs:714-793 | For an accepted apply, owner injection, pruning and management injection all succeed, and a remote document has no injected owner |
| PlanValidation.AcceptedApplyIsPrepared | crates/applik8s-runtime-bridge/src/applier.rs:402-415 | An accepted managed apply yields a document that proves its identity, carries no version and takes any version precondition |
| PlanValidation.EventNamespaceExists | crates/applik8s-runtime-bridge/src/applier.rs:533-542 | An accepted event always has a non-empty namespace |
| ApplyDocument.BuildApplyPatch | crates/applik8s-runtime-bridge/src/applier.rs:714-722 | Serialising, editing the metadata and pruning gives the declarative document |
| ApplyDocument.InjectOwnerReference | crates/applik8s-runtime-bridge/src/applier.rs:733-793 | The edit writes the one selected owner or leaves the metadata map alone, and fails as the ownership mode says |
| ApplyDocument.OwnerReferencesOfDocument | crates/applik8s-runtime-bridge/src/applier.rs:733-851 | In each ownership mode, which owner references the final document has: explicit ones survive up to pruning; an injected one is never the resource itself, never crosses namespaces, never puts a namespaced owner on a cluster-scoped resource, and in automatic mode appears exactly when the defaults hold |
| ApplyDocument.ManagementAlwaysInjects | crates/applik8s-runtime-bridge/src/remote_authority.rs:77-115 | Management metadata can be injected into every document that was built and adds no version |
| ApplyDocument.PruningIsNeeded | crates/applik8s-runtime-bridge/src/applier.rs:714-722 | Without pruning, injection succeeds if and only if annotations and labels were both set |
| Json.PruneLeavesNoNulls | crates/applik8s-runtime-bridge/src/applier.rs:627-644 | The pruned document has no null member at any depth |
| Json.PruneFixesClean | crates/applik8s-runtime-bridge/src/applier.rs:627-644 | Pruning leaves a document alone exactly when it has no null members |
| RemoteAuthority.VerifyRemoteObject | crates/applik8s-runtime-bridge/src/remote_authority.rs:136-190 | Succeeds exactly when uid and resourceVersion are there and the object proves the authority; the precondition returned is that pair |
| RemoteAuthority.InjectManagement | crates/applik8s-runtime-bridge/src/remote_authority.rs:77-115 | Succeeds exactly when metadata is an object and annotations and labels are absent or objects; the result proves the identity and nothing else in metadata changes |
| RemoteAuthority.InjectPrecondition | crates/applik8s-runtime-bridge/src/remote_authority.rs:117-134 | The document demands that version and intends nothing else than before |
| GuardedMutation.GuardedPatchHitsVerified | crates/applik8s-runtime-bridge/src/applier.rs:170-194 | Under any interference between read and patch, the guarded patch is refused or does to the verified object exactly what the handler's entries do |
| GuardedMutation.GuardedDeleteHitsVerified | crates/applik8s-runtime-bridge/src/applier.rs:277-313 | Under any interference, a delete under the verified pair removes exactly the verified object or fails |
| OwnershipCleanup.GuardedEvaluation | crates/applik8s-runtime-bridge/src/applier.rs:186-194 | With the two tests in front, a patch evaluates to nothing unless uid and resourceVersion match, and else as its remaining entries |
| OwnershipCleanup.WholeListFilter | crates/applik8s-runtime-bridge/src/applier.rs:665-679 | Removing the collected indices from the highest down, each in range when reached, is exactly filtering the list, order kept |
| OwnershipCleanup.FilteredHasNoCreateEntry | crates/applik8s-runtime-bridge/src/applier.rs:646-658 | The filtered list has no temporary entry and has lost no other |
| OwnershipCleanup.CleanupEffect | crates/applik8s-runtime-bridge/src/applier.rs:660-712 | The clean-up is refused when uid or resourceVersion moved, and otherwise leaves the object with the filtered list |
| JsonPatch.IndexRoundTrip | crates/applik8s-runtime-bridge/src/applier.rs:702-707 | An index formatted into a pointer is read back as that index |
| RemoteApply.ApplyVerifiedGuarded | crates/applik8s-runtime-bridge/src/applier.rs:419-453 | The apply commits only onto the object that was verified, unchanged since, without taking a conflicting field unless forced |
| RemoteApply.CleanupGuarded | crates/applik8s-runtime-bridge/src/applier.rs:660-712 | The clean-up step removes exactly the temporary entries, or does nothing, and fails only when the object is no longer the applied one |
| RemoteApply.StoredApply | crates/applik8s-runtime-bridge/src/applier.rs:450-453 | What the apply stores carries every intended value, proves the identity, keeps the uid and touches no other key |
| RemoteApply.ClientStepSafe | crates/applik8s-runtime-bridge/src/applier.rs:402-458 | Every step either leaves the server alone, creates where nothing was, or replaces the very object the client remembers, which proves the identity |
| RemoteApply.RunKeepsInv | crates/applik8s-runtime-bridge/src/applier.rs:402-458 | In every interleaving with other writers and restarts, what the client remembers was issued by the server and is still what that version names |
| RemoteApply.EveryWriteIsAuthorised | crates/applik8s-runtime-bridge/src/applier.rs:402-458 | In every such run an object with another identity or source uid is never changed by the client, and what is replaced is what was verified or created |
| RemoteApply.RunCommitsAuthorised | crates/applik8s-runtime-bridge/src/applier.rs:402-458 | Every logged write of every run replaces a version that proved the identity, or creates one that does |
| RemoteApplyClient.ApplyManaged | crates/applik8s-runtime-bridge/src/applier.rs:417-456 | The calls as the host makes them are a run of the state machine, ending done or failed as reported; the writes of that run are exactly those logged, and all are authorised |
| RemoteApplyClient.SendApply | crates/applik8s-runtime-bridge/src/applier.rs:419-453 | Verify, inject the version and apply is one step of the machine and commits at most one write, onto the verified object |
| RemoteApplyClient.SendCleanup | crates/applik8s-runtime-bridge/src/applier.rs:660-712 | The clean-up call is the clean-up step and commits only onto the object the apply returned |
| RemoteRecovery.CompletesIffReady | crates/applik8s-runtime-bridge/src/applier.rs:417-456 | Alone, a run completes if and only if the object is absent, or proves the identity and does not conflict; then the object is settled under the durable manager with no temporary entry, else the server is as it was |
| RemoteRecovery.ClientStepKeepsReady | crates/applik8s-runtime-bridge/src/applier.rs:417-456 | No step takes that readiness away |
| RemoteRecovery.CrashedRunsRecover | crates/applik8s-runtime-bridge/src/applier.rs:417-456 | After any number of crashed runs of the same job, one uninterrupted run completes and settles the object |
| RemoteRecovery.ResumeAfterCreate | crates/applik8s-runtime-bridge/src/applier.rs:430-448 | After a create and a crash, another job for the same identity completes if and only if it is forced or agrees with the created values |
| ApiServer.SameVersionSameObject | crates/applik8s-runtime-bridge/src/remote_authority.rs:117-134 | Across any interference, an equal version means an equal object: what a version precondition relies on |
| ApiServer.EvolvesTransitive | crates/applik8s-runtime-bridge/src/applier.rs:435-440 | One step of the interference relation covers any number of interposed writes |
| CanonicalJson.PrintUnique | scripts/check-v07-profile-graphs.ts:259-266 | Texts of two values are equal only for equal values, whatever follows them |
| CanonicalJson.StablePrintsCanon | scripts/check-v07-profile-graphs.ts:259-266 | Sorting and printing in one recursion is printing the value with every object sorted |
| CanonicalJson.QuoteRoundTrip | scripts/check-v07-profile-graphs.ts:260 | A quoted string reads back as the string, escapes and lone surrogates included |
| CanonicalMeaning.CanonKeepsMeaning | scripts/check-v07-profile-graphs.ts:262-263 | Sorting members at every depth does not change what a value means |
| CanonicalMeaning.EqualTextsMeanEqualValues | scripts/check-v07-profile-graphs.ts:259-266 | Equal texts mean equal values for every comparator |
| CanonicalMeaning.CanonicalIffNoTies | scripts/check-v07-profile-graphs.ts:259-266 | All ways in which JavaScript can hold a value print alike if and only if no object has two tied names that can be enumerated in either order |
| CanonicalMeaning.EqualTextsIffEqualValues | scripts/check-v07-profile-graphs.ts:259-266 | For a value without ties, texts are equal exactly when values are |
| CanonicalMeaning.TieWitness | scripts/check-v07-profile-graphs.ts:262-263 | From any value with such a tie, a value of the same meaning that JavaScript can hold and that sorts differently |
| StableSort.SortIsStable | scripts/check-v07-profile-graphs.ts:263 | The sort is a sorted rearrangement that keeps ties in their order |
| StableSort.SortedStableUnique | scripts/check-v07-profile-graphs.ts:263 | There is only one such rearrangement |
| GuestbookSnapshot.CollectEntries | examples/guestbook.ts:656-683 | The insert-and-pop pass keeps the best twenty published entries |
| GuestbookSnapshot.InsertRendered | examples/guestbook.ts:666-680 | The scan with splice or push is a stable insertion |
| GuestbookSnapshot.BestIsStableDescending | examples/guestbook.ts:656-683 | The best twenty are the first twenty of the one stable descending order of all published entries |
| GuestbookSnapshot.TakeInsert | examples/guestbook.ts:681-683 | Truncating before an insertion loses nothing that truncating after it keeps |
| Markup.FivePassesAreOne | examples/guestbook.ts:82-88 | Five whole-string replacements equal one substitution per unit |
| Markup.EscapedIsSafe | examples/guestbook.ts:82-88 | The output has no raw bracket or quote |
| Markup.EscapeRoundTrip | examples/guestbook.ts:82-88 | Unescaping the output gives the input |
| Markup.AmpersandMustBeFirst | examples/guestbook.ts:84 | Replacing the ampersand last gives the same result exactly on text without brackets and quotes |
| ToolSelection.Select | packages/ai-tanstack/src/tools.ts:92-150 | Succeeds exactly when every key is declared, the operations are distinct and each is hydrated once; the result follows the selection position by position; each failure explains itself and the lost-tool failure does not occur |
| ToolSelection.SelectedOperations | packages/ai-tanstack/src/tools.ts:102-122 | Collects the operations in selection order, or fails exactly on an undeclared key or a repeated operation |
| ToolSelection.Hydrate | packages/ai-tanstack/src/tools.ts:123-133 | Maps each selected operation to its tool, or names an operation hydrated twice |
| ToolSelection.HydratedMeansOnce | packages/ai-tanstack/src/tools.ts:123-136 | Being in that map means hydrated exactly once, being absent means never |
| ToolName.PortableHash | packages/ai-tanstack/src/tools.ts:303-310 | The loop returns the digest of the operation hash |
| ToolName.DigestIsLossless | packages/ai-tanstack/src/tools.ts:309 | Any 32-bit value becomes seven allowed characters from which it can be recovered |
| ToolName.SevenDigits | packages/ai-tanstack/src/tools.ts:309 | Six base-36 digits do not hold 32 bits, seven do |
| ToolName.NameIsValid | packages/ai-tanstack/src/tools.ts:280-301 | For every id and label the name passes the validator and ends in a digest that decodes to the hash of the id |
| ToolName.EqualNamesMeanEqualHashes | packages/ai-tanstack/src/tools.ts:280-293 | Equal names come from operation ids with equal hashes, whatever the labels |
| Evidence.ValidateV07 | scripts/check-v07-live-evidence.ts:92-191 | No findings exactly for a receipt that is current, complete, has exactly the required assertions and run-bound proof for each |
| Evidence.IdentityFindings | scripts/check-v07-live-evidence.ts:104-146 | No finding on identity, time and run exactly when each of them is right |
| Evidence.AssertionFindings | scripts/check-v07-live-evidence.ts:148-166 | No finding on assertions exactly when they are distinct and are the required set |
| Evidence.EvidenceFindings | scripts/check-v07-live-evidence.ts:168-190 | No finding on evidence exactly when names are distinct, as many as assertions, and every required assertion has proof |
| Evidence.LiveReceipt | scripts/check-v06-scorecard.ts:643-711 | The deletion loop accepts exactly the receipts whose evidence names are distinct assertions with proof; the final leftover check never fails |
| Evidence.EveryAssertionNamed | scripts/check-v06-scorecard.ts:690-709 | With equally many distinct names and assertions, either inclusion implies the other |
| Evidence.CleanIsOneToOne | scripts/check-v07-live-evidence.ts:168-190 | Without findings, evidence names, assertions and required assertions are the same set and every item has run-bound proof |
| Evidence.CheckersAgree | scripts/check-v06-scorecard.ts:643-711 | Under the same clock and identities the v0.7 checker is clean if and only if the v0.6 checker accepts, the assertions are the required ones and no test name is blank |
| Evidence.ElementsCount | scripts/check-v07-live-evidence.ts:148-151 | A set made from a list is as large as the list exactly when the list has no repetition |
| Evidence.CreateEvidence | scripts/v06-evidence.ts:183-198 | Succeeds exactly for distinct non-empty assertions and stamps each with the run |
| Evidence.WrittenReceiptsAreAccepted | scripts/v06-evidence.ts:200-226 | Any written receipt is accepted for its candidate exactly when its run has an id, its assertion names are distinct and not empty, and its times and tests are in order |
| Onboarding.Engine.Onboard | examples/tenant-platform.ts:568-594 | Ready exactly when the Ready commit succeeded, then provisioned and removal never called; Compensated exactly when approval was refused and the first removal succeeded, then no commit called; the catch removes exactly after a failure that is no cancellation, and asks for intervention exactly when that removal was not done, cancelled or failed; cancelled exactly when the wait or the last call was; any other throw after provisioning means the removal succeeded or the intervention commit failed |
| Onboarding.Engine.Run | examples/tenant-platform.ts:551-567 | However many attempts took effect before the outcome, the world changes as by one effect or none |
| Onboarding.OutcomeOnRecord | examples/tenant-platform.ts:568-594 | What each outcome says about infrastructure and canonical row afterwards |
| Onboarding.CompensationLeavesReadyRow | examples/tenant-platform.ts:580-593 | After a compensated failure the row says Ready exactly when a Ready commit reported as failed took effect; else the row is as before |
| Onboarding.RetriesAreAbsorbed | examples/tenant-platform.ts:611-622 | A history in which every request is repeated on the spot leaves the same row as one delivery of each |
| Onboarding.RepeatIsNoOp | examples/tenant-platform.ts:614-621 | In any history, delivering a request again changes nothing exactly when the last request delivered carried its id |
| Onboarding.LateRepeatRevives | examples/tenant-platform.ts:614-621 | The history in which a late Ready commit undoes a decommissioning |
| Onboarding.ResultIsDetermined | examples/tenant-platform.ts:568-594 | The replies of the calls and the wait determine the result |
| Onboarding.CancellationIsSwallowedOnlyInCatch | examples/tenant-platform.ts:582-592 | A cancelled call is the last one and the result, except for the compensating removal of the catch, after which the intervention commit decides |
| Onboarding.SwallowedCancellation | examples/tenant-platform.ts:582-592 | Such a run, and that it cannot stop at the cancelled removal |

## Left out

Of the operation-plan runtime:

- Server-side apply is simplified: arrays are atomic, so a finalizer list is stored as sent; defaulting, admission, schema validation and `generation` are not modelled, an apply of the object itself may set its status, and a JSON Patch does not add a `managedFields` entry of its own. Managed entries record the leaf tree of the applied values rather than field-set notation.
- PlanApplier.Applier.DeleteResource: the server removes an object at once; pending deletion behind finalizers, the grace period and the propagation policy are not modelled.
- PlanApplier.Applier.MutateFinalizer: another writer between the read and the unforced apply is allowed, as in the source, so the list stored is the edited list that was read.
- PlanApplier.Applier.ApplyPlan: documents are as decoded from the wire, so flattened extra members never repeat a named field; messages and target labels of errors, and the diagnostics of the plan, are not modelled. On the create path the document is taken to survive the decoding and encoding through the dynamic object type unchanged, which in fact drops unknown metadata members.
- PlanApplier.Applier.RecordEvent: 409 is taken as the object existing already.
- Transport errors, timeouts and lost responses inside one call appear only as a restart of the remote protocol; the local operations have no retry in the source.
- Plural lookup, the API discovery overrides and client construction; a connection is a name that resolves or does not. Escape errors in JSON Pointers surface as a failed patch.
- Invocation, Wasm engine, HTTP and authentication of the host.

Of the smaller pieces:

- CanonicalMeaning.EqualTextsIffEqualValues: locale comparison is an arbitrary strict weak order. Numbers are their printed text, equal for equal finite numbers (0 and -0 share one); `undefined`, functions and `toJSON` are excluded. The member `__proto__` is not special. The rest of the graph check is file and process I/O.
- GuestbookSnapshot.CollectEntries: listing entries, rendering and the two hash loops of the example are not modelled; the hash loops multiply in double precision, unlike the tool-name hash.
- ToolName.PortableHash: characters are Unicode scalar values; lone surrogates and their effect on length in code units are not modelled.
- ToolSelection.Select: tools and catalog entries are reduced to the operation id they carry.
- Evidence.ValidateV07: receipts have the declared shape; parsing dates and comparing identities are parameters, and findings are classified rather than worded.
- Evidence.LiveReceipt: reading the file is not modelled; a missing or malformed file is no receipt.
- Onboarding.Engine.Onboard: the durable engine's own deduplication, replay and time limits are not modelled; a task call is any sequence of attempts up to its retries, none of which takes effect after the call returned. `updatedAt` is left out.
- Onboarding.OutcomeOnRecord: it speaks about a tenant nobody else transitions during the run.
- The decommissioning workflow, streams, signals, authority services, DNS publication and the remaining examples and packages are not modelled.
