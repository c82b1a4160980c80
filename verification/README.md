# Verified models of Effect Agent's durable protocols

This project models the hardest state machines of the repository and proves what they promise.
Source paths below are relative to the repository root.

**The durable maintenance protocol** (`packages/platform-cloudflare/src/Alarm.ts` with
`internal/due-queue.ts`). One Durable Object has one alarm slot, a dirty/processed generation pair
and a table of due lanes. Producers enrol work, and a delivered alarm runs one event that scans the
Submission ledger, recovers Threads, dispatches Attempts, checkpoints and re-arms.

| Module | Content |
|---|---|
| `DueQueue` | lane rows, enrolment, claims, acknowledgements |
| `DueQueueView` | the buffered write-back view, refined against plain nested transactions |
| `Maintenance` | every storage transaction, as a function and as a method of `MaintenanceStore` |
| `ThreadScan`, `Dispatch` | classifying the ledger; choosing Threads to run |
| `ThreadObject` | the Object as a state machine of 34 kinds of step; a crash can fall between any two |
| `ThreadObjectProofs`, `Quiescence`, `ThreadObjectRuns` | inductive invariants and the theorems about every run |
| `ThreadObjectHazards` | runs that reach what the theorems exclude |
| `RecoveryFaults`, `RecoveryStorage`, `RecoveryRuns` | fault records, recipients in 128-key batches, notices and the lane that delivers them |

**Smaller protocols**: write-once publication (`Artifacts`), the browser run owner (`Owner`,
`OwnerRuns`), one model a Thread (`AutoModel`), nested temporary manifests (`ReleasePublish`),
shortest import paths (`ShortestPath`, `PackagePurity`), page excerpts under a byte budget
(`Excerpts`), the Wikipedia link race (`Wikipedia`) and its routing questions (`WikiRouting`).
`Common`, `Decimal` and `Sorting` are shared.

State that the source updates in place is a class whose methods are proved against specification
functions; the interleavings of many callers are state machines over those same functions, with
theorems over runs of any length. Variables marked as history record what happened for the
theorems; the code has no counterpart for them.

## What the environment is assumed to do

- The platform redelivers an alarm whose handler did not finish, and a failed handler counts as
  unfinished (`packages/platform-cloudflare/src/ThreadObject.ts:1010-1018`).
- An Attempt or a recovery writes rows of its own Thread only, and a recovery of a Thread with no
  nonterminal row adds none.
- A source commit is made while its mutation is held by the gate. Whether it also records progress
  is a choice of the step, so that what this buys is visible in the theorems.
- A ledger scan lists a Submission once. The rows of one page are read together, and a scan of one
  page is classified before a recovery makes another step.
- `now` never goes back; times and deadlines are integers of milliseconds.
- Two different Git objects have different ids; only publishers write a publication remote.

## Where a promise holds only under a condition

- **A racing enrolment survives a finished wave exactly when it records progress.** A hint without
  a cursor does not change a lane's revision, so a wave that claimed the lane earlier acknowledges
  it unserved. `DueQueue.RacingEnrolmentSurvivesExactlyWhenItRecordsProgress` is the equivalence,
  `DueQueue.CursorlessHintCanBeAcknowledgedUnserved` the failing input.
- **After a failed event a newer generation is retried within the minimum delay exactly when** no
  earlier charge left a later floor on the native lane and required publication is not parked:
  `Maintenance.NewerGenerationIsRetriedWithinTheMinimumDelayExactlyWhen`. Recording the new fact
  removes such a floor; prearming alone does not, and a reachable run shows it
  (`ThreadObjectHazards.PrearmedGenerationCanWaitForTheFloor`).
- **Quiescence.** An acknowledged generation means a quiet ledger unless that acknowledgement was
  hazardous: it followed an unrecorded source commit between the final empty scan and its
  checkpoint, or a recovery that ended between two pages of the final scan. A scan needs a second
  page from 256 rows on (`packages/storage-cloudflare/src/DoSubmissionLedger.ts:142` and
  `3600-3690`; up to 128 rows come from one cached read, more from pages of 256). So the condition a
  caller can check is that every source commit records progress and every final scan has fewer than
  256 rows (`ThreadObjectRuns.RecordedAndUnpagedMeansQuiescent`). Neither half can be dropped: an
  unrecorded commit, or any number of waiting Threads from 256 on, has a run that ends with a ready
  row nothing comes back for (`ThreadObjectHazards.UnrecordedCommitIsForgotten`,
  `ThreadObjectHazards.RecoveryBetweenPagesIsForgotten`, `ThreadObjectHazards.ForgottenStays`). The
  condition is sufficient for each run and necessary for the guarantee; a single run may break it
  and still end quiet.
- **One run, one browser** holds while no run is admitted beside a close call in flight. One slow
  close call releases a run admitted meanwhile, and another is admitted beside it:
  `OwnerRuns.SlowCloseAdmitsTwoRuns`. That no id is admitted twice, and that a run acts in one
  attempt only, holds always.

## Model

| member | source | states |
|---|---|---|
| DueQueue.RacingEnrolmentSurvivesExactlyWhenItRecordsProgress | packages/platform-cloudflare/src/internal/due-queue.ts:344-447 | after claim, any racing enrolments and acknowledgement, the lane is due if and only if one of them recorded progress, and then the row is untouched |
| DueQueue.CursorlessHintCanBeAcknowledgedUnserved | packages/platform-cloudflare/src/Alarm.ts:803-840 | a hint without a cursor between claim and acknowledgement can be lost |
| DueQueue.NextIsEarliest | packages/platform-cloudflare/src/internal/due-queue.ts:492-493 | the next deadline is a least pending deadline, and there is none exactly when no lane is due |
| DueQueueView.Upsert | packages/platform-cloudflare/src/internal/due-queue.ts:142-187 | the flush succeeds if and only if every lane still has the revision its change was computed from, and then stores all changes |
| DueQueueView.View.Put | packages/platform-cloudflare/src/internal/due-queue.ts:328-342 | one row changes in what is seen; an equal row buffers nothing |
| DueQueueView.View.SettleOutermost | packages/platform-cloudflare/src/internal/due-queue.ts:178-276 | commits all intent, or nothing and forgets the cache |
| DueQueueView.View.RunTransaction | packages/platform-cloudflare/src/internal/due-queue.ts:254-276 | the buffered view commits exactly what plain nested transactions over values would |
| DueQueueView.EnrolmentsCoalesce | packages/platform-cloudflare/src/internal/due-queue.ts:344-370 | any mix of enrolments of one lane in one transaction ends as if the earliest deadline had been asked for once, renewed if any recorded progress |
| DueQueueView.View.WriteThrough | packages/platform-cloudflare/src/internal/due-queue.ts:328-342 | outside a transaction one row is stored at once and the cache follows |
| Maintenance.ArmedMeansAnAlarmForEveryObligation | packages/platform-cloudflare/src/Alarm.ts:647-656 | an armed Object that owes work has an alarm no later than its earliest deadline or the minimum delay |
| Maintenance.EnsureAlarmArms | packages/platform-cloudflare/src/Alarm.ts:1503-1535 | construction arms the Object from any valid state |
| Maintenance.FinishEventArms | packages/platform-cloudflare/src/Alarm.ts:2853-2886 | the finishing transaction arms the Object |
| Maintenance.RearmFailureArms | packages/platform-cloudflare/src/Alarm.ts:1620-1693 | backing off a failed event arms the Object |
| Maintenance.ProducersOnlyMoveTheAlarmEarlier | packages/platform-cloudflare/src/Alarm.ts:803-1000 | enrolment, recorded progress and the wake hint never move the alarm later |
| Maintenance.BackoffStaysInTheUpperHalf | packages/platform-cloudflare/src/Alarm.ts:1603-1611 | a computed delay lies in the upper half of its capped exponential ceiling |
| Maintenance.NewerGenerationIsRetriedWithinTheMinimumDelayExactlyWhen | packages/platform-cloudflare/src/Alarm.ts:1620-1693 | the exact condition under which a newer generation is retried within the minimum delay |
| Maintenance.MaintenanceStore.NextDeadline | packages/platform-cloudflare/src/internal/due-queue.ts:492-493 | the loop over lanes finds the earliest deadline |
| Maintenance.MaintenanceStore.Begin | packages/platform-cloudflare/src/Alarm.ts:846-898 | the prearming transaction |
| Maintenance.MaintenanceStore.Progressed | packages/platform-cloudflare/src/Alarm.ts:963-1000 | the scheduling half of a source transaction |
| Maintenance.MaintenanceStore.Enrol | packages/platform-cloudflare/src/Alarm.ts:803-844 | enrolment with or without a cursor |
| Maintenance.MaintenanceStore.Construct | packages/platform-cloudflare/src/Alarm.ts:1503-1535 | the constructor's defensive arming |
| Maintenance.MaintenanceStore.OpenNative | packages/platform-cloudflare/src/Alarm.ts:1537-1601 | opening a native step charges the lane once a revision |
| Maintenance.MaintenanceStore.Rearm | packages/platform-cloudflare/src/Alarm.ts:1620-1693 | the failure transaction |
| Maintenance.MaintenanceStore.Finish | packages/platform-cloudflare/src/Alarm.ts:2853-2886 | the finishing transaction and whether it re-armed |
| ThreadScan.ClassifyRemaining | packages/platform-cloudflare/src/Alarm.ts:2150-2168 | the one-pass scan of the flat worklist finds work if and only if some Thread's queue has it |
| ThreadScan.QuietRows | packages/platform-cloudflare/src/Alarm.ts:658-683 | in a quiet queue every row waits, except plain input behind a waiting head |
| Dispatch.SelectRunnable | packages/platform-cloudflare/src/Alarm.ts:2044-2080 | the pivot and slices select the next Threads in cyclic order from the cursor |
| ThreadObjectProofs.AlarmKept | packages/platform-cloudflare/src/Alarm.ts:1503-1693 | every step keeps the alarm invariant |
| ThreadObjectProofs.DispatchKept | packages/platform-cloudflare/src/Alarm.ts:2026-2132 | every step keeps the dispatch invariant |
| ThreadObjectProofs.EnrolmentKept | packages/platform-cloudflare/src/Alarm.ts:1183-1270 | every step keeps recorded facts due until a later wave claims them |
| Quiescence.AcknowledgementCertifies | packages/platform-cloudflare/src/Alarm.ts:2192-2250 | a checkpoint that catches up outside the hazards certifies the ledger with no mutation in flight |
| Quiescence.QuietKept | packages/platform-cloudflare/src/Alarm.ts:2145-2250 | every step keeps the quiescence invariant |
| ThreadObjectRuns.RunKeepsInvariants | packages/platform-cloudflare/src/Alarm.ts:1503-2886 | all four invariants hold after any run with crashes anywhere |
| ThreadObjectRuns.EveryObligationHasAnAlarm | packages/platform-cloudflare/src/Alarm.ts:1503-1601 | in every reachable state, work owed means an alarm armed in time or an unfinished delivery |
| ThreadObjectRuns.DispatchIsBounded | packages/platform-cloudflare/src/Alarm.ts:545-560 | in every reachable state at most two Attempts, one a Thread, none beside its old recovery |
| ThreadObjectRuns.NoRecordedEnrolmentIsLost | packages/platform-cloudflare/src/Alarm.ts:1233-1255 | in every reachable state a recorded fact no wave has claimed keeps its lane due |
| ThreadObjectRuns.AcknowledgedMeansQuiescent | packages/platform-cloudflare/src/Alarm.ts:2145-2250 | in every reachable state a caught-up generation means no source mutation, no Attempt and no autonomously runnable row, unless the last acknowledgement was hazardous |
| ThreadObjectRuns.RecordedAndUnpagedMeansQuiescent | packages/platform-cloudflare/src/Alarm.ts:2145-2250 | the same with no hazard to exclude, where commits record progress and final scans fit one page |
| ThreadObjectRuns.RunnableThreadIsDispatched | packages/platform-cloudflare/src/Alarm.ts:2026-2080 | in any run with crashes, a Thread runnable whenever the Object chooses is chosen within as many choices as there are Threads |
| ThreadObjectHazards.UnrecordedCommitIsForgotten | packages/platform-cloudflare/src/Alarm.ts:2200-2205 | a run in which an unrecorded commit is acknowledged unseen and its event and delivery end well |
| ThreadObjectHazards.RecoveryBetweenPagesIsForgotten | packages/platform-cloudflare/src/Alarm.ts:2150-2168 | with any ledger from a full page on, a run in which a recovery between two pages is acknowledged unseen and the Object evicted |
| ThreadObjectHazards.ForgottenStays | packages/platform-cloudflare/src/Alarm.ts:1537-1601 | nothing but a producer or another binding registry ever comes back for such a row |
| ThreadObjectHazards.PrearmedGenerationCanWaitForTheFloor | packages/platform-cloudflare/src/Alarm.ts:1620-1693 | a run in which a failed event leaves a newer generation behind a retry floor, later than the minimum delay |
| RecoveryFaults.RecordingKeepsGrammar | packages/platform-cloudflare/src/Alarm.ts:1377-1447 | a sweep keeps every notice sequence (created changed* cleared)*, open exactly for recipients |
| RecoveryFaults.AdmittingKeepsGrammar | packages/platform-cloudflare/src/Alarm.ts:1930-1962 | so do admissions during backoff |
| RecoveryFaults.BlockedSweepExtendsTheFault | packages/platform-cloudflare/src/Alarm.ts:1411-1437 | a blocked sweep keeps recipients and first failure, adds all current Submissions, saturates attempts, retries within 5 to 60 seconds |
| RecoveryStorage.KeysDiffer | packages/platform-cloudflare/src/Alarm.ts:419-480 | no two cells share a storage key, whatever Threads are called |
| RecoveryStorage.StoredRecipientsAreCounted | packages/platform-cloudflare/src/Alarm.ts:480-518 | recipient keys stored are exactly indices below the count, with different Submissions |
| RecoveryStorage.RetainedNoticesAreUnacknowledged | packages/platform-cloudflare/src/Alarm.ts:1272-1299 | event keys stored are exactly those after the acknowledged sequence |
| RecoveryStorage.RecoveryStore.ReadRecipients | packages/platform-cloudflare/src/Alarm.ts:489-504 | reading in batches of 128 returns the recipients in order |
| RecoveryStorage.RecoveryStore.AppendRecipients | packages/platform-cloudflare/src/Alarm.ts:506-518 | writing in batches extends one Thread's recipients and nothing else |
| RecoveryStorage.RecoveryStore.DeleteRecipients | packages/platform-cloudflare/src/Alarm.ts:1396-1400 | deleting in batches removes one Thread's recipients and nothing else |
| RecoveryStorage.RecoveryStore.Record | packages/platform-cloudflare/src/Alarm.ts:1377-1447 | the whole sweep transaction on storage equals the transaction on abstract state |
| RecoveryStorage.RecoveryStore.Admit | packages/platform-cloudflare/src/Alarm.ts:1930-1962 | the admission transaction on storage equals the transaction on abstract state |
| RecoveryRuns.NoticesFollowTheGrammar | packages/platform-cloudflare/src/Alarm.ts:1356-1463 | after any run, every (Thread, Submission) was told (created changed* cleared)*, plus one open episode exactly for recipients |
| RecoveryRuns.DeliveryIsOrderedWithoutGaps | packages/platform-cloudflare/src/Alarm.ts:1301-1354 | deliveries start at 1, never go back, never skip, and carry the logged content |
| RecoveryRuns.AcknowledgedMeansDelivered | packages/platform-cloudflare/src/Alarm.ts:1301-1354 | nothing is acknowledged that the host was not handed |
| RecoveryRuns.RetainedNoticesKeepTheLaneDue | packages/platform-cloudflare/src/Alarm.ts:1183-1354 | through rollbacks, failures, interruptions and crashes, retained notices keep the delivery lane due |
| RecoveryRuns.DueWaveDeliversTheNext | packages/platform-cloudflare/src/Alarm.ts:1301-1354 | from any reachable state a due wave that nothing cuts short delivers and acknowledges the next notice |
| Artifacts.SuccessIsTheCallersTrip | examples/travel-planner/src/artifacts.ts:293-368 | a success names the published commit holding the caller's trip; a content conflict means the branch holds another |
| Artifacts.SuccessesAgree | examples/travel-planner/src/artifacts.ts:293-368 | successful publishers of one revision agree on commit and content |
| Artifacts.PublicationIsImmutable | examples/travel-planner/src/artifacts.ts:155-160 | a branch once set never changes, and answers given stand |
| Artifacts.RetryReconciles | examples/travel-planner/src/artifacts.ts:304-311 | an uninterrupted retry answers with the existing commit if and only if the content is the caller's, else conflict |
| Artifacts.CloneFindsWhatWasListed | examples/travel-planner/src/artifacts.ts:216-260 | whatever others do between a listing and its clone, the clone finds the listed commit, so the id, size and identity checks never refuse it |
| Artifacts.Remote.Publish | examples/travel-planner/src/artifacts.ts:293-368 | a whole call is a run of the many-publisher protocol, with that run's answer and branches |
| Owner.AdmissionIsExact | examples/browser-speed/src/owner.ts:259-277 | admission succeeds if and only if the id is new, nothing is unresolved and fewer than 100 were admitted |
| Owner.BrowserOwner.Attempt | examples/browser-speed/src/owner.ts:328-440 | acquires only after everything earlier is closed; acts only after the ready boundary |
| Owner.BrowserOwner.Run | examples/browser-speed/src/owner.ts:442-522 | all actions lie in one attempt, and a second attempt happens exactly after a browser failure before readiness |
| Owner.BrowserOwner.Close | examples/browser-speed/src/owner.ts:165-192 | a successful close resolves a lost run and a failed cleanup; a failed one changes neither |
| OwnerRuns.AdmittedIsTheHistory | examples/browser-speed/src/owner.ts:318-326 | the persisted list is the whole history of admissions |
| OwnerRuns.NoRunIsAdmittedTwice | examples/browser-speed/src/owner.ts:259-271 | over any history no id is admitted twice and at most 100 are |
| OwnerRuns.ActionsLieInOneAttempt | examples/browser-speed/src/owner.ts:442-459 | over any history the actions of a run lie in one attempt |
| OwnerRuns.OnlyClosingResolves | examples/browser-speed/src/owner.ts:165-192 | without a completed close, a lost run or failed cleanup admits nothing |
| OwnerRuns.OneRunAndOneBrowser | examples/browser-speed/src/owner.ts:328-485 | without an overlapped admission: one run, one unclosed browser, acquired only after all earlier ones are closed |
| OwnerRuns.SlowCloseAdmitsTwoRuns | examples/browser-speed/src/owner.ts:165-192 | one close call around an admission can release the running run and let another in beside it |
| AutoModel.OneSelectionAThread | packages/ai-decision/src/AutoModel.ts:179-222 | over any interleaving at most one record a Thread, selections never overlap, capacity is never exceeded |
| AutoModel.ResolvedModelIsTheRecordedOne | packages/ai-decision/src/AutoModel.ts:379-395 | a successful resolve returns the model its Thread's one record names |
| AutoModel.EntriesOnlyGrow | packages/ai-decision/src/AutoModel.ts:153-159 | entries never disappear and records are never replaced |
| AutoModel.RestoreInvertsSelect | packages/ai-decision/src/AutoModel.ts:282-377 | a record restores if and only if selecting could have written it, and to the same selection |
| AutoModel.MemoryStore.Resolve | packages/ai-decision/src/AutoModel.ts:180-221 | a resolve by itself is a run of the many-resolver store: it asks, enters and perhaps selects, with that run's outcome and records |
| ReleasePublish.BodySeesEveryReplacement | scripts/release-publish.ts:317-348 | the publication starts only with every replacement installed and nothing else changed |
| ReleasePublish.EveryManifestIsRestored | scripts/release-publish.ts:161-213 | whatever fails or is interrupted, a file whose restoring write succeeds ends with its original bytes |
| ReleasePublish.SuccessMeansEverythingWentWell | scripts/release-publish.ts:195-210 | success if and only if every install, the publication and every restore succeeded uninterrupted |
| ReleasePublish.Workspace.WithTemporaryManifests | scripts/release-publish.ts:161-213 | the nested installs and restores compute the specified outcome, causes in order |
| ReleasePublish.Workspace.Nest | scripts/release-publish.ts:317-346 | wrapping from the inside out puts the first package outermost and prerelease state innermost |
| ShortestPath.Search.Run | scripts/verify-package-purity.ts:278-295 | the search ends on any graph; the target is found if and only if reachable, by a shortest path |
| ShortestPath.Search.Trace | scripts/verify-package-purity.ts:298-306 | the parent chain, turned around, is the walk found |
| ShortestPath.PathsCrossTheFrontier | scripts/verify-package-purity.ts:278-295 | every path to a node is no shorter than the walk found, or passes a pending node |
| PackagePurity.DependencyPath | scripts/verify-package-purity.ts:270-307 | a shortest import path with marks removed when reachable, else the two-element fallbacks |
| Excerpts.ExcerptsFor | examples/travel-planner/src/research.ts:215-226 | disjoint windows in order of preference, at most six, none passed over without an overlapping preferred one or six preferred ones |
| Excerpts.Spend | examples/travel-planner/src/research.ts:421-434 | the spending loop computes its specification |
| Excerpts.SpentIsAffordable | examples/travel-planner/src/research.ts:421-434 | the pieces together cost no more than the budget |
| Excerpts.SlicesFillThePage | examples/travel-planner/src/research.ts:442-442 | disjoint ordered slices are as long as the page if and only if they concatenate to it |
| Excerpts.Inspect | examples/travel-planner/src/research.ts:419-447 | a result always fits 12 KiB, holds one to six disjoint slices in document order, and is truncated if and only if they do not concatenate to the page |
| WikiRouting.GroupsAreBalanced | examples/browser-speed/src/wiki-routing.ts:143-145 | for 2 to 5,000 links, 1 to 20 groups of 2 to 255, the last one included |
| WikiRouting.GroupsPartitionTheLinks | examples/browser-speed/src/wiki-routing.ts:147-149 | the groups concatenate to the links, each askable |
| WikiRouting.ChooseRoute | examples/browser-speed/src/wiki-routing.ts:36-168 | the chosen link is one of the page's, every question offers 2 to 255, and the error cases |
| Wikipedia.Race.StaleRefsNeverResolve | examples/browser-speed/src/wikipedia.ts:488-495 | a reference from another article never resolves |
| Wikipedia.EligibleLinksAreFirst | examples/browser-speed/src/wikipedia.ts:418-429 | the eligible links lead to different articles, to all of them, each by its first anchor |
| Wikipedia.Race.Read | examples/browser-speed/src/wikipedia.ts:322-486 | succeeds exactly on an acceptable page; then exactly the page's eligible links, or one page of them, are live |
| Wikipedia.Race.Follow | examples/browser-speed/src/wikipedia.ts:488-582 | only a live reference within twenty hops is clicked; the hop names its link; an unresolved click is final |
| Wikipedia.Play | examples/browser-speed/src/wikipedia.ts:177-586 | whatever a player does, at most twenty hops, each by a link that a page handed to the race offered on the article before |
| Wikipedia.RunJev | examples/browser-speed/src/wikipedia.ts:662-700 | every click is of a reference of the article then current, at most twenty; arrival is reported if and only if the target is reached, unless a click fails |

## Left out

- The old-recovery backlog's fairness: the model keeps which Threads are recovered, not the order, and claims none.
- Legacy branches: fault records without a recipient count, the retired lifecycle-start lane, parked-lane reports and column migration.
- Host lane scheduling inside an event, publication drain, message delivery, the phase after native work, promptness yields and timeouts as real time: a wave is a claim, an acknowledgement or a drop at any moment.
- The cursors `lastRecoveredThreadId` and `lastAfterNativeLaneId` and the `nonterminal` count, which no property here reads.
- Several enrolments of one lane in one source transaction: `DueQueueView` shows they coalesce; the transactions of `Maintenance` enrol a lane once.
- Retention by `withView` and the 11-row statements of a flush: the view keeps the 128-row rule, and a flush is one upsert a lane.
- Lane ids other than host names are constructors, and Thread ids of the Object model are numbers: only their order is used. `RecoveryStorage` uses real key texts.
- Clearing a binding wait after an Attempt: a selected Thread has no wait, so the branch cannot be taken.
- Grouping a sweep's reports and blocked Threads into one verdict a Thread, and the wakes and log lines after a sweep.
- Page boundaries inside one Thread: a later page of a scan refreshes whole Threads from some id on.
- Recovery delivery in the Object model: `RecoveryRuns` keeps the lane's row due, and the Object's alarm theorem holds for every due lane; the two are separate models that share the queue's operations.
- Artifacts: tokens, transfer limits and HTTP; the page's bytes are stored and measured but, as in the code, not compared. `load` adds only a missing-revision error to a read.
- Owner: request validation other than admission, spans and screenshots, and Live View; admission is one step because nothing in it waits.
- AutoModel: instructions, spans and Layer building; a decision is any answer or a failure.
- ReleasePublish: resolving dependency ranges and exports before the first replacement.
- PackagePurity: gathering entry points, the bundler and the purity rules; property names are looked up in a plain map.
- Excerpts: how a window is scored, which is an arbitrary function of its start; capture, titles, photos and the length limits of other fields.
- Wikipedia: parsing URLs into titles, which is an arbitrary partial function; DOM queries, request interception and destination lookup.
- Wikipedia.RunJev: a choice that fails is reported without its own error code, and the three-minute deadline is left out.
- UI, configuration, credentials, benchmark reports and the other release scripts.
