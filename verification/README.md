# CairnOps in Dafny

A model of the parts of CairnOps whose correctness is a matter of state over time, and proofs about every run of them.

* **The incident cycle** (`internal/incidents`, `internal/domain/trigger.go`): evidence reported by connectors and native
  checks, grouped into impacts and incidents while a propagation window slides, resolved, invalidated, re-armed, resumed,
  acknowledged, merged and moved.
* **The connector runtime** (`internal/connectors`): the lease protocol between workers and administrators, the identity
  matcher and its candidate index, the automatic discovery pass.
* **Small protocols**: the event stream (`internal/httpapi/realtime.go`), keyset pagination
  (`internal/incidents/resolved_page.go`), device pairing (`internal/devices`), weekly recurrence
  (`internal/maintenance/recurrence.go`) and the rate limiter (`internal/pushrelay/limiter.go`).

`dafny verify dfyconfig.toml` checks the whole project.

## How the model is built

The tables of a module are finite maps. Each SQL transaction is a pure function from tables to tables (`IncidentModel`,
`IncidentCycle`, `IncidentSnapshot`, `IncidentStructure`); the class `IncidentStore.Store` holds the tables as fields and
runs each transaction step by step, loop by loop, and is proved to do what the function says, to roll back on an error and
to keep the invariant. Histories are sequences of steps (`IncidentRuns.Step`), any of them at any time, and the main results
hold of every state such a history reaches. The other components follow the same plan on a smaller scale.

Reading order for the incident cycle:

| file | what it holds |
|---|---|
| `IncidentModel`, `IncidentCycle`, `IncidentSnapshot`, `IncidentStructure` | rows, derived values, transactions as functions |
| `IncidentInvariants`, `IncidentAggregates`, `IncidentIdentities`, `IncidentAcknowledgement`, `IncidentPlacement` | the parts of the invariant and what each statement does to them |
| `IncidentTransactions`, `IncidentStructureProofs`, `IncidentRuns` | every transaction and every run keeps the invariant; what merging and moving mean |
| `IncidentReports`, `IncidentVoices`, `IncidentReadings` | what a snapshot and a check leave active, what the active rows say, who speaks for an identity, what is refused |
| `IncidentRows` | each transaction, column by column |
| `IncidentEvolution`, `IncidentHistory`, `IncidentRearming` | what no run ever undoes: acknowledgements, closed windows, invalidations; what follows a re-arming |
| `IncidentJoins`, `IncidentGrouping`, `IncidentDeadlines` | which incident a fact goes to; windows are closed when they run out |
| `IncidentSequence`, `IncidentRivals`, `IncidentUniqueness`, `IncidentCollision`, `IncidentRelapse` | one active impact per target and nature, resumptions matched with resolutions, and exactly which snapshots, merges and moves break that |
| `IncidentResumptions`, `IncidentHandovers`, `IncidentHandoverProofs`, `IncidentFlicker` | resumptions against committed states: which snapshots resume an incident that they find active |
| `IncidentMoves`, `IncidentDeliveries` | sources with their targets, and what a report that comes late does to an archived one |
| `Trigger`, `IncidentNative` | streaks against whole histories; evidence of a check against its decisions |
| `IncidentStoreSteps`, `IncidentStore` | the store as a class, refining the functions |

Conventions: row ids are naturals drawn from a counter and ties in an `ORDER BY` go to the smallest id; times are integers
(seconds); severities are ranks 0 to 3; a transaction is one atomic step and transactions are serial; `resolutions` counts
the "resolved" entries an incident has in its activity journal.

## What turned out not to hold

* A snapshot that reports one target and nature under two identities can resume one incident twice, or open a second active
  impact: the first fact resumes a resolved incident, whose row stays marked resolved until the end of the snapshot, so the
  query for the second fact misses it (`internal/incidents/cycle.go:545-561`, `internal/incidents/cycle.go:676-730`).
  `IncidentRelapse.RelapseBreaksBalance` is a run from empty tables that does it: a resource watched by two Uptime Kuma
  monitors is down, up, and then down on both, and its incident has two resumptions for one resolution.
  `IncidentCollision.SnapshotKeepsExactly` proves that uniqueness and balance
  survive a snapshot if and only if no fact reaches a spot in that state, which takes replaying the snapshot to know;
  `IncidentUniqueness.SeparateSnapshotFits` is the condition a caller can check: one identity per target and nature.
* Merging two targets, or moving a source to another target, can put two active incidents of one nature on one target:
  `IncidentDeliveries.MergeBreaksUniqueness` is a run from empty tables that does it. From unique impacts, a merge keeps them
  unique if and only if no two incidents of one nature are active one on the kept and the other on the absorbed target
  (`IncidentRivals.MergeKeepsExactly`), a move if and only if no two incidents of one nature have live evidence that is on
  the destination or comes from the source (`IncidentRivals.MoveKeepsExactly`).
* `resumable` is safe for every cursor if and only if the log kept is the end of the history
  (`Realtime.ResumesSafelyOnSuffixes`). Retention erases by date and never the newest event
  (`internal/retention/retention.go:240-250`), and the date of an event is when its transaction began
  (`internal/migrations/sql/005_realtime_events.sql:11`): an event of a transaction that began no later than that of a lower
  version may be erased first, and a client that has seen the lower one is resumed without it
  (`Realtime.OverlappingTransactionsLose`). However its events are recorded and pruned, a history leaves a safe log if and
  only if all its events but the newest began one after the other (`Realtime.SafeExactlyIfDated`).
* `localTime` is right in every zone that keeps each offset for at least a day, however often it changes
  (`Recurrence.LocalTimeIsRight`). A day is needed: for every shorter length there is a zone in which a wall time exists and
  is not found (`Recurrence.ShorterStretchesFail`).
* In one window length the rate limiter lets through up to twice its limit less one (`RateLimiter.FewerThanTwiceTheLimit`),
  and for every limit and every place strictly inside the interval where a window may open, some requests reach that
  (`RateLimiter.BoundIsReached`). From two on, the limit itself is kept whatever the requests if and only if the window opens
  where the interval begins (`RateLimiter.LimitHoldsExactly`).
* Resumptions are not the changes from resolved to active between committed states: a snapshot in which one fact takes the
  last evidence of an incident elsewhere and a later one reports the spot anew resolves and resumes it without committing
  either. `IncidentFlicker.ResumedWithinAStep` is such a run: a Zabbix problem is found to be of another nature in the reading
  that brings a second problem of its former one. Over every run the two counts differ by the number of such snapshots
  (`IncidentResumptions.RunResumptions`). Told from the tables and the snapshot before it is applied, it takes a handover
  (`IncidentHandovers.HandedOver`): an active incident with one impact whose window is over and that is the latest of its
  spot, all its evidence reported elsewhere first, and then a fact new to that spot which is not suppressed, on a live target,
  and not opened more than six hours ahead of the snapshot (`IncidentHandovers.FlickeringIsHandover`). So the counts agree in
  every run without a handover (`IncidentHandoverProofs.RunCountsExactly`), for instance if every identity is reported where
  its active evidence is (`IncidentHandoverProofs.AgreeingHandsNothingOver`). Conversely a handover always does it, unless the
  nature is at work elsewhere: another fact of the nature, an open window, or an incident opened at the same instant may take
  the fact (`IncidentHandoverProofs.FlickersExactly`).
* Moving a source away and archiving the target it leaves (`internal/reconciliation/processor.go:402-412`) closes nothing on
  that target. It keeps the invariant, and is the same as the two operations one after the other, if and only if all active
  evidence of that target comes from the source (`IncidentMoves.MoveAndArchiveExactly`). A webhook is routed in one
  transaction and applied in the next (`internal/connectors/webhooks.go:183-192`): one that is applied after its source has
  moved leaves evidence behind, and the target may then be archived with it (`IncidentDeliveries.LateDeliveryStrands`). Where
  every report is applied while its source watches the target it names, no run of moves and archivings does that
  (`IncidentMoves.PromptRunsAreSafe`).

## Model

| member | source | states |
|---|---|---|
| `IncidentStore.Store.RecomputeImpact` | internal/incidents/cycle.go:861-899 | the row becomes the one derived from its live evidence; nothing else changes |
| `IncidentStore.Store.RecomputeIncident` | internal/incidents/cycle.go:901-1016 | the row becomes the one aggregated from its impacts, with its window closed if due and its synchronization status rederived |
| `IncidentStore.Store.RecomputeIncidentSet` | internal/incidents/structure.go:79-97 | recomputing row by row in any order is recomputing together; the count returned is the number of incidents newly resolved |
| `IncidentStore.Store.AdvanceDueIncidents` | internal/incidents/cycle.go:1018-1048 | exactly the active incidents whose open window has run out are closed, at the clock given, and resolved then if no impact is active |
| `IncidentStore.Store.AdvanceIncidents` | internal/incidents/cycle.go:1050-1060 | afterwards no active incident has an open window that has run out, and one past its window has an active impact; the invariant is kept |
| `IncidentStore.Store.CloseEvidence` | internal/incidents/cycle.go:772-782 | an active row is closed, any other row is left |
| `IncidentStore.Store.AcknowledgeFromEvidence` | internal/incidents/cycle.go:1062-1104 | an upstream acknowledgement acknowledges the incident once and queues its other remote evidence |
| `IncidentStore.Store.RecomputeAcknowledgement` | internal/incidents/cycle.go:1106-1142 | counting active Zabbix rows: failed iff one failed, else pending iff one waits, synchronized iff there are some and none does either, not applicable iff there is none; nothing for an incident not acknowledged |
| `IncidentStore.Store.JoinIncident` | internal/incidents/cycle.go:566-616 | the window slides and the target's impact is reopened or added |
| `IncidentStore.Store.ResumeIncident` | internal/incidents/cycle.go:700-730 | one resumption more, the impact active again with its opening kept, the stored status of the incident untouched, nothing else changed |
| `IncidentStore.Store.CreateIncident` | internal/incidents/cycle.go:628-674 | a new incident with one impact, its window from one to five minutes, closed at once if the nature is not eligible |
| `IncidentStore.Store.FindResumableImpact` | internal/incidents/cycle.go:676-699 | the most recently resolved single-impact incident of the spot within six hours, with no later one |
| `IncidentStore.Store.EnsureImpact` | internal/incidents/cycle.go:532-674 | host, propagating incident, resumption or creation, in that order |
| `IncidentStore.Store.RecordEvidence` | internal/incidents/cycle.go:436-513 | the new row, inheriting a pending acknowledgement from an acknowledged incident |
| `IncidentStore.Store.RefreshEvidence` | internal/incidents/cycle.go:358-402 | a repeated report updates severity and acknowledgement only |
| `IncidentStore.Store.ApplyEvidenceFact` | internal/incidents/cycle.go:321-515 | refreshes, suppresses, moves or opens, as the specification of a fact says, failures included |
| `IncidentStore.Store.ApplyEvidenceSnapshot` | internal/incidents/cycle.go:197-288 | the loops over facts, gone rows and touched rows compute the specified state; an error leaves the tables as they were |
| `IncidentStore.Store.RearmRecovered` | internal/incidents/cycle.go:815-859 | the loop leaves an invalidation in force iff it was, and is unobserved or still reported; no other column changes |
| `IncidentStore.Store.ResolveReported` | internal/incidents/cycle.go:784-813 | a webhook's resolution closes the active row of the identity, if any |
| `IncidentStore.Store.ApplyNativeObservation` | internal/incidents/native.go:33-88 | streaks, then trigger, recovery or advance; an archived target rolls the streaks back too |
| `IncidentStore.Store.RecoverNativeEvidence` | internal/incidents/native.go:90-124 | a recovery closes the check's evidence, or re-arms its invalidations |
| `IncidentStore.Store.InvalidateEvidence` | internal/incidents/store.go:326-368 | only active evidence of that incident is invalidated; aggregates follow |
| `IncidentStore.Store.AcknowledgeLocal` | internal/incidents/store.go:370-462 | acknowledges once; the plan is exactly the pending or failed active Zabbix evidence |
| `IncidentStore.Store.CompleteAcknowledgement` | internal/incidents/store.go:464-508 | the answers are recorded in their order on rows still active, then the status is rederived; an unknown incident changes nothing; the invariant is kept for an acknowledged one |
| `IncidentStore.Store.Acknowledge` | internal/incidents/incidents.go:349-378 | afterwards each active Zabbix row is synchronized and acknowledged upstream, unless it was asked about and refused |
| `IncidentStore.Store.ArchiveTarget` | internal/incidents/cycle.go:1158-1212 | every active row of the target is closed and its incidents recomputed |
| `IncidentStore.Store.RemoveEvidenceOwner` | internal/incidents/structure.go:17-100 | the owner's active rows are closed; the number returned is that of incidents newly resolved |
| `IncidentStore.Store.PairImpacts` | internal/incidents/structure.go:102-131 | each impact of the absorbed target with the kept target's impact in the same incident |
| `IncidentStore.Store.MergeImpacts` | internal/incidents/structure.go:132-196 | merging with pairs read beforehand is merging one by one; the count returned is the number of impacts that disappear |
| `IncidentStore.Store.MergeIntoTarget` | internal/incidents/structure.go:102-217 | two live targets become one; anything else is refused and changes nothing |
| `IncidentStore.Store.MoveChosen` | internal/incidents/structure.go:256-348 | retarget, split, absorb or detach, as the rows left behind require |
| `IncidentStore.Store.ReassignToTarget` | internal/incidents/structure.go:221-367 | rows chosen before the first move give the same result as rows chosen on the way; the count returned is that of incidents concerned |
| `IncidentAggregates.DerivedImpactAgrees` | internal/incidents/cycle.go:861-899 | a recomputed impact is active iff live evidence sustains it, at the gravest severity |
| `IncidentAggregates.AggregatedAgrees` | internal/incidents/cycle.go:901-1016 | counts, severity, maximum and status of a recomputed incident are those of its impacts |
| `IncidentTransactions.SnapshotInv` | internal/incidents/cycle.go:197-288 | a committed snapshot keeps the whole invariant |
| `IncidentTransactions.NativeInv` | internal/incidents/native.go:33-124 | so does a native observation |
| `IncidentTransactions.InvalidateInv` | internal/incidents/store.go:326-368 | so does an invalidation |
| `IncidentTransactions.AckLocalInv` | internal/incidents/store.go:370-462 | so does an acknowledgement |
| `IncidentTransactions.CompleteAckInv` | internal/incidents/store.go:464-508 | so do its answers |
| `IncidentTransactions.ArchiveInv` | internal/controlplane/controlplane.go:313-348 | so does archiving a target |
| `IncidentTransactions.RemoveOwnerInv` | internal/incidents/structure.go:17-100 | so does removing a check or a connector |
| `IncidentRuns.StepInv` | internal/incidents/cycle.go:197-288 | every transaction keeps stored aggregates equal to derived ones, one active row per identity, nothing active under an unarmed invalidation or off live targets, one impact per incident and target, derived synchronization statuses |
| `IncidentRuns.RunInv` | internal/incidents/cycle.go:861-1016 | every state reached by any run satisfies all of it |
| `IncidentRuns.ReachableAgrees` | internal/incidents/cycle.go:861-1016 | from empty tables: every impact active iff live evidence keeps it so, as grave as the gravest, every incident with the counts, severity and status of its impacts, one active row per identity, one impact per incident and target |
| `IncidentReports.ReportedIdsAreSignals` | internal/incidents/cycle.go:197-216 | the order of application loses and adds no identity |
| `IncidentReports.PreparedIsSorted` | internal/incidents/cycle.go:199-216 | the order of application is a stable sort of the facts |
| `IncidentReadings.AppliedInOrder` | internal/incidents/cycle.go:199-216 | by opening, then by scope and key |
| `IncidentReadings.SpeakerIsReporter` | internal/incidents/cycle.go:199-250 | the report that counts is that of the earliest signal of the identity, the first one listed among equals, dated by itself or by the reading |
| `IncidentReadings.SnapshotSucceeds` | internal/incidents/cycle.go:218-285 | a snapshot is committed iff its worker holds the lease and every such report is complete, on a known target or about a condition ruled out |
| `IncidentReadings.SnapshotOnRows` | internal/incidents/cycle.go:197-288 | row by row: reported identities active on live targets unless ruled out, saying what their reports say; the rest closed and re-armed within the connector and the scopes observed, left alone elsewhere |
| `IncidentReadings.CheckOnRows` | internal/incidents/native.go:33-124 | a check that triggers reports availability of its target with its severity, one that recovers ends it, any other only counts |
| `IncidentReports.ReporterIsEarliest` | internal/incidents/cycle.go:210-240 | among the facts of an identity, one that opened first speaks for it |
| `IncidentReports.SnapshotMeaning` | internal/incidents/cycle.go:230-269 | which rows stand after a snapshot: reported ones decided, unreported ones of the observed region closed, all others untouched, invalidations re-armed iff observed and unreported |
| `IncidentReports.SnapshotActiveIdentities` | internal/incidents/cycle.go:230-319 | in the region a snapshot speaks for, the active identities are exactly the reported ones that are not suppressed and whose target is live |
| `IncidentVoices.SnapshotRecords` | internal/incidents/cycle.go:321-515 | the active row of each reported identity has the target, severity and upstream acknowledgement of its report, in an incident of its nature |
| `IncidentHistory.ArchiveClosesItsTarget` | internal/incidents/cycle.go:1158-1212 | exactly the active rows of the target are closed |
| `IncidentHistory.ReportClosesItsIdentity` | internal/incidents/cycle.go:784-813 | exactly the active row of the identity is closed |
| `IncidentHistory.InvalidateMarksOneRow` | internal/incidents/store.go:346-353 | exactly one row is closed, and its invalidation is in force |
| `IncidentRows.RecomputedImpactRow` | internal/incidents/cycle.go:861-899 | an impact is resolved at the clock given when its last live evidence goes, and changes nothing but status, severity and resolution |
| `IncidentRows.RecomputedIncidentRow` | internal/incidents/cycle.go:901-1016 | counts, the most at once, extended at twenty or at five and a fifth of the live targets, closing, resolving; every other column kept |
| `IncidentRows.RecomputedSeverity` | internal/incidents/cycle.go:901-1016 | the severity is that of the worst active impact, and is kept once no impact is active |
| `IncidentRows.AckLocalRows` | internal/incidents/store.go:370-462 | refused if unknown or resolved; the first one marks the incident and settles or queues each active Zabbix row, the second changes nothing |
| `IncidentRows.PlanRows` | internal/incidents/store.go:420-462 | the plan is the active Zabbix rows that are pending or failed |
| `IncidentRows.AnsweredRow` | internal/incidents/store.go:464-490 | the last answer about an active Zabbix row decides, and a success is remembered |
| `IncidentRows.AnsweredIncident` | internal/incidents/store.go:490-508 | the status of an acknowledged incident is what its rows call for |
| `IncidentRows.AddedRowSays` | internal/incidents/cycle.go:436-513 | the columns of a new row, and the acknowledgement it brings or inherits |
| `IncidentRows.RefreshedRowSays` | internal/incidents/cycle.go:358-402 | the columns a repeated report changes |
| `IncidentRows.InvalidatedRow` | internal/incidents/store.go:326-368 | one active row of the incident named is closed and ruled out; anything else is refused |
| `IncidentRows.ArchivedTargetRows` | internal/controlplane/controlplane.go:313-348 | a live target is archived and its active rows closed; anything else is refused |
| `IncidentRows.RemovedOwnerRows` | internal/incidents/structure.go:17-100 | exactly the owner's active rows are closed, and its rows forget it |
| `IncidentRows.MergeIsRefused` | internal/incidents/structure.go:102-131 | accepted iff two distinct live targets |
| `IncidentRows.MergedImpacts` | internal/incidents/structure.go:132-196 | a merge makes no impact and keeps the openings of those that stay |
| `IncidentRows.MovedRows` | internal/incidents/structure.go:221-367 | exactly the rows of the check or of its binding are on the destination, which has to be live |
| `IncidentStructureProofs.SplitImpactSpans` | internal/incidents/structure.go:285-304 | a split impact opens with its first evidence, is as grave as its gravest, and resolves with its last: bounds over every row, each attained by one |
| `IncidentStructureProofs.MergeTargetsMeaning` | internal/incidents/structure.go:102-217 | every evidence row and its incident conserved, the absorbed target on no impact, each incident's active targets the old ones renamed, the invariant restored |
| `IncidentStructureProofs.ReassignSourceMeaning` | internal/incidents/structure.go:221-367 | every evidence row and its incident conserved, exactly the source's rows on the destination, the invariant restored |
| `IncidentMoves.AcceptedMove` | internal/reconciliation/processor.go:347-412 | a move is accepted iff both targets are live, the source sits on the one it leaves and, to archive it, no other does |
| `IncidentMoves.MoveAndArchiveExactly` | internal/reconciliation/processor.go:347-412 | moving a source and archiving its origin in one transaction keeps the invariant, and is both operations in turn, iff all active evidence of the origin comes from the source |
| `IncidentMoves.SeatedMovesAreSafe` | internal/reconciliation/processor.go:347-412 | while every active row comes from a source that watches its target, moves keep that and the invariant, archiving included |
| `IncidentMoves.PromptRunsAreSafe` | internal/connectors/store.go:36-61 | so does every run whose reports are applied while their sources watch the targets they name |
| `IncidentDeliveries.LateDeliveryStrands` | internal/connectors/webhooks.go:183-192 | from empty tables, a delivery routed before a move and applied after it ends as active evidence on an archived target |
| `IncidentHistory.StepEvolves` | internal/incidents/cycle.go:732-770 | no step un-acknowledges, moves or reopens a closed window, reopens or drops evidence, or closes a window before its end |
| `IncidentHistory.RunTimely` | internal/incidents/cycle.go:926-937 | on a clock that does not go back, an eligible incident is resolved only once its window has ended and been closed |
| `IncidentDeadlines.AdvanceCloses` | internal/incidents/cycle.go:1018-1048 | an advance touches exactly the incidents whose window has run out, and closes them |
| `IncidentDeadlines.RunOutIsEnded` | internal/incidents/cycle.go:255-288 | a step that ends with an advance closes every window that had run out, unless a fact joined in time and moved it beyond the clock |
| `IncidentDeadlines.RunLeavesNoneRunOut` | internal/incidents/cycle.go:1018-1060 | after such a step in any run, every active incident is within its window or has it closed, and one past its window without an active impact is resolved |
| `IncidentHistory.WindowLeavesRoom` | internal/incidents/cycle.go:732-770 | the least window from one to five minutes with room for two observations at the cadence of the check or the connector, and one evaluation |
| `IncidentGrouping.HostTakesFact` | internal/incidents/cycle.go:545-561 | an active impact of the target in an active incident of the nature takes the fact, the one that opened last first |
| `IncidentGrouping.SpreadTakesFact` | internal/incidents/cycle.go:562-616 | otherwise an incident of the nature still open when the fact opened takes it, the one that opened first first: its window slides and its impact on the target is active |
| `IncidentGrouping.DormantTakesFact` | internal/incidents/cycle.go:676-730 | otherwise a lone impact resolved within six hours, the latest of the spot, is resumed |
| `IncidentGrouping.FactOpensIncident` | internal/incidents/cycle.go:628-674 | otherwise the fact opens an incident with the columns it calls for |
| `IncidentGrouping.RunGroupsSpreadingFacts` | internal/incidents/cycle.go:562-616 | in every step of every run, a fact whose nature is spreading when it opens is recorded on the incident that opened first, unless its target is already in one |
| `IncidentJoins.JoinsWithinWindow` | internal/incidents/cycle.go:566-616 | in any tables, also between two facts of a snapshot, a joining fact opened at or after the incident, before its window ended and within 300 seconds of its last impact |
| `IncidentJoins.JoinedIsTouched` | internal/incidents/cycle.go:566-616 | such a fact is recorded on the incident it joins |
| `IncidentJoins.RunJoinsWithinWindow` | internal/incidents/cycle.go:566-616 | both hold of every joining fact of every step of every run |
| `IncidentHistory.InvalidationLasts` | internal/incidents/cycle.go:418-434 | an invalidation stays in force exactly until a step that re-arms it |
| `IncidentHistory.RunSilenced` | internal/incidents/cycle.go:815-859 | until then, nothing with its identity is active |
| `IncidentRearming.SnapshotRearmsExactly` | internal/incidents/cycle.go:815-859 | a snapshot without the identity lifts its suppression iff it observes every invalidation in force |
| `IncidentRearming.StaysArmed` | internal/incidents/store.go:346-353 | no step but an invalidation of the identity suppresses it |
| `IncidentRearming.ReportAfterRearming` | internal/incidents/cycle.go:418-513 | after a re-arming snapshot and any run that does not rule it out again, a report on a live target leaves the identity active |
| `IncidentRearming.TriggerAfterRecovery` | internal/incidents/native.go:33-124 | after a confirmed recovery and any such run, the next trigger on a live target raises the evidence of the check |
| `IncidentHistory.RunAcknowledged` | internal/incidents/cycle.go:482-513 | once acknowledged always acknowledged, the stored status the derived one, and each active Zabbix row synchronized upstream or in the next plan, late arrivals included |
| `IncidentHistory.AnswersReachTheirPlan` | internal/incidents/incidents.go:349-378 | whatever happens between the plan and its answers, each planned row still active has its answer and every other row is synchronized or in the next plan |
| `IncidentUniqueness.AdaptersAreCoherent` | internal/incidents/cycle.go:53-175 | the nature key every adapter builds is a function of scope, namespace and fingerprint |
| `IncidentUniqueness.SeparateSnapshotFits` | internal/incidents/cycle.go:230-250 | one identity per target and nature rules collisions out |
| `IncidentRivals.MergeKeepsExactly` | internal/incidents/structure.go:102-217 | from unique impacts, a merge keeps them unique iff no two incidents of one nature are active one on the kept and the other on the absorbed target |
| `IncidentRivals.MoveKeepsExactly` | internal/incidents/structure.go:221-367 | a move does iff no two incidents of one nature have live evidence on the destination or from the source |
| `IncidentDeliveries.MergeBreaksUniqueness` | internal/incidents/structure.go:102-217 | from empty tables, two deliveries and a merge end with two active impacts of one nature on one target |
| `IncidentUniqueness.StepKeeps` | internal/incidents/cycle.go:532-730 | a step whose snapshot, if any, reports each target and nature under one identity keeps resumptions equal to the resolutions they answer; from one active impact per target and nature it keeps that iff it is no merge and no move, or a clear one in the sense of the two rows above |
| `IncidentUniqueness.RunKeeps` | internal/incidents/cycle.go:321-730 | so does every run of such steps: impacts are unique in all its states iff every merge and every move in it is clear |
| `IncidentUniqueness.CommittedBalance` | internal/incidents/cycle.go:676-730 | between transactions an incident has one more resolution than resumptions while resolved, and as many otherwise |
| `IncidentResumptions.StepResumptions` | internal/incidents/cycle.go:700-730 | a step adds a resumption iff it finds the incident resolved and leaves it active, or finds it active, takes its last evidence away by one fact and resumes it by a later one |
| `IncidentResumptions.RunResumptions` | internal/incidents/cycle.go:676-730 | over a run, resumptions gained are the committed changes from resolved to active plus the snapshots of the second kind |
| `IncidentHandovers.FlickeringIsHandover` | internal/incidents/cycle.go:404-434 | such a snapshot hands the incident over, which the tables and the facts tell before it is applied |
| `IncidentHandoverProofs.FlickersExactly` | internal/incidents/cycle.go:532-730 | where impacts are unique and the nature is not at work elsewhere, a snapshot is of that kind iff it hands the incident over |
| `IncidentHandoverProofs.AgreeingHandsNothingOver` | internal/incidents/cycle.go:358-415 | a snapshot that reports every identity where its active evidence is hands nothing over |
| `IncidentHandoverProofs.RunCountsExactly` | internal/incidents/cycle.go:676-730 | in a run without a handover of it, an incident is resumed as often as it changes from resolved to active |
| `IncidentFlicker.ResumedWithinAStep` | internal/incidents/cycle.go:404-415 | from empty tables, readings the Zabbix adapter sends resume an incident that is active in every committed state |
| `IncidentCollision.SnapshotKeepsExactly` | internal/incidents/cycle.go:545-561 | a snapshot keeps both if and only if no fact reaches a spot whose incident the snapshot has resumed |
| `IncidentRelapse.RelapseBreaksBalance` | internal/incidents/cycle.go:85-103 | from empty tables, readings the Uptime Kuma adapter sends end with two resumptions for one resolution |
| `Trigger.StreaksRefineHistory` | internal/domain/trigger.go:50-61 | the saturating streaks are the unbounded ones cut at the threshold |
| `Trigger.DecisionFromHistory` | internal/domain/trigger.go:50-61 | triggered iff unhealthy and the last conclusive outcomes up to the threshold are unhealthy; recovered dually |
| `Trigger.UnknownErasable` | internal/domain/trigger.go:45-61 | erasing inconclusive outcomes changes no streak, hence no later decision |
| `IncidentNative.NativeFollowsHistory` | internal/incidents/native.go:33-124 | in a run that does not touch it otherwise, the check's evidence is active iff its latest trigger follows its latest recovery |
| `ConnectorLeases.Connectors.ClaimDueConnector` | internal/connectors/store.go:1198-1240 | what is claimed was due and is leased, a due connector is left out only for as many as the limit that come before it, nothing else changes |
| `ConnectorLeases.TakeFirstTakesEarliest` | internal/connectors/store.go:1201-1214 | as many as there are up to the limit, none left out before one taken |
| `ConnectorLeases.Connectors.CompleteConnectorSync` | internal/connectors/store.go:1284-1299 | iff the worker holds the lease: connected, due one interval later, unleased, every other column and row kept |
| `ConnectorLeases.Connectors.FailConnectorSync` | internal/connectors/store.go:1391-1406 | iff the worker holds the lease: degraded, due one interval later, unleased, every other column and row kept |
| `ConnectorLeases.Connectors.ChangeStatus` | internal/connectors/store.go:155-205 | suspends or resumes, and releases the lease either way |
| `ConnectorLeases.Connectors.ImportConnector` | internal/connectors/store.go:671-705 | adds a connector or takes over the one at the endpoint, released; Proxmox refuses the latter |
| `ConnectorLeases.Connectors.ReopenInventory` | internal/connectors/proxmox_store.go:70-76 | only for the same endpoint and account, not suspended; releases the lease |
| `ConnectorLeases.Connectors.ReplaceProxmoxCredential` | internal/connectors/proxmox_store.go:42-52 | only for the credential it was prepared against; releases the lease |
| `ConnectorLeases.Connectors.ReplaceConnection` | internal/connectors/connection_store.go:16-58 | a compare-and-swap on the stored revision, with the reason of a refusal |
| `ConnectorLeases.FoldIgnoresCase` | internal/connectors/connection_store.go:47-50 | endpoints are the same iff they differ in the case of letters only |
| `ConnectorLeases.LeaseHistory` | internal/connectors/store.go:1198-1299 | a worker holds a lease exactly if a claim of its own gave it and nothing has written it since |
| `ConnectorLeases.ReportCountsForItsOwnClaim` | internal/connectors/store.go:1284-1299 | over every interleaving, a report takes effect iff the very claim its cycle began with has not been superseded |
| `ConnectorLeases.RunRested` | internal/connectors/store.go:148-205 | in every run a suspended connector has no lease owner |
| `ConnectorLeases.SuspensionLasts` | internal/connectors/store.go:148-205 | whatever workers and administrators do meanwhile, a suspended connector stays suspended and unleased until its status is set, or it is imported anew or removed; its row stays the same unless its connection is replaced |
| `ConnectorLeases.GuardedIsNotTaken` | internal/connectors/discovery_store.go:54-58 | while a worker's guard holds, no claim takes the connector from it |
| `ConnectorLeases.UniqueEndpointsStep` | internal/connectors/connection_store.go:47-50 | one connector per kind and endpoint, whatever the action |
| `ConnectorLeases.OneReplacementPerRevision` | internal/connectors/connection_store.go:12-46 | of the replacements prepared against one revision, only the first is accepted |
| `ConnectorLeases.ReplacementKeeps` | internal/connectors/connection_store.go:18-28 | suspension is kept, and a managed account stays reachable for its clean-up |
| `IdentityMatching.IdentityCandidateKeys` | internal/connectors/identity.go:49-69 | the keys of an identity, collected in loops |
| `IdentityMatching.CandidateKeysMean` | internal/connectors/identity.go:49-69 | which keys these are, told from the profile |
| `IdentityMatching.SharingMeans` | internal/connectors/identity.go:45-69 | the index lists exactly the targets that share a key |
| `IdentityMatching.KeyTextIsInjective` | internal/connectors/identity.go:49-62 | keys of different sorts never collide |
| `IdentityMatching.IndexIsComplete` | internal/connectors/identity.go:45-69 | identities that match share a key |
| `IdentityMatching.IndexedScanIsFullScan` | internal/connectors/identity.go:45-69 | matching only the targets that share a key gives the result of the full scan |
| `IdentityMatching.Fingerprints` | internal/connectors/identity.go:246-286 | the distinct fingerprints of the names, without those that have no core |
| `IdentityMatching.FingerprintSplits` | internal/connectors/identity.go:263-286 | zone, core and number make up the name again, but for leading zeros |
| `IdentityMatching.FingerprintComposes` | internal/connectors/identity.go:263-298 | a name put together from a zone, words and a number of at most three digits is taken apart into them |
| `IdentityMatching.InstanceDropsZeros` | internal/connectors/identity.go:288-298 | a number is kept without the zeros in front of it |
| `IdentityMatching.AliasCores` | internal/connectors/identity.go:300-322 | the nested loops find exactly the cores of compatible, unequal names |
| `IdentityMatching.Compare` | internal/connectors/identity.go:120-187 | the running score is the strongest clue plus five per further kind; no clue, no match |
| `IdentityMatching.FindMatches` | internal/connectors/identity.go:114-198 | the matches of all targets, arranged |
| `IdentityMatching.ScoreIsSymmetric` | internal/connectors/identity.go:119-160 | clues, score and conflict do not depend on which side was discovered |
| `IdentityMatching.ScoreIsBounded` | internal/connectors/identity.go:15-22 | a match scores from 60 to 140 |
| `IdentityMatching.CluesMeaning` | internal/connectors/identity.go:128-156 | each kind of evidence, value by value: shared identifiers, names, host names and IP addresses, alike names |
| `IdentityMatching.ScoreMeaning` | internal/connectors/identity.go:15-22 | the score told from five facts about the profiles: 120, 100, 80, 70 or 60 for the strongest, five for each further one |
| `IdentityMatching.HostnameOutranksIp` | internal/connectors/identity.go:140-147 | a shared host name outweighs a shared IP address and nothing stronger |
| `IdentityMatching.ConflictMeaning` | internal/connectors/identity.go:127-129 | both sides have identifiers and share none |
| `IdentityMatching.ConfidenceMeaning` | internal/connectors/identity.go:168-182 | high iff a name or machine id is shared, medium iff only an address beyond similar names is, low otherwise or in a conflict |
| `IdentityMatching.MatchesMeaning` | internal/connectors/identity.go:114-198 | exactly the targets that share something, each once with what it shares, by score, name and id |
| `IdentityMatching.SuggestionIsWinner` | internal/connectors/identity.go:324-333 | a target is suggested iff it scores strictly above every other, at least 70, uncontradicted |
| `IdentityMatching.SuggestionIgnoresOrder` | internal/connectors/identity.go:188-198 | the order of the target list does not matter |
| `Discovery.DiscoveryStore.Check` | internal/connectors/discovery_store.go:42-48 | an inventory is refused iff an identity is blank, too long or repeated |
| `Discovery.DiscoveryStore.RememberDiscoverySelection` | internal/connectors/discovery_store.go:12-33 | each object is excluded iff it is eligible and unbound, present and not pending; every other entry is left |
| `Discovery.DiscoveryStore.RefreshDiscovery` | internal/connectors/discovery_store.go:38-151 | the pass as specified, under a valid lease and inventory; otherwise nothing changes |
| `Discovery.RefreshBindsWhatIsWanted` | internal/connectors/discovery_store.go:59-151 | told from the state before: exclusions and bindings kept, no object new to the connector excluded, no excluded one bound, each eligible one that is neither bound or pending and not both |
| `Discovery.ExcludedStaysUnbound` | internal/connectors/discovery_store.go:84-125 | what an administrator excluded stays excluded and unbound, absent or back again |
| `Discovery.RefreshMakesTargets` | internal/connectors/discovery_store.go:128-148 | each new binding leads to the target made for its object, with its name and identity |
| `Discovery.RefreshCreatesStrangers` | internal/connectors/discovery_store.go:123-148 | one target per new binding, none matching an earlier target or another new one |
| `Discovery.FirstPassCreatesNothing` | internal/connectors/discovery_store.go:59-67 | the first pass of an uninitialised connector creates nothing |
| `Discovery.RerunCreatesNothing` | internal/connectors/discovery_store.go:123-148 | once its targets are persisted, the same pass creates nothing more |
| `Realtime.NewestIsKept` | internal/retention/retention.go:237-250 | whatever is recorded and pruned, the newest event stays |
| `Realtime.RecentEventsAreKept` | internal/retention/retention.go:237-250 | no event is erased before retention asks for events as recent |
| `Realtime.ResumesSafelyOnSuffixes` | internal/httpapi/realtime.go:183-198 | the check is safe for every cursor iff the log kept is the end of the history |
| `Realtime.OverlappingTransactionsLose` | internal/retention/retention.go:244-248 | in any history with an event, not the newest, that began no later than a lower version, some run erases it and resumes a cursor that stands before it |
| `Realtime.SafeExactlyIfDated` | internal/retention/retention.go:240-250 | every run that records a history leaves a log safe for every cursor iff all its events but the newest began one after the other |
| `Realtime.SuffixIsKept` | internal/realtime/realtime.go:28-49 | what a stream reads off such a log |
| `Realtime.ResumableIsSafe` | internal/httpapi/realtime.go:183-198 | a resumed cursor has lost nothing and is not ahead of the log |
| `Realtime.ResumableIsExact` | internal/httpapi/realtime.go:183-198 | every cursor that could be resumed is, iff no version is missing where the log begins |
| `Realtime.SendPending` | internal/httpapi/realtime.go:200-220 | the batches send exactly the logged events after the cursor, up to a failure of the connection |
| `Realtime.Forward` | internal/httpapi/realtime.go:116-136 | live events already passed are dropped, the others sent in order |
| `Realtime.Stream` | internal/httpapi/realtime.go:57-137 | what is sent is what follows the announced version, without gap or duplicate across replay and live; resync exactly if the cursor cannot be resumed |
| `Realtime.FollowsMeaning` | internal/httpapi/realtime.go:57-137 | versions strictly increase and every event up to the last one sent is there |
| `ResolvedPages.ListResolvedPage` | internal/incidents/resolved_page.go:120-205 | one page and its cursor; refused iff a size, a part of the filter or a cursor is not acceptable |
| `ResolvedPages.Read` | internal/incidents/resolved_page.go:158-185 | the first rows in descending order |
| `ResolvedPages.EmittedCursorIsAccepted` | internal/incidents/resolved_page.go:57-101 | a cursor is accepted with the filters it was emitted for, whatever the page size |
| `ResolvedPages.ChangedFilterIsRefused` | internal/incidents/resolved_page.go:75-101 | and refused with others |
| `ResolvedPages.WalkListsEverything` | internal/incidents/resolved_page.go:120-205 | for any page sizes and a clock that moves on, following the cursors lists each incident that was resolved at the first request and that every part of the filter lets through, once, the last resolved first |
| `Pairing.Devices.CreatePairing` | internal/devices/store.go:30-53 | an invitation for an active user, valid ten minutes, and nothing else |
| `Pairing.Devices.ClaimPairing` | internal/devices/store.go:88-122 | one claim, before expiry and cancellation, recording the device's name; otherwise the reason and no change |
| `Pairing.Devices.ConfirmPairing` | internal/devices/store.go:124-201 | a device and a sealed credential for a claimed, live pairing of the user; otherwise the reason and no change |
| `Pairing.Devices.PairingResult` | internal/devices/store.go:203-265 | the credential once, then never again; the state of the pairing otherwise |
| `Pairing.Devices.CancelPairing` | internal/devices/store.go:267-281 | only before confirmation |
| `Pairing.RunInv` | internal/devices/store.go:30-281 | marks of a pairing are consistent and made before it expires, digests and devices unique, the kept credential is the one its device is recognised by |
| `Pairing.MarksHaveCauses` | internal/devices/store.go:88-281 | a pairing is claimed, confirmed or consumed exactly if a step of that kind succeeded |
| `Pairing.OneDevicePerPairing` | internal/devices/store.go:124-201 | a pairing creates at most one device |
| `Pairing.HandOutIsGenuine` | internal/devices/store.go:203-265 | the token handed out matches the digest stored for the pairing's own device |
| `Pairing.HandOutOnce` | internal/devices/store.go:203-265 | at most one hand-out, after a claim and then a confirmation, with no cancellation |
| `Pairing.StatusAgreesWithReply` | internal/devices/devices.go:200-215 | the visible status and the reply to the device agree, case by case |
| `Pairing.RunMovesForward` | internal/devices/devices.go:200-215 | the visible status only moves forward |
| `Recurrence.ResolveLocalTime` | internal/maintenance/recurrence.go:64-82 | the earliest sampled instant that shows the wall time |
| `Recurrence.LocalTimeIsFirst` | internal/maintenance/recurrence.go:61-82 | across at most one change of offset, the first instant that shows the wall time, none iff there is none |
| `Recurrence.LocalTimeIsRight` | internal/maintenance/recurrence.go:61-82 | in a zone that keeps each offset for at least a day: the first instant that shows the wall time, none iff there is none |
| `Recurrence.ShorterStretchesFail` | internal/maintenance/recurrence.go:64-82 | for every shorter stretch there is a zone in which an existing wall time is not found |
| `Recurrence.MaterializeWindows` | internal/maintenance/recurrence.go:19-59 | the windows of the weeks that exist, or a refusal |
| `Recurrence.OccurrencesAreComplete` | internal/maintenance/recurrence.go:19-59 | when a rule is accepted, and no week that has the wall time is left out, for zones that keep each offset a day |
| `Recurrence.OccurrencesAreOrdered` | internal/maintenance/recurrence.go:39-59 | at least two and at most 53 windows, ordered, not overlapping, each a whole number of weeks after the first on the wall |
| `RateLimiter.Limiter.Allow` | internal/pushrelay/limiter.go:25-44 | passes iff off, or no window is running, or its count is below the limit; opens, counts or keeps the window; other running windows stay |
| `RateLimiter.Limiter.Prune` | internal/pushrelay/limiter.go:46-55 | only windows that have run out are dropped |
| `RateLimiter.RefusedWhenFull` | internal/pushrelay/limiter.go:25-44 | a request is refused only if as many as the limit have passed less than one length ago |
| `RateLimiter.PruningIsInvisible` | internal/pushrelay/limiter.go:46-55 | pruning never changes an answer |
| `RateLimiter.FewerThanTwiceTheLimit` | internal/pushrelay/limiter.go:25-44 | fewer than twice the limit pass in any interval of one window length |
| `RateLimiter.AtMostTheLimit` | internal/pushrelay/limiter.go:25-44 | the limit holds in an interval inside which no window opens, or only at its beginning |
| `RateLimiter.BoundIsReached` | internal/pushrelay/limiter.go:25-44 | for every limit, and wherever strictly inside the interval a window opens, some requests reach the bound |
| `RateLimiter.LimitHoldsExactly` | internal/pushrelay/limiter.go:25-44 | from two on, the limit holds whatever the requests iff the window opens where the interval begins |

## Left out

- Isolation: row locks, `SKIP LOCKED` and advisory locks; every transaction is one atomic step, and uniqueness is claimed for serial runs only.
- Columns that no decision depends on: last_seen_at, revision, labels, error texts, metadata, alert facts, indicator snapshots; source and effective severity are one column, and the affected-target count is the active-impact count.
- The activity journal, but for the number of "resolved" entries of an incident.
- The lease guard of a snapshot and of a discovery pass is a boolean argument; `ConnectorLeases` proves what it is worth.
- Clocks read several times within one transaction are one `now`.
- IncidentStore.Store.CompleteAcknowledgement: for an incident that is not acknowledged it promises the new tables but not the invariant, which an answer could break; its only caller has just acknowledged the incident, and nothing undoes that.
- IncidentStore.Store.Acknowledge: nothing else happens between the plan and the answers in this method, and the answer is a function of the row; `IncidentHistory.AnswersReachTheirPlan` lets any run happen there, for any answers.
- IncidentMoves: its runs leave merging targets and removing sources out, and do not follow which connector keeps a source.
- IncidentNative.NativeFollowsHistory: excludes steps that close or invalidate the check's evidence by other means, such as archiving its target.
- Re-arming webhook evidence: the source has no step that does it.
- Target tables of the control plane: only whether a target is live, archived or absorbed.
- ConnectorLeases: worker discipline (one cycle per connector at a time, as `tick` waits for its goroutines) is an assumption, stated as `Disciplined`; endpoints fold ASCII letters only.
- Normalisation of names, addresses and identifiers, word splitting and the recognition of IP addresses: arguments of the matcher.
- The order in which the clues of one match are presented.
- Discovery: lengths count characters, and the list of enabled bindings returned to the cycle is not modelled.
- Realtime: writing to the socket, pings and the hub itself; the hub delivers in order everything after its start version, and retention does not overtake a replay under way.
- ResolvedPages: the encoding of cursors, the text search, the trimming of filters and the filter options; incident ids are naturals.
- Pairing: sealing keeps a secret as it is, hashing is a function, and devices are neither renamed nor revoked.
- Recurrence: the time zone database is a function from instants to offsets, and instants are whole seconds.
- Administrator accounts, remote clients, probes, HTTP handlers, health and latency arithmetic, presentation and localisation: not part of this model.
