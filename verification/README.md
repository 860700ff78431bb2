# The durable runner lifecycle, modelled and proved

The autoscaler keeps four collections in Firestore: jobs, a ledger of reserved
runner generations, one fleet document with counters, and assignment evidence.
Webhook intake, create callbacks under a lease, delete callbacks, the two-minute
sweep, the reconciler, recreate callbacks and an auditor all write them, each doing
one transaction, then a cloud call, then another transaction, and each able to stop
for good between two of them.  This project models those actors and proves what
they promise together.

## How it is built

- `types`, `records`, `tables`: the documents, the callback closures as a datatype
  `Change` with one function `Apply`, and each transaction as a function of the four
  collections.
- `store`: the same transactions and callbacks statement by statement, as classes
  whose methods assign fields and reassign maps, each proved equal to its function.
- `ledger`: the invariants of the stored documents, kept by every transaction: the
  books, which hold in every run, the second counter, and the whole ledger.
- `protocol`: the state machine.  A create callback is `processJob` cut at its
  transactions and cloud calls; every other actor, the cloud and the clock have
  their own steps; any number of callbacks interleave, and each may crash anywhere.
- `callbacks`, `transitions`: what a callback may do to a record, which store call a
  step makes, and what a step leaves alone.
- `standing`, `counters`: what every run keeps of the documents, and what finishTask
  has to check for the second counter to stay right; neither mentions the cloud.
- `invariant`, `effects`, `worker_steps`, `cloud_steps`, `other_steps`, `safety`: the
  invariant that ties the cloud to the ledger and both to what each callback knows,
  and the induction over every run.
- `coverage`, `deadlines`: on top of it, that every VM and every insert that may still
  become one has a row, for runs in which the age rule waits long enough; and that it
  does so when callbacks submit in time.
- `fields`, `decisions`, `recordings`: the same callbacks and steps read the other way, as
  what is promised of each field of a record, of each point of a callback where it decides
  on an answer, and of each of its writes, without naming the functions that compute it.
- `tokens`, `completion`, `revisions`, `fences`, `equipment`, `pins`, `generations`,
  `verdicts`, `demand`, `promises`, `audit`, `resumption`, `advertising`, `debts`,
  `histories`: properties of whole runs.
- `guards`, `witness`: that the two checks the source lacks are exact, and a run from
  the empty store past each of them.
- `plan`, `create_loop`, `dispatch_window`, `registrations`, `sweeps`, `paging`,
  `deletion`: the creation plan and the loop over it, the outbox window, the busy
  decision, the sweep's drain, the reconciler's pages and the zone-by-zone deletion,
  as loops against specifications.

Times are seconds on one clock.  Identifiers are compared only for equality and are
numbers, with 0 for the empty string; hashes (`jobKey`, request ids) are therefore
injective, and the zone seed is an arbitrary start index.

## What is assumed of the environment

- Random identifiers are fresh.
- A store transaction and a single cloud call are each atomic.
- An insert whose request id was accepted before answers with that operation; a
  definite rejection is given only for a request that was never accepted, and then
  none of its earlier submissions is accepted any more; a request without a name is
  never accepted.
- "Already exists" is answered only while a VM of that name and zone exists.
- A finished operation without a VM never produces one; an operation lookup finds an
  accepted insert that is not over; an insert is not accepted later than 120 s after
  its sender's deadline.
- A recorded operation that Compute no longer lists has finished.
- A VM whose deletion was reported failed may go all the same, at any later time; the
  state machine counts that among the VMs Compute loses.
- GitHub names a runner on a completed job only if that runner's VM has come up.
- Cloud calls fail at their context's deadline; store transactions may come later.

Nothing is assumed about the order, duplication or loss of deliveries, about how
long a callback pauses, or about deliveries of one dispatch token overlapping.

## What turned out not to hold

Two branches break the promises their comments make.  For each there is a check that
would keep them, a theorem for all runs that make it, and a lemma in `Guards` that the
check is exact.  The two are independent: a checked run makes the first, and a patient
run is one in which the second branch fires only past the margin (making the second
check is enough for that).  A theorem asks for the one condition it needs; all others,
the invariant that ties the cloud to the ledger among them, are stated for every run.

1. `finishTask` (work_scheduling.go:130-133) gives an unsubmitted reservation back
   after a permanent error under its dispatch token alone.  A callback of an earlier
   token that passed `activeTask` before it was superseded may hold the lease by then
   and be working on that reservation.  Its next `changeAttempt` finds a record
   without a VM and counts a standard attempt for nobody:
   `Witness.CountersCanDrift` is such a run.  Asking in the same transaction whether
   another lease is running on a job that is not over is enough
   (`Promises.CountersAreTheLedger`) and exact (`Guards.ReleaseGuardIsExact`).  To tell
   its own lease from another's, finishTask needs the lease token, which processJob
   draws and keeps to itself: it has to be handed on.  The number of VMs is not in
   danger: the stray insert has no name.
2. `resolveAttempt` (lifecycle.go:628-632) gives up on an insert that Compute does
   not list once `TaskTimeout+120` s have passed since `AttemptedAt`.  A later
   callback that submits the saved attempt again does not move `AttemptedAt`, so its
   insert may still be accepted when the rule fires:
   `Witness.VmCanGoUncounted` ends with a VM that has no row.  Submitting an attempt
   that was not accepted yet only while the callback's own deadline is at most
   `AttemptedAt+TaskTimeout` is enough (`Deadlines.NoVmIsUncountedInTime`) and exact
   (`Guards.SubmissionGuardIsExact`).  The check amounts to "this callback started no
   later than `AttemptedAt`", so it rules out every resubmission by a later callback,
   unless the insert was accepted before and only answers with its operation.  The
   theorem that covers runs that do resubmit is `Coverage.NoVmIsUncounted`, under the
   patient condition.

Two smaller observations.  The branch for a completed status at lifecycle.go:314 is
never taken: the status write at lifecycle.go:166-173 has already made the snapshot
terminal, and a terminal snapshot returns at lifecycle.go:292.  `Detach` and `Adopt`
accept a lease at the very instant it ends (capacity_store.go:167 and 211), the other
callbacks do not (lifecycle.go:93).

## Model

| member | source | states |
|---|---|---|
| Coverage.NoVmIsUncounted | runner-autoscaler/pkg/lifecycle.go:187-288 | over every interleaving and crash of a patient run, resubmissions included and whatever finishTask gives back: every VM and every insert that may still become one has a ledger row, a generation lives in at most one zone, VMs ≤ `fleet.Runners` ≤ `MaxRunners` |
| Deadlines.NoVmIsUncountedInTime | runner-autoscaler/pkg/lifecycle.go:187-288 | the same for every run in which each submission of an attempt that was not accepted before is made by a callback whose deadline is no later than its snapshot's `AttemptedAt` plus `TaskTimeout` |
| Deadlines.TimelyRunsArePatient | runner-autoscaler/pkg/lifecycle.go:628-632 | in such a run the age rule never fires while an insert may still be accepted |
| Guards.SubmissionGuardIsExact | runner-autoscaler/pkg/lifecycle.go:388-411 | from any state with the invariants of such runs: a submission is safe in every timely continuation if and only if it is in time, or its request was accepted before, or it has no name |
| Guards.LateSubmission | runner-autoscaler/pkg/lifecycle.go:628-632 | the continuation for any other submission: the late submitter comes back without an answer, a deletion the job owes is paid, another callback gives up by age and releases the row, and the insert becomes a VM without a row |
| Safety.RunKeeps | runner-autoscaler/pkg/lifecycle.go:137-497 | the protocol invariant (books, cloud against ledger, every worker against both) holds in every state of every run |
| Safety.StepKeeps | runner-autoscaler/pkg/lifecycle.go:137-497 | each of the 24 kinds of step of any actor keeps the invariant, under no condition but that it can be taken |
| Coverage.RunCovers | runner-autoscaler/pkg/lifecycle.go:187-288 | in every state of a patient run, every VM and live insert has a row, and every callback about to release has nothing left in the cloud |
| Coverage.StepCovers | runner-autoscaler/pkg/lifecycle.go:236-249 | each kind of step keeps that, the age rule alone under its condition |
| Coverage.CoveredCounts | runner-autoscaler/pkg/fleet_audit.go:92-103 | in one state the two invariants give: every VM and live insert reserved, one zone per name, VMs within the counter within the limit |
| Coverage.DroppedIsGone | runner-autoscaler/pkg/capacity_store.go:358-397 | whoever drops a row, create callback, finishTask, delete callback or sweep: no VM of that name exists and nothing submitted for it can come up |
| Coverage.FinishedIsGone | runner-autoscaler/pkg/work_scheduling.go:130-133 | what finishTask gives back has nothing in the cloud |
| Coverage.ResolveMakesSure | runner-autoscaler/pkg/lifecycle.go:236-249 | a lookup that settles an attempt leaves nothing of its generation pending, by age only past the margin |
| Invariant.InitialOk | runner-autoscaler/pkg/lifecycle_store.go:84-112 | an empty store and an empty cloud satisfy it |
| Guards.ReleaseGuardIsExact | runner-autoscaler/pkg/work_scheduling.go:130-133 | for any well-formed record whose reservation finishTask could give back, wherever on-demand capacity may be used: from no state with the invariants of checked runs does the release lead, by steps that are checked, to counters that differ from the ledger, if and only if no other lease is running on the record or its job is over |
| Guards.ReleaseUnderLease | runner-autoscaler/pkg/work_scheduling.go:130-133 | the continuation: after a release under the lease of a callback about to save an attempt on demand, that attempt is counted and no row holds it |
| Witness.CountersCanDrift | runner-autoscaler/pkg/work_scheduling.go:113-136 | a concrete run from the empty store, with one delivery per dispatch token, after which `Standard` is 1 and the ledger is empty |
| Witness.VmCanGoUncounted | runner-autoscaler/pkg/lifecycle.go:623-639 | a concrete run from the empty store in which a resubmitted insert becomes a VM after its reservation was released by age |
| Generations.GenerationAppearsOnce | runner-autoscaler/pkg/lifecycle.go:469-474 | an uncertain insert never yields a second VM: over every run, with every retry, takeover and crash, a generation comes up at most once |
| Generations.OneZonePerGeneration | runner-autoscaler/pkg/lifecycle.go:388-398 | in no state of any run do two VMs of one generation exist, in one zone or in two |
| Generations.ReleasedForGood | runner-autoscaler/pkg/capacity_store.go:356-397 | once a reservation has ended, nothing submitted for it is live and no VM of it exists, in any later state of a patient run, and its name is never reserved again |
| Generations.DrawnNameStaysOut | runner-autoscaler/pkg/lifecycle.go:340-353 | in every run: only a freshly drawn name ever enters the ledger |
| Pins.OpenInsertIsPinned | runner-autoscaler/pkg/lifecycle.go:276-287 | over every run, through crashes and takeovers: while a request of a generation is neither refused nor failed, its zone, model, machine, template, JIT credential and attempt time stay as saved |
| Pins.StepOnPin | runner-autoscaler/pkg/lifecycle.go:443-453 | one step of any actor, from any state with the invariant of every run, leaves the saved attempt of a generation with an open request as it is |
| Pins.SendRepeatsOpen | runner-autoscaler/pkg/lifecycle.go:388-398 | in every run: a submission made while another of the named generation is open carries the same zone, model and machine, so the same request id, and a credential |
| Equipment.RunEquipped | runner-autoscaler/pkg/lifecycle.go:363-387 | in every checked run: in every record, row and snapshot a saved attempt has a template, a model and, with a VM, a JIT credential |
| Pins.RepinKeeps | runner-autoscaler/pkg/lifecycle.go:475-485 | the callbacks that could replace a saved attempt repeat it, or cannot be reached, while a request is open |
| Promises.RunnersAreTheRows | runner-autoscaler/pkg/lifecycle_store.go:130-136 | in every run: `Runners` is the number of rows and at most `MaxRunners`; where on-demand is not allowed `Standard` is 0 and so is the number of standard rows |
| Promises.CountersAreTheLedger | runner-autoscaler/pkg/lifecycle_store.go:84-139 | in every checked run: `Runners` is the number of rows, `Standard` the number of standard rows; never negative, nested, inside the limits; `Standard` is 0 where on-demand is not allowed |
| Promises.OwnershipInRun | runner-autoscaler/pkg/lifecycle_store.go:120-129 | in every run: a job holds a generation exactly when the row names it as owner; the row mirrors its record; no generation has two holders |
| Promises.AdvertisedIsFree | runner-autoscaler/pkg/assignment.go:93-97 | in every state of every run an `Available` runner is unowned and has no assignment record |
| Promises.NoDemandIsLost | runner-autoscaler/pkg/capacity_store.go:40-55 | in every run `NeedsReconcile`, the due time, the dispatch marker and the expiry fit together in every stored record |
| Resumption.PlanIsTakenUp | runner-autoscaler/pkg/lifecycle.go:385-398 | what a callback goes on to try when it makes its plan: the plan from its saved attempt on; after the attempt it dropped because Compute settled it, which is not tried again; the whole plan otherwise, or if the attempt is not part of it |
| Resumption.NoAttemptTwice | runner-autoscaler/pkg/lifecycle.go:425-497 | over every run with distinct zones: no callback submits one attempt twice, nor one that it dropped as settled |
| Advertising.AdvertisedWasIdle | runner-autoscaler/pkg/lifecycle.go:217-222 | over every run: a runner becomes available only by a deferral that asks for it, or by a callback detaching it whose own registration check, for an open job, had found it idle and unassigned |
| Advertising.StepAdvertises | runner-autoscaler/pkg/capacity_store.go:177-180 | one step makes a row available only as a spare detachment of the callback's own VM, or as such a deferral |
| Advertising.StepWithdraws | runner-autoscaler/pkg/capacity_store.go:224-262 | an available row stays so until it is adopted or found assigned, an assignment names it, it is released, or it is put off for another reason than being idle |
| Advertising.HandedOn | runner-autoscaler/pkg/capacity_store.go:153-188 | detaching under the lease frees the job and leaves an unowned row with the job's record, in its pool, due in two minutes, available exactly if it is spare and unassigned |
| Advertising.AdoptedFromPool | runner-autoscaler/pkg/capacity_store.go:224-262 | whoever is adopted was advertised, in the pool that was asked for, without an assignment, and belongs to the adopting job then |
| Advertising.PutOff | runner-autoscaler/pkg/capacity_store.go:56-84 | a deferral reschedules an unowned row and makes it available exactly if that was asked, its job is open and it is unassigned; nothing else of the row changes |
| Debts.OwedUntilPaid | runner-autoscaler/pkg/lifecycle.go:44-47 | over every run: a completed delivery that names a runner of the fleet leaves its deletion owed, and the job scheduled, until the deletion is recorded or another completed delivery names another runner |
| Debts.TaskCarriesDebt | runner-autoscaler/pkg/work_scheduling.go:52-71 | every task sent for the job meanwhile is one to delete that runner, and one is sent whenever no marker or lease stands in the way and the job is due |
| Debts.DispatchSends | runner-autoscaler/pkg/work_scheduling.go:52-79 | a task is sent exactly when the job is to be looked at, is due, and no marker or lease stands in the way; it deletes the runner owed, or else creates |
| Debts.DeliveryStarts | runner-autoscaler/pkg/work_scheduling.go:87-94 | the delivery of a task whose marker stands starts the deletion it names, or else a create callback |
| Debts.DeletionIsRecorded | runner-autoscaler/pkg/durable_http.go:222-235 | the recorded deletion pays the debt if it is of this runner, and releases the claim with its place in the ledger if it is on this runner, and nothing else |
| Histories.SourceIsKept | runner-autoscaler/pkg/lifecycle.go:39-43 | over every run the first registered source of a record keeps it |
| Histories.FinishedJobIsKept | runner-autoscaler/pkg/lifecycle.go:34-38 | over every run, once a job is over only another completed delivery changes what is stored of it |
| Histories.FailureIsKept | runner-autoscaler/pkg/work_scheduling.go:130-136 | over every run a permanent failure stays recorded until another one replaces it or the job adopts a runner |
| Histories.TaskEnds | runner-autoscaler/pkg/work_scheduling.go:113-138 | a task that ends under its own marker clears it; a permanent error is recorded, and the next look is in an hour, at the time a deferred request names, in ten minutes for a job in progress, and else in two |
| Histories.ContentionIsAcknowledged | runner-autoscaler/pkg/work_scheduling.go:98-101 | a callback that lost its job to another ends and leaves everything stored as it is |
| Histories.DeletionIsAcknowledged | runner-autoscaler/pkg/durable_http.go:236-238 | the delete task clears its marker, keeps claim and failure, and an open job is looked at again as after a create task without an error |
| Histories.QueueFailureIsHeard | runner-autoscaler/pkg/work_scheduling.go:76-84 | a task that could not be queued stops blocking, its token stays, and the job is due in a minute |
| Histories.RecreationIsHeard | runner-autoscaler/pkg/durable_http.go:275-283 | a VM that reports its own end has its open job looked at within 45 s, unless a marker stands longer; a report from any other generation changes nothing of when |
| Histories.NewsIsActedOn | runner-autoscaler/pkg/lifecycle.go:35-53 | a changed status, or the end of an open job, clears the marker and makes the job due at once |
| Histories.KeptForAWeek | runner-autoscaler/pkg/capacity_store.go:50-55 | over every run a record that is done with is kept for at least a week from when it came to that |
| Histories.IdsInRun | runner-autoscaler/pkg/lifecycle.go:107-125 | over every run a record without a VM has no runner id |
| Histories.AdoptKeeps | runner-autoscaler/pkg/capacity_store.go:251-289 | an open job without a claim gets the claim of the first candidate without an assignment, if there is one; it stays what it was but for a failure, and is due at once |
| Histories.DetachKeeps | runner-autoscaler/pkg/capacity_store.go:181-187 | a detached job keeps what it is, without claim and runner id, and is looked at again in 30 s |
| Standing.RunStands | runner-autoscaler/pkg/lifecycle_store.go:84-139 | in every run: the books, the leases, the holders' claims, the tasks and the drawn names fit together |
| Standing.StepStands | runner-autoscaler/pkg/lifecycle.go:74-106 | every step of every actor keeps what stands |
| Standing.CallUnharmed | runner-autoscaler/pkg/lifecycle.go:91-106 | no store call of another actor writes a holder's lease or does more to its claim than release it |
| Counters.RunReckons | runner-autoscaler/pkg/work_scheduling.go:113-136 | in every checked run the second counter is the number of standard rows, no record without a VM carries a standard attempt, and inside its lease a worker's snapshot is the claim of an open job |
| Counters.StepReckons | runner-autoscaler/pkg/work_scheduling.go:113-136 | every step that is checked keeps that |
| Ledger.UpdateKeepsBooks | runner-autoscaler/pkg/lifecycle_store.go:84-139 | Update and UpdateJob keep ownership, mirror, availability, schedule and the first counter for every callback whose caller draws fresh names, claim or no claim |
| Ledger.UpdateKeepsTally | runner-autoscaler/pkg/lifecycle_store.go:130-136 | and the second counter, unless an attempt is saved for an open job that holds no VM |
| Ledger.UpdateKeepsLedger | runner-autoscaler/pkg/lifecycle_store.go:84-139 | Update and UpdateJob keep counters, ownership, mirror, availability and limits for every permitted callback |
| Ledger.UpdateKeepsCounts | runner-autoscaler/pkg/lifecycle_store.go:130-136 | the counters written are the sizes of the ledger written |
| Ledger.RowsAfterUpdate | runner-autoscaler/pkg/lifecycle_store.go:120-129 | which rows an update writes, deletes and leaves |
| Ledger.DetachKeepsLedger | runner-autoscaler/pkg/capacity_store.go:153-188 | Detach keeps the ledger and both counters |
| Ledger.AdoptKeepsLedger | runner-autoscaler/pkg/capacity_store.go:195-294 | Adopt keeps the ledger and both counters |
| Ledger.DeferKeepsLedger | runner-autoscaler/pkg/capacity_store.go:56-84 | DeferRunner keeps the ledger |
| Ledger.ReleaseKeepsLedger | runner-autoscaler/pkg/capacity_store.go:358-397 | ReleaseRunner keeps the ledger, counters included |
| Ledger.RememberKeepsLedger | runner-autoscaler/pkg/capacity_store.go:310-354 | RememberRunnerID keeps the ledger, the mirror included |
| Ledger.AssignmentKeepsLedger | runner-autoscaler/pkg/assignment.go:44-100 | RecordAssignment keeps the ledger, availability included |
| Ledger.OwnershipIsBijective | runner-autoscaler/pkg/capacity_store.go:266-289 | claims and owned rows are inverse partial maps |
| Ledger.CountersInRange | runner-autoscaler/pkg/lifecycle.go:341-353 | limits follow from the ledger invariant |
| Ledger.ApplyEffect | runner-autoscaler/pkg/lifecycle.go:107-125 | each callback keeps, edits, takes or gives a claim, or writes into a record without one, and moves the first counter by exactly that |
| Records.ApplyKeepsRecord | runner-autoscaler/pkg/capacity_store.go:40-55 | every callback, followed by prepareRecord, leaves a record that carries nothing of an old claim and is correctly scheduled |
| Records.ApplyFiles | runner-autoscaler/pkg/capacity_store.go:40-55 | every callback whatsoever, followed by prepareRecord, leaves a correctly scheduled record that owes a deletion only when terminal |
| Records.PrepareSchedules | runner-autoscaler/pkg/capacity_store.go:40-55 | prepareRecord establishes the schedule on any record without a stray expiry |
| Fields.JobField | runner-autoscaler/pkg/lifecycle.go:34-48 | an open job follows what is reported of it; one that is over only another completed delivery, and it stays over |
| Fields.SourceField | runner-autoscaler/pkg/lifecycle.go:39-43 | the first registered source keeps the record, an unregistered one gives way to the next delivery |
| Fields.SightingField | runner-autoscaler/pkg/lifecycle.go:54-56 | the first delivery times the record, and nothing changes that |
| Fields.FailureField | runner-autoscaler/pkg/work_scheduling.go:130-136 | a permanent failure is recorded by a task that ends in it, and by nothing else; the runner id goes with the claim |
| Fields.MarkerField | runner-autoscaler/pkg/work_scheduling.go:52-86 | the marker is set exactly when nothing stands in the way, cleared by news and at the end of its task, and stops blocking when its task could not be queued |
| Fields.LookField | runner-autoscaler/pkg/work_scheduling.go:117-136 | when each callback has the job looked at next |
| Fields.ClaimField | runner-autoscaler/pkg/lifecycle.go:107-125 | a reservation names the claim, giving it up clears it whole, and attempts are saved and dropped whole in between |
| Fields.TimeFields | runner-autoscaler/pkg/lifecycle.go:443-465 | when credential, first attempt and creation are timed, and when the operation is recorded and dropped |
| Fields.ExpiryField | runner-autoscaler/pkg/capacity_store.go:50-55 | a record expires a week after it settled, was delivered again or gave up its claim |
| Fences.SnapshotIsFaithful | runner-autoscaler/pkg/lifecycle.go:76-106 | in checked runs, while a worker's lease lasts, the lease is stored as its own and the stored claim is its snapshot's; the one foreign change is a full release of a job that is over, with nothing left in the cloud if the run is patient too; no VM in the snapshot means no VM stored |
| Fences.LeaseLoserIsInert | runner-autoscaler/pkg/lifecycle.go:91-106 | a worker whose lease passed to another or to time changes nothing stored by any step but finishTask |
| Fences.StaleTokenIsInert | runner-autoscaler/pkg/work_scheduling.go:113-116 | finishTask under a superseded token changes no job, counter or evidence |
| Fences.SupersededWorkerIsInert | runner-autoscaler/pkg/work_scheduling.go:98-120 | so in every run a callback without lease and dispatch changes nothing that counts |
| Fences.OneCallerPerJob | runner-autoscaler/pkg/srv.go:568-575 | at no time of any run are cloud calls of two callbacks for one job under way |
| Fences.CallerHoldsLease | runner-autoscaler/pkg/lifecycle.go:74-90 | in every run a cloud call under way is inside the caller's stored lease |
| Tokens.SupersededTokenIsDead | runner-autoscaler/pkg/work_scheduling.go:87-94 | a token once superseded or cleared is never active again for any job, and its later deliveries change nothing |
| Tokens.TokenServesOneJob | runner-autoscaler/pkg/work_scheduling.go:47-65 | a token is active for at most one job, ever |
| Tokens.StepOnMarker | runner-autoscaler/pkg/work_scheduling.go:47-94 | a marker changes only by being cleared, by a failed enqueue, or by an issue that found no marker and no lease running |
| Tokens.ChainsDoNotOverlap | runner-autoscaler/pkg/work_scheduling.go:26-43 | if a marker still stands when the next task is sent, every delivery of its retry chain has ended, with the margin to spare |
| Tokens.DeadTokenStaysDead | runner-autoscaler/pkg/capacity_store.go:267-280 | no step, adoption included, revives a token |
| DispatchWindow.ChainEndsInsideWindow | runner-autoscaler/pkg/work_scheduling.go:31-43 | every chain the queue may run ends at least 60 s before the window |
| DispatchWindow.WindowIsTight | runner-autoscaler/pkg/work_scheduling.go:31-43 | some chain fills the window but for the margin where the attempts bound it, and to the last second where the retry duration does |
| Completion.DelayedDeliveryCannotRevive | runner-autoscaler/pkg/assignment.go:44-100 | after a completion has reached the job, any later evidence write of the job, however stale, leaves completed evidence for good |
| Completion.TerminalIsFinal | runner-autoscaler/pkg/lifecycle.go:32-63 | `Terminal` is never undone |
| Completion.EvidenceIsFinal | runner-autoscaler/pkg/assignment.go:69-92 | evidence stays, keeps its job key, and once completed stays completed |
| Completion.LateEvidenceIsDone | runner-autoscaler/pkg/assignment.go:86-92 | evidence written when the job is terminal is completed |
| Completion.AssignmentIsTaken | runner-autoscaler/pkg/assignment.go:44-100 | what an evidence write leaves: evidence for its own job, completed if the job is over or it was completed before, kept for a week then, and the runner out of the pool; for an unknown job, or another job's evidence, nothing changes, and the write fails unless it reports the completion of a known job |
| Revisions.RevisionIsAbaFree | runner-autoscaler/pkg/fleet_audit.go:170-179 | in every run two snapshots with one revision, and all states between them, have the same ledger names and the same standard generations |
| Revisions.RevisionGrows | runner-autoscaler/pkg/lifecycle_store.go:130-136 | in every run the revision never goes back |
| Revisions.CallRevision | runner-autoscaler/pkg/capacity_store.go:387-395 | a store call that leaves the revision leaves names and standard generations |
| Revisions.UncountedChange | runner-autoscaler/pkg/lifecycle.go:107-125 | a callback that leaves the counters moves no name, nor the model of a named claim |
| Audit.AuditOnlyMissesVms | runner-autoscaler/pkg/fleet_audit.go:143-188 | with an inventory taken between equal revisions the audit never reports a model difference in any run, drift in checked runs, or a missing reservation in patient runs |
| Audit.DriftIsCounted | runner-autoscaler/pkg/fleet_audit.go:92-103 | on a consistent snapshot the drift branch fires exactly when counters and ledger disagree |
| Audit.LedgerDiscrepancy | runner-autoscaler/pkg/fleet_audit.go:92-119 | the loops report a discrepancy of the first kind there is, and agreement exactly when there is none |
| Audit.TakeInventory | runner-autoscaler/pkg/fleet_audit.go:155-169 | the inventory holds every listed VM under its model, or a listing failed |
| Verdicts.AssignedRunnerIsNeverDeleted | runner-autoscaler/pkg/assignment.go:152-174 | in any run at all, a VM that disappears was lost by the cloud, or a check had found it stopped or without an unfinished assigned job |
| Verdicts.AssignedIsSpared | runner-autoscaler/pkg/lifecycle.go:198-222 | no check of worker, sweep or delete callback condemns a running VM with an unfinished assigned job |
| Verdicts.RemovalStep | runner-autoscaler/pkg/durable_http.go:205-217 | which steps remove a VM at all |
| Registrations.CapacityRegistration | runner-autoscaler/pkg/assignment.go:152-174 | assigned and not completed is busy, also when the lookup fails; completed is gone; otherwise the registration decides |
| Registrations.CheckAssignment | runner-autoscaler/pkg/assignment.go:128-150 | active, failed and completed answers, and that a completion is recorded on the evidence read |
| Registrations.BusyIsNeverRemoved | runner-autoscaler/pkg/lifecycle.go:206-216 | an assigned generation is not removed, whatever its record says |
| Demand.NoVmWithoutDemand | runner-autoscaler/pkg/lifecycle.go:157-176 | in any run a callback adopts, reserves, takes a credential, saves an attempt or submits an insert only after its own status check was answered with queued |
| Demand.CheckedStatus | runner-autoscaler/pkg/lifecycle.go:161-176 | the status a callback works with is what GitHub answered, or completed for a finished job |
| Sweeps.ReconcileRunners | runner-autoscaler/pkg/fleet_audit.go:20-38 | every row handled once and with that fate, each left the due set, `Runners` lowered by exactly the released, nothing due left or exactly ten full pages |
| Sweeps.ReconcileRows | runner-autoscaler/pkg/fleet_audit.go:39-91 | a page is handled row by row up to the first failure; a handled row that is gone had no VM, or a stopped or unwanted one that was deleted; one that stays has a running VM that is neither, is due in ten minutes (two if its runner is offline) and is advertised exactly if its runner was found idle and no assignment names it; the row it stops at had a failed lookup, registration check or deletion |
| Sweeps.RunnerPage | runner-autoscaler/pkg/capacity_store.go:402-423 | a page of distinct due detached rows, short only if there are no more |
| Sweeps.DrainCounts | runner-autoscaler/pkg/fleet_audit.go:15-18 | the due set shrinks by the rows handled, the counter by the rows removed |
| Sweeps.NobodyRefills | runner-autoscaler/pkg/fleet_audit.go:15-18 | no store call of another actor after the cutoff adds to the due set |
| Sweeps.AssignedRowStays | runner-autoscaler/pkg/fleet_audit.go:64-79 | a row whose generation runs an unfinished job is neither released nor advertised |
| Paging.ReconcileChain | runner-autoscaler/pkg/durable_http.go:303-353 | at one clock the chain ends, visits every initially due job exactly once and in order, and sends a task for exactly those free and of a known source |
| Paging.ReconcilePage | runner-autoscaler/pkg/durable_http.go:324-347 | one request: its page, its cursor, and the records it leaves |
| Paging.Page | runner-autoscaler/pkg/lifecycle_store.go:140-175 | the first due jobs past the cursor in (NextActionAt, key) order |
| Paging.PageAdvances | runner-autoscaler/pkg/lifecycle_store.go:169-174 | a full page moves the cursor exactly past itself, a short one leaves nothing |
| Paging.SameRemaining | runner-autoscaler/pkg/durable_http.go:318-347 | what the cursor leaves is the same before and after the visited records were rescheduled |
| Paging.SentExactly | runner-autoscaler/pkg/durable_http.go:324-341 | a job of the chain gets a task if and only if it is not settled, its lease is free and its source is known |
| Paging.EnqueueEffect | runner-autoscaler/pkg/work_scheduling.go:52-71 | enqueueJob on a due free record writes the marker and reschedules past it |
| Paging.AscendingIsDistinct | runner-autoscaler/pkg/lifecycle_store.go:141 | the visiting order has no repetition, so nothing is visited twice |
| CreationPlans.BuildPlan | runner-autoscaler/pkg/srv.go:860-885 | the calls and loops build the plan that the coverage, distinctness and resumption lemmas are about |
| CreationPlans.BuildLegacyPlan | runner-autoscaler/pkg/srv.go:892-908 | the nested loops give the primary template in every zone, then the on-demand template in every zone |
| CreationPlans.BuildFamilyPlan | runner-autoscaler/pkg/srv.go:916-948 | the loops give one primary attempt per distinct family over rotating zones, then at most two on demand |
| CreationPlans.OrderedZones | runner-autoscaler/pkg/srv.go:430-443 | the loop gives the rotation of the zones from the start index |
| CreationPlans.OrderedZonesBenched | runner-autoscaler/pkg/zonehealth.go:119-138 | the loop moves benched zones to the end, both groups in rotation order, unless every zone is benched |
| CreationPlans.HealthyZones | runner-autoscaler/pkg/zonehealth.go:143-158 | the loop keeps the healthy zones in order, or all when none is healthy |
| CreationPlans.DedupePreserveOrder | runner-autoscaler/pkg/srv.go:232-244 | the loop keeps the first occurrence of every value, in order |
| CreationPlans.FindAttemptsAfter | runner-autoscaler/pkg/lifecycle.go:513-520 | the loop returns the attempts after the first one equal to the failed, or the whole plan when there is none |
| CreationPlans.OrderIsPermutation | runner-autoscaler/pkg/srv.go:426-429 | any rotation with any benching is a permutation of the zones |
| CreationPlans.BenchedZonesComeLast | runner-autoscaler/pkg/zonehealth.go:115-138 | no benched zone before a healthy one |
| CreationPlans.PlanIsDistinctAndSpotFirst | runner-autoscaler/pkg/srv.go:846-885 | no attempt twice, SPOT before STANDARD |
| CreationPlans.PlanCoverage | runner-autoscaler/pkg/srv.go:887-948 | every zone per template, or every distinct family once and the first two on demand; exact lengths of both shapes |
| CreationPlans.ZonesInTurn | runner-autoscaler/pkg/srv.go:426-443 | with no zone benched the zones are tried in turn from the picked one on, once per template, or one per family in the order of the families |
| CreationPlans.FamiliesAvoidBenched | runner-autoscaler/pkg/srv.go:875-880 | by family no benched zone is tried while some zone is healthy |
| CreationPlans.ResumeIsExact | runner-autoscaler/pkg/lifecycle.go:513-520 | what follows any attempt of a plan, with and without that attempt, is exactly the plan from there on |
| DocumentStore.Store.Update | runner-autoscaler/pkg/lifecycle_store.go:84-139 | reading, calling back, preparing and writing leaves exactly the collections of the transaction `Update`, or an error and no change; a permitted change keeps the ledger invariant |
| DocumentStore.Store.Detach | runner-autoscaler/pkg/capacity_store.go:153-188 | the row keeps the reservation unowned, the job is freed and due in 30 s, as the transaction `Detach` says, or a lease error changes nothing |
| DocumentStore.Store.Adopt | runner-autoscaler/pkg/capacity_store.go:195-294 | the collections become those of the transaction `Adopt`; adopted exactly when the lease holds, the job is open and unclaimed, and a candidate without evidence was found |
| DocumentStore.Store.Choose | runner-autoscaler/pkg/capacity_store.go:251-262 | the loop withdraws exactly the assigned candidates and picks the first free one |
| DocumentStore.Store.ReadCandidates | runner-autoscaler/pkg/capacity_store.go:224-250 | rows and assignment flags are read before any write |
| DocumentStore.Store.DeferRunner | runner-autoscaler/pkg/capacity_store.go:56-84 | an unowned row gets its new due time and is advertised only if asked, not terminal and without evidence; any other row stays |
| DocumentStore.Store.ReleaseRunner | runner-autoscaler/pkg/capacity_store.go:358-397 | an unowned row is deleted with its share of the counters and a new revision; any other row stays |
| DocumentStore.Store.RememberRunnerId | runner-autoscaler/pkg/capacity_store.go:310-354 | the id is written to the row and to the owner alike, or the disagreement is reported and nothing changes |
| DocumentStore.Store.RecordAssignment | runner-autoscaler/pkg/assignment.go:44-100 | evidence is written for its own job only, completed if the job or the old evidence is, and the row leaves the pool; a foreign live claim is an error |
| DocumentStore.Draft.PrepareRecord | runner-autoscaler/pkg/capacity_store.go:40-55 | the assignments in order give the record `Prepare` specifies |
| DocumentStore.Draft.ReleaseReservation | runner-autoscaler/pkg/lifecycle.go:107-125 | the assignments give the unclaimed record and the counters less one runner, and less one standard for a standard claim |
| DocumentStore.Draft.ClearAttempt | runner-autoscaler/pkg/lifecycle.go:503-508 | zone, model, operation and template are dropped and a standard attempt is uncounted; nothing else changes |
| DocumentStore.Draft.Observe | runner-autoscaler/pkg/lifecycle.go:34-59 | the assignments of the intake callback give the record `DoObserve` specifies |
| DocumentStore.Draft.Finish | runner-autoscaler/pkg/work_scheduling.go:113-138 | the assignments of the finishing callback give the record and counters `DoFinish` specifies, error kind by error kind |
| DocumentStore.Draft.DeleteDone | runner-autoscaler/pkg/durable_http.go:225-235 | the assignments of the deletion callback give the record and counters `DoDeleteDone` specifies |
| DocumentStore.Draft.SaveAttempt | runner-autoscaler/pkg/lifecycle.go:433-453 | a finished job and a full on-demand fleet are refused untouched; otherwise attempt, first attempt time and counter change as `DoSaveAttempt` specifies |
| DocumentStore.Draft.RunChange | runner-autoscaler/pkg/lifecycle.go:91-106 | for each of the twenty callbacks, behind its fence, the statements give exactly the outcome of `Apply`: an error, or the record and the counters |
| CreateLoop.TryPlan | runner-autoscaler/pkg/lifecycle.go:425-497 | the loop submits the permitted attempts in plan order and goes on only after a definite lack of capacity; what is uncertain stays saved as submitted, first attempt time included on a retry; what was rejected is cleared; reservation, credential and ledger are kept |
| CreateLoop.TryAttempt | runner-autoscaler/pkg/lifecycle.go:429-491 | one turn: created, uncertain, rejected or next, each with the record it leaves |
| CreateLoop.StillWorking | runner-autoscaler/pkg/lifecycle.go:433-485 | the loop's writes keep lease, reservation, credential and the ledger invariant |
| CreateLoop.ClaimWritten | runner-autoscaler/pkg/lifecycle.go:446-450 | the claim each of the loop's writes leaves |
| Deletion.DeleteInstance | runner-autoscaler/pkg/srv.go:734-780 | success means gone from the fleet; an error touches no other VM, and this one exactly if its zone carried the deletion out; and when which happens |
| Deletion.Compute.DeleteInZone | runner-autoscaler/pkg/srv.go:697-712 | found and failed in one zone, and what is deleted: a failed call or a failed wait may have deleted the VM all the same |
| WorkerSteps.StatusKnows | runner-autoscaler/pkg/lifecycle.go:161-176 | after the status check the callback knows, while its lease runs, what holds at the point it goes on to |
| WorkerSteps.AdoptKnows | runner-autoscaler/pkg/lifecycle.go:176-186 | after adoption the callback knows, while its lease runs, what holds at the point it goes on to |
| WorkerSteps.InspectKnows | runner-autoscaler/pkg/lifecycle.go:189-200 | after the instance lookup the callback knows, while its lease runs, what holds at the point it goes on to |
| WorkerSteps.RegistrationKnows | runner-autoscaler/pkg/lifecycle.go:202-230 | after the registration check the callback knows, while its lease runs, what holds at the point it goes on to |
| Decisions.RunnerIsJudged | runner-autoscaler/pkg/lifecycle.go:198-230 | after the registration check: an unregistered runner is deleted, a busy one never, an idle one exactly when the job is over, an offline one exactly when the job is over, no start is recorded or its time has run out since the first recorded of creation, attempt and credential; any other is kept for a queued job, else handed on, as spare exactly if idle |
| Decisions.DetachedIsJudged | runner-autoscaler/pkg/fleet_audit.go:66-68 | the sweep condemns a running detached VM for exactly the same reasons |
| Decisions.UnwantedStays | runner-autoscaler/pkg/work_scheduling.go:167-180 | what has expired stays expired |
| Decisions.StatusIsTaken | runner-autoscaler/pkg/lifecycle.go:161-186 | GitHub's answer is stored while the job is open, completed makes it over, and a queued job without a claim, and no other, may adopt; without the lease nothing is stored |
| Decisions.VmIsLookedUp | runner-autoscaler/pkg/lifecycle.go:189-236 | which answer of the instance lookup leads where |
| Decisions.AttemptIsLookedUp | runner-autoscaler/pkg/lifecycle.go:623-639 | when an attempt is over, and when that is a stockout |
| Decisions.VmIsLookedUpAgain | runner-autoscaler/pkg/lifecycle.go:243-287 | a VM that came up meanwhile stays; a stockout is dropped, any other attempt that is over is released |
| Decisions.DemandIsDenied | runner-autoscaler/pkg/lifecycle.go:288-300 | without a status, for a job that is over or has failed for good, nothing is stored and the callback ends as each says, discarding a reservation for which nothing was submitted |
| Decisions.DemandIsWeighed | runner-autoscaler/pkg/lifecycle.go:301-334 | only a queued job goes on; an unsubmitted reservation is discarded when its job is not queued, or when its credential is older than 45 minutes |
| Decisions.DemandIsAdmitted | runner-autoscaler/pkg/lifecycle.go:335-357 | a machine type that is not allowed fails the job, a claim is used again, a finished job and a full fleet reserve nothing, and else the name is reserved |
| Decisions.AttemptIsSaved | runner-autoscaler/pkg/lifecycle.go:425-456 | while the stored claim is the snapshot's: on-demand attempts are skipped where not allowed, a finished job and a full on-demand fleet end the callback, and else the attempt is saved and submitted next |
| Decisions.AnswerIsTaken | runner-autoscaler/pkg/lifecycle.go:457-474 | a refusal puts the attempt aside unless its operation is on record; a VM that is there, and an operation, end the search |
| Decisions.WaitIsOver | runner-autoscaler/pkg/lifecycle.go:418-424 | only an operation settled with an error puts the attempt aside |
| Decisions.RefusalIsTaken | runner-autoscaler/pkg/lifecycle.go:475-491 | only after a lack of capacity is the next attempt made; an invalid request fails the job, a rate limit ends the callback |
| Recordings.KeepingIsRecorded | runner-autoscaler/pkg/lifecycle.go:223-229 | a runner that is kept: the first time it was known to run, and another look in two minutes |
| Recordings.CreationIsRecorded | runner-autoscaler/pkg/lifecycle.go:458-465 | a creation: its time, and another look in two minutes |
| Recordings.CredentialIsRecorded | runner-autoscaler/pkg/lifecycle.go:363-387 | a credential with its time; one that is there is used again |
| Recordings.OperationIsRecorded | runner-autoscaler/pkg/lifecycle.go:412-418 | the operation of an accepted insert, before it is waited for |
| Recordings.DroppingIsRecorded | runner-autoscaler/pkg/lifecycle.go:250-265 | a dropped attempt frees its place on demand; reservation, credential and first attempt time stay, and the settled attempt is remembered |
| Recordings.ReleaseIsRecorded | runner-autoscaler/pkg/lifecycle.go:279-287 | a released claim is gone from job, ledger and counters, and the callback goes on or ends |
| Recordings.LeaseIsGivenBack | runner-autoscaler/pkg/lifecycle.go:146-152 | the lease is given back if still held, and finishTask hears how the callback ended |
| Coverage.DeleteMakesSure | runner-autoscaler/pkg/lifecycle.go:206-216 | after the deletion of its own VM nothing of the generation is left |
| WorkerSteps.ReleaseKnows | runner-autoscaler/pkg/lifecycle.go:279-287 | after every release of its own claim the callback knows, while its lease runs, what holds at the point it goes on to |
| Coverage.ReleasedIsGone | runner-autoscaler/pkg/lifecycle.go:279-287 | what a callback releases of its own claim has no VM and no insert that may still become one |
| WorkerSteps.DetachJustified | runner-autoscaler/pkg/lifecycle.go:217-222 | a detached runner's VM has appeared, even if the lease ends at that instant |
| WorkerSteps.ResolveKnows | runner-autoscaler/pkg/lifecycle.go:236-242 | after the lookup of the attempt's operation the callback knows, while its lease runs, what holds at the point it goes on to |
| WorkerSteps.RecheckKnows | runner-autoscaler/pkg/lifecycle.go:243-249 | after the second lookup the callback knows, while its lease runs, what holds at the point it goes on to |
| WorkerSteps.ForgetKnows | runner-autoscaler/pkg/lifecycle.go:250-265 | after dropping an attempt, settled or rejected, the callback knows, while its lease runs, what holds at the point it goes on to |
| WorkerSteps.DecideKnows | runner-autoscaler/pkg/lifecycle.go:292-334 | after the demand decision the callback knows, while its lease runs, what holds at the point it goes on to |
| WorkerSteps.AdmitKnows | runner-autoscaler/pkg/lifecycle.go:335-357 | after admission and reservation the callback knows, while its lease runs, what holds at the point it goes on to |
| WorkerSteps.JitKnows | runner-autoscaler/pkg/lifecycle.go:363-387 | after the JIT credential the callback knows, while its lease runs, what holds at the point it goes on to |
| WorkerSteps.SaveNextKnows | runner-autoscaler/pkg/lifecycle.go:425-456 | after saving the next attempt the callback knows, while its lease runs, what holds at the point it goes on to |
| WorkerSteps.SaveOpKnows | runner-autoscaler/pkg/lifecycle.go:412-418 | after recording the operation the callback knows, while its lease runs, what holds at the point it goes on to |
| WorkerSteps.EditJustified | runner-autoscaler/pkg/lifecycle.go:475-491 | dropping a saved attempt or saving the next one replaces nothing that could still become a VM; what is recorded on a claim is so |
| WorkerSteps.CreatedHasAppeared | runner-autoscaler/pkg/lifecycle.go:458-465 | when the operation is over, the VM has come up or the request is over |
| OtherSteps.SurrenderKnown | runner-autoscaler/pkg/work_scheduling.go:130-133 | a store call that takes a working callback's claim away: the callback found the job over or has not saved an attempt, and then nothing of the generation is in the cloud |
| CloudSteps.SendKeeps | runner-autoscaler/pkg/lifecycle.go:403-411 | submitting an insert keeps the cloud, the ledger's fit and every other callback's knowledge |
| CloudSteps.ReceiveKeeps | runner-autoscaler/pkg/lifecycle.go:457-474 | so does every answer to it |
| CloudSteps.OneWorkerPerName | runner-autoscaler/pkg/lifecycle.go:74-90 | two workers inside their leases never work on one generation |
| CloudSteps.RequestKeeps | runner-autoscaler/pkg/lifecycle.go:403-411 | whatever becomes of a callback's own request, with or without a reservation, the ledger still fits the cloud and every other callback's knowledge stays so |
| OtherSteps.StepJustified | runner-autoscaler/pkg/assignment.go:44-100 | every store call of every step is one that may be made: it drops or edits no claim that could still become a VM under it |
| OtherSteps.NewlyDeleting | runner-autoscaler/pkg/work_scheduling.go:47-86 | a delete task is sent only while nobody works on the job |
| OtherSteps.StaysFaithful | runner-autoscaler/pkg/durable_http.go:222-239 | no step of another actor, delete callback and finishTask included, makes a callback's snapshot false but by giving up its claim as above |
| CloudSteps.ProgressKeeps | runner-autoscaler/pkg/lifecycle.go:605-616 | the cloud accepting, finishing or failing an insert keeps the invariant |
| Effects.UpdateFits | runner-autoscaler/pkg/lifecycle_store.go:84-139 | a justified transaction leaves a ledger that fits the cloud |
| Effects.CallFits | runner-autoscaler/pkg/capacity_store.go:153-294 | so does every other justified store call |
| Coverage.AppearedOnce | runner-autoscaler/pkg/lifecycle.go:187-188 | a generation whose VM has appeared and is gone has nothing pending |
| Invariant.UnsubmittedIsGone | runner-autoscaler/pkg/work_scheduling.go:131-133 | a reservation without a saved attempt has nothing in the cloud |
| Invariant.OverIsGone | runner-autoscaler/pkg/lifecycle.go:250-265 | a reservation whose saved attempt was refused or failed has nothing in the cloud |
| Transitions.StepCalls | runner-autoscaler/pkg/lifecycle_store.go:49-65 | every step makes at most one store call, and nothing else changes the tables |

## Left out

- processJob as one method: it is a state machine here, because other actors run
  between its transactions; the loop over the creation plan is the `rest` its program
  points carry, and `CreateLoop.TryPlan` has that loop on its own.
- CreateLoop.TryPlan: nobody else writes and the clock stands still; the interleaved
  version is the state machine's.
- Interference inside the sweep and the reconciler: `Sweeps.ReconcileRunners` and
  `Paging.ReconcileChain` run alone and at the clocks given; the state machine has
  their steps interleaved with everybody else's, and `Sweeps.NobodyRefills` says that
  others cannot refill the sweep's due set.
- Sweeps.ReconcileRunners: says nothing of which rows a page holds beyond the query's
  own contract, because Firestore promises no order there.
- Paging.ReconcileChain: enqueueing always succeeds and the clock stands still; a
  failed enqueue ends the chain with an error and is retried by the queue.
- Tokens.ChainsDoNotOverlap: the queue's retry contract is a premise; deliveries of
  the state machine are not bound to it.
- Guards.ReleaseGuardIsExact: the harm is shown in a state with one job that meets
  every invariant of checked runs; `Witness.CountersCanDrift` reaches such a state from
  the empty store.
- HTTP handlers, OIDC and HMAC verification, body limits, JSON, and base64 of the
  cursor, which is a pair here.
- The matching of error texts (capacity, rate limit, not found): a reply says which
  kind it is.
- poolKey's lower-casing and sorting: a job carries its normalised label set.
- GitHub's registration endpoints, the runner-id cache's use in lookups, durable
  backoff and discovery: the registration is any answer, and RememberRunnerID may
  happen at any time.
- JIT generation and its name-conflict recovery: one step that yields a credential.
- int64 overflow of counters, revision and durations.
- Firestore TTL deletion, schema versions, configuration changes and simulate mode.
- DeleteInstance in the state machine: deleting is one step there; the walk over the
  zones is proved in `Deletion`.
- The cap on orphan deletions per sweep, and the sweep's and the audit's logging.
- Zone-health sensing: the benched set is any set.
- The older stateless handlers and the create path that bypasses the store.
