# Verified models of the MS Realty core

These Dafny modules model the parts of the repository that must not go wrong quietly, and prove what they are for.
Every path below is relative to the repository's root.

| module files | what they model |
|---|---|
| `Routes`, `WatchdogProtocol`, `WatchdogSafety`, `WatchdogAlways`, `WatchdogLate`, `WatchdogRuns`, `WatchdogFence`, `WatchdogTwice`, `WatchdogRounds`, `WatchdogRestored`, `WatchdogLog`, `Watchdog`, `WatchdogExample` | the route-cutover watchdog: its protocol as a timed state machine over durable storage and the provider's tables, what every event keeps, in careful runs and in all, what holds over whole runs, what the release fence gives and where it falls short, how restore rounds end and what a release stands on, the handlers themselves as a class whose log is such a run, and one whole cutover as an example |
| `Operations`, `OperationRuns` | the idempotent operation runner: one call as one transaction, and any interleaving of callers, rollbacks, crashes and reconciliations |
| `ReleaseGates`, `Readiness`, `ReadinessExample` | the release-gate evaluator in separate-reviewers mode, what its snapshots are worth, and a release whose report it refuses |
| `Calendar`, `LocalTime` | staffed time over UTC-hour slices; wall-clock times and the fields that hold them |
| `CanonicalJson`, `Proposals` | canonical JSON text and the approvals bound to it |
| `ArtifactRanges` | the caching byte-range reader |
| `Authorization`, `ClientGrants` | grants, the batch check and the restated grants; what a client's grants can be and reach |
| `Migration`, `MigrationActors` | migration receipts and release activation, as a protocol and as the two actors |
| `Money` | grouped money text |

## How to read the models

*The watchdog.* A `World` is the time and what survives a crash: the stored record, the archive, the alarm, the provider's real tables,
the requests still in the network with the time each was sent, two ledgers (the forward writes ever sent, and the time of the last
undoing write), and whether the wake now running has found the zone it compares back on its baseline. An event is one storage write, one thing the network does, or time passing. A handler that stops half way needs no event
of its own: every prefix of a run is a run. Provider calls may be answered, refused, lost, or arrive later than anyone waits (`Land` and
`Vanish` happen to any request in the network at any time). One thing is assumed of the network: a request arrives or dies within the
60 seconds the fence lasts (`LIFETIME_MS`), so time cannot pass the end of a request's life while it is still under way.

A run is *careful* when its last reservation came at least that long after the last undoing write; the earlier ones may have come at any
time. The code does not ask for this. What acceptance means asks for a careful run, and `WatchdogFence.EarlyReservationExactly` shows that
it must. What a zone can show at any time asks only that the last two reservations were not both early, and
`WatchdogTwice.TwoEarlyReservationsExactly` shows when it is otherwise. Everything else over runs holds for all of them: forward writes,
splices, the fence and what a released lease shows, leases replaced, alarms, rounds, how long acceptance lasts.

The class `RouteWatchdog` runs the handlers statement by statement; its `clock` is what `Date.now()` answers. `Valid()` says that its
ghost log is a careful run of the protocol that leads to the object's present state, so every theorem about runs holds wherever a
handler stops. A handler that reports nothing `disturbed` met no failed call and no request of its own from earlier.

*Values that come from outside.* Signatures, digests, clocks, origin probes, query results and network answers are parameters or
nondeterministic choices. Digests and signature checks are compared as given.

## What turned out not to hold

Each of these is the code as written, with the exact condition under which the promise does hold.

* An open lease is without a pending alarm exactly while the handler that opened it (a reservation, or a restore round that reopens an
  accepted or released lease) has saved it and not yet set the alarm (`WatchdogRuns.UnguardedExactly`). Runs with each of the two gaps:
  `WatchdogRuns.ReservationGap`, `WatchdogExample.AcceptedIsReopened`. Every handler that runs to its end leaves the alarm set.
* `/restore` starts a round even on an accepted or released lease, so `accepted` is not final (gateway/route-watchdog.ts:750-753). An
  accepted lease is still accepted later exactly when no round was started and no lease reserved in between
  (`WatchdogRuns.AcceptedStays`); a run that reopens one is `WatchdogExample.AcceptedIsReopened`.
* A released lease may still have writes in the network. `restoredAt` is set by the first clean round and never again
  (gateway/route-watchdog.ts:691), while later rounds still send undoing writes. Forward writes never outlast the fence
  (`WatchdogRuns.FenceOutlastsForwards`); an undoing write can be left at the release exactly when the last one was sent less than a
  request's lifetime before (`WatchdogFence.StrayExactly`), in all runs. Such a write changes nothing of the released lease's zones. It can take back
  a route of the next lease, even after that lease was accepted, exactly when the next lease is reserved less than a request's lifetime
  after the last undoing write (`WatchdogFence.EarlyReservationExactly`, with the run in `WatchdogFence.Spoilt`).
* A zone of a lease can be something else than its baseline with saved intents applied exactly when the last two reservations both came
  less than a request's lifetime after the last undoing write, the second no sooner after it than the first
  (`WatchdogTwice.TwoEarlyReservationsExactly`, with the run in `WatchdogTwice.Astray`): the undo outlives a lease that was accepted and
  meets the baseline of the next.
* A failed or parked operation receipt is committed together with the command's own writes exactly when the command returned and
  printing its result threw an application error that the runner absorbs: printing happens after the savepoint is
  released (`Operations.WritesSurviveFailure`, `WritesSurviveFailureExample`).
* `evaluateRelease` throws about its own report exactly when every gate passes and the release is not for production; a policy with a
  post-cutover gate never gets there (`Readiness.ReportIsRefusedExactly`). Staging releases that get there,
  for any assertions demanded, legacy gates retained and complete manifest document: `ReadinessExample.RefusedReportExample`; one with
  every assertion a policy must demand and a full document: `ReadinessExample.ShippedIsRefused`.
* Money text is not read back exactly when the group mark is a space and the decimal mark is one of the three spaces taken for one
  another (`Money.FormattedIsReadBack`; one such notation: `Money.ConfusedNotationExample`). `separators` takes both marks from `Intl`
  for one of seven locales (src/i18n/money.ts:5-11). What `Intl` answers is not part of this model, so nothing here says that the code
  ever meets such a pair of marks.
* A prefilled repeated wall time is read back exactly when the occurrence chosen is the recorded one (`LocalTime.PrefillReadsBack`).
  In the hour after clocks go back the wrong choice reads an instant an hour too early, and a field left without a choice is refused
  (`LocalTime.WrongFoldExample`).
* A failed migration receipt is still failed later exactly when the acknowledgement of its start was not lost in between
  (`Migration.FailedStaysExactly`); when it is lost the receipt turns `unknown` (run: `Migration.ForgottenFailure`).
* Client grants are not always record-scoped, as src/server/authz.ts:182 has it. They are exactly when no current relationship of the
  party that confers anything names a resource with an empty id, which `scopedTo` drops
  (`ClientGrants.ClientGrantsAreScopedExactly`, `UnscopedGrantExample`). The column admits such a row and `resolveGrants` reads it, but no
  writer in the repository stores `resources`: src/server/auth/invitations.ts:1110-1128 stores only `capabilities` and
  src/server/inventory/commands.ts:724-742 only a document reference.

## Model

| member | source | states |
|---|---|---|
| `Routes.SameRowsIffSameTable` | gateway/route-watchdog.ts:34-37 | for listings without repeated ids, comparing sorted arrays is comparing the provider's tables, both ways |
| `Routes.SameRowsDistinct` | gateway/route-watchdog.ts:274-279 | a listing equal, after sorting, to one without repeats has none either |
| `Routes.FindIndexHits` | gateway/route-watchdog.ts:572 | `findIndex` answers the first row with the id, and -1 exactly when there is none |
| `Routes.ExpectedIsApplied` | gateway/route-watchdog.ts:567-577 | the array built by splices and pushes has no repeated id or pattern and is, as a table, the baseline overlaid id by id with the intents |
| `Routes.FindIndexNeverMisses` | gateway/route-watchdog.ts:571-575 | wherever an intent replaces a baseline route, the splice finds that very row in the array built so far |
| `WatchdogSafety.NextKeepsInv` | gateway/route-watchdog.ts:281-958 | every event, enabled in a world that satisfies the invariant, leads to one that does, a reservation excepted that comes while an undoing write may still be in the network |
| `WatchdogAlways.InvAlongRun` | gateway/route-watchdog.ts:281-958 | the invariant holds after every run whose last reservation was careful, whatever came before |
| `WatchdogAlways.NextKeepsAlways` | gateway/route-watchdog.ts:281-958 | what holds in all runs is kept by every event, reservations at any time included: times, ledger, the shape of the record, who may be in the network, one pattern for each route id, added patterns absent until intended |
| `WatchdogAlways.RestedStartsClean` | gateway/route-watchdog.ts:304-311 | in every run a reservation a request's lifetime after the last undoing write finds the network empty and the full invariant true |
| `WatchdogLate.NextKeepsLate` | gateway/route-watchdog.ts:545-662 | after a reservation that came early, what is left in the network writes what the zones' baselines have, and every event keeps each zone its baseline with saved intents applied |
| `WatchdogSafety.LandKeepsInv` | gateway/route-watchdog.ts:583-597 | a request arriving at any later time breaks nothing |
| `WatchdogSafety.SaveIntentKeepsInv` | gateway/route-watchdog.ts:579-581 | recording an intent before its write keeps zones, ledger and flight consistent |
| `WatchdogSafety.SendForwardKeepsInv` | gateway/route-watchdog.ts:581-588 | sending the write of the intent just saved keeps at most one such request in the network |
| `WatchdogRuns.LiveIsBaselinePlusIntents` | gateway/route-watchdog.ts:545-662 | after any run whose last two reservations were not both early, each zone of a bound lease is its baseline with some subset of the durably saved intents applied, and nothing else |
| `WatchdogRuns.ForwardSentOnce` | gateway/route-watchdog.ts:554-597 | no two forward writes of a run are for the same operation, zone and pattern |
| `WatchdogRuns.LeaseReplaced` | gateway/route-watchdog.ts:304-311 | in every run a lease is replaced by a reservation alone, once it is accepted or released and archived |
| `WatchdogRuns.OperationsNeverRepeat` | gateway/route-watchdog.ts:306-311 | an operation whose lease was replaced never holds the lease again |
| `WatchdogRuns.NoForwardAfterArmed` | gateway/route-watchdog.ts:545-546 | once a lease has left `armed`, no forward write is ever sent for it again |
| `WatchdogRuns.EveryChangeHasIntent` | gateway/route-watchdog.ts:888-890 | as many intents as planned changes, all for distinct changes, leave no change out |
| `WatchdogRuns.AcceptedShowsWholePlan` | gateway/route-watchdog.ts:804-918 | whenever a lease is accepted in a careful run, every zone shows its baseline with every planned change made and nothing else, said from the plan alone, and nothing is left in the network |
| `WatchdogRuns.AcceptedStays` | gateway/route-watchdog.ts:750-753 | in every run an accepted lease is still accepted later exactly when no restore round was started and no lease reserved in between |
| `WatchdogRuns.FenceOutlastsForwards` | gateway/route-watchdog.ts:919-925 | in every run, once the fence has passed no forward write is in the network, all having been sent before the first clean round ended; what is left are undoing writes of the lease itself, and nothing is left a request's lifetime after the last undo |
| `WatchdogRuns.ReleasedShowsBaseline` | gateway/route-watchdog.ts:919-951 | in every run every zone of a released bound lease is exactly its baseline, and stays so whatever arrives: no forward write is left, and no undo a request's lifetime after the last one |
| `WatchdogFence.StrayExactly` | gateway/route-watchdog.ts:689-691 | for every gap: some run allows a release that long after the last undoing write with something left in the network, exactly when the gap is shorter than a request's lifetime |
| `WatchdogFence.EarlyReservationExactly` | gateway/route-watchdog.ts:304-311 | for every gap: some run whose last lease was reserved that long after the last undoing write ends with it accepted and its plan not shown, exactly when the gap is shorter than a request's lifetime |
| `WatchdogTwice.TwoEarlyReservationsExactly` | gateway/route-watchdog.ts:304-311 | for every two gaps: some run whose last two leases were reserved so long after the last undoing writes ends with a zone that is not its baseline with saved intents applied, exactly when the first gap is no longer than the second and that is shorter than a request's lifetime |
| `WatchdogTwice.Astray` | gateway/route-watchdog.ts:349-483 | such a run: the undo of the first lease outlives the second, which is accepted, and meets the third, which is bound over the second's route |
| `WatchdogFence.Spoilt` | gateway/route-watchdog.ts:689-691 | such a run: a late forward write, an unanswered undo, three clean rounds, release, and a second lease that is accepted and then loses its route |
| `WatchdogRuns.ArmedZoneIsApplied` | gateway/route-watchdog.ts:566-578 | while armed, a zone whose intents are acknowledged is exactly its baseline overlaid with them, so the comparison before a write holds |
| `WatchdogRuns.SplicesNeverMiss` | gateway/route-watchdog.ts:567-577 | in every run, whatever the lease's status, no `findIndex` before a splice answers -1: a route id keeps its pattern |
| `WatchdogRuns.UnguardedExactly` | gateway/route-watchdog.ts:699-707 | in every run an open lease is without a pending alarm exactly when none was set since a reservation or reopening save found none |
| `WatchdogRuns.ReservationGap` | gateway/route-watchdog.ts:335-345 | the run that stops between the two writes of a reservation, in which no alarm is pending |
| `WatchdogRounds.RoundOutcome` | gateway/route-watchdog.ts:606-698 | a round started in any run takes exactly one wake for each intent, zone and host and one to close it, unless it is started again, whatever arrives, is lost, noted or sent meanwhile; it ends `restored` with one more clean read exactly when every wake before the closing one went well, otherwise `reconciliation_required` with none |
| `WatchdogRounds.RoundRuns` | gateway/route-watchdog.ts:621-698 | the same from any moment of a round, with the wakes left then and the failures so far |
| `WatchdogRounds.UndoneIsBaseline` | gateway/route-watchdog.ts:625-655 | a zone all of whose intents are undone is its baseline |
| `WatchdogRounds.CalmRoundRestores` | gateway/route-watchdog.ts:606-698 | a round with no failed call, failed probe or late write ends `restored` with every zone equal to its baseline |
| `WatchdogRounds.RoundStartsCalm` | gateway/route-watchdog.ts:606-619 | every restore round starts in the state that theorem asks for |
| `WatchdogRestored.RestoredReadsAll` | gateway/route-watchdog.ts:664-691 | in every run a round ends `restored` only when every zone was read back to its baseline in that very round |
| `WatchdogRestored.CleanReadsAreRounds` | gateway/route-watchdog.ts:687-691 | in every run as many rounds of the lease ended `restored`, since the last that failed, as clean reads are counted |
| `WatchdogRestored.ReleaseFollowsCleanRounds` | gateway/route-watchdog.ts:919-925 | in every run a release follows three rounds of the lease that ended `restored`, none that failed between them or since, with every zone read back in each |
| `WatchdogProtocol.StaysCareful` | gateway/route-watchdog.ts:281-283 | appending an enabled event other than a reservation to a careful run gives one, and so does a reservation in time after any run |
| `WatchdogLog.ForwardTakesEffect` | gateway/route-watchdog.ts:582-594 | unless the last two reservations were both early, a forward write the provider gets to handle is never refused by its rules, and shows under the id the handler expects |
| `WatchdogLog.ZoneAsExpected` | gateway/route-watchdog.ts:566-578 | in a careful run the listing a handler builds for an armed zone is the listing the provider shows |
| `WatchdogLog.ReplacedListed` | gateway/route-watchdog.ts:628-637 | under the same condition a restoring wake finds a replaced route listed, as it was or carrying its intent, and putting it back is never refused |
| `WatchdogLog.AddedListed` | gateway/route-watchdog.ts:638-650 | under the same condition a restoring wake finds at most one route under an added pattern, and it is the one its intent created |
| `WatchdogLog.BackStays` | gateway/route-watchdog.ts:946-948 | in every run, while a release reads zone after zone, what still arrives undoes no zone already read back |
| `WatchdogLog.FreshKey` | gateway/route-watchdog.ts:554-565 | in every run a change without a saved intent was never sent forward |
| `Watchdog.RouteWatchdog.constructor` | gateway/route-watchdog.ts:230-283 | a new watchdog over sane tables starts an empty run |
| `Watchdog.RouteWatchdog.ReadRoutes` | gateway/route-watchdog.ts:267-280 | a successful read is the zone's table at that moment, without repeats |
| `Watchdog.RouteWatchdog.SendForward` | gateway/route-watchdog.ts:582-594 | one request leaves; an id comes back only if the provider shows the write under it and the request has left the network |
| `Watchdog.RouteWatchdog.Reserve` | gateway/route-watchdog.ts:284-348 | asking for the lease already held changes nothing, a refusal changes nothing, and otherwise the finished lease is archived, the new one stored and its alarm set; after any run the new lease starts a careful one, and finds the network empty, when a request's lifetime has passed since the last undoing write |
| `Watchdog.RouteWatchdog.Bind` | gateway/route-watchdog.ts:349-483 | undisturbed, binds exactly when asked in time with a well-formed approved plan and the provider shows the baseline; always binds only then, and a refusal leaves lease and alarm alone |
| `Watchdog.RouteWatchdog.Mutate` | gateway/route-watchdog.ts:545-605 | sends at most one forward write, never one sent before; answers only with a route that is listed as planned; any doubt starts a restore round; undisturbed, an eligible change is made |
| `Watchdog.RouteWatchdog.StartRestore` | gateway/route-watchdog.ts:606-620 | a bound lease starts a round over everything intended and its next wake is stored; an unbound one is freed |
| `Watchdog.RouteWatchdog.RestoreStep` | gateway/route-watchdog.ts:621-698 | one wake makes one step of the round, reports honestly how it went, and undisturbed does exactly what the calm round's theorem assumes |
| `Watchdog.RouteWatchdog.Alarm` | gateway/route-watchdog.ts:699-712 | ringing uses the alarm up: a finished lease is left alone, a waiting one only re-arms, any other starts or continues a round, and an open lease always keeps an alarm; undisturbed, a wake of a calm round does what the calm round's theorem assumes |
| `Watchdog.RouteWatchdog.RingThrough` | gateway/route-watchdog.ts:621-712 | rung until its round is over, the alarm takes exactly the wakes that are left and ends in one of the two verdicts; undisturbed, the round ends `restored` with every zone showing its baseline |
| `Watchdog.RouteWatchdog.RestoreRequest` | gateway/route-watchdog.ts:750-753 | starts a round unless one is on, whatever the lease's status |
| `Watchdog.RouteWatchdog.Accept` | gateway/route-watchdog.ts:804-918 | accepts only when every intent is acknowledged and every zone is read equal to the plan in time, drops the alarm, and undisturbed accepts whatever it should |
| `Watchdog.RouteWatchdog.Release` | gateway/route-watchdog.ts:919-951 | releases only after the fence with every zone read equal to its baseline, with no forward write left in the network, and undisturbed refuses only if a zone is not back |
| `Watchdog.ExpectedRows` | gateway/route-watchdog.ts:567-577 | the loop of splices and pushes builds the specified listing, and none exactly when an intent of the zone is unacknowledged |
| `Watchdog.PlanIsExpected` | gateway/route-watchdog.ts:891-911 | for an armed lease with every intent acknowledged the built listings are what the provider shows |
| `WatchdogExample.AcceptedIsReopened` | gateway/route-watchdog.ts:750-753 | a run over the two zones a lease is bound to, in which a restore round is started on an accepted lease, and no alarm is pending until it is set |
| `WatchdogExample.AcceptedIsReached` | gateway/route-watchdog.ts:304-918 | a run from nothing stored to an accepted plan over both zones: reserved, bound, intended, sent, applied, acknowledged |
| `Operations.WritesSurviveFailure` | src/server/operations.ts:201-274 | a receipt that is not `succeeded` is committed with the command's writes exactly when the command returned and printing its result threw an error the runner absorbs |
| `Operations.WritesSurviveFailureExample` | src/server/operations.ts:78-80 | one such command |
| `Operations.ButlerAlwaysFails` | src/server/operations.ts:214-222 | a Butler call settles `failed` with a verdict and keeps no write, whatever the authority check answers |
| `Operations.RetryHearsTheSame` | src/server/operations.ts:139-159 | a retry with the same hash is told what the first call was told |
| `Operations.ReconciledSettles` | src/server/operations.ts:343-369 | settling a parked operation keeps its identity and its Butler action and leaves it final |
| `Operations.Database.Run` | src/server/operations.ts:98-280 | one call: pending without the lock; answered from the receipt or turned away when there is one, entering nothing; otherwise the specified commit or rollback, with the command entered once |
| `Operations.Database.FirstCall` | src/server/operations.ts:161-274 | the transaction of a first call commits exactly the specified rows and gives exactly the specified answer |
| `Operations.Database.Execute` | src/server/operations.ts:201-262 | savepoint, settling and catch block together have the specified fate |
| `Operations.Database.DenyButler` | src/server/operations.ts:213-274 | the denial variables add up to the specified verdict and stored failure |
| `Operations.Database.Reconcile` | src/server/operations.ts:331-382 | true exactly when the operation was parked, and then only its receipt changes |
| `OperationRuns.NextKeepsInv` | src/server/operations.ts:98-382 | every step of any caller keeps locks, looked-up rows and receipts consistent |
| `OperationRuns.WritesCommitOnce` | src/server/operations.ts:98-280 | in every reachable world no receipt is in progress and a command's writes are committed at most once per key: exactly when the first call's command returned |
| `OperationRuns.ReceiptsCarry` | src/server/operations.ts:175-193 | settled receipts never change, and a parked one only by the reconciliation that wins |
| `OperationRuns.NeverEnteredAgain` | src/server/operations.ts:113-160 | once a receipt is committed for a key its command is never entered again |
| `OperationRuns.LaterCallsAreToldTheOutcome` | src/domain/operation-receipt.ts:32-41 | whoever looks the key up after it settled is told the stored outcome for the same request and turned away for another, and can do nothing else but crash |
| `OperationRuns.LookUpsAreToldTheReceipt` | src/domain/operation-receipt.ts:32-41 | whoever looks a key up at any time after its receipt was committed is told what the receipt says by then: parked, that the outcome is unknown; settled or reconciled, the stored outcome; with another request, that the key is taken |
| `OperationRuns.ReconciledIsTold` | src/server/operations.ts:343-369 | after the reconciliation that won, every caller with the same request is told its verdict |
| `OperationRuns.OneReconciliationWins` | src/server/operations.ts:336-342 | a parked operation is settled by reconciliation alone, and by one alone |
| `OperationRuns.ButlerNeverRuns` | src/server/operations.ts:213-222 | a Butler operation never enters its command, commits none of its writes and is never parked |
| `OperationRuns.ButlerCallEntersNothing` | src/server/operations.ts:213-222 | a call that is the Butler's by its key or by the authorization it brings enters no command and is bound to settle failed |
| `OperationRuns.ButlerCallsSettleFailed` | src/server/operations.ts:213-222 | a receipt committed by a Butler call, by key or by authorization, stands failed beside no write and is never reconciled |
| `Calendar.OneLocalHour` | src/domain/operating-policy.ts:189-195 | throughout a UTC hour the local date stands still and the local clock runs along |
| `Calendar.WindowInSlice` | src/domain/operating-policy.ts:196-201 | the max/min expression counts the milliseconds of the slice inside one window |
| `Calendar.NextWindow` | src/domain/operating-policy.ts:17-20 | ordered windows are disjoint, so their shares add up |
| `Calendar.SliceMs` | src/domain/operating-policy.ts:196-202 | the inner loop counts the slice's open milliseconds |
| `Calendar.AddSlices` | src/domain/operating-policy.ts:189-204 | the outer loop answers exactly when every day touched is reviewed, with the simple measure |
| `Calendar.CalendarStaffedDuration` | src/domain/operating-policy.ts:162-205 | a known answer is the number of milliseconds whose local time lies in that local day's windows; there is one exactly when the interval is ordered, short enough, inside the reviewed dates and without unreviewed days, and otherwise the reason given is the first of these that fails |
| `Calendar.StaffedTimeAddsUp` | src/domain/operating-policy.ts:150-152 | staffed time over consecutive intervals adds up |
| `Calendar.AnswersAddUp` | src/domain/operating-policy.ts:162-205 | where dates run forward, the answer for an interval is the sum of the answers for its two parts, and there is one exactly when both have theirs and the whole is not too long |
| `LocalTime.ResolvesExactly` | src/domain/time.ts:53-75 | without a choice the answer is nonexistent, resolved or ambiguous exactly when no, one or two whole-second instants show the wall time, and lists exactly those |
| `LocalTime.ChosenExactly` | src/domain/time.ts:69-74 | with a choice, a wall time shown at all resolves to the first or the last instant that shows it, as chosen, and one never shown is nonexistent |
| `LocalTime.GapsAndFolds` | src/domain/time.ts:60-74 | the wall times a clock change skips are nonexistent, those it repeats are ambiguous with the two expected candidates, all others resolve |
| `LocalTime.InstantReadsBack` | src/domain/time.ts:160-169 | a recorded instant is read back to the millisecond with the zone's own offset at it |
| `LocalTime.AcceptedTextComesBack` | src/domain/time.ts:80-91 | the wall time an accepted entry stands for is the text that was typed |
| `LocalTime.PrefillReadsBack` | src/domain/time.ts:170-187 | an untouched prefill gives the recorded instant back exactly when its fold is right |
| `LocalTime.WrongFoldExample` | src/domain/time.ts:170-187 | for every clock change back and every instant of the repeated hour's second showing: left without a choice the field is refused, the earlier is an hour off, the later gives the instant back |
| `LocalTime.FormatCache.ZonePartFormat` | src/domain/time.ts:13-34 | the formatter is always the zone's own; the cache holds at most sixteen and drops the oldest |
| `CanonicalJson.EscapedUnitTells` | src/domain/approval.ts:127-128 | no escaped code unit begins another's text, lone surrogates included |
| `CanonicalJson.EscapedStringTells` | src/domain/approval.ts:128 | an escaped string determines the string and what follows it |
| `CanonicalJson.NumbersTell` | src/domain/approval.ts:128 | a number ends where its units end |
| `CanonicalJson.PrintTells` | src/domain/approval.ts:127-134 | a printed value determines the value and what follows it |
| `CanonicalJson.AscendingTells` | src/domain/approval.ts:130-132 | members sorted by key are determined by what each key says |
| `CanonicalJson.MeaningOfNormal` | src/domain/approval.ts:130-133 | sorting members and dropping undefined ones changes nothing a value says |
| `CanonicalJson.SameMeaningSameNormal` | src/domain/approval.ts:123-126 | values that say the same are brought to the same form |
| `CanonicalJson.CanonicalTextIsContent` | src/domain/approval.ts:123-134 | canonical text is equal exactly when the content is, key order aside |
| `Proposals.MaterialChangesAreTheDifferences` | src/domain/proposal.ts:63-67 | a material field is listed exactly when it differs |
| `Proposals.ApprovalHoldsExactlyWithoutChanges` | src/domain/proposal.ts:52-72 | approval content is equal exactly when no material field changed, which is exactly when only payment basis or inclusions may differ |
| `ArtifactRanges.RangeFor` | scripts/release-ci-archive.py:125-131 | the range asked for covers the read and stays inside the blob |
| `ArtifactRanges.SliceThroughRange` | scripts/release-ci-archive.py:122-124 | a slice taken through a kept range is the same slice of the blob |
| `ArtifactRanges.ArtifactRanges.Seek` | scripts/release-ci-archive.py:108-111 | the position moves as asked and is refused exactly when outside the blob, but kept |
| `ArtifactRanges.ArtifactRanges.Read` | scripts/release-ci-archive.py:116-168 | a read that succeeds returns exactly the pinned version's bytes between the old and the new position; what is covered by the cache costs no request |
| `ArtifactRanges.ArtifactRanges.RetryTransport` | scripts/release-ci-archive.py:45-55 | at most three attempts, after which data is verified or nothing was kept |
| `ArtifactRanges.ArtifactRanges.ReadRange` | scripts/release-ci-archive.py:133-164 | data counts only after budget, range, tag and length; the tag once seen never changes and the budget is never exceeded |
| `Authorization.ResolveGrants` | src/server/authz.ts:134-234 | the loops over rows, relationships, targets and capabilities give the grants the theorems below are about |
| `ClientGrants.ClientGrantsComeFrom` | src/server/authz.ts:169-233 | a client holds a grant exactly when a live stored grant of its own on a named record gives it, or a current relationship of its party does, with its capability, target and expiry |
| `ClientGrants.ClientGrantsAreScopedExactly` | src/server/authz.ts:182-183 | every client grant is scoped to a record exactly when no conferring current relationship names a resource with an empty id |
| `ClientGrants.UnscopedGrantExample` | src/server/authz.ts:221-228 | a guest invited to the case with the empty id may read every case |
| `ClientGrants.ClientGrantsAreInForce` | src/server/authz.ts:131-132 | no grant a client holds has expired |
| `ClientGrants.ClientReachesOnlyWhatIsNamed` | src/server/authz.ts:236-270 | where no conferring relationship names an empty id: whatever a client may do, it is to a record that is not internal, and that record, its case or its property is named by a stored grant or a current relationship |
| `ClientGrants.InternalStaysClosed` | src/server/authz.ts:253-270 | clients and visitors reach no internal record whatever they hold, nor through restated grants |
| `ClientGrants.InvitedStayInThePortal` | src/server/authz.ts:67-88 | with the two floors as shipped, an invited party is conferred portal capabilities alone, none of a principal's, and a specialist only with an expiry |
| `ClientGrants.PrincipalOnlyNeedsPrincipal` | src/server/authz.ts:55-98 | a client who holds a principal's capability has a stored grant of it or a current relationship with a principal's role for it |
| `Authorization.GroupGrants` | src/server/authz.ts:322-327 | the map holds, for each joined staff member, exactly the grants of their rows |
| `Authorization.StaffWhoCan` | src/server/authz.ts:300-336 | the batch answers exactly the ids for which `can` holds for every capability required |
| `Authorization.RestatedGrantsPassExactlyWhenAllowed` | src/server/authz.ts:342-356 | restated grants pass a transition's capability check exactly when the original grants allowed the capability on that record and locale |
| `Authorization.MoreGrantsAllowMore` | src/domain/capabilities.ts:212-235 | adding grants never takes a permission away |
| `Migration.NextKeepsInv` | gateway/production.ts:131-264 | every step of either actor, stop or crash keeps the protocol's invariant |
| `Migration.StartedAtMostOnce` | gateway/production.ts:155-185 | a start is sent at most once for the digest, and a completed receipt has a proof behind it |
| `Migration.StepKeepsReceipt` | gateway/production.ts:135-189 | a receipt never returns to running, never leaves completed, and failed changes exactly when its start is reported unanswered |
| `Migration.FailedStaysExactly` | gateway/production.ts:176-185 | over every run a failed receipt is still failed exactly when its start was not reported unanswered since |
| `Migration.ForgottenFailure` | gateway/production.ts:176-189 | a run in which a stop marks the migration failed and the lost acknowledgement of its start then makes it unknown |
| `Migration.CompletedForever` | gateway/runtime-proof.ts:46 | completed is absorbing over every run |
| `Migration.ActiveOnlyAfterCompletion` | gateway/production.ts:216-226 | a live release stands on a completed migration of the same digest and build, never after a deactivation |
| `Migration.NeverActiveAfterDeactivate` | gateway/production.ts:226-230 | once deactivated, never active again |
| `Migration.OneAttempt` | gateway/production.ts:226-257 | once a launch failed or was cut off the release never becomes active |
| `MigrationActors.ProductionMigrator.RunMigration` | gateway/production.ts:155-185 | stores the receipt before the one start, whatever stops come in between, and only reports when asked again |
| `MigrationActors.ProductionMigrator.Result` | gateway/production.ts:135-154 | answers what is stored; a stop during the network wait is not overwritten; completion needs a proof |
| `MigrationActors.ProductionMigrator.OnStop` | gateway/production.ts:186-189 | a stop moves a running receipt only |
| `MigrationActors.ProductionReleaseControl.Activate` | gateway/production.ts:216-257 | activates only from no record, on a completed migration, with both roles at its nonce |
| `MigrationActors.ProductionReleaseControl.Deactivate` | gateway/production.ts:258-264 | records the stop for good |
| `ReleaseGates.AssessEvidence` | src/release/evaluate.ts:228-282 | counting ids in a map marks exactly the artifacts whose id occurs twice |
| `ReleaseGates.JudgeGates` | src/release/evaluate.ts:370-435 | the status map gives each gate judged by those before it, and the verdict of them all |
| `ReleaseGates.ExpiryTime` | src/release/evaluate.ts:437-446 | the collected times have the specified minimum |
| `ReleaseGates.EvaluateRelease` | src/release/evaluate.ts:284-483 | a report comes out exactly when policy, manifest and file names are valid and the report keeps its own rules |
| `Readiness.SnapshotStaysTrue` | src/release/evaluate.ts:300-446 | every gate that passes also passes when the same inputs are evaluated at any moment before the snapshot's expiry |
| `Readiness.AcceptanceStaysTrue` | src/release/evaluate.ts:456 | an accepted release stays accepted until then |
| `Readiness.ArtifactStays` | src/release/evaluate.ts:203-209 | evidence that counts keeps counting until it is stale or expired |
| `Readiness.GapsClose` | src/release/evaluate.ts:311-357 | with the evidence kept and the clock moved on, a complete release stays complete |
| `Readiness.LifespanIsBounded` | src/release/schemas.ts:572-574 | a snapshot lives longer than no time and at most a day |
| `Readiness.VerdictIsR12` | src/release/schemas.ts:393-417 | the verdict passes exactly when R12 does |
| `Readiness.ReportIsWellFormed` | src/release/schemas.ts:563-608 | the report lists every gate once, maps every legacy gate once, agrees with its blockers, stands on counted evidence and lives at most a day |
| `Readiness.ReportIsRefusedExactly` | src/release/schemas.ts:567-571 | the report is refused exactly when all gates pass outside production, which a post-cutover gate rules out |
| `ReadinessExample.RefusedReportExample` | src/release/schemas.ts:567-571 | a staging release with signed artifacts and a sealed recovery point, for any demanded assertions, retained legacy obligations and complete document, with every gate passing and no gap, whose report is refused |
| `ReadinessExample.ShippedIsRefused` | src/release/schemas.ts:393-417 | one such release: AT01 to AT68 demanded, every legacy gate retained, every field of the manifest known |
| `Readiness.PassMeansKnown` | src/release/evaluate.ts:311-357 | a passing report of a valid manifest stands on a sealed and fresh recovery point, known artifacts and a decision about every legacy gate |
| `Readiness.WalkFindsEveryUnknown` | src/release/evaluate.ts:64-74 | the walk reports nothing exactly when no field is null and no scope list is empty |
| `Money.FormattedIsReadBack` | src/i18n/money.ts:14-58 | every amount up to 2^53-1 is read back from its own text, except that none is where the two marks are confused |
| `Money.ConfusedNotationExample` | src/i18n/money.ts:14-22 | one such notation: no-break spaces between groups, a narrow one before the cents |
| `Money.ShapeIsRead` | src/i18n/money.ts:20-30 | well grouped digits with at most one decimal mark are read as their digits say |
| `Money.OnlyShapesAreRead` | src/i18n/money.ts:20-29 | and nothing else is accepted |
| `Money.SecondDecimalMarkRefused` | src/i18n/money.ts:20-21 | a second decimal mark is refused |
| `Money.MinorToDecimalValue` | src/domain/money.ts:13-19 | whole and fraction name the amount |
| `Money.DecimalToMinorOf` | src/domain/money.ts:4-11 | what canonical decimals are worth, and when they are refused |
| `Money.SplitOfJoin` | src/i18n/money.ts:20-22 | splitting undoes joining |

## Left out

- Watchdog: the rehearsal mode, the journal, `/status`, `/origin` and the service's own authentication are not modelled.
- Watchdog: signatures, hashes, the report's gates and the applied-state digest are one boolean; scope and plan keep only the fields the protocol acts on; zone names and host lists are not modelled. That a lease has exactly two zones is demanded by the class's `Bind`; the protocol's event binds any number of them.
- Watchdog: sorting compares by text in the source; here two listings compare equal when they hold the same rows.
- Watchdog: the runtime retries an alarm whose handler failed, so an alarm counts as pending until a handler replaces or deletes it; running out of retries is not modelled.
- Watchdog: the model assumes that the watchdog is the only writer of routes, that a provider applies or refuses a request when it arrives and answers truthfully about its tables at the moment the answer arrives, that a request arrives or dies in less than 60 seconds, and that clocks do not run backwards.
- Watchdog: how long a wake or a call takes is not modelled: an alarm may ring at any time, and a call may fail at once or never.
- Watchdog.RouteWatchdog.Reserve: after a reservation made sooner than a request's lifetime after the last undoing write the handlers' other promises are not stated until the next careful one, because they can fail then; only that the log is still a run of the protocol.
- Watchdog: storage writes do not fail.
- Operations: field errors and audit rows are not modelled, nor a run nested in a caller's own transaction; the unique index and the two locks behave as the database documents them.
- OperationRuns: receipts are found by key; an operation id stands for its receipt.
- ReleaseGates: the single-operator mode, with its owner's admissions and purposes of keys, is not modelled; sorting files by path, and what the report's legacy table says besides each gate and its approval, are left out, since they only show in the report; digests, keys and signatures are given; legacy gates are numbered; the manifest's document is tied to its artifacts, recovery point and provider accounts, not to the rest.
- Calendar: the schema's text forms are numbers here (minutes after midnight, days since 1970); comparing date texts agrees with comparing days only for years 1000 to 9999. The zone is any function with whole-hour offsets that are constant in each UTC hour.
- LocalTime: civil dates are another spelling of a count of minutes or seconds, so the patterns that recognise texts, the offset's text and years below 100 are not modelled.
- CanonicalJson: numbers are named by the text printed for them, so -0 and 0 are one number; functions, symbols and objects with a `toJSON` are not modelled. The sibling in src/release/signature.ts prints `undefined` differently inside arrays.
- Proposals: state transitions and guards are not modelled.
- ArtifactRanges: closing a response does not fail, waiting between attempts takes no part, and the ZIP reading on top is left out.
- Authorization: the capability catalog is a parameter; of what its presets list, only the two floors of invited parties are stated. Instants are whole milliseconds.
- Migration: a storage read, its computation and its write are one step when no network wait lies between them; grants and private role identities are checked before they get here; the e-mail relay is left out.
- Money: `Intl` is a group mark, a decimal mark and the length from which digits are grouped; every currency has two minor digits.
- The state tables of cases, inquiries, interests, documents, tasks and privacy requests, the pages and message catalogs, and the load and operator scripts are not modelled.
