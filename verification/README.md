# Verified model of rosterbot's delivery, credential and storage protocols

rosterbot is a set of scheduled jobs that manage fantasy rosters. Its hard logic is a group of
small protocols that must keep a promise over many runs while sends, reads, writes and whole
processes fail. This Dafny project models those protocols and proves what they promise.
`dafny verify dfyconfig.toml` checks everything.

Failures are values: each operation takes a description of how the world answers it, and the
theorems quantify over all of them. Code that updates state step by step is a method or a class
proved against a function; the theorems over whole runs are about those functions.

| files | what they model |
|---|---|
| `AlertMarker`, `PickupDigest`, `Pickups`, `PickupTheorems` | check, send, mark alerting; a digest with a size limit; a diff baseline that moves only past delivered items |
| `Connection`, `ConnectClassify`, `ConnectTask`, `TenantRun`, `CredentialRaces` | a tenant's credential record: the verdict on it, a job's use of it, and every interleaving of its writers |
| `GradeWindow` | a grading window derived from what is already stored |
| `Ledger`, `OpsAlert`, `TaskAlerts`, `Drift` | reading the run ledger and alerting once per outage or dead task |
| `TradeLog`, `TradeTheorems`, `Archive`, `Migrate` | a log partition rewritten whole, a staged directory swap, a resumable copy |
| `Accuracy`, `TopLists`, `PoolText`, `AvailablePool`, `Leagues` | grading arithmetic, top lists, the player-pool join, league discovery |
| `Wrappers`, `Sorting`, `Text`, `Traces` | options, sorting and filtering, the string operations of Go used above, runs of steps |

## Where the code and its documentation differ

The model follows the code. The lemmas named here give the failing cases and the conditions
under which the documented promise does hold.

- The ledger's `since` is documented as returning only records started at or after the cutoff; it
  keeps every record whose start does not parse (`Ledger.SinceIsExactlyTheFilter`).
- Relogging is documented as covering only trades that were alerted; a trade marked as stale has a
  marker too and is rebuilt (`TradeTheorems.StaleTradesAreRelogged`, and
  `TradeTheorems.RelogTellsAlertedFromStale` for exactly which relogged rows were alerted).
- A marker store failure is documented as costing at most a duplicate alert; a failed clear
  silences the next outage (`Drift.SilentExactlyWhenNeverCleared`).
- `WritePartition` is documented as atomic; removing the old directory file by file can leave part
  of the new day behind (`Archive.PartialNewPartition`).
- The write consent is documented as lowered before the profile is read; a refused load returns
  with it as it arrived, the credentials gone (`TenantRun.ConsentIsLowered` for exactly when that
  matters, `TenantRun.RefusedLoadKeepsTheFlag` for the case).
- `SendOnce` is documented as reporting whether the send was attempted; it reports false for an
  attempt that failed (`AlertMarker.ReportMeansAttemptExactly` for exactly when the report is
  right, `AlertMarker.RejectedAttemptIsReportedAsNone` for the case).
- The connection store's versions are documented as keeping a verdict off newer credentials; they
  restart when a tenant is deleted and resubmits (`CredentialRaces.DeletionLetsAStaleVerdictLand`),
  and a job run judges credentials from an earlier read than the one it writes over
  (`CredentialRaces.ResubmissionBetweenReadsIsBlamed`).
- Streak verdicts are documented as one per outage; a job with only its newest run in the bounded
  window is announced anew at every failure (`OpsAlert.WindowSufficesExactly`,
  `OpsAlert.SparseJobRepeatsItsAlert`), and a failed task delivered again after its record left the
  window is announced as a crash (`TaskAlerts.SlippedRecordAlertsAsACrash`).
- The drift check's scan is documented as picking the newest successful build; it takes an empty
  commit for none found yet (`Drift.ScanFindsTheNewestExactly`, `Drift.EmptyCommitLetsAnOlderBuildWin`).

## Model

| member | source | states |
|---|---|---|
| `PickupDigest.FitLines` | internal/dynasty/pickups_digest.go:220-230 | the loop shows exactly the longest run of leading lines that fits the budget, and stops at the first that does not |
| `PickupDigest.FormatPickupDigest` | internal/dynasty/pickups_digest.go:171-211 | two passes, with and without room for the "more" trailer, then the channel's truncation |
| `PickupDigest.DigestCarriesExactlyItsPrefix` | internal/dynasty/pickups_digest.go:171-211 | a digest is never cut by the message limit: it carries its first items as whole lines, and the next line had no room |
| `PickupDigest.HeadThatFitsIsShown` | internal/dynasty/pickups_digest.go:185-205 | nothing is shown exactly when there is nothing or the first line alone is too long |
| `PickupDigest.TrailerCountsTheRest` | internal/dynasty/pickups_digest.go:185-213 | a digest that leaves items out says how many, unless its first line fits a message but not one with room for saying so |
| `PickupDigest.TruncateMessage` | internal/pushover/builder.go:45-55 | the loop backs up from the cap to a byte that starts a rune |
| `PickupDigest.TruncateKeepsRunesWhole` | internal/pushover/builder.go:45-55 | a message within the limit is untouched; a longer one keeps its longest beginning that leaves room for the ellipsis and splits no rune |
| `Pickups.FindUnsent` | cmd/football_pickups.go:505-516 | the unsent items are those whose marker could not be read or does not exist, in order |
| `Pickups.AlertPickups` | cmd/football_pickups.go:498-550 | check, send one digest, then mark exactly what it carried; an unshowable head is marked and named instead |
| `Pickups.PollPickups` | cmd/football_pickups.go:434-455 | every league that loads is polled; failed names and counters accumulate; an undrafted league is skipped |
| `Pickups.FinishPickupRun` | cmd/football_pickups.go:209-291 | archive first, then the pointer, and the pointer only when nothing is owed |
| `Pickups.WriteFirstBaseline` | cmd/football_pickups.go:188-198 | the first run writes a baseline and alerts nothing |
| `Pickups.RunFootballPickups` | cmd/football_pickups.go:64-177 | one run over the real store, and when it exits zero |
| `PickupTheorems.PointerNeverPassesAnUndeliveredItem` | cmd/football_pickups.go:209-264 | after any history of failures, a run with a marker store moves the pointer only if every league loaded and every item it detected in a drafted league was in an accepted digest, or was named and its line exceeds the message limit |
| `PickupTheorems.KeysCollideExactly` | cmd/football_pickups.go:505-549 | two leagues can share a marker key exactly when one id with its dash begins the other, so ids without a dash never do |
| `PickupTheorems.HoldingEnds` | cmd/football_pickups.go:236-264 | with a fixed baseline and nothing failing, every backlog drops by one each run, so the pointer moves within as many runs as the largest backlog, or one |
| `PickupTheorems.DryRunChangesNothing` | cmd/football_pickups.go:517-533 | a dry run, the first or a later one, sends, marks, names, archives and stores nothing |
| `PickupTheorems.PollBalances` | cmd/football_pickups.go:434-455 | every unsent item a run finds is in a digest just accepted, just set aside, or counted as owed; a send failed exactly if some league was refused at its turn |
| `PickupTheorems.RunStoresExactly` | cmd/football_pickups.go:209-291 | when a run archives its capture and when the pointer becomes it, from loads, sends, writes and what is owed; markers stay |
| `PickupTheorems.PointerIsArchived` | cmd/football_pickups.go:266-291 | over every run the diff baseline is a capture that was archived |
| `PickupTheorems.ExitsZeroExactly` | cmd/football_pickups.go:144-186 | when a run exits zero: every league loaded, none refused, and everything due was stored |
| `PickupTheorems.WithoutMarkersOnlyRetriesHold` | cmd/football_pickups.go:236-264 | without a marker store the pointer moves exactly when every league loads and every message that would be sent is accepted; an unsent tail never holds it |
| `PickupTheorems.SentDigestsCarryWholeLines` | cmd/football_pickups.go:528-549 | every digest ever sent contains, uncut, the line of each item it is credited with |
| `PickupTheorems.MarkersHoldTheLine` | cmd/football_pickups.go:528-549 | over every run a marker holds the very line an accepted digest carried under its key, or a run set aside |
| `AlertMarker.Marker.Token` | internal/alertmarker/alertmarker.go:92-105 | a marker's trimmed body; a failed read is no marker |
| `AlertMarker.Marker.Record` | internal/alertmarker/alertmarker.go:120-127 | a failed write leaves the marker as it was |
| `AlertMarker.Marker.Send` | internal/alertmarker/alertmarker.go:132-138 | send, then mark; nothing is marked on a failed send |
| `AlertMarker.Marker.SendOnce` | internal/alertmarker/alertmarker.go:143-151 | gated on no marker: the world it leaves, and both results, pinned to whether the gate let the send through and the channel took it |
| `AlertMarker.ReportMeansAttemptExactly` | internal/alertmarker/alertmarker.go:140-151 | the result says whether the send was attempted if and only if the marker could be read and exists, or the channel accepts |
| `AlertMarker.RejectedAttemptIsReportedAsNone` | internal/alertmarker/alertmarker.go:140-151 | the failing case, by running the method: attempted, rejected, reported as not attempted |
| `AlertMarker.Marker.SendOnChange` | internal/alertmarker/alertmarker.go:157-165 | gated on the token having changed |
| `AlertMarker.MarkerMeansDelivered` | internal/alertmarker/alertmarker.go:92-165 | under every pattern of faults, a stored marker carries the note of an earlier confirmed send |
| `AlertMarker.NeverSilenced` | internal/alertmarker/alertmarker.go:92-165 | a call that stays silent has an earlier confirmed delivery to point to |
| `AlertMarker.SendOnceExactlyOnce` | internal/alertmarker/alertmarker.go:143-151 | over a working store, exactly one delivery per key if any send is accepted, else none |
| `AlertMarker.SendOnChangeNeverRepeats` | internal/alertmarker/alertmarker.go:157-165 | over a working store, the same token is never delivered twice running and the marker holds the latest |
| `AlertMarker.DeathBetweenSendAndMarkRepeats` | internal/alertmarker/alertmarker.go:132-138 | the hypothesis that the process survives is needed: one death makes SendOnce deliver twice |
| `Connection.Store.Put` | internal/lineupapi/ddbuser/ddbuser.go:790-847 | the compare-and-set: create over nothing, migrate an unversioned record, or advance the version read; otherwise a conflict, and nothing changes but on success |
| `Connection.GrantIsTheVerifiedRecord` | internal/lineupapi/rungrant.go:61-97 | a run is granted exactly for a tenant's own verified and complete record, with that record's team and blobs |
| `Connection.DenialNamesTheReason` | internal/lineupapi/rungrant.go:61-97 | a refused run is told the first thing that stands in the way |
| `ConnectTask.PasswordIsBlamedExactlyOnEvidence` | cmd/connect_classify.go:171-219 | a task stores the bad-password verdict exactly when the form said so, or a cookie came back with neither an account nor an error to explain it, and nothing stood in front of the form |
| `ConnectClassify.ProofIsTheCookie` | cmd/connect_classify.go:171-235 | a login proof accompanies exactly success and the post-login class, and is the cookie |
| `ConnectClassify.BlockedExactly` | cmd/connect_classify.go:134-175 | what counts as a bot challenge: the probe, or one of the four titles |
| `ConnectTask.Task.Write` | cmd/connect.go:208-224 | stamp and put in one write, over whatever another writer left meanwhile |
| `ConnectTask.Task.RecordFailure` | cmd/connect.go:328-402 | the four failure routes: status, class, stamp, write and exit |
| `ConnectTask.Task.RecordCheckFailed` | cmd/connect.go:425-447 | a check that never ran is written onto the record read back, or onto a bare one when there is none |
| `ConnectTask.Task.RecordOwnershipFault` | cmd/connect.go:532-540 | only the three team classes demote |
| `ConnectTask.Task.FinishProven` | cmd/connect.go:543-631 | after an accepted sign-in: team list, ownership, claim, seal |
| `ConnectTask.Task.RecordVerified` | cmd/connect.go:881-897 | the verified write, refused without a proven team or a sealed session |
| `ConnectTask.Task.Connect` | cmd/connect.go:450-505 | one connect task against the store, and an environment left empty on every path |
| `ConnectTask.GuardsAreUnreachable` | cmd/connect.go:328-402 | the guards against a missing login proof, a non-ownership class and a missing team never fire; the session guard fires exactly on an empty seal |
| `ConnectTask.ReconnectAfterLoginOnlyForTheTeam` | cmd/connect.go:532-631 | once signed in, the tenant is told to reconnect exactly when Fantrax's list or another account's claim says the team is not theirs, and which of the three classes it is |
| `ConnectTask.InterruptedNeedsACookie` | cmd/connect.go:328-402 | interrupted is only written on a session cookie Fantrax issued |
| `ConnectTask.VerifiedIsProven` | cmd/connect.go:543-631 | a task ends connected exactly when login, team, claim and seal all stand, and only then does a record become verified |
| `ConnectTask.VerifiedRecordIsWhole` | cmd/connect.go:881-897 | what a connected task stores, field by field: the account and email Fantrax named, the sealed session, the time, its stamp, and the rest of the record it read |
| `ConnectTask.FailedRecordIsWhole` | cmd/connect.go:328-402 | what a task that does not connect stores, if anything: the record it read with a class, the status of that class, and a stamp that says so |
| `ConnectTask.FailedCheckIsWhole` | cmd/connect.go:425-447 | a check that could not read the record stores the same onto what it reads back, or onto a bare record |
| `ConnectTask.StageNamesTheStep` | cmd/connect.go:524-631 | a failure after an accepted sign-in names the step that broke, exactly |
| `ConnectTask.GuardsRefuse` | cmd/connect.go:328-402 | the guards themselves, for any caller |
| `ConnectTask.ExitTellsTheStore` | cmd/connect.go:208-224 | the task ends as unwritable exactly when it had something to write and the store failed; a lost race changes nothing about how it ends |
| `ConnectTask.DecisionsKeepCredentials` | cmd/connect.go:208-224 | no decision changes the sealed credentials, the owner or the version |
| `ConnectTask.PagesWhoCanAct` | cmd/connect.go:328-402 | the exit code is zero exactly on an unproven login only the tenant can put right, or a proven one settled by its team, claim and seal; a block pages the operator and leaves the status |
| `TenantRun.ApplyTenantCredentials` | cmd/tenantcreds.go:135-213 | the operator's credentials are cleared first, then replaced by this tenant's or by nothing |
| `TenantRun.TenantRunConfig` | cmd/tenantcreds.go:95-118 | the same, with the write consent lowered and raised only from the profile |
| `TenantRun.Mint` | cmd/connect.go:643-685 | what the login leaves in the environment |
| `TenantRun.StopRun` | cmd/session_ladder.go:207-325 | a failed re-login: one conditional write, an empty environment, and who is told |
| `TenantRun.RefreshSession` | cmd/session_ladder.go:122-195 | the whole ladder over probe, second read, re-login, seal and store failures |
| `TenantRun.ResolveTenantCredentials` | cmd/tenantcreds.go:30-70 | load, then ladder; the settings, the environment and the record it leaves |
| `TenantRun.LoadIsolates` | cmd/tenantcreds.go:95-236 | whatever secrets the process started with, it holds this tenant's afterwards or none; any at all exactly on success, and then the record is this tenant's verified one |
| `TenantRun.RefreshIsolates` | cmd/session_ladder.go:122-195 | the ladder keeps that, and a failed re-login leaves the environment empty |
| `TenantRun.EveryPathIsolates` | cmd/tenantcreds.go:30-70 | both together, from the operator's secrets to the end of setup |
| `TenantRun.LoadSucceedsExactly` | cmd/tenantcreds.go:135-213 | the load succeeds exactly when the record is read and grants the run, its blob opens for this tenant, and both texts are there |
| `TenantRun.LoadInstallsWhatWasOpened` | cmd/tenantcreds.go:135-236 | the user name and the password the blob held each in its own variable, the stored session as the cookie, the record's team in the settings |
| `TenantRun.QuotesDoNotMatter` | cmd/tenantcreds.go:246-254 | a session value makes the same header wrapped in quotes or not |
| `TenantRun.RenewalInstallsTheNewCookie` | cmd/session_ladder.go:140-194 | after a renewal the environment holds the run's own user name and password and the cookie Fantrax just issued |
| `TenantRun.NextRunUsesTheRenewedSession` | cmd/session_ladder.go:140-194 | a round trip over two runs: the session one run renewed, sealed and stored is what the next signs in with |
| `TenantRun.LadderEndsExactly` | cmd/session_ladder.go:122-325 | whether the run goes on, what the record becomes and whether the tenant is told, from the probe, the second read, the evidence, the store and another writer |
| `TenantRun.ConsentIsLowered` | cmd/tenantcreds.go:95-118 | a load that will succeed leaves the write consent exactly the profile's, one that will not leaves it as it arrived: it is never true without a load and a consent if and only if the load will succeed or it arrived false |
| `TenantRun.RefusedLoadKeepsTheFlag` | cmd/tenantcreds.go:95-118 | the case where it does: refused, credentials gone, flag still true |
| `TenantRun.DemotionStopsLaterRuns` | cmd/session_ladder.go:207-325 | a stored tenant failure refuses every later run, and no other outcome does but an empty seal |
| `CredentialRaces.EveryRunIsLawful` | internal/lineupapi/credentials.go:309-345 | in every interleaving of submissions, connect tasks, ladders and deletions, every landed write met the record it read unless a deletion intervened, and history marks tell the rest |
| `CredentialRaces.WritersKeepTheCredentials` | cmd/connect.go:208-224 | a verdict or session lands on exactly the record it read and keeps its credentials, unless the tenant was deleted in between |
| `CredentialRaces.CredentialsChangeExactlyOnSubmission` | internal/lineupapi/ddbuser/ddbuser.go:781-847 | credentials are replaced by such a write exactly when a submission landed since its read |
| `CredentialRaces.VerdictStandsBesideWhatItJudged` | cmd/connect.go:450-505 | a connect verdict is stored beside the credentials its task read, opened and signed in with, whatever landed in between |
| `CredentialRaces.SessionStandsBesideWhatItJudged` | cmd/session_ladder.go:140-194 | unless a deletion interferes, a ladder's write stands beside the credentials its run judged exactly when no submission landed after the first read, and keeps team, stamp and credentials |
| `CredentialRaces.PureUntilTheFirstDeletion` | internal/lineupapi/ddbuser/ddbuser.go:484-553 | until a tenant is deleted nothing interferes |
| `CredentialRaces.SubmissionsRespectTheGuard` | internal/lineupapi/connect.go:78-152 | a submission never replaces a verification in flight, lost races included, and stores its own credentials and its own request's team |
| `CredentialRaces.SubmissionsStoreTheirOwnRequest` | internal/lineupapi/connect.go:105-129 | over every run, a landed submission leaves exactly the record its own request asked for and nothing of any earlier record |
| `CredentialRaces.SubmissionIsLetInExactly` | internal/lineupapi/connect.go:255-271 | a submission is let in exactly outside a ten-minute verification and a one-minute cooldown |
| `CredentialRaces.LostRacesAreRetried` | internal/lineupapi/connect.go:118-165 | a lost race is tried again until the fifth, over a fresh read, and lands if nothing comes between |
| `CredentialRaces.WritesAdvanceTheVersion` | internal/lineupapi/ddbuser/ddbuser.go:790-847 | with no deletion between, every landed write carries one more than the version it replaced |
| `CredentialRaces.UninterruptedVerdictLands` | cmd/connect.go:450-505 | with nothing between, a connect task's decision is what is stored |
| `CredentialRaces.UninterruptedCheckLands` | cmd/connect.go:425-447 | a check that could not run is stored the same way |
| `CredentialRaces.UninterruptedLadderLands` | cmd/session_ladder.go:140-194 | and a job's session or verdict |
| `CredentialRaces.UninterruptedSubmissionLands` | internal/lineupapi/connect.go:105-129 | and a submission |
| `CredentialRaces.ResubmissionBetweenReadsIsBlamed` | cmd/session_ladder.go:287-325 | the hypothesis is needed: for any tenant failure, a submission between the two reads is marked as needing a reconnect although never judged |
| `CredentialRaces.DeletionLetsAStaleVerdictLand` | internal/lineupapi/ddbuser/ddbuser.go:484-553 | deleting and resubmitting restarts the versions, so an older verdict overwrites the new credentials |
| `GradeWindow.LatestGradedDay` | cmd/grade.go:67-86 | the newest parseable day, or none |
| `GradeWindow.CountDays` | cmd/grade.go:91-97 | the number of days in the range, by stepping |
| `GradeWindow.ResolveGradeWindow` | cmd/grade.go:167-225 | the derived window, its cap and its refusal, as it reassigns its bounds |
| `GradeWindow.WindowReachesTheNewestDay` | cmd/grade.go:167-225 | every day after the newest stored one is re-graded or named as capped; the fixed days always are re-graded, and only they over an empty store; reaching back never touches a held day |
| `GradeWindow.GradeStore.GradeRun` | cmd/grade.go:311-405 | one default run: read coverage, resolve, write each gradeable day |
| `GradeWindow.NoRunLeavesASilentHole` | cmd/grade.go:99-225 | over every sequence of missed, refused and completing runs with any flags, a gradeable day between two graded ones is graded or was printed as capped |
| `GradeWindow.OutageWithinTheCeilingHeals` | cmd/grade.go:167-225 | one completing run makes up for any outage within the ceiling, and nothing is capped exactly then |
| `GradeWindow.LostDaysStayLost` | cmd/grade.go:99-165 | a day lost behind the newest one is never graded or named by any later run |
| `GradeWindow.FallbackLosesTheOutage` | cmd/grade.go:185-202 | grading fixed days on an unreadable store would lose every older day of the outage for good; the refusal changes nothing |
| `GradeWindow.FallbackHoleIsReachable` | cmd/grade.go:185-202 | such a hole is reached from an empty store in three runs |
| `GradeWindow.PartialWriteLosesDays` | cmd/grade.go:411-432 | that a completing run writes its whole window is needed: after one that stored only its newest day, no later run of no wider window ever grades or names the others |
| `Ledger.Keys` | opsnotify/ledger.go:107-129 | the newest record keys of the walk, in order |
| `Ledger.ListingOrderDoesNotMatter` | opsnotify/ledger.go:90-129 | partitions and listing order do not change which keys are newest |
| `Ledger.NewestAreNewest` | opsnotify/ledger.go:107-129 | listed keys are in order, and any record key left out comes after all of them |
| `Ledger.RecordNamesExactly` | opsnotify/ledger.go:64-79 | a record's file name is digits, a dash, a name and the extension, and nothing else |
| `Ledger.RunKeysAreRecordKeys` | opsnotify/ledger.go:64-79 | a run key is recognised in any partition exactly when it names a run |
| `Ledger.SameRunKeyTiesByPartition` | opsnotify/ledger.go:107-129 | one run key in two partitions is listed flat first |
| `Ledger.WholeKeysWouldHideTenants` | opsnotify/ledger.go:90-99 | of a flat run and a later one of any tenant, whole-key order puts the older first and basename order the newer |
| `Ledger.Fetch` | opsnotify/ledger.go:135-164 | concurrent fetches keep the key order and drop the unreadable, whatever order they complete in |
| `Ledger.Since` | opsnotify/ledger.go:187-210 | the chunked loop that stops after the chunk that reached past the cutoff |
| `Ledger.SinceIsTheFilter` | opsnotify/ledger.go:187-210 | on time-ordered keys its dated records are exactly those started since the cutoff |
| `Ledger.SinceIsExactlyTheFilter` | opsnotify/ledger.go:197-204 | it equals the plain filter if and only if no fetched record lacks a start: an undated record is kept, however old |
| `Ledger.ReadStopsWithinAChunk` | opsnotify/ledger.go:187-210 | at most one chunk is fetched past the first record known to be before the cutoff |
| `Ledger.UndatedRecordIsKept` | opsnotify/ledger.go:197-204 | the failing case: one undated record is returned whatever the cutoff |
| `Ledger.RunKeyOrder` | internal/lineupapi/runs.go:24-30 | zero padding makes the text order of run keys the reverse order of their starts |
| `Ledger.NewestAreTimeOrdered` | opsnotify/ledger.go:52-63 | keys stored by run key come newest first across all partitions |
| `Ledger.HeartbeatReadIsComplete` | opsnotify/ledger.go:175-210 | end to end over any listing of any partitions |
| `OpsAlert.CountLeadingFailures` | internal/opsalert/streak.go:214-223 | consecutive failures from the newest |
| `OpsAlert.JudgeStreak` | internal/opsalert/streak.go:157-195 | the streak verdict, as its loops compute it |
| `OpsAlert.StreakIsolatesTenants` | internal/opsalert/streak.go:111-133 | only a tenant's own terminal runs of the command can change their verdict |
| `OpsAlert.SetAsideRunsAreNoEvidence` | internal/opsalert/streak.go:143-212 | a success that left the tenant to act is silent as the newest run and changes no verdict behind one; every other run counts, whatever its outcome |
| `OpsAlert.OneAlertPerOutage` | internal/opsalert/streak.go:128-156 | over the maximal runs of failures of any history, tenant faults aside: one Started each, one Escalated per run of three or more, one Recovered per run that ended |
| `OpsAlert.WindowSufficesExactly` | opsnotify/ledger.go:14-18 | the window's verdict on a job it shows is the whole ledger's if and only if its newest run is a tenant fault, or the window holds an older run that did not fail, or the runs behind it do not begin with a failure |
| `OpsAlert.SparseJobRepeatsItsAlert` | opsnotify/ledger.go:14-18 | the failing case: one more failure of an outage under way is announced as new by a window that shows only it, and would not be by the whole ledger |
| `TaskAlerts.Failed` | opsnotify/task.go:45-55 | failed exactly when some container did not exit zero, or there is none |
| `TaskAlerts.TerminalRecord` | opsnotify/task.go:201-208 | the first finished record of the id |
| `TaskAlerts.HandleTask` | opsnotify/task.go:117-184 | one delivery over the markers and the channel |
| `TaskAlerts.KeysAreInjective` | opsnotify/task.go:85-87 | no two tasks share an alert key |
| `TaskAlerts.OneAlertPerTask` | opsnotify/marker.go:108-130 | over any deliveries of any tasks, a task's alert is delivered once if any asking delivery is accepted, else never |
| `TaskAlerts.CrashedTaskIsHeardOnce` | opsnotify/task.go:149-157 | a task that died without its terminal record is alerted exactly once as soon as one delivery can read the ledger and reach the channel |
| `TaskAlerts.CrashedTaskKeepsTrying` | opsnotify/task.go:149-157 | until then every delivery attempts it, afterwards none |
| `TaskAlerts.RecordedRunAsksExactly` | opsnotify/task.go:135-184 | a stop whose run has its record is announced exactly as the newest run of its job deserves: first failure, third, first success behind one |
| `TaskAlerts.FinishedRunIsHeardOnce` | opsnotify/task.go:170-184 | over any deliveries and working markers, a finished run worth announcing is announced once as soon as one delivery can read the ledger and reach the channel, and no other ever is |
| `TaskAlerts.HistoryIsAnnounced` | opsnotify/task.go:170-184 | over a job's whole history the messages sent are one per outage, one more for each of three runs or longer, and one for each that ended |
| `TaskAlerts.SuccessWithoutRecordIsSilent` | opsnotify/task.go:158-168 | a success that lost its record never alerts, whatever the markers and the channel do |
| `TaskAlerts.SlippedRecordAlertsAsACrash` | opsnotify/task.go:135-168 | a failure rightly left quiet is announced as a crash, over working markers, when its stop is delivered again after its record left the window |
| `Drift.Alarm` | opsnotify/drift.go:195-216 | the once-per-episode alarm over marker and channel |
| `Drift.Clear` | opsnotify/drift.go:257-263 | a standing alarm's marker is overwritten, anything else left alone |
| `Drift.MarkerStandsExactly` | opsnotify/drift.go:195-263 | whatever fails, the marker stands exactly when a recorded alarm has not been cleared since |
| `Drift.MarkerIsNeverRemoved` | opsnotify/drift.go:195-263 | there is a marker exactly when an alarm was ever recorded, holding its text or that of a tick that cleared it |
| `Drift.SilentExactlyWhenNeverCleared` | opsnotify/drift.go:252-263 | a bad tick is silent exactly when its read works and no good tick since the last recorded alarm managed to clear it |
| `Drift.RejectedSendsOnlyDelay` | opsnotify/drift.go:210-215 | a run with rejected sends ends as the run without them, so every outage is tried again as if for the first time |
| `Drift.OneAlarmPerOutage` | opsnotify/drift.go:188-308 | with working markers, one alarm per stretch that reached the channel; disabled ticks do not end one |
| `Drift.EveryOutageAlarms` | opsnotify/drift.go:188-308 | with working sends too, one alarm per maximal bad stretch |
| `Drift.TokensAreSound` | opsnotify/drift.go:285-308 | the alarms' texts meet the conditions, except for a project itself called "dark" |
| `Drift.FailedClearSwallowsTheNextOutage` | opsnotify/drift.go:252-263 | one failed clear loses the next outage, over sends that never fail |
| `Drift.HandleDrift` | opsnotify/drift.go:217-250 | one tick of the drift alarm: the finding, its grace, the marker's answer and the send |
| `Drift.OneDriftAlarmPerBaseline` | internal/opsalert/drift.go:65-142 | with working markers and sends the alarms are exactly the baselines the findings were made against, adjacent repeats told once, and lost sight of the builds told only if it comes first, however far main moves |
| `Drift.AlarmsExactlyWhen` | internal/opsalert/drift.go:91-142 | after any looks, which next one alerts: from the head, its date, the half hour, the built commit and the last alarm |
| `Drift.NewestSuccessfulBuild` | opsnotify/drift.go:141-180 | the scan over builds in any order, as its loop computes it |
| `Drift.ScanFindsTheNewestExactly` | opsnotify/drift.go:163-179 | it is the newest successful build's commit if and only if some newest one names a commit; with no candidate it is empty |
| `Drift.EmptyCommitLetsAnOlderBuildWin` | opsnotify/drift.go:175-177 | the failing case: a newest build whose commit is recorded empty loses to an older one |
| `TradeLog.GradeAndAlertTrades` | cmd/football_trades.go:283-378 | the check, send, mark loop of one league, its rows and counts |
| `TradeLog.PollLeagues` | cmd/football_trades.go:216-237 | every league that loads, accumulated |
| `TradeLog.RelogRows` | cmd/football_trades.go:398-426 | rows for exactly the trades whose marker could be read |
| `TradeLog.MergeTradeLog` | internal/dynasty/trade_log.go:200-218 | a keyed union, sorted by id, prior rows winning |
| `TradeLog.LogStore.Append` | cmd/football_trades.go:505-522 | the day's partition becomes the merge, no other partition changes, and the count is what was added |
| `TradeLog.MergeGrows` | internal/dynasty/trade_log.go:187-218 | a merge drops nothing, overwrites nothing, and adds one row per new id |
| `TradeTheorems.PollAccountsForEveryTrade` | cmd/football_trades.go:216-378 | every trade of a loaded league is counted once; alerts, rows and sends agree |
| `TradeTheorems.LogTellsWhatWasAlerted` | cmd/football_trades.go:283-446 | over every run of polls and relogs, a captured row was sent on its day, and a relogged one carries the very verdict that was told, unless its marker says stale |
| `TradeTheorems.FreshTradesAreAlerted` | cmd/football_trades.go:283-378 | after any runs, a poll leaves no trade of a loading league unannounced if the channel takes it, unless it is older than fourteen days or was when first seen |
| `TradeTheorems.EverySendIsLogged` | cmd/football_trades.go:362-446 | everything a poll sends is in that day's log when the log can be written |
| `TradeTheorems.RowsAreTheSends` | cmd/football_trades.go:362-376 | the rows a poll hands to the log are exactly its sends, in order |
| `TradeTheorems.EverySendIsOfATrade` | cmd/football_trades.go:352-376 | whatever a poll sends is about a trade of a league that loaded: its id, its completion, the verdict on it, now |
| `TradeTheorems.TradeIsCountedAs` | cmd/football_trades.go:293-376 | which trade counts as skipped, stale, graded and alerted |
| `TradeTheorems.DryRunChangesNothing` | cmd/football_trades.go:320-352 | a dry run, poll or relog, sends, marks and logs nothing |
| `TradeTheorems.NoTradeIsSentTwice` | cmd/football_trades.go:283-378 | with working markers no trade is ever sent twice |
| `TradeTheorems.NoStaleTradeIsSent` | cmd/football_trades.go:301-347 | no trade older than the window, by completion, is ever sent |
| `TradeTheorems.NoRowIsEverLost` | cmd/football_trades.go:469-522 | a row once logged is there for good, unchanged |
| `TradeTheorems.SecondRelogAddsNothing` | cmd/football_trades.go:398-446 | a second relog of trades the first could rebuild changes nothing |
| `TradeTheorems.RelogTellsAlertedFromStale` | cmd/football_trades.go:381-426 | with working markers a relogged row's trade was alerted exactly when the summary it carries is not the stale note |
| `TradeTheorems.StaleTradesAreRelogged` | cmd/football_trades.go:398-426 | a trade passed over as stale is rebuilt into the log although never alerted |
| `Archive.FileStore.WritePartition` | internal/archive/archive.go:70-88 | what is on disk wherever the writer stops, and that it finishes exactly when it is let |
| `Archive.CrashLeaves` | internal/archive/archive.go:70-88 | after any step the final path holds the old partition, what is left of it, nothing, or exactly the new one |
| `Archive.NothingIsThereBeforeTheSwap` | internal/archive/archive.go:84-87 | the swap comes last, and just before it the final path holds nothing |
| `Archive.NeverAMix` | internal/archive/archive.go:66-88 | no crash mixes the two days |
| `Archive.RerunRecovers` | internal/archive/archive.go:66-88 | a re-run from any crash state, staging included, ends with exactly the new set |
| `Archive.PartialNewPartition` | internal/archive/archive.go:84-87 | a proper part of the new set can be left at the final path exactly when the days share a file and the new one has another |
| `Archive.Get` | internal/archive/archive.go:116-159 | at most four attempts; only transport errors and 5xx are retried; how it ends |
| `Migrate.PerTenantPrefixes` | cmd/migrate_tenant_state.go:89-101 | each per-tenant prefix once |
| `Migrate.Bucket.EachKey` | cmd/migrate_tenant_state.go:167-186 | every key under the prefix, page after page |
| `Migrate.Bucket.MigrateOnePrefix` | cmd/migrate_tenant_state.go:105-159 | only copies of due objects, settled when it finishes; a dry run writes nothing and counts the same |
| `Migrate.CopiesAreFiled` | cmd/migrate_tenant_state.go:126-131 | a copy is filed under the tenant and never due again |
| `Migrate.MigrateAll` | cmd/migrate_tenant_state.go:49-84 | wherever it is cut off no existing object changes; with prefixes not nested, only due copies appear, and all of them once it finishes |
| `Migrate.SecondRunCopiesNothing` | cmd/migrate_tenant_state.go:110-119 | over a settled bucket a run changes nothing |
| `Migrate.ResumedEqualsUninterrupted` | cmd/migrate_tenant_state.go:110-119 | a run cut off after any copy and resumed ends with the very bucket of an uninterrupted one |
| `Migrate.LayoutIsNotNested` | internal/statestore/layout/layout.go:110-191 | no prefix of the layout's migrated artifacts lies inside another |
| `Migrate.NestedPrefixCopiesACopy` | cmd/migrate_tenant_state.go:126-131 | with one prefix inside another a copy is itself copied, under two user segments |
| `Accuracy.AccuracyStats` | internal/backtest/backtest.go:794-809 | the means its loop computes |
| `Accuracy.SquareOfSum` | internal/backtest/backtest.go:794-809 | the square of the summed errors is at most the count times the summed squares |
| `Accuracy.BiasWithinMaeWithinRmse` | internal/backtest/backtest.go:794-809 | bias within mean error within root mean square |
| `Accuracy.EveryBucketIsReported` | internal/backtest/backtest.go:812-825 | every player falls in a reported bucket of the right kind |
| `Accuracy.BucketIsExactly` | internal/positions/positions.go:76-96 | which bucket: a pitcher by role, a hitter by the scarcest place he is eligible for |
| `Accuracy.AccuracyByPosition` | internal/backtest/backtest.go:1047-1062 | one line per non-empty bucket, in order |
| `Accuracy.LinesAreTheBucketsWithPlayers` | internal/backtest/backtest.go:1047-1062 | a line for each bucket some player-day is in, no other, in display order |
| `Accuracy.BucketsRecombine` | internal/backtest/backtest.go:1016-1062 | counts, and count-weighted errors and biases, recombine to the overall figures |
| `Accuracy.EveryAnalysisRecombines` | internal/backtest/backtest.go:765-825 | so they do for all player-days whose bucket is worked out from the player's role and eligibility, with no assumption on the buckets |
| `TopLists.GuardOptimal` | internal/backtest/backtest.go:342-351 | the graded optimum is never below the actual score by more than the guard, and is the given one exactly when that is not |
| `TopLists.RunLineupAnalysis` | internal/backtest/backtest.go:286-333 | actual points are those of the started players, the optimum is the given one unless they beat it by more than the rounding guard, and the gap is never positive beyond that |
| `TopLists.TopBenchCumulative` | internal/backtest/backtest.go:985-1014 | distinct players with a positive net total over all bench days, best first, and no omitted one ranks ahead |
| `TopLists.TopSignedMisses` | internal/backtest/backtest.go:832-854 | the n largest misses, equal sizes by player id, ordered by sign: everything listed ranks before everything left out |
| `PoolText.StripTags` | internal/availablepool/availablepool.go:370-386 | the text outside every tag |
| `PoolText.StripLeavesNoMarkup` | internal/availablepool/availablepool.go:370-386 | no angle bracket survives |
| `PoolText.StripIsIdempotent` | internal/availablepool/availablepool.go:370-386 | stripping twice is stripping once |
| `PoolText.TagIsDropped` | internal/availablepool/availablepool.go:370-386 | a tag goes whatever it says, and the text on both sides stays |
| `PoolText.NestedTagIsDropped` | internal/availablepool/availablepool.go:370-386 | so does a tag inside a tag, up to its own end |
| `PoolText.ParsePositions` | internal/availablepool/availablepool.go:357-368 | the trimmed, non-empty pieces |
| `PoolText.PositionsAreClean` | internal/availablepool/availablepool.go:357-368 | no position carries markup, a comma or stray space |
| `PoolText.PositionsReadBack` | internal/availablepool/availablepool.go:357-368 | any list of clean positions written with commas reads back as it was |
| `PoolText.StatusIsClean` | internal/availablepool/availablepool.go:317-346 | an unowned status comes out as one of two words, a weekday without markup |
| `PoolText.WeekdayIsInParentheses` | internal/availablepool/availablepool.go:331-346 | the weekday is what the first parentheses hold, and without any there is none |
| `PoolText.FirstRanked` | internal/availablepool/availablepool.go:306-313 | the first non-zero entry, or the length |
| `AvailablePool.Build` | internal/availablepool/availablepool.go:166-271 | each list is, up to ties, exactly the rows of its fate, sorted |
| `AvailablePool.EveryUnownedRowIsCounted` | internal/availablepool/availablepool.go:129-139 | the four counts sum to the number of unowned rows |
| `AvailablePool.EveryKnownRowIsPlaced` | internal/availablepool/availablepool.go:187-262 | an unowned row the table knows is shown in its list if its name is its own alone, and otherwise declined by name, team and value |
| `AvailablePool.UnmatchedAreUnknown` | internal/availablepool/availablepool.go:187-262 | the unmatched count is of the unowned rows the table does not know |
| `AvailablePool.ListsAreRanked` | internal/availablepool/availablepool.go:256-266 | most valuable first, equal values by name |
| `AvailablePool.NoNamesakeIsValued` | internal/availablepool/availablepool.go:187-209 | a value is shown only for an unowned row whose name is its own alone in the whole pool, and the entry is that row's, field by field |
| `Leagues.LeagueContexts` | cmd/football_leagues.go:35-50 | the unfinished leagues, by name then id |
| `Leagues.DiscoverLeagues` | cmd/football_leagues.go:100-158 | which of the five outcomes, and the leagues found, for every answer of every season asked |
| `Leagues.SeasonsAskedExactly` | cmd/football_leagues.go:100-141 | the season in play first, the one being created into, and the one before only if both list nothing; none twice |
| `Leagues.DiscoveryTakesTheFirstListing` | cmd/football_leagues.go:73-125 | each league once, as the first season asked lists it |
| `Leagues.ForEachLeague` | cmd/football_leagues.go:195-209 | exactly the leagues that load are run; an aborting failure ends it before any later one |

## Left out

- Network, S3, DynamoDB, KMS, the browser and Pushover: each call is a success or a failure chosen by the environment.
- The detectors that find pickup items, the valuation of trades and the name normalization: their results are inputs.
- The value table's lookup: a parameter of `AvailablePool.Build`, so nothing proved depends on how it matches names.
- Two processes using one alert marker at once: the marker theorems are about one caller at a time.
- A message written by a store that reported an error: a failed write leaves the store as it was; for the connection record the landed-then-died case is a run of `CredentialRaces`.
- Explicit `--dates` grade runs: they ignore coverage and can move the newest day past a hole.
- A grade write that fails part-way: only `GradeWindow.PartialWriteLosesDays` speaks of it; elsewhere a completing run writes its whole window.
- The per-system rows and skip markers of a grade run, and the lineup gap store: easy members beside the window.
- Calendar rendering, time zones and floating point: days are integers, times whole seconds, scores reals.
- Text is a sequence of characters standing for bytes; page titles are taken as already lower-cased, and Unicode spaces beyond Latin-1 are not trimmed.
- Wording of alerts, printed lines and feed entries beyond the digest's own text.
- The lineup optimizer: `TopLists.RunLineupAnalysis` takes its optimum as given and only the clamp is claimed.
- The commit and build reads around the drift check: what they return is part of each tick.
- The season before the current one is a parameter of `Leagues.DiscoverLeagues`, not computed from its text.
- Archive.FileStore.WritePartition: an artifact's name is one file of the partition, so names that denote directories are not covered.
- Ledger.RunKeyOrder: starts before the epoch or past ten digits of seconds are not covered, as the key format itself is not.
- Events delivered while no run ledger is configured: they are ignored. Without a marker store only what is sent is modelled.
- Migrate.MigrateAll: objects written by other processes during the copy are not modelled.
- PickupTheorems.SentDigestsCarryWholeLines: the number of items is taken to fit a 64-bit length.
