# Nexa Panel: verified models of its protocols

Nexa Panel manages a server: it keeps SQLite rows and the outside world (timers,
database engines, sshd, systemd units, uploaded backup copies) in agreement while
requests race, calls fail and processes crash. This project models the parts where
that is hardest and proves what they promise, over every run and every input.

`dafny verify dfyconfig.toml` checks the whole project with Dafny 4.11.

A protocol is a `State`, a `Step` datatype and a total function `Next`: a step that
is not enabled changes nothing, so a run is any sequence of steps and a theorem over
runs covers every interleaving, every failing call and every crash. Code that loops or
updates fields is also given as a class or a method with its loops, proved against
the same functions.

| files | what they model |
|---|---|
| `SafeguardMachine`, `SafeguardInvariants`, `SafeguardCoverage`, `SafeguardOnce`, `SafeguardTheorems`, `SafeguardOutcomes`, `SafeguardRows`, `SafeguardVerdicts`, `SafeguardRounds`, `SafeguardSecondCall`, `SafeguardClose`, `SafeguardGuard` | the timed automatic revert: mutex, timer map, WaitGroup, conditional updates, crash and restart, statement by statement |
| `RestorePlan`, `RestoreTheorems`, `RestoreBuilder`, `RestoreProtocol` | building a restore plan, its digest, the signed preview, the durable job |
| `DatabaseTables`, `DatabaseStore`, `DatabaseMachine`, `DatabaseOwnership`, `DatabaseCredentials`, `DatabaseEffects`, `DatabaseMutualDrop` | database users, owners, grants and passwords under a serial job worker |
| `SshNode`, `SshAccess`, `SshProtocol` | SSH access and SFTP jails: commit, drive the node, restore on refusal |
| `BackupSchedules`, `BackupRaces` | backup timers: syncing under a mutex while rows change outside it |
| `VhostText`, `VhostPatterns`, `VhostMigration`, `VhostTheorems` | the vhost migration: brace lexer, server finder, depth-tracking rewriter |
| `ToolSessions`, `ToolSessionTheorems` | launch tokens and sliding sessions of the admin tools |
| `Firewall` | the lockout judgement and the undo behind a risky change |
| `ShellQuote` | quoting against a POSIX shell reader |
| `AgentToken` | creating the agent token by hard link |
| `Text`, `Wrappers` | string functions of the Go library, `Option` |

## Assumptions

- The clock never goes back, also across restarts (`Tick` advances it); the safeguard's deadlines and
  the tool sessions rest on this. The restore preview's clock may move either way.
- One job worker runs one job at a time, and a job whose process ends is failed and not
  run again (the default recovery policy, `internal/platform/jobs/jobs.go:36-38`).
- Safeguard: revert ids are random and stand for table keys; a failing SQL call in `Start`,
  in `fire` or in `finish` is recorded in the ghost set `stranded`. `finish` runs on the
  context that timed out or was cancelled for the executor, so such an update is one of the
  failing calls.
- Restore: the digest is the hashed document itself and a token verifies exactly when a
  preview issued its binding. Decoding a manifest, decrypting an account and
  `ValidateRestoreRequest` are deterministic and are the function fields of `Codec`; their
  content is not restated. A resolver is asked for each reference at most once per build, so
  one map per build also covers answers that change during it. Decrypting an empty secret
  fails (`internal/platform/secrets/box.go:70-85`); the digest hashes it like a missing one.
- Databases: a request handler is one step together with its submission and `AttachJob`. The
  code submits first and attaches second (`internal/modules/databases/operations.go:16-23`).
  `ApplyPlan` is atomic.
- SSH: the two sshd operators' applies do not overlap in time. A failing call on the node
  changes nothing by itself; what an operator leaves behind when one of its calls fails is
  modelled call by call.
- Backups: a failing operator call may leave any timer for its own plan. Plan ids are random and
  never used again.
- Agent token: random tokens never repeat, and nothing but this code removes or replaces the file
  while calls are running.
- The executor, the engine operators, UFW and the job queue's storage are outside; each is a
  nondeterministic step with the contract above.

## Where the code and its promises differ

- `SshProtocol.RefusalMayCutAccess`: `transact` puts the rows back so that the panel "never claims a
  state the node did not accept", but the operator's rollback removes the drop-in and the keys even
  when access was on before, so a refused key change can leave the panel claiming an access the
  node no longer has. `SshProtocol.RefusalAgreesIff` says exactly when panel and node agree after a
  refusal, and `SshProtocol.PanelMatchesAtomicNode` covers every run whose refusals leave the node alone.
- `BackupRaces.RetryPassMayMiss`: a toggle that writes while a sync stores its result, followed by a
  crash, leaves "installed" on a disabled plan; a retry pass does not select it, a forced pass
  repairs it (`BackupSchedules.RetryPassAgreesIff` is the exact condition, `BackupRaces.RetryPassHeals` its
  form over runs).
- `ToolSessionTheorems.OneStampMayBeUndone`: the comment in `renewSession` says that its deadline
  predicate keeps an expiry decided elsewhere from being undone by a request in flight
  (`internal/modules/admintools/launch.go:502-504`). A request that read the clock before the stamp's
  own clock reading still finds the stamped deadline after its own time and slides it forward
  again. `ToolSessionTheorems.ExpiryIsNotUndoneIff` and `StampStaysIff` are the exact conditions.
- `AgentToken.FailedSyncMaySplit`: when a directory sync fails after the link, two calls may
  return different tokens; `AgentToken.FailedSyncSplitsIff` says exactly when, and
  `AgentToken.AllSuccessesAgree` covers every other run.
- `SafeguardSecondCall.OverlapMayCallTwice`: when Arm stores its row before Start reads the table, one
  revert's executor may be called twice in one process lifetime; `SafeguardSecondCall.SecondCallIff`
  is the exact condition.

## Model

| member | source | states |
|---|---|---|
| SafeguardTheorems.WaitGroupBalance | internal/modules/safeguard/safeguard.go:335-393 | in every reachable state the WaitGroup counter is pending timers plus running bodies plus stopped timers whose Done is owed |
| SafeguardTheorems.NoAddAfterClose | internal/modules/safeguard/safeguard.go:360-381 | schedule adds nothing once Close has taken the mutex |
| SafeguardClose.NothingIsAdded | internal/modules/safeguard/safeguard.go:335-381 | from then on, in every run of this process, no timer is made and the counter only falls |
| SafeguardClose.CloseCanReturn | internal/modules/safeguard/safeguard.go:335-358 | from every reachable state in which Close has begun, a run without a crash and without a failing SQL call lets it return: no count is left that nobody takes back |
| SafeguardTheorems.NothingRunsAfterClose | internal/modules/safeguard/safeguard.go:335-358 | after Close returned no timer is pending, no body runs, and no executor is called in any continuation of this process |
| SafeguardTheorems.NoRevertIsLost | internal/modules/safeguard/safeguard.go:212-237 | an armed row in an open guard that knows it has a pending timer, a fire in progress or a call about to schedule it, unless a failing SQL call is on record |
| SafeguardTheorems.StrandedIff | internal/modules/safeguard/safeguard.go:312-332 | a revert comes on that record exactly by a failing read of the table in Start or a failing load or update in fire, and leaves it only with the process |
| SafeguardTheorems.NoRevertIsLostWithoutFailures | internal/modules/safeguard/safeguard.go:212-237 | whatever happened in earlier processes, a revert for which no SQL call of this one fails is never lost |
| SafeguardTheorems.NoRevertIsEarly | internal/modules/safeguard/safeguard.go:398-423 | no executor call lies before the stored deadline, across any number of restarts |
| SafeguardTheorems.RowsAreFrozen | internal/modules/safeguard/safeguard.go:242-265 | rows leave armed at most once, settled rows never change, no run moves a deadline |
| SafeguardTheorems.ConfirmBeforeReloadWins | internal/modules/safeguard/safeguard.go:395-404 | once a row is settled before fire re-reads it, its executor is never called again, in any run |
| SafeguardOutcomes.ConfirmedAfterTheCall | internal/modules/safeguard/safeguard.go:425-436 | a confirmation that takes the row after an executor call finds that call's outcome still unwritten, or lost to a SQL error or an earlier process |
| SafeguardOutcomes.AtMostOncePerLifetime | internal/modules/safeguard/safeguard.go:312-332 | two calls for one revert in one lifetime imply that Start read a revert Arm had already stored |
| SafeguardOutcomes.OncePerLifetimeWhenStartedFirst | internal/modules/safeguard/safeguard.go:309-332 | with Start before any Arm, a revert's executor is called at most once per process lifetime |
| SafeguardSecondCall.SecondCallIff | internal/modules/safeguard/safeguard.go:309-332 | before Start reads the table, an armed revert of an open guard can be called twice in this lifetime exactly when Arm's call has it in its list, on a timer, on its way to the executor, or called |
| SafeguardSecondCall.OnlyArmTakesOn | internal/modules/safeguard/safeguard.go:309-332 | and then this very process armed it |
| SafeguardSecondCall.SecondCallIffArmedHere | internal/modules/safeguard/safeguard.go:309-332 | as a caller sees it: with no SQL call failed for it, exactly when this process armed it and its fire has not given up for want of an executor |
| SafeguardSecondCall.OverlapMayCallTwice | internal/modules/safeguard/safeguard.go:312-332 | for every revert a run in which Arm comes before Start and its executor is called twice in one lifetime |
| SafeguardRows.RowsTellTheTruth | internal/modules/safeguard/safeguard.go:225-250 | the deadline is one window after the arming, confirmed rows and only they carry a confirmation time, reverted implies the executor was called |
| SafeguardRows.TimersAreOnTime | internal/modules/safeguard/safeguard.go:360-377 | a timer set while the clock stands still is due at the deadline, or at once when that is past |
| SafeguardVerdicts.OutcomeIsTheExecutors | internal/modules/safeguard/safeguard.go:395-436 | in every run, a row stored as reverted had its executor return without an error, and one stored as failed had it return an error or had none registered for its domain, with the job that is stored |
| SafeguardVerdicts.CallsOnlyItsExecutor | internal/modules/safeguard/safeguard.go:405-420 | an executor is only called for a revert of the domain it is registered for |
| SafeguardRounds.UnconfirmedIsUndone | internal/modules/safeguard/safeguard.go:370-436 | a change nobody confirms is undone: its executor is called once, exactly one window after the arming, the row says how that went, and no timer and no Done is left |
| SafeguardRounds.ConfirmedInTimeStays | internal/modules/safeguard/safeguard.go:242-265 | a change confirmed before its timer fires stays: the row says when, the timer is stopped and its Done called, and its body has nothing to run |
| SafeguardVerdicts.ArmStores | internal/modules/safeguard/safeguard.go:212-237 | Arm stores an armed row of its domain, due one window after its clock reading, and schedules it |
| SafeguardVerdicts.ConfirmStoresIff | internal/modules/safeguard/safeguard.go:242-265 | a revert is confirmed exactly when it is armed and the caller names its domain or none; nothing else changes |
| SafeguardCoverage.StepKeepsInv | internal/modules/safeguard/safeguard.go:212-436 | every statement of every call keeps the count, map, ownership, deadline and coverage invariants |
| SafeguardOnce.StepKeepsOnce | internal/modules/safeguard/safeguard.go:312-423 | every statement keeps the single-execution invariant and lets only an armed row's ticket commit to a call |
| SafeguardGuard.Guard.Schedule | internal/modules/safeguard/safeguard.go:360-381 | in place: one timer and one ticket more, or nothing when the revert is mapped or the guard is closed |
| SafeguardGuard.Guard.StopTimer | internal/modules/safeguard/safeguard.go:383-393 | in place: the entry goes, and the count drops exactly when Stop won |
| SafeguardGuard.Guard.StopAll | internal/modules/safeguard/safeguard.go:337-348 | the loop of Close stops exactly the mapped pending timers and counts them |
| SafeguardGuard.Guard.Close | internal/modules/safeguard/safeguard.go:335-352 | after its Done loop the guard is closed, the map empty and the count balanced; no Done finds it at zero |
| SafeguardGuard.StopTimerIsThreeSteps | internal/modules/safeguard/safeguard.go:383-393 | uninterrupted, the three steps of the transition system are this one call |
| RestoreTheorems.WalkIgnoresOrder | internal/modules/backups/restore.go:351-440 | the loop gives the same items or the same refusal for every result of the unstable sort |
| RestoreTheorems.BuildIgnoresOrder | internal/modules/backups/restore.go:268-455 | requests with the same trimmed selections get the same plan and digest, or the same refusal |
| RestoreTheorems.RebuildIsIdentical | internal/modules/backups/restore.go:545-558 | rebuilding from a plan's own choices over unchanged state gives that plan |
| RestoreProtocol.UnchangedPlanIsAccepted | internal/modules/backups/restore.go:539-566 | while its copy and what the build reads are as at submission, the queued job passes its check, whatever order the sort gives |
| RestoreTheorems.WalkMeansFits | internal/modules/backups/restore.go:351-440 | the loop succeeds exactly when each selection is acceptable alone, as stated on names, checksums, references and the resolver's answers, and no two share entry, destination or resolved target; its items carry the resolver's answers |
| RestoreTheorems.PlanSaysWhatWasChosen | internal/modules/backups/restore.go:351-455 | an accepted plan is of the copy's plan, name and resolved account, and its items are the selections in order, each with its entry, the manifest's checksum, its clear flag and the resolver's answer to its reference |
| RestoreTheorems.BuildAcceptsIff | internal/modules/backups/restore.go:268-455 | a request gets a plan exactly when copy and number of selections are admissible, the manifest is usable, each selection is acceptable, no two clash, and the one request that says what was chosen is valid |
| RestoreTheorems.AcceptedPlansAreDisjoint | internal/modules/backups/restore.go:293-446 | an accepted plan is of an uploaded, passed or acknowledged copy, has 1 to 128 items, uses no entry twice, and reaches no directory and no database of one engine at one address twice |
| RestoreTheorems.AcceptedItemsAreCompatible | internal/modules/backups/restore.go:394-470 | dumps go by name to engines of their own family, site archives to usable sites, recorded checksums are 64 hexadecimal digits |
| RestoreTheorems.IndexMeansIndexable | internal/modules/backups/restore.go:308-321 | a manifest is usable exactly when every name is and none repeats; the index holds exactly its entries under their names |
| RestoreBuilder.TrimInPlace | internal/modules/backups/restore.go:273-280 | the trimming loop turns every selection of the array into its trimmed form |
| RestoreBuilder.SortSelections | internal/modules/backups/restore.go:281-292 | a sorted permutation exists for every input, so the contract taken from sort.Slice can be met |
| RestoreBuilder.IndexManifest | internal/modules/backups/restore.go:308-321 | the manifest loop computes the index or the first refusal |
| RestoreBuilder.CheckSelections | internal/modules/backups/restore.go:351-440 | the loop with its three maps as local variables computes the specified walk and the set of used entries |
| RestoreBuilder.BuildRestorePlan | internal/modules/backups/restore.go:268-455 | trim, sort, admit, index, resolve, both loops and validation in order give a possible outcome of the specification; a plan's choices are the trimmed, sorted request and its items say what was chosen |
| RestoreProtocol.ExpiryAt | internal/modules/backups/restore.go:151 | the expiry is the last whole second not after now plus the lifetime |
| RestoreProtocol.DigestFixesRequest | internal/modules/backups/restore.go:495-537 | two requests with one digest are the same request |
| RestoreProtocol.ExecutedWasPreviewed | internal/modules/backups/restore.go:539-569 | every operator call has exactly the account, copy, sites and databases of a preview shown to the same actor for the same copy and within its lifetime at submission |
| RestoreProtocol.AtMostOneUntestedRestore | internal/modules/backups/restore.go:571-589 | of all restores of a copy previewed as not tested at most one runs, unless an outcome is on record as not stored |
| RestoreProtocol.LostIff | internal/modules/backups/restore.go:571-589 | a copy comes on that record exactly when the write after a restore of it fails or the process ends before it |
| RestoreProtocol.OneUntestedRestoreWithoutLoss | internal/modules/backups/restore.go:571-589 | in a run that stores every outcome of a copy, at most one of its restores previewed as not tested runs |
| RestoreProtocol.StoredOutcomeIsTheCalls | internal/modules/backups/restore.go:560-589 | a copy that says passed or failed was restored, and the operator's call succeeded or failed accordingly |
| RestoreProtocol.PreviewShowsWhatWasChosen | internal/modules/backups/restore.go:136-157 | what an actor is shown is what the actor chose, resolved at that moment |
| RestoreProtocol.PreviewedRestoreRuns | internal/modules/backups/restore.go:136-266 | from any state with an idle worker, a restore previewed, confirmed in time by the same actor and not disturbed calls the operator once, with what was chosen and shown, and its copy says how it went |
| RestoreProtocol.StaleJobNeverRuns | internal/modules/backups/restore.go:539-558 | a job whose copy is gone, or whose plan cannot be built again or has changed, ends at its check and in no later run calls the operator |
| RestoreProtocol.JobRunsAtMostOnce | internal/modules/backups/restore.go:539-569 | in every run, crashes included, the operator is called at most once for one job |
| RestoreProtocol.OneJobPerKey | internal/modules/backups/restore.go:194-207 | an idempotency key never makes a second restore job |
| DatabaseTables.CommitDropKeepsOwners | internal/modules/databases/drops.go:181-203 | committing a drop by its plan leaves every database an existing owner and moves no other owner |
| DatabaseStore.Store.GuardUserRemovable | internal/modules/databases/drops.go:119-134 | true exactly when every owned database has another user's grant |
| DatabaseStore.Store.UserDatabasesFor | internal/modules/databases/drops.go:141-178 | every database the user owns or holds a grant on, once; the owned ones with a replacement grant's user as heir; refusal exactly when some owned one has none |
| DatabaseStore.Store.CommitDrop | internal/modules/databases/drops.go:186-199 | in place: the items with an heir are transferred, then the user's grants go, then the row |
| DatabaseStore.Store.SwapUserCredential | internal/modules/databases/store.go:150-154 | the pending secret is committed, none is pending, the user is active |
| DatabaseStore.Store.AbandonUserPendingCredential | internal/modules/databases/store.go:158-162 | the staged secret is dropped, the committed one stays, the user is active |
| DatabaseStore.Store.FailResource | internal/modules/databases/resource_state.go:12-32 | a user with a working secret falls back to it, any other user is failed |
| DatabaseOwnership.PlanHasHeirs | internal/modules/databases/drops.go:141-160 | a drop's plan names other, existing users on the database's server |
| DatabaseOwnership.StepKeepsOwnership | internal/modules/databases/operations.go:57-242 | every request and every statement of a job keeps owners, grants, one job per user and the running drop's plan sound |
| DatabaseOwnership.NoDatabaseIsStranded | internal/modules/databases/drops.go:139-203 | in every run, wherever jobs fail or stop, each database's owner row exists and is on its server |
| DatabaseCredentials.StepKeepsInv | internal/modules/databases/operations.go:57-116 | every step keeps rows and engine in agreement about passwords |
| DatabaseCredentials.CredentialsAgree | internal/modules/databases/users.go:47-123 | an active user's committed secret is the engine's; otherwise the engine has the committed or pending one, or a deleted account |
| DatabaseCredentials.PromotedIsApplied | internal/modules/databases/operations.go:88-113 | what SwapUserCredential promotes is what this job applied |
| DatabaseCredentials.PromotionsAreApplied | internal/modules/databases/store.go:149-154 | the same in every reachable state |
| DatabaseCredentials.LastUserSurvives | internal/modules/databases/operations.go:143-149 | a queued drop whose replacement has meanwhile gone changes no database and gives the user back |
| DatabaseEffects.CreatedUserIsActive | internal/modules/databases/users.go:47-90 | a new user's row and the engine have the requested password once its job is done; nothing else changes |
| DatabaseEffects.SetPasswordIsAccepted | internal/modules/databases/users.go:93-123 | a new password replaces the old one in the row and in the engine |
| DatabaseEffects.CreatedDatabaseIsActive | internal/modules/databases/operations.go:206-242 | a new database is active, on the requested server and owned by the requested user |
| DatabaseEffects.CreatedGrantIsActive | internal/modules/databases/operations.go:206-242 | a new grant is active and for the requested pair |
| DatabaseEffects.RepeatedGrantIsActive | internal/modules/databases/grants.go:44-84 | asking again for a pair that has a grant gives that grant back as active |
| DatabaseEffects.RevokedGrantIsGone | internal/modules/databases/drops.go:198-199 | a revoked grant's row is gone and no other row changes |
| DatabaseEffects.CommittedRevokeRemoves | internal/modules/databases/drops.go:198-199 | the same of the commit alone, however it is interleaved |
| DatabaseEffects.DroppedDatabaseIsGone | internal/modules/databases/drops.go:183-185 | a dropped database is gone with exactly its grants |
| DatabaseEffects.DroppedUserIsGone | internal/modules/databases/drops.go:139-203 | a dropped user's databases are handed over by the plan, its grants, its row and its account are gone, nothing else changes |
| DatabaseEffects.FailedJobIsMarked | internal/modules/databases/resource_state.go:12-32 | a job that fails marks its database or grant as failed and changes nothing else |
| DatabaseEffects.WithdrawnPasswordEndsTheJob | internal/modules/databases/operations.go:87-91 | a password job whose staged password is gone ends without touching anything |
| DatabaseEffects.UnsubmittedIsMarked | internal/modules/databases/grants.go:76-79 | a request whose job could not be submitted leaves the row it asked for marked as failed, a user's staged password included, and no job |
| DatabaseEffects.OnlyUserIsNotDropped | internal/modules/databases/drops.go:119-134 | a request to delete a database's only user is refused at once |
| DatabaseEffects.InactiveIsRefused | internal/modules/databases/grants.go:44-59 | a database without an active owner on its server, and a grant without an active database and user on one server, are refused |
| DatabaseMutualDrop.MutualReplacementsKeepOne | internal/modules/databases/operations.go:143-149 | a run from the empty state in which two users who are each other's only replacement are both queued for deletion: the first goes, the second is refused and owns both databases |
| SshNode.OperatorsStayExclusive | internal/platform/operators/deploy/ssh_host.go:59-134 | whatever calls fail, neither operator installs its block beside the other's or touches the other's files |
| SshNode.DoneMatches | internal/platform/operators/deploy/ssh_host.go:49-134 | an accepted change leaves drop-in, keys and shell exactly as asked |
| SshNode.RefusedEnableIsAtomicIff | internal/platform/operators/deploy/ssh_host.go:59-92 | a refused enable leaves the node unchanged exactly under a condition on the node and the first failing call |
| SshNode.RefusedDisableIsAtomicIff | internal/platform/operators/deploy/ssh_host.go:105-125 | the same for a refused disable |
| SshNode.RefusedKeyChangeMayCutAccess | internal/platform/operators/deploy/ssh_host.go:139-144 | a failing reload while re-installing keys takes away an access that was on |
| SshNode.RefusedJailStaysIff | internal/platform/operators/sftp/host.go:57-99 | a refused SFTP enable leaves a jail exactly under a condition on the first failing call, and touches nothing else |
| SshNode.ApplyLeavesIff | internal/platform/operators/deploy/ssh_host.go:49-144 | any call, refused or not, leaves the node as it was exactly under a condition on the node and the first failing call |
| SshAccess.RestoreUndoesMutate | internal/modules/deploy/support.go:153-173 | whatever the mutation was, putting the snapshot back gives every row of every site its old value |
| SshAccess.EnabledSince | internal/modules/deploy/support.go:101-118 | enabled_at is set the first time access is switched on, kept while it is on, cleared on disable |
| SshAccess.Panel.Upsert | internal/modules/deploy/support.go:101-118 | in place: the row after switching access on or off |
| SshAccess.Panel.InsertKey | internal/modules/deploy/ssh.go:222-233 | a key is inserted exactly when its fingerprint is new for the site |
| SshAccess.Panel.Restore | internal/modules/deploy/support.go:153-173 | in place: the keys are rewritten and the access row is put back or removed |
| SshAccess.Panel.Transact | internal/modules/deploy/ssh.go:161-199 | an accepted change leaves exactly its own row changed (the key removed or added as given, the flag as asked) and a site that is on with exactly its rows' keys on the node; a refused one leaves every row as it was |
| SshProtocol.NeverLoginAndJail | internal/modules/sftp/handlers.go:85-172 | no account ever has both an SSH login and an SFTP jail |
| SshProtocol.PanelMatchesNode | internal/modules/deploy/ssh.go:132-199 | with no SSH change of the site in flight the row and key set are the node's, and disabled means no keys, unless a refused change left a mark |
| SshProtocol.DivergedIff | internal/modules/deploy/ssh.go:186-196 | a mark comes exactly from a refusal that changed the node, a failing restore or a crash mid-change, and goes exactly with an accepted change |
| SshProtocol.PanelMatchesAtomicNode | internal/modules/deploy/ssh.go:132-199 | in a run without such a step for a site, its row and key set are the node's whenever none of its changes is in flight |
| SshProtocol.RefusalAgreesIff | internal/modules/deploy/ssh.go:186-196 | after a refused change whose rows were put back, panel and node agree exactly when the refused call left the node as it was |
| SshProtocol.RefusalMayCutAccess | internal/modules/deploy/ssh.go:148-157 | a run with a refused and undone key change after which the panel claims an access the node has not |
| SshProtocol.AcceptedChangeHeals | internal/modules/deploy/ssh.go:186-198 | the next accepted change of the site restores agreement |
| SshProtocol.RemovedKeyIsGone | internal/modules/deploy/ssh.go:65-85 | on a site that is on, a removed key's row goes and the node is left with exactly the remaining rows' keys |
| SshProtocol.AddedKeyIsInstalled | internal/modules/deploy/ssh.go:222-233 | a key with a new fingerprint gets the row asked for, and the node holds it beside the others |
| SshProtocol.SwitchedAsAsked | internal/modules/deploy/ssh.go:123-127 | switching on installs exactly the site's keys, switching off takes drop-in, keys and shell away |
| SshProtocol.SftpIsRefusedBesideSsh | internal/modules/sftp/handlers.go:85-120 | switching SFTP on is refused while the site's SSH row is on |
| SshProtocol.SftpLeavesAsAsked | internal/modules/sftp/handlers.go:85-172 | an SFTP operation that runs through leaves the jail and the recorded row as asked and the SSH side as it was |
| SshProtocol.OnSinceInEveryRun | internal/modules/deploy/support.go:101-118 | in every run a row says since when access is on exactly when it is on |
| SshProtocol.OnTimeStays | internal/modules/deploy/support.go:101-173 | while access stays on its time does not move, whatever is changed, refused or put back |
| BackupSchedules.ForcedPassAgrees | internal/modules/backups/plans.go:73-91 | from any rows and timers one forced pass without failures reaches full agreement |
| BackupSchedules.PassIsIdentity | internal/modules/backups/plans.go:73-91 | in agreement any pass changes nothing |
| BackupSchedules.RetryPassAgreesIff | internal/modules/backups/plans.go:73-79 | a retry pass reaches agreement exactly when every row it skips was in agreement |
| BackupSchedules.PassSyncsEach | internal/modules/backups/plans.go:82-89 | each selected plan is synced once, with its own outcome, whatever happens to the others |
| BackupSchedules.Scheduler.SyncSchedule | internal/modules/backups/plans.go:31-71 | in place: the timer asked for or left by a failure, and the state observed |
| BackupSchedules.Scheduler.ReconcileSchedules | internal/modules/backups/plans.go:73-91 | the loop is the specified pass and goes on past failures |
| BackupSchedules.Scheduler.DeletePlan | internal/modules/backups/plans.go:470-514 | a plan goes only after its timer; if it stays without its timer its state asks for it back |
| BackupRaces.NoOrphanTimers | internal/modules/backups/plans.go:470-514 | in every interleaving, with failures and crashes anywhere, a node timer's plan row exists |
| BackupRaces.SettledRowsAreTrue | internal/modules/backups/plans.go:31-71 | installed or disabled is what the node has, unless the plan's sync is owed, running or on record as lost |
| BackupRaces.OnlyLossesSetAdrift | internal/modules/backups/plans.go:416-446 | a plan comes on that record only by a failing read-back of a toggle, a failing read or store of its sync, a failing mark of its delete, or a crash with its sync owed or running |
| BackupRaces.SettledRowsWithoutLoss | internal/modules/backups/plans.go:31-71 | in a run without such a loss of a plan, its settled row is what the node has |
| BackupRaces.SyncIsFourSteps | internal/modules/backups/plans.go:31-71 | uninterrupted, the four statements of syncSchedule are the specified sync |
| BackupRaces.FailedStatementEndsTheCall | internal/modules/backups/plans.go:31-71 | a failing statement under the mutex gives it back, marks the plan as not known to agree and changes no row and no timer |
| BackupRaces.UnreadToggleIsAnswered | internal/modules/backups/plans.go:416-446 | a toggle whose row cannot be read back leaves the toggled row, pending, for the next pass |
| BackupRaces.UpdateLeavesAsAsked | internal/modules/backups/plans.go:287-323 | an uninterrupted update leaves the requested name, schedule and flag in the row, their timer on the node exactly when enabled, and nothing else changed |
| BackupRaces.CreateLeavesAsAsked | internal/modules/backups/plans.go:255-285 | so does a creation |
| BackupRaces.ToggleLeavesAsAsked | internal/modules/backups/plans.go:416-446 | so does a toggle, with the plan's own name and schedule |
| BackupRaces.UpdateStores | internal/modules/backups/plans.go:287-323 | before its sync an update has stored the request as pending, whatever the row was, and owes its sync |
| BackupRaces.DeleteRemovesPlan | internal/modules/backups/plans.go:470-514 | an uninterrupted deletion takes the plan and its timer away and nothing else; one with copies does nothing |
| BackupRaces.ForcedPassHeals | internal/modules/backups/reconciliation.go:11-22 | from any reachable state with the mutex free, the statements of an uninterrupted forced pass reach agreement without orphans, and doing them again changes nothing |
| BackupRaces.RetryPassHeals | internal/modules/backups/plans.go:73-91 | from any reachable state with the mutex free and no settled row's sync owed or lost, an uninterrupted retry pass reaches agreement |
| BackupRaces.RetryPassMayMiss | internal/modules/backups/plans.go:416-446 | a run after which the retry pass selects nothing and a timer is wrong |
| BackupRaces.StepKeepsInv | internal/modules/backups/plans.go:31-514 | every statement of create, update, toggle, delete and reconcile keeps the invariant |
| VhostText.BraceDelta | scripts/nexa-release-helper.py:145-170 | the loop counts exactly the braces outside quotes and comments |
| VhostText.JoinSplit | scripts/nexa-release-helper.py:178 | joining the split lines gives the text back |
| VhostText.SplitJoin | scripts/nexa-release-helper.py:178 | splitting joined lines gives the lines back |
| VhostPatterns.QuotationCountsNothing | scripts/nexa-release-helper.py:145-170 | a quotation in either kind of quotes, escapes included, counts no brace and leaves the lexer in the open |
| VhostPatterns.CommentCountsNothing | scripts/nexa-release-helper.py:163-164 | from a comment sign in the open to the end of the line nothing counts |
| VhostPatterns.BareCounts | scripts/nexa-release-helper.py:165-168 | in the open, text without quotes and comments counts all its braces |
| VhostPatterns.IsServerIff | scripts/nexa-release-helper.py:185 | a server line is exactly blanks, the word, blanks, a brace and anything |
| VhostPatterns.IsDirectiveIff | scripts/nexa-release-helper.py:205 | exactly three directives are matched, after blanks and before at least one |
| VhostPatterns.IsProxyPathIff | scripts/nexa-release-helper.py:204 | exactly three paths are matched, each before blanks and a brace |
| VhostPatterns.IsLocationIff | scripts/nexa-release-helper.py:204 | a location line is exactly blanks, the word, blanks, perhaps an equals sign and blanks, and such a path |
| VhostMigration.FindServers | scripts/nexa-release-helper.py:179-197 | the finder loop computes the specified ranges or error |
| VhostMigration.FoundAreBlocks | scripts/nexa-release-helper.py:179-197 | the finder succeeds exactly on balanced text, and its ranges are exactly the blocks, in order: depth 0 and a server line at the start, above 0 inside, 0 at the end |
| VhostMigration.ChosenIff | scripts/nexa-release-helper.py:198-202 | a block is chosen exactly when the page is balanced and this is its only server block that mentions the socket |
| VhostMigration.RewriteBlock | scripts/nexa-release-helper.py:202-230 | the nested loops compute the rewritten block or error |
| VhostMigration.Migrate | scripts/nexa-release-helper.py:173-232 | the whole migration as specified |
| VhostTheorems.SegmentsCover | scripts/nexa-release-helper.py:209-225 | what is kept and removed is the block's lines in order; removed lines are matched directives and zero-sum locations |
| VhostTheorems.MigrationShape | scripts/nexa-release-helper.py:173-232 | every line outside the page's only socket-serving block is kept; inside, only directives and exactly three locations go and two lines come |
| VhostTheorems.MigrationIsClean | scripts/nexa-release-helper.py:209-225 | what is kept of the rewritten block has no old directive and no old location left at depth 1 |
| VhostTheorems.TidyLinesAreBalanced | scripts/nexa-release-helper.py:202-231 | for a block opened and closed by its first and last line, no location swallows the closing line, the result is balanced, the include is at depth 1 |
| VhostTheorems.TidyMigrationIsBalanced | scripts/nexa-release-helper.py:173-232 | when the block the page's own migration rewrites is tidy, the written text, read back, is balanced and never below depth 0, no location took the closing line, and the include is at depth 1 just before it |
| VhostTheorems.SecondRunIsIdentity | scripts/nexa-release-helper.py:174-177 | migrating the output changes nothing |
| ToolSessions.Store.RenewSession | internal/modules/admintools/launch.go:494-516 | in place: no write, a slid deadline within the cap, or expired, each exactly when the code says so |
| ToolSessions.Store.ConsumeLaunch | internal/modules/admintools/launch.go:460-467 | true exactly for the first use |
| ToolSessionTheorems.NoAuthorisationPastTheCap | internal/modules/admintools/launch.go:472-481 | every request let in on a session cookie was judged less than eight hours after the launch |
| ToolSessionTheorems.LaunchIsUsedOnce | internal/modules/admintools/launch.go:448-471 | a launch token is used at most once |
| ToolSessionTheorems.LaunchIsUsedInTime | internal/modules/admintools/launch.go:452 | it is used only when judged within sixty seconds of the launch |
| ToolSessionTheorems.StampStaysIff | internal/modules/admintools/launch.go:502-514 | up to the next stamp of its kind a stamp stays on a row in every run exactly when each renewal of it in flight read the clock at or after the stamp, or would write the same deadline |
| ToolSessionTheorems.ExpiryIsNotUndoneIff | internal/modules/admintools/launch.go:150-156 | up to the next stamp of its kind an expired session stays over in every run exactly when no renewal in flight was judged before the stamp and reaches beyond it |
| ToolSessionTheorems.StampEndsItsKind | internal/modules/admintools/launch.go:150-156 | a stamp ends every launch and every session of its kind and changes no row of another kind |
| ToolSessionTheorems.NobodyIsLetInAfterStamp | internal/modules/admintools/launch.go:488-516 | in every run up to the next stamp, no request is let in on a stamped session by a reading at or after the stamp, unless one under way held more |
| ToolSessionTheorems.RotatingLaunchReplaces | internal/modules/admintools/launch.go:98-124 | a launch of a tool with one catalog ends every earlier session of its kind, starts its own and changes nothing else |
| ToolSessionTheorems.OneStampMayBeUndone | internal/modules/admintools/launch.go:502-507 | a run from the initial state with one stamp, after which the session is alive again |
| ToolSessionTheorems.AtMost93Renewals | internal/modules/admintools/launch.go:32-44 | in every run in which requests of one session do not overlap, it is renewed at most 93 times, whatever stamps and other sessions do |
| ToolSessionTheorems.NinetyThreeIsReached | internal/modules/admintools/launch.go:32-44 | a request every five minutes reaches that bound |
| ToolSessionTheorems.SessionInUseLives | internal/modules/admintools/launch.go:488-516 | from its launch on, requests at most ten minutes apart are all let in until the eight hours are over |
| ToolSessionTheorems.LaunchStartsSession | internal/modules/admintools/launch.go:448-471 | a launch followed within sixty seconds starts its session |
| Firewall.AnyOtherRuleAdmits | internal/modules/firewall/lockout.go:109-122 | true exactly when an allow rule of another body admits the port |
| Firewall.OnePortAdmits | internal/modules/firewall/lockout.go:131-158 | a rule for port n admits exactly n, for tcp or no protocol |
| Firewall.RangeAdmits | internal/modules/firewall/lockout.go:131-158 | a rule for a:b admits exactly a to b |
| Firewall.OtherTextAdmitsNothing | internal/modules/firewall/lockout.go:143-158 | a port text with any other character admits no port |
| Firewall.AnywhereAdmits | internal/modules/firewall/lockout.go:131-137 | a rule without a port admits every port, one for another protocol none |
| Firewall.Dedupe | internal/modules/firewall/lockout.go:191-205 | the same values, each once |
| Firewall.DedupeInPlace | internal/modules/firewall/lockout.go:191-205 | the in-place filter leaves that list at the front of the array |
| Firewall.Assess | internal/modules/firewall/lockout.go:46-86 | the judgement's loops compute the specified reasons |
| Firewall.LastRuleIff | internal/modules/firewall/lockout.go:66-73 | a port is named as losing its last rule exactly when the rule admits it and no rule of another body does |
| Firewall.SessionIff | internal/modules/firewall/lockout.go:90-100 | the session is named exactly when the caller's address is covered and a panel port is admitted |
| Firewall.FreeDeleteKeepsAccess | internal/modules/firewall/lockout.go:54-73 | a delete judged free of reasons leaves every admitted access port admitted after all rules of that body are gone |
| Firewall.DenyIsFreeIff | internal/modules/firewall/lockout.go:74-83 | a deny raises no reason exactly when it is about no access port for the caller's address |
| Firewall.FreeDenyKeepsCaller | internal/modules/firewall/lockout.go:74-83 | after a deny judged free of reasons, wherever it is put, every access port open to the caller stays open: some allow rule and no deny rule of the table is about it |
| Firewall.RevertUndoesIff | internal/modules/firewall/lockout.go:176-189 | on a set of rules the undo restores the table exactly when the change deleted a present rule or added an absent one |
| Firewall.ArmedPayloadIsAccepted | internal/modules/firewall/firewall.go:127-209 | what Submit arms is acknowledged, of an active firewall, and never rejected by executeRevert |
| Firewall.RiskyIsNeverJustQueued | internal/modules/firewall/firewall.go:127-180 | a change an active firewall raises a reason against is refused, or queued with its own undo armed, never just queued |
| Firewall.QueuedDeleteKeepsAccess | internal/modules/firewall/firewall.go:127-180 | a deletion queued without an undo leaves every admitted access port admitted |
| Firewall.QueuedDenyKeepsCaller | internal/modules/firewall/firewall.go:127-180 | a deny queued without an undo leaves every access port open to the caller open |
| ShellQuote.QuotedIsRead | cmd/nexa/publishing.go:172-174 | before any further input a quoted text is read as itself, all of it quoted |
| ShellQuote.QuotedIsOneWord | cmd/nexa/publishing.go:169-174 | standing alone it is exactly one word, for every NUL-free value and no other |
| ShellQuote.QuoteIsInjective | cmd/nexa/publishing.go:172-174 | different texts quote differently |
| AgentToken.WrittenParses | internal/platform/agentauth/token.go:27-80 | Read accepts what OpenOrCreate writes and returns the same token |
| AgentToken.SuccessesAgreeIff | internal/platform/agentauth/token.go:15-60 | in every run two calls that succeed return the same token exactly when they took it from the same publication |
| AgentToken.AllSuccessesAgree | internal/platform/agentauth/token.go:15-60 | all calls that succeed return the one token the name holds, unless a failing directory sync revoked a token already returned |
| AgentToken.OnlyTheOwnNameIsRemoved | internal/platform/agentauth/token.go:55-58 | a failing directory sync only takes away the name its own call has linked |
| AgentToken.NoPartialRead | internal/platform/agentauth/token.go:62-80 | started on a free name or on a valid file, whoever finds the name bound reads a whole token, that of the publication it stands for |
| AgentToken.FailedSyncSplitsIff | internal/platform/agentauth/token.go:55-58 | a failing directory sync can split the callers of what it revokes exactly when one of them has returned its token |
| AgentToken.FailedSyncMaySplit | internal/platform/agentauth/token.go:55-58 | a run with one failing directory sync in which two calls return different tokens |

## Left out

- HTTP handlers, JSON decoding, routing, audit text, HTML pages and the reverse proxy: input and presentation only.
- Cryptography: the digest, the MAC and sealing are injective or opaque values.
- Operators of engines, UFW, rclone and Certbot and the job queue's own storage: nondeterministic steps with a contract.
- Every applied risky firewall change has an armed row: Submit queues the job before it arms, so an insert that fails leaves none.
- Panel-side agreement of the SFTP row under two concurrent SFTP operations: the code records after the node call, without a lock.
- At most one outstanding job per database: a restore commit re-activates a database that is queued for drop; any status may be written to a database row at any time in the model.
- Restore points, server provisioning and database sizes of the databases module: status switches that would add only easy members.
- The deploy reload grant: its check and its grant are separate unlocked steps.
- UFW rule order and a deny replacing an allow in place: the undo is judged on a set of rules.
- Validation of backup plans and cron expressions, HTML rewriting and cookies of the admin tools: pure input checks.
- Whose cookie a tool session is: the user and the tool kind of the row are fixed at its launch and compared on each request.
- The order of keys in an authorized-keys file: keys are compared as sets.
- Newline translation when the vhost is read: the model starts with the text Python has read, where every line end is a newline.
- File modes, temporary file names and directory creation of the agent token: only the mode check's verdict is modelled.
- File system locks between the two sshd operators: their applies are assumed not to overlap.
