# Verified model of the operator protocols and the financial repair

This project models the parts of the treasury system whose correctness an operator relies on when
something goes wrong: the crash-resumable credential rotation and the recovery of a lost database
root password, the deterministic repair of legacy financial records together with the report that
judges them, the alert state machine, the tax-year text format, the desktop client's session, the
duplicate-TD rollout, and two small algorithms. Every file holds one component; `dafny verify
dfyconfig.toml` checks them all.

How the components are modelled:

- **Rotation and recovery** (`Keys`, `SecretsVault`, `EnvLines`, `EnvFile`, `AuditChain`, `Rotation`,
  `RotationRuns`, `RotationTheorems`, `RotationTool`, `Recovery`, `RecoveryTheorems`). A world is everything that survives
  a crash: vault, `.env` text, the rows of `mysql.user`, the audit log and the live sessions. Each
  durable effect is one step (a vault or `.env` replacement, one `ALTER USER`, the revoke-and-audit
  transaction). An attempt carries the values it would draw at random and the number of steps after
  which it is cut off; `RunAll` folds any number of attempts. `RotationTool.Server` is the tool as
  methods that change a server field by field and is proved equal to that description.
  `Recovery.Host` drives the Windows service, the temporary server and the init files, which are named
  by their rotation, takes every outcome of its environment as an input, and records each state it
  passes through. `RecoveryTheorems` interleaves both tools, each cut off anywhere.
- **Repair and report** (`Sums`, `Ledger`, `RepairPlan`, `RepairTheorems`, `RepairGuarantees`,
  `RepairApply`, `RepairMeaning`, `RepairTool`, `ReconciliationReport`, `ReconciliationTheorems`,
  `ReconciliationMeaning`). Tables are sequences of rows, money is in integer cents, joins and group
  sums are functions. `RepairTool.Session` holds the planner's loops, the guarded updates with their
  audit events, and the gated command with its rollback. The two `Meaning` modules say what plan,
  events, checks and findings tell of the rows, without the queries that compute them. On keyed tables
  the report passes exactly when its count checks are all zero, so that its two variance findings
  never stand alone (`ReconciliationTheorems.ZeroCountsPass`).
- **Alerts** (`Sorting`, `Alerts`): a directory with a state file and event files named by the time of
  their event, and the fold of reports over it, with and without crashes.
- **Tax years** (`Text`, `TaxYears`), **client session** (`ClientSession`, `ClientTool`): the session is
  a transition system in which each step of any number of concurrent requests, of logins and of
  logouts reads or assigns at most one of the two shared tokens; `ClientTool.Client` is the helper
  running alone, as a path through that system. **Rollout** (`RolloutChecks`, `Rollout`), **percentile** (`Percentile`),
  **temporary names** (`TempNames`).

## Findings

What the proofs turned up about the code: where it does not do what a reader would expect, exactly
when, and an input.

| finding | source | exact condition | input |
|---|---|---|---|
| A plan without blockers can create duplicate payment identities: a repaired payment is compared only with payments as they are | scripts/phase6_financial_reconciliation_recovery.py:169-204 | `RepairGuarantees.NewDuplicatesAreTwins` | `RepairGuarantees.RepairCanCreateDuplicates` |
| A plan without blockers can be refused by the payment unique index, for the same reason | scripts/phase6_financial_reconciliation_recovery.py:384-407 | `RepairApply.PlanApplies` | `RepairApply.ReadyPlanCanBeRefused` |
| After a committed repair the report can fail on duplicates that the repair made | scripts/phase6_financial_reconciliation_recovery.py:435-510 | `ReconciliationTheorems.ReportAfterRecovery` | `ReconciliationTheorems.RepairCanFailReport` |
| The repair copies negative payment charges into billings, which the report then counts as invalid | scripts/phase6_financial_reconciliation_recovery.py:75-126 | `RepairTheorems.ChecksGrowExactly` | `RepairTheorems.NegativeChargeIsCopied` |
| Validated tax-year text can keep an unexpanded range: validation takes any ascending range, parsing expands at most fifteen years | api_clients/billing_service.py:28-32 | `TaxYears.ValidatedTextIsYears` | `TaxYears.LongRangeIsKept` |
| Validated ranges below the year 1000 lose their leading zeros | api_clients/billing_service.py:29-31 | `TaxYears.ValidatedTextIsYears` | `TaxYears.EarlyYearsLoseZeros` |
| Root lost in the middle of a rotation cannot be recovered once the application account has been altered and the settings still name its old password; then the rotation cannot go on either | scripts/recover_mariadb_root.py:295-308 | `RecoveryTheorems.RecoveryDuringRotation` | `RecoveryTheorems.NeitherToolGoesOn` |
| A recovery that finds the service stopped at its last query raises outside the failure handler: the service is neither started again nor reported as one that could not be | scripts/recover_mariadb_root.py:636-637 | `Recovery.Host.RecoverRoot` | `RecoveryTheorems.RecoveryCanEndStopped` |
| An init file, with the new root password in it, stays for good when a recovery is cut off between the reset and the removal: root opens then, and only an admitted recovery of the same rotation removes its file | scripts/recover_mariadb_root.py:576-634 | `RecoveryTheorems.InitFileRemoved` and `RecoveryTheorems.NeverLockedOutTogether` | `RecoveryTheorems.InitFileCanStay` |
| Two alert events of one microsecond share a file, and the second replaces the first | scripts/operations_alerting.py:115-118 | `Alerts.FilesKeepAttempts` | `Alerts.EqualTimesOverwrite` |
| The audit event of a repaired payment says that it had no tax year, also where the row held spaces | scripts/phase6_financial_reconciliation_recovery.py:397-406 | `RepairMeaning.OldYearToldExactly` | `RepairMeaning.SpaceYearIsPlanned` |
| The audit event of a rollout change reads the old flag without stripping it, the command strips it: a flag with outer blanks is taken for enabled and recorded as disabled | scripts/manage_duplicate_td_rollout.py:566-571 | `Rollout.SettingExactly` | `Rollout.BlankFlagIsMisrecorded` |
| The rollout's vault write can raise after it has replaced the file, before the guarded part begins: the vault is changed without an audit event and without a restore | scripts/manage_duplicate_td_rollout.py:571-601 | `Rollout.BothOrNeither` and `Rollout.TrailTellsVault` | `Rollout.UnloggedDeactivation` |

## Model

| member | source | states |
|---|---|---|
| RotationTheorems.NeverLockedOut | scripts/rotate_server_credentials.py:568-648 | After any number of runs, each cut off at any step and whatever hexadecimal values it draws, the settings are readable, the vault is not half prepared, and the passwords the next run tries open both accounts |
| RotationTheorems.OneRunIsSafe | scripts/rotate_server_credentials.py:583-604 | One run, wherever it stops, keeps the server out of a lock-out |
| RotationTheorems.UninterruptedRunCompletes | scripts/rotate_server_credentials.py:568-648 | From a safe server a run goes ahead if and only if a rotation is staged or its drawn secrets are accepted; otherwise it changes nothing; going ahead and not cut off it completes if and only if the audit log is at its head |
| RotationTheorems.LaterRunCompletes | scripts/rotate_server_credentials.py:568-648 | After any interrupted runs, a run that goes ahead and is not cut off completes if and only if the audit log was at its head before the first of them |
| RotationTheorems.StagedRotationIsResumed | scripts/rotate_server_credentials.py:225-248 | A staged rotation is the one every later run carries out, whatever it draws; if it completes root has the staged password, nothing is pending, and the vault names that rotation and the time; otherwise the same rotation is still staged |
| RotationTheorems.FirstRun | scripts/rotate_server_credentials.py:568-648 | A run from an idle server finishes its own rotation or leaves it in progress, if its drawn secrets are accepted, or leaves no trace |
| RotationTheorems.ResumedRun | scripts/rotate_server_credentials.py:568-648 | A run during a rotation finishes that rotation or leaves it in progress, whatever it draws |
| RotationTheorems.InterruptedRuns | scripts/rotate_server_credentials.py:568-648 | Until some run completes, the server is untouched or in the middle of the one rotation that some run with accepted secrets staged; runs with refused secrets change nothing |
| RotationTheorems.FirstCompletion | scripts/rotate_server_credentials.py:608-648 | The first completed run leaves accounts, `.env`, vault and sessions exactly as one uninterrupted run with the accepted secrets of one of the runs would, and the vault names the rotation of that run and the time of the last; only further audit events of the same rotation may differ |
| RotationTheorems.FinishedIsSafe | scripts/rotate_server_credentials.py:251-264 | After completion the promoted secrets open both accounts and nothing is pending |
| RotationTheorems.CompletedRun | scripts/rotate_server_credentials.py:251-264 | From any server, a completed run has put the staged or drawn secrets, their rotation id and its time into the vault, rewritten the `.env`, and ended every session in one event that counts them |
| RotationTheorems.SessionsAreCounted | scripts/rotate_server_credentials.py:411-449 | Over any runs, each cut off anywhere, the sessions still alive and those counted in rotation events add up to the same number |
| RotationTheorems.ChainStaysVerified | scripts/rotate_server_credentials.py:392-493 | A run, wherever it is cut off, leaves a verified audit chain verified |
| RotationTheorems.ChainStaysVerifiedThroughout | scripts/rotate_server_credentials.py:392-493 | Any number of runs, each cut off anywhere, with distinct new event identifiers leave a verified audit chain verified |
| RotationTheorems.RotationCanComplete | scripts/rotate_server_credentials.py:568-648 | A safe idle server with a verified audit log exists, and on it a run completes; the promises above are not about an empty set of servers |
| RotationRuns.OneRun | scripts/rotate_server_credentials.py:568-648 | A run from a safe server either refuses its drawn secrets and changes nothing, or finishes its rotation exactly, leaves it in progress, or leaves the world unchanged |
| RotationRuns.HostsExactly | scripts/rotate_server_credentials.py:361-366 | The hosts to alter are those of the rows of the account, one for each row |
| RotationTool.Server.ConnectWithCandidates | scripts/rotate_server_credentials.py:340-358 | Succeeds if and only if some non-empty candidate opens the account, though repeated candidates are tried once |
| RotationTool.Server.DatabasePreflight | scripts/rotate_server_credentials.py:508-542 | Reads only; succeeds exactly when the four preflight checks do, with the staged passwords tried first when resuming |
| RotationTool.Server.AlterAccountPasswords | scripts/rotate_server_credentials.py:369-376 | Each host is altered at once and in order; cut off after any of them, the earlier ones keep the new password |
| RotationTool.Server.RevokeSessionsAndAudit | scripts/rotate_server_credentials.py:392-493 | Revokes every session and appends one chained event, or changes neither; refuses exactly when the log is not at its head |
| RotationTool.Server.RotateCredentials | scripts/rotate_server_credentials.py:568-648 | The tool, as in-place changes cut off after any number of steps, leaves exactly the world that the protocol describes; a result is returned exactly on completion, and then the vault holds the secrets carried out, their rotation id and the time, and the result names that rotation, the time, the accounts altered, the sessions ended and whether it was resumed |
| SecretsVault.StagedLoads | scripts/rotate_server_credentials.py:197-248 | What staging writes is what loading reads back, all of it or nothing |
| SecretsVault.LoadedIsStripped | scripts/rotate_server_credentials.py:197-222 | A rotation that loads satisfies the secret rules and carries no outer blanks |
| SecretsVault.FinalizedFacts | scripts/rotate_server_credentials.py:251-264 | Finalizing promotes the three secrets, records the rotation's id and its time under their keys, removes every pending and legacy key, and changes no unrelated setting |
| SecretsVault.GeneratedIsPlain | scripts/rotate_server_credentials.py:186-194 | Hexadecimal secrets that pass validation survive storage in the vault and in one `.env` line |
| SecretsVault.PendingExactly | scripts/rotate_server_credentials.py:197-222 | A vault holds no rotation exactly when its five keys are blank, and holds a rotation exactly when it is marked prepared and its four values are complete, long enough and distinct |
| SecretsVault.PendingErrorExactly | scripts/rotate_server_credentials.py:197-222 | What is wrong with a vault that cannot be read: leftovers without a mark, an unknown mark, missing or bad secrets |
| SecretsVault.ValidSecretsExactly | scripts/rotate_server_credentials.py:186-194 | The secret rules: an id of 32 hexadecimal digits, passwords of 32 and a signing secret of 64 characters at least, all three different |
| SecretsVault.SettingsLoadExactly | scripts/rotate_server_credentials.py:145-174 | Settings load exactly when no text is blank, the user is 1 to 80 name characters and not root, and the port is a number from 1 to 65535; each text is the vault's before the file's, and reaches its own field |
| SecretsVault.SettingsErrorExactly | scripts/rotate_server_credentials.py:145-174 | The first setting that fails, in the tool's order, names the error |
| SecretsVault.CurrentSecretsExactly | scripts/rotate_server_credentials.py:177-183 | The current secrets load exactly when none of the three is blank, each from its own key |
| SecretsVault.PrintedPorts | scripts/rotate_server_credentials.py:167-173 | Every printed number from 1 to 65535 is a port, and no other number |
| EnvFile.RenderRotatedEnv | scripts/rotate_server_credentials.py:267-294 | The line loop with its `written` set computes the specified text for every input and every secrets |
| EnvFile.RenderIsIdempotent | scripts/rotate_server_credentials.py:267-294 | Rewriting a rewritten `.env` text changes nothing |
| EnvFile.RenderIsExact | scripts/rotate_server_credentials.py:267-294 | Each rotated key is assigned on exactly one line with its new value, no pending or legacy key remains, and every other line survives in order up to trailing or separator blank lines, even for inputs that repeat a key |
| EnvFile.RenderedValues | scripts/rotate_server_credentials.py:130-155 | A reader of the new file sees the new value of each rotated key and the old value of every untouched key |
| EnvFile.WrittenIsRead | scripts/rotate_server_credentials.py:64-64 | A written assignment line is recognised again as an assignment of that key |
| EnvFile.AssignmentIsRead | scripts/rotate_server_credentials.py:64-64 | Blanks, a name, blanks, an equals sign and a value: such a line assigns the stripped value to the name |
| EnvFile.AssignmentShape | scripts/rotate_server_credentials.py:64-64 | No other line is an assignment |
| EnvFile.RenderDropsNames | scripts/rotate_server_credentials.py:281-282 | No line of the rewritten file assigns one of the eight pending and legacy names |
| Keys.RemovedNames | scripts/rotate_server_credentials.py:51-63 | The removed keys are exactly those of the three pending and five legacy names |
| Keys.SettingNames | scripts/rotate_server_credentials.py:158-173 | The four connection settings are read under their own names |
| EnvLines.RenderedExactly | scripts/rotate_server_credentials.py:270-294 | On lines: one assignment per rotated key, no obsolete key |
| EnvLines.OthersSurvive | scripts/rotate_server_credentials.py:270-294 | On lines: the untouched lines are kept in order up to trailing blanks |
| EnvLines.ReplacedInPlace | scripts/rotate_server_credentials.py:275-287 | The new line of an assigned key stands where its first assignment stood, among the untouched lines |
| EnvLines.MissingComesLast | scripts/rotate_server_credentials.py:288-294 | New lines for keys without an assignment come last, in a fixed order, after a blank line unless they are the first |
| EnvLines.LookupExactly | scripts/rotate_server_credentials.py:130-155 | The last assignment of a key decides its value |
| EnvLines.LookupNothing | scripts/rotate_server_credentials.py:130-155 | A key without an assignment reads as empty |
| AuditChain.VerifyAuditChain | backend/services/audit_integrity_service.py:437-563 | Finds no failure if and only if rows are linked and hashed, event ids are distinct, no legacy event follows a live one, and the head record matches |
| AuditChain.AppendKeepsVerified | backend/services/audit_integrity_service.py:376-434 | A verified log accepts a live event with a new id and is verified afterwards |
| AuditChain.AppendVerifiedExactly | backend/services/audit_integrity_service.py:376-434 | A verified log stays verified with exactly the events that are not legacy and have a new id |
| AuditChain.VerifiedExactly | backend/services/audit_integrity_service.py:437-563 | Row by row: verified means that each row names the hash of the one before it and carries its own, ids differ, legacy rows come before live ones, and the head record names the last row, the last legacy row and their number |
| AuditChain.HeadIsDetermined | backend/services/audit_integrity_service.py:520-563 | Verified logs with the same rows have the same head record |
| AuditChain.AppendLinksToHead | scripts/rotate_server_credentials.py:412-493 | An append succeeds exactly when the head names the latest row; the new row names the old head hash and the new head names the new row |
| AuditChain.HeadDeterminesEvents | backend/services/audit_integrity_service.py:207-209 | With an injective hash, verified logs with equal head hashes record the same events in the same order |
| Recovery.Host.RecoverRoot | scripts/recover_mariadb_root.py:522-643 | From any state in which the two servers do not run together, each of the eight exits is taken exactly under its condition on gates, environment and accounts, among them: stopped safely exactly when something is raised in the guarded part and the handler has the service running again, and not restored exactly when it has not. Refusals before staging change nothing; at every moment the two servers never run together and the staged secret is in the vault before root can change; root is reset exactly when the temporary server runs the init file. Success and failed validation leave the service as the last query found it, the init file of the rotation gone, and root open with the staged password on a server the rotation can resume. A run that found the service running leaves it down without saying that it could not be restored exactly when that last query finds it not running |
| Recovery.Host.TryRecovery | scripts/recover_mariadb_root.py:567-600 | The guarded part keeps exclusivity at every moment, completes exactly when its steps work and both logins open the reset accounts, and whatever stops it leaves service, temporary server and accounts exactly as the stage reached leaves them |
| Recovery.Host.RestoreAfterFailure | scripts/recover_mariadb_root.py:601-634 | The failure handler reports the service restored exactly when the temporary server is gone, the service state is known, and the service was running or its restart succeeds; the temporary server survives exactly when neither shutdown nor termination ends it; the init file goes exactly when one of two removals works |
| Recovery.PassesExactly | scripts/recover_mariadb_root.py:531-600 | A run reaches its last query exactly when every gate and step, named one by one, works and no tried password opens root |
| Recovery.RestoredByStage | scripts/recover_mariadb_root.py:502-519 | For each stage at which something is raised, what it takes to have the service running again |
| Recovery.RecoveredIsSafe | scripts/recover_mariadb_root.py:558-561 | A recovered server satisfies the rotation's safety invariant with the staged rotation still pending |
| Recovery.StoppedRunContinues | scripts/recover_mariadb_root.py:311-332 | Stopped at any moment after staging, the settings are unchanged, the next run resumes the same secrets, and if a candidate opens root the rotation can take over |
| RecoveryTheorems.RecoveryDuringRotation | scripts/recover_mariadb_root.py:295-308 | Root lost in the middle of a rotation, whatever its passwords are then: the other gates let a recovery start if and only if the application account is not yet altered, or the `.env` is rewritten and the vault keeps no application password of its own, or the two passwords are equal |
| RecoveryTheorems.NeitherToolGoesOn | scripts/recover_mariadb_root.py:550-556 | A server in the middle of a rotation, its application account altered and its root password unknown: every recovery is refused at its start and every rotation run changes nothing |
| RecoveryTheorems.RecoveryCanEndStopped | scripts/recover_mariadb_root.py:636-637 | A server on which every step of the recovery works and the last query finds the service stopped |
| RecoveryTheorems.NeverLockedOutTogether | scripts/recover_mariadb_root.py:522-634 | Over any sequence of rotation and recovery runs, each cut off anywhere, and of restarts: both tools can read their settings, the two servers never run together, an application account that opens keeps opening, and once root opens too it stays so and no init file is touched |
| RecoveryTheorems.MomentIsReadable | scripts/recover_mariadb_root.py:311-332 | Every moment of a recovery is one from which the next run of either tool can read its settings, with the application account as reachable as before |
| RecoveryTheorems.InitFileRemoved | scripts/recover_mariadb_root.py:576-634 | An init file disappears only in an admitted recovery of its own rotation |
| RecoveryTheorems.InitFileCanStay | scripts/recover_mariadb_root.py:550-580 | A recovery cut off between the reset and the removal leaves its init file on a server that no later run of either tool frees of it |
| Recovery.ResetOpensRoot | scripts/recover_mariadb_root.py:368-376 | The init file opens root@localhost and takes no access from another account |
| RepairTheorems.PlannerAgreesWithChecker | scripts/phase6_financial_reconciliation_recovery.py:75-255 | Candidates and blockers of the planner together number exactly the rows the report counts, and a plan is complete if and only if the three repairable counts are zero |
| RepairTheorems.RecoveryReachesFixpoint | scripts/phase6_financial_reconciliation_recovery.py:486-498 | After a ready plan is applied, planning again yields a complete plan and the three repairable counts are zero |
| RepairTheorems.NoCheckGetsWorse | scripts/phase6_financial_reconciliation_preflight.py:102-204 | With non-negative payment charges, none of the sixteen count checks increases through the repair |
| RepairTheorems.ChecksGrowExactly | scripts/phase6_financial_reconciliation_preflight.py:102-204 | With any charges, a count check increases through a ready repair if and only if it is the one of invalid billing amounts and more valid mismatched billings have a negative linked total than invalid ones are mended |
| RepairTheorems.NegativeChargeIsCopied | scripts/phase6_financial_reconciliation_recovery.py:75-126 | A store with one negative payment penalty whose ready repair raises the count of invalid billing amounts |
| RepairMeaning.PaymentPlannedExactly | scripts/phase6_financial_reconciliation_recovery.py:129-212 | A text is planned as the tax year of a payment exactly when the payment lacks only its year, has allocations, all of one year, the text is that year in digits, and no other payment has the property, receipt number, year and day |
| RepairMeaning.PaymentBlockedExactly | scripts/phase6_financial_reconciliation_recovery.py:129-204 | An incomplete payment blocks as ambiguous exactly when it lacks something else or has not exactly one allocation year, and as a collision exactly when another payment has the identity |
| RepairMeaning.BillingPlannedExactly | scripts/phase6_financial_reconciliation_recovery.py:75-126 | New charges are planned for a billing exactly when it is paid, no payment of it has a second allocation, and a charge is not the sum over its payments; the change replaces both by the sums |
| ReconciliationMeaning.BillingBlockedExactly | scripts/phase6_financial_reconciliation_recovery.py:75-126 | A billing blocks the plan exactly when it is paid, one of its payments has a second allocation, and its charges are not the joined sums |
| RepairMeaning.ReceiptPlannedExactly | scripts/phase6_financial_reconciliation_recovery.py:215-231 | A receipt's reference is to be cleared exactly when it names a payment that no row has |
| RepairMeaning.PaymentFollowsPlan | scripts/phase6_financial_reconciliation_recovery.py:384-396 | A repaired payment takes exactly the planned year, and the others stay |
| RepairMeaning.BillingFollowsPlan | scripts/phase6_financial_reconciliation_recovery.py:345-361 | A repaired billing takes exactly the planned charges, and the others stay |
| RepairMeaning.ReceiptFollowsPlan | scripts/phase6_financial_reconciliation_recovery.py:409-420 | A repaired receipt names no payment, and the others stay |
| RepairMeaning.EventsTellRows | scripts/phase6_financial_reconciliation_recovery.py:345-432 | Every event of an applied plan, in order, tells what its row held before and holds after, live, with the stamped time and the next identifier |
| RepairMeaning.StaleBilling | scripts/phase6_financial_reconciliation_recovery.py:336-361 | A billing change is refused exactly when no row has its id and the charges planned from; otherwise it changes that row alone |
| RepairMeaning.StalePayment | scripts/phase6_financial_reconciliation_recovery.py:384-396 | A payment change is refused as stale exactly when no row has its id and still lacks a year; otherwise it changes that row alone |
| RepairMeaning.StaleReceipt | scripts/phase6_financial_reconciliation_recovery.py:409-420 | A receipt change is refused exactly when no row has its id and still names the payment; otherwise it changes that row alone |
| RepairMeaning.KeyShape | scripts/phase6_financial_reconciliation_recovery.py:169-185 | A compared text is the part between its outer spaces, in capitals |
| RepairMeaning.BlankExactly | scripts/phase6_financial_reconciliation_recovery.py:129-149 | A text is blank exactly when it is absent or all spaces |
| RepairMeaning.OldYearToldExactly | scripts/phase6_financial_reconciliation_recovery.py:397-406 | The event of a planned payment tells its old year exactly when the row held none |
| RepairMeaning.SpaceYearIsPlanned | scripts/phase6_financial_reconciliation_recovery.py:129-149 | A payment whose year is a space, with one allocation: the plan is ready and gives it that year |
| RepairGuarantees.RepairedBillingsShareNoPayment | scripts/phase6_financial_reconciliation_recovery.py:104-117 | Payments linked to different repaired billings are different |
| RepairGuarantees.ChargesCountEachPaymentOnce | scripts/phase6_financial_reconciliation_recovery.py:75-126 | The new charges of all repaired billings add up to the charges of the payments linked to them, each counted once |
| RepairGuarantees.RepairedDiffersFromComplete | scripts/phase6_financial_reconciliation_recovery.py:169-204 | A repaired payment's normalised identity differs from that of every payment that was complete in the planned snapshot |
| RepairGuarantees.NewDuplicatesAreTwins | scripts/phase6_financial_reconciliation_recovery.py:169-204 | The repair creates a duplicate identity if and only if two planned payments have the same property, payment day and single allocation year, and OR numbers equal up to case and outer blanks |
| RepairGuarantees.TwinsTakeOneIdentity | scripts/phase6_financial_reconciliation_recovery.py:154-204 | Planned payments are such twins if and only if their repaired rows have one normalised identity |
| RepairGuarantees.RepairCanCreateDuplicates | scripts/phase6_financial_reconciliation_recovery.py:169-204 | A store whose plan has no blocker, whose repair is accepted by the unique index, and which ends with a duplicate identity it did not have |
| RepairPlan.ReadyMeansUnblocked | scripts/phase6_financial_reconciliation_recovery.py:234-255 | A plan is ready if and only if every mismatched billing is unambiguous and every incomplete payment can be repaired |
| RepairPlan.UnambiguousMeansSingleLinks | scripts/phase6_financial_reconciliation_recovery.py:104-117 | A linked billing is unambiguous if and only if each of its payments has a single allocation |
| RepairApply.PlanApplies | scripts/phase6_financial_reconciliation_recovery.py:343-432 | Applied to the data it was built from, an unblocked plan succeeds if and only if the audit log is at its head and no two planned payments agree in property, OR number, time of payment and single allocation year; with the log at its head it otherwise fails on the unique index; success leaves exactly the planned fields changed and one audit event per change, in order |
| RepairApply.ExactTwinsClash | backend/models.py:106-115 | Planned payments agree in those four if and only if their repaired rows clash in the unique index |
| RepairApply.ReadyPlanCanBeRefused | scripts/phase6_financial_reconciliation_recovery.py:384-407 | Two payments of one receipt at the same second: the plan is ready and the unique index refuses it |
| RepairApply.BillingTarget | scripts/phase6_financial_reconciliation_recovery.py:345-360 | At its turn a planned billing update matches exactly one row and repairs exactly that row |
| RepairApply.ReceiptTarget | scripts/phase6_financial_reconciliation_recovery.py:408-415 | At its turn a planned receipt update matches exactly one row and clears exactly its reference |
| RepairTool.AppliedPlanKeepsSeal | scripts/phase6_financial_reconciliation_recovery.py:361-378 | Whatever the plan, when all its changes are applied a verified audit log is still verified |
| RepairTool.RecoveryOutcome | scripts/phase6_financial_reconciliation_recovery.py:468-498 | On a valid store with a verified log only two planned payments with the same property, OR number, time and allocation year stop an unblocked plan, and both checks after the commit pass |
| RepairTool.Session.BillingCandidates | scripts/phase6_financial_reconciliation_recovery.py:75-126 | The loop splits the mismatched billings, in id order, into changes and blockers |
| RepairTool.Session.PaymentCandidates | scripts/phase6_financial_reconciliation_recovery.py:129-212 | The loop splits the incomplete payments, in id order, into changes, ambiguous and colliding ones |
| RepairTool.Session.ApplyChanges | scripts/phase6_financial_reconciliation_recovery.py:343-432 | The in-place updates give the specified result or its first error, and on success the returned counts are those of the plan and sum to its change count |
| RepairTool.Session.ApplyRecovery | scripts/phase6_financial_reconciliation_recovery.py:435-510 | The command succeeds only if all gates hold, the plan is still the one that was backed up and the commit works; then the plan is complete, the audit verified and the counts are those of the plan. Each of the twelve refusals is given exactly for its gate, in the tool's order; every refusal before the commit leaves the database as it was; on a valid store the conditions are exact and the checks after the commit never fail |
| ReconciliationReport.CaptureSchemaStatus | scripts/phase6_financial_reconciliation_preflight.py:241-321 | The loops over the money columns give the missing and the non-decimal ones of the catalogue |
| ReconciliationReport.FinancialTotals | scripts/phase6_financial_reconciliation_preflight.py:368-405 | A total is taken exactly when its table is present and none of its required columns is missing, and is zero otherwise |
| ReconciliationReport.BuildFindings | scripts/phase6_financial_reconciliation_preflight.py:544-701 | The branches and loops append the specified findings in the specified order |
| ReconciliationReport.AssembleReport | scripts/phase6_financial_reconciliation_preflight.py:704-740 | The status is PASS if and only if the schema is complete, all sixteen counts and four invariants of the data are zero, the totals agree and the audit and readiness gates hold; it is FAIL if and only if a blocking one of these does not hold |
| ReconciliationReport.PassMeansClean | scripts/phase6_financial_reconciliation_preflight.py:717-718 | PASS is equivalent to clean data, and a passing report evaluated every count: each is zero, none was skipped |
| ReconciliationReport.FailMeansBlocked | scripts/phase6_financial_reconciliation_preflight.py:544-701 | The gate is not FAIL if and only if the schema is complete and every blocking check holds of the data |
| ReconciliationReport.NothingSkipped | scripts/phase6_financial_reconciliation_preflight.py:408-443 | Over a complete schema every count, invariant and total is evaluated on the data |
| ReconciliationReport.SchemaMeans | scripts/phase6_financial_reconciliation_preflight.py:553-611 | The schema part has no blocking finding if and only if nothing required is missing |
| Sums.CountIsRows | scripts/phase6_financial_reconciliation_preflight.py:102-204 | A count is the number of rows that qualify |
| ReconciliationMeaning.ChecksExactly | scripts/phase6_financial_reconciliation_preflight.py:102-204 | Each of the sixteen checks counts nothing exactly when the rows are as it asks, spelled out on rows |
| ReconciliationMeaning.InvariantsExactly | backend/services/migration_service.py:392-435 | Each of the four invariants counts nothing exactly when the rows keep it, spelled out on rows |
| ReconciliationMeaning.PassMeansCleanRows | scripts/phase6_financial_reconciliation_preflight.py:704-740 | On keyed tables of a complete schema the report passes exactly when every row is as all checks and invariants ask |
| ReconciliationMeaning.FindingsTellChecks | scripts/phase6_financial_reconciliation_preflight.py:633-647 | Over a complete schema the report has one finding for each check that fails, with its count, severity and blocking, and no other |
| ReconciliationMeaning.FindingsTellInvariants | scripts/phase6_financial_reconciliation_preflight.py:544-660 | And one critical finding, with its count, for each invariant that is violated |
| ReconciliationMeaning.FindingsTellRest | scripts/phase6_financial_reconciliation_preflight.py:544-701 | The other findings, one by one: schema lists, schema flags, unverified groups, variances, audit and readiness |
| ReconciliationMeaning.SchemaExactly | scripts/phase6_financial_reconciliation_preflight.py:241-321 | What each list and flag of the schema status holds |
| ReconciliationMeaning.CountsEvaluatedExactly | scripts/phase6_financial_reconciliation_preflight.py:408-443 | A check is evaluated exactly when every table that it reads is there with all required columns |
| ReconciliationMeaning.InvariantsEvaluatedExactly | scripts/phase6_financial_reconciliation_preflight.py:408-443 | The invariants are evaluated exactly when the three financial tables are there with all required columns |
| ReconciliationMeaning.TotalsTakenExactly | scripts/phase6_financial_reconciliation_preflight.py:368-405 | A total is taken exactly when its table is there with all required columns |
| ReconciliationMeaning.CountReadsTables | scripts/phase6_financial_reconciliation_preflight.py:102-204 | A check depends on no table beside those that it is declared to read |
| ReconciliationTheorems.AllocationsAreShared | scripts/phase6_financial_reconciliation_preflight.py:150-159 | Summed over rows with unique ids, what allocations give to each row is what the non-orphan allocations hold in all |
| ReconciliationTheorems.BillingVarianceFollows | scripts/phase6_financial_reconciliation_preflight.py:368-405 | Per-billing agreement and no orphan allocation make the aggregate billing variance zero to the cent |
| ReconciliationTheorems.PaymentVarianceFollows | backend/services/migration_service.py:421-430 | Balanced payments and no orphan allocation make the aggregate payment variance zero to the cent |
| ReconciliationTheorems.ZeroCountsPass | scripts/phase6_financial_reconciliation_preflight.py:544-701 | On keyed tables with a complete schema the report passes if and only if all its counts are zero; the variance findings add nothing |
| ReconciliationTheorems.ReportAfterRecovery | scripts/phase6_financial_reconciliation_recovery.py:435-510 | If only the repairable checks fail, the report on the repaired data is PASS, or FAIL exactly when two planned payments have the same property, day, allocation year and OR number up to case and blanks |
| ReconciliationTheorems.RepairCanFailReport | scripts/phase6_financial_reconciliation_recovery.py:435-510 | Two payments of one receipt, a second apart: only repairable checks fail before the repair, the plan is ready, and the report on the repaired data is FAIL |
| ReconciliationTheorems.InvariantsKept | backend/services/migration_service.py:392-435 | The repair changes no financial invariant count except possibly duplicate identities |
| Alerts.AlertDirectory.ProcessHealthReport | scripts/operations_alerting.py:157-253 | Rejects a bad interval or a bad state file without a write; otherwise writes the specified event, if any, to the file of its time and then replaces the state |
| Alerts.AlertDirectory.FindingReferences | scripts/operations_alerting.py:57-72 | Skips entries that are not objects, fills defaults, and returns the references in order |
| Alerts.WrittenStateLoads | scripts/operations_alerting.py:91-112 | Every state that is written is accepted when it is loaded |
| Alerts.LoadableExactly | scripts/operations_alerting.py:91-112 | A state file is loaded exactly when it is whole |
| Alerts.PrintsTellFindings | scripts/operations_alerting.py:57-81 | Two alerts that differ in one finding have one fingerprint exactly when component, code and severity of that finding are the same after defaults and capitals |
| Alerts.PrintsIgnoreOthers | scripts/operations_alerting.py:57-81 | Entries that are not objects do not count, a PASS has no fingerprint, and alerts of different status never share one |
| Alerts.ActionExactly | scripts/operations_alerting.py:187-205 | The action on each report of a stream, by it and the report before it |
| Alerts.EventTellsReport | scripts/operations_alerting.py:206-216 | An event is written for each report that is neither idle nor suppressed, and tells its time, action, status, name and findings and the status before it |
| Alerts.StateAt | scripts/operations_alerting.py:218-245 | The state tells the last report: status, activity, fingerprint, time, name and findings |
| Alerts.EventLanguage | scripts/operations_alerting.py:187-216 | Over every stream the events form a prefix of (OPENED (CHANGED or REMINDER)* RESOLVED)*, and the state is active exactly when the last alert is open |
| Alerts.FindingOrderIsIrrelevant | scripts/operations_alerting.py:57-81 | Permuting the findings of a report changes neither action, event nor state |
| Alerts.StreakIsCounted | scripts/operations_alerting.py:218-245 | The occurrence count and first-seen time are the length and start of the current run of equal alerts |
| Alerts.PassIsInactive | scripts/operations_alerting.py:218-245 | After a PASS nothing is active and the count is zero |
| Alerts.ReminderExactlyWhenDue | scripts/operations_alerting.py:187-205 | Inside a run of equal alerts a report emits a reminder if and only if the last event is old enough |
| Alerts.FirstReportEmits | scripts/operations_alerting.py:187-205 | The first report of a run of equal alerts always opens or changes the alert |
| Alerts.EventsAreSpaced | scripts/operations_alerting.py:187-205 | Any two events inside one run of equal alerts are at least the reminder interval apart |
| Alerts.CrashesLoseNoEvent | scripts/operations_alerting.py:206-253 | With crashes anywhere, the state is that of the completed reports and every event of theirs is written; a crash between the writes can only add one |
| Alerts.FilesKeepAttempts | scripts/operations_alerting.py:115-118 | Over any attempts, crashed or not, every written event keeps its file if and only if no two attempts at the same time write different events |
| Alerts.CrashesLoseNoFile | scripts/operations_alerting.py:115-118 | With crashes anywhere and no two attempts at the same time, the file of every event of a completed report is there |
| Alerts.EqualTimesOverwrite | scripts/operations_alerting.py:115-118 | Two reports at one time: the file of the CHANGED event replaces that of the OPENED one |
| Alerts.RetryEmitsAgain | scripts/operations_alerting.py:187-216 | An alert whose state write was lost emits the same kind of event when it is reported again |
| TaxYears.NormalizeTaxYears | api_clients/billing_service.py:12-41 | The nested loops with the `seen` set compute the specified list for every text |
| TaxYears.ValidateTaxYearText | api_clients/billing_service.py:61-81 | Accepts exactly the non-blank texts whose parts are four-digit years and ascending ranges; otherwise names the first offending part |
| TaxYears.RoundTrip | api_clients/billing_service.py:12-46 | Parsing what the printer makes of a text gives what parsing the text gives, for every text |
| TaxYears.NormalizedOrder | api_clients/billing_service.py:34-41 | The list has no repeats and keeps the order of first appearance |
| TaxYears.PartsExactly | api_clients/billing_service.py:12-22 | Commas and semicolons separate parts, nothing else does, and a part without outer blanks is the text between two of them |
| TaxYears.FormattedExactly | api_clients/billing_service.py:44-46 | The printed text is the items in order with a comma and a blank between them |
| TaxYears.AcceptedExactly | api_clients/billing_service.py:61-81 | A part is accepted exactly when it is four digits, or two such years with a hyphen between them, the second not the lower |
| TaxYears.DedupeKeepsFirstAppearances | api_clients/billing_service.py:34-41 | Dropping repeats keeps each item once, at the place of its first appearance |
| TaxYears.ValidatedTextIsYears | api_clients/billing_service.py:17-32 | Validated text becomes nothing but four-digit years if and only if every range starts at 1000 or later and spans at most fifteen years |
| TaxYears.ValidatedYearsExact | api_clients/billing_service.py:12-41 | Then the list is exactly the set of years the text denotes, each once |
| TaxYears.LongRangeIsKept | api_clients/billing_service.py:28-32 | The text 2000-2016 is validated and its list is that text itself |
| TaxYears.EarlyYearsLoseZeros | api_clients/billing_service.py:29-31 | The text 0990-0995 is validated and its list is the three-digit years 990 to 995 |
| ClientSession.ReplacedOnce | api_clients/api_helper.py:191-234 | Over every interleaving, a token is replaced by a successful refresh at most once and no later call is made for it |
| ClientSession.LateHolderMakesNoCall | api_clients/api_helper.py:199-206 | Over every interleaving, a request that holds a replaced token never decides on a call: the comparison sends it to report, by one more read, whether a session exists |
| ClientSession.SentAtMostTwice | api_clients/api_helper.py:323-376 | Over every interleaving a request is sent at most twice, and the second time never with the token that was rejected |
| ClientSession.OneCallAtATime | api_clients/api_helper.py:197-220 | Over every interleaving at most one refresh call is under way |
| ClientSession.StepSound | api_clients/api_helper.py:184-234 | Every step of requests, logins and logouts, each with at most one read or assignment of a shared token, keeps the session invariant |
| ClientTool.Client.TryRefresh | api_clients/api_helper.py:191-234 | Running alone, a call is made exactly when there is a refresh token and the session token is still the one that caused it; then a new token is installed, a refusal clears both tokens and anything else leaves them; without a call nothing changes, and the answer says whether a session exists |
| ClientTool.Client.ApiRequest | api_clients/api_helper.py:269-376 | Running alone, by the tokens before it: when the request is sent at all, which token the first and the second attempt carry, a second attempt exactly when the first carried a token, was rejected, the session was renewed and the body can be rewound, the failure to rewind exactly in that case otherwise, the response returned, and the two tokens left |
| ClientTool.Client.ClearTokens | api_clients/api_helper.py:184-188 | Clears the two tokens one after the other, without the lock |
| RolloutChecks.EvaluatePreflight | scripts/manage_duplicate_td_rollout.py:331-423 | The error list is empty if and only if schema, cloud, backup and pilot conditions hold and only the pilot group is duplicated; each error is listed exactly for its fault |
| RolloutChecks.EvaluateAcceptance | scripts/manage_duplicate_td_rollout.py:499-538 | The error list is empty if and only if the pilot has two or more verified, authorised properties under one reference, no cross allocation, both audit events and a later backup; each error is listed exactly for its fault, and with fewer than two properties there is no other |
| RolloutChecks.OneReference | scripts/manage_duplicate_td_rollout.py:519-521 | One non-blank element in the reference set means that all properties share one non-blank reference |
| Rollout.UnrestrictedOnlyByExpansion | scripts/manage_duplicate_td_rollout.py:785-862 | From a disabled vault, after any sequence of attempts with any crashes and failed restores, duplicates are enabled without a pilot only if an effective expansion follows an effective activation and no effective deactivation came after that activation |
| Rollout.EnabledByActivation | scripts/manage_duplicate_td_rollout.py:785-862 | From a disabled vault, duplicates are enabled only under a standing activation |
| Rollout.GatesExactly | scripts/manage_duplicate_td_rollout.py:753-862 | An attempt is refused exactly when it does not meet the gates of its mode, spelled out on preflight, acceptance, vault and administrator, or is not elevated; every effective attempt met them |
| Rollout.OutcomeExactly | scripts/manage_duplicate_td_rollout.py:556-601 | Each outcome is reached exactly under its condition on gates, writes, log, commit, restore and crash, and so is a lasting change of the vault |
| Rollout.EffectiveChanges | scripts/manage_duplicate_td_rollout.py:571-579 | An effective attempt sets the flag, sets the pilot to the named TD or removes it, records the time of an expansion, and changes no other key |
| Rollout.CommittedEvent | scripts/manage_duplicate_td_rollout.py:588-598 | The event of a committed attempt names its mode and the settings before and after it |
| Rollout.EnabledExactly | scripts/manage_duplicate_td_rollout.py:838-838 | The command takes duplicates for enabled exactly when the flag, between outer blanks and in any case, is 1, true, yes or on |
| Rollout.SettingExactly | scripts/manage_duplicate_td_rollout.py:566-571 | The recorded setting is enabled exactly when the command takes it for enabled and the flag has no outer blanks |
| Rollout.BlankFlagIsMisrecorded | scripts/manage_duplicate_td_rollout.py:566-571 | A flag with a blank before it is taken for enabled and recorded as disabled |
| Rollout.BothOrNeither | scripts/manage_duplicate_td_rollout.py:556-601 | For every attempt, vault and audit log change together or not at all unless the write is abandoned: by a crash after the replacement, by a write that fails after it, or by a restore that fails before it; then the vault alone changes |
| Rollout.UnloggedDeactivation | scripts/manage_duplicate_td_rollout.py:571-571 | Without any crash, a deactivation whose vault write fails after the replacement disables duplicates and logs nothing |
| Rollout.TrailTellsVault | scripts/manage_duplicate_td_rollout.py:556-601 | Over any attempts, the setting of the vault is at every point what the latest audit event says, each event starting where the one before ended, if and only if no attempt abandoned a write that changes the setting |
| Rollout.EffectiveSets | scripts/manage_duplicate_td_rollout.py:785-862 | An effective activation restricts to a non-blank pilot, an expansion needs an enabled vault and removes the restriction, a deactivation disables |
| Rollout.Machine.WriteRolloutState | scripts/manage_duplicate_td_rollout.py:556-601 | The vault write, the audit commit and the compensating restore leave exactly the described vault and audit for every outcome, among them a write or a restore that fails after it has replaced the file |
| Rollout.Machine.Run | scripts/manage_duplicate_td_rollout.py:753-862 | The mode dispatch lets a change through exactly when the gates of its mode hold |
| Percentile.NearestRankMeaning | scripts/phase7_performance_timeout_preflight.py:286-291 | For 0 < p <= 1 the result is one of the values, at least p*n values are not above it and fewer than p*n are below it |
| Percentile.RankedElement | scripts/phase7_performance_timeout_preflight.py:286-291 | The same for any share of the values between 0 and their number |
| Percentile.OutsideShares | scripts/phase7_performance_timeout_preflight.py:286-291 | No values, or a share of more than all of them, give an error; a share of none gives the least value |
| TempNames.ChooseName | api_clients/api_helper.py:573-579 | The search ends on the first unused candidate, after at most one more probe than there are existing files |
| TempNames.CandidatesDiffer | api_clients/api_helper.py:573-579 | No two candidates are the same name |

## Left out

- SHA-256, canonical JSON and fingerprints are free injective constructors: equal exactly for equal contents.
- Atomic file replacement, file permissions, TLS, PowerShell and `sc.exe` are single steps or inputs that say whether they worked; wait loops are inputs that say how they ended.
- Text is ASCII for blanks, digits and letter case; `str.splitlines` boundaries up to U+2029 are modelled.
- Reading `.env` for settings: the last assignment wins and is stripped; quoting, `export` and interpolation of the dotenv reader are not modelled.
- A port with a sign, underscores or inner blanks, which `int()` also reads, counts as no number.
- Secrets read back from the vault are taken to be as the tool generates them, on one line and without outer blanks, in the safety invariant of rotation and recovery.
- Which `mysql.user` row serves a connection is one fixed host entry per account kind; host patterns and their precedence are not modelled.
- RepairTool.Session.ApplyRecovery: another writer between the commit and the check that follows it is not modelled; one during the backup is.
- RepairApply.PlanApplies: the payment unique index compares columns exactly; a case-insensitive collation would reject more twins, at the same place in the run.
- Column lengths, and the half-cent tolerance of the comparisons, which is exact equality on two-decimal amounts.
- ReconciliationReport.BuildFindings: finding texts are not modelled, and the duplicate-TD group count, the audit status and the readiness issues are inputs.
- ReconciliationReport.CaptureSchemaStatus: missing tables, columns, indexes and keys are sets, without the order of the lists.
- Alerts: retention and pruning of old event files, and capture of the health report itself.
- ClientSession: the connection status indicator, the offline cache and idempotency keys; the server is assumed never to issue an access token twice.
- ClientTool.Client.ApiRequest: exceptions of the transport end the request without touching the tokens and are not separate outcomes.
- Rollout: the migration mode, the collection of the snapshots from the database, and two operators acting at once.
- The query timing loop around the percentile, and decimal formatting of amounts and floats.
- The other certification and preflight scripts, the API supervisor, the web services, the desktop screens and PDF layout.
