# Rolling budget: a verified model

A Dafny model of the rolling-budget API and proofs of what its services promise.

A financial connector keeps the database current in three steps. It begins a *run*
against a configuration version, uploads numbered batches of transactions into
staging, and commits. The commit validates the run, replaces or merges the live
transactions, prunes them to each category's rolling window, activates a pending
configuration when the run rebuilt it, and advances the sync revision, all in one
transaction. Configuration writes interleave with this under compare-and-set on an
edit hash, and the dashboard adds up what is live. An OAuth 2.1 authorization server
hands out and rotates the tokens that protect the API; two migrations rewrite stored
data.

## Layout

| file | contents |
|---|---|
| `Options.dfy`, `Model.dfy` | the tables as one immutable value, the request documents |
| `ConfigSpec.dfy`, `RefreshSpec.dfy` | what each service computes, as functions of the tables |
| `Invariant.dfy` | the global invariant `Inv`, and its part `Core` that migrated and repaired databases satisfy too |
| `ConfigProofs.dfy`, `StepProofs.dfy`, `UploadProofs.dfy`, `LedgerProofs.dfy`, `CommitProofs.dfy` | every write keeps it |
| `Traces.dfy`, `Retries.dfy`, `Serial.dfy`, `History.dfy`, `StagingTraces.dfy`, `ConfigTheorems.dfy`, `ConfigTraces.dfy` | theorems over arbitrary sequences of calls |
| `Answers.dfy`, `Refusals.dfy`, `PutAnswers.dfy`, `Totals.dfy` | what every answer and refusal of the services says about the tables around the call |
| `Replacements.dfy` | when a replaced pending row stays gone |
| `Rounds.dfy`, `Example.dfy` | short runs computed to their end, as witnesses for the conditions of other results |
| `Store.dfy` | the database as an object whose statements are guarded by its keys, checks, foreign keys and triggers |
| `MergeProofs.dfy`, `Publication.dfy`, `RefreshService.dfy`, `CommitService.dfy`, `ConfigService.dfy`, `Sessions.dfy`, `Dashboard.dfy` | the services with their loops over that object, proved against the functions |
| `OAuthSpec.dfy`, `OAuthService.dfy`, `OAuthProofs.dfy`, `OAuthTheorems.dfy`, `OAuthCleanup.dfy`, `OAuthLiveness.dfy`, `OAuthAcceptance.dfy`, `OAuthOrigins.dfy`, `OAuthStamps.dfy` | the token server |
| `SingleUser.dfy`, `Migrated.dfy`, `MoneyRepair.dfy`, `Money.dfy`, `Hashing.dfy` | migrations 0003 and 0004, fixed-point money, the checksum stream |

The table value `State` and the object `Store` are tied together by `Snapshot()`: every
service method ensures that the snapshot after it is the specified function of the
snapshot before it, so each theorem about sequences of calls holds of the object too
(`Sessions.ServeAll`). A query without an order is an arbitrary choice from the set of
rows still to visit, so every loop result holds for every order. A raised error after
the first statement is a rollback to the entry state. Short readings of the
definitions (`Traces.RefusalChangesNothing`, `StepProofs.BeginAcceptance`,
`ConfigTheorems.CompareAndSet`, `SingleUser.OldBeginStillReplays`) and corollaries
(`OAuthTheorems.IssuedPairIsAccepted`, right after the issue, and
`MoneyRepair.RepairKeepsInvariant`) stand beside the theorems and are not listed below.

Conventions: a digest is the value it digests, so digests agree exactly when the
documents do; dates are day numbers and money counts 1/10000 units; lists that the
schemas sort are sets; surrogate keys are replaced by the natural key of their table.
Each service call is one atomic step with one clock value, as the write lock provides.

Plausible properties that the code does not have, each with an input and the exact
condition:

- The budget repair says that it leaves user edits alone
  (migrations/versions/0004_sqlite_money_scale_repair.py:13). It reverts a legal edit of
  a budget by a factor of 10,000 (`Example.LegalEditLooksDamaged`); it leaves a database
  alone exactly when no budget looks that way (`MoneyRepair.LeftAloneIff`).
- The repair does not always undo the scaling: a budget that is no longer the active
  snapshot's stays 10,000 times too large (`MoneyRepair.RepairUndoesScaling`; the same
  run is an input).
- The repair restarts the count of commits (`MoneyRepair.RepairRestartsCount`, with the
  same run as input), so that a superseded run can be committed after all
  (`Example.RepairReopensRun`); `MoneyRepair.RepairReopens` says which.
- A replaced pending row does not stay gone while the posted row that names it lives
  (`Example.ReplacedRowReturns`): an incremental run may stage it again, which is the
  only way (`Replacements.GoneUnlessRestaged`).
- Clean-up of expired tokens can lose a revocation (`OAuthCleanup.RevocationCanBeLost`),
  in exactly one case (`OAuthCleanup.CleanupAndRevocation`), which shows in later
  replies (`OAuthLiveness.LostRevocationShows`) and without which no reply changes
  (`OAuthCleanup.CleanupKeepsAnswers`).

One statement holds only with a qualification that is shown to be needed: pruning is
invisible from the high-water day on (`History.LostOnEarlierDays`,
`Example.HighWaterIsSharp`).

## Model

| member | source | states |
|---|---|---|
| `Traces.ReachableInv` | src/rolling_budget_api/services/refresh_service.py:77-757 | After every interleaving of begin, upload, commit and put calls the tables satisfy the global invariant `Inv`: one active and at most one pending version, dense and distinct rule versions, exact run counters, serial commits, and live rows and links that belong to the active version, the last committed account set and their windows; without a sync row nothing is live. |
| `Traces.ExecuteKeepsCore` | src/rolling_budget_api/services/refresh_service.py:77-757 | The core of the invariant (configuration, runs and live data) survives every sequence of calls from any database that satisfies it. |
| `Traces.CallIsWrite` | src/rolling_budget_api/services/refresh_service.py:77-532 | Every call either leaves all tables alone or makes exactly one of four writes, whose guards hold in the state in which it happens. |
| `Sessions.ServeAll` | src/rolling_budget_api/services/refresh_service.py:77-532 | A database object served any sequence of requests, each as statements guarded by the database's own keys, checks and triggers, ends with the tables of the trace and answered every request as specified. |
| `Sessions.Serve` | src/rolling_budget_api/services/refresh_service.py:77-532 | One request in its own transaction: new tables, answer and invariant. |
| `RefreshService.BeginRefresh` | src/rolling_budget_api/services/refresh_service.py:77-169 | begin_refresh as the service runs it inserts at most one run row, legal under its guards, and gives the specified tables and answer, on every error path and on replay. |
| `RefreshService.CheckBegin` | src/rolling_budget_api/services/refresh_service.py:106-148 | The guards of begin in their order: configuration, pending version, window, first rebuild, account set. |
| `RefreshService.RequiredStart` | src/rolling_budget_api/services/refresh_service.py:117-132 | The loop over enabled rules finds the latest start day that covers every window: a start is accepted exactly when each enabled category's window is covered. |
| `RefreshService.NextNumber` | src/rolling_budget_api/services/config_service.py:402-402 | One more than the greatest number in use. |
| `StepProofs.BeginKeepsCore` | src/rolling_budget_api/services/refresh_service.py:149-162 | Inserting a run keeps the core invariant of any database that has it. |
| `Answers.FullBeginIff` | src/rolling_budget_api/services/refresh_service.py:106-169 | A rebuild under a new key is accepted exactly when it starts no later than any day in the window of an enabled category of the version it rebuilds, pending before active; it then inserts one run with that manifest and answers it with the linked rules, and is otherwise refused as incomplete. |
| `Answers.NeededDaysAreAccepted` | src/rolling_budget_api/services/refresh_service.py:289-296 | Whatever happens in between, no upload to an accepted rebuild is refused as outside the run's window on a day that an enabled category needs. |
| `Answers.IncrementalBeginIff` | src/rolling_budget_api/services/refresh_service.py:106-169 | An incremental run is accepted exactly when nothing is pending, something was published and the accounts are those of the last published run; each refusal has its reason. |
| `Answers.OtherBegins` | src/rolling_budget_api/services/refresh_service.py:87-108 | Without a configuration every new run is refused; a used key gives back its run as it stands now, or a conflict for another request. |
| `RefreshService.UploadBatch` | src/rolling_budget_api/services/refresh_service.py:203-358 | upload_batch as the service runs it: batch row, staged rows and counters are written by legal statements and equal the specification, replays and every refusal included. |
| `RefreshService.CheckItems` | src/rolling_budget_api/services/refresh_service.py:271-308 | The validation loop stops at the first transaction that fails, with that transaction's first error. |
| `RefreshService.CheckItem` | src/rolling_budget_api/services/refresh_service.py:272-308 | The checks of one transaction in their order. |
| `RefreshService.StageBatch` | src/rolling_budget_api/services/refresh_service.py:320-351 | The staging loop inserts one row per transaction, each legal under the foreign keys of the staging tables. |
| `RefreshService.StoreBatch` | src/rolling_budget_api/services/refresh_service.py:309-358 | The statements of an accepted upload lead exactly to the specified tables. |
| `UploadProofs.ItemsErrorNone` | src/rolling_budget_api/services/refresh_service.py:270-308 | A batch passes the loop exactly when every transaction fits the run's accounts, currency, window and enabled categories and no identity repeats in the batch or among the rows already staged. |
| `UploadProofs.AccountedStep` | src/rolling_budget_api/services/refresh_service.py:309-357 | Staging a batch keeps the accounting: every staged row has its batch, and each batch as many rows as it declares. |
| `UploadProofs.StagingKeepsCore` | src/rolling_budget_api/services/refresh_service.py:309-357 | Staging keeps the core invariant of any database. |
| `Answers.UploadAnswer` | src/rolling_budget_api/services/refresh_service.py:203-358 | In every trace a stored answer is a replay exactly when the batch had been received before, exactly when nothing changes; it counts the items sent, and a first upload counts up the run by them. |
| `Answers.UploadStages` | src/rolling_budget_api/services/refresh_service.py:309-352 | In every trace a first upload stages each item as sent, under its batch and the run's version, linked to the rule in force of exactly the categories it names, and leaves earlier staged rows alone. |
| `Refusals.UploadRefusal` | src/rolling_budget_api/services/refresh_service.py:212-308 | In every trace an upload is refused for the first reason on the list, down to the first faulty transaction and its first fault, and stored when there is none. |
| `StagingTraces.OpenRunAccounting` | src/rolling_budget_api/services/refresh_service.py:353-357 | In every trace an uncommitted run's counters equal its batches and its staged rows, and the rows are partitioned by batch. |
| `StagingTraces.CommitAccounting` | src/rolling_budget_api/services/refresh_service.py:426-438 | A commit passes only with batch indices exactly 0 to n-1, and records one number three ways: sum of declared sizes, run counter, staged rows. |
| `StagingTraces.StagedIsUploaded` | src/rolling_budget_api/services/refresh_service.py:320-351 | In every trace an open run has staged exactly the transactions uploaded to it, each under its batch with the rule versions on offer. |
| `StagingTraces.SplitCommits` | src/rolling_budget_api/services/refresh_service.py:419-532 | Two traces that upload the same transactions to a run, split and ordered differently, and then commit it, each with its own batch count: the commits are accepted or refused alike, and when accepted end with the same live data, configuration and sync row and the same item count. |
| `StagingTraces.FullCommitConserves` | src/rolling_budget_api/services/refresh_service.py:578-590 | A full commit splits what was staged disjointly into live rows, suppressed targets and rows outside every window, and the sizes sum to the run's item count. |
| `CommitService.CommitRefresh` | src/rolling_budget_api/services/refresh_service.py:370-532 | commit_refresh as the service runs it, with rollback on a late refusal, gives the specified tables and answer; each intermediate flush is a statement whose guards are proved. |
| `CommitService.CheckCommit` | src/rolling_budget_api/services/refresh_service.py:391-463 | The guards before the first write, in their order; when they pass, the batch list is complete and only the replacement check can still refuse. |
| `CommitService.IsComplete` | src/rolling_budget_api/services/refresh_service.py:426-435 | Comparing the sorted index list with 0..n-1 decides exactly whether a batch is missing or superfluous. |
| `CommitService.BatchIndices` | src/rolling_budget_api/services/refresh_service.py:426-432 | The batch indices in ascending order, each once. |
| `CommitService.SumBatches` | src/rolling_budget_api/services/refresh_service.py:436-438 | The loop over the batches builds the checksum chain and the item total in index order. |
| `CommitService.WriteCommit` | src/rolling_budget_api/services/refresh_service.py:465-532 | The write phase: the VALIDATED flush precedes the replacement check; on success the tables are exactly those of the specification. |
| `CommitService.FinishCommit` | src/rolling_budget_api/services/refresh_service.py:484-530 | The flushes after publication: committed run, activation, sync row, staging clean-up. |
| `CommitService.PublishLive` | src/rolling_budget_api/services/refresh_service.py:477-482 | Both merge strategies followed by pruning equal the closed form of publication. |
| `CommitService.Activate` | src/rolling_budget_api/services/refresh_service.py:492-509 | The old active version is superseded before the pending one is activated, so the one-active index and the rebuild trigger hold at both statements. |
| `CommitService.AdvanceState` | src/rolling_budget_api/services/refresh_service.py:492-530 | Activation, sync row and staging clean-up together. |
| `CommitService.ApplyPresentation` | src/rolling_budget_api/services/config_service.py:173-194 | The loop publishes the display and budget fields of the listed categories and leaves the other category rows alone; its missing-category branch is dead. |
| `CommitService.RunMoves` | migrations/versions/0003_single_user.py:744-767 | Both state changes of a commit are transitions the triggers allow, for empty and non-empty runs, and satisfy the committed-run check. |
| `CommitService.RetiredIs` | migrations/sqlite_support.py:789-819 | Superseding first keeps the one-active index at each of the two updates of an activation. |
| `CommitProofs.CommittingKeepsCore` | src/rolling_budget_api/services/refresh_service.py:465-530 | Committing keeps the core invariant of any database. |
| `CommitProofs.CommitSerial` | src/rolling_budget_api/services/refresh_service.py:511-523 | The serialisation invariant survives a commit. |
| `CommitProofs.PublishTyped` | src/rolling_budget_api/services/refresh_service.py:593-757 | What a commit publishes belongs to the run's version, currency, accounts and windows, and every row has a link. |
| `CommitProofs.CommitAcceptance` | src/rolling_budget_api/services/refresh_service.py:391-463 | Whatever the order of the checks, the exact condition under which a commit is accepted. |
| `Answers.CommitAnswer` | src/rolling_budget_api/services/refresh_service.py:377-532 | In every trace an accepted commit answers the number of batches it was told, the number of rows that were staged, and a receipt of the run, the item lists as uploaded in index order and the time of the call. |
| `Answers.CommitEffect` | src/rolling_budget_api/services/refresh_service.py:484-530 | What it leaves behind: the run's figures and times, the next revision naming the run, no staging of its own, its version active and the former active one superseded at that time. |
| `Refusals.CommitRefusal` | src/rolling_budget_api/services/refresh_service.py:380-463 | In every trace a commit is refused for the first obstacle on the list, and a committed run answers again only to the same completion data. |
| `Refusals.OnlyPendingReplaced` | src/rolling_budget_api/services/refresh_service.py:535-575 | A published run replaced pending rows only, staged or live, each named by one posted row. |
| `Publication.ValidatePendingReplacements` | src/rolling_budget_api/services/refresh_service.py:535-575 | For every order of the staged rows the loop accepts exactly when each link goes from a posted row to a pending one and no target is claimed twice, and then returns the set of targets. |
| `Publication.MergeIncremental` | src/rolling_budget_api/services/refresh_service.py:593-609 | For every order of the staged rows the in-place merge ends in the closed form: targets removed, remaining staged rows stored, first-seen provenance kept. |
| `Publication.ReplaceAllTransactions` | src/rolling_budget_api/services/refresh_service.py:578-590 | For every order the rebuild ends like the merge onto empty tables. |
| `Publication.StoreStaged` | src/rolling_budget_api/services/refresh_service.py:627-717 | Storing one row replaces it and its links, keeps who first saw it, and respects the keys of the live tables; its no-categories branch is dead. |
| `Publication.StoreLinks` | src/rolling_budget_api/services/refresh_service.py:697-717 | The category loop adds exactly the row's links, each allowed by the foreign keys. |
| `Publication.MergeOneStaged` | src/rolling_budget_api/services/refresh_service.py:602-609 | One iteration of the merge. |
| `Publication.DeleteLiveIdentity` | src/rolling_budget_api/services/refresh_service.py:612-624 | Removes one identity with its links and nothing else. |
| `Publication.PruneOutsideWindows` | src/rolling_budget_api/services/refresh_service.py:720-757 | For every order of rules and rows the two pruning loops end in the closed form: links before their category's window go, then rows without a link. |
| `Publication.PruneCategory` | src/rolling_budget_api/services/refresh_service.py:726-743 | Deletes exactly the links of one category that left its window. |
| `Publication.PruneRows` | src/rolling_budget_api/services/refresh_service.py:746-757 | Deletes exactly the rows without a link. |
| `MergeProofs.MergeStep` | src/rolling_budget_api/services/refresh_service.py:602-609 | Storing one more row extends the closed form by that row, whatever was stored before. |
| `MergeProofs.MergeEnd` | src/rolling_budget_api/services/refresh_service.py:535-609 | Skipping replacement targets loses nothing, because validated links have depth one. |
| `LedgerProofs.DepthOne` | src/rolling_budget_api/services/refresh_service.py:546-574 | A validated target is pending and links nowhere itself. |
| `LedgerProofs.IncrementalFrame` | src/rolling_budget_api/services/refresh_service.py:593-757 | After an incremental commit a row that is neither staged nor replaced keeps every field, and disappears exactly when none of its links is in window. |
| `LedgerProofs.UntouchedLinks` | src/rolling_budget_api/services/refresh_service.py:593-757 | Its links survive exactly when they are in window. |
| `LedgerProofs.ReplacedAreGone` | src/rolling_budget_api/services/refresh_service.py:602-606 | A replaced identity is not live after the commit that replaced it. |
| `Replacements.IncrementalKeepsGone` | src/rolling_budget_api/services/refresh_service.py:546-609 | An incremental commit keeps every replaced row gone while the row that names it lives, exactly when it does not stage again, in window, what an untouched live row has replaced. |
| `Replacements.FullKeepsGone` | src/rolling_budget_api/services/refresh_service.py:578-590 | A rebuild never leaves a row live that a live row replaces. |
| `Replacements.GoneUnlessRestaged` | src/rolling_budget_api/services/refresh_service.py:546-609 | In every trace: replaced rows stay gone throughout exactly when none of its incremental commits stages one of them again. |
| `Replacements.ReplacedMayReturn` | src/rolling_budget_api/services/refresh_service.py:546-609 | Exactly when both ends of one link are live after an incremental commit that leaves the naming row alone. |
| `Example.ReplacedRowReturns` | src/rolling_budget_api/services/refresh_service.py:546-609 | It happens: a rebuild with a pending row, a run with the posted row and a run that stages the pending row again end with both live. |
| `LedgerProofs.FullRow` | src/rolling_budget_api/services/refresh_service.py:578-757 | After a rebuild an identity is live exactly when it was staged, is not a target and has a link in window. |
| `LedgerProofs.FullConservation` | src/rolling_budget_api/services/refresh_service.py:578-757 | The three-way split of the staged rows of a rebuild. |
| `LedgerProofs.StagedIsPublished` | src/rolling_budget_api/services/refresh_service.py:627-717 | A staged row that is not replaced is published with its own content and links in window, and keeps who first saw it, and when, while its identity stays live. |
| `History.LiveIsFold` | src/rolling_budget_api/services/refresh_service.py:465-532 | In every trace the live data is the fold of the committed runs in commit order. |
| `History.PruningIsInvisible` | src/rolling_budget_api/services/refresh_service.py:720-757 | Against the same merges without any pruning, every category window selects the same rows on and after the largest end date committed since the last rebuild. |
| `History.FoldSimulates` | src/rolling_budget_api/services/refresh_service.py:593-757 | The simulation between pruned and unpruned live data over any chain of commits. |
| `History.LostOnEarlierDays` | src/rolling_budget_api/services/refresh_service.py:720-744 | The bound is sharp on every earlier day: after any history that ends with a rebuild, a row inside its window of that day and before its window of the high-water day is selected without pruning only. |
| `Example.HighWaterIsSharp` | src/rolling_budget_api/services/refresh_service.py:720-757 | A run of four calls in which the service itself prunes a row that the day before the high-water day would still select. |
| `History.LiveDatesBounded` | src/rolling_budget_api/services/refresh_service.py:289-296 | No live row is dated after the largest end date committed since the last rebuild. |
| `Serial.CommittedRunsAreSerial` | src/rolling_budget_api/services/refresh_service.py:445-451 | Of two committed runs the later one began after the earlier one committed. |
| `Serial.SerialFrom` | src/rolling_budget_api/services/refresh_service.py:445-451 | The same from any database with sound tables, whatever its migration did to earlier revisions. |
| `Serial.RevisionGrows` | src/rolling_budget_api/services/refresh_service.py:511-523 | From any start the revision grows by exactly the number of accepted commits. |
| `Serial.RevisionCountsCommits` | src/rolling_budget_api/services/refresh_service.py:511-523 | The sync revision is the number of publications and of committed runs, and no two committed runs began at the same revision. |
| `Retries.RetryIsExact` | src/rolling_budget_api/services/refresh_service.py:88-104 | A begin, batch or commit request that succeeded anywhere in a trace, sent again at any later point, changes no table and returns the same run with the state it has reached since, the same batch or the same receipt. |
| `Retries.RetryIsInvisible` | src/rolling_budget_api/services/refresh_service.py:234-241 | A trace with a retry inserted ends in the same tables as the trace without it. |
| `Retries.ExecuteKept` | migrations/versions/0003_single_user.py:741-782 | No call ever deletes or rewrites a version, a rule, a manifest, a batch or a committed run. |
| `ConfigService.PutConfig` | src/rolling_budget_api/services/config_service.py:261-429 | put_config as the service runs it gives the specified tables and answer in all four outcomes and on every refusal. |
| `ConfigService.AddRequested` | src/rolling_budget_api/services/config_service.py:356-395 | The loop creates missing category rows and rule versions and selects, for every item, the one version with its digest. |
| `ConfigService.AddRequestedItem` | src/rolling_budget_api/services/config_service.py:357-395 | One item: reuse the version with this digest, otherwise number a new one after the greatest. |
| `ConfigService.WriteNewVersion` | src/rolling_budget_api/services/config_service.py:348-428 | The statements of a first or a new pending version respect every guard and lead to the specified tables; publishing the snapshot of a first version, which is read back from the rows, changes nothing. |
| `ConfigService.ActiveSnapshot` | src/rolling_budget_api/services/config_service.py:128-150 | The snapshot listed from category rows and linked rules, in any order, is the one that the edit hash digests. |
| `ConfigService.InsertVersion` | src/rolling_budget_api/services/config_service.py:397-423 | The pending version is superseded before the next one is inserted, and the new links match rule rows. |
| `ConfigService.InsertLinks` | src/rolling_budget_api/services/config_service.py:416-423 | One link row per selected rule. |
| `ConfigService.CheckExpected` | src/rolling_budget_api/services/config_service.py:279-315 | The compare-and-set guard against the pending, else the active, edit hash. |
| `ConfigService.RetirePending` | src/rolling_budget_api/services/config_service.py:322-324 | Superseding the pending version. |
| `ConfigTheorems.PutReadsBack` | src/rolling_budget_api/services/config_service.py:321-429 | In all four outcomes the snapshot read afterwards normalises exactly to the request. |
| `ConfigTheorems.ActivationKeepsEdit` | src/rolling_budget_api/services/config_service.py:150-166 | The snapshot rebuilt from rows after activation equals the one read from the stored request before. |
| `ConfigTheorems.PendingIsIsolated` | src/rolling_budget_api/services/config_service.py:397-429 | Writing a new pending version leaves the active snapshot and its rules alone. |
| `ConfigProofs.StoredHashIsSemantic` | src/rolling_budget_api/services/config_service.py:91-108 | A version's stored digest equals the digest recomputed through its rule links. |
| `ConfigProofs.EarlierRuleIsReused` | src/rolling_budget_api/services/config_service.py:370-395 | Going back to an earlier rule selects the version it first received. |
| `ConfigTraces.PutRoundTrip` | src/rolling_budget_api/services/config_service.py:261-429 | Compare-and-set and read-your-write at any point of any trace. |
| `PutAnswers.PutAnswer` | src/rolling_budget_api/services/config_service.py:270-429 | In every trace a write of mixed currencies is refused, then one that does not name the current snapshot; otherwise it edits in place when the active version has its rules, changes nothing when it is what is pending, and else adds a version, active at once only if it is the first; a version that was pending is superseded at that time. |
| `PutAnswers.DigestCoversRules` | src/rolling_budget_api/services/config_service.py:75-88 | Two valid requests share a configuration digest exactly when they agree on timezone, currency, aggregation, keys and rules. |
| `PutAnswers.EditCoversAll` | src/rolling_budget_api/services/config_service.py:111-125 | They share an edit digest exactly when they agree on everything, in whatever order. |
| `ConfigTraces.ConfigIdentity` | src/rolling_budget_api/services/config_service.py:75-108 | In every trace each version's stored digest is its semantic digest, and versions are 1..n. |
| `ConfigTraces.RuleIdentity` | src/rolling_budget_api/services/config_service.py:370-395 | In every trace a category's rule versions are 1..m and no two have the same text. |
| `ConfigTraces.EarlierRuleKeepsItsVersion` | src/rolling_budget_api/services/config_service.py:370-395 | In every trace asking again for an earlier rule links its original version. |
| `ConfigTraces.PendingIsolation` | src/rolling_budget_api/services/config_service.py:340-429 | Any number of begins, uploads and pending writes changes nothing a dashboard reads. |
| `ConfigTraces.CommitKeepsEdit` | src/rolling_budget_api/services/refresh_service.py:492-509 | A commit, activation included, leaves the edit hash unchanged. |
| `ConfigTraces.CommitPublishesWhole` | src/rolling_budget_api/services/refresh_service.py:477-523 | After a commit the run's version is active, its snapshot is the one that was being edited, and every live row and link belongs to it. |
| `ConfigTheorems.DigestIgnoresPresentation` | src/rolling_budget_api/services/config_service.py:75-88 | Two requests share a digest exactly when they agree on timezone, currency, aggregation, keys and rules. |
| `Dashboard.GetDashboard` | src/rolling_budget_api/services/dashboard_service.py:29-151 | get_dashboard returns the enabled categories of the active version with the totals of their windows. |
| `Dashboard.EnabledCategories` | src/rolling_budget_api/services/dashboard_service.py:49-112 | The loop over rules, in any order, builds one view per enabled category. |
| `Dashboard.CategoryFigures` | src/rolling_budget_api/services/dashboard_service.py:70-76 | Spent, pending and refund totals and counts of the selected rows. |
| `Dashboard.AddUp` | src/rolling_budget_api/services/dashboard_service.py:70-76 | Adding up a column gives the same sum in every order of the rows. |
| `Totals.DashboardAddsUp` | src/rolling_budget_api/services/dashboard_service.py:49-112 | In every trace the dashboard shows an enabled category of the active version with its row and window; spent plus refunded is the sum of the amounts of the live rows that the window selects, refunds are theirs alone, and the same law holds for the pending rows. |
| `Totals.OnlyLinkedShown` | src/rolling_budget_api/services/dashboard_service.py:49-52 | It shows no other category. |
| `Totals.RebuildIsRequired` | src/rolling_budget_api/services/dashboard_service.py:136-145 | It asks for a full rebuild exactly when every new incremental run is refused for the lack of one, and names the pending version. |
| `Dashboard.DashboardIgnoresPruning` | src/rolling_budget_api/services/dashboard_service.py:50-76 | On and after the high-water day every figure equals the figure over a store that never pruned. |
| `Dashboard.DashboardIgnoresPending` | src/rolling_budget_api/services/dashboard_service.py:36-112 | Begins, uploads and pending writes leave every category row of the dashboard as it was. |
| `Dashboard.WindowSpansLookback` | src/rolling_budget_api/services/dashboard_service.py:53-53 | A window of n days holds exactly n days and ends on the day asked for. |
| `StoreModel.Store.InsertRun` | migrations/versions/0003_single_user.py:768-771 | Legal only with a fresh key, an existing version, ordered dates and, for incremental runs, the active version. |
| `StoreModel.Store.UpdateRun` | migrations/versions/0003_single_user.py:744-767 | Legal only for an unchanged manifest, a non-terminal run and an allowed state change. |
| `StoreModel.Store.InsertBatch` | migrations/versions/0003_single_user.py:841-845 | Legal only for an open run and a fresh index and idempotency key. |
| `StoreModel.Store.InsertStaged` | src/rolling_budget_api/db/models.py:372-475 | Legal only under the staging keys, the refund check and the rule links of the version. |
| `StoreModel.Store.InsertRow` | src/rolling_budget_api/db/models.py:482-516 | Legal only with a fresh identity, existing runs and a last run of the row's version. |
| `StoreModel.Store.InsertLink` | src/rolling_budget_api/db/models.py:550-580 | Legal only for a live row of the same version and a rule that version links. |
| `StoreModel.Store.UpdateConfig` | migrations/sqlite_support.py:775-819 | Legal only for unchanged content, an allowed status change, a committed rebuild before activation and one active version. |
| `StoreModel.Store.InsertConfig` | src/rolling_budget_api/db/models.py:177-206 | Legal only for a new version number and while the one-active index holds. |
| `StoreModel.Store.InsertRule` | src/rolling_budget_api/db/models.py:146-158 | Legal only for a new version with a new digest and a lookback in range. |
| `StoreModel.Store.WriteSync` | migrations/versions/0003_single_user.py:772-781 | Legal only for a committed run of the named version. |
| `OAuthService.ServeAll` | src/rolling_budget_api/oauth/service.py:207-508 | A server object after any run of calls holds the tables of the run and gave its answers. |
| `OAuthService.Server.IssueAuthorizationCode` | src/rolling_budget_api/oauth/service.py:207-235 | Clean-up and insertion of a code, or a refusal that changes nothing. |
| `OAuthService.Server.ExchangeAuthorizationCode` | src/rolling_budget_api/oauth/service.py:237-294 | A usable code is consumed and opens one family; anything else changes nothing. |
| `OAuthService.Server.RefreshTokens` | src/rolling_budget_api/oauth/service.py:296-363 | Rotation, replay detection that commits the revocation, and every refusal. |
| `OAuthService.Server.VerifyAccessToken` | src/rolling_budget_api/oauth/service.py:365-394 | Accepts exactly the unexpired, unrevoked tokens of a live family of this resource. |
| `OAuthService.Server.RevokeToken` | src/rolling_budget_api/oauth/service.py:396-428 | Revokes the token and its family, whichever kind it is. |
| `OAuthService.Server.RotateTokenPair` | src/rolling_budget_api/oauth/service.py:456-494 | Two fresh tokens, and the family's expiry moves with the refresh token. |
| `OAuthService.Server.IssueTokenPair` | src/rolling_budget_api/oauth/service.py:430-454 | A fresh family with its first pair. |
| `OAuthService.Server.DeleteExpired` | src/rolling_budget_api/oauth/service.py:504-508 | Deletes what expired; tokens go with their family. |
| `OAuthProofs.ReachableInv` | src/rolling_budget_api/oauth/service.py:207-508 | The token invariant after every run with valid settings and a clock that never runs backwards, even when the settings change in between. |
| `OAuthOrigins.ExchangeNeedsIssue` | src/rolling_budget_api/oauth/service.py:237-294 | An exchange that yields a pair was preceded by the issue of that very code, to the same client and redirect, for the same resource, under the same key and with the challenge of this verifier, less than its lifetime ago; it grants the scopes of that issue. |
| `OAuthOrigins.ExchangeUntilUsed` | src/rolling_budget_api/oauth/service.py:237-294 | Conversely an issued code yields a pair at any later point exactly when all of that matches, the client is still registered and the code was not exchanged before. |
| `OAuthOrigins.RotationNeedsPair` | src/rolling_budget_api/oauth/service.py:296-363 | A rotation that yields a pair presents the refresh token of an earlier pair, within its lifetime, for the same client and resource and under the same key, and grants the scopes asked for, all among the earlier ones. |
| `OAuthOrigins.VerificationNeedsPair` | src/rolling_budget_api/oauth/service.py:365-394 | An accepted access token comes from an earlier pair; the check reports that pair's client, resource, scopes and expiry. |
| `OAuthOrigins.IssueAnswer` | src/rolling_budget_api/oauth/service.py:207-235 | A code is issued to a registered client for this resource and for known scopes, and refused with the code of the first of these that fails. |
| `OAuthOrigins.ExchangeAnswer` | src/rolling_budget_api/oauth/service.py:246-276 | A refused exchange names the client, then the resource, then the grant, and changes nothing. |
| `OAuthOrigins.RotateAnswer` | src/rolling_budget_api/oauth/service.py:304-345 | So does a refused rotation; bad scopes have a code of their own exactly when all else is in order, and only a replay changes anything. |
| `OAuthStamps.StampsAreDated` | src/rolling_budget_api/oauth/service.py:324-428 | After every run a family is stamped revoked at the first call that revoked one of its tokens or replayed a consumed one, compromised at the first replay, and not at all without such a call. |
| `OAuthStamps.RevokedRowIsStamped` | src/rolling_budget_api/oauth/service.py:396-428 | Revoking a token stamps its own row, once, and no other token row. |
| `OAuthStamps.ConsumedRowIsStamped` | src/rolling_budget_api/oauth/service.py:278-355 | A pair stamps the code or refresh token it was given for, and adds one refresh token. |
| `OAuthStamps.IssueCleansUp` | src/rolling_budget_api/oauth/service.py:504-508 | Issuing a code deletes exactly the codes, families and access tokens that had expired and the tokens of those families. |
| `OAuthAcceptance.AcceptedUntilEnded` | src/rolling_budget_api/oauth/service.py:365-494 | At any later point of any run, under the same key and resource, the access token of an issued pair is accepted exactly when it has not expired and no call in between revoked a token of its family or replayed a consumed one; then with the scopes of the pair. |
| `OAuthAcceptance.RotatableUntilUsed` | src/rolling_budget_api/oauth/service.py:296-363 | And its refresh token is accepted from its known client exactly when it has not expired, was not used and its family was not ended in that sense. |
| `OAuthTheorems.OneLiveRefreshToken` | src/rolling_budget_api/oauth/service.py:324-355 | A family has at most one refresh token that was not consumed. |
| `OAuthTheorems.ScopesShrink` | src/rolling_budget_api/oauth/service.py:343-351 | Along a family's rotation chain scopes only shrink. |
| `OAuthTheorems.ScopesNeverExceedTheCode` | src/rolling_budget_api/oauth/service.py:278-288 | No token of the family that a code opened ever grants more than the code did. |
| `OAuthTheorems.CodeIsSingleUse` | src/rolling_budget_api/oauth/service.py:259-288 | A code that was exchanged never yields another pair, at any later point of any run, under the same signing key or another. |
| `OAuthTheorems.RefreshTokenIsSingleUse` | src/rolling_budget_api/oauth/service.py:310-356 | A refresh token that was rotated never yields another pair, at any later point and under any signing key. |
| `OAuthTheorems.ReplayEndsFamily` | src/rolling_budget_api/oauth/service.py:324-331 | After a replay of a consumed refresh token no token that ever belonged to its family is accepted again, in whatever run follows, clean-up included. |
| `OAuthTheorems.RevocationEndsFamily` | src/rolling_budget_api/oauth/service.py:396-428 | Revoking any token ends its family in the same sense. |
| `OAuthTheorems.FamilyOutlivesAccess` | src/rolling_budget_api/oauth/config.py:99-104 | Within the configured ranges every access token expires no later than its family, through any number of rotations. |
| `OAuthCleanup.CleanupKeepsAnswers` | src/rolling_budget_api/oauth/service.py:504-508 | Two runs that differ by one clean-up reply alike to every call, through the first call that revokes an access token whose row the clean-up deleted while its unrevoked family lives on. |
| `OAuthLiveness.LostRevocationShows` | src/rolling_budget_api/oauth/service.py:396-428 | After such a call the runs can be told apart while the family has not expired: under settings with its signing key, its resource and its client one still rotates its refresh token and the other refuses it. |
| `OAuthCleanup.CleanupAndRevocation` | src/rolling_budget_api/oauth/service.py:396-428 | Clean-up changes which live families a revocation ends in exactly that case. |
| `OAuthCleanup.RevocationCanBeLost` | src/rolling_budget_api/oauth/service.py:396-428 | The case happens after one exchange. |
| `OAuthLiveness.OneWayOn` | src/rolling_budget_api/oauth/service.py:310-356 | After every run, under settings with its signing key, its resource and its client, a family that was neither revoked nor expired is continued by exactly one refresh token. |
| `SingleUser.Upgrade` | migrations/versions/0003_single_user.py:887-970 | The upgrade refuses more than one scope and changes nothing then; otherwise it refills every table as specified. |
| `SingleUser.ScopesOf` | migrations/versions/0003_single_user.py:70-84 | Collects the scopes of every table and of the stored requests. |
| `SingleUser.ConfigRewrites` | migrations/versions/0003_single_user.py:95-142 | The loop drops the scope from each stored request and recomputes each digest. |
| `SingleUser.RequestRewrites` | migrations/versions/0003_single_user.py:145-174 | The loop rewrites each run's request digest without the scope. |
| `SingleUser.ProjectionIsInjective` | migrations/versions/0003_single_user.py:87-92 | With at most one scope, dropping the scope key merges no two rows of any table. |
| `SingleUser.TwoScopesMayCollide` | migrations/versions/0003_single_user.py:87-92 | With two scopes it can. |
| `SingleUser.UpgradeKeepsEveryRow` | migrations/versions/0003_single_user.py:931-954 | Every legacy row and link is live after the upgrade under its own identity, and there are no others. |
| `SingleUser.RoundTrip` | migrations/versions/0003_single_user.py:887-1098 | Downgrade then upgrade of any reachable database is the identity except for account names, the revision each run began at, staging rows, and open runs, which come back failed. |
| `SingleUser.RoundTripFrom` | migrations/versions/0003_single_user.py:887-1098 | The same from any database with sound tables, one that was migrated before included. |
| `SingleUser.ServiceGoesOn` | migrations/versions/0003_single_user.py:887-1098 | After the round trip every sequence of service calls keeps the core invariant. |
| `Migrated.UpgradedIsCore` | migrations/versions/0003_single_user.py:887-970 | A database of one scope comes out of the upgrade with the core invariant exactly when its scoped tables are sound; the progress of open runs, stored digests, skipped items and staged rows put no condition on it. |
| `Migrated.ServiceGoesOnFrom` | migrations/versions/0003_single_user.py:887-970 | From every such database all further service calls keep the core invariant. |
| `SingleUser.UpgradeRecomputesDigests` | migrations/versions/0003_single_user.py:95-142 | Every configuration digest after the upgrade is the semantic digest of its own rule links. |
| `Migrated.UpgradedCounts` | migrations/versions/0003_single_user.py:905-936 | Skipped items drop out of the counts of a run and of its batches alike: batches that accounted for what the run stored still do. |
| `Migrated.SingleScopeIff` | migrations/versions/0003_single_user.py:70-92 | The single-scope check passes exactly when one name covers every row with a scope, stored requests included. |
| `Migrated.LegacyRunReturns` | migrations/versions/0003_single_user.py:901-1020 | A legacy run after upgrade and downgrade: skipped items are forgotten, open runs have failed, the scope is the invented one. |
| `Migrated.LegacyRowsReturn` | migrations/versions/0003_single_user.py:937-1076 | A legacy row comes back whole, a batch without what it skipped. |
| `Migrated.LegacyConfigReturns` | migrations/versions/0003_single_user.py:95-142 | A legacy version comes back with its digest recomputed and the invented scope. |
| `Migrated.StagedGoesDown` | migrations/versions/0003_single_user.py:1031-1054 | What is staged goes down as it is. |
| `MoneyRepair.RepairBudgets` | migrations/versions/0004_sqlite_money_scale_repair.py:83-114 | The repair as the migration runs it equals its specification. |
| `MoneyRepair.CorrectBudgets` | migrations/versions/0004_sqlite_money_scale_repair.py:89-107 | The loop over category rows corrects exactly the damaged budgets and reports whether there were any. |
| `MoneyRepair.ReadBudgets` | migrations/versions/0004_sqlite_money_scale_repair.py:58-80 | The loop reads the budgets of the active version's stored request. |
| `MoneyRepair.BudgetsAreRequested` | migrations/versions/0004_sqlite_money_scale_repair.py:58-80 | The budgets that the repair compares with are those that the active version's stored request asked for. |
| `MoneyRepair.OnlyDamagedBudgetsChange` | migrations/versions/0004_sqlite_money_scale_repair.py:91-107 | Exactly the nonzero budgets stored as 10,000 times their snapshot value change, to that value, whoever wrote them. |
| `MoneyRepair.LeftAloneIff` | migrations/versions/0004_sqlite_money_scale_repair.py:13-16 | The promise that healthy databases and user edits are left alone holds exactly when no budget is 10,000 times its snapshot value. |
| `Example.LegalEditLooksDamaged` | migrations/versions/0004_sqlite_money_scale_repair.py:13-16 | The promise fails: five service calls and no migration end with an edited budget that the repair reverts, dropping live data and sync row and restarting the count of commits. |
| `MoneyRepair.RepairUndoesScaling` | migrations/versions/0004_sqlite_money_scale_repair.py:7-13 | The repair undoes the faulty scaling exactly when every nonzero budget is still the one in the active snapshot. |
| `MoneyRepair.RepairIsIdempotent` | migrations/versions/0004_sqlite_money_scale_repair.py:83-114 | A second repair finds nothing. |
| `MoneyRepair.RepairKeepsTables` | migrations/versions/0004_sqlite_money_scale_repair.py:108-114 | On any database with a sound configuration, one that went through 0003 included, the repair keeps the configuration and run invariants and leaves sound live data, also where there was none before. |
| `MoneyRepair.RepairRestartsCount` | migrations/versions/0004_sqlite_money_scale_repair.py:108-114 | Where the count of commits was right it survives exactly when nothing was repaired or nothing had been published. |
| `MoneyRepair.RepairReopens` | src/rolling_budget_api/services/refresh_service.py:445-451 | A commit passes after a repair exactly when its run is a full one begun before the first publication, its replacements are valid on an empty store, and it was refused before as superseded. |
| `MoneyRepair.RepairSupersedes` | src/rolling_budget_api/services/refresh_service.py:445-451 | Every commit that would have passed before the repair is refused as superseded after it. |
| `Example.RepairReopensRun` | src/rolling_budget_api/services/refresh_service.py:445-451 | It happens: a full run overtaken by the first publication is refused and, after the repair of a legal edit, passes. |
| `MoneyRepair.ServiceGoesOn` | migrations/versions/0004_sqlite_money_scale_repair.py:108-114 | After the repair every sequence of service calls keeps the core invariant. |
| `Money.StoredFits` | src/rolling_budget_api/db/models.py:39-55 | Every amount the schema accepts is stored below 10^18 and fits a signed 64-bit column. |
| `Money.BindRoundTrip` | src/rolling_budget_api/db/models.py:58-74 | Bind and result are inverse on amounts, and two spellings share a column value exactly when they are the same amount. |
| `Money.SumStored` | src/rolling_budget_api/services/dashboard_service.py:70-76 | Adding stored integers and scaling back is adding the amounts. |
| `Hashing.ChecksumChain` | src/rolling_budget_api/services/hashing.py:27-33 | The digest loop feeds exactly the newline-terminated list. |
| `Hashing.EncodingIsInjective` | src/rolling_budget_api/services/hashing.py:27-33 | For checksums without line breaks different batch lists never feed the same bytes. |
| `Hashing.LineBreaksAreAmbiguous` | src/rolling_budget_api/services/hashing.py:27-33 | The condition is needed. |

## Left out

- HTTP routes, the MCP server, authentication headers, logging, settings parsing, the demo and deployment files: plumbing around the services.
- SHA-256, HMAC, JSON and random tokens: digests are modelled by what they digest and new tokens and identifiers by numbers never used before.
- BeginRefresh: the answer leaves out the two batch limits, which are settings passed through.
- The byte length of a batch and the batch limits are parameters of an upload; a limit of one request is taken to be the same when the request is retried.
- Time zones: the IANA name check of a configuration and the local date of the dashboard; the day is a parameter.
- RetryIsExact: covers begin, batch and commit; a configuration write sent again is not a retry, its edit hash decides. The batch digest of the source covers the spelling of an amount, so a retry that writes 1.00 for 1.0 is refused there as a conflict; in the model both are one amount.
- Wall-clock time: each call takes one instant, where a commit reads the clock several times; freshness of the dashboard is not modelled.
- The order of response lists (categories by sort order and key), the status label, progress, remaining and over amounts of the dashboard.
- The source hash column, row timestamps other than those of runs, versions and live rows, and the account name history.
- The quotes around an If-Match header; both entry points of a configuration write share one guard here.
- Category rows staged for a transaction are a field of the staged row and come and go with it.
- PostgreSQL: advisory locks, its triggers and the PostgreSQL branches of both migrations; SQLite pragmas and the raw table definitions of migration 0003.
- The downgrade of migration 0003 is a function of the tables, not a loop over statements; source completeness metadata that the downgrade invents is not modelled.
- Unreachable error branches that need a damaged database (a missing configuration row, a run without dates) are not modelled where a foreign key or the schema excludes them.
- OAuth: consent pages and signed consent, client metadata, redirects, the pattern checks of PKCE strings and client identifiers (known clients are a set), and the length of the state parameter.
- `Money` amounts with more than four decimals: the schemas refuse them, so quantisation never rounds here.
- Refresh runs that an operator marks failed: no service does it, and only the migration produces failed runs; the service theorems that need no failed run say so (`Inv` against `Core`).
