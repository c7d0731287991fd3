/** commit_refresh as the service runs it. Each flush is a guarded statement of the
    store, so every intermediate state satisfies the database's own rules. */
module CommitService {
  import opened Options
  import opened Model
  import opened ConfigSpec
  import opened RefreshSpec
  import opened Invariant
  import opened CommitProofs
  import opened MergeProofs
  import opened StoreModel
  import opened Publication
  import opened RefreshService

  // ---------------------------------------------------------------------
  // The batch list

  ghost predicate Ascending(order: seq<nat>) {
    forall i, j :: 0 <= i < j < |order| ==> order[i] < order[j]
  }

  method LeastOf(keys: set<nat>) returns (least: nat)
    requires keys != {}
    ensures least in keys && forall k :: k in keys ==> least <= k
  {
    least :| least in keys;
    var rest := keys;
    while rest != {}
      invariant rest <= keys && least in keys
      invariant forall k :: k in keys && k !in rest ==> least <= k
      decreases |rest|
    {
      var k :| k in rest;
      rest := rest - {k};
      if k < least {
        least := k;
      }
    }
  }

  /** The numbers of a set in ascending order. */
  ghost predicate Sorted(order: seq<nat>, keys: set<nat>) {
    Ascending(order) && forall k :: k in order <==> k in keys
  }

  lemma AppendGreater(order: seq<nat>, keys: set<nat>, k: nat)
    requires Sorted(order, keys) && forall j :: j in keys ==> j < k
    ensures Sorted(order + [k], keys + {k})
  {
    forall i, j | 0 <= i < j < |order + [k]| ensures (order + [k])[i] < (order + [k])[j] {
      if j == |order| { assert order[i] in keys; }
    }
  }

  /** The batch indices of a run, ordered by index. */
  method BatchIndices(batches: map<nat, Batch>) returns (order: seq<nat>)
    ensures Sorted(order, batches.Keys)
  {
    order := [];
    var rest := batches.Keys;
    assert batches.Keys - rest == {};
    while rest != {}
      invariant rest <= batches.Keys
      invariant Sorted(order, batches.Keys - rest)
      invariant forall i, j :: i in batches.Keys - rest && j in rest ==> i < j
      decreases |rest|
    {
      hide Sorted;
      var k := LeastOf(rest);
      AppendGreater(order, batches.Keys - rest, k);
      assert batches.Keys - (rest - {k}) == batches.Keys - rest + {k};
      order, rest := order + [k], rest - {k};
    }
    assert batches.Keys - rest == batches.Keys;
  }

  lemma {:induction false} AscendingBound(order: seq<nat>, i: nat)
    requires Ascending(order) && i < |order|
    ensures order[i] >= i
  {
    if i > 0 { AscendingBound(order, i - 1); }
  }

  lemma {:induction false} AscendingSegment(order: seq<nat>, keys: set<nat>, n: nat, i: nat)
    requires Sorted(order, keys) && (forall k: nat :: k in keys <==> k < n) && i < |order|
    ensures order[i] == i
  {
    AscendingBound(order, i);
    assert order[i] in order;
    assert i in order;
    var j :| 0 <= j < |order| && order[j] == i;
    AscendingBound(order, j);
    if j < i {
      AscendingSegment(order, keys, n, j);
    }
  }

  ghost predicate IsRange(order: seq<nat>, n: nat) {
    |order| == n && forall j :: 0 <= j < n ==> order[j] == j
  }

  lemma RangeHas(order: seq<nat>, k: nat)
    requires forall j: nat :: j < |order| ==> order[j] == j
    ensures k in order <==> k < |order|
  {
    if k < |order| { assert order[k] == k; }
  }

  /** The sorted index list is 0, 1, ..., n-1 exactly when no batch is missing. */
  lemma CompleteIsRange(batches: map<nat, Batch>, order: seq<nat>, n: nat)
    requires Sorted(order, batches.Keys)
    ensures IsRange(order, n) <==> Complete(batches, n)
  {
    if IsRange(order, n) {
      forall i: nat | i < n ensures i in batches {
        assert order[i] in order;
      }
      forall i: nat | i in batches ensures i < n {
        assert i in order;
      }
    }
    if Complete(batches, n) {
      forall j: nat | j < |order| ensures order[j] == j {
        AscendingSegment(order, batches.Keys, n, j);
      }
      RangeHas(order, n);
      RangeHas(order, |order|);
    }
  }

  method IsComplete(batches: map<nat, Batch>, n: nat) returns (complete: bool)
    ensures complete <==> Complete(batches, n)
  {
    var order := BatchIndices(batches);
    CompleteIsRange(batches, order, n);
    complete := order == seq(n, i => i);
    if IsRange(order, n) {
      assert order == seq(n, i => i);
    }
  }

  /** The checksum chain and the item total, one batch after the other. */
  method SumBatches(batches: map<nat, Batch>, n: nat) returns (chain: seq<seq<Upload>>, total: nat)
    requires Complete(batches, n)
    ensures chain == Chain(batches, n) && total == ItemTotal(batches, n)
  {
    chain, total := [], 0;
    for i := 0 to n
      invariant chain == Chain(batches, i) && total == ItemTotal(batches, i)
    {
      chain, total := chain + [batches[i].checksum], total + batches[i].itemCount;
    }
  }

  // ---------------------------------------------------------------------
  // Guards

  /** The guards before the first statement, in the order of the service. */
  method CheckCommit(db: Store, id: RunId, request: CommitRequest, active: Option<Version>, pending: Option<Version>)
    returns (error: Option<Error>)
    requires id in db.runs && db.runs[id].config in db.configs
    requires active == Current(db.configs, Active) && pending == Current(db.configs, Pending)
    ensures error.Some? ==> CommitError(db.Snapshot(), id, request) == error
    ensures error.None? ==>
              && Complete(RowsOf(db.batches, id), request.batchCount)
              && CommitError(db.Snapshot(), id, request) ==
                   if ReplacementsValid(RowsOf(db.staged, id), db.rows) then None else Some(PendingReplacementConflict)
  {
    hide ReplacementsValid, Complete, Current;
    var run := db.runs[id];
    var status := db.configs[run.config].status;
    if run.state != Uploaded && !(run.state == Created && request.batchCount == 0) {
      return Some(RunNotCommittable);
    }
    if status == Superseded {
      return Some(ConfigVersionConflict);
    }
    if run.mode == Incremental && status != Active {
      return Some(ConfigVersionConflict);
    }
    if run.mode == Incremental && pending.Some? {
      return Some(FullRebuildRequired);
    }
    var target := if run.mode == Full && pending.Some? then pending else active;
    if target != Some(run.config) {
      return Some(ConfigVersionConflict);
    }
    var complete := IsComplete(RowsOf(db.batches, id), request.batchCount);
    if !complete {
      return Some(MissingBatch);
    }
    if request.accounts != run.accounts {
      return Some(CompletedAccountsMismatch);
    }
    var revision := if db.sync.Some? then Some(db.sync.value.revision) else None;
    if revision != run.syncBefore {
      return Some(RunSuperseded);
    }
    if run.mode == Incremental
       && (db.sync.None? || db.sync.value.lastRun !in db.runs
           || db.runs[db.sync.value.lastRun].accounts != run.accounts) {
      return Some(AccountScopeChanged);
    }
    return None;
  }

  // ---------------------------------------------------------------------
  // What the invariant gives the statements

  lemma StagedStorable(s: State, id: RunId, t: Identity)
    requires id in s.runs && t in RowsOf(s.staged, id)
    requires RunOk(s, id)
    ensures Storable(s.configRules, s.runs[id].config, RowsOf(s.staged, id)[t])
  {
  }

  lemma LiveIsSound(s: State)
    requires LiveInv(s)
    ensures Sound(s.ledger, s.runs)
  {
  }

  lemma SoundRuns(l: Ledger, runs: map<RunId, Run>, more: map<RunId, Run>)
    requires Sound(l, runs) && forall r :: r in runs ==> r in more
    ensures Sound(l, more)
  {
  }

  lemma DescribesRun(s: State, id: RunId, now: int, runs: map<RunId, Run>)
    requires id in s.runs && id in runs && runs[id].config == s.runs[id].config
    requires RunOk(s, id)
    ensures Describes(CommitmentOf(s, id, now), runs, s.staged, s.configRules)
  {
    hide RunOk, Storable, RulesOf, RowsOf;
    forall t | t in RowsOf(s.staged, id) ensures Storable(s.configRules, s.runs[id].config, RowsOf(s.staged, id)[t]) {
      StagedStorable(s, id, t);
    }
  }

  lemma SourceCategories(s: State, v: Version, k: Key)
    requires v in s.configs && k in ByKey(s.configs[v].source.categories)
    requires CatalogOk(Catalog(s.categories, s.rules)) && AllLinksOk(s.rules, s.configRules, s.configs)
    ensures k in s.categories
  {
  }

  // ---------------------------------------------------------------------
  // Live data

  method PublishLive(db: Store, id: RunId, targets: set<Identity>, now: int, ghost c: Commitment)
    requires c.run == id && c.now == now && Describes(c, db.runs, db.staged, db.configRules)
    requires c.mode == db.runs[id].mode && c.toDate == db.runs[id].toDate
    requires c.rules == RulesOf(db.Snapshot(), db.runs[id].config)
    requires targets == Targets(c.staged) && ReplacementsValid(c.staged, db.rows)
    requires Sound(db.Live(), db.runs)
    modifies db`rows, db`links
    ensures db.Live() == Publish(old(db.Live()), c)
  {
    hide *;
    DescribesMeans(c, db.runs, db.staged, db.configRules);
    ghost var base := MergeBase(db.Live(), c);
    ghost var before := db.Snapshot();
    TablesAre(db);
    BaseIs(db.Live(), c, db.runs);
    if db.runs[id].mode == Full {
      ReplaceAllTransactions(db, targets, now, id, c);
    } else {
      MergeIncremental(db, targets, now, id, c);
    }
    MergedSound(base, c, db.runs);
    SoundLinks(db);
    SnapshotTables(db, before);
    PruneOutsideWindows(db, id, c);
    PublishIs(old(db.Live()), c);
  }

  lemma BaseIs(l: Ledger, c: Commitment, runs: map<RunId, Run>)
    requires Sound(l, runs)
    ensures MergeBase(l, c) == if c.mode == Full then EMPTY_LEDGER else l
    ensures Sound(MergeBase(l, c), runs)
  {
  }

  lemma SoundLinks(db: Store)
    requires Sound(db.Live(), db.runs)
    ensures forall lk :: lk in db.links ==> lk.id in db.rows
  {
  }

  lemma SnapshotTables(db: Store, before: State)
    requires db.categories == before.categories && db.rules == before.rules && db.configRules == before.configRules
    ensures forall v :: RulesOf(db.Snapshot(), v) == RulesOf(before, v)
  {
  }

  // ---------------------------------------------------------------------
  // Activation

  lemma PresentStep(categories: map<Key, Presentation>, items: seq<CategoryInput>, i: nat)
    requires i < |items| && items[i].key in categories
    ensures Present(categories, items[..i + 1]) == Present(categories, items[..i])[items[i].key := items[i].show]
    ensures items[i].key in Present(categories, items[..i])
  {
    hide ByKey;
    ByKeyNext(items, i);
  }

  lemma PresentNone(categories: map<Key, Presentation>, items: seq<CategoryInput>)
    ensures Present(categories, items[..0]) == categories && items[..|items|] == items
  {
  }

  /** Publish the display and budget fields of a snapshot, item by item. */
  method ApplyPresentation(db: Store, items: seq<CategoryInput>)
    requires forall i :: 0 <= i < |items| ==> items[i].key in db.categories
    modifies db`categories
    ensures db.categories == Present(old(db.categories), items)
  {
    hide Present;
    PresentNone(db.categories, items);
    for i := 0 to |items|
      invariant db.categories == Present(old(db.categories), items[..i])
    {
      PresentStep(old(db.categories), items, i);
      db.UpdateCategory(items[i].key, items[i].show);
    }
  }

  lemma RetiredIs(configs: map<Version, Config>, v: Version, now: int)
    requires v in configs && configs[v].status == Pending && VersionsOk(configs)
    ensures Current(configs, Active).Some?
    ensures var a := Current(configs, Active).value;
            var retired := configs[a := configs[a].(status := Superseded, supersededAt := Some(now))];
            && a != v && StampOk(retired[a]) && AtMostOne(retired, Active)
            && AtMostOne(retired[v := configs[v].(status := Active, activatedAt := Some(now))], Active)
            && Activated(configs, v, now) == retired[v := configs[v].(status := Active, activatedAt := Some(now))]
  {
  }

  /** Supersede the old active version, flush, then activate the pending one. */
  method Activate(db: Store, v: Version, now: int)
    requires v in db.configs && (db.configs[v].status == Pending ==> Rebuilt(db.runs, v))
    requires forall i :: 0 <= i < |db.configs[v].source.categories| ==>
               db.configs[v].source.categories[i].key in db.categories
    requires VersionsOk(db.configs)
    modifies db`categories, db`configs
    ensures db.configs == Activated(old(db.configs), v, now)
    ensures db.categories == if old(db.configs)[v].status == Pending then
                               Present(old(db.categories), old(db.configs)[v].source.categories)
                             else old(db.categories)
  {
    if db.configs[v].status == Pending {
      RetiredIs(db.configs, v, now);
      hide VersionsOk, Activated, AtMostOne, StampOk, Current, Present, Rebuilt;
      ApplyPresentation(db, db.configs[v].source.categories);
      var active := FindActive(db.configs, v);
      db.UpdateConfig(active, db.configs[active].(status := Superseded, supersededAt := Some(now)));
      db.UpdateConfig(v, db.configs[v].(status := Active, activatedAt := Some(now)));
    }
  }

  method FindActive(configs: map<Version, Config>, v: Version) returns (active: Version)
    requires VersionsOk(configs) && v in configs
    ensures Current(configs, Active) == Some(active)
  {
    var found := FindByStatus(configs, Active);
    active := found.value;
  }

  // ---------------------------------------------------------------------
  // The transaction

  function ValidatedRun(run: Run, request: CommitRequest, received: nat, total: nat, chain: seq<seq<Upload>>, now: int)
    : Run
  {
    run.(state := Validated, validatedAt := Some(now),
         uploadedAt := if run.uploadedAt.Some? then run.uploadedAt else Some(now),
         expectedBatchCount := Some(request.batchCount), received := received, itemCount := total,
         checksum := Some(chain), completedAccounts := Some(request.accounts))
  }

  function Finished(run: Run, now: int): Run {
    run.(state := Committed, committedAt := Some(now))
  }

  /** Both flushes of the run row are transitions that the triggers allow. */
  lemma RunMoves(s: State, id: RunId, request: CommitRequest, now: int)
    requires id in s.runs && Complete(RowsOf(s.batches, id), request.batchCount)
    requires s.runs[id].state == Uploaded || (s.runs[id].state == Created && request.batchCount == 0)
    ensures var batches := RowsOf(s.batches, id);
            var v := ValidatedRun(s.runs[id], request, |batches|, ItemTotal(batches, request.batchCount),
                                  Chain(batches, request.batchCount), now);
            && SameManifest(s.runs[id], v) && MayMove(s.runs[id], v) && CommittedComplete(v)
            && v.state == Validated && v.config == s.runs[id].config && v.mode == s.runs[id].mode
            && v.toDate == s.runs[id].toDate
            && SameManifest(v, Finished(v, now)) && MayMove(v, Finished(v, now)) && CommittedComplete(Finished(v, now))
            && Finished(v, now) == CommittedRun(s, id, request, now)
  {
    CompleteCount(RowsOf(s.batches, id), request.batchCount);
  }

  lemma CommittingIs(s: State, id: RunId, request: CommitRequest, now: int)
    requires id in s.runs && s.runs[id].config in s.configs && Complete(RowsOf(s.batches, id), request.batchCount)
    ensures Committing(s, id, request, now) ==
              State(PublishedCategories(s, s.runs[id].config), s.rules, Activated(s.configs, s.runs[id].config, now),
                    s.configRules, s.runs[id := CommittedRun(s, id, request, now)], s.batches, s.staged - {id},
                    Publish(s.ledger, CommitmentOf(s, id, now)), Some(Advanced(s.sync, id, s.runs[id].config)))
  {
  }

  lemma PendingIsRebuilt(s: State, runs: map<RunId, Run>, id: RunId)
    requires id in s.runs && id in runs && runs[id].state == Committed && s.runs[id].config in s.configs
    requires runs[id].mode == s.runs[id].mode && runs[id].config == s.runs[id].config
    requires s.runs[id].mode == Incremental ==> Current(s.configs, Active) == Some(s.runs[id].config)
    ensures s.configs[s.runs[id].config].status == Pending ==> Rebuilt(runs, s.runs[id].config)
  {
  }

  lemma AllSourceCategories(s: State, v: Version)
    requires v in s.configs
    requires ConfigInv(s)
    ensures forall i :: 0 <= i < |s.configs[v].source.categories| ==>
              s.configs[v].source.categories[i].key in s.categories
  {
    hide CatalogOk, VersionsOk, ContentsOk, AllLinksOk;
    var items := s.configs[v].source.categories;
    forall i | 0 <= i < |items| ensures items[i].key in s.categories {
      assert items[i].key in ByKey(items);
      SourceCategories(s, v, items[i].key);
    }
  }

  lemma CommitMayStart(s: State, id: RunId, request: CommitRequest)
    requires id in s.runs && s.runs[id].config in s.configs
    requires CommitError(s, id, request).None? || CommitError(s, id, request) == Some(PendingReplacementConflict)
    ensures s.runs[id].state == Uploaded || (s.runs[id].state == Created && request.batchCount == 0)
  {
  }

  lemma PassesFrom(s: State, id: RunId, request: CommitRequest)
    requires id in s.runs && s.runs[id].config in s.configs && s.runs[id].state != Committed
    requires CommitError(s, id, request).None?
    ensures CommitPasses(s, id, request)
  {
  }

  lemma CommitmentTables(s: State, id: RunId, now: int)
    requires id in s.runs
    ensures var c := CommitmentOf(s, id, now);
            && c.run == id && c.now == now && c.mode == s.runs[id].mode && c.toDate == s.runs[id].toDate
            && c.staged == RowsOf(s.staged, id) && c.rules == RulesOf(s, s.runs[id].config)
  {
  }

  /** Every statement of an accepted commit; false asks for a rollback. */
  method WriteCommit(db: Store, id: RunId, request: CommitRequest, now: int) returns (ok: bool)
    requires id in db.runs && db.runs[id].config in db.configs && db.runs[id].state != Committed
    requires Complete(RowsOf(db.batches, id), request.batchCount)
    requires CommitError(db.Snapshot(), id, request) ==
               if ReplacementsValid(RowsOf(db.staged, id), db.rows) then None else Some(PendingReplacementConflict)
    requires Core(db.Snapshot())
    modifies db
    ensures ok <==> CommitError(old(db.Snapshot()), id, request).None?
    ensures ok ==> db.Snapshot() == Committing(old(db.Snapshot()), id, request, now)
  {
    hide *;
    TablesAre(db);
    LiveIs(db);
    ghost var s := db.Snapshot();
    ghost var c := CommitmentOf(s, id, now);
    CoreMeans(s, id);
    CommitMayStart(s, id, request);
    RunMoves(s, id, request, now);
    var run := db.runs[id];
    var chain, total := SumBatches(RowsOf(db.batches, id), request.batchCount);
    var validated := ValidatedRun(run, request, |RowsOf(db.batches, id)|, total, chain, now);
    db.UpdateRun(id, validated);
    var targets := ValidatePendingReplacements(db, id);
    if targets.None? {
      return false;
    }
    PassesFrom(s, id, request);
    PassesMeans(s, id, request);
    CommitmentTables(s, id, now);
    DescribesRun(s, id, now, db.runs);
    LiveIsSound(s);
    SoundRuns(s.ledger, s.runs, db.runs);
    SnapshotTables(db, s);
    PublishLive(db, id, targets.value, now, c);
    FinishCommit(db, id, request, now, validated, s);
    return true;
  }

  /** The flushes after publication: run, configuration, sync row, staging. */
  method FinishCommit(db: Store, id: RunId, request: CommitRequest, now: int, validated: Run, ghost s: State)
    requires CommitPasses(s, id, request) && id in s.runs && s.runs[id].config in s.configs
    requires Complete(RowsOf(s.batches, id), request.batchCount)
    requires SameManifest(validated, Finished(validated, now)) && MayMove(validated, Finished(validated, now))
    requires CommittedComplete(Finished(validated, now)) && validated.state == Validated
    requires Finished(validated, now) == CommittedRun(s, id, request, now)
    requires validated.config == s.runs[id].config && validated.mode == s.runs[id].mode
    requires db.runs == s.runs[id := validated]
    requires db.categories == s.categories && db.rules == s.rules && db.configs == s.configs
    requires db.configRules == s.configRules && db.batches == s.batches && db.staged == s.staged && db.sync == s.sync
    requires db.Live() == Publish(s.ledger, CommitmentOf(s, id, now))
    requires Core(s)
    modifies db
    ensures db.Snapshot() == Committing(s, id, request, now)
  {
    hide *;
    var run := db.runs[id];
    CoreMeans(s, id);
    PassesMeans(s, id, request);
    FinishedIs(validated, now);
    db.UpdateRun(id, Finished(validated, now));
    AllSourceCategories(s, run.config);
    PendingIsRebuilt(s, db.runs, id);
    PublishedIs(s, run.config);
    AdvanceState(db, id, run.config, now);
    assert s.runs[id := validated][id := Finished(validated, now)] == s.runs[id := Finished(validated, now)];
    TablesAre(db);
    LiveIs(db);
    CommittingIs(s, id, request, now);
  }

  /** Activate a pending version, advance the sync row, drop the staging rows. */
  method AdvanceState(db: Store, id: RunId, v: Version, now: int)
    requires v in db.configs && (db.configs[v].status == Pending ==> Rebuilt(db.runs, v))
    requires id in db.runs && db.runs[id].state == Committed && db.runs[id].config == v
    requires forall i :: 0 <= i < |db.configs[v].source.categories| ==>
               db.configs[v].source.categories[i].key in db.categories
    requires VersionsOk(db.configs)
    modifies db`categories, db`configs, db`sync, db`staged
    ensures db.configs == Activated(old(db.configs), v, now)
    ensures db.categories == if old(db.configs)[v].status == Pending then
                               Present(old(db.categories), old(db.configs)[v].source.categories)
                             else old(db.categories)
    ensures db.sync == Some(Advanced(old(db.sync), id, v))
    ensures db.staged == old(db.staged) - {id}
  {
    hide *;
    Activate(db, v, now);
    AdvancedIs(db.sync, id, v);
    db.WriteSync(Advanced(db.sync, id, v));
    db.DeleteStaged(id);
  }

  lemma FinishedIs(run: Run, now: int)
    ensures Finished(run, now).state == Committed && Finished(run, now).config == run.config
    ensures Finished(run, now).mode == run.mode
  {
  }

  lemma CommitIs(s: State, id: RunId, request: CommitRequest, now: int)
    ensures id !in s.runs ==> Commit(s, id, request, now) == Outcome(s, Rejected(RunNotFound))
    ensures id in s.runs && s.runs[id].config in s.configs && s.runs[id].state == Committed ==>
              Commit(s, id, request, now) ==
                if SameCommit(s.runs[id], request) then Outcome(s, RunReply(id, s.runs[id]))
                else Outcome(s, Rejected(CommitReplayConflict))
    ensures id in s.runs && s.runs[id].config in s.configs && s.runs[id].state != Committed
            && CommitError(s, id, request).Some? ==>
              Commit(s, id, request, now) == Outcome(s, Rejected(CommitError(s, id, request).value))
  {
  }

  lemma CommitAccepted(s: State, id: RunId, request: CommitRequest, now: int)
    requires id in s.runs && s.runs[id].config in s.configs && s.runs[id].state != Committed
    requires CommitError(s, id, request).None? && Complete(RowsOf(s.batches, id), request.batchCount)
    ensures id in Committing(s, id, request, now).runs
    ensures Commit(s, id, request, now) ==
              Outcome(Committing(s, id, request, now), RunReply(id, Committing(s, id, request, now).runs[id]))
  {
  }

  method IsSameCommit(run: Run, request: CommitRequest) returns (same: bool)
    ensures same == SameCommit(run, request)
  {
    same := run.expectedBatchCount == Some(request.batchCount) && run.completedAccounts == Some(request.accounts);
  }

  /** commit_refresh: in every reachable state its statements respect every guard of
      the database, and the tables and the answer are those of the specification. */
  method CommitRefresh(db: Store, id: RunId, request: CommitRequest, now: int) returns (reply: Reply)
    requires Core(db.Snapshot())
    modifies db
    ensures db.Snapshot() == Commit(old(db.Snapshot()), id, request, now).state
    ensures reply == Commit(old(db.Snapshot()), id, request, now).reply
  {
    hide *;
    TablesAre(db);
    var entry := db.Snapshot();
    CommitIs(entry, id, request, now);
    if id !in db.runs {
      return Rejected(RunNotFound);
    }
    CoreMeans(entry, id);
    InvVersions(entry);
    var run := db.runs[id];
    if run.state == Committed {
      var same := IsSameCommit(run, request);
      if !same {
        return Rejected(CommitReplayConflict);
      }
      return RunReply(id, run);
    }
    var active := FindByStatus(db.configs, Active);
    var pending := FindByStatus(db.configs, Pending);
    var error := CheckCommit(db, id, request, active, pending);
    if error.Some? {
      return Rejected(error.value);
    }
    var ok := WriteCommit(db, id, request, now);
    if !ok {
      db.Rollback(entry);
      return Rejected(PendingReplacementConflict);
    }
    CommitAccepted(entry, id, request, now);
    TablesAre(db);
    reply := RunReply(id, db.runs[id]);
  }

  lemma InvVersions(s: State)
    requires Core(s)
    ensures AtMostOne(s.configs, Active) && AtMostOne(s.configs, Pending)
  {
    hide RunInv, LiveInv, CatalogOk, ContentsOk, AllLinksOk;
  }
}
