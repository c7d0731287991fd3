/** Committing a run keeps the global invariant. */
module CommitProofs {
  import opened Options
  import opened Model
  import opened ConfigSpec
  import opened RefreshSpec
  import opened Invariant
  import opened ConfigProofs
  import opened LedgerProofs
  import opened StepProofs

  /** What an accepted commit has checked. */
  ghost predicate CommitPasses(s: State, id: RunId, request: CommitRequest) {
    && id in s.runs && s.runs[id].config in s.configs
    && s.runs[id].state != Committed
    && CommitError(s, id, request).None?
  }

  // ---------------------------------------------------------------------
  // The committed run

  lemma {:induction false} InitialSegmentCount(keys: set<nat>, n: nat)
    requires (forall i: nat :: i in keys ==> i < n) && (forall i: nat :: i < n ==> i in keys)
    ensures |keys| == n
  {
    if n > 0 {
      InitialSegmentCount(keys - {n - 1}, n - 1);
    } else {
      assert keys == {};
    }
  }

  lemma CompleteCount(batches: map<nat, Batch>, n: nat)
    requires Complete(batches, n)
    ensures |batches| == n
  {
    InitialSegmentCount(batches.Keys, n);
    assert |batches| == |batches.Keys|;
  }

  lemma CommittedRunFits(s: State, id: RunId, request: CommitRequest, now: int)
    requires id in s.runs && s.runs[id].config in s.configs && RunOk(s, id)
    requires Complete(RowsOf(s.batches, id), request.batchCount) && request.accounts == s.runs[id].accounts
    ensures RunFits(CommittedRun(s, id, request, now), RowsOf(s.batches, id), map[],
                    s.configs[s.runs[id].config].basis.currency, RulesOf(s, s.runs[id].config))
  {
    hide BatchesOk, StagedOk, RulesOf, Accounted;
    CompleteCount(RowsOf(s.batches, id), request.batchCount);
  }

  // ---------------------------------------------------------------------
  // Configuration tables

  function PublishedCategories(s: State, v: Version): map<Key, Presentation>
    requires v in s.configs
  {
    if s.configs[v].status == Pending then Present(s.categories, s.configs[v].source.categories) else s.categories
  }

  lemma CommittingShape(s: State, id: RunId, request: CommitRequest, now: int)
    requires id in s.runs && s.runs[id].config in s.configs && Complete(RowsOf(s.batches, id), request.batchCount)
    ensures var t := Committing(s, id, request, now);
            && t.runs == s.runs[id := CommittedRun(s, id, request, now)]
            && t.batches == s.batches && t.staged == s.staged - {id}
            && t.ledger == Publish(s.ledger, CommitmentOf(s, id, now))
            && t.sync == Some(Advanced(s.sync, id, s.runs[id].config))
            && t.configs == Activated(s.configs, s.runs[id].config, now)
            && t.categories == PublishedCategories(s, s.runs[id].config)
            && t.rules == s.rules && t.configRules == s.configRules
  {
    hide Publish, CommittedRun, CommitmentOf, Present, Activated, Advanced, Complete, RowsOf;
  }

  /** The manifest of a run is immutable. */
  ghost predicate SameManifest(a: Run, b: Run) {
    && a.idempotencyKey == b.idempotencyKey && a.request == b.request && a.mode == b.mode && a.config == b.config
    && a.fromDate == b.fromDate && a.toDate == b.toDate && a.accounts == b.accounts && a.syncBefore == b.syncBefore
  }

  lemma CommittedRunShape(s: State, id: RunId, request: CommitRequest, now: int)
    requires id in s.runs && Complete(RowsOf(s.batches, id), request.batchCount)
    ensures SameManifest(s.runs[id], CommittedRun(s, id, request, now))
    ensures CommittedRun(s, id, request, now).state == Committed
  {
  }

  lemma CommittingConfigInv(s: State, id: RunId, request: CommitRequest, now: int)
    requires ConfigInv(s) && id in s.runs && s.runs[id].config in s.configs
    requires s.configs[s.runs[id].config].status != Superseded
    requires Complete(RowsOf(s.batches, id), request.batchCount)
    ensures ConfigInv(Committing(s, id, request, now))
  {
    var v := s.runs[id].config;
    var t := Committing(s, id, request, now);
    var u := s.(configs := Activated(s.configs, v, now), categories := PublishedCategories(s, v));
    assert SameConfigTables(u, t) by {
      hide Publish, CommittedRun, ConfigInv;
      CommittingShape(s, id, request, now);
    }
    hide *;
    ActivatedConfigInv(s, v, now);
    PublishedIs(s, v);
    SameConfigInv(u, t);
  }

  lemma PublishedIs(s: State, v: Version)
    requires v in s.configs
    ensures PublishedCategories(s, v) ==
              if s.configs[v].status == Pending then Present(s.categories, s.configs[v].source.categories)
              else s.categories
    ensures PublishedCategories(s, v).Keys == s.categories.Keys
  {
  }

  lemma CommittingExtends(s: State, id: RunId, request: CommitRequest, now: int)
    requires VersionsOk(s.configs) && id in s.runs && s.runs[id].config in s.configs
    requires s.configs[s.runs[id].config].status != Superseded
    requires Complete(RowsOf(s.batches, id), request.batchCount)
    ensures ConfigExtends(s, Committing(s, id, request, now))
    ensures s.runs[id].config in Committing(s, id, request, now).configs
    ensures Committing(s, id, request, now).configs[s.runs[id].config].status == Active
  {
    hide *;
    var v := s.runs[id].config;
    CommittingShape(s, id, request, now);
    PublishedIs(s, v);
    ActivatedOk(s.configs, v, now);
    ExtendsFrom(s, Committing(s, id, request, now), v);
  }

  lemma ExtendsFrom(s: State, t: State, v: Version)
    requires t.rules == s.rules && t.configRules == s.configRules && t.categories.Keys == s.categories.Keys
    requires SameContents(s.configs, t.configs) && v in s.configs
    ensures ConfigExtends(s, t) && v in t.configs
  {
  }

  // ---------------------------------------------------------------------
  // Runs

  lemma CommittedRunOk(s: State, id: RunId, request: CommitRequest, now: int)
    requires ConfigInv(s) && id in s.runs && s.runs[id].config in s.configs && RunOk(s, id)
    requires Complete(RowsOf(s.batches, id), request.batchCount) && request.accounts == s.runs[id].accounts
    requires ConfigExtends(s, Committing(s, id, request, now))
    ensures RunOk(Committing(s, id, request, now), id)
  {
    var v := s.runs[id].config;
    var t := Committing(s, id, request, now);
    CommittedRunFits(s, id, request, now);
    hide RunFits, ConfigInv, Publish;
    RulesOfStable(s, t, v);
    assert SameContent(s.configs[v], t.configs[v]);
  }

  lemma OtherRunKept(s: State, t: State, other: RunId)
    requires ConfigInv(s) && ConfigExtends(s, t) && RunInv(s) && other in s.runs && other in t.runs
    requires t.runs[other] == s.runs[other] && t.batches == s.batches
    requires RowsOf(t.staged, other) == RowsOf(s.staged, other)
    ensures RunOk(t, other)
  {
    hide ConfigInv, ConfigExtends, RunOk;
    RunOkFrame(s, t, other);
  }

  lemma CommittingRuns(s: State, t: State, id: RunId, next: Run)
    requires ConfigInv(s) && ConfigExtends(s, t) && RunInv(s) && id in s.runs
    requires t.runs == s.runs[id := next] && next.idempotencyKey == s.runs[id].idempotencyKey
    requires t.batches == s.batches && t.staged == s.staged - {id}
    requires RunOk(t, id)
    ensures RunInv(t)
  {
    hide ConfigInv, ConfigExtends, RunOk, DistinctKeys;
    SameKeys(s.runs, id, next);
    forall other | other in t.runs ensures RunOk(t, other) {
      if other != id {
        OtherRunKept(s, t, other);
      }
    }
  }

  // ---------------------------------------------------------------------
  // Serialisation

  lemma OneMoreCommitted(runs: map<RunId, Run>, id: RunId, next: Run)
    requires id in runs && runs[id].state != Committed && next.state == Committed
    ensures id !in CommittedRuns(runs)
    ensures CommittedRuns(runs[id := next]) == CommittedRuns(runs) + {id}
    ensures |CommittedRuns(runs[id := next])| == |CommittedRuns(runs)| + 1
  {
  }

  lemma CommitSerial(runs: map<RunId, Run>, sync: Option<Sync>, id: RunId, next: Run, config: Version)
    requires SerialInv(runs, sync) && id in runs && runs[id].state != Committed && next.state == Committed
    requires next.syncBefore == runs[id].syncBefore
    requires runs[id].syncBefore == if sync.Some? then Some(sync.value.revision) else None
    ensures SerialInv(runs[id := next], Some(Advanced(sync, id, config)))
  {
    OneMoreCommitted(runs, id, next);
    hide CommittedRuns;
  }

  // ---------------------------------------------------------------------
  // Live data

  /** The ledger a commit publishes over meets its configuration already. */
  lemma BaseTyped(s: State, id: RunId)
    requires LiveInv(s) && id in s.runs && AtMostOne(s.configs, Active)
    requires s.runs[id].mode == Incremental ==>
               && Current(s.configs, Active) == Some(s.runs[id].config)
               && SameAccountsAsLastRun(s, s.runs[id].accounts)
    requires s.runs[id].config in s.configs
    ensures var run := s.runs[id];
            Typed(MergeBase(s.ledger, CommitmentOf(s, id, 0)), run.config, s.configs[run.config].basis.currency,
                  run.accounts, RulesOf(s, run.config), s.runs)
  {
    if s.runs[id].mode == Incremental && s.sync.Some? {
      assert Current(s.configs, Active) == Some(s.sync.value.config);
    }
  }

  lemma PublishTyped(s: State, id: RunId, now: int, runs: map<RunId, Run>)
    requires LiveInv(s) && id in s.runs && AtMostOne(s.configs, Active) && RunOk(s, id)
    requires s.runs[id].mode == Incremental ==>
               && Current(s.configs, Active) == Some(s.runs[id].config)
               && SameAccountsAsLastRun(s, s.runs[id].accounts)
    requires forall r :: r in s.runs ==> r in runs && runs[r].config == s.runs[r].config
    ensures var run := s.runs[id];
            var l := Publish(s.ledger, CommitmentOf(s, id, now));
            && Typed(l, run.config, s.configs[run.config].basis.currency, run.accounts, RulesOf(s, run.config), runs)
            && InWindows(l, RulesOf(s, run.config), run.toDate)
            && AllLinked(l)
  {
    var run := s.runs[id];
    var c := CommitmentOf(s, id, now);
    var currency := s.configs[run.config].basis.currency;
    BaseTyped(s, id);
    var base := MergeBase(s.ledger, c);
    assert base == MergeBase(s.ledger, CommitmentOf(s, id, 0));
    assert forall t :: t in c.staged ==> StagedOk(run, currency, c.rules, t, c.staged[t]);
    hide *;
    TypedMoreRuns(base, run.config, currency, run.accounts, c.rules, s.runs, runs);
    CommitmentIs(s, id, now);
    MergedTyped(base, c, run, currency, runs);
    PrunedTyped(Merged(base, c), c, currency, run.accounts, runs);
    PublishIs(s.ledger, c);
  }

  lemma CommitmentIs(s: State, id: RunId, now: int)
    requires id in s.runs
    ensures var c := CommitmentOf(s, id, now);
            && c.run == id && c.config == s.runs[id].config && c.toDate == s.runs[id].toDate
            && c.rules == RulesOf(s, s.runs[id].config) && c.mode == s.runs[id].mode
  {
  }

  lemma PublishIs(l: Ledger, c: Commitment)
    ensures Publish(l, c) == Pruned(Merged(MergeBase(l, c), c), c)
  {
  }

  lemma CommittingLive(s: State, t: State, id: RunId, now: int)
    requires ConfigInv(s) && LiveInv(s) && id in s.runs && RunOk(s, id)
    requires s.runs[id].mode == Incremental ==>
               && Current(s.configs, Active) == Some(s.runs[id].config)
               && SameAccountsAsLastRun(s, s.runs[id].accounts)
    requires ConfigExtends(s, t) && t.ledger == Publish(s.ledger, CommitmentOf(s, id, now))
    requires s.runs[id].config in t.configs && t.configs[s.runs[id].config].status == Active
    requires t.sync.Some? && t.sync.value.config == s.runs[id].config && t.sync.value.lastRun == id
    requires id in t.runs && t.runs[id].state == Committed && t.runs[id].config == s.runs[id].config
    requires t.runs[id].accounts == s.runs[id].accounts && t.runs[id].toDate == s.runs[id].toDate
    requires forall r :: r in s.runs ==> r in t.runs && t.runs[r].config == s.runs[r].config
    ensures LiveInv(t)
  {
    var v := s.runs[id].config;
    assert v in s.configs && v in s.configRules && AtMostOne(s.configs, Active);
    assert v in t.configRules && t.configRules[v] == s.configRules[v];
    assert CatalogExtends(Catalog(s.categories, s.rules), Catalog(t.categories, t.rules));
    assert s.configs[v].basis == t.configs[v].basis by { assert SameContent(s.configs[v], t.configs[v]); }
    hide *;
    RulesOfStable(s, t, v);
    PublishTyped(s, id, now, t.runs);
    LiveFrom(t, v, id);
  }

  lemma LiveFrom(t: State, v: Version, id: RunId)
    requires t.sync.Some? && t.sync.value.config == v && t.sync.value.lastRun == id
    requires v in t.configs && t.configs[v].status == Active
    requires id in t.runs && t.runs[id].state == Committed && t.runs[id].config == v
    requires Typed(t.ledger, v, t.configs[v].basis.currency, t.runs[id].accounts, RulesOf(t, v), t.runs)
    requires InWindows(t.ledger, RulesOf(t, v), t.runs[id].toDate) && AllLinked(t.ledger)
    ensures LiveInv(t)
  {
  }

  // ---------------------------------------------------------------------
  // The whole step

  lemma PassesMeans(s: State, id: RunId, request: CommitRequest)
    requires CommitPasses(s, id, request)
    ensures s.runs[id].state == Uploaded || s.runs[id].state == Created
    ensures s.configs[s.runs[id].config].status != Superseded
    ensures Target(s.configs, s.runs[id].mode) == Some(s.runs[id].config)
    ensures s.runs[id].mode == Incremental ==>
              && Current(s.configs, Active) == Some(s.runs[id].config)
              && Current(s.configs, Pending).None?
              && SameAccountsAsLastRun(s, s.runs[id].accounts)
    ensures Complete(RowsOf(s.batches, id), request.batchCount)
    ensures request.accounts == s.runs[id].accounts
    ensures s.runs[id].syncBefore == if s.sync.Some? then Some(s.sync.value.revision) else None
    ensures ReplacementsValid(RowsOf(s.staged, id), s.ledger.rows)
  {
  }

  lemma PassesId(s: State, id: RunId, request: CommitRequest)
    requires CommitPasses(s, id, request)
    ensures id in s.runs && s.runs[id].config in s.configs && s.runs[id].state != Committed
  {
  }

  lemma CommittingKeepsCore(s: State, id: RunId, request: CommitRequest, now: int)
    requires Core(s) && CommitPasses(s, id, request)
    ensures id in s.runs && s.runs[id].config in s.configs && Complete(RowsOf(s.batches, id), request.batchCount)
    ensures Core(Committing(s, id, request, now))
  {
    hide *;
    PassesId(s, id, request);
    PassesMeans(s, id, request);
    CoreMeans(s, id);
    var t := Committing(s, id, request, now);
    CommittingConfigInv(s, id, request, now);
    CommittingExtends(s, id, request, now);
    CommittingShape(s, id, request, now);
    CommittedRunShape(s, id, request, now);
    CommittedRunOk(s, id, request, now);
    CommittingRest(s, t, id, t.runs[id], now);
    CoreFrom(t);
  }

  lemma CoreMeans(s: State, id: RunId)
    requires Core(s) && id in s.runs
    ensures ConfigInv(s) && VersionsOk(s.configs) && RunInv(s) && RunOk(s, id) && s.runs[id].config in s.configs
    ensures LiveInv(s)
  {
  }

  lemma CommittingRest(s: State, t: State, id: RunId, next: Run, now: int)
    requires id in s.runs && s.runs[id].state != Committed
    requires t.runs == s.runs[id := next] && SameManifest(s.runs[id], next) && next.state == Committed
    requires t.batches == s.batches && t.staged == s.staged - {id}
    requires t.ledger == Publish(s.ledger, CommitmentOf(s, id, now))
    requires t.sync == Some(Advanced(s.sync, id, s.runs[id].config))
    requires s.runs[id].config in t.configs && t.configs[s.runs[id].config].status == Active
    requires s.runs[id].mode == Incremental ==>
               && Current(s.configs, Active) == Some(s.runs[id].config)
               && SameAccountsAsLastRun(s, s.runs[id].accounts)
    requires RunOk(s, id) && RunOk(t, id) && ConfigExtends(s, t)
    requires ConfigInv(s) && RunInv(s) && LiveInv(s)
    ensures RunInv(t) && LiveInv(t)
  {
    hide *;
    ManifestMeans(s.runs[id], next);
    CommittingRuns(s, t, id, next);
    AdvancedIs(s.sync, id, s.runs[id].config);
    CommittingLive(s, t, id, now);
  }

  lemma ManifestMeans(a: Run, b: Run)
    requires SameManifest(a, b)
    ensures && a.idempotencyKey == b.idempotencyKey && a.config == b.config && a.accounts == b.accounts
            && a.toDate == b.toDate && a.syncBefore == b.syncBefore
  {
  }

  lemma AdvancedIs(sync: Option<Sync>, id: RunId, v: Version)
    ensures Advanced(sync, id, v).config == v && Advanced(sync, id, v).lastRun == id
  {
  }

  /** Whatever the order of the checks, a commit is accepted exactly when the run is
      uploaded (or empty), its target is still the current one, no batch is missing or
      superfluous, the accounts are those of the run, nothing was published since it
      began, an incremental run finds no pending version and the last account set, and
      its pending replacements are valid. */
  lemma CommitAcceptance(s: State, id: RunId, request: CommitRequest)
    requires id in s.runs && s.runs[id].config in s.configs
    ensures CommitError(s, id, request).None? <==>
              var run := s.runs[id];
              && (run.state == Uploaded || (run.state == Created && request.batchCount == 0))
              && Target(s.configs, run.mode) == Some(run.config)
              && Complete(RowsOf(s.batches, id), request.batchCount)
              && request.accounts == run.accounts
              && run.syncBefore == (if s.sync.Some? then Some(s.sync.value.revision) else None)
              && (run.mode == Incremental ==>
                    Current(s.configs, Pending).None? && SameAccountsAsLastRun(s, run.accounts))
              && ReplacementsValid(RowsOf(s.staged, id), s.ledger.rows)
  {
    hide Complete, ReplacementsValid, SameAccountsAsLastRun;
    TargetStatus(s.configs, s.runs[id].mode);
  }

  lemma TargetStatus(configs: map<Version, Config>, mode: Mode)
    ensures var target := Target(configs, mode);
            target.Some? ==>
              target.value in configs && configs[target.value].status != Superseded
              && (mode == Incremental ==> configs[target.value].status == Active)
  {
  }
}
