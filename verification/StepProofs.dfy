/** Configuration writes and begin keep the global invariant. */
module StepProofs {
  import opened Options
  import opened Model
  import opened ConfigSpec
  import opened RefreshSpec
  import opened Invariant
  import opened ConfigProofs

  // ---------------------------------------------------------------------
  // Configuration writes

  /** Configuration tables only grow; their immutable columns stay. */
  ghost predicate ConfigExtends(s: State, t: State) {
    && CatalogExtends(Catalog(s.categories, s.rules), Catalog(t.categories, t.rules))
    && (forall v :: v in s.configs ==> v in t.configs && SameContent(s.configs[v], t.configs[v]))
    && (forall v :: v in s.configRules ==> v in t.configRules && t.configRules[v] == s.configRules[v])
  }

  ghost predicate SameRefreshTables(s: State, t: State) {
    s.runs == t.runs && s.batches == t.batches && s.staged == t.staged && s.ledger == t.ledger && s.sync == t.sync
  }

  lemma AddedVersionExtends(configs: map<Version, Config>, r: map<Version, Config>, v: Version, config: Config)
    requires SameContents(configs, r) && v !in configs
    ensures forall w :: w in configs ==> w in r[v := config] && SameContent(configs[w], r[v := config][w])
  {
  }

  lemma NewVersionShape(s: State, request: ConfigRequest, now: int)
    ensures var t := NewVersion(s, request, now);
            var v := Next(s.configs.Keys);
            && v in t.configs && v in t.configRules
            && t.configs == Retire(s.configs, Current(s.configs, Pending), now)[v := t.configs[v]]
            && t.configRules == s.configRules[v := t.configRules[v]]
  {
  }

  lemma ExtendsWith(s: State, t: State, r: map<Version, Config>, v: Version)
    requires v !in s.configs && v in t.configs && v in t.configRules && s.configRules.Keys == s.configs.Keys
    requires t.configs == r[v := t.configs[v]] && t.configRules == s.configRules[v := t.configRules[v]]
    requires SameContents(s.configs, r)
    requires CatalogExtends(Catalog(s.categories, s.rules), Catalog(t.categories, t.rules))
    ensures ConfigExtends(s, t)
  {
    hide CatalogExtends;
    AddedVersionExtends(s.configs, r, v, t.configs[v]);
  }

  lemma NewVersionExtends(s: State, request: ConfigRequest, now: int)
    requires CatalogOk(Catalog(s.categories, s.rules)) && VersionsOk(s.configs) && request.Valid()
    requires s.configRules.Keys == s.configs.Keys
    ensures ConfigExtends(s, NewVersion(s, request, now))
  {
    hide *;
    NewVersionShape(s, request, now);
    NewVersionCatalog(s, request, now);
    NextIsFresh(s.configs.Keys);
    RetireKeeps(s.configs, now);
    ExtendsWith(s, NewVersion(s, request, now), Retire(s.configs, Current(s.configs, Pending), now),
                Next(s.configs.Keys));
  }

  lemma NextIsFresh(keys: set<nat>)
    ensures Next(keys) !in keys
  {
  }

  lemma LiveEditExtends(s: State, request: ConfigRequest, now: int)
    requires ConfigInv(s)
    ensures ConfigExtends(s, PutState(s, request, LiveEdit, now))
  {
    hide CatalogOk, VersionsOk, ContentsOk, AllLinksOk, SameContent;
    ConfigInvParts(s);
    RetireKeeps(s.configs, now);
    PresentCatalogOk(Catalog(s.categories, s.rules), request.categories);
  }

  lemma PutTables(s: State, request: ConfigRequest, kind: PutKind, now: int)
    ensures SameRefreshTables(s, PutState(s, request, kind, now))
    ensures kind == UnchangedPending ==> PutState(s, request, kind, now) == s
    ensures kind == FirstVersion || kind == NewPending ==>
              PutState(s, request, kind, now) == NewVersion(s, request, now)
  {
  }

  lemma ExtendsSelf(s: State)
    ensures ConfigExtends(s, s)
  {
  }

  lemma ConfigInvParts(s: State)
    requires ConfigInv(s)
    ensures CatalogOk(Catalog(s.categories, s.rules)) && VersionsOk(s.configs)
    ensures s.configRules.Keys == s.configs.Keys
  {
  }

  lemma PutExtends(s: State, request: ConfigRequest, kind: PutKind, now: int)
    requires ConfigInv(s) && request.Valid()
    ensures ConfigExtends(s, PutState(s, request, kind, now))
    ensures SameRefreshTables(s, PutState(s, request, kind, now))
  {
    hide *;
    PutTables(s, request, kind, now);
    if kind == LiveEdit {
      LiveEditExtends(s, request, now);
    } else if kind == UnchangedPending {
      ExtendsSelf(s);
    } else {
      ConfigInvParts(s);
      NewVersionExtends(s, request, now);
    }
  }

  /** A run depends on the configuration tables only through immutable content. */
  lemma RunOkFrame(s: State, t: State, id: RunId)
    requires ConfigInv(s) && ConfigExtends(s, t)
    requires id in s.runs && id in t.runs && t.runs[id] == s.runs[id] && RunOk(s, id)
    requires RowsOf(t.batches, id) == RowsOf(s.batches, id) && RowsOf(t.staged, id) == RowsOf(s.staged, id)
    ensures RunOk(t, id)
  {
    var v := s.runs[id].config;
    RulesOfStable(s, t, v);
    assert SameContent(s.configs[v], t.configs[v]);
  }

  lemma RunInvFrame(s: State, t: State)
    requires s.runs == t.runs && s.batches == t.batches && s.staged == t.staged
    requires ConfigInv(s) && ConfigExtends(s, t) && RunInv(s)
    ensures RunInv(t)
  {
    hide ConfigInv, ConfigExtends, RunOk, DistinctKeys;
    forall id | id in t.runs ensures RunOk(t, id) {
      RunOkFrame(s, t, id);
    }
  }

  lemma LiveInvFrame(s: State, t: State)
    requires ConfigInv(s) && ConfigExtends(s, t) && SameRefreshTables(s, t) && LiveInv(s)
    requires s.sync.Some? ==> Current(t.configs, Active) == Current(s.configs, Active)
    requires AtMostOne(s.configs, Active)
    ensures LiveInv(t)
  {
    if s.sync.Some? {
      var v := s.sync.value.config;
      RulesOfStable(s, t, v);
      assert SameContent(s.configs[v], t.configs[v]);
      assert Current(s.configs, Active) == Some(v);
    }
  }

  lemma PutActive(s: State, request: ConfigRequest, kind: PutKind, now: int)
    requires VersionsOk(s.configs) && Current(s.configs, Active).Some?
    ensures Current(PutState(s, request, kind, now).configs, Active) == Current(s.configs, Active)
  {
    RetireKeeps(s.configs, now);
    if kind == FirstVersion || kind == NewPending {
      var r := Retire(s.configs, Current(s.configs, Pending), now);
      var v := Next(s.configs.Keys);
      NextIsFresh(s.configs.Keys);
      AddPendingActive(r, v, NewVersion(s, request, now).configs[v]);
    }
  }

  lemma LiveNeedsActive(s: State)
    requires LiveInv(s) && s.sync.Some?
    ensures Current(s.configs, Active).Some?
  {
  }

  lemma PutKeepsCore(s: State, request: ConfigRequest, kind: PutKind, now: int)
    requires Core(s) && request.Valid()
    ensures Core(PutState(s, request, kind, now))
  {
    hide *;
    var t := PutState(s, request, kind, now);
    CoreParts(s);
    ConfigInvParts(s);
    ActiveIsUnique(s.configs);
    PutStateConfigInv(s, request, kind, now);
    PutExtends(s, request, kind, now);
    SameRefreshMeans(s, t);
    RunInvFrame(s, t);
    if s.sync.Some? {
      LiveNeedsActive(s);
      PutActive(s, request, kind, now);
    }
    LiveInvFrame(s, t);
    CoreFrom(t);
  }

  lemma SameRefreshMeans(s: State, t: State)
    requires SameRefreshTables(s, t)
    ensures s.runs == t.runs && s.batches == t.batches && s.staged == t.staged
    ensures s.ledger == t.ledger && s.sync == t.sync
  {
  }

  lemma ActiveIsUnique(configs: map<Version, Config>)
    requires VersionsOk(configs)
    ensures AtMostOne(configs, Active) && AtMostOne(configs, Pending)
  {
  }

  // ---------------------------------------------------------------------
  // Begin

  lemma NewRunFits(s: State, key: string, request: BeginRequest, v: Version)
    requires request.Valid()
    ensures RunFits(NewRun(s, key, request, v), map[], map[], s.configs[v].basis.currency, RulesOf(s, v))
    requires v in s.configs
  {
  }

  ghost predicate SameConfigTables(s: State, t: State) {
    s.categories == t.categories && s.rules == t.rules && s.configs == t.configs && s.configRules == t.configRules
  }

  lemma SameConfigInv(s: State, t: State)
    requires ConfigInv(s) && SameConfigTables(s, t)
    ensures ConfigInv(t)
  {
  }

  lemma SameRules(s: State, t: State, v: Version)
    requires SameConfigTables(s, t)
    ensures RulesOf(t, v) == RulesOf(s, v)
  {
  }

  lemma RunOkSame(s: State, t: State, id: RunId)
    requires SameConfigTables(s, t) && id in s.runs && id in t.runs && t.runs[id] == s.runs[id] && RunOk(s, id)
    requires RowsOf(t.batches, id) == RowsOf(s.batches, id) && RowsOf(t.staged, id) == RowsOf(s.staged, id)
    ensures RunOk(t, id)
  {
  }

  lemma NewRunOk(s: State, key: string, request: BeginRequest, v: Version)
    requires request.Valid() && v in s.configs
    requires Next(s.runs.Keys) !in s.batches && Next(s.runs.Keys) !in s.staged
    ensures RunOk(Began(s, key, request, v), Next(s.runs.Keys))
  {
    NewRunFits(s, key, request, v);
    SameRules(s, Began(s, key, request, v), v);
  }

  lemma BeginRunInv(s: State, key: string, request: BeginRequest, v: Version)
    requires RunInv(s) && request.Valid() && v in s.configs && RunWithKey(s.runs, key).None?
    ensures RunInv(Began(s, key, request, v))
  {
    hide RunOk;
    var id := Next(s.runs.Keys);
    var t := Began(s, key, request, v);
    NextIsFresh(s.runs.Keys);
    NewRunOk(s, key, request, v);
    forall other | other in s.runs ensures RunOk(t, other) {
      RunOkSame(s, t, other);
    }
  }

  lemma BeginSerial(runs: map<RunId, Run>, sync: Option<Sync>, id: RunId, run: Run)
    requires SerialInv(runs, sync) && id !in runs && run.state == Created
    requires run.syncBefore == if sync.Some? then Some(sync.value.revision) else None
    ensures SerialInv(runs[id := run], sync)
  {
    assert CommittedRuns(runs[id := run]) == CommittedRuns(runs);
  }

  lemma MoreRunsLive(s: State, runs: map<RunId, Run>)
    requires LiveInv(s)
    requires forall id :: id in s.runs ==>
               && id in runs && runs[id].config == s.runs[id].config
               && (s.runs[id].state == Committed ==> runs[id] == s.runs[id])
    ensures LiveInv(s.(runs := runs))
  {
  }

  lemma TypedMoreRuns(l: Ledger, config: Version, currency: string, accounts: set<string>,
                      rules: map<Key, RuleVersion>, runs: map<RunId, Run>, more: map<RunId, Run>)
    requires Typed(l, config, currency, accounts, rules, runs)
    requires forall id :: id in runs ==> id in more && more[id].config == runs[id].config
    ensures Typed(l, config, currency, accounts, rules, more)
  {
  }

  lemma BeganShape(s: State, key: string, request: BeginRequest, v: Version)
    ensures var t := Began(s, key, request, v);
            && t.batches == s.batches && t.staged == s.staged && t.sync == s.sync && t.ledger == s.ledger
            && SameConfigTables(s, t) && Next(s.runs.Keys) !in s.runs
            && t.runs == s.runs[Next(s.runs.Keys) := NewRun(s, key, request, v)]
            && NewRun(s, key, request, v).state == Created
            && NewRun(s, key, request, v).syncBefore ==
                 (if s.sync.Some? then Some(s.sync.value.revision) else None)
  {
  }

  lemma BeginKeepsCore(s: State, key: string, request: BeginRequest, v: Version)
    requires Core(s) && request.Valid() && v in s.configs && RunWithKey(s.runs, key).None?
    ensures Core(Began(s, key, request, v))
  {
    hide RunInv, ConfigInv, LiveInv;
    var t := Began(s, key, request, v);
    NextIsFresh(s.runs.Keys);
    BeginRunInv(s, key, request, v);
    MoreRunsLive(s, t.runs);
    SameConfigInv(s, t);
  }

  /** A run keeps its idempotency key, so keys stay distinct. */
  lemma SameKeys(runs: map<RunId, Run>, id: RunId, next: Run)
    requires DistinctKeys(runs) && id in runs && next.idempotencyKey == runs[id].idempotencyKey
    ensures DistinctKeys(runs[id := next])
  {
  }

  /** Whatever the order of the checks, a new run is accepted exactly when a version is
      active and either a full run starts early enough for every enabled window of its
      target, or an incremental run finds no pending version, a published run and,
      where that run is known, the same accounts. */
  lemma BeginAcceptance(s: State, request: BeginRequest)
    ensures BeginError(s, request).None? <==>
              && Current(s.configs, Active).Some?
              && (request.mode == Full ==>
                    CoversWindows(RulesOf(s, Target(s.configs, Full).value), request.fromDate, request.toDate))
              && (request.mode == Incremental ==>
                    && Current(s.configs, Pending).None? && s.sync.Some?
                    && (s.sync.value.lastRun in s.runs ==> SameAccountsAsLastRun(s, request.accounts)))
  {
    hide CoversWindows, RulesOf;
  }
}
