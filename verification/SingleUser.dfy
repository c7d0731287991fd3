/** Migration 0003: every table loses its scope key, and can get it back. */
module SingleUser {
  import opened Options
  import opened Model
  import opened ConfigSpec
  import opened RefreshSpec
  import opened Invariant
  import opened ConfigProofs
  import opened StepProofs
  import opened StoreModel
  import opened Traces

  // ---------------------------------------------------------------------
  // The scoped tables

  const PERSONAL := "personal"

  datatype ScopedId = ScopedId(scope: string, id: Identity)
  datatype ScopedLink = ScopedLink(scope: string, key: LinkKey)

  datatype LegacyStatus = PendingStatus | PostedStatus

  datatype LegacyRow = LegacyRow(
    date: int, amount: nat, currency: string, status: LegacyStatus, merchant: Option<string>,
    description: Option<string>, refunded: bool, refund: nat, supersedes: Option<string>,
    config: Version, firstRun: RunId, lastRun: RunId, firstSeen: int, lastSeen: int)

  /** The legacy request digest also covers the scope. */
  datatype LegacyRequest = LegacyRequest(scope: string, request: BeginRequest)

  datatype LegacyRun = LegacyRun(
    scope: string, idempotencyKey: string, requestHash: LegacyRequest, mode: Mode, state: RunState,
    config: Version, fromDate: int, toDate: int, accounts: set<string>, manifest: Option<set<string>>,
    expectedBatchCount: Option<nat>, received: nat, sourceCount: nat, storeCount: nat, skipCount: nat,
    checksum: Option<seq<seq<Upload>>>,
    uploadedAt: Option<int>, validatedAt: Option<int>, committedAt: Option<int>)

  datatype LegacyBatch = LegacyBatch(
    idempotencyKey: string, request: BatchRequest, checksum: seq<Upload>, itemCount: nat, storeCount: nat,
    skipCount: nat)

  datatype LegacySource = LegacySource(scope: Option<string>, accounts: Option<set<string>>, request: ConfigRequest)

  datatype LegacyConfig = LegacyConfig(
    status: Status, basis: Basis, hash: ConfigHash, source: LegacySource,
    activatedAt: Option<int>, supersededAt: Option<int>)

  datatype Legacy = Legacy(
    categories: map<Key, Presentation>,
    rules: map<RuleRef, Rule>,
    configs: map<Version, LegacyConfig>,
    configRules: map<Version, map<Key, Version>>,
    runs: map<RunId, LegacyRun>,
    batches: map<RunId, map<nat, LegacyBatch>>,
    staged: map<RunId, map<ScopedId, Staged>>,
    rows: map<ScopedId, LegacyRow>,
    links: map<ScopedLink, Link>,
    sync: map<string, Sync>)

  function RunScopes(runs: map<RunId, LegacyRun>): set<string> {
    set r | r in runs :: runs[r].scope
  }

  function StagedScopes(staged: map<RunId, map<ScopedId, Staged>>): set<string> {
    set r, k | r in staged && k in staged[r] :: k.scope
  }

  function SourceScopes(configs: map<Version, LegacyConfig>): set<string> {
    set v | v in configs && configs[v].source.scope.Some? :: configs[v].source.scope.value
  }

  /** Every scope that any table mentions. */
  function Scopes(l: Legacy): set<string> {
    RunScopes(l.runs) + StagedScopes(l.staged)
    + (set k | k in l.rows :: k.scope)
    + (set k | k in l.links :: k.scope)
    + l.sync.Keys + SourceScopes(l.configs)
  }

  ghost predicate SingleScope(l: Legacy) {
    |Scopes(l)| <= 1
  }

  lemma OneScope(scopes: set<string>, a: string, b: string)
    requires |scopes| <= 1 && a in scopes && b in scopes
    ensures a == b
  {
    if a != b {
      assert |{a, b}| == 2 && {a, b} <= scopes;
      SubsetSize({a, b}, scopes);
    }
  }

  lemma {:induction false} SubsetSize<T>(a: set<T>, b: set<T>)
    requires a <= b
    ensures |a| <= |b|
  {
    if a != {} {
      var x :| x in a;
      SubsetSize(a - {x}, b - {x});
    }
  }

  /** Under the single-scope check the projection merges no two rows. */
  lemma ProjectionIsInjective(l: Legacy)
    requires SingleScope(l)
    ensures Unambiguous(l)
  {
    forall a, b | a in l.rows && b in l.rows && a.id == b.id ensures a == b {
      OneScope(Scopes(l), a.scope, b.scope);
    }
    forall a, b | a in l.links && b in l.links && a.key == b.key ensures a == b {
      OneScope(Scopes(l), a.scope, b.scope);
    }
    forall a, b | a in l.sync && b in l.sync ensures a == b {
      OneScope(Scopes(l), a, b);
    }
  }

  // ---------------------------------------------------------------------
  // Upgrade

  predicate Open(state: RunState) {
    state == Created || state == Uploaded || state == Validated
  }

  function UpgradedRun(r: LegacyRun): Run {
    Run(r.idempotencyKey, BeginRequest(r.mode, r.fromDate, r.toDate, r.accounts), r.mode,
        if Open(r.state) then Failed else r.state, r.config, r.fromDate, r.toDate, r.accounts, None,
        r.expectedBatchCount, r.received, r.storeCount, r.checksum,
        if r.state == Committed then Some(r.accounts) else None, r.uploadedAt, r.validatedAt, r.committedAt)
  }

  function UpgradedRow(r: LegacyRow): Row {
    Row(Content(None, r.date, r.amount, r.currency, r.status == PendingStatus, r.supersedes, r.description, r.merchant,
                r.refunded, r.refund),
        r.config, r.firstRun, r.lastRun, r.firstSeen, r.lastSeen)
  }

  function UpgradedBatch(b: LegacyBatch): Batch {
    Batch(b.idempotencyKey, b.request, b.checksum, b.storeCount)
  }

  function UpgradedBatches(batches: map<nat, LegacyBatch>): map<nat, Batch> {
    map i | i in batches :: UpgradedBatch(batches[i])
  }

  /** The semantic digest recomputed from the rules that a version links. */
  function RecomputedHash(c: Catalog, links: map<Key, Version>, basis: Basis): ConfigHash {
    var rules := Join(c, links);
    ConfigHash(basis, map k | k in rules :: rules[k].rule.hash)
  }

  function UpgradedConfig(c: Catalog, links: map<Key, Version>, config: LegacyConfig): Config {
    Config(config.status, config.basis, RecomputedHash(c, links, config.basis), config.source.request,
           config.activatedAt, config.supersededAt)
  }

  function UpgradedConfigs(c: Catalog, configRules: map<Version, map<Key, Version>>,
                           configs: map<Version, LegacyConfig>)
    : map<Version, Config>
  {
    map v | v in configs :: UpgradedConfig(c, RowsOf(configRules, v), configs[v])
  }

  function UpgradedRuns(runs: map<RunId, LegacyRun>): map<RunId, Run> {
    map r | r in runs :: UpgradedRun(runs[r])
  }

  function UpgradedBatchTable(batches: map<RunId, map<nat, LegacyBatch>>): map<RunId, map<nat, Batch>> {
    map r | r in batches :: UpgradedBatches(batches[r])
  }

  ghost predicate DistinctIds(rows: map<ScopedId, LegacyRow>) {
    forall a, b | a in rows && b in rows :: a.id == b.id ==> a == b
  }

  ghost predicate OneSync(sync: map<string, Sync>) {
    forall a, b | a in sync && b in sync :: a == b
  }

  ghost predicate DistinctLinks(links: map<ScopedLink, Link>) {
    forall a, b | a in links && b in links :: a.key == b.key ==> a == b
  }

  /** Dropping the scope merges no two rows of any table. */
  ghost predicate Unambiguous(l: Legacy) {
    DistinctIds(l.rows) && DistinctLinks(l.links) && OneSync(l.sync)
  }

  function UpgradedRows(rows: map<ScopedId, LegacyRow>): map<Identity, Row>
    requires DistinctIds(rows)
  {
    map k | k in rows :: k.id := UpgradedRow(rows[k])
  }

  function UpgradedLinks(links: map<ScopedLink, Link>): map<LinkKey, Link>
    requires DistinctLinks(links)
  {
    map k | k in links :: k.key := links[k]
  }

  function UpgradedSync(sync: map<string, Sync>): (r: Option<Sync>)
    requires OneSync(sync)
    ensures sync == map[] ==> r.None?
    ensures forall scope :: scope in sync ==> r == Some(sync[scope])
  {
    if sync == map[] then None
    else
      assert exists scope :: scope in sync;
      var scope :| scope in sync;
      Some(sync[scope])
  }

  function Upgraded(l: Legacy): State
    requires Unambiguous(l)
  {
    State(l.categories, l.rules, UpgradedConfigs(Catalog(l.categories, l.rules), l.configRules, l.configs),
          l.configRules, UpgradedRuns(l.runs), UpgradedBatchTable(l.batches), map[],
          Ledger(UpgradedRows(l.rows), UpgradedLinks(l.links)), UpgradedSync(l.sync))
  }

  lemma ScopedRowsKept(rows: map<ScopedId, LegacyRow>)
    requires DistinctIds(rows)
    ensures |UpgradedRows(rows)| == |rows|
    ensures forall k :: k in rows ==> k.id in UpgradedRows(rows) && UpgradedRows(rows)[k.id] == UpgradedRow(rows[k])
  {
    hide UpgradedRow;
    SameSize(rows.Keys, UpgradedRows(rows).Keys, (k: ScopedId) => k.id);
    assert |rows.Keys| == |rows| && |UpgradedRows(rows).Keys| == |UpgradedRows(rows)|;
  }

  lemma ScopedLinksKept(links: map<ScopedLink, Link>)
    requires DistinctLinks(links)
    ensures |UpgradedLinks(links)| == |links|
    ensures forall k :: k in links ==> k.key in UpgradedLinks(links) && UpgradedLinks(links)[k.key] == links[k]
  {
    SameSize(links.Keys, UpgradedLinks(links).Keys, (k: ScopedLink) => k.key);
    assert |links.Keys| == |links| && |UpgradedLinks(links).Keys| == |UpgradedLinks(links)|;
  }

  /** Under the single-scope check every legacy row and link is live after the
      upgrade, under its own identity, and there are no others. */
  lemma UpgradeKeepsEveryRow(l: Legacy)
    requires SingleScope(l)
    ensures Unambiguous(l)
    ensures var t := Upgraded(l);
            && |t.ledger.rows| == |l.rows| && |t.ledger.links| == |l.links|
            && (forall k :: k in l.rows ==> k.id in t.ledger.rows && t.ledger.rows[k.id] == UpgradedRow(l.rows[k]))
            && (forall k :: k in l.links ==> k.key in t.ledger.links && t.ledger.links[k.key] == l.links[k])
  {
    ProjectionIsInjective(l);
    hide UpgradedConfigs, UpgradedRuns, UpgradedBatchTable, UpgradedRow, UpgradedSync, SingleScope, UpgradedRows,
      UpgradedLinks, DistinctIds, DistinctLinks;
    ScopedRowsKept(l.rows);
    ScopedLinksKept(l.links);
  }

  /** The check is there for a reason: two scopes may hold the same identity. */
  lemma TwoScopesMayCollide(row: LegacyRow, id: Identity)
    ensures var rows := map[ScopedId("a", id) := row, ScopedId("b", id) := row];
            !DistinctIds(rows) && |rows| == 2
  {
  }

  /** An injective projection keeps the number of keys. */
  lemma {:induction false} SameSize<A, B>(from: set<A>, to: set<B>, f: A -> B)
    requires forall a, b | a in from && b in from :: f(a) == f(b) ==> a == b
    requires to == set a | a in from :: f(a)
    ensures |to| == |from|
    decreases |from|
  {
    if from != {} {
      var a :| a in from;
      assert to - {f(a)} == set b | b in from - {a} :: f(b);
      SameSize(from - {a}, to - {f(a)}, f);
    }
  }

  // ---------------------------------------------------------------------
  // The migration

  method SourceScopesOf(configs: map<Version, LegacyConfig>) returns (scopes: set<string>)
    ensures scopes == SourceScopes(configs)
  {
    scopes := {};
    var rest := configs.Keys;
    while rest != {}
      invariant rest <= configs.Keys
      invariant scopes == set v | v in configs && v !in rest && configs[v].source.scope.Some? ::
                            configs[v].source.scope.value
      decreases |rest|
    {
      var v :| v in rest;
      rest := rest - {v};
      if configs[v].source.scope.Some? {
        scopes := scopes + {configs[v].source.scope.value};
      }
    }
  }

  /** Version by version: drop the scope from the stored request, recompute the digest. */
  method ConfigRewrites(l: Legacy) returns (configs: map<Version, Config>)
    ensures configs == UpgradedConfigs(Catalog(l.categories, l.rules), l.configRules, l.configs)
  {
    hide RecomputedHash;
    configs := map[];
    var rest := l.configs.Keys;
    while rest != {}
      invariant rest <= l.configs.Keys
      invariant forall v :: v in configs <==> v in l.configs && v !in rest
      invariant forall v :: v in configs ==>
                  configs[v] == UpgradedConfig(Catalog(l.categories, l.rules), RowsOf(l.configRules, v), l.configs[v])
      decreases |rest|
    {
      var v :| v in rest;
      rest := rest - {v};
      var c := l.configs[v];
      var hash := RecomputedHash(Catalog(l.categories, l.rules), RowsOf(l.configRules, v), c.basis);
      configs := configs[v := Config(c.status, c.basis, hash, c.source.request, c.activatedAt, c.supersededAt)];
    }
    assert configs.Keys == l.configs.Keys;
  }

  /** Run by run: the request digest without the scope. */
  method RequestRewrites(runs: map<RunId, LegacyRun>) returns (requests: map<RunId, BeginRequest>)
    ensures requests.Keys == runs.Keys
    ensures forall r :: r in runs ==>
              requests[r] == BeginRequest(runs[r].mode, runs[r].fromDate, runs[r].toDate, runs[r].accounts)
  {
    requests := map[];
    var rest := runs.Keys;
    while rest != {}
      invariant rest <= runs.Keys
      invariant forall r :: r in requests <==> r in runs && r !in rest
      invariant forall r :: r in requests ==>
                  requests[r] == BeginRequest(runs[r].mode, runs[r].fromDate, runs[r].toDate, runs[r].accounts)
      decreases |rest|
    {
      var r :| r in rest;
      rest := rest - {r};
      requests := requests[r := BeginRequest(runs[r].mode, runs[r].fromDate, runs[r].toDate, runs[r].accounts)];
    }
    assert requests.Keys == runs.Keys;
  }

  function RewrittenRuns(runs: map<RunId, LegacyRun>, requests: map<RunId, BeginRequest>): map<RunId, Run>
    requires requests.Keys == runs.Keys
  {
    map r | r in runs :: UpgradedRun(runs[r]).(request := requests[r])
  }

  lemma RewrittenIsUpgraded(runs: map<RunId, LegacyRun>, requests: map<RunId, BeginRequest>)
    requires requests.Keys == runs.Keys
    requires forall r :: r in runs ==>
               requests[r] == BeginRequest(runs[r].mode, runs[r].fromDate, runs[r].toDate, runs[r].accounts)
    ensures RewrittenRuns(runs, requests) == UpgradedRuns(runs)
  {
  }

  lemma UpgradedIs(l: Legacy)
    requires Unambiguous(l)
    ensures DistinctIds(l.rows) && DistinctLinks(l.links) && OneSync(l.sync)
    ensures Upgraded(l) ==
              State(l.categories, l.rules, UpgradedConfigs(Catalog(l.categories, l.rules), l.configRules, l.configs),
                    l.configRules, UpgradedRuns(l.runs), UpgradedBatchTable(l.batches), map[],
                    Ledger(UpgradedRows(l.rows), UpgradedLinks(l.links)), UpgradedSync(l.sync))
  {
  }

  /** Table by table, after the old tables were dropped. */
  method Refill(db: Store, l: Legacy)
    requires Unambiguous(l)
    modifies db
    ensures db.Snapshot() == Upgraded(l)
  {
    hide *;
    UpgradedIs(l);
    var configs := ConfigRewrites(l);
    var requests := RequestRewrites(l.runs);
    RewrittenIsUpgraded(l.runs, requests);
    db.runs := RewrittenRuns(l.runs, requests);
    db.batches := UpgradedBatchTable(l.batches);
    db.staged := map[];
    db.rows := UpgradedRows(l.rows);
    db.links := UpgradedLinks(l.links);
    db.sync := UpgradedSync(l.sync);
    db.categories, db.rules, db.configRules := l.categories, l.rules, l.configRules;
    db.configs := configs;
    TablesAre(db);
  }

  method ScopesOf(l: Legacy) returns (scopes: set<string>)
    ensures scopes == Scopes(l)
  {
    hide SourceScopes, StagedScopes, RunScopes;
    var sources := SourceScopesOf(l.configs);
    scopes := RunScopes(l.runs) + StagedScopes(l.staged) + (set k | k in l.rows :: k.scope)
              + (set k | k in l.links :: k.scope) + l.sync.Keys + sources;
  }

  /** Refuses, and changes nothing, when there is more than one scope. */
  method Upgrade(db: Store, l: Legacy) returns (ok: bool)
    modifies db
    ensures ok <==> SingleScope(l)
    ensures ok ==> Unambiguous(l) && db.Snapshot() == Upgraded(l)
    ensures !ok ==> db.Snapshot() == old(db.Snapshot())
  {
    hide Scopes, Upgraded, Unambiguous;
    var scopes := ScopesOf(l);
    if |scopes| > 1 {
      return false;
    }
    ProjectionIsInjective(l);
    Refill(db, l);
    return true;
  }

  // ---------------------------------------------------------------------
  // Downgrade

  function DowngradedRun(r: Run): LegacyRun {
    LegacyRun(PERSONAL, r.idempotencyKey,
              LegacyRequest(PERSONAL, BeginRequest(r.mode, r.fromDate, r.toDate, r.accounts)), r.mode, r.state,
              r.config, r.fromDate, r.toDate, r.accounts,
              if r.state == Committed then
                Some(if r.completedAccounts.Some? then r.completedAccounts.value else r.accounts)
              else None,
              r.expectedBatchCount, r.received, r.itemCount, r.itemCount, 0, r.checksum,
              r.uploadedAt, r.validatedAt, r.committedAt)
  }

  function DowngradedRow(r: Row): LegacyRow {
    LegacyRow(r.content.date, r.content.amount, r.content.currency,
              if r.content.pending then PendingStatus else PostedStatus, r.content.merchant, r.content.name,
              r.content.refunded, r.content.refund, r.content.pendingSource,
              r.config, r.firstRun, r.lastRun, r.firstSeen, r.lastSeen)
  }

  function DowngradedBatches(batches: map<nat, Batch>): map<nat, LegacyBatch> {
    map i | i in batches ::
      LegacyBatch(batches[i].idempotencyKey, batches[i].request, batches[i].checksum, batches[i].itemCount,
                  batches[i].itemCount, 0)
  }

  function DowngradedConfig(c: Catalog, links: map<Key, Version>, config: Config): LegacyConfig {
    LegacyConfig(config.status, config.basis, RecomputedHash(c, links, config.basis),
                 LegacySource(Some(PERSONAL), None, config.source), config.activatedAt, config.supersededAt)
  }

  function DowngradedConfigs(c: Catalog, configRules: map<Version, map<Key, Version>>, configs: map<Version, Config>)
    : map<Version, LegacyConfig>
  {
    map v | v in configs :: DowngradedConfig(c, RowsOf(configRules, v), configs[v])
  }

  function DowngradedRuns(runs: map<RunId, Run>): map<RunId, LegacyRun> {
    map r | r in runs :: DowngradedRun(runs[r])
  }

  function DowngradedBatchTable(batches: map<RunId, map<nat, Batch>>): map<RunId, map<nat, LegacyBatch>> {
    map r | r in batches :: DowngradedBatches(batches[r])
  }

  function DowngradedStagedRows(rows: map<Identity, Staged>): map<ScopedId, Staged> {
    map t | t in rows :: ScopedId(PERSONAL, t) := rows[t]
  }

  function DowngradedStaged(staged: map<RunId, map<Identity, Staged>>): map<RunId, map<ScopedId, Staged>> {
    map r | r in staged :: DowngradedStagedRows(staged[r])
  }

  function DowngradedRows(rows: map<Identity, Row>): map<ScopedId, LegacyRow> {
    map t | t in rows :: ScopedId(PERSONAL, t) := DowngradedRow(rows[t])
  }

  function DowngradedLinks(links: map<LinkKey, Link>): map<ScopedLink, Link> {
    map k | k in links :: ScopedLink(PERSONAL, k) := links[k]
  }

  function DowngradedSync(sync: Option<Sync>): map<string, Sync> {
    if sync.Some? then map[PERSONAL := sync.value] else map[]
  }

  function Downgraded(s: State): Legacy {
    Legacy(s.categories, s.rules, DowngradedConfigs(Catalog(s.categories, s.rules), s.configRules, s.configs),
           s.configRules, DowngradedRuns(s.runs), DowngradedBatchTable(s.batches), DowngradedStaged(s.staged),
           DowngradedRows(s.ledger.rows), DowngradedLinks(s.ledger.links), DowngradedSync(s.sync))
  }

  // ---------------------------------------------------------------------
  // One scope after a downgrade

  lemma PersonalStaged(staged: map<RunId, map<Identity, Staged>>)
    ensures StagedScopes(DowngradedStaged(staged)) <= {PERSONAL}
  {
  }

  lemma PersonalTables(s: State)
    ensures RunScopes(DowngradedRuns(s.runs)) <= {PERSONAL}
    ensures (set k | k in DowngradedRows(s.ledger.rows) :: k.scope) <= {PERSONAL}
    ensures (set k | k in DowngradedLinks(s.ledger.links) :: k.scope) <= {PERSONAL}
    ensures DowngradedSync(s.sync).Keys <= {PERSONAL}
  {
  }

  lemma PersonalSources(c: Catalog, configRules: map<Version, map<Key, Version>>, configs: map<Version, Config>)
    ensures SourceScopes(DowngradedConfigs(c, configRules, configs)) <= {PERSONAL}
  {
  }

  /** A downgraded database passes the single-scope check. */
  lemma DowngradedIsPersonal(s: State)
    ensures SingleScope(Downgraded(s))
  {
    hide DowngradedRuns, DowngradedRows, DowngradedLinks, DowngradedSync, DowngradedConfigs, DowngradedStaged,
      RunScopes, StagedScopes, SourceScopes, DowngradedBatchTable;
    PersonalTables(s);
    PersonalStaged(s.staged);
    PersonalSources(Catalog(s.categories, s.rules), s.configRules, s.configs);
    assert Scopes(Downgraded(s)) <= {PERSONAL};
    SubsetSize(Scopes(Downgraded(s)), {PERSONAL});
  }

  // ---------------------------------------------------------------------
  // The round trip

  /** A run after both migrations: terminal runs keep everything but the revision they
      began at, and open runs have failed. */
  function Returned(r: Run): Run {
    if Open(r.state) then r.(state := Failed, syncBefore := None, completedAccounts := None)
    else r.(syncBefore := None)
  }

  function Anonymous(r: Row): Row {
    r.(content := r.content.(accountName := None))
  }

  function AnonymousLedger(l: Ledger): Ledger {
    Ledger(map id | id in l.rows :: Anonymous(l.rows[id]), l.links)
  }

  lemma RunReturns(run: Run)
    requires ManifestOk(run)
    requires run.state == Committed ==> run.completedAccounts == Some(run.accounts)
    requires run.state == Failed ==> run.completedAccounts.None?
    ensures UpgradedRun(DowngradedRun(run)) == Returned(run)
  {
  }

  lemma RowReturns(row: Row)
    ensures UpgradedRow(DowngradedRow(row)) == Anonymous(row)
  {
  }

  lemma BatchesReturn(batches: map<nat, Batch>)
    ensures UpgradedBatches(DowngradedBatches(batches)) == batches
  {
  }

  lemma BatchTableReturns(batches: map<RunId, map<nat, Batch>>)
    ensures UpgradedBatchTable(DowngradedBatchTable(batches)) == batches
  {
    hide UpgradedBatches, DowngradedBatches;
    forall r | r in batches ensures UpgradedBatches(DowngradedBatches(batches[r])) == batches[r] {
      BatchesReturn(batches[r]);
    }
  }

  lemma RowsReturn(rows: map<Identity, Row>)
    ensures DistinctIds(DowngradedRows(rows))
    ensures UpgradedRows(DowngradedRows(rows)) == map id | id in rows :: Anonymous(rows[id])
  {
    var d := DowngradedRows(rows);
    assert DistinctIds(d);
    hide UpgradedRow, DowngradedRow, Anonymous;
    var u := UpgradedRows(d);
    forall id ensures id in u <==> id in rows {
      if id in rows { assert ScopedId(PERSONAL, id) in d; }
    }
    forall id | id in rows ensures u[id] == Anonymous(rows[id]) {
      assert ScopedId(PERSONAL, id) in d;
      RowReturns(rows[id]);
    }
  }

  lemma LinksReturn(links: map<LinkKey, Link>)
    ensures DistinctLinks(DowngradedLinks(links)) && UpgradedLinks(DowngradedLinks(links)) == links
  {
  }

  /** What the invariant says about the state of a stored run. */
  ghost predicate Settled(run: Run) {
    && ManifestOk(run) && (run.state == Failed ==> run.completedAccounts.None?)
    && (run.state == Committed ==> run.completedAccounts == Some(run.accounts))
  }

  lemma RunsReturn(runs: map<RunId, Run>)
    requires forall r :: r in runs ==> Settled(runs[r])
    ensures UpgradedRuns(DowngradedRuns(runs)) == map r | r in runs :: Returned(runs[r])
  {
    hide UpgradedRun, DowngradedRun, Returned, ManifestOk;
    forall r | r in runs ensures UpgradedRun(DowngradedRun(runs[r])) == Returned(runs[r]) {
      assert Settled(runs[r]);
      RunReturns(runs[r]);
    }
  }

  lemma ConfigsReturn(c: Catalog, configRules: map<Version, map<Key, Version>>, configs: map<Version, Config>)
    requires forall v :: v in configs ==> configs[v].hash == RecomputedHash(c, RowsOf(configRules, v), configs[v].basis)
    ensures UpgradedConfigs(c, configRules, DowngradedConfigs(c, configRules, configs)) == configs
  {
  }

  lemma RecomputedIsStored(s: State, v: Version)
    requires v in s.configs
    requires ConfigInv(s)
    ensures s.configs[v].hash ==
              RecomputedHash(Catalog(s.categories, s.rules), RowsOf(s.configRules, v), s.configs[v].basis)
  {
    StoredHashIsSemantic(s, v);
    hide ConfigInv, DesiredHash, Join;
  }

  lemma InvSettled(s: State)
    requires Core(s)
    ensures ConfigInv(s) && forall r :: r in s.runs ==> Settled(s.runs[r])
  {
    hide ConfigInv, LiveInv, StagedOk, BatchesOk, ManifestOk, RulesOf, Accounted;
    forall r | r in s.runs ensures Settled(s.runs[r]) {
      assert RunOk(s, r);
    }
  }

  lemma SyncReturns(sync: Option<Sync>)
    ensures OneSync(DowngradedSync(sync))
    ensures UpgradedSync(DowngradedSync(sync)) == sync
  {
    if sync.Some? { assert PERSONAL in DowngradedSync(sync); }
  }

  /** A database of the service after both migrations. */
  function ReturnedState(s: State): State {
    s.(runs := map r | r in s.runs :: Returned(s.runs[r]), staged := map[],
       ledger := AnonymousLedger(s.ledger))
  }

  lemma TablesReturn(s: State)
    requires forall r :: r in s.runs ==> Settled(s.runs[r])
    requires forall v :: v in s.configs ==>
               s.configs[v].hash ==
                 RecomputedHash(Catalog(s.categories, s.rules), RowsOf(s.configRules, v), s.configs[v].basis)
    ensures var l := Downgraded(s);
            && Unambiguous(l)
            && Upgraded(l) == ReturnedState(s)
  {
    hide UpgradedRuns, DowngradedRuns, UpgradedRows, DowngradedRows, UpgradedLinks, DowngradedLinks, UpgradedSync,
      DowngradedSync, UpgradedConfigs, DowngradedConfigs, UpgradedBatchTable, DowngradedBatchTable, DowngradedStaged,
      Settled, Returned, Anonymous, RecomputedHash, DistinctIds, DistinctLinks;
    ConfigsReturn(Catalog(s.categories, s.rules), s.configRules, s.configs);
    RunsReturn(s.runs);
    BatchTableReturns(s.batches);
    RowsReturn(s.ledger.rows);
    LinksReturn(s.ledger.links);
    SyncReturns(s.sync);
  }

  /** Downgrading and upgrading any database that meets the core invariant returns its
      configuration, batches, links and sync row unchanged; rows lose only the account
      name, terminal runs only the revision they began at, and open runs come back failed. */
  lemma RoundTripFrom(s: State)
    requires Core(s)
    ensures var l := Downgraded(s);
            SingleScope(l) && Unambiguous(l) && Upgraded(l) == ReturnedState(s)
  {
    hide *;
    InvSettled(s);
    forall v | v in s.configs
      ensures s.configs[v].hash ==
                RecomputedHash(Catalog(s.categories, s.rules), RowsOf(s.configRules, v), s.configs[v].basis)
    {
      RecomputedIsStored(s, v);
    }
    DowngradedIsPersonal(s);
    TablesReturn(s);
  }

  /** The round trip of any reachable database. */
  lemma RoundTrip(calls: seq<Call>)
    requires AllValid(calls)
    ensures var l := Downgraded(After(calls));
            SingleScope(l) && Unambiguous(l) && Upgraded(l) == ReturnedState(After(calls))
  {
    hide *;
    ReachableInv(calls);
    RoundTripFrom(After(calls));
  }

  // ---------------------------------------------------------------------
  // Life after the upgrade

  lemma ReturnedRunFits(run: Run, batches: map<nat, Batch>, staged: map<Identity, Staged>, currency: string,
                        rules: map<Key, RuleVersion>)
    requires RunFits(run, batches, staged, currency, rules)
    ensures RunFits(Returned(run), batches, map[], currency, rules)
  {
    hide BatchesOk, StagedOk, Accounted;
  }

  lemma ReturnedTables(s: State)
    ensures var t := ReturnedState(s);
            && SameConfigTables(s, t) && t.batches == s.batches && t.staged == map[] && t.sync == s.sync
            && t.runs.Keys == s.runs.Keys && (forall r :: r in s.runs ==> t.runs[r] == Returned(s.runs[r]))
            && t.ledger == AnonymousLedger(s.ledger)
  {
    hide Returned, Anonymous;
  }

  lemma ReturnedRunOk(s: State, t: State, r: RunId)
    requires SameConfigTables(s, t) && t.batches == s.batches && t.staged == map[]
    requires r in s.runs && r in t.runs && t.runs[r] == Returned(s.runs[r])
    requires RunOk(s, r)
    ensures RunOk(t, r)
  {
    hide RunFits, RulesOf;
    ReturnedRunFits(s.runs[r], RowsOf(s.batches, r), RowsOf(s.staged, r), s.configs[s.runs[r].config].basis.currency,
                    RulesOf(s, s.runs[r].config));
    SameRules(s, t, s.runs[r].config);
  }

  lemma ReturnedRuns(s: State)
    requires RunInv(s)
    ensures RunInv(ReturnedState(s))
  {
    var t := ReturnedState(s);
    hide RunOk, ReturnedState, SameConfigTables, AnonymousLedger;
    ReturnedTables(s);
    forall r | r in t.runs ensures RunOk(t, r) {
      ReturnedRunOk(s, t, r);
    }
  }

  lemma AnonymousTyped(l: Ledger, config: Version, currency: string, accounts: set<string>,
                       rules: map<Key, RuleVersion>, runs: map<RunId, Run>)
    requires Typed(l, config, currency, accounts, rules, runs)
    ensures Typed(AnonymousLedger(l), config, currency, accounts, rules, runs)
  {
    var m := AnonymousLedger(l);
    forall id | id in m.rows ensures RowOk(m.rows[id], id, config, currency, accounts, runs) {
      assert RowOk(l.rows[id], id, config, currency, accounts, runs);
    }
    forall lk | lk in m.links ensures LinkOk(m, lk, config, rules) {
      assert LinkOk(l, lk, config, rules);
    }
  }

  lemma AnonymousWindows(l: Ledger, rules: map<Key, RuleVersion>, toDate: int)
    requires InWindows(l, rules, toDate) && AllLinked(l)
    ensures InWindows(AnonymousLedger(l), rules, toDate) && AllLinked(AnonymousLedger(l))
  {
    var m := AnonymousLedger(l);
    forall id | id in m.rows ensures HasLink(m, id) {
      assert HasLink(l, id);
    }
  }

  lemma ReturnedLive(s: State)
    requires LiveInv(s)
    ensures LiveInv(ReturnedState(s))
  {
    var t := ReturnedState(s);
    hide ReturnedState, RulesOf, Typed, InWindows, AllLinked, AnonymousLedger;
    ReturnedTables(s);
    if s.sync.Some? {
      var v := s.sync.value.config;
      var last := s.sync.value.lastRun;
      SameRules(s, t, v);
      TypedMoreRuns(s.ledger, v, s.configs[v].basis.currency, s.runs[last].accounts, RulesOf(s, v), s.runs, t.runs);
      AnonymousTyped(s.ledger, v, s.configs[v].basis.currency, s.runs[last].accounts, RulesOf(s, v), t.runs);
      AnonymousWindows(s.ledger, RulesOf(s, v), s.runs[last].toDate);
    } else {
      assert AnonymousLedger(EMPTY_LEDGER) == EMPTY_LEDGER by { NothingAnonymous(); }
    }
  }

  lemma NothingAnonymous()
    ensures AnonymousLedger(EMPTY_LEDGER) == EMPTY_LEDGER
  {
  }

  lemma ReturnedConfigs(s: State)
    requires ConfigInv(s)
    ensures ConfigInv(ReturnedState(s))
  {
    hide CatalogOk, VersionsOk, ContentsOk, AllLinksOk;
  }

  /** After both migrations every further sequence of service calls keeps the core
      invariant, failed runs and forgotten revisions included. */
  lemma ServiceGoesOn(s: State, calls: seq<Call>)
    requires AllValid(calls) && Core(s)
    ensures Unambiguous(Downgraded(s)) && Core(Execute(Upgraded(Downgraded(s)), calls))
  {
    hide *;
    RoundTripFrom(s);
    CoreParts(s);
    ReturnedConfigs(s);
    ReturnedRuns(s);
    ReturnedLive(s);
    CoreFrom(ReturnedState(s));
    ExecuteKeepsCore(ReturnedState(s), calls);
  }

  /** Whatever digests a legacy database held, each version comes out of the upgrade
      with the digest recomputed from its own rules. */
  lemma UpgradeRecomputesDigests(l: Legacy, v: Version)
    requires Unambiguous(l) && v in l.configs
    ensures var t := Upgraded(l);
            v in t.configs && t.configs[v].hash == SemanticHash(t, v)
  {
    hide Join, UpgradedRuns, UpgradedBatchTable, UpgradedRows, UpgradedLinks, UpgradedSync;
  }

  // ---------------------------------------------------------------------
  // Old requests

  /** The rewritten request digest is the one that begin computes, so a begin request
      from before the upgrade still gets its run, and changes nothing. */
  lemma OldBeginStillReplays(l: Legacy, r: RunId, request: BeginRequest)
    requires Unambiguous(l)
    requires forall a, b | a in l.runs && b in l.runs :: l.runs[a].idempotencyKey == l.runs[b].idempotencyKey ==> a == b
    requires r in l.runs
    requires request == BeginRequest(l.runs[r].mode, l.runs[r].fromDate, l.runs[r].toDate, l.runs[r].accounts)
    ensures Begin(Upgraded(l), l.runs[r].idempotencyKey, request) ==
              Outcome(Upgraded(l), BegunReply(Upgraded(l), r))
  {
    var t := Upgraded(l);
    assert t.runs == UpgradedRuns(l.runs);
    hide Upgraded, BeginError, BegunReply;
    UpgradedKey(l.runs, r);
    var found := RunWithKey(t.runs, l.runs[r].idempotencyKey);
    UpgradedKey(l.runs, found.value);
  }

  lemma UpgradedKey(runs: map<RunId, LegacyRun>, r: RunId)
    requires r in UpgradedRuns(runs)
    ensures r in runs && UpgradedRuns(runs)[r].idempotencyKey == runs[r].idempotencyKey
    ensures UpgradedRuns(runs)[r].request ==
              BeginRequest(runs[r].mode, runs[r].fromDate, runs[r].toDate, runs[r].accounts)
  {
  }
}
