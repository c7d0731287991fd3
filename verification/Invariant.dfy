/** The global invariant of the tables. */
module Invariant {
  import opened Options
  import opened Model
  import opened ConfigSpec
  import opened RefreshSpec

  // ---------------------------------------------------------------------
  // Configuration tables

  ghost predicate RuleOk(ref: RuleRef, rule: Rule) {
    && ref.version >= 1
    && rule.hash == RuleHash(ref.category, rule.text)
    && 1 <= rule.text.lookback <= 3650
  }

  ghost predicate NoGaps(rules: map<RuleRef, Rule>) {
    forall ref, j: nat | ref in rules && 1 <= j < ref.version :: RuleRef(ref.category, j) in rules
  }

  ghost predicate DistinctHashes(rules: map<RuleRef, Rule>) {
    forall a, b | a in rules && b in rules && a.category == b.category :: rules[a].hash == rules[b].hash ==> a == b
  }

  /** Rule versions of a category are numbered 1..m and have distinct digests. */
  ghost predicate CatalogOk(c: Catalog) {
    && (forall ref :: ref in c.rules ==> ref.category in c.categories && RuleOk(ref, c.rules[ref]))
    && NoGaps(c.rules)
    && DistinctHashes(c.rules)
  }

  /** A version links exactly the requested categories to the rules it asked for. */
  ghost predicate LinksOk(rules: map<RuleRef, Rule>, links: map<Key, Version>, source: ConfigRequest) {
    var m := ByKey(source.categories);
    && links.Keys == m.Keys
    && forall k :: k in links ==>
         RuleRef(k, links[k]) in rules && rules[RuleRef(k, links[k])].text == m[k].rule
  }

  ghost predicate ContentOk(config: Config) {
    && config.source.Valid()
    && config.basis == config.source.basis
    && config.hash == DesiredHash(config.source)
  }

  ghost predicate StampOk(config: Config) {
    && (config.status == Active ==> config.activatedAt.Some?)
    && (config.status == Superseded ==> config.supersededAt.Some?)
  }

  ghost predicate AtMostOne(configs: map<Version, Config>, status: Status) {
    forall v, w | v in configs && w in configs && configs[v].status == status && configs[w].status == status :: v == w
  }

  /** Versions are numbered 1..n; at most one is pending and, once any exists, exactly one active. */
  ghost predicate VersionsOk(configs: map<Version, Config>) {
    && Closed(configs.Keys)
    && (forall v :: v in configs ==> StampOk(configs[v]))
    && AtMostOne(configs, Active)
    && AtMostOne(configs, Pending)
    && (configs.Keys != {} ==> Current(configs, Active).Some?)
  }

  ghost predicate ContentsOk(configs: map<Version, Config>) {
    forall v :: v in configs ==> ContentOk(configs[v])
  }

  ghost predicate AllLinksOk(rules: map<RuleRef, Rule>, configRules: map<Version, map<Key, Version>>,
                             configs: map<Version, Config>)
  {
    && configRules.Keys == configs.Keys
    && forall v :: v in configs ==> LinksOk(rules, configRules[v], configs[v].source)
  }

  ghost predicate ConfigInv(s: State) {
    && CatalogOk(Catalog(s.categories, s.rules))
    && VersionsOk(s.configs)
    && ContentsOk(s.configs)
    && AllLinksOk(s.rules, s.configRules, s.configs)
    && (s.configs == map[] ==> s.categories == map[])
  }

  // ---------------------------------------------------------------------
  // Runs, batches and staged rows

  ghost predicate ManifestOk(run: Run) {
    && run.request.Valid()
    && run.request == BeginRequest(run.mode, run.fromDate, run.toDate, run.accounts)
  }

  ghost predicate BatchesOk(batches: map<nat, Batch>) {
    && (forall i :: i in batches ==> batches[i].idempotencyKey == batches[i].request.idempotencyKey)
    && (forall i, j | i in batches && j in batches ::
          batches[i].idempotencyKey == batches[j].idempotencyKey ==> i == j)
  }

  /** The batches of an open run declare what they uploaded; those of a run from before
      migration 0003 may have skipped items. */
  ghost predicate Declared(batches: map<nat, Batch>) {
    forall i :: i in batches ==>
      && batches[i].checksum == batches[i].request.items
      && batches[i].itemCount == |batches[i].request.items|
  }

  /** A category link that the configuration's rules allow. */
  ghost predicate Offered(rules: map<Key, RuleVersion>, k: Key, version: Version) {
    k in rules && rules[k].rule.text.enabled && rules[k].version == version
  }

  ghost predicate StagedOk(run: Run, currency: string, rules: map<Key, RuleVersion>, id: Identity, row: Staged) {
    && row.config == run.config
    && id.account in run.accounts
    && row.content.currency == currency
    && row.content.date <= run.toDate
    && (run.mode == Full ==> run.fromDate <= row.content.date)
    && row.content.RefundConsistent()
    && (TargetOf(id, row.content).Some? ==> !row.content.pending && TargetOf(id, row.content).value != id)
    && row.categories != map[]
    && (forall k :: k in row.categories ==> Offered(rules, k, row.categories[k]))
  }

  function OfBatch(staged: map<Identity, Staged>, i: nat): set<Identity> {
    set id | id in staged && staged[id].batchIndex == i
  }

  /** Every staged row belongs to one received batch, and every batch staged as
      many rows as it declares. */
  ghost predicate Accounted(batches: map<nat, Batch>, staged: map<Identity, Staged>) {
    && (forall id :: id in staged ==> staged[id].batchIndex in batches)
    && (forall i :: i in batches ==> |OfBatch(staged, i)| == batches[i].itemCount)
  }

  ghost predicate ProgressOk(run: Run, batches: map<nat, Batch>, staged: map<Identity, Staged>) {
    match run.state
    case Created =>
      batches == map[] && staged == map[] && run.received == 0 && run.itemCount == 0
      && run.committedAt.None? && run.uploadedAt.None?
    case Uploaded =>
      batches != map[] && run.received == |batches| && run.itemCount == |staged|
      && Accounted(batches, staged) && Declared(batches) && run.committedAt.None? && run.uploadedAt.Some?
    case Committed =>
      && staged == map[]
      && run.expectedBatchCount == Some(run.received) && Complete(batches, run.received)
      && run.checksum == Some(Chain(batches, run.received))
      && run.completedAccounts == Some(run.accounts)
      && run.uploadedAt.Some? && run.validatedAt.Some? && run.committedAt.Some?
    case Validated => false
    case Failed => staged == map[] && run.completedAccounts.None?
  }

  ghost predicate RunFits(run: Run, batches: map<nat, Batch>, staged: map<Identity, Staged>, currency: string,
                          rules: map<Key, RuleVersion>)
  {
    && ManifestOk(run)
    && BatchesOk(batches)
    && ProgressOk(run, batches, staged)
    && (forall t :: t in staged ==> StagedOk(run, currency, rules, t, staged[t]))
  }

  ghost predicate RunOk(s: State, id: RunId)
    requires id in s.runs
  {
    var run := s.runs[id];
    && run.config in s.configs
    && RunFits(run, RowsOf(s.batches, id), RowsOf(s.staged, id), s.configs[run.config].basis.currency,
               RulesOf(s, run.config))
  }

  ghost predicate DistinctKeys(runs: map<RunId, Run>) {
    forall a, b | a in runs && b in runs :: runs[a].idempotencyKey == runs[b].idempotencyKey ==> a == b
  }

  ghost predicate RunInv(s: State) {
    && s.batches.Keys <= s.runs.Keys
    && s.staged.Keys <= s.runs.Keys
    && DistinctKeys(s.runs)
    && forall id :: id in s.runs ==> RunOk(s, id)
  }

  // ---------------------------------------------------------------------
  // Serialisation of commits

  function Revision(sync: Option<Sync>): nat {
    if sync.Some? then sync.value.revision else 0
  }

  function Before(run: Run): nat {
    if run.syncBefore.Some? then run.syncBefore.value else 0
  }

  function CommittedRuns(runs: map<RunId, Run>): set<RunId> {
    set id | id in runs && runs[id].state == Committed
  }

  ghost predicate SerialInv(runs: map<RunId, Run>, sync: Option<Sync>) {
    && (forall id :: id in runs ==> Before(runs[id]) <= Revision(sync))
    && (forall id :: id in runs && runs[id].syncBefore.Some? ==> runs[id].syncBefore.value >= 1)
    && (forall id :: id in CommittedRuns(runs) ==> Before(runs[id]) < Revision(sync))
    && (forall a, b | a in CommittedRuns(runs) && b in CommittedRuns(runs) ::
          Before(runs[a]) == Before(runs[b]) ==> a == b)
    && |CommittedRuns(runs)| == Revision(sync)
    && (sync.Some? ==>
          && sync.value.revision >= 1
          && sync.value.lastRun in CommittedRuns(runs)
          && Before(runs[sync.value.lastRun]) == sync.value.revision - 1)
  }

  // ---------------------------------------------------------------------
  // Live data

  ghost predicate RowOk(row: Row, id: Identity, config: Version, currency: string, accounts: set<string>,
                        runs: map<RunId, Run>)
  {
    && row.config == config
    && row.content.currency == currency
    && row.content.RefundConsistent()
    && id.account in accounts
    && row.firstRun in runs
    && row.lastRun in runs && runs[row.lastRun].config == config
  }

  ghost predicate LinkOk(l: Ledger, lk: LinkKey, config: Version, rules: map<Key, RuleVersion>)
    requires lk in l.links
  {
    && lk.id in l.rows
    && l.links[lk].config == config
    && Offered(rules, lk.category, l.links[lk].ruleVersion)
  }

  /** Every live row and link belongs to one configuration, currency and account set. */
  ghost predicate Typed(l: Ledger, config: Version, currency: string, accounts: set<string>,
                        rules: map<Key, RuleVersion>, runs: map<RunId, Run>)
  {
    && (forall id :: id in l.rows ==> RowOk(l.rows[id], id, config, currency, accounts, runs))
    && (forall lk :: lk in l.links ==> LinkOk(l, lk, config, rules))
  }

  /** No link lies before the window that its category had on the given day. */
  ghost predicate InWindows(l: Ledger, rules: map<Key, RuleVersion>, toDate: int) {
    forall lk :: lk in l.links ==>
      lk.category in rules && lk.id in l.rows
      && WindowStart(toDate, rules[lk.category].rule.text.lookback) <= l.rows[lk.id].content.date
  }

  ghost predicate HasLink(l: Ledger, id: Identity) {
    exists k :: LinkKey(id, k) in l.links
  }

  ghost predicate AllLinked(l: Ledger) {
    forall id :: id in l.rows ==> HasLink(l, id)
  }

  ghost predicate LiveInv(s: State) {
    if s.sync.None? then s.ledger == EMPTY_LEDGER
    else
      var sync := s.sync.value;
      && sync.config in s.configs && s.configs[sync.config].status == Active
      && sync.lastRun in s.runs
      && s.runs[sync.lastRun].state == Committed && s.runs[sync.lastRun].config == sync.config
      && Typed(s.ledger, sync.config, s.configs[sync.config].basis.currency, s.runs[sync.lastRun].accounts,
               RulesOf(s, sync.config), s.runs)
      && InWindows(s.ledger, RulesOf(s, sync.config), s.runs[sync.lastRun].toDate)
      && AllLinked(s.ledger)
  }

  /** What every service call keeps in any database that has it, migrated ones included. */
  ghost predicate Core(s: State) {
    ConfigInv(s) && RunInv(s) && LiveInv(s)
  }

  /** No service marks a run failed; only a migration does. */
  ghost predicate NoneFailed(runs: map<RunId, Run>) {
    forall id :: id in runs ==> runs[id].state != Failed
  }

  /** Batches with skipped items come only from before migration 0003. */
  ghost predicate AllDeclared(batches: map<RunId, map<nat, Batch>>) {
    forall id :: id in batches ==> Declared(batches[id])
  }

  /** What holds after every sequence of service calls on an empty database. */
  ghost predicate Inv(s: State) {
    Core(s) && NoneFailed(s.runs) && AllDeclared(s.batches) && SerialInv(s.runs, s.sync)
  }

  lemma CoreParts(s: State)
    requires Core(s)
    ensures ConfigInv(s) && RunInv(s) && LiveInv(s)
  {
    hide ConfigInv, RunInv, LiveInv;
  }

  lemma CoreFrom(s: State)
    requires ConfigInv(s) && RunInv(s) && LiveInv(s)
    ensures Core(s)
  {
    hide ConfigInv, RunInv, LiveInv;
  }

  lemma EmptyInv()
    ensures Inv(EMPTY_STATE) && Core(EMPTY_STATE)
    ensures NoneFailed(EMPTY_STATE.runs) && AllDeclared(EMPTY_STATE.batches)
    ensures SerialInv(EMPTY_STATE.runs, EMPTY_STATE.sync)
  {
  }
}
