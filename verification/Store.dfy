/** The database as an object. Every write is one statement, and its requires
    clauses are the keys, checks, foreign keys and triggers that guard it, so a
    service that verifies never has a statement aborted. */
module StoreModel {
  import opened Options
  import opened Model
  import opened Invariant
  import opened ConfigProofs
  import opened CommitProofs

  // ---------------------------------------------------------------------
  // Guards on runs

  /** trg_refresh_runs_state_guard. */
  ghost predicate MayMove(before: Run, after: Run) {
    || before.state == after.state
    || (before.state == Created && (after.state == Uploaded || after.state == Failed))
    || (before.state == Created && after.state == Validated
        && after.expectedBatchCount == Some(0) && after.received == 0 && after.itemCount == 0)
    || (before.state == Uploaded && (after.state == Validated || after.state == Failed))
    || (before.state == Validated && (after.state == Committed || after.state == Failed))
  }

  /** The committed_refresh_complete check. */
  ghost predicate CommittedComplete(run: Run) {
    run.state == Committed ==>
      && run.expectedBatchCount == Some(run.received)
      && run.checksum.Some? && run.completedAccounts.Some?
      && (run.expectedBatchCount == Some(0) || run.uploadedAt.Some?)
      && run.validatedAt.Some? && run.committedAt.Some?
  }

  // ---------------------------------------------------------------------
  // Guards on configurations

  /** trg_config_versions_status_guard. */
  ghost predicate StatusMayMove(before: Status, after: Status) {
    || before == after
    || (before == Pending && (after == Active || after == Superseded))
    || (before == Active && after == Superseded)
  }

  /** trg_config_activation_requires_rebuild. */
  ghost predicate Rebuilt(runs: map<RunId, Run>, v: Version) {
    exists id :: id in runs && runs[id].config == v && runs[id].mode == Full && runs[id].state == Committed
  }

  class Store {
    var categories: map<Key, Presentation>
    var rules: map<RuleRef, Rule>
    var configs: map<Version, Config>
    var configRules: map<Version, map<Key, Version>>
    var runs: map<RunId, Run>
    var batches: map<RunId, map<nat, Batch>>
    var staged: map<RunId, map<Identity, Staged>>
    var rows: map<Identity, Row>
    var links: map<LinkKey, Link>
    var sync: Option<Sync>

    function Snapshot(): State
      reads this
    {
      State(categories, rules, configs, configRules, runs, batches, staged, Ledger(rows, links), sync)
    }

    function Live(): Ledger
      reads `rows, `links
    {
      Ledger(rows, links)
    }

    constructor ()
      ensures Snapshot() == EMPTY_STATE
    {
      categories, rules, configs, configRules := map[], map[], map[], map[];
      runs, batches, staged := map[], map[], map[];
      rows, links, sync := map[], map[], None;
    }

    /** Undo every statement of the open transaction. */
    method Rollback(entry: State)
      modifies this
      ensures Snapshot() == entry
    {
      categories, rules, configs, configRules := entry.categories, entry.rules, entry.configs, entry.configRules;
      runs, batches, staged := entry.runs, entry.batches, entry.staged;
      rows, links, sync := entry.ledger.rows, entry.ledger.links, entry.sync;
    }

    // -------------------------------------------------------------------
    // refresh_runs

    method InsertRun(id: RunId, run: Run)
      requires id !in runs && run.config in configs
      requires forall r :: r in runs ==> runs[r].idempotencyKey != run.idempotencyKey
      requires run.fromDate <= run.toDate && CommittedComplete(run)
      requires run.mode == Incremental ==> configs[run.config].status == Active
      modifies `runs
      ensures runs == old(runs)[id := run]
    {
      runs := runs[id := run];
    }

    method UpdateRun(id: RunId, run: Run)
      requires id in runs && SameManifest(runs[id], run)
      requires runs[id].state != Committed && runs[id].state != Failed
      requires MayMove(runs[id], run) && CommittedComplete(run)
      modifies `runs
      ensures runs == old(runs)[id := run]
    {
      runs := runs[id := run];
    }

    // -------------------------------------------------------------------
    // refresh_batches and the staging tables

    method InsertBatch(id: RunId, index: nat, batch: Batch)
      requires id in runs && (runs[id].state == Created || runs[id].state == Uploaded)
      requires index !in RowsOf(batches, id)
      requires forall i :: i in RowsOf(batches, id) ==> batches[id][i].idempotencyKey != batch.idempotencyKey
      modifies `batches
      ensures batches == old(batches)[id := RowsOf(old(batches), id)[index := batch]]
    {
      batches := batches[id := RowsOf(batches, id)[index := batch]];
    }

    method InsertStaged(id: RunId, t: Identity, row: Staged)
      requires id in runs && runs[id].config == row.config
      requires row.batchIndex in RowsOf(batches, id) && t !in RowsOf(staged, id)
      requires row.content.RefundConsistent()
      requires row.categories != map[] ==> row.config in configRules
      requires forall k :: k in row.categories ==>
                 k in configRules[row.config] && configRules[row.config][k] == row.categories[k]
      modifies `staged
      ensures staged == old(staged)[id := RowsOf(old(staged), id)[t := row]]
    {
      staged := staged[id := RowsOf(staged, id)[t := row]];
    }

    /** The rows of a run; their category rows cascade. */
    method DeleteStaged(id: RunId)
      modifies `staged
      ensures staged == old(staged) - {id}
    {
      staged := staged - {id};
    }

    // -------------------------------------------------------------------
    // transactions and transaction_categories

    method InsertRow(t: Identity, row: Row)
      requires t !in rows && row.content.RefundConsistent()
      requires row.firstRun in runs
      requires row.lastRun in runs && runs[row.lastRun].config == row.config
      modifies `rows
      ensures rows == old(rows)[t := row]
    {
      rows := rows[t := row];
    }

    /** Deleting a transaction cascades to its category rows. */
    method DeleteRow(t: Identity)
      modifies `rows, `links
      ensures rows == old(rows) - {t}
      ensures links == map lk | lk in old(links) && lk.id != t :: old(links)[lk]
    {
      rows := rows - {t};
      links := map lk | lk in links && lk.id != t :: links[lk];
    }

    method InsertLink(lk: LinkKey, link: Link)
      requires lk !in links && lk.id in rows && rows[lk.id].config == link.config
      requires link.config in configRules && lk.category in configRules[link.config]
      requires configRules[link.config][lk.category] == link.ruleVersion
      modifies `links
      ensures links == old(links)[lk := link]
    {
      links := links[lk := link];
    }

    method DeleteLink(lk: LinkKey)
      modifies `links
      ensures links == old(links) - {lk}
    {
      links := links - {lk};
    }

    method DeleteLinksOf(t: Identity)
      modifies `links
      ensures links == map lk | lk in old(links) && lk.id != t :: old(links)[lk]
    {
      links := map lk | lk in links && lk.id != t :: links[lk];
    }

    method DeleteAllLinks()
      modifies `links
      ensures links == map[]
    {
      links := map[];
    }

    method DeleteAllRows()
      modifies `rows, `links
      ensures rows == map[] && links == map[]
    {
      rows, links := map[], map[];
    }

    // -------------------------------------------------------------------
    // categories, rule_versions, config_versions and config_version_rules

    method InsertCategory(k: Key, show: Presentation)
      requires k !in categories
      modifies `categories
      ensures categories == old(categories)[k := show]
    {
      categories := categories[k := show];
    }

    method UpdateCategory(k: Key, show: Presentation)
      requires k in categories
      modifies `categories
      ensures categories == old(categories)[k := show]
    {
      categories := categories[k := show];
    }

    method InsertRule(ref: RuleRef, rule: Rule)
      requires ref !in rules && ref.category in categories && ref.version > 0
      requires forall v :: RuleRef(ref.category, v) in rules ==> rules[RuleRef(ref.category, v)].hash != rule.hash
      requires 0 < rule.text.lookback <= 3660
      modifies `rules
      ensures rules == old(rules)[ref := rule]
    {
      rules := rules[ref := rule];
    }

    method InsertConfig(v: Version, config: Config)
      requires v !in configs && v > 0 && config.basis.aggregation > 0 && StampOk(config)
      requires AtMostOne(configs[v := config], Active)
      modifies `configs
      ensures configs == old(configs)[v := config]
    {
      configs := configs[v := config];
    }

    method UpdateConfig(v: Version, config: Config)
      requires v in configs && SameContent(configs[v], config)
      requires StatusMayMove(configs[v].status, config.status) && StampOk(config)
      requires configs[v].status != Active && config.status == Active ==> Rebuilt(runs, v)
      requires AtMostOne(configs[v := config], Active)
      modifies `configs
      ensures configs == old(configs)[v := config]
    {
      configs := configs[v := config];
    }

    method InsertConfigRule(v: Version, k: Key, rule: Version)
      requires v in configs && k !in RowsOf(configRules, v) && RuleRef(k, rule) in rules
      modifies `configRules
      ensures configRules == old(configRules)[v := RowsOf(old(configRules), v)[k := rule]]
    {
      configRules := configRules[v := RowsOf(configRules, v)[k := rule]];
    }

    // -------------------------------------------------------------------
    // sync_states

    /** Insert or update the single row; both triggers ask for a committed run. */
    method WriteSync(next: Sync)
      requires next.lastRun in runs && runs[next.lastRun].state == Committed
      requires runs[next.lastRun].config == next.config
      modifies `sync
      ensures sync == Some(next)
    {
      sync := Some(next);
    }

    method DeleteSync()
      modifies `sync
      ensures sync == None
    {
      sync := None;
    }
  }

  lemma TablesAre(db: Store)
    ensures db.Snapshot() == State(db.categories, db.rules, db.configs, db.configRules, db.runs, db.batches, db.staged,
                                   Ledger(db.rows, db.links), db.sync)
  {
  }
}
