/** Which databases from before migration 0003 come out of the upgrade with the core
    invariant, stated on the scoped tables. */
module Migrated {
  import opened Options
  import opened Model
  import opened ConfigSpec
  import opened RefreshSpec
  import opened Invariant
  import opened ConfigProofs
  import opened Traces
  import opened SingleUser

  // ---------------------------------------------------------------------
  // Configuration

  ghost predicate LegacyStampOk(c: LegacyConfig) {
    && (c.status == Active ==> c.activatedAt.Some?)
    && (c.status == Superseded ==> c.supersededAt.Some?)
  }

  ghost predicate LegacyAtMostOne(configs: map<Version, LegacyConfig>, status: Status) {
    forall v, w | v in configs && w in configs && configs[v].status == status && configs[w].status == status :: v == w
  }

  ghost predicate LegacyVersions(configs: map<Version, LegacyConfig>) {
    && Closed(configs.Keys)
    && (forall v :: v in configs ==> LegacyStampOk(configs[v]))
    && LegacyAtMostOne(configs, Active)
    && LegacyAtMostOne(configs, Pending)
    && (configs != map[] ==> exists v :: v in configs && configs[v].status == Active)
  }

  /** The stored request is valid and the rule links are the ones it asked for; the
      stored digest does not matter. */
  ghost predicate LegacySources(l: Legacy) {
    && l.configRules.Keys == l.configs.Keys
    && forall v :: v in l.configs ==>
         && l.configs[v].source.request.Valid()
         && l.configs[v].basis == l.configs[v].source.request.basis
         && LinksOk(l.rules, l.configRules[v], l.configs[v].source.request)
  }

  ghost predicate SoundConfigs(l: Legacy) {
    && CatalogOk(Catalog(l.categories, l.rules))
    && LegacyVersions(l.configs)
    && LegacySources(l)
    && (l.configs == map[] ==> l.categories == map[])
  }

  lemma UpgradedVersions(c: Catalog, configRules: map<Version, map<Key, Version>>, configs: map<Version, LegacyConfig>)
    ensures VersionsOk(UpgradedConfigs(c, configRules, configs)) <==> LegacyVersions(configs)
  {
    var t := UpgradedConfigs(c, configRules, configs);
    hide RecomputedHash, Closed;
    assert t.Keys == configs.Keys;
    assert forall v :: v in configs ==> t[v].status == configs[v].status;
    assert forall v :: v in configs ==> (StampOk(t[v]) <==> LegacyStampOk(configs[v]));
    assert AtMostOne(t, Active) <==> LegacyAtMostOne(configs, Active);
    assert AtMostOne(t, Pending) <==> LegacyAtMostOne(configs, Pending);
    assert Current(t, Active).Some? <==> exists v :: v in configs && configs[v].status == Active;
  }

  lemma UpgradedContent(c: Catalog, links: map<Key, Version>, config: LegacyConfig)
    requires CatalogOk(c) && LinksOk(c.rules, links, config.source.request)
    ensures ContentOk(UpgradedConfig(c, links, config)) <==>
              config.source.request.Valid() && config.basis == config.source.request.basis
  {
    JoinHash(c, links, config.source.request);
    hide CatalogOk, LinksOk, Join;
  }

  lemma UpgradedSources(l: Legacy)
    requires CatalogOk(Catalog(l.categories, l.rules))
    ensures var t := UpgradedConfigs(Catalog(l.categories, l.rules), l.configRules, l.configs);
            ContentsOk(t) && AllLinksOk(l.rules, l.configRules, t) <==> LegacySources(l)
  {
    var c := Catalog(l.categories, l.rules);
    var t := UpgradedConfigs(c, l.configRules, l.configs);
    hide CatalogOk, LinksOk, ContentOk, RecomputedHash, ConfigRequest.Valid;
    assert t.Keys == l.configs.Keys;
    assert forall v :: v in l.configs ==> t[v].source == l.configs[v].source.request;
    forall v | v in l.configs && v in l.configRules && LinksOk(l.rules, l.configRules[v], l.configs[v].source.request)
      ensures ContentOk(t[v]) <==>
                l.configs[v].source.request.Valid() && l.configs[v].basis == l.configs[v].source.request.basis
    {
      UpgradedContent(c, l.configRules[v], l.configs[v]);
    }
  }

  lemma ConfigsIff(l: Legacy)
    requires Unambiguous(l)
    ensures ConfigInv(Upgraded(l)) <==> SoundConfigs(l)
  {
    var c := Catalog(l.categories, l.rules);
    hide *;
    UpgradedIs(l);
    UpgradedVersions(c, l.configRules, l.configs);
    if CatalogOk(c) { UpgradedSources(l); }
    UpgradedNone(c, l.configRules, l.configs);
    ConfigInvIs(Upgraded(l));
    SoundConfigsIs(l);
  }

  lemma UpgradedNone(c: Catalog, configRules: map<Version, map<Key, Version>>, configs: map<Version, LegacyConfig>)
    ensures UpgradedConfigs(c, configRules, configs) == map[] <==> configs == map[]
  {
    hide RecomputedHash;
    assert UpgradedConfigs(c, configRules, configs).Keys == configs.Keys;
  }

  lemma ConfigInvIs(s: State)
    ensures ConfigInv(s) <==>
              && CatalogOk(Catalog(s.categories, s.rules)) && VersionsOk(s.configs)
              && ContentsOk(s.configs) && AllLinksOk(s.rules, s.configRules, s.configs)
              && (s.configs == map[] ==> s.categories == map[])
  {
    hide CatalogOk, VersionsOk, ContentsOk, AllLinksOk;
  }

  lemma SoundConfigsIs(l: Legacy)
    ensures SoundConfigs(l) <==>
              && CatalogOk(Catalog(l.categories, l.rules)) && LegacyVersions(l.configs) && LegacySources(l)
              && (l.configs == map[] ==> l.categories == map[])
  {
    hide CatalogOk, LegacyVersions, LegacySources;
  }

  // ---------------------------------------------------------------------
  // Runs

  /** The legacy batch indices are exactly 0 to n-1. */
  ghost predicate LegacyComplete(batches: map<nat, LegacyBatch>, n: nat) {
    && (forall i: nat :: i in batches ==> i < n)
    && (forall i: nat :: i < n ==> i in batches)
  }

  function LegacyChain(batches: map<nat, LegacyBatch>, n: nat): seq<seq<Upload>>
    requires forall i: nat :: i < n ==> i in batches
  {
    if n == 0 then [] else LegacyChain(batches, n - 1) + [batches[n - 1].checksum]
  }

  ghost predicate LegacyBatchesOk(batches: map<nat, LegacyBatch>) {
    && (forall i :: i in batches ==> batches[i].idempotencyKey == batches[i].request.idempotencyKey)
    && (forall i, j | i in batches && j in batches ::
          batches[i].idempotencyKey == batches[j].idempotencyKey ==> i == j)
  }

  /** An open run may have made any progress, because the upgrade fails it. */
  ghost predicate SoundRun(run: LegacyRun, batches: map<nat, LegacyBatch>) {
    && run.fromDate <= run.toDate && run.accounts != {}
    && LegacyBatchesOk(batches)
    && (run.state == Committed ==>
          && run.expectedBatchCount == Some(run.received) && LegacyComplete(batches, run.received)
          && run.checksum == Some(LegacyChain(batches, run.received))
          && run.uploadedAt.Some? && run.validatedAt.Some? && run.committedAt.Some?)
  }

  ghost predicate SoundRuns(l: Legacy) {
    && l.batches.Keys <= l.runs.Keys
    && LegacyKeys(l.runs)
    && forall r :: r in l.runs ==> LegacyRunOk(l, r)
  }

  ghost predicate LegacyKeys(runs: map<RunId, LegacyRun>) {
    forall a, b | a in runs && b in runs :: runs[a].idempotencyKey == runs[b].idempotencyKey ==> a == b
  }

  lemma {:induction false} SameChain(batches: map<nat, LegacyBatch>, n: nat)
    requires forall i: nat :: i < n ==> i in batches
    ensures Chain(UpgradedBatches(batches), n) == LegacyChain(batches, n)
  {
    if n > 0 { SameChain(batches, n - 1); }
  }

  lemma UpgradedBatchesOk(batches: map<nat, LegacyBatch>)
    ensures BatchesOk(UpgradedBatches(batches)) <==> LegacyBatchesOk(batches)
    ensures forall n: nat :: Complete(UpgradedBatches(batches), n) <==> LegacyComplete(batches, n)
  {
    var t := UpgradedBatches(batches);
    assert forall i :: i in batches <==> i in t;
    assert forall i :: i in batches ==> t[i].idempotencyKey == batches[i].idempotencyKey
                                        && t[i].request == batches[i].request;
  }

  lemma UpgradedRunFits(run: LegacyRun, batches: map<nat, LegacyBatch>, currency: string, rules: map<Key, RuleVersion>)
    ensures RunFits(UpgradedRun(run), UpgradedBatches(batches), map[], currency, rules) <==> SoundRun(run, batches)
  {
    hide BatchesOk, LegacyBatchesOk, UpgradedBatches, Complete, LegacyComplete, StagedOk, Accounted, Declared;
    UpgradedBatchesOk(batches);
    if run.state == Committed && LegacyComplete(batches, run.received) {
      CompleteMeans(batches, run.received);
      SameChain(batches, run.received);
    }
  }

  lemma CompleteMeans(batches: map<nat, LegacyBatch>, n: nat)
    requires LegacyComplete(batches, n)
    ensures forall i: nat :: i < n ==> i in batches
  {
  }

  lemma UpgradedRowsOf(batches: map<RunId, map<nat, LegacyBatch>>, r: RunId)
    ensures RowsOf(UpgradedBatchTable(batches), r) == UpgradedBatches(RowsOf(batches, r))
    ensures UpgradedBatchTable(batches).Keys == batches.Keys
  {
    hide UpgradedBatch;
    assert UpgradedBatches(map[]) == map[];
  }

  lemma UpgradedRunOk(l: Legacy, r: RunId)
    requires Unambiguous(l) && r in l.runs
    ensures r in Upgraded(l).runs
    ensures RunOk(Upgraded(l), r) <==>
              l.runs[r].config in l.configs && SoundRun(l.runs[r], RowsOf(l.batches, r))
  {
    var t := Upgraded(l);
    hide *;
    UpgradedIs(l);
    UpgradedRunAt(l.runs, r);
    UpgradedConfigKeys(l);
    UpgradedRowsOf(l.batches, r);
    NothingStaged(t, r);
    RunOkIs(t, r);
    if l.runs[r].config in l.configs {
      UpgradedRunFits(l.runs[r], RowsOf(l.batches, r), t.configs[l.runs[r].config].basis.currency,
                      RulesOf(t, l.runs[r].config));
    }
  }

  lemma UpgradedRunAt(runs: map<RunId, LegacyRun>, r: RunId)
    requires r in runs
    ensures r in UpgradedRuns(runs) && UpgradedRuns(runs)[r] == UpgradedRun(runs[r])
    ensures UpgradedRun(runs[r]).config == runs[r].config
  {
  }

  lemma UpgradedConfigKeys(l: Legacy)
    ensures UpgradedConfigs(Catalog(l.categories, l.rules), l.configRules, l.configs).Keys == l.configs.Keys
  {
    hide RecomputedHash;
  }

  lemma NothingStaged(s: State, r: RunId)
    requires s.staged == map[]
    ensures RowsOf(s.staged, r) == map[]
  {
  }

  lemma RunOkIs(s: State, r: RunId)
    requires r in s.runs
    ensures RunOk(s, r) <==>
              && s.runs[r].config in s.configs
              && RunFits(s.runs[r], RowsOf(s.batches, r), RowsOf(s.staged, r),
                         s.configs[s.runs[r].config].basis.currency, RulesOf(s, s.runs[r].config))
  {
    hide RunFits, RulesOf;
  }

  lemma UpgradedKeys(runs: map<RunId, LegacyRun>)
    ensures UpgradedRuns(runs).Keys == runs.Keys
    ensures DistinctKeys(UpgradedRuns(runs)) <==> LegacyKeys(runs)
  {
    var t := UpgradedRuns(runs);
    assert forall r :: r in runs <==> r in t;
    assert forall r :: r in runs ==> t[r].idempotencyKey == runs[r].idempotencyKey;
  }

  lemma RunsIff(l: Legacy)
    requires Unambiguous(l)
    ensures RunInv(Upgraded(l)) <==> SoundRuns(l)
  {
    var t := Upgraded(l);
    hide *;
    UpgradedIs(l);
    UpgradedKeys(l.runs);
    UpgradedRowsOf(l.batches, 0);
    forall r | r in l.runs ensures r in t.runs && (RunOk(t, r) <==> LegacyRunOk(l, r)) {
      UpgradedRunOk(l, r);
      LegacyRunOkIs(l, r);
    }
    RunInvIs(t);
    SoundRunsIs(l);
  }

  ghost predicate LegacyRunOk(l: Legacy, r: RunId)
    requires r in l.runs
  {
    l.runs[r].config in l.configs && SoundRun(l.runs[r], RowsOf(l.batches, r))
  }

  lemma LegacyRunOkIs(l: Legacy, r: RunId)
    requires r in l.runs
    ensures LegacyRunOk(l, r) <==> l.runs[r].config in l.configs && SoundRun(l.runs[r], RowsOf(l.batches, r))
  {
    hide SoundRun;
  }

  lemma RunInvIs(s: State)
    requires s.staged == map[]
    ensures RunInv(s) <==>
              s.batches.Keys <= s.runs.Keys && DistinctKeys(s.runs) && forall r :: r in s.runs ==> RunOk(s, r)
  {
    hide DistinctKeys, RunOk;
  }

  lemma SoundRunsIs(l: Legacy)
    ensures SoundRuns(l) <==>
              && l.batches.Keys <= l.runs.Keys && LegacyKeys(l.runs)
              && forall r :: r in l.runs ==> LegacyRunOk(l, r)
  {
    hide LegacyRunOk, LegacyKeys;
  }

  // ---------------------------------------------------------------------
  // Live data

  function LegacyRules(l: Legacy, v: Version): map<Key, RuleVersion> {
    Join(Catalog(l.categories, l.rules), RowsOf(l.configRules, v))
  }

  ghost predicate SoundRow(l: Legacy, k: ScopedId, sync: Sync, currency: string, accounts: set<string>)
    requires k in l.rows
  {
    var row := l.rows[k];
    && row.config == sync.config && row.currency == currency && k.id.account in accounts
    && ((!row.refunded && row.refund == 0) || (row.refunded && 0 < row.refund <= row.amount))
    && row.firstRun in l.runs && row.lastRun in l.runs && l.runs[row.lastRun].config == sync.config
    && exists c :: ScopedLink(k.scope, LinkKey(k.id, c)) in l.links
  }

  ghost predicate SoundLink(l: Legacy, k: ScopedLink, sync: Sync, toDate: int)
    requires k in l.links
  {
    var rules := LegacyRules(l, sync.config);
    var row := ScopedId(k.scope, k.key.id);
    && row in l.rows && l.links[k].config == sync.config
    && Offered(rules, k.key.category, l.links[k].ruleVersion)
    && WindowStart(toDate, rules[k.key.category].rule.text.lookback) <= l.rows[row].date
  }

  ghost predicate SoundLive(l: Legacy, sync: Sync) {
    && sync.config in l.configs && l.configs[sync.config].status == Active
    && sync.lastRun in l.runs && l.runs[sync.lastRun].state == Committed && l.runs[sync.lastRun].config == sync.config
    && (forall k :: k in l.rows ==>
          SoundRow(l, k, sync, l.configs[sync.config].basis.currency, l.runs[sync.lastRun].accounts))
    && (forall k :: k in l.links ==> SoundLink(l, k, sync, l.runs[sync.lastRun].toDate))
  }

  ghost predicate SoundTables(l: Legacy) {
    && (l.sync == map[] ==> l.rows == map[] && l.links == map[])
    && (forall scope :: scope in l.sync ==> SoundLive(l, l.sync[scope]))
  }

  /** The one scope, as far as rows and links go. */
  lemma OneScopeTables(l: Legacy, scope: string)
    requires SingleScope(l) && scope in Scopes(l)
    ensures forall k :: k in l.rows ==> k.scope == scope
    ensures forall k :: k in l.links ==> k.scope == scope
  {
    forall k | k in l.rows ensures k.scope == scope {
      OneScope(Scopes(l), k.scope, scope);
    }
    forall k | k in l.links ensures k.scope == scope {
      OneScope(Scopes(l), k.scope, scope);
    }
  }

  /** The scoped tables of one scope, read without it. */
  ghost predicate Unscoped(l: Legacy, ledger: Ledger, scope: string) {
    && (forall id :: id in ledger.rows <==> ScopedId(scope, id) in l.rows)
    && (forall id :: id in ledger.rows ==> ledger.rows[id] == UpgradedRow(l.rows[ScopedId(scope, id)]))
    && (forall lk :: lk in ledger.links <==> ScopedLink(scope, lk) in l.links)
    && (forall lk :: lk in ledger.links ==> ledger.links[lk] == l.links[ScopedLink(scope, lk)])
    && (forall k :: k in l.rows ==> k == ScopedId(scope, k.id))
    && (forall k :: k in l.links ==> k == ScopedLink(scope, k.key))
  }

  lemma RowsUnscoped(rows: map<ScopedId, LegacyRow>, scope: string)
    requires DistinctIds(rows) && forall k :: k in rows ==> k.scope == scope
    ensures var t := UpgradedRows(rows);
            && (forall id :: id in t <==> ScopedId(scope, id) in rows)
            && (forall id :: id in t ==> t[id] == UpgradedRow(rows[ScopedId(scope, id)]))
            && (forall k :: k in rows ==> k == ScopedId(scope, k.id))
  {
    hide UpgradedRow, DistinctIds;
    ScopedRowsKept(rows);
    var t := UpgradedRows(rows);
    forall id ensures id in t <==> ScopedId(scope, id) in rows {
      if ScopedId(scope, id) in rows { assert ScopedId(scope, id).id in t; }
    }
  }

  lemma LinksUnscoped(links: map<ScopedLink, Link>, scope: string)
    requires DistinctLinks(links) && forall k :: k in links ==> k.scope == scope
    ensures var t := UpgradedLinks(links);
            && (forall lk :: lk in t <==> ScopedLink(scope, lk) in links)
            && (forall lk :: lk in t ==> t[lk] == links[ScopedLink(scope, lk)])
            && (forall k :: k in links ==> k == ScopedLink(scope, k.key))
  {
    hide DistinctLinks;
    ScopedLinksKept(links);
    var t := UpgradedLinks(links);
    forall lk ensures lk in t <==> ScopedLink(scope, lk) in links {
      if ScopedLink(scope, lk) in links { assert ScopedLink(scope, lk).key in t; }
    }
  }

  lemma UpgradedUnscoped(l: Legacy, scope: string)
    requires SingleScope(l) && Unambiguous(l) && scope in Scopes(l)
    ensures Unscoped(l, Upgraded(l).ledger, scope)
  {
    hide *;
    UpgradedIs(l);
    OneScopeTables(l, scope);
    RowsUnscoped(l.rows, scope);
    LinksUnscoped(l.links, scope);
    UnscopedFrom(l, Upgraded(l).ledger, scope);
  }

  lemma UnscopedFrom(l: Legacy, ledger: Ledger, scope: string)
    requires forall id :: id in ledger.rows <==> ScopedId(scope, id) in l.rows
    requires forall id :: id in ledger.rows ==> ledger.rows[id] == UpgradedRow(l.rows[ScopedId(scope, id)])
    requires forall lk :: lk in ledger.links <==> ScopedLink(scope, lk) in l.links
    requires forall lk :: lk in ledger.links ==> ledger.links[lk] == l.links[ScopedLink(scope, lk)]
    requires forall k :: k in l.rows ==> k == ScopedId(scope, k.id)
    requires forall k :: k in l.links ==> k == ScopedLink(scope, k.key)
    ensures Unscoped(l, ledger, scope)
  {
    hide UpgradedRow;
  }

  // One row and one link.

  ghost predicate RowSound(t: Ledger, id: Identity, config: Version, currency: string, accounts: set<string>,
                           runs: map<RunId, Run>)
  {
    id in t.rows && RowOk(t.rows[id], id, config, currency, accounts, runs) && HasLink(t, id)
  }

  ghost predicate LinkSound(t: Ledger, lk: LinkKey, config: Version, toDate: int, rules: map<Key, RuleVersion>) {
    && lk in t.links && LinkOk(t, lk, config, rules)
    && WindowStart(toDate, rules[lk.category].rule.text.lookback) <= t.rows[lk.id].content.date
  }

  lemma RowIff(l: Legacy, t: State, scope: string, id: Identity, sync: Sync, currency: string, accounts: set<string>)
    requires Unscoped(l, t.ledger, scope) && ScopedId(scope, id) in l.rows && t.runs == UpgradedRuns(l.runs)
    ensures RowSound(t.ledger, id, sync.config, currency, accounts, t.runs) <==>
              SoundRow(l, ScopedId(scope, id), sync, currency, accounts)
  {
    assert t.runs.Keys == l.runs.Keys && forall r :: r in l.runs ==> t.runs[r].config == l.runs[r].config;
    hide UpgradedRuns;
    assert HasLink(t.ledger, id) <==> exists c :: ScopedLink(scope, LinkKey(id, c)) in l.links;
  }

  lemma LinkIff(l: Legacy, t: State, scope: string, lk: LinkKey, sync: Sync, toDate: int)
    requires Unscoped(l, t.ledger, scope) && ScopedLink(scope, lk) in l.links
    ensures LinkSound(t.ledger, lk, sync.config, toDate, LegacyRules(l, sync.config)) <==>
              SoundLink(l, ScopedLink(scope, lk), sync, toDate)
  {
    hide Join;
  }

  ghost predicate LedgerSound(t: Ledger, config: Version, currency: string, accounts: set<string>, toDate: int,
                              rules: map<Key, RuleVersion>, runs: map<RunId, Run>)
  {
    Typed(t, config, currency, accounts, rules, runs) && InWindows(t, rules, toDate) && AllLinked(t)
  }

  lemma LedgerSoundIs(t: Ledger, config: Version, currency: string, accounts: set<string>, toDate: int,
                      rules: map<Key, RuleVersion>, runs: map<RunId, Run>)
    ensures LedgerSound(t, config, currency, accounts, toDate, rules, runs) <==>
              && (forall id :: id in t.rows ==> RowSound(t, id, config, currency, accounts, runs))
              && (forall lk :: lk in t.links ==> LinkSound(t, lk, config, toDate, rules))
  {
    hide RowOk, HasLink;
  }

  lemma LedgerIff(l: Legacy, t: State, scope: string, sync: Sync, currency: string, accounts: set<string>, toDate: int)
    requires Unscoped(l, t.ledger, scope) && t.runs == UpgradedRuns(l.runs)
    ensures LedgerSound(t.ledger, sync.config, currency, accounts, toDate, LegacyRules(l, sync.config), t.runs) <==>
              && (forall k :: k in l.rows ==> SoundRow(l, k, sync, currency, accounts))
              && (forall k :: k in l.links ==> SoundLink(l, k, sync, toDate))
  {
    var rules := LegacyRules(l, sync.config);
    LedgerSoundIs(t.ledger, sync.config, currency, accounts, toDate, rules, t.runs);
    hide LegacyRules, RowSound, LinkSound, SoundRow, SoundLink, LedgerSound, UpgradedRuns, UpgradedRow;
    forall k | k in l.rows
      ensures k.id in t.ledger.rows
      ensures RowSound(t.ledger, k.id, sync.config, currency, accounts, t.runs) <==>
                SoundRow(l, k, sync, currency, accounts)
    {
      RowIff(l, t, scope, k.id, sync, currency, accounts);
    }
    forall k | k in l.links
      ensures k.key in t.ledger.links
      ensures LinkSound(t.ledger, k.key, sync.config, toDate, rules) <==> SoundLink(l, k, sync, toDate)
    {
      LinkIff(l, t, scope, k.key, sync, toDate);
    }
  }

  lemma SyncedIff(l: Legacy, scope: string)
    requires SingleScope(l) && Unambiguous(l) && scope in l.sync
    ensures LiveInv(Upgraded(l)) <==> SoundLive(l, l.sync[scope])
  {
    var t := Upgraded(l);
    var sync := l.sync[scope];
    hide *;
    ScopeOfSync(l, scope);
    UpgradedIs(l);
    UpgradedUnscoped(l, scope);
    UpgradedConfigKeys(l);
    SyncedLiveIs(t, sync);
    SoundLiveIs(l, sync);
    RulesAreLegacy(l, t, sync.config);
    if sync.config in l.configs && sync.lastRun in l.runs {
      UpgradedConfigAt(Catalog(l.categories, l.rules), l.configRules, l.configs, sync.config);
      UpgradedRunAt(l.runs, sync.lastRun);
      UpgradedFields(l.runs[sync.lastRun]);
      LedgerIff(l, t, scope, sync, l.configs[sync.config].basis.currency, l.runs[sync.lastRun].accounts,
                l.runs[sync.lastRun].toDate);
    }
    UpgradedKeys(l.runs);
  }

  lemma ScopeOfSync(l: Legacy, scope: string)
    requires scope in l.sync
    ensures scope in Scopes(l)
    ensures OneSync(l.sync) ==> UpgradedSync(l.sync) == Some(l.sync[scope])
  {
    hide RunScopes, StagedScopes, SourceScopes;
  }

  lemma UpgradedConfigAt(c: Catalog, configRules: map<Version, map<Key, Version>>, configs: map<Version, LegacyConfig>,
                         v: Version)
    requires v in configs
    ensures var t := UpgradedConfigs(c, configRules, configs);
            v in t && t[v].status == configs[v].status && t[v].basis == configs[v].basis
  {
    hide RecomputedHash;
  }

  lemma UpgradedFields(run: LegacyRun)
    ensures var r := UpgradedRun(run);
            && (r.state == Committed <==> run.state == Committed) && r.config == run.config
            && r.accounts == run.accounts && r.toDate == run.toDate
  {
  }

  lemma RulesAreLegacy(l: Legacy, t: State, v: Version)
    requires t.categories == l.categories && t.rules == l.rules && t.configRules == l.configRules
    ensures RulesOf(t, v) == LegacyRules(l, v)
  {
    hide Join;
  }

  lemma SyncedLiveIs(t: State, sync: Sync)
    requires t.sync == Some(sync)
    ensures LiveInv(t) <==>
              && sync.config in t.configs && t.configs[sync.config].status == Active
              && sync.lastRun in t.runs
              && t.runs[sync.lastRun].state == Committed && t.runs[sync.lastRun].config == sync.config
              && LedgerSound(t.ledger, sync.config, t.configs[sync.config].basis.currency,
                             t.runs[sync.lastRun].accounts, t.runs[sync.lastRun].toDate, RulesOf(t, sync.config),
                             t.runs)
  {
    hide Typed, InWindows, AllLinked, RulesOf;
  }

  lemma SoundLiveIs(l: Legacy, sync: Sync)
    ensures SoundLive(l, sync) <==>
              && sync.config in l.configs && l.configs[sync.config].status == Active
              && sync.lastRun in l.runs && l.runs[sync.lastRun].state == Committed
              && l.runs[sync.lastRun].config == sync.config
              && (forall k :: k in l.rows ==>
                    SoundRow(l, k, sync, l.configs[sync.config].basis.currency, l.runs[sync.lastRun].accounts))
              && (forall k :: k in l.links ==> SoundLink(l, k, sync, l.runs[sync.lastRun].toDate))
  {
    hide SoundRow, SoundLink;
  }

  lemma UnsyncedIff(l: Legacy)
    requires Unambiguous(l) && l.sync == map[]
    ensures LiveInv(Upgraded(l)) <==> l.rows == map[] && l.links == map[]
  {
    var t := Upgraded(l);
    hide Upgraded, UpgradedRow, UpgradedConfigs, UpgradedRuns, UpgradedBatchTable, Typed;
    UpgradedIs(l);
    ScopedRowsKept(l.rows);
    ScopedLinksKept(l.links);
    hide UpgradedRows, UpgradedLinks, Unambiguous;
    assert |l.rows| == 0 <==> l.rows == map[];
    assert |l.links| == 0 <==> l.links == map[];
    assert t.ledger == EMPTY_LEDGER <==> t.ledger.rows == map[] && t.ledger.links == map[];
  }

  lemma LiveIff(l: Legacy)
    requires SingleScope(l) && Unambiguous(l)
    ensures LiveInv(Upgraded(l)) <==> SoundTables(l)
  {
    hide LiveInv, SoundLive, Upgraded, SingleScope, Scopes;
    if l.sync == map[] {
      UnsyncedIff(l);
    } else {
      assert exists scope :: scope in l.sync;
      var scope :| scope in l.sync;
      SyncedIff(l, scope);
    }
  }

  // ---------------------------------------------------------------------
  // The whole database

  ghost predicate Sound(l: Legacy) {
    SoundConfigs(l) && SoundRuns(l) && SoundTables(l)
  }

  /** A legacy database of one scope comes out of the upgrade with the core invariant
      exactly when its scoped tables are sound; the progress of open runs, stored digests,
      skipped items and staged rows put no condition on it. */
  lemma UpgradedIsCore(l: Legacy)
    requires SingleScope(l)
    ensures Unambiguous(l) && (Core(Upgraded(l)) <==> Sound(l))
  {
    ProjectionIsInjective(l);
    hide SingleScope, Unambiguous, Upgraded, ConfigInv, RunInv, LiveInv, SoundConfigs, SoundRuns, SoundTables;
    ConfigsIff(l);
    RunsIff(l);
    LiveIff(l);
  }

  /** So the service goes on from every such database. */
  lemma ServiceGoesOnFrom(l: Legacy, calls: seq<Call>)
    requires SingleScope(l) && Sound(l) && AllValid(calls)
    ensures Unambiguous(l) && Core(Execute(Upgraded(l), calls))
  {
    hide *;
    UpgradedIsCore(l);
    ExecuteKeepsCore(Upgraded(l), calls);
  }

  // ---------------------------------------------------------------------
  // Counts

  /** The declared sizes of a run's batches. */
  ghost function DeclaredTotal(batches: map<nat, Batch>): int {
    if batches == map[] then 0
    else
      var i :| i in batches;
      batches[i].itemCount + DeclaredTotal(batches - {i})
  }

  /** The stored items of a legacy run's batches. */
  ghost function StoredTotal(batches: map<nat, LegacyBatch>): int {
    if batches == map[] then 0
    else
      var i :| i in batches;
      batches[i].storeCount + StoredTotal(batches - {i})
  }

  lemma {:induction false} DeclaredStep(batches: map<nat, Batch>, i: nat)
    requires i in batches
    ensures DeclaredTotal(batches) == batches[i].itemCount + DeclaredTotal(batches - {i})
    decreases |batches|
  {
    var j :| j in batches && DeclaredTotal(batches) == batches[j].itemCount + DeclaredTotal(batches - {j});
    if j != i {
      DeclaredStep(batches - {j}, i);
      DeclaredStep(batches - {i}, j);
      assert batches - {j} - {i} == batches - {i} - {j};
    }
  }

  lemma {:induction false} StoredIsDeclared(was: map<nat, LegacyBatch>, now: map<nat, Batch>)
    requires now.Keys == was.Keys && forall i :: i in was ==> now[i].itemCount == was[i].storeCount
    ensures DeclaredTotal(now) == StoredTotal(was)
    decreases |was|
  {
    if was == map[] {
      assert now == map[];
    } else {
      var i :| i in was && StoredTotal(was) == was[i].storeCount + StoredTotal(was - {i});
      assert i in now.Keys;
      DeclaredStep(now, i);
      StoredIsDeclared(was - {i}, now - {i});
    }
  }

  /** A run whose batches account for its stored items still has batches that do: the
      counts after the upgrade leave out what was skipped, in the run and in each batch. */
  lemma UpgradedCounts(l: Legacy, r: RunId)
    requires Unambiguous(l) && r in l.runs
    requires StoredTotal(RowsOf(l.batches, r)) == l.runs[r].storeCount
    ensures r in Upgraded(l).runs
    ensures DeclaredTotal(RowsOf(Upgraded(l).batches, r)) == Upgraded(l).runs[r].itemCount == l.runs[r].storeCount
    ensures var batches, upgraded := RowsOf(l.batches, r), RowsOf(Upgraded(l).batches, r);
            && upgraded.Keys == batches.Keys
            && forall i :: i in batches && batches[i].storeCount + batches[i].skipCount == batches[i].itemCount ==>
                 upgraded[i].itemCount == batches[i].itemCount - batches[i].skipCount
  {
    hide *;
    UpgradedIs(l);
    UpgradedRunAt(l.runs, r);
    UpgradedRowsOf(l.batches, r);
    BatchesAre(RowsOf(l.batches, r));
    StoredIsDeclared(RowsOf(l.batches, r), UpgradedBatches(RowsOf(l.batches, r)));
    StoresOnly(l.runs[r]);
  }

  lemma BatchesAre(batches: map<nat, LegacyBatch>)
    ensures UpgradedBatches(batches).Keys == batches.Keys
    ensures forall i :: i in batches ==> UpgradedBatches(batches)[i].itemCount == batches[i].storeCount
  {
  }

  lemma StoresOnly(run: LegacyRun)
    ensures UpgradedRun(run).itemCount == run.storeCount
  {
  }

  // ---------------------------------------------------------------------
  // Upgrade, then downgrade

  /** A legacy run after both: what was skipped is forgotten, an open run has failed, and
      the scope is the one that the downgrade invents. */
  lemma LegacyRunReturns(run: LegacyRun)
    ensures DowngradedRun(UpgradedRun(run)) ==
              LegacyRun(PERSONAL, run.idempotencyKey,
                        LegacyRequest(PERSONAL, BeginRequest(run.mode, run.fromDate, run.toDate, run.accounts)),
                        run.mode, if Open(run.state) then Failed else run.state, run.config, run.fromDate, run.toDate,
                        run.accounts, if run.state == Committed then Some(run.accounts) else None,
                        run.expectedBatchCount, run.received, run.storeCount, run.storeCount, 0, run.checksum,
                        run.uploadedAt, run.validatedAt, run.committedAt)
  {
  }

  /** A legacy row comes back whole, and a batch without what it skipped. */
  lemma LegacyRowsReturn(row: LegacyRow, batches: map<nat, LegacyBatch>)
    ensures DowngradedRow(UpgradedRow(row)) == row
    ensures DowngradedBatches(UpgradedBatches(batches)) ==
              map i | i in batches :: batches[i].(itemCount := batches[i].storeCount, skipCount := 0)
  {
  }

  /** A version comes back with its digest recomputed and the invented scope. */
  lemma LegacyConfigReturns(c: Catalog, links: map<Key, Version>, config: LegacyConfig)
    ensures DowngradedConfig(c, links, UpgradedConfig(c, links, config)) ==
              config.(hash := RecomputedHash(c, links, config.basis),
                      source := LegacySource(Some(PERSONAL), None, config.source.request))
  {
    hide RecomputedHash;
  }

  /** What is staged goes down as it is, under the invented scope. */
  lemma StagedGoesDown(s: State, r: RunId, k: ScopedId)
    requires r in s.staged
    ensures var staged := Downgraded(s).staged;
            && r in staged && (k in staged[r] <==> k.scope == PERSONAL && k.id in s.staged[r])
            && (k in staged[r] ==> staged[r][k] == s.staged[r][k.id])
  {
    hide DowngradedConfigs, DowngradedRuns, DowngradedBatchTable, DowngradedRows, DowngradedLinks, DowngradedSync,
      DowngradedStagedRows;
    StagedRowGoesDown(s.staged[r], k);
  }

  lemma StagedRowGoesDown(rows: map<Identity, Staged>, k: ScopedId)
    ensures k in DowngradedStagedRows(rows) <==> k.scope == PERSONAL && k.id in rows
    ensures k in DowngradedStagedRows(rows) ==> DowngradedStagedRows(rows)[k] == rows[k.id]
  {
    assert k.scope == PERSONAL ==> k == ScopedId(PERSONAL, k.id);
  }

  /** Every row that has a scope has this one. */
  ghost predicate AllOf(l: Legacy, scope: string) {
    && (forall r :: r in l.runs ==> l.runs[r].scope == scope)
    && (forall r, k :: r in l.staged && k in l.staged[r] ==> k.scope == scope)
    && (forall k :: k in l.rows ==> k.scope == scope)
    && (forall k :: k in l.links ==> k.scope == scope)
    && (forall k :: k in l.sync ==> k == scope)
    && (forall v :: v in l.configs && l.configs[v].source.scope.Some? ==> l.configs[v].source.scope.value == scope)
  }

  lemma AllOfBounds(l: Legacy, scope: string)
    requires AllOf(l, scope)
    ensures Scopes(l) <= {scope}
  {
  }

  lemma OneScopeCovers(l: Legacy, scope: string)
    requires forall x :: x in Scopes(l) ==> x == scope
    ensures AllOf(l, scope)
  {
    ScopesCover(l);
    hide Scopes;
  }

  /** The upgrade's check passes exactly when one name covers every row with a scope. */
  lemma SingleScopeIff(l: Legacy)
    ensures SingleScope(l) <==> exists scope :: AllOf(l, scope)
  {
    hide Scopes, AllOf;
    if SingleScope(l) {
      if Scopes(l) == {} {
        OneScopeCovers(l, PERSONAL);
      } else {
        var scope :| scope in Scopes(l);
        forall x | x in Scopes(l) ensures x == scope {
          OneScope(Scopes(l), x, scope);
        }
        OneScopeCovers(l, scope);
      }
    }
    if scope :| AllOf(l, scope) {
      AllOfBounds(l, scope);
      SubsetSize(Scopes(l), {scope});
    }
  }

  lemma ScopesCover(l: Legacy)
    ensures forall r :: r in l.runs ==> l.runs[r].scope in Scopes(l)
    ensures forall r, k :: r in l.staged && k in l.staged[r] ==> k.scope in Scopes(l)
    ensures forall k :: k in l.rows ==> k.scope in Scopes(l)
    ensures forall k :: k in l.links ==> k.scope in Scopes(l)
    ensures forall k :: k in l.sync ==> k in Scopes(l)
    ensures forall v :: v in l.configs && l.configs[v].source.scope.Some? ==>
              l.configs[v].source.scope.value in Scopes(l)
  {
  }
}
