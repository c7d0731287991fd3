/** The refresh protocol as the service runs it: guards, statements and rollback,
    proved to do what the functions of RefreshSpec say. */
module RefreshService {
  import opened Options
  import opened Model
  import opened ConfigSpec
  import opened RefreshSpec
  import opened Invariant
  import opened UploadProofs
  import opened CommitProofs
  import opened StoreModel
  import opened Publication

  // ---------------------------------------------------------------------
  // Queries

  method FindByStatus(configs: map<Version, Config>, status: Status) returns (r: Option<Version>)
    requires AtMostOne(configs, status)
    ensures r == Current(configs, status)
  {
    if v :| v in configs && configs[v].status == status {
      r := Some(v);
    } else {
      r := None;
    }
  }

  method FindRun(runs: map<RunId, Run>, key: string) returns (r: Option<RunId>)
    requires DistinctKeys(runs)
    ensures r == RunWithKey(runs, key)
  {
    if id :| id in runs && runs[id].idempotencyKey == key {
      r := Some(id);
    } else {
      r := None;
    }
  }

  /** One more than the greatest number in use. */
  method NextNumber(keys: set<nat>) returns (n: nat)
    ensures n == Next(keys)
  {
    n := 1;
    var rest := keys;
    while rest != {}
      invariant rest <= keys && n >= 1
      invariant forall k :: k in keys && k !in rest ==> k < n
      invariant n == 1 || n - 1 in keys
      invariant n > 1 || forall k :: k in keys && k !in rest ==> k == 0
      decreases |rest|
    {
      var k :| k in rest;
      rest := rest - {k};
      if n <= k {
        n := k + 1;
      }
    }
  }

  // ---------------------------------------------------------------------
  // Begin

  ghost predicate PositiveWindows(rules: map<Key, RuleVersion>) {
    forall k :: k in rules ==> rules[k].rule.text.lookback >= 1
  }

  /** The latest day on which a full rebuild may start: the longest enabled window
      back from the end date, or the end date itself without enabled rules. */
  method RequiredStart(rules: map<Key, RuleVersion>, toDate: int) returns (start: int)
    requires PositiveWindows(rules)
    ensures forall fromDate :: fromDate <= start <==> CoversWindows(rules, fromDate, toDate)
  {
    var longest: Option<int> := None;
    var rest := rules.Keys;
    while rest != {}
      invariant rest <= rules.Keys
      invariant longest.Some? ==> longest.value >= 1
      invariant longest.Some? ==>
                  exists k :: k in rules && rules[k].rule.text.enabled && rules[k].rule.text.lookback == longest.value
      invariant forall k :: k in rules && k !in rest && rules[k].rule.text.enabled ==>
                  longest.Some? && rules[k].rule.text.lookback <= longest.value
      decreases |rest|
    {
      var k :| k in rest;
      rest := rest - {k};
      if rules[k].rule.text.enabled && (longest.None? || longest.value < rules[k].rule.text.lookback) {
        longest := Some(rules[k].rule.text.lookback);
      }
    }
    start := WindowStart(toDate, if longest.Some? then longest.value else 1);
  }

  lemma WindowsPositive(s: State, v: Version)
    requires CatalogOk(Catalog(s.categories, s.rules))
    ensures PositiveWindows(RulesOf(s, v))
  {
  }

  /** The guards of begin_refresh, in the order the service checks them. */
  method CheckBegin(db: Store, request: BeginRequest, active: Option<Version>, pending: Option<Version>)
    returns (error: Option<Error>)
    requires active == Current(db.configs, Active) && pending == Current(db.configs, Pending)
    requires CatalogOk(Catalog(db.categories, db.rules))
    ensures error == BeginError(db.Snapshot(), request)
  {
    if active.None? {
      return Some(ConfigRequired);
    }
    if request.mode == Incremental && pending.Some? {
      return Some(FullRebuildRequired);
    }
    var target := if request.mode == Full && pending.Some? then pending.value else active.value;
    if request.mode == Full {
      var rules := RulesOf(db.Snapshot(), target);
      WindowsPositive(db.Snapshot(), target);
      var start := RequiredStart(rules, request.toDate);
      if request.fromDate > start {
        return Some(FullWindowIncomplete);
      }
    }
    if request.mode == Incremental && db.sync.None? {
      return Some(FullRebuildRequired);
    }
    if request.mode == Incremental && db.sync.value.lastRun in db.runs
       && db.runs[db.sync.value.lastRun].accounts != request.accounts {
      return Some(AccountScopeChanged);
    }
    return None;
  }

  lemma BeginMeans(s: State)
    requires Core(s)
    ensures AtMostOne(s.configs, Active) && AtMostOne(s.configs, Pending)
    ensures CatalogOk(Catalog(s.categories, s.rules)) && DistinctKeys(s.runs)
  {
  }

  lemma BeginExisting(s: State, key: string, request: BeginRequest, id: RunId)
    requires RunWithKey(s.runs, key) == Some(id)
    ensures Begin(s, key, request) ==
              if s.runs[id].request != request then Outcome(s, Rejected(IdempotencyConflict))
              else Outcome(s, Begun(id, s.runs[id].state, s.runs[id].mode, s.runs[id].config,
                                    RulesOf(s, s.runs[id].config)))
  {
  }

  lemma BeginRefused(s: State, key: string, request: BeginRequest)
    requires RunWithKey(s.runs, key).None? && BeginError(s, request).Some?
    ensures Begin(s, key, request) == Outcome(s, Rejected(BeginError(s, request).value))
  {
  }

  lemma BeginAccepted(s: State, key: string, request: BeginRequest, target: Version)
    requires RunWithKey(s.runs, key).None? && BeginError(s, request).None?
    requires Target(s.configs, request.mode) == Some(target)
    ensures var id := Next(s.runs.Keys);
            Begin(s, key, request) == Outcome(s.(runs := s.runs[id := NewRun(s, key, request, target)]),
                                              Begun(id, Created, request.mode, target, RulesOf(s, target)))
  {
  }

  lemma BeginTarget(s: State, request: BeginRequest)
    requires BeginError(s, request).None?
    ensures Current(s.configs, Active).Some?
    ensures var pending := Current(s.configs, Pending);
            var target := if request.mode == Full && pending.Some? then pending.value
                          else Current(s.configs, Active).value;
            && target in s.configs && Target(s.configs, request.mode) == Some(target)
            && (request.mode == Incremental ==> s.configs[target].status == Active)
  {
  }

  lemma NewRunAccepted(s: State, key: string, request: BeginRequest, target: Version)
    requires request.Valid()
    ensures var run := NewRun(s, key, request, target);
            && run.config == target && run.mode == request.mode && run.idempotencyKey == key
            && run.fromDate <= run.toDate && CommittedComplete(run)
  {
  }

  method BeginRefresh(db: Store, key: string, request: BeginRequest) returns (reply: Reply)
    requires request.Valid()
    requires Core(db.Snapshot())
    modifies db`runs
    ensures db.Snapshot() == Begin(old(db.Snapshot()), key, request).state
    ensures reply == Begin(old(db.Snapshot()), key, request).reply
  {
    hide Core, Begin, BeginError, RulesOf, NewRun, Target, Current, CommittedComplete, DistinctKeys, AtMostOne,
      CatalogOk;
    BeginMeans(db.Snapshot());
    var existing := FindRun(db.runs, key);
    if existing.Some? {
      BeginExisting(db.Snapshot(), key, request, existing.value);
      var run := db.runs[existing.value];
      if run.request != request {
        return Rejected(IdempotencyConflict);
      }
      return Begun(existing.value, run.state, run.mode, run.config, RulesOf(db.Snapshot(), run.config));
    }
    var active := FindByStatus(db.configs, Active);
    var pending := FindByStatus(db.configs, Pending);
    var error := CheckBegin(db, request, active, pending);
    if error.Some? {
      BeginRefused(db.Snapshot(), key, request);
      return Rejected(error.value);
    }
    BeginTarget(db.Snapshot(), request);
    var target := if request.mode == Full && pending.Some? then pending.value else active.value;
    var id := NextNumber(db.runs.Keys);
    var rules := RulesOf(db.Snapshot(), target);
    BeginAccepted(db.Snapshot(), key, request, target);
    NewRunAccepted(db.Snapshot(), key, request, target);
    db.InsertRun(id, NewRun(db.Snapshot(), key, request, target));
    reply := Begun(id, Created, request.mode, target, rules);
  }

  // ---------------------------------------------------------------------
  // Upload

  /** The checks of one transaction, in the order the service makes them. */
  method CheckItem(db: Store, id: RunId, allowed: set<Key>, seen: set<Identity>, item: Upload)
    returns (error: Option<Error>)
    requires id in db.runs && db.runs[id].config in db.configs
    requires allowed == Allowed(db.Snapshot(), db.runs[id].config).Keys
    ensures error == ItemError(db.Snapshot(), id, seen, item)
  {
    hide Allowed;
    var run := db.runs[id];
    if item.id in seen {
      return Some(DuplicateTransaction);
    }
    if item.id.account !in run.accounts {
      return Some(UnexpectedAccount);
    }
    if item.content.currency != db.configs[run.config].basis.currency {
      return Some(CurrencyMismatch);
    }
    if item.content.date > run.toDate || (run.mode == Full && item.content.date < run.fromDate) {
      return Some(OutsideRunWindow);
    }
    var unknown := item.categories - allowed;
    if unknown == {} {
      forall k | k in item.categories ensures k in allowed {
        assert k !in unknown;
      }
    }
    if unknown != {} {
      return Some(UnknownCategory);
    }
    if item.id in RowsOf(db.staged, id) {
      return Some(DuplicateTransaction);
    }
    return None;
  }

  lemma {:induction false} FirstErrorWins(s: State, id: RunId, items: seq<Upload>, n: nat)
    requires id in s.runs && s.runs[id].config in s.configs && n <= |items|
    requires ItemsError(s, id, items[..n]).Some?
    ensures ItemsError(s, id, items) == ItemsError(s, id, items[..n])
  {
    hide ItemError, Ids;
    if n < |items| {
      var before := items[..|items| - 1];
      assert before[..n] == items[..n];
      FirstErrorWins(s, id, before, n);
    } else {
      assert items[..n] == items;
    }
  }

  lemma ItemsStep(s: State, id: RunId, items: seq<Upload>, i: nat)
    requires id in s.runs && s.runs[id].config in s.configs && i < |items|
    requires ItemsError(s, id, items[..i]).None?
    ensures ItemsError(s, id, items[..i + 1]) == ItemError(s, id, Ids(items[..i]), items[i])
    ensures Ids(items[..i + 1]) == Ids(items[..i]) + {items[i].id}
  {
    hide ItemError, Ids;
    var next := items[..i + 1];
    assert next[..|next| - 1] == items[..i] && next[i] == items[i];
    IdsStep(next);
  }

  lemma NoItems(s: State, id: RunId, items: seq<Upload>)
    requires id in s.runs && s.runs[id].config in s.configs
    ensures ItemsError(s, id, items[..0]).None? && Ids(items[..0]) == {}
    ensures items[..|items|] == items
  {
  }

  method CheckItems(db: Store, id: RunId, allowed: set<Key>, items: seq<Upload>) returns (error: Option<Error>)
    requires id in db.runs && db.runs[id].config in db.configs
    requires allowed == Allowed(db.Snapshot(), db.runs[id].config).Keys
    ensures error == ItemsError(db.Snapshot(), id, items)
  {
    hide ItemError, ItemsError, Ids, Allowed;
    var seen: set<Identity> := {};
    NoItems(db.Snapshot(), id, items);
    for i := 0 to |items|
      invariant ItemsError(db.Snapshot(), id, items[..i]).None?
      invariant seen == Ids(items[..i])
    {
      ItemsStep(db.Snapshot(), id, items, i);
      var failed := CheckItem(db, id, allowed, seen, items[i]);
      if failed.Some? {
        FirstErrorWins(db.Snapshot(), id, items, i + 1);
        return failed;
      }
      seen := seen + {items[i].id};
    }
    return None;
  }

  /** A category that the run's version offers is linked to the rule to be recorded. */
  lemma AllowedLinked(s: State, v: Version, k: Key)
    requires k in Allowed(s, v)
    ensures v in s.configRules && k in s.configRules[v] && s.configRules[v][k] == Allowed(s, v)[k]
  {
  }

  lemma ItemStorable(s: State, run: Run, currency: string, index: nat, item: Upload)
    requires ItemFits(run, currency, RulesOf(s, run.config), item) && item.Valid()
    ensures Storable(s.configRules, run.config, StagedRow(run.config, index, Allowed(s, run.config), item))
    ensures StagedRow(run.config, index, Allowed(s, run.config), item).config == run.config
    ensures StagedRow(run.config, index, Allowed(s, run.config), item).batchIndex == index
  {
    var row := StagedRow(run.config, index, Allowed(s, run.config), item);
    var k :| k in item.categories;
    assert k in row.categories by {
      assert k in RulesOf(s, run.config);
    }
    hide Allowed, RulesOf;
    assert run.config in s.configRules by { AllowedLinked(s, run.config, k); }
    forall j | j in row.categories
      ensures j in s.configRules[run.config] && s.configRules[run.config][j] == row.categories[j]
    {
      AllowedLinked(s, run.config, j);
    }
  }

  lemma StageStep(rows: map<Identity, Staged>, config: Version, index: nat, allowed: map<Key, Version>,
                  items: seq<Upload>, i: nat)
    requires i < |items| && FreshItems(rows, items)
    ensures StageItems(rows, config, index, allowed, items[..0]) == rows
    ensures items[i].id !in StageItems(rows, config, index, allowed, items[..i])
    ensures StageItems(rows, config, index, allowed, items[..i + 1]) ==
              StageItems(rows, config, index, allowed, items[..i])[items[i].id := StagedRow(config, index, allowed,
                                                                                            items[i])]
  {
    hide StagedRow;
    var next := items[..i + 1];
    assert next[..|next| - 1] == items[..i] && next[i] == items[i];
    StageItemsKeys(rows, config, index, allowed, items[..i]);
    IdsHas(items[..i], items[i].id);
  }

  lemma StagedSoFar(staged: map<RunId, map<Identity, Staged>>, id: RunId, rows: map<Identity, Staged>,
                    more: map<Identity, Staged>)
    ensures RowsOf(staged[id := rows], id) == rows
    ensures staged[id := rows][id := more] == staged[id := more]
  {
  }

  /** Insert the staged rows of one batch. */
  method StageBatch(db: Store, id: RunId, index: nat, allowed: map<Key, Version>, items: seq<Upload>)
    requires id in db.runs && index in RowsOf(db.batches, id) && |items| >= 1
    requires forall i :: 0 <= i < |items| ==> items[i].Valid()
    requires allowed == Allowed(db.Snapshot(), db.runs[id].config)
    requires FreshItems(RowsOf(db.staged, id), items)
    requires exists currency :: AllFit(db.runs[id], currency, RulesOf(db.Snapshot(), db.runs[id].config), items)
    modifies db`staged
    ensures db.staged == old(db.staged)[id := StageItems(RowsOf(old(db.staged), id), db.runs[id].config, index, allowed,
                                                         items)]
  {
    hide Allowed, RulesOf, StageItems, FreshItems, StagedRow, ItemFits, RowsOf;
    ghost var s := db.Snapshot();
    ghost var rows := RowsOf(db.staged, id);
    var config := db.runs[id].config;
    ghost var currency :| AllFit(db.runs[id], currency, RulesOf(s, config), items);
    StageStep(rows, config, index, allowed, items, 0);
    assert items[..|items|] == items;
    for i := 0 to |items|
      invariant RowsOf(db.staged, id) == StageItems(rows, config, index, allowed, items[..i])
      invariant i == 0 ==> db.staged == old(db.staged)
      invariant i > 0 ==> db.staged == old(db.staged)[id := StageItems(rows, config, index, allowed, items[..i])]
    {
      StageStep(rows, config, index, allowed, items, i);
      ItemStorable(s, db.runs[id], currency, index, items[i]);
      var row := StagedRow(config, index, allowed, items[i]);
      db.InsertStaged(id, items[i].id, row);
      ghost var before := StageItems(rows, config, index, allowed, items[..i]);
      ghost var after := StageItems(rows, config, index, allowed, items[..i + 1]);
      StagedSoFar(old(db.staged), id, before, after);
      StagedSoFar(old(db.staged), id, after, after);
    }
  }

  lemma UploadMeans(s: State, id: RunId)
    requires Core(s) && id in s.runs
    ensures s.runs[id].config in s.configs
  {
    hide ConfigInv, LiveInv, StagedOk, BatchesOk, Accounted, RulesOf;
    assert RunOk(s, id);
  }

  /** What the loops have established before the first statement. */
  lemma Checked(s: State, id: RunId, items: seq<Upload>)
    requires id in s.runs && s.runs[id].config in s.configs && ItemsError(s, id, items).None?
    ensures FreshItems(RowsOf(s.staged, id), items)
    ensures AllFit(s.runs[id], s.configs[s.runs[id].config].basis.currency, RulesOf(s, s.runs[id].config), items)
  {
    hide RulesOf, AllFit, FreshItems, ItemsError;
    ItemsErrorNone(s, id, items);
  }

  lemma UploadedMoves(run: Run, request: BatchRequest, now: int)
    requires run.state == Created || run.state == Uploaded
    ensures var next := UploadedRun(run, request, now);
            && SameManifest(run, next) && MayMove(run, next) && CommittedComplete(next)
            && next.config == run.config
  {
  }

  method IsKeyReused(batches: map<nat, Batch>, key: string) returns (reused: bool)
    ensures reused == KeyReused(batches, key)
  {
    reused := exists i :: i in batches && batches[i].idempotencyKey == key;
  }

  method UploadBatch(db: Store, id: RunId, index: int, request: BatchRequest, bytes: nat, limits: Limits, now: int)
    returns (reply: Reply)
    requires request.Valid()
    requires Core(db.Snapshot())
    modifies db`runs, db`batches, db`staged
    ensures db.Snapshot() == RefreshSpec.UploadBatch(old(db.Snapshot()), id, index, request, bytes, limits, now).state
    ensures reply == RefreshSpec.UploadBatch(old(db.Snapshot()), id, index, request, bytes, limits, now).reply
  {
    hide Core, RulesOf, Allowed, ItemsError, KeyReused, StageItems, FreshItems, AllFit, NewBatch, UploadedRun,
      SameManifest, MayMove, CommittedComplete;
    if index < 0 {
      return Rejected(InvalidBatchIndex);
    }
    if |request.items| > limits.maxItems || bytes > limits.maxBytes {
      return Rejected(BatchTooLarge);
    }
    if id !in db.runs {
      return Rejected(RunNotFound);
    }
    UploadMeans(db.Snapshot(), id);
    var run := db.runs[id];
    var batches := RowsOf(db.batches, id);
    if index in batches {
      if batches[index].request != request || batches[index].checksum != request.items {
        return Rejected(BatchContentConflict);
      }
      return Stored(id, index, batches[index].itemCount, true);
    }
    var reused := IsKeyReused(batches, request.idempotencyKey);
    if reused {
      return Rejected(BatchIdempotencyConflict);
    }
    if run.state != Created && run.state != Uploaded {
      return Rejected(RunNotUploadable);
    }
    var allowed := Allowed(db.Snapshot(), run.config);
    var error := CheckItems(db, id, allowed.Keys, request.items);
    if error.Some? {
      return Rejected(error.value);
    }
    Checked(db.Snapshot(), id, request.items);
    StoreBatch(db, id, index, request, allowed, now);
    reply := Stored(id, index, |request.items|, false);
  }

  /** The statements of an accepted upload. */
  method StoreBatch(db: Store, id: RunId, index: nat, request: BatchRequest, allowed: map<Key, Version>, now: int)
    requires id in db.runs && db.runs[id].config in db.configs
    requires db.runs[id].state == Created || db.runs[id].state == Uploaded
    requires index !in RowsOf(db.batches, id) && !KeyReused(RowsOf(db.batches, id), request.idempotencyKey)
    requires request.Valid() && allowed == Allowed(db.Snapshot(), db.runs[id].config)
    requires FreshItems(RowsOf(db.staged, id), request.items)
    requires AllFit(db.runs[id], db.configs[db.runs[id].config].basis.currency,
                    RulesOf(db.Snapshot(), db.runs[id].config), request.items)
    modifies db`runs, db`batches, db`staged
    ensures db.Snapshot() == Staging(old(db.Snapshot()), id, index, request, now)
  {
    hide RulesOf, Allowed, StageItems, FreshItems, AllFit, UploadedRun, SameManifest, MayMove, CommittedComplete;
    ghost var s := db.Snapshot();
    var run := db.runs[id];
    db.InsertBatch(id, index, NewBatch(request));
    SameOffer(s, db.Snapshot(), run.config);
    BatchStored(s.batches, id, index, NewBatch(request));
    StageBatch(db, id, index, allowed, request.items);
    UploadedMoves(run, request, now);
    db.UpdateRun(id, UploadedRun(run, request, now));
  }

  lemma BatchStored(batches: map<RunId, map<nat, Batch>>, id: RunId, index: nat, batch: Batch)
    ensures index in RowsOf(batches[id := RowsOf(batches, id)[index := batch]], id)
  {
  }

  lemma SameOffer(s: State, t: State, v: Version)
    requires t.configRules == s.configRules && t.categories == s.categories && t.rules == s.rules
    ensures RulesOf(t, v) == RulesOf(s, v) && Allowed(t, v) == Allowed(s, v)
  {
  }
}
