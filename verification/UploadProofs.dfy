/** Staging a batch keeps the global invariant and its accounting. */
module UploadProofs {
  import opened Options
  import opened Model
  import opened ConfigSpec
  import opened RefreshSpec
  import opened Invariant
  import opened StepProofs

  /** The per-item checks, apart from the two duplicate checks. */
  ghost predicate ItemFits(run: Run, currency: string, rules: map<Key, RuleVersion>, item: Upload) {
    && item.id.account in run.accounts
    && item.content.currency == currency
    && item.content.date <= run.toDate
    && (run.mode == Full ==> run.fromDate <= item.content.date)
    && forall k :: k in item.categories ==> k in rules && rules[k].rule.text.enabled
  }

  ghost predicate AllFit(run: Run, currency: string, rules: map<Key, RuleVersion>, items: seq<Upload>) {
    forall i :: 0 <= i < |items| ==> ItemFits(run, currency, rules, items[i])
  }

  /** No identity repeats inside the batch or among the rows already staged. */
  ghost predicate FreshItems(rows: map<Identity, Staged>, items: seq<Upload>) {
    && (forall i :: 0 <= i < |items| ==> items[i].id !in rows)
    && (forall i, j :: 0 <= i < j < |items| ==> items[i].id != items[j].id)
  }

  lemma IdsHas(items: seq<Upload>, id: Identity)
    ensures id in Ids(items) <==> exists i :: 0 <= i < |items| && items[i].id == id
  {
  }

  lemma IdsStep(items: seq<Upload>)
    requires items != []
    ensures Ids(items) == Ids(items[..|items| - 1]) + {items[|items| - 1].id}
  {
  }

  lemma FreshStep(rows: map<Identity, Staged>, items: seq<Upload>)
    requires items != []
    ensures var n := |items| - 1;
            FreshItems(rows, items) <==>
              FreshItems(rows, items[..n]) && items[n].id !in Ids(items[..n]) && items[n].id !in rows
  {
  }

  lemma AllFitStep(run: Run, currency: string, rules: map<Key, RuleVersion>, items: seq<Upload>)
    requires items != []
    ensures var n := |items| - 1;
            AllFit(run, currency, rules, items) <==>
              AllFit(run, currency, rules, items[..n]) && ItemFits(run, currency, rules, items[n])
  {
  }

  /** An upload passes its loop exactly when every item fits and no identity repeats. */
  lemma {:induction false} ItemsErrorNone(s: State, id: RunId, items: seq<Upload>)
    requires id in s.runs && s.runs[id].config in s.configs
    ensures ItemsError(s, id, items).None? <==>
              && AllFit(s.runs[id], s.configs[s.runs[id].config].basis.currency, RulesOf(s, s.runs[id].config), items)
              && FreshItems(RowsOf(s.staged, id), items)
  {
    hide ItemError, ItemFits, Ids, RulesOf, RowsOf;
    if items != [] {
      var n := |items| - 1;
      ItemsErrorNone(s, id, items[..n]);
      ItemErrorNone(s, id, Ids(items[..n]), items[n]);
      FreshStep(RowsOf(s.staged, id), items);
      AllFitStep(s.runs[id], s.configs[s.runs[id].config].basis.currency, RulesOf(s, s.runs[id].config), items);
    }
  }

  lemma ItemErrorNone(s: State, id: RunId, seen: set<Identity>, item: Upload)
    requires id in s.runs && s.runs[id].config in s.configs
    ensures ItemError(s, id, seen, item).None? <==>
              && ItemFits(s.runs[id], s.configs[s.runs[id].config].basis.currency, RulesOf(s, s.runs[id].config), item)
              && item.id !in seen && item.id !in RowsOf(s.staged, id)
  {
    var rules := RulesOf(s, s.runs[id].config);
    assert item.categories <= Allowed(s, s.runs[id].config).Keys <==>
             forall k :: k in item.categories ==> k in rules && rules[k].rule.text.enabled;
  }

  lemma {:induction false} IdsCount(rows: map<Identity, Staged>, items: seq<Upload>)
    requires FreshItems(rows, items)
    ensures |Ids(items)| == |items| && rows.Keys !! Ids(items)
  {
    hide Ids;
    if items == [] {
      EmptyIds();
    } else {
      FreshStep(rows, items);
      IdsCount(rows, items[..|items| - 1]);
      IdsStep(items);
    }
  }

  /** Staging adds one row per item and touches no other row. */
  lemma {:induction false} StageItemsKeys(rows: map<Identity, Staged>, config: Version, index: nat,
                                          allowed: map<Key, Version>, items: seq<Upload>)
    ensures StageItems(rows, config, index, allowed, items).Keys == rows.Keys + Ids(items)
  {
    hide StagedRow, Ids;
    if items == [] {
      EmptyIds();
    } else {
      StageItemsKeys(rows, config, index, allowed, items[..|items| - 1]);
      IdsStep(items);
    }
  }

  lemma {:induction false} StageItemsKept(rows: map<Identity, Staged>, config: Version, index: nat,
                                          allowed: map<Key, Version>, items: seq<Upload>, id: Identity)
    requires id in rows && id !in Ids(items)
    ensures id in StageItems(rows, config, index, allowed, items)
    ensures StageItems(rows, config, index, allowed, items)[id] == rows[id]
  {
    hide StagedRow, Ids;
    if items != [] {
      IdsStep(items);
      StageItemsKept(rows, config, index, allowed, items[..|items| - 1], id);
    }
  }

  lemma EmptyIds()
    ensures Ids([]) == {}
  {
  }

  lemma {:induction false} StageItemsAt(rows: map<Identity, Staged>, config: Version, index: nat,
                                        allowed: map<Key, Version>, items: seq<Upload>, i: nat)
    requires FreshItems(rows, items) && i < |items|
    ensures items[i].id in StageItems(rows, config, index, allowed, items)
    ensures StageItems(rows, config, index, allowed, items)[items[i].id] == StagedRow(config, index, allowed, items[i])
  {
    hide StagedRow;
    var n := |items| - 1;
    if i < n {
      FreshStep(rows, items);
      StageItemsAt(rows, config, index, allowed, items[..n], i);
      assert items[..n][i] == items[i];
    }
  }

  lemma StagedRowOk(run: Run, currency: string, rules: map<Key, RuleVersion>, allowed: map<Key, Version>, index: nat,
                    item: Upload)
    requires ItemFits(run, currency, rules, item) && item.Valid()
    requires allowed == map k | k in rules && rules[k].rule.text.enabled :: rules[k].version
    ensures StagedOk(run, currency, rules, item.id, StagedRow(run.config, index, allowed, item))
  {
    var row := StagedRow(run.config, index, allowed, item);
    var k :| k in item.categories;
    assert k in row.categories;
  }

  lemma StagedBatch(rows: map<Identity, Staged>, config: Version, index: nat, allowed: map<Key, Version>,
                    items: seq<Upload>, id: Identity)
    requires FreshItems(rows, items) && id in Ids(items)
    ensures exists i :: 0 <= i < |items| && items[i].id == id
    ensures id in StageItems(rows, config, index, allowed, items)
    ensures StageItems(rows, config, index, allowed, items)[id].batchIndex == index
  {
  }

  /** A table that grew by one batch's identities and kept every other row. */
  ghost predicate Grew(rows: map<Identity, Staged>, r: map<Identity, Staged>, ids: set<Identity>) {
    && r.Keys == rows.Keys + ids && rows.Keys !! ids
    && forall id :: id in rows ==> id in r && r[id] == rows[id]
  }

  lemma StageItemsGrew(rows: map<Identity, Staged>, config: Version, index: nat, allowed: map<Key, Version>,
                       items: seq<Upload>)
    requires FreshItems(rows, items)
    ensures Grew(rows, StageItems(rows, config, index, allowed, items), Ids(items)) && |Ids(items)| == |items|
  {
    hide StageItems, FreshItems, Ids;
    IdsCount(rows, items);
    StageItemsKeys(rows, config, index, allowed, items);
    forall id | id in rows ensures StageItems(rows, config, index, allowed, items)[id] == rows[id] {
      StageItemsKept(rows, config, index, allowed, items, id);
    }
  }

  lemma GrewCount(rows: map<Identity, Staged>, r: map<Identity, Staged>, ids: set<Identity>)
    requires Grew(rows, r, ids)
    ensures |r| == |rows| + |ids|
  {
  }

  lemma OfBatchGrew(rows: map<Identity, Staged>, r: map<Identity, Staged>, ids: set<Identity>, index: nat, i: nat)
    requires Grew(rows, r, ids) && forall id :: id in ids ==> r[id].batchIndex == index
    requires forall id :: id in rows ==> rows[id].batchIndex != index
    ensures OfBatch(r, i) == if i == index then ids else OfBatch(rows, i)
  {
  }

  lemma AccountedGrew(batches: map<nat, Batch>, rows: map<Identity, Staged>, r: map<Identity, Staged>,
                      ids: set<Identity>, index: nat, batch: Batch)
    requires Accounted(batches, rows) && index !in batches && Grew(rows, r, ids)
    requires |ids| == batch.itemCount && forall id :: id in ids ==> r[id].batchIndex == index
    ensures Accounted(batches[index := batch], r)
  {
    hide OfBatch;
    forall id | id in r ensures r[id].batchIndex in batches[index := batch] {
      if id in rows { assert rows[id].batchIndex in batches; }
    }
    forall i | i in batches[index := batch] ensures |OfBatch(r, i)| == batches[index := batch][i].itemCount {
      OfBatchGrew(rows, r, ids, index, i);
    }
  }

  lemma AccountedStep(batches: map<nat, Batch>, rows: map<Identity, Staged>, index: nat, request: BatchRequest,
                      config: Version, allowed: map<Key, Version>)
    requires Accounted(batches, rows) && index !in batches && FreshItems(rows, request.items)
    ensures Accounted(batches[index := NewBatch(request)], StageItems(rows, config, index, allowed, request.items))
    ensures |StageItems(rows, config, index, allowed, request.items)| == |rows| + |request.items|
  {
    hide StageItems, FreshItems, Ids, Accounted, Grew;
    var r := StageItems(rows, config, index, allowed, request.items);
    StageItemsGrew(rows, config, index, allowed, request.items);
    GrewCount(rows, r, Ids(request.items));
    forall id | id in Ids(request.items) ensures id in r && r[id].batchIndex == index {
      StagedBatch(rows, config, index, allowed, request.items, id);
    }
    AccountedGrew(batches, rows, r, Ids(request.items), index, NewBatch(request));
  }

  lemma BatchesStep(batches: map<nat, Batch>, index: nat, request: BatchRequest)
    requires BatchesOk(batches) && index !in batches && !KeyReused(batches, request.idempotencyKey)
    ensures BatchesOk(batches[index := NewBatch(request)])
  {
  }

  lemma StagedRowsOk(run: Run, rows: map<Identity, Staged>, currency: string, rules: map<Key, RuleVersion>,
                     allowed: map<Key, Version>, index: nat, request: BatchRequest)
    requires forall t :: t in rows ==> StagedOk(run, currency, rules, t, rows[t])
    requires request.Valid() && FreshItems(rows, request.items) && AllFit(run, currency, rules, request.items)
    requires allowed == map k | k in rules && rules[k].rule.text.enabled :: rules[k].version
    ensures var r := StageItems(rows, run.config, index, allowed, request.items);
            forall t :: t in r ==> StagedOk(run, currency, rules, t, r[t])
  {
    hide StageItems, FreshItems, Ids, StagedRow, StagedOk, ItemFits;
    var r := StageItems(rows, run.config, index, allowed, request.items);
    StageItemsGrew(rows, run.config, index, allowed, request.items);
    forall t | t in r ensures StagedOk(run, currency, rules, t, r[t]) {
      if t !in rows {
        StagedBatch(rows, run.config, index, allowed, request.items, t);
        var i :| 0 <= i < |request.items| && request.items[i].id == t;
        StageItemsAt(rows, run.config, index, allowed, request.items, i);
        StagedRowOk(run, currency, rules, allowed, index, request.items[i]);
      }
    }
  }

  lemma StagedOkSame(run: Run, next: Run, currency: string, rules: map<Key, RuleVersion>, r: map<Identity, Staged>)
    requires forall t :: t in r ==> StagedOk(run, currency, rules, t, r[t])
    requires next.config == run.config && next.accounts == run.accounts && next.toDate == run.toDate
    requires next.mode == run.mode && next.fromDate == run.fromDate
    ensures forall t :: t in r ==> StagedOk(next, currency, rules, t, r[t])
  {
  }

  lemma UploadedRunFits(run: Run, batches: map<nat, Batch>, rows: map<Identity, Staged>, currency: string,
                        rules: map<Key, RuleVersion>, allowed: map<Key, Version>, index: nat, request: BatchRequest,
                        now: int)
    requires RunFits(run, batches, rows, currency, rules) && (run.state == Created || run.state == Uploaded)
    requires index !in batches && !KeyReused(batches, request.idempotencyKey) && request.Valid()
    requires FreshItems(rows, request.items) && AllFit(run, currency, rules, request.items)
    requires allowed == map k | k in rules && rules[k].rule.text.enabled :: rules[k].version
    ensures RunFits(UploadedRun(run, request, now), batches[index := NewBatch(request)],
                    StageItems(rows, run.config, index, allowed, request.items), currency, rules)
  {
    hide StageItems, FreshItems, AllFit, StagedOk, KeyReused, BatchesOk, Accounted;
    var r := StageItems(rows, run.config, index, allowed, request.items);
    BatchesStep(batches, index, request);
    if run.state == Created { EmptyAccounted(); }
    AccountedStep(batches, rows, index, request, run.config, allowed);
    StagedRowsOk(run, rows, currency, rules, allowed, index, request);
    StagedOkSame(run, UploadedRun(run, request, now), currency, rules, r);
  }

  lemma EmptyAccounted()
    ensures Accounted(map[], map[])
  {
  }

  // ---------------------------------------------------------------------
  // The whole step

  lemma OpenRunSerial(runs: map<RunId, Run>, sync: Option<Sync>, id: RunId, next: Run)
    requires SerialInv(runs, sync) && id in runs
    requires runs[id].state != Committed && next.state != Committed && next.syncBefore == runs[id].syncBefore
    ensures SerialInv(runs[id := next], sync)
  {
    assert CommittedRuns(runs[id := next]) == CommittedRuns(runs);
  }

  /** What an accepted upload has checked. */
  ghost predicate UploadPasses(s: State, id: RunId, index: nat, request: BatchRequest) {
    && id in s.runs && s.runs[id].config in s.configs
    && index !in RowsOf(s.batches, id)
    && UploadError(s, id, request).None?
  }

  lemma StagedRunOk(s: State, id: RunId, index: nat, request: BatchRequest, now: int)
    requires id in s.runs && RunOk(s, id) && UploadPasses(s, id, index, request) && request.Valid()
    ensures RunOk(Staging(s, id, index, request, now), id)
  {
    hide RunFits, StageItems, FreshItems, AllFit, KeyReused, ItemsError;
    var run := s.runs[id];
    var t := Staging(s, id, index, request, now);
    ItemsErrorNone(s, id, request.items);
    UploadedRunFits(run, RowsOf(s.batches, id), RowsOf(s.staged, id), s.configs[run.config].basis.currency,
                    RulesOf(s, run.config), Allowed(s, run.config), index, request, now);
    SameRules(s, t, run.config);
  }

  lemma OtherRunOk(s: State, t: State, id: RunId, other: RunId)
    requires RunInv(s) && SameConfigTables(s, t) && other in s.runs && other in t.runs && other != id
    requires t.runs[other] == s.runs[other]
    requires RowsOf(t.batches, other) == RowsOf(s.batches, other)
    requires RowsOf(t.staged, other) == RowsOf(s.staged, other)
    ensures RunOk(t, other)
  {
    hide RunOk, SameConfigTables;
    RunOkSame(s, t, other);
  }

  lemma ReplacedRun(s: State, t: State, id: RunId, next: Run, batches: map<nat, Batch>, rows: map<Identity, Staged>)
    requires RunInv(s) && SameConfigTables(s, t) && id in s.runs
    requires t.runs == s.runs[id := next] && next.idempotencyKey == s.runs[id].idempotencyKey
    requires t.batches == s.batches[id := batches] && t.staged == s.staged[id := rows]
    requires RunOk(t, id)
    ensures RunInv(t)
  {
    hide RunOk, SameConfigTables, DistinctKeys;
    SameKeys(s.runs, id, next);
    forall other | other in t.runs ensures RunOk(t, other) {
      if other != id { OtherRunOk(s, t, id, other); }
    }
  }

  lemma StagingRunInv(s: State, id: RunId, index: nat, request: BatchRequest, now: int)
    requires RunInv(s) && UploadPasses(s, id, index, request) && request.Valid()
    ensures RunInv(Staging(s, id, index, request, now))
  {
    var t := Staging(s, id, index, request, now);
    assert RunOk(s, id) && id in s.runs;
    hide *;
    StagedRunOk(s, id, index, request, now);
    StagingShape(s, id, index, request, now);
    ReplacedRun(s, t, id, t.runs[id], t.batches[id], t.staged[id]);
  }

  lemma StagingShape(s: State, id: RunId, index: nat, request: BatchRequest, now: int)
    requires id in s.runs
    ensures var t := Staging(s, id, index, request, now);
            && SameConfigTables(s, t) && id in t.batches && id in t.staged
            && t.runs == s.runs[id := UploadedRun(s.runs[id], request, now)]
            && id in t.runs && t.runs[id].idempotencyKey == s.runs[id].idempotencyKey
            && t.batches == s.batches[id := t.batches[id]] && t.staged == s.staged[id := t.staged[id]]
            && t.ledger == s.ledger && t.sync == s.sync
  {
  }

  lemma PassesMayUpload(s: State, id: RunId, index: nat, request: BatchRequest)
    requires UploadPasses(s, id, index, request)
    ensures id in s.runs && s.runs[id].state != Committed
  {
  }

  lemma UploadedKeeps(run: Run, request: BatchRequest, now: int)
    ensures var next := UploadedRun(run, request, now);
            next.state == Uploaded && next.syncBefore == run.syncBefore && next.config == run.config
            && next.accounts == run.accounts && next.toDate == run.toDate
  {
  }

  lemma StagingKeepsCore(s: State, id: RunId, index: nat, request: BatchRequest, now: int)
    requires Core(s) && UploadPasses(s, id, index, request) && request.Valid()
    ensures Core(Staging(s, id, index, request, now))
  {
    hide *;
    CoreParts(s);
    PassesMayUpload(s, id, index, request);
    var t := Staging(s, id, index, request, now);
    StagingShape(s, id, index, request, now);
    UploadedKeeps(s.runs[id], request, now);
    StagingRunInv(s, id, index, request, now);
    MoreRunsLive(s, t.runs);
    SameTables(s, t);
    SameLedger(s.(runs := t.runs), t);
    SameConfigInv(s, t);
    CoreFrom(t);
  }

  lemma SameTables(s: State, t: State)
    requires SameConfigTables(s, t)
    ensures SameConfigTables(s.(runs := t.runs), t)
  {
  }

  lemma SameLedger(s: State, t: State)
    requires LiveInv(s) && SameConfigTables(s, t) && s.runs == t.runs && s.ledger == t.ledger && s.sync == t.sync
    ensures LiveInv(t)
  {
    if s.sync.Some? { SameRules(s, t, s.sync.value.config); }
  }
}
