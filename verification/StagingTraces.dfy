/** Accounting of staged rows over traces, and independence from the way a run's
    transactions were split into batches. */
module StagingTraces {
  import opened Model
  import opened ConfigSpec
  import opened RefreshSpec
  import opened Invariant
  import opened ConfigProofs
  import opened StepProofs
  import opened LedgerProofs
  import opened UploadProofs
  import opened CommitProofs
  import opened Traces
  import opened Retries
  import opened History

  // ---------------------------------------------------------------------
  // Counting

  function BelowIndex(staged: map<Identity, Staged>, n: nat): set<Identity> {
    set id | id in staged && staged[id].batchIndex < n
  }

  lemma BelowStep(staged: map<Identity, Staged>, n: nat)
    ensures BelowIndex(staged, n + 1) == BelowIndex(staged, n) + OfBatch(staged, n)
    ensures |BelowIndex(staged, n + 1)| == |BelowIndex(staged, n)| + |OfBatch(staged, n)|
  {
  }

  /** The declared sizes of the first n batches add up to the rows staged under them. */
  lemma {:induction false} ItemTotalCounts(batches: map<nat, Batch>, staged: map<Identity, Staged>, n: nat)
    requires forall i: nat :: i < n ==> i in batches
    requires Accounted(batches, staged)
    ensures ItemTotal(batches, n) == |BelowIndex(staged, n)|
  {
    if n == 0 {
      assert BelowIndex(staged, 0) == {};
    } else {
      ItemTotalCounts(batches, staged, n - 1);
      BelowStep(staged, n - 1);
    }
  }

  lemma CompleteTotal(batches: map<nat, Batch>, staged: map<Identity, Staged>, n: nat)
    requires Complete(batches, n) && Accounted(batches, staged)
    ensures ItemTotal(batches, n) == |staged|
  {
    hide Accounted;
    ItemTotalCounts(batches, staged, n);
    assert BelowIndex(staged, n) == staged.Keys by {
      AllBelow(batches, staged, n);
    }
    assert |staged.Keys| == |staged|;
  }

  lemma AllBelow(batches: map<nat, Batch>, staged: map<Identity, Staged>, n: nat)
    requires Complete(batches, n) && Accounted(batches, staged)
    ensures BelowIndex(staged, n) == staged.Keys
  {
  }

  /** The counters of an open run. */
  ghost predicate Counted(s: State, id: RunId)
    requires id in s.runs
  {
    && s.runs[id].received == |RowsOf(s.batches, id)|
    && s.runs[id].itemCount == |RowsOf(s.staged, id)|
    && Accounted(RowsOf(s.batches, id), RowsOf(s.staged, id))
  }

  lemma OpenRunCounted(s: State, id: RunId)
    requires id in s.runs && s.runs[id].state != Committed && NoneFailed(s.runs) && RunOk(s, id)
    ensures Counted(s, id)
  {
    hide StagedOk, BatchesOk, ManifestOk, RulesOf;
    if s.runs[id].state == Created { EmptyAccounted(); }
  }

  /** An open run's counters equal the batches and the rows it holds. */
  lemma OpenRunAccounting(calls: seq<Call>, id: RunId)
    requires AllValid(calls) && id in After(calls).runs && After(calls).runs[id].state != Committed
    ensures Counted(After(calls), id)
  {
    hide *;
    ReachableInv(calls);
    CoreMeans(After(calls), id);
    OpenRunCounted(After(calls), id);
  }

  /** A commit records exactly the staged rows: the declared batch sizes, the run's
      counter and the number of staged rows are one number. */
  lemma CommitAccounting(calls: seq<Call>, id: RunId, request: CommitRequest, now: int)
    requires AllValid(calls) && CommitPasses(After(calls), id, request)
    ensures var s := After(calls);
            && id in s.runs && Complete(RowsOf(s.batches, id), request.batchCount)
            && CommittedRun(s, id, request, now).itemCount == s.runs[id].itemCount == |RowsOf(s.staged, id)|
            && CommittedRun(s, id, request, now).received == s.runs[id].received == request.batchCount
  {
    var s := After(calls);
    hide *;
    PassesId(s, id, request);
    PassesMeans(s, id, request);
    OpenRunAccounting(calls, id);
    CountedMeans(s, id, request, now);
  }

  lemma CountedMeans(s: State, id: RunId, request: CommitRequest, now: int)
    requires id in s.runs && Counted(s, id) && Complete(RowsOf(s.batches, id), request.batchCount)
    ensures CommittedRun(s, id, request, now).itemCount == s.runs[id].itemCount == |RowsOf(s.staged, id)|
    ensures CommittedRun(s, id, request, now).received == s.runs[id].received == request.batchCount
  {
    hide RowsOf;
    var batches := RowsOf(s.batches, id);
    CompleteTotal(batches, RowsOf(s.staged, id), request.batchCount);
    CompleteCount(batches, request.batchCount);
  }

  /** A full rebuild accounts for every transaction it was sent: the live rows, the
      suppressed targets and the rows outside every window are disjoint, together they
      are the staged rows, and their sizes sum to the run's item count. */
  lemma FullCommitConserves(calls: seq<Call>, id: RunId, request: CommitRequest, now: int)
    requires AllValid(calls) && CommitPasses(After(calls), id, request)
    requires After(calls).runs[id].mode == Full
    ensures id in After(calls).runs
    ensures var s := After(calls);
            var c := CommitmentOf(s, id, now);
            var live := Publish(s.ledger, c).rows.Keys;
            && live + SuppressedOf(c) + ExpiredOf(c) == RowsOf(s.staged, id).Keys
            && live !! SuppressedOf(c) !! ExpiredOf(c)
            && |live| + |SuppressedOf(c)| + |ExpiredOf(c)| == s.runs[id].itemCount
  {
    var s := After(calls);
    var c := CommitmentOf(s, id, now);
    assert c.mode == Full && c.staged == RowsOf(s.staged, id);
    hide *;
    CommitAccounting(calls, id, request, now);
    FullConservation(s.ledger, c);
  }

  // ---------------------------------------------------------------------
  // What a run has staged

  /** The staged rows are exactly the uploaded transactions, each under its batch. */
  ghost predicate StagedFrom(config: Version, allowed: map<Key, Version>, batches: map<nat, Batch>,
                             staged: map<Identity, Staged>)
  {
    && (forall i, j :: i in batches && 0 <= j < |batches[i].checksum| ==>
          var item := batches[i].checksum[j];
          item.id in staged && staged[item.id] == StagedRow(config, i, allowed, item))
    && (forall id :: id in staged ==> staged[id].batchIndex in batches && InBatch(batches[staged[id].batchIndex], id))
  }

  ghost predicate InBatch(batch: Batch, id: Identity) {
    exists j :: 0 <= j < |batch.checksum| && batch.checksum[j].id == id
  }

  ghost predicate Recorded(s: State, id: RunId) {
    id in s.runs && s.runs[id].state != Committed ==>
      StagedFrom(s.runs[id].config, Allowed(s, s.runs[id].config), RowsOf(s.batches, id), RowsOf(s.staged, id))
  }

  lemma EarlierItem(config: Version, allowed: map<Key, Version>, batches: map<nat, Batch>,
                    staged: map<Identity, Staged>, i: nat, j: nat)
    requires StagedFrom(config, allowed, batches, staged) && i in batches && j < |batches[i].checksum|
    ensures var item := batches[i].checksum[j];
            item.id in staged && staged[item.id] == StagedRow(config, i, allowed, item)
  {
  }

  lemma EarlierRow(config: Version, allowed: map<Key, Version>, batches: map<nat, Batch>,
                   staged: map<Identity, Staged>, id: Identity)
    requires StagedFrom(config, allowed, batches, staged) && id in staged
    ensures staged[id].batchIndex in batches && InBatch(batches[staged[id].batchIndex], id)
  {
  }

  lemma GrownItem(config: Version, allowed: map<Key, Version>, batches: map<nat, Batch>,
                  staged: map<Identity, Staged>, index: nat, request: BatchRequest, i: nat, j: nat)
    requires index !in batches && FreshItems(staged, request.items)
    requires i in batches[index := NewBatch(request)]
    requires j < |batches[index := NewBatch(request)][i].checksum|
    requires StagedFrom(config, allowed, batches, staged)
    ensures var item := batches[index := NewBatch(request)][i].checksum[j];
            var r := StageItems(staged, config, index, allowed, request.items);
            item.id in r && r[item.id] == StagedRow(config, i, allowed, item)
  {
    assert NewBatch(request).checksum == request.items;
    hide *;
    if i == index {
      StageItemsAt(staged, config, index, allowed, request.items, j);
    } else {
      StageItemsGrew(staged, config, index, allowed, request.items);
      EarlierItem(config, allowed, batches, staged, i, j);
      GrewKept(staged, StageItems(staged, config, index, allowed, request.items), Ids(request.items),
               batches[i].checksum[j].id);
    }
  }

  lemma GrownRow(config: Version, allowed: map<Key, Version>, batches: map<nat, Batch>,
                 staged: map<Identity, Staged>, index: nat, request: BatchRequest, id: Identity)
    requires index !in batches && FreshItems(staged, request.items)
    requires id in StageItems(staged, config, index, allowed, request.items)
    requires StagedFrom(config, allowed, batches, staged)
    ensures var grown := batches[index := NewBatch(request)];
            var r := StageItems(staged, config, index, allowed, request.items);
            r[id].batchIndex in grown && InBatch(grown[r[id].batchIndex], id)
  {
    hide *;
    var r := StageItems(staged, config, index, allowed, request.items);
    StageItemsGrew(staged, config, index, allowed, request.items);
    if id in staged {
      EarlierRow(config, allowed, batches, staged, id);
      GrewKept(staged, r, Ids(request.items), id);
    } else {
      GrewNew(staged, r, Ids(request.items), id);
      StagedBatch(staged, config, index, allowed, request.items, id);
      InNewBatch(request, id);
    }
  }

  lemma StagedFromStep(config: Version, allowed: map<Key, Version>, batches: map<nat, Batch>,
                       staged: map<Identity, Staged>, index: nat, request: BatchRequest)
    requires index !in batches && FreshItems(staged, request.items)
    requires StagedFrom(config, allowed, batches, staged)
    ensures StagedFrom(config, allowed, batches[index := NewBatch(request)],
                       StageItems(staged, config, index, allowed, request.items))
  {
    hide FreshItems, StageItems, StagedRow, InBatch, NewBatch;
    var grown := batches[index := NewBatch(request)];
    var r := StageItems(staged, config, index, allowed, request.items);
    forall i, j | i in grown && 0 <= j < |grown[i].checksum|
      ensures grown[i].checksum[j].id in r
      ensures r[grown[i].checksum[j].id] == StagedRow(config, i, allowed, grown[i].checksum[j])
    {
      GrownItem(config, allowed, batches, staged, index, request, i, j);
    }
    forall id | id in r ensures r[id].batchIndex in grown && InBatch(grown[r[id].batchIndex], id) {
      GrownRow(config, allowed, batches, staged, index, request, id);
    }
  }

  lemma GrewKept(rows: map<Identity, Staged>, r: map<Identity, Staged>, ids: set<Identity>, id: Identity)
    requires Grew(rows, r, ids) && id in rows
    ensures id in r && r[id] == rows[id]
  {
  }

  lemma GrewNew(rows: map<Identity, Staged>, r: map<Identity, Staged>, ids: set<Identity>, id: Identity)
    requires Grew(rows, r, ids) && id in r && id !in rows
    ensures id in ids
  {
  }

  lemma InNewBatch(request: BatchRequest, id: Identity)
    requires exists i :: 0 <= i < |request.items| && request.items[i].id == id
    ensures InBatch(NewBatch(request), id)
  {
  }

  lemma RecordedKept(s: State, t: State, id: RunId)
    requires Recorded(s, id) && id in s.runs && id in t.runs && t.runs[id] == s.runs[id]
    requires RowsOf(t.batches, id) == RowsOf(s.batches, id) && RowsOf(t.staged, id) == RowsOf(s.staged, id)
    requires Core(s) && Kept(s, t)
    ensures Recorded(t, id)
  {
    var v := s.runs[id].config;
    hide *;
    CoreMeans(s, id);
    KeptMeans(s, t);
    ConfigKept(s, t, v);
    RulesOfStable(s, t, v);
    RecordedIs(s, id);
    RecordedIs(t, id);
    SameAllowed(s, t, v);
  }

  lemma RecordedIs(s: State, id: RunId)
    requires id in s.runs
    ensures Recorded(s, id) <==>
              (s.runs[id].state != Committed ==>
                 StagedFrom(s.runs[id].config, Allowed(s, s.runs[id].config), RowsOf(s.batches, id),
                            RowsOf(s.staged, id)))
  {
  }

  lemma SameAllowed(s: State, t: State, v: Version)
    requires RulesOf(t, v) == RulesOf(s, v)
    ensures Allowed(t, v) == Allowed(s, v)
  {
  }

  lemma NoRowsYet(s: State, id: RunId)
    requires id !in s.runs
    requires RunInv(s)
    ensures RowsOf(s.batches, id) == map[] && RowsOf(s.staged, id) == map[]
  {
  }

  lemma FreshRecorded(t: State, id: RunId)
    requires RowsOf(t.batches, id) == map[] && RowsOf(t.staged, id) == map[]
    ensures Recorded(t, id)
  {
  }

  lemma BeginKeepsRecorded(s: State, key: string, request: BeginRequest, v: Version, id: RunId)
    requires Recorded(s, id)
    requires Core(s) && Kept(s, Began(s, key, request, v))
    ensures Recorded(Began(s, key, request, v), id)
  {
    hide *;
    var t := Began(s, key, request, v);
    BeganShape(s, key, request, v);
    if id in s.runs {
      RecordedKept(s, t, id);
    } else {
      CoreParts(s);
      NoRowsYet(s, id);
      FreshRecorded(t, id);
    }
  }

  lemma StagingTables(s: State, id: RunId, index: nat, request: BatchRequest, now: int)
    requires id in s.runs
    ensures var t := Staging(s, id, index, request, now);
            && id in t.runs && t.runs[id].config == s.runs[id].config
            && RowsOf(t.batches, id) == RowsOf(s.batches, id)[index := NewBatch(request)]
            && RowsOf(t.staged, id) == StageItems(RowsOf(s.staged, id), s.runs[id].config, index,
                                                  Allowed(s, s.runs[id].config), request.items)
            && RulesOf(t, s.runs[id].config) == RulesOf(s, s.runs[id].config)
  {
    hide StageItems, Allowed, NewBatch;
  }

  lemma OwnUpload(s: State, id: RunId, index: nat, request: BatchRequest, now: int)
    requires id in s.runs && s.runs[id].state != Committed && index !in RowsOf(s.batches, id)
    requires FreshItems(RowsOf(s.staged, id), request.items) && Recorded(s, id)
    ensures Recorded(Staging(s, id, index, request, now), id)
  {
    hide *;
    var t := Staging(s, id, index, request, now);
    StagingTables(s, id, index, request, now);
    RecordedIs(s, id);
    RecordedIs(t, id);
    SameAllowed(s, t, s.runs[id].config);
    StagedFromStep(s.runs[id].config, Allowed(s, s.runs[id].config), RowsOf(s.batches, id), RowsOf(s.staged, id),
                   index, request);
  }

  lemma UploadIsFresh(s: State, id: RunId, index: nat, request: BatchRequest)
    requires UploadPasses(s, id, index, request)
    ensures id in s.runs && FreshItems(RowsOf(s.staged, id), request.items)
  {
    hide AllFit, FreshItems, KeyReused, ItemsError, RulesOf;
    ItemsErrorNone(s, id, request.items);
  }

  lemma UploadKeepsRecorded(s: State, run: RunId, index: nat, request: BatchRequest, now: int, id: RunId)
    requires run in s.runs && UploadPasses(s, run, index, request) && Recorded(s, id)
    requires Core(s) && Kept(s, Staging(s, run, index, request, now))
    ensures Recorded(Staging(s, run, index, request, now), id)
  {
    hide *;
    var t := Staging(s, run, index, request, now);
    PassesOpen(s, run, index, request);
    StagingShape(s, run, index, request, now);
    if id == run {
      UploadIsFresh(s, run, index, request);
      OwnUpload(s, run, index, request, now);
    } else if id in s.runs {
      OtherUpload(s, t, run, id);
      RecordedKept(s, t, id);
    } else {
      NoRun(t, id);
    }
  }

  lemma OtherUpload(s: State, t: State, run: RunId, id: RunId)
    requires id != run && run in t.batches && run in t.staged
    requires t.batches == s.batches[run := t.batches[run]] && t.staged == s.staged[run := t.staged[run]]
    ensures RowsOf(t.batches, id) == RowsOf(s.batches, id) && RowsOf(t.staged, id) == RowsOf(s.staged, id)
  {
  }

  lemma OtherCommit(s: State, t: State, run: RunId, id: RunId)
    requires id != run && t.batches == s.batches && t.staged == s.staged - {run}
    ensures RowsOf(t.batches, id) == RowsOf(s.batches, id) && RowsOf(t.staged, id) == RowsOf(s.staged, id)
  {
  }

  lemma CommitKeepsRecorded(s: State, run: RunId, request: CommitRequest, now: int, id: RunId)
    requires run in s.runs && s.runs[run].config in s.configs && Complete(RowsOf(s.batches, run), request.batchCount)
    requires Recorded(s, id)
    requires Core(s) && Kept(s, Committing(s, run, request, now))
    ensures Recorded(Committing(s, run, request, now), id)
  {
    hide *;
    var t := Committing(s, run, request, now);
    CommittingShape(s, run, request, now);
    CommittedRunShape(s, run, request, now);
    if id == run {
      RecordedIs(t, id);
    } else if id in s.runs {
      OtherCommit(s, t, run, id);
      RecordedKept(s, t, id);
    } else {
      NoRun(t, id);
    }
  }

  lemma NoRun(t: State, id: RunId)
    requires id !in t.runs
    ensures Recorded(t, id)
  {
  }

  lemma PutSameTables(s: State, request: ConfigRequest, kind: PutKind, now: int)
    ensures var t := PutState(s, request, kind, now);
            t.runs == s.runs && t.batches == s.batches && t.staged == s.staged
  {
  }

  lemma PutKeepsRecorded(s: State, request: ConfigRequest, kind: PutKind, now: int, id: RunId)
    requires Recorded(s, id)
    requires Core(s) && Kept(s, PutState(s, request, kind, now))
    ensures Recorded(PutState(s, request, kind, now), id)
  {
    hide *;
    var t := PutState(s, request, kind, now);
    PutSameTables(s, request, kind, now);
    if id in s.runs {
      RecordedKept(s, t, id);
    } else {
      NoRun(t, id);
    }
  }

  lemma WriteKeepsRecorded(s: State, w: Write, id: RunId)
    requires Enabled(s, w) && Recorded(s, id)
    requires Core(s)
    ensures Recorded(Written(s, w), id)
  {
    hide Core, Kept, Recorded, UploadPasses, CommitPasses, Began, Staging, Committing, PutState, BeginError,
      RunWithKey, Target, Complete;
    WriteKept(s, w);
    match w
    case NoWrite =>
    case BeginWrite(key, begin, target) => BeginKeepsRecorded(s, key, begin, target, id);
    case UploadWrite(run, index, batch, now) => 
      PassesOpen(s, run, index, batch);
      UploadKeepsRecorded(s, run, index, batch, now, id);
    case CommitWrite(run, commit, now) =>
      PassesId(s, run, commit);
      PassesComplete(s, run, commit);
      CommitKeepsRecorded(s, run, commit, now, id);
    case PutWrite(config, kind, now) => PutKeepsRecorded(s, config, kind, now, id);
  }

  /** In every trace, what an open run has staged is exactly what was uploaded to it. */
  lemma {:induction false} StagedIsUploaded(calls: seq<Call>, id: RunId)
    requires AllValid(calls)
    ensures Recorded(After(calls), id)
  {
    hide Core, Apply, WriteOf, Enabled, Written, Recorded;
    if calls == [] {
      NoRun(EMPTY_STATE, id);
    } else {
      var n := |calls| - 1;
      var s := After(calls[..n]);
      StagedIsUploaded(calls[..n], id);
      ReachableInv(calls[..n]);
      CallIsWrite(s, calls[n]);
      WriteKeepsRecorded(s, WriteOf(s, calls[n]), id);
    }
  }

  // ---------------------------------------------------------------------
  // Independence from the split into batches

  ghost predicate Uploaded(batches: map<nat, Batch>, item: Upload) {
    exists i, j :: i in batches && 0 <= j < |batches[i].checksum| && batches[i].checksum[j] == item
  }

  /** The same rows, perhaps filed under other batches. */
  ghost predicate SameRows(a: map<Identity, Staged>, b: map<Identity, Staged>) {
    && a.Keys == b.Keys
    && forall id :: id in a ==> a[id].(batchIndex := 0) == b[id].(batchIndex := 0)
  }

  lemma StagedFound(config: Version, allowed: map<Key, Version>, a: map<nat, Batch>, x: map<Identity, Staged>,
                    b: map<nat, Batch>, y: map<Identity, Staged>, id: Identity)
    requires StagedFrom(config, allowed, a, x) && StagedFrom(config, allowed, b, y)
    requires forall item :: Uploaded(a, item) ==> Uploaded(b, item)
    requires id in x
    ensures id in y && x[id].(batchIndex := 0) == y[id].(batchIndex := 0)
  {
    var i := x[id].batchIndex;
    var j :| 0 <= j < |a[i].checksum| && a[i].checksum[j].id == id;
    var item := a[i].checksum[j];
    assert Uploaded(a, item);
    assert Uploaded(b, item);
    var p, q :| p in b && 0 <= q < |b[p].checksum| && b[p].checksum[q] == item;
    assert x[id] == StagedRow(config, i, allowed, item) && y[id] == StagedRow(config, p, allowed, item);
  }

  lemma SameUploadsSameRows(config: Version, allowed: map<Key, Version>, a: map<nat, Batch>, x: map<Identity, Staged>,
                            b: map<nat, Batch>, y: map<Identity, Staged>)
    requires StagedFrom(config, allowed, a, x) && StagedFrom(config, allowed, b, y)
    requires forall item :: Uploaded(a, item) <==> Uploaded(b, item)
    ensures SameRows(x, y)
  {
    hide StagedFrom, Uploaded;
    forall id ensures id in x <==> id in y {
      if id in x { StagedFound(config, allowed, a, x, b, y, id); }
      if id in y { StagedFound(config, allowed, b, y, a, x, id); }
    }
    forall id | id in x ensures x[id].(batchIndex := 0) == y[id].(batchIndex := 0) {
      StagedFound(config, allowed, a, x, b, y, id);
    }
  }

  lemma SameRowsAt(a: map<Identity, Staged>, b: map<Identity, Staged>, id: Identity)
    requires SameRows(a, b)
    ensures id in a <==> id in b
    ensures id in a ==>
              && a[id].content == b[id].content && a[id].categories == b[id].categories
              && a[id].config == b[id].config
  {
  }

  lemma SameTargets(a: map<Identity, Staged>, b: map<Identity, Staged>)
    requires SameRows(a, b)
    ensures Targets(a) == Targets(b)
  {
  }

  lemma SameStored(base: Ledger, c: Commitment, d: Commitment, id: Identity)
    requires id in c.staged && id in d.staged && d == c.(staged := d.staged)
    requires c.staged[id].content == d.staged[id].content
    ensures StoredRow(c, id, base.rows) == StoredRow(d, id, base.rows)
  {
  }

  lemma SameRowsMerge(base: Ledger, c: Commitment, d: Commitment)
    requires SameRows(c.staged, d.staged) && d == c.(staged := d.staged)
    ensures Merged(base, c) == Merged(base, d)
  {
    hide Merged, SameRows, Targets, StoredRow;
    SameTargets(c.staged, d.staged);
    var m, n := Merged(base, c), Merged(base, d);
    forall id
      ensures (id in m.rows <==> id in n.rows) && (id in m.rows ==> m.rows[id] == n.rows[id])
    {
      SameRowsAt(c.staged, d.staged, id);
      MergedRow(base, c, id);
      MergedRow(base, d, id);
      if id in c.staged { SameStored(base, c, d, id); }
    }
    forall lk
      ensures (lk in m.links <==> lk in n.links) && (lk in m.links ==> m.links[lk] == n.links[lk])
    {
      SameRowsAt(c.staged, d.staged, lk.id);
      MergedLink(base, c, lk);
      MergedLink(base, d, lk);
    }
    assert m.rows == n.rows && m.links == n.links;
  }

  lemma SameRowsPublish(l: Ledger, c: Commitment, d: Commitment)
    requires SameRows(c.staged, d.staged) && d == c.(staged := d.staged)
    ensures Publish(l, c) == Publish(l, d)
  {
    hide Merged;
    SameRowsMerge(MergeBase(l, c), c, d);
    assert Pruned(Merged(MergeBase(l, c), c), c) == Pruned(Merged(MergeBase(l, c), c), d);
  }

  /** Two runs of possibly different histories that would publish for the same
      target over the same live data. */
  ghost predicate SameTarget(s: State, t: State, id: RunId) {
    && id in s.runs && id in t.runs && s.runs[id].state != Committed && t.runs[id].state != Committed
    && s.runs[id].mode == t.runs[id].mode && s.runs[id].config == t.runs[id].config
    && s.runs[id].toDate == t.runs[id].toDate
    && RulesOf(s, s.runs[id].config) == RulesOf(t, s.runs[id].config)
    && s.ledger == t.ledger
  }

  /** Splitting the same transactions into other batches, in any upload order,
      gives the same live rows and links. */
  lemma SplitIndependence(x: seq<Call>, y: seq<Call>, id: RunId, now: int)
    requires AllValid(x) && AllValid(y) && SameTarget(After(x), After(y), id)
    requires forall item :: Uploaded(RowsOf(After(x).batches, id), item) <==>
                            Uploaded(RowsOf(After(y).batches, id), item)
    ensures var s, t := After(x), After(y);
            && Publish(s.ledger, CommitmentOf(s, id, now)) == Publish(t.ledger, CommitmentOf(t, id, now))
            && s.runs[id].itemCount == t.runs[id].itemCount
            && (ReplacementsValid(RowsOf(s.staged, id), s.ledger.rows)
                <==> ReplacementsValid(RowsOf(t.staged, id), t.ledger.rows))
  {
    var s, t := After(x), After(y);
    hide Core, After, RulesOf, StagedFrom, Uploaded, Publish, Recorded, RowsOf, Counted, SameRows, ReplacementsValid;
    StagedIsUploaded(x, id);
    StagedIsUploaded(y, id);
    RecordedIs(s, id);
    RecordedIs(t, id);
    SameAllowed(s, t, s.runs[id].config);
    SameUploadsSameRows(s.runs[id].config, Allowed(s, s.runs[id].config), RowsOf(s.batches, id), RowsOf(s.staged, id),
                        RowsOf(t.batches, id), RowsOf(t.staged, id));
    SameRowsPublish(s.ledger, CommitmentOf(s, id, now), CommitmentOf(t, id, now));
    SameCounts(x, y, id);
    EquallyValid(RowsOf(s.staged, id), RowsOf(t.staged, id), s.ledger.rows);
  }

  lemma EquallyValid(a: map<Identity, Staged>, b: map<Identity, Staged>, rows: map<Identity, Row>)
    requires SameRows(a, b)
    ensures ReplacementsValid(a, rows) <==> ReplacementsValid(b, rows)
  {
  }

  lemma SameCounts(x: seq<Call>, y: seq<Call>, id: RunId)
    requires AllValid(x) && AllValid(y) && id in After(x).runs && id in After(y).runs
    requires After(x).runs[id].state != Committed && After(y).runs[id].state != Committed
    requires SameRows(RowsOf(After(x).staged, id), RowsOf(After(y).staged, id))
    ensures After(x).runs[id].itemCount == After(y).runs[id].itemCount
  {
    hide After, RowsOf, Accounted;
    var a, b := RowsOf(After(x).staged, id), RowsOf(After(y).staged, id);
    OpenRunAccounting(x, id);
    OpenRunAccounting(y, id);
    assert |a.Keys| == |a| && |b.Keys| == |b|;
  }

  // ---------------------------------------------------------------------
  // The two commits

  /** Tables that differ only in what was uploaded to one run. */
  ghost predicate SameButUploads(s: State, t: State, id: RunId) {
    && SameConfigTables(s, t) && t.ledger == s.ledger && t.sync == s.sync
    && id in s.runs && id in t.runs && SameManifest(s.runs[id], t.runs[id])
    && t.runs == s.runs[id := t.runs[id]]
  }

  lemma SameButUploadsMeans(s: State, t: State, id: RunId)
    requires SameButUploads(s, t, id)
    ensures id in s.runs && id in t.runs && t.runs[id].config == s.runs[id].config && t.runs[id].mode == s.runs[id].mode
    ensures t.runs[id].toDate == s.runs[id].toDate && t.runs[id].accounts == s.runs[id].accounts
    ensures t.runs[id].syncBefore == s.runs[id].syncBefore
    ensures SameConfigTables(s, t) && t.configs == s.configs && t.ledger == s.ledger && t.sync == s.sync
    ensures SameAccountsAsLastRun(t, t.runs[id].accounts) <==> SameAccountsAsLastRun(s, s.runs[id].accounts)
  {
  }

  /** An open run whose batch list is complete may be committed as far as its state goes. */
  lemma OpenStateOk(s: State, id: RunId, n: nat)
    requires id in s.runs && s.runs[id].state != Committed && Complete(RowsOf(s.batches, id), n)
    requires NoneFailed(s.runs)
    requires RunOk(s, id)
    ensures s.runs[id].state.Uploaded? || (s.runs[id].state.Created? && n == 0)
  {
    hide StagedOk, BatchesOk, ManifestOk, Accounted, RulesOf;
    var batches := RowsOf(s.batches, id);
    assert ProgressOk(s.runs[id], batches, RowsOf(s.staged, id));
    assert n > 0 ==> 0 in batches;
  }

  lemma SplitTargets(s: State, t: State, id: RunId)
    requires SameButUploads(s, t, id) && s.runs[id].state != Committed && t.runs[id].state != Committed
    ensures SameTarget(s, t, id)
  {
    SameRules(s, t, s.runs[id].config);
    hide RulesOf;
  }

  lemma AcceptedWith(s: State, id: RunId, request: CommitRequest)
    requires id in s.runs && s.runs[id].config in s.configs && s.runs[id].state != Committed
    ensures CommitPasses(s, id, request) <==> CommitError(s, id, request).None?
  {
    hide CommitError;
  }

  /** Each split's own commit is accepted exactly when the other's is. */
  lemma SplitAcceptance(x: seq<Call>, y: seq<Call>, id: RunId, a: CommitRequest, b: CommitRequest)
    requires AllValid(x) && AllValid(y) && SameButUploads(After(x), After(y), id)
    requires After(x).runs[id].state != Committed && After(y).runs[id].state != Committed
    requires forall item :: Uploaded(RowsOf(After(x).batches, id), item) <==>
                            Uploaded(RowsOf(After(y).batches, id), item)
    requires Complete(RowsOf(After(x).batches, id), a.batchCount)
    requires Complete(RowsOf(After(y).batches, id), b.batchCount)
    requires a.accounts == b.accounts
    ensures CommitPasses(After(x), id, a) <==> CommitPasses(After(y), id, b)
  {
    var s, t := After(x), After(y);
    hide *;
    ReachableInv(x);
    ReachableInv(y);
    SameButUploadsMeans(s, t, id);
    SplitTargets(s, t, id);
    CoreMeans(s, id);
    CoreMeans(t, id);
    OpenStateOk(s, id, a.batchCount);
    OpenStateOk(t, id, b.batchCount);
    SplitIndependence(x, y, id, 0);
    AcceptedWith(s, id, a);
    AcceptedWith(t, id, b);
    CommitAcceptance(s, id, a);
    CommitAcceptance(t, id, b);
  }

  /** Splitting the same transactions differently and committing each split with its own
      batch count: both commits are accepted or both refused, and when accepted they end
      with the same live data, configuration and sync row and record the same item count. */
  lemma SplitCommits(x: seq<Call>, y: seq<Call>, id: RunId, a: CommitRequest, b: CommitRequest, now: int)
    requires AllValid(x) && AllValid(y) && SameButUploads(After(x), After(y), id)
    requires After(x).runs[id].state != Committed && After(y).runs[id].state != Committed
    requires forall item :: Uploaded(RowsOf(After(x).batches, id), item) <==>
                            Uploaded(RowsOf(After(y).batches, id), item)
    requires Complete(RowsOf(After(x).batches, id), a.batchCount)
    requires Complete(RowsOf(After(y).batches, id), b.batchCount)
    requires a.accounts == b.accounts
    ensures CommitPasses(After(x), id, a) <==> CommitPasses(After(y), id, b)
    ensures CommitPasses(After(x), id, a) ==>
              var s := Apply(After(x), CommitCall(id, a, now)).state;
              var t := Apply(After(y), CommitCall(id, b, now)).state;
              && t.ledger == s.ledger && t.sync == s.sync && SameConfigTables(s, t)
              && id in s.runs && id in t.runs && t.runs[id].itemCount == s.runs[id].itemCount
  {
    var s, t := After(x), After(y);
    hide *;
    SplitAcceptance(x, y, id, a, b);
    if CommitPasses(s, id, a) {
      SameButUploadsMeans(s, t, id);
      SplitTargets(s, t, id);
      SplitIndependence(x, y, id, now);
      AppliedCommit(s, id, a, now);
      AppliedCommit(t, id, b, now);
      CommittingShape(s, id, a, now);
      CommittingShape(t, id, b, now);
      CommitAccounting(x, id, a, now);
      CommitAccounting(y, id, b, now);
      SamePublication(s, t, s.runs[id].config);
      ConfigTablesFrom(s, t, Committing(s, id, a, now), Committing(t, id, b, now));
    }
  }

  lemma SamePublication(s: State, t: State, v: Version)
    requires SameConfigTables(s, t) && v in s.configs
    ensures v in t.configs && PublishedCategories(t, v) == PublishedCategories(s, v)
    ensures t.rules == s.rules && t.configRules == s.configRules
  {
    hide Present;
  }

  lemma ConfigTablesFrom(s: State, t: State, u: State, w: State)
    requires t.rules == s.rules && t.configRules == s.configRules
    requires u.categories == w.categories && u.configs == w.configs
    requires u.rules == s.rules && w.rules == t.rules
    requires u.configRules == s.configRules && w.configRules == t.configRules
    ensures SameConfigTables(u, w)
  {
  }
}
