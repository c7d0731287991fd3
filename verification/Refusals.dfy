/** Why an upload or a commit is refused: the first check that fails, in terms of the
    tables and the request. */
module Refusals {
  import opened Options
  import opened Model
  import opened ConfigSpec
  import opened RefreshSpec
  import opened Invariant
  import opened UploadProofs
  import opened CommitProofs
  import opened Traces
  import opened Answers

  // ---------------------------------------------------------------------
  // Upload

  /** The category is linked and enabled in the version. */
  ghost predicate Offers(s: State, v: Version, k: Key) {
    exists rule :: Links(s, v, k, rule) && rule.rule.text.enabled
  }

  /** The first failing check of one transaction. */
  ghost function Checks(s: State, id: RunId, item: Upload, repeated: bool, unknown: bool): Option<Error>
    requires id in s.runs && s.runs[id].config in s.configs
  {
    var run := s.runs[id];
    if repeated then Some(DuplicateTransaction)
    else if item.id.account !in run.accounts then Some(UnexpectedAccount)
    else if item.content.currency != s.configs[run.config].basis.currency then Some(CurrencyMismatch)
    else if run.toDate < item.content.date then Some(OutsideRunWindow)
    else if run.mode == Full && item.content.date < run.fromDate then Some(OutsideRunWindow)
    else if unknown then Some(UnknownCategory)
    else if id in s.staged && item.id in s.staged[id] then Some(DuplicateTransaction)
    else None
  }

  /** What is wrong with the i-th transaction of a batch, given the ones before it. */
  ghost function Fault(s: State, id: RunId, items: seq<Upload>, i: nat): Option<Error>
    requires id in s.runs && s.runs[id].config in s.configs && i < |items|
  {
    Checks(s, id, items[i], exists j :: 0 <= j < i && items[j].id == items[i].id,
           exists k :: k in items[i].categories && !Offers(s, s.runs[id].config, k))
  }

  lemma AllowedAreOffers(s: State, v: Version)
    requires ConfigInv(s) && v in s.configs
    ensures forall k :: k in Allowed(s, v) <==> Offers(s, v, k)
  {
    RulesAreLinks(s, v);
    hide ConfigInv, RulesOf, Links;
    var rules := RulesOf(s, v);
    forall k ensures k in Allowed(s, v) <==> Offers(s, v, k) {
      if k in rules { assert Links(s, v, k, rules[k]); }
    }
  }

  lemma SeenBefore(items: seq<Upload>, i: nat)
    requires i < |items|
    ensures items[i].id in Ids(items[..i]) <==> exists j :: 0 <= j < i && items[j].id == items[i].id
  {
    IdsHas(items[..i], items[i].id);
    if j :| 0 <= j < i && items[j].id == items[i].id { assert items[..i][j] == items[j]; }
  }

  lemma NotOffered(s: State, v: Version, categories: set<Key>)
    requires ConfigInv(s) && v in s.configs
    ensures !(categories <= Allowed(s, v).Keys) <==> exists k :: k in categories && !Offers(s, v, k)
  {
    AllowedAreOffers(s, v);
    hide ConfigInv, Allowed, Offers;
  }

  lemma FaultIsError(s: State, id: RunId, items: seq<Upload>, i: nat)
    requires ConfigInv(s) && id in s.runs && s.runs[id].config in s.configs && i < |items|
    ensures ItemError(s, id, Ids(items[..i]), items[i]) == Fault(s, id, items, i)
  {
    hide *;
    var seen := exists j :: 0 <= j < i && items[j].id == items[i].id;
    var unknown := exists k :: k in items[i].categories && !Offers(s, s.runs[id].config, k);
    NotOffered(s, s.runs[id].config, items[i].categories);
    SeenBefore(items, i);
    ItemErrorIs(s, id, Ids(items[..i]), items[i], seen, unknown);
    FaultIs(s, id, items, i, seen, unknown);
  }

  lemma ItemErrorIs(s: State, id: RunId, seen: set<Identity>, item: Upload, repeated: bool, unknown: bool)
    requires id in s.runs && s.runs[id].config in s.configs
    requires repeated <==> item.id in seen
    requires unknown <==> !(item.categories <= Allowed(s, s.runs[id].config).Keys)
    ensures ItemError(s, id, seen, item) == Checks(s, id, item, repeated, unknown)
  {
    hide Allowed;
  }

  lemma FaultIs(s: State, id: RunId, items: seq<Upload>, i: nat, repeated: bool, unknown: bool)
    requires id in s.runs && s.runs[id].config in s.configs && i < |items|
    requires repeated <==> exists j :: 0 <= j < i && items[j].id == items[i].id
    requires unknown <==> exists k :: k in items[i].categories && !Offers(s, s.runs[id].config, k)
    ensures Fault(s, id, items, i) == Checks(s, id, items[i], repeated, unknown)
  {
    hide Offers;
  }

  lemma FaultPrefix(s: State, id: RunId, items: seq<Upload>, n: nat, i: nat)
    requires id in s.runs && s.runs[id].config in s.configs && i < n <= |items|
    ensures Fault(s, id, items[..n], i) == Fault(s, id, items, i)
  {
    hide Offers;
    assert forall j :: 0 <= j <= i ==> items[..n][j] == items[j];
  }

  /** The first transaction that has a fault decides. */
  ghost predicate FirstFault(s: State, id: RunId, items: seq<Upload>, error: Option<Error>)
    requires id in s.runs && s.runs[id].config in s.configs
  {
    match error
    case None => forall i: nat :: i < |items| ==> Fault(s, id, items, i).None?
    case Some(_) =>
      exists i: nat :: i < |items| && Fault(s, id, items, i) == error
                       && forall j: nat :: j < i ==> Fault(s, id, items, j).None?
  }

  lemma {:induction false} ItemsErrorIsFirst(s: State, id: RunId, items: seq<Upload>)
    requires ConfigInv(s) && id in s.runs && s.runs[id].config in s.configs
    ensures FirstFault(s, id, items, ItemsError(s, id, items))
  {
    hide ConfigInv, ItemError, Fault;
    if items != [] {
      var n := |items| - 1;
      ItemsErrorIsFirst(s, id, items[..n]);
      FaultIsError(s, id, items, n);
      forall i: nat | i < n ensures Fault(s, id, items[..n], i) == Fault(s, id, items, i) {
        FaultPrefix(s, id, items, n, i);
      }
    }
  }

  /** Another batch of the run has this idempotency key. */
  ghost predicate KeyTaken(s: State, id: RunId, key: string) {
    exists i :: Received(s, id, i) && s.batches[id][i].idempotencyKey == key
  }

  lemma UploadOutcome(s: State, call: Call)
    requires call.UploadCall? && (call.run in s.runs ==> s.runs[call.run].config in s.configs)
    ensures var o := Apply(s, call);
            if call.index < 0 then o == Outcome(s, Rejected(InvalidBatchIndex))
            else if |call.batch.items| > call.limits.maxItems || call.bytes > call.limits.maxBytes then
              o == Outcome(s, Rejected(BatchTooLarge))
            else if call.run !in s.runs then o == Outcome(s, Rejected(RunNotFound))
            else if Received(s, call.run, call.index) then
              if s.batches[call.run][call.index].request != call.batch
                 || s.batches[call.run][call.index].checksum != call.batch.items
              then o == Outcome(s, Rejected(BatchContentConflict))
              else o.reply.Stored? && o.state == s
            else if KeyTaken(s, call.run, call.batch.idempotencyKey) then
              o == Outcome(s, Rejected(BatchIdempotencyConflict))
            else if s.runs[call.run].state != Created && s.runs[call.run].state != Uploaded then
              o == Outcome(s, Rejected(RunNotUploadable))
            else
              var error := ItemsError(s, call.run, call.batch.items);
              if error.Some? then o == Outcome(s, Rejected(error.value)) else o.reply.Stored? && !o.reply.replayed
  {
    hide ItemsError, Staging;
    assert KeyReused(RowsOf(s.batches, call.run), call.batch.idempotencyKey) <==>
             KeyTaken(s, call.run, call.batch.idempotencyKey) by {
      if KeyReused(RowsOf(s.batches, call.run), call.batch.idempotencyKey) {
        var i :| i in RowsOf(s.batches, call.run)
                 && RowsOf(s.batches, call.run)[i].idempotencyKey == call.batch.idempotencyKey;
        assert Received(s, call.run, i);
      }
    }
  }

  /** In every trace an upload is refused for the first of these reasons: a bad index, its
      size, no such run, other content at the index, a reused batch key, a run that takes
      no more batches, or the first faulty transaction; otherwise it is stored. */
  lemma UploadRefusal(calls: seq<Call>, upload: Call)
    requires AllValid(calls) && upload.UploadCall?
    ensures upload.run in After(calls).runs ==> After(calls).runs[upload.run].config in After(calls).configs
    ensures var s := After(calls);
            var o := Apply(s, upload);
            var id, index, batch := upload.run, upload.index, upload.batch;
            if index < 0 then o == Outcome(s, Rejected(InvalidBatchIndex))
            else if |batch.items| > upload.limits.maxItems || upload.bytes > upload.limits.maxBytes then
              o == Outcome(s, Rejected(BatchTooLarge))
            else if id !in s.runs then o == Outcome(s, Rejected(RunNotFound))
            else if Received(s, id, index) then
              if s.batches[id][index].request != batch then o == Outcome(s, Rejected(BatchContentConflict))
              else o.reply.Stored? && o.state == s
            else if KeyTaken(s, id, batch.idempotencyKey) then
              o == Outcome(s, Rejected(BatchIdempotencyConflict))
            else if s.runs[id].state == Committed then o == Outcome(s, Rejected(RunNotUploadable))
            else if o.reply.Rejected? then o.state == s && FirstFault(s, id, batch.items, Some(o.reply.error))
            else o.reply.Stored? && !o.reply.replayed && FirstFault(s, id, batch.items, None)
  {
    var s := After(calls);
    hide *;
    ReachableInv(calls);
    if upload.run in s.runs {
      CoreMeans(s, upload.run);
      OpenState(s, upload.run);
      ItemsErrorIsFirst(s, upload.run, upload.batch.items);
      DeclaredHolds(calls);
      if Received(s, upload.run, upload.index) { DeclaredIndex(s, upload.run, upload.index); }
    }
    UploadOutcome(s, upload);
  }

  lemma OpenState(s: State, id: RunId)
    requires id in s.runs && NoneFailed(s.runs) && RunOk(s, id)
    ensures s.runs[id].state == Created || s.runs[id].state == Uploaded || s.runs[id].state == Committed
  {
    hide StagedOk, BatchesOk, ManifestOk, Accounted, RulesOf, Declared;
  }

  lemma DeclaredIndex(s: State, id: RunId, index: int)
    requires AllDeclared(s.batches) && Received(s, id, index)
    ensures s.batches[id][index].checksum == s.batches[id][index].request.items
  {
  }

  // ---------------------------------------------------------------------
  // Commit

  /** What a replaced pending row must be: named by a posted row, pending wherever it is,
      and named once. */
  ghost predicate ReplacesPending(staged: map<Identity, Staged>, rows: map<Identity, Row>) {
    && (forall p :: p in staged && staged[p].content.pendingSource.Some? ==>
          var r := Identity(p.account, staged[p].content.pendingSource.value);
          && !staged[p].content.pending && r != p
          && (r in staged ==> staged[r].content.pending) && (r in rows ==> rows[r].content.pending))
    && (forall p, q | p in staged && q in staged ::
          p != q && p.account == q.account && staged[p].content.pendingSource.Some? ==>
            staged[p].content.pendingSource != staged[q].content.pendingSource)
  }

  lemma ReplacesIs(staged: map<Identity, Staged>, rows: map<Identity, Row>)
    ensures ReplacementsValid(staged, rows) <==> ReplacesPending(staged, rows)
  {
    if ReplacementsValid(staged, rows) {
      forall p, q | p in staged && q in staged && p != q && p.account == q.account
                    && staged[p].content.pendingSource.Some?
        ensures staged[p].content.pendingSource != staged[q].content.pendingSource
      {
        assert TargetOf(p, staged[p].content).Some?;
      }
      forall p | p in staged && staged[p].content.pendingSource.Some?
        ensures var r := Identity(p.account, staged[p].content.pendingSource.value);
                && !staged[p].content.pending && r != p
                && (r in staged ==> staged[r].content.pending) && (r in rows ==> rows[r].content.pending)
      {
        assert ReplacementValid(staged, rows, p);
      }
    }
    if ReplacesPending(staged, rows) {
      forall a, b | a in staged && b in staged && TargetOf(a, staged[a].content).Some?
                    && TargetOf(a, staged[a].content) == TargetOf(b, staged[b].content)
        ensures a == b
      {
        assert a.account == b.account;
      }
      forall id | id in staged ensures ReplacementValid(staged, rows, id) {
      }
    }
  }

  /** The batches received are exactly those numbered 0 to n-1. */
  ghost predicate AllReceived(s: State, id: RunId, n: nat) {
    forall i: int :: Received(s, id, i) <==> 0 <= i < n
  }

  lemma AllReceivedIs(s: State, id: RunId, n: nat)
    ensures AllReceived(s, id, n) <==> Complete(RowsOf(s.batches, id), n)
  {
    if AllReceived(s, id, n) {
      forall i: nat ensures i in RowsOf(s.batches, id) <==> i < n {
        assert Received(s, id, i) <==> 0 <= i < n;
      }
    }
    if Complete(RowsOf(s.batches, id), n) {
      forall i: int ensures Received(s, id, i) <==> 0 <= i < n {
        ReceivedIs(s, id, i);
      }
    }
  }

  lemma TargetIff(s: State, mode: Mode, v: Version)
    requires VersionsOk(s.configs)
    ensures Target(s.configs, mode) == Some(v) <==> IsTarget(s, mode, v)
  {
  }

  lemma CommitOutcome(s: State, id: RunId, commit: CommitRequest, now: int)
    requires id in s.runs ==> s.runs[id].config in s.configs
    ensures var o := Apply(s, CommitCall(id, commit, now));
            if id !in s.runs then o == Outcome(s, Rejected(RunNotFound))
            else if s.runs[id].state == Committed then
              if s.runs[id].expectedBatchCount == Some(commit.batchCount)
                 && s.runs[id].completedAccounts == Some(commit.accounts)
              then o.reply.Published? && o.state == s
              else o == Outcome(s, Rejected(CommitReplayConflict))
            else
              var error := CommitError(s, id, commit);
              if error.Some? then o == Outcome(s, Rejected(error.value)) else o.reply.Published?
  {
    hide CommitError, Committing;
  }

  /** What stops the commit of an open run. */
  ghost function Obstacle(s: State, id: RunId, commit: CommitRequest): Option<Error>
    requires id in s.runs
  {
    var run := s.runs[id];
    if run.state == Created && commit.batchCount > 0 then Some(RunNotCommittable)
    else if HasStatus(s, run.config, Superseded) then Some(ConfigVersionConflict)
    else if run.mode == Incremental && !HasStatus(s, run.config, Active) then Some(ConfigVersionConflict)
    else if run.mode == Incremental && exists w :: HasStatus(s, w, Pending) then Some(FullRebuildRequired)
    else if !IsTarget(s, run.mode, run.config) then Some(ConfigVersionConflict)
    else if !AllReceived(s, id, commit.batchCount) then Some(MissingBatch)
    else if commit.accounts != run.accounts then Some(CompletedAccountsMismatch)
    else if run.syncBefore != (match s.sync { case None => None case Some(sync) => Some(sync.revision) }) then
      Some(RunSuperseded)
    else if run.mode == Incremental
            && !(s.sync.Some? && s.sync.value.lastRun in s.runs
                 && s.runs[s.sync.value.lastRun].accounts == run.accounts) then Some(AccountScopeChanged)
    else if !ReplacesPending(if id in s.staged then s.staged[id] else map[], s.ledger.rows) then
      Some(PendingReplacementConflict)
    else None
  }

  lemma ObstacleIs(s: State, id: RunId, commit: CommitRequest)
    requires id in s.runs && s.runs[id].config in s.configs && VersionsOk(s.configs)
    requires s.runs[id].state == Created || s.runs[id].state == Uploaded
    ensures CommitError(s, id, commit) == Obstacle(s, id, commit)
  {
    PendingExists(s);
    TargetIff(s, s.runs[id].mode, s.runs[id].config);
    AllReceivedIs(s, id, commit.batchCount);
    ReplacesIs(RowsOf(s.staged, id), s.ledger.rows);
    hide VersionsOk, Target, IsTarget, AllReceived, Complete, ReplacementsValid, ReplacesPending, Current;
  }

  /** In every trace a commit is refused for the first obstacle in its way, and otherwise
      publishes; a committed run answers again only to the same completion data. */
  lemma CommitRefusal(calls: seq<Call>, id: RunId, commit: CommitRequest, now: int)
    requires AllValid(calls)
    ensures var s := After(calls);
            var o := Apply(s, CommitCall(id, commit, now));
            if id !in s.runs then o == Outcome(s, Rejected(RunNotFound))
            else if s.runs[id].state == Committed then
              if s.runs[id].expectedBatchCount == Some(commit.batchCount)
                 && s.runs[id].completedAccounts == Some(commit.accounts)
              then o.reply.Published? && o.state == s
              else o == Outcome(s, Rejected(CommitReplayConflict))
            else match Obstacle(s, id, commit)
                 case None => o.reply.Published?
                 case Some(error) => o == Outcome(s, Rejected(error))
  {
    var s := After(calls);
    hide *;
    ReachableInv(calls);
    if id in s.runs {
      CoreMeans(s, id);
      OpenState(s, id);
      if s.runs[id].state != Committed { ObstacleIs(s, id, commit); }
    }
    CommitOutcome(s, id, commit, now);
  }

  /** So a published run replaced pending rows only, each for one posted row. */
  lemma OnlyPendingReplaced(calls: seq<Call>, id: RunId, commit: CommitRequest, now: int)
    requires AllValid(calls) && id in After(calls).runs && After(calls).runs[id].state != Committed
    requires Apply(After(calls), CommitCall(id, commit, now)).reply.Published?
    ensures var s := After(calls);
            ReplacesPending(if id in s.staged then s.staged[id] else map[], s.ledger.rows)
  {
    hide *;
    CommitRefusal(calls, id, commit, now);
    NoObstacle(After(calls), id, commit);
  }

  lemma NoObstacle(s: State, id: RunId, commit: CommitRequest)
    requires id in s.runs && Obstacle(s, id, commit).None?
    ensures ReplacesPending(if id in s.staged then s.staged[id] else map[], s.ledger.rows)
  {
    hide HasStatus, IsTarget, AllReceived, ReplacesPending;
  }
}
