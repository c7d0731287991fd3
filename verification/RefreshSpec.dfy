/** What the refresh protocol computes, as functions of the tables. */
module RefreshSpec {
  import opened Options
  import opened Model
  import opened ConfigSpec

  datatype Reply =
    | Rejected(error: Error)
    | Begun(run: RunId, state: RunState, mode: Mode, config: Version, rules: map<Key, RuleVersion>)
    | Stored(run: RunId, index: int, itemCount: nat, replayed: bool)
    | Published(run: RunId, receipt: Option<Receipt>, batchCount: nat, itemCount: nat)
    | Configured(kind: PutKind)

  /** The receipt digest: run, checksum chain and commit instant. */
  datatype Receipt = Receipt(run: RunId, checksum: seq<seq<Upload>>, committedAt: int)

  datatype Outcome = Outcome(state: State, reply: Reply)

  ghost function Reject(s: State, error: Error): Outcome {
    Outcome(s, Rejected(error))
  }

  // ---------------------------------------------------------------------
  // Begin

  ghost function RunWithKey(runs: map<RunId, Run>, key: string): (r: Option<RunId>)
    ensures r.Some? ==> r.value in runs && runs[r.value].idempotencyKey == key
    ensures r.None? ==> forall id :: id in runs ==> runs[id].idempotencyKey != key
  {
    if exists id :: id in runs && runs[id].idempotencyKey == key then
      var id :| id in runs && runs[id].idempotencyKey == key;
      Some(id)
    else None
  }

  function WindowStart(toDate: int, lookback: int): int {
    toDate - (lookback - 1)
  }

  /** A full rebuild starts no later than the longest enabled window. */
  ghost predicate CoversWindows(rules: map<Key, RuleVersion>, fromDate: int, toDate: int) {
    && fromDate <= toDate
    && forall k :: k in rules && rules[k].rule.text.enabled ==>
         fromDate <= WindowStart(toDate, rules[k].rule.text.lookback)
  }

  ghost function Target(configs: map<Version, Config>, mode: Mode): Option<Version> {
    var pending := Current(configs, Pending);
    if mode == Full && pending.Some? then pending else Current(configs, Active)
  }

  ghost function BegunReply(s: State, id: RunId): Reply
    requires id in s.runs
  {
    Begun(id, s.runs[id].state, s.runs[id].mode, s.runs[id].config, RulesOf(s, s.runs[id].config))
  }

  ghost predicate SameAccountsAsLastRun(s: State, accounts: set<string>) {
    s.sync.Some? && s.sync.value.lastRun in s.runs && s.runs[s.sync.value.lastRun].accounts == accounts
  }

  function NewRun(s: State, key: string, request: BeginRequest, target: Version): Run {
    Run(key, request, request.mode, Created, target, request.fromDate, request.toDate, request.accounts,
        if s.sync.Some? then Some(s.sync.value.revision) else None,
        None, 0, 0, None, None, None, None, None)
  }

  ghost function BeginError(s: State, request: BeginRequest): Option<Error> {
    var target := Target(s.configs, request.mode);
    if Current(s.configs, Active).None? then Some(ConfigRequired)
    else if request.mode == Incremental && Current(s.configs, Pending).Some? then Some(FullRebuildRequired)
    else if request.mode == Full && !CoversWindows(RulesOf(s, target.value), request.fromDate, request.toDate) then
      Some(FullWindowIncomplete)
    else if request.mode == Incremental && s.sync.None? then Some(FullRebuildRequired)
    else if request.mode == Incremental && s.sync.value.lastRun in s.runs
            && !SameAccountsAsLastRun(s, request.accounts) then
      Some(AccountScopeChanged)
    else None
  }

  ghost function Began(s: State, key: string, request: BeginRequest, target: Version): State {
    s.(runs := s.runs[Next(s.runs.Keys) := NewRun(s, key, request, target)])
  }

  ghost function Begin(s: State, key: string, request: BeginRequest): Outcome {
    var existing := RunWithKey(s.runs, key);
    if existing.Some? then
      if s.runs[existing.value].request != request then Reject(s, IdempotencyConflict)
      else Outcome(s, BegunReply(s, existing.value))
    else if BeginError(s, request).Some? then Reject(s, BeginError(s, request).value)
    else
      var s' := Began(s, key, request, Target(s.configs, request.mode).value);
      Outcome(s', BegunReply(s', Next(s.runs.Keys)))
  }

  // ---------------------------------------------------------------------
  // Upload

  datatype Limits = Limits(maxItems: nat, maxBytes: nat)

  /** Enabled categories of the run's configuration, with the rule version to record. */
  function Allowed(s: State, config: Version): map<Key, Version> {
    var rules := RulesOf(s, config);
    map k | k in rules && rules[k].rule.text.enabled :: rules[k].version
  }

  ghost function ItemError(s: State, id: RunId, seen: set<Identity>, item: Upload): Option<Error>
    requires id in s.runs && s.runs[id].config in s.configs
  {
    var run := s.runs[id];
    if item.id in seen then Some(DuplicateTransaction)
    else if item.id.account !in run.accounts then Some(UnexpectedAccount)
    else if item.content.currency != s.configs[run.config].basis.currency then Some(CurrencyMismatch)
    else if item.content.date > run.toDate || (run.mode == Full && item.content.date < run.fromDate) then
      Some(OutsideRunWindow)
    else if !(item.categories <= Allowed(s, run.config).Keys) then Some(UnknownCategory)
    else if item.id in RowsOf(s.staged, id) then Some(DuplicateTransaction)
    else None
  }

  function Ids(items: seq<Upload>): set<Identity> {
    set i | 0 <= i < |items| :: items[i].id
  }

  /** The first failing item decides the error. */
  ghost function ItemsError(s: State, id: RunId, items: seq<Upload>): Option<Error>
    requires id in s.runs && s.runs[id].config in s.configs
  {
    if items == [] then None
    else
      var n := |items| - 1;
      var before := ItemsError(s, id, items[..n]);
      if before.Some? then before else ItemError(s, id, Ids(items[..n]), items[n])
  }

  function StagedRow(config: Version, index: nat, allowed: map<Key, Version>, item: Upload): Staged {
    Staged(config, index, item.content, map k | k in item.categories && k in allowed :: allowed[k])
  }

  function StageItems(rows: map<Identity, Staged>, config: Version, index: nat, allowed: map<Key, Version>,
                      items: seq<Upload>): map<Identity, Staged>
  {
    if items == [] then rows
    else
      var n := |items| - 1;
      StageItems(rows, config, index, allowed, items[..n])[items[n].id := StagedRow(config, index, allowed, items[n])]
  }

  ghost predicate KeyReused(batches: map<nat, Batch>, key: string) {
    exists i :: i in batches && batches[i].idempotencyKey == key
  }

  function NewBatch(request: BatchRequest): Batch {
    Batch(request.idempotencyKey, request, request.items, |request.items|)
  }

  ghost function UploadError(s: State, id: RunId, request: BatchRequest): Option<Error>
    requires id in s.runs && s.runs[id].config in s.configs
  {
    if KeyReused(RowsOf(s.batches, id), request.idempotencyKey) then Some(BatchIdempotencyConflict)
    else if s.runs[id].state != Created && s.runs[id].state != Uploaded then Some(RunNotUploadable)
    else ItemsError(s, id, request.items)
  }

  function UploadedRun(run: Run, request: BatchRequest, now: int): Run {
    run.(received := run.received + 1, itemCount := run.itemCount + |request.items|,
         state := Uploaded, uploadedAt := Some(now))
  }

  ghost function Staging(s: State, id: RunId, index: nat, request: BatchRequest, now: int): State
    requires id in s.runs
  {
    var run := s.runs[id];
    s.(runs := s.runs[id := UploadedRun(run, request, now)],
       batches := s.batches[id := RowsOf(s.batches, id)[index := NewBatch(request)]],
       staged := s.staged[id := StageItems(RowsOf(s.staged, id), run.config, index, Allowed(s, run.config),
                                           request.items)])
  }

  ghost function UploadBatch(s: State, id: RunId, index: int, request: BatchRequest, bytes: nat, limits: Limits,
                             now: int): Outcome
  {
    if index < 0 then Reject(s, InvalidBatchIndex)
    else if |request.items| > limits.maxItems || bytes > limits.maxBytes then Reject(s, BatchTooLarge)
    else if id !in s.runs || s.runs[id].config !in s.configs then Reject(s, RunNotFound)
    else
      var batches := RowsOf(s.batches, id);
      if index in batches then
        if batches[index].request != request || batches[index].checksum != request.items then
          Reject(s, BatchContentConflict)
        else Outcome(s, Stored(id, index, batches[index].itemCount, true))
      else if UploadError(s, id, request).Some? then Reject(s, UploadError(s, id, request).value)
      else Outcome(Staging(s, id, index, request, now), Stored(id, index, |request.items|, false))
  }

  // ---------------------------------------------------------------------
  // Commit: guards

  /** The received batch indices are exactly 0 to n-1. */
  ghost predicate Complete(batches: map<nat, Batch>, n: nat) {
    && (forall i: nat :: i in batches ==> i < n)
    && (forall i: nat :: i < n ==> i in batches)
  }

  /** The batch checksums in index order. */
  function Chain(batches: map<nat, Batch>, n: nat): seq<seq<Upload>>
    requires forall i: nat :: i < n ==> i in batches
  {
    if n == 0 then [] else Chain(batches, n - 1) + [batches[n - 1].checksum]
  }

  function ItemTotal(batches: map<nat, Batch>, n: nat): nat
    requires forall i: nat :: i < n ==> i in batches
  {
    if n == 0 then 0 else ItemTotal(batches, n - 1) + batches[n - 1].itemCount
  }

  ghost function CommitError(s: State, id: RunId, request: CommitRequest): Option<Error>
    requires id in s.runs && s.runs[id].config in s.configs
  {
    var run := s.runs[id];
    var status := s.configs[run.config].status;
    if run.state != Uploaded && !(run.state == Created && request.batchCount == 0) then Some(RunNotCommittable)
    else if status == Superseded then Some(ConfigVersionConflict)
    else if run.mode == Incremental && status != Active then Some(ConfigVersionConflict)
    else if run.mode == Incremental && Current(s.configs, Pending).Some? then Some(FullRebuildRequired)
    else if Target(s.configs, run.mode) != Some(run.config) then Some(ConfigVersionConflict)
    else if !Complete(RowsOf(s.batches, id), request.batchCount) then Some(MissingBatch)
    else if request.accounts != run.accounts then Some(CompletedAccountsMismatch)
    else if (if s.sync.Some? then Some(s.sync.value.revision) else None) != run.syncBefore then Some(RunSuperseded)
    else if run.mode == Incremental && !SameAccountsAsLastRun(s, run.accounts) then Some(AccountScopeChanged)
    else if !ReplacementsValid(RowsOf(s.staged, id), s.ledger.rows) then Some(PendingReplacementConflict)
    else None
  }

  // ---------------------------------------------------------------------
  // Commit: the new live set

  /** The pending identity that a transaction says it replaces. */
  function TargetOf(id: Identity, content: Content): Option<Identity> {
    if content.pendingSource.Some? then Some(Identity(id.account, content.pendingSource.value)) else None
  }

  function Targets(staged: map<Identity, Staged>): set<Identity> {
    set id | id in staged && TargetOf(id, staged[id].content).Some? :: TargetOf(id, staged[id].content).value
  }

  ghost predicate ReplacementValid(staged: map<Identity, Staged>, rows: map<Identity, Row>, id: Identity)
    requires id in staged
  {
    var target := TargetOf(id, staged[id].content);
    target.Some? ==>
      && !staged[id].content.pending
      && target.value != id
      && (target.value in staged ==> staged[target.value].content.pending)
      && (target.value in rows ==> rows[target.value].content.pending)
  }

  ghost predicate DistinctTargets(staged: map<Identity, Staged>) {
    forall a, b | a in staged && b in staged && TargetOf(a, staged[a].content).Some? ::
      TargetOf(a, staged[a].content) == TargetOf(b, staged[b].content) ==> a == b
  }

  /** Every link goes from a posted row to a pending one, and no target is claimed twice. */
  ghost predicate ReplacementsValid(staged: map<Identity, Staged>, rows: map<Identity, Row>) {
    && (forall id :: id in staged ==> ReplacementValid(staged, rows, id))
    && DistinctTargets(staged)
  }

  /** Everything of a run that the publication of its rows depends on. */
  datatype Commitment = Commitment(
    run: RunId, mode: Mode, config: Version, toDate: int, rules: map<Key, RuleVersion>,
    staged: map<Identity, Staged>, now: int)

  function StoredRow(c: Commitment, id: Identity, rows: map<Identity, Row>): Row
    requires id in c.staged
  {
    Row(c.staged[id].content, c.config,
        if id in rows then rows[id].firstRun else c.run, c.run,
        if id in rows then rows[id].firstSeen else c.now, c.now)
  }

  /** The closed form of the merge: drop replacement targets, then override with
      the staged rows that are not themselves targets. */
  function Merged(base: Ledger, c: Commitment): Ledger {
    var targets := Targets(c.staged);
    var stored := c.staged.Keys - targets;
    var rows := map id | id in (base.rows.Keys - targets) + stored ::
                  if id in stored then StoredRow(c, id, base.rows) else base.rows[id];
    var kept := set lk | lk in base.links && lk.id !in targets && lk.id !in stored;
    var added := set id, k | id in stored && k in c.staged[id].categories :: LinkKey(id, k);
    Ledger(rows, map lk | lk in kept + added ::
                   if lk in added then Link(c.config, c.staged[lk.id].categories[lk.category]) else base.links[lk])
  }

  predicate TooOld(c: Commitment, rows: map<Identity, Row>, lk: LinkKey) {
    && lk.category in c.rules && lk.id in rows
    && rows[lk.id].content.date < WindowStart(c.toDate, c.rules[lk.category].rule.text.lookback)
  }

  /** Drop links that left their category's window, then rows without a link. */
  function Pruned(l: Ledger, c: Commitment): Ledger {
    var links := map lk | lk in l.links && !TooOld(c, l.rows, lk) :: l.links[lk];
    var linked := set lk | lk in links :: lk.id;
    Ledger(map id | id in l.rows && id in linked :: l.rows[id], links)
  }

  function MergeBase(l: Ledger, c: Commitment): Ledger {
    if c.mode == Full then EMPTY_LEDGER else l
  }

  function Publish(l: Ledger, c: Commitment): Ledger {
    Pruned(Merged(MergeBase(l, c), c), c)
  }

  // ---------------------------------------------------------------------
  // Commit: the new tables

  ghost function CommitmentOf(s: State, id: RunId, now: int): Commitment
    requires id in s.runs
  {
    var run := s.runs[id];
    Commitment(id, run.mode, run.config, run.toDate, RulesOf(s, run.config), RowsOf(s.staged, id), now)
  }

  ghost function CommittedRun(s: State, id: RunId, request: CommitRequest, now: int): Run
    requires id in s.runs
    requires Complete(RowsOf(s.batches, id), request.batchCount)
  {
    var run := s.runs[id];
    var batches := RowsOf(s.batches, id);
    run.(state := Committed, expectedBatchCount := Some(request.batchCount),
         received := |batches|, itemCount := ItemTotal(batches, request.batchCount),
         checksum := Some(Chain(batches, request.batchCount)), completedAccounts := Some(request.accounts),
         uploadedAt := if run.uploadedAt.Some? then run.uploadedAt else Some(now),
         validatedAt := Some(now), committedAt := Some(now))
  }

  /** Publish a pending configuration: the old active version is superseded first. */
  ghost function Activated(configs: map<Version, Config>, v: Version, now: int): map<Version, Config>
    requires v in configs
  {
    if configs[v].status != Pending then configs
    else
      Retire(configs, Current(configs, Active), now)[v := configs[v].(status := Active, activatedAt := Some(now))]
  }

  function Advanced(sync: Option<Sync>, run: RunId, config: Version): Sync {
    Sync(config, run, if sync.Some? then sync.value.revision + 1 else 1)
  }

  ghost function Committing(s: State, id: RunId, request: CommitRequest, now: int): State
    requires id in s.runs && s.runs[id].config in s.configs
    requires Complete(RowsOf(s.batches, id), request.batchCount)
  {
    var run := s.runs[id];
    var config := s.configs[run.config];
    s.(runs := s.runs[id := CommittedRun(s, id, request, now)],
       ledger := Publish(s.ledger, CommitmentOf(s, id, now)),
       categories := if config.status == Pending then Present(s.categories, config.source.categories)
                     else s.categories,
       configs := Activated(s.configs, run.config, now),
       sync := Some(Advanced(s.sync, id, run.config)),
       staged := s.staged - {id})
  }

  function RunReply(id: RunId, run: Run): Reply {
    Published(id,
              if run.checksum.Some? && run.committedAt.Some? then
                Some(Receipt(id, run.checksum.value, run.committedAt.value))
              else None,
              run.received, run.itemCount)
  }

  ghost predicate SameCommit(run: Run, request: CommitRequest) {
    run.expectedBatchCount == Some(request.batchCount) && run.completedAccounts == Some(request.accounts)
  }

  ghost function Commit(s: State, id: RunId, request: CommitRequest, now: int): Outcome {
    if id !in s.runs || s.runs[id].config !in s.configs then Reject(s, RunNotFound)
    else
      var run := s.runs[id];
      if run.state == Committed then
        if !SameCommit(run, request) then Reject(s, CommitReplayConflict)
        else Outcome(s, RunReply(id, run))
      else if CommitError(s, id, request).Some? then Reject(s, CommitError(s, id, request).value)
      else
        var s' := Committing(s, id, request, now);
        Outcome(s', RunReply(id, s'.runs[id]))
  }
}
