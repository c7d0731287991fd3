/** Exactly-once behaviour: what a successful call recorded stays recorded, so the
    same request sent again at any later point answers the same and changes nothing. */
module Retries {
  import opened Model
  import opened ConfigSpec
  import opened RefreshSpec
  import opened Invariant
  import opened ConfigProofs
  import opened StepProofs
  import opened UploadProofs
  import opened CommitProofs
  import opened Traces

  // ---------------------------------------------------------------------
  // Recorded facts stay

  ghost predicate RunsKept(runs: map<RunId, Run>, next: map<RunId, Run>) {
    forall id :: id in runs ==>
      && id in next && SameManifest(runs[id], next[id])
      && (runs[id].state == Committed ==> next[id] == runs[id])
  }

  ghost predicate BatchesKept(batches: map<RunId, map<nat, Batch>>, next: map<RunId, map<nat, Batch>>) {
    forall id, i | i in RowsOf(batches, id) ::
      i in RowsOf(next, id) && RowsOf(next, id)[i] == RowsOf(batches, id)[i]
  }

  /** No call deletes or rewrites a version, a rule, a manifest, a batch or a committed run. */
  ghost predicate Kept(s: State, t: State) {
    ConfigExtends(s, t) && RunsKept(s.runs, t.runs) && BatchesKept(s.batches, t.batches)
  }

  lemma KeptSelf(s: State)
    ensures Kept(s, s)
  {
  }

  lemma ExtendsTransitive(s: State, t: State, u: State)
    requires ConfigExtends(s, t) && ConfigExtends(t, u)
    ensures ConfigExtends(s, u)
  {
  }

  lemma RunsTransitive(a: map<RunId, Run>, b: map<RunId, Run>, c: map<RunId, Run>)
    requires RunsKept(a, b) && RunsKept(b, c)
    ensures RunsKept(a, c)
  {
  }

  lemma KeptTransitive(s: State, t: State, u: State)
    requires Kept(s, t) && Kept(t, u)
    ensures Kept(s, u)
  {
    hide ConfigExtends, RunsKept, RowsOf;
    ExtendsTransitive(s, t, u);
    RunsTransitive(s.runs, t.runs, u.runs);
  }

  lemma SameTablesExtend(s: State, t: State)
    requires SameConfigTables(s, t)
    ensures ConfigExtends(s, t)
  {
  }

  lemma BeginKept(s: State, key: string, request: BeginRequest, v: Version)
    ensures Kept(s, Began(s, key, request, v))
  {
  }

  lemma RunReplaced(runs: map<RunId, Run>, id: RunId, next: Run)
    requires id in runs && runs[id].state != Committed && SameManifest(runs[id], next)
    ensures RunsKept(runs, runs[id := next])
  {
  }

  lemma BatchAdded(batches: map<RunId, map<nat, Batch>>, id: RunId, index: nat, batch: Batch)
    requires index !in RowsOf(batches, id)
    ensures BatchesKept(batches, batches[id := RowsOf(batches, id)[index := batch]])
  {
  }

  lemma PassesOpen(s: State, id: RunId, index: nat, request: BatchRequest)
    requires UploadPasses(s, id, index, request)
    ensures id in s.runs && s.runs[id].state != Committed && index !in RowsOf(s.batches, id)
  {
  }

  lemma KeptFrom(s: State, t: State)
    requires ConfigExtends(s, t) && RunsKept(s.runs, t.runs) && BatchesKept(s.batches, t.batches)
    ensures Kept(s, t)
  {
  }

  lemma UploadedManifest(run: Run, request: BatchRequest, now: int)
    ensures SameManifest(run, UploadedRun(run, request, now))
  {
  }

  lemma StagingBatches(s: State, id: RunId, index: nat, request: BatchRequest, now: int)
    requires id in s.runs
    ensures Staging(s, id, index, request, now).batches ==
              s.batches[id := RowsOf(s.batches, id)[index := NewBatch(request)]]
  {
  }

  lemma StagingKept(s: State, id: RunId, index: nat, request: BatchRequest, now: int)
    requires UploadPasses(s, id, index, request)
    ensures Kept(s, Staging(s, id, index, request, now))
  {
    hide *;
    PassesOpen(s, id, index, request);
    var t := Staging(s, id, index, request, now);
    StagingShape(s, id, index, request, now);
    StagingBatches(s, id, index, request, now);
    SameTablesExtend(s, t);
    UploadedManifest(s.runs[id], request, now);
    RunReplaced(s.runs, id, t.runs[id]);
    BatchAdded(s.batches, id, index, NewBatch(request));
    KeptFrom(s, t);
  }

  lemma SameBatches(batches: map<RunId, map<nat, Batch>>)
    ensures BatchesKept(batches, batches)
  {
  }

  lemma CommittingKept(s: State, id: RunId, request: CommitRequest, now: int)
    requires id in s.runs && s.runs[id].config in s.configs && Complete(RowsOf(s.batches, id), request.batchCount)
    requires s.runs[id].state != Committed && s.configs[s.runs[id].config].status != Superseded
    requires VersionsOk(s.configs)
    ensures Kept(s, Committing(s, id, request, now))
  {
    hide *;
    var t := Committing(s, id, request, now);
    CommittingExtends(s, id, request, now);
    CommittingShape(s, id, request, now);
    CommittedRunShape(s, id, request, now);
    RunReplaced(s.runs, id, t.runs[id]);
    SameBatches(s.batches);
    KeptFrom(s, t);
  }

  lemma PutKept(s: State, request: ConfigRequest, kind: PutKind, now: int)
    requires ConfigInv(s) && request.Valid()
    ensures Kept(s, PutState(s, request, kind, now))
  {
    hide ConfigInv, PutState, ConfigExtends, RowsOf;
    PutExtends(s, request, kind, now);
  }

  lemma WriteKept(s: State, w: Write)
    requires Enabled(s, w)
    requires Core(s)
    ensures Kept(s, Written(s, w))
  {
    hide ConfigInv, RunInv, LiveInv, UploadPasses, CommitPasses, Began, Staging, Committing, PutState,
      BeginError, RunWithKey, Target, Kept;
    match w
    case NoWrite => KeptSelf(s);
    case BeginWrite(key, begin, target) => BeginKept(s, key, begin, target);
    case UploadWrite(run, index, batch, now) => StagingKept(s, run, index, batch, now);
    case CommitWrite(run, commit, now) =>
      PassesId(s, run, commit);
      PassesMeans(s, run, commit);
      CoreMeans(s, run);
      CommittingKept(s, run, commit, now);
    case PutWrite(config, kind, now) => PutKept(s, config, kind, now);
  }

  lemma {:induction false} ExecuteKept(s: State, calls: seq<Call>)
    requires AllValid(calls) && Core(s)
    ensures Kept(s, Execute(s, calls))
  {
    hide Core, Apply, WriteOf, Enabled, Written, Kept;
    if calls == [] {
      KeptSelf(s);
    } else {
      var n := |calls| - 1;
      var t := Execute(s, calls[..n]);
      ExecuteKept(s, calls[..n]);
      ExecuteKeepsCore(s, calls[..n]);
      CallIsWrite(t, calls[n]);
      WriteKept(t, WriteOf(t, calls[n]));
      KeptTransitive(s, t, Execute(s, calls));
    }
  }

  // ---------------------------------------------------------------------
  // What each kind of success records

  ghost predicate BeginRecorded(s: State, key: string, request: BeginRequest, reply: Reply) {
    && reply.Begun? && reply.run in s.runs
    && s.runs[reply.run].idempotencyKey == key && s.runs[reply.run].request == request
    && s.runs[reply.run].config in s.configs
    && reply.(state := s.runs[reply.run].state) == BegunReply(s, reply.run)
  }

  lemma BeginRecords(s: State, key: string, request: BeginRequest)
    requires Begin(s, key, request).reply.Begun?
    requires Core(s) && request.Valid()
    ensures BeginRecorded(Begin(s, key, request).state, key, request, Begin(s, key, request).reply)
  {
    var o := Begin(s, key, request);
    ReplyIsBegun(s, key, request);
    assert Core(o.state) by {
      hide Core, Apply, WriteOf, Enabled, Written;
      CallIsWrite(s, BeginCall(key, request));
      WriteKeepsCore(s, WriteOf(s, BeginCall(key, request)));
      ApplyBegin(s, key, request);
    }
    CoreMeans(o.state, o.reply.run);
  }

  lemma ApplyBegin(s: State, key: string, request: BeginRequest)
    ensures Apply(s, BeginCall(key, request)) == Begin(s, key, request)
  {
  }

  lemma ReplyIsBegun(s: State, key: string, request: BeginRequest)
    requires Begin(s, key, request).reply.Begun?
    ensures var o := Begin(s, key, request);
            && o.reply.run in o.state.runs && o.reply == BegunReply(o.state, o.reply.run)
            && o.state.runs[o.reply.run].idempotencyKey == key && o.state.runs[o.reply.run].request == request
  {
    hide RulesOf, BeginError, Target;
  }

  lemma BeginStays(s: State, t: State, key: string, request: BeginRequest, reply: Reply)
    requires BeginRecorded(s, key, request, reply)
    requires Core(s) && Kept(s, t)
    ensures BeginRecorded(t, key, request, reply)
  {
    var v := s.runs[reply.run].config;
    assert SameManifest(s.runs[reply.run], t.runs[reply.run]);
    assert ConfigInv(s) && ConfigExtends(s, t) && v in s.configs && v in s.configRules;
    assert v in t.configs && v in t.configRules && t.configRules[v] == s.configRules[v];
    assert CatalogExtends(Catalog(s.categories, s.rules), Catalog(t.categories, t.rules));
    hide ConfigInv, RunInv, LiveInv, ConfigExtends, CatalogExtends;
    RulesOfStable(s, t, v);
  }

  lemma BeginReplays(t: State, key: string, request: BeginRequest, reply: Reply)
    requires BeginRecorded(t, key, request, reply) && DistinctKeys(t.runs)
    ensures Begin(t, key, request) == Outcome(t, Replay(t, reply))
  {
  }

  ghost predicate UploadRecorded(s: State, id: RunId, index: int, request: BatchRequest, itemCount: nat) {
    && id in s.runs && s.runs[id].config in s.configs
    && index >= 0 && index in RowsOf(s.batches, id)
    && RowsOf(s.batches, id)[index].request == request && RowsOf(s.batches, id)[index].checksum == request.items
    && RowsOf(s.batches, id)[index].itemCount == itemCount
  }

  lemma UploadRecords(s: State, id: RunId, index: int, request: BatchRequest, bytes: nat, limits: Limits, now: int)
    requires UploadBatch(s, id, index, request, bytes, limits, now).reply.Stored?
    ensures var o := UploadBatch(s, id, index, request, bytes, limits, now);
            && o.reply.run == id && o.reply.index == index
            && UploadRecorded(o.state, id, index, request, o.reply.itemCount)
            && |request.items| <= limits.maxItems && bytes <= limits.maxBytes
  {
    hide UploadError, StageItems, Allowed;
  }

  lemma UploadStays(s: State, t: State, id: RunId, index: int, request: BatchRequest, itemCount: nat)
    requires UploadRecorded(s, id, index, request, itemCount) && Kept(s, t)
    ensures UploadRecorded(t, id, index, request, itemCount)
  {
  }

  lemma UploadReplays(t: State, id: RunId, index: int, request: BatchRequest, itemCount: nat, bytes: nat,
                      limits: Limits, now: int)
    requires UploadRecorded(t, id, index, request, itemCount)
    requires |request.items| <= limits.maxItems && bytes <= limits.maxBytes
    ensures UploadBatch(t, id, index, request, bytes, limits, now) == Outcome(t, Stored(id, index, itemCount, true))
  {
  }

  ghost predicate CommitRecorded(s: State, id: RunId, request: CommitRequest, reply: Reply) {
    && id in s.runs && s.runs[id].config in s.configs
    && s.runs[id].state == Committed && SameCommit(s.runs[id], request)
    && reply == RunReply(id, s.runs[id])
  }

  lemma CommitRecords(s: State, id: RunId, request: CommitRequest, now: int)
    requires Commit(s, id, request, now).reply.Published?
    requires Core(s)
    ensures CommitRecorded(Commit(s, id, request, now).state, id, request, Commit(s, id, request, now).reply)
  {
    hide ConfigInv, RunInv, LiveInv, CommitError, Publish, Chain, ItemTotal, RulesOf, Complete;
    var o := Commit(s, id, request, now);
    if s.runs[id].state != Committed {
      assert CommitPasses(s, id, request);
      CoreMeans(s, id);
      PassesMeans(s, id, request);
      CommittingExtends(s, id, request, now);
      CommittingShape(s, id, request, now);
    }
  }

  lemma CommitStays(s: State, t: State, id: RunId, request: CommitRequest, reply: Reply)
    requires CommitRecorded(s, id, request, reply) && Kept(s, t)
    ensures CommitRecorded(t, id, request, reply)
  {
  }

  lemma CommitReplays(t: State, id: RunId, request: CommitRequest, reply: Reply, now: int)
    requires CommitRecorded(t, id, request, reply)
    ensures Commit(t, id, request, now) == Outcome(t, reply)
  {
  }

  // ---------------------------------------------------------------------
  // Retries

  /** The same request sent again; only the clock may differ. */
  ghost predicate SameRequest(a: Call, b: Call) {
    match a
    case BeginCall(key, begin) => b == a
    case UploadCall(run, index, batch, bytes, limits, _) =>
      b.UploadCall? && b == UploadCall(run, index, batch, bytes, limits, b.now)
    case CommitCall(run, commit, _) => b.CommitCall? && b == CommitCall(run, commit, b.now)
    case PutCall(_, _, _) => false
  }

  /** The answer to a retry: the same run with the state it has reached, the same batch
      marked as replayed, or the same receipt. */
  ghost function Replay(t: State, reply: Reply): Reply {
    if reply.Stored? then reply.(replayed := true)
    else if reply.Begun? && reply.run in t.runs then reply.(state := t.runs[reply.run].state)
    else reply
  }

  lemma BeginAnswers(s: State, t: State, key: string, begin: BeginRequest)
    requires begin.Valid() && !Begin(s, key, begin).reply.Rejected?
    requires Core(s) && Core(Begin(s, key, begin).state) && Core(t) && Kept(Begin(s, key, begin).state, t)
    ensures Begin(t, key, begin) == Outcome(t, Replay(t, Begin(s, key, begin).reply))
  {
    hide *;
    var o := Begin(s, key, begin);
    KindOfBegin(s, key, begin);
    BeginRecords(s, key, begin);
    BeginStays(o.state, t, key, begin, o.reply);
    CoreParts(t);
    RunsDistinct(t);
    BeginReplays(t, key, begin, o.reply);
  }

  lemma RunsDistinct(t: State)
    requires RunInv(t)
    ensures DistinctKeys(t.runs)
  {
  }

  lemma UploadAnswers(s: State, t: State, run: RunId, index: int, batch: BatchRequest, bytes: nat, limits: Limits,
                      now: int, later: int)
    requires var o := UploadBatch(s, run, index, batch, bytes, limits, now);
             !o.reply.Rejected? && Kept(o.state, t)
    ensures var o := UploadBatch(s, run, index, batch, bytes, limits, now);
            o.reply.Stored? && UploadBatch(t, run, index, batch, bytes, limits, later) ==
                                 Outcome(t, o.reply.(replayed := true))
  {
    var o := UploadBatch(s, run, index, batch, bytes, limits, now);
    hide *;
    KindOfUpload(s, run, index, batch, bytes, limits, now);
    UploadRecords(s, run, index, batch, bytes, limits, now);
    UploadStays(o.state, t, run, index, batch, o.reply.itemCount);
    UploadReplays(t, run, index, batch, o.reply.itemCount, bytes, limits, later);
  }

  lemma CommitAnswers(s: State, t: State, run: RunId, commit: CommitRequest, now: int, later: int)
    requires !Commit(s, run, commit, now).reply.Rejected?
    requires Core(s) && Kept(Commit(s, run, commit, now).state, t)
    ensures Commit(s, run, commit, now).reply.Published?
    ensures Commit(t, run, commit, later) == Outcome(t, Commit(s, run, commit, now).reply)
  {
    hide *;
    var o := Commit(s, run, commit, now);
    KindOfCommit(s, run, commit, now);
    CommitRecords(s, run, commit, now);
    CommitStays(o.state, t, run, commit, o.reply);
    CommitReplays(t, run, commit, o.reply, later);
  }

  lemma LaterTables(s: State, call: Call, between: seq<Call>)
    requires call.Valid() && AllValid(between)
    requires Core(s)
    ensures var o := Apply(s, call);
            Core(o.state) && Core(Execute(o.state, between)) && Kept(o.state, Execute(o.state, between))
  {
    hide *;
    CallIsWrite(s, call);
    WriteKeepsCore(s, WriteOf(s, call));
    ExecuteKept(Apply(s, call).state, between);
    ExecuteKeepsCore(Apply(s, call).state, between);
  }

  lemma RetryAnswers(s: State, call: Call, between: seq<Call>, retry: Call)
    requires call.Valid() && AllValid(between) && SameRequest(call, retry) && !Apply(s, call).reply.Rejected?
    requires Core(s)
    ensures var t := Execute(Apply(s, call).state, between);
            Apply(t, retry) == Outcome(t, Replay(t, Apply(s, call).reply))
  {
    var o := Apply(s, call);
    var t := Execute(o.state, between);
    hide Core, Kept, Begin, UploadBatch, Commit, PutOutcome, Execute, AllValid;
    LaterTables(s, call, between);
    match call
    case BeginCall(key, begin) =>
      BeginAnswers(s, t, key, begin);
      KindOfBegin(s, key, begin);
    case UploadCall(run, index, batch, bytes, limits, now) =>
      UploadAnswers(s, t, run, index, batch, bytes, limits, now, retry.now);
    case CommitCall(run, commit, now) =>
      CommitAnswers(s, t, run, commit, now, retry.now);
  }

  lemma KindOfBegin(s: State, key: string, begin: BeginRequest)
    ensures Begin(s, key, begin).reply.Rejected? || Begin(s, key, begin).reply.Begun?
  {
  }

  lemma KindOfUpload(s: State, id: RunId, index: int, batch: BatchRequest, bytes: nat, limits: Limits, now: int)
    ensures var r := UploadBatch(s, id, index, batch, bytes, limits, now).reply;
            r.Rejected? || r.Stored?
  {
  }

  lemma KindOfCommit(s: State, id: RunId, commit: CommitRequest, now: int)
    ensures Commit(s, id, commit, now).reply.Rejected? || Commit(s, id, commit, now).reply.Published?
  {
  }

  /** A begin, batch or commit request that succeeded anywhere in a trace, sent
      again at any later point, answers the same and leaves every table unchanged. */
  lemma RetryIsExact(before: seq<Call>, call: Call, between: seq<Call>, retry: Call)
    requires AllValid(before) && call.Valid() && AllValid(between) && SameRequest(call, retry)
    requires !Apply(After(before), call).reply.Rejected?
    ensures var t := After(before + [call] + between);
            Apply(t, retry) == Outcome(t, Replay(t, Apply(After(before), call).reply))
  {
    hide Core, Apply, SameRequest;
    ReachableInv(before);
    RetryAnswers(After(before), call, between, retry);
    ExecuteConcat(EMPTY_STATE, before + [call], between);
    ExecuteConcat(EMPTY_STATE, before, [call]);
    assert [call][..0] == [];
    assert Execute(After(before), [call]) == Apply(After(before), call).state;
  }

  /** A trace with a retry inserted ends in the same tables as the trace without it. */
  lemma RetryIsInvisible(before: seq<Call>, call: Call, between: seq<Call>, retry: Call, rest: seq<Call>)
    requires AllValid(before) && call.Valid() && AllValid(between) && SameRequest(call, retry)
    requires !Apply(After(before), call).reply.Rejected?
    ensures After(before + [call] + between + [retry] + rest) == After(before + [call] + between + rest)
  {
    hide Core, Apply, SameRequest;
    var prefix := before + [call] + between;
    RetryIsExact(before, call, between, retry);
    ExecuteConcat(EMPTY_STATE, prefix + [retry], rest);
    ExecuteConcat(EMPTY_STATE, prefix, [retry]);
    ExecuteConcat(EMPTY_STATE, prefix, rest);
    assert [retry][..0] == [];
    assert Execute(After(prefix), [retry]) == Apply(After(prefix), retry).state;
  }
}
