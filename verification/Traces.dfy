/** Arbitrary sequences of service calls: the invariant holds after every one,
    recorded facts stay, and retries are invisible. */
module Traces {
  import opened Options
  import opened Model
  import opened ConfigSpec
  import opened RefreshSpec
  import opened Invariant
  import opened StepProofs
  import opened UploadProofs
  import opened CommitProofs

  /** One call of a service, as an atomic step. */
  datatype Call =
    | BeginCall(key: string, begin: BeginRequest)
    | UploadCall(run: RunId, index: int, batch: BatchRequest, bytes: nat, limits: Limits, now: int)
    | CommitCall(run: RunId, commit: CommitRequest, now: int)
    | PutCall(config: ConfigRequest, expected: Option<EditPayload>, now: int)
  {
    /** The document passed its schema. */
    ghost predicate Valid() {
      match this
      case BeginCall(_, begin) => begin.Valid()
      case UploadCall(_, _, batch, _, _, _) => batch.Valid()
      case CommitCall(_, _, _) => true
      case PutCall(config, _, _) => config.Valid()
    }
  }

  ghost function PutOutcome(s: State, request: ConfigRequest, expected: Option<EditPayload>, now: int): Outcome {
    match Put(s, request, expected, now)
    case PutRejected(error) => Reject(s, error)
    case PutAccepted(kind, state) => Outcome(state, Configured(kind))
  }

  ghost function Apply(s: State, call: Call): Outcome {
    match call
    case BeginCall(key, begin) => Begin(s, key, begin)
    case UploadCall(run, index, batch, bytes, limits, now) => UploadBatch(s, run, index, batch, bytes, limits, now)
    case CommitCall(run, commit, now) => Commit(s, run, commit, now)
    case PutCall(config, expected, now) => PutOutcome(s, config, expected, now)
  }

  ghost predicate AllValid(calls: seq<Call>) {
    forall i :: 0 <= i < |calls| ==> calls[i].Valid()
  }

  ghost function Execute(s: State, calls: seq<Call>): State {
    if calls == [] then s else Apply(Execute(s, calls[..|calls| - 1]), calls[|calls| - 1]).state
  }

  /** The tables after a trace that starts with an empty database. */
  ghost function After(calls: seq<Call>): State {
    Execute(EMPTY_STATE, calls)
  }

  // ---------------------------------------------------------------------
  // What one call may do

  /** A call either leaves every table as it was or makes one of four writes. */
  datatype Write =
    | NoWrite
    | BeginWrite(key: string, begin: BeginRequest, target: Version)
    | UploadWrite(run: RunId, index: nat, batch: BatchRequest, now: int)
    | CommitWrite(run: RunId, commit: CommitRequest, now: int)
    | PutWrite(config: ConfigRequest, kind: PutKind, now: int)

  ghost predicate Enabled(s: State, w: Write) {
    match w
    case NoWrite => true
    case BeginWrite(key, begin, target) =>
      begin.Valid() && target in s.configs && RunWithKey(s.runs, key).None?
      && BeginError(s, begin).None? && Target(s.configs, begin.mode) == Some(target)
    case UploadWrite(run, index, batch, _) => batch.Valid() && UploadPasses(s, run, index, batch)
    case CommitWrite(run, commit, _) => CommitPasses(s, run, commit)
    case PutWrite(config, _, _) => config.Valid()
  }

  ghost function Written(s: State, w: Write): State
    requires Enabled(s, w)
  {
    match w
    case NoWrite => s
    case BeginWrite(key, begin, target) => Began(s, key, begin, target)
    case UploadWrite(run, index, batch, now) => Staging(s, run, index, batch, now)
    case CommitWrite(run, commit, now) =>
      PassesComplete(s, run, commit);
      Committing(s, run, commit, now)
    case PutWrite(config, kind, now) => PutState(s, config, kind, now)
  }

  lemma PassesComplete(s: State, id: RunId, request: CommitRequest)
    requires CommitPasses(s, id, request)
    ensures Complete(RowsOf(s.batches, id), request.batchCount)
  {
  }

  ghost function WriteOf(s: State, call: Call): Write {
    match call
    case BeginCall(key, begin) =>
      if RunWithKey(s.runs, key).None? && BeginError(s, begin).None? && Target(s.configs, begin.mode).Some? then
        BeginWrite(key, begin, Target(s.configs, begin.mode).value)
      else NoWrite
    case UploadCall(run, index, batch, bytes, limits, now) =>
      if 0 <= index && |batch.items| <= limits.maxItems && bytes <= limits.maxBytes
         && UploadPasses(s, run, index, batch) then
        UploadWrite(run, index, batch, now)
      else NoWrite
    case CommitCall(run, commit, now) =>
      if CommitPasses(s, run, commit) then CommitWrite(run, commit, now) else NoWrite
    case PutCall(config, expected, now) =>
      if PutVerdict(s, config, expected).Accept? then PutWrite(config, PutVerdict(s, config, expected).kind, now)
      else NoWrite
  }

  lemma BeginIsWrite(s: State, key: string, begin: BeginRequest)
    requires begin.Valid()
    ensures var w := WriteOf(s, BeginCall(key, begin));
            Enabled(s, w) && Begin(s, key, begin).state == Written(s, w)
  {
    hide CoversWindows, SameAccountsAsLastRun, BegunReply;
  }

  lemma UploadIsWrite(s: State, id: RunId, index: int, batch: BatchRequest, bytes: nat, limits: Limits, now: int)
    requires batch.Valid()
    ensures var w := WriteOf(s, UploadCall(id, index, batch, bytes, limits, now));
            Enabled(s, w) && UploadBatch(s, id, index, batch, bytes, limits, now).state == Written(s, w)
  {
    hide UploadError, Staging;
  }

  lemma CommitIsWrite(s: State, id: RunId, commit: CommitRequest, now: int)
    ensures var w := WriteOf(s, CommitCall(id, commit, now));
            Enabled(s, w) && Commit(s, id, commit, now).state == Written(s, w)
  {
    hide CommitError, Committing, Complete, RowsOf;
  }

  lemma PutIsWrite(s: State, config: ConfigRequest, expected: Option<EditPayload>, now: int)
    requires config.Valid()
    ensures var w := WriteOf(s, PutCall(config, expected, now));
            Enabled(s, w) && PutOutcome(s, config, expected, now).state == Written(s, w)
  {
    hide PutVerdict, PutState;
  }

  /** Every call is one of the writes, enabled where it happens. */
  lemma CallIsWrite(s: State, call: Call)
    requires call.Valid()
    ensures Enabled(s, WriteOf(s, call)) && Apply(s, call).state == Written(s, WriteOf(s, call))
  {
    hide Enabled, Written, WriteOf;
    match call
    case BeginCall(key, begin) => BeginIsWrite(s, key, begin);
    case UploadCall(run, index, batch, bytes, limits, now) => UploadIsWrite(s, run, index, batch, bytes, limits, now);
    case CommitCall(run, commit, now) => CommitIsWrite(s, run, commit, now);
    case PutCall(config, expected, now) => PutIsWrite(s, config, expected, now);
  }

  lemma RejectedBegin(s: State, key: string, begin: BeginRequest)
    requires Begin(s, key, begin).reply.Rejected?
    ensures Begin(s, key, begin).state == s
  {
  }

  lemma RejectedUpload(s: State, id: RunId, index: int, batch: BatchRequest, bytes: nat, limits: Limits, now: int)
    requires UploadBatch(s, id, index, batch, bytes, limits, now).reply.Rejected?
    ensures UploadBatch(s, id, index, batch, bytes, limits, now).state == s
  {
  }

  lemma RejectedCommit(s: State, id: RunId, commit: CommitRequest, now: int)
    requires Commit(s, id, commit, now).reply.Rejected?
    ensures Commit(s, id, commit, now).state == s
  {
  }

  lemma RejectedPut(s: State, config: ConfigRequest, expected: Option<EditPayload>, now: int)
    requires PutOutcome(s, config, expected, now).reply.Rejected?
    ensures PutOutcome(s, config, expected, now).state == s
  {
  }

  /** A call that is refused, at whatever check, leaves every table as it was. */
  lemma RefusalChangesNothing(s: State, call: Call)
    requires Apply(s, call).reply.Rejected?
    ensures Apply(s, call).state == s
  {
    hide Begin, UploadBatch, Commit, PutOutcome;
    match call
    case BeginCall(key, begin) => RejectedBegin(s, key, begin);
    case UploadCall(run, index, batch, bytes, limits, now) => RejectedUpload(s, run, index, batch, bytes, limits, now);
    case CommitCall(run, commit, now) => RejectedCommit(s, run, commit, now);
    case PutCall(config, expected, now) => RejectedPut(s, config, expected, now);
  }

  // ---------------------------------------------------------------------
  // The invariant holds after every trace

  lemma WriteKeepsCore(s: State, w: Write)
    requires Enabled(s, w)
    requires Core(s)
    ensures Core(Written(s, w))
  {
    hide Core, UploadPasses, CommitPasses, Began, Staging, Committing, PutState, BeginError, RunWithKey, Target;
    match w
    case NoWrite =>
    case BeginWrite(key, begin, target) => BeginKeepsCore(s, key, begin, target);
    case UploadWrite(run, index, batch, now) => StagingKeepsCore(s, run, index, batch, now);
    case CommitWrite(run, commit, now) => CommittingKeepsCore(s, run, commit, now);
    case PutWrite(config, kind, now) => PutKeepsCore(s, config, kind, now);
  }

  /** Any database that meets the core invariant keeps it under every interleaving. */
  lemma {:induction false} ExecuteKeepsCore(s: State, calls: seq<Call>)
    requires AllValid(calls) && Core(s)
    ensures Core(Execute(s, calls))
  {
    hide Core, Apply, WriteOf, Enabled, Written;
    if calls != [] {
      var n := |calls| - 1;
      ExecuteKeepsCore(s, calls[..n]);
      CallIsWrite(Execute(s, calls[..n]), calls[n]);
      WriteKeepsCore(Execute(s, calls[..n]), WriteOf(Execute(s, calls[..n]), calls[n]));
    }
  }

  lemma BeginWriteSerial(s: State, key: string, begin: BeginRequest, target: Version)
    requires SerialInv(s.runs, s.sync)
    ensures SerialInv(Began(s, key, begin, target).runs, Began(s, key, begin, target).sync)
  {
    hide *;
    BeganShape(s, key, begin, target);
    BeginSerial(s.runs, s.sync, Next(s.runs.Keys), NewRun(s, key, begin, target));
  }

  lemma UploadWriteSerial(s: State, run: RunId, index: nat, batch: BatchRequest, now: int)
    requires UploadPasses(s, run, index, batch) && SerialInv(s.runs, s.sync)
    ensures run in s.runs
    ensures SerialInv(Staging(s, run, index, batch, now).runs, Staging(s, run, index, batch, now).sync)
  {
    hide *;
    PassesMayUpload(s, run, index, batch);
    StagingShape(s, run, index, batch, now);
    UploadedKeeps(s.runs[run], batch, now);
    OpenRunSerial(s.runs, s.sync, run, UploadedRun(s.runs[run], batch, now));
  }

  lemma CommitWriteSerial(s: State, run: RunId, commit: CommitRequest, now: int)
    requires CommitPasses(s, run, commit) && SerialInv(s.runs, s.sync)
    ensures run in s.runs && s.runs[run].config in s.configs && Complete(RowsOf(s.batches, run), commit.batchCount)
    ensures SerialInv(Committing(s, run, commit, now).runs, Committing(s, run, commit, now).sync)
  {
    hide *;
    PassesId(s, run, commit);
    PassesMeans(s, run, commit);
    CommittingShape(s, run, commit, now);
    CommittedRunShape(s, run, commit, now);
    ManifestMeans(s.runs[run], CommittedRun(s, run, commit, now));
    CommitSerial(s.runs, s.sync, run, CommittedRun(s, run, commit, now), s.runs[run].config);
  }

  lemma WriteKeepsSerial(s: State, w: Write)
    requires Enabled(s, w) && SerialInv(s.runs, s.sync)
    ensures SerialInv(Written(s, w).runs, Written(s, w).sync)
  {
    hide SerialInv, UploadPasses, CommitPasses, Began, Staging, Committing, PutState, BeginError, RunWithKey, Target,
      Complete;
    match w
    case NoWrite =>
    case BeginWrite(key, begin, target) => BeginWriteSerial(s, key, begin, target);
    case UploadWrite(run, index, batch, now) => UploadWriteSerial(s, run, index, batch, now);
    case CommitWrite(run, commit, now) =>
      CommitWriteSerial(s, run, commit, now);
      PassesComplete(s, run, commit);
    case PutWrite(config, kind, now) => PutTables(s, config, kind, now);
  }

  lemma {:induction false} SerialHolds(calls: seq<Call>)
    requires AllValid(calls)
    ensures SerialInv(After(calls).runs, After(calls).sync)
  {
    hide SerialInv, Apply, WriteOf, Enabled, Written;
    if calls == [] {
      EmptyInv();
    } else {
      var n := |calls| - 1;
      SerialHolds(calls[..n]);
      CallIsWrite(After(calls[..n]), calls[n]);
      WriteKeepsSerial(After(calls[..n]), WriteOf(After(calls[..n]), calls[n]));
    }
  }

  lemma WriteFailsNothing(s: State, w: Write)
    requires Enabled(s, w) && NoneFailed(s.runs)
    ensures NoneFailed(Written(s, w).runs)
  {
    hide UploadPasses, CommitPasses, Began, Staging, Committing, PutState, BeginError, RunWithKey, Target, Complete,
      UploadedRun, CommittedRun, NewRun, SameConfigTables;
    match w
    case NoWrite =>
    case BeginWrite(key, begin, target) => BeganShape(s, key, begin, target);
    case UploadWrite(run, index, batch, now) =>
      PassesMayUpload(s, run, index, batch);
      StagingShape(s, run, index, batch, now);
      UploadedKeeps(s.runs[run], batch, now);
    case CommitWrite(run, commit, now) =>
      PassesId(s, run, commit);
      PassesComplete(s, run, commit);
      CommittingShape(s, run, commit, now);
      CommittedRunShape(s, run, commit, now);
    case PutWrite(config, kind, now) => PutTables(s, config, kind, now);
  }

  lemma {:induction false} NoFailures(calls: seq<Call>)
    requires AllValid(calls)
    ensures NoneFailed(After(calls).runs)
  {
    hide NoneFailed, Apply, WriteOf, Enabled, Written;
    if calls == [] {
      EmptyInv();
    } else {
      var n := |calls| - 1;
      NoFailures(calls[..n]);
      CallIsWrite(After(calls[..n]), calls[n]);
      WriteFailsNothing(After(calls[..n]), WriteOf(After(calls[..n]), calls[n]));
    }
  }

  lemma StagingDeclares(s: State, run: RunId, index: nat, batch: BatchRequest, now: int)
    requires AllDeclared(s.batches) && run in s.runs
    ensures AllDeclared(Staging(s, run, index, batch, now).batches)
  {
    hide StageItems, Allowed;
  }

  lemma WriteDeclares(s: State, w: Write)
    requires Enabled(s, w) && AllDeclared(s.batches)
    ensures AllDeclared(Written(s, w).batches)
  {
    hide AllDeclared, UploadPasses, CommitPasses, Began, Staging, Committing, PutState, BeginError, RunWithKey, Target,
      Complete, SameConfigTables;
    match w
    case NoWrite =>
    case BeginWrite(key, begin, target) => BeganShape(s, key, begin, target);
    case UploadWrite(run, index, batch, now) =>
      PassesMayUpload(s, run, index, batch);
      StagingDeclares(s, run, index, batch, now);
    case CommitWrite(run, commit, now) =>
      PassesId(s, run, commit);
      PassesComplete(s, run, commit);
      CommittingShape(s, run, commit, now);
    case PutWrite(config, kind, now) => PutTables(s, config, kind, now);
  }

  lemma {:induction false} DeclaredHolds(calls: seq<Call>)
    requires AllValid(calls)
    ensures AllDeclared(After(calls).batches)
  {
    hide AllDeclared, Apply, WriteOf, Enabled, Written;
    if calls == [] {
      EmptyInv();
    } else {
      var n := |calls| - 1;
      DeclaredHolds(calls[..n]);
      CallIsWrite(After(calls[..n]), calls[n]);
      WriteDeclares(After(calls[..n]), WriteOf(After(calls[..n]), calls[n]));
    }
  }

  /** The global invariant of every interleaving of service calls. */
  lemma ReachableInv(calls: seq<Call>)
    requires AllValid(calls)
    ensures Inv(After(calls)) && Core(After(calls))
    ensures NoneFailed(After(calls).runs) && SerialInv(After(calls).runs, After(calls).sync)
  {
    EmptyInv();
    hide Core, SerialInv, NoneFailed, AllDeclared, Execute;
    ExecuteKeepsCore(EMPTY_STATE, calls);
    DeclaredHolds(calls);
    SerialHolds(calls);
    NoFailures(calls);
  }

  lemma {:induction false} ExecuteConcat(s: State, a: seq<Call>, b: seq<Call>)
    ensures Execute(s, a + b) == Execute(Execute(s, a), b)
  {
    hide Apply;
    if b == [] {
      assert a + b == a;
    } else {
      var n := |b| - 1;
      ExecuteConcat(s, a, b[..n]);
      assert (a + b)[..|a + b| - 1] == a + b[..n];
    }
  }

  /** A committed call applies the commit's tables. */
  lemma AppliedCommit(s: State, id: RunId, request: CommitRequest, now: int)
    requires CommitPasses(s, id, request)
    ensures id in s.runs && s.runs[id].config in s.configs && Complete(RowsOf(s.batches, id), request.batchCount)
    ensures Apply(s, CommitCall(id, request, now)).state == Committing(s, id, request, now)
  {
    hide Committing, Complete, CommitError;
    PassesComplete(s, id, request);
  }
}
