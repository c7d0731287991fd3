/** Committed runs are serial: the revision counts them, and each began after the
    previous one had committed. */
module Serial {
  import opened Options
  import opened Model
  import opened ConfigSpec
  import opened RefreshSpec
  import opened Invariant
  import opened StepProofs
  import opened UploadProofs
  import opened CommitProofs
  import opened Traces
  import opened Retries

  ghost predicate IsCommitted(s: State, r: RunId) {
    r in s.runs && s.runs[r].state == Committed
  }

  /** A write other than a commit neither commits a run nor moves the revision. */
  lemma OtherWrites(s: State, w: Write, r: RunId)
    requires Enabled(s, w) && !w.CommitWrite?
    ensures IsCommitted(Written(s, w), r) ==> IsCommitted(s, r)
    ensures Written(s, w).sync == s.sync && Written(s, w).ledger == s.ledger
  {
    hide UploadError, StageItems, Allowed, AddItems, Retire, Present, Current, BeginError, RunWithKey, Target,
      CommitPasses, SelectedRules;
    if w.UploadWrite? {
      StagingShape(s, w.run, w.index, w.batch, w.now);
    }
  }

  lemma WrittenCommit(s: State, id: RunId, request: CommitRequest, now: int)
    requires CommitPasses(s, id, request)
    ensures id in s.runs && s.runs[id].config in s.configs && Complete(RowsOf(s.batches, id), request.batchCount)
    ensures Enabled(s, CommitWrite(id, request, now))
    ensures Written(s, CommitWrite(id, request, now)) == Committing(s, id, request, now)
  {
    hide CommitPasses, Committing, Complete;
    PassesId(s, id, request);
    PassesComplete(s, id, request);
  }

  lemma OneMoreRun(s: State, t: State, id: RunId, next: Run, config: Version)
    requires id in s.runs && s.runs[id].state != Committed && next.state == Committed
    requires t.runs == s.runs[id := next] && t.sync == Some(Advanced(s.sync, id, config))
    requires s.runs[id].syncBefore == if s.sync.Some? then Some(s.sync.value.revision) else None
    ensures t.runs.Keys == s.runs.Keys
    ensures forall r :: IsCommitted(t, r) <==> r == id || IsCommitted(s, r)
    ensures !IsCommitted(s, id)
    ensures Revision(t.sync) == Revision(s.sync) + 1 && Before(s.runs[id]) == Revision(s.sync)
  {
  }

  /** A commit publishes one run, which began at the current revision, and advances it by one. */
  lemma CommitWrites(s: State, id: RunId, request: CommitRequest, now: int)
    requires CommitPasses(s, id, request)
    ensures Enabled(s, CommitWrite(id, request, now))
    ensures var t := Written(s, CommitWrite(id, request, now));
            && id in s.runs && t.runs.Keys == s.runs.Keys
            && (forall r :: IsCommitted(t, r) <==> r == id || IsCommitted(s, r))
            && !IsCommitted(s, id)
            && Revision(t.sync) == Revision(s.sync) + 1
            && Before(s.runs[id]) == Revision(s.sync)
  {
    hide *;
    WrittenCommit(s, id, request, now);
    PassesId(s, id, request);
    PassesMeans(s, id, request);
    CommittingShape(s, id, request, now);
    CommittedRunShape(s, id, request, now);
    var t := Committing(s, id, request, now);
    OneMoreRun(s, t, id, t.runs[id], s.runs[id].config);
  }

  lemma NewRunShape(s: State, w: Write, r: RunId)
    requires Enabled(s, w) && r !in s.runs && r in Written(s, w).runs
    ensures Written(s, w).sync == s.sync && Before(Written(s, w).runs[r]) == Revision(s.sync)
  {
    hide UploadPasses, CommitPasses, Began, Staging, Committing, PutState, BeginError, RunWithKey, Target, Complete,
      UploadedRun, CommittedRun, NewRun, SameConfigTables;
    match w
    case NoWrite =>
    case BeginWrite(key, begin, target) => BeganShape(s, key, begin, target);
    case UploadWrite(run, index, batch, now) =>
      PassesMayUpload(s, run, index, batch);
      StagingShape(s, run, index, batch, now);
    case CommitWrite(run, commit, now) =>
      PassesId(s, run, commit);
      PassesComplete(s, run, commit);
      CommittingShape(s, run, commit, now);
    case PutWrite(config, kind, now) => PutTables(s, config, kind, now);
  }

  // ---------------------------------------------------------------------
  // Traces over any database

  /** The tables after the first i calls. */
  ghost function At(base: State, calls: seq<Call>, i: nat): State
    requires i <= |calls|
  {
    Execute(base, calls[..i])
  }

  ghost predicate CommitsAt(base: State, calls: seq<Call>, i: nat, r: RunId) {
    i < |calls| && IsCommitted(At(base, calls, i + 1), r) && !IsCommitted(At(base, calls, i), r)
  }

  ghost predicate BeginsAt(base: State, calls: seq<Call>, i: nat, r: RunId) {
    i < |calls| && r in At(base, calls, i + 1).runs && r !in At(base, calls, i).runs
  }

  lemma AtStep(base: State, calls: seq<Call>, i: nat)
    requires AllValid(calls) && i < |calls|
    ensures var s := At(base, calls, i);
            Enabled(s, WriteOf(s, calls[i])) && At(base, calls, i + 1) == Written(s, WriteOf(s, calls[i]))
  {
    hide Apply, WriteOf, Enabled, Written;
    CallIsWrite(At(base, calls, i), calls[i]);
    assert calls[..i + 1][..i] == calls[..i];
  }

  lemma AtKept(base: State, calls: seq<Call>, i: nat, j: nat)
    requires AllValid(calls) && i <= j <= |calls|
    requires Core(base)
    ensures Kept(At(base, calls, i), At(base, calls, j))
  {
    hide Core, Kept, Apply;
    ExecuteKeepsCore(base, calls[..i]);
    ExecuteKept(At(base, calls, i), calls[i..j]);
    ExecuteConcat(base, calls[..i], calls[i..j]);
    assert calls[..i] + calls[i..j] == calls[..j];
  }

  lemma StepRevision(base: State, calls: seq<Call>, i: nat)
    requires AllValid(calls) && i < |calls|
    ensures Revision(At(base, calls, i).sync) <= Revision(At(base, calls, i + 1).sync)
  {
    hide Apply, WriteOf, Enabled, Written, Execute;
    AtStep(base, calls, i);
    var s := At(base, calls, i);
    var w := WriteOf(s, calls[i]);
    if w.CommitWrite? {
      EnabledCommit(s, w);
      CommitWrites(s, w.run, w.commit, w.now);
    } else {
      OtherWrites(s, w, 0);
    }
  }

  lemma EnabledCommit(s: State, w: Write)
    requires Enabled(s, w) && w.CommitWrite?
    ensures CommitPasses(s, w.run, w.commit)
  {
  }

  lemma {:induction false} RevisionMonotone(base: State, calls: seq<Call>, i: nat, j: nat)
    requires AllValid(calls) && i <= j <= |calls|
    ensures Revision(At(base, calls, i).sync) <= Revision(At(base, calls, j).sync)
    decreases j - i
  {
    hide Apply, Execute;
    if i < j {
      RevisionMonotone(base, calls, i, j - 1);
      StepRevision(base, calls, j - 1);
    }
  }

  /** What the commit step of a run says about the tables before it. */
  lemma CommitStep(base: State, calls: seq<Call>, i: nat, r: RunId)
    requires AllValid(calls) && CommitsAt(base, calls, i, r)
    ensures var s := At(base, calls, i);
            && r in s.runs && Before(s.runs[r]) == Revision(s.sync)
            && Revision(At(base, calls, i + 1).sync) == Revision(s.sync) + 1
            && At(base, calls, i + 1).runs.Keys == s.runs.Keys
  {
    hide Apply, WriteOf, Enabled, Written, Execute, IsCommitted;
    AtStep(base, calls, i);
    var s := At(base, calls, i);
    var w := WriteOf(s, calls[i]);
    if w.CommitWrite? {
      EnabledCommit(s, w);
      CommitWrites(s, w.run, w.commit, w.now);
    } else {
      OtherWrites(s, w, r);
    }
  }

  /** A run remembers the revision at which it began. */
  lemma BeginStep(base: State, calls: seq<Call>, k: nat, r: RunId)
    requires AllValid(calls) && BeginsAt(base, calls, k, r)
    ensures Before(At(base, calls, k + 1).runs[r]) == Revision(At(base, calls, k + 1).sync)
  {
    hide Apply, WriteOf, Enabled, Written, Execute;
    AtStep(base, calls, k);
    NewRunShape(At(base, calls, k), WriteOf(At(base, calls, k), calls[k]), r);
  }

  lemma KeptBefore(s: State, t: State, r: RunId)
    requires Kept(s, t) && r in s.runs
    ensures r in t.runs && Before(t.runs[r]) == Before(s.runs[r])
  {
    hide ConfigExtends, BatchesKept;
    assert SameManifest(s.runs[r], t.runs[r]);
  }

  /** In any database that meets the core invariant, of two runs that commit the later
      one, if it began in the trace, began after the earlier one committed. */
  lemma SerialFrom(base: State, calls: seq<Call>, i: nat, a: RunId, j: nat, b: RunId, k: nat)
    requires AllValid(calls) && i < j
    requires CommitsAt(base, calls, i, a) && CommitsAt(base, calls, j, b) && BeginsAt(base, calls, k, b)
    requires Core(base)
    ensures i < k
  {
    hide Core, Execute, Kept, CommitsAt;
    CommitIndex(base, calls, i, a);
    CommitIndex(base, calls, j, b);
    CommitStep(base, calls, i, a);
    CommitStep(base, calls, j, b);
    if k <= i {
      if k == i {
        hide *;
        BeginsFresh(base, calls, k, b);
      } else {
        BeginStep(base, calls, k, b);
        AtKept(base, calls, k + 1, j);
        KeptBefore(At(base, calls, k + 1), At(base, calls, j), b);
        RevisionMonotone(base, calls, k + 1, i);
        RevisionMonotone(base, calls, i + 1, j);
      }
      assert false;
    }
  }

  lemma CommitIndex(base: State, calls: seq<Call>, i: nat, r: RunId)
    requires CommitsAt(base, calls, i, r)
    ensures i < |calls|
  {
  }

  lemma BeginsFresh(base: State, calls: seq<Call>, k: nat, r: RunId)
    requires BeginsAt(base, calls, k, r)
    ensures k < |calls| && r in At(base, calls, k + 1).runs && r !in At(base, calls, k).runs
  {
  }

  /** Of two committed runs the later one began after the earlier one committed. */
  lemma CommittedRunsAreSerial(calls: seq<Call>, i: nat, a: RunId, j: nat, b: RunId, k: nat)
    requires AllValid(calls) && i < j
    requires CommitsAt(EMPTY_STATE, calls, i, a) && CommitsAt(EMPTY_STATE, calls, j, b)
    requires BeginsAt(EMPTY_STATE, calls, k, b)
    ensures i < k
  {
    hide Core, CommitsAt, BeginsAt;
    EmptyInv();
    SerialFrom(EMPTY_STATE, calls, i, a, j, b, k);
  }

  /** The number of calls of a trace that published a run for the first time. */
  ghost function Commits(base: State, calls: seq<Call>): nat {
    if calls == [] then 0
    else
      var n := |calls| - 1;
      Commits(base, calls[..n]) + if WriteOf(Execute(base, calls[..n]), calls[n]).CommitWrite? then 1 else 0
  }

  /** From any tables on, the sync revision grows by one with every publication. */
  lemma {:induction false} RevisionGrows(base: State, calls: seq<Call>)
    requires AllValid(calls)
    ensures Revision(Execute(base, calls).sync) == Revision(base.sync) + Commits(base, calls)
  {
    hide Apply, WriteOf, Enabled, Written;
    if calls != [] {
      var n := |calls| - 1;
      var s := Execute(base, calls[..n]);
      RevisionGrows(base, calls[..n]);
      CallIsWrite(s, calls[n]);
      var w := WriteOf(s, calls[n]);
      if w.CommitWrite? {
        EnabledCommit(s, w);
        CommitWrites(s, w.run, w.commit, w.now);
      } else {
        OtherWrites(s, w, 0);
      }
    }
  }

  /** The sync revision is the number of publications, and of committed runs; no
      two committed runs began at the same revision. */
  lemma RevisionCountsCommits(calls: seq<Call>)
    requires AllValid(calls)
    ensures Revision(After(calls).sync) == Commits(EMPTY_STATE, calls) == |CommittedRuns(After(calls).runs)|
    ensures forall a, b | IsCommitted(After(calls), a) && IsCommitted(After(calls), b) ::
              After(calls).runs[a].syncBefore == After(calls).runs[b].syncBefore ==> a == b
  {
    hide Core, SerialInv, NoneFailed, Execute;
    ReachableInv(calls);
    RevisionGrows(EMPTY_STATE, calls);
    SerialCount(After(calls).runs, After(calls).sync);
    DistinctRevisions(After(calls));
  }

  lemma SerialCount(runs: map<RunId, Run>, sync: Option<Sync>)
    requires SerialInv(runs, sync)
    ensures |CommittedRuns(runs)| == Revision(sync)
  {
  }

  lemma DistinctRevisions(s: State)
    requires SerialInv(s.runs, s.sync)
    ensures forall a, b | IsCommitted(s, a) && IsCommitted(s, b) ::
              s.runs[a].syncBefore == s.runs[b].syncBefore ==> a == b
  {
  }
}
