/** The services behind one database: any sequence of requests leaves the tables and
    gives the answers of the specification. */
module Sessions {
  import opened Model
  import opened RefreshSpec
  import opened Invariant
  import opened Traces
  import opened StoreModel
  import opened RefreshService
  import opened CommitService
  import opened ConfigService

  lemma ServedKeepsCore(s: State, call: Call)
    requires call.Valid()
    requires Core(s)
    ensures Core(Apply(s, call).state)
  {
    hide *;
    CallIsWrite(s, call);
    WriteKeepsCore(s, WriteOf(s, call));
  }

  lemma ApplyIs(s: State, call: Call)
    ensures Apply(s, call) ==
              match call
              case BeginCall(key, begin) => Begin(s, key, begin)
              case UploadCall(run, index, batch, bytes, limits, now) =>
                RefreshSpec.UploadBatch(s, run, index, batch, bytes, limits, now)
              case CommitCall(run, commit, now) => Commit(s, run, commit, now)
              case PutCall(config, expected, now) => PutOutcome(s, config, expected, now)
  {
    hide Begin, RefreshSpec.UploadBatch, Commit, PutOutcome;
  }

  /** One request in its own transaction. */
  method Serve(db: Store, call: Call) returns (reply: Reply)
    requires call.Valid()
    requires Core(db.Snapshot())
    modifies db
    ensures db.Snapshot() == Apply(old(db.Snapshot()), call).state
    ensures reply == Apply(old(db.Snapshot()), call).reply
    ensures Core(db.Snapshot())
  {
    ghost var s := db.Snapshot();
    hide Core, Apply, Begin, RefreshSpec.UploadBatch, Commit, PutOutcome;
    ServedKeepsCore(s, call);
    ApplyIs(s, call);
    match call
    case BeginCall(key, begin) =>
      reply := BeginRefresh(db, key, begin);
    case UploadCall(run, index, batch, bytes, limits, now) =>
      reply := RefreshService.UploadBatch(db, run, index, batch, bytes, limits, now);
    case CommitCall(run, commit, now) =>
      reply := CommitRefresh(db, run, commit, now);
    case PutCall(config, expected, now) =>
      reply := PutConfig(db, config, expected, now);
  }

  lemma ExecuteStep(calls: seq<Call>, i: nat)
    requires i < |calls|
    ensures After(calls[..i + 1]) == Apply(After(calls[..i]), calls[i]).state
  {
    hide Apply;
    var next := calls[..i + 1];
    assert next[..|next| - 1] == calls[..i] && next[i] == calls[i];
  }

  lemma StartsEmpty(calls: seq<Call>)
    ensures After(calls[..0]) == EMPTY_STATE && calls[..|calls|] == calls
  {
  }

  /** A fresh database after any sequence of requests holds exactly the tables of the trace. */
  method ServeAll(calls: seq<Call>) returns (db: Store, replies: seq<Reply>)
    requires AllValid(calls)
    ensures fresh(db) && db.Snapshot() == After(calls)
    ensures |replies| == |calls|
    ensures forall i :: 0 <= i < |calls| ==> replies[i] == Apply(After(calls[..i]), calls[i]).reply
  {
    db := new Store();
    replies := [];
    EmptyInv();
    hide Core, Apply, After;
    StartsEmpty(calls);
    for i := 0 to |calls|
      invariant fresh(db) && db.Snapshot() == After(calls[..i])
      invariant Core(db.Snapshot())
      invariant |replies| == i
      invariant forall j :: 0 <= j < i ==> replies[j] == Apply(After(calls[..j]), calls[j]).reply
    {
      ExecuteStep(calls, i);
      var reply := Serve(db, calls[i]);
      replies := replies + [reply];
    }
  }
}
