/** Configuration promises over arbitrary traces. */
module ConfigTraces {
  import opened Options
  import opened Model
  import opened ConfigSpec
  import opened RefreshSpec
  import opened Invariant
  import opened ConfigProofs
  import opened ConfigTheorems
  import opened StepProofs
  import opened UploadProofs
  import opened CommitProofs
  import opened Traces
  import opened Retries
  import opened History

  lemma AfterStep(calls: seq<Call>, call: Call)
    ensures After(calls + [call]) == Apply(After(calls), call).state
  {
    hide Apply;
    assert (calls + [call])[..|calls + [call]| - 1] == calls;
  }

  /** A write is accepted exactly when it names the snapshot current at that point
      of the trace, and the snapshot read back afterwards is the one it requested. */
  lemma PutRoundTrip(calls: seq<Call>, request: ConfigRequest, expected: Option<EditPayload>, now: int)
    requires AllValid(calls) && request.Valid()
    ensures var reply := Apply(After(calls), PutCall(request, expected, now)).reply;
            && (!reply.Rejected? <==> !MixedCurrency(request) && expected == CurrentEdit(After(calls)))
            && (!reply.Rejected? ==>
                  CurrentEdit(After(calls + [PutCall(request, expected, now)])) == Some(EditOfRequest(request)))
  {
    var s := After(calls);
    AfterStep(calls, PutCall(request, expected, now));
    hide Core, After, PutVerdict, PutState, CurrentEdit, MixedCurrency;
    CompareAndSet(s, request, expected, now);
    if Put(s, request, expected, now).PutAccepted? {
      ReachableInv(calls);
      InvConfig(s);
      PutReadsBack(s, request, expected, now);
    }
  }

  lemma InvConfig(s: State)
    requires Core(s)
    ensures ConfigInv(s) && CatalogOk(Catalog(s.categories, s.rules)) && VersionsOk(s.configs)
    ensures AllLinksOk(s.rules, s.configRules, s.configs) && LiveInv(s)
  {
    hide RunInv, LiveInv, CatalogOk, VersionsOk, ContentsOk, AllLinksOk;
  }

  // ---------------------------------------------------------------------
  // Identity of versions and rules

  /** Each stored digest is the digest recomputed through the version's links, and
      equals the digest of the request that created it; versions are 1..n. */
  lemma ConfigIdentity(calls: seq<Call>, v: Version)
    requires AllValid(calls) && v in After(calls).configs
    ensures var s := After(calls);
            && s.configs[v].hash == SemanticHash(s, v) == DesiredHash(s.configs[v].source)
            && v >= 1 && forall u: nat :: 1 <= u < v ==> u in s.configs
  {
    hide Core, After, SemanticHash, DesiredHash, ConfigInv;
    var s := After(calls);
    ReachableInv(calls);
    InvConfig(s);
    StoredHashIsSemantic(s, v);
    VersionsAreClosed(s.configs, v);
  }

  lemma VersionsAreClosed(configs: map<Version, Config>, v: Version)
    requires VersionsOk(configs) && v in configs
    ensures v >= 1 && forall u: nat :: 1 <= u < v ==> u in configs
  {
  }

  /** Each category's rule versions are 1..m, and no two of them have the same text. */
  lemma RuleIdentity(calls: seq<Call>, a: RuleRef, b: RuleRef)
    requires AllValid(calls) && a in After(calls).rules && b in After(calls).rules
    ensures a.version >= 1 && forall j: nat :: 1 <= j < a.version ==> RuleRef(a.category, j) in After(calls).rules
    ensures a.category == b.category && After(calls).rules[a].text == After(calls).rules[b].text ==> a == b
  {
    hide Core, After;
    var s := After(calls);
    ReachableInv(calls);
    InvConfig(s);
    hide VersionsOk, AllLinksOk, LiveInv;
    RulesAreDistinct(Catalog(s.categories, s.rules), a, b);
  }

  lemma RulesAreDistinct(c: Catalog, a: RuleRef, b: RuleRef)
    requires CatalogOk(c) && a in c.rules && b in c.rules
    ensures a.version >= 1 && forall j: nat :: 1 <= j < a.version ==> RuleRef(a.category, j) in c.rules
    ensures a.category == b.category && c.rules[a].text == c.rules[b].text ==> a == b
  {
  }

  /** Asking again for an earlier rule of a category links the version it received first. */
  lemma EarlierRuleKeepsItsVersion(calls: seq<Call>, request: ConfigRequest, i: nat, n: Version, now: int)
    requires AllValid(calls) && request.Valid() && i < |request.categories|
    requires RuleRef(request.categories[i].key, n) in After(calls).rules
    requires After(calls).rules[RuleRef(request.categories[i].key, n)].text == request.categories[i].rule
    ensures var t := NewVersion(After(calls), request, now);
            var v := Next(After(calls).configs.Keys);
            && v in t.configRules && request.categories[i].key in t.configRules[v]
            && t.configRules[v][request.categories[i].key] == n
  {
    var s := After(calls);
    hide *;
    ReachableInv(calls);
    InvConfig(s);
    RequestMeans(request);
    EarlierRuleIsReused(Catalog(s.categories, s.rules), request.categories, i, n);
    NewVersionSelects(s, request, now);
  }

  lemma NewVersionSelects(s: State, request: ConfigRequest, now: int)
    ensures NewVersion(s, request, now).configRules ==
              s.configRules[Next(s.configs.Keys) :=
                              SelectedRules(AddItems(Catalog(s.categories, s.rules), request.categories).rules,
                                            request.categories)]
  {
  }

  // ---------------------------------------------------------------------
  // Pending isolation

  /** Calls that neither publish a run nor edit the active version in place. */
  ghost predicate LeavesActive(s: State, w: Write) {
    !w.CommitWrite? && (w.PutWrite? ==> w.kind == NewPending || w.kind == UnchangedPending)
  }

  /** What a dashboard reads: the active version, its rules, its presentation and the live data. */
  ghost predicate SameDashboardInputs(s: State, t: State) {
    SameActiveView(s, t) && t.ledger == s.ledger && t.sync == s.sync
  }

  lemma TablesSameView(s: State, t: State)
    requires SameConfigTables(s, t)
    ensures SameActiveView(s, t)
  {
  }

  lemma BeginLeavesActive(s: State, key: string, begin: BeginRequest, target: Version)
    ensures SameDashboardInputs(s, Began(s, key, begin, target))
  {
  }

  lemma UploadLeavesActive(s: State, run: RunId, index: nat, batch: BatchRequest, now: int)
    requires run in s.runs
    ensures SameDashboardInputs(s, Staging(s, run, index, batch, now))
  {
    hide Staging, SameActiveView;
    StagingShape(s, run, index, batch, now);
    TablesSameView(s, Staging(s, run, index, batch, now));
  }

  lemma InputsFrom(s: State, t: State)
    requires SameActiveView(s, t) && t.ledger == s.ledger && t.sync == s.sync
    ensures SameDashboardInputs(s, t)
  {
  }

  lemma NewPendingLeavesActive(s: State, config: ConfigRequest, now: int)
    requires config.Valid() && Current(s.configs, Active).Some?
    requires Core(s)
    ensures SameDashboardInputs(s, NewVersion(s, config, now))
  {
    hide *;
    InvConfig(s);
    PendingIsIsolated(s, config, now);
    InputsFrom(s, NewVersion(s, config, now));
  }

  lemma WriteLeavesActive(s: State, w: Write)
    requires Enabled(s, w) && LeavesActive(s, w) && Current(s.configs, Active).Some?
    requires Core(s)
    ensures SameDashboardInputs(s, Written(s, w))
  {
    hide Core, SameDashboardInputs, UploadPasses, CommitPasses, Began, Staging, NewVersion, BeginError, RunWithKey,
      Target, Current, Committing;
    match w
    case NoWrite => SameInputsSelf(s);
    case BeginWrite(key, begin, target) => BeginLeavesActive(s, key, begin, target);
    case UploadWrite(run, index, batch, now) =>
      PassesOpen(s, run, index, batch);
      UploadLeavesActive(s, run, index, batch, now);
    case PutWrite(config, kind, now) =>
      if kind == NewPending {
        NewPendingLeavesActive(s, config, now);
      } else {
        SameInputsSelf(s);
      }
  }

  /** The writes of a trace's tail, each in the state it happens in. */
  ghost predicate AllLeaveActive(s: State, calls: seq<Call>) {
    forall i :: 0 <= i < |calls| ==>
      LeavesActive(Execute(s, calls[..i]), WriteOf(Execute(s, calls[..i]), calls[i]))
  }

  /** Begins, uploads and pending writes, however many, change nothing a dashboard reads. */
  lemma {:induction false} PendingIsolation(s: State, calls: seq<Call>)
    requires AllValid(calls) && AllLeaveActive(s, calls) && Current(s.configs, Active).Some?
    requires Core(s)
    ensures SameDashboardInputs(s, Execute(s, calls))
  {
    hide Core, Apply, WriteOf, Enabled, Written, LeavesActive, SameDashboardInputs, Current;
    if calls == [] {
      SameInputsSelf(s);
    } else {
      var n := |calls| - 1;
      var t := Execute(s, calls[..n]);
      LeaveActivePrefix(s, calls);
      PendingIsolation(s, calls[..n]);
      ExecuteKeepsCore(s, calls[..n]);
      CallIsWrite(t, calls[n]);
      InputsActive(s, t);
      assert LeavesActive(t, WriteOf(t, calls[n]));
      WriteLeavesActive(t, WriteOf(t, calls[n]));
      SameInputsTransitive(s, t, Execute(s, calls));
    }
  }

  lemma SameInputsSelf(s: State)
    ensures SameDashboardInputs(s, s)
  {
  }

  lemma InputsActive(s: State, t: State)
    requires SameDashboardInputs(s, t)
    ensures Current(t.configs, Active) == Current(s.configs, Active)
  {
  }

  lemma SameInputsTransitive(s: State, t: State, u: State)
    requires SameDashboardInputs(s, t) && SameDashboardInputs(t, u)
    ensures SameDashboardInputs(s, u)
  {
  }

  lemma LeaveActivePrefix(s: State, calls: seq<Call>)
    requires calls != [] && AllLeaveActive(s, calls)
    ensures AllLeaveActive(s, calls[..|calls| - 1])
  {
    hide LeavesActive, Execute, WriteOf;
    var before := calls[..|calls| - 1];
    forall i | 0 <= i < |before|
      ensures LeavesActive(Execute(s, before[..i]), WriteOf(Execute(s, before[..i]), before[i]))
    {
      assert before[..i] == calls[..i] && before[i] == calls[i];
      assert LeavesActive(Execute(s, calls[..i]), WriteOf(Execute(s, calls[..i]), calls[i]));
    }
  }

  // ---------------------------------------------------------------------
  // Activation

  lemma ActivatedBase(configs: map<Version, Config>, v: Version, now: int)
    requires VersionsOk(configs) && v in configs && configs[v].status == Pending
    ensures Base(configs) == Some(v) == Base(Activated(configs, v, now))
  {
    var r := Activated(configs, v, now);
    assert Current(configs, Pending) == Some(v);
    assert v in r && r[v].status == Active;
    forall w | w in r ensures r[w].status != Pending && (r[w].status == Active ==> w == v) {
      if w != v {
        assert w in configs && configs[w].status != Pending;
        if configs[w].status == Active {
          assert Current(configs, Active) == Some(w);
        }
      }
    }
    assert Current(r, Pending).None?;
    assert Current(r, Active) == Some(v);
  }

  /** Committing never changes the edit hash: neither a refresh of the active version
      nor the activation of a pending one. */
  lemma CommitKeepsEdit(s: State, id: RunId, request: CommitRequest, now: int)
    requires CommitPasses(s, id, request)
    requires Core(s)
    ensures id in s.runs && s.runs[id].config in s.configs && Complete(RowsOf(s.batches, id), request.batchCount)
    ensures CurrentEdit(Committing(s, id, request, now)) == CurrentEdit(s)
  {
    hide *;
    PassesId(s, id, request);
    PassesMeans(s, id, request);
    InvConfig(s);
    CommittingShape(s, id, request, now);
    var v := s.runs[id].config;
    var t := Committing(s, id, request, now);
    if s.configs[v].status == Pending {
      ActivatedBase(s.configs, v, now);
      CommittingExtends(s, id, request, now);
      SameBasis(s, t, v);
      PublishedIs(s, v);
      ActivationKeepsEdit(s, t, v);
      EditIs(s, v);
      EditIs(t, v);
    } else {
      NotPendingSame(s, t, v, now);
    }
  }

  lemma SameBasis(s: State, t: State, v: Version)
    requires ConfigExtends(s, t) && v in s.configs
    ensures v in t.configs && t.configs[v].basis == s.configs[v].basis
  {
  }

  lemma EditIs(s: State, v: Version)
    requires Base(s.configs) == Some(v) && v in s.configs
    ensures CurrentEdit(s) == Some(EditOf(s, v))
  {
  }

  lemma NotPendingSame(s: State, t: State, v: Version, now: int)
    requires v in s.configs && s.configs[v].status != Pending
    requires t.configs == Activated(s.configs, v, now) && t.categories == PublishedCategories(s, v)
    requires t.rules == s.rules && t.configRules == s.configRules
    ensures CurrentEdit(t) == CurrentEdit(s)
  {
  }

  /** After a commit the active version is the run's, its snapshot is the one being
      edited, and every live row and link belongs to it. */
  lemma CommitPublishesWhole(calls: seq<Call>, id: RunId, request: CommitRequest, now: int)
    requires AllValid(calls) && CommitPasses(After(calls), id, request)
    ensures var s := After(calls);
            var t := After(calls + [CommitCall(id, request, now)]);
            && id in s.runs && Current(t.configs, Active) == Some(s.runs[id].config)
            && CurrentEdit(t) == CurrentEdit(s)
            && (forall r :: r in t.ledger.rows ==> t.ledger.rows[r].config == s.runs[id].config)
            && (forall lk :: lk in t.ledger.links ==> t.ledger.links[lk].config == s.runs[id].config)
  {
    var s := After(calls);
    var call := CommitCall(id, request, now);
    hide *;
    ReachableInv(calls);
    PassesId(s, id, request);
    CommitKeepsEdit(s, id, request, now);
    AppliedCommit(s, id, request, now);
    AfterStep(calls, call);
    CommittingKeepsCore(s, id, request, now);
    CommittingShape(s, id, request, now);
    AdvancedIs(s.sync, id, s.runs[id].config);
    var t := Committing(s, id, request, now);
    SyncIsActive(t);
    LiveBelongs(t);
  }

  lemma LiveBelongs(t: State)
    requires Core(t)
    ensures t.sync.Some? ==>
              && (forall r :: r in t.ledger.rows ==> t.ledger.rows[r].config == t.sync.value.config)
              && (forall lk :: lk in t.ledger.links ==> t.ledger.links[lk].config == t.sync.value.config)
  {
    hide ConfigInv, RunInv, RulesOf, InWindows, AllLinked;
    if t.sync.Some? {
      forall r | r in t.ledger.rows ensures t.ledger.rows[r].config == t.sync.value.config {
      }
      forall lk | lk in t.ledger.links ensures t.ledger.links[lk].config == t.sync.value.config {
        assert LinkOk(t.ledger, lk, t.sync.value.config, RulesOf(t, t.sync.value.config));
      }
    }
  }
}
