/** What a configuration write decides: which of four outcomes it takes, what becomes of
    the versions, and when it is refused, read off the request and the stored requests. */
module PutAnswers {
  import opened Options
  import opened Model
  import opened ConfigSpec
  import opened RefreshSpec
  import opened Invariant
  import opened ConfigProofs
  import opened ConfigTheorems
  import opened StepProofs
  import opened Traces
  import opened ConfigService
  import opened Answers

  // ---------------------------------------------------------------------
  // What the two digests cover

  /** Every item has a counterpart with its key and rule. */
  ghost predicate Covered(xs: seq<CategoryInput>, ys: seq<CategoryInput>) {
    forall x :: x in xs ==> exists y :: y in ys && y.key == x.key && y.rule == x.rule
  }

  /** The requests agree on everything that decides which transactions belong where. */
  ghost predicate SameClassified(a: ConfigRequest, b: ConfigRequest) {
    && a.basis == b.basis
    && Covered(a.categories, b.categories) && Covered(b.categories, a.categories)
  }

  /** The requests agree on everything, in whatever order. */
  ghost predicate SameRequested(a: ConfigRequest, b: ConfigRequest) {
    a.basis == b.basis && forall item :: item in a.categories <==> item in b.categories
  }

  lemma ByKeyHas(request: ConfigRequest, item: CategoryInput)
    requires request.Valid()
    ensures item in request.categories <==>
              item.key in ByKey(request.categories) && ByKey(request.categories)[item.key] == item
  {
    var items := request.categories;
    if item in items {
      var i :| 0 <= i < |items| && items[i] == item;
      ByKeyAt(items, i);
    }
  }

  /** The map holds exactly the items, by key. */
  ghost predicate Indexes(m: map<Key, CategoryInput>, items: seq<CategoryInput>) {
    && (forall item :: item in items ==> item.key in m && m[item.key] == item)
    && (forall k :: k in m ==> m[k] in items && m[k].key == k)
  }

  lemma ByKeyIndexes(request: ConfigRequest)
    requires request.Valid()
    ensures Indexes(ByKey(request.categories), request.categories)
  {
    var m := ByKey(request.categories);
    forall item | item in request.categories ensures item.key in m && m[item.key] == item {
      ByKeyHas(request, item);
    }
  }

  lemma CoveredIff(xs: seq<CategoryInput>, ys: seq<CategoryInput>, m: map<Key, CategoryInput>,
                   n: map<Key, CategoryInput>)
    requires Indexes(m, xs) && Indexes(n, ys)
    ensures Covered(xs, ys) <==> forall k :: k in m ==> k in n && n[k].rule == m[k].rule
  {
    if Covered(xs, ys) {
      forall k | k in m ensures k in n && n[k].rule == m[k].rule {
        assert m[k] in xs;
      }
    }
    if forall k :: k in m ==> k in n && n[k].rule == m[k].rule {
      forall x | x in xs ensures exists y :: y in ys && y.key == x.key && y.rule == x.rule {
        assert x.key in m && n[x.key] in ys;
      }
    }
  }

  /** The configuration digest covers exactly timezone, currency, aggregation, keys and rules. */
  lemma DigestCoversRules(a: ConfigRequest, b: ConfigRequest)
    requires a.Valid() && b.Valid()
    ensures DesiredHash(a) == DesiredHash(b) <==> SameClassified(a, b)
  {
    var m, n := ByKey(a.categories), ByKey(b.categories);
    DigestIgnoresPresentation(a, b);
    ByKeyIndexes(a);
    ByKeyIndexes(b);
    hide DesiredHash, ByKey, Indexes, Covered, ConfigRequest.Valid;
    CoveredIff(a.categories, b.categories, m, n);
    CoveredIff(b.categories, a.categories, n, m);
    SameRulesIff(m, n);
  }

  lemma SameRulesIff(m: map<Key, CategoryInput>, n: map<Key, CategoryInput>)
    ensures m.Keys == n.Keys && (forall k :: k in m ==> m[k].rule == n[k].rule) <==>
              && (forall k :: k in m ==> k in n && n[k].rule == m[k].rule)
              && (forall k :: k in n ==> k in m && m[k].rule == n[k].rule)
  {
  }

  lemma SameItemsIff(xs: seq<CategoryInput>, ys: seq<CategoryInput>, m: map<Key, CategoryInput>,
                     n: map<Key, CategoryInput>)
    requires Indexes(m, xs) && Indexes(n, ys)
    ensures m == n <==> forall item :: item in xs <==> item in ys
  {
    if forall item :: item in xs <==> item in ys {
      forall k ensures (k in m <==> k in n) && (k in m ==> m[k] == n[k]) {
        if k in m { assert m[k] in ys; }
        if k in n { assert n[k] in xs; }
      }
    }
    if m == n {
      forall item ensures item in xs <==> item in ys {
        if item in xs { assert n[item.key] in ys; }
        if item in ys { assert m[item.key] in xs; }
      }
    }
  }

  lemma EditsIff(m: map<Key, CategoryInput>, n: map<Key, CategoryInput>)
    requires (forall k :: k in m ==> m[k].key == k) && forall k :: k in n ==> n[k].key == k
    ensures (map k | k in m :: CategoryEdit(m[k].show, m[k].rule)) ==
              (map k | k in n :: CategoryEdit(n[k].show, n[k].rule))
       <==> m == n
  {
    var x := map k | k in m :: CategoryEdit(m[k].show, m[k].rule);
    var y := map k | k in n :: CategoryEdit(n[k].show, n[k].rule);
    assert x.Keys == m.Keys && y.Keys == n.Keys;
    if x == y {
      forall k | k in m ensures k in n && m[k] == n[k] {
        assert x[k] == y[k];
      }
    }
  }

  /** The edit digest covers every field that a writer can set. */
  lemma EditCoversAll(a: ConfigRequest, b: ConfigRequest)
    requires a.Valid() && b.Valid()
    ensures EditOfRequest(a) == EditOfRequest(b) <==> SameRequested(a, b)
  {
    var m, n := ByKey(a.categories), ByKey(b.categories);
    ByKeyIndexes(a);
    ByKeyIndexes(b);
    SameItemsIff(a.categories, b.categories, m, n);
    EditsIff(m, n);
    hide ByKey, Indexes, ConfigRequest.Valid;
  }

  // ---------------------------------------------------------------------
  // The decision

  /** A pending version is superseded now; the others are untouched. */
  ghost predicate PendingRetired(s: State, t: State, now: int) {
    forall v :: v in s.configs ==>
      v in t.configs && t.configs[v] ==
        if s.configs[v].status == Pending then s.configs[v].(status := Superseded, supersededAt := Some(now))
        else s.configs[v]
  }

  ghost predicate Adds(s: State, t: State, request: ConfigRequest, status: Status, activated: Option<int>) {
    exists v :: v !in s.configs && t.configs.Keys == s.configs.Keys + {v}
                && t.configs[v] == Config(status, request.basis, t.configs[v].hash, request, activated, None)
  }

  /** Which outcome an accepted write takes. */
  ghost predicate Decides(s: State, o: Outcome, request: ConfigRequest, now: int) {
    var t := o.state;
    && t.runs == s.runs && t.batches == s.batches && t.staged == s.staged && t.ledger == s.ledger && t.sync == s.sync
    && if forall v :: v in s.configs ==> s.configs[v].status != Active then
         o.reply == Configured(FirstVersion) && PendingRetired(s, t, now) && Adds(s, t, request, Active, Some(now))
       else if exists v :: HasStatus(s, v, Active) && SameClassified(s.configs[v].source, request) then
         o.reply == Configured(LiveEdit) && PendingRetired(s, t, now) && t.configs.Keys == s.configs.Keys
         && t.rules == s.rules && t.configRules == s.configRules && t.categories.Keys == s.categories.Keys
       else if exists v :: HasStatus(s, v, Pending) && SameRequested(s.configs[v].source, request) then
         o.reply == Configured(UnchangedPending) && t == s
       else
         o.reply == Configured(NewPending) && PendingRetired(s, t, now) && Adds(s, t, request, Pending, None)
  }

  lemma RetiredIs(configs: map<Version, Config>, now: int)
    requires VersionsOk(configs)
    ensures var r := Retire(configs, Current(configs, Pending), now);
            && r.Keys == configs.Keys
            && (forall w :: w in configs ==>
                  r[w] == if configs[w].status == Pending
                          then configs[w].(status := Superseded, supersededAt := Some(now))
                          else configs[w])
  {
  }

  lemma AddsFrom(s: State, t: State, request: ConfigRequest, first: bool, now: int)
    requires VersionsOk(s.configs)
    requires t.configs == Retire(s.configs, Current(s.configs, Pending), now)
                          [Next(s.configs.Keys) := NewConfig(request, first, now)]
    ensures PendingRetired(s, t, now)
    ensures Adds(s, t, request, if first then Active else Pending, if first then Some(now) else None)
  {
    var v := Next(s.configs.Keys);
    hide VersionsOk, Retire, DesiredHash, Next, Current;
    RetiredIs(s.configs, now);
    NextIsFresh(s.configs.Keys);
    assert v !in s.configs && t.configs.Keys == s.configs.Keys + {v};
  }

  lemma RetiredFrom(s: State, t: State, now: int)
    requires VersionsOk(s.configs) && t.configs == Retire(s.configs, Current(s.configs, Pending), now)
    ensures PendingRetired(s, t, now) && t.configs.Keys == s.configs.Keys
  {
    RetiredIs(s.configs, now);
    hide VersionsOk, Retire;
  }

  /** The active version's rules are those of its stored request. */
  lemma SemanticsAre(s: State, v: Option<Version>, request: ConfigRequest)
    requires ConfigInv(s) && request.Valid() && (v.Some? ==> v.value in s.configs)
    ensures SameSemantics(s, v, request) <==> v.Some? && SameClassified(s.configs[v.value].source, request)
  {
    if v.Some? {
      StoredHashIsSemantic(s, v.value);
      assert ContentOk(s.configs[v.value]);
      hide ConfigInv, SemanticHash, DesiredHash, SameClassified;
      DigestCoversRules(s.configs[v.value].source, request);
    }
  }

  lemma PendingEdits(s: State, v: Version, request: ConfigRequest)
    requires ConfigInv(s) && request.Valid() && HasStatus(s, v, Pending)
    ensures EditOf(s, v) == EditOfRequest(request) <==> SameRequested(s.configs[v].source, request)
  {
    assert ContentOk(s.configs[v]);
    hide ConfigInv, SameRequested, EditOfRequest;
    EditCoversAll(s.configs[v].source, request);
  }

  lemma SameRequestedIsClassified(a: ConfigRequest, b: ConfigRequest)
    requires SameRequested(a, b)
    ensures SameClassified(a, b)
  {
  }

  lemma StatusIs(s: State, status: Status)
    requires VersionsOk(s.configs) && status != Superseded
    ensures var v := Current(s.configs, status);
            && (v.Some? ==> HasStatus(s, v.value, status))
            && (forall w: Version :: HasStatus(s, w, status) ==> v == Some(w))
  {
  }

  // ---------------------------------------------------------------------
  // The theorem

  lemma Mixed(request: ConfigRequest)
    ensures MixedCurrency(request) <==>
              exists item :: item in request.categories && item.show.currency != request.basis.currency
  {
    if exists item :: item in request.categories && item.show.currency != request.basis.currency {
      var item :| item in request.categories && item.show.currency != request.basis.currency;
      var i :| 0 <= i < |request.categories| && request.categories[i] == item;
    }
  }

  lemma CasIs(s: State, expected: Option<EditPayload>)
    ensures CasError(s, expected) ==
              if expected == CurrentEdit(s) then None
              else if CurrentEdit(s).Some? && expected.None? then Some(ConfigVersionRequired)
              else Some(ConfigVersionConflict)
  {
    hide EditOf;
  }

  lemma LiveDecides(s: State, o: Outcome, request: ConfigRequest, now: int)
    requires VersionsOk(s.configs) && Current(s.configs, Active).Some?
    requires SameClassified(s.configs[Current(s.configs, Active).value].source, request)
    requires o == Outcome(s.(configs := Retire(s.configs, Current(s.configs, Pending), now),
                             categories := Present(s.categories, request.categories)), Configured(LiveEdit))
    ensures Decides(s, o, request, now)
  {
    var a := Current(s.configs, Active).value;
    RetiredFrom(s, o.state, now);
    StatusIs(s, Active);
    hide Retire, SameClassified, SameRequested, PendingRetired, Adds, VersionsOk;
    assert HasStatus(s, a, Active);
  }

  lemma NotLive(s: State, request: ConfigRequest)
    requires VersionsOk(s.configs)
    requires var a := Current(s.configs, Active); a.Some? ==> !SameClassified(s.configs[a.value].source, request)
    ensures !exists v :: HasStatus(s, v, Active) && SameClassified(s.configs[v].source, request)
    ensures Current(s.configs, Active).None? <==> forall v :: v in s.configs ==> s.configs[v].status != Active
  {
    StatusIs(s, Active);
    hide SameClassified, VersionsOk;
  }

  lemma NotPending(s: State, request: ConfigRequest)
    requires VersionsOk(s.configs)
    requires var p := Current(s.configs, Pending); p.Some? ==> !SameRequested(s.configs[p.value].source, request)
    ensures !exists v :: HasStatus(s, v, Pending) && SameRequested(s.configs[v].source, request)
  {
    StatusIs(s, Pending);
    hide SameRequested, VersionsOk;
  }

  lemma UnchangedDecides(s: State, request: ConfigRequest, now: int)
    requires VersionsOk(s.configs) && Current(s.configs, Pending).Some? && Current(s.configs, Active).Some?
    requires !SameClassified(s.configs[Current(s.configs, Active).value].source, request)
    requires SameRequested(s.configs[Current(s.configs, Pending).value].source, request)
    ensures Decides(s, Outcome(s, Configured(UnchangedPending)), request, now)
  {
    NotLive(s, request);
    hide SameClassified, SameRequested, VersionsOk, PendingRetired, Adds;
    assert HasStatus(s, Current(s.configs, Pending).value, Pending);
  }

  lemma NewDecides(s: State, o: Outcome, request: ConfigRequest, now: int)
    requires VersionsOk(s.configs)
    requires var a := Current(s.configs, Active); a.Some? ==> !SameClassified(s.configs[a.value].source, request)
    requires var p := Current(s.configs, Pending); p.Some? ==> !SameRequested(s.configs[p.value].source, request)
    requires var a := Current(s.configs, Active);
             o == Outcome(NewVersion(s, request, now), Configured(if a.None? then FirstVersion else NewPending))
    ensures Decides(s, o, request, now)
  {
    hide *;
    NotLive(s, request);
    NotPending(s, request);
    NewVersionIs(s, request, now);
    AddsFrom(s, o.state, request, Current(s.configs, Active).None?, now);
    DecidesNew(s, o, request, Current(s.configs, Active).None?, now);
  }

  lemma DecidesNew(s: State, o: Outcome, request: ConfigRequest, first: bool, now: int)
    requires first <==> forall v :: v in s.configs ==> s.configs[v].status != Active
    requires !exists v :: HasStatus(s, v, Active) && SameClassified(s.configs[v].source, request)
    requires !exists v :: HasStatus(s, v, Pending) && SameRequested(s.configs[v].source, request)
    requires var t := o.state;
             && t.runs == s.runs && t.batches == s.batches && t.staged == s.staged
             && t.ledger == s.ledger && t.sync == s.sync
    requires PendingRetired(s, o.state, now)
    requires Adds(s, o.state, request, if first then Active else Pending, if first then Some(now) else None)
    requires o.reply == Configured(if first then FirstVersion else NewPending)
    ensures Decides(s, o, request, now)
  {
    hide SameClassified, SameRequested, PendingRetired, Adds;
  }

  /** A pending version exists only beside an active one. */
  lemma PendingHasActive(s: State)
    requires VersionsOk(s.configs)
    ensures Current(s.configs, Pending).Some? ==> Current(s.configs, Active).Some?
  {
  }

  /** In every trace a write of mixed currencies is refused, then one that does not name
      the current snapshot; otherwise it edits in place when the active version already
      has its rules, changes nothing when it is what is pending, and adds a version when
      not, which is active at once only if it is the first. */
  lemma PutAnswer(calls: seq<Call>, request: ConfigRequest, expected: Option<EditPayload>, now: int)
    requires AllValid(calls) && request.Valid()
    ensures var s := After(calls);
            var o := Apply(s, PutCall(request, expected, now));
            if exists item :: item in request.categories && item.show.currency != request.basis.currency then
              o == Outcome(s, Rejected(MixedBudgetCurrency))
            else if expected != CurrentEdit(s) then
              o == Outcome(s, Rejected(if CurrentEdit(s).Some? && expected.None? then ConfigVersionRequired
                                       else ConfigVersionConflict))
            else Decides(s, o, request, now)
  {
    var s := After(calls);
    var active, pending := Current(s.configs, Active), Current(s.configs, Pending);
    hide *;
    ReachableInv(calls);
    CoreParts(s);
    ConfigParts(s);
    Mixed(request);
    CasIs(s, expected);
    PutIs(s, request, expected, now);
    PutApplied(s, request, expected, now);
    if !MixedCurrency(request) && expected == CurrentEdit(s) {
      StatusIs(s, Active);
      StatusIs(s, Pending);
      StatusMeans(s, active, Active);
      StatusMeans(s, pending, Pending);
      SemanticsAre(s, active, request);
      SemanticsAre(s, pending, request);
      PendingHasActive(s);
      var o := Apply(s, PutCall(request, expected, now));
      if pending.Some? {
        PendingEdits(s, pending.value, request);
        if SameRequested(s.configs[pending.value].source, request) {
          SameRequestedIsClassified(s.configs[pending.value].source, request);
        }
      }
      if SameSemantics(s, active, request) {
        LiveDecides(s, o, request, now);
      } else if SameSemantics(s, pending, request) && EditOf(s, pending.value) == EditOfRequest(request) {
        UnchangedDecides(s, request, now);
      } else {
        NewDecides(s, o, request, now);
      }
    }
  }

  lemma StatusMeans(s: State, v: Option<Version>, status: Status)
    requires v.Some? ==> HasStatus(s, v.value, status)
    ensures v.Some? ==> v.value in s.configs
  {
  }

  lemma PutApplied(s: State, request: ConfigRequest, expected: Option<EditPayload>, now: int)
    ensures Apply(s, PutCall(request, expected, now)) == PutOutcome(s, request, expected, now)
  {
    hide PutOutcome;
  }
}
