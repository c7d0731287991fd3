/** What the answers of begin, upload and commit say, read off the tables around the
    call and the request alone. */
module Answers {
  import opened Options
  import opened Model
  import opened ConfigSpec
  import opened RefreshSpec
  import opened Invariant
  import opened ConfigProofs
  import opened StepProofs
  import opened UploadProofs
  import opened CommitProofs
  import opened Traces
  import opened Retries
  import opened StagingTraces
  import opened RefreshService

  // ---------------------------------------------------------------------
  // Versions and their rules

  ghost predicate HasStatus(s: State, v: Version, status: Status) {
    v in s.configs && s.configs[v].status == status
  }

  /** The version that a new run of this mode rebuilds or extends. */
  ghost predicate IsTarget(s: State, mode: Mode, v: Version) {
    || (mode == Full && HasStatus(s, v, Pending))
    || (HasStatus(s, v, Active) && (mode == Full ==> forall w :: w in s.configs ==> s.configs[w].status != Pending))
  }

  /** The rule row that a version links for a category. */
  ghost predicate Links(s: State, v: Version, k: Key, rule: RuleVersion) {
    && v in s.configRules && k in s.configRules[v] && rule.version == s.configRules[v][k]
    && RuleRef(k, rule.version) in s.rules && rule.rule == s.rules[RuleRef(k, rule.version)]
  }

  lemma RulesAreLinks(s: State, v: Version)
    requires ConfigInv(s) && v in s.configs
    ensures v in s.configRules && RulesOf(s, v).Keys == s.configRules[v].Keys
    ensures forall k :: k in RulesOf(s, v) ==>
              Links(s, v, k, RulesOf(s, v)[k]) && 1 <= RulesOf(s, v)[k].rule.text.lookback
    ensures forall k, rule :: Links(s, v, k, rule) ==> k in RulesOf(s, v) && rule == RulesOf(s, v)[k]
  {
    LinksOkOf(s, v);
    var c, links, source := Catalog(s.categories, s.rules), LinksOf(s, v), s.configs[v].source;
    JoinKeys(c, links, source);
    forall k | k in links
      ensures k in RulesOf(s, v) && Links(s, v, k, RulesOf(s, v)[k]) && 1 <= RulesOf(s, v)[k].rule.text.lookback
    {
      JoinAt(c, links, source, k);
    }
  }

  lemma TargetIs(s: State, mode: Mode, v: Version)
    requires VersionsOk(s.configs) && IsTarget(s, mode, v)
    ensures Target(s.configs, mode) == Some(v) && v in s.configs && Current(s.configs, Active).Some?
  {
  }

  // ---------------------------------------------------------------------
  // Begin

  /** A day that the window of some enabled category of the version covers. */
  ghost predicate Needed(s: State, v: Version, toDate: int, day: int) {
    exists k, rule :: Links(s, v, k, rule) && rule.rule.text.enabled
                      && toDate - rule.rule.text.lookback < day <= toDate
  }

  lemma CoversDays(s: State, v: Version, fromDate: int, toDate: int)
    requires ConfigInv(s) && v in s.configs && fromDate <= toDate
    ensures CoversWindows(RulesOf(s, v), fromDate, toDate) <==>
              forall day :: Needed(s, v, toDate, day) ==> fromDate <= day
  {
    var rules := RulesOf(s, v);
    RulesAreLinks(s, v);
    hide ConfigInv, RulesOf, Links;
    if CoversWindows(rules, fromDate, toDate) {
      forall day | Needed(s, v, toDate, day) ensures fromDate <= day {
        var k, rule :| Links(s, v, k, rule) && rule.rule.text.enabled
                       && toDate - rule.rule.text.lookback < day <= toDate;
        assert k in rules && rules[k] == rule;
      }
    } else {
      var k :| k in rules && rules[k].rule.text.enabled
               && !(fromDate <= WindowStart(toDate, rules[k].rule.text.lookback));
      var day := toDate - rules[k].rule.text.lookback + 1;
      assert Links(s, v, k, rules[k]);
      assert Needed(s, v, toDate, day);
    }
  }

  /** The call inserted one run with this manifest, changed nothing else and said so. */
  ghost predicate Opens(s: State, o: Outcome, key: string, request: BeginRequest, v: Version) {
    && o.reply.Begun? && o.reply.run !in s.runs && o.reply.run in o.state.runs
    && o.state == s.(runs := s.runs[o.reply.run := o.state.runs[o.reply.run]])
    && o.state.runs[o.reply.run] ==
         Run(key, request, request.mode, Created, v, request.fromDate, request.toDate, request.accounts,
             match s.sync { case None => None case Some(sync) => Some(sync.revision) },
             None, 0, 0, None, None, None, None, None)
    && o.reply.state == Created && o.reply.mode == request.mode && o.reply.config == v
    && (forall k, rule :: k in o.reply.rules && o.reply.rules[k] == rule <==> Links(s, v, k, rule))
  }

  ghost predicate KeyIsNew(s: State, key: string) {
    forall id :: id in s.runs ==> s.runs[id].idempotencyKey != key
  }

  lemma NewKey(s: State, key: string)
    requires KeyIsNew(s, key)
    ensures RunWithKey(s.runs, key).None?
  {
  }

  lemma OpensFrom(s: State, id: RunId, key: string, request: BeginRequest, v: Version, rules: map<Key, RuleVersion>)
    requires id !in s.runs
    requires forall k :: k in rules ==> Links(s, v, k, rules[k])
    requires forall k, rule :: Links(s, v, k, rule) ==> k in rules && rule == rules[k]
    ensures Opens(s, Outcome(s.(runs := s.runs[id := NewRun(s, key, request, v)]),
                             Begun(id, Created, request.mode, v, rules)), key, request, v)
  {
    hide Links;
  }

  lemma BeginAnswer(s: State, key: string, request: BeginRequest, v: Version)
    requires Core(s) && KeyIsNew(s, key) && IsTarget(s, request.mode, v)
    ensures var o := Apply(s, BeginCall(key, request));
            if BeginError(s, request).None? then Opens(s, o, key, request, v)
            else o == Outcome(s, Rejected(BeginError(s, request).value))
  {
    hide *;
    CoreParts(s);
    ConfigParts(s);
    TargetIs(s, request.mode, v);
    NewKey(s, key);
    ApplyBegin(s, key, request);
    if BeginError(s, request).None? {
      BeginAccepted(s, key, request, v);
      NextIsFresh(s.runs.Keys);
      RulesAreLinks(s, v);
      OpensFrom(s, Next(s.runs.Keys), key, request, v, RulesOf(s, v));
    } else {
      BeginRefused(s, key, request);
    }
  }

  lemma FullError(s: State, request: BeginRequest, v: Version)
    requires request.mode == Full && Target(s.configs, Full) == Some(v) && Current(s.configs, Active).Some?
    ensures BeginError(s, request) ==
              if CoversWindows(RulesOf(s, v), request.fromDate, request.toDate) then None
              else Some(FullWindowIncomplete)
  {
    hide CoversWindows, RulesOf, Target;
  }

  lemma Spans(request: BeginRequest)
    requires request.Valid()
    ensures request.fromDate <= request.toDate
  {
  }

  /** A rebuild under a new key is accepted exactly when it starts no later than any day
      in the window of an enabled category of the version it rebuilds: the pending one if
      there is one, else the active one. */
  lemma FullBeginIff(s: State, key: string, request: BeginRequest, v: Version)
    requires Core(s) && request.Valid() && KeyIsNew(s, key) && request.mode == Full && IsTarget(s, Full, v)
    ensures var o := Apply(s, BeginCall(key, request));
            if forall day :: Needed(s, v, request.toDate, day) ==> request.fromDate <= day then
              Opens(s, o, key, request, v)
            else o == Outcome(s, Rejected(FullWindowIncomplete))
  {
    hide *;
    BeginAnswer(s, key, request, v);
    CoreParts(s);
    ConfigParts(s);
    TargetIs(s, Full, v);
    Spans(request);
    CoversDays(s, v, request.fromDate, request.toDate);
    FullError(s, request, v);
  }

  lemma ConfigParts(s: State)
    requires ConfigInv(s)
    ensures VersionsOk(s.configs)
  {
  }

  lemma IncrementalError(s: State, request: BeginRequest)
    requires request.mode == Incremental && Current(s.configs, Active).Some?
    requires s.sync.Some? ==> s.sync.value.lastRun in s.runs
    ensures BeginError(s, request) ==
              if Current(s.configs, Pending).Some? || s.sync.None? then Some(FullRebuildRequired)
              else if s.runs[s.sync.value.lastRun].accounts != request.accounts then Some(AccountScopeChanged)
              else None
  {
  }

  lemma PendingExists(s: State)
    ensures Current(s.configs, Pending).Some? <==> exists w :: HasStatus(s, w, Pending)
  {
    var pending := Current(s.configs, Pending);
    if pending.Some? { assert HasStatus(s, pending.value, Pending); }
  }

  lemma ActiveIsTarget(s: State, v: Version)
    requires HasStatus(s, v, Active)
    ensures IsTarget(s, Incremental, v)
  {
  }

  /** An incremental run under a new key is accepted exactly when nothing is pending,
      something was published, and the accounts are those of the last published run. */
  lemma IncrementalBeginIff(s: State, key: string, request: BeginRequest, v: Version)
    requires Core(s) && KeyIsNew(s, key) && request.mode == Incremental && HasStatus(s, v, Active)
    ensures s.sync.Some? ==> s.sync.value.lastRun in s.runs
    ensures var o := Apply(s, BeginCall(key, request));
            if (exists w :: HasStatus(s, w, Pending)) || s.sync.None? then
              o == Outcome(s, Rejected(FullRebuildRequired))
            else if s.runs[s.sync.value.lastRun].accounts != request.accounts then
              o == Outcome(s, Rejected(AccountScopeChanged))
            else Opens(s, o, key, request, v)
  {
    hide *;
    CoreParts(s);
    LastRunExists(s);
    ConfigParts(s);
    ActiveIsTarget(s, v);
    TargetIs(s, Incremental, v);
    BeginAnswer(s, key, request, v);
    IncrementalError(s, request);
    PendingExists(s);
  }

  lemma LastRunExists(s: State)
    requires LiveInv(s)
    ensures s.sync.Some? ==> s.sync.value.lastRun in s.runs
  {
  }

  lemma NoVersionNoRun(s: State, key: string, request: BeginRequest)
    requires s.configs == map[] && KeyIsNew(s, key)
    ensures Begin(s, key, request) == Outcome(s, Rejected(ConfigRequired))
  {
    hide RulesOf, CoversWindows, SameAccountsAsLastRun;
  }

  lemma UsedKey(s: State, key: string, request: BeginRequest, id: RunId)
    requires DistinctKeys(s.runs) && id in s.runs && s.runs[id].idempotencyKey == key
    ensures Begin(s, key, request) ==
              if s.runs[id].request != request then Outcome(s, Rejected(IdempotencyConflict))
              else Outcome(s, Begun(id, s.runs[id].state, s.runs[id].mode, s.runs[id].config,
                                    RulesOf(s, s.runs[id].config)))
  {
    hide RulesOf, BeginError;
  }

  /** Before any configuration every new run is refused; a used key gives its run back
      or, for another request, a conflict. */
  lemma OtherBegins(s: State, key: string, request: BeginRequest)
    requires Core(s)
    ensures var o := Apply(s, BeginCall(key, request));
            && (s.configs == map[] && KeyIsNew(s, key) ==> o == Outcome(s, Rejected(ConfigRequired)))
            && (forall id :: id in s.runs && s.runs[id].idempotencyKey == key ==>
                  if s.runs[id].request != request then o == Outcome(s, Rejected(IdempotencyConflict))
                  else
                    && o.state == s && o.reply.Begun? && o.reply.run == id
                    && o.reply.state == s.runs[id].state && o.reply.mode == s.runs[id].mode
                    && o.reply.config == s.runs[id].config
                    && forall k, rule :: k in o.reply.rules && o.reply.rules[k] == rule <==>
                                           Links(s, s.runs[id].config, k, rule))
  {
    hide *;
    CoreParts(s);
    RunsDistinct(s);
    ApplyBegin(s, key, request);
    if s.configs == map[] && KeyIsNew(s, key) { NoVersionNoRun(s, key, request); }
    forall id | id in s.runs && s.runs[id].idempotencyKey == key
      ensures Begin(s, key, request) ==
                if s.runs[id].request != request then Outcome(s, Rejected(IdempotencyConflict))
                else Outcome(s, Begun(id, s.runs[id].state, s.runs[id].mode, s.runs[id].config,
                                      RulesOf(s, s.runs[id].config)))
      ensures forall k, rule :: k in RulesOf(s, s.runs[id].config) && RulesOf(s, s.runs[id].config)[k] == rule <==>
                                  Links(s, s.runs[id].config, k, rule)
    {
      UsedKey(s, key, request, id);
      CoreMeans(s, id);
      RulesAreLinks(s, s.runs[id].config);
    }
  }

  // ---------------------------------------------------------------------
  // Upload

  /** The window of a run is the one that it was begun with. */
  lemma OutsideMeans(s: State, id: RunId, seen: set<Identity>, item: Upload)
    requires id in s.runs && s.runs[id].config in s.configs
    requires ItemError(s, id, seen, item) == Some(OutsideRunWindow)
    ensures item.content.date > s.runs[id].toDate
            || (s.runs[id].mode == Full && item.content.date < s.runs[id].fromDate)
  {
  }

  lemma {:induction false} OutsideHasItem(s: State, id: RunId, items: seq<Upload>)
    requires id in s.runs && s.runs[id].config in s.configs
    requires ItemsError(s, id, items) == Some(OutsideRunWindow)
    ensures exists i :: 0 <= i < |items| &&
              (items[i].content.date > s.runs[id].toDate
               || (s.runs[id].mode == Full && items[i].content.date < s.runs[id].fromDate))
  {
    hide ItemError;
    if items != [] {
      var n := |items| - 1;
      if ItemsError(s, id, items[..n]).Some? {
        OutsideHasItem(s, id, items[..n]);
        var i :| 0 <= i < n && (items[..n][i].content.date > s.runs[id].toDate
                                || (s.runs[id].mode == Full && items[..n][i].content.date < s.runs[id].fromDate));
        assert items[i] == items[..n][i];
      } else {
        OutsideMeans(s, id, Ids(items[..n]), items[n]);
      }
    }
  }

  lemma UploadOutside(s: State, call: Call)
    requires call.UploadCall? && Apply(s, call).reply == Rejected(OutsideRunWindow)
    ensures call.run in s.runs && s.runs[call.run].config in s.configs
    ensures ItemsError(s, call.run, call.batch.items) == Some(OutsideRunWindow)
  {
    hide ItemsError, Staging;
  }

  /** Whatever happens in between, an upload to an accepted rebuild is never refused as
      outside the run's window when its days are needed by an enabled category. */
  lemma NeededDaysAreAccepted(s: State, key: string, request: BeginRequest, v: Version, between: seq<Call>,
                              upload: Call)
    requires Core(s) && request.Valid() && KeyIsNew(s, key) && request.mode == Full && IsTarget(s, Full, v)
    requires Apply(s, BeginCall(key, request)).reply.Begun? && AllValid(between)
    requires upload.UploadCall? && upload.run == Apply(s, BeginCall(key, request)).reply.run
    requires forall i :: 0 <= i < |upload.batch.items| ==>
               Needed(s, v, request.toDate, upload.batch.items[i].content.date)
    ensures var t := Execute(Apply(s, BeginCall(key, request)).state, between);
            Apply(t, upload).reply != Rejected(OutsideRunWindow)
  {
    var o := Apply(s, BeginCall(key, request));
    var t := Execute(o.state, between);
    hide *;
    FullBeginIff(s, key, request, v);
    OpensMeans(s, o, key, request, v);
    BeginIsValid(key, request);
    CallKeeps(s, BeginCall(key, request));
    ExecuteKept(o.state, between);
    KeptRun(o.state, t, upload.run);
    if Apply(t, upload).reply == Rejected(OutsideRunWindow) {
      UploadOutside(t, upload);
      OutsideHasItem(t, upload.run, upload.batch.items);
      NeededMeans(s, v, request.toDate);
    }
  }

  lemma BeginIsValid(key: string, request: BeginRequest)
    requires request.Valid()
    ensures BeginCall(key, request).Valid()
  {
  }

  lemma NeededMeans(s: State, v: Version, toDate: int)
    ensures forall day :: Needed(s, v, toDate, day) ==> day <= toDate
  {
  }

  lemma OpensMeans(s: State, o: Outcome, key: string, request: BeginRequest, v: Version)
    requires o.reply.Begun? && (Opens(s, o, key, request, v) || o == Outcome(s, Rejected(FullWindowIncomplete)))
    ensures o.reply.run in o.state.runs
    ensures var run := o.state.runs[o.reply.run];
            run.mode == request.mode && run.fromDate == request.fromDate && run.toDate == request.toDate
  {
    hide Links;
  }

  lemma CallKeeps(s: State, call: Call)
    requires Core(s) && call.Valid()
    ensures Core(Apply(s, call).state)
  {
    hide *;
    CallIsWrite(s, call);
    WriteKeepsCore(s, WriteOf(s, call));
  }

  lemma KeptRun(s: State, t: State, id: RunId)
    requires Kept(s, t) && id in s.runs
    ensures id in t.runs && t.runs[id].mode == s.runs[id].mode
    ensures t.runs[id].fromDate == s.runs[id].fromDate && t.runs[id].toDate == s.runs[id].toDate
  {
    hide ConfigExtends, BatchesKept;
  }

  /** The batch was received before. */
  ghost predicate Received(s: State, id: RunId, index: int) {
    index >= 0 && id in s.batches && index in s.batches[id]
  }

  lemma ReceivedIs(s: State, id: RunId, index: int)
    ensures Received(s, id, index) <==> index >= 0 && index in RowsOf(s.batches, id)
  {
  }

  /** What a stored answer says about the tables around it. */
  ghost predicate Stores(s: State, o: Outcome, call: Call)
    requires call.UploadCall?
  {
    var id, index := call.run, call.index;
    && o.reply.Stored? && o.reply.run == id && o.reply.index == index
    && |call.batch.items| <= call.limits.maxItems && call.bytes <= call.limits.maxBytes
    && (o.reply.replayed <==> Received(s, id, index))
    && (o.reply.replayed <==> o.state == s)
    && o.reply.itemCount == |call.batch.items|
    && Received(o.state, id, index) && o.state.batches[id][index].request == call.batch
    && (!o.reply.replayed ==>
          && id in s.runs && id in o.state.runs
          && o.state.runs[id].received == s.runs[id].received + 1
          && o.state.runs[id].itemCount == s.runs[id].itemCount + |call.batch.items|
          && o.state.runs[id].state == Uploaded && o.state.runs[id].uploadedAt == Some(call.now)
          && o.state.batches[id][index] ==
               Batch(call.batch.idempotencyKey, call.batch, call.batch.items, |call.batch.items|))
  }

  lemma StoresFresh(s: State, call: Call)
    requires call.UploadCall? && Apply(s, call).reply.Stored? && !Received(s, call.run, call.index)
    ensures Stores(s, Apply(s, call), call)
  {
    hide UploadError, StageItems, Allowed;
  }

  lemma StoresReplay(s: State, call: Call)
    requires call.UploadCall? && Apply(s, call).reply.Stored? && Received(s, call.run, call.index)
    requires AllDeclared(s.batches)
    ensures Stores(s, Apply(s, call), call)
  {
    hide UploadError, Staging;
  }

  /** In every trace a stored answer is a replay exactly when the batch had been received
      before, exactly when the call changes nothing; it counts the items it was sent. */
  lemma UploadAnswer(calls: seq<Call>, upload: Call)
    requires AllValid(calls) && upload.UploadCall? && Apply(After(calls), upload).reply.Stored?
    ensures Stores(After(calls), Apply(After(calls), upload), upload)
  {
    hide *;
    DeclaredHolds(calls);
    if Received(After(calls), upload.run, upload.index) {
      StoresReplay(After(calls), upload);
    } else {
      StoresFresh(After(calls), upload);
    }
  }

  /** The row holds the item as sent, under its batch and the run's version, with the
      linked rule of each category it named and of no other. */
  ghost predicate Holds(s: State, v: Version, index: int, item: Upload, row: Staged) {
    && row.content == item.content && row.batchIndex == index && row.config == v
    && row.categories.Keys == item.categories
    && forall k :: k in item.categories ==>
         exists rule :: Links(s, v, k, rule) && rule.rule.text.enabled && row.categories[k] == rule.version
  }

  lemma HoldsFrom(s: State, v: Version, index: nat, item: Upload, rules: map<Key, RuleVersion>,
                  allowed: map<Key, Version>)
    requires allowed == map k | k in rules && rules[k].rule.text.enabled :: rules[k].version
    requires forall k :: k in rules ==> Links(s, v, k, rules[k])
    requires forall k :: k in item.categories ==> k in rules && rules[k].rule.text.enabled
    ensures Holds(s, v, index, item, StagedRow(v, index, allowed, item))
  {
    hide Links;
    assert StagedRow(v, index, allowed, item).categories.Keys == item.categories;
  }

  lemma AllowedAre(s: State, v: Version)
    ensures Allowed(s, v) ==
              map k | k in RulesOf(s, v) && RulesOf(s, v)[k].rule.text.enabled :: RulesOf(s, v)[k].version
  {
    hide RulesOf;
  }

  lemma FitsRules(run: Run, currency: string, rules: map<Key, RuleVersion>, item: Upload)
    requires ItemFits(run, currency, rules, item)
    ensures forall k :: k in item.categories ==> k in rules && rules[k].rule.text.enabled
  {
  }

  lemma StagedRowHolds(s: State, id: RunId, index: nat, item: Upload)
    requires ConfigInv(s) && id in s.runs && s.runs[id].config in s.configs
    requires ItemFits(s.runs[id], s.configs[s.runs[id].config].basis.currency, RulesOf(s, s.runs[id].config), item)
    ensures var v := s.runs[id].config;
            Holds(s, v, index, item, StagedRow(v, index, Allowed(s, v), item))
  {
    var v := s.runs[id].config;
    hide *;
    RulesAreLinks(s, v);
    AllowedAre(s, v);
    FitsRules(s.runs[id], s.configs[v].basis.currency, RulesOf(s, v), item);
    HoldsFrom(s, v, index, item, RulesOf(s, v), Allowed(s, v));
  }

  /** A first upload adds exactly the rows of its items. */
  ghost predicate Stages(s: State, t: State, id: RunId, index: int, items: seq<Upload>) {
    && id in s.runs && id in t.staged
    && (forall x :: x in t.staged[id] <==>
          (id in s.staged && x in s.staged[id]) || exists j :: 0 <= j < |items| && items[j].id == x)
    && (id in s.staged ==> forall x :: x in s.staged[id] ==> t.staged[id][x] == s.staged[id][x])
    && (forall j :: 0 <= j < |items| ==> Holds(s, s.runs[id].config, index, items[j], t.staged[id][items[j].id]))
    && (forall r :: r in s.staged && r != id ==> r in t.staged && t.staged[r] == s.staged[r])
  }

  lemma FreshUpload(s: State, upload: Call)
    requires upload.UploadCall? && Apply(s, upload).reply.Stored? && !Apply(s, upload).reply.replayed
    requires upload.run in s.runs ==> s.runs[upload.run].config in s.configs
    ensures upload.index >= 0 && upload.run in s.runs && s.runs[upload.run].config in s.configs
    ensures Apply(s, upload).state == Staging(s, upload.run, upload.index, upload.batch, upload.now)
    ensures ItemsError(s, upload.run, upload.batch.items).None?
  {
    hide ItemsError, Staging;
  }

  lemma StagingStaged(s: State, id: RunId, index: nat, batch: BatchRequest, now: int)
    requires id in s.runs
    ensures Staging(s, id, index, batch, now).staged ==
              s.staged[id := StageItems(RowsOf(s.staged, id), s.runs[id].config, index, Allowed(s, s.runs[id].config),
                                        batch.items)]
  {
    hide StageItems, Allowed;
  }

  lemma StagesFrom(s: State, t: State, id: RunId, index: nat, items: seq<Upload>, rows: map<Identity, Staged>)
    requires id in s.runs && t.staged == s.staged[id := rows]
    requires rows.Keys == RowsOf(s.staged, id).Keys + Ids(items)
    requires forall x :: x in RowsOf(s.staged, id) ==> rows[x] == RowsOf(s.staged, id)[x]
    requires forall j :: 0 <= j < |items| ==>
               items[j].id in rows && Holds(s, s.runs[id].config, index, items[j], rows[items[j].id])
    ensures Stages(s, t, id, index, items)
  {
    hide Holds;
    forall x
      ensures x in rows <==> (id in s.staged && x in s.staged[id]) || exists j :: 0 <= j < |items| && items[j].id == x
    {
      IdsHas(items, x);
    }
  }

  lemma NotStagedTwice(was: map<Identity, Staged>, items: seq<Upload>, x: Identity)
    requires FreshItems(was, items) && x in was
    ensures x !in Ids(items)
  {
    IdsHas(items, x);
  }

  lemma FitsAt(run: Run, currency: string, rules: map<Key, RuleVersion>, items: seq<Upload>, j: nat)
    requires AllFit(run, currency, rules, items) && j < |items|
    ensures ItemFits(run, currency, rules, items[j])
  {
  }

  /** In every trace a first upload stages each of its items as sent, under its batch and
      the run's version, linked to the rule in force of each category it names; rows that
      were staged before stay. */
  lemma UploadStages(calls: seq<Call>, upload: Call)
    requires AllValid(calls) && upload.UploadCall?
    requires Apply(After(calls), upload).reply.Stored? && !Apply(After(calls), upload).reply.replayed
    ensures Stages(After(calls), Apply(After(calls), upload).state, upload.run, upload.index, upload.batch.items)
  {
    hide *;
    ReachableInv(calls);
    CoreStages(After(calls), upload);
  }

  lemma CoreStages(s: State, upload: Call)
    requires Core(s) && upload.UploadCall?
    requires Apply(s, upload).reply.Stored? && !Apply(s, upload).reply.replayed
    ensures Stages(s, Apply(s, upload).state, upload.run, upload.index, upload.batch.items)
  {
    hide *;
    if upload.run in s.runs { CoreMeans(s, upload.run); }
    FreshUpload(s, upload);
    FreshStages(s, upload.run, upload.index, upload.batch, upload.now);
  }

  lemma FreshStages(s: State, id: RunId, index: nat, batch: BatchRequest, now: int)
    requires Core(s) && id in s.runs && s.runs[id].config in s.configs && ItemsError(s, id, batch.items).None?
    ensures Stages(s, Staging(s, id, index, batch, now), id, index, batch.items)
  {
    hide *;
    CoreMeans(s, id);
    StagingStaged(s, id, index, batch, now);
    ItemsErrorNone(s, id, batch.items);
    StageItemsKeys(RowsOf(s.staged, id), s.runs[id].config, index, Allowed(s, s.runs[id].config), batch.items);
    OldRowsStay(s, id, index, batch.items);
    NewRowsHold(s, id, index, batch.items);
    StagesFrom(s, Staging(s, id, index, batch, now), id, index, batch.items,
               StageItems(RowsOf(s.staged, id), s.runs[id].config, index, Allowed(s, s.runs[id].config), batch.items));
  }

  lemma OldRowsStay(s: State, id: RunId, index: nat, items: seq<Upload>)
    requires id in s.runs && FreshItems(RowsOf(s.staged, id), items)
    ensures var was, v := RowsOf(s.staged, id), s.runs[id].config;
            var rows := StageItems(was, v, index, Allowed(s, v), items);
            forall x :: x in was ==> x in rows && rows[x] == was[x]
  {
    var was, v := RowsOf(s.staged, id), s.runs[id].config;
    hide *;
    forall x | x in was
      ensures var rows := StageItems(was, v, index, Allowed(s, v), items); x in rows && rows[x] == was[x]
    {
      NotStagedTwice(was, items, x);
      StageItemsKept(was, v, index, Allowed(s, v), items, x);
    }
  }

  lemma NewRowsHold(s: State, id: RunId, index: nat, items: seq<Upload>)
    requires ConfigInv(s) && id in s.runs && s.runs[id].config in s.configs && FreshItems(RowsOf(s.staged, id), items)
    requires var v := s.runs[id].config; AllFit(s.runs[id], s.configs[v].basis.currency, RulesOf(s, v), items)
    ensures var was, v := RowsOf(s.staged, id), s.runs[id].config;
            var rows := StageItems(was, v, index, Allowed(s, v), items);
            forall j :: 0 <= j < |items| ==> items[j].id in rows && Holds(s, v, index, items[j], rows[items[j].id])
  {
    var was, v := RowsOf(s.staged, id), s.runs[id].config;
    hide *;
    forall j | 0 <= j < |items|
      ensures var rows := StageItems(was, v, index, Allowed(s, v), items);
              items[j].id in rows && Holds(s, v, index, items[j], rows[items[j].id])
    {
      StageItemsAt(was, v, index, Allowed(s, v), items, j);
      FitsAt(s.runs[id], s.configs[v].basis.currency, RulesOf(s, v), items, j);
      StagedRowHolds(s, id, index, items[j]);
    }
  }

  // ---------------------------------------------------------------------
  // Commit

  lemma {:induction false} ChainAt(batches: map<nat, Batch>, n: nat)
    requires forall i: nat :: i < n ==> i in batches
    ensures |Chain(batches, n)| == n && forall i :: 0 <= i < n ==> Chain(batches, n)[i] == batches[i].checksum
  {
    if n > 0 { ChainAt(batches, n - 1); }
  }

  lemma CommitReply(s: State, id: RunId, commit: CommitRequest, now: int)
    requires id in s.runs && s.runs[id].state != Committed
    ensures var o := Apply(s, CommitCall(id, commit, now));
            if CommitPasses(s, id, commit) then
              && Complete(RowsOf(s.batches, id), commit.batchCount) && o.reply.Published? && o.reply.run == id
              && o.state == Committing(s, id, commit, now)
              && o.reply.batchCount == CommittedRun(s, id, commit, now).received
              && o.reply.itemCount == CommittedRun(s, id, commit, now).itemCount
              && o.reply.receipt == Some(Receipt(id, Chain(RowsOf(s.batches, id), commit.batchCount), now))
            else o.reply.Rejected? && o.state == s
  {
    hide CommitError, Publish, CommitmentOf, Present, Activated, Advanced, RowsOf, ItemTotal, Chain, Complete;
    if CommitPasses(s, id, commit) { PassesComplete(s, id, commit); }
  }

  lemma DeclaredBatches(s: State, id: RunId)
    requires AllDeclared(s.batches)
    ensures Declared(RowsOf(s.batches, id))
  {
  }

  lemma DeclaredAt(batches: map<nat, Batch>, n: nat)
    requires Declared(batches) && Complete(batches, n)
    ensures forall i: nat :: i < n ==> i in batches && batches[i].checksum == batches[i].request.items
  {
  }

  /** In every trace an accepted commit of an open run answers the number of batches it
      was told, the number of rows that were staged, and a receipt of the run, the item
      lists as uploaded in index order, and the time of the call. */
  lemma CommitAnswer(calls: seq<Call>, id: RunId, commit: CommitRequest, now: int)
    requires AllValid(calls) && id in After(calls).runs && After(calls).runs[id].state != Committed
    requires !Apply(After(calls), CommitCall(id, commit, now)).reply.Rejected?
    ensures var s := After(calls);
            var reply := Apply(s, CommitCall(id, commit, now)).reply;
            && reply.Published? && reply.run == id && reply.batchCount == commit.batchCount
            && reply.itemCount == |RowsOf(s.staged, id)|
            && reply.receipt.Some? && reply.receipt.value.run == id && reply.receipt.value.committedAt == now
            && |reply.receipt.value.checksum| == commit.batchCount
            && forall i: nat :: i < commit.batchCount ==>
                 i in RowsOf(s.batches, id)
                 && reply.receipt.value.checksum[i] == RowsOf(s.batches, id)[i].request.items
  {
    var s := After(calls);
    hide *;
    CommitReply(s, id, commit, now);
    CommitAccounting(calls, id, commit, now);
    DeclaredHolds(calls);
    DeclaredBatches(s, id);
    DeclaredAt(RowsOf(s.batches, id), commit.batchCount);
    ChainAt(RowsOf(s.batches, id), commit.batchCount);
  }

  /** What a commit leaves in the tables besides the live data: the run's figures and
      times, the sync row, and the versions, of which a pending one becomes active. */
  ghost predicate Commits(s: State, t: State, id: RunId, commit: CommitRequest, now: int) {
    && id in s.runs && id in t.runs && t.runs == s.runs[id := t.runs[id]] && t.batches == s.batches
    && t.staged == (map r | r in s.staged && r != id :: s.staged[r])
    && var run, was := t.runs[id], s.runs[id];
       && run.state == Committed && run.expectedBatchCount == Some(commit.batchCount) == Some(run.received)
       && run.completedAccounts == Some(commit.accounts) == Some(was.accounts)
       && run.validatedAt == Some(now) && run.committedAt == Some(now)
       && run.uploadedAt == (if was.uploadedAt.Some? then was.uploadedAt else Some(now))
       && t.sync == Some(Sync(was.config, id, match s.sync { case None => 1 case Some(sync) => sync.revision + 1 }))
       && HasStatus(t, was.config, Active) && t.configs.Keys == s.configs.Keys
       && (forall v :: v in s.configs ==>
             if v == was.config && s.configs[v].status == Pending then
               t.configs[v] == s.configs[v].(status := Active, activatedAt := Some(now))
             else if v != was.config && s.configs[v].status == Active then
               t.configs[v] == s.configs[v].(status := Superseded, supersededAt := Some(now))
             else t.configs[v] == s.configs[v])
  }

  lemma ActivatedIs(configs: map<Version, Config>, v: Version, now: int)
    requires VersionsOk(configs) && v in configs && (configs[v].status == Pending || configs[v].status == Active)
    ensures var next := Activated(configs, v, now);
            && next.Keys == configs.Keys && next[v].status == Active
            && forall w :: w in configs ==>
                 if w == v && configs[w].status == Pending then
                   next[w] == configs[w].(status := Active, activatedAt := Some(now))
                 else if w != v && configs[w].status == Active then
                   next[w] == configs[w].(status := Superseded, supersededAt := Some(now))
                 else next[w] == configs[w]
  {
  }

  lemma CommittedFields(s: State, id: RunId, commit: CommitRequest, now: int)
    requires id in s.runs && Complete(RowsOf(s.batches, id), commit.batchCount)
    ensures var run := CommittedRun(s, id, commit, now);
            && run.state == Committed && run.expectedBatchCount == Some(commit.batchCount)
            && run.completedAccounts == Some(commit.accounts)
            && run.validatedAt == Some(now) && run.committedAt == Some(now)
            && run.uploadedAt == (if s.runs[id].uploadedAt.Some? then s.runs[id].uploadedAt else Some(now))
            && Advanced(s.sync, id, s.runs[id].config) ==
                 Sync(s.runs[id].config, id, match s.sync { case None => 1 case Some(sync) => sync.revision + 1 })
  {
    hide Chain, ItemTotal, Complete, RowsOf;
  }

  lemma CommitEffect(calls: seq<Call>, id: RunId, commit: CommitRequest, now: int)
    requires AllValid(calls) && id in After(calls).runs && After(calls).runs[id].state != Committed
    requires !Apply(After(calls), CommitCall(id, commit, now)).reply.Rejected?
    ensures Commits(After(calls), Apply(After(calls), CommitCall(id, commit, now)).state, id, commit, now)
  {
    var s := After(calls);
    hide Core, Inv, CommitPasses, Committing, CommittedRun, Activated, Advanced, Publish, CommitmentOf, RowsOf,
      Complete, Chain, Apply, After, RulesOf, PublishedCategories, ReplacementsValid, SameAccountsAsLastRun, Target,
      ConfigInv, RunInv, LiveInv, RunOk, SerialInv, NoneFailed, VersionsOk, AllDeclared, AllValid;
    ReachableInv(calls);
    CoreMeans(s, id);
    CommitReply(s, id, commit, now);
    CommitAccounting(calls, id, commit, now);
    PassesMeans(s, id, commit);
    TargetStatus(s.configs, s.runs[id].mode);
    CommittingShape(s, id, commit, now);
    CommittedFields(s, id, commit, now);
    ActivatedIs(s.configs, s.runs[id].config, now);
  }
}
