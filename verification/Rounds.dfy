/** A database with one category, and runs of one transaction each: what a begin, an
    upload and a commit do to it, whatever was committed before. */
module Rounds {
  import opened Options
  import opened Model
  import opened ConfigSpec
  import opened RefreshSpec
  import opened Invariant
  import opened ConfigProofs
  import opened StepProofs
  import opened UploadProofs
  import opened CommitProofs
  import opened Traces
  import opened StagingTraces
  import opened RefreshService
  import opened ConfigService

  // ---------------------------------------------------------------------
  // Configuration

  const TEXT := RuleText(1, "groceries", true)
  const BASIS := Basis("UTC", "USD", 1)

  function Show(budget: nat): Presentation {
    Presentation("Food", None, 0, budget, "USD")
  }

  /** One category with a window of one day. */
  function Wanted(budget: nat): ConfigRequest {
    ConfigRequest(BASIS, [CategoryInput("food", Show(budget), TEXT)])
  }

  /** The only version is active and came from the first request. */
  ghost predicate OneVersion(s: State) {
    s.configs == map[1 := NewConfig(Wanted(1), true, 0)]
  }

  lemma OneVersionCurrent(s: State)
    requires OneVersion(s)
    ensures Current(s.configs, Active) == Some(1) && Current(s.configs, Pending).None?
    ensures 1 in s.configs && s.configs[1].basis == BASIS && s.configs[1].status == Active
    ensures s.configs[1].source == Wanted(1)
  {
    hide DesiredHash;
  }

  lemma OneKey(budget: nat)
    ensures ByKey(Wanted(budget).categories) == map["food" := CategoryInput("food", Show(budget), TEXT)]
    ensures !MixedCurrency(Wanted(budget)) && Wanted(budget).Valid()
  {
    assert Wanted(budget).categories[..0] == [];
  }

  lemma SameVersion(s: State, t: State)
    requires OneVersion(s) && t.configs == s.configs
    ensures OneVersion(t)
  {
    hide NewConfig;
  }

  lemma RulesOfIs(s: State, v: Version)
    ensures RulesOf(s, v) == Join(Catalog(s.categories, s.rules), LinksOf(s, v))
  {
  }

  /** The rules of the only category. */
  ghost predicate FoodRules(rules: map<Key, RuleVersion>) {
    rules.Keys == {"food"} && rules["food"].rule.text == TEXT
  }

  lemma RulesAre(s: State)
    requires OneVersion(s)
    requires ConfigInv(s)
    ensures FoodRules(RulesOf(s, 1))
  {
    hide *;
    OneVersionCurrent(s);
    LinksOkOf(s, 1);
    RulesOfIs(s, 1);
    OneKey(1);
    JoinKeys(Catalog(s.categories, s.rules), LinksOf(s, 1), Wanted(1));
    JoinAt(Catalog(s.categories, s.rules), LinksOf(s, 1), Wanted(1), "food");
    FoodRulesFrom(RulesOf(s, 1));
  }

  lemma FoodRulesFrom(rules: map<Key, RuleVersion>)
    requires rules.Keys == {"food"} && rules["food"].rule.text == TEXT
    ensures FoodRules(rules)
  {
  }

  // ---------------------------------------------------------------------
  // The calls of a run

  function KeyOf(id: nat): (key: string)
    ensures |key| == id
  {
    seq(id, _ => 'r')
  }

  function BeginOf(mode: Mode): BeginRequest {
    BeginRequest(mode, -1, 0, {"account"})
  }

  function BatchOf(item: Upload): BatchRequest {
    BatchRequest("batch", [item])
  }

  const ONE_BATCH := CommitRequest(1, {"account"})

  function BeginRun(id: RunId, mode: Mode): Call {
    BeginCall(KeyOf(id), BeginOf(mode))
  }

  function UploadRun(id: RunId, item: Upload): Call {
    UploadCall(id, 0, BatchOf(item), 0, Limits(1, 0), 0)
  }

  function CommitRun(id: RunId): Call {
    CommitCall(id, ONE_BATCH, 0)
  }

  function RunOf(id: RunId, mode: Mode, item: Upload): seq<Call> {
    [BeginRun(id, mode), UploadRun(id, item), CommitRun(id)]
  }

  /** A transaction that every such run accepts. */
  ghost predicate Fitting(item: Upload) {
    && item.Valid() && item.id.account == "account" && item.categories == {"food"}
    && item.content.currency == "USD" && -1 <= item.content.date <= 0
  }

  lemma RunIsValid(id: RunId, mode: Mode, item: Upload)
    requires Fitting(item)
    ensures AllValid(RunOf(id, mode, item))
  {
    assert "account" in BeginOf(mode).accounts;
  }

  // ---------------------------------------------------------------------
  // One run

  /** The database has runs 1 to n, all of the same account. */
  ghost predicate Numbered(s: State, n: nat) {
    && OneVersion(s)
    && (forall id :: id in s.runs <==> 1 <= id <= n)
    && (forall id :: id in s.runs ==> s.runs[id].idempotencyKey == KeyOf(id) && s.runs[id].accounts == {"account"})
    && (s.sync.Some? ==> s.sync.value.lastRun in s.runs)
  }

  lemma NextNumbered(s: State, n: nat)
    requires Numbered(s, n)
    ensures Next(s.runs.Keys) == n + 1 && n + 1 !in s.runs && RunWithKey(s.runs, KeyOf(n + 1)).None?
    ensures s.sync.Some? ==> s.sync.value.lastRun in s.runs && SameAccountsAsLastRun(s, {"account"})
    ensures OneVersion(s)
  {
    hide OneVersion;
    assert n >= 1 ==> n in s.runs.Keys;
  }

  /** The new run of the next begin call. */
  function Opened(s: State, n: nat, mode: Mode): Run {
    NewRun(s, KeyOf(n + 1), BeginOf(mode), 1)
  }

  lemma RunBegins(s: State, n: nat, mode: Mode)
    requires Numbered(s, n) && (mode == Full || s.sync.Some?)
    requires ConfigInv(s)
    ensures Apply(s, BeginRun(n + 1, mode)).state == s.(runs := s.runs[n + 1 := Opened(s, n, mode)])
  {
    hide ConfigInv, RulesOf, OneVersion, Current, Begin, BeginError, Numbered, SameAccountsAsLastRun;
    NextNumbered(s, n);
    OneVersionCurrent(s);
    RulesAre(s);
    assert CoversWindows(RulesOf(s, 1), -1, 0);
    BeginAcceptance(s, BeginOf(mode));
    BeginAccepted(s, KeyOf(n + 1), BeginOf(mode), 1);
  }

  /** The only staged row. */
  ghost predicate OneStaged(rows: map<Identity, Staged>, item: Upload) {
    rows.Keys == {item.id} && rows[item.id].content == item.content && rows[item.id].categories.Keys == {"food"}
  }

  lemma OneItem(run: Run, rules: map<Key, RuleVersion>, allowed: map<Key, Version>, item: Upload)
    requires FoodRules(rules) && Fitting(item)
    requires allowed == map k | k in rules && rules[k].rule.text.enabled :: rules[k].version
    requires run.accounts == {"account"} && run.fromDate == -1 && run.toDate == 0
    ensures AllFit(run, "USD", rules, [item]) && FreshItems(map[], [item])
    ensures OneStaged(StageItems(map[], 1, 0, allowed, [item]), item)
  {
    var items := [item];
    assert items[..0] == [];
    assert StageItems(map[], 1, 0, allowed, items) == map[item.id := StagedRow(1, 0, allowed, item)];
  }

  lemma AllowedIs(s: State, v: Version)
    ensures var rules := RulesOf(s, v);
            Allowed(s, v) == map k | k in rules && rules[k].rule.text.enabled :: rules[k].version
  {
  }

  /** A run that was begun as above and has received nothing. */
  ghost predicate Begun(s: State, id: RunId) {
    && OneVersion(s) && id in s.runs && s.runs[id].state == Created && s.runs[id].config == 1
    && s.runs[id].accounts == {"account"} && s.runs[id].fromDate == -1 && s.runs[id].toDate == 0
    && RowsOf(s.batches, id) == map[] && RowsOf(s.staged, id) == map[]
  }

  lemma UploadIsAccepted(s: State, id: RunId, item: Upload)
    requires Begun(s, id) && Fitting(item) && FoodRules(RulesOf(s, 1))
    ensures UploadPasses(s, id, 0, BatchOf(item))
    ensures OneStaged(StageItems(map[], 1, 0, Allowed(s, 1), [item]), item)
  {
    hide RulesOf, Allowed, ItemsError, AllFit, FreshItems, OneStaged, StageItems, OneVersion, Fitting;
    OneVersionCurrent(s);
    AllowedIs(s, 1);
    OneItem(s.runs[id], RulesOf(s, 1), Allowed(s, 1), item);
    ItemsErrorNone(s, id, [item]);
  }

  lemma UploadIs(s: State, id: RunId, item: Upload)
    requires UploadPasses(s, id, 0, BatchOf(item))
    ensures id in s.runs && Apply(s, UploadRun(id, item)).state == Staging(s, id, 0, BatchOf(item), 0)
  {
    hide UploadError, Staging;
  }

  /** The run has received its transaction. */
  ghost predicate Sent(s: State, t: State, id: RunId, item: Upload) {
    && SameConfigTables(s, t) && t.ledger == s.ledger && t.sync == s.sync
    && id in s.runs && t.runs == s.runs[id := UploadedRun(s.runs[id], BatchOf(item), 0)]
    && RowsOf(t.batches, id) == map[0 := NewBatch(BatchOf(item))] && OneStaged(RowsOf(t.staged, id), item)
  }

  lemma RunUploads(s: State, id: RunId, item: Upload)
    requires Begun(s, id) && Fitting(item)
    requires ConfigInv(s)
    ensures Sent(s, Apply(s, UploadRun(id, item)).state, id, item)
  {
    BegunMeans(s, id);
    hide *;
    RulesAre(s);
    UploadIsAccepted(s, id, item);
    UploadIs(s, id, item);
    StagingShape(s, id, 0, BatchOf(item), 0);
    StagingTables(s, id, 0, BatchOf(item), 0);
    BatchIs(item);
    SentFrom(s, Apply(s, UploadRun(id, item)).state, id, item);
  }

  lemma BatchIs(item: Upload)
    ensures BatchOf(item).items == [item]
  {
  }

  lemma BegunMeans(s: State, id: RunId)
    requires Begun(s, id)
    ensures OneVersion(s) && id in s.runs && s.runs[id].config == 1
    ensures RowsOf(s.batches, id) == map[] && RowsOf(s.staged, id) == map[]
  {
    hide OneVersion;
  }

  lemma SentFrom(s: State, t: State, id: RunId, item: Upload)
    requires SameConfigTables(s, t) && t.ledger == s.ledger && t.sync == s.sync
    requires id in s.runs && t.runs == s.runs[id := UploadedRun(s.runs[id], BatchOf(item), 0)]
    requires RowsOf(t.batches, id) == map[][0 := NewBatch(BatchOf(item))] && OneStaged(RowsOf(t.staged, id), item)
    ensures Sent(s, t, id, item)
  {
    hide OneStaged, UploadedRun, NewBatch, SameConfigTables;
  }

  /** The transaction may replace what is live: it is posted and its target pending. */
  ghost predicate MayReplace(rows: map<Identity, Row>, item: Upload) {
    var target := TargetOf(item.id, item.content);
    target.Some? ==> !item.content.pending && (target.value in rows ==> rows[target.value].content.pending)
  }

  lemma OneRowValid(staged: map<Identity, Staged>, rows: map<Identity, Row>, item: Upload)
    requires OneStaged(staged, item) && MayReplace(rows, item) && item.Valid()
    ensures ReplacementsValid(staged, rows)
    ensures var target := TargetOf(item.id, item.content);
            Targets(staged) == if target.Some? then {target.value} else {}
  {
    forall id | id in staged ensures id == item.id {
    }
  }

  lemma CommitIsAccepted(s: State, id: RunId, item: Upload)
    requires OneVersion(s) && id in s.runs && s.runs[id].state == Uploaded && s.runs[id].config == 1
    requires s.runs[id].accounts == {"account"}
    requires s.runs[id].mode == Incremental ==> SameAccountsAsLastRun(s, {"account"})
    requires s.runs[id].syncBefore == if s.sync.Some? then Some(s.sync.value.revision) else None
    requires RowsOf(s.batches, id) == map[0 := NewBatch(BatchOf(item))] && OneStaged(RowsOf(s.staged, id), item)
    requires MayReplace(s.ledger.rows, item) && item.Valid()
    ensures CommitPasses(s, id, ONE_BATCH)
  {
    hide ReplacementsValid, OneStaged, CommitError, NewBatch, OneVersion, MayReplace, SameAccountsAsLastRun,
      Upload.Valid;
    OneVersionCurrent(s);
    OneRowValid(RowsOf(s.staged, id), s.ledger.rows, item);
    CommitAcceptance(s, id, ONE_BATCH);
  }

  // ---------------------------------------------------------------------
  // From begin to commit

  /** What such a commit publishes. */
  ghost predicate Publishes(c: Commitment, id: RunId, mode: Mode, item: Upload) {
    && c.run == id && c.mode == mode && c.config == 1 && c.toDate == 0 && c.now == 0
    && FoodRules(c.rules) && OneStaged(c.staged, item)
  }

  lemma BegunRun(s: State, n: nat, mode: Mode)
    requires Numbered(s, n) && s.batches.Keys <= s.runs.Keys && s.staged.Keys <= s.runs.Keys
    ensures var t := s.(runs := s.runs[n + 1 := Opened(s, n, mode)]);
            Begun(t, n + 1)
  {
    NextNumbered(s, n);
    hide OneVersion, Numbered, SameAccountsAsLastRun;
    SameVersion(s, s.(runs := s.runs[n + 1 := Opened(s, n, mode)]));
  }

  lemma TablesFollowRuns(s: State)
    requires RunInv(s)
    ensures s.batches.Keys <= s.runs.Keys && s.staged.Keys <= s.runs.Keys
  {
  }

  lemma SameLastAccounts(s: State, t: State, id: RunId)
    requires SameAccountsAsLastRun(s, {"account"}) && t.sync == s.sync && id !in s.runs
    requires forall r :: r in s.runs ==> r in t.runs && (r != id ==> t.runs[r] == s.runs[r])
    ensures SameAccountsAsLastRun(t, {"account"})
  {
  }

  lemma CommittedTables(s: State, id: RunId, item: Upload)
    requires CommitPasses(s, id, ONE_BATCH) && id in s.runs && s.runs[id].config == 1 && s.runs[id].toDate == 0
    requires OneVersion(s) && OneStaged(RowsOf(s.staged, id), item)
    requires ConfigInv(s)
    ensures var t := Apply(s, CommitRun(id)).state;
            && t.configs == s.configs && t.categories == s.categories
            && t.ledger == Publish(s.ledger, CommitmentOf(s, id, 0))
            && Publishes(CommitmentOf(s, id, 0), id, s.runs[id].mode, item)
            && t.sync.Some? && t.sync.value.lastRun == id
            && id in t.runs && t.runs.Keys == s.runs.Keys && t.runs == s.runs[id := t.runs[id]]
            && t.runs[id].idempotencyKey == s.runs[id].idempotencyKey && t.runs[id].accounts == s.runs[id].accounts
  {
    hide *;
    OneVersionCurrent(s);
    RulesAre(s);
    AppliedCommit(s, id, ONE_BATCH, 0);
    CommitCallIs(id);
    CommittingShape(s, id, ONE_BATCH, 0);
    CommittedKeeps(s, id);
    PublishedIs(s, 1);
    NothingToActivate(s.configs, 0);
    CommitmentHas(s, id, item);
  }

  lemma CommitCallIs(id: RunId)
    ensures CommitRun(id) == CommitCall(id, ONE_BATCH, 0)
  {
  }

  lemma CommittedKeeps(s: State, id: RunId)
    requires id in s.runs && Complete(RowsOf(s.batches, id), ONE_BATCH.batchCount)
    ensures var r := CommittedRun(s, id, ONE_BATCH, 0);
            r.idempotencyKey == s.runs[id].idempotencyKey && r.accounts == s.runs[id].accounts
    ensures Advanced(s.sync, id, s.runs[id].config).lastRun == id
  {
  }

  lemma CommitmentHas(s: State, id: RunId, item: Upload)
    requires id in s.runs && s.runs[id].config == 1 && s.runs[id].toDate == 0
    requires FoodRules(RulesOf(s, 1)) && OneStaged(RowsOf(s.staged, id), item)
    ensures Publishes(CommitmentOf(s, id, 0), id, s.runs[id].mode, item)
  {
    hide RulesOf, FoodRules, OneStaged;
  }

  lemma NothingToActivate(configs: map<Version, Config>, now: int)
    requires 1 in configs && configs[1].status == Active
    ensures Activated(configs, 1, now) == configs
  {
  }

  lemma NumberedNext(s: State, t: State, n: nat)
    requires Numbered(s, n) && t.configs == s.configs
    requires n + 1 in t.runs && t.runs == s.runs[n + 1 := t.runs[n + 1]]
    requires t.runs[n + 1].idempotencyKey == KeyOf(n + 1) && t.runs[n + 1].accounts == {"account"}
    requires t.sync.Some? && t.sync.value.lastRun == n + 1
    ensures Numbered(t, n + 1)
  {
    SameVersion(s, t);
    hide OneVersion;
  }

  /** The tables between the three calls. */
  ghost function Step1(s: State, id: RunId, mode: Mode): State {
    Apply(s, BeginRun(id, mode)).state
  }

  ghost function Step2(s: State, id: RunId, mode: Mode, item: Upload): State {
    Apply(Step1(s, id, mode), UploadRun(id, item)).state
  }

  ghost function Step3(s: State, id: RunId, mode: Mode, item: Upload): State {
    Apply(Step2(s, id, mode, item), CommitRun(id)).state
  }

  lemma CallsKeepCore(s: State, id: RunId, mode: Mode, item: Upload)
    requires Fitting(item)
    requires Core(s)
    ensures Core(Step1(s, id, mode)) && Core(Step2(s, id, mode, item)) && Core(Step3(s, id, mode, item))
  {
    RunIsValid(id, mode, item);
    var calls := RunOf(id, mode, item);
    assert calls[0].Valid() && calls[1].Valid() && calls[2].Valid();
    hide Core, Apply, Call.Valid;
    CallKeepsCore(s, calls[0]);
    CallKeepsCore(Step1(s, id, mode), calls[1]);
    CallKeepsCore(Step2(s, id, mode, item), calls[2]);
  }

  lemma CallKeepsCore(s: State, call: Call)
    requires call.Valid()
    requires Core(s)
    ensures Core(Apply(s, call).state)
  {
    hide *;
    CallIsWrite(s, call);
    WriteKeepsCore(s, WriteOf(s, call));
  }

  /** The tables hold a run that received its transaction and may be committed. */
  ghost predicate Ready(s: State, t: State, id: RunId, mode: Mode, item: Upload) {
    && OneVersion(t) && id in t.runs && t.runs == s.runs[id := t.runs[id]]
    && t.runs[id].state == Uploaded && t.runs[id].config == 1 && t.runs[id].toDate == 0 && t.runs[id].mode == mode
    && t.runs[id].idempotencyKey == KeyOf(id) && t.runs[id].accounts == {"account"}
    && t.runs[id].syncBefore == (if s.sync.Some? then Some(s.sync.value.revision) else None)
    && RowsOf(t.batches, id) == map[0 := NewBatch(BatchOf(item))] && OneStaged(RowsOf(t.staged, id), item)
    && t.ledger == s.ledger && t.configs == s.configs && t.categories == s.categories && t.sync == s.sync
  }

  lemma SentIsReady(s: State, run: Run, t: State, id: RunId, mode: Mode, item: Upload)
    requires run.mode == mode && run.idempotencyKey == KeyOf(id)
    requires run.syncBefore == (if s.sync.Some? then Some(s.sync.value.revision) else None)
    requires Begun(s.(runs := s.runs[id := run]), id) && Sent(s.(runs := s.runs[id := run]), t, id, item)
    ensures Ready(s, t, id, mode, item)
  {
    hide OneStaged, NewBatch, OneVersion, KeyOf;
    SameVersion(s.(runs := s.runs[id := run]), t);
  }

  lemma OpenedMeans(s: State, n: nat, mode: Mode)
    ensures var run := Opened(s, n, mode);
            && run.mode == mode && run.idempotencyKey == KeyOf(n + 1)
            && run.syncBefore == (if s.sync.Some? then Some(s.sync.value.revision) else None)
  {
  }

  /** Before its commit the run has received its transaction. */
  lemma RunIsSent(s: State, n: nat, mode: Mode, item: Upload)
    requires Numbered(s, n) && (mode == Full || s.sync.Some?) && Fitting(item)
    requires Core(s)
    ensures Ready(s, Step2(s, n + 1, mode, item), n + 1, mode, item)
  {
    hide *;
    CoreParts(s);
    RunBegins(s, n, mode);
    StepsAre(s, n + 1, mode, item);
    CallsKeepCore(s, n + 1, mode, item);
    CoreParts(Step1(s, n + 1, mode));
    TablesFollowRuns(s);
    BegunRun(s, n, mode);
    OpenedMeans(s, n, mode);
    RunUploads(Step1(s, n + 1, mode), n + 1, item);
    SentIsReady(s, Opened(s, n, mode), Step2(s, n + 1, mode, item), n + 1, mode, item);
  }

  lemma ReadyPasses(s: State, n: nat, t: State, mode: Mode, item: Upload)
    requires Numbered(s, n) && (mode == Full || s.sync.Some?) && Ready(s, t, n + 1, mode, item)
    requires Fitting(item) && MayReplace(s.ledger.rows, item)
    ensures CommitPasses(t, n + 1, ONE_BATCH)
  {
    hide OneStaged, NewBatch, OneVersion, KeyOf, Numbered, CommitPasses, MayReplace, SameAccountsAsLastRun;
    NextNumbered(s, n);
    if mode == Incremental { SameLastAccounts(s, t, n + 1); }
    CommitIsAccepted(t, n + 1, item);
  }

  lemma ReadyMeans(s: State, t: State, id: RunId, mode: Mode, item: Upload)
    requires Ready(s, t, id, mode, item)
    ensures OneVersion(t) && id in t.runs && t.runs == s.runs[id := t.runs[id]]
    ensures t.runs[id].config == 1 && t.runs[id].toDate == 0 && t.runs[id].mode == mode
    ensures t.runs[id].idempotencyKey == KeyOf(id) && t.runs[id].accounts == {"account"}
    ensures OneStaged(RowsOf(t.staged, id), item)
    ensures t.ledger == s.ledger && t.configs == s.configs && t.categories == s.categories && t.sync == s.sync
  {
    hide OneStaged, NewBatch, OneVersion, KeyOf;
  }

  lemma StepsAre(s: State, id: RunId, mode: Mode, item: Upload)
    ensures Step1(s, id, mode) == Apply(s, BeginRun(id, mode)).state
    ensures Step2(s, id, mode, item) == Apply(Step1(s, id, mode), UploadRun(id, item)).state
    ensures Step3(s, id, mode, item) == Apply(Step2(s, id, mode, item), CommitRun(id)).state
    ensures Execute(s, RunOf(id, mode, item)) == Step3(s, id, mode, item)
  {
    hide Apply;
    var calls := RunOf(id, mode, item);
    assert calls[..2] == [BeginRun(id, mode), UploadRun(id, item)] && calls[..1] == [BeginRun(id, mode)];
    assert calls[..2][..1] == calls[..1] && calls[..1][..0] == [];
    assert Execute(s, []) == s;
    assert Execute(s, calls[..1]) == Step1(s, id, mode);
    assert Execute(s, calls[..2]) == Step2(s, id, mode, item);
  }

  /** The whole run: its transaction is published and earlier runs stay as they were. */
  lemma RunRuns(s: State, n: nat, mode: Mode, item: Upload) returns (c: Commitment)
    requires Numbered(s, n) && (mode == Full || s.sync.Some?) && Fitting(item) && MayReplace(s.ledger.rows, item)
    requires Core(s)
    ensures Publishes(c, n + 1, mode, item)
    ensures var t := Execute(s, RunOf(n + 1, mode, item));
            Numbered(t, n + 1) && Core(t) && t.sync.Some? && t.categories == s.categories
            && t.ledger == Publish(s.ledger, c)
            && forall id :: id in s.runs ==> id in t.runs && t.runs[id] == s.runs[id]
  {
    hide *;
    RunIsSent(s, n, mode, item);
    ReadyPasses(s, n, Step2(s, n + 1, mode, item), mode, item);
    ReadyMeans(s, Step2(s, n + 1, mode, item), n + 1, mode, item);
    CallsKeepCore(s, n + 1, mode, item);
    CoreParts(Step2(s, n + 1, mode, item));
    CommittedTables(Step2(s, n + 1, mode, item), n + 1, item);
    StepsAre(s, n + 1, mode, item);
    NumberedNext(s, Step3(s, n + 1, mode, item), n);
    NextNumbered(s, n);
    c := CommitmentOf(Step2(s, n + 1, mode, item), n + 1, 0);
  }
}
