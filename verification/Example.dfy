/** Short runs of the service, computed to their end: they show that the conditions
    attached to other results are met by real inputs. */
module Example {
  import opened Options
  import opened Model
  import opened ConfigSpec
  import opened RefreshSpec
  import opened Invariant
  import opened ConfigProofs
  import opened ConfigTheorems
  import opened LedgerProofs
  import opened UploadProofs
  import opened CommitProofs
  import opened Traces
  import opened ConfigTraces
  import opened ConfigService
  import opened History
  import opened Replacements
  import opened MoneyRepair
  import opened Rounds

  // ---------------------------------------------------------------------
  // The calls

  const SPENDING := Identity("account", "payment")
  const HOLD := Identity("account", "hold")

  /** A payment of the day before the run's end date. */
  const PAYMENT := Upload(SPENDING, Content(None, -1, 50000, "USD", false, None, None, None, false, 0), {"food"})

  /** A pending payment of the end date, and the posted one that replaces it. */
  const PENDING := Upload(HOLD, Content(None, 0, 50000, "USD", true, None, None, None, false, 0), {"food"})
  const POSTED := Upload(SPENDING, Content(None, 0, 50000, "USD", false, Some("hold"), None, None, false, 0), {"food"})

  const CONFIGURE := PutCall(Wanted(1), None, 0)

  /** Raise the budget by a factor of exactly 10,000. */
  const RAISE := PutCall(Wanted(MONEY_FACTOR), Some(EditOfRequest(Wanted(1))), 0)

  lemma AllFitting()
    ensures Fitting(PAYMENT) && Fitting(PENDING) && Fitting(POSTED)
  {
    assert "food" in PAYMENT.categories && "food" in PENDING.categories && "food" in POSTED.categories;
  }

  lemma CallsAreValid()
    ensures CONFIGURE.Valid() && RAISE.Valid()
    ensures forall id: nat, mode, item :: Fitting(item) ==> AllValid(RunOf(id, mode, item))
  {
    OneKey(1);
    OneKey(MONEY_FACTOR);
    forall id: nat, mode, item | Fitting(item) ensures AllValid(RunOf(id, mode, item)) {
      RunIsValid(id, mode, item);
    }
  }

  // ---------------------------------------------------------------------
  // The first call

  /** What the first call leaves behind. */
  ghost predicate Configured(s: State) {
    && Numbered(s, 0) && "food" in s.categories && s.categories["food"] == Show(1)
    && s.ledger == EMPTY_LEDGER && s.sync.None?
  }

  lemma FirstConfiguration()
    ensures Configured(Apply(EMPTY_STATE, CONFIGURE).state)
  {
    var e := EMPTY_STATE;
    OneKey(1);
    assert Current(e.configs, Active).None? && Current(e.configs, Pending).None?;
    assert Next(e.configs.Keys) == 1;
    hide SelectedRules, NewVersion, PutOutcome, DesiredHash, ByKey;
    assert "food" in AddItems(Catalog(e.categories, e.rules), Wanted(1).categories).categories by {
      FreshRows(Catalog(e.categories, e.rules), Wanted(1).categories);
    }
    hide AddItems;
    PutIs(e, Wanted(1), None, 0);
    NewVersionIs(e, Wanted(1), 0);
  }

  lemma AfterConfigure()
    ensures Configured(After([CONFIGURE])) && Core(After([CONFIGURE]))
  {
    FirstConfiguration();
    CallsAreValid();
    hide Apply, Core, Call.Valid, Configured;
    assert After([]) == EMPTY_STATE;
    AfterStep([], CONFIGURE);
    assert [] + [CONFIGURE] == [CONFIGURE];
    ReachableInv([CONFIGURE]);
  }

  // ---------------------------------------------------------------------
  // The high-water bound is sharp

  lemma CommitmentsOther(calls: seq<Call>, call: Call)
    requires !call.CommitCall?
    ensures Commitments(calls + [call]) == Commitments(calls)
  {
    hide After, RunWithKey, BeginError, Target, UploadPasses, PutVerdict;
    assert (calls + [call])[..|calls + [call]| - 1] == calls;
  }

  lemma CommitmentsCommit(calls: seq<Call>, id: RunId, commit: CommitRequest, now: int)
    requires CommitPasses(After(calls), id, commit)
    ensures id in After(calls).runs
    ensures Commitments(calls + [CommitCall(id, commit, now)]) ==
              Commitments(calls) + [CommitmentOf(After(calls), id, now)]
  {
    hide After, CommitPasses, WriteOf, CommitmentOf;
    var call := CommitCall(id, commit, now);
    assert (calls + [call])[..|calls + [call]| - 1] == calls;
    PassesId(After(calls), id, commit);
    CommitIsItsWrite(After(calls), id, commit, now);
  }

  lemma CommitIsItsWrite(s: State, id: RunId, commit: CommitRequest, now: int)
    requires CommitPasses(s, id, commit)
    ensures WriteOf(s, CommitCall(id, commit, now)) == CommitWrite(id, commit, now)
  {
    hide CommitPasses;
  }

  const REBUILT: seq<Call> := [CONFIGURE] + RunOf(1, Full, PAYMENT)

  lemma AfterParts(calls: seq<Call>, id: RunId, mode: Mode, item: Upload)
    ensures After(calls + [BeginRun(id, mode)]) == Step1(After(calls), id, mode)
    ensures After(calls + [BeginRun(id, mode), UploadRun(id, item)]) == Step2(After(calls), id, mode, item)
    ensures After(calls + RunOf(id, mode, item)) == Execute(After(calls), RunOf(id, mode, item))
  {
    hide Apply;
    AfterStep(calls, BeginRun(id, mode));
    AfterStep(calls + [BeginRun(id, mode)], UploadRun(id, item));
    assert calls + [BeginRun(id, mode)] + [UploadRun(id, item)] == calls + [BeginRun(id, mode), UploadRun(id, item)];
    ExecuteConcat(EMPTY_STATE, calls, RunOf(id, mode, item));
  }

  lemma OneMoreCommitment(calls: seq<Call>, id: RunId, mode: Mode, item: Upload)
    requires CommitPasses(Step2(After(calls), id, mode, item), id, ONE_BATCH)
    ensures id in Step2(After(calls), id, mode, item).runs
    ensures Commitments(calls + RunOf(id, mode, item)) ==
              Commitments(calls) + [CommitmentOf(Step2(After(calls), id, mode, item), id, 0)]
  {
    var sent := calls + [BeginRun(id, mode), UploadRun(id, item)];
    assert calls + RunOf(id, mode, item) == sent + [CommitRun(id)];
    assert sent == calls + [BeginRun(id, mode)] + [UploadRun(id, item)];
    assert CommitRun(id) == CommitCall(id, ONE_BATCH, 0);
    hide Commitments, After, CommitPasses, Step2, CommitmentOf;
    AfterParts(calls, id, mode, item);
    CommitmentsOther(calls, BeginRun(id, mode));
    CommitmentsOther(calls + [BeginRun(id, mode)], UploadRun(id, item));
    CommitmentsCommit(sent, id, ONE_BATCH, 0);
  }

  lemma NoCommitments()
    ensures Commitments([CONFIGURE]) == []
  {
    hide After, WriteOf;
    assert Commitments([]) == [];
    CommitmentsOther([], CONFIGURE);
    assert [] + [CONFIGURE] == [CONFIGURE];
  }

  lemma ConfiguredMeans(s: State)
    requires Configured(s)
    ensures Numbered(s, 0) && OneVersion(s) && "food" in s.categories && s.categories["food"] == Show(1)
    ensures s.ledger == EMPTY_LEDGER && s.ledger.rows == map[] && s.sync.None?
  {
    hide OneVersion;
  }

  lemma NothingToReplace(rows: map<Identity, Row>, item: Upload)
    requires TargetOf(item.id, item.content).None?
    ensures MayReplace(rows, item)
  {
  }

  lemma Targetless()
    ensures TargetOf(PAYMENT.id, PAYMENT.content).None? && TargetOf(PENDING.id, PENDING.content).None?
    ensures TargetOf(POSTED.id, POSTED.content) == Some(HOLD) && POSTED.id != HOLD && PENDING.id == HOLD
  {
  }

  lemma PublishesMeans(c: Commitment, id: RunId, mode: Mode, item: Upload)
    requires Publishes(c, id, mode, item)
    ensures c.mode == mode && c.config == 1 && c.toDate == 0
    ensures c.rules.Keys == {"food"} && c.rules["food"].rule.text.lookback == 1
    ensures c.staged.Keys == {item.id} && c.staged[item.id].content == item.content
    ensures c.staged[item.id].categories.Keys == {"food"}
    ensures OneStaged(c.staged, item)
  {
  }

  lemma ValidCalls(calls: seq<Call>, id: RunId, mode: Mode, item: Upload)
    requires AllValid(calls) && Fitting(item)
    ensures AllValid(calls + RunOf(id, mode, item))
  {
    RunIsValid(id, mode, item);
    hide Call.Valid, Fitting;
  }

  /** After this run the payment was pruned. On the high-water day nothing differs, but
      one day earlier its category's window selects it in the unpruned store only. */
  lemma HighWaterIsSharp()
    ensures var cs := Commitments(REBUILT);
            && AllValid(REBUILT) && cs != [] && HighWater(cs) == 0
            && Current(After(REBUILT).configs, Active) == Some(1)
            && "food" in RulesOf(After(REBUILT), 1) && RulesOf(After(REBUILT), 1)["food"].rule.text.lookback == 1
            && SPENDING in WindowRows(Unpruned(cs), 1, "food", 1, -1)
            && SPENDING !in WindowRows(After(REBUILT).ledger, 1, "food", 1, -1)
  {
    hide *;
    AfterRebuilt();
    var s := After([CONFIGURE]);
    AfterConfigure();
    ConfiguredMeans(s);
    AllFitting();
    Targetless();
    NothingToReplace(s.ledger.rows, PAYMENT);
    RebuiltIs();
    RunIsSent(s, 0, Full, PAYMENT);
    var sent := Step2(s, 1, Full, PAYMENT);
    ReadyPasses(s, 0, sent, Full, PAYMENT);
    OneMoreCommitment([CONFIGURE], 1, Full, PAYMENT);
    NoCommitments();
    ReadyMeans(s, sent, 1, Full, PAYMENT);
    CallsKeepCore(s, 1, Full, PAYMENT);
    CoreParts(sent);
    RulesAre(sent);
    CommitmentHas(sent, 1, PAYMENT);
    var c := CommitmentOf(sent, 1, 0);
    PublishesMeans(c, 1, Full, PAYMENT);
    PaymentIs();
    OneRowValid(c.staged, map[], PAYMENT);
    NothingToReplace(map[], PAYMENT);
    LostOnEarlierDays([], c, SPENDING, "food", -1);
    assert [] + [c] == [c];
    LiveIsFold(REBUILT);
  }

  lemma PaymentIs()
    ensures PAYMENT.Valid() && PAYMENT.id == SPENDING && PAYMENT.content.date == -1
    ensures WindowStart(-1, 1) == -1 && WindowStart(0, 1) == 0
  {
    AllFitting();
  }

  lemma RebuiltIs()
    ensures REBUILT == [CONFIGURE] + RunOf(1, Full, PAYMENT) && 0 + 1 == 1
  {
  }

  lemma AfterRebuilt()
    ensures var s := After(REBUILT);
            && AllValid(REBUILT) && Numbered(s, 1) && OneVersion(s) && Core(s) && s.sync.Some?
            && "food" in s.categories && s.categories["food"] == Show(1)
            && Current(s.configs, Active) == Some(1)
            && "food" in RulesOf(s, 1) && RulesOf(s, 1)["food"].rule.text.lookback == 1
  {
    hide *;
    var s := After([CONFIGURE]);
    AfterConfigure();
    ConfiguredMeans(s);
    AllFitting();
    CallsAreValid();
    Targetless();
    NothingToReplace(s.ledger.rows, PAYMENT);
    RebuiltIs();
    OneValid();
    ValidCalls([CONFIGURE], 1, Full, PAYMENT);
    AfterParts([CONFIGURE], 1, Full, PAYMENT);
    var c := RunRuns(s, 0, Full, PAYMENT);
    var t := After(REBUILT);
    NextNumbered(t, 1);
    OneVersionCurrent(t);
    CoreParts(t);
    RulesAre(t);
    FoodRulesMean(RulesOf(t, 1));
  }

  lemma OneValid()
    ensures AllValid([CONFIGURE])
  {
    CallsAreValid();
    hide Call.Valid;
  }

  lemma FoodRulesMean(rules: map<Key, RuleVersion>)
    requires FoodRules(rules)
    ensures "food" in rules && rules["food"].rule.text.lookback == 1
  {
  }

  // ---------------------------------------------------------------------
  // A replaced row comes back

  const HELD: seq<Call> := [CONFIGURE] + RunOf(1, Full, PENDING)
  const REPLACED: seq<Call> := HELD + RunOf(2, Incremental, POSTED)
  const RETURNED: seq<Call> := REPLACED + RunOf(3, Incremental, PENDING)

  lemma ReplacedParts()
    ensures HELD == [CONFIGURE] + RunOf(1, Full, PENDING) && REPLACED == HELD + RunOf(2, Incremental, POSTED)
    ensures RETURNED == REPLACED + RunOf(3, Incremental, PENDING) && 0 + 1 == 1 && 1 + 1 == 2 && 2 + 1 == 3
  {
  }

  lemma RowsOfRebuild(c: Commitment)
    requires Publishes(c, 1, Full, PENDING)
    ensures MayReplace(Publish(EMPTY_LEDGER, c).rows, POSTED)
  {
    var rows := Publish(EMPTY_LEDGER, c).rows;
    Targetless();
    PublishesMeans(c, 1, Full, PENDING);
    hide Publish, Publishes;
    if HOLD in rows { FullRow(EMPTY_LEDGER, c, HOLD); }
  }

  lemma PostedReplaces(l: Ledger, c: Commitment)
    requires Publishes(c, 2, Incremental, POSTED)
    ensures var n := Publish(l, c);
            && HOLD !in n.rows && POSTED.id in n.rows && n.rows[POSTED.id].content == POSTED.content
            && LinkKey(POSTED.id, "food") in n.links
  {
    Targetless();
    PublishesMeans(c, 2, Incremental, POSTED);
    assert HOLD in Targets(c.staged) && POSTED.id !in Targets(c.staged);
    assert !StagedTooOld(c, POSTED.id, "food");
    hide Publishes, Targets, Publish;
    ReplacedAreGone(l, c, HOLD);
    StagedIsPublished(l, c, POSTED.id, "food");
    LandsLive(l, c, POSTED.id);
  }

  lemma PendingReturns(l: Ledger, c: Commitment)
    requires Publishes(c, 3, Incremental, PENDING)
    requires POSTED.id in l.rows && l.rows[POSTED.id].content == POSTED.content
    requires LinkKey(POSTED.id, "food") in l.links
    ensures var n := Publish(l, c);
            && HOLD in n.rows && POSTED.id in n.rows && n.rows[POSTED.id].content == POSTED.content
            && !NoLiveTarget(n)
  {
    var n := Publish(l, c);
    Targetless();
    PublishesMeans(c, 3, Incremental, PENDING);
    assert Targets(c.staged) == {};
    assert !StagedTooOld(c, HOLD, "food") && !TooOld(c, l.rows, LinkKey(POSTED.id, "food"));
    hide Publishes, Targets, Publish;
    StaysLive(l, c, POSTED.id);
    LandsLive(l, c, HOLD);
    assert NamesLive(n, POSTED.id);
  }

  lemma AfterHeld()
    ensures var s := After(HELD);
            AllValid(HELD) && Numbered(s, 1) && Core(s) && s.sync.Some? && MayReplace(s.ledger.rows, POSTED)
  {
    var s := After([CONFIGURE]);
    hide *;
    ReplacedParts();
    AfterConfigure();
    ConfiguredMeans(s);
    AllFitting();
    Targetless();
    NothingToReplace(s.ledger.rows, PENDING);
    AfterParts([CONFIGURE], 1, Full, PENDING);
    var c := RunRuns(s, 0, Full, PENDING);
    RowsOfRebuild(c);
    OneValid();
    ValidCalls([CONFIGURE], 1, Full, PENDING);
  }

  lemma AfterReplaced()
    ensures var s := After(REPLACED);
            && AllValid(REPLACED) && Numbered(s, 2) && Core(s) && s.sync.Some?
            && HOLD !in s.ledger.rows && POSTED.id in s.ledger.rows
            && s.ledger.rows[POSTED.id].content == POSTED.content && LinkKey(POSTED.id, "food") in s.ledger.links
  {
    hide *;
    ReplacedParts();
    AfterHeld();
    AllFitting();
    AfterParts(HELD, 2, Incremental, POSTED);
    var c := RunRuns(After(HELD), 1, Incremental, POSTED);
    PostedReplaces(After(HELD).ledger, c);
    ValidCalls(HELD, 2, Incremental, POSTED);
  }

  /** A rebuild with a pending row, an incremental run with the posted row that replaces
      it, and an incremental run that stages the pending row again: both are live. */
  lemma ReplacedRowReturns()
    ensures AllValid(RETURNED) && RETURNED[..|REPLACED|] == REPLACED
    ensures HOLD !in After(REPLACED).ledger.rows
    ensures var l := After(RETURNED).ledger;
            && SPENDING in l.rows && HOLD in l.rows && TargetOf(SPENDING, l.rows[SPENDING].content) == Some(HOLD)
    ensures !AlwaysGone(RETURNED)
  {
    hide *;
    ReplacedParts();
    AfterReplaced();
    AllFitting();
    Targetless();
    NothingToReplace(After(REPLACED).ledger.rows, PENDING);
    AfterParts(REPLACED, 3, Incremental, PENDING);
    var c := RunRuns(After(REPLACED), 2, Incremental, PENDING);
    PendingReturns(After(REPLACED).ledger, c);
    ValidCalls(REPLACED, 3, Incremental, PENDING);
    PostedIs();
    PrefixIs(REPLACED, RunOf(3, Incremental, PENDING));
    NotAlwaysGone(RETURNED);
  }

  lemma PostedIs()
    ensures POSTED.id == SPENDING
  {
  }

  lemma PrefixIs(a: seq<Call>, b: seq<Call>)
    ensures (a + b)[..|a|] == a
  {
  }

  lemma NotAlwaysGone(calls: seq<Call>)
    requires !NoLiveTarget(After(calls).ledger)
    ensures !AlwaysGone(calls)
  {
    hide NoLiveTarget, After;
    assert calls[..|calls|] == calls;
  }

  // ---------------------------------------------------------------------
  // A live edit that looks like damage

  lemma SameRulesSameDigest()
    ensures DesiredHash(Wanted(MONEY_FACTOR)) == DesiredHash(Wanted(1))
  {
    hide DesiredHash;
    OneKey(1);
    OneKey(MONEY_FACTOR);
    DigestIgnoresPresentation(Wanted(MONEY_FACTOR), Wanted(1));
  }

  lemma EditIsWanted(s: State)
    requires OneVersion(s) && "food" in s.categories && s.categories["food"] == Show(1)
    requires FoodRules(RulesOf(s, 1))
    ensures CurrentEdit(s) == Some(EditOfRequest(Wanted(1)))
  {
    OneVersionCurrent(s);
    OneKey(1);
    hide OneVersion, RulesOf, Current, ByKey;
    assert LiveSnapshot(s, 1).categories == map["food" := CategoryEdit(Show(1), TEXT)];
    assert EditOfRequest(Wanted(1)).categories == map["food" := CategoryEdit(Show(1), TEXT)];
    assert EditOf(s, 1) == LiveSnapshot(s, 1);
    assert Base(s.configs) == Some(1);
  }

  /** The raise is accepted and edits the category row in place. */
  lemma RaiseIsAccepted(s: State)
    requires OneVersion(s) && "food" in s.categories && s.categories["food"] == Show(1)
    requires Core(s)
    ensures var t := Apply(s, RAISE).state;
            && Apply(s, RAISE).reply == Reply.Configured(LiveEdit)
            && t.configs == s.configs && t.sync == s.sync && t.runs == s.runs
            && "food" in t.categories && t.categories["food"] == Show(MONEY_FACTOR)
  {
    hide *;
    CoreParts(s);
    OneVersionCurrent(s);
    RulesAre(s);
    EditIsWanted(s);
    OneKey(MONEY_FACTOR);
    SameRulesSameDigest();
    StoredHashIsSemantic(s, 1);
    CasAccepts(s, EditOfRequest(Wanted(1)));
    SemanticsFrom(s, 1, Wanted(MONEY_FACTOR));
    PutIs(s, Wanted(MONEY_FACTOR), Some(EditOfRequest(Wanted(1))), 0);
    RaiseIs(s);
    Retires(s.configs, 0);
    PresentFood(s.categories, MONEY_FACTOR);
  }

  lemma RaiseIs(s: State)
    ensures Apply(s, RAISE) == PutOutcome(s, Wanted(MONEY_FACTOR), Some(EditOfRequest(Wanted(1))), 0)
  {
    hide PutOutcome, EditOfRequest;
  }

  lemma CasAccepts(s: State, edit: EditPayload)
    requires CurrentEdit(s) == Some(edit)
    ensures CasError(s, Some(edit)).None?
  {
    hide EditOf;
  }

  lemma SemanticsFrom(s: State, v: Version, request: ConfigRequest)
    requires v in s.configs && SemanticHash(s, v) == DesiredHash(request)
    ensures SameSemantics(s, Some(v), request)
  {
    hide SemanticHash, DesiredHash;
  }

  lemma Retires(configs: map<Version, Config>, now: int)
    ensures Retire(configs, None, now) == configs
  {
  }

  lemma PresentFood(categories: map<Key, Presentation>, budget: nat)
    requires "food" in categories
    ensures "food" in Present(categories, Wanted(budget).categories)
    ensures Present(categories, Wanted(budget).categories)["food"] == Show(budget)
  {
    OneKey(budget);
  }

  lemma BudgetIsOne(s: State)
    requires OneVersion(s) && "food" in s.categories && s.categories["food"] == Show(MONEY_FACTOR)
    ensures !Healthy(s) && !Traceable(s.categories, ActiveBudgets(s), "food")
  {
    OneVersionCurrent(s);
    OneKey(1);
    hide OneVersion, Current, ByKey;
    assert ActiveBudgets(s) == map["food" := 1];
    assert Damaged(s.categories, ActiveBudgets(s), "food");
  }

  /** An ordinary run of the service, without any migration, ends with a sync row and a
      budget that the repair takes for damaged: it reverts the user's edit, drops the
      live data and restarts the count of commits. Nor would it undo the faulty scaling
      of this database. */
  lemma LegalEditLooksDamaged()
    ensures var s := After(REBUILT + [RAISE]);
            && AllValid(REBUILT + [RAISE]) && !Healthy(s) && s.sync.Some?
            && "food" in s.categories && s.categories["food"].budget == 10000
            && "food" in Repaired(s).categories && Repaired(s).categories["food"].budget == 1
            && Repaired(s).sync.None? && !SerialInv(Repaired(s).runs, Repaired(s).sync)
            && !Traceable(s.categories, ActiveBudgets(s), "food")
  {
    hide *;
    AfterRebuilt();
    RaisedIsValid(REBUILT);
    AfterStep(REBUILT, RAISE);
    var s := After(REBUILT);
    var t := After(REBUILT + [RAISE]);
    RaiseIsAccepted(s);
    SameVersion(s, t);
    BudgetIsOne(t);
    ShowBudget(MONEY_FACTOR);
    RepairReverts(t);
    RepairedTables(t);
    RepairKeepsInvariant(REBUILT + [RAISE]);
  }

  lemma RaisedIsValid(calls: seq<Call>)
    requires AllValid(calls)
    ensures AllValid(calls + [RAISE])
  {
    CallsAreValid();
    hide Call.Valid;
  }

  lemma ShowBudget(budget: nat)
    ensures Show(budget).budget == budget && MONEY_FACTOR == 10000
  {
  }

  lemma RepairReverts(s: State)
    requires OneVersion(s) && "food" in s.categories && s.categories["food"] == Show(MONEY_FACTOR)
    ensures "food" in Repaired(s).categories && Repaired(s).categories["food"].budget == 1
  {
    OneVersionCurrent(s);
    OneKey(1);
    OnlyDamagedBudgetsChange(s, "food");
    hide OneVersion, Current, ByKey, Repaired;
    assert ActiveBudgets(s) == map["food" := 1];
    assert Damaged(s.categories, ActiveBudgets(s), "food");
  }

  // ---------------------------------------------------------------------
  // The repair reopens a superseded run

  const OPENED: seq<Call> := [CONFIGURE] + [BeginRun(1, Full)]
  const OVERTAKEN: seq<Call> := OPENED + RunOf(2, Full, PAYMENT)
  const NO_BATCH := CommitRequest(0, {"account"})

  /** A run that has received nothing since it was begun before the first publication. */
  ghost predicate StillOpen(s: State) {
    && 1 in s.runs && s.runs[1].state == Created && s.runs[1].mode == Full && s.runs[1].config == 1
    && s.runs[1].accounts == {"account"} && s.runs[1].syncBefore.None?
  }

  lemma OpenedIsOpen(s: State, t: State)
    requires Numbered(s, 0) && s.sync.None? && t == s.(runs := s.runs[1 := Opened(s, 0, Full)])
    ensures StillOpen(t) && Numbered(t, 1)
  {
    SameVersion(s, t);
    hide OneVersion;
  }

  lemma StillOpenAfter(s: State, t: State)
    requires StillOpen(s) && 1 in t.runs && t.runs[1] == s.runs[1]
    ensures StillOpen(t)
  {
  }

  lemma StillOpenMeans(s: State)
    requires StillOpen(s)
    ensures 1 in s.runs
  {
  }

  lemma OvertakenParts()
    ensures OPENED == [CONFIGURE] + [BeginRun(1, Full)] && OVERTAKEN == OPENED + RunOf(2, Full, PAYMENT)
    ensures 0 + 1 == 1 && 1 + 1 == 2
  {
  }

  lemma AfterOpened()
    ensures var s := After(OPENED);
            && AllValid(OPENED) && Core(s) && Numbered(s, 1) && StillOpen(s) && s.sync.None?
            && "food" in s.categories && s.categories["food"] == Show(1)
  {
    var s := After([CONFIGURE]);
    hide *;
    OvertakenParts();
    AfterConfigure();
    ConfiguredMeans(s);
    CoreParts(s);
    RunBegins(s, 0, Full);
    AfterStep([CONFIGURE], BeginRun(1, Full));
    OpenedIsOpen(s, After(OPENED));
    OpenedIsValid();
    ReachableInv(OPENED);
  }

  lemma OpenedIsValid()
    ensures AllValid(OPENED)
  {
    AllFitting();
    RunIsValid(1, Full, PAYMENT);
    OneValid();
    assert RunOf(1, Full, PAYMENT)[0].Valid();
    hide Call.Valid;
  }

  lemma AfterOvertaken()
    ensures var s := After(OVERTAKEN);
            && AllValid(OVERTAKEN) && Core(s) && OneVersion(s) && StillOpen(s) && s.sync.Some?
            && "food" in s.categories && s.categories["food"] == Show(1)
  {
    hide *;
    OvertakenParts();
    AfterOpened();
    var s := After(OPENED);
    AllFitting();
    Targetless();
    NothingToReplace(s.ledger.rows, PAYMENT);
    AfterParts(OPENED, 2, Full, PAYMENT);
    StillOpenMeans(s);
    var c := RunRuns(s, 1, Full, PAYMENT);
    StillOpenAfter(s, After(OVERTAKEN));
    NextNumbered(After(OVERTAKEN), 2);
    ValidCalls(OPENED, 2, Full, PAYMENT);
  }

  lemma CreatedIsEmpty(s: State)
    requires StillOpen(s)
    requires RunInv(s)
    ensures RowsOf(s.batches, 1) == map[] && RowsOf(s.staged, 1) == map[]
  {
    assert RunOk(s, 1);
    hide RunInv, BatchesOk, StagedOk, ManifestOk, RulesOf;
  }

  lemma ReopenedPasses(s: State)
    requires StillOpen(s) && OneVersion(s) && s.sync.None?
    requires RowsOf(s.batches, 1) == map[] && RowsOf(s.staged, 1) == map[]
    ensures 1 in s.configs && CommitError(s, 1, NO_BATCH).None?
  {
    hide CommitError, OneVersion;
    OneVersionCurrent(s);
    CommitAcceptance(s, 1, NO_BATCH);
  }

  /** A full run begun before the first publication is overtaken by another one and
      refused; after the repair the same commit passes. */
  lemma RepairReopensRun()
    ensures var s := After(OVERTAKEN + [RAISE]);
            && AllValid(OVERTAKEN + [RAISE]) && 1 in s.runs && s.runs[1].config in s.configs && !Healthy(s)
            && CommitError(s, 1, NO_BATCH) == Some(RunSuperseded)
            && CommitError(Repaired(s), 1, NO_BATCH).None?
  {
    hide *;
    AfterOvertaken();
    RaisedIsValid(OVERTAKEN);
    AfterStep(OVERTAKEN, RAISE);
    var s := After(OVERTAKEN);
    var t := After(OVERTAKEN + [RAISE]);
    RaiseIsAccepted(s);
    StillOpenMeans(s);
    StillOpenAfter(s, t);
    SameVersion(s, t);
    BudgetIsOne(t);
    RepairedTables(t);
    ReachableInv(OVERTAKEN + [RAISE]);
    CoreParts(t);
    CreatedIsEmpty(t);
    SameVersion(t, Repaired(t));
    StillOpenAfter(t, Repaired(t));
    ReopenedPasses(Repaired(t));
    RepairReopens(t, 1, NO_BATCH);
  }
}
