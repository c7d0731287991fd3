/** Migration 0004: repair budgets that an earlier release scaled twice. */
module MoneyRepair {
  import opened Options
  import opened Model
  import opened ConfigSpec
  import opened RefreshSpec
  import opened Invariant
  import opened ConfigProofs
  import opened StepProofs
  import opened StoreModel
  import opened RefreshService
  import opened Traces

  const MONEY_FACTOR: nat := 10000

  /** The budgets of the active version's stored request. */
  ghost function ActiveBudgets(s: State): map<Key, nat> {
    var active := Current(s.configs, Active);
    if active.None? then map[] else BudgetsOf(s.configs[active.value].source.categories)
  }

  function Budgets(m: map<Key, CategoryInput>): map<Key, nat> {
    map k | k in m && k != "" :: m[k].show.budget
  }

  function BudgetsOf(items: seq<CategoryInput>): map<Key, nat> {
    Budgets(ByKey(items))
  }

  /** A nonzero budget stored as exactly 10,000 times the one in the snapshot. */
  predicate Damaged(categories: map<Key, Presentation>, budgets: map<Key, nat>, k: Key) {
    && k in categories && k in budgets && budgets[k] != 0
    && categories[k].budget == budgets[k] * MONEY_FACTOR
  }

  function Corrected(categories: map<Key, Presentation>, budgets: map<Key, nat>): map<Key, Presentation> {
    map k | k in categories ::
      if Damaged(categories, budgets, k) then categories[k].(budget := budgets[k]) else categories[k]
  }

  ghost predicate Healthy(s: State) {
    forall k :: k in s.categories ==> !Damaged(s.categories, ActiveBudgets(s), k)
  }

  ghost function Repaired(s: State): State {
    if Healthy(s) then s
    else s.(categories := Corrected(s.categories, ActiveBudgets(s)), ledger := EMPTY_LEDGER, sync := None)
  }

  // ---------------------------------------------------------------------
  // The migration

  lemma AddBudget(m: map<Key, CategoryInput>, item: CategoryInput)
    ensures Budgets(m[item.key := item]) ==
              if item.key != "" then Budgets(m)[item.key := item.show.budget] else Budgets(m)
  {
  }

  lemma BudgetsStep(items: seq<CategoryInput>, i: nat)
    requires i < |items|
    ensures BudgetsOf(items[..i + 1]) ==
              if items[i].key != "" then BudgetsOf(items[..i])[items[i].key := items[i].show.budget]
              else BudgetsOf(items[..i])
  {
    hide Budgets, ByKey;
    ByKeyNext(items, i);
    AddBudget(ByKey(items[..i]), items[i]);
  }

  lemma NoBudgets(items: seq<CategoryInput>)
    ensures BudgetsOf(items[..0]) == map[] && items[..|items|] == items
  {
  }

  method ReadBudgets(items: seq<CategoryInput>) returns (budgets: map<Key, nat>)
    ensures budgets == BudgetsOf(items)
  {
    hide BudgetsOf;
    budgets := map[];
    NoBudgets(items);
    for i := 0 to |items|
      invariant budgets == BudgetsOf(items[..i])
    {
      BudgetsStep(items, i);
      if items[i].key != "" {
        budgets := budgets[items[i].key := items[i].show.budget];
      }
    }
  }

  function PartlyCorrected(categories: map<Key, Presentation>, budgets: map<Key, nat>, rest: set<Key>)
    : map<Key, Presentation>
  {
    map k | k in categories ::
      if k !in rest && Damaged(categories, budgets, k) then categories[k].(budget := budgets[k]) else categories[k]
  }

  lemma PartlyStep(categories: map<Key, Presentation>, budgets: map<Key, nat>, rest: set<Key>, k: Key)
    requires k in rest && rest <= categories.Keys
    ensures k in PartlyCorrected(categories, budgets, rest)
    ensures PartlyCorrected(categories, budgets, rest)[k] == categories[k]
    ensures PartlyCorrected(categories, budgets, rest - {k}) ==
              if Damaged(categories, budgets, k) then
                PartlyCorrected(categories, budgets, rest)[k := categories[k].(budget := budgets[k])]
              else PartlyCorrected(categories, budgets, rest)
  {
  }

  lemma PartlyEnds(categories: map<Key, Presentation>, budgets: map<Key, nat>)
    ensures PartlyCorrected(categories, budgets, categories.Keys) == categories
    ensures PartlyCorrected(categories, budgets, {}) == Corrected(categories, budgets)
  {
  }

  /** Row by row; says whether any row was repaired. */
  method CorrectBudgets(db: Store, budgets: map<Key, nat>) returns (repaired: bool)
    modifies db`categories
    ensures db.categories == Corrected(old(db.categories), budgets)
    ensures repaired <==> exists k :: k in old(db.categories) && Damaged(old(db.categories), budgets, k)
  {
    hide Corrected, PartlyCorrected;
    ghost var before := db.categories;
    repaired := false;
    var rest := db.categories.Keys;
    PartlyEnds(before, budgets);
    while rest != {}
      invariant rest <= before.Keys
      invariant db.categories == PartlyCorrected(before, budgets, rest)
      invariant repaired <==> exists k :: k in before && k !in rest && Damaged(before, budgets, k)
      decreases |rest|
    {
      var k :| k in rest;
      PartlyStep(before, budgets, rest, k);
      rest := rest - {k};
      if k in budgets && budgets[k] != 0 {
        var current := db.categories[k].budget;
        if current == budgets[k] * MONEY_FACTOR {
          assert Damaged(before, budgets, k);
          db.UpdateCategory(k, db.categories[k].(budget := budgets[k]));
          repaired := true;
        }
      }
    }
  }

  method RepairBudgets(db: Store)
    requires AtMostOne(db.configs, Active)
    modifies db`categories, db`rows, db`links, db`sync
    ensures db.Snapshot() == Repaired(old(db.Snapshot()))
  {
    hide Damaged, AtMostOne;
    ghost var s := db.Snapshot();
    var active := FindByStatus(db.configs, Active);
    var budgets: map<Key, nat> := map[];
    if active.Some? {
      budgets := ReadBudgets(db.configs[active.value].source.categories);
    }
    assert budgets == ActiveBudgets(s);
    var repaired := CorrectBudgets(db, budgets);
    if repaired {
      db.DeleteAllLinks();
      db.DeleteAllRows();
      db.DeleteSync();
    } else {
      NothingToCorrect(s.categories, budgets);
    }
  }

  lemma NothingToCorrect(categories: map<Key, Presentation>, budgets: map<Key, nat>)
    requires forall k :: k in categories ==> !Damaged(categories, budgets, k)
    ensures Corrected(categories, budgets) == categories
  {
  }

  // ---------------------------------------------------------------------
  // What it promises

  /** Exactly the damaged budgets change, and each becomes the snapshot's value. */
  lemma OnlyDamagedBudgetsChange(s: State, k: Key)
    requires k in s.categories
    ensures k in Repaired(s).categories
    ensures Repaired(s).categories[k] != s.categories[k] <==> Damaged(s.categories, ActiveBudgets(s), k)
    ensures Damaged(s.categories, ActiveBudgets(s), k) ==>
              Repaired(s).categories[k] == s.categories[k].(budget := ActiveBudgets(s)[k])
  {
    hide ActiveBudgets;
    CorrectedAt(s.categories, ActiveBudgets(s), k);
  }

  lemma CorrectedAt(categories: map<Key, Presentation>, budgets: map<Key, nat>, k: Key)
    requires k in categories
    ensures k in Corrected(categories, budgets)
    ensures Corrected(categories, budgets)[k] != categories[k] <==> Damaged(categories, budgets, k)
    ensures Damaged(categories, budgets, k) ==>
              Corrected(categories, budgets)[k] == categories[k].(budget := budgets[k])
    ensures !Damaged(Corrected(categories, budgets), budgets, k)
  {
  }

  /** Repairing again changes nothing. */
  lemma RepairIsIdempotent(s: State)
    ensures Healthy(Repaired(s)) && Repaired(Repaired(s)) == Repaired(s)
  {
  }

  lemma RepairedTables(s: State)
    ensures var t := Repaired(s);
            && t.categories.Keys == s.categories.Keys && t.rules == s.rules && t.configs == s.configs
            && t.configRules == s.configRules && t.runs == s.runs && t.batches == s.batches && t.staged == s.staged
            && (Healthy(s) ==> t == s)
            && (!Healthy(s) ==>
                  t.ledger == EMPTY_LEDGER && t.sync.None?
                  && t.categories == Corrected(s.categories, ActiveBudgets(s)))
  {
  }

  lemma SameKeysCatalog(c: Catalog, d: Catalog)
    requires CatalogOk(c) && d.rules == c.rules && d.categories.Keys == c.categories.Keys
    ensures CatalogOk(d) && CatalogExtends(c, d)
  {
  }

  lemma RepairedExtends(s: State)
    requires ConfigInv(s)
    ensures ConfigInv(Repaired(s)) && ConfigExtends(s, Repaired(s))
  {
    hide CatalogOk, VersionsOk, ContentsOk, LinksOk, Repaired, CatalogExtends;
    RepairedTables(s);
    SameKeysCatalog(Catalog(s.categories, s.rules), Catalog(Repaired(s).categories, Repaired(s).rules));
  }

  lemma SerialFits(s: State, t: State)
    requires SerialInv(s.runs, s.sync) && t.runs == s.runs && t.sync.None?
    ensures SerialInv(t.runs, t.sync) <==> s.sync.None?
  {
  }

  /** The repair keeps the configuration and run invariants of any database whose
      configuration is sound, migrated ones included, and always leaves sound live data:
      empty when something was repaired, whatever the tables held before. */
  lemma RepairKeepsTables(s: State)
    requires ConfigInv(s)
    ensures ConfigInv(Repaired(s))
    ensures RunInv(s) ==> RunInv(Repaired(s))
    ensures !Healthy(s) || LiveInv(s) ==> LiveInv(Repaired(s))
  {
    hide *;
    var t := Repaired(s);
    RepairedTables(s);
    RepairedExtends(s);
    if RunInv(s) { RunInvFrame(s, t); }
    if !Healthy(s) { EmptyLive(t); }
  }

  /** The count of commits survives exactly when nothing was repaired or nothing had
      been published: otherwise the revision restarts below the committed runs. */
  lemma RepairRestartsCount(s: State)
    requires SerialInv(s.runs, s.sync)
    ensures SerialInv(Repaired(s).runs, Repaired(s).sync) <==> Healthy(s) || s.sync.None?
  {
    hide *;
    RepairedTables(s);
    if !Healthy(s) { SerialFits(s, Repaired(s)); }
  }

  /** Which commits the restart lets through: those of full runs begun before the first
      publication, which had been refused as superseded. */
  lemma RepairReopens(s: State, id: RunId, request: CommitRequest)
    requires !Healthy(s) && s.sync.Some? && id in s.runs && s.runs[id].config in s.configs
    ensures CommitError(Repaired(s), id, request).None? <==>
              && s.runs[id].mode == Full && s.runs[id].syncBefore.None?
              && ReplacementsValid(RowsOf(s.staged, id), map[])
              && CommitError(s, id, request) == Some(RunSuperseded)
  {
    RepairedTables(s);
    hide Repaired, Healthy, Complete, ReplacementsValid, RowsOf, Target;
  }

  /** And which it shuts out: every run that could have been committed before. */
  lemma RepairSupersedes(s: State, id: RunId, request: CommitRequest)
    requires !Healthy(s) && s.sync.Some? && id in s.runs && s.runs[id].config in s.configs
    requires CommitError(s, id, request).None?
    ensures CommitError(Repaired(s), id, request) == Some(RunSuperseded)
  {
    RepairedTables(s);
    hide Repaired, Healthy, Complete, ReplacementsValid, RowsOf, Target, SameAccountsAsLastRun;
  }

  /** A repaired database keeps the core invariant under all further service calls. */
  lemma ServiceGoesOn(s: State, calls: seq<Call>)
    requires AllValid(calls) && Core(s)
    ensures Core(Execute(Repaired(s), calls))
  {
    hide *;
    CoreParts(s);
    RepairKeepsTables(s);
    CoreFrom(Repaired(s));
    ExecuteKeepsCore(Repaired(s), calls);
  }

  /** The same of every database that the service itself produced. */
  lemma RepairKeepsInvariant(calls: seq<Call>)
    requires AllValid(calls)
    ensures var s := After(calls);
            var t := Repaired(s);
            && ConfigInv(t) && RunInv(t) && LiveInv(t)
            && (SerialInv(t.runs, t.sync) <==> Healthy(s) || s.sync.None?)
  {
    hide *;
    ReachableInv(calls);
    CoreParts(After(calls));
    RepairKeepsTables(After(calls));
    RepairRestartsCount(After(calls));
  }

  /** The repair leaves a database alone exactly when no stored budget is 10,000 times
      its nonzero snapshot value, however that came about. */
  lemma LeftAloneIff(s: State)
    ensures Repaired(s) == s <==> Healthy(s)
  {
    hide Damaged, ActiveBudgets;
    if !Healthy(s) {
      var k :| k in s.categories && Damaged(s.categories, ActiveBudgets(s), k);
      OnlyDamagedBudgetsChange(s, k);
    }
  }

  /** The budgets that the repair compares with are those that the active version's
      stored request asked for, category by category. */
  lemma BudgetsAreRequested(s: State, v: Version, k: Key, budget: nat)
    requires ConfigInv(s) && v in s.configs && s.configs[v].status == Active
    ensures k in ActiveBudgets(s) && ActiveBudgets(s)[k] == budget <==>
              k != "" && exists item :: item in s.configs[v].source.categories && item.key == k
                                        && item.show.budget == budget
  {
    hide *;
    ActiveBudgetsAre(s, v);
    BudgetsHave(s.configs[v].source.categories, k, budget);
  }

  lemma ActiveBudgetsAre(s: State, v: Version)
    requires ConfigInv(s) && v in s.configs && s.configs[v].status == Active
    ensures ActiveBudgets(s) == BudgetsOf(s.configs[v].source.categories)
    ensures UniqueKeys(s.configs[v].source.categories)
  {
    hide *;
    ConfigInvParts(s);
    OnlyActive(s.configs, v);
    SourceKeys(s, v);
    BudgetsOfActive(s, v);
  }

  lemma OnlyActive(configs: map<Version, Config>, v: Version)
    requires VersionsOk(configs) && v in configs && configs[v].status == Active
    ensures Current(configs, Active) == Some(v)
  {
  }

  lemma SourceKeys(s: State, v: Version)
    requires ConfigInv(s) && v in s.configs
    ensures UniqueKeys(s.configs[v].source.categories)
  {
    assert ContentOk(s.configs[v]);
    hide CatalogOk, VersionsOk, AllLinksOk, DesiredHash;
  }

  lemma BudgetsOfActive(s: State, v: Version)
    requires Current(s.configs, Active) == Some(v) && v in s.configs
    ensures ActiveBudgets(s) == BudgetsOf(s.configs[v].source.categories)
  {
    hide BudgetsOf;
  }

  lemma BudgetsHave(items: seq<CategoryInput>, k: Key, budget: nat)
    requires UniqueKeys(items)
    ensures k in BudgetsOf(items) && BudgetsOf(items)[k] == budget <==>
              k != "" && exists item :: item in items && item.key == k && item.show.budget == budget
  {
    if item :| item in items && item.key == k && item.show.budget == budget {
      var i :| 0 <= i < |items| && items[i] == item;
      ByKeyAt(items, i);
    }
    hide ByKey;
  }

  // ---------------------------------------------------------------------
  // The fault and its repair

  /** What the released revision 0003 did to every stored budget. */
  function ScaledTwice(categories: map<Key, Presentation>): map<Key, Presentation> {
    map k | k in categories :: categories[k].(budget := categories[k].budget * MONEY_FACTOR)
  }

  /** The stored budget is zero or still the one in the active snapshot. */
  predicate Traceable(categories: map<Key, Presentation>, budgets: map<Key, nat>, k: Key)
    requires k in categories
  {
    categories[k].budget == 0 || (k in budgets && budgets[k] == categories[k].budget)
  }

  lemma CorrectedScaling(categories: map<Key, Presentation>, budgets: map<Key, nat>, k: Key)
    requires k in categories
    ensures k in Corrected(ScaledTwice(categories), budgets)
    ensures Corrected(ScaledTwice(categories), budgets)[k] == categories[k] <==> Traceable(categories, budgets, k)
  {
  }

  /** The repair undoes the faulty scaling exactly when every nonzero budget is still
      the active snapshot's: a category that is only pending, or whose budget was edited
      since, keeps a budget 10,000 times too large. */
  lemma RepairUndoesScaling(s: State)
    ensures Repaired(s.(categories := ScaledTwice(s.categories))).categories == s.categories <==>
              forall k :: k in s.categories ==> Traceable(s.categories, ActiveBudgets(s), k)
  {
    var d := s.(categories := ScaledTwice(s.categories));
    var fixed := Repaired(d).categories;
    assert ActiveBudgets(d) == ActiveBudgets(s);
    assert fixed == Corrected(d.categories, ActiveBudgets(s)) by {
      if Healthy(d) { NothingToCorrect(d.categories, ActiveBudgets(s)); }
    }
    hide Corrected, Repaired, Healthy, ActiveBudgets, ScaledTwice, Traceable;
    forall k | k in s.categories
      ensures k in fixed && (fixed[k] == s.categories[k] <==> Traceable(s.categories, ActiveBudgets(s), k))
    {
      CorrectedScaling(s.categories, ActiveBudgets(s), k);
    }
    CorrectedKeys(s.categories, ActiveBudgets(s));
  }

  lemma CorrectedKeys(categories: map<Key, Presentation>, budgets: map<Key, nat>)
    ensures Corrected(ScaledTwice(categories), budgets).Keys == categories.Keys
  {
  }

  lemma EmptyLive(t: State)
    requires t.ledger == EMPTY_LEDGER && t.sync.None?
    ensures LiveInv(t)
  {
  }
}
