/** get_dashboard: the rolling-window totals that readers see, and what never
    changes them. */
module Dashboard {
  import opened Options
  import opened Model
  import opened ConfigSpec
  import opened RefreshSpec
  import opened Invariant
  import opened StoreModel
  import opened RefreshService
  import opened Traces
  import opened History
  import opened ConfigTraces

  /** The totals of one category's window. */
  datatype Figures = Figures(
    spent: int, transactionCount: nat, pendingCount: nat, pendingAmount: int, refundCount: nat, refundAmount: int)

  datatype CategoryView = CategoryView(
    show: Presentation, windowDays: int, windowStart: int, windowEnd: int, figures: Figures)

  datatype DashboardView = DashboardView(
    config: Version, pending: Option<Version>, fullRebuildRequired: bool, categories: map<Key, CategoryView>)

  // ---------------------------------------------------------------------
  // Totals over a set of rows

  /** The sum of a column over some rows. */
  ghost function Sum(rows: map<Identity, Content>, column: Content -> int): int {
    if rows == map[] then 0
    else
      var id :| id in rows;
      column(rows[id]) + Sum(rows - {id}, column)
  }

  /** The sum does not depend on the order of the rows. */
  lemma {:induction false} SumStep(rows: map<Identity, Content>, column: Content -> int, id: Identity)
    requires id in rows
    ensures Sum(rows, column) == column(rows[id]) + Sum(rows - {id}, column)
    decreases |rows|
  {
    var first :| first in rows && Sum(rows, column) == column(rows[first]) + Sum(rows - {first}, column);
    if first != id {
      SumStep(rows - {first}, column, id);
      SumStep(rows - {id}, column, first);
      assert rows - {first} - {id} == rows - {id} - {first};
    }
  }

  function Net(c: Content): int {
    c.amount - c.refund
  }

  function RefundOf(c: Content): int {
    c.refund
  }

  function PendingOf(rows: map<Identity, Content>): map<Identity, Content> {
    map id | id in rows && rows[id].pending :: rows[id]
  }

  function RefundedOf(rows: map<Identity, Content>): map<Identity, Content> {
    map id | id in rows && rows[id].refunded :: rows[id]
  }

  /** What the selected rows of a window add up to. */
  ghost function FiguresOf(rows: map<Identity, Content>): Figures {
    Figures(Sum(rows, Net), |rows|, |PendingOf(rows)|, Sum(PendingOf(rows), Net),
            |RefundedOf(rows)|, Sum(RefundedOf(rows), RefundOf))
  }

  ghost function CategoryViewOf(s: State, active: Version, k: Key, asOf: int): CategoryView
    requires k in RulesOf(s, active)
  {
    var lookback := RulesOf(s, active)[k].rule.text.lookback;
    CategoryView(s.categories[k], lookback, WindowStart(asOf, lookback), asOf,
                 FiguresOf(WindowRows(s.ledger, active, k, lookback, asOf)))
  }

  ghost function CategoriesOf(s: State, active: Version, asOf: int): map<Key, CategoryView> {
    map k | k in RulesOf(s, active) && RulesOf(s, active)[k].rule.text.enabled :: CategoryViewOf(s, active, k, asOf)
  }

  /** None asks the caller to create a configuration first. */
  ghost function View(s: State, asOf: int): Option<DashboardView> {
    var active := Current(s.configs, Active);
    var pending := Current(s.configs, Pending);
    if active.None? then None
    else
      Some(DashboardView(
             active.value, pending,
             pending.Some? || s.sync.None? || s.sync.value.config != active.value,
             CategoriesOf(s, active.value, asOf)))
  }

  // ---------------------------------------------------------------------
  // The loops

  /** Add up one column of some rows, in any order. */
  method AddUp(rows: map<Identity, Content>, column: Content -> int) returns (total: int)
    ensures total == Sum(rows, column)
  {
    total := 0;
    var rest := rows.Keys;
    assert rows - rest == map[];
    while rest != {}
      invariant rest <= rows.Keys
      invariant total == Sum(rows - rest, column)
      decreases |rest|
    {
      var id :| id in rest;
      SumStep(rows - (rest - {id}), column, id);
      assert (rows - (rest - {id})) - {id} == rows - rest;
      total := total + column(rows[id]);
      rest := rest - {id};
    }
    assert rows - rest == rows;
  }

  method CategoryFigures(rows: map<Identity, Content>) returns (f: Figures)
    ensures f == FiguresOf(rows)
  {
    var spent := AddUp(rows, Net);
    var pending := PendingOf(rows);
    var pendingAmount := AddUp(pending, Net);
    var refunds := RefundedOf(rows);
    var refundAmount := AddUp(refunds, RefundOf);
    f := Figures(spent, |rows|, |pending|, pendingAmount, |refunds|, refundAmount);
  }

  lemma CategoriesAt(s: State, active: Version, asOf: int, k: Key)
    ensures k in CategoriesOf(s, active, asOf) <==>
              k in RulesOf(s, active) && RulesOf(s, active)[k].rule.text.enabled
    ensures k in CategoriesOf(s, active, asOf) ==>
              CategoriesOf(s, active, asOf)[k] == CategoryViewOf(s, active, k, asOf)
  {
  }

  /** The enabled categories of the active version, in any order. */
  method EnabledCategories(db: Store, active: Version, asOf: int) returns (categories: map<Key, CategoryView>)
    ensures categories == CategoriesOf(db.Snapshot(), active, asOf)
  {
    hide RulesOf, CategoriesOf, FiguresOf, WindowRows;
    var s := db.Snapshot();
    var rules := RulesOf(s, active);
    categories := map[];
    var rest := rules.Keys;
    while rest != {}
      invariant rest <= rules.Keys
      invariant forall k :: k in categories <==> k in rules && k !in rest && rules[k].rule.text.enabled
      invariant forall k :: k in categories ==> categories[k] == CategoryViewOf(s, active, k, asOf)
      decreases |rest|
    {
      var k :| k in rest;
      rest := rest - {k};
      if rules[k].rule.text.enabled {
        var lookback := rules[k].rule.text.lookback;
        var figures := CategoryFigures(WindowRows(db.Live(), active, k, lookback, asOf));
        HasCategory(s, active, k);
        categories :=
          categories[k := CategoryView(db.categories[k], lookback, WindowStart(asOf, lookback), asOf, figures)];
      }
    }
    SameCategoryViews(s, active, asOf, categories);
  }

  lemma HasCategory(s: State, active: Version, k: Key)
    requires k in RulesOf(s, active)
    ensures k in s.categories
  {
  }

  lemma SameCategoryViews(s: State, active: Version, asOf: int, categories: map<Key, CategoryView>)
    requires forall k :: k in categories <==> k in RulesOf(s, active) && RulesOf(s, active)[k].rule.text.enabled
    requires forall k :: k in categories ==> categories[k] == CategoryViewOf(s, active, k, asOf)
    ensures categories == CategoriesOf(s, active, asOf)
  {
  }

  method GetDashboard(db: Store, asOf: int) returns (view: Option<DashboardView>)
    requires AtMostOne(db.configs, Active) && AtMostOne(db.configs, Pending)
    ensures view == View(db.Snapshot(), asOf)
  {
    hide CategoriesOf, Current, AtMostOne;
    var active := FindByStatus(db.configs, Active);
    if active.None? {
      return None;
    }
    var pending := FindByStatus(db.configs, Pending);
    var categories := EnabledCategories(db, active.value, asOf);
    view := Some(DashboardView(active.value, pending,
                               pending.Some? || db.sync.None? || db.sync.value.config != active.value, categories));
  }

  // ---------------------------------------------------------------------
  // What never changes the totals

  /** On and after the high-water day the dashboard shows, for every category, the
      totals of a store that never pruned anything. */
  lemma DashboardIgnoresPruning(calls: seq<Call>, asOf: int, k: Key)
    requires AllValid(calls) && View(After(calls), asOf).Some?
    requires Commitments(calls) != [] ==> HighWater(Commitments(calls)) <= asOf
    requires k in View(After(calls), asOf).value.categories
    ensures var shown := View(After(calls), asOf).value;
            shown.categories[k].figures ==
              FiguresOf(WindowRows(Unpruned(Commitments(calls)), shown.config, k, shown.categories[k].windowDays, asOf))
  {
    var s := After(calls);
    var active := Current(s.configs, Active).value;
    hide After, Commitments, RulesOf, WindowRows, FiguresOf, Unpruned, HighWater;
    CategoriesAt(s, active, asOf, k);
    PruningIsInvisible(calls, k, asOf);
  }

  lemma SnapshotShows(s: State, v: Version, k: Key)
    requires v in s.configs && k in RulesOf(s, v)
    ensures k in s.categories && k in LiveSnapshot(s, v).categories
    ensures LiveSnapshot(s, v).categories[k].show == s.categories[k]
  {
  }

  lemma SameCategory(s: State, t: State, a: Version, k: Key, asOf: int)
    requires a in s.configs && a in t.configs && LiveSnapshot(t, a) == LiveSnapshot(s, a)
    requires RulesOf(t, a) == RulesOf(s, a) && t.ledger == s.ledger && k in RulesOf(s, a)
    ensures CategoryViewOf(t, a, k, asOf) == CategoryViewOf(s, a, k, asOf)
  {
    hide RulesOf, FiguresOf, WindowRows, LiveSnapshot;
    SnapshotShows(s, a, k);
    SnapshotShows(t, a, k);
  }

  lemma SameViews(s: State, t: State, asOf: int)
    requires SameDashboardInputs(s, t) && Current(s.configs, Active).Some?
    ensures View(s, asOf).Some? && View(t, asOf).Some?
    ensures View(t, asOf).value.config == View(s, asOf).value.config
    ensures View(t, asOf).value.categories == View(s, asOf).value.categories
  {
    var a := Current(s.configs, Active).value;
    hide Current, CategoryViewOf, RulesOf, CategoriesOf, LiveSnapshot;
    var x, y := CategoriesOf(s, a, asOf), CategoriesOf(t, a, asOf);
    forall k ensures (k in x <==> k in y) && (k in x ==> x[k] == y[k]) {
      CategoriesAt(s, a, asOf, k);
      CategoriesAt(t, a, asOf, k);
      if k in RulesOf(s, a) { SameCategory(s, t, a, k, asOf); }
    }
  }

  /** Begins, uploads and writes that stay pending leave every category row of the
      dashboard as it was, however many there are. */
  lemma DashboardIgnoresPending(before: seq<Call>, calls: seq<Call>, asOf: int)
    requires AllValid(before) && AllValid(calls) && View(After(before), asOf).Some?
    requires AllLeaveActive(After(before), calls)
    ensures View(After(before + calls), asOf).Some?
    ensures View(After(before + calls), asOf).value.config == View(After(before), asOf).value.config
    ensures View(After(before + calls), asOf).value.categories == View(After(before), asOf).value.categories
  {
    var s := After(before);
    assert Current(s.configs, Active).Some?;
    hide *;
    ReachableInv(before);
    PendingIsolation(s, calls);
    ExecuteConcat(EMPTY_STATE, before, calls);
    AfterIs(before);
    AfterIs(before + calls);
    SameViews(s, Execute(s, calls), asOf);
  }

  lemma AfterIs(calls: seq<Call>)
    ensures After(calls) == Execute(EMPTY_STATE, calls)
  {
    hide Execute;
  }

  // ---------------------------------------------------------------------
  // The window

  predicate InWindow(day: int, lookback: int, d: int) {
    WindowStart(day, lookback) <= d <= day
  }

  /** The days of a window. */
  ghost function WindowDays(day: int, lookback: int): set<int> {
    set d | WindowStart(day, lookback) <= d < day + 1 && InWindow(day, lookback, d)
  }

  /** A window of n days is n days long and ends on the day itself. */
  lemma {:induction false} WindowSpansLookback(day: int, lookback: nat)
    ensures |WindowDays(day, lookback)| == lookback
    ensures lookback > 0 ==> day in WindowDays(day, lookback) && day + 1 !in WindowDays(day, lookback)
  {
    if lookback == 0 {
      assert WindowDays(day, 0) == {};
    } else {
      WindowSpansLookback(day, lookback - 1);
      assert WindowDays(day, lookback) == WindowDays(day, lookback - 1) + {WindowStart(day, lookback)};
    }
  }
}
