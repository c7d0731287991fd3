/** What the figures of the dashboard mean: which rows they cover, how spending, refunds
    and pending amounts add up, and when a rebuild is asked for. */
module Totals {
  import opened Options
  import opened Model
  import opened ConfigSpec
  import opened RefreshSpec
  import opened Invariant
  import opened Traces
  import opened History
  import opened Dashboard
  import opened Answers

  // ---------------------------------------------------------------------
  // Sums

  lemma {:induction false} SumAdds(rows: map<Identity, Content>, f: Content -> int, g: Content -> int,
                                   h: Content -> int)
    requires forall id :: id in rows ==> h(rows[id]) == f(rows[id]) + g(rows[id])
    ensures Sum(rows, h) == Sum(rows, f) + Sum(rows, g)
    decreases |rows|
  {
    if rows != map[] {
      var id :| id in rows;
      SumStep(rows, f, id);
      SumStep(rows, g, id);
      SumStep(rows, h, id);
      SumAdds(rows - {id}, f, g, h);
    }
  }

  /** Rows on which a column is zero may be left out of its sum. */
  lemma {:induction false} SumPart(rows: map<Identity, Content>, part: map<Identity, Content>, f: Content -> int,
                                   g: Content -> int)
    requires forall id :: id in part ==> id in rows && part[id] == rows[id]
    requires forall id :: id in rows ==> g(rows[id]) == if id in part then f(rows[id]) else 0
    ensures Sum(part, f) == Sum(rows, g)
    decreases |rows|
  {
    if rows == map[] {
      assert part == map[];
    } else {
      var id :| id in rows;
      SumStep(rows, g, id);
      if id in part {
        SumStep(part, f, id);
        SumPart(rows - {id}, part - {id}, f, g);
      } else {
        SumPart(rows - {id}, part, f, g);
      }
    }
  }

  lemma {:induction false} SumNonNegative(rows: map<Identity, Content>, f: Content -> int)
    requires forall id :: id in rows ==> f(rows[id]) >= 0
    ensures Sum(rows, f) >= 0
    decreases |rows|
  {
    if rows != map[] {
      var id :| id in rows;
      SumStep(rows, f, id);
      SumNonNegative(rows - {id}, f);
    }
  }

  ghost predicate Consistent(rows: map<Identity, Content>) {
    forall id :: id in rows ==> rows[id].RefundConsistent()
  }

  /** The pending ones of some rows. */
  ghost predicate ArePending(rows: map<Identity, Content>, pending: map<Identity, Content>) {
    && (forall id :: id in pending <==> id in rows && rows[id].pending)
    && (forall id :: id in pending ==> pending[id] == rows[id])
  }

  /** The rows of which something was refunded. */
  ghost predicate AreRefunded(rows: map<Identity, Content>, refunded: map<Identity, Content>) {
    && (forall id :: id in refunded <==> id in rows && rows[id].refund > 0)
    && (forall id :: id in refunded ==> refunded[id] == rows[id])
  }

  /** The laws between the figures of some rows, for any functions that read off a
      row's amount and refund. */
  ghost predicate AddsUp(f: Figures, rows: map<Identity, Content>, pending: map<Identity, Content>,
                         refunded: map<Identity, Content>, amounts: Content -> int, refunds: Content -> int)
  {
    && f.spent + f.refundAmount == Sum(rows, amounts) && 0 <= f.refundAmount && 0 <= f.spent
    && f.refundAmount == Sum(rows, refunds)
    && f.pendingAmount + Sum(pending, refunds) == Sum(pending, amounts)
    && f.transactionCount == |rows| && f.pendingCount == |pending| && f.refundCount == |refunded|
  }

  lemma FiguresAddUp(rows: map<Identity, Content>, pending: map<Identity, Content>, refunded: map<Identity, Content>,
                     amounts: Content -> int, refunds: Content -> int)
    requires Consistent(rows) && (forall c :: amounts(c) == c.amount) && (forall c :: refunds(c) == c.refund)
    requires ArePending(rows, pending) && AreRefunded(rows, refunded)
    ensures AddsUp(FiguresOf(rows), rows, pending, refunded, amounts, refunds)
  {
    assert pending == PendingOf(rows);
    assert refunded == RefundedOf(rows);
    SumPart(rows, refunded, RefundOf, refunds);
    SumAdds(rows, Net, refunds, amounts);
    SumAdds(pending, Net, refunds, amounts);
    SumNonNegative(rows, refunds);
    SumNonNegative(rows, Net);
  }

  // ---------------------------------------------------------------------
  // The dashboard

  /** The live rows of a category in the window of a day. */
  ghost predicate Selects(s: State, k: Key, lookback: int, asOf: int, rows: map<Identity, Content>) {
    && (forall id :: id in rows <==>
          id in s.ledger.rows && LinkKey(id, k) in s.ledger.links
          && asOf - lookback < s.ledger.rows[id].content.date <= asOf)
    && (forall id :: id in rows ==> rows[id] == s.ledger.rows[id].content)
  }

  lemma LiveRows(s: State, v: Version)
    requires LiveInv(s) && HasStatus(s, v, Active) && AtMostOne(s.configs, Active)
    ensures forall id :: id in s.ledger.rows ==>
              s.ledger.rows[id].config == v && s.ledger.rows[id].content.RefundConsistent()
  {
    if s.sync.Some? {
      forall id | id in s.ledger.rows
        ensures s.ledger.rows[id].config == v && s.ledger.rows[id].content.RefundConsistent()
      {
        assert RowOk(s.ledger.rows[id], id, s.sync.value.config, s.configs[s.sync.value.config].basis.currency,
                     s.runs[s.sync.value.lastRun].accounts, s.runs);
      }
    }
  }

  lemma SelectedAre(s: State, v: Version, k: Key, lookback: int, asOf: int, rows: map<Identity, Content>)
    requires LiveInv(s) && HasStatus(s, v, Active) && AtMostOne(s.configs, Active)
    requires Selects(s, k, lookback, asOf, rows)
    ensures WindowRows(s.ledger, v, k, lookback, asOf) == rows && Consistent(rows)
  {
    LiveRows(s, v);
    hide LiveInv, AtMostOne;
  }

  lemma ActiveIs(s: State)
    requires VersionsOk(s.configs)
    ensures AtMostOne(s.configs, Active)
    ensures forall v: Version :: HasStatus(s, v, Active) <==> Current(s.configs, Active) == Some(v)
    ensures forall v: Version :: HasStatus(s, v, Pending) <==> Current(s.configs, Pending) == Some(v)
  {
  }

  /** In every trace the dashboard covers the enabled categories of the active version,
      each with its row, its window and the laws between the figures of the rows that the
      window selects. */
  lemma DashboardAddsUp(calls: seq<Call>, asOf: int, v: Version, k: Key, rule: RuleVersion,
                        rows: map<Identity, Content>, pending: map<Identity, Content>,
                        refunded: map<Identity, Content>, amounts: Content -> int, refunds: Content -> int)
    requires AllValid(calls) && HasStatus(After(calls), v, Active) && Links(After(calls), v, k, rule)
    requires Selects(After(calls), k, rule.rule.text.lookback, asOf, rows)
    requires ArePending(rows, pending) && AreRefunded(rows, refunded)
    requires (forall c :: amounts(c) == c.amount) && (forall c :: refunds(c) == c.refund)
    ensures View(After(calls), asOf).Some? && View(After(calls), asOf).value.config == v
    ensures var categories := View(After(calls), asOf).value.categories;
            && (k in categories <==> rule.rule.text.enabled)
            && (k in categories ==>
                  && k in After(calls).categories && categories[k].show == After(calls).categories[k]
                  && categories[k].windowDays == rule.rule.text.lookback && categories[k].windowEnd == asOf
                  && categories[k].windowStart == asOf - rule.rule.text.lookback + 1
                  && AddsUp(categories[k].figures, rows, pending, refunded, amounts, refunds))
  {
    var s := After(calls);
    hide *;
    ReachableInv(calls);
    CoreParts(s);
    ConfigParts(s);
    ActiveIs(s);
    VersionOf(s, v);
    RulesAreLinks(s, v);
    SelectedAre(s, v, k, rule.rule.text.lookback, asOf, rows);
    FiguresAddUp(rows, pending, refunded, amounts, refunds);
    ViewIs(s, v, asOf);
    CategoriesAt(s, v, asOf, k);
    if k in RulesOf(s, v) { CategoryIs(s, v, k, asOf); }
  }

  lemma VersionOf(s: State, v: Version)
    requires HasStatus(s, v, Active)
    ensures v in s.configs
  {
  }

  lemma ViewIs(s: State, v: Version, asOf: int)
    requires Current(s.configs, Active) == Some(v)
    ensures View(s, asOf).Some? && View(s, asOf).value.config == v
    ensures View(s, asOf).value.categories == CategoriesOf(s, v, asOf)
    ensures View(s, asOf).value.pending == Current(s.configs, Pending)
    ensures View(s, asOf).value.fullRebuildRequired <==>
              Current(s.configs, Pending).Some? || s.sync.None? || s.sync.value.config != v
  {
    hide CategoriesOf;
  }

  lemma CategoryIs(s: State, v: Version, k: Key, asOf: int)
    requires k in RulesOf(s, v)
    ensures k in s.categories
    ensures var view := CategoryViewOf(s, v, k, asOf);
            var lookback := RulesOf(s, v)[k].rule.text.lookback;
            && view.show == s.categories[k] && view.windowDays == lookback && view.windowEnd == asOf
            && view.windowStart == asOf - lookback + 1
            && view.figures == FiguresOf(WindowRows(s.ledger, v, k, lookback, asOf))
  {
    HasCategory(s, v, k);
    hide RulesOf, FiguresOf, WindowRows;
  }

  /** A category without a rule of the active version is not shown. */
  lemma OnlyLinkedShown(calls: seq<Call>, asOf: int, k: Key)
    requires AllValid(calls) && View(After(calls), asOf).Some? && k in View(After(calls), asOf).value.categories
    ensures var v := View(After(calls), asOf).value.config;
            && HasStatus(After(calls), v, Active)
            && exists rule :: Links(After(calls), v, k, rule) && rule.rule.text.enabled
  {
    var s := After(calls);
    hide *;
    ReachableInv(calls);
    CoreParts(s);
    ConfigParts(s);
    ActiveIs(s);
    ViewConfig(s, asOf);
    var v := View(s, asOf).value.config;
    VersionOf(s, v);
    RulesAreLinks(s, v);
    ViewIs(s, v, asOf);
    CategoriesAt(s, v, asOf, k);
  }

  lemma ViewConfig(s: State, asOf: int)
    requires View(s, asOf).Some?
    ensures Current(s.configs, Active) == Some(View(s, asOf).value.config)
  {
    hide CategoriesOf;
  }

  /** In every trace the dashboard asks for a full rebuild exactly when every new
      incremental run is refused for the lack of one; and it names the pending version. */
  lemma RebuildIsRequired(calls: seq<Call>, asOf: int, v: Version, key: string, request: BeginRequest)
    requires AllValid(calls) && HasStatus(After(calls), v, Active)
    requires KeyIsNew(After(calls), key) && request.Valid() && request.mode == Incremental
    ensures View(After(calls), asOf).Some?
    ensures View(After(calls), asOf).value.fullRebuildRequired <==>
              Apply(After(calls), BeginCall(key, request)).reply == Rejected(FullRebuildRequired)
    ensures forall w: Version ::
              View(After(calls), asOf).value.pending == Some(w) <==> HasStatus(After(calls), w, Pending)
  {
    var s := After(calls);
    hide *;
    ReachableInv(calls);
    CoreParts(s);
    ConfigParts(s);
    ActiveIs(s);
    ViewIs(s, v, asOf);
    SyncIsActive(s);
    PendingExists(s);
    IncrementalBeginIff(s, key, request, v);
    OpensNotRejected(s, Apply(s, BeginCall(key, request)), key, request, v);
  }

  lemma OpensNotRejected(s: State, o: Outcome, key: string, request: BeginRequest, v: Version)
    ensures Opens(s, o, key, request, v) ==> !o.reply.Rejected?
  {
    hide Links;
  }
}
