/** The loops that publish a run: validation of pending replacements, the two merge
    strategies and window pruning. Rows come in an arbitrary order throughout. */
module Publication {
  import opened Options
  import opened Model
  import opened ConfigSpec
  import opened RefreshSpec
  import opened LedgerProofs
  import opened MergeProofs
  import opened StoreModel

  // ---------------------------------------------------------------------
  // Pending replacements

  /** The links of the rows seen so far are valid, and their targets distinct. */
  ghost predicate ValidUpTo(staged: map<Identity, Staged>, rows: map<Identity, Row>, done: set<Identity>) {
    && (forall t :: t in staged && t in done ==> ReplacementValid(staged, rows, t))
    && DistinctTargets(Taken(staged, done))
  }

  lemma NextValid(staged: map<Identity, Staged>, rows: map<Identity, Row>, done: set<Identity>, t: Identity)
    requires ValidUpTo(staged, rows, done) && t in staged && ReplacementValid(staged, rows, t)
    requires TargetOf(t, staged[t].content).Some? ==>
               TargetOf(t, staged[t].content).value !in Targets(Taken(staged, done))
    ensures ValidUpTo(staged, rows, done + {t})
  {
    hide ReplacementValid, TargetOf, Targets;
    var q := Taken(staged, done + {t});
    forall a, b | a in q && b in q && TargetOf(a, q[a].content).Some?
                  && TargetOf(a, q[a].content) == TargetOf(b, q[b].content)
      ensures a == b
    {
      var x := TargetOf(a, q[a].content).value;
      TargetsHas(Taken(staged, done), x);
      if a != t { assert a in Taken(staged, done) && Taken(staged, done)[a] == staged[a]; }
      if b != t { assert b in Taken(staged, done) && Taken(staged, done)[b] == staged[b]; }
    }
  }

  lemma NextFound(staged: map<Identity, Staged>, done: set<Identity>, t: Identity)
    requires t in staged
    ensures Targets(Taken(staged, done + {t})) ==
              Targets(Taken(staged, done)) +
              (if TargetOf(t, staged[t].content).Some? then {TargetOf(t, staged[t].content).value} else {})
  {
    hide Targets, Taken, TargetOf;
    forall x {
      TakenTargets(staged, done, t, x);
    }
  }

  lemma Duplicate(staged: map<Identity, Staged>, rows: map<Identity, Row>, done: set<Identity>, t: Identity)
    requires t in staged && t !in done && TargetOf(t, staged[t].content).Some?
    requires TargetOf(t, staged[t].content).value in Targets(Taken(staged, done))
    ensures !ReplacementsValid(staged, rows)
  {
  }

  lemma Invalid(staged: map<Identity, Staged>, rows: map<Identity, Row>, t: Identity)
    requires t in staged && !ReplacementValid(staged, rows, t)
    ensures !ReplacementsValid(staged, rows)
  {
  }

  lemma AllSeen(staged: map<Identity, Staged>, rows: map<Identity, Row>)
    requires ValidUpTo(staged, rows, staged.Keys)
    ensures ReplacementsValid(staged, rows) && Taken(staged, staged.Keys) == staged
  {
  }

  lemma NoneSeen(staged: map<Identity, Staged>, rows: map<Identity, Row>)
    ensures ValidUpTo(staged, rows, {}) && Targets(Taken(staged, {})) == {}
  {
  }

  /** The check of one row's own link. */
  method CheckReplacement(staged: map<Identity, Staged>, rows: map<Identity, Row>, t: Identity) returns (ok: bool)
    requires t in staged
    ensures ok <==> ReplacementValid(staged, rows, t)
  {
    var target := TargetOf(t, staged[t].content);
    if target.None? {
      return true;
    }
    if staged[t].content.pending || target.value == t {
      return false;
    }
    if target.value in staged && !staged[target.value].content.pending {
      return false;
    }
    ok := !(target.value in rows && !rows[target.value].content.pending);
  }

  /** The run's replacement targets, or none when a link is invalid. */
  method ValidatePendingReplacements(db: Store, run: RunId) returns (targets: Option<set<Identity>>)
    ensures targets.Some? <==> ReplacementsValid(RowsOf(db.staged, run), db.rows)
    ensures targets.Some? ==> targets.value == Targets(RowsOf(db.staged, run))
  {
    hide *;
    var staged := RowsOf(db.staged, run);
    var rest := staged.Keys;
    var found: set<Identity> := {};
    NoneSeen(staged, db.rows);
    assert staged.Keys - rest == {};
    while rest != {}
      invariant rest <= staged.Keys
      invariant ValidUpTo(staged, db.rows, staged.Keys - rest)
      invariant found == Targets(Taken(staged, staged.Keys - rest))
      decreases |rest|
    {
      var t :| t in rest;
      ghost var done := staged.Keys - rest;
      var target := TargetOf(t, staged[t].content);
      var ok := CheckReplacement(staged, db.rows, t);
      if !ok {
        Invalid(staged, db.rows, t);
        return None;
      }
      if target.Some? {
        if target.value in found {
          Duplicate(staged, db.rows, done, t);
          return None;
        }
        found := found + {target.value};
      }
      NextValid(staged, db.rows, done, t);
      NextFound(staged, done, t);
      rest := rest - {t};
      assert staged.Keys - rest == done + {t};
    }
    assert staged.Keys - rest == staged.Keys;
    AllSeen(staged, db.rows);
    targets := Some(found);
  }

  // ---------------------------------------------------------------------
  // Storing one row

  /** The foreign keys and checks of a staged row and its category rows. */
  ghost predicate Storable(configRules: map<Version, map<Key, Version>>, config: Version, row: Staged) {
    && row.content.RefundConsistent() && row.categories != map[]
    && config in configRules
    && forall k :: k in row.categories ==> k in configRules[config] && configRules[config][k] == row.categories[k]
  }

  method DeleteLiveIdentity(db: Store, t: Identity)
    modifies db`rows, db`links
    ensures db.Live() == Without(old(db.Live()), t)
  {
    db.DeleteLinksOf(t);
    db.DeleteRow(t);
    assert db.links == Without(old(db.Live()), t).links;
  }

  method StoreStaged(db: Store, run: RunId, t: Identity, existing: Option<Row>, now: int)
    requires run in db.runs && t in RowsOf(db.staged, run)
    requires Storable(db.configRules, db.runs[run].config, db.staged[run][t])
    requires existing == if t in db.rows then Some(db.rows[t]) else None
    requires Sound(db.Live(), db.runs)
    modifies db`rows, db`links
    ensures var row := db.staged[run][t];
            db.Live() == WithRow(Without(old(db.Live()), t), t,
                                 Row(row.content, db.runs[run].config,
                                     if existing.Some? then existing.value.firstRun else run, run,
                                     if existing.Some? then existing.value.firstSeen else now, now),
                                 row.categories)
  {
    var row := db.staged[run][t];
    var config := db.runs[run].config;
    ghost var before := db.Live();
    if existing.None? {
      NothingToClear(before, db.runs, t);
      db.InsertRow(t, Row(row.content, config, run, run, now, now));
    } else {
      DeleteLiveIdentity(db, t);
      db.InsertRow(t, Row(row.content, config, existing.value.firstRun, run, existing.value.firstSeen, now));
    }
    ghost var cleared := Without(before, t).links;
    assert db.links == cleared;
    if row.categories == map[] {
      assert false;
    }
    StoreLinks(db, t, config, row.categories);
  }

  lemma NothingToClear(l: Ledger, runs: map<RunId, Run>, t: Identity)
    requires Sound(l, runs) && t !in l.rows
    ensures Without(l, t) == l
  {
  }

  method StoreLinks(db: Store, t: Identity, config: Version, categories: map<Key, Version>)
    requires t in db.rows && db.rows[t].config == config && forall lk :: lk in db.links ==> lk.id != t
    requires config in db.configRules
    requires forall k :: k in categories ==>
               k in db.configRules[config] && db.configRules[config][k] == categories[k]
    modifies db`links
    ensures db.links == AddLinks(old(db.links), t, config, categories)
  {
    var rest := categories.Keys;
    while rest != {}
      invariant rest <= categories.Keys
      invariant db.links == AddLinks(old(db.links), t, config, categories - rest)
      decreases |rest|
    {
      var k :| k in rest;
      AddLinksAt(old(db.links), t, config, categories - rest, LinkKey(t, k));
      db.InsertLink(LinkKey(t, k), Link(config, categories[k]));
      AddOneLink(old(db.links), t, config, categories, rest, k);
      rest := rest - {k};
    }
    assert categories - rest == categories;
  }

  lemma AddOneLink(links: map<LinkKey, Link>, t: Identity, config: Version, categories: map<Key, Version>,
                   rest: set<Key>, k: Key)
    requires k in rest && rest <= categories.Keys
    ensures AddLinks(links, t, config, categories - rest)[LinkKey(t, k) := Link(config, categories[k])]
         == AddLinks(links, t, config, categories - (rest - {k}))
  {
  }

  // ---------------------------------------------------------------------
  // The two merges

  /** The run that the tables hold is the one the commitment describes. */
  ghost predicate Describes(c: Commitment, runs: map<RunId, Run>, staged: map<RunId, map<Identity, Staged>>,
                            configRules: map<Version, map<Key, Version>>)
  {
    && c.run in runs && runs[c.run].config == c.config
    && c.staged == RowsOf(staged, c.run)
    && forall t :: t in c.staged ==> Storable(configRules, c.config, c.staged[t])
  }

  lemma SplitDone(all: set<Identity>, rest: set<Identity>, targets: set<Identity>, t: Identity)
    requires t in rest && rest <= all
    ensures all - (rest - {t}) - targets == if t in targets then all - rest - targets else all - rest - targets + {t}
  {
  }

  lemma DescribesMeans(c: Commitment, runs: map<RunId, Run>, staged: map<RunId, map<Identity, Staged>>,
                       configRules: map<Version, map<Key, Version>>)
    requires Describes(c, runs, staged, configRules)
    ensures c.run in runs && runs[c.run].config == c.config && c.staged == RowsOf(staged, c.run)
    ensures forall t :: t in c.staged ==> Storable(configRules, c.config, c.staged[t])
  {
  }

  lemma LiveIs(db: Store)
    ensures db.Live() == Ledger(db.rows, db.links) && EMPTY_LEDGER == Ledger(map[], map[])
  {
  }

  lemma EmptySound(runs: map<RunId, Run>)
    ensures Sound(EMPTY_LEDGER, runs)
  {
  }

  lemma PartRun(c: Commitment, done: set<Identity>)
    ensures Part(c, done).run == c.run
  {
  }

  /** Rows merge in any order; the result is the closed form. */
  method MergeIncremental(db: Store, targets: set<Identity>, now: int, run: RunId, ghost c: Commitment)
    requires c.run == run && c.now == now && Describes(c, db.runs, db.staged, db.configRules)
    requires targets == Targets(c.staged) && ReplacementsValid(c.staged, db.rows)
    requires Sound(db.Live(), db.runs)
    modifies db`rows, db`links
    ensures db.Live() == Merged(old(db.Live()), c)
  {
    hide *;
    ghost var base := db.Live();
    DescribesMeans(c, db.runs, db.staged, db.configRules);
    var staged := RowsOf(db.staged, run);
    var rest := staged.Keys;
    MergeStart(base, c);
    assert staged.Keys - rest - targets == {};
    while rest != {}
      invariant rest <= staged.Keys
      invariant db.Live() == Merged(base, Part(c, staged.Keys - rest - targets))
      decreases |rest|
    {
      var t :| t in rest;
      ghost var done := staged.Keys - rest - targets;
      SplitDone(staged.Keys, rest, targets, t);
      rest := rest - {t};
      if t !in targets {
        PartRun(c, done);
        MergedSound(base, Part(c, done), db.runs);
        MergeOneStaged(db, run, t, now, c);
        MergeStep(base, c, done, t);
      }
    }
    assert staged.Keys - rest - targets == c.staged.Keys - Targets(c.staged);
    MergeEnd(base, c, old(db.rows));
  }

  lemma WithoutSound(l: Ledger, runs: map<RunId, Run>, t: Identity)
    requires Sound(l, runs)
    ensures Sound(Without(l, t), runs)
  {
  }

  /** One iteration: clear the replaced identity, then store the row. */
  method MergeOneStaged(db: Store, run: RunId, t: Identity, now: int, ghost c: Commitment)
    requires c.run == run && c.now == now && Describes(c, db.runs, db.staged, db.configRules)
    requires t in c.staged && Sound(db.Live(), db.runs)
    modifies db`rows, db`links
    ensures db.Live() == MergeOne(old(db.Live()), c, t)
  {
    var target := TargetOf(t, db.staged[run][t].content);
    if target.Some? {
      WithoutSound(db.Live(), db.runs, target.value);
      DeleteLiveIdentity(db, target.value);
    }
    var existing := if t in db.rows then Some(db.rows[t]) else None;
    StoreStaged(db, run, t, existing, now);
  }

  /** A full rebuild ends like a merge onto empty tables. */
  method ReplaceAllTransactions(db: Store, targets: set<Identity>, now: int, run: RunId, ghost c: Commitment)
    requires c.run == run && c.now == now && Describes(c, db.runs, db.staged, db.configRules)
    requires targets == Targets(c.staged) && ReplacementsValid(c.staged, db.rows)
    modifies db`rows, db`links
    ensures db.Live() == Merged(EMPTY_LEDGER, c)
  {
    hide *;
    DescribesMeans(c, db.runs, db.staged, db.configRules);
    db.DeleteAllLinks();
    db.DeleteAllRows();
    LiveIs(db);
    var staged := RowsOf(db.staged, run);
    var rest := staged.Keys;
    MergeStart(EMPTY_LEDGER, c);
    assert staged.Keys - rest - targets == {};
    while rest != {}
      invariant rest <= staged.Keys
      invariant db.Live() == Merged(EMPTY_LEDGER, Part(c, staged.Keys - rest - targets))
      decreases |rest|
    {
      var t :| t in rest;
      ghost var done := staged.Keys - rest - targets;
      SplitDone(staged.Keys, rest, targets, t);
      rest := rest - {t};
      if t !in targets {
        PartRun(c, done);
        EmptySound(db.runs);
        MergedSound(EMPTY_LEDGER, Part(c, done), db.runs);
        StoreOnEmpty(c, done, t);
        StoreFresh(db, run, t, now, c);
        MergeStep(EMPTY_LEDGER, c, done, t);
      }
    }
    assert staged.Keys - rest - targets == c.staged.Keys - Targets(c.staged);
    MergeEnd(EMPTY_LEDGER, c, old(db.rows));
  }

  /** One iteration of the rebuild: nothing of this identity or its target is stored yet. */
  method StoreFresh(db: Store, run: RunId, t: Identity, now: int, ghost c: Commitment)
    requires c.run == run && c.now == now && Describes(c, db.runs, db.staged, db.configRules)
    requires t in c.staged && t !in db.Live().rows && Sound(db.Live(), db.runs)
    requires MergeOne(db.Live(), c, t) ==
               WithRow(Without(db.Live(), t), t, Row(c.staged[t].content, c.config, c.run, c.run, c.now, c.now),
                       c.staged[t].categories)
    modifies db`rows, db`links
    ensures db.Live() == MergeOne(old(db.Live()), c, t)
  {
    hide MergeOne, WithRow, Without;
    StoreStaged(db, run, t, None, now);
  }

  /** In a rebuild neither the row nor its target is stored yet. */
  lemma StoreOnEmpty(c: Commitment, done: set<Identity>, t: Identity)
    requires t in c.staged && t !in done && done !! Targets(c.staged)
    ensures var l := Merged(EMPTY_LEDGER, Part(c, done));
            && t !in l.rows
            && MergeOne(l, c, t) ==
                 WithRow(Without(l, t), t, Row(c.staged[t].content, c.config, c.run, c.run, c.now, c.now),
                         c.staged[t].categories)
  {
    var l := Merged(EMPTY_LEDGER, Part(c, done));
    hide Merged, Targets, WithRow;
    MergedRow(EMPTY_LEDGER, Part(c, done), t);
    var target := TargetOf(t, c.staged[t].content);
    if target.Some? {
      TargetsHas(c.staged, target.value);
      MergedRow(EMPTY_LEDGER, Part(c, done), target.value);
      AbsentIsClear(c, done, target.value);
    }
  }

  lemma AbsentIsClear(c: Commitment, done: set<Identity>, x: Identity)
    requires x !in Merged(EMPTY_LEDGER, Part(c, done)).rows
    ensures Without(Merged(EMPTY_LEDGER, Part(c, done)), x) == Merged(EMPTY_LEDGER, Part(c, done))
  {
    var l := Merged(EMPTY_LEDGER, Part(c, done));
    hide Merged;
    forall lk | lk in l.links ensures lk.id != x {
      MergedLink(EMPTY_LEDGER, Part(c, done), lk);
      MergedRow(EMPTY_LEDGER, Part(c, done), lk.id);
    }
    assert Without(l, x).links == l.links;
  }

  // ---------------------------------------------------------------------
  // Pruning

  /** The links left when the windows of some categories have been enforced. */
  function KeptLinks(l: Ledger, c: Commitment, done: set<Key>): map<LinkKey, Link> {
    map lk | lk in l.links && !(lk.category in done && TooOld(c, l.rows, lk)) :: l.links[lk]
  }

  function OldLinks(l: Ledger, c: Commitment, k: Key): set<LinkKey> {
    set lk | lk in l.links && lk.category == k && TooOld(c, l.rows, lk)
  }

  /** Drop the links of one category that left its window. */
  method PruneCategory(db: Store, k: Key, cutoff: int, ghost c: Commitment)
    requires k in c.rules && cutoff == WindowStart(c.toDate, c.rules[k].rule.text.lookback)
    requires forall lk :: lk in db.links ==> lk.id in db.rows
    modifies db`links
    ensures db.links == old(db.links) - OldLinks(old(db.Live()), c, k)
  {
    var stale := set lk | lk in db.links && lk.category == k && db.rows[lk.id].content.date < cutoff;
    assert stale == OldLinks(db.Live(), c, k);
    var rest := stale;
    assert db.links == old(db.links) - (stale - rest);
    while rest != {}
      invariant rest <= stale
      invariant db.links == old(db.links) - (stale - rest)
      decreases |rest|
    {
      var lk :| lk in rest;
      db.DeleteLink(lk);
      assert stale - (rest - {lk}) == (stale - rest) + {lk};
      rest := rest - {lk};
    }
    assert stale - rest == stale;
  }

  lemma KeptStep(l: Ledger, c: Commitment, done: set<Key>, k: Key)
    ensures KeptLinks(l, c, done) - OldLinks(Ledger(l.rows, KeptLinks(l, c, done)), c, k) == KeptLinks(l, c, done + {k})
  {
  }

  lemma KeptEnds(l: Ledger, c: Commitment)
    ensures KeptLinks(l, c, {}) == l.links
    ensures KeptLinks(l, c, c.rules.Keys) == Pruned(l, c).links
  {
  }

  /** The rows left when the unlinked ones among those seen have been dropped. */
  function KeptRows(rows: map<Identity, Row>, links: map<LinkKey, Link>, rest: set<Identity>): map<Identity, Row> {
    map t | t in rows && (t in rest || t in (set lk | lk in links :: lk.id)) :: rows[t]
  }

  method PruneRows(db: Store)
    modifies db`rows, db`links
    ensures db.links == old(db.links)
    ensures db.rows == KeptRows(old(db.rows), old(db.links), {})
  {
    var rest := db.rows.Keys;
    assert db.rows == KeptRows(old(db.rows), old(db.links), rest);
    while rest != {}
      invariant rest <= old(db.rows).Keys
      invariant db.links == old(db.links)
      invariant db.rows == KeptRows(old(db.rows), old(db.links), rest)
      decreases |rest|
    {
      var t :| t in rest;
      var mine := set lk | lk in db.links && lk.id == t;
      if mine == {} {
        NoLinksOf(db.links, t);
        db.DeleteRow(t);
      } else {
        var lk :| lk in mine;
      }
      KeptRowsStep(old(db.rows), old(db.links), rest, t);
      rest := rest - {t};
    }
  }

  lemma NoLinksOf(links: map<LinkKey, Link>, t: Identity)
    requires (set lk | lk in links && lk.id == t) == {}
    ensures forall lk :: lk in links ==> lk.id != t
    ensures (map lk | lk in links && lk.id != t :: links[lk]) == links
  {
    var mine := set lk | lk in links && lk.id == t;
    forall lk | lk in links ensures lk.id != t {
      assert lk !in mine;
    }
  }

  lemma KeptRowsStep(rows: map<Identity, Row>, links: map<LinkKey, Link>, rest: set<Identity>, t: Identity)
    requires t in rest
    ensures (exists lk :: lk in links && lk.id == t) ==>
              KeptRows(rows, links, rest - {t}) == KeptRows(rows, links, rest)
    ensures (forall lk :: lk in links ==> lk.id != t) ==>
              KeptRows(rows, links, rest - {t}) == KeptRows(rows, links, rest) - {t}
  {
  }

  /** Rules come in any order; the result is the closed form of pruning. */
  method PruneOutsideWindows(db: Store, run: RunId, ghost c: Commitment)
    requires run in db.runs && db.runs[run].toDate == c.toDate
    requires c.rules == RulesOf(db.Snapshot(), db.runs[run].config)
    requires forall lk :: lk in db.links ==> lk.id in db.rows
    modifies db`rows, db`links
    ensures db.Live() == Pruned(old(db.Live()), c)
  {
    hide RulesOf, OldLinks, KeptLinks, KeptRows, Pruned, TooOld;
    ghost var l := db.Live();
    var rules := RulesOf(db.Snapshot(), db.runs[run].config);
    var rest := rules.Keys;
    KeptEnds(l, c);
    assert rules.Keys - rest == {};
    while rest != {}
      invariant rest <= rules.Keys && db.rows == l.rows
      invariant db.links == KeptLinks(l, c, rules.Keys - rest)
      decreases |rest|
    {
      var k :| k in rest;
      ghost var done := rules.Keys - rest;
      KeptAreLinked(l, c, done);
      PruneCategory(db, k, WindowStart(db.runs[run].toDate, rules[k].rule.text.lookback), c);
      KeptStep(l, c, done, k);
      rest := rest - {k};
      assert rules.Keys - rest == done + {k};
    }
    assert rules.Keys - rest == rules.Keys;
    PruneRows(db);
    PrunedIs(l, c);
  }

  lemma KeptAreLinked(l: Ledger, c: Commitment, done: set<Key>)
    requires forall lk :: lk in l.links ==> lk.id in l.rows
    ensures forall lk :: lk in KeptLinks(l, c, done) ==> lk.id in l.rows
  {
  }

  lemma PrunedIs(l: Ledger, c: Commitment)
    ensures Pruned(l, c) == Ledger(KeptRows(l.rows, KeptLinks(l, c, c.rules.Keys), {}), KeptLinks(l, c, c.rules.Keys))
  {
  }
}
