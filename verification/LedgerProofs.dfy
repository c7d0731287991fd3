/** The publication of a run: its closed form meets the live-data invariant, and
    says exactly what becomes of every row and link. */
module LedgerProofs {
  import opened Model
  import opened RefreshSpec
  import opened Invariant

  /** A validated link has depth one: a staged target links nowhere itself. */
  lemma DepthOne(staged: map<Identity, Staged>, rows: map<Identity, Row>, id: Identity)
    requires ReplacementsValid(staged, rows)
    requires id in staged && id in Targets(staged)
    ensures staged[id].content.pending && TargetOf(id, staged[id].content).None?
  {
  }

  // ---------------------------------------------------------------------
  // The closed forms, row by row and link by link

  lemma MergedLink(base: Ledger, c: Commitment, lk: LinkKey)
    ensures lk in Merged(base, c).links <==>
              if lk.id in c.staged && lk.id !in Targets(c.staged) then lk.category in c.staged[lk.id].categories
              else lk.id !in Targets(c.staged) && lk in base.links
    ensures lk in Merged(base, c).links ==>
              Merged(base, c).links[lk] ==
                if lk.id in c.staged then Link(c.config, c.staged[lk.id].categories[lk.category]) else base.links[lk]
  {
  }

  lemma MergedRow(base: Ledger, c: Commitment, id: Identity)
    ensures id in Merged(base, c).rows <==> id !in Targets(c.staged) && (id in c.staged || id in base.rows)
    ensures id in Merged(base, c).rows ==>
              Merged(base, c).rows[id] == if id in c.staged then StoredRow(c, id, base.rows) else base.rows[id]
  {
  }

  lemma PrunedLink(l: Ledger, c: Commitment, lk: LinkKey)
    ensures lk in Pruned(l, c).links <==> lk in l.links && !TooOld(c, l.rows, lk)
    ensures lk in Pruned(l, c).links ==> Pruned(l, c).links[lk] == l.links[lk]
    ensures lk in Pruned(l, c).links && lk.id in l.rows ==>
              lk.id in Pruned(l, c).rows && Pruned(l, c).rows[lk.id] == l.rows[lk.id]
  {
  }

  // ---------------------------------------------------------------------
  // Typing

  lemma MergedTyped(base: Ledger, c: Commitment, run: Run, currency: string, runs: map<RunId, Run>)
    requires Typed(base, c.config, currency, run.accounts, c.rules, runs)
    requires forall id :: id in c.staged ==> StagedOk(run, currency, c.rules, id, c.staged[id])
    requires c.run in runs && runs[c.run].config == c.config
    ensures Typed(Merged(base, c), c.config, currency, run.accounts, c.rules, runs)
  {
    var l := Merged(base, c);
    forall id | id in l.rows ensures RowOk(l.rows[id], id, c.config, currency, run.accounts, runs) {
      if id in c.staged { assert StagedOk(run, currency, c.rules, id, c.staged[id]); }
      if id in base.rows { assert RowOk(base.rows[id], id, c.config, currency, run.accounts, runs); }
    }
    forall lk | lk in l.links ensures LinkOk(l, lk, c.config, c.rules) {
      if lk in base.links { assert LinkOk(base, lk, c.config, c.rules); }
      if lk.id in c.staged { assert StagedOk(run, currency, c.rules, lk.id, c.staged[lk.id]); }
    }
  }

  lemma PrunedTyped(l: Ledger, c: Commitment, currency: string, accounts: set<string>, runs: map<RunId, Run>)
    requires Typed(l, c.config, currency, accounts, c.rules, runs)
    ensures Typed(Pruned(l, c), c.config, currency, accounts, c.rules, runs)
    ensures InWindows(Pruned(l, c), c.rules, c.toDate)
    ensures AllLinked(Pruned(l, c))
  {
    var p := Pruned(l, c);
    forall id | id in p.rows
      ensures RowOk(p.rows[id], id, c.config, currency, accounts, runs) && HasLink(p, id)
    {
      assert RowOk(l.rows[id], id, c.config, currency, accounts, runs);
      var lk :| lk in p.links && lk.id == id;
      assert LinkKey(id, lk.category) in p.links;
    }
    forall lk | lk in p.links
      ensures LinkOk(p, lk, c.config, c.rules)
      ensures WindowStart(c.toDate, c.rules[lk.category].rule.text.lookback) <= p.rows[lk.id].content.date
    {
      assert LinkOk(l, lk, c.config, c.rules) && !TooOld(c, l.rows, lk);
    }
  }

  // ---------------------------------------------------------------------
  // The frame of an incremental commit

  /** Neither staged by the run nor replaced by it. */
  ghost predicate Untouched(c: Commitment, id: Identity) {
    id !in c.staged && id !in Targets(c.staged)
  }

  /** An untouched link survives exactly when it is still inside its window. */
  lemma UntouchedLinks(l: Ledger, c: Commitment, lk: LinkKey)
    requires c.mode == Incremental && Untouched(c, lk.id) && lk.id in l.rows
    ensures lk in Publish(l, c).links <==> lk in l.links && !TooOld(c, l.rows, lk)
    ensures lk in Publish(l, c).links ==> Publish(l, c).links[lk] == l.links[lk]
  {
  }

  /** An untouched row keeps every field, and disappears only when no link is in window. */
  lemma IncrementalFrame(l: Ledger, c: Commitment, id: Identity)
    requires c.mode == Incremental && Untouched(c, id) && id in l.rows
    ensures id in Publish(l, c).rows <==>
              exists k :: LinkKey(id, k) in l.links && !TooOld(c, l.rows, LinkKey(id, k))
    ensures id in Publish(l, c).rows ==> Publish(l, c).rows[id] == l.rows[id]
  {
    var p := Publish(l, c);
    assert Merged(l, c).rows[id] == l.rows[id];
    if id in p.rows {
      var lk :| lk in p.links && lk.id == id;
      UntouchedLinks(l, c, LinkKey(id, lk.category));
    }
    if k :| LinkKey(id, k) in l.links && !TooOld(c, l.rows, LinkKey(id, k)) {
      UntouchedLinks(l, c, LinkKey(id, k));
    }
  }

  /** Absence from an incremental run never deletes: only a link or age does. */
  lemma ReplacedAreGone(l: Ledger, c: Commitment, id: Identity)
    requires id in Targets(c.staged)
    ensures id !in Publish(l, c).rows
    ensures forall k :: LinkKey(id, k) !in Publish(l, c).links
  {
  }

  /** A staged row that is not itself replaced is published with its own content, the
      run's version and the run as its last; who first saw it, and when, is kept while
      the identity stays live. Its links are exactly its staged categories in window. */
  lemma StagedIsPublished(l: Ledger, c: Commitment, id: Identity, k: Key)
    requires c.mode == Incremental && id in c.staged && id !in Targets(c.staged)
    ensures LinkKey(id, k) in Publish(l, c).links <==>
              k in c.staged[id].categories && !StagedTooOld(c, id, k)
    ensures LinkKey(id, k) in Publish(l, c).links ==>
              Publish(l, c).links[LinkKey(id, k)] == Link(c.config, c.staged[id].categories[k])
    ensures id in Publish(l, c).rows ==>
              var row := Publish(l, c).rows[id];
              && row.content == c.staged[id].content && row.config == c.config
              && row.lastRun == c.run && row.lastSeen == c.now
              && (id in l.rows ==> row.firstRun == l.rows[id].firstRun && row.firstSeen == l.rows[id].firstSeen)
              && (id !in l.rows ==> row.firstRun == c.run && row.firstSeen == c.now)
  {
    var m := Merged(l, c);
    hide Merged, Targets;
    MergedRow(l, c, id);
    MergedLink(l, c, LinkKey(id, k));
    PrunedLink(m, c, LinkKey(id, k));
  }

  // ---------------------------------------------------------------------
  // Conservation of a full rebuild

  ghost predicate Suppressed(c: Commitment, id: Identity) {
    id in c.staged && id in Targets(c.staged)
  }

  /** All category windows of a staged row have already passed. */
  ghost predicate Expired(c: Commitment, id: Identity) {
    && id in c.staged && id !in Targets(c.staged)
    && forall k :: k in c.staged[id].categories ==>
         k in c.rules && c.staged[id].content.date < WindowStart(c.toDate, c.rules[k].rule.text.lookback)
  }

  ghost predicate StagedTooOld(c: Commitment, id: Identity, k: Key)
    requires id in c.staged
  {
    k in c.rules && c.staged[id].content.date < WindowStart(c.toDate, c.rules[k].rule.text.lookback)
  }

  /** The links that a full rebuild leaves for one identity. */
  lemma FullLinks(l: Ledger, c: Commitment, id: Identity, k: Key)
    requires c.mode == Full
    ensures LinkKey(id, k) in Publish(l, c).links <==>
              && id in c.staged && !Suppressed(c, id)
              && k in c.staged[id].categories && !StagedTooOld(c, id, k)
  {
  }

  lemma FullRow(l: Ledger, c: Commitment, id: Identity)
    requires c.mode == Full
    ensures id in Publish(l, c).rows <==> id in c.staged && !Suppressed(c, id) && !Expired(c, id)
    ensures id in Publish(l, c).rows ==>
              Publish(l, c).rows[id] == Row(c.staged[id].content, c.config, c.run, c.run, c.now, c.now)
  {
    var m := Merged(EMPTY_LEDGER, c);
    var p := Publish(l, c);
    assert id in m.rows <==> id in c.staged && !Suppressed(c, id);
    if id in c.staged && !Suppressed(c, id) && !Expired(c, id) {
      var k :| k in c.staged[id].categories && !StagedTooOld(c, id, k);
      FullLinks(l, c, id, k);
      assert LinkKey(id, k) in p.links;
    }
    if id in p.rows {
      var lk :| lk in p.links && lk.id == id;
      FullLinks(l, c, id, lk.category);
      assert lk == LinkKey(id, lk.category);
    }
  }

  lemma ThreeWaySplit<T>(all: set<T>, a: set<T>, b: set<T>, d: set<T>)
    requires forall x :: x in a <==> x in all && x !in b && x !in d
    requires b <= all && d <= all && b !! d
    ensures a + b + d == all && a !! b !! d && |a| + |b| + |d| == |all|
  {
  }

  function SuppressedOf(c: Commitment): set<Identity> {
    c.staged.Keys * Targets(c.staged)
  }

  ghost function ExpiredOf(c: Commitment): set<Identity> {
    set id | id in c.staged && Expired(c, id)
  }

  /** A full rebuild splits its staged rows into live, suppressed and expired ones. */
  lemma FullConservation(l: Ledger, c: Commitment)
    requires c.mode == Full
    ensures Publish(l, c).rows.Keys + SuppressedOf(c) + ExpiredOf(c) == c.staged.Keys
    ensures Publish(l, c).rows.Keys !! SuppressedOf(c) !! ExpiredOf(c)
    ensures |Publish(l, c).rows.Keys| + |SuppressedOf(c)| + |ExpiredOf(c)| == |c.staged|
  {
    var live := Publish(l, c).rows.Keys;
    forall id ensures id in live <==> id in c.staged.Keys && id !in SuppressedOf(c) && id !in ExpiredOf(c) {
      FullRow(l, c, id);
    }
    ThreeWaySplit(c.staged.Keys, live, SuppressedOf(c), ExpiredOf(c));
  }
}
