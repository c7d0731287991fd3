/** The merge, one staged row at a time: whatever order the rows come in, the
    steps end in the closed form. */
module MergeProofs {
  import opened Options
  import opened Model
  import opened RefreshSpec
  import opened LedgerProofs

  // ---------------------------------------------------------------------
  // One step

  /** Remove an identity and its links. */
  function Without(l: Ledger, t: Identity): Ledger {
    Ledger(l.rows - {t}, map lk | lk in l.links && lk.id != t :: l.links[lk])
  }

  function AddLinks(links: map<LinkKey, Link>, t: Identity, config: Version, categories: map<Key, Version>)
    : map<LinkKey, Link>
  {
    map lk | lk in links.Keys + (set k | k in categories :: LinkKey(t, k)) ::
      if lk.id == t && lk.category in categories then Link(config, categories[lk.category]) else links[lk]
  }

  /** Store a row with its category links. */
  function WithRow(l: Ledger, t: Identity, row: Row, categories: map<Key, Version>): Ledger {
    Ledger(l.rows[t := row], AddLinks(l.links, t, row.config, categories))
  }

  /** The staged rows processed so far. */
  function Taken(staged: map<Identity, Staged>, done: set<Identity>): map<Identity, Staged> {
    map t | t in staged && t in done :: staged[t]
  }

  function Part(c: Commitment, done: set<Identity>): Commitment {
    c.(staged := Taken(c.staged, done))
  }

  /** What one iteration of the incremental merge does to the live data. */
  function MergeOne(l: Ledger, c: Commitment, t: Identity): Ledger
    requires t in c.staged
  {
    var target := TargetOf(t, c.staged[t].content);
    var cleared := if target.Some? then Without(l, target.value) else l;
    WithRow(Without(cleared, t), t, StoredRow(c, t, cleared.rows), c.staged[t].categories)
  }

  // ---------------------------------------------------------------------
  // Row by row, link by link

  lemma MergeOneRow(l: Ledger, c: Commitment, t: Identity, id: Identity)
    requires t in c.staged
    ensures var target := TargetOf(t, c.staged[t].content);
            && (id in MergeOne(l, c, t).rows <==> id == t || (id in l.rows && target != Some(id)))
            && (id == t && target != Some(t) ==> MergeOne(l, c, t).rows[id] == StoredRow(c, t, l.rows))
            && (id != t && id in MergeOne(l, c, t).rows ==> MergeOne(l, c, t).rows[id] == l.rows[id])
  {
  }

  lemma AddLinksAt(links: map<LinkKey, Link>, t: Identity, config: Version, categories: map<Key, Version>, lk: LinkKey)
    ensures lk in AddLinks(links, t, config, categories) <==>
              (lk.id == t && lk.category in categories) || lk in links
    ensures lk in AddLinks(links, t, config, categories) ==>
              AddLinks(links, t, config, categories)[lk] ==
                if lk.id == t && lk.category in categories then Link(config, categories[lk.category]) else links[lk]
  {
  }

  lemma MergeOneLink(l: Ledger, c: Commitment, t: Identity, lk: LinkKey)
    requires t in c.staged
    ensures var target := TargetOf(t, c.staged[t].content);
            var links := MergeOne(l, c, t).links;
            && (lk in links <==>
                  if lk.id == t then lk.category in c.staged[t].categories
                  else lk in l.links && target != Some(lk.id))
            && (lk in links ==>
                  links[lk] ==
                    if lk.id == t then Link(c.config, c.staged[t].categories[lk.category]) else l.links[lk])
  {
  }

  lemma TargetsHas(staged: map<Identity, Staged>, x: Identity)
    ensures x in Targets(staged) <==> exists id :: id in staged && TargetOf(id, staged[id].content) == Some(x)
  {
  }

  /** The targets of the processed rows grow by the target of the new one. */
  lemma TakenTargets(staged: map<Identity, Staged>, done: set<Identity>, t: Identity, x: Identity)
    requires t in staged
    ensures x in Targets(Taken(staged, done)) ==> x in Targets(staged)
    ensures x in Targets(Taken(staged, done + {t})) <==>
              x in Targets(Taken(staged, done)) || TargetOf(t, staged[t].content) == Some(x)
  {
    hide Targets, TargetOf;
    var p, q := Taken(staged, done), Taken(staged, done + {t});
    TargetsHas(staged, x);
    TargetsHas(p, x);
    TargetsHas(q, x);
    if id :| id in p && TargetOf(id, p[id].content) == Some(x) {
      assert id in q && q[id] == p[id] && staged[id] == p[id];
    }
    if id :| id in q && TargetOf(id, q[id].content) == Some(x) {
      assert id in p || id == t;
    }
    if TargetOf(t, staged[t].content) == Some(x) {
      assert t in q && q[t] == staged[t];
    }
  }

  lemma PartTargets(c: Commitment, done: set<Identity>, t: Identity, x: Identity)
    requires t in c.staged
    ensures x in Targets(Part(c, done).staged) ==> x in Targets(c.staged)
    ensures x in Targets(Part(c, done + {t}).staged) <==>
              x in Targets(Part(c, done).staged) || TargetOf(t, c.staged[t].content) == Some(x)
  {
    hide Targets, TargetOf, Taken;
    TakenTargets(c.staged, done, t, x);
  }

  lemma PartHas(c: Commitment, done: set<Identity>, id: Identity)
    ensures id in Part(c, done).staged <==> id in c.staged && id in done
    ensures id in Part(c, done).staged ==> Part(c, done).staged[id] == c.staged[id]
  {
  }

  lemma PartStored(c: Commitment, done: set<Identity>, id: Identity, rows: map<Identity, Row>)
    requires id in c.staged && id in done
    ensures id in Part(c, done).staged && StoredRow(Part(c, done), id, rows) == StoredRow(c, id, rows)
  {
  }

  lemma StoredFrom(c: Commitment, id: Identity, a: map<Identity, Row>, b: map<Identity, Row>)
    requires id in c.staged && (id in a <==> id in b) && (id in a ==> a[id] == b[id])
    ensures StoredRow(c, id, a) == StoredRow(c, id, b)
  {
  }

  // ---------------------------------------------------------------------
  // The loop

  lemma StepRow(base: Ledger, c: Commitment, done: set<Identity>, t: Identity, id: Identity)
    requires t in c.staged && t !in Targets(c.staged) && t !in done && done !! Targets(c.staged)
    ensures var now, next := MergeOne(Merged(base, Part(c, done)), c, t), Merged(base, Part(c, done + {t}));
            (id in now.rows <==> id in next.rows) && (id in now.rows ==> now.rows[id] == next.rows[id])
  {
    hide *;
    var l := Merged(base, Part(c, done));
    MergeOneRow(l, c, t, id);
    MergedRow(base, Part(c, done), id);
    MergedRow(base, Part(c, done + {t}), id);
    PartTargets(c, done, t, id);
    PartHas(c, done, id);
    PartHas(c, done + {t}, id);
    if id == t {
      TargetsHas(c.staged, t);
      PartStored(c, done + {t}, t, base.rows);
      StoredFrom(c, t, l.rows, base.rows);
    } else if id in c.staged && id in done {
      PartStored(c, done, id, base.rows);
      PartStored(c, done + {t}, id, base.rows);
    }
  }

  lemma StepLink(base: Ledger, c: Commitment, done: set<Identity>, t: Identity, lk: LinkKey)
    requires t in c.staged && t !in Targets(c.staged) && t !in done && done !! Targets(c.staged)
    ensures var now, next := MergeOne(Merged(base, Part(c, done)), c, t), Merged(base, Part(c, done + {t}));
            (lk in now.links <==> lk in next.links) && (lk in now.links ==> now.links[lk] == next.links[lk])
  {
    hide *;
    var l := Merged(base, Part(c, done));
    TargetsHas(c.staged, t);
    PartIs(c, done);
    PartIs(c, done + {t});
    MergeOneLink(l, c, t, lk);
    MergedLink(base, Part(c, done), lk);
    MergedLink(base, Part(c, done + {t}), lk);
    PartTargets(c, done, t, lk.id);
    PartHas(c, done, lk.id);
    PartHas(c, done + {t}, lk.id);
  }

  lemma PartIs(c: Commitment, done: set<Identity>)
    ensures Part(c, done) == c.(staged := Part(c, done).staged)
  {
  }

  lemma SameLedger(l: Ledger, m: Ledger)
    requires forall id :: (id in l.rows <==> id in m.rows) && (id in l.rows ==> l.rows[id] == m.rows[id])
    requires forall lk :: (lk in l.links <==> lk in m.links) && (lk in l.links ==> l.links[lk] == m.links[lk])
    ensures l == m
  {
  }

  /** Storing one more staged row extends the closed form by that row. */
  lemma MergeStep(base: Ledger, c: Commitment, done: set<Identity>, t: Identity)
    requires t in c.staged && t !in Targets(c.staged) && t !in done && done !! Targets(c.staged)
    ensures MergeOne(Merged(base, Part(c, done)), c, t) == Merged(base, Part(c, done + {t}))
  {
    hide *;
    var now, next := MergeOne(Merged(base, Part(c, done)), c, t), Merged(base, Part(c, done + {t}));
    forall id ensures (id in now.rows <==> id in next.rows) && (id in now.rows ==> now.rows[id] == next.rows[id]) {
      StepRow(base, c, done, t, id);
    }
    forall lk
      ensures (lk in now.links <==> lk in next.links) && (lk in now.links ==> now.links[lk] == next.links[lk])
    {
      StepLink(base, c, done, t, lk);
    }
    SameLedger(now, next);
  }

  lemma MergeStart(base: Ledger, c: Commitment)
    ensures Merged(base, Part(c, {})) == base
  {
    assert Part(c, {}).staged == map[];
    assert Targets(map[]) == {};
    SameLedger(Merged(base, Part(c, {})), base);
  }

  /** Skipping the targets loses nothing, because a validated target links nowhere. */
  lemma MergeEnd(base: Ledger, c: Commitment, rows: map<Identity, Row>)
    requires ReplacementsValid(c.staged, rows)
    ensures Merged(base, Part(c, c.staged.Keys - Targets(c.staged))) == Merged(base, c)
  {
    var p := Part(c, c.staged.Keys - Targets(c.staged));
    assert Targets(p.staged) == Targets(c.staged) by {
      hide ReplacementsValid;
      forall x ensures x in Targets(p.staged) <==> x in Targets(c.staged) {
        SkippedTargets(c, rows, x);
      }
    }
    forall id
      ensures (id in Merged(base, p).rows <==> id in Merged(base, c).rows)
              && (id in Merged(base, p).rows ==> Merged(base, p).rows[id] == Merged(base, c).rows[id])
    {
      hide ReplacementsValid, Merged, Targets;
      MergedRow(base, p, id);
      MergedRow(base, c, id);
    }
    forall lk
      ensures (lk in Merged(base, p).links <==> lk in Merged(base, c).links)
              && (lk in Merged(base, p).links ==> Merged(base, p).links[lk] == Merged(base, c).links[lk])
    {
      hide ReplacementsValid, Merged, Targets;
      MergedLink(base, p, lk);
      MergedLink(base, c, lk);
    }
    hide *;
    SameLedger(Merged(base, p), Merged(base, c));
  }

  lemma SkippedTargets(c: Commitment, rows: map<Identity, Row>, x: Identity)
    requires ReplacementsValid(c.staged, rows)
    ensures x in Targets(Part(c, c.staged.Keys - Targets(c.staged)).staged) <==> x in Targets(c.staged)
  {
    var p := Part(c, c.staged.Keys - Targets(c.staged)).staged;
    hide ReplacementsValid, Targets, TargetOf;
    TargetsHas(c.staged, x);
    TargetsHas(p, x);
    if id :| id in c.staged && TargetOf(id, c.staged[id].content) == Some(x) {
      if id in Targets(c.staged) { DepthOne(c.staged, rows, id); }
      assert id in p && p[id] == c.staged[id];
    }
    if id :| id in p && TargetOf(id, p[id].content) == Some(x) {
      assert id in c.staged && p[id] == c.staged[id];
    }
  }

  // ---------------------------------------------------------------------
  // Foreign keys of the live tables along the way

  /** Every link has its row, and every row the run that first stored it. */
  ghost predicate Sound(l: Ledger, runs: map<RunId, Run>) {
    && (forall id :: id in l.rows ==> l.rows[id].firstRun in runs)
    && (forall lk :: lk in l.links ==> lk.id in l.rows)
  }

  lemma MergedSound(base: Ledger, c: Commitment, runs: map<RunId, Run>)
    requires Sound(base, runs) && c.run in runs
    ensures Sound(Merged(base, c), runs)
  {
  }
}
