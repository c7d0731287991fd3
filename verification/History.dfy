/** The live data as a fold over committed runs, and pruning as an invisible
    optimisation of it. */
module History {
  import opened Options
  import opened Model
  import opened ConfigSpec
  import opened RefreshSpec
  import opened Invariant
  import opened ConfigProofs
  import opened LedgerProofs
  import opened StepProofs
  import opened CommitProofs
  import opened Traces
  import opened Retries
  import opened Serial

  // ---------------------------------------------------------------------
  // Folding commitments

  /** The ledger that the service keeps. */
  ghost function Fold(cs: seq<Commitment>): Ledger {
    if cs == [] then EMPTY_LEDGER else Publish(Fold(cs[..|cs| - 1]), cs[|cs| - 1])
  }

  /** The ledger that the same merges would build if nothing were ever pruned. */
  ghost function Unpruned(cs: seq<Commitment>): Ledger {
    if cs == [] then EMPTY_LEDGER
    else
      var c := cs[|cs| - 1];
      Merged(MergeBase(Unpruned(cs[..|cs| - 1]), c), c)
  }

  /** The greatest end date committed since the last full rebuild. */
  ghost function HighWater(cs: seq<Commitment>): int
    requires cs != []
  {
    var c := cs[|cs| - 1];
    if c.mode == Full || |cs| == 1 then c.toDate
    else
      var before := HighWater(cs[..|cs| - 1]);
      if before <= c.toDate then c.toDate else before
  }

  /** What the protocol guarantees about consecutive committed runs. */
  ghost predicate Follows(cs: seq<Commitment>, i: nat)
    requires i < |cs|
  {
    && (cs[i].mode == Incremental ==> i > 0 && cs[i].config == cs[i - 1].config && cs[i].rules == cs[i - 1].rules)
    && forall id :: id in cs[i].staged ==> cs[i].staged[id].content.date <= cs[i].toDate
  }

  ghost predicate Chained(cs: seq<Commitment>) {
    forall i :: 0 <= i < |cs| ==> Follows(cs, i)
  }

  // ---------------------------------------------------------------------
  // The simulation

  /** Every kept link is in the unpruned ledger with the same row, and every
      unpruned link inside its window on the high-water day is kept. */
  ghost predicate Simulates(kept: Ledger, full: Ledger, rules: map<Key, RuleVersion>, day: int) {
    && (forall lk :: lk in kept.links ==>
          && lk in full.links && kept.links[lk] == full.links[lk]
          && lk.id in kept.rows && lk.id in full.rows
          && kept.rows[lk.id].content == full.rows[lk.id].content
          && kept.rows[lk.id].config == full.rows[lk.id].config)
    && (forall lk :: lk in full.links ==>
          && lk.id in full.rows
          && (lk.category in rules
              && WindowStart(day, rules[lk.category].rule.text.lookback) <= full.rows[lk.id].content.date ==>
                lk in kept.links))
  }

  lemma MergeSimulates(kept: Ledger, full: Ledger, c: Commitment, day: int)
    requires Simulates(kept, full, c.rules, day)
    ensures Simulates(Merged(kept, c), Merged(full, c), c.rules, day)
  {
    var m, f := Merged(kept, c), Merged(full, c);
    hide Merged;
    forall lk | lk in m.links
      ensures lk in f.links && m.links[lk] == f.links[lk] && lk.id in m.rows && lk.id in f.rows
      ensures m.rows[lk.id].content == f.rows[lk.id].content && m.rows[lk.id].config == f.rows[lk.id].config
    {
      MergedLink(kept, c, lk);
      MergedLink(full, c, lk);
      MergedRow(kept, c, lk.id);
      MergedRow(full, c, lk.id);
    }
    forall lk | lk in f.links
      ensures lk.id in f.rows
      ensures lk.category in c.rules
              && WindowStart(day, c.rules[lk.category].rule.text.lookback) <= f.rows[lk.id].content.date ==>
                lk in m.links
    {
      MergedLink(kept, c, lk);
      MergedLink(full, c, lk);
      MergedRow(full, c, lk.id);
    }
  }

  lemma PruneSimulates(m: Ledger, f: Ledger, c: Commitment, before: int, day: int)
    requires Simulates(m, f, c.rules, before) && before <= day && c.toDate <= day
    ensures Simulates(Pruned(m, c), f, c.rules, day)
  {
    var p := Pruned(m, c);
    hide Pruned;
    forall lk | lk in p.links
      ensures lk in f.links && p.links[lk] == f.links[lk] && lk.id in p.rows && lk.id in f.rows
      ensures p.rows[lk.id].content == f.rows[lk.id].content && p.rows[lk.id].config == f.rows[lk.id].config
    {
      PrunedLink(m, c, lk);
    }
    forall lk | lk in f.links && lk.category in c.rules
                && WindowStart(day, c.rules[lk.category].rule.text.lookback) <= f.rows[lk.id].content.date
      ensures lk in p.links
    {
      assert lk in m.links;
      PrunedLink(m, c, lk);
    }
  }

  lemma {:induction false} FoldSimulates(cs: seq<Commitment>)
    requires cs != [] && Chained(cs)
    ensures Simulates(Fold(cs), Unpruned(cs), cs[|cs| - 1].rules, HighWater(cs))
  {
    var n := |cs| - 1;
    var c := cs[n];
    assert Follows(cs, n);
    if c.mode == Full {
      assert Simulates(EMPTY_LEDGER, EMPTY_LEDGER, c.rules, c.toDate);
      hide Simulates, Merged, Pruned;
      MergeSimulates(EMPTY_LEDGER, EMPTY_LEDGER, c, c.toDate);
      PruneSimulates(Merged(EMPTY_LEDGER, c), Merged(EMPTY_LEDGER, c), c, c.toDate, c.toDate);
    } else {
      ChainedPrefix(cs);
      hide Simulates, Merged, Pruned, Follows;
      FoldSimulates(cs[..n]);
      MergeSimulates(Fold(cs[..n]), Unpruned(cs[..n]), c, HighWater(cs[..n]));
      PruneSimulates(Merged(Fold(cs[..n]), c), Unpruned(cs), c, HighWater(cs[..n]), HighWater(cs));
    }
  }

  lemma ChainedPrefix(cs: seq<Commitment>)
    requires cs != [] && Chained(cs)
    ensures Chained(cs[..|cs| - 1])
  {
    var before := cs[..|cs| - 1];
    forall i | 0 <= i < |before| ensures Follows(before, i) {
      assert Follows(cs, i);
    }
  }

  /** No live row is dated after the high-water day. */
  lemma {:induction false} DatesBounded(cs: seq<Commitment>, id: Identity)
    requires cs != [] && Chained(cs) && id in Fold(cs).rows
    ensures Fold(cs).rows[id].content.date <= HighWater(cs)
  {
    var n := |cs| - 1;
    var base := MergeBase(Fold(cs[..n]), cs[n]);
    assert Follows(cs, n);
    MergedRow(base, cs[n], id);
    if id !in cs[n].staged {
      assert id in Fold(cs[..n]).rows;
      ChainedPrefix(cs);
      DatesBounded(cs[..n], id);
    }
  }

  // ---------------------------------------------------------------------
  // What the dashboard selects

  /** The rows that a category's rolling window selects on a day. */
  function WindowRows(l: Ledger, config: Version, k: Key, lookback: int, day: int): map<Identity, Content> {
    map id | id in l.rows && LinkKey(id, k) in l.links && l.rows[id].config == config
             && WindowStart(day, lookback) <= l.rows[id].content.date <= day ::
      l.rows[id].content
  }

  lemma SameWindow(kept: Ledger, full: Ledger, rules: map<Key, RuleVersion>, day: int, config: Version, k: Key,
                   asOf: int)
    requires Simulates(kept, full, rules, day) && k in rules && day <= asOf
    ensures WindowRows(kept, config, k, rules[k].rule.text.lookback, asOf)
         == WindowRows(full, config, k, rules[k].rule.text.lookback, asOf)
  {
  }

  // ---------------------------------------------------------------------
  // Traces

  /** The published runs of a trace, in order. */
  ghost function Commitments(calls: seq<Call>): seq<Commitment> {
    if calls == [] then []
    else
      var n := |calls| - 1;
      var s := After(calls[..n]);
      var w := WriteOf(s, calls[n]);
      Commitments(calls[..n]) +
      if w.CommitWrite? && w.run in s.runs then [CommitmentOf(s, w.run, w.now)] else []
  }

  lemma CommitLedger(s: State, id: RunId, request: CommitRequest, now: int)
    requires CommitPasses(s, id, request)
    ensures id in s.runs && Enabled(s, CommitWrite(id, request, now))
    ensures var t := Written(s, CommitWrite(id, request, now));
            && t.ledger == Publish(s.ledger, CommitmentOf(s, id, now))
            && t.sync == Some(Advanced(s.sync, id, s.runs[id].config))
  {
    hide *;
    WrittenCommit(s, id, request, now);
    CommittingShape(s, id, request, now);
  }

  /** The live data is the fold of the committed runs in commit order. */
  lemma {:induction false} LiveIsFold(calls: seq<Call>)
    requires AllValid(calls)
    ensures After(calls).ledger == Fold(Commitments(calls))
  {
    hide Apply, WriteOf, Enabled, Written, CommitmentOf, Publish;
    if calls != [] {
      var n := |calls| - 1;
      var s := After(calls[..n]);
      var w := WriteOf(s, calls[n]);
      LiveIsFold(calls[..n]);
      CallIsWrite(s, calls[n]);
      if w.CommitWrite? {
        EnabledCommit(s, w);
        CommitLedger(s, w.run, w.commit, w.now);
        var cs := Commitments(calls);
        assert cs[..|cs| - 1] == Commitments(calls[..n]);
      } else {
        OtherWrites(s, w, 0);
        assert Commitments(calls) == Commitments(calls[..n]);
      }
    }
  }

  /** The rules of the last published run are those of the synchronised version. */
  ghost predicate LastRules(s: State, cs: seq<Commitment>) {
    if cs == [] then s.sync.None?
    else
      && s.sync.Some? && s.sync.value.config in s.configs
      && cs[|cs| - 1].config == s.sync.value.config
      && cs[|cs| - 1].rules == RulesOf(s, s.sync.value.config)
  }

  lemma LastRulesKept(s: State, t: State, cs: seq<Commitment>)
    requires t.sync == s.sync && LastRules(s, cs)
    requires Core(s) && Kept(s, t)
    ensures LastRules(t, cs)
  {
    hide RunInv, LiveInv, RunsKept, BatchesKept, RulesOf;
    if cs != [] {
      var v := s.sync.value.config;
      ConfigKept(s, t, v);
      RulesOfStable(s, t, v);
    }
  }

  lemma ConfigKept(s: State, t: State, v: Version)
    requires v in s.configs
    requires ConfigInv(s) && ConfigExtends(s, t)
    ensures v in t.configs && v in t.configRules && t.configRules[v] == s.configRules[v]
    ensures CatalogExtends(Catalog(s.categories, s.rules), Catalog(t.categories, t.rules))
  {
  }

  lemma CommitLastRules(s: State, t: State, id: RunId, now: int, cs: seq<Commitment>)
    requires id in s.runs && s.runs[id].config in s.configs
    requires t.sync == Some(Advanced(s.sync, id, s.runs[id].config))
    requires ConfigInv(s) && ConfigExtends(s, t)
    ensures LastRules(t, cs + [CommitmentOf(s, id, now)])
  {
    var v := s.runs[id].config;
    hide *;
    ConfigKept(s, t, v);
    RulesOfStable(s, t, v);
    AdvancedIs(s.sync, id, v);
    CommitmentIs(s, id, now);
    LastRulesFrom(t, cs, CommitmentOf(s, id, now));
  }

  lemma LastRulesFrom(t: State, cs: seq<Commitment>, c: Commitment)
    requires t.sync.Some? && t.sync.value.config in t.configs && c.config == t.sync.value.config
    requires c.rules == RulesOf(t, t.sync.value.config)
    ensures LastRules(t, cs + [c])
  {
  }

  lemma {:induction false} LastRulesHold(calls: seq<Call>)
    requires AllValid(calls)
    ensures LastRules(After(calls), Commitments(calls))
  {
    hide Apply, WriteOf, Enabled, Written, CommitmentOf, Core, LastRules, Kept;
    if calls == [] {
      NoRules();
    } else {
      var n := |calls| - 1;
      var s := After(calls[..n]);
      var w := WriteOf(s, calls[n]);
      LastRulesHold(calls[..n]);
      ReachableInv(calls[..n]);
      CallIsWrite(s, calls[n]);
      WriteKept(s, w);
      if w.CommitWrite? {
        EnabledCommit(s, w);
        CommitLedger(s, w.run, w.commit, w.now);
        CoreMeans(s, w.run);
        KeptMeans(s, After(calls));
        CommitLastRules(s, After(calls), w.run, w.now, Commitments(calls[..n]));
      } else {
        OtherWrites(s, w, 0);
        LastRulesKept(s, After(calls), Commitments(calls[..n]));
        assert Commitments(calls) == Commitments(calls[..n]);
      }
    }
  }

  lemma NoRules()
    ensures LastRules(EMPTY_STATE, [])
  {
  }

  lemma KeptMeans(s: State, t: State)
    requires Kept(s, t)
    ensures ConfigExtends(s, t)
  {
  }

  lemma StagedDates(s: State, id: RunId, now: int)
    requires id in s.runs
    requires RunOk(s, id)
    ensures var c := CommitmentOf(s, id, now);
            forall t :: t in c.staged ==> c.staged[t].content.date <= c.toDate
  {
  }

  lemma SameVersionFollows(s: State, cs: seq<Commitment>, c: Commitment)
    requires LastRules(s, cs)
    requires c.mode == Incremental ==>
               s.sync.Some? && c.config == s.sync.value.config && c.rules == RulesOf(s, c.config)
    requires forall t :: t in c.staged ==> c.staged[t].content.date <= c.toDate
    ensures Follows(cs + [c], |cs|)
  {
  }

  lemma IncrementalNeedsSync(s: State, id: RunId)
    requires id in s.runs && SameAccountsAsLastRun(s, s.runs[id].accounts)
    requires Current(s.configs, Active) == Some(s.runs[id].config)
    requires Core(s)
    ensures s.sync.Some? && s.runs[id].config == s.sync.value.config
  {
    hide Core;
    SyncIsActive(s);
  }

  lemma ChainStep(s: State, id: RunId, request: CommitRequest, now: int, cs: seq<Commitment>)
    requires CommitPasses(s, id, request) && LastRules(s, cs) && Chained(cs)
    requires Core(s)
    ensures id in s.runs && Chained(cs + [CommitmentOf(s, id, now)])
  {
    hide *;
    PassesId(s, id, request);
    PassesMeans(s, id, request);
    CoreMeans(s, id);
    var c := CommitmentOf(s, id, now);
    CommitmentIs(s, id, now);
    StagedDates(s, id, now);
    if s.runs[id].mode == Incremental { IncrementalNeedsSync(s, id); }
    SameVersionFollows(s, cs, c);
    ChainedExtend(cs, c);
  }

  lemma ChainedExtend(cs: seq<Commitment>, c: Commitment)
    requires Chained(cs) && Follows(cs + [c], |cs|)
    ensures Chained(cs + [c])
  {
    forall i | 0 <= i < |cs + [c]| ensures Follows(cs + [c], i) {
      if i < |cs| { assert Follows(cs, i); }
    }
  }

  lemma SyncIsActive(s: State)
    requires Core(s)
    ensures s.sync.Some? ==> Current(s.configs, Active) == Some(s.sync.value.config)
  {
    hide RunInv, CatalogOk, ContentsOk, AllLinksOk, Typed, InWindows, AllLinked;
  }

  lemma {:induction false} CommitmentsChained(calls: seq<Call>)
    requires AllValid(calls)
    ensures Chained(Commitments(calls))
  {
    hide Apply, WriteOf, Enabled, Written, CommitmentOf, Core, LastRules, Follows;
    if calls != [] {
      var n := |calls| - 1;
      var s := After(calls[..n]);
      var w := WriteOf(s, calls[n]);
      CommitmentsChained(calls[..n]);
      ReachableInv(calls[..n]);
      LastRulesHold(calls[..n]);
      CallIsWrite(s, calls[n]);
      if w.CommitWrite? {
        EnabledCommit(s, w);
        ChainStep(s, w.run, w.commit, w.now, Commitments(calls[..n]));
      } else {
        assert Commitments(calls) == Commitments(calls[..n]);
      }
    }
  }

  /** Pruning is invisible: on and after the high-water day every category window
      of the active version selects the same rows as if nothing had been pruned. */
  lemma PruningIsInvisible(calls: seq<Call>, k: Key, asOf: int)
    requires AllValid(calls)
    requires Commitments(calls) != [] ==> HighWater(Commitments(calls)) <= asOf
    requires Current(After(calls).configs, Active).Some?
    requires k in RulesOf(After(calls), Current(After(calls).configs, Active).value)
    ensures var s := After(calls);
            var a := Current(s.configs, Active).value;
            var lookback := RulesOf(s, a)[k].rule.text.lookback;
            WindowRows(s.ledger, a, k, lookback, asOf) == WindowRows(Unpruned(Commitments(calls)), a, k, lookback, asOf)
  {
    var cs := Commitments(calls);
    var s := After(calls);
    hide After, Commitments, Core, RulesOf, WindowRows, Simulates, Fold, Unpruned, HighWater, Chained;
    LiveIsFold(calls);
    if cs == [] {
      assert Fold(cs) == Unpruned(cs) by { EmptyFolds(); }
    } else {
      CommitmentsChained(calls);
      LastRulesHold(calls);
      ReachableInv(calls);
      SyncIsActive(s);
      FoldSimulates(cs);
      SameWindow(s.ledger, Unpruned(cs), cs[|cs| - 1].rules, HighWater(cs), Current(s.configs, Active).value, k, asOf);
    }
  }

  lemma EmptyFolds()
    ensures Fold([]) == Unpruned([])
  {
  }

  /** The bound is sharp on every earlier day: after any history that ends with a rebuild,
      a row inside its window of that day but before its window of the high-water day is
      selected from the unpruned ledger only. */
  lemma LostOnEarlierDays(cs: seq<Commitment>, c: Commitment, id: Identity, k: Key, asOf: int)
    requires c.mode == Full && id in c.staged && id !in Targets(c.staged)
    requires k in c.staged[id].categories && k in c.rules
    requires asOf < c.toDate
    requires var lookback := c.rules[k].rule.text.lookback;
             WindowStart(asOf, lookback) <= c.staged[id].content.date <= asOf
             && c.staged[id].content.date < WindowStart(c.toDate, lookback)
    ensures HighWater(cs + [c]) == c.toDate
    ensures id in WindowRows(Unpruned(cs + [c]), c.config, k, c.rules[k].rule.text.lookback, asOf)
    ensures id !in WindowRows(Fold(cs + [c]), c.config, k, c.rules[k].rule.text.lookback, asOf)
  {
    var all := cs + [c];
    assert all[|all| - 1] == c && all[..|all| - 1] == cs;
    var m := Merged(EMPTY_LEDGER, c);
    assert Unpruned(all) == m && Fold(all) == Pruned(m, c);
    hide Fold, Unpruned, Merged, Pruned, Targets;
    MergedRow(EMPTY_LEDGER, c, id);
    MergedLink(EMPTY_LEDGER, c, LinkKey(id, k));
    PrunedLink(m, c, LinkKey(id, k));
  }

  /** No live row of a trace is dated after the high-water day. */
  lemma LiveDatesBounded(calls: seq<Call>, id: Identity)
    requires AllValid(calls) && id in After(calls).ledger.rows
    ensures Commitments(calls) != []
    ensures After(calls).ledger.rows[id].content.date <= HighWater(Commitments(calls))
  {
    LiveIsFold(calls);
    CommitmentsChained(calls);
    hide After, HighWater, Chained;
    DatesBounded(Commitments(calls), id);
  }
}
