/** Whether a replaced pending row stays gone while the posted row that names it lives:
    a rebuild always sees to it, and an incremental run breaks it in exactly one way. */
module Replacements {
  import opened Options
  import opened Model
  import opened RefreshSpec
  import opened LedgerProofs
  import opened Traces
  import opened History

  /** No live row is named as replaced by a live row. */
  ghost predicate NoLiveTarget(l: Ledger) {
    forall p :: p in l.rows ==> !NamesLive(l, p)
  }

  ghost predicate NamesLive(l: Ledger, p: Identity)
    requires p in l.rows
  {
    var target := TargetOf(p, l.rows[p].content);
    target.Some? && target.value in l.rows
  }

  /** A live row that the run does not touch and that keeps a link in window. */
  ghost predicate Stays(l: Ledger, c: Commitment, p: Identity) {
    && Untouched(c, p) && p in l.rows
    && exists k :: LinkKey(p, k) in l.links && !TooOld(c, l.rows, LinkKey(p, k))
  }

  /** A staged row that the run neither replaces nor lets expire. */
  ghost predicate Lands(c: Commitment, r: Identity) {
    && r in c.staged && r !in Targets(c.staged)
    && exists k :: k in c.staged[r].categories && !StagedTooOld(c, r, k)
  }

  /** The run stages again what a row that stays has replaced. */
  ghost predicate Restages(l: Ledger, c: Commitment) {
    exists p ::
      && Stays(l, c, p) && p in l.rows && TargetOf(p, l.rows[p].content).Some?
      && Lands(c, TargetOf(p, l.rows[p].content).value)
  }

  // ---------------------------------------------------------------------
  // One commit

  lemma StaysLive(l: Ledger, c: Commitment, p: Identity)
    requires c.mode == Incremental && Untouched(c, p)
    ensures p in Publish(l, c).rows <==> Stays(l, c, p)
    ensures p in Publish(l, c).rows ==> Publish(l, c).rows[p] == l.rows[p]
  {
    if p in l.rows {
      IncrementalFrame(l, c, p);
    } else {
      var m := Merged(l, c);
      hide Merged;
      MergedRow(l, c, p);
    }
  }

  lemma LandsLive(l: Ledger, c: Commitment, r: Identity)
    requires c.mode == Incremental && r in c.staged && r !in Targets(c.staged)
    ensures r in Publish(l, c).rows <==> Lands(c, r)
    ensures r in Publish(l, c).rows ==> Publish(l, c).rows[r].content == c.staged[r].content
  {
    var m := Merged(l, c);
    var p := Pruned(m, c);
    hide Merged, Targets, StagedTooOld;
    MergedRow(l, c, r);
    if k :| k in c.staged[r].categories && !StagedTooOld(c, r, k) {
      StagedIsPublished(l, c, r, k);
      PrunedLink(m, c, LinkKey(r, k));
    }
    if r in p.rows {
      var lk :| lk in p.links && lk.id == r;
      assert lk == LinkKey(r, lk.category);
      StagedIsPublished(l, c, r, lk.category);
    }
  }

  /** A row that this run staged never names a live one. */
  lemma StagedNamesNone(l: Ledger, c: Commitment, p: Identity)
    requires p in c.staged && p in Publish(l, c).rows
    requires Publish(l, c).rows[p].content == c.staged[p].content
    ensures !NamesLive(Publish(l, c), p)
  {
    var target := TargetOf(p, c.staged[p].content);
    if target.Some? { ReplacedAreGone(l, c, target.value); }
  }

  /** When an untouched row and the one it replaced are both live after an incremental
      commit: it stays, and the other is staged again or stays too. */
  lemma ReplacedMayReturn(l: Ledger, c: Commitment, posted: Identity, replaced: Identity)
    requires c.mode == Incremental && Untouched(c, posted) && posted in l.rows
    requires TargetOf(posted, l.rows[posted].content) == Some(replaced)
    ensures posted in Publish(l, c).rows && replaced in Publish(l, c).rows <==>
              Stays(l, c, posted) && (Lands(c, replaced) || Stays(l, c, replaced))
  {
    hide Publish, Targets;
    StaysLive(l, c, posted);
    if replaced in Targets(c.staged) {
      ReplacedAreGone(l, c, replaced);
    } else if replaced in c.staged {
      LandsLive(l, c, replaced);
    } else {
      StaysLive(l, c, replaced);
    }
  }

  /** An incremental commit keeps replaced rows gone exactly when it does not stage
      one of them again. */
  lemma IncrementalKeepsGone(l: Ledger, c: Commitment)
    requires c.mode == Incremental && NoLiveTarget(l)
    ensures NoLiveTarget(Publish(l, c)) <==> !Restages(l, c)
  {
    var n := Publish(l, c);
    hide Publish, Stays, Lands, Targets;
    if Restages(l, c) {
      var p :| Stays(l, c, p) && p in l.rows && TargetOf(p, l.rows[p].content).Some?
               && Lands(c, TargetOf(p, l.rows[p].content).value);
      StaysMeans(l, c, p);
      StaysLive(l, c, p);
      LandsMeans(c, TargetOf(p, l.rows[p].content).value);
      LandsLive(l, c, TargetOf(p, l.rows[p].content).value);
      assert NamesLive(n, p);
    } else {
      forall p | p in n.rows ensures !NamesLive(n, p) {
        if p in Targets(c.staged) {
          ReplacedAreGone(l, c, p);
        } else if p in c.staged {
          LandsLive(l, c, p);
          StagedNamesNone(l, c, p);
        } else {
          UntouchedNamesNone(l, c, p);
        }
      }
    }
  }

  lemma UntouchedNamesNone(l: Ledger, c: Commitment, p: Identity)
    requires c.mode == Incremental && NoLiveTarget(l) && !Restages(l, c)
    requires Untouched(c, p) && p in Publish(l, c).rows
    ensures !NamesLive(Publish(l, c), p)
  {
    hide Publish, Stays, Lands, Targets;
    StaysLive(l, c, p);
    StaysMeans(l, c, p);
    assert !NamesLive(l, p);
    var target := TargetOf(p, l.rows[p].content);
    if target.Some? && target.value in Publish(l, c).rows {
      if target.value in Targets(c.staged) {
        ReplacedAreGone(l, c, target.value);
      } else if target.value in c.staged {
        LandsLive(l, c, target.value);
      } else {
        StaysLive(l, c, target.value);
        StaysMeans(l, c, target.value);
      }
    }
  }

  lemma StaysMeans(l: Ledger, c: Commitment, p: Identity)
    requires Stays(l, c, p)
    ensures p in l.rows && Untouched(c, p)
  {
  }

  lemma LandsMeans(c: Commitment, r: Identity)
    requires Lands(c, r)
    ensures r in c.staged && r !in Targets(c.staged)
  {
  }

  /** A full rebuild leaves no replaced row, whatever was live before. */
  lemma FullKeepsGone(l: Ledger, c: Commitment)
    requires c.mode == Full
    ensures NoLiveTarget(Publish(l, c))
  {
    var n := Publish(l, c);
    hide Publish, Targets;
    forall p | p in n.rows ensures !NamesLive(n, p) {
      FullRow(l, c, p);
      StagedNamesNone(l, c, p);
    }
  }

  // ---------------------------------------------------------------------
  // Any history

  /** The i-th commitment stages again what a live row has replaced. */
  ghost predicate RestagesAt(cs: seq<Commitment>, i: nat)
    requires i < |cs|
  {
    cs[i].mode == Incremental && Restages(Fold(cs[..i]), cs[i])
  }

  ghost predicate NeverRestages(cs: seq<Commitment>) {
    forall i: nat :: i < |cs| ==> !RestagesAt(cs, i)
  }

  /** No replaced row is live after any prefix of the trace. */
  ghost predicate AlwaysGone(calls: seq<Call>) {
    forall n: nat :: n <= |calls| ==> NoLiveTarget(After(calls[..n]).ledger)
  }

  lemma NeverRestagesStep(cs: seq<Commitment>)
    requires cs != []
    ensures NeverRestages(cs) <==> NeverRestages(cs[..|cs| - 1]) && !RestagesAt(cs, |cs| - 1)
  {
    var n := |cs| - 1;
    var before := cs[..n];
    hide RestagesAt;
    forall i: nat | i < n ensures RestagesAt(before, i) <==> RestagesAt(cs, i) {
      RestagesBefore(cs, n, i);
    }
    if NeverRestages(cs) {
      forall i: nat | i < n ensures !RestagesAt(before, i) {
        assert !RestagesAt(cs, i);
      }
    }
  }

  lemma RestagesBefore(cs: seq<Commitment>, n: nat, i: nat)
    requires i < n <= |cs|
    ensures RestagesAt(cs[..n], i) <==> RestagesAt(cs, i)
  {
    assert cs[..n][..i] == cs[..i];
  }

  lemma AlwaysGoneStep(calls: seq<Call>)
    requires calls != []
    ensures AlwaysGone(calls) <==> AlwaysGone(calls[..|calls| - 1]) && NoLiveTarget(After(calls).ledger)
  {
    var n := |calls| - 1;
    var before := calls[..n];
    hide NoLiveTarget, After;
    assert calls[..|calls|] == calls;
    assert forall i: nat :: i <= n ==> before[..i] == calls[..i];
    if AlwaysGone(before) && NoLiveTarget(After(calls).ledger) {
      forall i: nat | i <= |calls| ensures NoLiveTarget(After(calls[..i]).ledger) {
        if i <= n { assert NoLiveTarget(After(before[..i]).ledger); }
      }
    }
    if AlwaysGone(calls) {
      assert NoLiveTarget(After(calls[..|calls|]).ledger);
      forall i: nat | i <= n ensures NoLiveTarget(After(before[..i]).ledger) {
        assert NoLiveTarget(After(calls[..i]).ledger);
      }
    }
  }

  lemma PublishKeepsGone(cs: seq<Commitment>)
    requires cs != [] && NoLiveTarget(Fold(cs[..|cs| - 1]))
    ensures NoLiveTarget(Fold(cs)) <==> !RestagesAt(cs, |cs| - 1)
  {
    var n := |cs| - 1;
    hide NoLiveTarget, Restages, Publish;
    if cs[n].mode == Full {
      FullKeepsGone(Fold(cs[..n]), cs[n]);
    } else {
      IncrementalKeepsGone(Fold(cs[..n]), cs[n]);
    }
  }

  /** Replaced rows stay gone throughout a trace exactly when none of its incremental
      commits stages one again. */
  lemma {:induction false} GoneUnlessRestaged(calls: seq<Call>)
    requires AllValid(calls)
    ensures AlwaysGone(calls) <==> NeverRestages(Commitments(calls))
  {
    hide Apply, WriteOf, Enabled, Written, CommitmentOf, NoLiveTarget, RestagesAt, AlwaysGone, NeverRestages, Fold;
    if calls == [] {
      NothingReplaced();
    } else {
      var n := |calls| - 1;
      var before := calls[..n];
      GoneUnlessRestaged(before);
      AlwaysGoneStep(calls);
      LiveIsFold(before);
      LiveIsFold(calls);
      if AlwaysGone(before) { LastIsGone(before); }
      var cs := Commitments(calls);
      if |cs| > |Commitments(before)| {
        assert cs[..|cs| - 1] == Commitments(before);
        NeverRestagesStep(cs);
        if AlwaysGone(before) { PublishKeepsGone(cs); }
      } else {
        assert cs == Commitments(before);
      }
    }
  }

  lemma LastIsGone(calls: seq<Call>)
    requires AlwaysGone(calls)
    ensures NoLiveTarget(After(calls).ledger)
  {
    hide NoLiveTarget, After;
    assert calls[..|calls|] == calls;
  }

  lemma NothingReplaced()
    ensures AlwaysGone([]) && NeverRestages(Commitments([]))
  {
    assert After([][..0]).ledger == EMPTY_LEDGER;
  }
}
