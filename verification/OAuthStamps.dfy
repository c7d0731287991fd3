/** The revocation and compromise stamps of a family are the times of the first call
    that ended it and of the first replay; a family without a stamp saw none. */
module OAuthStamps {
  import opened Options
  import opened OAuthSpec
  import opened OAuthProofs
  import opened OAuthTheorems
  import opened OAuthAcceptance
  import opened OAuthOrigins

  ghost predicate Replays(a: Auth, call: Call, f: FamilyId) {
    IsReplay(a, call) && a.refresh[Digest(call.settings.generation, call.request.token)].family == f
  }

  /** What one call does to the stamps of a family. */
  ghost predicate Stamps(a: Auth, b: Auth, call: Call, f: FamilyId) {
    f in b.families ==>
      var next := b.families[f];
      if f in a.families then
        && next.revoked ==
             (if a.families[f].revoked.None? && Ends(a, call, f) then Some(call.now) else a.families[f].revoked)
        && next.compromised ==
             (if a.families[f].compromised.None? && Replays(a, call, f) then Some(call.now)
              else a.families[f].compromised)
      else next.revoked.None? && next.compromised.None? && f == a.issued
  }

  lemma ExchangeStamps(a: Auth, call: Call, f: FamilyId)
    requires call.request.ExchangeRequest? && FreshOk(a)
    ensures Stamps(a, Respond(a, call).auth, call, f)
  {
  }

  lemma RotateStamps(a: Auth, call: Call, f: FamilyId)
    requires call.request.RotateRequest?
    ensures Stamps(a, Respond(a, call).auth, call, f)
  {
  }

  lemma RevokeStamps(a: Auth, call: Call, f: FamilyId)
    requires call.request.RevokeRequest?
    ensures Stamps(a, Respond(a, call).auth, call, f)
  {
  }

  lemma IssueStamps(a: Auth, call: Call, f: FamilyId)
    requires call.request.IssueRequest? || call.request.VerifyRequest?
    ensures Stamps(a, Respond(a, call).auth, call, f)
  {
  }

  lemma RespondStamps(a: Auth, call: Call, f: FamilyId)
    requires FreshOk(a)
    ensures Stamps(a, Respond(a, call).auth, call, f)
  {
    hide *;
    match call.request
    case IssueRequest(_, _, _, _) => IssueStamps(a, call, f);
    case ExchangeRequest(_, _, _, _) => ExchangeStamps(a, call, f);
    case RotateRequest(_, _, _, _) => RotateStamps(a, call, f);
    case VerifyRequest(_) => IssueStamps(a, call, f);
    case RevokeRequest(_) => RevokeStamps(a, call, f);
  }

  /** The stamp is the time of the first call that ended the family; none means none did. */
  ghost predicate FirstEnd(calls: seq<Call>, f: FamilyId, stamp: Option<int>) {
    match stamp
    case None => forall i: nat :: i < |calls| ==> !Ends(At(calls, i), calls[i], f)
    case Some(time) =>
      exists i: nat :: i < |calls| && Ends(At(calls, i), calls[i], f) && calls[i].now == time
                       && forall j: nat :: j < i ==> !Ends(At(calls, j), calls[j], f)
  }

  ghost predicate FirstReplay(calls: seq<Call>, f: FamilyId, stamp: Option<int>) {
    match stamp
    case None => forall i: nat :: i < |calls| ==> !Replays(At(calls, i), calls[i], f)
    case Some(time) =>
      exists i: nat :: i < |calls| && Replays(At(calls, i), calls[i], f) && calls[i].now == time
                       && forall j: nat :: j < i ==> !Replays(At(calls, j), calls[j], f)
  }

  lemma IssuedGrows(calls: seq<Call>, i: nat)
    requires i <= |calls|
    ensures At(calls, i).issued <= Execute(EMPTY_AUTH, calls).issued
  {
    hide Execute, Later;
    ExecuteConcat(EMPTY_AUTH, calls[..i], calls[i..]);
    assert calls[..i] + calls[i..] == calls;
    ExecuteLater(At(calls, i), calls[i..]);
    LaterIssued(At(calls, i), Execute(At(calls, i), calls[i..]));
  }

  lemma EndsMeansOld(calls: seq<Call>, i: nat, f: FamilyId)
    requires Timely(calls) && i < |calls| && (Ends(At(calls, i), calls[i], f) || Replays(At(calls, i), calls[i], f))
    ensures f < Execute(EMPTY_AUTH, calls).issued
  {
    TimelyPrefix(calls, i);
    TokensRooted(calls[..i]);
    IssuedGrows(calls, i);
    hide Execute, Timely;
  }

  lemma FamilyStep(calls: seq<Call>, f: FamilyId)
    requires Timely(calls) && calls != []
    ensures Stamps(At(calls, |calls| - 1), Execute(EMPTY_AUTH, calls), calls[|calls| - 1], f)
  {
    var n := |calls| - 1;
    hide Timely, Stamps, FreshOk, Respond;
    TimelyPrefix(calls, n);
    TokensRooted(calls[..n]);
    RespondStamps(At(calls, n), calls[n], f);
  }

  lemma ExtendEnd(calls: seq<Call>, f: FamilyId, before: Option<int>)
    requires calls != [] && FirstEnd(calls[..|calls| - 1], f, before)
    ensures var n := |calls| - 1;
            FirstEnd(calls, f, if before.None? && Ends(At(calls, n), calls[n], f) then Some(calls[n].now) else before)
  {
    var n := |calls| - 1;
    hide Ends, At;
    forall i: nat | i < n ensures At(calls[..n], i) == At(calls, i) && calls[..n][i] == calls[i] {
      SamePrefix(calls, n, i);
    }
  }

  lemma ExtendReplay(calls: seq<Call>, f: FamilyId, before: Option<int>)
    requires calls != [] && FirstReplay(calls[..|calls| - 1], f, before)
    ensures var n := |calls| - 1;
            FirstReplay(calls, f,
                        if before.None? && Replays(At(calls, n), calls[n], f) then Some(calls[n].now) else before)
  {
    var n := |calls| - 1;
    hide Replays, At;
    forall i: nat | i < n ensures At(calls[..n], i) == At(calls, i) && calls[..n][i] == calls[i] {
      SamePrefix(calls, n, i);
    }
  }

  lemma NewFamilyUntouched(calls: seq<Call>, f: FamilyId)
    requires Timely(calls) && Execute(EMPTY_AUTH, calls).issued <= f
    ensures FirstEnd(calls, f, None) && FirstReplay(calls, f, None)
  {
    hide Execute, Timely, Ends, Replays;
    forall i: nat | i < |calls| ensures !Ends(At(calls, i), calls[i], f) && !Replays(At(calls, i), calls[i], f) {
      if Ends(At(calls, i), calls[i], f) || Replays(At(calls, i), calls[i], f) { EndsMeansOld(calls, i, f); }
    }
  }

  /** After every run a family carries the time of the first revocation of one of its
      tokens or replay of a consumed one, whichever came first, as its revocation, and the
      time of the first replay as its compromise; without a stamp no such call happened. */
  lemma {:induction false} StampsAreDated(calls: seq<Call>, f: FamilyId)
    requires Timely(calls) && f in Execute(EMPTY_AUTH, calls).families
    ensures FirstEnd(calls, f, Execute(EMPTY_AUTH, calls).families[f].revoked)
    ensures FirstReplay(calls, f, Execute(EMPTY_AUTH, calls).families[f].compromised)
  {
    hide Respond, Timely, Ends, Replays, FirstEnd, FirstReplay;
    if calls == [] {
      assert false;
    } else {
      var n := |calls| - 1;
      var a := At(calls, n);
      TimelyPrefix(calls, n);
      FamilyStep(calls, f);
      if f in a.families {
        StampsAreDated(calls[..n], f);
        ExtendEnd(calls, f, a.families[f].revoked);
        ExtendReplay(calls, f, a.families[f].compromised);
      } else {
        NewFamilyUntouched(calls[..n], f);
        ExtendEnd(calls, f, None);
        ExtendReplay(calls, f, None);
        LastIsNot(calls, f);
      }
    }
  }

  lemma LastIsNot(calls: seq<Call>, f: FamilyId)
    requires Timely(calls) && calls != [] && At(calls, |calls| - 1).issued <= f
    ensures !Ends(At(calls, |calls| - 1), calls[|calls| - 1], f)
    ensures !Replays(At(calls, |calls| - 1), calls[|calls| - 1], f)
  {
    var n := |calls| - 1;
    TimelyPrefix(calls, n);
    TokensRooted(calls[..n]);
    hide Execute, Timely;
  }

  // ---------------------------------------------------------------------
  // The stamps of single rows

  lemma RevokeAccessRows(a: Auth, d: Digest, now: int)
    ensures var b := RevokeAccess(a, d, now);
            && b.codes == a.codes && b.refresh == a.refresh
            && b.access == if d in a.access && a.access[d].revoked.None?
                           then a.access[d := a.access[d].(revoked := Some(now))] else a.access
  {
  }

  lemma RevokeRefreshRows(a: Auth, d: Digest, now: int)
    ensures var b := RevokeRefresh(a, d, now);
            && b.codes == a.codes && b.access == a.access
            && b.refresh == if d in a.refresh && a.refresh[d].revoked.None?
                            then a.refresh[d := a.refresh[d].(revoked := Some(now))] else a.refresh
  {
  }

  /** Revoking a token stamps its own row with the time, once, and no other row. */
  lemma RevokedRowIsStamped(a: Auth, call: Call)
    requires call.request.RevokeRequest?
    ensures var b, now := Respond(a, call).auth, call.now;
            var d := Digest(call.settings.generation, call.request.token);
            && b.codes == a.codes
            && b.access == (if d in a.access && a.access[d].revoked.None?
                            then a.access[d := a.access[d].(revoked := Some(now))] else a.access)
            && b.refresh == (if d in a.refresh && a.refresh[d].revoked.None?
                             then a.refresh[d := a.refresh[d].(revoked := Some(now))] else a.refresh)
  {
    var d := Digest(call.settings.generation, call.request.token);
    RevokeAccessRows(a, d, call.now);
    RevokeRefreshRows(RevokeAccess(a, d, call.now), d, call.now);
    hide RevokeAccess, RevokeRefresh;
  }

  /** A pair stamps the code or the refresh token that it was given for, and no other row
      that was there. */
  lemma ConsumedRowIsStamped(a: Auth, call: Call)
    requires Respond(a, call).reply.Pair? && FreshOk(a)
    ensures var b, now := Respond(a, call).auth, call.now;
            var e := Digest(call.settings.generation, Respond(a, call).reply.refresh);
            match call.request
            case ExchangeRequest(code, _, _, _) =>
              var d := Digest(call.settings.generation, code);
              && d in a.codes && b.codes == a.codes[d := a.codes[d].(consumed := Some(now))]
              && e in b.refresh && b.refresh == a.refresh[e := b.refresh[e]] && e !in a.refresh
            case RotateRequest(token, _, _, _) =>
              var d := Digest(call.settings.generation, token);
              && d in a.refresh && b.codes == a.codes
              && e in b.refresh && e !in a.refresh
              && b.refresh == a.refresh[d := a.refresh[d].(consumed := Some(now))][e := b.refresh[e]]
            case _ => false
  {
    if call.request.ExchangeRequest? { ExchangeStampsCode(a, call); }
  }

  lemma ExchangeStampsCode(a: Auth, call: Call)
    requires Respond(a, call).reply.Pair? && FreshOk(a) && call.request.ExchangeRequest?
    ensures var b := Respond(a, call).auth;
            var d := Digest(call.settings.generation, call.request.code);
            var e := Digest(call.settings.generation, Respond(a, call).reply.refresh);
            && d in a.codes && b.codes == a.codes[d := a.codes[d].(consumed := Some(call.now))]
            && e in b.refresh && b.refresh == a.refresh[e := b.refresh[e]] && e !in a.refresh
  {
  }

  // ---------------------------------------------------------------------
  // Clean-up

  /** Issuing a code deletes exactly what expired before, and the tokens of the families
      that went; everything else stays as it was. */
  lemma IssueCleansUp(a: Auth, call: Call)
    requires call.request.IssueRequest? && Respond(a, call).reply.CodeIssued? && FreshOk(a)
    ensures var b, now := Respond(a, call).auth, call.now;
            var added := Digest(call.settings.generation, Respond(a, call).reply.code);
            && added !in a.codes && added in b.codes
            && (forall d :: d in b.codes && d != added ==> d in a.codes && b.codes[d] == a.codes[d])
            && (forall d :: d in a.codes ==> (d in b.codes <==> now <= a.codes[d].expires))
            && (forall f :: f in b.families <==> f in a.families && now <= a.families[f].expires)
            && (forall f :: f in b.families ==> b.families[f] == a.families[f])
            && (forall d :: d in b.access <==>
                  d in a.access && now <= a.access[d].expires && a.access[d].family in b.families)
            && (forall d :: d in b.access ==> b.access[d] == a.access[d])
            && (forall d :: d in b.refresh <==> d in a.refresh && a.refresh[d].family in b.families)
            && (forall d :: d in b.refresh ==> b.refresh[d] == a.refresh[d])
  {
  }
}
