/** How long the two tokens of an issued pair are accepted: until they expire, their
    family is ended, or the refresh token is used. */
module OAuthAcceptance {
  import opened Options
  import opened OAuthSpec
  import opened OAuthProofs
  import opened OAuthTheorems

  // ---------------------------------------------------------------------
  // What ends a family

  /** The call revokes a token of the family or replays one of its consumed refresh tokens. */
  ghost predicate Ends(a: Auth, call: Call, f: FamilyId) {
    || (call.request.RevokeRequest? && BelongsTo(a, Digest(call.settings.generation, call.request.token), f))
    || (IsReplay(a, call) && a.refresh[Digest(call.settings.generation, call.request.token)].family == f)
  }

  ghost predicate Ended(a: Auth, calls: seq<Call>, f: FamilyId) {
    exists i :: 0 <= i < |calls| && Ends(Execute(a, calls[..i]), calls[i], f)
  }

  /** The call rotates the refresh token. */
  ghost predicate Uses(a: Auth, call: Call, d: Digest) {
    && call.request.RotateRequest? && Digest(call.settings.generation, call.request.token) == d
    && Respond(a, call).reply.Pair?
  }

  ghost predicate Used(a: Auth, calls: seq<Call>, d: Digest) {
    exists i :: 0 <= i < |calls| && Uses(Execute(a, calls[..i]), calls[i], d)
  }

  lemma EndsKills(a: Auth, call: Call, f: FamilyId)
    requires Ends(a, call, f) && FreshOk(a) && f < a.issued
    ensures Dead(Respond(a, call).auth, f)
  {
    hide FreshOk, Dead, Compromised, Rotated, Revoke;
    if call.request.RevokeRequest? {
      RevokeKills(a, call.settings, call.now, call.request.token, f);
    } else {
      ReplayKills(a, call);
    }
  }

  lemma ExecuteSplit(a: Auth, calls: seq<Call>, i: nat)
    requires i < |calls|
    ensures Execute(a, calls) == Execute(Respond(Execute(a, calls[..i]), calls[i]).auth, calls[i + 1..])
  {
    hide Respond;
    var first := calls[..i + 1];
    assert first[..|first| - 1] == calls[..i] && first[|first| - 1] == calls[i];
    assert calls == first + calls[i + 1..];
    ExecuteConcat(a, first, calls[i + 1..]);
  }

  lemma EndedIsDead(a: Auth, calls: seq<Call>, f: FamilyId)
    requires Ended(a, calls, f) && f < a.issued
    requires forall i :: 0 <= i < |calls| ==> FreshOk(Execute(a, calls[..i]))
    ensures Dead(Execute(a, calls), f)
  {
    var i :| 0 <= i < |calls| && Ends(Execute(a, calls[..i]), calls[i], f);
    var x := Execute(a, calls[..i]);
    hide Execute, Respond, FreshOk, Later, Ends, Dead;
    ExecuteLater(a, calls[..i]);
    LaterIssued(a, x);
    EndsKills(x, calls[i], f);
    ExecuteSplit(a, calls, i);
    ExecuteLater(Respond(x, calls[i]).auth, calls[i + 1..]);
    DeadForever(Respond(x, calls[i]).auth, Execute(a, calls), f);
  }

  lemma LaterIssued(a: Auth, b: Auth)
    requires Later(a, b)
    ensures a.issued <= b.issued
  {
  }

  // ---------------------------------------------------------------------
  // The access token

  /** The fields of a family that no call changes. */
  datatype Origin = Origin(client: string, resource: string, generation: string)

  function OriginOf(f: Family): Origin {
    Origin(f.client, f.resource, f.generation)
  }

  /** The access token has its row and its family was not revoked. */
  ghost predicate Holds(a: Auth, d: Digest, row: Access, origin: Origin) {
    && d in a.access && a.access[d] == row && row.revoked.None? && d.token < a.issued && row.family < a.issued
    && row.family in a.families && a.families[row.family].revoked.None?
    && OriginOf(a.families[row.family]) == origin
  }

  lemma CleanedHolds(a: Auth, clock: int, now: int, d: Digest, row: Access, origin: Origin)
    requires Holds(a, d, row, origin) && AccessesOk(a, clock) && now <= row.expires
    ensures Holds(Cleaned(a, now), d, row, origin)
  {
    assert AccessOk(a.families, a.refresh, clock, d, a.access[d]);
  }

  lemma HoldsStep(a: Auth, clock: int, call: Call, d: Digest, row: Access, origin: Origin)
    requires Holds(a, d, row, origin) && FreshOk(a) && AccessesOk(a, clock)
    requires !Ends(a, call, row.family) && call.now <= row.expires
    ensures Holds(Respond(a, call).auth, d, row, origin)
  {
    hide AccessesOk, Cleaned;
    if call.request.IssueRequest? {
      CleanedHolds(a, clock, call.now, d, row, origin);
      CleanedIssued(a, call.now);
    }
  }

  lemma {:induction false} HoldsLong(a: Auth, calls: seq<Call>, clock: int, d: Digest, row: Access, origin: Origin)
    requires Holds(a, d, row, origin) && !Ended(a, calls, row.family)
    requires forall i :: 0 <= i < |calls| ==>
               && calls[i].now <= row.expires
               && FreshOk(Execute(a, calls[..i])) && AccessesOk(Execute(a, calls[..i]), clock)
    ensures Holds(Execute(a, calls), d, row, origin)
  {
    hide Respond, FreshOk, AccessesOk, Holds, Ends;
    if calls != [] {
      var n := |calls| - 1;
      forall i | 0 <= i < n
        ensures calls[..n][..i] == calls[..i] && !Ends(Execute(a, calls[..n][..i]), calls[..n][i], row.family)
      {
        assert calls[..n][..i] == calls[..i];
      }
      HoldsLong(a, calls[..n], clock, d, row, origin);
      HoldsStep(Execute(a, calls[..n]), clock, calls[n], d, row, origin);
    }
  }

  // ---------------------------------------------------------------------
  // The refresh token

  /** The refresh token has its unconsumed row and its family, not revoked, expires with it. */
  ghost predicate Waits(a: Auth, d: Digest, row: Refresh, origin: Origin) {
    && d in a.refresh && a.refresh[d] == row && row.revoked.None? && row.consumed.None?
    && d.token < a.issued && row.family < a.issued
    && row.family in a.families && a.families[row.family].revoked.None?
    && OriginOf(a.families[row.family]) == origin && a.families[row.family].expires == row.expires
  }

  lemma CleanedWaits(a: Auth, now: int, d: Digest, row: Refresh, origin: Origin)
    requires Waits(a, d, row, origin) && now <= row.expires
    ensures Waits(Cleaned(a, now), d, row, origin)
  {
  }

  lemma OnlyOneWaits(a: Auth, d: Digest, row: Refresh, origin: Origin, e: Digest)
    requires Waits(a, d, row, origin) && ChainOk(a.refresh)
    requires e in a.refresh && a.refresh[e].family == row.family && a.refresh[e].consumed.None?
    ensures e == d
  {
    assert Linked(d, a.refresh[d], e, a.refresh[e]) && Linked(e, a.refresh[e], d, a.refresh[d]);
  }

  lemma RotateElsewhere(a: Auth, call: Call, d: Digest, row: Refresh, origin: Origin)
    requires Waits(a, d, row, origin) && FreshOk(a) && ChainOk(a.refresh) && call.request.RotateRequest?
    requires !Ends(a, call, row.family) && !Uses(a, call, d)
    ensures Waits(Respond(a, call).auth, d, row, origin)
  {
    var e := Digest(call.settings.generation, call.request.token);
    hide ChainOk;
    if e in a.refresh && a.refresh[e].family == row.family && a.refresh[e].consumed.None? {
      OnlyOneWaits(a, d, row, origin, e);
    }
  }

  lemma WaitsStep(a: Auth, call: Call, d: Digest, row: Refresh, origin: Origin)
    requires Waits(a, d, row, origin) && FreshOk(a) && ChainOk(a.refresh)
    requires !Ends(a, call, row.family) && !Uses(a, call, d) && call.now <= row.expires
    ensures Waits(Respond(a, call).auth, d, row, origin)
  {
    hide ChainOk, Cleaned;
    if call.request.IssueRequest? {
      CleanedWaits(a, call.now, d, row, origin);
      CleanedIssued(a, call.now);
    } else if call.request.RotateRequest? {
      RotateElsewhere(a, call, d, row, origin);
    }
  }

  lemma {:induction false} WaitsLong(a: Auth, calls: seq<Call>, d: Digest, row: Refresh, origin: Origin)
    requires Waits(a, d, row, origin) && !Ended(a, calls, row.family) && !Used(a, calls, d)
    requires forall i :: 0 <= i < |calls| ==>
               && calls[i].now <= row.expires
               && FreshOk(Execute(a, calls[..i])) && ChainOk(Execute(a, calls[..i]).refresh)
    ensures Waits(Execute(a, calls), d, row, origin)
  {
    hide Respond, FreshOk, ChainOk, Waits, Ends, Uses;
    if calls != [] {
      var n := |calls| - 1;
      forall i | 0 <= i < n
        ensures calls[..n][..i] == calls[..i] && !Ends(Execute(a, calls[..n][..i]), calls[..n][i], row.family)
                && !Uses(Execute(a, calls[..n][..i]), calls[..n][i], d)
      {
        assert calls[..n][..i] == calls[..i];
      }
      WaitsLong(a, calls[..n], d, row, origin);
      WaitsStep(Execute(a, calls[..n]), calls[n], d, row, origin);
    }
  }

  // ---------------------------------------------------------------------
  // From issue to any later point

  /** What an accepted exchange or rotation hands out. */
  ghost predicate Issued(a: Auth, call: Call, d: Digest, access: Access, e: Digest, refresh: Refresh, origin: Origin) {
    && Respond(a, call).reply.Pair?
    && d == Digest(call.settings.generation, Respond(a, call).reply.access)
    && e == Digest(call.settings.generation, Respond(a, call).reply.refresh)
    && access.scopes == Respond(a, call).reply.scopes && access.expires == call.now + call.settings.accessTtl
    && refresh.scopes == access.scopes && refresh.expires == call.now + call.settings.refreshTtl
    && refresh.family == access.family
    && origin.resource == call.settings.resource && origin.generation == call.settings.generation
    && Holds(Respond(a, call).auth, d, access, origin) && Waits(Respond(a, call).auth, e, refresh, origin)
  }

  lemma ExchangeIssues(a: Auth, call: Call, d: Digest, access: Access, e: Digest, refresh: Refresh, origin: Origin)
    requires Respond(a, call).reply.Pair? && call.request.ExchangeRequest? && FreshOk(a)
    requires var b, reply := Respond(a, call).auth, Respond(a, call).reply;
             && d == Digest(call.settings.generation, reply.access)
             && e == Digest(call.settings.generation, reply.refresh)
             && access == b.access[d] && refresh == b.refresh[e] && access.family in b.families
             && origin == OriginOf(b.families[access.family])
    ensures Issued(a, call, d, access, e, refresh, origin)
  {
  }

  lemma RotateIssues(a: Auth, call: Call, d: Digest, access: Access, e: Digest, refresh: Refresh, origin: Origin)
    requires Respond(a, call).reply.Pair? && call.request.RotateRequest? && FreshOk(a)
    requires var b, reply := Respond(a, call).auth, Respond(a, call).reply;
             && d == Digest(call.settings.generation, reply.access)
             && e == Digest(call.settings.generation, reply.refresh)
             && access == b.access[d] && refresh == b.refresh[e] && access.family in b.families
             && origin == OriginOf(b.families[access.family])
    ensures Issued(a, call, d, access, e, refresh, origin)
  {
  }

  lemma PairHasRows(a: Auth, call: Call)
    requires Respond(a, call).reply.Pair?
    ensures call.request.ExchangeRequest? || call.request.RotateRequest?
    ensures var b, reply := Respond(a, call).auth, Respond(a, call).reply;
            var d, e := Digest(call.settings.generation, reply.access), Digest(call.settings.generation, reply.refresh);
            d in b.access && e in b.refresh && b.access[d].family in b.families
  {
  }

  lemma PairIsIssued(a: Auth, call: Call)
    returns (d: Digest, access: Access, e: Digest, refresh: Refresh, origin: Origin)
    requires Respond(a, call).reply.Pair? && FreshOk(a)
    ensures Issued(a, call, d, access, e, refresh, origin)
  {
    hide *;
    PairHasRows(a, call);
    var b := Respond(a, call).auth;
    var s := call.settings;
    d, e := Digest(s.generation, Respond(a, call).reply.access), Digest(s.generation, Respond(a, call).reply.refresh);
    access, refresh := b.access[d], b.refresh[e];
    origin := OriginOf(b.families[access.family]);
    if call.request.ExchangeRequest? {
      ExchangeIssues(a, call, d, access, e, refresh, origin);
    } else {
      RotateIssues(a, call, d, access, e, refresh, origin);
    }
  }

  lemma PrefixInv(before: seq<Call>, call: Call, after: seq<Call>, later: int, i: nat)
    requires Timely(before + [call] + after) && NotAfter(before + [call] + after, later) && i <= |after|
    ensures AuthInv(Execute(Respond(Execute(EMPTY_AUTH, before), call).auth, after[..i]), later)
  {
    var all := before + [call] + after;
    var some := before + [call] + after[..i];
    assert some == all[..|before| + 1 + i];
    TimelyPrefix(all, |before| + 1 + i);
    AfterAllIs(before, call, after[..i]);
    hide Respond, AuthInv, Execute, Timely;
    ReachableInv(some, later);
  }

  lemma InvParts(a: Auth, clock: int)
    requires AuthInv(a, clock)
    ensures FreshOk(a) && AccessesOk(a, clock) && ChainOk(a.refresh)
  {
    hide FreshOk, AccessesOk, ChainOk, RefreshesOk, FamiliesOk;
  }

  lemma PrefixParts(before: seq<Call>, call: Call, after: seq<Call>, later: int)
    requires Timely(before + [call] + after) && NotAfter(before + [call] + after, later)
    ensures var r := Respond(Execute(EMPTY_AUTH, before), call).auth;
            forall i :: 0 <= i <= |after| ==>
              && FreshOk(Execute(r, after[..i])) && AccessesOk(Execute(r, after[..i]), later)
              && ChainOk(Execute(r, after[..i]).refresh)
    ensures FreshOk(Execute(EMPTY_AUTH, before))
  {
    var r := Respond(Execute(EMPTY_AUTH, before), call).auth;
    var all := before + [call] + after;
    TimelyPrefix(all, |before|);
    assert all[..|before|] == before;
    hide Respond, AuthInv, Execute, Timely, NotAfter, FreshOk, AccessesOk, ChainOk;
    FreshAt(before);
    forall i | 0 <= i <= |after|
      ensures FreshOk(Execute(r, after[..i])) && AccessesOk(Execute(r, after[..i]), later)
              && ChainOk(Execute(r, after[..i]).refresh)
    {
      PrefixInv(before, call, after, later, i);
      InvParts(Execute(r, after[..i]), later);
    }
  }

  lemma AfterClock(before: seq<Call>, call: Call, after: seq<Call>, later: int)
    requires NotAfter(before + [call] + after, later)
    ensures forall i :: 0 <= i < |after| ==> after[i].now <= later
  {
    assert forall i :: 0 <= i < |after| ==> (before + [call] + after)[|before| + 1 + i] == after[i];
  }

  // ---------------------------------------------------------------------
  // The two theorems

  lemma HoldsVerifies(a: Auth, clock: int, s: Settings, later: int, token: Token, row: Access, origin: Origin)
    requires Holds(a, Digest(s.generation, token), row, origin) && AccessesOk(a, clock) && later < row.expires
    requires s.generation == origin.generation && s.resource == origin.resource
    ensures Verify(a, s, later, token) == Verified(origin.client, row.scopes, row.expires, origin.resource)
  {
    assert AccessOk(a.families, a.refresh, clock, Digest(s.generation, token), row);
  }

  lemma ExpiredRefused(a: Auth, b: Auth, s: Settings, later: int, token: Token, row: Access, origin: Origin)
    requires Holds(a, Digest(s.generation, token), row, origin) && Later(a, b) && row.expires <= later
    ensures Verify(b, s, later, token) == Unverified
  {
  }

  lemma DeadUnverified(a: Auth, b: Auth, s: Settings, later: int, token: Token, row: Access, origin: Origin)
    requires Holds(a, Digest(s.generation, token), row, origin) && Later(a, b) && Dead(b, row.family)
    ensures Verify(b, s, later, token) == Unverified
  {
  }

  /** At any later point of any run the access token of an issued pair is accepted exactly
      when it has not expired and no call in between ended its family; it is then accepted
      with the scopes of the pair. */
  lemma AcceptedUntilEnded(before: seq<Call>, call: Call, after: seq<Call>, s: Settings, later: int)
    requires Timely(before + [call] + after) && NotAfter(before + [call] + after, later)
    requires Respond(Execute(EMPTY_AUTH, before), call).reply.Pair?
    requires s.generation == call.settings.generation && s.resource == call.settings.resource
    ensures var r := Respond(Execute(EMPTY_AUTH, before), call);
            var d := Digest(s.generation, r.reply.access);
            var v := Verify(Execute(r.auth, after), s, later, r.reply.access);
            && d in r.auth.access
            && (v.Verified? <==>
                  later < call.now + call.settings.accessTtl && !Ended(r.auth, after, r.auth.access[d].family))
            && (v.Verified? ==>
                  v.scopes == r.reply.scopes && v.expires == call.now + call.settings.accessTtl
                  && v.resource == call.settings.resource)
  {
    var a := Execute(EMPTY_AUTH, before);
    var r := Respond(a, call).auth;
    var token := Respond(a, call).reply.access;
    hide *;
    PrefixParts(before, call, after, later);
    AfterClock(before, call, after, later);
    var d, access, e, refresh, origin := PairIsIssued(a, call);
    IssuedMeans(a, call, d, access, e, refresh, origin);
    HoldsMeans(r, d, access, origin);
    var b := Execute(r, after);
    assert after[..|after|] == after;
    ExecuteLater(r, after);
    if call.now + call.settings.accessTtl <= later {
      ExpiredRefused(r, b, s, later, token, access, origin);
    } else if Ended(r, after, access.family) {
      EndedIsDead(r, after, access.family);
      DeadUnverified(r, b, s, later, token, access, origin);
    } else {
      HoldsLong(r, after, later, d, access, origin);
      HoldsVerifies(b, later, s, later, token, access, origin);
    }
  }

  lemma IssuedMeans(a: Auth, call: Call, d: Digest, access: Access, e: Digest, refresh: Refresh, origin: Origin)
    requires Issued(a, call, d, access, e, refresh, origin)
    ensures Respond(a, call).reply.Pair?
    ensures d == Digest(call.settings.generation, Respond(a, call).reply.access)
    ensures e == Digest(call.settings.generation, Respond(a, call).reply.refresh)
    ensures access.scopes == Respond(a, call).reply.scopes && access.expires == call.now + call.settings.accessTtl
    ensures refresh.scopes == access.scopes && refresh.expires == call.now + call.settings.refreshTtl
    ensures refresh.family == access.family
    ensures origin.resource == call.settings.resource && origin.generation == call.settings.generation
    ensures Holds(Respond(a, call).auth, d, access, origin) && Waits(Respond(a, call).auth, e, refresh, origin)
  {
    hide Respond, Holds, Waits;
  }

  lemma HoldsMeans(a: Auth, d: Digest, row: Access, origin: Origin)
    requires Holds(a, d, row, origin)
    ensures d in a.access && a.access[d] == row && row.family < a.issued
  {
  }

  lemma WaitsMeans(a: Auth, d: Digest, row: Refresh, origin: Origin)
    requires Waits(a, d, row, origin)
    ensures d in a.refresh && a.refresh[d] == row && row.family < a.issued && row.family in a.families
    ensures a.families[row.family].client == origin.client && a.families[row.family].resource == origin.resource
  {
  }

  lemma WaitsRotates(a: Auth, s: Settings, later: int, token: Token, row: Refresh, origin: Origin)
    requires Waits(a, Digest(s.generation, token), row, origin) && later < row.expires
    requires s.generation == origin.generation && s.resource == origin.resource && s.KnowsClient(origin.client)
    ensures Rotate(a, s, later, token, origin.client, origin.resource, None).reply.Pair?
  {
    hide Rotated;
  }

  lemma ExpiredStays(a: Auth, b: Auth, s: Settings, later: int, token: Token, row: Refresh, origin: Origin)
    requires Waits(a, Digest(s.generation, token), row, origin) && Later(a, b) && row.expires <= later
    ensures Rotate(b, s, later, token, origin.client, origin.resource, None).reply.Denied?
  {
    hide Rotated;
  }

  lemma DeadStays(a: Auth, b: Auth, s: Settings, later: int, token: Token, row: Refresh, origin: Origin)
    requires Waits(a, Digest(s.generation, token), row, origin) && Later(a, b) && Dead(b, row.family)
    ensures Rotate(b, s, later, token, origin.client, origin.resource, None).reply.Denied?
  {
    hide Rotated;
  }

  lemma ConsumedStays(b: Auth, s: Settings, later: int, token: Token, client: string, resource: string)
    requires var d := Digest(s.generation, token); d in b.refresh ==> b.refresh[d].consumed.Some?
    ensures Rotate(b, s, later, token, client, resource, None).reply.Denied?
  {
    hide Rotated, Compromised;
  }

  lemma UsedIsConsumed(a: Auth, calls: seq<Call>, d: Digest)
    requires Used(a, calls, d) && d in a.refresh && forall i :: 0 <= i < |calls| ==> FreshOk(Execute(a, calls[..i]))
    ensures d in Execute(a, calls).refresh ==> Execute(a, calls).refresh[d].consumed.Some?
  {
    var i :| 0 <= i < |calls| && Uses(Execute(a, calls[..i]), calls[i], d);
    var x := Execute(a, calls[..i]);
    hide Execute, FreshOk, Rotated;
    RotatedToken(x, calls[i]);
    ExecuteSplit(a, calls, i);
    ExecuteLater(Respond(x, calls[i]).auth, calls[i + 1..]);
  }

  /** And its refresh token is accepted exactly when it has not expired, was not used
      and no call in between ended its family. */
  lemma RotatableUntilUsed(before: seq<Call>, call: Call, after: seq<Call>, s: Settings, later: int)
    requires Timely(before + [call] + after) && NotAfter(before + [call] + after, later)
    requires Respond(Execute(EMPTY_AUTH, before), call).reply.Pair?
    requires s.generation == call.settings.generation && s.resource == call.settings.resource
    ensures var r := Respond(Execute(EMPTY_AUTH, before), call);
            var e := Digest(s.generation, r.reply.refresh);
            && e in r.auth.refresh && r.auth.refresh[e].family in r.auth.families
            && var f := r.auth.refresh[e].family;
               var client := r.auth.families[f].client;
               s.KnowsClient(client) ==>
                 (Rotate(Execute(r.auth, after), s, later, r.reply.refresh, client, s.resource, None).reply.Pair? <==>
                    && later < call.now + call.settings.refreshTtl
                    && !Ended(r.auth, after, f) && !Used(r.auth, after, e))
  {
    var a := Execute(EMPTY_AUTH, before);
    var r := Respond(a, call).auth;
    var token := Respond(a, call).reply.refresh;
    hide *;
    PrefixParts(before, call, after, later);
    AfterClock(before, call, after, later);
    var d, access, e, refresh, origin := PairIsIssued(a, call);
    IssuedMeans(a, call, d, access, e, refresh, origin);
    WaitsMeans(r, e, refresh, origin);
    var b := Execute(r, after);
    ExecuteLater(r, after);
    if call.now + call.settings.refreshTtl <= later {
      ExpiredStays(r, b, s, later, token, refresh, origin);
    } else if Ended(r, after, refresh.family) {
      EndedIsDead(r, after, refresh.family);
      DeadStays(r, b, s, later, token, refresh, origin);
    } else if Used(r, after, e) {
      UsedIsConsumed(r, after, e);
      ConsumedStays(b, s, later, token, origin.client, s.resource);
    } else if s.KnowsClient(origin.client) {
      WaitsLong(r, after, e, refresh, origin);
      WaitsRotates(b, s, later, token, refresh, origin);
    }
  }
}
