/** The promises of section 6 of RFC 6749 and section 4.14.2 of RFC 9700 over
    every run of the server. */
module OAuthTheorems {
  import opened Options
  import opened OAuthSpec
  import opened OAuthProofs

  // ---------------------------------------------------------------------
  // What later tables may say about earlier rows

  ghost predicate CodesLater(codes: map<Digest, Code>, next: map<Digest, Code>, issued: nat) {
    forall d :: d in next && d.token < issued ==>
      && d in codes && (codes[d].consumed.Some? ==> next[d].consumed.Some?)
      && SameBinding(codes[d], next[d])
  }

  /** What a code is bound to never changes. */
  ghost predicate SameBinding(x: Code, y: Code) {
    x.(consumed := None) == y.(consumed := None)
  }

  ghost predicate FamiliesLater(families: map<FamilyId, Family>, next: map<FamilyId, Family>, issued: nat) {
    forall f :: f in next && f < issued ==>
      f in families && next[f].scopes == families[f].scopes && (families[f].revoked.Some? ==> next[f].revoked.Some?)
  }

  ghost predicate AccessLater(access: map<Digest, Access>, next: map<Digest, Access>, issued: nat) {
    forall d :: d in next && d.token < issued ==>
      && d in access && next[d].family == access[d].family && next[d].scopes == access[d].scopes
      && next[d].expires == access[d].expires
  }

  ghost predicate RefreshLater(refresh: map<Digest, Refresh>, next: map<Digest, Refresh>, issued: nat) {
    forall d :: d in next && d.token < issued ==>
      && d in refresh && next[d].family == refresh[d].family && next[d].scopes == refresh[d].scopes
      && next[d].expires == refresh[d].expires && (refresh[d].consumed.Some? ==> next[d].consumed.Some?)
  }

  /** Rows disappear or keep what matters; numbers are never handed out twice. */
  ghost predicate Later(a: Auth, b: Auth) {
    && a.issued <= b.issued
    && CodesLater(a.codes, b.codes, a.issued)
    && FamiliesLater(a.families, b.families, a.issued)
    && AccessLater(a.access, b.access, a.issued)
    && RefreshLater(a.refresh, b.refresh, a.issued)
  }

  lemma LaterSelf(a: Auth)
    ensures Later(a, a)
  {
  }

  lemma LaterTransitive(a: Auth, b: Auth, c: Auth)
    requires Later(a, b) && Later(b, c)
    ensures Later(a, c)
  {
    assert CodesLater(a.codes, c.codes, a.issued);
    assert FamiliesLater(a.families, c.families, a.issued);
    assert AccessLater(a.access, c.access, a.issued);
    assert RefreshLater(a.refresh, c.refresh, a.issued);
  }

  lemma CleanedLater(a: Auth, now: int)
    ensures Later(a, Cleaned(a, now))
  {
  }

  lemma RotatedLater(a: Auth, s: Settings, now: int, f: FamilyId, scopes: set<Scope>)
    requires f in a.families
    ensures Later(a, Rotated(a, s, now, f, scopes))
  {
  }

  lemma AddedFamilyLater(a: Auth, d: Digest, now: int, family: Family)
    requires d in a.codes
    ensures Later(a, a.(codes := a.codes[d := a.codes[d].(consumed := Some(now))],
                        families := a.families[a.issued := family], issued := a.issued + 1))
  {
  }

  lemma OpenedLater(a: Auth, s: Settings, now: int, code: Token)
    requires Digest(s.generation, code) in a.codes
    ensures Later(a, Opened(a, s, now, code))
  {
    hide Later, Rotated;
    var d := Digest(s.generation, code);
    var c := a.codes[d];
    var family := Family(c.client.id, c.resource, c.scopes, s.generation, now + s.refreshTtl, None, None);
    var b := a.(codes := a.codes[d := c.(consumed := Some(now))], families := a.families[a.issued := family],
                issued := a.issued + 1);
    AddedFamilyLater(a, d, now, family);
    RotatedLater(b, s, now, a.issued, c.scopes);
    LaterTransitive(a, b, Opened(a, s, now, code));
  }

  lemma ConsumedLater(a: Auth, d: Digest, now: int)
    requires d in a.refresh
    ensures Later(a, a.(refresh := a.refresh[d := a.refresh[d].(consumed := Some(now))]))
  {
  }

  lemma RevokeFamilyLater(a: Auth, f: FamilyId, now: int)
    ensures Later(a, RevokeFamily(a, f, now))
  {
  }

  lemma AccessStampLater(a: Auth, d: Digest, stamp: Option<int>)
    requires d in a.access
    ensures Later(a, a.(access := a.access[d := a.access[d].(revoked := stamp)]))
  {
  }

  lemma RefreshStampLater(a: Auth, d: Digest, stamp: Option<int>)
    requires d in a.refresh
    ensures Later(a, a.(refresh := a.refresh[d := a.refresh[d].(revoked := stamp)]))
  {
  }

  lemma RevokeAccessLater(a: Auth, d: Digest, now: int)
    ensures Later(a, RevokeAccess(a, d, now))
  {
    hide Later, RevokeFamily;
    if d in a.access {
      var x := a.(access := a.access[d := a.access[d].(revoked := Mark(a.access[d].revoked, now))]);
      AccessStampLater(a, d, Mark(a.access[d].revoked, now));
      RevokeFamilyLater(x, a.access[d].family, now);
      LaterTransitive(a, x, RevokeAccess(a, d, now));
    } else {
      LaterSelf(a);
    }
  }

  lemma RevokeRefreshLater(a: Auth, d: Digest, now: int)
    ensures Later(a, RevokeRefresh(a, d, now))
  {
    hide Later, RevokeFamily;
    if d in a.refresh {
      var x := a.(refresh := a.refresh[d := a.refresh[d].(revoked := Mark(a.refresh[d].revoked, now))]);
      RefreshStampLater(a, d, Mark(a.refresh[d].revoked, now));
      RevokeFamilyLater(x, a.refresh[d].family, now);
      LaterTransitive(a, x, RevokeRefresh(a, d, now));
    } else {
      LaterSelf(a);
    }
  }

  lemma RevokeLater(a: Auth, s: Settings, now: int, token: Token)
    ensures Later(a, Revoke(a, s, now, token))
  {
    hide Later, RevokeAccess, RevokeRefresh;
    var d := Digest(s.generation, token);
    var b := RevokeAccess(a, d, now);
    RevokeAccessLater(a, d, now);
    RevokeRefreshLater(b, d, now);
    LaterTransitive(a, b, Revoke(a, s, now, token));
  }

  lemma CompromisedLater(a: Auth, f: FamilyId, now: int)
    requires f in a.families
    ensures Later(a, Compromised(a, f, now))
  {
  }

  lemma IssuedLater(a: Auth, s: Settings, code: Code)
    ensures Later(a, a.(codes := a.codes[Digest(s.generation, a.issued) := code], issued := a.issued + 1))
  {
  }

  lemma RespondLater(a: Auth, call: Call)
    ensures Later(a, Respond(a, call).auth)
  {
    var s, now := call.settings, call.now;
    hide Later, Rotated, Opened, Cleaned, Compromised, Revoke;
    LaterSelf(a);
    match call.request
    case IssueRequest(client, resource, scopes, challenge) =>
      var c := Cleaned(a, now);
      CleanedIssued(a, now);
      CleanedLater(a, now);
      var code := Code(client, resource, scopes, challenge, s.generation, now + s.codeTtl, None);
      IssuedLater(c, s, code);
      LaterTransitive(a, c, c.(codes := c.codes[Digest(s.generation, c.issued) := code], issued := c.issued + 1));
    case ExchangeRequest(code, client, resource, verifier) =>
      if Digest(s.generation, code) in a.codes { OpenedLater(a, s, now, code); }
    case RotateRequest(token, client, resource, requested) =>
      var d := Digest(s.generation, token);
      if d in a.refresh && a.refresh[d].family in a.families {
        CompromisedLater(a, a.refresh[d].family, now);
        var b := a.(refresh := a.refresh[d := a.refresh[d].(consumed := Some(now))]);
        ConsumedLater(a, d, now);
        var scopes := if requested.Some? then requested.value else a.refresh[d].scopes;
        RotatedLater(b, s, now, a.refresh[d].family, scopes);
        LaterTransitive(a, b, Rotated(b, s, now, a.refresh[d].family, scopes));
      }
    case VerifyRequest(token) =>
    case RevokeRequest(token) => RevokeLater(a, s, now, token);
  }

  lemma {:induction false} ExecuteLater(a: Auth, calls: seq<Call>)
    ensures Later(a, Execute(a, calls))
  {
    hide Later, Respond;
    if calls == [] {
      LaterSelf(a);
    } else {
      var b := Execute(a, calls[..|calls| - 1]);
      ExecuteLater(a, calls[..|calls| - 1]);
      RespondLater(b, calls[|calls| - 1]);
      LaterTransitive(a, b, Execute(a, calls));
    }
  }

  // ---------------------------------------------------------------------
  // Invariants over every run

  /** Each family has at most one refresh token that was not consumed. */
  lemma OneLiveRefreshToken(calls: seq<Call>, d: Digest, e: Digest)
    requires Timely(calls)
    requires d in Execute(EMPTY_AUTH, calls).refresh && e in Execute(EMPTY_AUTH, calls).refresh
    requires Execute(EMPTY_AUTH, calls).refresh[d].family == Execute(EMPTY_AUTH, calls).refresh[e].family
    requires Execute(EMPTY_AUTH, calls).refresh[d].consumed.None?
    requires Execute(EMPTY_AUTH, calls).refresh[e].consumed.None?
    ensures d == e
  {
    hide Execute, Timely;
    var a := Execute(EMPTY_AUTH, calls);
    Chain(calls);
    assert Linked(d, a.refresh[d], e, a.refresh[e]) && Linked(e, a.refresh[e], d, a.refresh[d]);
  }

  ghost function LastClock(calls: seq<Call>): (clock: int)
    requires Timely(calls)
    ensures NotAfter(calls, clock)
  {
    if calls == [] then 0 else calls[|calls| - 1].now
  }

  lemma Chain(calls: seq<Call>)
    requires Timely(calls)
    ensures ChainOk(Execute(EMPTY_AUTH, calls).refresh)
  {
    hide Execute, FreshOk, AccessesOk, RefreshesOk, ChainOk, FamiliesOk, NotAfter, LastClock, Timely;
    ReachableInv(calls, LastClock(calls));
  }

  /** Along the rotation chain of a family scopes only shrink. */
  lemma ScopesShrink(calls: seq<Call>, d: Digest, e: Digest)
    requires Timely(calls)
    requires d in Execute(EMPTY_AUTH, calls).refresh && e in Execute(EMPTY_AUTH, calls).refresh && d.token < e.token
    requires Execute(EMPTY_AUTH, calls).refresh[d].family == Execute(EMPTY_AUTH, calls).refresh[e].family
    ensures Execute(EMPTY_AUTH, calls).refresh[e].scopes <= Execute(EMPTY_AUTH, calls).refresh[d].scopes
  {
    hide Execute, Timely;
    var a := Execute(EMPTY_AUTH, calls);
    Chain(calls);
    assert Linked(d, a.refresh[d], e, a.refresh[e]);
  }

  /** Every access token expires no later than its family, so deleting expired
      families never removes a usable access token. */
  lemma FamilyOutlivesAccess(calls: seq<Call>, d: Digest)
    requires Timely(calls) && d in Execute(EMPTY_AUTH, calls).access
    ensures var a := Execute(EMPTY_AUTH, calls);
            a.access[d].family in a.families && a.access[d].expires <= a.families[a.access[d].family].expires
  {
    hide Execute, Timely, FreshOk, RefreshesOk, ChainOk, FamiliesOk, NotAfter, LastClock;
    var a := Execute(EMPTY_AUTH, calls);
    var clock := LastClock(calls);
    ReachableInv(calls, clock);
    assert AccessOk(a.families, a.refresh, clock, d, a.access[d]);
  }

  // ---------------------------------------------------------------------
  // Single use

  lemma {:induction false} ExecuteConcat(a: Auth, x: seq<Call>, y: seq<Call>)
    ensures Execute(a, x + y) == Execute(Execute(a, x), y)
  {
    hide Respond;
    if y == [] {
      assert x + y == x;
    } else {
      var n := |y| - 1;
      ExecuteConcat(a, x, y[..n]);
      assert (x + y)[..|x + y| - 1] == x + y[..n];
    }
  }

  /** The tables after a run, one call, and another run. */
  ghost function AfterAll(before: seq<Call>, call: Call, after: seq<Call>): Auth {
    Execute(EMPTY_AUTH, before + [call] + after)
  }

  lemma AfterAllIs(before: seq<Call>, call: Call, after: seq<Call>)
    ensures AfterAll(before, call, after) == Execute(Respond(Execute(EMPTY_AUTH, before), call).auth, after)
  {
    hide Respond;
    ExecuteConcat(EMPTY_AUTH, before + [call], after);
    assert (before + [call])[..|before + [call]| - 1] == before;
  }

  lemma FreshAt(calls: seq<Call>)
    requires Timely(calls)
    ensures FreshOk(Execute(EMPTY_AUTH, calls))
  {
    hide Execute, FreshOk, AccessesOk, RefreshesOk, ChainOk, FamiliesOk, NotAfter, LastClock, Timely;
    ReachableInv(calls, LastClock(calls));
  }

  lemma ExchangedCode(a: Auth, call: Call)
    requires call.request.ExchangeRequest? && Respond(a, call).reply.Pair? && FreshOk(a)
    ensures var d := Digest(call.settings.generation, call.request.code);
            var b := Respond(a, call).auth;
            && d in b.codes && b.codes[d].consumed.Some? && d.token < b.issued
            && forall e :: e in b.codes && e.token == d.token ==> e == d
  {
  }

  /** A code that was exchanged once never yields another token pair, under any signing key. */
  lemma CodeIsSingleUse(before: seq<Call>, first: Call, between: seq<Call>, second: Call)
    requires Timely(before) && first.request.ExchangeRequest? && second.request.ExchangeRequest?
    requires Respond(Execute(EMPTY_AUTH, before), first).reply.Pair?
    requires first.request.code == second.request.code
    ensures Respond(AfterAll(before, first, between), second).reply.Denied?
  {
    hide Execute, FreshOk, AfterAll, Timely, Opened, Rotated;
    var a := Execute(EMPTY_AUTH, before);
    FreshAt(before);
    ExchangedCode(a, first);
    AfterAllIs(before, first, between);
    ExecuteLater(Respond(a, first).auth, between);
  }

  lemma RotatedToken(a: Auth, call: Call)
    requires call.request.RotateRequest? && Respond(a, call).reply.Pair? && FreshOk(a)
    ensures var d := Digest(call.settings.generation, call.request.token);
            var b := Respond(a, call).auth;
            && d in a.refresh && d in b.refresh && b.refresh[d].consumed.Some? && d.token < b.issued
            && b.refresh[d].family == a.refresh[d].family
            && forall e :: e in b.refresh && e.token == d.token ==> e == d
  {
  }

  /** A refresh token that was rotated once never yields another token pair, under any signing key. */
  lemma RefreshTokenIsSingleUse(before: seq<Call>, first: Call, between: seq<Call>, second: Call)
    requires Timely(before) && first.request.RotateRequest? && second.request.RotateRequest?
    requires Respond(Execute(EMPTY_AUTH, before), first).reply.Pair?
    requires first.request.token == second.request.token
    ensures Respond(AfterAll(before, first, between), second).reply.Denied?
  {
    hide Execute, FreshOk, AfterAll, Timely, Rotated;
    var a := Execute(EMPTY_AUTH, before);
    FreshAt(before);
    RotatedToken(a, first);
    AfterAllIs(before, first, between);
    ExecuteLater(Respond(a, first).auth, between);
  }

  /** A pair, from a code or from a rotation, carries an access token that is accepted
      with the pair's scopes until it expires, and a refresh token that may be rotated. */
  lemma IssuedPairIsAccepted(a: Auth, call: Call, later: int)
    requires call.settings.Valid() && Respond(a, call).reply.Pair? && FreshOk(a)
    requires later < call.now + call.settings.accessTtl
    ensures var b := Respond(a, call).auth;
            var pair := Respond(a, call).reply;
            var s := call.settings;
            var v := Verify(b, s, later, pair.access);
            && v.Verified? && v.scopes == pair.scopes && v.expires == call.now + s.accessTtl && v.resource == s.resource
            && Rotate(b, s, later, pair.refresh, v.client, s.resource, None).reply.Pair?
  {
    var s := call.settings;
    if call.request.ExchangeRequest? {
      assert s.KnowsClient(call.request.client.id);
    }
  }

  // ---------------------------------------------------------------------
  // Dead families

  /** A family that is revoked, or was deleted after having been issued. */
  ghost predicate Dead(a: Auth, f: FamilyId) {
    f < a.issued && (f in a.families ==> a.families[f].revoked.Some?)
  }

  lemma DeadForever(a: Auth, b: Auth, f: FamilyId)
    requires Dead(a, f) && Later(a, b)
    ensures Dead(b, f)
  {
  }

  /** The token, of either kind, belongs to the family in these tables. */
  ghost predicate BelongsTo(a: Auth, d: Digest, f: FamilyId) {
    (d in a.access && a.access[d].family == f) || (d in a.refresh && a.refresh[d].family == f)
  }

  /** Neither as an access token nor as a refresh token is the number accepted. */
  ghost predicate Refused(b: Auth, s: Settings, now: int, token: Token, client: string, resource: string,
                          requested: Option<set<Scope>>)
  {
    Verify(b, s, now, token) == Unverified && Rotate(b, s, now, token, client, resource, requested).reply.Denied?
  }

  lemma DeadIsRefused(a: Auth, b: Auth, f: FamilyId, s: Settings, now: int, token: Token, client: string,
                      resource: string, requested: Option<set<Scope>>)
    requires Dead(b, f) && Later(a, b) && FreshOk(a) && a.access.Keys !! a.refresh.Keys && FreshOk(b)
    requires var d := Digest(s.generation, token); BelongsTo(a, d, f) || BelongsTo(b, d, f)
    ensures Refused(b, s, now, token, client, resource, requested)
  {
    var d := Digest(s.generation, token);
    if BelongsTo(a, d, f) {
      assert d.token < a.issued;
      assert d in b.access ==> b.access[d].family == f;
      assert d in b.refresh ==> b.refresh[d].family == f;
    }
    hide Later, Rotated;
  }

  /** The call presents a refresh token that was consumed before. */
  ghost predicate IsReplay(a: Auth, call: Call) {
    && call.request.RotateRequest?
    && TokenClientError(call.settings, call.request.clientId, call.request.resource).None?
    && var d := Digest(call.settings.generation, call.request.token);
       d in a.refresh && a.refresh[d].consumed.Some? && a.refresh[d].family in a.families
  }

  lemma ReplayKills(a: Auth, call: Call)
    requires IsReplay(a, call) && FreshOk(a)
    ensures Dead(Respond(a, call).auth, a.refresh[Digest(call.settings.generation, call.request.token)].family)
    ensures forall d, f :: BelongsTo(a, d, f) ==> BelongsTo(Respond(a, call).auth, d, f)
  {
  }

  lemma FreshAfter(before: seq<Call>, call: Call, after: seq<Call>)
    requires Timely(before + [call] + after)
    ensures FreshOk(Execute(EMPTY_AUTH, before)) && FreshOk(Respond(Execute(EMPTY_AUTH, before), call).auth)
    ensures FreshOk(AfterAll(before, call, after))
  {
    hide Respond, FreshOk;
    var all := before + [call] + after;
    TimelyPrefix(all, |before|);
    TimelyPrefix(all, |before| + 1);
    assert all[..|before|] == before && all[..|before| + 1] == before + [call];
    assert (before + [call])[..|before + [call]| - 1] == before;
    FreshAt(before);
    FreshAt(before + [call]);
    FreshAt(all);
  }

  lemma TimelyPrefix(calls: seq<Call>, n: nat)
    requires Timely(calls) && n <= |calls|
    ensures Timely(calls[..n])
  {
  }

  /** Once a consumed refresh token is replayed, no token that ever belonged to its
      family is accepted again, in whatever run follows, with or without clean-up. */
  lemma ReplayEndsFamily(before: seq<Call>, replay: Call, after: seq<Call>, s: Settings, now: int, token: Token,
                         client: string, resource: string, requested: Option<set<Scope>>)
    requires Timely(before + [replay] + after) && IsReplay(Execute(EMPTY_AUTH, before), replay)
    requires var a := Execute(EMPTY_AUTH, before);
             var f := a.refresh[Digest(replay.settings.generation, replay.request.token)].family;
             var d := Digest(s.generation, token);
             BelongsTo(a, d, f) || BelongsTo(AfterAll(before, replay, after), d, f)
    ensures Refused(AfterAll(before, replay, after), s, now, token, client, resource, requested)
  {
    var a := Execute(EMPTY_AUTH, before);
    var f := a.refresh[Digest(replay.settings.generation, replay.request.token)].family;
    var r := Respond(a, replay).auth;
    var b := AfterAll(before, replay, after);
    hide *;
    FreshAfter(before, replay, after);
    ReplayKills(a, replay);
    AfterAllIs(before, replay, after);
    ExecuteLater(r, after);
    DeadForever(r, b, f);
    FreshDisjoint(r);
    DeadIsRefused(r, b, f, s, now, token, client, resource, requested);
  }

  lemma FreshDisjoint(a: Auth)
    requires FreshOk(a)
    ensures a.access.Keys !! a.refresh.Keys
  {
  }

  lemma RevokeKills(a: Auth, s: Settings, now: int, token: Token, f: FamilyId)
    requires FreshOk(a) && f < a.issued && BelongsTo(a, Digest(s.generation, token), f)
    ensures Dead(Revoke(a, s, now, token), f)
    ensures forall d, g :: BelongsTo(a, d, g) ==> BelongsTo(Revoke(a, s, now, token), d, g)
  {
  }

  /** Revoking a token ends its whole family in the same way. */
  lemma RevocationEndsFamily(before: seq<Call>, revoke: Call, after: seq<Call>, f: FamilyId, s: Settings, now: int,
                             token: Token, client: string, resource: string, requested: Option<set<Scope>>)
    requires Timely(before + [revoke] + after) && revoke.request.RevokeRequest?
    requires f < Execute(EMPTY_AUTH, before).issued
    requires BelongsTo(Execute(EMPTY_AUTH, before), Digest(revoke.settings.generation, revoke.request.token), f)
    requires var d := Digest(s.generation, token);
             BelongsTo(Execute(EMPTY_AUTH, before), d, f) || BelongsTo(AfterAll(before, revoke, after), d, f)
    ensures Refused(AfterAll(before, revoke, after), s, now, token, client, resource, requested)
  {
    var a := Execute(EMPTY_AUTH, before);
    var r := Respond(a, revoke).auth;
    var b := AfterAll(before, revoke, after);
    assert r == Revoke(a, revoke.settings, revoke.now, revoke.request.token);
    hide *;
    FreshAfter(before, revoke, after);
    RevokeKills(a, revoke.settings, revoke.now, revoke.request.token, f);
    AfterAllIs(before, revoke, after);
    ExecuteLater(r, after);
    DeadForever(r, b, f);
    FreshDisjoint(r);
    DeadIsRefused(r, b, f, s, now, token, client, resource, requested);
  }

  // ---------------------------------------------------------------------
  // Scopes

  lemma OpenedFamily(a: Auth, call: Call)
    requires call.request.ExchangeRequest? && Respond(a, call).reply.Pair?
    ensures var d := Digest(call.settings.generation, call.request.code);
            var b := Respond(a, call).auth;
            && d in a.codes && Respond(a, call).reply.scopes == a.codes[d].scopes
            && a.issued in b.families && b.families[a.issued].scopes == a.codes[d].scopes && a.issued < b.issued
            && BelongsTo(b, Digest(call.settings.generation, Respond(a, call).reply.access), a.issued)
            && BelongsTo(b, Digest(call.settings.generation, Respond(a, call).reply.refresh), a.issued)
  {
  }

  lemma FamilyBoundsTokens(a: Auth, clock: int, f: FamilyId, d: Digest)
    requires AuthInv(a, clock) && BelongsTo(a, d, f)
    ensures f in a.families
    ensures d in a.access && a.access[d].family == f ==> a.access[d].scopes <= a.families[f].scopes
    ensures d in a.refresh && a.refresh[d].family == f ==> a.refresh[d].scopes <= a.families[f].scopes
  {
  }

  /** No token of the family that a code opened ever grants more than the code did. */
  lemma ScopesNeverExceedTheCode(before: seq<Call>, exchange: Call, after: seq<Call>, d: Digest)
    requires Timely(before + [exchange] + after) && exchange.request.ExchangeRequest?
    requires Respond(Execute(EMPTY_AUTH, before), exchange).reply.Pair?
    requires BelongsTo(AfterAll(before, exchange, after), d, Execute(EMPTY_AUTH, before).issued)
    ensures var a := Execute(EMPTY_AUTH, before);
            var granted := Respond(a, exchange).reply.scopes;
            var b := AfterAll(before, exchange, after);
            && (d in b.access && b.access[d].family == a.issued ==> b.access[d].scopes <= granted)
            && (d in b.refresh && b.refresh[d].family == a.issued ==> b.refresh[d].scopes <= granted)
  {
    var a := Execute(EMPTY_AUTH, before);
    var r := Respond(a, exchange).auth;
    var b := AfterAll(before, exchange, after);
    var all := before + [exchange] + after;
    assert b == Execute(EMPTY_AUTH, all);
    hide *;
    OpenedFamily(a, exchange);
    AfterAllIs(before, exchange, after);
    ExecuteLater(r, after);
    ReachableInv(all, LastClock(all));
    FamilyBoundsTokens(b, LastClock(all), a.issued, d);
    SameScopes(r, b, a.issued);
  }

  lemma SameScopes(a: Auth, b: Auth, f: FamilyId)
    requires Later(a, b) && f < a.issued && f in b.families
    ensures f in a.families && b.families[f].scopes == a.families[f].scopes
  {
  }
}
