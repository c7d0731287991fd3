/** Deleting what expired changes no reply in any later run, except that revoking an
    access token whose row was deleted no longer ends its family. */
module OAuthCleanup {
  import opened Options
  import opened OAuthSpec
  import opened OAuthProofs
  import opened OAuthTheorems

  // ---------------------------------------------------------------------
  // Tables with and without the deleted rows

  ghost predicate TrimmedCodes(a: map<Digest, Code>, c: map<Digest, Code>, clock: int) {
    && (forall d :: d in c ==> d in a && c[d] == a[d])
    && (forall d :: d in a && d !in c ==> a[d].expires < clock)
  }

  ghost predicate TrimmedFamilies(a: map<FamilyId, Family>, c: map<FamilyId, Family>, clock: int) {
    && (forall f :: f in c ==> f in a && c[f] == a[f])
    && (forall f :: f in a && f !in c ==> a[f].expires < clock)
  }

  ghost predicate TrimmedAccess(a: map<Digest, Access>, c: map<Digest, Access>, families: set<FamilyId>, clock: int) {
    && (forall d :: d in c ==> d in a && c[d] == a[d])
    && (forall d :: d in a && d !in c ==> a[d].expires < clock || a[d].family !in families)
  }

  ghost predicate TrimmedRefresh(a: map<Digest, Refresh>, c: map<Digest, Refresh>, families: set<FamilyId>) {
    && (forall d :: d in c ==> d in a && c[d] == a[d])
    && (forall d :: d in a ==> (d in c <==> a[d].family in families))
  }

  /** The second tables lack only rows that expired before the clock, and their tokens. */
  ghost predicate Trimmed(a: Auth, c: Auth, clock: int) {
    && c.issued == a.issued
    && TrimmedCodes(a.codes, c.codes, clock)
    && TrimmedFamilies(a.families, c.families, clock)
    && TrimmedAccess(a.access, c.access, c.families.Keys, clock)
    && TrimmedRefresh(a.refresh, c.refresh, c.families.Keys)
  }

  lemma CleanedIsTrimmed(a: Auth, clock: int)
    ensures Trimmed(a, Cleaned(a, clock), clock)
  {
  }

  /** Tokens refer to families that exist, and the next number is free. */
  ghost predicate Rooted(a: Auth) {
    && (forall d :: d in a.access ==> a.access[d].family in a.families)
    && (forall d :: d in a.refresh ==> a.refresh[d].family in a.families)
    && (forall f :: f in a.families ==> f < a.issued)
  }

  lemma InvIsRooted(a: Auth, clock: int)
    requires AuthInv(a, clock)
    ensures Rooted(a)
  {
    forall d | d in a.access ensures a.access[d].family in a.families {
      assert AccessOk(a.families, a.refresh, clock, d, a.access[d]);
    }
    forall d | d in a.refresh ensures a.refresh[d].family in a.families {
      assert RefreshOk(a.families, a.refresh[d]);
    }
  }

  // ---------------------------------------------------------------------
  // One call

  /** The next reply is the same. */
  lemma TrimmedReply(a: Auth, c: Auth, clock: int, call: Call)
    requires Trimmed(a, c, clock) && Rooted(a) && clock <= call.now
    ensures Respond(c, call).reply == Respond(a, call).reply
  {
    var s, now := call.settings, call.now;
    hide Rotated, Opened, Compromised, Revoke, Cleaned;
    match call.request
    case IssueRequest(client, resource, scopes, challenge) =>
      CleanedIssued(a, now);
      CleanedIssued(c, now);
    case ExchangeRequest(code, client, resource, verifier) =>
      assert CodeUsable(c, s, now, code, client, resource, verifier) ==
               CodeUsable(a, s, now, code, client, resource, verifier);
    case RotateRequest(token, client, resource, requested) =>
    case VerifyRequest(token) =>
      assert AccessUsable(c, s, now, token) == AccessUsable(a, s, now, token);
    case RevokeRequest(token) =>
  }

  /** Issuing a code cleans up anyway, after which the tables coincide. */
  lemma CleanedAlike(a: Auth, c: Auth, clock: int, now: int)
    requires Trimmed(a, c, clock) && clock <= now
    ensures Cleaned(c, now) == Cleaned(a, now)
  {
    var x, y := Cleaned(a, now), Cleaned(c, now);
    assert y.families == x.families && y.codes == x.codes;
    hide TrimmedFamilies, TrimmedCodes;
    assert y.access == x.access && y.refresh == x.refresh;
  }

  lemma SameIsTrimmed(a: Auth, now: int, clock: int, next: Auth)
    requires next.families == Cleaned(a, now).families && next.refresh == Cleaned(a, now).refresh
    ensures Trimmed(next, next, clock)
  {
  }

  lemma TrimmedRotated(a: Auth, c: Auth, clock: int, s: Settings, now: int, f: FamilyId, scopes: set<Scope>)
    requires Trimmed(a, c, clock) && f in c.families
    ensures f in a.families && Trimmed(Rotated(a, s, now, f, scopes), Rotated(c, s, now, f, scopes), clock)
  {
  }

  lemma TrimmedOpening(a: Auth, c: Auth, clock: int, d: Digest, code: Code, family: Family)
    requires Trimmed(a, c, clock) && Rooted(a) && d in c.codes
    ensures Trimmed(
              a.(codes := a.codes[d := code], families := a.families[a.issued := family], issued := a.issued + 1),
              c.(codes := c.codes[d := code], families := c.families[c.issued := family], issued := c.issued + 1),
              clock)
  {
  }

  lemma TrimmedOpened(a: Auth, c: Auth, clock: int, s: Settings, now: int, code: Token)
    requires Trimmed(a, c, clock) && Rooted(a) && Digest(s.generation, code) in c.codes
    ensures Digest(s.generation, code) in a.codes && Trimmed(Opened(a, s, now, code), Opened(c, s, now, code), clock)
  {
    hide Rotated, TrimmedFamilies, TrimmedAccess, TrimmedRefresh;
    var d := Digest(s.generation, code);
    var used := a.codes[d].(consumed := Some(now));
    var family := Family(used.client.id, used.resource, used.scopes, s.generation, now + s.refreshTtl, None, None);
    TrimmedOpening(a, c, clock, d, used, family);
    TrimmedRotated(
      a.(codes := a.codes[d := used], families := a.families[a.issued := family], issued := a.issued + 1),
      c.(codes := c.codes[d := used], families := c.families[c.issued := family], issued := c.issued + 1),
      clock, s, now, a.issued, used.scopes);
  }

  lemma TrimmedStamp(a: Auth, c: Auth, clock: int, d: Digest, next: Refresh)
    requires Trimmed(a, c, clock) && d in a.refresh && next.family == a.refresh[d].family
    ensures d in c.refresh ==>
              Trimmed(a.(refresh := a.refresh[d := next]), c.(refresh := c.refresh[d := next]), clock)
    ensures d !in c.refresh ==> Trimmed(a.(refresh := a.refresh[d := next]), c, clock)
  {
  }

  lemma TrimmedAccessStamp(a: Auth, c: Auth, clock: int, d: Digest, next: Access)
    requires Trimmed(a, c, clock) && d in a.access && next.family == a.access[d].family
    requires next.expires == a.access[d].expires
    ensures d in c.access ==> Trimmed(a.(access := a.access[d := next]), c.(access := c.access[d := next]), clock)
    ensures d !in c.access ==> Trimmed(a.(access := a.access[d := next]), c, clock)
  {
  }

  lemma TrimmedFamily(a: Auth, c: Auth, clock: int, f: FamilyId, next: Family)
    requires Trimmed(a, c, clock) && f in a.families && next.expires == a.families[f].expires
    ensures f in c.families ==>
              Trimmed(a.(families := a.families[f := next]), c.(families := c.families[f := next]), clock)
    ensures f !in c.families ==> Trimmed(a.(families := a.families[f := next]), c, clock)
  {
  }

  /** Without the refresh token's row, rotation is refused; with it, at most its family is marked. */
  lemma RotateWithoutRow(a: Auth, c: Auth, clock: int, call: Call)
    requires Trimmed(a, c, clock) && Rooted(a) && clock <= call.now && call.request.RotateRequest?
    requires Digest(call.settings.generation, call.request.token) !in c.refresh
    ensures Trimmed(Respond(a, call).auth, Respond(c, call).auth, clock)
  {
    var d := Digest(call.settings.generation, call.request.token);
    hide Rotated, TrimmedCodes, TrimmedAccess, Issue, Exchange, Verify, Revoke;
    if d in a.refresh {
      var f := a.refresh[d].family;
      TrimmedFamily(a, c, clock, f, Compromised(a, f, call.now).families[f]);
    }
  }

  lemma SharedRow(a: Auth, c: Auth, clock: int, d: Digest)
    requires Trimmed(a, c, clock) && Rooted(a) && d in c.refresh
    ensures c.issued == a.issued && d in a.refresh && a.refresh[d] == c.refresh[d]
    ensures var f := c.refresh[d].family; f in a.families && f in c.families && a.families[f] == c.families[f]
  {
  }

  lemma CompromisedAlike(a: Auth, c: Auth, clock: int, f: FamilyId, now: int)
    requires Trimmed(a, c, clock) && f in a.families && f in c.families && a.families[f] == c.families[f]
    ensures Trimmed(Compromised(a, f, now), Compromised(c, f, now), clock)
  {
    TrimmedFamily(a, c, clock, f, Compromised(a, f, now).families[f]);
  }

  predicate ScopesRefused(r: Refresh, requested: Option<set<Scope>>) {
    requested.Some? && (!ScopesSupported(requested.value) || !(requested.value <= r.scopes))
  }

  lemma RotationIs(a: Auth, call: Call)
    requires call.request.RotateRequest? && Digest(call.settings.generation, call.request.token) in a.refresh
    requires a.refresh[Digest(call.settings.generation, call.request.token)].family in a.families
    ensures var s, now, request := call.settings, call.now, call.request;
            var d := Digest(s.generation, request.token);
            var r := a.refresh[d];
            Respond(a, call).auth ==
              if TokenClientError(s, request.clientId, request.resource).Some? then a
              else if r.consumed.Some? then Compromised(a, r.family, now)
              else if !RefreshUsable(r, a.families[r.family], s, now, request.clientId, request.resource) then a
              else if ScopesRefused(r, request.requested) then a
              else Rotated(a.(refresh := a.refresh[d := r.(consumed := Some(now))]), s, now, r.family,
                           if request.requested.Some? then request.requested.value else r.scopes)
  {
  }

  lemma RotateWithRow(a: Auth, c: Auth, clock: int, call: Call)
    requires Trimmed(a, c, clock) && Rooted(a) && call.request.RotateRequest?
    requires Digest(call.settings.generation, call.request.token) in c.refresh
    ensures Trimmed(Respond(a, call).auth, Respond(c, call).auth, clock)
  {
    var s, now, request := call.settings, call.now, call.request;
    var d := Digest(s.generation, request.token);
    var r := c.refresh[d];
    var f := r.family;
    hide *;
    SharedRow(a, c, clock, d);
    CompromisedAlike(a, c, clock, f, now);
    RotationIs(a, call);
    RotationIs(c, call);
    var next := r.(consumed := Some(now));
    var scopes := if request.requested.Some? then request.requested.value else r.scopes;
    TrimmedStamp(a, c, clock, d, next);
    TrimmedRotated(a.(refresh := a.refresh[d := next]), c.(refresh := c.refresh[d := next]), clock, s, now, f, scopes);
  }

  lemma TrimmedRotate(a: Auth, c: Auth, clock: int, call: Call)
    requires Trimmed(a, c, clock) && Rooted(a) && clock <= call.now && call.request.RotateRequest?
    ensures Trimmed(Respond(a, call).auth, Respond(c, call).auth, clock)
  {
    hide *;
    if Digest(call.settings.generation, call.request.token) in c.refresh {
      RotateWithRow(a, c, clock, call);
    } else {
      RotateWithoutRow(a, c, clock, call);
    }
  }

  /** The family of the token lives on in the cleaned tables and was not revoked, but
      the row of the access token itself is gone there. */
  ghost predicate LostFrom(a: Auth, c: Auth, d: Digest) {
    && d in a.access && d !in c.access
    && a.access[d].family in c.families && c.families[a.access[d].family].revoked.None?
  }

  ghost predicate LostBy(a: Auth, c: Auth, call: Call) {
    call.request.RevokeRequest? && LostFrom(a, c, Digest(call.settings.generation, call.request.token))
  }

  lemma TrimmedRevokeFamily(a: Auth, c: Auth, clock: int, f: FamilyId, now: int)
    requires Trimmed(a, c, clock) && f in a.families
    ensures Trimmed(RevokeFamily(a, f, now), RevokeFamily(c, f, now), clock)
    ensures f in c.families && c.families[f].revoked.Some? ==> Trimmed(RevokeFamily(a, f, now), c, clock)
    ensures f !in c.families ==> Trimmed(RevokeFamily(a, f, now), c, clock)
  {
    TrimmedFamily(a, c, clock, f, a.families[f].(revoked := Mark(a.families[f].revoked, now)));
    hide TrimmedAccess, TrimmedRefresh, TrimmedCodes;
    if f in c.families && c.families[f].revoked.Some? {
      assert c.(families := c.families[f := c.families[f]]) == c;
    }
  }

  lemma TrimmedRevokeAccess(a: Auth, c: Auth, clock: int, d: Digest, now: int)
    requires Trimmed(a, c, clock) && Rooted(a) && !LostFrom(a, c, d)
    ensures Trimmed(RevokeAccess(a, d, now), RevokeAccess(c, d, now), clock)
  {
    if d in a.access {
      var next := a.access[d].(revoked := Mark(a.access[d].revoked, now));
      TrimmedAccessStamp(a, c, clock, d, next);
      var b := a.(access := a.access[d := next]);
      var e := if d in c.access then c.(access := c.access[d := next]) else c;
      TrimmedRevokeFamily(b, e, clock, next.family, now);
    }
    hide RevokeFamily, TrimmedCodes, TrimmedFamilies, TrimmedRefresh;
  }

  lemma TrimmedRevokeRefresh(a: Auth, c: Auth, clock: int, d: Digest, now: int)
    requires Trimmed(a, c, clock) && (d in a.refresh ==> a.refresh[d].family in a.families)
    ensures Trimmed(RevokeRefresh(a, d, now), RevokeRefresh(c, d, now), clock)
  {
    if d in a.refresh {
      var next := a.refresh[d].(revoked := Mark(a.refresh[d].revoked, now));
      TrimmedStamp(a, c, clock, d, next);
      var b := a.(refresh := a.refresh[d := next]);
      var e := if d in c.refresh then c.(refresh := c.refresh[d := next]) else c;
      TrimmedRevokeFamily(b, e, clock, next.family, now);
    }
    hide RevokeFamily, TrimmedCodes, TrimmedFamilies, TrimmedAccess;
  }

  lemma TrimmedRevoke(a: Auth, c: Auth, clock: int, s: Settings, now: int, token: Token)
    requires Trimmed(a, c, clock) && Rooted(a) && !LostFrom(a, c, Digest(s.generation, token))
    ensures Trimmed(Revoke(a, s, now, token), Revoke(c, s, now, token), clock)
  {
    var d := Digest(s.generation, token);
    hide Trimmed, LostFrom, RevokeRefresh;
    TrimmedRevokeAccess(a, c, clock, d, now);
    TrimmedRevokeRefresh(RevokeAccess(a, d, now), RevokeAccess(c, d, now), clock, d, now);
  }

  lemma TrimmedIssue(a: Auth, c: Auth, clock: int, call: Call)
    requires Trimmed(a, c, clock) && clock <= call.now && call.request.IssueRequest?
    ensures Trimmed(Respond(a, call).auth, Respond(c, call).auth, clock)
  {
    hide Trimmed, Cleaned;
    CleanedAlike(a, c, clock, call.now);
    CleanedIssued(a, call.now);
    CleanedIssued(c, call.now);
    if Respond(a, call).reply.CodeIssued? {
      SameIsTrimmed(a, call.now, clock, Respond(a, call).auth);
    }
  }

  lemma TrimmedExchange(a: Auth, c: Auth, clock: int, call: Call)
    requires Trimmed(a, c, clock) && Rooted(a) && clock <= call.now && call.request.ExchangeRequest?
    ensures Trimmed(Respond(a, call).auth, Respond(c, call).auth, clock)
  {
    var s, now, request := call.settings, call.now, call.request;
    hide Opened, TrimmedFamilies, TrimmedAccess, TrimmedRefresh;
    assert CodeUsable(c, s, now, request.code, request.client, request.resource, request.verifier) ==
             CodeUsable(a, s, now, request.code, request.client, request.resource, request.verifier);
    if Digest(s.generation, request.code) in c.codes { TrimmedOpened(a, c, clock, s, now, request.code); }
  }

  lemma TrimmedStep(a: Auth, c: Auth, clock: int, call: Call)
    requires Trimmed(a, c, clock) && Rooted(a) && clock <= call.now && !LostBy(a, c, call)
    ensures Trimmed(Respond(a, call).auth, Respond(c, call).auth, clock)
  {
    hide Trimmed, Rooted, LostFrom, Issue, Exchange, Rotate, Revoke;
    match call.request
    case IssueRequest(client, resource, scopes, challenge) => TrimmedIssue(a, c, clock, call);
    case ExchangeRequest(code, client, resource, verifier) => TrimmedExchange(a, c, clock, call);
    case RotateRequest(token, client, resource, requested) => TrimmedRotate(a, c, clock, call);
    case VerifyRequest(token) =>
    case RevokeRequest(token) => TrimmedRevoke(a, c, clock, call.settings, call.now, token);
  }

  // ---------------------------------------------------------------------
  // Every later run

  /** No call of the run revokes a token whose family only the full tables can still find. */
  ghost predicate LosesNone(a: Auth, c: Auth, later: seq<Call>) {
    forall i :: 0 <= i < |later| ==> !LostBy(Execute(a, later[..i]), Execute(c, later[..i]), later[i])
  }

  lemma RootedAt(calls: seq<Call>, later: seq<Call>)
    requires Timely(calls + later)
    ensures Rooted(Execute(Execute(EMPTY_AUTH, calls), later))
  {
    hide *;
    ExecuteConcat(EMPTY_AUTH, calls, later);
    ReachableInv(calls + later, LastClock(calls + later));
    InvIsRooted(Execute(EMPTY_AUTH, calls + later), LastClock(calls + later));
  }

  lemma {:induction false} TrimmedRun(calls: seq<Call>, clock: int, later: seq<Call>)
    requires Timely(calls + later) && forall i :: 0 <= i < |later| ==> clock <= later[i].now
    requires LosesNone(Execute(EMPTY_AUTH, calls), Cleaned(Execute(EMPTY_AUTH, calls), clock), later)
    ensures var a := Execute(EMPTY_AUTH, calls);
            Trimmed(Execute(a, later), Execute(Cleaned(a, clock), later), clock)
  {
    var a := Execute(EMPTY_AUTH, calls);
    hide Respond, Trimmed, Rooted, LostBy, Cleaned, Timely;
    if later == [] {
      CleanedIsTrimmed(a, clock);
    } else {
      var n := |later| - 1;
      EarlierRun(calls, clock, later);
      TrimmedRun(calls, clock, later[..n]);
      RootedAt(calls, later[..n]);
      TrimmedStep(Execute(a, later[..n]), Execute(Cleaned(a, clock), later[..n]), clock, later[n]);
    }
  }

  lemma EarlierRun(calls: seq<Call>, clock: int, later: seq<Call>)
    requires Timely(calls + later) && later != []
    requires LosesNone(Execute(EMPTY_AUTH, calls), Cleaned(Execute(EMPTY_AUTH, calls), clock), later)
    ensures Timely(calls + later[..|later| - 1])
    ensures LosesNone(Execute(EMPTY_AUTH, calls), Cleaned(Execute(EMPTY_AUTH, calls), clock), later[..|later| - 1])
  {
    var n := |later| - 1;
    var a := Execute(EMPTY_AUTH, calls);
    TimelyPrefix(calls + later, |calls| + n);
    assert (calls + later)[..|calls| + n] == calls + later[..n];
    hide Execute, LostBy, Cleaned, Timely;
    forall i | 0 <= i < n
      ensures !LostBy(Execute(a, later[..n][..i]), Execute(Cleaned(a, clock), later[..n][..i]), later[..n][i])
    {
      assert later[..n][..i] == later[..i];
    }
  }

  /** Two runs that differ by a clean-up give the same reply to every call, up to and
      including the first that revokes a token whose row the clean-up had deleted. */
  lemma CleanupKeepsAnswers(calls: seq<Call>, clock: int, later: seq<Call>, call: Call)
    requires Timely(calls + later + [call])
    requires forall i :: 0 <= i < |later| ==> clock <= later[i].now
    requires clock <= call.now
    requires LosesNone(Execute(EMPTY_AUTH, calls), Cleaned(Execute(EMPTY_AUTH, calls), clock), later)
    ensures var a := Execute(EMPTY_AUTH, calls);
            Respond(Execute(Cleaned(a, clock), later), call).reply == Respond(Execute(a, later), call).reply
  {
    var a := Execute(EMPTY_AUTH, calls);
    TimelyPrefix(calls + later + [call], |calls + later|);
    assert (calls + later + [call])[..|calls + later|] == calls + later;
    hide *;
    TrimmedRun(calls, clock, later);
    RootedAt(calls, later);
    TrimmedReply(Execute(a, later), Execute(Cleaned(a, clock), later), clock, call);
  }

  // ---------------------------------------------------------------------
  // The revocation that is lost

  /** Clean-up has deleted the row of an access token, while its family lives on and was
      not revoked before. */
  ghost predicate LostRevocation(a: Auth, clock: int, d: Digest) {
    LostFrom(a, Cleaned(a, clock), d)
  }

  ghost predicate SameRevocations(a: Auth, b: Auth, families: set<FamilyId>) {
    forall f :: f in families && f in a.families && f in b.families ==>
      (a.families[f].revoked.Some? <==> b.families[f].revoked.Some?)
  }

  /** Its effect changes in exactly one case: revoking an expired access token still
      ends the family before clean-up, and no longer does after it. */
  lemma CleanupAndRevocation(calls: seq<Call>, clock: int, s: Settings, now: int, token: Token)
    requires Timely(calls) && NotAfter(calls, clock)
    ensures var a := Execute(EMPTY_AUTH, calls);
            var c := Cleaned(a, clock);
            (SameRevocations(Revoke(a, s, now, token), Revoke(c, s, now, token), c.families.Keys) <==>
             !LostRevocation(a, clock, Digest(s.generation, token)))
  {
    var a := Execute(EMPTY_AUTH, calls);
    assert FreshOk(a) && RefreshesOk(a.families, a.refresh) by {
      hide Execute, FreshOk, AccessesOk, RefreshesOk, ChainOk, FamiliesOk, NotAfter, Timely;
      ReachableInv(calls, clock);
    }
    hide Execute, Timely, NotAfter, FreshOk, RefreshesOk, SameRevocations, LostRevocation, Cleaned, Revoke;
    CleanedRevocation(a, clock, s, now, token);
  }

  lemma CleanedRevocation(a: Auth, clock: int, s: Settings, now: int, token: Token)
    requires FreshOk(a) && RefreshesOk(a.families, a.refresh)
    ensures var c := Cleaned(a, clock);
            (SameRevocations(Revoke(a, s, now, token), Revoke(c, s, now, token), c.families.Keys) <==>
             !LostRevocation(a, clock, Digest(s.generation, token)))
  {
    var d := Digest(s.generation, token);
    var c := Cleaned(a, clock);
    RevokedIff(a, s, now, token);
    RevokedIff(c, s, now, token);
    hide Revoke, RefreshesOk;
    if LostRevocation(a, clock, d) {
      assert a.access[d].family in HitBy(a, d) && a.access[d].family !in HitBy(c, d);
    }
  }

  /** The families that a token belongs to. */
  function HitBy(a: Auth, d: Digest): set<FamilyId> {
    (if d in a.access then {a.access[d].family} else {}) + (if d in a.refresh then {a.refresh[d].family} else {})
  }

  /** Which families a revocation leaves revoked. */
  ghost predicate RevokesJust(a: Auth, b: Auth, hit: set<FamilyId>) {
    && b.families.Keys == a.families.Keys
    && forall f :: f in a.families ==> (b.families[f].revoked.Some? <==> a.families[f].revoked.Some? || f in hit)
  }

  lemma RevokeAccessJust(a: Auth, d: Digest, now: int)
    ensures RevokesJust(a, RevokeAccess(a, d, now), if d in a.access then {a.access[d].family} else {})
    ensures RevokeAccess(a, d, now).refresh == a.refresh
  {
  }

  lemma RevokeRefreshJust(a: Auth, d: Digest, now: int)
    ensures RevokesJust(a, RevokeRefresh(a, d, now), if d in a.refresh then {a.refresh[d].family} else {})
  {
  }

  lemma RevokedIff(a: Auth, s: Settings, now: int, token: Token)
    ensures RevokesJust(a, Revoke(a, s, now, token), HitBy(a, Digest(s.generation, token)))
  {
    hide RevokeAccess, RevokeRefresh;
    var d := Digest(s.generation, token);
    RevokeAccessJust(a, d, now);
    RevokeRefreshJust(RevokeAccess(a, d, now), d, now);
  }

  /** The case happens: a family outlives its first access token. */
  lemma RevocationCanBeLost(s: Settings, client: Client)
    requires s.Valid() && client in s.clients && s.accessTtl < s.refreshTtl
    ensures var calls := [Call(s, 0, IssueRequest(client, s.resource, SUPPORTED_SCOPES, "v")),
                          Call(s, 0, ExchangeRequest(0, client, s.resource, "v"))];
            Timely(calls) && LostRevocation(Execute(EMPTY_AUTH, calls), s.accessTtl + 1, Digest(s.generation, 2))
  {
    var issue := Call(s, 0, IssueRequest(client, s.resource, SUPPORTED_SCOPES, "v"));
    var exchange := Call(s, 0, ExchangeRequest(0, client, s.resource, "v"));
    var calls := [issue, exchange];
    assert calls[..|calls| - 1] == [issue] && [issue][..|[issue]| - 1] == [];
    assert Execute(EMPTY_AUTH, []) == EMPTY_AUTH;
    var a := Execute(EMPTY_AUTH, [issue]);
    assert a == Respond(EMPTY_AUTH, issue).auth;
    assert Digest(s.generation, 0) in a.codes && a.issued == 1;
    var b := Execute(EMPTY_AUTH, calls);
    assert b == Respond(a, exchange).auth;
    assert s.KnowsClient(client.id);
    assert b == Opened(a, s, 0, 0);
  }
}
