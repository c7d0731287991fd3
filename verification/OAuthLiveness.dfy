/** A family that was neither revoked nor expired can always be continued, by exactly one
    refresh token; and so a revocation that clean-up loses can be noticed. */
module OAuthLiveness {
  import opened Options
  import opened OAuthSpec
  import opened OAuthProofs
  import opened OAuthTheorems
  import opened OAuthCleanup

  // ---------------------------------------------------------------------
  // The invariant

  ghost predicate IsLive(family: Family, d: Digest, r: Refresh) {
    r.consumed.None? && r.revoked.None? && d.generation == family.generation && r.expires == family.expires
  }

  ghost predicate HasLive(a: Auth, f: FamilyId) {
    f in a.families && exists d :: d in a.refresh && a.refresh[d].family == f && IsLive(a.families[f], d, a.refresh[d])
  }

  ghost predicate LivesOk(a: Auth) {
    forall f :: f in a.families && a.families[f].revoked.None? ==> HasLive(a, f)
  }

  /** Nothing about the family's own rows has changed. */
  ghost predicate SameFamily(a: Auth, b: Auth, f: FamilyId) {
    && f in a.families && f in b.families && b.families[f] == a.families[f]
    && forall d :: d in a.refresh && a.refresh[d].family == f ==> d in b.refresh && b.refresh[d] == a.refresh[d]
  }

  lemma LivesCarry(a: Auth, b: Auth)
    requires LivesOk(a)
    requires forall f :: f in b.families && b.families[f].revoked.None? ==> SameFamily(a, b, f) || HasLive(b, f)
    ensures LivesOk(b)
  {
    forall f | f in b.families && b.families[f].revoked.None? ensures HasLive(b, f) {
      if SameFamily(a, b, f) {
        var d :| d in a.refresh && a.refresh[d].family == f && IsLive(a.families[f], d, a.refresh[d]);
        assert d in b.refresh && b.refresh[d] == a.refresh[d];
      }
    }
  }

  lemma CleanedLives(a: Auth, now: int)
    requires LivesOk(a)
    ensures LivesOk(Cleaned(a, now))
  {
    hide LivesOk, HasLive;
    LivesCarry(a, Cleaned(a, now));
  }

  lemma RotatedHasLive(a: Auth, s: Settings, now: int, f: FamilyId, scopes: set<Scope>)
    requires f in a.families && a.families[f].generation == s.generation
    ensures HasLive(Rotated(a, s, now, f, scopes), f)
  {
    var b := Rotated(a, s, now, f, scopes);
    var d := Digest(s.generation, a.issued + 1);
    assert d in b.refresh && b.refresh[d].family == f && IsLive(b.families[f], d, b.refresh[d]);
  }

  lemma RotatedOthers(a: Auth, s: Settings, now: int, f: FamilyId, scopes: set<Scope>, g: FamilyId)
    requires f in a.families && g in a.families && g != f && forall d :: d in a.refresh ==> d.token < a.issued
    ensures SameFamily(a, Rotated(a, s, now, f, scopes), g)
  {
  }

  lemma SameFamilyThrough(a: Auth, b: Auth, c: Auth, f: FamilyId)
    requires SameFamily(a, b, f) && SameFamily(b, c, f)
    ensures SameFamily(a, c, f)
  {
  }

  /** The tables in which a code is consumed and its family exists without tokens. */
  function Founded(a: Auth, codes: map<Digest, Code>, family: Family): Auth {
    a.(codes := codes, families := a.families[a.issued := family], issued := a.issued + 1)
  }

  lemma FoundedOthers(a: Auth, codes: map<Digest, Code>, family: Family, g: FamilyId)
    requires FreshOk(a) && g in a.families
    ensures SameFamily(a, Founded(a, codes, family), g) && g != a.issued
    ensures forall d :: d in a.refresh ==> d.token < a.issued + 1
  {
  }

  lemma FoundedLives(a: Auth, codes: map<Digest, Code>, family: Family, s: Settings, now: int)
    requires LivesOk(a) && FreshOk(a) && family.generation == s.generation
    ensures LivesOk(Rotated(Founded(a, codes, family), s, now, a.issued, family.scopes))
  {
    var b := Founded(a, codes, family);
    var next := Rotated(b, s, now, a.issued, family.scopes);
    hide LivesOk, HasLive, Rotated, SameFamily, FreshOk;
    RotatedHasLive(b, s, now, a.issued, family.scopes);
    RotatedKeys(b, s, now, a.issued, family.scopes);
    forall g | g in a.families ensures SameFamily(a, next, g) {
      FoundedOthers(a, codes, family, g);
      RotatedOthers(b, s, now, a.issued, family.scopes, g);
      SameFamilyThrough(a, b, next, g);
    }
    LivesCarry(a, next);
  }

  lemma OpenedLives(a: Auth, s: Settings, now: int, code: Token)
    requires LivesOk(a) && FreshOk(a) && Digest(s.generation, code) in a.codes
    ensures LivesOk(Opened(a, s, now, code))
  {
    var c := a.codes[Digest(s.generation, code)];
    hide LivesOk, FreshOk, Rotated;
    FoundedLives(a, a.codes[Digest(s.generation, code) := c.(consumed := Some(now))],
                 Family(c.client.id, c.resource, c.scopes, s.generation, now + s.refreshTtl, None, None), s, now);
  }

  lemma RotatedKeys(a: Auth, s: Settings, now: int, f: FamilyId, scopes: set<Scope>)
    requires f in a.families
    ensures Rotated(a, s, now, f, scopes).families.Keys == a.families.Keys
  {
  }

  lemma RotationLives(a: Auth, s: Settings, now: int, d: Digest, next: Refresh, scopes: set<Scope>)
    requires LivesOk(a) && FreshOk(a) && d in a.refresh && next.family == a.refresh[d].family
    requires next.family in a.families && a.families[next.family].generation == s.generation
    ensures LivesOk(Rotated(a.(refresh := a.refresh[d := next]), s, now, next.family, scopes))
  {
    var b := a.(refresh := a.refresh[d := next]);
    RotatedHasLive(b, s, now, next.family, scopes);
    hide LivesOk, HasLive;
    LivesCarry(a, Rotated(b, s, now, next.family, scopes));
  }

  lemma CompromisedLives(a: Auth, f: FamilyId, now: int)
    requires LivesOk(a) && f in a.families
    ensures LivesOk(Compromised(a, f, now))
  {
    hide LivesOk, HasLive;
    LivesCarry(a, Compromised(a, f, now));
  }

  lemma RevokeLives(a: Auth, s: Settings, now: int, token: Token)
    requires LivesOk(a)
    ensures LivesOk(Revoke(a, s, now, token))
  {
    var d := Digest(s.generation, token);
    hide LivesOk, HasLive;
    LivesCarry(a, RevokeAccess(a, d, now));
    LivesCarry(RevokeAccess(a, d, now), Revoke(a, s, now, token));
  }

  lemma IssuedLives(a: Auth, d: Digest, code: Code)
    requires LivesOk(a)
    ensures LivesOk(a.(codes := a.codes[d := code], issued := a.issued + 1))
  {
    hide LivesOk, HasLive;
    LivesCarry(a, a.(codes := a.codes[d := code], issued := a.issued + 1));
  }

  lemma RespondLives(a: Auth, call: Call)
    requires LivesOk(a) && FreshOk(a)
    ensures LivesOk(Respond(a, call).auth)
  {
    var s, now := call.settings, call.now;
    hide LivesOk, FreshOk, Rotated, Opened, Cleaned, Compromised, Revoke;
    match call.request
    case IssueRequest(client, resource, scopes, challenge) =>
      CleanedLives(a, now);
      CleanedIssued(a, now);
      IssuedLives(Cleaned(a, now), Digest(s.generation, a.issued),
                  Code(client, resource, scopes, challenge, s.generation, now + s.codeTtl, None));
    case ExchangeRequest(code, client, resource, verifier) =>
      if Digest(s.generation, code) in a.codes { OpenedLives(a, s, now, code); }
    case RotateRequest(token, client, resource, requested) =>
      var d := Digest(s.generation, token);
      if d in a.refresh && a.refresh[d].family in a.families {
        var r := a.refresh[d];
        CompromisedLives(a, r.family, now);
        if a.families[r.family].generation == s.generation {
          var scopes := if requested.Some? then requested.value else r.scopes;
          RotationLives(a, s, now, d, r.(consumed := Some(now)), scopes);
        }
      }
    case VerifyRequest(token) =>
    case RevokeRequest(token) => RevokeLives(a, s, now, token);
  }

  lemma {:induction false} ReachableLives(calls: seq<Call>)
    requires Timely(calls)
    ensures LivesOk(Execute(EMPTY_AUTH, calls))
  {
    hide Respond, FreshOk, Timely, HasLive;
    if calls != [] {
      var n := |calls| - 1;
      TimelyPrefix(calls, n);
      ReachableLives(calls[..n]);
      FreshAt(calls[..n]);
      RespondLives(Execute(EMPTY_AUTH, calls[..n]), calls[n]);
    }
  }

  // ---------------------------------------------------------------------
  // Exactly one way on

  /** The refresh token continues the family. */
  ghost predicate Continues(a: Auth, s: Settings, now: int, f: FamilyId, token: Token) {
    && Digest(s.generation, token) in a.refresh && a.refresh[Digest(s.generation, token)].family == f
    && f in a.families
    && Rotate(a, s, now, token, a.families[f].client, a.families[f].resource, None).reply.Pair?
  }

  /** Settings under which the family was opened: its key, its resource, its client. */
  ghost predicate Serves(s: Settings, family: Family) {
    s.generation == family.generation && s.resource == family.resource && s.KnowsClient(family.client)
  }

  lemma LiveContinues(a: Auth, s: Settings, now: int, f: FamilyId) returns (token: Token)
    requires HasLive(a, f) && a.families[f].revoked.None? && now < a.families[f].expires && Serves(s, a.families[f])
    ensures Continues(a, s, now, f, token)
  {
    var d :| d in a.refresh && a.refresh[d].family == f && IsLive(a.families[f], d, a.refresh[d]);
    token := d.token;
    assert d == Digest(s.generation, token);
  }

  lemma ContinuesUnconsumed(a: Auth, s: Settings, now: int, f: FamilyId, token: Token)
    requires Continues(a, s, now, f, token)
    ensures a.refresh[Digest(s.generation, token)].consumed.None?
  {
  }

  /** After every run a family that was not revoked and did not expire is continued by
      exactly one refresh token. */
  lemma OneWayOn(calls: seq<Call>, s: Settings, now: int, f: FamilyId) returns (token: Token)
    requires Timely(calls) && f in Execute(EMPTY_AUTH, calls).families
    requires var family := Execute(EMPTY_AUTH, calls).families[f];
             family.revoked.None? && now < family.expires && Serves(s, family)
    ensures Continues(Execute(EMPTY_AUTH, calls), s, now, f, token)
    ensures forall other :: Continues(Execute(EMPTY_AUTH, calls), s, now, f, other) ==> other == token
  {
    var a := Execute(EMPTY_AUTH, calls);
    ReachableLives(calls);
    hide Execute, Timely, Rotate, Serves;
    token := LiveContinues(a, s, now, f);
    forall other | Continues(a, s, now, f, other) ensures other == token {
      ContinuesUnconsumed(a, s, now, f, token);
      ContinuesUnconsumed(a, s, now, f, other);
      OneLiveRefreshToken(calls, Digest(s.generation, token), Digest(s.generation, other));
    }
  }

  // ---------------------------------------------------------------------
  // A lost revocation shows

  lemma LossTouchesNothing(a: Auth, c: Auth, clock: int, revoke: Call)
    requires Trimmed(a, c, clock) && FreshOk(a) && LostBy(a, c, revoke)
    ensures Respond(c, revoke).auth == c
  {
  }

  /** The call that continues a family. */
  function Continuing(s: Settings, now: int, family: Family, token: Token): (call: Call)
    ensures call.now == now && call.settings == s
  {
    Call(s, now, RotateRequest(token, family.client, family.resource, None))
  }

  lemma ContinuingMeans(a: Auth, s: Settings, now: int, f: FamilyId, token: Token)
    requires Continues(a, s, now, f, token)
    ensures f in a.families && Respond(a, Continuing(s, now, a.families[f], token)).reply.Pair?
  {
  }

  lemma RevokedRefuses(a: Auth, revoke: Call, s: Settings, now: int, f: FamilyId, token: Token)
    requires revoke.request.RevokeRequest? && FreshOk(a)
    requires Digest(revoke.settings.generation, revoke.request.token) in a.access
    requires a.access[Digest(revoke.settings.generation, revoke.request.token)].family == f
    requires Continues(a, s, now, f, token)
    ensures f in a.families && Respond(Respond(a, revoke).auth, Continuing(s, now, a.families[f], token)).reply.Denied?
  {
  }

  lemma LostFamily(a: Auth, c: Auth, clock: int, revoke: Call) returns (f: FamilyId)
    requires Trimmed(a, c, clock) && LostBy(a, c, revoke)
    ensures revoke.request.RevokeRequest?
    ensures var d := Digest(revoke.settings.generation, revoke.request.token);
            d in a.access && f == a.access[d].family
    ensures f in a.families && a.families[f].revoked.None?
  {
    f := a.access[Digest(revoke.settings.generation, revoke.request.token)].family;
  }

  /** The bound is sharp: when a revocation is lost and its family has not expired, the
      two runs answer the next rotation of that family differently. */
  lemma LostRevocationShows(calls: seq<Call>, clock: int, later: seq<Call>, revoke: Call, s: Settings)
    returns (rotate: Call)
    requires Timely(calls + later) && clock <= revoke.now
    requires forall i :: 0 <= i < |later| ==> clock <= later[i].now
    requires LosesNone(Execute(EMPTY_AUTH, calls), Cleaned(Execute(EMPTY_AUTH, calls), clock), later)
    requires LostBy(Execute(Execute(EMPTY_AUTH, calls), later),
                    Execute(Cleaned(Execute(EMPTY_AUTH, calls), clock), later), revoke)
    requires var a := Execute(Execute(EMPTY_AUTH, calls), later);
             var d := Digest(revoke.settings.generation, revoke.request.token);
             && a.access[d].family in a.families && revoke.now < a.families[a.access[d].family].expires
             && Serves(s, a.families[a.access[d].family])
    ensures rotate.now == revoke.now && rotate.settings == s
    ensures var a := Execute(Execute(EMPTY_AUTH, calls), later);
            var c := Execute(Cleaned(Execute(EMPTY_AUTH, calls), clock), later);
            && Respond(Respond(c, revoke).auth, rotate).reply.Pair?
            && Respond(Respond(a, revoke).auth, rotate).reply.Denied?
  {
    var a := Execute(Execute(EMPTY_AUTH, calls), later);
    var c := Execute(Cleaned(Execute(EMPTY_AUTH, calls), clock), later);
    hide *;
    TrimmedRun(calls, clock, later);
    var f := LostFamily(a, c, clock, revoke);
    ExecuteConcat(EMPTY_AUTH, calls, later);
    var token := OneWayOn(calls + later, s, revoke.now, f);
    rotate := Continuing(s, revoke.now, a.families[f], token);
    ContinuingMeans(a, s, revoke.now, f, token);
    RootedAt(calls, later);
    TrimmedReply(a, c, clock, rotate);
    FreshAt(calls + later);
    LossTouchesNothing(a, c, clock, revoke);
    RevokedRefuses(a, revoke, s, revoke.now, f, token);
  }
}
