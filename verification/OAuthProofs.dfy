/** What holds of tokens and families over every run of the authorization server. */
module OAuthProofs {
  import opened Options
  import opened OAuthSpec

  // ---------------------------------------------------------------------
  // The invariant

  /** A number has one digest, whatever the signing key. */
  ghost predicate OneDigest(digests: set<Digest>) {
    forall d, e | d in digests && e in digests :: d.token == e.token ==> d == e
  }

  /** Numbers in use were handed out before, once, and never for both kinds of token. */
  ghost predicate FreshOk(a: Auth) {
    && a.access.Keys !! a.refresh.Keys
    && OneDigest(a.codes.Keys) && OneDigest(a.refresh.Keys)
    && (forall d :: d in a.codes ==> d.token < a.issued)
    && (forall d :: d in a.access ==> d.token < a.issued)
    && (forall d :: d in a.refresh ==> d.token < a.issued)
    && (forall f :: f in a.families ==> f < a.issued)
  }

  /** An access token belongs to a family that outlives it, and was paired with a refresh token. */
  ghost predicate AccessOk(families: map<FamilyId, Family>, refresh: map<Digest, Refresh>, clock: int, d: Digest,
                           t: Access)
  {
    && t.family in families && t.expires <= families[t.family].expires && t.expires <= clock + 86400
    && var pair := Digest(d.generation, d.token + 1);
       pair in refresh && refresh[pair].family == t.family && refresh[pair].scopes == t.scopes
  }

  ghost predicate AccessesOk(a: Auth, clock: int) {
    forall d :: d in a.access ==> AccessOk(a.families, a.refresh, clock, d, a.access[d])
  }

  ghost predicate RefreshOk(families: map<FamilyId, Family>, r: Refresh) {
    r.family in families && r.scopes <= families[r.family].scopes
  }

  ghost predicate RefreshesOk(families: map<FamilyId, Family>, refresh: map<Digest, Refresh>) {
    forall d :: d in refresh ==> RefreshOk(families, refresh[d])
  }

  /** Of two refresh tokens of a family the earlier one is consumed and grants no less. */
  ghost predicate Linked(d: Digest, x: Refresh, e: Digest, y: Refresh) {
    x.family == y.family && d != e ==>
      d.token != e.token && (d.token < e.token ==> x.consumed.Some? && y.scopes <= x.scopes)
  }

  ghost predicate ChainOk(refresh: map<Digest, Refresh>) {
    forall d, e | d in refresh && e in refresh :: Linked(d, refresh[d], e, refresh[e])
  }

  ghost predicate FamiliesOk(families: map<FamilyId, Family>) {
    forall f :: f in families && families[f].compromised.Some? ==> families[f].revoked.Some?
  }

  ghost predicate AuthInv(a: Auth, clock: int) {
    && FreshOk(a)
    && AccessesOk(a, clock)
    && RefreshesOk(a.families, a.refresh)
    && ChainOk(a.refresh)
    && FamiliesOk(a.families)
  }

  lemma LaterClock(a: Auth, clock: int, now: int)
    requires AuthInv(a, clock) && clock <= now
    ensures AuthInv(a, now)
  {
  }

  lemma CleanedParts(a: Auth, now: int)
    ensures var c := Cleaned(a, now);
            && c.issued == a.issued
            && (forall d :: d in c.codes ==> d in a.codes)
            && (forall f :: f in c.families ==> f in a.families && c.families[f] == a.families[f])
            && (forall d :: d in c.refresh ==>
                  d in a.refresh && c.refresh[d] == a.refresh[d] && c.refresh[d].family in c.families)
            && (forall d :: d in a.refresh && a.refresh[d].family in c.families ==> d in c.refresh)
            && (forall d :: d in c.access ==>
                  d in a.access && c.access[d] == a.access[d] && c.access[d].family in c.families)
  {
  }

  lemma CleanedFresh(a: Auth, now: int)
    requires FreshOk(a)
    ensures FreshOk(Cleaned(a, now))
  {
  }

  lemma CleanedInv(a: Auth, clock: int, now: int)
    requires AuthInv(a, clock)
    ensures AuthInv(Cleaned(a, now), clock)
  {
    var c := Cleaned(a, now);
    hide Cleaned, Linked, AccessOk, FreshOk;
    CleanedFresh(a, now);
    CleanedParts(a, now);
    forall d | d in c.access ensures AccessOk(c.families, c.refresh, clock, d, c.access[d]) {
      assert AccessOk(a.families, a.refresh, clock, d, a.access[d]);
      CleanedAccess(a, c, clock, d);
    }
    forall d | d in c.refresh ensures RefreshOk(c.families, c.refresh[d]) {
      assert RefreshOk(a.families, a.refresh[d]);
    }
    forall d, e | d in c.refresh && e in c.refresh ensures Linked(d, c.refresh[d], e, c.refresh[e]) {
      assert Linked(d, a.refresh[d], e, a.refresh[e]);
    }
  }

  lemma CleanedAccess(a: Auth, c: Auth, clock: int, d: Digest)
    requires d in c.access && d in a.access && c.access[d] == a.access[d] && c.access[d].family in c.families
    requires forall f :: f in c.families ==> f in a.families && c.families[f] == a.families[f]
    requires forall e :: e in a.refresh && a.refresh[e].family in c.families ==>
               e in c.refresh && c.refresh[e] == a.refresh[e]
    requires AccessOk(a.families, a.refresh, clock, d, a.access[d])
    ensures AccessOk(c.families, c.refresh, clock, d, c.access[d])
  {
  }

  /** Families may be stamped without touching anything else. */
  lemma StampedInv(a: Auth, clock: int, f: FamilyId, next: Family)
    requires AuthInv(a, clock) && f in a.families
    requires next.scopes == a.families[f].scopes && next.expires == a.families[f].expires && next.revoked.Some?
    ensures AuthInv(a.(families := a.families[f := next]), clock)
  {
  }

  lemma SameKeysFresh(a: Auth, b: Auth)
    requires FreshOk(a) && b.codes.Keys == a.codes.Keys && b.refresh.Keys == a.refresh.Keys && b.issued == a.issued
    requires b.access == a.access && b.families == a.families
    ensures FreshOk(b)
  {
  }

  /** Stamping one refresh token keeps everything. */
  lemma StampedRefreshInv(a: Auth, clock: int, d: Digest, next: Refresh)
    requires AuthInv(a, clock) && d in a.refresh
    requires next.family == a.refresh[d].family && next.scopes == a.refresh[d].scopes
    requires a.refresh[d].consumed.Some? ==> next.consumed.Some?
    ensures AuthInv(a.(refresh := a.refresh[d := next]), clock)
  {
    var b := a.(refresh := a.refresh[d := next]);
    hide FamiliesOk, FreshOk;
    SameKeysFresh(a, b);
    StampedChain(a.refresh, d, next);
    hide ChainOk, Linked;
    forall e | e in b.access ensures AccessOk(b.families, b.refresh, clock, e, b.access[e]) {
      assert AccessOk(a.families, a.refresh, clock, e, a.access[e]);
    }
    forall e | e in b.refresh ensures RefreshOk(b.families, b.refresh[e]) {
      assert RefreshOk(a.families, a.refresh[e]);
    }
  }

  lemma StampedChain(refresh: map<Digest, Refresh>, d: Digest, next: Refresh)
    requires ChainOk(refresh) && d in refresh
    requires next.family == refresh[d].family && next.scopes == refresh[d].scopes
    requires refresh[d].consumed.Some? ==> next.consumed.Some?
    ensures ChainOk(refresh[d := next])
  {
  }

  lemma StampedAccessInv(a: Auth, clock: int, d: Digest, next: Access)
    requires AuthInv(a, clock) && d in a.access
    requires next.family == a.access[d].family && next.scopes == a.access[d].scopes
    requires next.expires == a.access[d].expires
    ensures AuthInv(a.(access := a.access[d := next]), clock)
  {
  }

  /** Rotation is legal once every refresh token of the family is consumed. */
  ghost predicate MayRotate(a: Auth, f: FamilyId, scopes: set<Scope>) {
    && f in a.families && scopes <= a.families[f].scopes
    && forall d :: d in a.refresh && a.refresh[d].family == f ==>
         a.refresh[d].consumed.Some? && scopes <= a.refresh[d].scopes
  }

  lemma RotatedChain(a: Auth, d: Digest, next: Refresh)
    requires ChainOk(a.refresh) && MayRotate(a, next.family, next.scopes)
    requires forall e :: e in a.refresh ==> e.token < d.token
    ensures ChainOk(a.refresh[d := next])
  {
  }

  lemma RotatedAccesses(a: Auth, s: Settings, clock: int, now: int, f: FamilyId, scopes: set<Scope>)
    requires FreshOk(a) && AccessesOk(a, clock) && clock <= now && s.Valid() && f in a.families
    ensures AccessesOk(Rotated(a, s, now, f, scopes), now)
  {
  }

  lemma RotatedRefreshes(a: Auth, s: Settings, now: int, f: FamilyId, scopes: set<Scope>)
    requires RefreshesOk(a.families, a.refresh) && f in a.families && scopes <= a.families[f].scopes
    ensures var b := Rotated(a, s, now, f, scopes);
            RefreshesOk(b.families, b.refresh)
  {
  }

  lemma RotatedRest(a: Auth, s: Settings, now: int, f: FamilyId, scopes: set<Scope>)
    requires FreshOk(a) && FamiliesOk(a.families) && f in a.families
    ensures var b := Rotated(a, s, now, f, scopes);
            && FreshOk(b) && FamiliesOk(b.families)
            && b.refresh == a.refresh[Digest(s.generation, a.issued + 1) :=
                                        Refresh(f, scopes, now + s.refreshTtl, None, None)]
            && forall d :: d in a.refresh ==> d.token < a.issued
  {
  }

  lemma RotatedInv(a: Auth, s: Settings, clock: int, now: int, f: FamilyId, scopes: set<Scope>)
    requires AuthInv(a, clock) && clock <= now && s.Valid() && MayRotate(a, f, scopes)
    ensures AuthInv(Rotated(a, s, now, f, scopes), now)
  {
    hide FreshOk, AccessesOk, RefreshesOk, ChainOk, FamiliesOk, Rotated;
    RotatedRest(a, s, now, f, scopes);
    RotatedChain(a, Digest(s.generation, a.issued + 1), Refresh(f, scopes, now + s.refreshTtl, None, None));
    RotatedAccesses(a, s, clock, now, f, scopes);
    RotatedRefreshes(a, s, now, f, scopes);
  }

  lemma AddedFamilyInv(a: Auth, clock: int, codes: map<Digest, Code>, family: Family)
    requires AuthInv(a, clock) && codes.Keys == a.codes.Keys && family.compromised.None?
    ensures var b := a.(codes := codes, families := a.families[a.issued := family], issued := a.issued + 1);
            AuthInv(b, clock) && MayRotate(b, a.issued, family.scopes)
  {
    hide ChainOk, Linked;
    var b := a.(codes := codes, families := a.families[a.issued := family], issued := a.issued + 1);
    forall e | e in b.access ensures AccessOk(b.families, b.refresh, clock, e, b.access[e]) {
      assert AccessOk(a.families, a.refresh, clock, e, a.access[e]);
    }
    forall e | e in b.refresh ensures RefreshOk(b.families, b.refresh[e]) && b.refresh[e].family != a.issued {
      assert RefreshOk(a.families, a.refresh[e]);
    }
  }

  lemma OpenedInv(a: Auth, s: Settings, clock: int, now: int, code: Token)
    requires AuthInv(a, clock) && clock <= now && s.Valid() && Digest(s.generation, code) in a.codes
    ensures AuthInv(Opened(a, s, now, code), now)
  {
    hide AuthInv, MayRotate, Rotated;
    var d := Digest(s.generation, code);
    var c := a.codes[d];
    var codes := a.codes[d := c.(consumed := Some(now))];
    var family := Family(c.client.id, c.resource, c.scopes, s.generation, now + s.refreshTtl, None, None);
    assert codes.Keys == a.codes.Keys;
    AddedFamilyInv(a, clock, codes, family);
    RotatedInv(a.(codes := codes, families := a.families[a.issued := family], issued := a.issued + 1), s, clock, now,
               a.issued, c.scopes);
  }

  lemma ConsumedMayRotate(a: Auth, clock: int, d: Digest, now: int, scopes: set<Scope>)
    requires AuthInv(a, clock) && d in a.refresh && a.refresh[d].consumed.None? && scopes <= a.refresh[d].scopes
    ensures var b := a.(refresh := a.refresh[d := a.refresh[d].(consumed := Some(now))]);
            AuthInv(b, clock) && MayRotate(b, a.refresh[d].family, scopes)
  {
    StampedRefreshInv(a, clock, d, a.refresh[d].(consumed := Some(now)));
    assert RefreshOk(a.families, a.refresh[d]);
    var b := a.(refresh := a.refresh[d := a.refresh[d].(consumed := Some(now))]);
    forall e | e in b.refresh && b.refresh[e].family == a.refresh[d].family
      ensures b.refresh[e].consumed.Some? && scopes <= b.refresh[e].scopes
    {
      if e != d {
        assert Linked(e, a.refresh[e], d, a.refresh[d]) && Linked(d, a.refresh[d], e, a.refresh[e]);
      }
    }
  }

  lemma RevokeFamilyInv(a: Auth, clock: int, f: FamilyId, now: int)
    requires AuthInv(a, clock)
    ensures AuthInv(RevokeFamily(a, f, now), clock)
  {
    if f in a.families {
      StampedInv(a, clock, f, a.families[f].(revoked := Mark(a.families[f].revoked, now)));
    }
  }

  lemma RevokeInv(a: Auth, s: Settings, clock: int, now: int, token: Token)
    requires AuthInv(a, clock)
    ensures AuthInv(Revoke(a, s, now, token), clock)
  {
    hide AuthInv;
    var d := Digest(s.generation, token);
    if d in a.access {
      var next := a.access[d].(revoked := Mark(a.access[d].revoked, now));
      StampedAccessInv(a, clock, d, next);
      RevokeFamilyInv(a.(access := a.access[d := next]), clock, a.access[d].family, now);
    }
    var b := RevokeAccess(a, d, now);
    if d in b.refresh {
      var next := b.refresh[d].(revoked := Mark(b.refresh[d].revoked, now));
      StampedRefreshInv(b, clock, d, next);
      RevokeFamilyInv(b.(refresh := b.refresh[d := next]), clock, b.refresh[d].family, now);
    }
  }

  lemma IssueInv(a: Auth, s: Settings, clock: int, now: int, code: Code)
    requires AuthInv(a, clock)
    ensures AuthInv(a.(codes := a.codes[Digest(s.generation, a.issued) := code], issued := a.issued + 1), clock)
  {
  }

  lemma CompromisedInv(a: Auth, clock: int, f: FamilyId, now: int)
    requires AuthInv(a, clock) && f in a.families
    ensures AuthInv(Compromised(a, f, now), clock)
  {
    StampedInv(a, clock, f, Compromised(a, f, now).families[f]);
  }

  lemma RespondInv(a: Auth, clock: int, call: Call)
    requires AuthInv(a, clock) && clock <= call.now && call.settings.Valid()
    ensures AuthInv(Respond(a, call).auth, call.now)
  {
    var s, now := call.settings, call.now;
    hide AuthInv, MayRotate, Settings.Valid, Rotated, Opened, Cleaned;
    LaterClock(a, clock, now);
    match call.request
    case IssueRequest(client, resource, scopes, challenge) =>
      CleanedInv(a, now, now);
      IssueInv(Cleaned(a, now), s, now, now,
               Code(client, resource, scopes, challenge, s.generation, now + s.codeTtl, None));
      CleanedIssued(a, now);
    case ExchangeRequest(code, client, resource, verifier) =>
      if Digest(s.generation, code) in a.codes { OpenedInv(a, s, now, now, code); }
    case RotateRequest(token, client, resource, requested) =>
      var d := Digest(s.generation, token);
      if d in a.refresh {
        if a.refresh[d].family in a.families { CompromisedInv(a, now, a.refresh[d].family, now); }
        var scopes := if requested.Some? then requested.value else a.refresh[d].scopes;
        if a.refresh[d].consumed.None? && scopes <= a.refresh[d].scopes {
          ConsumedMayRotate(a, now, d, now, scopes);
          var b := a.(refresh := a.refresh[d := a.refresh[d].(consumed := Some(now))]);
          RotatedInv(b, s, now, now, a.refresh[d].family, scopes);
        }
      }
    case VerifyRequest(token) =>
    case RevokeRequest(token) =>
      RevokeInv(a, s, now, now, token);
  }

  lemma CleanedIssued(a: Auth, now: int)
    ensures Cleaned(a, now).issued == a.issued
  {
  }

  ghost predicate NotAfter(calls: seq<Call>, clock: int) {
    forall i :: 0 <= i < |calls| ==> calls[i].now <= clock
  }

  lemma EmptyInv(clock: int)
    ensures AuthInv(EMPTY_AUTH, clock)
  {
  }

  /** The invariant holds after every run. */
  lemma {:induction false} ReachableInv(calls: seq<Call>, clock: int)
    requires Timely(calls) && NotAfter(calls, clock)
    ensures AuthInv(Execute(EMPTY_AUTH, calls), clock)
  {
    hide AuthInv, Respond, Settings.Valid;
    if calls == [] {
      EmptyInv(clock);
    } else {
      var n := |calls| - 1;
      ReachableInv(calls[..n], calls[n].now);
      RespondInv(Execute(EMPTY_AUTH, calls[..n]), calls[n].now, calls[n]);
      LaterClock(Execute(EMPTY_AUTH, calls), calls[n].now, clock);
    }
  }
}
