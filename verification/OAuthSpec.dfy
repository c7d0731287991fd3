/** The authorization server's tables and what each of its calls does to them.

    A raw code or token is a number never handed out before; its stored digest is the
    pair of the signing key's generation and that number. A PKCE challenge is the
    verifier that it digests. */
module OAuthSpec {
  import opened Options

  type Token = nat
  type FamilyId = nat
  type Scope = string

  const SUPPORTED_SCOPES: set<Scope> := {"budget:read", "budget:refresh", "budget:config"}

  datatype Digest = Digest(generation: string, token: Token)
  datatype Client = Client(id: string, redirect: string)

  /** The configuration of one process; it may change between calls. */
  datatype Settings = Settings(
    codeTtl: nat, accessTtl: nat, refreshTtl: nat, generation: string, resource: string, clients: set<Client>)
  {
    /** The ranges that the configuration enforces at start-up. */
    ghost predicate Valid() {
      60 <= codeTtl <= 900 && 300 <= accessTtl <= 86400 && 86400 <= refreshTtl <= 31536000
    }

    predicate KnowsClient(id: string) {
      exists c :: c in clients && c.id == id
    }
  }

  datatype Code = Code(
    client: Client, resource: string, scopes: set<Scope>, challenge: string, generation: string,
    expires: int, consumed: Option<int>)

  datatype Family = Family(
    client: string, resource: string, scopes: set<Scope>, generation: string,
    expires: int, revoked: Option<int>, compromised: Option<int>)

  datatype Access = Access(family: FamilyId, scopes: set<Scope>, expires: int, revoked: Option<int>)

  datatype Refresh = Refresh(
    family: FamilyId, scopes: set<Scope>, expires: int, consumed: Option<int>, revoked: Option<int>)

  /** The four tables, and the first number that was never handed out. */
  datatype Auth = Auth(
    codes: map<Digest, Code>, families: map<FamilyId, Family>,
    access: map<Digest, Access>, refresh: map<Digest, Refresh>, issued: nat)

  const EMPTY_AUTH := Auth(map[], map[], map[], map[], 0)

  datatype Error = UnauthorizedClient | InvalidClient | InvalidTarget | InvalidScope | InvalidGrant

  datatype Reply =
    | Denied(error: Error)
    | CodeIssued(code: Token)
    | Pair(access: Token, refresh: Token, expiresIn: nat, scopes: set<Scope>)
    | Verified(client: string, scopes: set<Scope>, expires: int, resource: string)
    | Unverified
    | Done

  datatype Answer = Answer(auth: Auth, reply: Reply)

  // ---------------------------------------------------------------------
  // Clean-up

  /** Delete what expired; tokens go with their family. */
  function Cleaned(a: Auth, now: int): Auth {
    var families := map f | f in a.families && !(a.families[f].expires < now) :: a.families[f];
    a.(codes := map d | d in a.codes && !(a.codes[d].expires < now) :: a.codes[d],
       families := families,
       access := map d | d in a.access && !(a.access[d].expires < now) && a.access[d].family in families :: a.access[d],
       refresh := map d | d in a.refresh && a.refresh[d].family in families :: a.refresh[d])
  }

  // ---------------------------------------------------------------------
  // Codes

  predicate ScopesSupported(scopes: set<Scope>) {
    scopes != {} && scopes <= SUPPORTED_SCOPES
  }

  function Issue(a: Auth, s: Settings, now: int, client: Client, resource: string, scopes: set<Scope>,
                 challenge: string): Answer
  {
    if client !in s.clients then Answer(a, Denied(UnauthorizedClient))
    else if resource != s.resource then Answer(a, Denied(InvalidTarget))
    else if !ScopesSupported(scopes) then Answer(a, Denied(InvalidScope))
    else
      var cleaned := Cleaned(a, now);
      var code := Code(client, resource, scopes, challenge, s.generation, now + s.codeTtl, None);
      Answer(cleaned.(codes := cleaned.codes[Digest(s.generation, a.issued) := code], issued := a.issued + 1),
             CodeIssued(a.issued))
  }

  /** A new access and refresh token; the family now lives as long as the latter. */
  function Rotated(a: Auth, s: Settings, now: int, f: FamilyId, scopes: set<Scope>): Auth
    requires f in a.families
  {
    a.(families := a.families[f := a.families[f].(expires := now + s.refreshTtl)],
       access := a.access[Digest(s.generation, a.issued) := Access(f, scopes, now + s.accessTtl, None)],
       refresh := a.refresh[Digest(s.generation, a.issued + 1) := Refresh(f, scopes, now + s.refreshTtl, None, None)],
       issued := a.issued + 2)
  }

  function PairOf(a: Auth, s: Settings, scopes: set<Scope>): Reply {
    Pair(a.issued, a.issued + 1, s.accessTtl, scopes)
  }

  function TokenClientError(s: Settings, client: string, resource: string): Option<Error> {
    if !s.KnowsClient(client) then Some(InvalidClient)
    else if resource != s.resource then Some(InvalidTarget)
    else None
  }

  predicate CodeUsable(a: Auth, s: Settings, now: int, code: Token, client: Client, resource: string,
                       verifier: string)
  {
    var d := Digest(s.generation, code);
    && d in a.codes && a.codes[d].consumed.None? && now < a.codes[d].expires
    && a.codes[d].generation == s.generation && a.codes[d].client == client && a.codes[d].resource == resource
    && a.codes[d].challenge == verifier
  }

  /** Consume a code and open the family of its first token pair. */
  function Opened(a: Auth, s: Settings, now: int, code: Token): Auth
    requires Digest(s.generation, code) in a.codes
  {
    var d := Digest(s.generation, code);
    var c := a.codes[d];
    var family := Family(c.client.id, c.resource, c.scopes, s.generation, now + s.refreshTtl, None, None);
    Rotated(a.(codes := a.codes[d := c.(consumed := Some(now))], families := a.families[a.issued := family],
               issued := a.issued + 1),
            s, now, a.issued, c.scopes)
  }

  function Exchange(a: Auth, s: Settings, now: int, code: Token, client: Client, resource: string, verifier: string)
    : Answer
  {
    var error := TokenClientError(s, client.id, resource);
    if error.Some? then Answer(a, Denied(error.value))
    else if client !in s.clients || !CodeUsable(a, s, now, code, client, resource, verifier) then
      Answer(a, Denied(InvalidGrant))
    else
      Answer(Opened(a, s, now, code),
             Pair(a.issued + 1, a.issued + 2, s.accessTtl, a.codes[Digest(s.generation, code)].scopes))
  }

  // ---------------------------------------------------------------------
  // Refresh tokens

  function Mark(stamp: Option<int>, now: int): Option<int> {
    if stamp.Some? then stamp else Some(now)
  }

  function Compromised(a: Auth, f: FamilyId, now: int): Auth
    requires f in a.families
  {
    a.(families := a.families[f := a.families[f].(revoked := Mark(a.families[f].revoked, now),
                                                  compromised := Mark(a.families[f].compromised, now))])
  }

  predicate RefreshUsable(r: Refresh, f: Family, s: Settings, now: int, client: string, resource: string) {
    && r.revoked.None? && f.revoked.None? && now < r.expires && now < f.expires
    && f.generation == s.generation && f.client == client && f.resource == resource
  }

  function Rotate(a: Auth, s: Settings, now: int, token: Token, client: string, resource: string,
                  requested: Option<set<Scope>>): Answer
  {
    var d := Digest(s.generation, token);
    var error := TokenClientError(s, client, resource);
    if error.Some? then Answer(a, Denied(error.value))
    else if d !in a.refresh || a.refresh[d].family !in a.families then Answer(a, Denied(InvalidGrant))
    else
      var r := a.refresh[d];
      if r.consumed.Some? then Answer(Compromised(a, r.family, now), Denied(InvalidGrant))
      else if !RefreshUsable(r, a.families[r.family], s, now, client, resource) then Answer(a, Denied(InvalidGrant))
      else if requested.Some? && (!ScopesSupported(requested.value) || !(requested.value <= r.scopes)) then
        Answer(a, Denied(InvalidScope))
      else
        var scopes := if requested.Some? then requested.value else r.scopes;
        Answer(Rotated(a.(refresh := a.refresh[d := r.(consumed := Some(now))]), s, now, r.family, scopes),
               PairOf(a, s, scopes))
  }

  // ---------------------------------------------------------------------
  // Access tokens

  predicate AccessUsable(a: Auth, s: Settings, now: int, token: Token) {
    var d := Digest(s.generation, token);
    && d in a.access && a.access[d].family in a.families
    && a.access[d].revoked.None? && now < a.access[d].expires
    && var f := a.families[a.access[d].family];
       f.revoked.None? && now < f.expires && f.generation == s.generation && f.resource == s.resource
  }

  function Verify(a: Auth, s: Settings, now: int, token: Token): Reply {
    if AccessUsable(a, s, now, token) then
      var t := a.access[Digest(s.generation, token)];
      Verified(a.families[t.family].client, t.scopes, t.expires, a.families[t.family].resource)
    else Unverified
  }

  // ---------------------------------------------------------------------
  // Revocation

  function RevokeFamily(a: Auth, f: FamilyId, now: int): Auth {
    if f in a.families then
      a.(families := a.families[f := a.families[f].(revoked := Mark(a.families[f].revoked, now))])
    else a
  }

  function RevokeAccess(a: Auth, d: Digest, now: int): Auth {
    if d in a.access then
      RevokeFamily(a.(access := a.access[d := a.access[d].(revoked := Mark(a.access[d].revoked, now))]),
                   a.access[d].family, now)
    else a
  }

  function RevokeRefresh(a: Auth, d: Digest, now: int): Auth {
    if d in a.refresh then
      RevokeFamily(a.(refresh := a.refresh[d := a.refresh[d].(revoked := Mark(a.refresh[d].revoked, now))]),
                   a.refresh[d].family, now)
    else a
  }

  function Revoke(a: Auth, s: Settings, now: int, token: Token): Auth {
    var d := Digest(s.generation, token);
    RevokeRefresh(RevokeAccess(a, d, now), d, now)
  }

  // ---------------------------------------------------------------------
  // Calls

  datatype Request =
    | IssueRequest(client: Client, resource: string, scopes: set<Scope>, challenge: string)
    | ExchangeRequest(code: Token, client: Client, resource: string, verifier: string)
    | RotateRequest(token: Token, clientId: string, resource: string, requested: Option<set<Scope>>)
    | VerifyRequest(token: Token)
    | RevokeRequest(token: Token)

  datatype Call = Call(settings: Settings, now: int, request: Request)

  function Respond(a: Auth, call: Call): Answer {
    var s, now := call.settings, call.now;
    match call.request
    case IssueRequest(client, resource, scopes, challenge) => Issue(a, s, now, client, resource, scopes, challenge)
    case ExchangeRequest(code, client, resource, verifier) => Exchange(a, s, now, code, client, resource, verifier)
    case RotateRequest(token, client, resource, requested) => Rotate(a, s, now, token, client, resource, requested)
    case VerifyRequest(token) => Answer(a, Verify(a, s, now, token))
    case RevokeRequest(token) => Answer(Revoke(a, s, now, token), Done)
  }

  function Execute(a: Auth, calls: seq<Call>): Auth {
    if calls == [] then a else Respond(Execute(a, calls[..|calls| - 1]), calls[|calls| - 1]).auth
  }

  /** Valid settings throughout and a clock that never runs backwards. */
  ghost predicate Timely(calls: seq<Call>) {
    && (forall i :: 0 <= i < |calls| ==> calls[i].settings.Valid())
    && (forall i, j :: 0 <= i < j < |calls| ==> calls[i].now <= calls[j].now)
  }
}
