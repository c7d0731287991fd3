/** The authorization server as it runs: each method updates the four tables in place
    and does what the functions of OAuthSpec say. */
module OAuthService {
  import opened Options
  import opened OAuthSpec
  import opened OAuthProofs

  /** Deleting in three statements, with the cascade, is deleting at once. */
  lemma CleanedTables(a: Auth, now: int, codes: map<Digest, Code>, families: map<FamilyId, Family>,
                      unexpired: map<Digest, Access>, access: map<Digest, Access>, refresh: map<Digest, Refresh>)
    requires codes == map d | d in a.codes && !(a.codes[d].expires < now) :: a.codes[d]
    requires families == map f | f in a.families && !(a.families[f].expires < now) :: a.families[f]
    requires unexpired == map d | d in a.access && !(a.access[d].expires < now) :: a.access[d]
    requires access == map d | d in unexpired && unexpired[d].family in families :: unexpired[d]
    requires refresh == map d | d in a.refresh && a.refresh[d].family in families :: a.refresh[d]
    ensures Cleaned(a, now) == Auth(codes, families, access, refresh, a.issued)
  {
    var c := Cleaned(a, now);
    assert c.codes == codes && c.families == families;
    assert c.access == access;
    assert c.refresh == refresh;
  }

  class Server {
    var codes: map<Digest, Code>
    var families: map<FamilyId, Family>
    var access: map<Digest, Access>
    var refresh: map<Digest, Refresh>
    var issued: nat

    function Tables(): Auth
      reads this
    {
      Auth(codes, families, access, refresh, issued)
    }

    constructor ()
      ensures Tables() == EMPTY_AUTH
    {
      codes, families, access, refresh, issued := map[], map[], map[], map[], 0;
    }

    /** A number never handed out before. */
    method NewNumber() returns (n: nat)
      modifies `issued
      ensures n == old(issued) && issued == n + 1
    {
      n := issued;
      issued := issued + 1;
    }

    method DeleteExpired(now: int)
      modifies this
      ensures Tables() == Cleaned(old(Tables()), now)
    {
      hide Cleaned;
      ghost var a := Tables();
      codes := map d | d in codes && !(codes[d].expires < now) :: codes[d];
      DeleteExpiredAccess(now);
      ghost var unexpired := access;
      DeleteExpiredFamilies(now);
      CleanedTables(a, now, codes, families, unexpired, access, refresh);
    }

    method DeleteExpiredAccess(now: int)
      modifies `access
      ensures access == map d | d in old(access) && !(old(access)[d].expires < now) :: old(access)[d]
    {
      access := map d | d in access && !(access[d].expires < now) :: access[d];
    }

    /** The tokens of a deleted family go with it. */
    method DeleteExpiredFamilies(now: int)
      modifies `families, `access, `refresh
      ensures families == map f | f in old(families) && !(old(families)[f].expires < now) :: old(families)[f]
      ensures access == map d | d in old(access) && old(access)[d].family in families :: old(access)[d]
      ensures refresh == map d | d in old(refresh) && old(refresh)[d].family in families :: old(refresh)[d]
    {
      families := map f | f in families && !(families[f].expires < now) :: families[f];
      access := map d | d in access && access[d].family in families :: access[d];
      refresh := map d | d in refresh && refresh[d].family in families :: refresh[d];
    }

    method IssueAuthorizationCode(s: Settings, now: int, client: Client, resource: string, scopes: set<Scope>,
                                  challenge: string) returns (reply: Reply)
      modifies this
      ensures Tables() == Issue(old(Tables()), s, now, client, resource, scopes, challenge).auth
      ensures reply == Issue(old(Tables()), s, now, client, resource, scopes, challenge).reply
    {
      hide Cleaned;
      if client !in s.clients {
        return Denied(UnauthorizedClient);
      }
      if resource != s.resource {
        return Denied(InvalidTarget);
      }
      if !ScopesSupported(scopes) {
        return Denied(InvalidScope);
      }
      CleanedIssued(Tables(), now);
      DeleteExpired(now);
      var code := NewNumber();
      codes := codes[Digest(s.generation, code) :=
                       Code(client, resource, scopes, challenge, s.generation, now + s.codeTtl, None)];
      return CodeIssued(code);
    }

    /** Two new tokens; the family's expiry moves with the refresh token. */
    method RotateTokenPair(s: Settings, now: int, f: FamilyId, scopes: set<Scope>) returns (reply: Reply)
      requires f in families
      modifies this
      ensures Tables() == Rotated(old(Tables()), s, now, f, scopes)
      ensures reply == PairOf(old(Tables()), s, scopes)
    {
      var accessToken := NewNumber();
      var refreshToken := NewNumber();
      families := families[f := families[f].(expires := now + s.refreshTtl)];
      access := access[Digest(s.generation, accessToken) := Access(f, scopes, now + s.accessTtl, None)];
      refresh := refresh[Digest(s.generation, refreshToken) := Refresh(f, scopes, now + s.refreshTtl, None, None)];
      return Pair(accessToken, refreshToken, s.accessTtl, scopes);
    }

    method IssueTokenPair(s: Settings, now: int, client: string, resource: string, scopes: set<Scope>)
      returns (reply: Reply)
      modifies this
      ensures var before := old(Tables());
              var family := Family(client, resource, scopes, s.generation, now + s.refreshTtl, None, None);
              var grown := before.(families := before.families[before.issued := family], issued := before.issued + 1);
              Tables() == Rotated(grown, s, now, before.issued, scopes) && reply == PairOf(grown, s, scopes)
    {
      hide Rotated;
      var f := NewNumber();
      families := families[f := Family(client, resource, scopes, s.generation, now + s.refreshTtl, None, None)];
      reply := RotateTokenPair(s, now, f, scopes);
    }

    method ValidateTokenClient(s: Settings, client: string, resource: string) returns (error: Option<Error>)
      ensures error == TokenClientError(s, client, resource)
    {
      if !s.KnowsClient(client) {
        return Some(InvalidClient);
      }
      if resource != s.resource {
        return Some(InvalidTarget);
      }
      return None;
    }

    method ExchangeAuthorizationCode(s: Settings, now: int, code: Token, client: Client, resource: string,
                                     verifier: string) returns (reply: Reply)
      modifies this
      ensures Tables() == Exchange(old(Tables()), s, now, code, client, resource, verifier).auth
      ensures reply == Exchange(old(Tables()), s, now, code, client, resource, verifier).reply
    {
      hide Rotated, TokenClientError;
      var error := ValidateTokenClient(s, client.id, resource);
      if error.Some? {
        return Denied(error.value);
      }
      if client !in s.clients {
        return Denied(InvalidGrant);
      }
      var d := Digest(s.generation, code);
      if d !in codes {
        return Denied(InvalidGrant);
      }
      var stored := codes[d];
      if stored.consumed.Some? || stored.expires <= now || stored.generation != s.generation
         || stored.client != client || stored.resource != resource {
        return Denied(InvalidGrant);
      }
      if stored.challenge != verifier {
        return Denied(InvalidGrant);
      }
      codes := codes[d := stored.(consumed := Some(now))];
      reply := IssueTokenPair(s, now, stored.client.id, stored.resource, stored.scopes);
    }

    method RefreshTokens(s: Settings, now: int, token: Token, client: string, resource: string,
                         requested: Option<set<Scope>>) returns (reply: Reply)
      modifies this
      ensures Tables() == Rotate(old(Tables()), s, now, token, client, resource, requested).auth
      ensures reply == Rotate(old(Tables()), s, now, token, client, resource, requested).reply
    {
      hide Rotated, TokenClientError;
      var error := ValidateTokenClient(s, client, resource);
      if error.Some? {
        return Denied(error.value);
      }
      var d := Digest(s.generation, token);
      if d !in refresh {
        return Denied(InvalidGrant);
      }
      var stored := refresh[d];
      if stored.family !in families {
        return Denied(InvalidGrant);
      }
      var family := families[stored.family];
      if stored.consumed.Some? {
        families := families[stored.family := family.(revoked := Mark(family.revoked, now),
                                                      compromised := Mark(family.compromised, now))];
        return Denied(InvalidGrant);
      }
      if stored.revoked.Some? || family.revoked.Some? || stored.expires <= now || family.expires <= now
         || family.generation != s.generation || family.client != client || family.resource != resource {
        return Denied(InvalidGrant);
      }
      var scopes := stored.scopes;
      if requested.Some? {
        scopes := requested.value;
        if !ScopesSupported(scopes) || !(scopes <= stored.scopes) {
          return Denied(InvalidScope);
        }
      }
      refresh := refresh[d := stored.(consumed := Some(now))];
      reply := RotateTokenPair(s, now, stored.family, scopes);
    }

    method VerifyAccessToken(s: Settings, now: int, token: Token) returns (reply: Reply)
      ensures reply == Verify(Tables(), s, now, token)
    {
      var d := Digest(s.generation, token);
      if d !in access || access[d].family !in families {
        return Unverified;
      }
      var stored := access[d];
      var family := families[stored.family];
      if stored.revoked.Some? || family.revoked.Some? || stored.expires <= now || family.expires <= now
         || family.generation != s.generation || family.resource != s.resource {
        return Unverified;
      }
      return Verified(family.client, stored.scopes, stored.expires, family.resource);
    }

    method RevokeOneFamily(f: FamilyId, now: int)
      modifies `families
      ensures Tables() == RevokeFamily(old(Tables()), f, now)
    {
      if f in families {
        families := families[f := families[f].(revoked := Mark(families[f].revoked, now))];
      }
    }

    method RevokeToken(s: Settings, now: int, token: Token)
      modifies this
      ensures Tables() == Revoke(old(Tables()), s, now, token)
    {
      hide RevokeFamily;
      var d := Digest(s.generation, token);
      if d in access {
        var f := access[d].family;
        access := access[d := access[d].(revoked := Mark(access[d].revoked, now))];
        RevokeOneFamily(f, now);
      }
      assert Tables() == RevokeAccess(old(Tables()), d, now);
      if d in refresh {
        var f := refresh[d].family;
        refresh := refresh[d := refresh[d].(revoked := Mark(refresh[d].revoked, now))];
        RevokeOneFamily(f, now);
      }
    }
  }

  method Serve(server: Server, call: Call) returns (reply: Reply)
    modifies server
    ensures server.Tables() == Respond(old(server.Tables()), call).auth
    ensures reply == Respond(old(server.Tables()), call).reply
  {
    hide Issue, Exchange, Rotate, Verify, Revoke;
    var s, now := call.settings, call.now;
    match call.request
    case IssueRequest(client, resource, scopes, challenge) =>
      reply := server.IssueAuthorizationCode(s, now, client, resource, scopes, challenge);
    case ExchangeRequest(code, client, resource, verifier) =>
      reply := server.ExchangeAuthorizationCode(s, now, code, client, resource, verifier);
    case RotateRequest(token, client, resource, requested) =>
      reply := server.RefreshTokens(s, now, token, client, resource, requested);
    case VerifyRequest(token) =>
      reply := server.VerifyAccessToken(s, now, token);
    case RevokeRequest(token) =>
      server.RevokeToken(s, now, token);
      reply := Done;
  }

  /** A new server after any run of calls holds the tables of the run. */
  method ServeAll(calls: seq<Call>) returns (server: Server, replies: seq<Reply>)
    ensures fresh(server) && server.Tables() == Execute(EMPTY_AUTH, calls)
    ensures |replies| == |calls|
    ensures forall i :: 0 <= i < |calls| ==> replies[i] == Respond(Execute(EMPTY_AUTH, calls[..i]), calls[i]).reply
  {
    server := new Server();
    replies := [];
    hide Respond;
    for i := 0 to |calls|
      invariant fresh(server) && server.Tables() == Execute(EMPTY_AUTH, calls[..i])
      invariant |replies| == i
      invariant forall j :: 0 <= j < i ==> replies[j] == Respond(Execute(EMPTY_AUTH, calls[..j]), calls[j]).reply
    {
      assert calls[..i + 1][..|calls[..i + 1]| - 1] == calls[..i];
      var reply := Serve(server, calls[i]);
      replies := replies + [reply];
    }
    assert calls[..|calls|] == calls;
  }
}
