/** Where every accepted code and token comes from: the earlier call that handed it out,
    to the same client, for the same resource, under the same key. */
module OAuthOrigins {
  import opened Options
  import opened OAuthSpec
  import opened OAuthProofs
  import opened OAuthTheorems
  import opened OAuthAcceptance

  /** The tables before, and the reply to, the i-th call of a run. */
  ghost function At(calls: seq<Call>, i: nat): Auth
    requires i <= |calls|
  {
    Execute(EMPTY_AUTH, calls[..i])
  }

  ghost function ReplyAt(calls: seq<Call>, i: nat): Reply
    requires i < |calls|
  {
    Respond(At(calls, i), calls[i]).reply
  }

  lemma SamePrefix(calls: seq<Call>, n: nat, i: nat)
    requires i <= n <= |calls|
    ensures At(calls[..n], i) == At(calls, i)
    ensures i < n ==> calls[..n][i] == calls[i] && ReplyAt(calls[..n], i) == ReplyAt(calls, i)
  {
    hide Respond;
    assert calls[..n][..i] == calls[..i];
  }

  // ---------------------------------------------------------------------
  // Codes

  /** The i-th call handed out the code, with these bindings. */
  ghost predicate Issues(calls: seq<Call>, i: nat, d: Digest, client: Client, resource: string, scopes: set<Scope>,
                         challenge: string, expires: int)
    requires i < |calls|
  {
    && calls[i].request == IssueRequest(client, resource, scopes, challenge)
    && ReplyAt(calls, i) == CodeIssued(d.token) && calls[i].settings.generation == d.generation
    && expires == calls[i].now + calls[i].settings.codeTtl
  }

  lemma RespondCodes(a: Auth, call: Call, d: Digest)
    requires d in Respond(a, call).auth.codes
    ensures var row := Respond(a, call).auth.codes[d];
            || (d in a.codes && SameBinding(a.codes[d], row))
            || (&& call.request == IssueRequest(row.client, row.resource, row.scopes, row.challenge)
                && Respond(a, call).reply == CodeIssued(d.token)
                && call.settings.generation == d.generation == row.generation
                && row.expires == call.now + call.settings.codeTtl)
  {
    hide Rotated, Revoke, Compromised;
    RotatedCodes(a, call);
  }

  lemma RotatedCodes(a: Auth, call: Call)
    ensures forall b: Auth, s, now, f, scopes | f in b.families ::
              Rotated(b, s, now, f, scopes).codes == b.codes
    ensures Revoke(a, call.settings, call.now, if call.request.RevokeRequest? then call.request.token else 0).codes ==
              a.codes
    ensures forall b: Auth, f, now | f in b.families :: Compromised(b, f, now).codes == b.codes
  {
  }

  lemma {:induction false} CodeOrigin(calls: seq<Call>, d: Digest)
    requires d in Execute(EMPTY_AUTH, calls).codes
    ensures var row := Execute(EMPTY_AUTH, calls).codes[d];
            && row.generation == d.generation
            && exists i :: 0 <= i < |calls| &&
                 Issues(calls, i, d, row.client, row.resource, row.scopes, row.challenge, row.expires)
  {
    hide Respond, Issues;
    if calls == [] {
      assert false;
    } else {
      var n := |calls| - 1;
      var row := Execute(EMPTY_AUTH, calls).codes[d];
      RespondCodes(At(calls, n), calls[n], d);
      if d in At(calls, n).codes && SameBinding(At(calls, n).codes[d], row) {
        CodeOrigin(calls[..n], d);
        var i :| 0 <= i < n
                 && Issues(calls[..n], i, d, row.client, row.resource, row.scopes, row.challenge, row.expires);
        IssuesLonger(calls, n, i, d, row);
      } else {
        IssuesLast(calls, d, row);
      }
    }
  }

  lemma IssuesLonger(calls: seq<Call>, n: nat, i: nat, d: Digest, row: Code)
    requires i < n <= |calls|
    requires Issues(calls[..n], i, d, row.client, row.resource, row.scopes, row.challenge, row.expires)
    ensures Issues(calls, i, d, row.client, row.resource, row.scopes, row.challenge, row.expires)
  {
    hide ReplyAt;
    SamePrefix(calls, n, i);
  }

  lemma IssuesLast(calls: seq<Call>, d: Digest, row: Code)
    requires calls != []
    requires var call := calls[|calls| - 1];
             && call.request == IssueRequest(row.client, row.resource, row.scopes, row.challenge)
             && ReplyAt(calls, |calls| - 1) == CodeIssued(d.token)
             && call.settings.generation == d.generation && row.expires == call.now + call.settings.codeTtl
    ensures Issues(calls, |calls| - 1, d, row.client, row.resource, row.scopes, row.challenge, row.expires)
  {
    hide ReplyAt;
  }

  /** The run has handed out the code to this client, for this resource and with the
      challenge of this verifier, less than its lifetime ago. */
  ghost predicate CodeMatches(calls: seq<Call>, i: nat, exchange: Call)
    requires i < |calls| && exchange.request.ExchangeRequest?
  {
    && calls[i].request.IssueRequest?
    && ReplyAt(calls, i) == CodeIssued(exchange.request.code)
    && calls[i].settings.generation == exchange.settings.generation
    && calls[i].request.client == exchange.request.client
    && calls[i].request.resource == exchange.request.resource
    && calls[i].request.challenge == exchange.request.verifier
    && exchange.now < calls[i].now + calls[i].settings.codeTtl
  }

  lemma PairMeansUsable(a: Auth, call: Call)
    requires call.request.ExchangeRequest? && Respond(a, call).reply.Pair?
    ensures var d := Digest(call.settings.generation, call.request.code);
            && d in a.codes && a.codes[d].client == call.request.client && a.codes[d].resource == call.request.resource
            && a.codes[d].challenge == call.request.verifier && call.now < a.codes[d].expires
            && Respond(a, call).reply.scopes == a.codes[d].scopes
            && call.request.client in call.settings.clients && call.request.resource == call.settings.resource
  {
  }

  /** An exchange that yields a pair was preceded by the issue of that very code, with the
      same bindings and the verifier's challenge, and grants what was asked for then. */
  lemma ExchangeNeedsIssue(calls: seq<Call>, exchange: Call) returns (i: nat)
    requires exchange.request.ExchangeRequest?
    requires Respond(Execute(EMPTY_AUTH, calls), exchange).reply.Pair?
    ensures i < |calls| && CodeMatches(calls, i, exchange)
    ensures Respond(Execute(EMPTY_AUTH, calls), exchange).reply.scopes == calls[i].request.scopes
    ensures exchange.request.client in exchange.settings.clients
    ensures exchange.request.resource == exchange.settings.resource
  {
    var a := Execute(EMPTY_AUTH, calls);
    var d := Digest(exchange.settings.generation, exchange.request.code);
    hide Respond, ReplyAt, Execute;
    PairMeansUsable(a, exchange);
    CodeOrigin(calls, d);
    var row := a.codes[d];
    i :| 0 <= i < |calls| && Issues(calls, i, d, row.client, row.resource, row.scopes, row.challenge, row.expires);
  }

  /** The call exchanges the code. */
  ghost predicate Exchanges(a: Auth, call: Call, d: Digest) {
    && call.request.ExchangeRequest? && Digest(call.settings.generation, call.request.code) == d
    && Respond(a, call).reply.Pair?
  }

  ghost predicate Exchanged(a: Auth, calls: seq<Call>, d: Digest) {
    exists i :: 0 <= i < |calls| && Exchanges(Execute(a, calls[..i]), calls[i], d)
  }

  ghost predicate Ready(a: Auth, d: Digest, row: Code) {
    d in a.codes && a.codes[d] == row && row.consumed.None? && d.token < a.issued
  }

  lemma ReadyStep(a: Auth, call: Call, d: Digest, row: Code)
    requires Ready(a, d, row) && FreshOk(a) && !Exchanges(a, call, d) && call.now <= row.expires
    ensures Ready(Respond(a, call).auth, d, row)
  {
    hide Cleaned;
    if call.request.IssueRequest? {
      CleanedIssued(a, call.now);
      CleanedReady(a, call.now, d, row);
    }
  }

  lemma CleanedReady(a: Auth, now: int, d: Digest, row: Code)
    requires Ready(a, d, row) && now <= row.expires
    ensures Ready(Cleaned(a, now), d, row)
  {
  }

  lemma {:induction false} ReadyLong(a: Auth, calls: seq<Call>, d: Digest, row: Code)
    requires Ready(a, d, row) && !Exchanged(a, calls, d)
    requires forall i :: 0 <= i < |calls| ==> calls[i].now <= row.expires && FreshOk(Execute(a, calls[..i]))
    ensures Ready(Execute(a, calls), d, row)
  {
    hide Respond, FreshOk, Exchanges, Ready;
    if calls != [] {
      var n := |calls| - 1;
      forall i | 0 <= i < n
        ensures calls[..n][..i] == calls[..i] && !Exchanges(Execute(a, calls[..n][..i]), calls[..n][i], d)
      {
        assert calls[..n][..i] == calls[..i];
      }
      ReadyLong(a, calls[..n], d, row);
      ReadyStep(Execute(a, calls[..n]), calls[n], d, row);
    }
  }

  lemma IssuedIsReady(a: Auth, issue: Call)
    requires issue.request.IssueRequest? && Respond(a, issue).reply.CodeIssued? && FreshOk(a)
    ensures var r := Respond(a, issue);
            var d := Digest(issue.settings.generation, r.reply.code);
            var q := issue.request;
            && Ready(r.auth, d, Code(q.client, q.resource, q.scopes, q.challenge, issue.settings.generation,
                                     issue.now + issue.settings.codeTtl, None))
            && FreshOk(r.auth)
            && forall e :: e in r.auth.codes && e.token == d.token ==> e == d
  {
    hide Cleaned;
    CleanedIssued(a, issue.now);
    CleanedFresh(a, issue.now);
  }

  lemma LaterRefuses(a: Auth, b: Auth, d: Digest, row: Code, exchange: Call)
    requires Ready(a, d, row) && Later(a, b) && exchange.request.ExchangeRequest? && exchange.request.code == d.token
    requires forall e :: e in a.codes && e.token == d.token ==> e == d
    requires Respond(b, exchange).reply.Pair?
    ensures exchange.settings.generation == d.generation && exchange.request.client == row.client
    ensures exchange.request.resource == row.resource && exchange.request.verifier == row.challenge
    ensures exchange.now < row.expires
    ensures exchange.request.client in exchange.settings.clients
    ensures exchange.request.resource == exchange.settings.resource
  {
    hide Respond;
    PairMeansUsable(b, exchange);
  }

  lemma ReadyAccepts(a: Auth, d: Digest, row: Code, exchange: Call)
    requires Ready(a, d, row) && exchange.request.ExchangeRequest? && exchange.request.code == d.token
    requires row.generation == d.generation == exchange.settings.generation
    requires exchange.request.client == row.client && exchange.request.resource == row.resource
    requires exchange.request.verifier == row.challenge && exchange.now < row.expires
    requires exchange.request.client in exchange.settings.clients
    requires exchange.request.resource == exchange.settings.resource
    ensures Respond(a, exchange).reply.Pair?
  {
    hide Rotated;
    assert exchange.settings.KnowsClient(row.client.id);
  }

  lemma ExchangedRefuses(a: Auth, calls: seq<Call>, d: Digest, exchange: Call)
    requires Exchanged(a, calls, d) && d.token < a.issued && exchange.request.ExchangeRequest?
    requires exchange.request.code == d.token && exchange.settings.generation == d.generation
    requires forall i :: 0 <= i < |calls| ==> FreshOk(Execute(a, calls[..i]))
    ensures Respond(Execute(a, calls), exchange).reply.Denied?
  {
    var i :| 0 <= i < |calls| && Exchanges(Execute(a, calls[..i]), calls[i], d);
    var x := Execute(a, calls[..i]);
    hide Execute, FreshOk, Opened;
    ExchangedCode(x, calls[i]);
    ExecuteSplit(a, calls, i);
    ExecuteLater(Respond(x, calls[i]).auth, calls[i + 1..]);
  }

  lemma ExchangeReply(a: Auth, exchange: Call)
    requires exchange.request.ExchangeRequest?
    ensures Respond(a, exchange).reply.Pair? || Respond(a, exchange).reply.Denied?
  {
  }

  /** An issued code yields a pair exactly when it is presented under the key it was
      issued with, by its client, for its resource, with the verifier of its challenge,
      within its lifetime, and was not exchanged before. */
  lemma ExchangeUntilUsed(before: seq<Call>, issue: Call, between: seq<Call>, exchange: Call)
    requires Timely(before + [issue] + between) && NotAfter(before + [issue] + between, exchange.now)
    requires issue.request.IssueRequest? && exchange.request.ExchangeRequest?
    requires Respond(Execute(EMPTY_AUTH, before), issue).reply == CodeIssued(exchange.request.code)
    ensures var r := Respond(Execute(EMPTY_AUTH, before), issue).auth;
            Respond(Execute(r, between), exchange).reply.Pair? <==>
              && exchange.settings.generation == issue.settings.generation
              && exchange.request.client == issue.request.client && exchange.request.resource == issue.request.resource
              && exchange.request.verifier == issue.request.challenge
              && exchange.now < issue.now + issue.settings.codeTtl
              && exchange.request.client in exchange.settings.clients
              && exchange.request.resource == exchange.settings.resource
              && !Exchanged(r, between, Digest(issue.settings.generation, exchange.request.code))
  {
    var a := Execute(EMPTY_AUTH, before);
    var r := Respond(a, issue).auth;
    var b := Execute(r, between);
    var d := Digest(issue.settings.generation, exchange.request.code);
    var q := issue.request;
    var row := Code(q.client, q.resource, q.scopes, q.challenge, issue.settings.generation,
                    issue.now + issue.settings.codeTtl, None);
    hide *;
    PrefixParts(before, issue, between, exchange.now);
    AfterClock(before, issue, between, exchange.now);
    IssuedIsReady(a, issue);
    ReadyMeans(r, d, row);
    ExecuteLater(r, between);
    ExchangeReply(b, exchange);
    if Respond(b, exchange).reply.Pair? {
      LaterRefuses(r, b, d, row, exchange);
      if Exchanged(r, between, d) { ExchangedRefuses(r, between, d, exchange); }
    } else if !Exchanged(r, between, d) && exchange.now < row.expires {
      ReadyLong(r, between, d, row);
      if && exchange.settings.generation == issue.settings.generation && exchange.request.client == q.client
         && exchange.request.resource == q.resource && exchange.request.verifier == q.challenge
         && exchange.request.client in exchange.settings.clients
         && exchange.request.resource == exchange.settings.resource
      {
        ReadyAccepts(b, d, row, exchange);
      }
    }
  }

  lemma ReadyMeans(a: Auth, d: Digest, row: Code)
    requires Ready(a, d, row)
    ensures d.token < a.issued
  {
  }

  // ---------------------------------------------------------------------
  // Tokens

  /** The client that an exchange or a rotation names. */
  function ClientOf(request: Request): string
    requires request.ExchangeRequest? || request.RotateRequest?
  {
    if request.ExchangeRequest? then request.client.id else request.clientId
  }

  /** The call answered a pair for this client and resource, under this key. */
  ghost predicate Grants(call: Call, reply: Reply, generation: string, origin: Origin) {
    && reply.Pair? && call.settings.generation == generation == origin.generation
    && (call.request.ExchangeRequest? || call.request.RotateRequest?)
    && ClientOf(call.request) == origin.client && call.request.resource == origin.resource
    && reply.expiresIn == call.settings.accessTtl
  }

  ghost predicate GrantsAccess(call: Call, reply: Reply, d: Digest, row: Access, origin: Origin) {
    && Grants(call, reply, d.generation, origin) && reply.access == d.token && reply.scopes == row.scopes
    && row.expires == call.now + reply.expiresIn
  }

  ghost predicate GrantsRefresh(call: Call, reply: Reply, d: Digest, row: Refresh, origin: Origin) {
    && Grants(call, reply, d.generation, origin) && reply.refresh == d.token && reply.scopes == row.scopes
    && row.expires == call.now + call.settings.refreshTtl
  }

  ghost predicate SameOrigin(a: Auth, b: Auth, f: FamilyId) {
    f in a.families && f in b.families && OriginOf(b.families[f]) == OriginOf(a.families[f])
  }

  lemma RespondOrigin(a: Auth, call: Call, f: FamilyId)
    requires f in a.families && f in Respond(a, call).auth.families && FreshOk(a)
    ensures SameOrigin(a, Respond(a, call).auth, f)
  {
  }

  /** No token row appears, and none changes what it grants. */
  ghost predicate Quiet(a: Auth, b: Auth) {
    && (forall d :: d in b.access ==> d in a.access && b.access[d].(revoked := None) == a.access[d].(revoked := None))
    && (forall d :: d in b.refresh ==>
          d in a.refresh && b.refresh[d].(revoked := None) == a.refresh[d].(revoked := None))
  }

  lemma CleanedQuiet(a: Auth, now: int)
    ensures Quiet(a, Cleaned(a, now))
  {
  }

  lemma RevokeAccessQuiet(a: Auth, d: Digest, now: int)
    ensures Quiet(a, RevokeAccess(a, d, now))
  {
  }

  lemma RevokeRefreshQuiet(a: Auth, d: Digest, now: int)
    ensures Quiet(a, RevokeRefresh(a, d, now))
  {
  }

  lemma QuietTokens(a: Auth, call: Call)
    requires !Respond(a, call).reply.Pair?
    ensures Quiet(a, Respond(a, call).auth)
  {
    hide Rotated, Opened, Cleaned, RevokeAccess, RevokeRefresh;
    match call.request
    case IssueRequest(client, resource, scopes, challenge) => CleanedQuiet(a, call.now);
    case ExchangeRequest(code, client, resource, verifier) =>
    case RotateRequest(token, client, resource, requested) =>
    case VerifyRequest(token) =>
    case RevokeRequest(token) =>
      var d := Digest(call.settings.generation, token);
      RevokeAccessQuiet(a, d, call.now);
      RevokeRefreshQuiet(RevokeAccess(a, d, call.now), d, call.now);
  }

  /** The tables hold the two tokens of the answer, and no other new one. */
  ghost predicate Granted(a: Auth, b: Auth, call: Call, reply: Reply) {
    && reply.Pair?
    && var d, e := Digest(call.settings.generation, reply.access), Digest(call.settings.generation, reply.refresh);
       && d in b.access && e in b.refresh && b.access[d].family in b.families
       && b.refresh[e].family == b.access[d].family
       && GrantsAccess(call, reply, d, b.access[d], OriginOf(b.families[b.access[d].family]))
       && GrantsRefresh(call, reply, e, b.refresh[e], OriginOf(b.families[b.access[d].family]))
       && b.access == a.access[d := b.access[d]]
       && (forall x :: x in b.refresh && x != e ==>
             x in a.refresh && b.refresh[x].(consumed := None) == a.refresh[x].(consumed := None))
  }

  lemma ExchangeGrants(a: Auth, call: Call)
    requires Respond(a, call).reply.Pair? && call.request.ExchangeRequest?
    ensures Granted(a, Respond(a, call).auth, call, Respond(a, call).reply)
  {
  }

  lemma RotateGrants(a: Auth, call: Call)
    requires Respond(a, call).reply.Pair? && call.request.RotateRequest?
    ensures Granted(a, Respond(a, call).auth, call, Respond(a, call).reply)
  {
  }

  lemma PairTokens(a: Auth, call: Call)
    requires Respond(a, call).reply.Pair?
    ensures Granted(a, Respond(a, call).auth, call, Respond(a, call).reply)
  {
    hide Granted, Rotated, Opened, Cleaned;
    if call.request.ExchangeRequest? { ExchangeGrants(a, call); }
    if call.request.RotateRequest? { RotateGrants(a, call); }
  }

  lemma RespondAccess(a: Auth, call: Call, d: Digest)
    requires var b := Respond(a, call).auth;
             d in b.access && b.access[d].family in b.families && (d in a.access ==> a.access[d].family in a.families)
    requires FreshOk(a)
    ensures var b := Respond(a, call).auth;
            var row := b.access[d];
            || (d in a.access && a.access[d].family == row.family && a.access[d].scopes == row.scopes
                && a.access[d].expires == row.expires && SameOrigin(a, b, row.family))
            || GrantsAccess(call, Respond(a, call).reply, d, row, OriginOf(b.families[row.family]))
  {
    var row := Respond(a, call).auth.access[d];
    hide Respond, FreshOk, SameOrigin, GrantsAccess, GrantsRefresh;
    if Respond(a, call).reply.Pair? { PairTokens(a, call); } else { QuietTokens(a, call); }
    if row.family in a.families { RespondOrigin(a, call, row.family); }
  }

  lemma RespondRefresh(a: Auth, call: Call, d: Digest)
    requires var b := Respond(a, call).auth;
             && d in b.refresh && b.refresh[d].family in b.families
             && (d in a.refresh ==> a.refresh[d].family in a.families)
    requires FreshOk(a)
    ensures var b := Respond(a, call).auth;
            var row := b.refresh[d];
            || (d in a.refresh && a.refresh[d].family == row.family && a.refresh[d].scopes == row.scopes
                && a.refresh[d].expires == row.expires && SameOrigin(a, b, row.family))
            || GrantsRefresh(call, Respond(a, call).reply, d, row, OriginOf(b.families[row.family]))
  {
    var row := Respond(a, call).auth.refresh[d];
    hide Respond, FreshOk, SameOrigin, GrantsAccess, GrantsRefresh;
    if Respond(a, call).reply.Pair? { PairTokens(a, call); } else { QuietTokens(a, call); }
    if row.family in a.families { RespondOrigin(a, call, row.family); }
  }

  /** Tokens of reachable tables have families. */
  lemma TokensRooted(calls: seq<Call>)
    requires Timely(calls)
    ensures var a := Execute(EMPTY_AUTH, calls);
            && (forall d :: d in a.access ==> a.access[d].family in a.families)
            && (forall d :: d in a.refresh ==> a.refresh[d].family in a.families) && FreshOk(a)
  {
    var a := Execute(EMPTY_AUTH, calls);
    var clock := LastClock(calls);
    ReachableInv(calls, clock);
    hide Execute, Timely, NotAfter, LastClock;
    forall d | d in a.access ensures a.access[d].family in a.families {
      assert AccessOk(a.families, a.refresh, clock, d, a.access[d]);
    }
    forall d | d in a.refresh ensures a.refresh[d].family in a.families {
      assert RefreshOk(a.families, a.refresh[d]);
    }
  }

  lemma {:induction false} AccessOrigin(calls: seq<Call>, d: Digest) returns (i: nat)
    requires Timely(calls) && d in Execute(EMPTY_AUTH, calls).access
    ensures i < |calls|
    ensures var a := Execute(EMPTY_AUTH, calls);
            && a.access[d].family in a.families
            && GrantsAccess(calls[i], ReplyAt(calls, i), d, a.access[d], OriginOf(a.families[a.access[d].family]))
  {
    hide Respond, Timely, FreshOk, Grants;
    TokensRooted(calls);
    var n := |calls| - 1;
    if calls == [] {
      assert false;
    } else {
      TimelyPrefix(calls, n);
      TokensRooted(calls[..n]);
      RespondAccess(At(calls, n), calls[n], d);
      if GrantsAccess(calls[n], ReplyAt(calls, n), d, Execute(EMPTY_AUTH, calls).access[d],
                      OriginOf(Execute(EMPTY_AUTH, calls).families[Execute(EMPTY_AUTH, calls).access[d].family])) {
        i := n;
      } else {
        i := AccessOrigin(calls[..n], d);
        SamePrefix(calls, n, i);
      }
    }
  }

  lemma {:induction false} RefreshOrigin(calls: seq<Call>, d: Digest) returns (i: nat)
    requires Timely(calls) && d in Execute(EMPTY_AUTH, calls).refresh
    ensures i < |calls|
    ensures var a := Execute(EMPTY_AUTH, calls);
            && a.refresh[d].family in a.families
            && GrantsRefresh(calls[i], ReplyAt(calls, i), d, a.refresh[d], OriginOf(a.families[a.refresh[d].family]))
  {
    hide Respond, Timely, FreshOk, Grants;
    TokensRooted(calls);
    var n := |calls| - 1;
    if calls == [] {
      assert false;
    } else {
      TimelyPrefix(calls, n);
      TokensRooted(calls[..n]);
      RespondRefresh(At(calls, n), calls[n], d);
      if GrantsRefresh(calls[n], ReplyAt(calls, n), d, Execute(EMPTY_AUTH, calls).refresh[d],
                       OriginOf(Execute(EMPTY_AUTH, calls).families[Execute(EMPTY_AUTH, calls).refresh[d].family])) {
        i := n;
      } else {
        i := RefreshOrigin(calls[..n], d);
        SamePrefix(calls, n, i);
      }
    }
  }

  /** An accepted access token was handed out by an earlier pair, to the client and with
      the scopes and expiry that the check reports, under the same key and for the
      resource that it is presented to. */
  lemma VerificationNeedsPair(calls: seq<Call>, s: Settings, now: int, token: Token) returns (i: nat)
    requires Timely(calls) && Verify(Execute(EMPTY_AUTH, calls), s, now, token).Verified?
    ensures i < |calls| && ReplyAt(calls, i).Pair? && ReplyAt(calls, i).access == token
    ensures calls[i].settings.generation == s.generation
    ensures calls[i].request.ExchangeRequest? || calls[i].request.RotateRequest?
    ensures var v := Verify(Execute(EMPTY_AUTH, calls), s, now, token);
            && v.client == ClientOf(calls[i].request) && v.resource == calls[i].request.resource == s.resource
            && v.scopes == ReplyAt(calls, i).scopes
            && v.expires == calls[i].now + ReplyAt(calls, i).expiresIn == calls[i].now + calls[i].settings.accessTtl
            && now < v.expires
  {
    hide Execute, ReplyAt, Timely;
    i := AccessOrigin(calls, Digest(s.generation, token));
  }

  lemma PairMeansRefreshable(a: Auth, call: Call)
    requires call.request.RotateRequest? && Respond(a, call).reply.Pair?
    ensures var d := Digest(call.settings.generation, call.request.token);
            var reply := Respond(a, call).reply;
            && d in a.refresh && a.refresh[d].family in a.families && call.now < a.refresh[d].expires
            && OriginOf(a.families[a.refresh[d].family]) ==
                 Origin(call.request.clientId, call.request.resource, call.settings.generation)
            && call.request.resource == call.settings.resource
            && (exists c :: c in call.settings.clients && c.id == call.request.clientId)
            && reply.scopes <= a.refresh[d].scopes
            && match call.request.requested
               case None => reply.scopes == a.refresh[d].scopes
               case Some(scopes) => reply.scopes == scopes && scopes != {}
  {
  }

  /** A rotation that yields a pair presents the refresh token of an earlier pair within
      its lifetime, for the same client and resource and under the same key, and grants
      the scopes asked for, all of them among the earlier ones. */
  lemma RotationNeedsPair(calls: seq<Call>, rotate: Call) returns (i: nat)
    requires Timely(calls) && rotate.request.RotateRequest?
    requires Respond(Execute(EMPTY_AUTH, calls), rotate).reply.Pair?
    ensures i < |calls| && ReplyAt(calls, i).Pair? && ReplyAt(calls, i).refresh == rotate.request.token
    ensures calls[i].settings.generation == rotate.settings.generation
    ensures calls[i].request.ExchangeRequest? || calls[i].request.RotateRequest?
    ensures ClientOf(calls[i].request) == rotate.request.clientId
    ensures calls[i].request.resource == rotate.request.resource == rotate.settings.resource
    ensures exists c :: c in rotate.settings.clients && c.id == rotate.request.clientId
    ensures rotate.now < calls[i].now + calls[i].settings.refreshTtl
    ensures var granted := Respond(Execute(EMPTY_AUTH, calls), rotate).reply.scopes;
            && granted <= ReplyAt(calls, i).scopes
            && match rotate.request.requested
               case None => granted == ReplyAt(calls, i).scopes
               case Some(scopes) => granted == scopes && scopes != {}
  {
    hide Execute, Respond, ReplyAt, Timely;
    PairMeansRefreshable(Execute(EMPTY_AUTH, calls), rotate);
    i := RefreshOrigin(calls, Digest(rotate.settings.generation, rotate.request.token));
  }

  // ---------------------------------------------------------------------
  // Refusals

  ghost predicate Registered(s: Settings, id: string) {
    exists c :: c in s.clients && c.id == id
  }

  /** Some scope is none of the three that the server knows, or none is asked for. */
  ghost predicate BadScopes(scopes: set<Scope>) {
    scopes == {} || exists x :: x in scopes && x != "budget:read" && x != "budget:refresh" && x != "budget:config"
  }

  lemma BadScopesIs(scopes: set<Scope>)
    ensures BadScopes(scopes) <==> !ScopesSupported(scopes)
  {
  }

  /** A code is issued to every registered client for the server's resource and known
      scopes, and refused with the code of section 4.1.2.1 of RFC 6749 otherwise. */
  lemma IssueAnswer(a: Auth, call: Call)
    requires call.request.IssueRequest?
    ensures var s, q, reply := call.settings, call.request, Respond(a, call).reply;
            if q.client !in s.clients then reply == Denied(UnauthorizedClient)
            else if q.resource != s.resource then reply == Denied(InvalidTarget)
            else if BadScopes(q.scopes) then reply == Denied(InvalidScope)
            else reply.CodeIssued?
    ensures Respond(a, call).reply.Denied? ==> Respond(a, call).auth == a
  {
    BadScopesIs(call.request.scopes);
    hide Cleaned;
  }

  /** A refused exchange names the client, then the resource, then the grant, and changes nothing. */
  lemma ExchangeAnswer(a: Auth, call: Call)
    requires call.request.ExchangeRequest?
    ensures var s, q, reply := call.settings, call.request, Respond(a, call).reply;
            if !Registered(s, q.client.id) then reply == Denied(InvalidClient)
            else if q.resource != s.resource then reply == Denied(InvalidTarget)
            else reply.Pair? || reply == Denied(InvalidGrant)
    ensures Respond(a, call).reply.Denied? ==> Respond(a, call).auth == a
  {
    hide Opened;
  }

  /** So does a refused rotation, except that bad scopes have a code of their own when
      everything else is in order, and that a replay ends the family. */
  lemma RotateAnswer(a: Auth, call: Call)
    requires call.request.RotateRequest?
    ensures var s, q, reply := call.settings, call.request, Respond(a, call).reply;
            var plain := call.(request := q.(requested := None));
            && (if !Registered(s, q.clientId) then reply == Denied(InvalidClient)
                else if q.resource != s.resource then reply == Denied(InvalidTarget)
                else reply.Pair? || reply == Denied(InvalidGrant) || reply == Denied(InvalidScope))
            && (reply == Denied(InvalidScope) <==>
                  q.requested.Some? && Respond(a, plain).reply.Pair?
                  && (BadScopes(q.requested.value) || !(q.requested.value <= Respond(a, plain).reply.scopes)))
            && (reply.Denied? && !IsReplay(a, call) ==> Respond(a, call).auth == a)
  {
    if call.request.requested.Some? { BadScopesIs(call.request.requested.value); }
    hide Rotated, Compromised;
  }
}
