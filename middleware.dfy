/**
 * The authentication middleware of the HTTP API: bearer tokens taken from
 * the Authorization header (or, for the fallback middleware, from the
 * `token` query parameter), API tokens checked against the token table,
 * other tokens handed to JWT validation, and the per-route scope check.
 *
 * A request context is the three values the middleware sets; a middleware
 * either passes the request on with a context or aborts it with a status
 * and an error message. JWT validation is a parameter.
 */
module ApiTokenMiddleware {
  import opened Wrappers
  import opened Text
  import opened TokenModel
  import opened Store
  import opened TokenHandlers

  const BearerScheme := "Bearer"

  const AuthorizationRequired := "Authorization required"
  const InvalidOrExpired := "Invalid or expired API token"
  const TokenExpired := "API token has expired"
  const InsufficientPermissions := "Insufficient permissions"
  const InvalidToken := "Invalid token"
  const InvalidClaims := "Invalid token claims"
  const ScopeRequiredPrefix := "Insufficient permissions. Required scope: "

  /** What the middleware stores for later handlers: the user, the JWT user name, the API token. */
  datatype Context = Context(userId: Option<nat>, username: Option<string>, apiToken: Option<APIToken>)

  /** A middleware passes the request on, or aborts it with a status and an error. */
  datatype Outcome = Next(ctx: Context) | Abort(status: int, error: string)

  /** The claims of a JWT: the user id and the user name. */
  datatype Claims = Claims(userId: nat, username: string)

  /** What parsing a JWT with the server secret gives: an error, or a token with its validity and claims. */
  datatype JwtResult = ParseError | Parsed(valid: bool, claims: Option<Claims>)

  type Jwt = string -> JwtResult

  // ---------------------------------------------------------------------------
  // The bearer token
  // ---------------------------------------------------------------------------

  /**
   * The token of an Authorization header: the header split at every
   * space must give exactly "Bearer" and one more part; otherwise none.
   */
  function BearerToken(header: string): string
  {
    var parts := Split(header, ' ');
    if |parts| == 2 && parts[0] == BearerScheme then parts[1] else ""
  }

  /** A header carries a token exactly when it is "Bearer", one space, and the token, which holds no space. */
  lemma BearerTokenIff(header: string, token: string)
    requires token != ""
    ensures BearerToken(header) == token <==> header == BearerScheme + " " + token && ' ' !in token
  {
    if BearerToken(header) == token {
      var parts := Split(header, ' ');
      SplitParts(header, ' ');
      JoinSplit(header, ' ');
      assert parts == [BearerScheme, token];
      assert Join(parts, ' ') == BearerScheme + " " + token;
    }
    if header == BearerScheme + " " + token && ' ' !in token {
      assert header == BearerScheme + [' '] + token;
      SplitAppendSep(BearerScheme, token, ' ');
      SplitNoSep(token, ' ');
    }
  }

  /** A generated API token survives the trip through the Authorization header. */
  lemma GeneratedTokenInHeader(random: seq<Hex.byte>)
    requires |random| == TokenLength
    ensures BearerToken(BearerScheme + " " + GenerateToken(random)) == GenerateToken(random)
  {
    var token := GenerateToken(random);
    forall k | 0 <= k < |token|
      ensures token[k] != ' '
    {
      if k >= |TokenPrefix| {
        assert Hex.IsLowerHex(token[k]);
      } else {
        assert token[k] == TokenPrefix[k];
      }
    }
    BearerTokenIff(BearerScheme + " " + token, token);
  }

  // ---------------------------------------------------------------------------
  // Scopes
  // ---------------------------------------------------------------------------

  /** The route's scopes allow the token: none are required, or the token grants one of them. */
  predicate ScopesAllow(t: APIToken, required: seq<string>)
  {
    required == [] || exists k :: 0 <= k < |required| && t.HasScope(required[k])
  }

  /** Tries the required scopes in order and stops at the first one the token grants. */
  method CheckScopes(t: APIToken, required: seq<string>) returns (ok: bool)
    ensures ok <==> ScopesAllow(t, required)
  {
    if |required| == 0 {
      return true;
    }
    for i := 0 to |required|
      invariant forall k :: 0 <= k < i ==> !t.HasScope(required[k])
    {
      if t.HasScope(required[i]) {
        return true;
      }
    }
    return false;
  }

  /**
   * The per-route check: a request authenticated by API token must have
   * the scope or "all"; any other request passes.
   */
  function RequireScope(ctx: Context, scope: string): (o: Outcome)
    ensures o.Next? <==> ctx.apiToken.None? || ctx.apiToken.value.HasScope(scope)
    ensures o.Next? ==> o.ctx == ctx
    ensures o.Abort? ==> o == Abort(403, ScopeRequiredPrefix + scope)
  {
    match ctx.apiToken
    case Some(t) =>
      if !t.HasScope(scope) && !t.HasScope(ScopeAll) then Abort(403, ScopeRequiredPrefix + scope)
      else Next(ctx)
    case None => Next(ctx)
  }

  // ---------------------------------------------------------------------------
  // API-token authentication
  // ---------------------------------------------------------------------------

  /** The stored token after a request used it: both time columns stamped. */
  function Stamped(t: APIToken, now: int): (u: APIToken)
    ensures u.lastUsedAt == Some(now) && u.updatedAt == now
    ensures u.(lastUsedAt := t.lastUsedAt, updatedAt := t.updatedAt) == t
  {
    t.(lastUsedAt := Some(now), updatedAt := now)
  }

  /** Some stored token with the hash is active and not expired at `at`. */
  predicate LiveAt(tokens: map<nat, APIToken>, hash: string, at: int)
  {
    exists i :: i in tokens && tokens[i].tokenHash == hash && tokens[i].isActive && !tokens[i].IsExpired(at)
  }

  /** The token stored under `i` lets the request in. */
  predicate Admits(tokens: map<nat, APIToken>, i: nat, hash: string, required: seq<string>, validatedAt: int, now: int)
  {
    && i in tokens && tokens[i].tokenHash == hash && tokens[i].isActive
    && !tokens[i].IsExpired(validatedAt) && !tokens[i].IsExpired(now)
    && ScopesAllow(tokens[i], required)
  }

  /**
   * The API-token branch shared by both middlewares: the lookup (its
   * expiry read at `validatedAt`), a second expiry check and the stamp
   * (both at `now`), the scopes; on success the request continues as the
   * token's user, with the stamped token in the context.
   */
  method AuthenticateApiToken(db: Database, sha: Sha, ctx: Context, tokenStr: string, required: seq<string>,
                              validatedAt: int, now: int) returns (o: Outcome)
    requires db.Valid() && HasPrefix(tokenStr, TokenPrefix)
    modifies db
    ensures db.Valid()
    ensures o.Abort? ==> db.tokens == old(db.tokens)
    ensures o.Next? <==> exists i :: Admits(old(db.tokens), i, HashToken(sha, tokenStr), required, validatedAt, now)
    ensures o.Next? ==>
              && o.ctx.apiToken.Some?
              && var t := o.ctx.apiToken.value;
              && t.id in old(db.tokens)
              && Admits(old(db.tokens), t.id, HashToken(sha, tokenStr), required, validatedAt, now)
              && t == Stamped(old(db.tokens)[t.id], now)
              && db.tokens == old(db.tokens)[t.id := t]
              && o.ctx == ctx.(userId := Some(t.userId), apiToken := Some(t))
    ensures forall i :: i in old(db.tokens) && old(db.tokens)[i].tokenHash == HashToken(sha, tokenStr)
                        && old(db.tokens)[i].isActive && !old(db.tokens)[i].IsExpired(validatedAt) ==>
              && (old(db.tokens)[i].IsExpired(now) ==> o == Abort(401, TokenExpired))
              && (!old(db.tokens)[i].IsExpired(now) && !ScopesAllow(old(db.tokens)[i], required) ==>
                    o == Abort(403, InsufficientPermissions))
    ensures !LiveAt(old(db.tokens), HashToken(sha, tokenStr), validatedAt) ==> o == Abort(401, InvalidOrExpired)
    ensures db.webhooks == old(db.webhooks) && db.deliveries == old(db.deliveries)
  {
    var check := ValidateAndGetToken(db, sha, tokenStr, validatedAt);
    if !check.Accepted? {
      return Abort(401, InvalidOrExpired);
    }
    var token := check.token;
    assert forall i :: i in db.tokens && db.tokens[i].tokenHash == token.tokenHash ==> i == token.id;
    if token.IsExpired(now) {
      return Abort(401, TokenExpired);
    }
    var ok := CheckScopes(token, required);
    if !ok {
      return Abort(403, InsufficientPermissions);
    }
    assert Admits(db.tokens, token.id, HashToken(sha, tokenStr), required, validatedAt, now);
    var used := Stamped(token, now);
    db.UpdateToken(used);
    o := Next(ctx.(userId := Some(used.userId), apiToken := Some(used)));
  }

  /**
   * Lets a request authenticated earlier through untouched; otherwise
   * needs a bearer token, passes a token without the API prefix on to
   * the JWT middleware, and authenticates an API token.
   */
  method APITokenMiddleware(db: Database, sha: Sha, ctx: Context, header: string, required: seq<string>,
                            validatedAt: int, now: int) returns (o: Outcome)
    requires db.Valid()
    modifies db
    ensures db.Valid()
    ensures ctx.userId.Some? ==> o == Next(ctx) && db.tokens == old(db.tokens)
    ensures ctx.userId.None? && BearerToken(header) == "" ==> o == Abort(401, AuthorizationRequired)
    ensures ctx.userId.None? && BearerToken(header) != "" && !HasPrefix(BearerToken(header), TokenPrefix) ==>
              o == Next(ctx) && db.tokens == old(db.tokens)
    ensures o.Abort? ==> db.tokens == old(db.tokens)
    ensures ctx.userId.None? && HasPrefix(BearerToken(header), TokenPrefix) ==>
              (o.Next? <==> exists i :: Admits(old(db.tokens), i, HashToken(sha, BearerToken(header)), required,
                                               validatedAt, now))
    ensures ctx.userId.None? && HasPrefix(BearerToken(header), TokenPrefix) && o.Next? ==>
              && o.ctx.apiToken.Some?
              && var t := o.ctx.apiToken.value;
              && t.id in old(db.tokens) && t == Stamped(old(db.tokens)[t.id], now)
              && o.ctx == ctx.(userId := Some(t.userId), apiToken := Some(t)) && ScopesAllow(t, required)
              && db.tokens == old(db.tokens)[t.id := t]
    ensures ctx.userId.Some? || !HasPrefix(BearerToken(header), TokenPrefix) ==> db.tokens == old(db.tokens)
    ensures db.webhooks == old(db.webhooks) && db.deliveries == old(db.deliveries)
  {
    if ctx.userId.Some? {
      return Next(ctx);
    }
    var tokenStr := BearerToken(header);
    if tokenStr == "" {
      return Abort(401, AuthorizationRequired);
    }
    if !(|TokenPrefix| <= |tokenStr| && tokenStr[..|TokenPrefix|] == TokenPrefix) {
      return Next(ctx);
    }
    o := AuthenticateApiToken(db, sha, ctx, tokenStr, required, validatedAt, now);
  }

  /**
   * Takes the bearer token, or the `token` query parameter when the
   * header has none; authenticates an API token, and otherwise validates
   * a JWT and continues as the user its claims name.
   */
  method AuthMiddlewareWithFallback(db: Database, sha: Sha, jwt: Jwt, ctx: Context, header: string, query: string,
                                    required: seq<string>, validatedAt: int, now: int) returns (o: Outcome)
    requires db.Valid()
    modifies db
    ensures db.Valid()
    ensures var tokenStr := if BearerToken(header) != "" then BearerToken(header) else query;
            && (tokenStr == "" ==> o == Abort(401, AuthorizationRequired))
            && (HasPrefix(tokenStr, TokenPrefix) ==>
                  (o.Next? <==> exists i :: Admits(old(db.tokens), i, HashToken(sha, tokenStr), required,
                                                   validatedAt, now)))
            && (HasPrefix(tokenStr, TokenPrefix) && o.Next? ==>
                  && o.ctx.apiToken.Some?
                  && var t := o.ctx.apiToken.value;
                  && t.id in old(db.tokens) && t == Stamped(old(db.tokens)[t.id], now)
                  && o.ctx == ctx.(userId := Some(t.userId), apiToken := Some(t)) && ScopesAllow(t, required)
                  && db.tokens == old(db.tokens)[t.id := t])
            && (tokenStr != "" && !HasPrefix(tokenStr, TokenPrefix) ==>
                  && db.tokens == old(db.tokens)
                  && o == match jwt(tokenStr)
                          case ParseError => Abort(401, InvalidToken)
                          case Parsed(valid, claims) =>
                            if valid && claims.Some?
                            then Next(ctx.(userId := Some(claims.value.userId), username := Some(claims.value.username)))
                            else Abort(401, InvalidClaims))
    ensures o.Abort? ==> db.tokens == old(db.tokens)
    ensures db.webhooks == old(db.webhooks) && db.deliveries == old(db.deliveries)
  {
    var tokenStr := BearerToken(header);
    if tokenStr == "" {
      tokenStr := query;
    }
    if tokenStr == "" {
      return Abort(401, AuthorizationRequired);
    }
    if |TokenPrefix| <= |tokenStr| && tokenStr[..|TokenPrefix|] == TokenPrefix {
      o := AuthenticateApiToken(db, sha, ctx, tokenStr, required, validatedAt, now);
      return;
    }
    var parsed := jwt(tokenStr);
    if parsed.ParseError? {
      return Abort(401, InvalidToken);
    }
    if parsed.claims.Some? && parsed.valid {
      o := Next(ctx.(userId := Some(parsed.claims.value.userId), username := Some(parsed.claims.value.username)));
    } else {
      o := Abort(401, InvalidClaims);
    }
  }

  /** A token let in for a route requiring `scope` also passes that route's scope check. */
  lemma AdmittedPassesRequireScope(t: APIToken, scope: string, username: Option<string>, now: int)
    requires ScopesAllow(t, [scope])
    ensures RequireScope(Context(Some(t.userId), username, Some(Stamped(t, now))), scope).Next?
  {
    var k :| 0 <= k < 1 && t.HasScope([scope][k]);
  }

  /** The "all" half of the scope check is redundant: HasScope already honours "all". */
  lemma RequireScopeAllRedundant(t: APIToken, scope: string)
    ensures t.HasScope(ScopeAll) ==> t.HasScope(scope)
  {
  }
}
