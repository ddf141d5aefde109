/**
 * The API-token handlers: the token format and its hash, the scope
 * validation of token creation, the lookup the middleware relies on, and
 * create, rotate, update and revoke on the token table.
 *
 * Randomness, SHA-256 and the clock are parameters: the 32 random bytes,
 * a `Sha` function from the token text to its digest, and `now` in seconds.
 */
module TokenHandlers {
  import opened Wrappers
  import opened Text
  import opened Hex
  import opened TokenModel
  import opened Store
  import opened Replies
  import Decimal

  const TokenPrefix := "plt_live_"
  const TokenLength := 32

  const NotAuthenticated := "User not authenticated"
  const NoValidScope := "At least one valid scope is required"
  const FailedCreate := "Failed to create token"
  const FailedRotate := "Failed to create new token"
  const TokenIdRequired := "Token ID is required"
  const TokenNotFound := "Token not found"
  const Revoked := "Token revoked successfully"

  /** SHA-256 of the token text, as bytes. */
  type Sha = string -> Digest

  // ---------------------------------------------------------------------------
  // Token format and hash
  // ---------------------------------------------------------------------------

  /** A raw token: the prefix, then the random bytes in lower-case hex. */
  function GenerateToken(random: seq<byte>): (token: string)
    requires |random| == TokenLength
    ensures HasPrefix(token, TokenPrefix) && |token| == |TokenPrefix| + 2 * TokenLength
    ensures forall k :: |TokenPrefix| <= k < |token| ==> IsLowerHex(token[k])
  {
    TokenPrefix + Encode(random)
  }

  /** The random bytes can be read back from a generated token, so distinct bytes give distinct tokens. */
  lemma GeneratedTokenDecodes(random: seq<byte>)
    requires |random| == TokenLength
    ensures Decode(GenerateToken(random)[|TokenPrefix|..]) == Some(random)
  {
    assert GenerateToken(random)[|TokenPrefix|..] == Encode(random);
    DecodeEncode(random);
  }

  /** What the token table stores: the lower-case hex of the token's SHA-256. */
  function HashToken(sha: Sha, token: string): (hash: string)
    ensures |hash| == 2 * DigestLength
    ensures forall k :: 0 <= k < |hash| ==> IsLowerHex(hash[k])
  {
    Encode(sha(token))
  }

  /** Two tokens share a stored hash only when their digests agree. */
  lemma HashTokenInjective(sha: Sha, a: string, b: string)
    requires HashToken(sha, a) == HashToken(sha, b)
    ensures sha(a) == sha(b)
  {
    EncodeInjective(sha(a), sha(b));
  }

  // ---------------------------------------------------------------------------
  // Scope validation
  // ---------------------------------------------------------------------------

  /** The requested scopes the service knows, in request order, duplicates kept. */
  function KnownScopes(requested: seq<string>): (r: seq<string>)
    ensures |r| <= |requested|
    ensures forall k :: 0 <= k < |r| ==> r[k] in AllAvailableScopes && r[k] in requested
    ensures forall k :: 0 <= k < |requested| && requested[k] in AllAvailableScopes ==> requested[k] in r
    ensures r == [] <==> forall k :: 0 <= k < |requested| ==> requested[k] !in AllAvailableScopes
  {
    if requested == [] then []
    else
      var init := requested[..|requested| - 1];
      var last := requested[|requested| - 1];
      assert requested == init + [last];
      KnownScopes(init) + (if last in AllAvailableScopes then [last] else [])
  }

  /**
   * The scopes a new token gets: just "all" when it is requested,
   * otherwise the known requested scopes.
   */
  function ValidatedScopes(requested: seq<string>): (r: seq<string>)
    ensures ScopeAll in requested ==> r == [ScopeAll]
    ensures forall k :: 0 <= k < |r| ==> r[k] in AllAvailableScopes
    ensures r == [] <==> forall k :: 0 <= k < |requested| ==> requested[k] !in AllAvailableScopes
  {
    if ScopeAll in requested then [ScopeAll] else KnownScopes(requested)
  }

  /** Marks the available scopes, looks for "all" (stopping at the first), then filters the request. */
  method ValidateScopes(requested: seq<string>) returns (validated: seq<string>)
    ensures validated == ValidatedScopes(requested)
  {
    var scopeMap: map<string, bool> := map[];
    for i := 0 to |AllAvailableScopes|
      invariant forall s :: s in scopeMap <==> s in AllAvailableScopes[..i]
      invariant forall s :: s in scopeMap ==> scopeMap[s]
    {
      scopeMap := scopeMap[AllAvailableScopes[i] := true];
    }
    assert AllAvailableScopes[..|AllAvailableScopes|] == AllAvailableScopes;
    var hasAllScope := false;
    for i := 0 to |requested|
      invariant !hasAllScope ==> ScopeAll !in requested[..i]
      invariant hasAllScope ==> ScopeAll in requested
    {
      if requested[i] == ScopeAll {
        hasAllScope := true;
        break;
      }
    }
    assert requested[..|requested|] == requested;
    validated := [];
    if hasAllScope {
      validated := [ScopeAll];
    } else {
      for i := 0 to |requested|
        invariant validated == KnownScopes(requested[..i])
      {
        assert requested[..i + 1][..i] == requested[..i];
        if requested[i] in scopeMap && scopeMap[requested[i]] {
          validated := validated + [requested[i]];
        }
      }
    }
  }

  /** No available scope is empty or holds a comma, so a validated list survives storage. */
  lemma ValidatedScopesStored(requested: seq<string>)
    ensures ScopeList(Join(ValidatedScopes(requested), ',')) == ValidatedScopes(requested)
  {
    var v := ValidatedScopes(requested);
    forall k | 0 <= k < |v|
      ensures v[k] != "" && ',' !in v[k]
    {
      assert v[k] in AllAvailableScopes;
      assert ',' !in ScopeAll && ',' !in ScopeMessagesSend && ',' !in ScopeMessagesRead;
      assert ',' !in ScopeMetricsRead && ',' !in ScopeStatusRead;
    }
    ScopesRoundTrip(v);
  }

  /** A token stored with the validated scopes grants every available scope that was requested. */
  lemma ValidatedScopesGrantRequested(requested: seq<string>, k: nat)
    requires k < |requested| && requested[k] in AllAvailableScopes
    ensures GrantsScope(ValidatedScopes(requested), requested[k])
  {
    var v := ValidatedScopes(requested);
    if ScopeAll in requested {
      assert v[0] == ScopeAll;
    } else {
      var j :| 0 <= j < |v| && v[j] == requested[k];
    }
  }

  // ---------------------------------------------------------------------------
  // Lookup
  // ---------------------------------------------------------------------------

  /** What ValidateAndGetToken reports: the token, no token without an error, or a failed lookup. */
  datatype TokenCheck = Accepted(token: APIToken) | Rejected | LookupFailed

  /** Some stored token is active and carries the hash of `tokenStr`. */
  predicate ActiveWithHash(tokens: map<nat, APIToken>, hash: string)
  {
    exists i :: i in tokens && tokens[i].tokenHash == hash && tokens[i].isActive
  }

  /**
   * A string without the prefix is turned away before any lookup; an
   * unknown or inactive hash is a failed lookup; an expired token is
   * turned away; otherwise the stored token comes back.
   */
  method ValidateAndGetToken(db: Database, sha: Sha, tokenStr: string, now: int) returns (r: TokenCheck)
    requires db.Valid()
    ensures !HasPrefix(tokenStr, TokenPrefix) ==> r == Rejected
    ensures HasPrefix(tokenStr, TokenPrefix) && !ActiveWithHash(db.tokens, HashToken(sha, tokenStr)) ==> r == LookupFailed
    ensures r.Accepted? <==>
              HasPrefix(tokenStr, TokenPrefix)
              && exists i :: i in db.tokens && db.tokens[i].tokenHash == HashToken(sha, tokenStr)
                             && db.tokens[i].isActive && !db.tokens[i].IsExpired(now)
    ensures r.Accepted? ==> r.token.id in db.tokens && db.tokens[r.token.id] == r.token
                            && r.token.tokenHash == HashToken(sha, tokenStr) && r.token.isActive
                            && !r.token.IsExpired(now)
  {
    if !(|TokenPrefix| <= |tokenStr| && tokenStr[..|TokenPrefix|] == TokenPrefix) {
      return Rejected;
    }
    var tokenHash := HashToken(sha, tokenStr);
    var found := db.FindActiveByHash(tokenHash);
    if found.None? {
      return LookupFailed;
    }
    var token := found.value;
    if token.expiresAt.Some? && now > token.expiresAt.value {
      forall i | i in db.tokens && db.tokens[i].tokenHash == tokenHash && db.tokens[i].isActive
        ensures db.tokens[i].IsExpired(now)
      {
        assert i == token.id;
      }
      return Rejected;
    }
    r := Accepted(token);
  }

  // ---------------------------------------------------------------------------
  // Create
  // ---------------------------------------------------------------------------

  datatype CreateTokenRequest = CreateTokenRequest(name: string, scopes: seq<string>, expiresAt: Option<int>)

  /** The answer to create and rotate: the raw token appears here and nowhere else. */
  datatype CreatedToken = CreatedToken(
    id: nat,
    name: string,
    token: string,
    scopes: seq<string>,
    expiresAt: Option<int>,
    createdAt: int)

  /** A new active token row, never used, created and updated at `now`. */
  function NewToken(userId: nat, name: string, hash: string, scopes: string, expiresAt: Option<int>, now: int): APIToken
  {
    APIToken(0, userId, name, hash, scopes, true, expiresAt, None, now, now)
  }

  /**
   * Validates the scopes first and only then asks for a user; stores the
   * hash of a fresh token with the validated scopes and answers 201 with
   * the raw token. A hash already in the table fails the insert.
   */
  method CreateToken(db: Database, userId: Option<nat>, req: CreateTokenRequest, random: seq<byte>, sha: Sha,
                     now: int) returns (reply: Reply<CreatedToken>)
    requires db.Valid() && |random| == TokenLength
    modifies db
    ensures db.Valid()
    ensures ValidatedScopes(req.scopes) == [] ==> reply == Err(400, NoValidScope)
    ensures ValidatedScopes(req.scopes) != [] && userId.None? ==> reply == Err(401, NotAuthenticated)
    ensures reply.Err? ==> db.tokens == old(db.tokens)
    ensures (ValidatedScopes(req.scopes) != [] && userId.Some?) ==>
              var raw := GenerateToken(random);
              var hash := HashToken(sha, raw);
              var scopes := ValidatedScopes(req.scopes);
              && (HashTaken(old(db.tokens), hash) ==> reply == Err(500, FailedCreate))
              && (!HashTaken(old(db.tokens), hash) ==>
                    var id := old(db.nextTokenId);
                    && id !in old(db.tokens)
                    && db.tokens == old(db.tokens)[id := NewToken(userId.value, req.name, hash, Join(scopes, ','),
                                                                  req.expiresAt, now).(id := id)]
                    && reply == Ok(201, CreatedToken(id, req.name, raw, scopes, req.expiresAt, now)))
    ensures db.webhooks == old(db.webhooks) && db.deliveries == old(db.deliveries)
  {
    var validated := ValidateScopes(req.scopes);
    if |validated| == 0 {
      return Err(400, NoValidScope);
    }
    if userId.None? {
      return Err(401, NotAuthenticated);
    }
    var rawToken := GenerateToken(random);
    var tokenHash := HashToken(sha, rawToken);
    var token := APIToken(0, userId.value, req.name, tokenHash, "", true, req.expiresAt, None, now, now);
    token := SetScopes(token, validated);
    var id := db.InsertToken(token);
    if id.None? {
      return Err(500, FailedCreate);
    }
    ValidatedScopesStored(req.scopes);
    var scopes := GetScopes(db.tokens[id.value]);
    reply := Ok(201, CreatedToken(id.value, token.name, rawToken, scopes, token.expiresAt, token.createdAt));
  }

  // ---------------------------------------------------------------------------
  // Revoke, rotate and update
  // ---------------------------------------------------------------------------

  /**
   * The lookup the id-scoped token handlers start with: 401 without a
   * user, 400 for an empty id, 404 unless the id names a token of the
   * user. The id column is an integer, so an id that is not a decimal
   * number names no token.
   */
  function OwnedToken(tokens: map<nat, APIToken>, userId: Option<nat>, idParam: string): (r: Reply<APIToken>)
    ensures r.Ok? <==> userId.Some? && Decimal.ParseUint(idParam, 64).Some?
                       && Decimal.ParseUint(idParam, 64).value in tokens
                       && tokens[Decimal.ParseUint(idParam, 64).value].userId == userId.value
    ensures r.Ok? ==> r.status == 200 && r.value == tokens[Decimal.ParseUint(idParam, 64).value]
    ensures userId.None? ==> r == Err(401, NotAuthenticated)
    ensures userId.Some? && idParam == "" ==> r == Err(400, TokenIdRequired)
    ensures r.Err? && userId.Some? && idParam != "" ==> r == Err(404, TokenNotFound)
  {
    if userId.None? then Err(401, NotAuthenticated)
    else if idParam == "" then Err(400, TokenIdRequired)
    else
      match Decimal.ParseUint(idParam, 64)
      case None => Err(404, TokenNotFound)
      case Some(id) =>
        if id in tokens && tokens[id].userId == userId.value then Ok(200, tokens[id])
        else Err(404, TokenNotFound)
  }

  /** Another user's token is indistinguishable from a missing one. */
  lemma ForeignTokenLooksMissing(tokens: map<nat, APIToken>, userId: nat, idParam: string, id: nat)
    requires id in tokens && tokens[id].userId != userId
    ensures OwnedToken(tokens, Some(userId), idParam) == OwnedToken(tokens - {id}, Some(userId), idParam)
  {
  }

  /** After the lookup, deletes the token. */
  method DeleteToken(db: Database, userId: Option<nat>, idParam: string) returns (reply: Reply<string>)
    requires db.Valid()
    modifies db
    ensures db.Valid()
    ensures var o := OwnedToken(old(db.tokens), userId, idParam);
            && (o.Err? ==> reply == Err(o.status, o.error) && db.tokens == old(db.tokens))
            && (o.Ok? ==> reply == Ok(200, Revoked) && db.tokens == old(db.tokens) - {o.value.id})
    ensures db.webhooks == old(db.webhooks) && db.deliveries == old(db.deliveries)
  {
    var o := OwnedToken(db.tokens, userId, idParam);
    if o.Err? {
      return Err(o.status, o.error);
    }
    db.DeleteToken(o.value.id);
    reply := Ok(200, Revoked);
  }

  /** The replacement for `prev`: same user, name, scopes and expiry, a new hash, active again. */
  function Rotated(prev: APIToken, hash: string, now: int): (t: APIToken)
    ensures t.userId == prev.userId && t.name == prev.name && t.scopes == prev.scopes && t.expiresAt == prev.expiresAt
    ensures t.isActive && t.tokenHash == hash && t.lastUsedAt.None?
  {
    NewToken(prev.userId, prev.name, hash, prev.scopes, prev.expiresAt, now)
  }

  /** The replacement grants exactly what the previous token granted and expires when it did. */
  lemma RotatedGrantsAlike(prev: APIToken, hash: string, now: int, scope: string, later: int)
    ensures Rotated(prev, hash, now).HasScope(scope) <==> prev.HasScope(scope)
    ensures Rotated(prev, hash, now).IsExpired(later) <==> prev.IsExpired(later)
  {
  }

  /**
   * After the lookup, stores a replacement under a fresh key and then
   * deletes the old token; answers with the raw replacement token.
   */
  method RotateToken(db: Database, userId: Option<nat>, idParam: string, random: seq<byte>, sha: Sha, now: int)
      returns (reply: Reply<CreatedToken>)
    requires db.Valid() && |random| == TokenLength
    modifies db
    ensures db.Valid()
    ensures var o := OwnedToken(old(db.tokens), userId, idParam);
            var raw := GenerateToken(random);
            && (o.Err? ==> reply == Err(o.status, o.error))
            && (o.Ok? && HashTaken(old(db.tokens), HashToken(sha, raw)) ==> reply == Err(500, FailedRotate))
            && (o.Ok? && !HashTaken(old(db.tokens), HashToken(sha, raw)) ==>
                  var id := old(db.nextTokenId);
                  var t := Rotated(o.value, HashToken(sha, raw), now).(id := id);
                  && id !in old(db.tokens)
                  && db.tokens == old(db.tokens)[id := t] - {o.value.id}
                  && reply == Ok(200, CreatedToken(id, t.name, raw, t.Scopes(), t.expiresAt, now)))
    ensures reply.Err? ==> db.tokens == old(db.tokens)
    ensures db.webhooks == old(db.webhooks) && db.deliveries == old(db.deliveries)
  {
    var o := OwnedToken(db.tokens, userId, idParam);
    if o.Err? {
      return Err(o.status, o.error);
    }
    var oldToken := o.value;
    var rawToken := GenerateToken(random);
    var tokenHash := HashToken(sha, rawToken);
    var newToken := APIToken(0, oldToken.userId, oldToken.name, tokenHash, oldToken.scopes, true, oldToken.expiresAt,
                             None, now, now);
    var id := db.InsertToken(newToken);
    if id.None? {
      return Err(500, FailedRotate);
    }
    db.DeleteToken(oldToken.id);
    var scopes := GetScopes(newToken);
    reply := Ok(200, CreatedToken(id.value, newToken.name, rawToken, scopes, newToken.expiresAt, newToken.createdAt));
  }

  datatype UpdateTokenRequest = UpdateTokenRequest(name: string, isActive: Option<bool>)

  /** A value written to a token column. */
  datatype TokenColumn = NameValue(name: string) | ActiveValue(active: bool)

  /** The columns an update writes: the name when non-empty, the flag when sent. */
  function TokenUpdates(req: UpdateTokenRequest): map<string, TokenColumn>
  {
    var m := if req.name != "" then map["name" := NameValue(req.name)] else map[];
    if req.isActive.Some? then m["is_active" := ActiveValue(req.isActive.value)] else m
  }

  /** Builds the updates map one column at a time. */
  method BuildTokenUpdates(req: UpdateTokenRequest) returns (updates: map<string, TokenColumn>)
    ensures updates == TokenUpdates(req)
  {
    updates := map[];
    if req.name != "" {
      updates := updates["name" := NameValue(req.name)];
    }
    if req.isActive.Some? {
      updates := updates["is_active" := ActiveValue(req.isActive.value)];
    }
  }

  /** Writes the columns of `u` into `t` and stamps `updatedAt`. */
  function ApplyTokenUpdates(t: APIToken, u: map<string, TokenColumn>, now: int): APIToken
  {
    t.(name := if "name" in u && u["name"].NameValue? then u["name"].name else t.name,
       isActive := if "is_active" in u && u["is_active"].ActiveValue? then u["is_active"].active else t.isActive,
       updatedAt := now)
  }

  /** Only the name (when non-empty) and the active flag (when sent) change, besides the update time. */
  lemma TokenUpdateRules(t: APIToken, req: UpdateTokenRequest, now: int)
    ensures var r := ApplyTokenUpdates(t, TokenUpdates(req), now);
            && r.name == (if req.name != "" then req.name else t.name)
            && r.isActive == (if req.isActive.Some? then req.isActive.value else t.isActive)
            && r == t.(name := r.name, isActive := r.isActive, updatedAt := now)
  {
    var u := TokenUpdates(req);
    assert "name" != "is_active";
    assert "name" in u <==> req.name != "";
  }

  /** After the lookup, writes the name and the flag and answers with the reloaded token. */
  method UpdateToken(db: Database, userId: Option<nat>, idParam: string, req: UpdateTokenRequest, now: int)
      returns (reply: Reply<TokenResponse>)
    requires db.Valid()
    modifies db
    ensures db.Valid()
    ensures var o := OwnedToken(old(db.tokens), userId, idParam);
            && (o.Err? ==> reply == Err(o.status, o.error) && db.tokens == old(db.tokens))
            && (o.Ok? ==>
                  var t := ApplyTokenUpdates(o.value, TokenUpdates(req), now);
                  && db.tokens == old(db.tokens)[o.value.id := t]
                  && reply == Ok(200, t.ToResponse()))
    ensures db.webhooks == old(db.webhooks) && db.deliveries == old(db.deliveries)
  {
    var o := OwnedToken(db.tokens, userId, idParam);
    if o.Err? {
      return Err(o.status, o.error);
    }
    var updates := BuildTokenUpdates(req);
    var token := ApplyTokenUpdates(o.value, updates, now);
    db.UpdateToken(token);
    reply := Ok(200, db.tokens[token.id].ToResponse());
  }
}
