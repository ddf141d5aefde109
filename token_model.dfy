/**
 * API tokens of the models package: the scope constants, the comma-list
 * codec for a token's scopes, and the scope and expiry predicates.
 */
module TokenModel {
  import opened Wrappers
  import opened Text

  const ScopeAll := "all"
  const ScopeMessagesSend := "messages:send"
  const ScopeMessagesRead := "messages:read"
  const ScopeMetricsRead := "metrics:read"
  const ScopeStatusRead := "status:read"

  /** Every scope a token can be granted, "all" first. */
  const AllAvailableScopes: seq<string> :=
    [ScopeAll, ScopeMessagesSend, ScopeMessagesRead, ScopeMetricsRead, ScopeStatusRead]

  /** There are five scopes, no two alike, and "all" comes first. */
  lemma AvailableScopesDistinct()
    ensures |AllAvailableScopes| == 5 && AllAvailableScopes[0] == ScopeAll
    ensures forall i, j :: 0 <= i < j < |AllAvailableScopes| ==> AllAvailableScopes[i] != AllAvailableScopes[j]
  {
    assert ScopeAll[0] == 'a' && ScopeMetricsRead[0] == 'm' && ScopeStatusRead[0] == 's';
    assert ScopeMessagesSend[9] == 's' && ScopeMessagesRead[9] == 'r';
    assert |ScopeMetricsRead| != |ScopeMessagesSend| && |ScopeMetricsRead| != |ScopeMessagesRead|;
  }

  /** A stored token. The raw token is never stored, only its hash; times are seconds. */
  datatype APIToken = APIToken(
    id: nat,
    userId: nat,
    name: string,
    tokenHash: string,
    scopes: string,
    isActive: bool,
    expiresAt: Option<int>,
    lastUsedAt: Option<int>,
    createdAt: int,
    updatedAt: int)
  {
    /** The scopes the stored string stands for. */
    function Scopes(): seq<string>
    {
      ScopeList(scopes)
    }

    /** The token grants `scope` when it holds that scope or "all". */
    function HasScope(scope: string): (r: bool)
      ensures r <==> ScopeAll in Scopes() || scope in Scopes()
    {
      GrantsScope(Scopes(), scope)
    }

    /** A token expires strictly after its expiry time; one without expiry never does. */
    predicate IsExpired(now: int)
    {
      expiresAt.Some? && now > expiresAt.value
    }

    /** The API view of a token: parsed scopes and no hash. */
    function ToResponse(): TokenResponse
    {
      TokenResponse(id, name, Scopes(), isActive, expiresAt, lastUsedAt, createdAt)
    }
  }

  datatype TokenResponse = TokenResponse(
    id: nat,
    name: string,
    scopes: seq<string>,
    isActive: bool,
    expiresAt: Option<int>,
    lastUsedAt: Option<int>,
    createdAt: int)

  /** Whether some scope in the list is "all" or `scope` itself. */
  function GrantsScope(list: seq<string>, scope: string): (r: bool)
    ensures r <==> exists k :: 0 <= k < |list| && (list[k] == ScopeAll || list[k] == scope)
  {
    if list == [] then false
    else if list[0] == ScopeAll || list[0] == scope then true
    else
      var rest := GrantsScope(list[1..], scope);
      assert forall k :: 1 <= k < |list| ==> list[k] == list[1..][k - 1];
      rest
  }

  // ---------------------------------------------------------------------------
  // The scope list codec
  // ---------------------------------------------------------------------------

  /** The scopes a stored string stands for: its comma-separated parts, empty ones dropped, none trimmed. */
  function ScopeList(s: string): seq<string>
  {
    NonEmpty(Split(s, ','))
  }

  /** Collects the characters between commas, emitting each non-empty run. */
  method SplitScopes(s: string) returns (result: seq<string>)
    ensures result == ScopeList(s)
  {
    result := [];
    var current := "";
    for i := 0 to |s|
      invariant var p := Split(s[..i], ',');
                result == NonEmpty(p[..|p| - 1]) && current == p[|p| - 1]
    {
      SplitScopesStep(s, i);
      if s[i] == ',' {
        if current != "" {
          result := result + [current];
          current := "";
        }
      } else {
        current := current + [s[i]];
      }
    }
    SplitScopesLast(s);
    if current != "" {
      result := result + [current];
    }
  }

  /**
   * One more character of input: a comma closes the open part, any other
   * character extends it.
   */
  lemma {:induction false} SplitScopesStep(s: string, i: nat)
    requires i < |s|
    ensures var p, q := Split(s[..i], ','), Split(s[..i + 1], ',');
            && (s[i] == ',' ==> q[..|q| - 1] == p && q[|q| - 1] == "")
            && (s[i] != ',' ==> q[..|q| - 1] == p[..|p| - 1] && q[|q| - 1] == p[|p| - 1] + [s[i]])
            && NonEmpty(p) == NonEmpty(p[..|p| - 1]) + (if p[|p| - 1] == "" then [] else [p[|p| - 1]])
  {
    var p := Split(s[..i], ',');
    assert s[..i + 1] == s[..i] + [s[i]];
    SplitSnoc(s[..i], s[i], ',');
    assert p == p[..|p| - 1] + [p[|p| - 1]];
    NonEmptySnoc(p[..|p| - 1], p[|p| - 1]);
  }

  /** At the end of the input, the open part is the last part of the whole split. */
  lemma {:induction false} SplitScopesLast(s: string)
    ensures var p := Split(s[..|s|], ',');
            NonEmpty(Split(s, ',')) == NonEmpty(p[..|p| - 1]) + (if p[|p| - 1] == "" then [] else [p[|p| - 1]])
  {
    var p := Split(s, ',');
    assert s[..|s|] == s;
    assert p == p[..|p| - 1] + [p[|p| - 1]];
    NonEmptySnoc(p[..|p| - 1], p[|p| - 1]);
  }

  /** Puts one comma between neighbouring scopes; "" for none. */
  method JoinScopes(list: seq<string>) returns (r: string)
    ensures r == Join(list, ',')
  {
    if |list| == 0 {
      return "";
    }
    r := list[0];
    for i := 1 to |list|
      invariant r == Join(list[..i], ',')
    {
      JoinSnoc(list[..i], list[i], ',');
      assert list[..i + 1] == list[..i] + [list[i]];
      r := r + "," + list[i];
    }
    assert list[..|list|] == list;
  }

  /** The token's scopes as a list: none for "", otherwise the non-empty parts. */
  method GetScopes(t: APIToken) returns (r: seq<string>)
    ensures r == t.Scopes()
  {
    if t.scopes == "" {
      return [];
    }
    var parts := SplitScopes(t.scopes);
    r := [];
    for i := 0 to |parts|
      invariant r == NonEmpty(parts[..i])
    {
      assert parts[..i + 1] == parts[..i] + [parts[i]];
      NonEmptySnoc(parts[..i], parts[i]);
      if parts[i] != "" {
        r := r + [parts[i]];
      }
    }
    assert parts[..|parts|] == parts;
  }

  /**
   * Stores `list` comma-joined; reading the token's scopes back gives
   * `list` when no scope is empty or holds a comma.
   */
  method SetScopes(t: APIToken, list: seq<string>) returns (u: APIToken)
    ensures u == t.(scopes := Join(list, ','))
    ensures (forall k :: 0 <= k < |list| ==> list[k] != "" && ',' !in list[k]) ==> u.Scopes() == list
  {
    var joined := JoinScopes(list);
    u := t.(scopes := joined);
    if forall k :: 0 <= k < |list| ==> list[k] != "" && ',' !in list[k] {
      ScopesRoundTrip(list);
    }
  }

  // ---------------------------------------------------------------------------
  // Properties of the codec and the predicates
  // ---------------------------------------------------------------------------

  /** No parsed scope is empty or holds a comma, and no blank is trimmed away. */
  lemma ScopeListElements(s: string)
    ensures forall k :: 0 <= k < |ScopeList(s)| ==> ScopeList(s)[k] != "" && ',' !in ScopeList(s)[k]
    ensures forall k :: 0 <= k < |ScopeList(s)| ==> ScopeList(s)[k] in Split(s, ',')
  {
    SplitParts(s, ',');
  }

  /** Joining scopes and splitting them again gives the same list. */
  lemma ScopesRoundTrip(list: seq<string>)
    requires forall k :: 0 <= k < |list| ==> list[k] != "" && ',' !in list[k]
    ensures ScopeList(Join(list, ',')) == list
  {
    if list != [] {
      SplitJoin(list, ',');
    }
  }

  /** Storing the parsed scopes again changes nothing further: parsing normalises. */
  lemma ScopeListNormalises(s: string)
    ensures ScopeList(Join(ScopeList(s), ',')) == ScopeList(s)
  {
    ScopeListElements(s);
    ScopesRoundTrip(ScopeList(s));
  }

  /** A token with no stored scopes has none and grants nothing. */
  lemma EmptyScopesGrantNothing(t: APIToken, scope: string)
    requires t.scopes == ""
    ensures t.Scopes() == [] && !t.HasScope(scope)
  {
    assert Split("", ',') == [""];
  }

  /** A token holding "all" grants every scope. */
  lemma AllGrantsEverything(t: APIToken, scope: string)
    requires ScopeAll in t.Scopes()
    ensures t.HasScope(scope)
  {
  }

  /** Expiry is permanent: once expired, a token stays expired; without expiry it never is. */
  lemma ExpiryMonotone(t: APIToken, now: int, later: int)
    requires now <= later
    ensures t.expiresAt.None? ==> !t.IsExpired(later)
    ensures t.IsExpired(now) ==> t.IsExpired(later)
    ensures t.expiresAt.Some? ==> (t.IsExpired(now) <==> now > t.expiresAt.value)
    ensures t.expiresAt.Some? ==> !t.IsExpired(t.expiresAt.value)
  {
  }

  /** The API view carries the parsed scopes and does not depend on the stored hash. */
  lemma ToResponseHidesHash(t: APIToken, hash: string)
    ensures t.(tokenHash := hash).ToResponse() == t.ToResponse()
    ensures t.ToResponse().scopes == t.Scopes()
  {
  }
}
