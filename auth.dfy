/**
 * The shared authentication gate (`AuthMiddleware.kt`): a two-field configuration that the
 * settings layer overwrites, and a pure accept/reject decision over it and a header map.
 */
module Auth {
  import opened Wrappers
  import opened Text

  /** The gate's configuration: the enabled flag and the optional expected token. */
  datatype AuthConfig = AuthConfig(enabled: bool, token: Option<string>)

  datatype AuthResponse = AuthResponse(authorized: bool, message: string)

  const AuthHeader: string := "Authorization"
  const AuthHeaderLower: string := "authorization"
  const BearerPrefix: string := "Bearer "
  const UnauthorizedMessage: string := "Unauthorized: Invalid or missing authentication token"

  /** The singleton's mutable state; both servers read it through `Config()`. */
  class AuthMiddleware {
    var authEnabled: bool
    var authToken: Option<string>

    /** The process starts with authentication disabled and no token. */
    constructor ()
      ensures !authEnabled && authToken == None
    {
      authEnabled := false;
      authToken := None;
    }

    function Config(): AuthConfig
      reads this
    {
      AuthConfig(authEnabled, authToken)
    }

    /** Overwrites the flag and leaves the token alone. */
    method SetAuthEnabled(enabled: bool)
      modifies this
      ensures authEnabled == enabled && authToken == old(authToken)
    {
      authEnabled := enabled;
    }

    /** Overwrites the token (`None` clears it) and leaves the flag alone. */
    method SetAuthToken(token: Option<string>)
      modifies this
      ensures authToken == token && authEnabled == old(authEnabled)
    {
      authToken := token;
    }
  }

  /**
   * The header value is taken from exactly `"Authorization"`, else from exactly `"authorization"`;
   * any other spelling counts as absent.
   */
  function LookupAuthorization(headers: map<string, string>): (r: Option<string>)
    ensures r.Some? <==> AuthHeader in headers || AuthHeaderLower in headers
    ensures AuthHeader !in headers && AuthHeaderLower in headers ==> r == Some(headers[AuthHeaderLower])
    ensures AuthHeader in headers ==> r == Some(headers[AuthHeader])
  {
    if AuthHeader in headers then Some(headers[AuthHeader])
    else if AuthHeaderLower in headers then Some(headers[AuthHeaderLower])
    else None
  }

  /** `validateToken`: one leading `"Bearer "` is removed, the rest trimmed and compared verbatim. */
  function ValidateToken(cfg: AuthConfig, provided: string): bool {
    match cfg.token
    case None => true
    case Some(expected) => Trim(RemovePrefix(provided, BearerPrefix)) == expected
  }

  /** `isAuthenticated`: the decision both servers apply. */
  function IsAuthenticated(cfg: AuthConfig, headers: map<string, string>): (r: bool)
    ensures !cfg.enabled ==> r
    ensures cfg.enabled && cfg.token.None? ==> r
    ensures cfg.enabled && cfg.token.Some? && AuthHeader !in headers && AuthHeaderLower !in headers ==> !r
  {
    if !cfg.enabled then true
    else if cfg.token.None? then true
    else
      match LookupAuthorization(headers)
      case None => false
      case Some(provided) => ValidateToken(cfg, provided)
  }

  /**
   * A header value presents token `t` when `t` has no surrounding whitespace and the value is
   * `t` padded with whitespace, after one leading `"Bearer "` if the value starts with it.
   */
  ghost predicate PresentsToken(value: string, t: string) {
    Bare(t) && if StartsWith(value, BearerPrefix) then Padded(value[|BearerPrefix|..], t) else Padded(value, t)
  }

  /** Without an expected token every value passes; with one, a value passes exactly when it presents the token. */
  lemma ValidateTokenIff(cfg: AuthConfig, provided: string)
    ensures cfg.token.None? ==> ValidateToken(cfg, provided)
    ensures cfg.token.Some? ==> (ValidateToken(cfg, provided) <==> PresentsToken(provided, cfg.token.value))
  {
    if cfg.token.Some? {
      TrimCharacterisation(RemovePrefix(provided, BearerPrefix), cfg.token.value);
      if StartsWith(provided, BearerPrefix) {
        assert RemovePrefix(provided, BearerPrefix) == provided[|BearerPrefix|..];
      }
    }
  }

  /** With a token configured, a request is accepted exactly when its header value presents the token. */
  lemma AuthenticatedIff(cfg: AuthConfig, headers: map<string, string>)
    requires cfg.enabled && cfg.token.Some?
    ensures IsAuthenticated(cfg, headers) <==>
              LookupAuthorization(headers).Some? && PresentsToken(LookupAuthorization(headers).value, cfg.token.value)
  {
    var lookup := LookupAuthorization(headers);
    if lookup.Some? {
      ValidateTokenIff(cfg, lookup.value);
    }
  }

  /** `"Bearer " + t` is accepted for any token `t` without surrounding whitespace. */
  lemma BearerTokenAccepted(t: string)
    requires Bare(t)
    ensures IsAuthenticated(AuthConfig(true, Some(t)), map[AuthHeader := BearerPrefix + t])
  {
    var value := BearerPrefix + t;
    assert LookupAuthorization(map[AuthHeader := value]) == Some(value);
    assert value[..|BearerPrefix|] == BearerPrefix;
    assert RemovePrefix(value, BearerPrefix) == t;
    TrimBare(t);
  }

  /** For token `"T"`, `"Bearer T"` passes. */
  lemma BearerOnceAccepted()
    ensures IsAuthenticated(AuthConfig(true, Some("T")), map[AuthHeader := "Bearer T"])
  {
    var t := "T";
    assert !IsWhitespace(t[0]);
    BearerTokenAccepted(t);
    assert BearerPrefix + t == "Bearer T";
  }

  /** Only one `"Bearer "` is removed: for token `"T"`, `"Bearer Bearer T"` is refused. */
  lemma BearerTwiceRejected()
    ensures !IsAuthenticated(AuthConfig(true, Some("T")), map[AuthHeader := "Bearer Bearer T"])
  {
    var twice := "Bearer Bearer T";
    assert LookupAuthorization(map[AuthHeader := twice]) == Some(twice);
    assert twice[..|BearerPrefix|] == BearerPrefix;
    assert RemovePrefix(twice, BearerPrefix) == "Bearer T";
    TrimBare("Bearer T");
  }

  /** The prefix is matched before trimming: for token `"T"`, `"  Bearer T"` is refused. */
  lemma LeadingSpaceBeforeBearerRejected()
    ensures !IsAuthenticated(AuthConfig(true, Some("T")), map[AuthHeader := "  Bearer T"])
  {
    var spaced := "  Bearer T";
    assert LookupAuthorization(map[AuthHeader := spaced]) == Some(spaced);
    assert spaced[0] != BearerPrefix[0];
    assert RemovePrefix(spaced, BearerPrefix) == spaced;
    TrimPaddedExample();
  }

  /** The trimming step of LeadingSpaceBeforeBearerRejected: the two leading spaces go, `"Bearer T"` stays. */
  lemma TrimPaddedExample()
    ensures Trim("  Bearer T") == "Bearer T"
  {
    var a, t := "  ", "Bearer T";
    assert AllWhitespace(a) && Bare(t);
    TrimPadded(a, t, []);
    assert a + t + [] == "  Bearer T";
  }

  /** Only the two exact header spellings are looked at: `"AUTHORIZATION"` counts as absent. */
  lemma HeaderNameIsExact(t: string)
    ensures !IsAuthenticated(AuthConfig(true, Some(t)), map["AUTHORIZATION" := BearerPrefix + t])
    ensures !IsAuthenticated(AuthConfig(true, Some(t)), map[])
  {
  }

  /** An empty token is compared like any other: `"Bearer "` passes, a missing header does not. */
  lemma EmptyTokenIsNotFailOpen()
    ensures IsAuthenticated(AuthConfig(true, Some("")), map[AuthHeader := BearerPrefix])
    ensures !IsAuthenticated(AuthConfig(true, Some("")), map[])
  {
    BearerTokenAccepted("");
    assert BearerPrefix + "" == BearerPrefix;
  }

  /** `getUnauthorizedResponse`: always the same refusal. */
  function UnauthorizedResponse(): (r: AuthResponse)
    ensures !r.authorized && r.message == UnauthorizedMessage
  {
    AuthResponse(false, UnauthorizedMessage)
  }
}
