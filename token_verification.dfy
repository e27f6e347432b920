/**
 * The Express authentication middleware: taking the bearer token out of the Authorization
 * header (the `Bearer` scheme of section 2.1 of RFC 6750), handing it to the JWT verifier,
 * and gating a route on the roles of the verified user.
 *
 * The verifier itself (`jwt.verify` with the tenant's signing keys, an RS256 check as in
 * section 3.3 of RFC 7518) is a parameter: the tokens it accepts, each with the payload it
 * decodes to.
 */
module TokenVerification {
  import opened Wrappers
  import opened Text

  const BearerPrefix := "Bearer "
  const NoTokenProvided := "No token provided"
  const HeaderMissing := "Authorization header missing"
  const InvalidToken := "Invalid or expired token"
  const NotAuthenticated := "User not authenticated"
  const InsufficientPermissions := "Insufficient permissions"

  /** A decoded token payload; `roles` is None when the claim is absent. */
  datatype Payload = Payload(subject: string, roles: Option<seq<string>>)

  /**
   * Why `verifyToken` rejects: `NoToken` is the error it throws with `NoTokenProvided` for a
   * falsy token; `Refused` is the verifier's own rejection.
   */
  datatype VerifyError = NoToken | Refused

  // ---------------------------------------------------------------------------
  // verifyToken
  // ---------------------------------------------------------------------------

  /** `token.startsWith('Bearer ') ? token.slice(7) : token`. */
  function StripBearer(token: string): (r: string)
    ensures StartsWith(token, BearerPrefix) ==> BearerPrefix + r == token
    ensures !StartsWith(token, BearerPrefix) ==> r == token
  {
    if StartsWith(token, BearerPrefix) then token[7..] else token
  }

  /** Exactly one prefix is stripped: "Bearer " + t gives t back, even when t starts with "Bearer " again. */
  lemma StripBearerOnce(t: string)
    ensures StripBearer(BearerPrefix + t) == t
  {
    assert (BearerPrefix + t)[..7] == BearerPrefix;
  }

  /**
   * `verifyToken`: a falsy token (None for undefined, "" for the empty string) is rejected
   * before the verifier runs; otherwise the verifier sees the token with its prefix stripped.
   */
  function VerifyToken(token: Option<string>, accepted: map<string, Payload>): (r: Result<Payload, VerifyError>)
    ensures r == Err(NoToken) <==> token.None? || token.value == ""
    ensures r.Ok? ==> StripBearer(token.value) in accepted && r.value == accepted[StripBearer(token.value)]
    ensures token.Some? && token.value != "" ==> (r.Ok? <==> StripBearer(token.value) in accepted)
  {
    if token.None? || token.value == "" then Err(NoToken)
    else if StripBearer(token.value) in accepted then Result.Ok(accepted[StripBearer(token.value)])
    else Err(Refused)
  }

  /** Without a token the verifier is never consulted: every verifier gives the same rejection. */
  lemma NoTokenNeverVerified(accepted1: map<string, Payload>, accepted2: map<string, Payload>)
    ensures VerifyToken(None, accepted1) == VerifyToken(None, accepted2) == Err(NoToken)
    ensures VerifyToken(Some(""), accepted1) == VerifyToken(Some(""), accepted2) == Err(NoToken)
  {
  }

  // ---------------------------------------------------------------------------
  // authenticateRequest
  // ---------------------------------------------------------------------------

  /** `authHeader.split(' ')[1]`: the second space-separated field, undefined when there is none. */
  function HeaderToken(header: string): (r: Option<string>)
    ensures r.Some? ==> ' ' !in r.value
    ensures r.None? <==> ' ' !in header
  {
    var fields := Split(header, ' ');
    SplitOnePart(header, ' ');
    if |fields| >= 2 then Some(fields[1]) else None
  }

  /** The field after the first space is the token, whatever the scheme before it says. */
  lemma HeaderTokenAfterScheme(scheme: string, token: string, rest: string)
    requires ' ' !in scheme && ' ' !in token
    ensures HeaderToken(scheme + " " + token + rest) == Some(token) || (rest != "" && rest[0] != ' ')
    ensures rest == "" || rest[0] == ' ' ==> HeaderToken(scheme + " " + token + rest) == Some(token)
  {
    if rest == "" || rest[0] == ' ' {
      var h := scheme + " " + token + rest;
      assert h == scheme + [' '] + (token + rest);
      SplitAfterPiece(scheme, ' ', token + rest);
      if rest == "" {
        assert token + rest == token;
        if ' ' !in token {
          assert Split(token, ' ') == [token] by {
            var parts := Split(token, ' ');
            JoinSplit(token, ' ');
          }
        }
      } else {
        assert token + rest == token + [' '] + rest[1..];
        SplitAfterPiece(token, ' ', rest[1..]);
      }
    }
  }

  /** So a well-formed `Bearer` header ("Bearer" SP token) yields its token. */
  lemma BearerHeaderToken(token: string)
    requires ' ' !in token
    ensures HeaderToken(BearerPrefix + token) == Some(token)
  {
    HeaderTokenAfterScheme("Bearer", token, "");
    assert "Bearer" + " " + token + "" == BearerPrefix + token;
  }

  /**
   * A token without a space, as the header field always is, never starts with `Bearer `: the
   * strip in `verifyToken` never applies to what `authenticateRequest` hands it.
   */
  lemma SpacelessNeverStripped(token: Option<string>)
    requires token.Some? ==> ' ' !in token.value
    ensures token.Some? ==> StripBearer(token.value) == token.value
  {
  }

  /** How `authenticateRequest` ends. */
  datatype AuthOutcome =
    | MissingHeader                  // 401 'Authorization header missing'
    | Rejected                       // 401 'Invalid or expired token'
    | Authenticated(user: Payload)   // req.user set, next() called

  /** The decision `authenticateRequest` takes; the header is None when absent ("" is falsy too). */
  function Authenticate(header: Option<string>, accepted: map<string, Payload>): (r: AuthOutcome)
    ensures r == MissingHeader <==> header.None? || header.value == ""
    ensures r.Authenticated? <==>
              header.Some? && HeaderToken(header.value).Some? && HeaderToken(header.value).value != "" &&
              HeaderToken(header.value).value in accepted
    ensures r.Authenticated? ==> r.user == accepted[HeaderToken(header.value).value]
  {
    if header.None? || header.value == "" then MissingHeader
    else
      var token := HeaderToken(header.value);
      SpacelessNeverStripped(token);
      var decoded := VerifyToken(token, accepted);
      if decoded.Ok? then Authenticated(decoded.value) else Rejected
  }

  // ---------------------------------------------------------------------------
  // hasRole
  // ---------------------------------------------------------------------------

  /** `requiredRoles.some(role => userRoles.includes(role))`. */
  function AnyRequired(required: seq<string>, userRoles: seq<string>): (r: bool)
    ensures r <==> exists i :: 0 <= i < |required| && required[i] in userRoles
  {
    if |required| == 0 then false
    else if required[0] in userRoles then true
    else
      var rest := AnyRequired(required[1..], userRoles);
      assert forall i :: 1 <= i < |required| ==> required[i] == required[1..][i - 1];
      rest
  }

  /** How the middleware `hasRole(requiredRoles)` ends. */
  datatype RoleOutcome =
    | Unauthenticated   // 401 'User not authenticated'
    | Forbidden         // 403 'Insufficient permissions'
    | Allowed           // next() called

  function CheckRoles(user: Option<Payload>, required: seq<string>): (r: RoleOutcome)
    ensures r == Unauthenticated <==> user.None?
  {
    if user.None? then Unauthenticated
    else if AnyRequired(required, user.value.roles.GetOr([])) then Allowed
    else Forbidden
  }

  /** A user passes exactly when one of the required roles is among theirs (none when the claim is absent). */
  lemma CheckRolesMeaning(user: Option<Payload>, required: seq<string>)
    ensures CheckRoles(user, required) == Unauthenticated <==> user.None?
    ensures CheckRoles(user, required) == Allowed <==>
              user.Some? && user.value.roles.Some? && exists r :: r in required && r in user.value.roles.value
  {
    if user.Some? && user.value.roles.Some? && exists r :: r in required && r in user.value.roles.value {
      var r :| r in required && r in user.value.roles.value;
      var i :| 0 <= i < |required| && required[i] == r;
    }
  }

  /** An empty list of required roles turns every authenticated user away. */
  lemma NoRequiredRolesForbids(user: Payload)
    ensures CheckRoles(Some(user), []) == Forbidden
  {
  }

  // ---------------------------------------------------------------------------
  // The request/response pair the middlewares act on
  // ---------------------------------------------------------------------------

  /** `req.headers.authorization` and `req.user`, the status and message sent, and how often `next` ran. */
  class Exchange {
    var authorization: Option<string>
    var user: Option<Payload>
    var status: Option<int>
    var message: Option<string>
    var nextCalls: nat

    constructor(authorization: Option<string>)
      ensures this.authorization == authorization
      ensures user.None? && status.None? && message.None? && nextCalls == 0
    {
      this.authorization := authorization;
      user := None;
      status := None;
      message := None;
      nextCalls := 0;
    }

    /** `authenticateRequest(req, res, next)`. */
    method AuthenticateRequest(accepted: map<string, Payload>)
      modifies this
      ensures authorization == old(authorization)
      ensures match Authenticate(old(authorization), accepted)
              case MissingHeader =>
                status == Some(401) && message == Some(HeaderMissing) && user == old(user) && nextCalls == old(nextCalls)
              case Rejected =>
                status == Some(401) && message == Some(InvalidToken) && user == old(user) && nextCalls == old(nextCalls)
              case Authenticated(p) =>
                user == Some(p) && nextCalls == old(nextCalls) + 1 && status == old(status) && message == old(message)
    {
      if authorization.None? || authorization.value == "" {
        status, message := Some(401), Some(HeaderMissing);
        return;
      }
      var token := HeaderToken(authorization.value);
      var decoded := VerifyToken(token, accepted);
      if decoded.Err? {
        status, message := Some(401), Some(InvalidToken);
        return;
      }
      user := Some(decoded.value);
      nextCalls := nextCalls + 1;
    }

    /** The middleware `hasRole(required)` applied to this exchange. */
    method HasRole(required: seq<string>)
      modifies this
      ensures authorization == old(authorization) && user == old(user)
      ensures match CheckRoles(old(user), required)
              case Unauthenticated =>
                status == Some(401) && message == Some(NotAuthenticated) && nextCalls == old(nextCalls)
              case Forbidden =>
                status == Some(403) && message == Some(InsufficientPermissions) && nextCalls == old(nextCalls)
              case Allowed =>
                status == old(status) && message == old(message) && nextCalls == old(nextCalls) + 1
    {
      if user.None? {
        status, message := Some(401), Some(NotAuthenticated);
        return;
      }
      var userRoles := user.value.roles.GetOr([]);
      var hasRequiredRole := AnyRequired(required, userRoles);
      if !hasRequiredRole {
        status, message := Some(403), Some(InsufficientPermissions);
        return;
      }
      nextCalls := nextCalls + 1;
    }
  }
}
