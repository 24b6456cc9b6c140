/**
 * `authMiddleware` (server/middleware/auth.middleware.js) and the assumed
 * `adminOnly` gate. Token verification (`jwt.verify` with the server's
 * secret) is an oracle: a function from the token text to the decoded claims,
 * or `None` when verification throws.
 */
module AuthMiddleware {
  import opened Wrappers
  import opened Text
  import opened Store
  import opened Http

  /** The claims a verified token decodes to (`iat` and `exp` are not used). */
  datatype Claims = Claims(id: Id, role: string)

  /** `req.user` as the middleware sets it. */
  datatype Caller = Caller(id: Id, role: string)

  /**
   * The outcome of a middleware: either `next()` is called (once) with the
   * request's caller, or the request ends with a status and message and
   * `next()` is never called.
   */
  datatype Gate = Next(caller: Caller) | Stop(code: nat, message: string)

  const BearerPrefix: string := "Bearer "
  const NoTokenMessage: string := "No token, authorization denied"
  const InvalidTokenMessage: string := "Token is invalid"

  /** `authHeader.split(" ")[1]`: the second space-separated segment. */
  function BearerToken(header: string): string
    requires StartsWith(header, BearerPrefix)
  {
    var parts := Split(header, ' ');
    assert parts == Split(header[..6] + [' '] + header[7..], ' ') by {
      assert header == header[..6] + [' '] + header[7..];
    }
    SplitAppend(header[..6], ' ', header[7..]);
    parts[1]
  }

  /** The whole middleware: header check, token extraction, verification, `req.user`. */
  function Authenticate(header: Option<string>, verify: string -> Option<Claims>): (g: Gate)
    ensures !Truthy(header) ==> g == Stop(UNAUTHORIZED, NoTokenMessage)
    ensures header.Some? && !StartsWith(header.value, BearerPrefix) ==> g == Stop(UNAUTHORIZED, NoTokenMessage)
    ensures g.Next? <==> header.Some? && StartsWith(header.value, BearerPrefix)
                         && verify(BearerToken(header.value)).Some?
    ensures g.Next? ==> var claims := verify(BearerToken(header.value)).value;
                        g.caller == Caller(claims.id, claims.role)
    ensures g.Stop? ==> g.code == UNAUTHORIZED
    ensures (header.Some? && StartsWith(header.value, BearerPrefix)
             && verify(BearerToken(header.value)).None?) ==> g == Stop(UNAUTHORIZED, InvalidTokenMessage)
  {
    if !Truthy(header) || !StartsWith(header.value, BearerPrefix) then
      Stop(UNAUTHORIZED, NoTokenMessage)
    else
      match verify(BearerToken(header.value))
      case None => Stop(UNAUTHORIZED, InvalidTokenMessage)
      case Some(claims) => Next(Caller(claims.id, claims.role))
  }

  /** The client's header builder: `Authorization: Bearer ${token}`. */
  function AuthorizationHeader(token: string): (h: string)
    ensures StartsWith(h, BearerPrefix)
  {
    BearerPrefix + token
  }

  /** A token without spaces survives the trip through the header unchanged. */
  lemma BearerTokenRoundTrip(token: string)
    requires ' ' !in token
    ensures BearerToken(AuthorizationHeader(token)) == token
  {
    var h := AuthorizationHeader(token);
    assert h == "Bearer" + [' '] + token;
    SplitAppend("Bearer", ' ', token);
    SplitNoSep(token, ' ');
  }

  /** A token with a space is cut at its first space: the server sees only the first segment. */
  lemma BearerTokenTruncates(token: string)
    ensures BearerToken(AuthorizationHeader(token)) == Split(token, ' ')[0]
  {
    var h := AuthorizationHeader(token);
    assert h == "Bearer" + [' '] + token;
    SplitAppend("Bearer", ' ', token);
  }

  /**
   * `adminOnly` (server/middleware/role.middleware, not part of this model):
   * ASSUMED to pass exactly the callers whose role is "admin" and to answer
   * 403 otherwise, with a message the model does not know.
   */
  function AdminOnly(caller: Caller): (g: Gate)
    ensures g.Next? <==> caller.role == "admin"
    ensures g.Next? ==> g.caller == caller
    ensures g.Stop? ==> g.code == FORBIDDEN
  {
    if caller.role == "admin" then Next(caller) else Stop(FORBIDDEN, "")
  }

  /** `authMiddleware, adminOnly` in sequence, as the admin routes mount them. */
  function AuthenticateAdmin(header: Option<string>, verify: string -> Option<Claims>): (g: Gate)
    ensures g.Next? <==> Authenticate(header, verify).Next? && Authenticate(header, verify).caller.role == "admin"
    ensures g.Next? ==> g == Authenticate(header, verify)
    ensures Authenticate(header, verify).Stop? ==> g == Authenticate(header, verify)
    ensures Authenticate(header, verify).Next? && g.Stop? ==> g.code == FORBIDDEN
  {
    match Authenticate(header, verify)
    case Stop(code, message) => Stop(code, message)
    case Next(caller) => AdminOnly(caller)
  }
}
