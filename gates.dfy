/**
 * The request gates of middleware/authenticateToken.js: `requireRole` and
 * `authenticateToken`. Token verification (`jwt.verify` with the configured
 * secret) is a parameter: a function from the token text to the decoded
 * payload, or None when verification fails.
 */
module Gates {
  import opened Wrappers
  import opened Text
  import opened Records

  /** What `requireRole(role)` does with a request: call `next`, or answer 403. */
  datatype RoleGate = CallNext | RoleForbidden {
    function Status(): int {
      if CallNext? then 200 else 403
    }
  }

  /** `requireRole(role)` applied to the authenticated `user` (lines 4-10). */
  function RequireRole(user: Claims, role: string): (g: RoleGate)
    ensures g == CallNext <==> user.role == role
    ensures g == RoleForbidden <==> user.role != role
  {
    if user.role != role then RoleForbidden else CallNext
  }

  /** `header.split(' ')[1]`: the second space-separated field, None when it is undefined. */
  function BearerToken(header: string): (token: Option<string>)
    ensures token.Some? <==> ' ' in header
    ensures token.Some? ==> exists first :: SecondField(header, ' ', first, token.value)
  {
    SplitCount(header, ' ');
    var parts := Split(header, ' ');
    if |parts| >= 2 then
      SplitFields(header, ' ');
      Some(parts[1])
    else None
  }

  /** The token verifier: the decoded payload, or None when `jwt.verify` reports an error. */
  type Verifier = string -> Option<Claims>

  /** The three ways `authenticateToken` ends. */
  datatype Authentication =
    | Authenticated(user: Claims)  // req.user is set and next() is called once
    | NoTokenProvided              // 403
    | Unauthorized                 // 401
  {
    function Status(): int {
      match this
      case Authenticated(_) => 200
      case NoTokenProvided => 403
      case Unauthorized => 401
    }
  }

  /**
   * `authenticateToken` (lines 13-31) on the Authorization header. A header
   * without a space leaves the token undefined, and a header whose second
   * field is empty (`Bearer `) gives the empty token; `jwt.verify` rejects
   * both as falsy before any signature check, so the request is unauthorized
   * without consulting the verifier.
   */
  function AuthenticateToken(header: Option<string>, verify: Verifier): (r: Authentication)
    ensures header.None? || header == Some("") ==> r == NoTokenProvided
    ensures r.Authenticated? ==> exists first, token :: SecondField(header.value, ' ', first, token) && token != "" && verify(token) == Some(r.user)
    ensures r == NoTokenProvided ==> header.None? || header == Some("")
  {
    if header.None? || header.value == "" then NoTokenProvided
    else
      match BearerToken(header.value)
      case None => Unauthorized
      case Some(token) =>
        if token == "" then Unauthorized
        else
          match verify(token)
          case None => Unauthorized
          case Some(user) => Authenticated(user)
  }

  /**
   * The verifier sees exactly the second field of the header, and its verdict
   * decides the outcome; an empty second field is unauthorized whatever it says.
   */
  lemma AuthenticateSecondField(header: string, first: string, token: string, verify: Verifier)
    requires SecondField(header, ' ', first, token)
    ensures AuthenticateToken(Some(header), verify)
            == if token != "" && verify(token).Some? then Authenticated(verify(token).value) else Unauthorized
  {
    assert ' ' in header by {
      assert header[|first|] == ' ';
    }
    var t := BearerToken(header).value;
    var f :| SecondField(header, ' ', f, t);
    SecondFieldUnique(header, ' ', first, token, f, t);
  }

  /** A non-empty header without a space is unauthorized, whatever the verifier says. */
  lemma AuthenticateNoSpace(header: string, verify: Verifier)
    requires header != "" && ' ' !in header
    ensures AuthenticateToken(Some(header), verify) == Unauthorized
  {
  }
}
