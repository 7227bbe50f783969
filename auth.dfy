/**
 * The `authRequired` middleware that every protected route file repeats, and
 * the reply shape of the route handlers.
 */
module Auth {
  import opened Wrappers

  /** One byte of a header value; Go's `len` and slicing count bytes. */
  type Byte = x: int | 0 <= x < 256

  /** A reply of a route handler: a status code with a JSON body, or a status with `{"error": …}`. */
  datatype Reply<T> = Reply(status: int, body: T) | ErrorReply(status: int, error: string)

  const StatusOK := 200
  const StatusCreated := 201
  const StatusBadRequest := 400
  const StatusUnauthorized := 401
  const StatusNotFound := 404
  const StatusInternalServerError := 500

  /** A value of the token's claims map as the handlers see it through Go's `.(string)` assertion. */
  datatype ClaimValue = Str(s: string) | NonString | Absent

  /** The claims the middleware copies into the request locals. */
  datatype Claims = Claims(id: ClaimValue, role: ClaimValue)

  /** `c.Locals("userId")` and `c.Locals("userRole")` after the middleware has run. */
  datatype Locals = Locals(userId: ClaimValue, userRole: ClaimValue)

  /** The bytes of an ASCII string: one byte per character, holding its code. */
  function Ascii(s: string): (r: seq<Byte>)
    requires forall i :: 0 <= i < |s| ==> s[i] as int < 128
    ensures |r| == |s|
    ensures forall i :: 0 <= i < |s| ==> r[i] == s[i] as int
  {
    if s == [] then []
    else
      var rest := Ascii(s[1..]);
      assert forall i :: 1 <= i < |s| ==> s[i] == s[1..][i - 1];
      [s[0] as int as Byte] + rest
  }

  const MissingToken := "Missing or invalid token"
  const InvalidToken := "Invalid token"

  /**
   * The header check: an empty header or one shorter than 8 bytes is refused,
   * otherwise the first 7 bytes are cut off without being looked at.
   */
  function ExtractToken(header: seq<Byte>): (r: Result<seq<Byte>, string>)
    ensures r.Err? <==> |header| < 8
    ensures r.Err? ==> r.error == MissingToken
    ensures r.Ok? ==> |r.value| >= 1 && header[7..] == r.value
  {
    if |header| == 0 || |header| < 8 then Err(MissingToken) else Ok(header[7..])
  }

  /**
   * The scheme is never checked: any 7 bytes followed by a non-empty token are
   * accepted and yield that token, whether or not they spell `Bearer `.
   */
  lemma ExtractIgnoresScheme(scheme: seq<Byte>, token: seq<Byte>)
    requires |scheme| == 7 && |token| >= 1
    ensures ExtractToken(scheme + token) == Ok(token)
  {
    assert (scheme + token)[7..] == token;
  }

  /** A header in the `Bearer <token>` form of section 2.1 of RFC 6750 yields its token. */
  lemma BearerHeaderYieldsToken(token: seq<Byte>)
    requires |token| >= 1
    ensures ExtractToken(Ascii("Bearer ") + token) == Ok(token)
  {
    ExtractIgnoresScheme(Ascii("Bearer "), token);
  }

  /**
   * `authRequired`: the header check, then signature and expiry verification of
   * the token (`verify`, the JWT library), then the claims `id` and `role` copied
   * into the locals. Every refusal is a 401 reply.
   */
  function Authenticate(header: seq<Byte>, verify: seq<Byte> -> Option<Claims>): (r: Result<Locals, string>)
    ensures |header| < 8 ==> r == Err(MissingToken)
    ensures |header| >= 8 && verify(header[7..]).None? ==> r == Err(InvalidToken)
    ensures r.Ok? ==> |header| >= 8 && verify(header[7..]).Some? &&
                      r.value == Locals(verify(header[7..]).value.id, verify(header[7..]).value.role)
  {
    match ExtractToken(header)
    case Err(e) => Err(e)
    case Ok(token) =>
      match verify(token)
      case None => Err(InvalidToken)
      case Some(claims) => Ok(Locals(claims.id, claims.role))
  }

  /** `c.Locals("userId").(string)`: the caller's id when the claim is a string. */
  function UserIdOf(locals: Locals): Option<string> {
    match locals.userId
    case Str(s) => Some(s)
    case _ => None
  }

  /** `userRole, _ := c.Locals("userRole").(string)`: a non-string role reads as "". */
  function RoleOf(locals: Locals): string {
    match locals.userRole
    case Str(s) => s
    case _ => ""
  }
}
