/**
 * The two access middlewares of backend/src/middleware/auth.ts. A middleware
 * either answers the request, ending the chain, or hands it on to `next`; the
 * `Step` datatype makes "exactly one of the two" hold by construction.
 */
module Auth {
  import opened Wrappers
  import opened Http
  import opened Types

  /**
   * The parts of a request the middlewares and validators look at: the
   * `Authorization` header, the decoded token, the body's string fields and the
   * validation errors collected so far.
   */
  datatype Request = Request(
    authorization: Option<string>,
    user: Option<TokenPayload>,
    body: map<string, string>,
    errors: seq<string>)

  datatype Step = Respond(status: Status) | Next(req: Request)

  /** `verifyToken`: the decoded payload, or None where it throws (bad signature, expired). */
  type Verifier = string -> Option<TokenPayload>

  const Scheme: string := "Bearer "

  /** `startsWith('Bearer ')`: the scheme is compared exactly, capitals included. */
  predicate HasBearerScheme(h: string) {
    |h| >= |Scheme| && h[..|Scheme|] == Scheme
  }

  /** `authenticate`. */
  function Authenticate(req: Request, verify: Verifier): (s: Step)
    ensures s.Respond? ==> s.status == Unauthorized
    ensures s.Next? <==>
      && req.authorization.Some?
      && HasBearerScheme(req.authorization.value)
      && verify(req.authorization.value[|Scheme|..]).Some?
    ensures s.Next? ==> s.req == req.(user := verify(req.authorization.value[|Scheme|..]))
  {
    if req.authorization.None? || !HasBearerScheme(req.authorization.value) then Respond(Unauthorized)
    else
      var token := req.authorization.value[|Scheme|..];
      var decoded := verify(token);
      if decoded.None? then Respond(Unauthorized) else Next(req.(user := decoded))
  }

  /** The token handed to the verifier is what follows the seven characters of the scheme. */
  lemma TokenFollowsScheme(req: Request, token: string, verify: Verifier)
    requires req.authorization == Some(Scheme + token)
    ensures Authenticate(req, verify) ==
      if verify(token).Some? then Next(req.(user := verify(token))) else Respond(Unauthorized)
  {
    assert (Scheme + token)[|Scheme|..] == token;
    assert (Scheme + token)[..|Scheme|] == Scheme;
  }

  /** A lower-case scheme, which section 2.1 of RFC 7235 treats as the same scheme, is refused. */
  lemma LowerCaseSchemeRefused(req: Request, token: string, verify: Verifier)
    requires req.authorization == Some("bearer " + token)
    ensures Authenticate(req, verify) == Respond(Unauthorized)
  {
    assert ("bearer " + token)[0] == 'b';
  }

  /** `requireAdmin`: 401 without a decoded token, 403 for any role but "admin". */
  function RequireAdmin(req: Request): (s: Step)
    ensures s == Respond(Unauthorized) <==> req.user.None?
    ensures s == Respond(Forbidden) <==> req.user.Some? && req.user.value.role != "admin"
    ensures s.Next? <==> req.user.Some? && req.user.value.role == "admin"
    ensures s.Next? ==> s.req == req
  {
    if req.user.None? then Respond(Unauthorized)
    else if req.user.value.role != "admin" then Respond(Forbidden)
    else Next(req)
  }
}
