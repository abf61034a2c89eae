/**
 * The bearer-token middleware in front of the protected routes: it reads the `Authorization`
 * header, requires the `Bearer ` prefix, takes the second space-separated field as the token and
 * hands it to `jwt.verify`, which is a parameter here (it stands for signature and expiry checks
 * under the server's secret and clock).
 */
module TokenGate {
  import opened Wrappers
  import opened Js
  import opened UserModel

  const BEARER_PREFIX := "Bearer "
  const MISSING_MESSAGE := "Access token is missing or invalid"
  const INVALID_MESSAGE := "Invalid token"

  /**
   * The request's `authorization` and `Authorization` headers. Node lower-cases incoming header
   * names, so on a real request `capitalized` is always absent; it is kept as a parameter because
   * the gate reads it.
   */
  datatype Headers = Headers(lower: Option<string>, capitalized: Option<string>)

  /** The three ways the gate can decide. */
  datatype Decision =
    | MissingOrMalformed
    | InvalidToken
    | Admitted(user: Claims)

  datatype Response = Response(status: nat, message: string)

  predicate StartsWith(s: string, prefix: string) {
    |prefix| <= |s| && s[..|prefix|] == prefix
  }

  /**
   * `req.headers.authorization || req.headers.Authorization`: the lower-case header wins whenever
   * it is present and non-empty.
   */
  function AuthHeader(h: Headers): (header: Option<string>)
    ensures Truthy(h.lower) ==> header == h.lower
    ensures !Truthy(h.lower) ==> header == h.capitalized
  {
    if Truthy(h.lower) then h.lower else h.capitalized
  }

  /** The first field of a split is everything before the first separator. */
  lemma FirstField(s: string, sep: char)
    ensures Split(s, sep)[0] == s[..IndexOf(s, sep)]
  {
  }

  /**
   * `authHeader.split(' ')[1]` for a header with the `Bearer ` prefix: what follows the prefix up
   * to the next space or the end. It contains no space and may be empty.
   */
  function BearerToken(header: string): (token: string)
    requires StartsWith(header, BEARER_PREFIX)
    ensures ' ' !in token
    ensures |token| <= |header| - 7 && token == header[7..7 + |token|]
    ensures 7 + |token| < |header| ==> header[7 + |token|] == ' '
  {
    assert header[6] == ' ' && forall k :: 0 <= k < 6 ==> header[k] != ' ';
    assert IndexOf(header, ' ') == 6;
    var rest := header[7..];
    FirstField(rest, ' ');
    Split(header, ' ')[1]
  }

  /** A token without spaces comes back out of the header `Bearer <token>` unchanged. */
  lemma BearerRoundTrip(token: string)
    requires ' ' !in token
    ensures StartsWith(BEARER_PREFIX + token, BEARER_PREFIX)
    ensures BearerToken(BEARER_PREFIX + token) == token
  {
    var header := BEARER_PREFIX + token;
    assert header[..7] == BEARER_PREFIX;
    var t := BearerToken(header);
    assert header[7..] == token;
  }

  /**
   * `validateToken`'s decision: no usable header or no `Bearer ` prefix is one 401; an empty token
   * (which jsonwebtoken refuses before any signature check) or a failed verification is the other;
   * otherwise the decoded `user` claim is admitted.
   */
  function Decide(h: Headers, verify: string -> Option<Claims>): (d: Decision)
    ensures d == MissingOrMalformed <==> !Truthy(AuthHeader(h)) || !StartsWith(AuthHeader(h).value, BEARER_PREFIX)
    ensures d.Admitted? <==>
      Truthy(AuthHeader(h)) && StartsWith(AuthHeader(h).value, BEARER_PREFIX) &&
      BearerToken(AuthHeader(h).value) != "" && verify(BearerToken(AuthHeader(h).value)).Some?
    ensures d.Admitted? ==> Some(d.user) == verify(BearerToken(AuthHeader(h).value))
  {
    var header := AuthHeader(h);
    if !Truthy(header) || !StartsWith(header.value, BEARER_PREFIX) then MissingOrMalformed
    else
      var token := BearerToken(header.value);
      if token == "" then InvalidToken
      else
        match verify(token)
        case None => InvalidToken
        case Some(user) => Admitted(user)
  }

  /** The lower-case header decides alone when it is present and non-empty. */
  lemma LowerCaseHeaderWins(h: Headers, other: Option<string>, verify: string -> Option<Claims>)
    requires Truthy(h.lower)
    ensures Decide(h, verify) == Decide(Headers(h.lower, other), verify)
  {
  }

  /** A `Bearer <token>` header whose (space-free, non-empty) token verifies admits exactly its claims. */
  lemma AdmitsVerifiedBearer(h: Headers, token: string, verify: string -> Option<Claims>, user: Claims)
    requires AuthHeader(h) == Some(BEARER_PREFIX + token)
    requires ' ' !in token && token != "" && verify(token) == Some(user)
    ensures Decide(h, verify) == Admitted(user)
  {
    BearerRoundTrip(token);
  }

  /** An Express request as the middleware sees it. */
  class Request {
    const headers: Headers
    var user: Option<Claims>
    var nextCalls: nat
    var response: Option<Response>

    constructor (headers: Headers)
      ensures this.headers == headers && user.None? && nextCalls == 0 && response.None?
    {
      this.headers := headers;
      user := None;
      nextCalls := 0;
      response := None;
    }
  }

  /**
   * `validateToken(req, res, next)`: when admitted, sets `req.user` to the decoded claim and calls
   * `next` once; otherwise answers 401 and leaves `req.user` and `next` alone.
   */
  method ValidateToken(req: Request, verify: string -> Option<Claims>)
    modifies req
    ensures Decide(req.headers, verify).Admitted? ==>
      req.user == Some(Decide(req.headers, verify).user) &&
      req.nextCalls == old(req.nextCalls) + 1 && req.response == old(req.response)
    ensures Decide(req.headers, verify) == MissingOrMalformed ==>
      req.response == Some(Response(401, MISSING_MESSAGE)) &&
      req.user == old(req.user) && req.nextCalls == old(req.nextCalls)
    ensures Decide(req.headers, verify) == InvalidToken ==>
      req.response == Some(Response(401, INVALID_MESSAGE)) &&
      req.user == old(req.user) && req.nextCalls == old(req.nextCalls)
  {
    var decision := Decide(req.headers, verify);
    match decision {
      case MissingOrMalformed =>
        req.response := Some(Response(401, MISSING_MESSAGE));
      case InvalidToken =>
        req.response := Some(Response(401, INVALID_MESSAGE));
      case Admitted(user) =>
        req.user := Some(user);
        req.nextCalls := req.nextCalls + 1;
    }
  }
}
