/** `verifyToken` of `middleware/auth.js`: take the `Authorization` header,
    strip an optional `"Bearer "` marker, verify the token, and either attach
    the payload to the request and call `next`, or answer 401 or 500. */
module Auth {
  import opened Common
  import opened JsString

  /** The claims of a verified token; the handlers read only `id`. */
  datatype Payload = Payload(id: Option<Id>)

  /** What `jwt.verify` does with a token: return the payload, throw a
      `JsonWebTokenError` (or one of its subclasses), or throw anything else. */
  datatype VerifyResult = Verified(payload: Payload) | JwtError | OtherError(message: string)

  /** The marker of section 2.1 of RFC 6750, matched case-sensitively. */
  const BearerPrefix: string := "Bearer "

  /** The token handed to `jwt.verify` for a header value. */
  function ExtractToken(header: string): (r: string) {
    if StartsWith(header, BearerPrefix) then TrimStart(header[|BearerPrefix|..]) else header
  }

  /** The one way a call of the middleware ends. */
  datatype AuthOutcome =
    | NoToken               // 401 "Access Denied: No token provided"
    | InvalidToken          // 401 {error: "Invalid token"}
    | ServerError           // 500 {error: err.message}
    | Continue(user: Payload)  // req.user := user; next()

  /** The decision the middleware takes; `verify` stands for `jwt.verify` under
      the process secret. */
  function Authenticate(header: Option<string>, verify: string -> VerifyResult): (r: AuthOutcome) {
    if !Truthy(header) then NoToken
    else
      match verify(ExtractToken(header.value))
      case Verified(p) => Continue(p)
      case JwtError => InvalidToken
      case OtherError(_) => ServerError
  }

  /** The status of the response sent, for the outcomes that send one. */
  function StatusOf(o: AuthOutcome): (r: nat)
    requires !o.Continue?
  {
    match o
    case NoToken => 401
    case InvalidToken => 401
    case ServerError => 500
  }

  /** The part of an Express request the middleware reads and writes. */
  class Request {
    const authorization: Option<string>
    var user: Option<Payload>
    var sentStatus: Option<nat>
    var nextCalls: nat

    constructor (authorization: Option<string>)
      ensures this.authorization == authorization
      ensures user == None && sentStatus == None && nextCalls == 0
    {
      this.authorization := authorization;
      user, sentStatus, nextCalls := None, None, 0;
    }
  }

  /** The middleware itself: exactly one of "call next with req.user set" and
      "send one response and leave req.user alone" happens. */
  method VerifyToken(req: Request, verify: string -> VerifyResult)
    modifies req
    ensures var o := Authenticate(req.authorization, verify);
      if o.Continue? then
        req.user == Some(o.user) && req.nextCalls == old(req.nextCalls) + 1
        && req.sentStatus == old(req.sentStatus)
      else
        req.user == old(req.user) && req.nextCalls == old(req.nextCalls)
        && req.sentStatus == Some(StatusOf(o))
  {
    var token := req.authorization;
    if !Truthy(token) {
      req.sentStatus := Some(401);
      return;
    }
    var t := token.value;
    if StartsWith(t, BearerPrefix) {
      t := TrimStart(t[7..]);
    }
    match verify(t)
    case Verified(p) =>
      req.user := Some(p);
      req.nextCalls := req.nextCalls + 1;
    case JwtError =>
      req.sentStatus := Some(401);
    case OtherError(_) =>
      req.sentStatus := Some(500);
  }

  /** A missing or empty header is refused with 401 before anything is verified. */
  lemma NoTokenExactly(header: Option<string>, verify: string -> VerifyResult)
    ensures Authenticate(header, verify) == NoToken <==> !Truthy(header)
    ensures !Truthy(header) ==> StatusOf(Authenticate(header, verify)) == 401
  {
  }

  /** After `"Bearer "` the token is the rest of the header with its leading
      white space removed, and nothing else of it is dropped. */
  lemma BearerTokenIsTrimmedRest(header: string)
    requires StartsWith(header, BearerPrefix)
    ensures var t := ExtractToken(header);
      && |t| <= |header| - 7
      && header[|header| - |t|..] == t
      && (forall i :: 7 <= i < |header| - |t| ==> IsWhiteSpace(header[i]))
      && (t != "" ==> !IsWhiteSpace(t[0]))
  {
  }

  /** A header without the case-sensitive marker is verified unchanged. */
  lemma BareTokenUnchanged(header: string)
    requires !StartsWith(header, BearerPrefix)
    ensures ExtractToken(header) == header
  {
  }

  /** The marker is stripped with the whole run of white space after it. */
  lemma BearerWithSpacesExample()
    ensures ExtractToken("Bearer   abc") == "abc"
  {
    assert StartsWith("Bearer   abc", BearerPrefix);
    assert "Bearer   abc"[7..] == "  abc";
    assert !IsWhiteSpace('a');
    assert TrimStart("abc") == "abc";
    assert " abc"[1..] == "abc";
    assert TrimStart(" abc") == "abc";
    assert "  abc"[1..] == " abc";
  }

  /** The marker is matched case-sensitively, and without its space it is no marker. */
  lemma BearerCaseSensitiveExample()
    ensures ExtractToken("bearer abc") == "bearer abc"
    ensures ExtractToken("Bearer") == "Bearer"
  {
    assert "bearer abc"[0] != BearerPrefix[0];
  }

  /** The marker is stripped once only. */
  lemma BearerStrippedOnceExample()
    ensures ExtractToken("Bearer Bearer abc") == "Bearer abc"
  {
    assert StartsWith("Bearer Bearer abc", BearerPrefix);
    assert "Bearer Bearer abc"[7..] == "Bearer abc";
    assert !IsWhiteSpace('B');
  }

  /** `next` is reached exactly when the token verifies, and then with the
      verified payload. */
  lemma ContinueExactlyWhenVerified(header: Option<string>, verify: string -> VerifyResult, p: Payload)
    ensures Authenticate(header, verify) == Continue(p) <==>
      Truthy(header) && verify(ExtractToken(header.value)) == Verified(p)
  {
  }

  /** A token error of the JWT kind answers 401; any other failure answers 500. */
  lemma FailuresClassified(header: Option<string>, verify: string -> VerifyResult)
    requires Truthy(header)
    ensures verify(ExtractToken(header.value)) == JwtError ==>
      Authenticate(header, verify) == InvalidToken && StatusOf(InvalidToken) == 401
    ensures verify(ExtractToken(header.value)).OtherError? ==>
      Authenticate(header, verify) == ServerError && StatusOf(ServerError) == 500
  {
  }
}
