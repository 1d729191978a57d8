/** The authentication middleware (middleware/auth.rs): extract a bearer token
    from the `Authorization` header, validate it, and either attach the token's
    claims and forward the request to the wrapped service or reject it with
    401 Unauthorized. Token validation (JWT decoding and signature and expiry
    checks) is a function parameter. */
module Auth {
  import opened Wrappers

  /** The claims carried by a valid token (utils/jwt.rs). */
  datatype Claims = Claims(
    sub: string,
    userId: string,
    email: string,
    role: string,
    tenantId: string,
    exp: int,
    iat: int)

  /** A header value converts to text only when every byte is a tab or a
      visible ASCII character. */
  predicate IsVisibleAscii(c: char) {
    c == '\t' || (' ' <= c <= '~')
  }

  function HeaderText(raw: string): (r: Option<string>)
    ensures r.Some? <==> forall i :: 0 <= i < |raw| ==> IsVisibleAscii(raw[i])
    ensures r.Some? ==> r.value == raw
  {
    if forall i :: 0 <= i < |raw| ==> IsVisibleAscii(raw[i]) then Some(raw) else None
  }

  const BearerPrefix: string := "Bearer "

  /** The token of a header: the text after the 7-character prefix "Bearer ",
      when the header is present, converts to text and starts with exactly
      that prefix (case matters). */
  function ExtractToken(header: Option<string>): (t: Option<string>)
    ensures t.Some? <==>
      header.Some? && HeaderText(header.value).Some?
      && |header.value| >= 7 && header.value[..7] == BearerPrefix
    ensures t.Some? ==> header.value == BearerPrefix + t.value
  {
    if header.None? then None
    else match HeaderText(header.value)
      case None => None
      case Some(text) =>
        if |text| >= 7 && text[..7] == BearerPrefix then Some(text[7..]) else None
  }

  /** "Bearer " followed by a visible token yields exactly that token. */
  lemma BearerRoundTrip(token: string)
    requires forall i :: 0 <= i < |token| ==> IsVisibleAscii(token[i])
    ensures ExtractToken(Some(BearerPrefix + token)) == Some(token)
  {
    var h := BearerPrefix + token;
    assert (BearerPrefix + token)[..7] == BearerPrefix;
    forall i | 0 <= i < |h| ensures IsVisibleAscii(h[i]) {
      if i >= 7 {
        assert h[i] == token[i - 7];
      }
    }
    assert h[7..] == token;
  }

  /** The prefix match is case-sensitive: a lower-case scheme is no token. */
  lemma LowerCaseSchemeRejected(token: string)
    ensures ExtractToken(Some("bearer " + token)) == None
  {
    assert ("bearer " + token)[0] == 'b';
  }

  /** What the middleware does with a request: forward it, once, to the
      wrapped service with the claims attached, or answer 401 with a message. */
  datatype AuthOutcome = Forward(claims: Claims) | Unauthorized(message: string)

  /** `AuthMiddlewareService::call`, with `validate` standing for
      `JwtManager::validate_token`. */
  function Authenticate(header: Option<string>, validate: string -> Result<Claims>): (r: AuthOutcome)
    ensures ExtractToken(header).None? ==> r == Unauthorized("Missing authorization token")
    ensures ExtractToken(header).Some? && validate(ExtractToken(header).value).Err? ==>
      r == Unauthorized("Invalid token")
    ensures r.Forward? <==>
      (exists token :: header == Some(BearerPrefix + token)
         && HeaderText(header.value).Some? && validate(token).Ok?)
    ensures r.Forward? ==> validate(ExtractToken(header).value) == Ok(r.claims)
  {
    match ExtractToken(header)
    case None => Unauthorized("Missing authorization token")
    case Some(token) =>
      match validate(token)
      case Ok(claims) => Forward(claims)
      case Err(_) => Unauthorized("Invalid token")
  }
}
