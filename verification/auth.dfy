/**
 routes/auth.ts: the login handler and the `verifyToken` middleware that every
 protected route runs first.
 */
module Auth {
  import opened Wrappers
  import opened JsText
  import opened Crypto
  import opened Store

  /** Login never writes, so it yields only a reply. Its inputs are not
      trimmed: a whitespace-only account or password passes the first check. */
  function Login(c: Crypto, s: Store, account: Option<string>, password: Option<string>, iat: nat): (r: Response)
    ensures !(Truthy(account) && Truthy(password)) ==> r == Err400(NotExistData)
    ensures Truthy(account) && Truthy(password) && account.value !in s.users ==> r == Err400(NotExistUser)
    ensures (&& Truthy(account) && Truthy(password) && account.value in s.users
             && !c.matches(password.value, s.users[account.value].password))
            ==> r == Err400(IncorrectPassword)
    ensures r.Ok? <==> Truthy(account) && Truthy(password) && account.value in s.users
                       && c.matches(password.value, s.users[account.value].password)
    ensures r.Ok? ==> r.payload.Token? && r.payload.token == c.sign(account.value, iat)
  {
    if !Truthy(account) || !Truthy(password) then Err400(NotExistData)
    else if account.value !in s.users then Err400(NotExistUser)
    else if !c.matches(password.value, s.users[account.value].password) then Err400(IncorrectPassword)
    else Ok(Token(c.sign(account.value, iat)))
  }

  /** A token issued by a successful login verifies to the account that logged in. */
  lemma LoginTokenVerifies(c: Crypto, s: Store, account: Option<string>, password: Option<string>, iat: nat)
    requires Sound(c)
    requires Login(c, s, account, password, iat).Ok?
    ensures c.verify(Login(c, s, account, password, iat).payload.token) == Some(account.value)
    ensures account.value in s.users
  {
  }

  /** What the middleware decides: call `next` with `req.account` set, or
      answer the request itself. */
  datatype Gate = Next(account: string) | Halt(response: Response)

  /** `authorization.substring(7)`: everything after the first seven
      characters, whatever they are; the empty string for shorter headers. */
  function BearerToken(header: string): (t: string)
    ensures |header| <= 7 ==> t == ""
    ensures |header| > 7 ==> header == header[..7] + t
  {
    if |header| <= 7 then "" else header[7..]
  }

  /** `verifyToken`. A missing header makes `substring` throw and a failed
      verification throws too; both end in the catch block's 500. */
  function VerifyToken(c: Crypto, header: Option<string>): (g: Gate)
    ensures header.None? ==> g == Halt(Err500(ServerError))
    ensures header.Some? && |header.value| <= 7 ==> g == Halt(Err400(NotExistToken))
    ensures (header.Some? && |header.value| > 7 && c.verify(header.value[7..]).None?)
            ==> g == Halt(Err500(ServerError))
    ensures g.Next? <==> header.Some? && |header.value| > 7 && c.verify(header.value[7..]).Some?
    ensures g.Next? ==> Some(g.account) == c.verify(header.value[7..])
  {
    match header
    case None => Halt(Err500(ServerError))
    case Some(h) =>
      var token := BearerToken(h);
      if token == "" then Halt(Err400(NotExistToken))
      else
        match c.verify(token)
        case None => Halt(Err500(ServerError))
        case Some(account) => Next(account)
  }

  /** Any seven-character scheme followed by an issued token passes the
      middleware with the token's account: the scheme itself is never checked. */
  lemma SignedHeaderPasses(c: Crypto, scheme: string, account: string, iat: nat)
    requires Sound(c)
    requires |scheme| == 7
    ensures VerifyToken(c, Some(scheme + c.sign(account, iat))) == Next(account)
  {
    var h := scheme + c.sign(account, iat);
    assert h[7..] == c.sign(account, iat);
  }
}
