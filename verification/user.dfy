/**
 routes/user.ts: registration (`POST /user`) and the `/user/me` lookup.
 */
module Users {
  import opened Wrappers
  import opened JsText
  import opened Crypto
  import opened Store

  /** The check `!account || !password || account.trim().length === 0 || ...`
      passes. */
  predicate ValidCredentials(account: Option<string>, password: Option<string>) {
    Filled(account) && Filled(password)
  }

  /** Register: validate, check that the account is free, then insert one
      user with the next autoincrement id and a salted digest of the
      password, and answer with a token for the account. */
  function Register(c: Crypto, s: Store, account: Option<string>, password: Option<string>, salt: nat, iat: nat): (o: Outcome)
    ensures !ValidCredentials(account, password) ==> o == Outcome(Err400(NotExistData), s)
    ensures ValidCredentials(account, password) && account.value in s.users
            ==> o == Outcome(Err400(AlreadyExistUser), s)
    ensures o.response.Ok? <==> ValidCredentials(account, password) && account.value !in s.users
    ensures o.response.Ok? ==>
              && o.store.users.Keys == s.users.Keys + {account.value}
              && SameExcept(s.users, o.store.users, account.value)
              && o.store.users[account.value].id == s.nextUserId
              && o.store.users[account.value].password == c.hash(password.value, salt)
              && o.store.posts == s.posts && o.store.comments == s.comments
              && o.store.nextUserId == s.nextUserId + 1
              && o.store.nextPostId == s.nextPostId && o.store.nextCommentId == s.nextCommentId
    ensures o.response.Ok? ==> o.response.payload == Token(c.sign(account.value, iat))
  {
    if !ValidCredentials(account, password) then Outcome(Err400(NotExistData), s)
    else if account.value in s.users then Outcome(Err400(AlreadyExistUser), s)
    else
      var user := User(s.nextUserId, c.hash(password.value, salt));
      var s' := s.(users := s.users[account.value := user], nextUserId := s.nextUserId + 1);
      Outcome(Ok(Token(c.sign(account.value, iat))), s')
  }

  /** A successful register never rebinds an account that already existed,
      keeps the store well formed, stores a digest the password matches, and
      hands back a token that verifies to the new account. */
  lemma RegisterSound(c: Crypto, s: Store, account: Option<string>, password: Option<string>, salt: nat, iat: nat)
    requires Sound(c)
    requires Inv(s)
    requires Register(c, s, account, password, salt, iat).response.Ok?
    ensures var s' := Register(c, s, account, password, salt, iat).store;
            && Inv(s')
            && (forall a :: a in s.users ==> a in s'.users && s'.users[a] == s.users[a])
            && (forall a :: a in s'.users && s'.users[a].id == s'.users[account.value].id ==> a == account.value)
            && c.matches(password.value, s'.users[account.value].password)
    ensures c.verify(Register(c, s, account, password, salt, iat).response.payload.token) == Some(account.value)
  {
  }

  lemma RegisterKeepsInv(c: Crypto, s: Store, account: Option<string>, password: Option<string>, salt: nat, iat: nat)
    requires Inv(s)
    ensures Inv(Register(c, s, account, password, salt, iat).store)
  {
    var o := Register(c, s, account, password, salt, iat);
    if o.response.Ok? {
      assert forall a :: a in o.store.users && a != account.value ==> a in s.users && o.store.users[a] == s.users[a];
    }
  }

  /** `/me`: the account the token named, if a user with it exists. */
  function Me(s: Store, account: string): (r: Response)
    ensures r.Ok? <==> account in s.users
    ensures r.Ok? ==> r.payload == Account(account)
    ensures !r.Ok? ==> r == Err400(NotExistUser)
  {
    if account in s.users then Ok(Account(account)) else Err400(NotExistUser)
  }
}
