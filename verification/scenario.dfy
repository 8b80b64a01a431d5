/**
 A session over the whole server, for any two distinct accounts: alice
 registers, fails to log in with a wrong password, logs in, and creates a
 post; bob registers and cannot delete it; alice can.
 */
module Scenario {
  import opened Wrappers
  import opened JsText
  import opened Crypto
  import opened Store
  import Auth
  import Users
  import Posts
  import opened Server

  /** The credentials and post of one session. */
  datatype Cast = Cast(
    alice: string, pw1: string, wrong: string, salt1: nat,
    bob: string, pw2: string, salt2: nat,
    title: string, content: string, scheme: string)

  predicate WellFormed(k: Cast) {
    && Filled(Some(k.alice)) && Filled(Some(k.pw1)) && Truthy(Some(k.wrong))
    && Filled(Some(k.bob)) && Filled(Some(k.pw2))
    && Filled(Some(k.title)) && Filled(Some(k.content))
    && k.alice != k.bob && |k.scheme| == 7
  }

  function FirstPost(k: Cast): Post {
    Post(1, k.title, k.content)
  }

  function AliceOnly(c: Crypto, k: Cast): Store {
    Store(map[k.alice := User(1, c.hash(k.pw1, k.salt1))], map[], map[], 2, 1, 1)
  }

  function AliceWithPost(c: Crypto, k: Cast): Store {
    AliceOnly(c, k).(posts := map[1 := FirstPost(k)], nextPostId := 2)
  }

  function WithBob(c: Crypto, k: Cast): Store {
    var s := AliceWithPost(c, k);
    s.(users := s.users[k.bob := User(2, c.hash(k.pw2, k.salt2))], nextUserId := 3)
  }

  /** The Authorization header carrying a token for `account`. */
  function Header(c: Crypto, k: Cast, account: string, iat: nat): Option<string> {
    Some(k.scheme + c.sign(account, iat))
  }

  lemma AliceRegisters(c: Crypto, k: Cast)
    requires WellFormed(k)
    ensures Step(c, Empty, Register(Some(k.alice), Some(k.pw1), k.salt1, 0))
            == Outcome(Ok(Token(c.sign(k.alice, 0))), AliceOnly(c, k))
  {
  }

  lemma AliceMistypes(c: Crypto, k: Cast)
    requires WellFormed(k)
    requires !c.matches(k.wrong, c.hash(k.pw1, k.salt1))
    ensures Step(c, AliceOnly(c, k), Login(Some(k.alice), Some(k.wrong), 1)).response
            == Err400(IncorrectPassword)
  {
  }

  lemma AliceLogsIn(c: Crypto, k: Cast)
    requires WellFormed(k)
    requires c.matches(k.pw1, c.hash(k.pw1, k.salt1))
    ensures Step(c, AliceOnly(c, k), Login(Some(k.alice), Some(k.pw1), 2)).response
            == Ok(Token(c.sign(k.alice, 2)))
  {
  }

  lemma AlicePosts(c: Crypto, k: Cast)
    requires WellFormed(k)
    requires Auth.VerifyToken(c, Header(c, k, k.alice, 0)) == Auth.Next(k.alice)
    ensures Step(c, AliceOnly(c, k), CreatePost(Header(c, k, k.alice, 0), Some(k.title), Some(k.content)))
            == Outcome(Ok(OnePost(1, FirstPost(k))), AliceWithPost(c, k))
  {
  }

  lemma BobRegisters(c: Crypto, k: Cast)
    requires WellFormed(k)
    ensures Step(c, AliceWithPost(c, k), Register(Some(k.bob), Some(k.pw2), k.salt2, 3))
            == Outcome(Ok(Token(c.sign(k.bob, 3))), WithBob(c, k))
  {
  }

  lemma BobCannotDelete(c: Crypto, k: Cast)
    requires k.alice != k.bob
    requires Auth.VerifyToken(c, Header(c, k, k.bob, 3)) == Auth.Next(k.bob)
    ensures Step(c, WithBob(c, k), DeletePost(Header(c, k, k.bob, 3), Some(1)))
            == Outcome(Err400(CanNotAccess), WithBob(c, k))
  {
  }

  lemma AliceDeletes(c: Crypto, k: Cast)
    requires k.alice != k.bob
    requires Auth.VerifyToken(c, Header(c, k, k.alice, 0)) == Auth.Next(k.alice)
    ensures Step(c, WithBob(c, k), DeletePost(Header(c, k, k.alice, 0), Some(1)))
            == Outcome(Ok(OnePost(1, FirstPost(k))), WithBob(c, k).(posts := map[]))
  {
    var s := WithBob(c, k);
    assert s.posts == map[1 := FirstPost(k)];
    assert s.posts - {1} == map[];
    assert k.alice in s.users && s.users[k.alice].id == 1;
    assert Posts.Delete(s, k.alice, Some(1)) == Outcome(Ok(OnePost(1, FirstPost(k))), s.(posts := map[]));
    assert Step(c, s, DeletePost(Header(c, k, k.alice, 0), Some(1))) == Posts.Delete(s, k.alice, Some(1));
  }

  /** The whole session: each step starts from the store the previous one
      left, and each protected request carries a token an earlier step
      handed back. */
  lemma {:induction false} AliceAndBob(c: Crypto, k: Cast)
    requires Sound(c) && WellFormed(k)
    requires !c.matches(k.wrong, c.hash(k.pw1, k.salt1))
    ensures Step(c, Empty, Register(Some(k.alice), Some(k.pw1), k.salt1, 0))
            == Outcome(Ok(Token(c.sign(k.alice, 0))), AliceOnly(c, k))
    ensures c.verify(c.sign(k.alice, 0)) == Some(k.alice)
    ensures Step(c, AliceOnly(c, k), Login(Some(k.alice), Some(k.wrong), 1)).response
            == Err400(IncorrectPassword)
    ensures Step(c, AliceOnly(c, k), Login(Some(k.alice), Some(k.pw1), 2)).response
            == Ok(Token(c.sign(k.alice, 2)))
    ensures c.verify(c.sign(k.alice, 2)) == Some(k.alice)
    ensures Step(c, AliceOnly(c, k), CreatePost(Header(c, k, k.alice, 0), Some(k.title), Some(k.content)))
            == Outcome(Ok(OnePost(1, FirstPost(k))), AliceWithPost(c, k))
    ensures Step(c, AliceWithPost(c, k), Register(Some(k.bob), Some(k.pw2), k.salt2, 3))
            == Outcome(Ok(Token(c.sign(k.bob, 3))), WithBob(c, k))
    ensures Step(c, WithBob(c, k), DeletePost(Header(c, k, k.bob, 3), Some(1)))
            == Outcome(Err400(CanNotAccess), WithBob(c, k))
    ensures Step(c, WithBob(c, k), DeletePost(Header(c, k, k.alice, 0), Some(1)))
            == Outcome(Ok(OnePost(1, FirstPost(k))), WithBob(c, k).(posts := map[]))
  {
    Auth.SignedHeaderPasses(c, k.scheme, k.alice, 0);
    Auth.SignedHeaderPasses(c, k.scheme, k.bob, 3);
    assert c.matches(k.pw1, c.hash(k.pw1, k.salt1));
    AliceRegisters(c, k);
    AliceMistypes(c, k);
    AliceLogsIn(c, k);
    AlicePosts(c, k);
    BobRegisters(c, k);
    BobCannotDelete(c, k);
    AliceDeletes(c, k);
  }
}
