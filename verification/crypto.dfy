/**
 The two cryptographic libraries the routes call, bcrypt and jsonwebtoken, are
 foreign code. They are modelled as a record of total functions together with
 the properties the routes rely on, stated by `Sound`. Every handler takes the
 record as a parameter; every property that depends on the libraries requires
 `Sound`.
 */
module Crypto {
  import opened Wrappers

  datatype Crypto = Crypto(
    /** `bcrypt.hashSync(password, 10)`; the random salt is an input. */
    hash: (string, nat) -> string,
    /** `bcrypt.compareSync(password, digest)`. */
    matches: (string, string) -> bool,
    /** `jwt.sign({ account }, secret)`; the issue time `iat` is an input. */
    sign: (string, nat) -> string,
    /** `jwt.verify(token, secret).account`, or `None` when verification throws. */
    verify: string -> Option<string>)

  /** What the routes assume of the libraries: a password matches any digest
      made from it, a signed token verifies to the account it was signed for,
      and a signed token is never the empty string. */
  ghost predicate Sound(c: Crypto) {
    && (forall pw, salt :: c.matches(pw, c.hash(pw, salt)))
    && (forall account, iat :: c.verify(c.sign(account, iat)) == Some(account))
    && (forall account, iat :: c.sign(account, iat) != "")
  }
}
