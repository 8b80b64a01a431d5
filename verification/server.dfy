/**
 The four routers mounted on one store: each request runs its route's
 handler, behind `verifyToken` when the route is protected, and yields a reply
 and the store afterwards. Handlers run one at a time.
 */
module Server {
  import opened Wrappers
  import opened JsText
  import opened Crypto
  import opened Store
  import Auth
  import Users
  import Posts
  import Comments

  /** One request per route. `header` is the Authorization header; `salt`
      and `iat` are the randomness and clock bcrypt and jsonwebtoken use. */
  datatype Request =
    | Register(account: Option<string>, password: Option<string>, salt: nat, iat: nat)
    | Login(account: Option<string>, password: Option<string>, iat: nat)
    | Me(header: Option<string>)
    | CreatePost(header: Option<string>, title: Option<string>, content: Option<string>)
    | ListPosts(page: Option<nat>)
    | CountPosts
    | GetPost(key: int)
    | UpdatePost(header: Option<string>, id: Option<int>, title: Option<string>, content: Option<string>)
    | DeletePost(header: Option<string>, id: Option<int>)
    | CreateComment(header: Option<string>, content: Option<string>, postId: Option<int>)
    | ListComments(postId: Option<int>)
    | GetComment(key: int)
    | UpdateComment(header: Option<string>, id: Option<int>, content: Option<string>)
    | DeleteComment(header: Option<string>, id: Option<int>)

  predicate Protected(req: Request) {
    req.Me? || req.CreatePost? || req.UpdatePost? || req.DeletePost?
    || req.CreateComment? || req.UpdateComment? || req.DeleteComment?
  }

  /** A handler that only reads. */
  function Read(s: Store, r: Response): Outcome {
    Outcome(r, s)
  }

  /** Runs `verifyToken` and, when it calls `next`, the protected handler. */
  function Guarded(c: Crypto, s: Store, req: Request): (o: Outcome)
    requires Protected(req)
    ensures Auth.VerifyToken(c, req.header).Halt? ==> o == Outcome(Auth.VerifyToken(c, req.header).response, s)
  {
    match Auth.VerifyToken(c, req.header)
    case Halt(r) => Outcome(r, s)
    case Next(account) =>
      match req
      case Me(_) => Read(s, Users.Me(s, account))
      case CreatePost(_, title, content) => Posts.Create(s, account, title, content)
      case UpdatePost(_, id, title, content) => Posts.Update(s, account, id, title, content)
      case DeletePost(_, id) => Posts.Delete(s, account, id)
      case CreateComment(_, content, postId) => Comments.Create(s, account, content, postId)
      case UpdateComment(_, id, content) => Comments.Update(s, account, id, content)
      case DeleteComment(_, id) => Comments.Delete(s, account, id)
  }

  /** Serves one request. */
  function Step(c: Crypto, s: Store, req: Request): (o: Outcome)
    ensures !o.response.Ok? ==> o.store == s
    ensures (|| req.Login? || req.ListPosts? || req.CountPosts? || req.GetPost? || req.Me?
             || req.ListComments? || req.GetComment?) ==> o.store == s
  {
    match req
    case Register(account, password, salt, iat) => Users.Register(c, s, account, password, salt, iat)
    case Login(account, password, iat) => Read(s, Auth.Login(c, s, account, password, iat))
    case ListPosts(page) => Read(s, Posts.List(s, page))
    case CountPosts => Read(s, Posts.Count(s))
    case GetPost(key) => Read(s, Posts.Get(s, key))
    case ListComments(postId) => Read(s, Comments.List(s, postId))
    case GetComment(key) => Read(s, Comments.Get(s, key))
    case _ => Guarded(c, s, req)
  }

  /** The account the request's token names, when it passes the middleware
      and a user with that account exists. */
  function Caller(c: Crypto, s: Store, header: Option<string>): Option<int> {
    match Auth.VerifyToken(c, header)
    case Next(account) => if account in s.users then Some(s.users[account].id) else None
    case Halt(_) => None
  }

  /** Every request keeps the store well formed. */
  lemma StepPreservesInv(c: Crypto, s: Store, req: Request)
    requires Inv(s)
    ensures Inv(Step(c, s, req).store)
  {
    var o := Step(c, s, req);
    if o.response.Ok? {
      match req
      case Register(account, password, salt, iat) =>
        Users.RegisterKeepsInv(c, s, account, password, salt, iat);
      case CreatePost(h, title, content) =>
        Posts.CreateKeepsInv(s, Auth.VerifyToken(c, h).account, title, content);
      case UpdatePost(h, id, title, content) =>
        Posts.UpdateKeepsInv(s, Auth.VerifyToken(c, h).account, id, title, content);
      case DeletePost(h, id) =>
        Posts.DeleteKeepsInv(s, Auth.VerifyToken(c, h).account, id);
      case CreateComment(h, content, postId) =>
        Comments.CreateKeepsInv(s, Auth.VerifyToken(c, h).account, content, postId);
      case UpdateComment(h, id, content) =>
        Comments.UpdateKeepsInv(s, Auth.VerifyToken(c, h).account, id, content);
      case DeleteComment(h, id) =>
        Comments.DeleteKeepsInv(s, Auth.VerifyToken(c, h).account, id);
      case _ =>
    }
  }

  /** Users are never removed or altered: every request keeps every existing
      account bound to the same record, so an account name always denotes one user. */
  lemma UsersOnlyGrow(c: Crypto, s: Store, req: Request)
    ensures var s' := Step(c, s, req).store;
            forall a :: a in s.users ==> a in s'.users && s'.users[a] == s.users[a]
  {
  }

  /** Only the owner mutates a post: on a well-formed store, if a request
      changes or removes an existing post, it is an update or delete of that post whose token names
      the post's owner. */
  lemma OnlyOwnerChangesPost(c: Crypto, s: Store, req: Request, id: int)
    requires Inv(s)
    requires id in s.posts
    requires var s' := Step(c, s, req).store;
             id !in s'.posts || s'.posts[id] != s.posts[id]
    ensures req.UpdatePost? || req.DeletePost?
    ensures req.id == Some(id)
    ensures Caller(c, s, req.header) == Some(s.posts[id].userId)
  {
    match req
    case UpdatePost(h, k, title, content) =>
    case DeletePost(h, k) =>
    case CreatePost(h, title, content) =>
    case _ =>
  }

  /** Only the owner mutates a comment, in the same sense. */
  lemma OnlyOwnerChangesComment(c: Crypto, s: Store, req: Request, id: int)
    requires Inv(s)
    requires id in s.comments
    requires var s' := Step(c, s, req).store;
             id !in s'.comments || s'.comments[id] != s.comments[id]
    ensures req.UpdateComment? || req.DeleteComment?
    ensures req.id == Some(id)
    ensures Caller(c, s, req.header) == Some(s.comments[id].userId)
  {
    match req
    case UpdateComment(h, k, content) =>
    case DeleteComment(h, k) =>
    case CreateComment(h, content, postId) =>
    case _ =>
  }

  /** A request that does not pass the middleware changes nothing and never
      succeeds. */
  lemma UnauthenticatedNeverSucceeds(c: Crypto, s: Store, req: Request)
    requires Protected(req)
    requires Auth.VerifyToken(c, req.header).Halt?
    ensures !Step(c, s, req).response.Ok?
    ensures Step(c, s, req).store == s
  {
  }

  /** Registering and then logging in with the same credentials succeeds,
      and both tokens verify to the account. */
  lemma RegisterThenLogin(c: Crypto, s: Store, account: string, password: string, salt: nat, iat1: nat, iat2: nat)
    requires Sound(c)
    requires Filled(Some(account)) && Filled(Some(password))
    requires account !in s.users
    ensures var o := Step(c, s, Register(Some(account), Some(password), salt, iat1));
            var l := Step(c, o.store, Login(Some(account), Some(password), iat2));
            && o.response.Ok? && l.response.Ok?
            && c.verify(o.response.payload.token) == Some(account)
            && c.verify(l.response.payload.token) == Some(account)
  {
  }

  /** A token returned by register, sent behind any seven-character scheme,
      lets `/me` answer with the new account. */
  lemma RegisterThenMe(c: Crypto, s: Store, account: string, password: string, salt: nat, iat: nat, scheme: string)
    requires Sound(c)
    requires |scheme| == 7
    requires Filled(Some(account)) && Filled(Some(password))
    requires account !in s.users
    ensures var o := Step(c, s, Register(Some(account), Some(password), salt, iat));
            Step(c, o.store, Me(Some(scheme + o.response.payload.token))).response == Ok(Account(account))
  {
    Auth.SignedHeaderPasses(c, scheme, account, iat);
  }
}
