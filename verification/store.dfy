/**
 The abstract store the routes read and write through the Prisma client: three
 tables and their autoincrement counters, plus the response every handler
 produces.
 */
module Store {
  import opened Wrappers

  /** A row of the user table, keyed by its (unique) account name. */
  datatype User = User(id: int, password: string)

  /** A row of the post table, keyed by post id. */
  datatype Post = Post(userId: int, title: string, content: string)

  /** A row of the comment table, keyed by comment id. */
  datatype Comment = Comment(userId: int, postId: int, content: string)

  /** The database. `next*` is the id the table's autoincrement hands out next. */
  datatype Store = Store(
    users: map<string, User>,
    posts: map<int, Post>,
    comments: map<int, Comment>,
    nextUserId: int,
    nextPostId: int,
    nextCommentId: int)

  /** A freshly migrated database: empty tables, autoincrement starting at 1. */
  const Empty: Store := Store(map[], map[], map[], 1, 1, 1)

  /** The `ok: true` bodies the routes send. */
  datatype Payload =
    | Token(token: string)
    | Account(account: string)
    | OnePost(postId: int, post: Post)
    | PostPage(entries: seq<(int, Post)>)
    | PostCount(count: nat)
    | OneComment(commentId: int, comment: Comment)
    | CommentList(found: map<int, Comment>)
    | MaybeComment(hit: Option<(int, Comment)>)

  /** A reply: `res.json({ ok: true, ... })`, or `ok: false` with status 400 or 500. */
  datatype Response = Ok(payload: Payload) | Err400(message: string) | Err500(message: string)

  /** A reply together with the store after the request. */
  datatype Outcome = Outcome(response: Response, store: Store)

  const NotExistData := "Not exist data."
  const AlreadyExistUser := "Already exist user."
  const NotExistUser := "Not exist user."
  const IncorrectPassword := "Incorrect password."
  const NotExistToken := "Not exist token."
  const ServerError := "Server Error."
  const NotExistPage := "Not exist page."
  const NotExistPost := "Not exist post."
  const PostIdNotNumber := "Post id is not number."
  const CanNotAccess := "Can not access."
  const NotExistPostId := "Not exist post id."
  const CommentIdNotNumber := "Comment id is not a number."
  const NotExistContent := "Not exist content."

  /** The store is well formed: every id lies below its table's counter and
      at or above 1, and no two accounts share a user id. */
  ghost predicate Inv(s: Store) {
    && 1 <= s.nextUserId && 1 <= s.nextPostId && 1 <= s.nextCommentId
    && (forall a :: a in s.users ==> 1 <= s.users[a].id < s.nextUserId)
    && (forall a, b :: a in s.users && b in s.users && s.users[a].id == s.users[b].id ==> a == b)
    && (forall id :: id in s.posts ==> 1 <= id < s.nextPostId)
    && (forall id :: id in s.comments ==> 1 <= id < s.nextCommentId)
  }

  lemma EmptyInv()
    ensures Inv(Empty)
  {
  }

  /** `m'` agrees with `m` on every key other than `k`. */
  ghost predicate SameExcept<K(!new), V>(m: map<K, V>, m': map<K, V>, k: K) {
    forall x :: x != k ==> (x in m <==> x in m') && (x in m ==> m[x] == m'[x])
  }

  /** `m'` is `m` with the entry `k := v` added and nothing else changed. */
  ghost predicate Inserted<K(!new), V>(m: map<K, V>, m': map<K, V>, k: K, v: V) {
    k in m' && m'[k] == v && m'.Keys == m.Keys + {k} && SameExcept(m, m', k)
  }

  /** `m'` is `m` with the value at the existing key `k` replaced by `v`. */
  ghost predicate Replaced<K(!new), V>(m: map<K, V>, m': map<K, V>, k: K, v: V) {
    k in m' && m'[k] == v && m'.Keys == m.Keys && SameExcept(m, m', k)
  }

  /** `m'` is `m` without the key `k`. */
  ghost predicate Removed<K(!new), V>(m: map<K, V>, m': map<K, V>, k: K) {
    m'.Keys == m.Keys - {k} && SameExcept(m, m', k)
  }

  /** Nothing outside the post table and its counter differs. */
  predicate OnlyPostsChanged(s: Store, s': Store) {
    && s'.users == s.users && s'.comments == s.comments
    && s'.nextUserId == s.nextUserId && s'.nextCommentId == s.nextCommentId
  }

  /** Nothing outside the comment table and its counter differs. */
  predicate OnlyCommentsChanged(s: Store, s': Store) {
    && s'.users == s.users && s'.posts == s.posts
    && s'.nextUserId == s.nextUserId && s'.nextPostId == s.nextPostId
  }

  /** The ownership guard `!exist || exist.userId !== user.id` lets the
      request through: the row exists and belongs to the caller. Missing and
      foreign rows are rejected alike. */
  predicate MayMutate(ownerId: Option<int>, callerId: int) {
    ownerId == Some(callerId)
  }

  /** The guard written against the tables as the routes write it: a request
      is refused exactly when the row is missing or its `userId` is not the
      caller's id. */
  lemma MayMutateIsGuard(s: Store, id: int, callerId: int)
    ensures !MayMutate(PostOwner(s, id), callerId) <==> id !in s.posts || s.posts[id].userId != callerId
    ensures !MayMutate(CommentOwner(s, id), callerId) <==> id !in s.comments || s.comments[id].userId != callerId
  {
  }

  function PostOwner(s: Store, id: int): (r: Option<int>)
    ensures r.Some? <==> id in s.posts
    ensures r.Some? ==> r.value == s.posts[id].userId
  {
    if id in s.posts then Some(s.posts[id].userId) else None
  }

  function CommentOwner(s: Store, id: int): (r: Option<int>)
    ensures r.Some? <==> id in s.comments
    ensures r.Some? ==> r.value == s.comments[id].userId
  {
    if id in s.comments then Some(s.comments[id].userId) else None
  }
}
