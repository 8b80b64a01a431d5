/**
 routes/post.ts: create, paged list, count, get by id, and the owner-guarded
 partial update and delete of posts. The protected handlers receive the
 account `verifyToken` attached to the request.
 */
module Posts {
  import opened Wrappers
  import opened JsText
  import opened Store
  import opened Ordering

  /** `take: 10` of the paged list. */
  const PageSize: nat := 10

  /** Create: both fields must be filled and the caller must still exist; the
      new post takes the next autoincrement id and the caller's user id. */
  function Create(s: Store, account: string, title: Option<string>, content: Option<string>): (o: Outcome)
    ensures !(Filled(title) && Filled(content)) ==> o == Outcome(Err400(NotExistData), s)
    ensures Filled(title) && Filled(content) && account !in s.users ==> o == Outcome(Err400(NotExistUser), s)
    ensures o.response.Ok? <==> Filled(title) && Filled(content) && account in s.users
    ensures o.response.Ok? ==>
              o.response.payload == OnePost(s.nextPostId, Post(s.users[account].id, title.value, content.value))
    ensures o.response.Ok? ==>
              && Inserted(s.posts, o.store.posts, s.nextPostId, o.response.payload.post)
              && o.store.nextPostId == s.nextPostId + 1
              && OnlyPostsChanged(s, o.store)
  {
    if !Filled(title) || !Filled(content) then Outcome(Err400(NotExistData), s)
    else if account !in s.users then Outcome(Err400(NotExistUser), s)
    else
      var id := s.nextPostId;
      var post := Post(s.users[account].id, title.value, content.value);
      Outcome(Ok(OnePost(id, post)), s.(posts := s.posts[id := post], nextPostId := id + 1))
  }

  /** On a well-formed store the created post is new, so the post count grows by one. */
  lemma CreateAddsOne(s: Store, account: string, title: Option<string>, content: Option<string>)
    requires Inv(s)
    requires Create(s, account, title, content).response.Ok?
    ensures s.nextPostId !in s.posts
    ensures |Create(s, account, title, content).store.posts| == |s.posts| + 1
  {
  }

  /** The post ids in [1, n), largest first: the table scan behind
      `orderBy: { id: "desc" }`. */
  function IdsBelow(posts: map<int, Post>, n: int): (r: seq<int>)
    decreases n
    ensures StrictlyDescending(r)
    ensures forall i :: 0 <= i < |r| ==> r[i] in posts && 1 <= r[i] < n
    ensures forall id :: id in posts && 1 <= id < n ==> id in r
  {
    if n <= 1 then []
    else if n - 1 in posts then [n - 1] + IdsBelow(posts, n - 1)
    else IdsBelow(posts, n - 1)
  }

  /** `skip: page * 10, take: 10`, clamped to the list like Prisma does. */
  function Window<T>(xs: seq<T>, page: nat): (r: seq<T>)
    ensures |r| <= PageSize
    ensures page * PageSize >= |xs| ==> r == []
    ensures page * PageSize < |xs| ==>
              page * PageSize + |r| <= |xs| && r == xs[page * PageSize..page * PageSize + |r|]
    ensures page * PageSize + PageSize <= |xs| ==> |r| == PageSize
    ensures page * PageSize < |xs| ==>
              |r| == (if |xs| - page * PageSize < PageSize then |xs| - page * PageSize else PageSize)
  {
    var lo := if page * PageSize < |xs| then page * PageSize else |xs|;
    var hi := if lo + PageSize < |xs| then lo + PageSize else |xs|;
    xs[lo..hi]
  }

  function Entries(posts: map<int, Post>, ids: seq<int>): (r: seq<(int, Post)>)
    requires forall i :: 0 <= i < |ids| ==> ids[i] in posts
    ensures |r| == |ids|
    ensures forall i :: 0 <= i < |r| ==> r[i] == (ids[i], posts[ids[i]])
  {
    seq(|ids|, i requires 0 <= i < |ids| => (ids[i], posts[ids[i]]))
  }

  /** The paged list. A missing (or empty) `page` query is rejected; page 0
      is the string "0", which is truthy. */
  function List(s: Store, page: Option<nat>): (r: Response)
    ensures page.None? <==> r == Err400(NotExistPage)
    ensures page.Some? ==> r.Ok? && r.payload.PostPage?
    ensures page.Some? ==>
              var es := r.payload.entries;
              && |es| <= PageSize
              && (forall i :: 0 <= i < |es| ==> es[i].0 in s.posts && es[i].1 == s.posts[es[i].0])
              && (forall i, j :: 0 <= i < j < |es| ==> es[i].0 > es[j].0)
  {
    match page
    case None => Err400(NotExistPage)
    case Some(p) =>
      var ids := Window(IdsBelow(s.posts, s.nextPostId), p);
      Ok(PostPage(Entries(s.posts, ids)))
  }

  /** On a well-formed store a listed page is exactly the slice
      [page * 10, page * 10 + 10) of all posts ordered by descending id. */
  lemma ListIsPageOfAll(s: Store, page: nat, all: seq<int>)
    requires Inv(s)
    requires EnumeratesDescending(all, s.posts.Keys)
    ensures var es := List(s, Some(page)).payload.entries;
            var w := Window(all, page);
            |es| == |w| && forall i :: 0 <= i < |es| ==> es[i].0 == w[i]
  {
    var ids := IdsBelow(s.posts, s.nextPostId);
    assert EnumeratesDescending(ids, s.posts.Keys);
    DescendingEnumerationUnique(ids, all, s.posts.Keys);
  }

  /** `/post/count`. */
  function Count(s: Store): (r: Response)
    ensures r.Ok? && r.payload.PostCount?
  {
    Ok(PostCount(|s.posts|))
  }

  /** On a well-formed store the count is the length of the full descending listing. */
  lemma CountIsListingLength(s: Store)
    requires Inv(s)
    ensures Count(s).payload.count == |IdsBelow(s.posts, s.nextPostId)|
  {
    var ids := IdsBelow(s.posts, s.nextPostId);
    DistinctLength(ids, s.posts.Keys);
  }

  /** The count moves with the table: up by one after a successful create on
      a well-formed store, down by one after a successful delete. */
  lemma CountTracksMutations(s: Store, account: string, title: Option<string>, content: Option<string>, id: Option<int>)
    requires Inv(s)
    ensures Create(s, account, title, content).response.Ok? ==>
              Count(Create(s, account, title, content).store).payload.count == Count(s).payload.count + 1
    ensures Delete(s, account, id).response.Ok? ==>
              Count(Delete(s, account, id).store).payload.count + 1 == Count(s).payload.count
  {
    if Delete(s, account, id).response.Ok? {
      assert Delete(s, account, id).store.posts.Keys == s.posts.Keys - {id.value};
    }
  }

  /** `GET /post/:id`. The `typeof +id !== "number"` test never fires, so
      the only rejection is a missing post. */
  function Get(s: Store, id: int): (r: Response)
    ensures r.Ok? <==> id in s.posts
    ensures r.Ok? ==> r.payload == OnePost(id, s.posts[id])
    ensures !r.Ok? ==> r == Err400(NotExistPost)
  {
    if id in s.posts then Ok(OnePost(id, s.posts[id])) else Err400(NotExistPost)
  }

  /** A post read right after its creation is the post the create returned. */
  lemma GetAfterCreate(s: Store, account: string, title: Option<string>, content: Option<string>)
    requires Create(s, account, title, content).response.Ok?
    ensures var o := Create(s, account, title, content);
            Get(o.store, s.nextPostId) == o.response
  {
  }

  /** A post read right after the owner deleted it is gone. */
  lemma GetAfterDelete(s: Store, account: string, id: Option<int>)
    requires Delete(s, account, id).response.Ok?
    ensures Get(Delete(s, account, id).store, id.value) == Err400(NotExistPost)
  {
  }

  /** Partial update: a truthy field replaces the stored one, a falsy field
      keeps it. No trimming here, so a whitespace-only title is stored. */
  function Merge(prev: Post, title: Option<string>, content: Option<string>): (p: Post)
    ensures p.userId == prev.userId
    ensures p.title == (if Truthy(title) then title.value else prev.title)
    ensures p.content == (if Truthy(content) then content.value else prev.content)
  {
    Post(prev.userId,
         if Truthy(title) then title.value else prev.title,
         if Truthy(content) then content.value else prev.content)
  }

  /** `PUT /post/:id`. `id` is `None` when `+id` is NaN. */
  function Update(s: Store, account: string, id: Option<int>, title: Option<string>, content: Option<string>): (o: Outcome)
    ensures id.None? ==> o == Outcome(Err400(PostIdNotNumber), s)
    ensures id.Some? && !Truthy(title) && !Truthy(content) ==> o == Outcome(Err400(NotExistData), s)
    ensures (id.Some? && (Truthy(title) || Truthy(content)) && account !in s.users)
            ==> o == Outcome(Err400(NotExistUser), s)
    ensures (id.Some? && (Truthy(title) || Truthy(content)) && account in s.users
             && !MayMutate(PostOwner(s, id.value), s.users[account].id))
            ==> o == Outcome(Err400(CanNotAccess), s)
    ensures o.response.Ok? <==>
              && id.Some? && (Truthy(title) || Truthy(content)) && account in s.users
              && MayMutate(PostOwner(s, id.value), s.users[account].id)
    ensures o.response.Ok? ==>
              && o.response.payload == OnePost(id.value, Merge(s.posts[id.value], title, content))
              && Replaced(s.posts, o.store.posts, id.value, o.response.payload.post)
              && o.store.nextPostId == s.nextPostId
              && OnlyPostsChanged(s, o.store)
  {
    if id.None? then Outcome(Err400(PostIdNotNumber), s)
    else if !Truthy(title) && !Truthy(content) then Outcome(Err400(NotExistData), s)
    else if account !in s.users then Outcome(Err400(NotExistUser), s)
    else if !MayMutate(PostOwner(s, id.value), s.users[account].id) then Outcome(Err400(CanNotAccess), s)
    else
      var post := Merge(s.posts[id.value], title, content);
      Outcome(Ok(OnePost(id.value, post)), s.(posts := s.posts[id.value := post]))
  }

  /** A post read right after the owner's update is the updated post. */
  lemma GetAfterUpdate(s: Store, account: string, id: Option<int>, title: Option<string>, content: Option<string>)
    requires Update(s, account, id, title, content).response.Ok?
    ensures var o := Update(s, account, id, title, content);
            Get(o.store, id.value) == o.response
  {
  }

  /** `PUT` is idempotent: sending the owner's update a second time
      succeeds again, answers the same and leaves the store as the first did. */
  lemma UpdateIdempotent(s: Store, account: string, id: Option<int>, title: Option<string>, content: Option<string>)
    requires Update(s, account, id, title, content).response.Ok?
    ensures var o := Update(s, account, id, title, content);
            Update(o.store, account, id, title, content) == o
  {
    var o := Update(s, account, id, title, content);
    var p := Merge(s.posts[id.value], title, content);
    assert Merge(p, title, content) == p;
    assert o.store.posts[id.value := p] == o.store.posts;
  }

  /** Update does not apply the create validators: a whitespace-only title,
      which `Create` rejects, is stored as given by the owner's update. */
  lemma UpdateStoresBlankTitle(s: Store, account: string, id: int, title: string, content: Option<string>)
    requires title != [] && AllWhitespace(title)
    requires account in s.users && MayMutate(PostOwner(s, id), s.users[account].id)
    ensures Create(s, account, Some(title), content) == Outcome(Err400(NotExistData), s)
    ensures var o := Update(s, account, Some(id), Some(title), content);
            o.response.Ok? && o.store.posts[id].title == title
  {
  }

  /** `DELETE /post/:id`: the owner removes exactly that post and gets it back. */
  function Delete(s: Store, account: string, id: Option<int>): (o: Outcome)
    ensures id.None? ==> o == Outcome(Err400(PostIdNotNumber), s)
    ensures id.Some? && account !in s.users ==> o == Outcome(Err400(NotExistUser), s)
    ensures (id.Some? && account in s.users && !MayMutate(PostOwner(s, id.value), s.users[account].id))
            ==> o == Outcome(Err400(CanNotAccess), s)
    ensures o.response.Ok? <==>
              id.Some? && account in s.users && MayMutate(PostOwner(s, id.value), s.users[account].id)
    ensures o.response.Ok? ==>
              && o.response.payload == OnePost(id.value, s.posts[id.value])
              && Removed(s.posts, o.store.posts, id.value)
              && o.store.nextPostId == s.nextPostId
              && OnlyPostsChanged(s, o.store)
  {
    if id.None? then Outcome(Err400(PostIdNotNumber), s)
    else if account !in s.users then Outcome(Err400(NotExistUser), s)
    else if !MayMutate(PostOwner(s, id.value), s.users[account].id) then Outcome(Err400(CanNotAccess), s)
    else Outcome(Ok(OnePost(id.value, s.posts[id.value])), s.(posts := s.posts - {id.value}))
  }

  lemma CreateKeepsInv(s: Store, account: string, title: Option<string>, content: Option<string>)
    requires Inv(s)
    ensures Inv(Create(s, account, title, content).store)
  {
    var o := Create(s, account, title, content);
    if o.response.Ok? {
      assert forall k :: k in o.store.posts ==> k in s.posts || k == s.nextPostId;
    }
  }

  lemma UpdateKeepsInv(s: Store, account: string, id: Option<int>, title: Option<string>, content: Option<string>)
    requires Inv(s)
    ensures Inv(Update(s, account, id, title, content).store)
  {
  }

  lemma DeleteKeepsInv(s: Store, account: string, id: Option<int>)
    requires Inv(s)
    ensures Inv(Delete(s, account, id).store)
  {
  }
}
