/**
 routes/comment.ts: create, list by post id, get by id, and the owner-guarded
 content update and delete of comments. The protected handlers receive the
 account `verifyToken` attached to the request.
 */
module Comments {
  import opened Wrappers
  import opened JsText
  import opened Store

  /** Create: the content must be filled and a post id given (`postId` is
      `None` when the body's value is missing or falsy); the caller must
      still exist. The post id is not checked against the post table here. */
  function Create(s: Store, account: string, content: Option<string>, postId: Option<int>): (o: Outcome)
    ensures !(Filled(content) && postId.Some?) ==> o == Outcome(Err400(NotExistData), s)
    ensures Filled(content) && postId.Some? && account !in s.users ==> o == Outcome(Err400(NotExistUser), s)
    ensures o.response.Ok? <==> Filled(content) && postId.Some? && account in s.users
    ensures o.response.Ok? ==>
              o.response.payload == OneComment(s.nextCommentId, Comment(s.users[account].id, postId.value, content.value))
    ensures o.response.Ok? ==>
              && Inserted(s.comments, o.store.comments, s.nextCommentId, o.response.payload.comment)
              && o.store.nextCommentId == s.nextCommentId + 1
              && OnlyCommentsChanged(s, o.store)
  {
    if !Filled(content) || postId.None? then Outcome(Err400(NotExistData), s)
    else if account !in s.users then Outcome(Err400(NotExistUser), s)
    else
      var id := s.nextCommentId;
      var comment := Comment(s.users[account].id, postId.value, content.value);
      Outcome(Ok(OneComment(id, comment)), s.(comments := s.comments[id := comment], nextCommentId := id + 1))
  }

  /** On a well-formed store the created comment is new, so the comment count grows by one. */
  lemma CreateAddsOne(s: Store, account: string, content: Option<string>, postId: Option<int>)
    requires Inv(s)
    requires Create(s, account, content, postId).response.Ok?
    ensures s.nextCommentId !in s.comments
    ensures |Create(s, account, content, postId).store.comments| == |s.comments| + 1
  {
  }

  /** `GET /comment?postId=`: every comment of that post and nothing else. */
  function List(s: Store, postId: Option<int>): (r: Response)
    ensures postId.None? <==> r == Err400(NotExistPostId)
    ensures postId.Some? ==> r.Ok? && r.payload.CommentList?
    ensures postId.Some? ==>
              forall id :: id in r.payload.found <==> id in s.comments && s.comments[id].postId == postId.value
    ensures postId.Some? ==> forall id :: id in r.payload.found ==> r.payload.found[id] == s.comments[id]
  {
    match postId
    case None => Err400(NotExistPostId)
    case Some(p) =>
      Ok(CommentList(map id | id in s.comments && s.comments[id].postId == p :: s.comments[id]))
  }

  /** `GET /comment/:id`: a missing comment is not an error, the reply is `null`. */
  function Get(s: Store, id: int): (r: Response)
    ensures r.Ok? && r.payload.MaybeComment?
    ensures r.payload.hit.Some? <==> id in s.comments
    ensures r.payload.hit.Some? ==> r.payload.hit.value == (id, s.comments[id])
  {
    Ok(MaybeComment(if id in s.comments then Some((id, s.comments[id])) else None))
  }

  /** A comment read right after its creation is the comment the create returned. */
  lemma GetAfterCreate(s: Store, account: string, content: Option<string>, postId: Option<int>)
    requires Create(s, account, content, postId).response.Ok?
    ensures var o := Create(s, account, content, postId);
            Get(o.store, s.nextCommentId) == Ok(MaybeComment(Some((s.nextCommentId, o.response.payload.comment))))
  {
  }

  /** A comment read right after the owner deleted it is `null`. */
  lemma GetAfterDelete(s: Store, account: string, id: Option<int>)
    requires Delete(s, account, id).response.Ok?
    ensures Get(Delete(s, account, id).store, id.value) == Ok(MaybeComment(None))
  {
  }

  /** After a comment is created on post `p`, the listing of `p` is the old
      listing plus the new comment, and the listing of any other post is unchanged. */
  lemma ListAfterCreate(s: Store, account: string, content: Option<string>, p: int, q: int)
    requires Inv(s)
    requires Create(s, account, content, Some(p)).response.Ok?
    ensures var o := Create(s, account, content, Some(p));
            List(o.store, Some(p)).payload.found
              == List(s, Some(p)).payload.found[s.nextCommentId := o.response.payload.comment]
    ensures q != p ==>
              List(Create(s, account, content, Some(p)).store, Some(q)).payload.found == List(s, Some(q)).payload.found
  {
    var o := Create(s, account, content, Some(p));
    var before := List(s, Some(p)).payload.found;
    var after := List(o.store, Some(p)).payload.found;
    assert after.Keys == before.Keys + {s.nextCommentId};
    if q != p {
      assert List(o.store, Some(q)).payload.found.Keys == List(s, Some(q)).payload.found.Keys;
    }
  }

  /** After the owner deletes a comment, every listing is the old one without it. */
  lemma ListAfterDelete(s: Store, account: string, id: Option<int>, p: int)
    requires Delete(s, account, id).response.Ok?
    ensures List(Delete(s, account, id).store, Some(p)).payload.found == List(s, Some(p)).payload.found - {id.value}
  {
    var o := Delete(s, account, id);
    assert List(o.store, Some(p)).payload.found.Keys == List(s, Some(p)).payload.found.Keys - {id.value};
  }

  /** `PUT /comment/:id`: the owner replaces the content, and only the content.
      `id` is `None` when `+id` is NaN. */
  function Update(s: Store, account: string, id: Option<int>, content: Option<string>): (o: Outcome)
    ensures id.None? ==> o == Outcome(Err400(CommentIdNotNumber), s)
    ensures id.Some? && !Truthy(content) ==> o == Outcome(Err400(NotExistContent), s)
    ensures id.Some? && Truthy(content) && account !in s.users ==> o == Outcome(Err400(NotExistUser), s)
    ensures (id.Some? && Truthy(content) && account in s.users
             && !MayMutate(CommentOwner(s, id.value), s.users[account].id))
            ==> o == Outcome(Err400(CanNotAccess), s)
    ensures o.response.Ok? <==>
              && id.Some? && Truthy(content) && account in s.users
              && MayMutate(CommentOwner(s, id.value), s.users[account].id)
    ensures o.response.Ok? ==>
              && o.response.payload.OneComment? && o.response.payload.commentId == id.value
              && var updated := o.response.payload.comment;
              && updated.userId == s.comments[id.value].userId
              && updated.postId == s.comments[id.value].postId
              && updated.content == content.value
              && Replaced(s.comments, o.store.comments, id.value, updated)
              && o.store.nextCommentId == s.nextCommentId
              && OnlyCommentsChanged(s, o.store)
  {
    if id.None? then Outcome(Err400(CommentIdNotNumber), s)
    else if !Truthy(content) then Outcome(Err400(NotExistContent), s)
    else if account !in s.users then Outcome(Err400(NotExistUser), s)
    else if !MayMutate(CommentOwner(s, id.value), s.users[account].id) then Outcome(Err400(CanNotAccess), s)
    else
      var comment := s.comments[id.value].(content := content.value);
      Outcome(Ok(OneComment(id.value, comment)), s.(comments := s.comments[id.value := comment]))
  }

  /** `DELETE /comment/:id`: the owner removes exactly that comment and gets it back. */
  function Delete(s: Store, account: string, id: Option<int>): (o: Outcome)
    ensures id.None? ==> o == Outcome(Err400(CommentIdNotNumber), s)
    ensures id.Some? && account !in s.users ==> o == Outcome(Err400(NotExistUser), s)
    ensures (id.Some? && account in s.users && !MayMutate(CommentOwner(s, id.value), s.users[account].id))
            ==> o == Outcome(Err400(CanNotAccess), s)
    ensures o.response.Ok? <==>
              id.Some? && account in s.users && MayMutate(CommentOwner(s, id.value), s.users[account].id)
    ensures o.response.Ok? ==>
              && o.response.payload == OneComment(id.value, s.comments[id.value])
              && Removed(s.comments, o.store.comments, id.value)
              && o.store.nextCommentId == s.nextCommentId
              && OnlyCommentsChanged(s, o.store)
  {
    if id.None? then Outcome(Err400(CommentIdNotNumber), s)
    else if account !in s.users then Outcome(Err400(NotExistUser), s)
    else if !MayMutate(CommentOwner(s, id.value), s.users[account].id) then Outcome(Err400(CanNotAccess), s)
    else Outcome(Ok(OneComment(id.value, s.comments[id.value])), s.(comments := s.comments - {id.value}))
  }

  lemma CreateKeepsInv(s: Store, account: string, content: Option<string>, postId: Option<int>)
    requires Inv(s)
    ensures Inv(Create(s, account, content, postId).store)
  {
    var o := Create(s, account, content, postId);
    if o.response.Ok? {
      assert forall k :: k in o.store.comments ==> k in s.comments || k == s.nextCommentId;
    }
  }

  lemma UpdateKeepsInv(s: Store, account: string, id: Option<int>, content: Option<string>)
    requires Inv(s)
    ensures Inv(Update(s, account, id, content).store)
  {
  }

  lemma DeleteKeepsInv(s: Store, account: string, id: Option<int>)
    requires Inv(s)
    ensures Inv(Delete(s, account, id).store)
  {
  }
}
