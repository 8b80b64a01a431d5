# Board backend routers as store transitions

This project models the decision logic of the four Express routers of a small
board service: `routes/user.ts` (registration and `/me`), `routes/auth.ts`
(login and the `verifyToken` middleware), `routes/post.ts` and
`routes/comment.ts` (create, list, read, owner-guarded update and delete).

Every handler is a pure function from the store and the request's inputs to a
reply (`Ok(payload)`, `Err400(message)` or `Err500(message)`) and, for the
handlers that write, the store afterwards. The store is an immutable record of
three tables (users keyed by account name, posts and comments keyed by id)
and the three autoincrement counters the database hands ids out from.
`Server.Step` mounts everything on one store and runs `verifyToken` in front
of the protected routes.

bcrypt and jsonwebtoken are foreign libraries. They are a `Crypto.Crypto`
record of total functions passed to every handler. The predicate
`Crypto.Sound` states the only facts the routes rely on:

- a password matches any digest made from it;
- a signed token verifies to the account it was signed for;
- a signed token is never empty.

The bcrypt salt and the JWT issue time are explicit inputs, so hashing and
signing are deterministic in the model.

Modules: `Wrappers` (Option), `JsText` (JavaScript truthiness and `trim`),
`Crypto`, `Store` (tables, replies, the well-formedness invariant `Inv`, the
ownership guard `MayMutate`), `Auth`, `Users`, `Posts`, `Ordering`
(descending enumerations of post ids), `Comments`, `Server` (dispatch and
whole-server properties) and `Scenario` (one full session).

Notes on the code's behaviour, which the model follows:

- A missing resource and a foreign resource give the same reply, 400
  "Can not access.". They are not distinct NotFound and Forbidden outcomes.
- A missing Authorization header and a failed token verification give 500
  "Server Error.". A header of at most seven characters gives 400
  "Not exist token.".
- The middleware only verifies the token and attaches its account. Each
  handler looks the account up itself and answers 400 "Not exist user." when
  it is gone.
- The token carries only the account, not the user id.
- Login does not trim its inputs. Register and the create handlers reject blank values using `trim` but store the input untrimmed.

## Model

| member | source | states |
|---|---|---|
| `JsText.TrimEmptyIffBlank` | routes/user.ts:19-20 | `s.trim().length === 0` holds exactly when every character of `s` is ECMAScript whitespace or a line terminator |
| `JsText.TrimStart` | routes/user.ts:19-20 | the leading part of `trim`: the result is a suffix of the input, everything dropped is whitespace, and the result does not start with whitespace |
| `JsText.TrimEnd` | routes/user.ts:19-20 | the trailing part of `trim`: the result is a prefix of the input, everything dropped is whitespace, and the result does not end with whitespace |
| `JsText.Trim` | routes/post.ts:30-32 | `s.trim()` is no longer than `s` and neither starts nor ends with whitespace; `JsText.TrimEmptyIffBlank` says when it is empty |
| `JsText.TruthyIsNotFalsy` | routes/post.ts:167 | for a string field that may be absent, `!v` holds exactly for `undefined` and `""`; a field the create validators accept is truthy, and a truthy blank string is one they reject |
| `JsText.FilledIsTrimCheck` | routes/post.ts:28-33 | the validators' test `!v \|\| v.trim().length === 0` rejects exactly the fields that are not `Filled` (missing, empty or blank) |
| `Auth.Login` | routes/auth.ts:15-53 | missing or empty account or password gives 400 "Not exist data." with no trimming; an unknown account gives "Not exist user."; a non-matching password gives "Incorrect password."; it succeeds exactly when the account exists and the password matches the stored digest, and then returns a token signed for the account |
| `Auth.LoginTokenVerifies` | routes/auth.ts:39-48 | under `Sound`, the token of a successful login verifies to the account that logged in |
| `Auth.BearerToken` | routes/auth.ts:66 | the token is the header minus its first seven characters, with no check of the scheme, and is empty for headers of at most seven characters |
| `Auth.VerifyToken` | routes/auth.ts:64-91 | an absent header or a failed verification halts with 500 "Server Error."; a header of at most seven characters halts with 400 "Not exist token."; `next` is called exactly when the rest verifies, with the verified account attached |
| `Auth.SignedHeaderPasses` | routes/auth.ts:66-82 | under `Sound`, any seven-character scheme followed by an issued token passes the middleware with that token's account |
| `Users.Register` | routes/user.ts:12-52 | invalid or blank credentials give 400 "Not exist data." and an existing account gives "Already exist user.", both leaving the store unchanged; success happens exactly for valid credentials on a free account; it adds one user under the submitted account with the next id and `hash(password)`; posts, comments and other users are unchanged; the reply is a token for the account |
| `Users.RegisterSound` | routes/user.ts:28-52 | under `Sound` on a well-formed store, a successful register keeps the store well formed and never rebinds an existing account; the new user's id names no other account; the stored digest matches the password; the returned token verifies to the new account |
| `Users.RegisterKeepsInv` | routes/user.ts:41-48 | register keeps the store well formed: ids stay below the counter and no two accounts share an id |
| `Users.Me` | routes/user.ts:63-83 | `/me` returns the account exactly when a user with it exists, and otherwise 400 "Not exist user." |
| `Server.RegisterThenMe` | routes/user.ts:63-83 | under `Sound`, the token a successful register returns, sent behind any seven-character scheme, makes `/me` answer with the new account |
| `Posts.Create` | routes/post.ts:23-61 | a missing or blank title or content gives 400 "Not exist data."; a vanished caller gives "Not exist user."; both leave the store unchanged; on success exactly one post is added under the next id, with the caller's user id and the given title and content; users, comments and the other posts are unchanged |
| `Posts.CreateAddsOne` | routes/post.ts:53-59 | on a well-formed store the created post's id is fresh, so the post table grows by exactly one |
| `Posts.IdsBelow` | routes/post.ts:83-90 | the scan behind `orderBy: { id: "desc" }` lists, strictly descending, exactly the post ids in [1, n) |
| `Posts.Window` | routes/post.ts:84-85 | `skip: page * 10, take: 10` yields the contiguous slice starting at `page * 10` of length ten, or of the remaining length on a partial last page, and is empty past the end |
| `Posts.List` | routes/post.ts:72-92 | a missing page gives 400 "Not exist page."; otherwise at most ten stored posts, each with its stored contents, in strictly descending id order |
| `Posts.ListIsPageOfAll` | routes/post.ts:83-90 | on a well-formed store the page is exactly the slice [page*10, page*10+10) of every post ordered by descending id |
| `Ordering.DescendingEnumerationUnique` | routes/post.ts:86-88 | two strictly descending lists of the same set of ids are equal, so "all posts by descending id" is one well-defined list |
| `Ordering.DistinctLength` | routes/post.ts:105-107 | a strictly descending list of exactly the ids of a set has one entry per id |
| `Posts.Count` | routes/post.ts:103-107 | `/post/count` always answers with a count |
| `Posts.CountIsListingLength` | routes/post.ts:105-107 | on a well-formed store the count equals the length of the full descending listing |
| `Posts.CountTracksMutations` | routes/post.ts:105-107 | on a well-formed store the count rises by one after a successful create and falls by one after a successful delete |
| `Posts.Get` | routes/post.ts:118-143 | succeeds exactly when the post exists, returning it, and otherwise gives 400 "Not exist post." |
| `Posts.GetAfterCreate` | routes/post.ts:129-143 | reading the id a successful create handed out returns exactly the created post |
| `Posts.GetAfterUpdate` | routes/post.ts:129-143 | reading a post after the owner's update returns the updated post the update answered with |
| `Posts.GetAfterDelete` | routes/post.ts:129-143 | reading a post after the owner deleted it gives 400 "Not exist post." |
| `Posts.UpdateIdempotent` | routes/post.ts:200-209 | sending the owner's partial update a second time succeeds again with the same reply and leaves the store as the first one did |
| `Posts.UpdateStoresBlankTitle` | routes/post.ts:163-207 | the update validates only truthiness: a whitespace-only title that create rejects with "Not exist data." is stored as given by the owner's update |
| `Posts.Update` | routes/post.ts:154-210 | a NaN id gives "Post id is not number."; both fields falsy gives "Not exist data."; a vanished caller gives "Not exist user."; a missing or foreign post gives the same "Can not access."; every rejection leaves the store unchanged; the owner's update replaces only that post by the merge of its fields; nothing else changes |
| `Posts.Delete` | routes/post.ts:221-268 | a NaN id, a vanished caller, or a missing or foreign post is rejected with the store unchanged; the owner's delete removes exactly that post and returns it; nothing else changes |
| `Posts.CreateKeepsInv` | routes/post.ts:53-59 | post creation keeps the store well formed |
| `Posts.UpdateKeepsInv` | routes/post.ts:200-208 | post update keeps the store well formed |
| `Posts.DeleteKeepsInv` | routes/post.ts:259-263 | post deletion keeps the store well formed |
| `Comments.Create` | routes/comment.ts:22-55 | missing or blank content, or a missing post id, gives 400 "Not exist data."; a vanished caller gives "Not exist user."; both leave the store unchanged; on success exactly one comment is added under the next id with the caller's user id, the given post id and content; nothing else changes |
| `Comments.CreateAddsOne` | routes/comment.ts:47-53 | on a well-formed store the created comment's id is fresh, so the comment table grows by exactly one |
| `Comments.List` | routes/comment.ts:66-87 | a missing post id gives 400 "Not exist post id."; otherwise the result holds exactly the stored comments whose post id equals the query, with their stored contents |
| `Comments.Get` | routes/comment.ts:98-118 | always succeeds: the comment when it exists and `null` otherwise, with no not-found error |
| `Comments.GetAfterCreate` | routes/comment.ts:109-118 | reading the id a successful create handed out returns the created comment |
| `Comments.GetAfterDelete` | routes/comment.ts:109-118 | reading a comment after the owner deleted it answers `null` |
| `Comments.ListAfterCreate` | routes/comment.ts:77-87 | on a well-formed store, after a comment is created on a post, that post's listing is the old listing plus the new comment, and every other post's listing is unchanged |
| `Comments.ListAfterDelete` | routes/comment.ts:77-87 | after the owner deletes a comment, every post's listing is the old listing without it |
| `Comments.Update` | routes/comment.ts:129-184 | a NaN id gives "Comment id is not a number."; falsy content gives "Not exist content."; a vanished caller gives "Not exist user."; a missing or foreign comment gives "Can not access."; each rejection leaves the store unchanged; the owner's update replaces only that comment's content and keeps its owner and post id; nothing else changes |
| `Comments.Delete` | routes/comment.ts:195-242 | a NaN id, a vanished caller, or a missing or foreign comment is rejected with the store unchanged; the owner's delete removes exactly that comment and returns it; nothing else changes |
| `Comments.CreateKeepsInv` | routes/comment.ts:47-53 | comment creation keeps the store well formed |
| `Comments.UpdateKeepsInv` | routes/comment.ts:175-182 | comment update keeps the store well formed |
| `Comments.DeleteKeepsInv` | routes/comment.ts:233-237 | comment deletion keeps the store well formed |
| `Store.MayMutateIsGuard` | routes/post.ts:193 | the ownership guard `!exist \|\| exist.userId !== user.id` (also at routes/post.ts:252 and routes/comment.ts:168, 226) refuses a request exactly when the row is missing or owned by another user |
| `Server.Guarded` | routes/auth.ts:64-91 | when the middleware halts, its reply is the request's reply and the protected handler never runs |
| `Server.Step` | routes/post.ts:23-279 | the mount of every route of the four routers (routes/user.ts:12, 63; routes/auth.ts:15; routes/post.ts:23, 72, 103, 118, 154, 221; routes/comment.ts:22, 66, 98, 129, 195), with `verifyToken` before the protected ones; a request that is not answered `ok: true` leaves the store unchanged, and login, `/me`, and the list, count and get routes never write |
| `Server.StepPreservesInv` | routes/post.ts:23-279 | every request of every route mounted by `Server.Step` keeps the store well formed |
| `Server.UsersOnlyGrow` | routes/user.ts:28-48 | no request removes or alters an existing account, so an account name keeps denoting one user |
| `Server.OnlyOwnerChangesPost` | routes/post.ts:187-198 | on a well-formed store, a request that changes or removes an existing post is an update or delete of that id whose token names the post's owner |
| `Server.OnlyOwnerChangesComment` | routes/comment.ts:162-173 | on a well-formed store, a request that changes or removes an existing comment is an update or delete of that id whose token names the comment's owner |
| `Server.UnauthenticatedNeverSucceeds` | routes/auth.ts:68-90 | a protected request the middleware halts never succeeds and changes nothing |
| `Server.RegisterThenLogin` | routes/auth.ts:39-48 | under `Sound`, registering valid credentials on a free account and then logging in with them succeeds, and both tokens verify to the account |
| `Scenario.AliceRegisters` | routes/user.ts:41-52 | the first registration on an empty store creates user 1 and returns its token |
| `Scenario.AliceMistypes` | routes/auth.ts:39-46 | logging in with a password that does not match the stored digest gives "Incorrect password." |
| `Scenario.AliceLogsIn` | routes/auth.ts:39-48 | logging in with the registered password returns a fresh token for the account |
| `Scenario.AlicePosts` | routes/post.ts:40-61 | a request carrying alice's token creates post 1 owned by user 1 |
| `Scenario.BobRegisters` | routes/user.ts:28-52 | a second, distinct account becomes user 2 without disturbing alice or her post |
| `Scenario.BobCannotDelete` | routes/post.ts:252-257 | bob's delete of alice's post gives "Can not access." and changes nothing |
| `Scenario.AliceDeletes` | routes/post.ts:259-268 | alice's delete of her post removes it and returns it |
| `Scenario.AliceAndBob` | routes/post.ts:221-268 | under `Sound`, the whole session holds: register, wrong and right login, create, second register, refused foreign delete, owner delete; each step starts from the previous store and uses tokens earlier steps returned |

## Left out

- The Prisma client is not modelled. Each query is a map lookup or update; ids come from counters in the store that start at 1.
- Foreign-key checks on a comment's post id and the cascade on post deletion belong to the database schema, which is not part of this model.
- Posts.Delete: "nothing else changes" holds only because the cascade is not modelled. After the owner deletes a post, its comments stay in the comment table with a post id that names no post, a state the schema never allows. In the code, `client.post.delete` (routes/post.ts:259-263) either removes those comments too, other users' included, or fails with a 500.
- Server.OnlyOwnerChangesComment: for the same reason it does not cover comments removed by the cascade when their post is deleted. With the schema's cascade, a post owner's delete would also remove other users' comments on that post.
- The catch-all 500 replies caused by database exceptions are left out, and so is all console logging.
- bcrypt and JWT internals are left out: salting, work factor, signature algorithm and the secret from `process.env`. Only the facts in `Crypto.Sound` are assumed.
- Token expiry does not exist in the code. A JWT payload without an `account` field is not modelled; `verify` returns the account or fails.
- Express transport details are left out: status-code mechanics, the JSON shapes beyond the tagged reply, and the `select` projections (`createdAt`, `updatedAt`, the joined `user.account`).
- Concurrency is left out, including the check-then-insert race in register. Handlers run one at a time, so each is atomic.
- JavaScript numeric coercion is left out. Route ids are `Option<int>`, with `None` for a NaN `+id`. The page is `Option<nat>` and a comment's post id is `Option<int>`, with `None` for a missing or falsy value. Negative, fractional and NaN pages are not modelled.
- Body fields are strings or absent. A non-string JSON value, which would make `trim` throw and give a 500, is not modelled.
- `GET /post/:id` and `GET /comment/:id` take an integer id. The `typeof +id !== "number"` test at routes/post.ts:122 can never fire, so it is not modelled. A NaN id would make the database query throw, and that path is not modelled either.
- The `!id` test at routes/comment.ts:102-107 cannot fire for an Express route parameter, which is never empty, so it is not modelled.
- `Comments.List` returns the matching comments as a map keyed by id. `findMany` without `orderBy` leaves the order to the database, so the order is not modelled.
- Posts.Count: its own contract only fixes the shape of the reply. The count's meaning is stated by `Posts.CountIsListingLength` and `Posts.CountTracksMutations`.
