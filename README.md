# Social feed backend: a Dafny model

This project models the request handling core of a small social-feed backend
built on Express and Mongoose. It covers:

- the feed controller: paginated feed, single post, create, update and delete
  of posts, each with its change broadcast on the `posts` channel;
- the auth controller: signup, login, reading and setting the acting user's
  status;
- the auth router's validator and sanitizer chains;
- the User schema's required fields and defaults;
- the upload filter, the stored file name and the final error handler of the
  application.

The database is two maps, users and posts, keyed by natural-number ids drawn
from one counter, the way ObjectIds ascend. The broadcast channel is a log of
events. Handlers that change something are methods of the class
`Store.Store`, which owns those three fields and the id counter. Each of these
methods states its complete new state and keeps the invariant `Valid()`:

- every post's creator is a user whose `posts` list names the post;
- every listed id is a post created by that user;
- no list repeats an id.

The read-only handlers (`Feed.GetPosts`, `Feed.GetPost`, `Auth.Login`,
`Auth.GetStatus`) are functions of those maps. The check sequences of the
mutating handlers are functions too (`Feed.CreateRejection`,
`Feed.UpdateRejection`, `Feed.DeleteRejection`), and the methods are tied to
them.

The following outside services become parameters:

- validator.js `isEmail` and `normalizeEmail`;
- bcrypt's hash and compare;
- the image service's answer to an upload (`Upload`);
- the clock: post time stamps, and the ISO time string in stored file names;
- the validator chain's verdict for the feed routes (`errors`).

One module per source file: `App` (app.js), `UserModel` (models/user.js),
`AuthRoutes` (routes/auth.js), `Auth` and the signup and status methods of
`Store.Store` (controllers/auth.js), and `Feed` with the post methods of
`Store.Store` (controllers/feed.js). `Common` holds the shared error and
result types.

Behaviour of the code that the model keeps, though a reader might expect
otherwise:

- updatePost checks validation, then the image path (both 422), then
  existence (404), then ownership (403).
- The signup uniqueness check compares the address as sent. `normalizeEmail`
  runs after it. This order is an assumption: the model takes the chain to run
  its validators and sanitizers in the order written, as express-validator 6
  does; the package version is not part of this model, and earlier releases
  may have applied sanitizers before validators. So an address that normalizes
  onto a stored one is accepted and stored again (`AuthRoutes.NormalizedDuplicateAccepted`).
- The sanitizers rewrite the body. So signup stores the normalized address,
  the trimmed name and the hash of the trimmed password.
- putStatus never reads the validator's verdict. A blank status is trimmed to
  "" and stored (`Store.Store.HandlePutStatus`).
- A wrong password at login answers 401 with the message "Could not find post".
- The feed and the update event populate the creator with the whole user
  document, not only `{_id, name}`.
- A page below 1 gives a negative skip, which the database refuses, so the
  answer is 500. An empty page is a success: the feed's 404 branch cannot be
  taken.
- An upload that fails is only logged. A new post then gets the image URL "",
  and an updated post keeps the local file path.
- If the acting user of createPost does not exist, the post has already been
  saved when the handler fails with 500. The store then holds an orphan post,
  so `Valid()` is promised only when the user exists.

## Model

| member | source | states |
|---|---|---|
| App.FileFilter | app.js:30-36 | the filter never reports an error and keeps a file exactly when its MIME type is image/png, image/jpg or image/jpeg |
| App.StoredFileName | app.js:23-25 | the stored name is the time stamp, one dash, then the client's file name, with nothing lost or added |
| App.StoredNameRoundTrip | app.js:23-25 | with a 24-character ISO time stamp, splitting the stored name gives back the time stamp and the original name |
| App.SplitStoredNameInverse | app.js:23-25 | every name that splits is the stored name of its own parts |
| App.ReceivedFile | app.js:19-41 | `req.file` is set exactly for an accepted image part; its path is `images/` followed by the stored name |
| App.ErrorResponse | app.js:63-69 | message and data pass unchanged; the status is the error's code when it is set and non-zero, and 500 exactly when the code is unset, 0 or 500 |
| UserModel.NewUser | models/user.js:6-27 | a user saves exactly when email, password and name are all non-empty; the fields are kept, a missing status becomes "I am new!", and the post list starts empty |
| AuthRoutes.Trim | routes/auth.js:24-30 | the result is no longer than the input, is a prefix of the input with its leading white space removed, has no white space at either end, and is empty exactly when the input is all white space; what the end trim cuts off that prefix is all white space |
| AuthRoutes.TrimKeepsTrimmed | routes/auth.js:24-30 | a string with no white space at either end trims to itself |
| AuthRoutes.TrimIdempotent | routes/auth.js:24-30 | trimming twice is the same as trimming once |
| AuthRoutes.SignupErrors | routes/auth.js:10-33 | the signup chain reports nothing exactly when the address is an email, no user holds that exact address, the trimmed password has at least 5 characters and the trimmed name is non-empty |
| AuthRoutes.CheckErrors | routes/auth.js:13-30 | the list is empty exactly when all four checks pass, and each check's own message is in it exactly when that check fails; it holds one entry per failed check, in the order the checks are declared |
| AuthRoutes.SignupErrorsName | routes/auth.js:13-30 | each signup check leaves its own message exactly when it fails: a bad email, a taken address, a short password, a blank name; a passing check leaves none |
| AuthRoutes.SanitizeSignup | routes/auth.js:13-30 | the controller receives the normalized address and the trimmed password and name |
| AuthRoutes.SanitizeSignupStable | routes/auth.js:24-30 | trimming the sanitized password and name again changes nothing |
| AuthRoutes.NormalizedDuplicateAccepted | routes/auth.js:13-23 | in any store, a well-formed signup whose address as sent is not held but whose normalized address is held passes every check, and the address it would store is already taken |
| AuthRoutes.StatusErrors | routes/auth.js:41-51 | the status chain reports nothing exactly when the status is not all white space, and otherwise reports "Invalid value" for `status` |
| AuthRoutes.Chain | routes/auth.js:10-51 | every route ends in its controller; the authentication check guards exactly the two status routes and comes first; validation runs exactly for signup and status update |
| Auth.FindByEmail | controllers/auth.js:48 | there is no result exactly when no user holds the address; otherwise the result is a user holding it, and the earliest such user |
| Auth.Login | controllers/auth.js:43-83 | 404 exactly for an unknown address; 401 exactly when the password does not match the first user holding the address; otherwise 200 with that user's id and a token that embeds the address, the id and one hour; the 404 says "Could not find user" and the 401 "Could not find post" |
| Auth.GetStatus | controllers/auth.js:85-103 | success exactly when the acting user exists, with 200 and the stored status; otherwise 401 |
| Feed.FeedOrder | controllers/feed.js:24 | the feed order lists only posts that exist |
| Feed.FeedOrderLength | controllers/feed.js:22-24 | the feed order has exactly one entry per post |
| Feed.FeedOrderCovers | controllers/feed.js:24 | every post appears in the feed order |
| Feed.FeedOrderSorted | controllers/feed.js:24 | every post in the feed order is newer than each post after it: a later `createdAt`, or the same one and a larger id |
| Feed.FeedOrderRanks | controllers/feed.js:24 | the feed order is a ranking: every post exactly once, newest first |
| Feed.RankingIsUnique | controllers/feed.js:24 | two rankings of the same posts are equal, so the order does not depend on how it is computed |
| Feed.Window | controllers/feed.js:24 | `skip` then `limit(3)`: at most three ids, the ones at positions `skip`, `skip+1`, ... of the order |
| Feed.Populate | controllers/feed.js:24 | a feed item carries the post and its creator's user document, or nothing when the creator is not a user |
| Feed.PopulateAll | controllers/feed.js:24 | populating a list keeps its length and populates each entry |
| Feed.Page | controllers/feed.js:18-24 | a page holds min(3, posts left) items; item i is the populated post at rank skip + i |
| Feed.GetPosts | controllers/feed.js:8-44 | validation errors give 422, a page below 1 gives 500, otherwise 200 and never 404; a success counts all posts and shows the page of the feed order for `(page-1)*3`; a missing page is page 1, which skips nothing |
| Feed.RankOnPage | controllers/feed.js:18-24 | the post ranked k in the feed is item k mod 3 of page k/3 + 1 |
| Feed.GetPost | controllers/feed.js:112-133 | 200 with the stored post exactly when it exists, otherwise 404 "Could not find post" |
| Feed.CreateRejection | controllers/feed.js:47-58 | createPost proceeds exactly when there are no validation errors and an image file arrived; both refusals are 422, with validation reported first |
| Feed.CreatedImageUrl | controllers/feed.js:60-72 | a new post's image URL is the service's URL, or "" when the upload failed |
| Feed.ImageCandidate | controllers/feed.js:148-152 | a new file's path takes precedence over the `image` field of the body |
| Feed.UpdatedImageUrl | controllers/feed.js:148-192 | an updated post's image is the service's URL for a new file, the local path when that upload failed, and the body's path without a new file |
| Feed.UpdateRejection | controllers/feed.js:141-176 | updatePost proceeds exactly when there are no validation errors, an image path exists, the post exists and the acting user created it; each refusal (422, 404, 403) names the check that failed |
| Feed.UpdateInputChecksFirst | controllers/feed.js:141-159 | a request that fails the input checks gets the same 422 whatever the store holds and whoever sends it |
| Feed.OnlyCreatorUpdates | controllers/feed.js:171-176 | for a well-formed update of an existing post, only its creator gets through; anyone else gets 403 |
| Feed.DeleteRejection | controllers/feed.js:218-229 | deletePost proceeds exactly when the post exists and the acting user created it; 404 exactly for a missing post, 403 for another user's |
| Feed.Pull | controllers/feed.js:234 | pulling an id removes every occurrence of it, keeps every other entry, leaves a list without it unchanged, and keeps a list repetition-free |
| Feed.OwnedPostsAreCreated | controllers/feed.js:88-94 | in a consistent store, a user's list names exactly the posts that user created |
| Feed.AddPostKeepsConsistent | controllers/feed.js:88-94 | saving a new post and appending its id to the creator's list keeps the store consistent |
| Feed.EditPostKeepsConsistent | controllers/feed.js:190-196 | replacing a post's fields, creator unchanged, keeps the store consistent |
| Feed.RemovePostKeepsConsistent | controllers/feed.js:232-235 | removing a post and pulling its id from the creator's list keeps the store consistent |
| Feed.AddUserKeepsConsistent | controllers/auth.js:23-31 | adding a user with a fresh id and no posts keeps the store consistent |
| Feed.SetStatusKeepsConsistent | controllers/auth.js:117-118 | changing a user's status keeps the store consistent |
| Store.Store.Signup | controllers/auth.js:6-41 | validation errors give 422 with the error list as data and change nothing; otherwise 201 and a fresh id exactly when email, hashed password and name are non-empty, storing a user with those fields, the default status and no posts; posts and events are untouched; the id counter advances by one exactly when an id is drawn |
| Store.Store.PutStatus | controllers/auth.js:105-129 | 401 and no change without the acting user; otherwise only that user's status changes, and the new status is echoed with 200 |
| Store.Store.HandleSignup | routes/auth.js:10-33 | the route's chains feed the controller: any failed check gives 422 with the chain's list as data, in particular for an address already held as sent; every refusal changes nothing; the signup succeeds exactly when every check passes and the sanitized address, the hash and the trimmed name are non-empty, and then answers 201 with an id not in use and stores, under the new id, the normalized address, the hash of the trimmed password, the trimmed name, the default status and no posts; the id counter advances by one exactly when an id is drawn |
| Store.Store.HandlePutStatus | routes/auth.js:41-51 | the status is stored trimmed; without the acting user 401 and no change; otherwise 200 echoing the trimmed status, and a blank one is stored as "" although the validator flags it; no id is drawn |
| Store.Store.CreatePost | controllers/feed.js:46-110 | a refusal from `CreateRejection` changes nothing; otherwise the post is saved under a fresh id with the acting user as creator, and, when that user exists, the id is appended to their list, exactly one create event with `{id, name}` is sent, 201 is returned and the invariant holds; the id counter advances by one exactly when an id is drawn |
| Store.Store.UpdatePost | controllers/feed.js:135-212 | a refusal from `UpdateRejection` changes nothing; otherwise only title, content and image change, users are untouched, and exactly one update event carries the saved post and its populated creator |
| Store.Store.DeletePost | controllers/feed.js:214-248 | a refusal from `DeleteRejection` changes nothing; otherwise the post is removed, its id is pulled from the owner's list, and exactly one delete event names it |

## Left out

- Token verification (the `isAuth` middleware) is not part of this model. The acting user's id is a parameter of every protected handler.
- JWT signing: a token is the record of what it embeds (address, user id, lifetime). The secret and the signature are not modelled.
- bcrypt's hash and compare are oracles passed in; salt rounds and timing are not modelled.
- validator.js `isEmail` and `normalizeEmail` are oracles. A string is a sequence of Unicode code points, and `isLength` counts code points, as validator.js does. Lone surrogates cannot occur in the model's strings, and any special counting of the variation selectors U+FE0E and U+FE0F by some validator.js releases is not modelled.
- The validator output's `value` and `location` fields are dropped; an error keeps only `param` and `msg`.
- The feed routes' validator chains (routes/feed.js) are not part of this model. Their verdict is the `errors` parameter.
- The Post schema (models/post.js) is not part of this model. Its required checks are taken to accept every post the controller builds.
- The image service, multer's disk storage and the static file server are not modelled. An upload's outcome is the `Upload` parameter, and the time string of a file name is a parameter.
- Socket delivery to connected clients is not modelled. The channel is the log of events sent.
- CORS headers, helmet, compression, body parsing, the database connection and server start-up do not decide anything the model states.
- Failures of the database itself (a `save`, `findById`, `findOne` or `countDocuments` that rejects) are not modelled. The model takes every such call to succeed, so the 500 that each handler's `catch` would send in that case is not part of any result.
- Concurrent requests are not modelled. Each handler runs to completion before the next.
- Errors thrown before a handler's `try` in an async handler are modelled as their 422 response. How Express itself deals with a rejected handler promise is not modelled.
- Malformed ObjectIds (the database's cast error, 500) and non-numeric `page` values are not modelled. Ids are natural numbers and a page is an integer.
- Success messages ("Posts found", "Post created sucessfully", ...) are not part of any result.
- Feed.FeedOrder: posts with equal `createdAt` are ordered by the later id first. The database leaves such ties unspecified.
- Auth.FindByEmail: `findOne` is taken to return the earliest-created matching user. The database does not promise an order.
- Store.Store.UpdatePost: the TypeError for a post whose creator does not resolve to a user is not modelled, because `Valid()` rules that store out.
- Store.Store.CreatePost: `Valid()` is not promised after the 500 for a missing acting user, because the saved post then has no owner.
