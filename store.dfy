/** The backend's state: the user and post collections, the log of messages
    broadcast on the `posts` channel, and the id counter standing in for
    ObjectId generation. Every handler that changes something is a method here;
    the read-only handlers are the functions `Feed.GetPosts`, `Feed.GetPost`,
    `Auth.Login` and `Auth.GetStatus` over these fields. One request runs at a
    time. */
module Store {
  import opened Common
  import opened UserModel
  import opened Feed
  import AuthRoutes
  import Auth

  const SignupFailedMessage := "Validation failed"
  /** Mongoose's message when a required path is empty. */
  const UserValidationMessage := "User validation failed"
  /** The TypeError thrown by `user.posts` when the acting user is missing. */
  const NullUserMessage := "Cannot read properties of null (reading 'posts')"

  /** The body of a successful createPost: the post and `{_id, name}` of its creator. */
  datatype CreatedPost = CreatedPost(id: PostId, post: Post, creator: CreatorRef)

  /** The body of a successful updatePost: the saved post, creator populated. */
  datatype UpdatedPost = UpdatedPost(id: PostId, post: Post, creator: User)

  class Store {
    var users: map<UserId, User>
    var posts: map<PostId, Post>
    /** What `io.getIO().emit('posts', ...)` has sent, oldest first. */
    var events: seq<Event>
    /** Every id handed out so far is below this. */
    var nextId: nat

    ghost predicate Valid()
      reads this
    {
      && (forall id :: id in users ==> id < nextId)
      && (forall id :: id in posts ==> id < nextId)
      && Consistent(posts, users)
    }

    constructor ()
      ensures Valid()
      ensures users == map[] && posts == map[] && events == [] && nextId == 0
    {
      users, posts, events, nextId := map[], map[], [], 0;
    }

    /** PUT /auth/signup, controller part. `errors` is what the validator
        chain reported (`AuthRoutes.SignupErrors` on the body as sent) and the
        other arguments are the sanitized fields (`AuthRoutes.SanitizeSignup`).
        Validation errors give 422 with the list as `data`. Otherwise the
        password is hashed and a user with the default status and no posts is
        saved under a fresh id, unless Mongoose's required check fails (500).
        No event is sent. */
    method Signup(errors: seq<FieldError>, email: string, name: string, password: string,
                  hash: string -> string) returns (r: Result<UserId>)
      requires Valid()
      modifies this
      ensures Valid()
      ensures posts == old(posts) && events == old(events)
      ensures errors != [] ==> r == Err(AppError(Some(422), SignupFailedMessage, Some(errors)))
      ensures errors == [] && NewUser(email, hash(password), name, None).None? ==>
                r.Err? && r.error.statusCode == Some(500)
      ensures r.Err? ==> users == old(users) && nextId == old(nextId)
      ensures r.Ok? <==> errors == [] && email != "" && hash(password) != "" && name != ""
      ensures r.Ok? ==> nextId == old(nextId) + 1
      ensures r.Ok? ==>
                && r.status == 201 && r.value !in old(users)
                && users == old(users)[r.value := User(email, hash(password), name, DefaultStatus, [])]
    {
      if errors != [] {
        return Err(AppError(Some(422), SignupFailedMessage, Some(errors)));
      }
      var hashed := hash(password);
      var user := NewUser(email, hashed, name, None);
      if user.None? {
        return Fail(500, UserValidationMessage);
      }
      var id := nextId;
      AddUserKeepsConsistent(posts, users, id, user.value);
      users := users[id := user.value];
      nextId := nextId + 1;
      r := Ok(201, id);
    }

    /** PUT /auth/signup as routed: the validator chain sees the body as sent,
        the sanitizers rewrite it, and the controller runs on the result. An
        address some user already holds creates no user; a new user holds the
        normalized address, the hash of the trimmed password and the trimmed
        name. */
    method HandleSignup(body: AuthRoutes.SignupBody, isEmail: string -> bool,
                        normalize: string -> string, hash: string -> string) returns (r: Result<UserId>)
      requires Valid()
      modifies this
      ensures Valid()
      ensures posts == old(posts) && events == old(events)
      ensures AuthRoutes.EmailTaken(old(users), body.email) ==>
                r.Err? && r.error.statusCode == Some(422) && users == old(users)
      ensures AuthRoutes.SignupErrors(old(users), body, isEmail) != [] ==>
                r == Err(AppError(Some(422), SignupFailedMessage, Some(AuthRoutes.SignupErrors(old(users), body, isEmail))))
      ensures r.Err? ==> users == old(users) && nextId == old(nextId)
      ensures r.Ok? ==> nextId == old(nextId) + 1
      ensures r.Ok? <==>
                && AuthRoutes.SignupErrors(old(users), body, isEmail) == []
                && normalize(body.email) != "" && hash(AuthRoutes.Trim(body.password)) != ""
                && AuthRoutes.Trim(body.name) != ""
      ensures r.Ok? ==> r.status == 201 && r.value !in old(users)
      ensures r.Ok? ==>
                users == old(users)[r.value := User(normalize(body.email), hash(AuthRoutes.Trim(body.password)),
                                                    AuthRoutes.Trim(body.name), DefaultStatus, [])]
    {
      var errors := AuthRoutes.SignupErrors(users, body, isEmail);
      var clean := AuthRoutes.SanitizeSignup(body, normalize);
      if errors != [] {
        r := Signup(errors, clean.email, clean.name, clean.password, hash);
        return;
      }
      assert !AuthRoutes.EmailTaken(users, body.email);
      r := Signup(errors, clean.email, clean.name, clean.password, hash);
    }

    /** PUT /auth/status, controller part: 401 without a stored user; otherwise
        only that user's status changes and the new status is echoed. */
    method PutStatus(userId: UserId, status: string) returns (r: Result<string>)
      requires Valid()
      modifies this
      ensures Valid()
      ensures posts == old(posts) && events == old(events) && nextId == old(nextId)
      ensures r.Ok? <==> userId in old(users)
      ensures r.Err? ==> r.error.statusCode == Some(401) && users == old(users)
      ensures r.Ok? ==>
                r.status == 200 && r.value == status && users == old(users)[userId := old(users)[userId].(status := status)]
    {
      if userId !in users {
        return Fail(401, Auth.UnknownUserMessage);
      }
      SetStatusKeepsConsistent(posts, users, userId, status);
      users := users[userId := users[userId].(status := status)];
      r := Ok(200, status);
    }

    /** PUT /auth/status as routed: the sanitizer trims the status, and the
        controller never reads the validator's verdict, so a blank status is
        stored as "". */
    method HandlePutStatus(userId: UserId, status: string) returns (r: Result<string>)
      requires Valid()
      modifies this
      ensures Valid()
      ensures posts == old(posts) && events == old(events) && nextId == old(nextId)
      ensures r.Ok? <==> userId in old(users)
      ensures r.Err? ==> r.error.statusCode == Some(401) && users == old(users)
      ensures r.Ok? ==> r.status == 200 && r.value == AuthRoutes.Trim(status)
      ensures r.Ok? ==> users == old(users)[userId := old(users)[userId].(status := AuthRoutes.Trim(status))]
      ensures r.Ok? && AuthRoutes.StatusErrors(status) != [] ==> users[userId].status == ""
    {
      r := PutStatus(userId, AuthRoutes.Trim(status));
    }

    /** POST /feed/post. The checks of `CreateRejection` come first and leave
        everything as it was. Then the post is saved with the acting user as
        creator and the uploaded image's URL ("" if the upload failed), the
        acting user's list gets its id, and exactly one create event goes out.
        If the acting user does not exist the post stays saved, nothing else
        happens, and the answer is 500. */
    method CreatePost(userId: UserId, errors: seq<FieldError>, filePath: Option<string>, upload: Upload,
                      title: string, content: string, now: int) returns (r: Result<CreatedPost>)
      requires Valid()
      modifies this
      ensures userId in old(users) ==> Valid()
      ensures CreateRejection(errors, filePath).Some? ==>
                r == Err(CreateRejection(errors, filePath).value)
                && users == old(users) && posts == old(posts) && events == old(events) && nextId == old(nextId)
      ensures CreateRejection(errors, filePath).None? ==>
                var id := old(nextId);
                var post := Post(title, content, CreatedImageUrl(upload), userId, now);
                && id !in old(posts)
                && posts == old(posts)[id := post]
                && nextId == old(nextId) + 1
                && (userId in old(users) ==>
                      && r == Ok(201, CreatedPost(id, post, CreatorRef(userId, old(users)[userId].name)))
                      && users == old(users)[userId := old(users)[userId].(posts := old(users)[userId].posts + [id])]
                      && events == old(events) + [Create(id, post, CreatorRef(userId, old(users)[userId].name))])
                && (userId !in old(users) ==>
                      r.Err? && r.error.statusCode == Some(500) && users == old(users) && events == old(events))
    {
      var rejection := CreateRejection(errors, filePath);
      if rejection.Some? {
        return Err(rejection.value);
      }
      var imageUrl := if upload.Uploaded? then upload.url else "";
      var post := Post(title, content, imageUrl, userId, now);
      var id := nextId;
      if userId in users {
        AddPostKeepsConsistent(posts, users, id, post);
      }
      posts := posts[id := post];
      nextId := nextId + 1;
      if userId !in users {
        return Fail(500, NullUserMessage);
      }
      var user := users[userId];
      users := users[userId := user.(posts := user.posts + [id])];
      var creator := CreatorRef(userId, user.name);
      events := events + [Create(id, post, creator)];
      r := Ok(201, CreatedPost(id, post, creator));
    }

    /** PUT /feed/post/:postId. The checks of `UpdateRejection` come first, in
        their order, and leave everything as it was. On success only the
        post's title, content and image change, the users are untouched, and
        exactly one update event carries the saved post. */
    method UpdatePost(userId: UserId, postId: PostId, errors: seq<FieldError>, title: string, content: string,
                      bodyImage: string, filePath: Option<string>, upload: Upload) returns (r: Result<UpdatedPost>)
      requires Valid()
      modifies this
      ensures Valid()
      ensures users == old(users) && nextId == old(nextId)
      ensures UpdateRejection(old(posts), userId, postId, errors, bodyImage, filePath).Some? ==>
                r == Err(UpdateRejection(old(posts), userId, postId, errors, bodyImage, filePath).value)
                && posts == old(posts) && events == old(events)
      ensures UpdateRejection(old(posts), userId, postId, errors, bodyImage, filePath).None? ==>
                var post := old(posts)[postId].(title := title, content := content,
                                                imageUrl := UpdatedImageUrl(bodyImage, filePath, upload));
                && post.creator == old(posts)[postId].creator && post.createdAt == old(posts)[postId].createdAt
                && posts == old(posts)[postId := post]
                && r == Ok(200, UpdatedPost(postId, post, users[userId]))
                && events == old(events) + [Update(postId, post, users[userId])]
    {
      if errors != [] {
        return Fail(422, ValidationMessage);
      }
      var imagePath := bodyImage;
      if filePath.Some? {
        imagePath := filePath.value;
      }
      if imagePath == "" {
        return Fail(422, NoFileMessage);
      }
      if postId !in posts {
        return Fail(404, NotFoundMessage);
      }
      var post := posts[postId];
      if post.creator != userId {
        return Fail(403, ForeignEditMessage);
      }
      var creator := users[post.creator];
      if filePath.Some? && upload.Uploaded? {
        imagePath := upload.url;
      }
      post := post.(title := title, imageUrl := imagePath, content := content);
      EditPostKeepsConsistent(posts, users, postId, post);
      posts := posts[postId := post];
      events := events + [Update(postId, post, creator)];
      r := Ok(200, UpdatedPost(postId, post, creator));
    }

    /** DELETE /feed/post/:postId. The checks of `DeleteRejection` leave
        everything as it was. On success the post is gone, its id is pulled
        from the owner's list, and exactly one delete event names it. */
    method DeletePost(userId: UserId, postId: PostId) returns (r: Result<PostId>)
      requires Valid()
      modifies this
      ensures Valid()
      ensures nextId == old(nextId)
      ensures DeleteRejection(old(posts), userId, postId).Some? ==>
                r == Err(DeleteRejection(old(posts), userId, postId).value)
                && posts == old(posts) && users == old(users) && events == old(events)
      ensures DeleteRejection(old(posts), userId, postId).None? ==>
                && r == Ok(200, postId)
                && posts == old(posts) - {postId} && postId !in posts
                && users == old(users)[userId := old(users)[userId].(posts := Pull(old(users)[userId].posts, postId))]
                && postId !in users[userId].posts
                && events == old(events) + [Delete(postId)]
    {
      if postId !in posts {
        return Fail(404, NotFoundMessage);
      }
      if posts[postId].creator != userId {
        return Fail(403, ForeignDeleteMessage);
      }
      RemovePostKeepsConsistent(posts, users, postId);
      posts := posts - {postId};
      var user := users[userId];
      users := users[userId := user.(posts := Pull(user.posts, postId))];
      events := events + [Delete(postId)];
      r := Ok(200, postId);
    }
  }
}
