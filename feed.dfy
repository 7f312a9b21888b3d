/** The feed controller's decisions over the post and user collections: the
    feed order and its pages, the checks each mutating handler makes and their
    order, and the consistency between posts and their creators' post lists
    that the mutating handlers of `Store.Store` keep. */
module Feed {
  import opened Common
  import opened UserModel

  const PerPage := 3

  /** A post document. `createdAt` is the creation time stamp the feed is
      sorted by; `creator` refers to a user. */
  datatype Post = Post(title: string, content: string, imageUrl: string, creator: UserId, createdAt: int)

  /** The creator as the create event and response carry it: `{_id, name}`. */
  datatype CreatorRef = CreatorRef(id: UserId, name: string)

  /** A post of a feed page with `creator` populated: the whole user document,
      or nothing when the reference does not resolve. */
  datatype FeedItem = FeedItem(id: PostId, post: Post, creator: Option<User>)

  /** The body of GET /feed/posts. */
  datatype FeedPage = FeedPage(posts: seq<FeedItem>, totalItems: nat)

  /** A message broadcast on the `posts` channel. The update event carries the
      saved post with its creator populated. */
  datatype Event =
    | Create(id: PostId, post: Post, creator: CreatorRef)
    | Update(id: PostId, post: Post, populatedCreator: User)
    | Delete(id: PostId)

  /** What the image service answers to an upload. */
  datatype Upload = Uploaded(url: string) | UploadFailed

  const ValidationMessage := "Validation failed, entered data is incorrect."
  const NoImageMessage := "No image provided."
  const NoFileMessage := "No file picked."
  const NotFoundMessage := "Could not find post"
  const ForeignEditMessage := "You cannot edit posts by another user!"
  const ForeignDeleteMessage := "You cannot delete posts by another user!"
  /** The database refuses a negative `skip`; the handler passes its error on as 500. */
  const NegativeSkipMessage := "skip value must be non-negative"

  // ---------------------------------------------------------------------------
  // Feed order and pages

  /** `a` comes before `b` in the feed: later `createdAt` first, and of two
      posts stamped alike the later-created id first. */
  predicate Newer(posts: map<PostId, Post>, a: PostId, b: PostId)
  {
    a in posts && b in posts &&
    (posts[a].createdAt > posts[b].createdAt || (posts[a].createdAt == posts[b].createdAt && a > b))
  }

  /** The newest of a non-empty set of posts. */
  lemma {:induction false} NewestOf(posts: map<PostId, Post>, keys: set<PostId>) returns (k: PostId)
    requires keys != {} && keys <= posts.Keys
    ensures k in keys && forall j :: j in keys && j != k ==> Newer(posts, k, j)
    decreases |keys|
  {
    var x :| x in keys;
    var rest := keys - {x};
    if rest == {} {
      assert keys == {x};
      k := x;
    } else {
      var y := NewestOf(posts, rest);
      k := if Newer(posts, x, y) then x else y;
      forall j | j in keys && j != k ensures Newer(posts, k, j) {
        if j != x && j != y { assert j in rest; }
      }
    }
  }

  lemma NewestExists(posts: map<PostId, Post>, keys: set<PostId>)
    requires keys != {} && keys <= posts.Keys
    ensures exists k :: k in keys && forall j :: j in keys && j != k ==> Newer(posts, k, j)
  {
    var k := NewestOf(posts, keys);
  }

  /** The post of `keys` that the feed shows first. */
  function Newest(posts: map<PostId, Post>, keys: set<PostId>): (k: PostId)
    requires keys != {} && keys <= posts.Keys
    ensures k in keys && forall j :: j in keys && j != k ==> Newer(posts, k, j)
  {
    NewestExists(posts, keys);
    var k :| k in keys && forall j :: j in keys && j != k ==> Newer(posts, k, j);
    k
  }

  /** `s` lists every post of `keys` exactly once, newest first. */
  ghost predicate Ranked(posts: map<PostId, Post>, keys: set<PostId>, s: seq<PostId>)
  {
    && (forall i :: 0 <= i < |s| ==> s[i] in keys)
    && (forall k :: k in keys ==> k in s)
    && (forall i, j :: 0 <= i < j < |s| ==> Newer(posts, s[i], s[j]))
  }

  /** `Post.find().sort({createdAt: -1})`: the posts of `keys`, newest first. */
  function FeedOrder(posts: map<PostId, Post>, keys: set<PostId>): (r: seq<PostId>)
    requires keys <= posts.Keys
    ensures forall i :: 0 <= i < |r| ==> r[i] in keys
    decreases |keys|
  {
    if keys == {} then []
    else
      var k := Newest(posts, keys);
      [k] + FeedOrder(posts, keys - {k})
  }

  /** The feed order has one entry per post. */
  lemma {:induction false} FeedOrderLength(posts: map<PostId, Post>, keys: set<PostId>)
    requires keys <= posts.Keys
    ensures |FeedOrder(posts, keys)| == |keys|
    decreases |keys|
  {
    if keys != {} {
      var k := Newest(posts, keys);
      FeedOrderLength(posts, keys - {k});
    }
  }

  /** The feed order leaves no post out. */
  lemma {:induction false} FeedOrderCovers(posts: map<PostId, Post>, keys: set<PostId>)
    requires keys <= posts.Keys
    ensures forall k :: k in keys ==> k in FeedOrder(posts, keys)
    decreases |keys|
  {
    if keys != {} {
      var r := FeedOrder(posts, keys);
      var k := r[0];
      assert r[1..] == FeedOrder(posts, keys - {k});
      FeedOrderCovers(posts, keys - {k});
      forall j | j in keys ensures j in r {
        if j != k { assert j in r[1..]; }
      }
    }
  }

  /** The feed order puts newer posts first. */
  lemma {:induction false} FeedOrderSorted(posts: map<PostId, Post>, keys: set<PostId>)
    requires keys <= posts.Keys
    ensures forall i, j :: 0 <= i < j < |FeedOrder(posts, keys)| ==>
              Newer(posts, FeedOrder(posts, keys)[i], FeedOrder(posts, keys)[j])
    decreases |keys|
  {
    if keys != {} {
      var r := FeedOrder(posts, keys);
      var k := Newest(posts, keys);
      var rest := FeedOrder(posts, keys - {k});
      assert r[1..] == rest;
      FeedOrderSorted(posts, keys - {k});
      forall i, j | 0 <= i < j < |r| ensures Newer(posts, r[i], r[j]) {
        if i == 0 {
          assert r[0] == k;
          assert r[j] == rest[j - 1] && rest[j - 1] in keys - {k};
        } else {
          assert r[i] == rest[i - 1] && r[j] == rest[j - 1];
          assert Newer(posts, rest[i - 1], rest[j - 1]);
        }
      }
    }
  }

  /** The feed order is a ranking: every post once, newest first. */
  lemma FeedOrderRanks(posts: map<PostId, Post>, keys: set<PostId>)
    requires keys <= posts.Keys
    ensures Ranked(posts, keys, FeedOrder(posts, keys))
  {
    FeedOrderCovers(posts, keys);
    FeedOrderSorted(posts, keys);
  }

  /** There is one ranking only, so the feed order does not depend on how it
      is computed. */
  lemma {:induction false} RankingIsUnique(posts: map<PostId, Post>, keys: set<PostId>, s: seq<PostId>, t: seq<PostId>)
    requires Ranked(posts, keys, s) && Ranked(posts, keys, t)
    ensures s == t
    decreases |s|
  {
    if s == [] {
      assert keys == {};
      assert t == [];
    } else {
      assert s[0] in t;
      HeadIsNewest(posts, keys, s);
      HeadIsNewest(posts, keys, t);
      assert s[0] == t[0];
      RankedTail(posts, keys, s);
      RankedTail(posts, keys, t);
      RankingIsUnique(posts, keys - {s[0]}, s[1..], t[1..]);
      assert s == [s[0]] + s[1..] && t == [t[0]] + t[1..];
    }
  }

  /** The head of a ranking is newer than every other post it ranks. */
  lemma HeadIsNewest(posts: map<PostId, Post>, keys: set<PostId>, s: seq<PostId>)
    requires Ranked(posts, keys, s) && s != []
    ensures s[0] in keys && forall k :: k in keys && k != s[0] ==> Newer(posts, s[0], k)
  {
    forall k | k in keys && k != s[0] ensures Newer(posts, s[0], k) {
      var i :| 0 <= i < |s| && s[i] == k;
    }
  }

  /** Dropping the newest post of a ranking ranks the others. */
  lemma RankedTail(posts: map<PostId, Post>, keys: set<PostId>, s: seq<PostId>)
    requires Ranked(posts, keys, s) && s != []
    ensures Ranked(posts, keys - {s[0]}, s[1..])
  {
    forall k | k in keys - {s[0]} ensures k in s[1..] {
      var i :| 0 <= i < |s| && s[i] == k;
      assert s[1..][i - 1] == k;
    }
    forall i | 0 <= i < |s[1..]| ensures s[1..][i] in keys - {s[0]} {
      assert Newer(posts, s[0], s[i + 1]);
    }
  }

  /** `req.query.page || 1`: a missing page is page 1. */
  function CurrentPage(page: Option<int>): int
  {
    if page.Some? then page.value else 1
  }

  /** How many ranked posts the page skips: `(currentPage - 1) * perPage`. */
  function Skip(page: Option<int>): int
  {
    (CurrentPage(page) - 1) * PerPage
  }

  /** `.skip(skip).limit(PerPage)` on a ranked list. */
  function Window(s: seq<PostId>, skip: nat): (w: seq<PostId>)
    ensures |w| == if skip >= |s| then 0 else Min(PerPage, |s| - skip)
    ensures forall i :: 0 <= i < |w| ==> w[i] == s[skip + i]
  {
    if skip >= |s| then [] else s[skip..Min(skip + PerPage, |s|)]
  }

  /** `populate('creator')` on one post. */
  function Populate(posts: map<PostId, Post>, users: map<UserId, User>, id: PostId): (item: FeedItem)
    requires id in posts
    ensures item.id == id && item.post == posts[id]
    ensures item.creator.Some? <==> posts[id].creator in users
    ensures item.creator.Some? ==> item.creator.value == users[posts[id].creator]
  {
    var p := posts[id];
    FeedItem(id, p, if p.creator in users then Some(users[p.creator]) else None)
  }

  /** `populate('creator')` on a list of posts. */
  function PopulateAll(posts: map<PostId, Post>, users: map<UserId, User>, ids: seq<PostId>): (items: seq<FeedItem>)
    requires forall i :: 0 <= i < |ids| ==> ids[i] in posts
    ensures |items| == |ids|
    ensures forall i :: 0 <= i < |ids| ==> items[i] == Populate(posts, users, ids[i])
  {
    seq(|ids|, i requires 0 <= i < |ids| => Populate(posts, users, ids[i]))
  }

  /** The posts the page shows, creators populated: `.skip(skip).limit(PerPage)`
      on a ranked list, then `populate('creator')`. */
  function Page(posts: map<PostId, Post>, users: map<UserId, User>, order: seq<PostId>, skip: nat): (items: seq<FeedItem>)
    requires forall i :: 0 <= i < |order| ==> order[i] in posts
    ensures |items| == if skip >= |order| then 0 else Min(PerPage, |order| - skip)
    ensures forall i :: 0 <= i < |items| ==>
              skip + i < |order| && items[i] == Populate(posts, users, order[skip + i])
  {
    PopulateAll(posts, users, Window(order, skip))
  }

  /** GET /feed/posts. Validation errors give 422; a page below 1 makes the
      database refuse the negative skip (500); otherwise the page's at most
      three posts of the feed order with their creators, and the number of all
      posts. An empty page is a success: the query never yields null, so the
      404 branch cannot be taken. */
  function GetPosts(posts: map<PostId, Post>, users: map<UserId, User>, errors: seq<FieldError>, page: Option<int>): (r: Result<FeedPage>)
    ensures errors != [] ==> r == Err(AppError(Some(422), ValidationMessage, None))
    ensures errors == [] && CurrentPage(page) < 1 ==> r.Err? && r.error.statusCode == Some(500)
    ensures errors == [] && CurrentPage(page) >= 1 ==> r.Ok? && r.status == 200
    ensures r.Err? ==> r.error.statusCode != Some(404)
    ensures r.Ok? ==> Skip(page) >= 0 && r.value.totalItems == |posts|
    ensures r.Ok? ==> r.value.posts == Page(posts, users, FeedOrder(posts, posts.Keys), Skip(page))
    ensures errors == [] && page.None? ==>
              r.Ok? && r.value.posts == Page(posts, users, FeedOrder(posts, posts.Keys), 0)
  {
    if errors != [] then Fail(422, ValidationMessage)
    else if Skip(page) < 0 then Fail(500, NegativeSkipMessage)
    else Ok(200, FeedPage(Page(posts, users, FeedOrder(posts, posts.Keys), Skip(page)), |posts|))
  }

  /** The post ranked `k` in the feed is item `k % 3` of page `k / 3 + 1`. */
  lemma RankOnPage(posts: map<PostId, Post>, users: map<UserId, User>, k: nat)
    requires k < |posts|
    ensures var r := GetPosts(posts, users, [], Some(k / PerPage + 1));
            && r.Ok? && k % PerPage < |r.value.posts| && k < |FeedOrder(posts, posts.Keys)|
            && r.value.posts[k % PerPage].id == FeedOrder(posts, posts.Keys)[k]
  {
    FeedOrderLength(posts, posts.Keys);
    var order := FeedOrder(posts, posts.Keys);
    assert |order| == |posts| by { assert |posts.Keys| == |posts|; }
    assert Skip(Some(k / PerPage + 1)) + k % PerPage == k;
  }

  /** GET /feed/post/:postId. */
  function GetPost(posts: map<PostId, Post>, postId: PostId): (r: Result<Post>)
    ensures r.Ok? <==> postId in posts
    ensures r.Ok? ==> r.status == 200 && r.value == posts[postId]
    ensures r.Err? ==> r.error == AppError(Some(404), NotFoundMessage, None)
  {
    if postId !in posts then Fail(404, NotFoundMessage) else Ok(200, posts[postId])
  }

  // ---------------------------------------------------------------------------
  // The checks of the mutating handlers, in the order the handlers make them

  /** createPost's checks: validation errors, then a missing (or filtered-out)
      image; both are 422 and come before any store access. */
  function CreateRejection(errors: seq<FieldError>, filePath: Option<string>): (e: Option<AppError>)
    ensures e.None? <==> errors == [] && filePath.Some?
    ensures e.Some? ==> e.value.statusCode == Some(422) && e.value.data == None
    ensures errors != [] ==> e.value.message == ValidationMessage
  {
    if errors != [] then Some(AppError(Some(422), ValidationMessage, None))
    else if filePath.None? then Some(AppError(Some(422), NoImageMessage, None))
    else None
  }

  /** The image URL a new post gets: the service's URL, or "" when the upload
      failed (the failure is only logged). */
  function CreatedImageUrl(upload: Upload): (url: string)
    ensures upload.Uploaded? ==> url == upload.url
    ensures upload.UploadFailed? ==> url == ""
  {
    if upload.Uploaded? then upload.url else ""
  }

  /** The image path updatePost starts from: a new file's path wins over the
      `image` field of the body ("" when absent). */
  function ImageCandidate(bodyImage: string, filePath: Option<string>): (path: string)
    ensures filePath.Some? ==> path == filePath.value
    ensures filePath.None? ==> path == bodyImage
  {
    if filePath.Some? then filePath.value else bodyImage
  }

  /** The image URL an updated post gets: with a new file, the service's URL,
      or the local file path when the upload failed; without one, the path
      from the body. */
  function UpdatedImageUrl(bodyImage: string, filePath: Option<string>, upload: Upload): (url: string)
    ensures filePath.Some? && upload.Uploaded? ==> url == upload.url
    ensures filePath.Some? && upload.UploadFailed? ==> url == filePath.value
    ensures filePath.None? ==> url == bodyImage
  {
    var path := ImageCandidate(bodyImage, filePath);
    if filePath.Some? && upload.Uploaded? then upload.url else path
  }

  /** updatePost's checks, first failure wins: validation errors (422), no
      image path (422), no such post (404), a post of another user (403). */
  function UpdateRejection(posts: map<PostId, Post>, userId: UserId, postId: PostId,
                           errors: seq<FieldError>, bodyImage: string, filePath: Option<string>): (e: Option<AppError>)
    ensures e.None? <==>
      errors == [] && ImageCandidate(bodyImage, filePath) != ""
      && postId in posts && posts[postId].creator == userId
    ensures e.Some? ==> e.value.statusCode in {Some(422), Some(404), Some(403)} && e.value.data == None
    ensures e.Some? && e.value.statusCode == Some(404) ==> postId !in posts
    ensures e.Some? && e.value.statusCode == Some(403) ==> postId in posts && posts[postId].creator != userId
    ensures e.Some? && e.value.statusCode == Some(422) ==> errors != [] || ImageCandidate(bodyImage, filePath) == ""
  {
    if errors != [] then Some(AppError(Some(422), ValidationMessage, None))
    else if ImageCandidate(bodyImage, filePath) == "" then Some(AppError(Some(422), NoFileMessage, None))
    else if postId !in posts then Some(AppError(Some(404), NotFoundMessage, None))
    else if posts[postId].creator != userId then Some(AppError(Some(403), ForeignEditMessage, None))
    else None
  }

  /** The input checks come first: a request that fails them gets the same 422
      whatever the store holds and whoever sends it. */
  lemma {:induction false} UpdateInputChecksFirst(posts1: map<PostId, Post>, posts2: map<PostId, Post>,
                                                  user1: UserId, user2: UserId, postId: PostId,
                                                  errors: seq<FieldError>, bodyImage: string, filePath: Option<string>)
    requires errors != [] || ImageCandidate(bodyImage, filePath) == ""
    ensures UpdateRejection(posts1, user1, postId, errors, bodyImage, filePath)
         == UpdateRejection(posts2, user2, postId, errors, bodyImage, filePath)
    ensures UpdateRejection(posts1, user1, postId, errors, bodyImage, filePath).value.statusCode == Some(422)
  {
  }

  /** Ownership decides a well-formed update of an existing post: its creator
      gets through, everyone else gets 403. */
  lemma OnlyCreatorUpdates(posts: map<PostId, Post>, userId: UserId, postId: PostId,
                           bodyImage: string, filePath: Option<string>)
    requires postId in posts && ImageCandidate(bodyImage, filePath) != ""
    ensures UpdateRejection(posts, userId, postId, [], bodyImage, filePath).None? <==> posts[postId].creator == userId
    ensures posts[postId].creator != userId ==>
      UpdateRejection(posts, userId, postId, [], bodyImage, filePath).value.statusCode == Some(403)
  {
  }

  /** deletePost's checks: no such post (404), then a post of another user (403). */
  function DeleteRejection(posts: map<PostId, Post>, userId: UserId, postId: PostId): (e: Option<AppError>)
    ensures e.None? <==> postId in posts && posts[postId].creator == userId
    ensures e.Some? ==> e.value.data == None
    ensures e.Some? ==> (e.value.statusCode == Some(404) <==> postId !in posts)
    ensures e.Some? ==> (e.value.statusCode == Some(403) <==> postId in posts)
  {
    if postId !in posts then Some(AppError(Some(404), NotFoundMessage, None))
    else if posts[postId].creator != userId then Some(AppError(Some(403), ForeignDeleteMessage, None))
    else None
  }

  // ---------------------------------------------------------------------------
  // Posts and their creators' post lists

  ghost predicate Distinct(s: seq<PostId>)
  {
    forall i, j :: 0 <= i < j < |s| ==> s[i] != s[j]
  }

  /** Mongoose's `pull`: every occurrence of `x` removed, every other entry kept. */
  function Pull(s: seq<PostId>, x: PostId): (r: seq<PostId>)
    ensures forall y :: y in r <==> y in s && y != x
    ensures x !in s ==> r == s
    ensures Distinct(s) ==> Distinct(r)
  {
    if s == [] then []
    else
      var rest := Pull(s[1..], x);
      assert forall y :: y in s ==> y == s[0] || y in s[1..];
      if s[0] == x then rest
      else
        assert Distinct(s) ==> s[0] !in s[1..];
        [s[0]] + rest
  }

  /** The store invariant between the collections: every post's creator is a
      user whose list holds the post; every listed id is a post of that user;
      no list repeats an id. */
  ghost predicate Consistent(posts: map<PostId, Post>, users: map<UserId, User>)
  {
    && (forall p :: p in posts ==> posts[p].creator in users && p in users[posts[p].creator].posts)
    && (forall u, i :: u in users && 0 <= i < |users[u].posts| ==>
          users[u].posts[i] in posts && posts[users[u].posts[i]].creator == u)
    && (forall u :: u in users ==> Distinct(users[u].posts))
  }

  /** In a consistent store a user's list names exactly the posts the user created. */
  lemma OwnedPostsAreCreated(posts: map<PostId, Post>, users: map<UserId, User>, u: UserId, p: PostId)
    requires Consistent(posts, users) && u in users
    ensures p in users[u].posts <==> p in posts && posts[p].creator == u
  {
    if p in users[u].posts {
      var i :| 0 <= i < |users[u].posts| && users[u].posts[i] == p;
    }
  }

  /** createPost's success path: the new post is stored and appended to its
      creator's list. */
  lemma {:induction false} AddPostKeepsConsistent(posts: map<PostId, Post>, users: map<UserId, User>, id: PostId, p: Post)
    requires Consistent(posts, users) && id !in posts && p.creator in users
    ensures Consistent(posts[id := p], users[p.creator := users[p.creator].(posts := users[p.creator].posts + [id])])
  {
    var u := p.creator;
    var list := users[u].posts + [id];
    var posts' := posts[id := p];
    var users' := users[u := users[u].(posts := list)];
    assert id !in users[u].posts by {
      if id in users[u].posts { OwnedPostsAreCreated(posts, users, u, id); }
    }
    forall q | q in posts' ensures posts'[q].creator in users' && q in users'[posts'[q].creator].posts {
      if q != id {
        var c := posts[q].creator;
        if c == u { assert q in users[u].posts; assert list[..|list| - 1] == users[u].posts; }
      } else {
        assert list[|list| - 1] == id;
      }
    }
    forall v, i | v in users' && 0 <= i < |users'[v].posts|
      ensures users'[v].posts[i] in posts' && posts'[users'[v].posts[i]].creator == v
    {
      if v == u && i < |users[u].posts| { assert list[i] == users[u].posts[i]; }
    }
    forall v | v in users' ensures Distinct(users'[v].posts) {
      if v == u {
        forall i, j | 0 <= i < j < |list| ensures list[i] != list[j] {
          if j == |list| - 1 { assert list[i] in users[u].posts; }
        }
      }
    }
  }

  /** updatePost's success path: only title, content and image change. */
  lemma EditPostKeepsConsistent(posts: map<PostId, Post>, users: map<UserId, User>, id: PostId, p: Post)
    requires Consistent(posts, users) && id in posts && p.creator == posts[id].creator
    ensures Consistent(posts[id := p], users)
  {
  }

  /** deletePost's success path: the post is removed and pulled from its
      creator's list. */
  lemma {:induction false} RemovePostKeepsConsistent(posts: map<PostId, Post>, users: map<UserId, User>, id: PostId)
    requires Consistent(posts, users) && id in posts
    ensures var u := posts[id].creator;
            Consistent(posts - {id}, users[u := users[u].(posts := Pull(users[u].posts, id))])
  {
    var u := posts[id].creator;
    var list := Pull(users[u].posts, id);
    var posts' := posts - {id};
    var users' := users[u := users[u].(posts := list)];
    forall q | q in posts' ensures posts'[q].creator in users' && q in users'[posts'[q].creator].posts {
      assert q in users[posts[q].creator].posts;
    }
    forall v, i | v in users' && 0 <= i < |users'[v].posts|
      ensures users'[v].posts[i] in posts' && posts'[users'[v].posts[i]].creator == v
    {
      if v == u {
        var q := list[i];
        assert q in users[u].posts && q != id;
        OwnedPostsAreCreated(posts, users, u, q);
      }
    }
  }

  /** Signup's success path: a user with a fresh id and no posts. */
  lemma AddUserKeepsConsistent(posts: map<PostId, Post>, users: map<UserId, User>, id: UserId, user: User)
    requires Consistent(posts, users) && id !in users && user.posts == []
    ensures Consistent(posts, users[id := user])
  {
  }

  /** putStatus's success path: only a status changes. */
  lemma SetStatusKeepsConsistent(posts: map<PostId, Post>, users: map<UserId, User>, id: UserId, status: string)
    requires Consistent(posts, users) && id in users
    ensures Consistent(posts, users[id := users[id].(status := status)])
  {
  }
}
