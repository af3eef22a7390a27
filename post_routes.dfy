/** The `/posts` routes: the paged feed (public, or personalised to the authors the viewer
    follows), the like toggle, and the validation in front of creating a post or a comment. */
module PostRoutes {
  import opened Common
  import opened Text
  import opened Store
  import opened AuthMiddleware

  // ---------------------------------------------------------------- the feed

  const DefaultLimit: int := 10
  const MaxLimit: int := 50

  /** The query string of GET /posts, already parsed (`limit`, `offset`, `following`), and the
      request's `Authorization` header. */
  datatype FeedQuery = FeedQuery(
    limit: Option<int>, offset: Option<int>, following: Option<string>, authorization: Option<string>)

  /** `Math.min(50, parseInt(req.query.limit || "10"))`: capped above, never below. */
  function PageLimit(q: FeedQuery): (n: int)
    ensures n <= MaxLimit && n <= q.limit.GetOr(DefaultLimit)
    ensures n == MaxLimit || n == q.limit.GetOr(DefaultLimit)
  {
    Min(MaxLimit, q.limit.GetOr(DefaultLimit))
  }

  /** `parseInt(req.query.offset || "0")`. */
  function PageOffset(q: FeedQuery): int {
    q.offset.GetOr(0)
  }

  /** Only the exact string "true" selects the personalised feed. */
  predicate Personalized(q: FeedQuery) {
    q.following == Some("true")
  }

  /** A post of the feed with its `_count` of likes and comments. */
  datatype FeedEntry = FeedEntry(post: PostRow, likes: nat, comments: nat)

  /** The answers of GET /posts: 200 with a page echoing `limit` and `offset`, 401, 403, or 500. */
  datatype FeedReply =
    | Page(posts: seq<FeedEntry>, limit: int, offset: int)
    | AuthRequired
    | InvalidToken
    | ServerError

  function Status(r: FeedReply): int {
    match r
    case Page(_, _, _) => 200
    case AuthRequired => 401
    case InvalidToken => 403
    case ServerError => 500
  }

  /** Newest first: `createdAt` never increases along the sequence. Equal keys may come in any order. */
  predicate NewestFirst(s: seq<PostRow>) {
    forall i, j :: 0 <= i < j < |s| ==> s[i].createdAt >= s[j].createdAt
  }

  /** `arranged` is the post table in `orderBy: { createdAt: "desc" }` order: the same rows,
      newest first. */
  predicate IsArrangement(arranged: seq<PostRow>, posts: seq<PostRow>) {
    multiset(arranged) == multiset(posts) && NewestFirst(arranged)
  }

  /** `skip`/`take` on a result sequence. */
  function Window<T>(s: seq<T>, skip: nat, take: nat): (w: seq<T>)
    ensures |w| == Max(0, Min(take, |s| - skip))
    ensures forall i :: 0 <= i < |w| ==> w[i] == s[skip + i]
  {
    if skip >= |s| then [] else s[skip..Min(skip + take, |s|)]
  }

  function LikesOn(postId: int): LikeRow -> bool { (l: LikeRow) => l.postId == postId }
  function CommentsOn(postId: int): CommentRow -> bool { (c: CommentRow) => c.postId == postId }

  function Entries(posts: seq<PostRow>, likes: seq<LikeRow>, comments: seq<CommentRow>): (es: seq<FeedEntry>)
    ensures |es| == |posts|
    ensures forall i :: 0 <= i < |es| ==>
      es[i] == FeedEntry(posts[i], Count(likes, LikesOn(posts[i].id)), Count(comments, CommentsOn(posts[i].id)))
  {
    seq(|posts|, i requires 0 <= i < |posts| =>
      FeedEntry(posts[i], Count(likes, LikesOn(posts[i].id)), Count(comments, CommentsOn(posts[i].id))))
  }

  /** The ids of the users `viewerId` follows. */
  function FollowedIds(follows: seq<FollowRow>, viewerId: int): set<int> {
    set f | f in follows && f.followerId == viewerId :: f.followingId
  }

  function ByAuthors(ids: set<int>): PostRow -> bool { (p: PostRow) => p.userId in ids }

  /** The claims of the viewer when a personalised request gets past the token check. */
  function Viewer(q: FeedQuery, verify: string -> Option<Claims>): Option<Claims> {
    match BearerToken(q.authorization)
    case None => None
    case Some(token) => verify(token)
  }

  /** GET /posts. `arranged` is the post table in the order the store returns it for
      `orderBy: { createdAt: "desc" }`; `verify` is the token verifier. A negative `skip` or `take`
      is refused by the store: in public mode that is the outer 500, in personalised mode the
      inner catch turns it into 403. */
  function GetFeed(
    q: FeedQuery, verify: string -> Option<Claims>, follows: seq<FollowRow>,
    arranged: seq<PostRow>, likes: seq<LikeRow>, comments: seq<CommentRow>): (r: FeedReply)
    ensures r.Page? ==> r.limit == PageLimit(q) && r.offset == PageOffset(q)
    ensures Personalized(q) && Viewer(q, verify).Some? ==>
      (r.Page? <==> FollowedIds(follows, Viewer(q, verify).value.userId) == {} || (PageLimit(q) >= 0 && PageOffset(q) >= 0))
    ensures !Personalized(q) ==> (r.Page? <==> PageLimit(q) >= 0 && PageOffset(q) >= 0)
  {
    var limit, offset := PageLimit(q), PageOffset(q);
    if Personalized(q) then
      match BearerToken(q.authorization)
      case None => AuthRequired
      case Some(token) =>
        match verify(token)
        case None => InvalidToken
        case Some(claims) =>
          var ids := FollowedIds(follows, claims.userId);
          if ids == {} then Page([], limit, offset)
          else if limit < 0 || offset < 0 then InvalidToken
          else Page(Entries(Window(Filter(arranged, ByAuthors(ids)), offset, limit), likes, comments), limit, offset)
    else if limit < 0 || offset < 0 then ServerError
    else Page(Entries(Window(arranged, offset, limit), likes, comments), limit, offset)
  }

  /** How a personalised request fails authentication: 401 without a "Bearer " header, 403 when
      the token does not verify. The public feed never answers 401 or 403 and does not look at
      the header at all. */
  lemma FeedAuthErrors(
    q: FeedQuery, verify: string -> Option<Claims>, follows: seq<FollowRow>,
    arranged: seq<PostRow>, likes: seq<LikeRow>, comments: seq<CommentRow>, header: Option<string>)
    ensures var r := GetFeed(q, verify, follows, arranged, likes, comments);
      && (Status(r) == 401 <==> Personalized(q) && (q.authorization.None? || !StartsWith(q.authorization.value, BearerPrefix)))
      && (Status(r) == 403 <==>
            && Personalized(q) && BearerToken(q.authorization).Some?
            && (|| Viewer(q, verify).None?
                || (&& FollowedIds(follows, Viewer(q, verify).value.userId) != {}
                    && (PageLimit(q) < 0 || PageOffset(q) < 0))))
      && (!Personalized(q) ==>
            && (r.Page? || r.ServerError?)
            && r == GetFeed(q.(authorization := header), verify, follows, arranged, likes, comments))
  {
  }

  /** A personalised viewer who follows nobody gets an empty page before any post is read:
      the answer depends neither on the posts nor on the paging values' signs. */
  lemma NoFolloweesEmptyPage(
    q: FeedQuery, verify: string -> Option<Claims>, follows: seq<FollowRow>,
    arranged: seq<PostRow>, likes: seq<LikeRow>, comments: seq<CommentRow>)
    requires Personalized(q) && Viewer(q, verify).Some?
    requires forall f :: f in follows ==> f.followerId != Viewer(q, verify).value.userId
    ensures GetFeed(q, verify, follows, arranged, likes, comments) == Page([], PageLimit(q), PageOffset(q))
  {
    var ids := FollowedIds(follows, Viewer(q, verify).value.userId);
    assert forall x :: x !in ids;
  }

  /** A page never exceeds the limit, which never exceeds 50; every entry is a post of the
      table with its like and comment counts; a personalised page holds only posts of followed
      authors. */
  lemma FeedPageContents(
    q: FeedQuery, verify: string -> Option<Claims>, follows: seq<FollowRow>,
    posts: seq<PostRow>, arranged: seq<PostRow>, likes: seq<LikeRow>, comments: seq<CommentRow>)
    requires IsArrangement(arranged, posts)
    ensures var r := GetFeed(q, verify, follows, arranged, likes, comments);
      r.Page? ==>
        && |r.posts| <= Max(0, r.limit) && r.limit <= MaxLimit
        && forall e :: e in r.posts ==>
             && e.post in posts
             && e.likes == Count(likes, LikesOn(e.post.id))
             && e.comments == Count(comments, CommentsOn(e.post.id))
             && (Personalized(q) ==> e.post.userId in FollowedIds(follows, Viewer(q, verify).value.userId))
  {
    var r := GetFeed(q, verify, follows, arranged, likes, comments);
    if r.Page? && r.posts != [] {
      forall e | e in r.posts
        ensures e.post in posts
        ensures Personalized(q) ==> e.post.userId in FollowedIds(follows, Viewer(q, verify).value.userId)
      {
        var i :| 0 <= i < |r.posts| && r.posts[i] == e;
        if Personalized(q) {
          var ids := FollowedIds(follows, Viewer(q, verify).value.userId);
          assert e.post == Window(Filter(arranged, ByAuthors(ids)), r.offset, r.limit)[i];
          assert e.post in Filter(arranged, ByAuthors(ids));
        } else {
          assert e.post == Window(arranged, r.offset, r.limit)[i];
        }
        assert e.post in multiset(arranged);
      }
    }
  }

  /** Both feeds skip `offset` posts of their newest-first candidate list and take up to
      `limit`: the public one from all posts, the personalised one from the posts of followed
      authors, in the store's order. */
  lemma FeedIsWindow(
    q: FeedQuery, verify: string -> Option<Claims>, follows: seq<FollowRow>,
    arranged: seq<PostRow>, likes: seq<LikeRow>, comments: seq<CommentRow>)
    ensures var r := GetFeed(q, verify, follows, arranged, likes, comments);
      r.Page? && (!Personalized(q) || FollowedIds(follows, Viewer(q, verify).value.userId) != {}) ==>
        var candidates :=
          if Personalized(q) then Filter(arranged, ByAuthors(FollowedIds(follows, Viewer(q, verify).value.userId)))
          else arranged;
        && r.offset >= 0 && r.limit >= 0
        && |r.posts| == Max(0, Min(r.limit, |candidates| - r.offset))
        && forall i :: 0 <= i < |r.posts| ==> r.posts[i].post == candidates[r.offset + i]
  {
  }

  /** Dropping rows keeps the rest newest first. */
  lemma {:induction false} FilterNewestFirst(s: seq<PostRow>, keep: PostRow -> bool)
    requires NewestFirst(s)
    ensures NewestFirst(Filter(s, keep))
    decreases |s|
  {
    if s != [] {
      var tail := Filter(s[1..], keep);
      assert NewestFirst(s[1..]) by {
        forall i, j | 0 <= i < j < |s[1..]| ensures s[1..][i].createdAt >= s[1..][j].createdAt {
          assert s[1..][i] == s[i + 1] && s[1..][j] == s[j + 1];
        }
      }
      FilterNewestFirst(s[1..], keep);
      if keep(s[0]) {
        var r := [s[0]] + tail;
        forall i, j | 0 <= i < j < |r| ensures r[i].createdAt >= r[j].createdAt {
          assert r[j] == tail[j - 1];
          if i == 0 {
            assert r[j] in s[1..];
            var k :| 0 <= k < |s[1..]| && s[1..][k] == r[j];
            assert s[k + 1] == r[j];
          } else {
            assert r[i] == tail[i - 1];
          }
        }
      }
    }
  }

  /** A window of a newest-first list is newest first. */
  lemma WindowNewestFirst(s: seq<PostRow>, skip: nat, take: nat)
    requires NewestFirst(s)
    ensures NewestFirst(Window(s, skip, take))
  {
    var w := Window(s, skip, take);
    forall i, j | 0 <= i < j < |w| ensures w[i].createdAt >= w[j].createdAt {
      assert w[i] == s[skip + i] && w[j] == s[skip + j];
    }
  }

  /** When the store orders the table newest first, every page is newest first. */
  lemma FeedNewestFirst(
    q: FeedQuery, verify: string -> Option<Claims>, follows: seq<FollowRow>,
    posts: seq<PostRow>, arranged: seq<PostRow>, likes: seq<LikeRow>, comments: seq<CommentRow>)
    requires IsArrangement(arranged, posts)
    ensures var r := GetFeed(q, verify, follows, arranged, likes, comments);
      r.Page? ==> forall i, j :: 0 <= i < j < |r.posts| ==> r.posts[i].post.createdAt >= r.posts[j].post.createdAt
  {
    var r := GetFeed(q, verify, follows, arranged, likes, comments);
    if r.Page? && r.posts != [] {
      var candidates := arranged;
      if Personalized(q) {
        var ids := FollowedIds(follows, Viewer(q, verify).value.userId);
        candidates := Filter(arranged, ByAuthors(ids));
        FilterNewestFirst(arranged, ByAuthors(ids));
      }
      var w := Window(candidates, r.offset, r.limit);
      assert r.posts == Entries(w, likes, comments);
      WindowNewestFirst(candidates, r.offset, r.limit);
      forall i, j | 0 <= i < j < |r.posts| ensures r.posts[i].post.createdAt >= r.posts[j].post.createdAt {
        assert r.posts[i].post == w[i] && r.posts[j].post == w[j];
      }
    }
  }

  // ---------------------------------------------------------------- the like toggle

  /** The (user, post) pairs the like table records. */
  function LikePairs(likes: seq<LikeRow>): set<(int, int)> {
    set l | l in likes :: LikePair(l)
  }

  function IsLike(userId: int, postId: int): LikeRow -> bool {
    (l: LikeRow) => l.userId == userId && l.postId == postId
  }

  function NotLikeId(id: int): LikeRow -> bool { (l: LikeRow) => l.id != id }

  /** `prisma.like.findUnique({ where: { userId_postId } })`. */
  function FindLike(likes: seq<LikeRow>, userId: int, postId: int): (r: Option<LikeRow>)
    ensures r.None? <==> (userId, postId) !in LikePairs(likes)
    ensures r.Some? ==> r.value in likes && r.value.userId == userId && r.value.postId == postId
  {
    var found := FindFirst(likes, IsLike(userId, postId));
    assert (userId, postId) in LikePairs(likes) ==> found.Some? by {
      if (userId, postId) in LikePairs(likes) {
        var l :| l in likes && LikePair(l) == (userId, postId);
        assert IsLike(userId, postId)(l);
      }
    }
    found
  }

  /** The answer of POST /posts/:id/like and the like table after it. */
  datatype LikeToggle = LikeToggle(liked: bool, message: string, likes: seq<LikeRow>, nextLikeId: int)

  /** POST /posts/:id/like by `userId`: an existing like is deleted by id, otherwise one is created. */
  function ToggleLike(likes: seq<LikeRow>, nextId: int, userId: int, postId: int): (r: LikeToggle)
    ensures r.liked <==> (userId, postId) !in LikePairs(likes)
    ensures r.liked ==> r.likes == likes + [LikeRow(nextId, userId, postId)] && r.nextLikeId == nextId + 1
    ensures !r.liked ==> r.nextLikeId == nextId
    ensures !r.liked ==>
      exists l :: l in likes && l.userId == userId && l.postId == postId && r.likes == Filter(likes, NotLikeId(l.id))
    ensures r.message == (if r.liked then "Post liked" else "Post unliked")
  {
    match FindLike(likes, userId, postId)
    case Some(existing) => LikeToggle(false, "Post unliked", Filter(likes, NotLikeId(existing.id)), nextId)
    case None => LikeToggle(true, "Post liked", likes + [LikeRow(nextId, userId, postId)], nextId + 1)
  }

  lemma LikePairsAppend(likes: seq<LikeRow>, added: LikeRow)
    ensures LikePairs(likes + [added]) == LikePairs(likes) + {LikePair(added)}
  {
    forall e | e in LikePairs(likes) + {LikePair(added)} ensures e in LikePairs(likes + [added]) {
      if e != LikePair(added) {
        var l :| l in likes && LikePair(l) == e;
        assert l in likes + [added];
      } else {
        assert added in likes + [added];
      }
    }
    forall e | e in LikePairs(likes + [added]) ensures e in LikePairs(likes) + {LikePair(added)} {
      var l :| l in likes + [added] && LikePair(l) == e;
    }
  }

  /** The toggle flips exactly the one pair: it is added when absent and removed when present,
      and every row for another pair stays. */
  lemma ToggleLikeFlips(likes: seq<LikeRow>, nextId: int, userId: int, postId: int)
    requires LikesValid(likes, nextId)
    ensures var r := ToggleLike(likes, nextId, userId, postId);
      && LikePairs(r.likes) == (if r.liked then LikePairs(likes) + {(userId, postId)} else LikePairs(likes) - {(userId, postId)})
      && forall l :: LikePair(l) != (userId, postId) ==> (l in r.likes <==> l in likes)
  {
    var r := ToggleLike(likes, nextId, userId, postId);
    if r.liked {
      LikePairsAppend(likes, LikeRow(nextId, userId, postId));
    } else {
      var existing := FindLike(likes, userId, postId).value;
      forall l | l in likes ensures l in r.likes <==> LikePair(l) != (userId, postId) {
        if LikePair(l) == (userId, postId) {
          DistinctSame(likes, LikePair, l, existing);
        } else if l.id == existing.id {
          DistinctSame(likes, LikeId, l, existing);
        }
      }
      forall e | e in LikePairs(likes) - {(userId, postId)} ensures e in LikePairs(r.likes) {
        var l :| l in likes && LikePair(l) == e;
      }
    }
  }

  /** The toggle keeps ids unique and below the counter, and never records a pair twice. */
  lemma ToggleLikeKeepsValid(likes: seq<LikeRow>, nextId: int, userId: int, postId: int)
    requires LikesValid(likes, nextId)
    ensures var r := ToggleLike(likes, nextId, userId, postId); LikesValid(r.likes, r.nextLikeId)
  {
    match FindLike(likes, userId, postId)
    case Some(existing) =>
      FilterAllBelow(likes, NotLikeId(existing.id), LikeId, nextId);
      FilterDistinct(likes, NotLikeId(existing.id), LikeId);
      FilterDistinct(likes, NotLikeId(existing.id), LikePair);
    case None =>
      var added := LikeRow(nextId, userId, postId);
      AppendDistinct(likes, added, LikeId);
      forall y | y in likes ensures LikePair(y) != LikePair(added) {
        assert LikePair(y) in LikePairs(likes);
      }
      AppendDistinct(likes, added, LikePair);
  }

  /** Two toggles restore the set of liked pairs; when the first one created the like, they
      restore the table row for row. */
  lemma ToggleLikeTwice(likes: seq<LikeRow>, nextId: int, userId: int, postId: int)
    requires LikesValid(likes, nextId)
    ensures var once := ToggleLike(likes, nextId, userId, postId);
      var twice := ToggleLike(once.likes, once.nextLikeId, userId, postId);
      && twice.liked == !once.liked
      && LikePairs(twice.likes) == LikePairs(likes)
      && (once.liked ==> twice.likes == likes)
  {
    var once := ToggleLike(likes, nextId, userId, postId);
    ToggleLikeFlips(likes, nextId, userId, postId);
    ToggleLikeKeepsValid(likes, nextId, userId, postId);
    ToggleLikeFlips(once.likes, once.nextLikeId, userId, postId);
    if once.liked {
      var added := LikeRow(nextId, userId, postId);
      assert FindFirst(once.likes, IsLike(userId, postId)) == Some(added) by {
        FindPastMisses(likes, [added], IsLike(userId, postId));
      }
      FilterAppend(likes, [added], NotLikeId(nextId));
      FilterKeepsAll(likes, NotLikeId(nextId));
    }
  }

  /** POST /posts/:id/like. */
  method LikeRoute(db: Database, userId: int, postId: int) returns (liked: bool, message: string)
    requires db.Valid()
    modifies db`likes, db`nextLikeId
    ensures db.Valid()
    ensures var o := ToggleLike(old(db.likes), old(db.nextLikeId), userId, postId);
      liked == o.liked && message == o.message && db.likes == o.likes && db.nextLikeId == o.nextLikeId
  {
    ToggleLikeKeepsValid(db.likes, db.nextLikeId, userId, postId);
    var existing := FindLike(db.likes, userId, postId);
    if existing.Some? {
      db.likes := Filter(db.likes, NotLikeId(existing.value.id));
      return false, "Post unliked";
    }
    db.likes := db.likes + [LikeRow(db.nextLikeId, userId, postId)];
    db.nextLikeId := db.nextLikeId + 1;
    liked, message := true, "Post liked";
  }

  // ---------------------------------------------------------------- creating content

  /** `text?.trim()` is truthy. */
  predicate CommentTextOk(text: Option<string>) {
    text.Some? && Trim(text.value) != ""
  }

  /** The comment check accepts exactly the texts holding a character that is not white space. */
  lemma CommentTextOkIffNotBlank(text: Option<string>)
    ensures CommentTextOk(text) <==> text.Some? && exists i :: 0 <= i < |text.value| && !IsSpace(text.value[i])
  {
    if text.Some? {
      TrimEmptyIffBlank(text.value);
    }
  }

  /** The answer of a create route and the table after it. */
  datatype Created<T> = Created(status: int, row: Option<T>, table: seq<T>, nextId: int)

  /** POST /posts/:id/comments by `userId`; `now` is the store's clock. */
  function AddComment(comments: seq<CommentRow>, nextId: int, userId: int, postId: int, text: Option<string>, now: int)
    : (r: Created<CommentRow>)
    ensures r.status == 400 || r.status == 201
    ensures r.status == 400 <==> !CommentTextOk(text)
    ensures r.status == 400 ==> r.row.None? && r.table == comments && r.nextId == nextId
    ensures r.status == 201 ==>
      && r.row == Some(CommentRow(nextId, text.value, userId, postId, now))
      && r.table == comments + [r.row.value]
      && r.nextId == nextId + 1
  {
    if !CommentTextOk(text) then Created(400, None, comments, nextId)
    else
      var c := CommentRow(nextId, text.value, userId, postId, now);
      Created(201, Some(c), comments + [c], nextId + 1)
  }

  /** Adding a comment keeps comment ids unique and below the counter. */
  lemma AddCommentKeepsValid(comments: seq<CommentRow>, nextId: int, userId: int, postId: int, text: Option<string>, now: int)
    requires CommentsValid(comments, nextId)
    ensures var r := AddComment(comments, nextId, userId, postId, text, now); CommentsValid(r.table, r.nextId)
  {
    var r := AddComment(comments, nextId, userId, postId, text, now);
    if r.status == 201 {
      AppendDistinct(comments, r.row.value, CommentId);
    }
  }

  /** POST /posts by `userId`; `filePath` is `req.file?.path`, the uploaded image's URL. */
  function CreatePost(posts: seq<PostRow>, nextId: int, userId: int, filePath: Option<string>, caption: Option<string>, now: int)
    : (r: Created<PostRow>)
    ensures r.status == 400 || r.status == 201
    ensures r.status == 400 <==> !Present(filePath)
    ensures r.status == 400 ==> r.row.None? && r.table == posts && r.nextId == nextId
    ensures r.status == 201 ==>
      && r.row == Some(PostRow(nextId, userId, filePath.value, caption, now))
      && r.table == posts + [r.row.value]
      && r.nextId == nextId + 1
  {
    if !Present(filePath) then Created(400, None, posts, nextId)
    else
      var p := PostRow(nextId, userId, filePath.value, caption, now);
      Created(201, Some(p), posts + [p], nextId + 1)
  }

  /** Creating a post keeps post ids unique and below the counter. */
  lemma CreatePostKeepsValid(posts: seq<PostRow>, nextId: int, userId: int, filePath: Option<string>, caption: Option<string>, now: int)
    requires PostsValid(posts, nextId)
    ensures var r := CreatePost(posts, nextId, userId, filePath, caption, now); PostsValid(r.table, r.nextId)
  {
    var r := CreatePost(posts, nextId, userId, filePath, caption, now);
    if r.status == 201 {
      AppendDistinct(posts, r.row.value, PostId);
    }
  }

  /** POST /posts/:id/comments on the database. */
  method AddCommentRoute(db: Database, userId: int, postId: int, text: Option<string>, now: int)
    returns (status: int, created: Option<CommentRow>)
    requires db.Valid()
    modifies db`comments, db`nextCommentId
    ensures db.Valid()
    ensures var o := AddComment(old(db.comments), old(db.nextCommentId), userId, postId, text, now);
      status == o.status && created == o.row && db.comments == o.table && db.nextCommentId == o.nextId
  {
    AddCommentKeepsValid(db.comments, db.nextCommentId, userId, postId, text, now);
    if !CommentTextOk(text) {
      return 400, None;
    }
    var c := CommentRow(db.nextCommentId, text.value, userId, postId, now);
    db.comments := db.comments + [c];
    db.nextCommentId := db.nextCommentId + 1;
    status, created := 201, Some(c);
  }

  /** POST /posts on the database. */
  method CreatePostRoute(db: Database, userId: int, filePath: Option<string>, caption: Option<string>, now: int)
    returns (status: int, created: Option<PostRow>)
    requires db.Valid()
    modifies db`posts, db`nextPostId
    ensures db.Valid()
    ensures var o := CreatePost(old(db.posts), old(db.nextPostId), userId, filePath, caption, now);
      status == o.status && created == o.row && db.posts == o.table && db.nextPostId == o.nextId
  {
    CreatePostKeepsValid(db.posts, db.nextPostId, userId, filePath, caption, now);
    if !Present(filePath) {
      return 400, None;
    }
    var p := PostRow(db.nextPostId, userId, filePath.value, caption, now);
    db.posts := db.posts + [p];
    db.nextPostId := db.nextPostId + 1;
    status, created := 201, Some(p);
  }
}
