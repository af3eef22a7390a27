/** The relational store behind the routes, as the routes use it: five tables of rows with
    auto-increment ids. `findFirst`/`findUnique` become FindFirst, `findMany` with a `where`
    becomes Filter, `count` becomes Count, and the uniqueness constraints the handlers rely
    on are the invariant `Database.Valid`. */
module Store {
  import opened Common

  datatype UserRow = UserRow(
    id: int, username: string, email: string, password: string,
    avatarUrl: Option<string>, bio: Option<string>, createdAt: int)

  datatype PostRow = PostRow(id: int, userId: int, imageUrl: string, caption: Option<string>, createdAt: int)

  datatype LikeRow = LikeRow(id: int, userId: int, postId: int)

  datatype CommentRow = CommentRow(id: int, text: string, userId: int, postId: int, createdAt: int)

  datatype FollowRow = FollowRow(id: int, followerId: int, followingId: int)

  // ---------------------------------------------------------------- queries over a table

  /** The rows satisfying `keep`, in table order. */
  function Filter<T(!new)>(s: seq<T>, keep: T -> bool): (r: seq<T>)
    ensures |r| <= |s|
    ensures forall x :: x in r <==> x in s && keep(x)
  {
    if s == [] then []
    else (if keep(s[0]) then [s[0]] else []) + Filter(s[1..], keep)
  }

  /** The number of rows satisfying `where`. */
  function Count<T(!new)>(s: seq<T>, where: T -> bool): nat {
    |Filter(s, where)|
  }

  /** Counting row by row. */
  lemma CountCons<T(!new)>(s: seq<T>, where: T -> bool)
    requires s != []
    ensures Count(s, where) == Count(s[1..], where) + (if where(s[0]) then 1 else 0)
  {
  }

  /** The first row satisfying `where`, if any. */
  function FindFirst<T(!new)>(s: seq<T>, where: T -> bool): (r: Option<T>)
    ensures r.Some? ==> r.value in s && where(r.value)
    ensures r.None? <==> forall x :: x in s ==> !where(x)
  {
    if s == [] then None
    else if where(s[0]) then Some(s[0])
    else FindFirst(s[1..], where)
  }

  /** Searching past a prefix without a match finds what the rest gives. */
  lemma {:induction false} FindPastMisses<T(!new)>(s: seq<T>, t: seq<T>, where: T -> bool)
    requires forall x :: x in s ==> !where(x)
    ensures FindFirst(s + t, where) == FindFirst(t, where)
    decreases |s|
  {
    if s != [] {
      assert (s + t)[1..] == s[1..] + t;
      FindPastMisses(s[1..], t, where);
    } else {
      assert s + t == t;
    }
  }

  /** No two rows share a key. */
  predicate Distinct<T, K(==)>(s: seq<T>, key: T -> K) {
    forall i, j :: 0 <= i < j < |s| ==> key(s[i]) != key(s[j])
  }

  /** Dropping the first row keeps the keys distinct. */
  lemma DistinctTail<T, K>(s: seq<T>, key: T -> K)
    requires s != [] && Distinct(s, key)
    ensures Distinct(s[1..], key)
  {
    assert forall i :: 0 <= i < |s| - 1 ==> s[1..][i] == s[i + 1];
  }

  /** Every key is below `next`. */
  predicate AllBelow<T>(s: seq<T>, key: T -> int, next: int) {
    forall i :: 0 <= i < |s| ==> key(s[i]) < next
  }

  lemma {:induction false} FilterAppend<T(!new)>(s: seq<T>, t: seq<T>, keep: T -> bool)
    ensures Filter(s + t, keep) == Filter(s, keep) + Filter(t, keep)
    decreases |s|
  {
    if s != [] {
      assert (s + t)[1..] == s[1..] + t;
      FilterAppend(s[1..], t, keep);
    } else {
      assert s + t == t;
    }
  }

  lemma {:induction false} FilterKeepsAll<T(!new)>(s: seq<T>, keep: T -> bool)
    requires forall x :: x in s ==> keep(x)
    ensures Filter(s, keep) == s
    decreases |s|
  {
    if s != [] {
      FilterKeepsAll(s[1..], keep);
      assert [s[0]] + s[1..] == s;
    }
  }

  /** Keys unique in a table identify its rows. */
  lemma DistinctSame<T, K>(s: seq<T>, key: T -> K, x: T, y: T)
    requires Distinct(s, key) && x in s && y in s && key(x) == key(y)
    ensures x == y
  {
    var i :| 0 <= i < |s| && s[i] == x;
    var j :| 0 <= j < |s| && s[j] == y;
    assert forall a, b :: 0 <= a < |s| && 0 <= b < |s| && key(s[a]) == key(s[b]) ==> a == b;
  }

  /** Dropping rows keeps keys unique. */
  lemma {:induction false} FilterDistinct<T(!new), K>(s: seq<T>, keep: T -> bool, key: T -> K)
    requires Distinct(s, key)
    ensures Distinct(Filter(s, keep), key)
    decreases |s|
  {
    if s != [] {
      var tail := Filter(s[1..], keep);
      FilterDistinct(s[1..], keep, key);
      if keep(s[0]) {
        var r := [s[0]] + tail;
        forall i, j | 0 <= i < j < |r| ensures key(r[i]) != key(r[j]) {
          if i == 0 {
            assert r[j] == tail[j - 1] && tail[j - 1] in s[1..];
            var k :| 0 <= k < |s[1..]| && s[1..][k] == r[j];
            assert s[k + 1] == r[j];
          } else {
            assert r[i] == tail[i - 1] && r[j] == tail[j - 1];
          }
        }
      }
    }
  }

  lemma FilterAllBelow<T(!new)>(s: seq<T>, keep: T -> bool, key: T -> int, next: int)
    requires AllBelow(s, key, next)
    ensures AllBelow(Filter(s, keep), key, next)
  {
    forall i | 0 <= i < |Filter(s, keep)| ensures key(Filter(s, keep)[i]) < next {
      assert Filter(s, keep)[i] in s;
    }
  }

  /** Appending a row with a fresh key keeps keys unique. */
  lemma AppendDistinct<T(!new), K>(s: seq<T>, x: T, key: T -> K)
    requires Distinct(s, key)
    requires forall y :: y in s ==> key(y) != key(x)
    ensures Distinct(s + [x], key)
  {
    var r := s + [x];
    forall i, j | 0 <= i < j < |r| ensures key(r[i]) != key(r[j]) {
      if j == |s| {
        assert r[i] == s[i] && s[i] in s;
      } else {
        assert r[i] == s[i] && r[j] == s[j];
      }
    }
  }

  // ---------------------------------------------------------------- keys and constraints

  function UserId(u: UserRow): int { u.id }
  function UserEmail(u: UserRow): string { u.email }
  function PostId(p: PostRow): int { p.id }
  function LikeId(l: LikeRow): int { l.id }
  function LikePair(l: LikeRow): (int, int) { (l.userId, l.postId) }
  function CommentId(c: CommentRow): int { c.id }
  function FollowId(f: FollowRow): int { f.id }
  function FollowPair(f: FollowRow): (int, int) { (f.followerId, f.followingId) }

  /** Ids unique and below the auto-increment counter; `email` unique. */
  predicate UsersValid(users: seq<UserRow>, next: int) {
    AllBelow(users, UserId, next) && Distinct(users, UserId) && Distinct(users, UserEmail)
  }

  predicate PostsValid(posts: seq<PostRow>, next: int) {
    AllBelow(posts, PostId, next) && Distinct(posts, PostId)
  }

  /** Ids unique; a user likes a post at most once. */
  predicate LikesValid(likes: seq<LikeRow>, next: int) {
    AllBelow(likes, LikeId, next) && Distinct(likes, LikeId) && Distinct(likes, LikePair)
  }

  predicate CommentsValid(comments: seq<CommentRow>, next: int) {
    AllBelow(comments, CommentId, next) && Distinct(comments, CommentId)
  }

  /** Ids unique; a follow edge is recorded at most once. */
  predicate FollowsValid(follows: seq<FollowRow>, next: int) {
    AllBelow(follows, FollowId, next) && Distinct(follows, FollowId) && Distinct(follows, FollowPair)
  }

  /** No user follows themself. */
  predicate NoSelfFollow(follows: seq<FollowRow>) {
    forall f :: f in follows ==> f.followerId != f.followingId
  }

  function HasId(id: int): UserRow -> bool { (u: UserRow) => u.id == id }
  function HasEmail(email: string): UserRow -> bool { (u: UserRow) => u.email == email }

  /** `prisma.user.findUnique({ where: { id } })`. */
  function FindUser(users: seq<UserRow>, id: int): Option<UserRow> {
    FindFirst(users, HasId(id))
  }

  /** `prisma.user.findUnique({ where: { email } })`. */
  function FindUserByEmail(users: seq<UserRow>, email: string): Option<UserRow> {
    FindFirst(users, HasEmail(email))
  }

  /** The connection to the store: one table per field, each with its auto-increment counter. */
  class Database {
    var users: seq<UserRow>
    var posts: seq<PostRow>
    var likes: seq<LikeRow>
    var comments: seq<CommentRow>
    var follows: seq<FollowRow>
    var nextUserId: int
    var nextPostId: int
    var nextLikeId: int
    var nextCommentId: int
    var nextFollowId: int

    ghost predicate Valid()
      reads this
    {
      && UsersValid(users, nextUserId)
      && PostsValid(posts, nextPostId)
      && LikesValid(likes, nextLikeId)
      && CommentsValid(comments, nextCommentId)
      && FollowsValid(follows, nextFollowId) && NoSelfFollow(follows)
    }

    /** An empty store; ids start at 1 as the store's autoincrement does. */
    constructor ()
      ensures Valid()
      ensures users == [] && posts == [] && likes == [] && comments == [] && follows == []
    {
      users, posts, likes, comments, follows := [], [], [], [], [];
      nextUserId, nextPostId, nextLikeId, nextCommentId, nextFollowId := 1, 1, 1, 1, 1;
    }
  }
}
