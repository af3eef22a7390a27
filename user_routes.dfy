/** The `/users` routes: profile with follower counts, profile and avatar update guarded by
    ownership, and the follow graph (follow, unfollow, isFollowing). */
module UserRoutes {
  import opened Common
  import opened Store

  // ---------------------------------------------------------------- the follow graph

  /** The (follower, following) pairs the follow table records. */
  function Edges(follows: seq<FollowRow>): set<(int, int)> {
    set f | f in follows :: FollowPair(f)
  }

  function IsEdge(followerId: int, followingId: int): FollowRow -> bool {
    (f: FollowRow) => f.followerId == followerId && f.followingId == followingId
  }

  function NotId(id: int): FollowRow -> bool {
    (f: FollowRow) => f.id != id
  }

  /** `prisma.follow.findFirst({ where: { followerId, followingId } })`. */
  function FindFollow(follows: seq<FollowRow>, followerId: int, followingId: int): Option<FollowRow> {
    FindFirst(follows, IsEdge(followerId, followingId))
  }

  /** GET /users/:id/isFollowing: whether the caller follows the target. */
  function IsFollowing(follows: seq<FollowRow>, callerId: int, targetId: int): (r: bool)
    ensures r <==> (callerId, targetId) in Edges(follows)
  {
    var found := FindFollow(follows, callerId, targetId);
    assert (callerId, targetId) in Edges(follows) ==> found.Some? by {
      if (callerId, targetId) in Edges(follows) {
        var f :| f in follows && FollowPair(f) == (callerId, targetId);
        assert IsEdge(callerId, targetId)(f);
      }
    }
    found.Some?
  }

  lemma EdgesAppend(follows: seq<FollowRow>, added: FollowRow)
    ensures Edges(follows + [added]) == Edges(follows) + {FollowPair(added)}
  {
    var l, r := Edges(follows + [added]), Edges(follows) + {FollowPair(added)};
    forall e | e in r ensures e in l {
      if e != FollowPair(added) {
        var f :| f in follows && FollowPair(f) == e;
        assert f in follows + [added];
      } else {
        assert added in follows + [added];
      }
    }
    forall e | e in l ensures e in r {
      var f :| f in follows + [added] && FollowPair(f) == e;
    }
  }

  /** The answer of a follow-graph route and the follow table after it. */
  datatype GraphOutcome = GraphOutcome(status: int, message: string, follows: seq<FollowRow>, nextFollowId: int)

  /** POST /users/:id/follow, by `followerId` on `followingId`. */
  function Follow(follows: seq<FollowRow>, nextId: int, followerId: int, followingId: int): (r: GraphOutcome)
    ensures r.status == 200 || r.status == 400
    ensures r.status == 400 <==> followerId == followingId || (followerId, followingId) in Edges(follows)
    ensures r.status == 400 ==> r.follows == follows && r.nextFollowId == nextId
    ensures r.status == 200 ==> Edges(r.follows) == Edges(follows) + {(followerId, followingId)}
    ensures r.message ==
      if followerId == followingId then "You cannot follow yourself"
      else if r.status == 400 then "Already following this user"
      else "Followed successfully"
  {
    if followerId == followingId then
      GraphOutcome(400, "You cannot follow yourself", follows, nextId)
    else if IsFollowing(follows, followerId, followingId) then
      GraphOutcome(400, "Already following this user", follows, nextId)
    else
      var added := FollowRow(nextId, followerId, followingId);
      EdgesAppend(follows, added);
      GraphOutcome(200, "Followed successfully", follows + [added], nextId + 1)
  }

  /** POST /users/:id/unfollow, by `followerId` on `followingId`: the row found is deleted by id. */
  function Unfollow(follows: seq<FollowRow>, nextId: int, followerId: int, followingId: int): (r: GraphOutcome)
    ensures r.status == 200 || r.status == 400
    ensures r.status == 400 <==> (followerId, followingId) !in Edges(follows)
    ensures r.status == 400 ==> r.follows == follows
    ensures r.nextFollowId == nextId
  {
    match FindFollow(follows, followerId, followingId)
    case None =>
      assert !IsFollowing(follows, followerId, followingId);
      GraphOutcome(400, "You are not following this user", follows, nextId)
    case Some(existing) =>
      GraphOutcome(200, "Unfollowed successfully", Filter(follows, NotId(existing.id)), nextId)
  }

  /** Unfollowing removes exactly the one edge and leaves every other row in place. */
  lemma UnfollowRemovesOnlyThatEdge(follows: seq<FollowRow>, nextId: int, followerId: int, followingId: int)
    requires FollowsValid(follows, nextId)
    ensures var r := Unfollow(follows, nextId, followerId, followingId);
      r.status == 200 ==>
        && Edges(r.follows) == Edges(follows) - {(followerId, followingId)}
        && forall f :: f in r.follows <==> f in follows && FollowPair(f) != (followerId, followingId)
  {
    var r := Unfollow(follows, nextId, followerId, followingId);
    if r.status == 200 {
      var existing := FindFollow(follows, followerId, followingId).value;
      forall f | f in follows
        ensures f in r.follows <==> FollowPair(f) != (followerId, followingId)
      {
        if FollowPair(f) == (followerId, followingId) {
          DistinctSame(follows, FollowPair, f, existing);
        } else if f.id == existing.id {
          DistinctSame(follows, FollowId, f, existing);
        }
      }
    }
  }

  /** Follow keeps ids and edges unique and never records a self-follow. */
  lemma FollowKeepsValid(follows: seq<FollowRow>, nextId: int, followerId: int, followingId: int)
    requires FollowsValid(follows, nextId) && NoSelfFollow(follows)
    ensures var r := Follow(follows, nextId, followerId, followingId);
      FollowsValid(r.follows, r.nextFollowId) && NoSelfFollow(r.follows)
  {
    var r := Follow(follows, nextId, followerId, followingId);
    if r.status == 200 {
      var added := FollowRow(nextId, followerId, followingId);
      AppendDistinct(follows, added, FollowId);
      forall y | y in follows ensures FollowPair(y) != FollowPair(added) {
        assert FollowPair(y) in Edges(follows);
      }
      AppendDistinct(follows, added, FollowPair);
    }
  }

  /** Unfollow keeps ids and edges unique and never records a self-follow. */
  lemma UnfollowKeepsValid(follows: seq<FollowRow>, nextId: int, followerId: int, followingId: int)
    requires FollowsValid(follows, nextId)
    ensures var r := Unfollow(follows, nextId, followerId, followingId);
      && FollowsValid(r.follows, r.nextFollowId)
      && (NoSelfFollow(follows) ==> NoSelfFollow(r.follows))
  {
    match FindFollow(follows, followerId, followingId)
    case None =>
    case Some(existing) =>
      FilterAllBelow(follows, NotId(existing.id), FollowId, nextId);
      FilterDistinct(follows, NotId(existing.id), FollowId);
      FilterDistinct(follows, NotId(existing.id), FollowPair);
  }

  /** A successful follow undone by an unfollow of the same user gives back the same table. */
  lemma FollowThenUnfollowRestores(follows: seq<FollowRow>, nextId: int, followerId: int, followingId: int)
    requires FollowsValid(follows, nextId)
    requires Follow(follows, nextId, followerId, followingId).status == 200
    ensures var after := Follow(follows, nextId, followerId, followingId);
      Unfollow(after.follows, after.nextFollowId, followerId, followingId).follows == follows
  {
    var added := FollowRow(nextId, followerId, followingId);
    var after := follows + [added];
    assert FindFirst(after, IsEdge(followerId, followingId)) == Some(added) by {
      FilterAppend(follows, [added], IsEdge(followerId, followingId));
      FindPastMisses(follows, [added], IsEdge(followerId, followingId));
    }
    FilterAppend(follows, [added], NotId(nextId));
    FilterKeepsAll(follows, NotId(nextId));
  }

  // ---------------------------------------------------------------- profile counts

  function FollowsUser(userId: int): FollowRow -> bool { (f: FollowRow) => f.followingId == userId }
  function FollowedBy(userId: int): FollowRow -> bool { (f: FollowRow) => f.followerId == userId }

  /** `prisma.follow.count({ where: { followingId: userId } })`. */
  function FollowerCount(follows: seq<FollowRow>, userId: int): nat { Count(follows, FollowsUser(userId)) }

  /** `prisma.follow.count({ where: { followerId: userId } })`. */
  function FollowingCount(follows: seq<FollowRow>, userId: int): nat { Count(follows, FollowedBy(userId)) }

  /** The distinct users that follow `userId`. */
  function Followers(follows: seq<FollowRow>, userId: int): set<int> {
    set f | f in follows && f.followingId == userId :: f.followerId
  }

  /** The followers of a table are those of its tail, plus the head's follower when it follows `userId`. */
  lemma FollowersCons(follows: seq<FollowRow>, userId: int)
    requires follows != []
    ensures Followers(follows, userId) ==
      Followers(follows[1..], userId) + (if follows[0].followingId == userId then {follows[0].followerId} else {})
  {
    assert follows == [follows[0]] + follows[1..];
    forall f | f in follows ensures f == follows[0] || f in follows[1..] { }
  }

  /** With unique edges, the first row's follower does not follow the same user again further down. */
  lemma HeadFollowsOnce(follows: seq<FollowRow>, userId: int)
    requires follows != [] && Distinct(follows, FollowPair) && follows[0].followingId == userId
    ensures follows[0].followerId !in Followers(follows[1..], userId)
  {
    var tail := follows[1..];
    forall f | f in tail && f.followingId == userId ensures f.followerId != follows[0].followerId {
      var k :| 0 <= k < |tail| && tail[k] == f;
      assert FollowPair(follows[0]) != FollowPair(follows[k + 1]);
    }
  }

  /** While edges are unique, the follower count is the number of distinct followers. */
  lemma {:induction false} FollowerCountIsDistinctFollowers(follows: seq<FollowRow>, userId: int)
    requires Distinct(follows, FollowPair)
    ensures FollowerCount(follows, userId) == |Followers(follows, userId)|
    decreases |follows|
  {
    if follows != [] {
      DistinctTail(follows, FollowPair);
      FollowerCountIsDistinctFollowers(follows[1..], userId);
      FollowersCons(follows, userId);
      CountCons(follows, FollowsUser(userId));
      if follows[0].followingId == userId {
        HeadFollowsOnce(follows, userId);
      }
    }
  }

  /** A follow raises the target's follower count and the follower's following count by one;
      nobody else's counts move. */
  lemma FollowCountsMove(follows: seq<FollowRow>, nextId: int, followerId: int, followingId: int, userId: int)
    requires FollowsValid(follows, nextId)
    ensures var r := Follow(follows, nextId, followerId, followingId);
      && FollowerCount(r.follows, userId) == FollowerCount(follows, userId) + (if r.status == 200 && userId == followingId then 1 else 0)
      && FollowingCount(r.follows, userId) == FollowingCount(follows, userId) + (if r.status == 200 && userId == followerId then 1 else 0)
  {
    var r := Follow(follows, nextId, followerId, followingId);
    if r.status == 200 {
      var added := FollowRow(nextId, followerId, followingId);
      FilterAppend(follows, [added], FollowsUser(userId));
      FilterAppend(follows, [added], FollowedBy(userId));
    }
  }

  /** An unfollow that succeeds lowers the target's follower count by one. */
  lemma UnfollowLowersFollowerCount(follows: seq<FollowRow>, nextId: int, followerId: int, followingId: int)
    requires FollowsValid(follows, nextId)
    ensures var r := Unfollow(follows, nextId, followerId, followingId);
      FollowerCount(r.follows, followingId) == FollowerCount(follows, followingId) - (if r.status == 200 then 1 else 0)
  {
    var r := Unfollow(follows, nextId, followerId, followingId);
    if r.status == 200 {
      UnfollowRemovesOnlyThatEdge(follows, nextId, followerId, followingId);
      UnfollowKeepsValid(follows, nextId, followerId, followingId);
      FollowerCountIsDistinctFollowers(follows, followingId);
      FollowerCountIsDistinctFollowers(r.follows, followingId);
      assert Followers(r.follows, followingId) == Followers(follows, followingId) - {followerId} by {
        forall a | a in Followers(follows, followingId) && a != followerId
          ensures a in Followers(r.follows, followingId)
        {
          var f :| f in follows && f.followingId == followingId && f.followerId == a;
          assert f in r.follows;
        }
        forall a | a in Followers(r.follows, followingId) ensures a != followerId {
          var f :| f in r.follows && f.followingId == followingId && f.followerId == a;
        }
      }
      var existing := FindFollow(follows, followerId, followingId).value;
      assert followerId in Followers(follows, followingId) by {
        assert existing in follows;
      }
    }
  }

  // ---------------------------------------------------------------- profiles

  datatype Profile = Profile(
    id: int, username: string, email: string, avatarUrl: Option<string>, bio: Option<string>,
    createdAt: int, followers: nat, following: nat)

  /** GET /users/:id: the user's columns (without the password) and both counts, or 404. */
  datatype ProfileReply = ProfileFound(profile: Profile) | UserNotFound

  function GetProfile(users: seq<UserRow>, follows: seq<FollowRow>, userId: int): (r: ProfileReply)
    ensures r.UserNotFound? <==> forall u :: u in users ==> u.id != userId
    ensures r.ProfileFound? ==>
      && r.profile.id == userId
      && r.profile.followers == FollowerCount(follows, userId)
      && r.profile.following == FollowingCount(follows, userId)
    ensures r.ProfileFound? ==>
      exists u :: (u in users && u.id == userId &&
        r.profile == Profile(u.id, u.username, u.email, u.avatarUrl, u.bio, u.createdAt,
          FollowerCount(follows, userId), FollowingCount(follows, userId)))
  {
    match FindUser(users, userId)
    case None => UserNotFound
    case Some(u) =>
      ProfileFound(Profile(u.id, u.username, u.email, u.avatarUrl, u.bio, u.createdAt,
        FollowerCount(follows, userId), FollowingCount(follows, userId)))
  }

  /** The user columns a profile or avatar update returns. */
  datatype UserView = UserView(id: int, username: string, email: string, avatarUrl: Option<string>, bio: Option<string>)

  /** PUT /users/:id and POST /users/:id/avatar answers: 200 with the user, 403 "Not authorized",
      or 500 when the store update fails (no such user) or no file was uploaded. */
  datatype UpdateReply = Updated(user: UserView) | NotAuthorized | UpdateFailed

  /** `data: { username, bio }`: a field absent from the body is left as it is. */
  function WithProfile(u: UserRow, username: Option<string>, bio: Option<string>): (v: UserRow)
    ensures v.id == u.id && v.email == u.email && v.password == u.password
    ensures v.avatarUrl == u.avatarUrl && v.createdAt == u.createdAt
  {
    u.(username := username.GetOr(u.username), bio := if bio.Some? then bio else u.bio)
  }

  /** `data: { avatarUrl }`. */
  function WithAvatar(u: UserRow, avatarUrl: string): (v: UserRow)
    ensures v.id == u.id && v.email == u.email && v.password == u.password
    ensures v.username == u.username && v.bio == u.bio && v.createdAt == u.createdAt
  {
    u.(avatarUrl := Some(avatarUrl))
  }

  /** `prisma.user.update({ where: { id } })`: the row with that id replaced, every other row kept. */
  function ReplaceUser(users: seq<UserRow>, v: UserRow): (r: seq<UserRow>)
    ensures |r| == |users|
    ensures forall i :: 0 <= i < |users| ==> r[i] == (if users[i].id == v.id then v else users[i])
  {
    seq(|users|, i requires 0 <= i < |users| => if users[i].id == v.id then v else users[i])
  }

  /** Replacing a row by one with the same id and email keeps the user table valid. */
  lemma ReplaceUserKeepsValid(users: seq<UserRow>, next: int, u: UserRow, v: UserRow)
    requires UsersValid(users, next) && u in users && v.id == u.id && v.email == u.email
    ensures UsersValid(ReplaceUser(users, v), next)
  {
    var r := ReplaceUser(users, v);
    forall i, j | 0 <= i < j < |r| ensures r[i].email != r[j].email && r[i].id != r[j].id {
      assert UserEmail(users[i]) != UserEmail(users[j]) && UserId(users[i]) != UserId(users[j]);
      if users[i].id == v.id {
        DistinctSame(users, UserId, users[i], u);
      } else if users[j].id == v.id {
        DistinctSame(users, UserId, users[j], u);
      }
    }
    forall i | 0 <= i < |r| ensures UserId(r[i]) < next {
      if users[i].id == v.id {
        assert UserId(users[i]) < next;
      }
    }
  }

  function View(u: UserRow): UserView {
    UserView(u.id, u.username, u.email, u.avatarUrl, u.bio)
  }

  /** The answer of an update route and the user table after it. */
  datatype UserUpdate = UserUpdate(reply: UpdateReply, users: seq<UserRow>)

  /** PUT /users/:id by `callerId` (the token's user) on `pathId`. */
  function UpdateProfile(users: seq<UserRow>, callerId: int, pathId: int, username: Option<string>, bio: Option<string>)
    : (r: UserUpdate)
    ensures r.reply.NotAuthorized? <==> callerId != pathId
    ensures r.reply.UpdateFailed? <==> callerId == pathId && forall u :: u in users ==> u.id != pathId
    ensures !r.reply.Updated? ==> r.users == users
    ensures r.reply.Updated? ==>
      exists u :: (u in users && u.id == pathId &&
        var v := WithProfile(u, username, bio);
        && r.reply.user == View(v)
        && r.reply.user.username == username.GetOr(u.username)
        && r.reply.user.bio == (if bio.Some? then bio else u.bio)
        && r.users == ReplaceUser(users, v))
  {
    if callerId != pathId then UserUpdate(NotAuthorized, users)
    else match FindUser(users, pathId)
      case None => UserUpdate(UpdateFailed, users)
      case Some(u) =>
        var v := WithProfile(u, username, bio);
        UserUpdate(Updated(View(v)), ReplaceUser(users, v))
  }

  /** POST /users/:id/avatar by `callerId` on `pathId`; `filePath` is the uploaded file's URL
      (`req.file.path`), absent when no file came with the request. The returned user omits `bio`. */
  function AvatarUpdate(users: seq<UserRow>, callerId: int, pathId: int, filePath: Option<string>)
    : (r: UserUpdate)
    ensures r.reply.NotAuthorized? <==> callerId != pathId
    ensures r.reply.UpdateFailed? <==>
      callerId == pathId && (filePath.None? || forall u :: u in users ==> u.id != pathId)
    ensures !r.reply.Updated? ==> r.users == users
    ensures r.reply.Updated? ==>
      exists u :: (u in users && u.id == pathId &&
        var v := WithAvatar(u, filePath.value);
        && r.reply.user == View(v).(bio := None)
        && r.reply.user.avatarUrl == filePath
        && r.users == ReplaceUser(users, v))
  {
    if callerId != pathId then UserUpdate(NotAuthorized, users)
    else if filePath.None? then UserUpdate(UpdateFailed, users)
    else match FindUser(users, pathId)
      case None => UserUpdate(UpdateFailed, users)
      case Some(u) =>
        var v := WithAvatar(u, filePath.value);
        UserUpdate(Updated(View(v).(bio := None)), ReplaceUser(users, v))
  }

  /** Both update routes keep the user table valid. */
  lemma UpdatesKeepValid(users: seq<UserRow>, next: int, callerId: int, pathId: int,
                         username: Option<string>, bio: Option<string>, filePath: Option<string>)
    requires UsersValid(users, next)
    ensures UsersValid(UpdateProfile(users, callerId, pathId, username, bio).users, next)
    ensures UsersValid(AvatarUpdate(users, callerId, pathId, filePath).users, next)
  {
    if callerId == pathId {
      match FindUser(users, pathId)
      case None =>
      case Some(u) =>
        ReplaceUserKeepsValid(users, next, u, WithProfile(u, username, bio));
        if filePath.Some? {
          ReplaceUserKeepsValid(users, next, u, WithAvatar(u, filePath.value));
        }
    }
  }

  /** PUT /users/:id on the database. */
  method UpdateProfileRoute(db: Database, callerId: int, pathId: int, username: Option<string>, bio: Option<string>)
    returns (r: UpdateReply)
    requires db.Valid()
    modifies db`users
    ensures db.Valid()
    ensures var o := UpdateProfile(old(db.users), callerId, pathId, username, bio);
      r == o.reply && db.users == o.users
  {
    UpdatesKeepValid(db.users, db.nextUserId, callerId, pathId, username, bio, None);
    if callerId != pathId {
      return NotAuthorized;
    }
    var found := FindUser(db.users, pathId);
    if found.None? {
      return UpdateFailed;
    }
    var v := WithProfile(found.value, username, bio);
    db.users := ReplaceUser(db.users, v);
    r := Updated(View(v));
  }

  /** POST /users/:id/avatar on the database. */
  method AvatarRoute(db: Database, callerId: int, pathId: int, filePath: Option<string>)
    returns (r: UpdateReply)
    requires db.Valid()
    modifies db`users
    ensures db.Valid()
    ensures var o := AvatarUpdate(old(db.users), callerId, pathId, filePath);
      r == o.reply && db.users == o.users
  {
    UpdatesKeepValid(db.users, db.nextUserId, callerId, pathId, None, None, filePath);
    if callerId != pathId {
      return NotAuthorized;
    }
    if filePath.None? {
      return UpdateFailed;
    }
    var found := FindUser(db.users, pathId);
    if found.None? {
      return UpdateFailed;
    }
    var v := WithAvatar(found.value, filePath.value);
    db.users := ReplaceUser(db.users, v);
    r := Updated(View(v).(bio := None));
  }

  /** POST /users/:id/follow. */
  method FollowRoute(db: Database, followerId: int, followingId: int) returns (status: int, message: string)
    requires db.Valid()
    modifies db`follows, db`nextFollowId
    ensures db.Valid()
    ensures var o := Follow(old(db.follows), old(db.nextFollowId), followerId, followingId);
      status == o.status && message == o.message && db.follows == o.follows && db.nextFollowId == o.nextFollowId
  {
    FollowKeepsValid(db.follows, db.nextFollowId, followerId, followingId);
    if followerId == followingId {
      return 400, "You cannot follow yourself";
    }
    var existing := FindFollow(db.follows, followerId, followingId);
    if existing.Some? {
      return 400, "Already following this user";
    }
    db.follows := db.follows + [FollowRow(db.nextFollowId, followerId, followingId)];
    db.nextFollowId := db.nextFollowId + 1;
    status, message := 200, "Followed successfully";
  }

  /** POST /users/:id/unfollow. */
  method UnfollowRoute(db: Database, followerId: int, followingId: int) returns (status: int, message: string)
    requires db.Valid()
    modifies db`follows
    ensures db.Valid()
    ensures var o := Unfollow(old(db.follows), db.nextFollowId, followerId, followingId);
      status == o.status && message == o.message && db.follows == o.follows
  {
    UnfollowKeepsValid(db.follows, db.nextFollowId, followerId, followingId);
    var existing := FindFollow(db.follows, followerId, followingId);
    if existing.None? {
      return 400, "You are not following this user";
    }
    db.follows := Filter(db.follows, NotId(existing.value.id));
    status, message := 200, "Unfollowed successfully";
  }
}
