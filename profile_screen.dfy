/** The profile screen: which user it shows, that user's posts, the follow button's state and
    the loading spinner. Network replies are inputs; each handler is one step. */
module ProfileScreen {
  import opened Common
  import Store
  import UserRoutes
  import AuthRoutes

  /** A user as the screen holds it; the counts are present only when the object it came from had them. */
  datatype UserInfo = UserInfo(id: int, username: string, followers: Option<int>, following: Option<int>)

  /** A post of the grid: `{ id, imageUrl, caption }`. */
  datatype Thumb = Thumb(id: int, imageUrl: string, caption: Option<string>)

  datatype ProfileState = ProfileState(user: Option<UserInfo>, isFollowing: bool, loading: bool, userPosts: seq<Thumb>)

  /** `useState(userParam)`, not following, spinner on, no posts. */
  function InitialProfile(userParam: Option<UserInfo>): ProfileState {
    ProfileState(userParam, false, true, [])
  }

  /** The three numbers under the avatar: posts, followers, following (`?? 0`). */
  function Stats(s: ProfileState): (stats: (nat, int, int))
    requires s.user.Some?
    ensures stats.0 == |s.userPosts|
    ensures s.user.value.followers.None? ==> stats.1 == 0
    ensures s.user.value.followers.Some? ==> stats.1 == s.user.value.followers.value
    ensures s.user.value.following.None? ==> stats.2 == 0
    ensures s.user.value.following.Some? ==> stats.2 == s.user.value.following.value
  {
    (|s.userPosts|, s.user.value.followers.GetOr(0), s.user.value.following.GetOr(0))
  }

  /** `loadUserPosts`: the server's list, or an empty one when the reply has no `posts`; a failure changes nothing. */
  function AfterLoadUserPosts(s: ProfileState, response: Reply<Option<seq<Thumb>>>): (r: ProfileState)
    ensures response.Failed? ==> r == s
    ensures response.Succeeded? ==> r == s.(userPosts := response.body.GetOr([]))
  {
    match response
    case Failed => s
    case Succeeded(posts) => s.(userPosts := posts.GetOr([]))
  }

  /** `checkFollow`: adopt the server's answer; nothing without a user or on failure. */
  function AfterCheckFollow(s: ProfileState, response: Reply<bool>): (r: ProfileState)
    ensures s.user.None? || response.Failed? ==> r == s
    ensures s.user.Some? && response.Succeeded? ==> r == s.(isFollowing := response.body)
  {
    if s.user.None? then s
    else match response
      case Failed => s
      case Succeeded(answer) => s.(isFollowing := answer)
  }

  /** The endpoint `toggleFollow` posts to. */
  datatype FollowCall = CallFollow | CallUnfollow

  /** `toggleFollow`: the call it makes (none without a user), and the state once the call
      succeeded (`ok`) or failed. */
  datatype ToggleStep = ToggleStep(call: Option<FollowCall>, state: ProfileState)

  function AfterToggleFollow(s: ProfileState, ok: bool): (r: ToggleStep)
    ensures s.user.None? ==> r == ToggleStep(None, s)
    ensures s.user.Some? ==> r.call == Some(if s.isFollowing then CallUnfollow else CallFollow)
    ensures r.state.isFollowing == (if s.user.Some? && ok then !s.isFollowing else s.isFollowing)
    ensures r.state == s.(isFollowing := r.state.isFollowing)
  {
    if s.user.None? then ToggleStep(None, s)
    else
      var call := if s.isFollowing then CallUnfollow else CallFollow;
      ToggleStep(Some(call), if ok then s.(isFollowing := !s.isFollowing) else s)
  }

  /** What the server does with the call, and whether it answers 2xx. */
  function Serve(follows: seq<Store.FollowRow>, nextId: int, callerId: int, targetId: int, call: FollowCall): UserRoutes.GraphOutcome {
    match call
    case CallFollow => UserRoutes.Follow(follows, nextId, callerId, targetId)
    case CallUnfollow => UserRoutes.Unfollow(follows, nextId, callerId, targetId)
  }

  /** A successful `checkFollow` makes the button agree with the follow table, and a toggle keeps
      it agreeing: when the button says "following" only an unfollow is sent, which succeeds
      because the edge is there, and otherwise a follow is sent, which succeeds unless the
      target is the caller; the button flips exactly when the server changed the edge. */
  lemma ToggleKeepsAgreement(
    s: ProfileState, follows: seq<Store.FollowRow>, nextId: int, callerId: int)
    requires s.user.Some?
    requires Store.FollowsValid(follows, nextId)
    requires s.isFollowing == UserRoutes.IsFollowing(follows, callerId, s.user.value.id)
    ensures var target := s.user.value.id;
      var step := AfterToggleFollow(s, true);
      var served := Serve(follows, nextId, callerId, target, step.call.value);
      var after := AfterToggleFollow(s, served.status == 200).state;
      after.isFollowing == UserRoutes.IsFollowing(served.follows, callerId, target)
  {
    var target := s.user.value.id;
    var call := AfterToggleFollow(s, true).call.value;
    if call == CallUnfollow {
      UserRoutes.UnfollowRemovesOnlyThatEdge(follows, nextId, callerId, target);
    }
  }

  lemma CheckFollowAgrees(s: ProfileState, follows: seq<Store.FollowRow>, callerId: int)
    requires s.user.Some?
    ensures var after := AfterCheckFollow(s, Succeeded(UserRoutes.IsFollowing(follows, callerId, s.user.value.id)));
      after.isFollowing <==> (callerId, s.user.value.id) in UserRoutes.Edges(follows)
  {
  }

  /** The user object `/auth/me` returns, as the screen keeps it: no counts. */
  function FromSummary(u: AuthRoutes.UserSummary): UserInfo {
    UserInfo(u.id, u.username, None, None)
  }

  /** `loadMyProfile`: nothing but the spinner without a token or when `/auth/me` fails;
      otherwise the user and then that user's posts. */
  function AfterLoadMyProfile(
    s: ProfileState, token: Option<string>, me: Reply<AuthRoutes.UserSummary>,
    posts: Reply<Option<seq<Thumb>>>): (r: ProfileState)
    ensures !r.loading
    ensures !Present(token) || me.Failed? ==> r == s.(loading := false)
    ensures Present(token) && me.Succeeded? ==>
      r == AfterLoadUserPosts(s.(user := Some(FromSummary(me.body))), posts).(loading := false)
  {
    if !Present(token) then s.(loading := false)
    else match me
      case Failed => s.(loading := false)
      case Succeeded(u) => AfterLoadUserPosts(s.(user := Some(FromSummary(u))), posts).(loading := false)
  }

  /** Which of the three cases `refreshProfile` took. */
  datatype Source = Edited | Visited | Own

  /** Everything the network answers during one refresh. */
  datatype Replies = Replies(
    token: Option<string>, me: Reply<AuthRoutes.UserSummary>, isFollowing: Reply<bool>, posts: Reply<Option<seq<Thumb>>>)

  datatype Refresh = Refresh(source: Source, state: ProfileState)

  /** `refreshProfile`: the `updatedUser` param wins, then the `user` param, then the own profile. */
  function AfterRefresh(s: ProfileState, updatedUser: Option<UserInfo>, userParam: Option<UserInfo>, net: Replies): (r: Refresh)
    ensures r.source == Edited <==> updatedUser.Some?
    ensures r.source == Visited <==> updatedUser.None? && userParam.Some?
    ensures !r.state.loading
    ensures r.source == Edited ==> r.state.user == updatedUser && r.state.isFollowing == s.isFollowing
    ensures r.source == Edited ==>
      r.state == AfterLoadUserPosts(s.(user := updatedUser), net.posts).(loading := false)
    ensures r.source == Visited ==> r.state.user == userParam
    ensures r.source == Visited ==>
      r.state == AfterLoadUserPosts(AfterCheckFollow(s.(user := userParam), net.isFollowing), net.posts).(loading := false)
    ensures r.source == Visited ==>
      r.state.isFollowing == (if net.isFollowing.Succeeded? then net.isFollowing.body else s.isFollowing)
    ensures r.source != Own ==>
      r.state.userPosts == (if net.posts.Succeeded? then net.posts.body.GetOr([]) else s.userPosts)
    ensures r.source == Own ==> r.state == AfterLoadMyProfile(s, net.token, net.me, net.posts)
  {
    if updatedUser.Some? then
      Refresh(Edited, AfterLoadUserPosts(s.(user := updatedUser), net.posts).(loading := false))
    else if userParam.Some? then
      var checked := AfterCheckFollow(s.(user := userParam), net.isFollowing);
      Refresh(Visited, AfterLoadUserPosts(checked, net.posts).(loading := false))
    else
      Refresh(Own, AfterLoadMyProfile(s, net.token, net.me, net.posts))
  }

  /** The own profile shows 0 followers and 0 following: `/auth/me` returns no counts. */
  lemma OwnProfileShowsZeroCounts(s: ProfileState, net: Replies)
    requires Present(net.token) && net.me.Succeeded?
    ensures var r := AfterRefresh(s, None, None, net);
      r.source == Own && r.state.user.Some? && Stats(r.state).1 == 0 && Stats(r.state).2 == 0
  {
  }

  /** The user param a visit is opened with, built from a GET /users/:id profile. */
  function FromProfile(p: UserRoutes.Profile): UserInfo {
    UserInfo(p.id, p.username, Some(p.followers), Some(p.following))
  }

  /** Visiting a profile the server found shows the server's follower and following counts,
      and after a successful follow check the button says whether the viewer follows it. */
  lemma VisitShowsServerCounts(
    s: ProfileState, users: seq<Store.UserRow>, follows: seq<Store.FollowRow>, targetId: int, viewerId: int,
    posts: Reply<Option<seq<Thumb>>>, token: Option<string>, me: Reply<AuthRoutes.UserSummary>)
    requires UserRoutes.GetProfile(users, follows, targetId).ProfileFound?
    ensures var p := UserRoutes.GetProfile(users, follows, targetId).profile;
      var net := Replies(token, me, Succeeded(UserRoutes.IsFollowing(follows, viewerId, targetId)), posts);
      var r := AfterRefresh(s, None, Some(FromProfile(p)), net);
      && r.source == Visited
      && Stats(r.state).1 == UserRoutes.FollowerCount(follows, targetId)
      && Stats(r.state).2 == UserRoutes.FollowingCount(follows, targetId)
      && (r.state.isFollowing <==> (viewerId, targetId) in UserRoutes.Edges(follows))
  {
  }

  /** The screen's state, changed in place by the handlers. */
  class ProfileView {
    var user: Option<UserInfo>
    var isFollowing: bool
    var loading: bool
    var userPosts: seq<Thumb>

    function State(): ProfileState
      reads this
    {
      ProfileState(user, isFollowing, loading, userPosts)
    }

    constructor (userParam: Option<UserInfo>)
      ensures State() == InitialProfile(userParam)
    {
      user, isFollowing, loading, userPosts := userParam, false, true, [];
    }

    method LoadUserPosts(response: Reply<Option<seq<Thumb>>>)
      modifies this
      ensures State() == AfterLoadUserPosts(old(State()), response)
    {
      if response.Succeeded? {
        userPosts := response.body.GetOr([]);
      }
    }

    method CheckFollow(response: Reply<bool>)
      modifies this
      ensures State() == AfterCheckFollow(old(State()), response)
    {
      if user.None? {
        return;
      }
      if response.Succeeded? {
        isFollowing := response.body;
      }
    }

    /** `toggleFollow`; `ok` says whether the call the method returns succeeded. */
    method ToggleFollow(ok: bool) returns (call: Option<FollowCall>)
      modifies this
      ensures State() == AfterToggleFollow(old(State()), ok).state
      ensures call == AfterToggleFollow(old(State()), ok).call
    {
      if user.None? {
        return None;
      }
      call := Some(if isFollowing then CallUnfollow else CallFollow);
      if ok {
        isFollowing := !isFollowing;
      }
    }

    method LoadMyProfile(token: Option<string>, me: Reply<AuthRoutes.UserSummary>, posts: Reply<Option<seq<Thumb>>>)
      modifies this
      ensures State() == AfterLoadMyProfile(old(State()), token, me, posts)
    {
      if Present(token) && me.Succeeded? {
        user := Some(FromSummary(me.body));
        LoadUserPosts(posts);
      }
      loading := false;
    }

    method RefreshProfile(updatedUser: Option<UserInfo>, userParam: Option<UserInfo>, net: Replies) returns (source: Source)
      modifies this
      ensures State() == AfterRefresh(old(State()), updatedUser, userParam, net).state
      ensures source == AfterRefresh(old(State()), updatedUser, userParam, net).source
    {
      if updatedUser.Some? {
        user := updatedUser;
        LoadUserPosts(net.posts);
        loading := false;
        return Edited;
      }
      if userParam.Some? {
        user := userParam;
        CheckFollow(net.isFollowing);
        LoadUserPosts(net.posts);
        loading := false;
        return Visited;
      }
      LoadMyProfile(net.token, net.me, net.posts);
      source := Own;
    }
  }
}
