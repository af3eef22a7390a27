/** The like button of a post card: an optimistic `liked` flag and counter, changed before the
    request is sent and never rolled back. */
module PostCard {
  import opened Common
  import Store
  import PostRoutes

  datatype LikeState = LikeState(liked: bool, likeCount: int)

  /** `useState(false)` and `useState(post._count?.likes || 0)`. */
  function InitialLike(countedLikes: Option<int>): (s: LikeState)
    ensures !s.liked
    ensures s.likeCount == (if countedLikes.Some? then countedLikes.value else 0)
  {
    LikeState(false, countedLikes.GetOr(0))
  }

  /** One tap with a stored token: flip `liked`, then count up when it became liked and down otherwise. */
  function Tap(s: LikeState): (r: LikeState)
    ensures r.liked == !s.liked
    ensures r.likeCount - s.likeCount == (if r.liked then 1 else -1)
  {
    var newLiked := !s.liked;
    LikeState(newLiked, s.likeCount + (if newLiked then 1 else -1))
  }

  /** Whether `n` is odd, counted down one step at a time. */
  predicate Odd(n: nat) {
    n > 0 && !Odd(n - 1)
  }

  function Taps(s: LikeState, n: nat): LikeState {
    if n == 0 then s else Tap(Taps(s, n - 1))
  }

  /** Two taps give back both the flag and the counter. */
  lemma TapTwiceRestores(s: LikeState)
    ensures Tap(Tap(s)) == s
  {
  }

  /** Whatever the taps, the counter is the initial one plus one exactly while the post shows as liked. */
  lemma {:induction false} TapsKeepCount(initial: Option<int>, n: nat)
    ensures var s := Taps(InitialLike(initial), n);
      && (s.liked <==> Odd(n))
      && s.likeCount == InitialLike(initial).likeCount + (if s.liked then 1 else 0)
  {
    if n > 0 {
      TapsKeepCount(initial, n - 1);
    }
  }

  /** The like table after the same user's `n` requests on one post. */
  function ServerToggles(likes: seq<Store.LikeRow>, nextId: int, userId: int, postId: int, n: nat): (r: PostRoutes.LikeToggle)
    decreases n
  {
    if n == 0 then PostRoutes.LikeToggle(false, "", likes, nextId)
    else
      var before := ServerToggles(likes, nextId, userId, postId, n - 1);
      PostRoutes.ToggleLike(before.likes, before.nextLikeId, userId, postId)
  }

  /** One request flips the pair and keeps the table valid. */
  lemma ServerToggleStep(likes: seq<Store.LikeRow>, nextId: int, userId: int, postId: int)
    requires Store.LikesValid(likes, nextId)
    ensures var r := PostRoutes.ToggleLike(likes, nextId, userId, postId);
      && Store.LikesValid(r.likes, r.nextLikeId)
      && ((userId, postId) in PostRoutes.LikePairs(r.likes) <==> (userId, postId) !in PostRoutes.LikePairs(likes))
  {
    PostRoutes.ToggleLikeFlips(likes, nextId, userId, postId);
    PostRoutes.ToggleLikeKeepsValid(likes, nextId, userId, postId);
  }

  /** After `n` requests the server holds the like exactly when it held it initially or `n` is
      odd, but not both; the table stays valid throughout. */
  lemma {:induction false} ServerTogglesParity(likes: seq<Store.LikeRow>, nextId: int, userId: int, postId: int, n: nat)
    requires Store.LikesValid(likes, nextId)
    ensures var r := ServerToggles(likes, nextId, userId, postId, n);
      && Store.LikesValid(r.likes, r.nextLikeId)
      && ((userId, postId) in PostRoutes.LikePairs(r.likes) <==> ((userId, postId) in PostRoutes.LikePairs(likes)) != Odd(n))
  {
    if n > 0 {
      ServerTogglesParity(likes, nextId, userId, postId, n - 1);
      var before := ServerToggles(likes, nextId, userId, postId, n - 1);
      ServerToggleStep(before.likes, before.nextLikeId, userId, postId);
    }
  }

  /** The card always starts unliked, so when every tap reaches the server the card's `liked`
      agrees with the like table after any number of taps exactly when the user had not liked
      the post before the card was shown. */
  lemma CardAgreesWithServer(
    initial: Option<int>, likes: seq<Store.LikeRow>, nextId: int, userId: int, postId: int, n: nat)
    requires Store.LikesValid(likes, nextId)
    ensures var card := Taps(InitialLike(initial), n);
      var server := ServerToggles(likes, nextId, userId, postId, n);
      (card.liked == ((userId, postId) in PostRoutes.LikePairs(server.likes))) <==>
        (userId, postId) !in PostRoutes.LikePairs(likes)
  {
    TapsKeepCount(initial, n);
    ServerTogglesParity(likes, nextId, userId, postId, n);
  }

  /** One card on the screen. */
  class LikeButton {
    const postId: int
    const initialCount: int
    var liked: bool
    var likeCount: int

    ghost predicate Valid()
      reads this
    {
      likeCount == initialCount + (if liked then 1 else 0)
    }

    function State(): LikeState
      reads this
    {
      LikeState(liked, likeCount)
    }

    constructor (postId: int, countedLikes: Option<int>)
      ensures Valid()
      ensures this.postId == postId && State() == InitialLike(countedLikes)
    {
      this.postId := postId;
      initialCount := countedLikes.GetOr(0);
      liked := false;
      likeCount := countedLikes.GetOr(0);
    }

    /** `handleLike`, with the stored token; returns whether the like request was sent. The
        request's outcome does not matter: the optimistic update stays either way. */
    method HandleLike(token: Option<string>) returns (sent: bool)
      requires Valid()
      modifies this
      ensures Valid()
      ensures sent <==> Present(token)
      ensures !sent ==> State() == old(State())
      ensures sent ==> State() == Tap(old(State()))
    {
      if !Present(token) {
        return false;
      }
      var newLiked := !liked;
      liked := newLiked;
      likeCount := likeCount + (if newLiked then 1 else -1);
      sent := true;
    }
  }
}
