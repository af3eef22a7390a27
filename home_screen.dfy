/** The home feed's paginator: the posts shown, the offset of the next page, whether more pages
    may exist, and the two spinners. `fetchPosts` is split at its one `await`: `Begin` runs up
    to the request, `Complete` applies the reply. */
module HomeScreen {
  import opened Common
  import Store
  import PostRoutes

  type Post = PostRoutes.FeedEntry

  /** Every request asks for this many posts. */
  const PageSize: int := 8

  datatype FeedState = FeedState(posts: seq<Post>, offset: int, loading: bool, refreshing: bool, hasMore: bool)

  /** The state a fresh screen starts from. */
  const Initial: FeedState := FeedState([], 0, false, false, true)

  /** The offset counts exactly the posts shown. */
  predicate Synced(s: FeedState) {
    s.offset == |s.posts|
  }

  /** The state after `fetchPosts` has issued its request, and that request's offset (the limit
      is always `PageSize`); no request when a load-more finds a fetch in flight, in which case
      the `finally` block still clears both spinners. */
  datatype FetchStart = FetchStart(state: FeedState, request: Option<int>)

  function Begin(s: FeedState, refresh: bool): (r: FetchStart)
    ensures r.request.None? <==> s.loading && !refresh
    ensures r.request.None? ==> r.state == s.(loading := false, refreshing := false)
    ensures refresh ==> r.request == Some(0) && r.state.offset == 0 && r.state.hasMore && r.state.refreshing
    ensures refresh ==> r.state == s.(refreshing := true, offset := 0, hasMore := true)
    ensures !refresh && r.request.Some? ==> r.request == Some(s.offset) && r.state.loading
    ensures !refresh && r.request.Some? ==> r.state == s.(loading := true)
    ensures r.state.posts == s.posts
  {
    if s.loading && !refresh then FetchStart(s.(loading := false, refreshing := false), None)
    else if refresh then FetchStart(s.(refreshing := true, offset := 0, hasMore := true), Some(0))
    else FetchStart(s.(loading := true), Some(s.offset))
  }

  /** `res.data?.posts || []`. */
  function FetchedPosts(response: Reply<Option<seq<Post>>>): seq<Post>
    requires response.Succeeded?
  {
    response.body.GetOr([])
  }

  /** The state once the reply to a request has arrived (or the request has failed). */
  function Complete(s: FeedState, refresh: bool, response: Reply<Option<seq<Post>>>): (r: FeedState)
    ensures !r.loading && !r.refreshing
    ensures response.Failed? ==> r.posts == s.posts && r.offset == s.offset && r.hasMore == s.hasMore
    ensures response.Succeeded? ==>
      var fetched := FetchedPosts(response);
      && r.posts == (if refresh then [] else s.posts) + fetched
      && r.offset == (if refresh then 0 else s.offset) + |fetched|
      && (r.hasMore <==> s.hasMore && |fetched| >= PageSize)
  {
    match response
    case Failed => s.(loading := false, refreshing := false)
    case Succeeded(_) =>
      var fetched := FetchedPosts(response);
      var s1 := if refresh then s.(posts := fetched, offset := |fetched|)
                else s.(posts := s.posts + fetched, offset := s.offset + |fetched|);
      var s2 := if |fetched| < PageSize then s1.(hasMore := false) else s1;
      s2.(loading := false, refreshing := false)
  }

  /** After every successful fetch the offset counts the posts shown: a refresh starts the count
      afresh, a load-more extends a count that was right. A failed refresh is the exception: the
      offset is back at 0 while the old posts stay. */
  lemma FetchKeepsSynced(s: FeedState, refresh: bool, response: Reply<Option<seq<Post>>>)
    requires refresh || Synced(s)
    ensures var start := Begin(s, refresh);
      var after := Complete(start.state, refresh, response);
      && (response.Succeeded? ==> Synced(after))
      && (refresh && response.Failed? ==> after.offset == 0 && after.posts == s.posts)
  {
  }

  /** A short page ends the paging until the next refresh. */
  lemma ShortPageStopsPaging(s: FeedState, response: Reply<Option<seq<Post>>>)
    requires response.Succeeded? && |FetchedPosts(response)| < PageSize
    ensures !Complete(Begin(s, false).state, false, response).hasMore
    ensures Complete(Begin(s, true).state, true, response).offset == |FetchedPosts(response)|
    ensures !Complete(Begin(s, true).state, true, response).hasMore
  {
  }

  /** A load-more never turns `hasMore` back on: only a refresh does. */
  lemma LoadMoreKeepsPagingOff(s: FeedState, response: Reply<Option<seq<Post>>>)
    ensures Complete(Begin(s, false).state, false, response).hasMore ==> s.hasMore
  {
  }

  /** `handleEndReached`: nothing when there is nothing more or a fetch is in flight, otherwise a load-more. */
  function EndReached(s: FeedState): (r: FetchStart)
    ensures !s.hasMore || s.loading ==> r == FetchStart(s, None)
    ensures s.hasMore && !s.loading ==> r.request == Some(s.offset) && r.state == s.(loading := true)
  {
    if !s.hasMore || s.loading then FetchStart(s, None) else Begin(s, false)
  }

  /** The loading flag a load-more sets is what makes a second end-of-list event, before the
      reply arrives, send nothing. */
  lemma EndReachedOnce(s: FeedState)
    ensures EndReached(EndReached(s).state).request.None?
    ensures EndReached(EndReached(s).state).state == EndReached(s).state
  {
  }

  /** The query a request with this offset sends: `?limit=8&offset=…`, public feed. */
  function Query(offset: int): PostRoutes.FeedQuery {
    PostRoutes.FeedQuery(Some(PageSize), Some(offset), None, None)
  }

  /** While the table does not change, paging through the public feed shows exactly its first
      posts, in the server's order: if the screen shows the first `offset` posts, a successful
      load-more shows the first `offset + |page|`. */
  lemma LoadMoreExtendsPrefix(
    s: FeedState, verify: string -> Option<Claims>, follows: seq<Store.FollowRow>,
    arranged: seq<Store.PostRow>, likes: seq<Store.LikeRow>, comments: seq<Store.CommentRow>)
    requires Synced(s) && !s.loading
    requires s.posts == PostRoutes.Entries(PostRoutes.Window(arranged, 0, s.offset), likes, comments)
    ensures var start := Begin(s, false);
      var reply := PostRoutes.GetFeed(Query(s.offset), verify, follows, arranged, likes, comments);
      && start.request == Some(s.offset)
      && reply.Page?
      && var after := Complete(start.state, false, Succeeded(Some(reply.posts)));
         && Synced(after)
         && after.posts == PostRoutes.Entries(PostRoutes.Window(arranged, 0, after.offset), likes, comments)
  {
    var reply := PostRoutes.GetFeed(Query(s.offset), verify, follows, arranged, likes, comments);
    var page := PostRoutes.Window(arranged, s.offset, PageSize);
    assert reply.posts == PostRoutes.Entries(page, likes, comments);
    var after := Complete(Begin(s, false).state, false, Succeeded(Some(reply.posts)));
    var whole := PostRoutes.Window(arranged, 0, after.offset);
    assert PostRoutes.Window(arranged, 0, s.offset) + page == whole;
    EntriesAppend(PostRoutes.Window(arranged, 0, s.offset), page, likes, comments);
  }

  lemma EntriesAppend(a: seq<Store.PostRow>, b: seq<Store.PostRow>, likes: seq<Store.LikeRow>, comments: seq<Store.CommentRow>)
    ensures PostRoutes.Entries(a + b, likes, comments) == PostRoutes.Entries(a, likes, comments) + PostRoutes.Entries(b, likes, comments)
  {
    var l, r := PostRoutes.Entries(a + b, likes, comments), PostRoutes.Entries(a, likes, comments) + PostRoutes.Entries(b, likes, comments);
    forall i | 0 <= i < |l| ensures l[i] == r[i] {
      if i < |a| {
        assert (a + b)[i] == a[i];
      } else {
        assert (a + b)[i] == b[i - |a|];
      }
    }
  }

  /** The screen's state, changed in place by the handlers. */
  class Feed {
    var posts: seq<Post>
    var offset: int
    var loading: bool
    var refreshing: bool
    var hasMore: bool

    function State(): FeedState
      reads this
    {
      FeedState(posts, offset, loading, refreshing, hasMore)
    }

    constructor ()
      ensures State() == Initial
    {
      posts, offset, loading, refreshing, hasMore := [], 0, false, false, true;
    }

    /** `fetchPosts(opts)` up to its request. */
    method BeginFetch(refresh: bool) returns (request: Option<int>)
      modifies this
      ensures State() == Begin(old(State()), refresh).state
      ensures request == Begin(old(State()), refresh).request
    {
      if loading && !refresh {
        loading := false;
        refreshing := false;
        return None;
      }
      if refresh {
        refreshing := true;
        offset := 0;
        hasMore := true;
      } else {
        loading := true;
      }
      request := Some(if refresh then 0 else offset);
    }

    /** `fetchPosts(opts)` after its request. */
    method CompleteFetch(refresh: bool, response: Reply<Option<seq<Post>>>)
      modifies this
      ensures State() == Complete(old(State()), refresh, response)
    {
      if response.Succeeded? {
        var fetched := response.body.GetOr([]);
        if refresh {
          posts := fetched;
          offset := |fetched|;
        } else {
          posts := posts + fetched;
          offset := offset + |fetched|;
        }
        if |fetched| < PageSize {
          hasMore := false;
        }
      }
      loading := false;
      refreshing := false;
    }

    /** `handleRefresh`. */
    method HandleRefresh() returns (request: Option<int>)
      modifies this
      ensures State() == Begin(old(State()), true).state && request == Some(0)
    {
      request := BeginFetch(true);
    }

    /** `handleEndReached`. */
    method HandleEndReached() returns (request: Option<int>)
      modifies this
      ensures State() == EndReached(old(State())).state
      ensures request == EndReached(old(State())).request
    {
      if !hasMore || loading {
        return None;
      }
      request := BeginFetch(false);
    }
  }
}
