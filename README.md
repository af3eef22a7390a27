# Social feed: a Dafny model of its decision logic

The social feed app has an Express/Prisma backend with three route files and one auth middleware, plus a React Native client. This project models the parts of both that make decisions.

**Server side.** The model covers:
- the paged feed, public or personalised to the authors the viewer follows;
- the like toggle;
- the follow graph: follow, unfollow and isFollowing;
- profiles and their follower counts;
- the ownership guard on profile and avatar updates;
- the validation in front of new posts and comments;
- registration, login and `/auth/me`;
- the bearer-token gate.

**Client side.** The model covers:
- the home feed's paginator;
- the optimistic like button;
- the profile screen's follow button and refresh;
- the comment thread;
- the new-post and edit-profile forms, including how they derive an upload's file name and MIME type;
- the persisted dark-mode switch.

**How the model is built.**
- The store is a `Database` object whose tables are sequences of rows. `Database.Valid` holds the uniqueness invariants: ids, emails, and (user, post) and (follower, following) pairs; no follow row has the same user on both ends.
- Each route that writes a table is a pure function from the old table to the answer and the new table. A method on the `Database` carries it out, and its postcondition ties the new state to that function.
- Each client screen is a class whose fields are the screen's state. Each handler is a method whose postcondition is a pure transition function on a state datatype.
- The lemmas about these functions state what the code promises. Some connect client and server:
  - The like button agrees with the like table exactly when the user had not liked the post before.
  - A follow toggle keeps the button in step with the follow table.
  - The client's comment check accepts exactly what the server accepts.
  - Paging through the public feed shows a prefix of the server's ordering.

**External parts.**
- Password hashing and JWT signing and verification are oracles, the function fields of `Common.Crypto`.
- Network replies, stored tokens and the store's clock are parameters.
- The order the store returns for `orderBy: { createdAt: "desc" }` is the parameter `arranged`. Properties about the feed assume `IsArrangement(arranged, posts)`: `arranged` holds the rows of the post table `posts`, newest first. No tie-break between equal timestamps is added.

## Model

| member | source | states |
|---|---|---|
| AuthMiddleware.BearerToken | social-feed-backend/middleware/authMiddleware.js:8-12 | a token exists iff the header is present and starts with "Bearer " (case-sensitive); it is the space-free text after the prefix up to the next space |
| AuthMiddleware.BearerTokenOfSent | social-feed-backend/middleware/authMiddleware.js:12 | a space-free token sent as "Bearer " + token is read back unchanged |
| AuthMiddleware.Gate | social-feed-backend/middleware/authMiddleware.js:8-19 | 401 "No token provided" iff there is no bearer token; 401 "Invalid or expired token" iff the token does not verify; otherwise the decoded claims are admitted |
| AuthMiddleware.Exchange.constructor | social-feed-backend/middleware/authMiddleware.js:4-6 | a request starts with no `req.user`, no response and no `next` call |
| AuthMiddleware.Authenticate | social-feed-backend/middleware/authMiddleware.js:4-21 | on admission, `req.user` is the decoded payload, `next` is called exactly once and no response is sent; on rejection, the 401 answer is sent, `next` is not called and `req.user` is untouched |
| AuthRoutes.Register | social-feed-backend/routes/authRoutes.js:19-53 | 400 "Missing required fields" iff username, email or password is missing or empty; 400 "Email already registered" iff the email is taken; a failure leaves the table unchanged; success iff all fields are present and no user has the email; success appends one row holding `hash(password)` and answers 201 with the summary (no password) and `sign(newId, now)` |
| AuthRoutes.RegisterKeepsValid | social-feed-backend/routes/authRoutes.js:25-33 | registration keeps user ids and emails unique, and the stored password is the hash of the one sent |
| AuthRoutes.RegisterRoute | social-feed-backend/routes/authRoutes.js:17-58 | the route on the database keeps it valid and leaves the user table and answer that `Register` gives |
| AuthRoutes.Login | social-feed-backend/routes/authRoutes.js:66-95 | 400 iff email or password is missing; success iff the email is registered and `compare(password, storedHash)` holds, with a 200 answer carrying that user's summary and `sign(user.id, now)`; every other failure is 401 "Invalid credentials" |
| AuthRoutes.LoginHidesWhichCheckFailed | social-feed-backend/routes/authRoutes.js:72-76 | an unknown email and a wrong password get the identical answer 401 "Invalid credentials" |
| AuthRoutes.RegisterThenLogin | social-feed-backend/routes/authRoutes.js:66-95 | after a successful registration, logging in later with the same credentials succeeds with the same user (the new id) and a token signed for that user at the login time (given that `compare` accepts the oracle's own hashes) |
| AuthRoutes.Me | social-feed-backend/routes/authRoutes.js:108-116 | 404 iff no user has the token's `userId`; otherwise the summary of that user |
| AuthRoutes.MeRoute | social-feed-backend/routes/authRoutes.js:106-116 | the middleware's rejection comes first; an admitted request gets the `/me` lookup for its claims |
| AuthRoutes.RegisterThenMe | social-feed-backend/routes/authRoutes.js:106-116 | the token a registration returns, sent back as a bearer header, reaches the new user's record |
| UserRoutes.IsFollowing | social-feed-backend/routes/userRoutes.js:157-159 | true iff (caller, target) is an edge of the follow table |
| UserRoutes.EdgesAppend | social-feed-backend/routes/userRoutes.js:120 | appending a row adds exactly its pair to the edge set |
| UserRoutes.Follow | social-feed-backend/routes/userRoutes.js:110-122 | 400 iff self-follow or the edge already exists, with nothing changed, the self-follow message taking precedence over "Already following this user"; otherwise 200 "Followed successfully" and the edge set gains exactly (follower, following) |
| UserRoutes.Unfollow | social-feed-backend/routes/userRoutes.js:134-142 | 400 iff the edge is absent, with nothing changed; the id counter never moves |
| UserRoutes.UnfollowRemovesOnlyThatEdge | social-feed-backend/routes/userRoutes.js:137-140 | a successful unfollow removes exactly that edge, and every row for another pair stays |
| UserRoutes.FollowKeepsValid | social-feed-backend/routes/userRoutes.js:113-120 | follow keeps row ids and edges unique and never records a self-follow |
| UserRoutes.UnfollowKeepsValid | social-feed-backend/routes/userRoutes.js:137-140 | unfollow keeps row ids and (follower, following) pairs unique, and adds no self-follow |
| UserRoutes.FollowThenUnfollowRestores | social-feed-backend/routes/userRoutes.js:134-142 | a successful follow followed by an unfollow of the same user gives back the original table |
| UserRoutes.FollowerCountIsDistinctFollowers | social-feed-backend/routes/userRoutes.js:33 | while edges are unique, the follower count equals the number of distinct followers |
| UserRoutes.FollowCountsMove | social-feed-backend/routes/userRoutes.js:110-122 | a successful follow raises the target's follower count and the follower's following count by one; nobody else's counts move |
| UserRoutes.UnfollowLowersFollowerCount | social-feed-backend/routes/userRoutes.js:134-142 | a successful unfollow lowers the target's follower count by one |
| UserRoutes.GetProfile | social-feed-backend/routes/userRoutes.js:16-36 | 404 iff no user has the id; otherwise the profile is that user's id, username, email, avatar, bio and creation time (no password), with `followers` = edges into the user and `following` = edges out of the user |
| UserRoutes.WithProfile | social-feed-backend/routes/userRoutes.js:54-58 | a profile update leaves id, email, password, avatar and creation time alone |
| UserRoutes.WithAvatar | social-feed-backend/routes/userRoutes.js:90-94 | an avatar update changes only `avatarUrl` |
| UserRoutes.ReplaceUser | social-feed-backend/routes/userRoutes.js:56-93 | `update({ where: { id } })` replaces the row with that id and keeps every other row in place |
| UserRoutes.ReplaceUserKeepsValid | social-feed-backend/routes/userRoutes.js:56-93 | replacing a row by one with the same id and email keeps ids and emails unique |
| UserRoutes.UpdateProfile | social-feed-backend/routes/userRoutes.js:46-67 | 403 iff the caller is not the path's user; 500 iff that user does not exist; a failure leaves the table unchanged; success replaces that user's row with one whose username and bio are the ones sent (or kept when absent), and answers with it |
| UserRoutes.AvatarUpdate | social-feed-backend/routes/userRoutes.js:82-103 | 403 iff the caller is not the path's user; 500 iff no file came or the user does not exist; a failure leaves the table unchanged; success replaces the row with one whose `avatarUrl` is the file's path, and the answer omits `bio` |
| UserRoutes.UpdatesKeepValid | social-feed-backend/routes/userRoutes.js:56-94 | both updates keep user ids and emails unique |
| UserRoutes.UpdateProfileRoute | social-feed-backend/routes/userRoutes.js:46-67 | the route on the database keeps it valid and gives the answer and table `UpdateProfile` gives |
| UserRoutes.AvatarRoute | social-feed-backend/routes/userRoutes.js:82-103 | the route on the database keeps it valid and gives the answer and table `AvatarUpdate` gives |
| UserRoutes.FollowRoute | social-feed-backend/routes/userRoutes.js:108-127 | the route on the database answers and leaves the table as `Follow` does, and keeps it valid (which includes having no self-follow) |
| UserRoutes.UnfollowRoute | social-feed-backend/routes/userRoutes.js:132-147 | the route on the database answers and leaves the table as `Unfollow` does, and keeps it valid |
| PostRoutes.PageLimit | social-feed-backend/routes/postRoutes.js:58 | the limit is `min(50, requested)` with 10 as the default; there is no lower bound |
| PostRoutes.Window | social-feed-backend/routes/postRoutes.js:92-93 | skip/take gives `max(0, min(take, n - skip))` items, the i-th being item `skip + i` |
| PostRoutes.Entries | social-feed-backend/routes/postRoutes.js:94-97 | each post comes with the number of its likes and of its comments, in order |
| PostRoutes.GetFeed | social-feed-backend/routes/postRoutes.js:56-123 | every page echoes the effective limit and offset; a verified personalised viewer gets a page iff they follow nobody or limit and offset are both non-negative; the public feed gives a page iff limit and offset are both non-negative |
| PostRoutes.FeedAuthErrors | social-feed-backend/routes/postRoutes.js:60-118 | 401 iff personalised and the header is missing or lacks "Bearer "; 403 iff personalised with a "Bearer " header and either the token does not verify or the viewer follows someone and limit or offset is negative (the store's refusal caught by the inner `catch`); the public feed never answers 401 or 403 and ignores the header |
| PostRoutes.NoFolloweesEmptyPage | social-feed-backend/routes/postRoutes.js:79-87 | a personalised viewer who follows nobody gets an empty page, whatever the posts and paging values |
| PostRoutes.FeedPageContents | social-feed-backend/routes/postRoutes.js:58-118 | when the store's order holds the post table's rows, a page holds at most `limit` (at most 50) rows of that table with their counts, and a personalised page only posts by followed authors |
| PostRoutes.FeedIsWindow | social-feed-backend/routes/postRoutes.js:89-111 | a page is the candidate list (all posts, or those of followed authors) with `offset` skipped and at most `limit` taken, in the store's order |
| PostRoutes.FilterNewestFirst | social-feed-backend/routes/postRoutes.js:89-91 | filtering a newest-first list keeps it newest first |
| PostRoutes.FeedNewestFirst | social-feed-backend/routes/postRoutes.js:89-111 | when the store's order is the post table newest first, every page is newest first |
| PostRoutes.FindLike | social-feed-backend/routes/postRoutes.js:155-157 | no row is found iff the (user, post) pair is not liked |
| PostRoutes.ToggleLike | social-feed-backend/routes/postRoutes.js:155-165 | `liked` iff the pair was absent; then exactly one row is appended and the counter moves, and otherwise a row of that user and post is deleted by id and the counter stays; "Post liked" or "Post unliked" accordingly |
| PostRoutes.LikePairsAppend | social-feed-backend/routes/postRoutes.js:164 | appending a like adds exactly its pair |
| PostRoutes.ToggleLikeFlips | social-feed-backend/routes/postRoutes.js:159-165 | the toggle adds or removes exactly the one pair, and rows for other pairs stay |
| PostRoutes.ToggleLikeKeepsValid | social-feed-backend/routes/postRoutes.js:159-165 | the toggle keeps ids unique and no pair ever appears twice |
| PostRoutes.ToggleLikeTwice | social-feed-backend/routes/postRoutes.js:159-165 | two toggles answer opposite values and restore the liked pairs, and restore the table row for row when the first one created the like |
| PostRoutes.LikeRoute | social-feed-backend/routes/postRoutes.js:150-170 | the route on the database answers and leaves the table as `ToggleLike` does, and keeps it valid |
| PostRoutes.CommentTextOkIffNotBlank | social-feed-backend/routes/postRoutes.js:203 | the comment check accepts exactly present texts with a character that is not white space |
| PostRoutes.AddComment | social-feed-backend/routes/postRoutes.js:197-219 | 400 iff the text is missing or blank, with no comment created and the counter unchanged; otherwise 201 with exactly one comment appended, holding the text, the caller and the post, and answered back |
| PostRoutes.AddCommentKeepsValid | social-feed-backend/routes/postRoutes.js:207-209 | adding a comment keeps comment ids unique and below the counter |
| PostRoutes.AddCommentRoute | social-feed-backend/routes/postRoutes.js:197-219 | the route on the database keeps it valid and gives the answer and table `AddComment` gives |
| PostRoutes.CreatePost | social-feed-backend/routes/postRoutes.js:27-50 | 400 iff there is no uploaded file path, with no post created and the counter unchanged; otherwise 201 with exactly one post appended, holding that path, the caption and the caller, and answered back |
| PostRoutes.CreatePostKeepsValid | social-feed-backend/routes/postRoutes.js:38-43 | creating a post keeps post ids unique and below the counter |
| PostRoutes.CreatePostRoute | social-feed-backend/routes/postRoutes.js:27-50 | the route on the database keeps it valid and gives the answer and table `CreatePost` gives |
| Text.Split | social-feed-frontend/src/screens/CreatePostScreen.js:55 | `split` always yields at least one part |
| Text.TrimEmptyIffBlank | social-feed-backend/routes/postRoutes.js:203 | `trim()` yields "" iff every character is white space |
| UploadMeta.FileType | social-feed-frontend/src/screens/CreatePostScreen.js:55-56 | the extension has no "."; it is the whole URI when the URI has no ".", else the URI ends in "." + extension |
| UploadMeta.MimeType | social-feed-frontend/src/screens/CreatePostScreen.js:60 | "jpg" maps to "image/jpeg"; every other extension `e` maps to "image/" + `e` |
| UploadMeta.FileNameKeepsType | social-feed-frontend/src/screens/CreatePostScreen.js:55-59 | the extension read back from "base." + extension is the extension |
| UploadMeta.MimeTypeDistinguishes | social-feed-frontend/src/screens/EditProfileScreen.js:81 | two extensions share a MIME type only when equal or "jpg"/"jpeg" |
| HomeScreen.Begin | social-feed-frontend/src/screens/HomeScreen.js:27-37 | a load-more while loading sends nothing and clears both spinners; a refresh requests offset 0, sets the refreshing flag, resets offset and `hasMore` and changes nothing else; a load-more requests the current offset and changes nothing but the loading flag; posts do not change |
| HomeScreen.Complete | social-feed-frontend/src/screens/HomeScreen.js:40-56 | both spinners end off; a failure keeps posts, offset and `hasMore`; success replaces (refresh) or extends (load-more) the posts, advances the offset by the page size, and keeps `hasMore` only for a full page |
| HomeScreen.FetchKeepsSynced | social-feed-frontend/src/screens/HomeScreen.js:28-56 | after every successful fetch the offset equals the number of posts; a failed refresh leaves offset 0 with the old posts |
| HomeScreen.ShortPageStopsPaging | social-feed-frontend/src/screens/HomeScreen.js:28-50 | a short page turns `hasMore` off after a load-more and after a refresh, and a refresh's offset is then the page's length |
| HomeScreen.LoadMoreKeepsPagingOff | social-feed-frontend/src/screens/HomeScreen.js:28-50 | a load-more never turns `hasMore` back on, whatever the reply |
| HomeScreen.EndReached | social-feed-frontend/src/screens/HomeScreen.js:66-69 | nothing happens without more pages or while loading; otherwise a load-more at the current offset that sets the loading flag and changes nothing else |
| HomeScreen.EndReachedOnce | social-feed-frontend/src/screens/HomeScreen.js:66-69 | a second end-of-list event before the reply arrives sends nothing and changes nothing |
| HomeScreen.LoadMoreExtendsPrefix | social-feed-frontend/src/screens/HomeScreen.js:36-47 | if the screen shows the first `offset` posts of the public feed, a load-more shows the first `offset + page` posts |
| HomeScreen.EntriesAppend | social-feed-frontend/src/screens/HomeScreen.js:46 | entries of concatenated post lists are the concatenation |
| HomeScreen.Feed.constructor | social-feed-frontend/src/screens/HomeScreen.js:18-22 | no posts, offset 0, no spinners, `hasMore` |
| HomeScreen.Feed.BeginFetch | social-feed-frontend/src/screens/HomeScreen.js:26-37 | state and request are as `Begin` says |
| HomeScreen.Feed.CompleteFetch | social-feed-frontend/src/screens/HomeScreen.js:39-56 | the new state is as `Complete` says |
| HomeScreen.Feed.HandleRefresh | social-feed-frontend/src/screens/HomeScreen.js:65 | a refresh always requests offset 0 |
| HomeScreen.Feed.HandleEndReached | social-feed-frontend/src/screens/HomeScreen.js:66-69 | state and request are as `EndReached` says |
| PostCard.InitialLike | social-feed-frontend/src/components/PostCard.js:12-13 | not liked, and the counter is the post's like count or 0 |
| PostCard.Tap | social-feed-frontend/src/components/PostCard.js:21-23 | a tap flips `liked` and moves the counter by +1 to liked, -1 otherwise |
| PostCard.TapTwiceRestores | social-feed-frontend/src/components/PostCard.js:21-23 | two taps restore flag and counter |
| PostCard.TapsKeepCount | social-feed-frontend/src/components/PostCard.js:12-23 | after n taps `liked` iff n is odd, and the counter is the initial one plus 1 while liked |
| PostCard.ServerTogglesParity | social-feed-backend/routes/postRoutes.js:159-165 | after n like requests the server holds the like iff it held it initially xor n is odd, and the table stays valid |
| PostCard.CardAgreesWithServer | social-feed-frontend/src/components/PostCard.js:12-27 | the card's `liked` matches the server after any taps iff the user had not liked the post before |
| PostCard.LikeButton.constructor | social-feed-frontend/src/components/PostCard.js:12-13 | the button starts in `InitialLike` and keeps its invariant |
| PostCard.LikeButton.HandleLike | social-feed-frontend/src/components/PostCard.js:15-31 | with no token nothing changes and nothing is sent; otherwise one tap, never rolled back, and `likeCount == initial + (liked ? 1 : 0)` holds |
| ProfileScreen.Stats | social-feed-frontend/src/screens/ProfileScreen.js:177-201 | the post stat is the number of posts; each count shows the user's value when present and 0 when missing |
| ProfileScreen.AfterLoadUserPosts | social-feed-frontend/src/screens/ProfileScreen.js:53-60 | success sets the posts to the reply's list or []; failure changes nothing |
| ProfileScreen.AfterCheckFollow | social-feed-frontend/src/screens/ProfileScreen.js:63-74 | without a user or on failure nothing changes; otherwise `isFollowing` becomes the server's answer |
| ProfileScreen.AfterToggleFollow | social-feed-frontend/src/screens/ProfileScreen.js:77-88 | without a user no call; otherwise unfollow iff following; `isFollowing` flips only on success; nothing else changes |
| ProfileScreen.ToggleKeepsAgreement | social-feed-frontend/src/screens/ProfileScreen.js:80-87 | if the button agrees with the follow table before a toggle, it agrees after the server has handled the call |
| ProfileScreen.CheckFollowAgrees | social-feed-frontend/src/screens/ProfileScreen.js:66-70 | after a successful check, `isFollowing` iff the edge is in the table |
| ProfileScreen.AfterLoadMyProfile | social-feed-frontend/src/screens/ProfileScreen.js:36-50 | the spinner always ends off; without a token or on failure nothing else changes; otherwise the `/auth/me` user, then that user's posts |
| ProfileScreen.AfterRefresh | social-feed-frontend/src/screens/ProfileScreen.js:95-117 | the edited user wins, then the user param, then the own profile; the spinner ends off in every case; an edited user loads its posts, a visited user runs the follow check and then loads its posts (the button takes the server's answer, the grid the reply's list), and the own profile is `AfterLoadMyProfile` |
| ProfileScreen.VisitShowsServerCounts | social-feed-frontend/src/screens/ProfileScreen.js:106-113 | a profile opened from the server's GET /users/:id shows the server's follower and following counts, and the button says whether the viewer follows that user |
| ProfileScreen.OwnProfileShowsZeroCounts | social-feed-frontend/src/screens/ProfileScreen.js:36-50 | the own profile shows 0 followers and 0 following, since `/auth/me` returns no counts |
| ProfileScreen.ProfileView.constructor | social-feed-frontend/src/screens/ProfileScreen.js:22-25 | the user param, not following, spinner on, no posts |
| ProfileScreen.ProfileView.LoadUserPosts | social-feed-frontend/src/screens/ProfileScreen.js:53-60 | as `AfterLoadUserPosts` |
| ProfileScreen.ProfileView.CheckFollow | social-feed-frontend/src/screens/ProfileScreen.js:63-74 | as `AfterCheckFollow` |
| ProfileScreen.ProfileView.ToggleFollow | social-feed-frontend/src/screens/ProfileScreen.js:77-88 | as `AfterToggleFollow`, returning the call made |
| ProfileScreen.ProfileView.LoadMyProfile | social-feed-frontend/src/screens/ProfileScreen.js:36-50 | as `AfterLoadMyProfile` |
| ProfileScreen.ProfileView.RefreshProfile | social-feed-frontend/src/screens/ProfileScreen.js:95-117 | as `AfterRefresh`, returning which case ran |
| PostDetailsScreen.AfterLoadComments | social-feed-frontend/src/screens/PostDetailsScreen.js:26-33 | success sets the list to the server's list or []; failure changes nothing; the text is kept |
| PostDetailsScreen.AfterAddComment | social-feed-frontend/src/screens/PostDetailsScreen.js:35-55 | sent iff the trimmed text is non-empty; unsent or failed leaves everything unchanged; success appends the comment after the earlier ones, in order, and clears the text |
| PostDetailsScreen.ClientCheckMatchesServer | social-feed-frontend/src/screens/PostDetailsScreen.js:36 | the client sends exactly the texts the server's comment check accepts |
| PostDetailsScreen.CommentThread.constructor | social-feed-frontend/src/screens/PostDetailsScreen.js:22-23 | no comments, empty text |
| PostDetailsScreen.CommentThread.EditText | social-feed-frontend/src/screens/PostDetailsScreen.js:23 | only the text changes |
| PostDetailsScreen.CommentThread.LoadComments | social-feed-frontend/src/screens/PostDetailsScreen.js:26-33 | as `AfterLoadComments` |
| PostDetailsScreen.CommentThread.HandleAddComment | social-feed-frontend/src/screens/PostDetailsScreen.js:35-55 | as `AfterAddComment`, returning whether a request was sent |
| CreatePostScreen.PostFormFor | social-feed-frontend/src/screens/CreatePostScreen.js:54-62 | the form carries the URI, the caption, "post." + extension and the extension's MIME type |
| CreatePostScreen.AfterUpload | social-feed-frontend/src/screens/CreatePostScreen.js:46-81 | a request is sent iff an image is picked and a token is stored; no image changes nothing; no token leaves the spinner on; success clears image and caption; failure keeps them; the spinner ends off either way |
| CreatePostScreen.UploadSpinner | social-feed-frontend/src/screens/CreatePostScreen.js:46-81 | the file name of a sent request ends in the image's extension, and the spinner stays on only through the no-token path |
| CreatePostScreen.PostComposer.constructor | social-feed-frontend/src/screens/CreatePostScreen.js:18-20 | no image, empty caption, no spinner |
| CreatePostScreen.PostComposer.Pick | social-feed-frontend/src/screens/CreatePostScreen.js:39 | only the image changes |
| CreatePostScreen.PostComposer.EditCaption | social-feed-frontend/src/screens/CreatePostScreen.js:19 | only the caption changes |
| CreatePostScreen.PostComposer.HandleUpload | social-feed-frontend/src/screens/CreatePostScreen.js:46-81 | as `AfterUpload`, returning the request sent |
| EditProfileScreen.InitialEditor | social-feed-frontend/src/screens/EditProfileScreen.js:20-24 | username and bio are the route user's, or "" when absent or without a route user; the avatar is the route user's when set, else null; nothing is uploading |
| EditProfileScreen.NeedsUploadIffNotHttp | social-feed-frontend/src/screens/EditProfileScreen.js:67-72 | the avatar is uploaded iff it is set and does not start with "http" |
| EditProfileScreen.AvatarFormFor | social-feed-frontend/src/screens/EditProfileScreen.js:73-82 | the form carries the URI, the name "avatar." + the URI's extension (whose extension reads back as the URI's) and that extension's MIME type |
| EditProfileScreen.AfterSave | social-feed-frontend/src/screens/EditProfileScreen.js:50-112 | no token sends nothing; the PUT is sent iff there is a token and a route user, and always comes first; the avatar is posted iff the PUT succeeded and the avatar needs an upload; the result is the upload's user when there was one, else the PUT's; the spinner ends off |
| EditProfileScreen.AvatarSaveDropsBio | social-feed-backend/routes/userRoutes.js:92-98 | after a save that uploads an avatar, the user handed on is the avatar route's answer: the new avatar and no bio |
| EditProfileScreen.ProfileEditor.constructor | social-feed-frontend/src/screens/EditProfileScreen.js:20-24 | the state is `InitialEditor` |
| EditProfileScreen.ProfileEditor.Pick | social-feed-frontend/src/screens/EditProfileScreen.js:42 | only the avatar changes |
| EditProfileScreen.ProfileEditor.EditFields | social-feed-frontend/src/screens/EditProfileScreen.js:21-22 | only username and bio change |
| EditProfileScreen.ProfileEditor.HandleSaveProfile | social-feed-frontend/src/screens/EditProfileScreen.js:50-112 | as `AfterSave`, returning the requests and the resulting user |
| ThemeContext.Parse | social-feed-frontend/src/context/ThemeContext.js:11-12 | nothing stored keeps the mode; otherwise dark iff the stored string is "true" |
| ThemeContext.ParseSerialize | social-feed-frontend/src/context/ThemeContext.js:12-19 | the string written reads back as the same mode |
| ThemeContext.Toggle | social-feed-frontend/src/context/ThemeContext.js:16-20 | the mode is negated and the new mode is stored |
| ThemeContext.ToggleRoundTrips | social-feed-frontend/src/context/ThemeContext.js:11-20 | a reload after a toggle gives the toggled mode; two toggles restore the mode, and the stored string too when it matched |
| ThemeContext.ThemeProvider.constructor | social-feed-frontend/src/context/ThemeContext.js:7 | dark mode starts off |
| ThemeContext.ThemeProvider.Load | social-feed-frontend/src/context/ThemeContext.js:9-14 | the mode becomes `Parse` of the stored value; storage is untouched |
| ThemeContext.ThemeProvider.ToggleDarkMode | social-feed-frontend/src/context/ThemeContext.js:16-20 | as `Toggle` |

## Left out

- Prisma's negative `take` (backward paging) and negative `skip`: the model treats both as a store failure. That gives 500 in the public feed and 403 in the personalised feed, whose inner `catch` answers every error with 403.
- `parseInt` on query and path values: values arrive already parsed. NaN and trailing characters are not modelled.
- The `include`/`select` joins (the author summary on posts and comments): the entries keep the post row and its two counts only.
- Foreign keys and cascades: likes and comments on a missing post, and follows of a missing user, are not rejected by the model, just as the routes do not check them.
- GET /posts/:id, GET /posts/:id/comments and GET /posts/user/:id are plain lookups. They are not modelled on the server. The screens take their replies as inputs.
- Store failures other than a missing row (the 500 paths) are not modelled. Neither is a non-string comment `text`, which throws in `trim` and answers 500.
- bcrypt and JWT, including the 7-day `exp` claim, are oracles. They are the function fields of `Common.Crypto`. `sign` takes the issue time (`iat`) as well as the user id, so tokens for one user differ over time.
- The Cloudinary and multer upload is I/O. The uploaded file's URL is the optional parameter `filePath`.
- The clock is the parameter `now`: the store's for `createdAt`, the server's for a token's `iat`.
- Concurrency is out of scope: the read-then-write races in the like toggle and in follow, React's batching of state updates, and overlapping requests. Each handler is one atomic step, split only at the feed's `await`.
- ProfileScreen.AfterRefresh: the check in the "visited" case uses the user param directly. The source's `checkFollow` reads `user` from the render it was created in, and also uses the `isActive` flag; neither is modelled.
- PostDetailsScreen.AfterAddComment: a missing token is not checked on the client. The request is then sent with "Bearer null", which the server rejects; this is the failure reply.
- Alerts, navigation, rendering, styles, image sizes and date formatting are not modelled.
- RegisterScreen, LoginScreen, SettingsScreen, the navigators and App.js are not modelled. Each is one emptiness check or navigation wiring.
- AsyncStorage and the `api` calls are I/O. Stored tokens and replies are parameters.
- PostCard.LikeButton.HandleLike: the request's outcome is not an input, because the optimistic update is kept whether the request succeeds or fails.
- Text.TrimEmptyIffBlank: `IsSpace` is JavaScript's white-space and line-terminator set as written out in `Text`. No other Unicode property is modelled.
