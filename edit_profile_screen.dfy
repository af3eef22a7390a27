/** The edit-profile form: username, bio and avatar fields, and `handleSaveProfile`, which
    sends the username/bio update, then the avatar when a new image was picked, and hands the
    resulting user to the profile screen. */
module EditProfileScreen {
  import opened Common
  import opened Text
  import opened UploadMeta
  import Store
  import UserRoutes

  type UserView = UserRoutes.UserView

  /** The `user` route param the form is opened with. */
  datatype RouteUser = RouteUser(id: int, username: Option<string>, bio: Option<string>, avatarUrl: Option<string>)

  datatype EditorState = EditorState(username: string, bio: string, avatar: Option<string>, uploading: bool)

  /** `routeUser?.username || ""`, `routeUser?.bio || ""`, `routeUser?.avatarUrl || null`. */
  function InitialEditor(routeUser: Option<RouteUser>): (s: EditorState)
    ensures !s.uploading
    ensures routeUser.None? ==> s == EditorState("", "", None, false)
    ensures routeUser.Some? ==>
      && s.username == routeUser.value.username.GetOr("")
      && s.bio == routeUser.value.bio.GetOr("")
    ensures Present(s.avatar) <==> routeUser.Some? && Present(routeUser.value.avatarUrl)
    ensures Present(s.avatar) ==> s.avatar == routeUser.value.avatarUrl
    ensures !Present(s.avatar) ==> s.avatar.None?
  {
    match routeUser
    case None => EditorState("", "", None, false)
    case Some(u) =>
      EditorState(
        if Present(u.username) then u.username.value else "",
        if Present(u.bio) then u.bio.value else "",
        if Present(u.avatarUrl) then u.avatarUrl else None,
        false)
  }

  /** The avatar test as written: set, and starting with "file" or "content" or not with "http". */
  predicate NeedsUpload(avatar: Option<string>) {
    Present(avatar) &&
      (StartsWith(avatar.value, "file") || StartsWith(avatar.value, "content") || !StartsWith(avatar.value, "http"))
  }

  /** The first two disjuncts add nothing: an avatar is uploaded exactly when it is set and is
      not already an http(s) URL. */
  lemma NeedsUploadIffNotHttp(avatar: Option<string>)
    ensures NeedsUpload(avatar) <==> Present(avatar) && !StartsWith(avatar.value, "http")
  {
    if Present(avatar) && StartsWith(avatar.value, "http") {
      var a := avatar.value;
      assert a[0] == 'h';
      assert !StartsWith(a, "file") by { if |a| >= 4 { assert a[..4][0] == 'h'; } }
      assert !StartsWith(a, "content") by { if |a| >= 7 { assert a[..7][0] == 'h'; } }
    }
  }

  /** The `avatar` part of the upload: uri, "avatar.<ext>" and the MIME type of the extension. */
  datatype AvatarForm = AvatarForm(uri: string, name: string, mimeType: string)

  function AvatarFormFor(uri: string): (f: AvatarForm)
    ensures f.uri == uri && FileType(f.name) == FileType(uri) && f.mimeType == MimeType(FileType(uri))
    ensures f.name == FileName("avatar", FileType(uri))
  {
    var fileType := FileType(uri);
    FileNameKeepsType("avatar", uri);
    AvatarForm(uri, FileName("avatar", fileType), MimeType(fileType))
  }

  /** The requests `handleSaveProfile` sends, in order. */
  datatype Request =
    | PutProfile(userId: int, username: string, bio: string)
    | PostAvatar(userId: int, form: AvatarForm)

  /** The requests sent, the user handed to the profile screen (none when the save did not
      finish), and the form's state afterwards. */
  datatype SaveStep = SaveStep(requests: seq<Request>, updatedUser: Option<UserView>, state: EditorState)

  /** `handleSaveProfile` with the stored `token` and the replies of the update and of the upload. */
  function AfterSave(
    s: EditorState, routeUser: Option<RouteUser>, token: Option<string>,
    put: Reply<UserView>, upload: Reply<UserView>): (r: SaveStep)
    ensures !Present(token) ==> r == SaveStep([], None, s)
    ensures Present(token) ==> !r.state.uploading && r.state == s.(uploading := false)
    ensures r.requests != [] <==> Present(token) && routeUser.Some?
    ensures r.requests != [] ==>
      && routeUser.Some? && Present(token)
      && r.requests[0] == PutProfile(routeUser.value.id, s.username, s.bio)
    ensures |r.requests| == 2 <==> Present(token) && routeUser.Some? && put.Succeeded? && NeedsUpload(s.avatar)
    ensures |r.requests| == 2 ==> r.requests[1] == PostAvatar(routeUser.value.id, AvatarFormFor(s.avatar.value))
    ensures |r.requests| <= 2
    ensures r.updatedUser.Some? <==> put.Succeeded? && r.requests != [] && (|r.requests| == 2 ==> upload.Succeeded?)
    ensures r.updatedUser.Some? ==> r.updatedUser.value == (if |r.requests| == 2 then upload.body else put.body)
  {
    if !Present(token) then SaveStep([], None, s)
    else
      var done := s.(uploading := false);
      match routeUser
      case None => SaveStep([], None, done)
      case Some(u) =>
        var update := PutProfile(u.id, s.username, s.bio);
        match put
        case Failed => SaveStep([update], None, done)
        case Succeeded(user) =>
          if !NeedsUpload(s.avatar) then SaveStep([update], Some(user), done)
          else
            var sent := [update, PostAvatar(u.id, AvatarFormFor(s.avatar.value))];
            match upload
            case Failed => SaveStep(sent, None, done)
            case Succeeded(uploaded) => SaveStep(sent, Some(uploaded), done)
  }

  /** The avatar route answers without `bio`, so after a save that uploaded an avatar the profile
      screen is handed a user without a bio, whatever the bio now is: `callerId` is the token's
      user and `filePath` the URL the upload was stored at. */
  lemma AvatarSaveDropsBio(
    s: EditorState, routeUser: Option<RouteUser>, token: Option<string>, put: Reply<UserView>,
    users: seq<Store.UserRow>, callerId: int, filePath: Option<string>)
    requires Present(token) && routeUser.Some? && put.Succeeded? && NeedsUpload(s.avatar)
    requires UserRoutes.AvatarUpdate(users, callerId, routeUser.value.id, filePath).reply.Updated?
    ensures var answer := UserRoutes.AvatarUpdate(users, callerId, routeUser.value.id, filePath).reply.user;
      var r := AfterSave(s, routeUser, token, put, Succeeded(answer));
      && r.updatedUser == Some(answer)
      && r.updatedUser.value.bio.None? && r.updatedUser.value.avatarUrl == filePath
  {
  }

  /** The form, changed in place. */
  class ProfileEditor {
    const routeUser: Option<RouteUser>
    var username: string
    var bio: string
    var avatar: Option<string>
    var uploading: bool

    function State(): EditorState
      reads this
    {
      EditorState(username, bio, avatar, uploading)
    }

    constructor (routeUser: Option<RouteUser>)
      ensures this.routeUser == routeUser && State() == InitialEditor(routeUser)
    {
      this.routeUser := routeUser;
      var s := InitialEditor(routeUser);
      username, bio, avatar, uploading := s.username, s.bio, s.avatar, false;
    }

    /** `setAvatar` after the picker returned an asset. */
    method Pick(uri: string)
      modifies this
      ensures State() == old(State()).(avatar := Some(uri))
    {
      avatar := Some(uri);
    }

    /** `setUsername` and `setBio` from the text inputs. */
    method EditFields(newUsername: string, newBio: string)
      modifies this
      ensures State() == old(State()).(username := newUsername, bio := newBio)
    {
      username, bio := newUsername, newBio;
    }

    method HandleSaveProfile(token: Option<string>, put: Reply<UserView>, upload: Reply<UserView>)
      returns (requests: seq<Request>, updatedUser: Option<UserView>)
      modifies this
      ensures var r := AfterSave(old(State()), routeUser, token, put, upload);
        State() == r.state && requests == r.requests && updatedUser == r.updatedUser
    {
      requests, updatedUser := [], None;
      if !Present(token) {
        return;
      }
      uploading := true;
      if routeUser.None? {
        uploading := false;
        return;
      }
      var id := routeUser.value.id;
      requests := [PutProfile(id, username, bio)];
      if put.Failed? {
        uploading := false;
        return;
      }
      var user := put.body;
      if NeedsUpload(avatar) {
        requests := requests + [PostAvatar(id, AvatarFormFor(avatar.value))];
        if upload.Failed? {
          uploading := false;
          return;
        }
        user := upload.body;
      }
      uploading := false;
      updatedUser := Some(user);
    }
  }
}
