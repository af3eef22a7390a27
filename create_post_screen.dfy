/** The new-post form: the picked image's URI, the caption and the upload spinner, and the
    multipart request `handleUpload` sends. */
module CreatePostScreen {
  import opened Common
  import opened Text
  import opened UploadMeta

  datatype ComposerState = ComposerState(image: Option<string>, caption: string, uploading: bool)

  /** No image, empty caption, no spinner. */
  const InitialComposer: ComposerState := ComposerState(None, "", false)

  /** The multipart body of POST /posts: the `image` part (uri, name, type) and the caption. */
  datatype PostForm = PostForm(uri: string, name: string, mimeType: string, caption: string)

  /** The form for an image URI: name "post.<ext>" and the MIME type of the extension after the last ".". */
  function PostFormFor(image: string, caption: string): (f: PostForm)
    ensures f.uri == image && f.caption == caption
    ensures f.name == FileName("post", FileType(image)) && f.mimeType == MimeType(FileType(image))
  {
    var fileType := FileType(image);
    PostForm(image, FileName("post", fileType), MimeType(fileType), caption)
  }

  /** What a tap on "Post" did: the request sent, if any, and the form's state afterwards. */
  datatype UploadStep = UploadStep(request: Option<PostForm>, state: ComposerState)

  /** `handleUpload` with the stored `token` and the request's success `ok`. Without an image
      nothing happens; without a token the spinner is switched on and stays on. */
  function AfterUpload(s: ComposerState, token: Option<string>, ok: bool): (r: UploadStep)
    ensures r.request.Some? <==> Present(s.image) && Present(token)
    ensures !Present(s.image) ==> r.state == s
    ensures Present(s.image) && !Present(token) ==> r.state == s.(uploading := true)
    ensures r.request.Some? ==> r.request.value == PostFormFor(s.image.value, s.caption)
    ensures r.request.Some? && ok ==> r.state == ComposerState(None, "", false)
    ensures r.request.Some? && !ok ==> r.state == s.(uploading := false)
  {
    if !Present(s.image) then UploadStep(None, s)
    else if !Present(token) then UploadStep(None, s.(uploading := true))
    else
      var form := PostFormFor(s.image.value, s.caption);
      UploadStep(Some(form), if ok then ComposerState(None, "", false) else s.(uploading := false))
  }

  /** A request is sent only for a picked image, its name ends in the image's extension, and a
      finished request (either way) leaves the spinner off; only a missing token leaves it on. */
  lemma UploadSpinner(s: ComposerState, token: Option<string>, ok: bool)
    ensures var r := AfterUpload(s, token, ok);
      && (r.request.Some? ==> FileType(r.request.value.name) == FileType(s.image.value) && !r.state.uploading)
      && (r.state.uploading <==> (Present(s.image) && !Present(token)) || (!Present(s.image) && s.uploading))
  {
    var r := AfterUpload(s, token, ok);
    if r.request.Some? {
      FileNameKeepsType("post", s.image.value);
    }
  }

  /** The form, changed in place. */
  class PostComposer {
    var image: Option<string>
    var caption: string
    var uploading: bool

    function State(): ComposerState
      reads this
    {
      ComposerState(image, caption, uploading)
    }

    constructor ()
      ensures State() == InitialComposer
    {
      image, caption, uploading := None, "", false;
    }

    /** `setImage` after the picker returned an asset, and `setCaption` from the text input. */
    method Pick(uri: string)
      modifies this
      ensures State() == old(State()).(image := Some(uri))
    {
      image := Some(uri);
    }

    method EditCaption(text: string)
      modifies this
      ensures State() == old(State()).(caption := text)
    {
      caption := text;
    }

    method HandleUpload(token: Option<string>, ok: bool) returns (request: Option<PostForm>)
      modifies this
      ensures State() == AfterUpload(old(State()), token, ok).state
      ensures request == AfterUpload(old(State()), token, ok).request
    {
      if !Present(image) {
        return None;
      }
      uploading := true;
      if !Present(token) {
        return None;
      }
      var uri := image.value;
      var fileType := FileType(uri);
      request := Some(PostForm(uri, FileName("post", fileType), MimeType(fileType), caption));
      if ok {
        uploading := false;
        image := None;
        caption := "";
      } else {
        uploading := false;
      }
    }
  }
}
