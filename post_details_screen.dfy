/** The comment thread under a post: the comments shown and the text being typed. */
module PostDetailsScreen {
  import opened Common
  import opened Text
  import Store
  import PostRoutes

  type Comment = Store.CommentRow

  datatype ThreadState = ThreadState(comments: seq<Comment>, text: string)

  const InitialThread: ThreadState := ThreadState([], "")

  /** `loadComments`: the server's list, or an empty one when the reply has no `comments`; a failure changes nothing. */
  function AfterLoadComments(s: ThreadState, response: Reply<Option<seq<Comment>>>): (r: ThreadState)
    ensures r.text == s.text
    ensures response.Failed? ==> r == s
    ensures response.Succeeded? && response.body.None? ==> r.comments == []
    ensures response.Succeeded? && response.body.Some? ==> r.comments == response.body.value
  {
    match response
    case Failed => s
    case Succeeded(comments) => s.(comments := comments.GetOr([]))
  }

  /** What a tap on "send" did: whether a request went out, and the thread afterwards. */
  datatype SendStep = SendStep(sent: bool, state: ThreadState)

  /** `handleAddComment` with the reply carrying the created comment. */
  function AfterAddComment(s: ThreadState, response: Reply<Comment>): (r: SendStep)
    ensures r.sent <==> Trim(s.text) != ""
    ensures !r.sent || response.Failed? ==> r.state == s
    ensures r.sent && response.Succeeded? ==>
      && |r.state.comments| == |s.comments| + 1
      && r.state.comments[..|s.comments|] == s.comments
      && r.state.comments[|s.comments|] == response.body
      && r.state.text == ""
  {
    if Trim(s.text) == "" then SendStep(false, s)
    else match response
      case Failed => SendStep(true, s)
      case Succeeded(c) => SendStep(true, ThreadState(s.comments + [c], ""))
  }

  /** The client sends exactly the texts the server accepts: those with a character that is not
      white space. */
  lemma ClientCheckMatchesServer(s: ThreadState, response: Reply<Comment>)
    ensures AfterAddComment(s, response).sent <==> PostRoutes.CommentTextOk(Some(s.text))
    ensures AfterAddComment(s, response).sent <==> exists i :: 0 <= i < |s.text| && !IsSpace(s.text[i])
  {
    PostRoutes.CommentTextOkIffNotBlank(Some(s.text));
  }

  /** The screen's state, changed in place. */
  class CommentThread {
    const postId: int
    var comments: seq<Comment>
    var text: string

    function State(): ThreadState
      reads this
    {
      ThreadState(comments, text)
    }

    constructor (postId: int)
      ensures this.postId == postId && State() == InitialThread
    {
      this.postId := postId;
      comments, text := [], "";
    }

    /** `setText` from the input. */
    method EditText(newText: string)
      modifies this
      ensures State() == old(State()).(text := newText)
    {
      text := newText;
    }

    method LoadComments(response: Reply<Option<seq<Comment>>>)
      modifies this
      ensures State() == AfterLoadComments(old(State()), response)
    {
      if response.Succeeded? {
        comments := response.body.GetOr([]);
      }
    }

    method HandleAddComment(response: Reply<Comment>) returns (sent: bool)
      modifies this
      ensures State() == AfterAddComment(old(State()), response).state
      ensures sent == AfterAddComment(old(State()), response).sent
    {
      if Trim(text) == "" {
        return false;
      }
      sent := true;
      if response.Succeeded? {
        comments := comments + [response.body];
        text := "";
      }
    }
  }
}
