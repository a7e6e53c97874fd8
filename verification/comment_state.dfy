/** The edit state of one comment thread (src/components/post/post-comment-list.tsx):
    one shared `commentId` selector and three flags, changed only by the
    view's click and success handlers. Mutations are requests the model
    returns; their success callbacks are given as the state change, the
    query keys they invalidate and the message they show. */
module CommentState {
  import opened Options

  datatype UiState = UiState(
    commentId: Option<string>,
    isEdit: bool,
    isEditReply: bool,
    isShowReply: bool)

  /** State on mount: nothing selected, every form closed. */
  const Init := UiState(None, false, false, false)

  /** The cached queries a success callback marks stale. */
  datatype QueryKey = PostListing | CommentsByPost(postId: string)

  /** What a success callback does besides changing the edit state. */
  datatype Effect = Effect(
    state: UiState,
    invalidated: seq<QueryKey>,
    message: Option<string>,
    resetReplyForm: bool)

  /** Body of the update request. `id` is the selector, which may be null. */
  datatype UpdatePayload = UpdatePayload(content: string, id: Option<string>)

  /** Body of the create-reply request. */
  datatype ReplyPayload = ReplyPayload(content: string, postId: string, parentCommentId: Option<string>)

  const DeleteSuccessMessage := "Delete comment successfully"

  /** `handleUpdate`: open the edit form and select `id`. */
  function HandleUpdate(s: UiState, id: string): (r: UiState)
    ensures r.isEdit && r.commentId == Some(id)
    ensures r.isEditReply == s.isEditReply && r.isShowReply == s.isShowReply
  {
    s.(isEdit := true, commentId := Some(id))
  }

  /** `handleUpdateReply`: open the reply-edit form and select `id`. */
  function HandleUpdateReply(s: UiState, id: string): (r: UiState)
    ensures r.isEditReply && r.commentId == Some(id)
    ensures r.isEdit == s.isEdit && r.isShowReply == s.isShowReply
  {
    s.(isEditReply := true, commentId := Some(id))
  }

  /** `handleShowReply`: open the reply form and select `id`. */
  function HandleShowReply(s: UiState, id: string): (r: UiState)
    ensures r.isShowReply && r.commentId == Some(id)
    ensures r.isEdit == s.isEdit && r.isEditReply == s.isEditReply
  {
    s.(isShowReply := true, commentId := Some(id))
  }

  /** `handleClickOutside`: the edit forms' close button. It clears only
      `isEdit`. */
  function ClickOutside(s: UiState): (r: UiState)
    ensures !r.isEdit
    ensures r.commentId == s.commentId && r.isEditReply == s.isEditReply && r.isShowReply == s.isShowReply
  {
    s.(isEdit := false)
  }

  /** `handleClickOutsideReply`: the reply form's close button. It clears
      only `isShowReply`. */
  function ClickOutsideReply(s: UiState): (r: UiState)
    ensures !r.isShowReply
    ensures r.commentId == s.commentId && r.isEdit == s.isEdit && r.isEditReply == s.isEditReply
  {
    s.(isShowReply := false)
  }

  /** `onFinish`: the update request sent for the submitted content. */
  function UpdateRequest(s: UiState, content: string): (r: UpdatePayload)
    ensures r.content == content && r.id == s.commentId
  {
    UpdatePayload(content, s.commentId)
  }

  /** Success branch of `onFinish`: both edit forms close, the selector is
      kept, the post listing and this post's comments are invalidated. */
  function OnUpdateSuccess(s: UiState, postId: string): (r: Effect)
    ensures !r.state.isEdit && !r.state.isEditReply
    ensures r.state.commentId == s.commentId && r.state.isShowReply == s.isShowReply
    ensures r.invalidated == [PostListing, CommentsByPost(postId)]
    ensures r.message.None? && !r.resetReplyForm
  {
    Effect(s.(isEdit := false, isEditReply := false), [PostListing, CommentsByPost(postId)], None, false)
  }

  /** `onFinishReply`: the reply is created under the selected comment. */
  function ReplyRequest(s: UiState, content: string, postId: string): (r: ReplyPayload)
    ensures r.content == content && r.postId == postId && r.parentCommentId == s.commentId
  {
    ReplyPayload(content, postId, s.commentId)
  }

  /** Success branch of `onFinishReply`: the reply form closes, the
      selector is cleared, the reply input is reset, and the same two
      queries are invalidated. The edit flags are left as they were. */
  function OnReplySuccess(s: UiState, postId: string): (r: Effect)
    ensures !r.state.isShowReply && r.state.commentId.None?
    ensures r.state.isEdit == s.isEdit && r.state.isEditReply == s.isEditReply
    ensures r.invalidated == [PostListing, CommentsByPost(postId)]
    ensures r.message.None? && r.resetReplyForm
  {
    Effect(s.(isShowReply := false, commentId := None), [PostListing, CommentsByPost(postId)], None, true)
  }

  /** `handleDelete`: the delete request is sent, for the comment's own id,
      only once the confirm dialog is accepted. */
  function DeleteRequest(commentId: string, confirmed: bool): (r: Option<string>)
    ensures r.Some? <==> confirmed
    ensures confirmed ==> r == Some(commentId)
  {
    if confirmed then Some(commentId) else None
  }

  /** Success branch of the delete: the edit state is untouched, only the
      post listing is invalidated, and a success message is shown. */
  function OnDeleteSuccess(s: UiState): (r: Effect)
    ensures r.state == s
    ensures r.invalidated == [PostListing]
    ensures r.message == Some(DeleteSuccessMessage) && !r.resetReplyForm
  {
    Effect(s, [PostListing], Some(DeleteSuccessMessage), false)
  }

  // ---------------------------------------------------------------
  // Which inline form a comment shows

  /** The reply input under comment `id` (root items and replies alike). */
  predicate ReplyFormShown(s: UiState, id: string) {
    s.isShowReply && s.commentId == Some(id)
  }

  /** The edit input in place of reply `id`'s content. */
  predicate ReplyEditFormShown(s: UiState, id: string) {
    s.isEditReply && s.commentId == Some(id)
  }

  /** The edit input in place of root comment `id`'s content, as the view
      is written: it tests `isEdit` only, so every root item shows it. */
  predicate RootEditFormShownAsWritten(s: UiState, id: string) {
    s.isEdit
  }

  /** The root edit input with the selector test the reply forms use: only
      the selected root comment shows it. */
  predicate RootEditFormShown(s: UiState, id: string) {
    s.isEdit && s.commentId == Some(id)
  }

  /** The one comment showing the reply form, if any. */
  function ReplyFormTarget(s: UiState): (r: Option<string>)
    ensures forall id :: ReplyFormShown(s, id) <==> r == Some(id)
  {
    if s.isShowReply then s.commentId else None
  }

  /** The one reply showing the reply-edit form, if any. */
  function ReplyEditFormTarget(s: UiState): (r: Option<string>)
    ensures forall id :: ReplyEditFormShown(s, id) <==> r == Some(id)
  {
    if s.isEditReply then s.commentId else None
  }

  /** The one root comment showing the corrected edit form, if any. */
  function RootEditFormTarget(s: UiState): (r: Option<string>)
    ensures forall id :: RootEditFormShown(s, id) <==> r == Some(id)
  {
    if s.isEdit then s.commentId else None
  }

  // ---------------------------------------------------------------
  // The handlers as a state machine

  /** The user actions and mutation outcomes that change the edit state.
      `CloseEdit` is the close button of both edit forms (root and reply),
      which the view wires to `handleClickOutside`. */
  datatype UiEvent =
    | Edit(id: string)
    | EditReply(id: string)
    | ShowReply(id: string)
    | CloseEdit
    | CloseReply
    | UpdateSucceeded
    | ReplySucceeded
    | DeleteSucceeded

  function Step(s: UiState, e: UiEvent, postId: string): UiState {
    match e
    case Edit(id) => HandleUpdate(s, id)
    case EditReply(id) => HandleUpdateReply(s, id)
    case ShowReply(id) => HandleShowReply(s, id)
    case CloseEdit => ClickOutside(s)
    case CloseReply => ClickOutsideReply(s)
    case UpdateSucceeded => OnUpdateSuccess(s, postId).state
    case ReplySucceeded => OnReplySuccess(s, postId).state
    case DeleteSucceeded => OnDeleteSuccess(s).state
  }

  /** The state after a sequence of events, oldest first. */
  function Run(s: UiState, es: seq<UiEvent>, postId: string): UiState
    decreases |es|
  {
    if |es| == 0 then s else Run(Step(s, es[0], postId), es[1..], postId)
  }

  /** While the reply form is open some comment is selected, so a submitted
      reply always names its parent. */
  predicate ReplyHasParent(s: UiState) {
    s.isShowReply ==> s.commentId.Some?
  }

  /** At most one comment shows the reply form, and at most one reply the
      reply-edit form, in every state: both read the single selector. */
  lemma AtMostOneInlineForm(s: UiState, a: string, b: string)
    ensures ReplyFormShown(s, a) && ReplyFormShown(s, b) ==> a == b
    ensures ReplyEditFormShown(s, a) && ReplyEditFormShown(s, b) ==> a == b
    ensures RootEditFormShown(s, a) && RootEditFormShown(s, b) ==> a == b
  {
  }

  /** Every reachable state satisfies `ReplyHasParent`. */
  lemma {:induction false} ReachableReplyHasParent(es: seq<UiEvent>, postId: string)
    ensures ReplyHasParent(Run(Init, es, postId))
    ensures var s := Run(Init, es, postId);
            s.isShowReply ==> ReplyRequest(s, "", postId).parentCommentId.Some?
  {
    RunPreservesReplyHasParent(Init, es, postId);
  }

  lemma {:induction false} RunPreservesReplyHasParent(s: UiState, es: seq<UiEvent>, postId: string)
    requires ReplyHasParent(s)
    ensures ReplyHasParent(Run(s, es, postId))
    decreases |es|
  {
    if |es| > 0 {
      RunPreservesReplyHasParent(Step(s, es[0], postId), es[1..], postId);
    }
  }

  /** The selector is shared: the last of edit, edit-reply and show-reply
      decides which comment every open form refers to. Editing `a` and then
      opening the reply form on `b` leaves the edit flag set while the
      update request now names `b`. */
  lemma LastSelectionWins(a: string, b: string, content: string, postId: string)
    ensures var s := Run(Init, [Edit(a), ShowReply(b)], postId);
            && s.isEdit && ReplyFormShown(s, b)
            && UpdateRequest(s, content).id == Some(b)
            && (a != b ==> !ReplyFormShown(s, a))
  {
    var s1 := Step(Init, Edit(a), postId);
    var s2 := Step(s1, ShowReply(b), postId);
    assert Run(Init, [Edit(a), ShowReply(b)], postId) == Run(s1, [ShowReply(b)], postId);
    assert [Edit(a), ShowReply(b)][1..] == [ShowReply(b)];
    assert Run(s1, [ShowReply(b)], postId) == Run(s2, [], postId);
  }

  /** The other order: with the reply form open under `b`, editing `a`
      moves the open reply form to `a`, so a reply typed for `b` is sent
      with `a` as its parent. */
  lemma EditMovesOpenReplyForm(a: string, b: string, content: string, postId: string)
    requires a != b
    ensures var s := HandleUpdate(HandleShowReply(Init, b), a);
            && s.isEdit && ReplyFormShown(s, a) && !ReplyFormShown(s, b)
            && ReplyRequest(s, content, postId).parentCommentId == Some(a)
  {
  }

  /** A reply's success clears the selector but not the edit flag: an edit
      form opened earlier stays open and its update request carries no id. */
  lemma ReplySuccessOrphansEdit(a: string, b: string, content: string, postId: string)
    ensures var s := Run(Init, [Edit(a), ShowReply(b), ReplySucceeded], postId);
            s.isEdit && UpdateRequest(s, content).id.None?
  {
    var es := [Edit(a), ShowReply(b), ReplySucceeded];
    var s1 := Step(Init, Edit(a), postId);
    var s2 := Step(s1, ShowReply(b), postId);
    var s3 := Step(s2, ReplySucceeded, postId);
    assert es[1..] == [ShowReply(b), ReplySucceeded];
    assert es[1..][1..] == [ReplySucceeded];
    assert Run(Init, es, postId) == Run(s1, es[1..], postId) == Run(s2, [ReplySucceeded], postId);
    assert Run(s2, [ReplySucceeded], postId) == Run(s3, [], postId);
  }

  /** Replying "hello" under comment `c1` of post `p1`: the request names
      the post and the parent, and on success the reply form is closed on
      every comment and both queries are invalidated. */
  lemma ReplyScenario()
    ensures var s := HandleShowReply(Init, "c1");
            && ReplyRequest(s, "hello", "p1") == ReplyPayload("hello", "p1", Some("c1"))
            && ReplyFormTarget(OnReplySuccess(s, "p1").state).None?
            && OnReplySuccess(s, "p1").invalidated == [PostListing, CommentsByPost("p1")]
  {
  }

  /** Deleting comment `c1`: nothing is sent until confirmed; once it
      succeeds, the post listing is invalidated and the success message is
      shown. */
  lemma DeleteScenario(s: UiState)
    ensures DeleteRequest("c1", false).None? && DeleteRequest("c1", true) == Some("c1")
    ensures OnDeleteSuccess(s).invalidated == [PostListing]
    ensures OnDeleteSuccess(s).message == Some("Delete comment successfully")
  {
  }

  // ---------------------------------------------------------------
  // Findings

  /** As written, opening the edit form on one root comment shows an edit
      form on every root comment. */
  lemma RootEditShownOnEveryRoot(selected: string, other: string)
    ensures var s := HandleUpdate(Init, selected);
            RootEditFormShownAsWritten(s, other)
            && (other != selected ==> !RootEditFormShown(s, other))
            && RootEditFormShown(s, selected)
  {
  }

  /** The reply-edit form's close button as wired: `handleClickOutside`. */
  function CloseReplyEditAsWritten(s: UiState): (r: UiState)
    ensures r.isEditReply == s.isEditReply && r.commentId == s.commentId
  {
    ClickOutside(s)
  }

  /** As written, the close button of an open reply-edit form leaves it
      open. */
  lemma ReplyEditCloseKeepsFormOpen(s: UiState, id: string)
    ensures ReplyEditFormShown(CloseReplyEditAsWritten(HandleUpdateReply(s, id)), id)
  {
  }

  /** The reply-edit form's close button as intended: it clears only
      `isEditReply`, so no reply shows the reply-edit form afterwards. */
  function CloseReplyEdit(s: UiState): (r: UiState)
    ensures forall id :: !ReplyEditFormShown(r, id)
    ensures r.commentId == s.commentId && r.isEdit == s.isEdit && r.isShowReply == s.isShowReply
  {
    s.(isEditReply := false)
  }
}
