/** The comment tree of a post and how the thread view renders it
    (src/components/post/post-comment-list.tsx): who may edit or delete a
    comment, the recursive reply lists, and the root items with their
    deep-link highlight. Markup and styling are left out; each rendered
    item keeps only what its visibility conditions decide. */
module CommentTree {
  import opened Options
  import opened Seqs
  import opened CommentState

  datatype Account = Account(accountId: Option<string>)

  /** `TComment`: replies are ordered as the server returns them. */
  datatype Comment = Comment(
    commentId: string,
    account: Option<Account>,
    content: string,
    updatedDate: Option<string>,
    replies: seq<Comment>)

  datatype Role = Role(name: Option<string>)

  /** The signed-in account from the session store. */
  datatype Viewer = Viewer(accountId: Option<string>, role: Option<Role>)

  const AdminRole := "ADMIN"
  const StaffRole := "STAFF"

  /** `accountInfo?.role?.name`. */
  function RoleName(viewer: Option<Viewer>): Option<string> {
    match viewer
    case None => None
    case Some(v) => match v.role case None => None case Some(r) => r.name
  }

  /** `accountInfo?.accountId`. */
  function ViewerId(viewer: Option<Viewer>): Option<string> {
    match viewer
    case None => None
    case Some(v) => v.accountId
  }

  /** `comment?.account?.accountId`. */
  function AuthorId(c: Comment): Option<string> {
    match c.account
    case None => None
    case Some(a) => a.accountId
  }

  /** `isAllowShowActions`: the edit/delete menu is shown to admins, to
      staff, and when the comment's author id equals the viewer's id, with
      two missing ids comparing equal. */
  predicate IsAllowShowActions(viewer: Option<Viewer>, c: Comment) {
    RoleName(viewer) == Some(AdminRole) || RoleName(viewer) == Some(StaffRole)
      || AuthorId(c) == ViewerId(viewer)
  }

  /** The visibility rule case by case. */
  lemma ActionsVisibility(viewer: Option<Viewer>, c: Comment, d: Comment)
    ensures RoleName(viewer) in {Some(AdminRole), Some(StaffRole)} ==> IsAllowShowActions(viewer, c)
    ensures ViewerId(viewer).Some? && AuthorId(c) == ViewerId(viewer) ==> IsAllowShowActions(viewer, c)
    ensures (RoleName(viewer) !in {Some(AdminRole), Some(StaffRole)} && AuthorId(c) != ViewerId(viewer))
              ==> !IsAllowShowActions(viewer, c)
    ensures viewer.None? && c.account.None? ==> IsAllowShowActions(viewer, c)
    ensures AuthorId(c) == AuthorId(d) ==> (IsAllowShowActions(viewer, c) <==> IsAllowShowActions(viewer, d))
  {
  }

  // ---------------------------------------------------------------
  // Rendering

  /** What the view reads while rendering: the edit state, the viewer,
      the `commentId` search parameter and the highlight flag. */
  datatype ViewContext = ViewContext(
    state: UiState,
    viewer: Option<Viewer>,
    searchCommentId: Option<string>,
    highlighted: bool)

  /** One rendered reply. `header` of its list is the reply count shown as
      "<n> replies". */
  datatype ReplyItem = ReplyItem(
    commentId: string,
    replyFormShown: bool,
    editFormShown: bool,
    actionsShown: bool,
    nested: Option<ReplyList>)

  datatype ReplyList = ReplyList(header: nat, items: seq<ReplyItem>)

  /** One rendered root comment; only root items carry an element id. */
  datatype RootItem = RootItem(
    commentId: string,
    elementId: string,
    highlighted: bool,
    replyFormShown: bool,
    editFormShown: bool,
    actionsShown: bool,
    replies: Option<ReplyList>)

  /** The rendered thread: a header with the number of root comments and
      one item per root comment. */
  datatype Thread = Thread(header: nat, items: seq<RootItem>)

  /** `renderShowReplyReplyRecursive`: a list only for a comment with
      replies, headed by their count, one item per direct reply in order,
      each rendering its own replies the same way. */
  function RenderReplies(ctx: ViewContext, c: Comment): (r: Option<ReplyList>)
    ensures r.Some? <==> |c.replies| > 0
    ensures r.Some? ==> r.value.header == |c.replies| && |r.value.items| == |c.replies|
    ensures r.Some? ==> forall i :: 0 <= i < |c.replies| ==> r.value.items[i].commentId == c.replies[i].commentId
    decreases c, 0
  {
    if |c.replies| == 0 then None else Some(ReplyList(|c.replies|, RenderItems(ctx, c.replies)))
  }

  function RenderItems(ctx: ViewContext, rs: seq<Comment>): (r: seq<ReplyItem>)
    ensures |r| == |rs|
    ensures forall i :: 0 <= i < |rs| ==> r[i] == RenderReply(ctx, rs[i])
    decreases rs, 0
  {
    if |rs| == 0 then [] else [RenderReply(ctx, rs[0])] + RenderItems(ctx, rs[1..])
  }

  /** One reply: its reply form and reply-edit form follow the selector,
      the action menu follows `IsAllowShowActions`. */
  function RenderReply(ctx: ViewContext, rep: Comment): (r: ReplyItem)
    ensures r.commentId == rep.commentId
    ensures r.replyFormShown <==> ReplyFormShown(ctx.state, rep.commentId)
    ensures r.editFormShown <==> ReplyEditFormShown(ctx.state, rep.commentId)
    ensures r.actionsShown <==> IsAllowShowActions(ctx.viewer, rep)
    ensures r.nested.Some? <==> |rep.replies| > 0
    decreases rep, 1
  {
    ReplyItem(rep.commentId, ReplyFormShown(ctx.state, rep.commentId),
              ReplyEditFormShown(ctx.state, rep.commentId),
              IsAllowShowActions(ctx.viewer, rep), RenderReplies(ctx, rep))
  }

  /** One root comment. It is highlighted when it is the deep-linked
      comment and the highlight flag is on. Its reply form and action menu
      follow the same rules as a reply's, but its edit form tests `isEdit`
      alone, so while any comment is being edited every root item shows
      one (see `CommentState.RootEditShownOnEveryRoot`). */
  function RenderRoot(ctx: ViewContext, item: Comment): (r: RootItem)
    ensures r.commentId == item.commentId && r.elementId == item.commentId
    ensures r.highlighted <==> ctx.searchCommentId == Some(item.commentId) && ctx.highlighted
    ensures r.replyFormShown <==> ReplyFormShown(ctx.state, item.commentId)
    ensures r.editFormShown <==> ctx.state.isEdit
    ensures r.actionsShown <==> IsAllowShowActions(ctx.viewer, item)
    ensures r.replies == RenderReplies(ctx, item)
  {
    RootItem(item.commentId, item.commentId,
             ctx.searchCommentId == Some(item.commentId) && ctx.highlighted,
             ReplyFormShown(ctx.state, item.commentId),
             RootEditFormShownAsWritten(ctx.state, item.commentId),
             IsAllowShowActions(ctx.viewer, item),
             RenderReplies(ctx, item))
  }

  function RenderRoots(ctx: ViewContext, cs: seq<Comment>): (r: seq<RootItem>)
    ensures |r| == |cs|
    ensures forall i :: 0 <= i < |cs| ==> r[i] == RenderRoot(ctx, cs[i])
  {
    MapSeq((c: Comment) => RenderRoot(ctx, c), cs)
  }

  /** The whole thread; nothing is rendered until the comments arrive. */
  function RenderThread(ctx: ViewContext, comments: Option<seq<Comment>>): (r: Option<Thread>)
    ensures r.Some? <==> comments.Some?
    ensures comments.Some? ==> r.value.header == |comments.value| && |r.value.items| == |comments.value|
    ensures comments.Some? ==>
              forall i :: 0 <= i < |comments.value| ==> r.value.items[i] == RenderRoot(ctx, comments.value[i])
  {
    match comments
    case None => None
    case Some(cs) => Some(Thread(|cs|, RenderRoots(ctx, cs)))
  }

  /** The `highlighted` flag on mount: set when a comment is deep-linked
      (a non-empty `commentId` search parameter). Clearing it after the
      fixed delay is not modelled. */
  function HighlightOnLoad(searchCommentId: Option<string>): (r: bool)
    ensures r <==> searchCommentId.Some? && searchCommentId.value != ""
  {
    match searchCommentId
    case None => false
    case Some(id) => id != ""
  }

  // ---------------------------------------------------------------
  // Coverage of the traversal

  /** Every comment strictly below `c`, in pre-order. */
  function Descendants(c: Comment): seq<Comment>
    decreases c, 1
  {
    DescendantsOf(c.replies)
  }

  function DescendantsOf(rs: seq<Comment>): seq<Comment>
    decreases rs, 0
  {
    if |rs| == 0 then [] else [rs[0]] + Descendants(rs[0]) + DescendantsOf(rs[1..])
  }

  /** The number of comments in the tree rooted at `c`. */
  function Size(c: Comment): nat
    decreases c, 1
  {
    1 + SizeOf(c.replies)
  }

  function SizeOf(rs: seq<Comment>): nat
    decreases rs, 0
  {
    if |rs| == 0 then 0 else Size(rs[0]) + SizeOf(rs[1..])
  }

  /** The comment ids of a rendered reply list, in render order. */
  function VisitedIds(l: Option<ReplyList>): seq<string>
    decreases l, 1
  {
    match l
    case None => []
    case Some(list) => VisitedItems(list.items)
  }

  function VisitedItems(items: seq<ReplyItem>): seq<string>
    decreases items, 0
  {
    if |items| == 0 then []
    else [items[0].commentId] + VisitedIds(items[0].nested) + VisitedItems(items[1..])
  }

  function Ids(cs: seq<Comment>): (r: seq<string>)
    ensures |r| == |cs|
    ensures forall i :: 0 <= i < |cs| ==> r[i] == cs[i].commentId
  {
    MapSeq((c: Comment) => c.commentId, cs)
  }

  lemma IdsAppend(a: seq<Comment>, b: seq<Comment>)
    ensures Ids(a + b) == Ids(a) + Ids(b)
  {
    MapSeqAppend((c: Comment) => c.commentId, a, b);
  }

  /** The traversal renders exactly the descendants of `c`, each once, in
      pre-order, so it visits as many items as the tree has comments below
      its root. */
  lemma {:induction false} RenderVisitsEveryDescendant(ctx: ViewContext, c: Comment)
    ensures VisitedIds(RenderReplies(ctx, c)) == Ids(Descendants(c))
    ensures |Descendants(c)| == Size(c) - 1
    decreases c, 1
  {
    if |c.replies| > 0 {
      RenderItemsVisitDescendants(ctx, c.replies);
    }
  }

  lemma {:induction false} RenderItemsVisitDescendants(ctx: ViewContext, rs: seq<Comment>)
    ensures VisitedItems(RenderItems(ctx, rs)) == Ids(DescendantsOf(rs))
    ensures |DescendantsOf(rs)| == SizeOf(rs)
    decreases rs, 0
  {
    if |rs| > 0 {
      var items := RenderItems(ctx, rs);
      assert items[0] == RenderReply(ctx, rs[0]);
      assert items[1..] == RenderItems(ctx, rs[1..]);
      RenderVisitsEveryDescendant(ctx, rs[0]);
      RenderItemsVisitDescendants(ctx, rs[1..]);
      IdsAppend([rs[0]] + Descendants(rs[0]), DescendantsOf(rs[1..]));
      IdsAppend([rs[0]], Descendants(rs[0]));
    }
  }

  /** A comment without replies renders no list, whatever the state. */
  lemma LeafRendersNothing(ctx: ViewContext, c: Comment)
    requires |c.replies| == 0
    ensures RenderReplies(ctx, c).None? && VisitedIds(RenderReplies(ctx, c)) == []
    ensures Descendants(c) == [] && Size(c) == 1
  {
  }

  /** The highlight marks exactly the deep-linked root items, and none
      when the flag is off. */
  lemma HighlightMarksDeepLink(ctx: ViewContext, cs: seq<Comment>)
    ensures forall i :: 0 <= i < |cs| ==>
              (RenderRoots(ctx, cs)[i].highlighted <==> ctx.highlighted && ctx.searchCommentId == Some(cs[i].commentId))
    ensures !ctx.highlighted ==> forall i :: 0 <= i < |cs| ==> !RenderRoots(ctx, cs)[i].highlighted
  {
  }

  /** As rendered, while one comment is being edited every root item
      shows an edit form, whichever comment was selected. */
  lemma RootsAllShowEditForm(ctx: ViewContext, cs: seq<Comment>)
    ensures ctx.state.isEdit ==> forall i :: 0 <= i < |cs| ==> RenderRoots(ctx, cs)[i].editFormShown
    ensures !ctx.state.isEdit ==> forall i :: 0 <= i < |cs| ==> !RenderRoots(ctx, cs)[i].editFormShown
  {
  }

  /** With the reply form open, it appears on at most one root item. */
  lemma RootsShowOneReplyForm(ctx: ViewContext, cs: seq<Comment>, i: nat, j: nat)
    requires i < |cs| && j < |cs|
    requires RenderRoots(ctx, cs)[i].replyFormShown && RenderRoots(ctx, cs)[j].replyFormShown
    ensures cs[i].commentId == cs[j].commentId
  {
  }
}
