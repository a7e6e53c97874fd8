# Ledger normalisation and comment-thread state, modelled in Dafny

This project models the two pieces of sequential logic in a community web
client's front end.

- **Transaction ledger view** (`src/pages/wallet/components/transaction.tsx`).
  The view reads four lists from the account's transaction query: bonus
  points, daily points, transactions and order points. It maps each list
  into one `FormatTransaction` row shape. Only the order points are
  filtered, by a status compared ignoring case. The four blocks are
  concatenated in a fixed order. The filter parameters keep four
  mutually exclusive "view" flags, a status and a date range.
- **Comment thread view** (`src/components/post/post-comment-list.tsx`).
  The view's edit state is one shared `commentId` selector and three
  flags (`isEdit`, `isEditReply`, `isShowReply`). It changes only through
  the click handlers and the mutation success callbacks. The model covers
  the edit/delete permission rule, which inline form each comment shows,
  the recursive rendering of reply lists, and the deep-link highlight of
  root items.

Modules:

- `Options` (options.dfy): the optional values of the source.
- `Text` (text.dfy): lower-casing and case-insensitive comparison.
- `Ledger` (ledger.dfy): source records, row mappings, the order-point
  filter and the merged ledger.
- `LedgerParams` (ledger_params.dfy): the filter parameters and their
  handlers, as a state machine.
- `CommentState` (comment_state.dfy): the thread's edit state, its
  handlers, request payloads, success effects and form visibility.
- `CommentTree` (comment_tree.dfy): the comment tree, the permission
  rule and the rendering traversal.

Fields the source may leave `undefined` at run time are `Option`s, even
where its TypeScript types say `string`. The source's `type` field of a
ledger row is called `kind`, because `type` is a Dafny keyword.

The edit state does not return to a neutral state after every
successful mutation:

- A reply's success clears only `isShowReply` and the selector. It leaves
  `isEdit` and `isEditReply` set, so a later update is sent with no
  comment id (`CommentState.ReplySuccessOrphansEdit`).
- An update's success clears both edit flags but keeps `commentId`.
- A delete's success does not touch the edit state at all.
- Editing and replying share one selector but have separate flags, so
  both can be set at once. The last handler called decides which comment
  the selector names (`CommentState.LastSelectionWins`). Editing a
  comment while the reply form is open under another one moves the open
  reply form, and the parent of the reply it sends, to the edited comment
  (`CommentState.EditMovesOpenReplyForm`).

## Model

| member | source | states |
|---|---|---|
| `Text.Lower` | src/pages/wallet/components/transaction.tsx:84 | lower-casing keeps the length and folds each character on its own |
| `Text.LowerIdempotent` | src/pages/wallet/components/transaction.tsx:84 | lower-casing an already lower-cased status changes nothing |
| `Text.EqualsIgnoringCasePointwise` | src/pages/wallet/components/transaction.tsx:84 | two statuses match ignoring case iff they have the same length and every pair of characters folds to the same character |
| `Text.EqualsIgnoringCaseEquivalence` | src/pages/wallet/components/transaction.tsx:84 | matching ignoring case is reflexive, symmetric and transitive |
| `Text.StatusCaseExample` | src/pages/wallet/components/transaction.tsx:25-28 | `Success` matches `SUCCESS` and does not match `Failed` |
| `Ledger.OrEmpty` | src/pages/wallet/components/transaction.tsx:53 | a missing source list reads as the empty list |
| `Seqs.MapSeq` | src/pages/wallet/components/transaction.tsx:53 | a mapping gives one row per source record, the i-th row coming from the i-th record |
| `Ledger.PostTitle` | src/pages/wallet/components/transaction.tsx:55 | the title is the post's title when both exist, and `''` otherwise |
| `Ledger.PostStatus` | src/pages/wallet/components/transaction.tsx:59 | the status is present exactly when the post is, and is then the post's status |
| `Ledger.FromPoint` | src/pages/wallet/components/transaction.tsx:52-70 | a bonus or daily row carries its fixed type label, the record's id, points earned and date, and the post's title (or `''`) and status |
| `Ledger.FromTransaction` | src/pages/wallet/components/transaction.tsx:72-81 | a transaction row keeps the source's own type, amount, date and transaction type; its title and status come from the reward and are missing exactly when the reward is |
| `Ledger.FromOrder` | src/pages/wallet/components/transaction.tsx:85-92 | an order row has title `''`, type `Order Point`, the order date as its date, the order's status, and the coin pack's point as amount (missing when the pack is) |
| `Text.EqualsIgnoringCase` | src/pages/wallet/components/transaction.tsx:84 | two strings match iff their lower-cased forms are equal; `Text.EqualsIgnoringCasePointwise` and `Text.EqualsIgnoringCaseEquivalence` characterise it |
| `Ledger.NoStatus` | src/pages/wallet/components/transaction.tsx:84 | no status is selected when it is missing or empty, the two falsy values of `params.status` |
| `Ledger.KeepsOrder` | src/pages/wallet/components/transaction.tsx:84 | an order point passes iff no status is selected or its status equals the selected one ignoring case; `Ledger.FilterMembership` shows the filter keeps exactly these |
| `Ledger.FilterOrders` | src/pages/wallet/components/transaction.tsx:83-84 | the filter never lengthens the list, and every order point it keeps passes the status test |
| `Ledger.FilterMembership` | src/pages/wallet/components/transaction.tsx:84 | an order point is kept iff it is in the source list and either no status is set (or it is empty) or its status equals the selected one ignoring case |
| `Ledger.MergeLedger` | src/pages/wallet/components/transaction.tsx:94-99 | the merged ledger's length is the sum of the bonus, daily and transaction list lengths and the number of order points kept |
| `Ledger.AllTransactions` | src/pages/wallet/components/transaction.tsx:94-99 | before the query returns, the ledger is empty |
| `Ledger.MissingListIsEmpty` | src/pages/wallet/components/transaction.tsx:52-83 | each of the four lists gives the same ledger when it is missing as when it is empty |
| `Ledger.MergeLedgerLayout` | src/pages/wallet/components/transaction.tsx:52-99 | the ledger's rows are the bonus rows, then the daily, transaction and filtered order rows, each block one-to-one with its source list and in source order |
| `Ledger.MergeLedgerKinds` | src/pages/wallet/components/transaction.tsx:52-99 | the ledger has one row per bonus, daily and transaction record and per kept order point; rows of the bonus block are typed `Bonus Point`, of the daily block `Daily Point` with the record's id, of the transaction block with the source's type, and of the order block `Order Point` with an empty title and the order's id |
| `Ledger.MergeLedgerMembership` | src/pages/wallet/components/transaction.tsx:94-99 | a row is in the ledger iff it is the row of some bonus, daily or transaction record, or of an order point that passes the status filter |
| `Ledger.StatusTouchesOnlyOrders` | src/pages/wallet/components/transaction.tsx:83-99 | the bonus, daily and transaction blocks do not depend on the selected status |
| `Ledger.MapMembership` | src/pages/wallet/components/transaction.tsx:53 | a mapped list holds exactly the images of the source records |
| `Ledger.FilterNoStatusKeepsAll` | src/pages/wallet/components/transaction.tsx:84 | with no status, or the empty one, every order point is kept in order |
| `Ledger.FilterSingleton` | src/pages/wallet/components/transaction.tsx:84 | one order point is kept iff it passes the status test |
| `Ledger.FilterAppend` | src/pages/wallet/components/transaction.tsx:83-84 | filtering distributes over concatenation, so the kept order points stay in their relative order |
| `Ledger.FilterIdempotent` | src/pages/wallet/components/transaction.tsx:84 | filtering again by the same status changes nothing |
| `Ledger.FilterIgnoresCase` | src/pages/wallet/components/transaction.tsx:84 | statuses that differ only in case select the same order points |
| `LedgerParams.ActiveType` | src/pages/wallet/components/transaction.tsx:18-23 | no type is active exactly when all four view flags are false |
| `LedgerParams.ChangeType` | src/pages/wallet/components/transaction.tsx:101-145 | each flag is set iff its own label was chosen, and a cleared or unknown value clears all four; status and dates are kept |
| `LedgerParams.ChangeStatus` | src/pages/wallet/components/transaction.tsx:147-152 | the status becomes the chosen value, and the four flags and both dates are unchanged |
| `LedgerParams.FormatBound` | src/pages/wallet/components/transaction.tsx:203-204 | a date bound is set exactly when the picker gives it, and is then its formatted value |
| `LedgerParams.ChangeDateRange` | src/pages/wallet/components/transaction.tsx:200-205 | clearing the picker unsets both dates; otherwise each date is set on its own from its bound; flags and status are kept |
| `LedgerParams.ChangeTypeSelects` | src/pages/wallet/components/transaction.tsx:101-145 | after a type choice, the active type is the chosen label if it is one of the four and none otherwise, and at most one flag is set |
| `LedgerParams.ChangeTypeLastWins` | src/pages/wallet/components/transaction.tsx:101-145 | the flags depend only on the last type choice |
| `LedgerParams.TypeAndStatusCommute` | src/pages/wallet/components/transaction.tsx:101-152 | a type choice and a status choice give the same parameters in either order |
| `LedgerParams.ApplyPreservesAtMostOne` | src/pages/wallet/components/transaction.tsx:101-205 | every control change keeps at most one view flag set |
| `LedgerParams.RunPreservesAtMostOne` | src/pages/wallet/components/transaction.tsx:101-205 | any sequence of control changes keeps at most one view flag set |
| `LedgerParams.ReachableAtMostOneFlag` | src/pages/wallet/components/transaction.tsx:42-152 | from the initial all-false parameters, at most one view flag is ever set |
| `CommentState.HandleUpdate` | src/components/post/post-comment-list.tsx:128-131 | `isEdit` becomes true and the selector names the comment; the other two flags are kept |
| `CommentState.HandleUpdateReply` | src/components/post/post-comment-list.tsx:133-136 | `isEditReply` becomes true and the selector names the reply; the other two flags are kept |
| `CommentState.HandleShowReply` | src/components/post/post-comment-list.tsx:167-170 | `isShowReply` becomes true and the selector names the comment; the other two flags are kept |
| `CommentState.ClickOutside` | src/components/post/post-comment-list.tsx:138-140 | only `isEdit` is cleared; the selector and the other flags are kept |
| `CommentState.ClickOutsideReply` | src/components/post/post-comment-list.tsx:142-144 | only `isShowReply` is cleared; the selector and the other flags are kept |
| `CommentState.UpdateRequest` | src/components/post/post-comment-list.tsx:146-151 | the update request carries the submitted content and the current selector as its id |
| `CommentState.OnUpdateSuccess` | src/components/post/post-comment-list.tsx:153-162 | both edit flags become false, the selector and the reply flag are kept, and the post listing and this post's comments are invalidated |
| `CommentState.ReplyRequest` | src/components/post/post-comment-list.tsx:172-178 | the reply request carries the content, the post id, and the selector as parent id |
| `CommentState.OnReplySuccess` | src/components/post/post-comment-list.tsx:180-190 | the reply form closes, the selector becomes null, the reply input is reset, both edit flags are kept, and the same two queries are invalidated |
| `CommentState.DeleteRequest` | src/components/post/post-comment-list.tsx:109-113 | a delete is requested, for the comment's own id, iff the confirmation is accepted |
| `CommentState.OnDeleteSuccess` | src/components/post/post-comment-list.tsx:114-122 | the edit state is unchanged, only the post listing is invalidated, and `Delete comment successfully` is shown |
| `CommentState.ReplyFormShown` | src/components/post/post-comment-list.tsx:355 | a root comment (and, by the same test at line 215, a reply) shows the reply input iff `isShowReply` is set and the selector names it |
| `CommentState.ReplyEditFormShown` | src/components/post/post-comment-list.tsx:260 | a reply shows the edit input iff `isEditReply` is set and the selector names it |
| `CommentState.RootEditFormShownAsWritten` | src/components/post/post-comment-list.tsx:400 | as written, a root comment shows the edit input whenever `isEdit` is set, whatever the selector names |
| `CommentState.ReplyFormTarget` | src/components/post/post-comment-list.tsx:355 | a comment shows the reply form iff it is the one target, so at most one comment shows it |
| `CommentState.ReplyEditFormTarget` | src/components/post/post-comment-list.tsx:260 | a reply shows the reply-edit form iff it is the one target, so at most one reply shows it |
| `CommentState.RootEditFormTarget` | src/components/post/post-comment-list.tsx:400 | with the selector test added, a root comment shows the edit form iff it is the one selected comment |
| `CommentState.AtMostOneInlineForm` | src/components/post/post-comment-list.tsx:42-45 | in every state, two comments showing the reply form (or the reply-edit form, or the corrected root edit form) are the same comment |
| `CommentState.ReachableReplyHasParent` | src/components/post/post-comment-list.tsx:167-182 | in every state reachable from mount, an open reply form has a selected comment, so the reply request names a parent |
| `CommentState.RunPreservesReplyHasParent` | src/components/post/post-comment-list.tsx:128-190 | every sequence of handler calls keeps "reply form open implies a comment is selected" |
| `CommentState.LastSelectionWins` | src/components/post/post-comment-list.tsx:128-170 | editing `a` and then opening the reply form on `b` leaves the edit flag set; the reply form shows on `b` only, and the update request names `b` |
| `CommentState.EditMovesOpenReplyForm` | src/components/post/post-comment-list.tsx:128-178 | with the reply form open under `b`, editing `a` moves the open reply form to `a`, so the reply request names `a` as parent |
| `CommentState.ReplySuccessOrphansEdit` | src/components/post/post-comment-list.tsx:146-182 | after edit, reply and reply success, the edit flag is still set and the update request carries no id |
| `CommentState.ReplyScenario` | src/components/post/post-comment-list.tsx:167-190 | replying `hello` under `c1` of post `p1` sends `{content: hello, postId: p1, parentCommentId: c1}`; on success no comment shows the reply form, and the post listing and `p1`'s comments are invalidated |
| `CommentState.DeleteScenario` | src/components/post/post-comment-list.tsx:109-126 | deleting `c1` sends nothing when declined and `c1` when confirmed; on success only the post listing is invalidated and `Delete comment successfully` is shown |
| `CommentState.RootEditShownOnEveryRoot` | src/components/post/post-comment-list.tsx:400 | as written, after editing one root comment every other root comment also shows the edit form |
| `CommentState.CloseReplyEditAsWritten` | src/components/post/post-comment-list.tsx:279-284 | the reply-edit form's close button, wired to `handleClickOutside`, keeps `isEditReply` and the selector |
| `CommentState.ReplyEditCloseKeepsFormOpen` | src/components/post/post-comment-list.tsx:279-284 | as written, after the reply-edit form opens, its close button leaves it shown |
| `CommentState.CloseReplyEdit` | src/components/post/post-comment-list.tsx:283 | the intended close button leaves no reply showing the reply-edit form and changes nothing else |
| `CommentTree.IsAllowShowActions` | src/components/post/post-comment-list.tsx:101-107 | the edit/delete menu is allowed for the `ADMIN` and `STAFF` roles and when the comment's author id equals the viewer's, two missing ids comparing equal; `CommentTree.ActionsVisibility` spells out the cases |
| `CommentTree.ActionsVisibility` | src/components/post/post-comment-list.tsx:101-107 | admins and staff see the actions on every comment, authors on their own; anyone else does not; a signed-out viewer sees them on comments without an account; comments by the same author are treated alike |
| `CommentTree.RenderReplies` | src/components/post/post-comment-list.tsx:195-204 | a list is rendered iff the comment has replies; it is headed by the reply count and has one item per direct reply, in order |
| `CommentTree.RenderItems` | src/components/post/post-comment-list.tsx:203-205 | one rendered item per reply, the i-th item rendering the i-th reply |
| `CommentTree.RenderReply` | src/components/post/post-comment-list.tsx:205-325 | a reply shows the reply form and the reply-edit form iff the selector names it with the matching flag set, shows the actions iff the permission rule allows it, and nests a list iff it has replies |
| `CommentTree.RenderRoot` | src/components/post/post-comment-list.tsx:339-552 | a root item carries its id as element id, is highlighted iff it is the deep-linked comment and the flag is on, shows the reply form and the actions by the same rules as replies, and shows the edit form whenever `isEdit` is set, whichever comment is selected |
| `CommentTree.RenderRoots` | src/components/post/post-comment-list.tsx:337-339 | one root item per root comment, in order |
| `CommentTree.RenderThread` | src/components/post/post-comment-list.tsx:332-338 | a thread is rendered iff the comments have loaded, headed by their count, and its i-th item renders the i-th root comment |
| `CommentTree.HighlightOnLoad` | src/components/post/post-comment-list.tsx:77-78 | the highlight flag is set on load iff a non-empty comment id is deep-linked |
| `CommentTree.Ids` | src/components/post/post-comment-list.tsx:204 | the id list has one id per comment, in order |
| `CommentTree.RenderVisitsEveryDescendant` | src/components/post/post-comment-list.tsx:195-204 | the rendered ids are exactly the ids of all descendants, each once, in pre-order; their number is the tree size minus one |
| `CommentTree.RenderItemsVisitDescendants` | src/components/post/post-comment-list.tsx:203-205 | rendering a list of replies visits exactly the replies and their descendants, in pre-order |
| `CommentTree.LeafRendersNothing` | src/components/post/post-comment-list.tsx:196 | a comment without replies renders no list and has no descendants |
| `CommentTree.HighlightMarksDeepLink` | src/components/post/post-comment-list.tsx:344-350 | a root item is highlighted iff the flag is on and its id is the deep-linked one; with the flag off none is |
| `CommentTree.RootsAllShowEditForm` | src/components/post/post-comment-list.tsx:400 | every rendered root item shows the edit form while `isEdit` is set, and none does otherwise |
| `CommentTree.RootsShowOneReplyForm` | src/components/post/post-comment-list.tsx:355 | two root items both showing the reply form have the same comment id |

## Left out

- Markup, design-system components and styling. Only the visibility conditions and the data shapes are kept.
- Date formatting and relative times, which come from a date library. A picked date is formatted by a function given as a parameter; dates are opaque strings.
- The 3000 ms timer that clears the highlight, the scroll into view and the DOM lookup. The highlight flag is an input of the rendering.
- The socket subscription and unsubscription, including the mismatched event name on unsubscribe. This is listener wiring on a shared connection.
- Query-library mutations and cache invalidation. A success callback is modelled as the list of query keys it invalidates. The confirm dialog is a boolean answer.
- Console logging.
- The transaction row's `transactionStatus` field, which no mapping sets.
- The row renderer, including its `status || ''` fallback.
- The profile page, the header, the authentication result page, the build configuration and the category type declarations. None of them are part of this model.
- Text.Lower: folds only the ASCII letters, not the full Unicode lower-casing of `toLowerCase`, because Dafny has no Unicode case tables.
- Floating point: ledger amounts are integers, not IEEE doubles, because the view does no arithmetic on them.
- CommentTree.RenderReplies: the list header `"<n> replies"` is modelled by its count `n`, not the formatted string.
- CommentTree.RenderThread: the thread header `"<n> replies"` is modelled by its count `n`, not the formatted string.
- Three branches of `handleChangeType` spread the closure's `params` and two spread the updater's `prev`. In a sequential model both are the current parameters.

## Findings

| source | as written | input that shows it | evidently intended | confidence | as-written member | corrected member |
|---|---|---|---|---|---|---|
| src/components/post/post-comment-list.tsx:400 | the root edit form is shown when `isEdit` holds, without comparing `commentId` with the item | root comments `c1` and `c2`, then "Edit comment" on `c1`: both items show an edit form | show it only when `isEdit && commentId === item.commentId`, as the reply forms do | not executed; high | `CommentState.RootEditShownOnEveryRoot` | `CommentState.RootEditFormTarget` |
| src/components/post/post-comment-list.tsx:283 | the reply-edit form's close button calls `handleClickOutside`, which clears `isEdit`, not `isEditReply` | "Edit reply" on `r1`, then its close button: the reply-edit form of `r1` is still shown | the close button clears `isEditReply` | not executed; medium | `CommentState.ReplyEditCloseKeepsFormOpen` | `CommentState.CloseReplyEdit` |

The rendering (`CommentTree.RenderRoot`) follows line 400 as written (`CommentTree.RootsAllShowEditForm`). `CommentState.RootEditFormShown` is the corrected condition, and `CommentState.RootEditFormTarget` and `CommentState.AtMostOneInlineForm` prove that under it at most one root comment shows the edit form.
