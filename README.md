# grantAI core in Dafny

This project models the core of grantAI, a grant-proposal writing tool with a
React client and an Express/socket.io server. It covers:

- **Realtime** (`socket_service.dfy`): the collaboration server. It keeps a
  process-wide registry of each user's socket and of the users present in
  each proposal room. It authenticates sockets at the handshake and relays
  section edits, cursor moves and comments to the sockets of a proposal's
  room. On disconnect it takes the user out of every room and announces the
  departure. The service is a class whose handlers update the registry in
  place and append the messages they send to an outbox.
- **Editor** (`proposal_editor.dfy`): the collaborative editor component.
  It folds the relayed events into its view: active users, one cursor per
  user, comments, and the section text. It also computes the 32-bit string
  hash that colours remote cursors.
- **CreateProposal** (`create_proposal.dfy`): the AI-assisted proposal
  wizard. It covers the field-to-section-name mapping, the generation
  trigger, the title validator, and the state the wizard's handlers update:
  form data, errors, generation flags, generated content, previews,
  completed fields, the current section and the save status.
- **Templates** (`templates_page.dfy`): the template gallery's search,
  category and complexity filter, and the favourites toggle.
- **MyProposals** (`my_proposals.dfy`): the proposal list's filter, its
  sort comparator and the sort-header state, and the status colours.
- **TemplateLibrary** (`template_library.dfy`): the step-by-step template
  form. It covers nested form data, step navigation and template choice.
- **SubmissionReview** (`submission_review.dfy`): the review page. It
  covers submit gating, single-section expansion, the status colours and
  icons, and the confirmation dialog.
- **ProposalController** (`proposal_controller.dfy`): the proposal REST
  endpoints with the database replaced by a map. It covers owner stamping,
  `parseInt`-based pagination, the list query, ownership-scoped lookup,
  update and delete, and the section records that AI generation and
  improvement write.
- **Schemas** (`schemas.dfy`): the request validators for registration,
  proposals and section generation.

`common.dfy` holds Option/Result and the sequence and string helpers:
- filtering, with its subsequence and membership lemmas;
- JavaScript's `includes`, ASCII `toLowerCase`, and the clamped step
  arithmetic.

`protocol.dfy` holds the wire records that the server and the client share.

## Model

| member | source | states |
|---|---|---|
| Common.StepBack | client/src/components/TemplateLibrary.tsx:301 | `Math.max(0, step - 1)`: never below 0, and one step back from any positive step |
| Common.StepForward | client/src/components/TemplateLibrary.tsx:332-336 | `Math.min(count - 1, step + 1)`: never past the last step, one step on before it, and stays in range from a step in range |
| Common.ToLower | client/src/pages/TemplatesPage.tsx:114-116 | lower-casing keeps the length and maps exactly the letters A-Z to a-z |
| Common.IncludesAt | client/src/pages/TemplatesPage.tsx:114-116 | `includes` holds exactly when the needle occurs at some offset of the string |
| Common.Filter | client/src/pages/TemplatesPage.tsx:113-123 | `Array.prototype.filter`; the filter lemmas prove the survivors keep their order, that a test all elements pass keeps everything and one none pass keeps nothing |
| Common.Includes | client/src/pages/TemplatesPage.tsx:114-116 | `String.prototype.includes`, as a search for some offset; `Common.IncludesAt` proves it equals an occurrence at some offset |
| Common.Remove | client/src/pages/TemplatesPage.tsx:128 | `prev.filter(id => id !== x)`: every occurrence of the id removed, the rest kept in order |
| Common.Add | client/src/pages/CreateProposal.tsx:579 | `new Set([...prev, x])` on an insertion-ordered set: appends the id unless it is already present |
| Common.Utf16Length | client/src/pages/CreateProposal.tsx:100-101 | JavaScript's `length`: two code units for a character beyond U+FFFF, one otherwise |
| Common.Utf16LengthBounds | client/src/pages/CreateProposal.tsx:100-101 | the UTF-16 length lies between the character count and twice it, and equals the character count for text inside the Basic Multilingual Plane |
| Protocol.Override | server/src/services/socketService.ts:98-102 | a field spread from the payload wins over the server's own value when the payload has it |
| Realtime.RoomName | server/src/services/socketService.ts:64 | the room name is `proposal:` followed by the proposal id |
| Realtime.RoomNameInjective | server/src/services/socketService.ts:64 | two proposals share a room name only when they are the same proposal |
| Realtime.Authenticate | server/src/services/socketService.ts:27-54 | a socket is accepted exactly when its token is present and non-empty and the user exists; the identity is the user's id, name and email; otherwise "User not found" for an unknown user and "Authentication failed" for everything else |
| Realtime.Deliver | server/src/services/socketService.ts:72-75 | one emit sends the same event to each recipient in order, one delivery per recipient |
| Realtime.DeliverReaches | server/src/services/socketService.ts:98-131 | an emit reaches a socket exactly when the socket is a recipient, and every delivery carries the emitted event |
| Realtime.SectionUpdatedEvent | server/src/services/socketService.ts:98-102 | the relayed `section-updated` carries the payload's proposal, section, content and cursor, and the sender's id and identity unless the payload overrides them |
| Realtime.CursorMovedEvent | server/src/services/socketService.ts:114-118 | the relayed `cursor-moved` carries the payload's position, and the sender's id and identity unless the payload overrides them |
| Realtime.CommentAddedEvent | server/src/services/socketService.ts:131-136 | the relayed `comment-added` carries the comment and range, and the server's time and the sender unless the payload overrides them |
| Realtime.LeaveAllRooms | server/src/services/socketService.ts:141 | a closing socket leaves every socket.io room, and no room is deleted |
| Realtime.JoinRoom | server/src/services/socketService.ts:66-69 | a join creates the room if it is missing and adds the user at the end; a member's second join changes nothing; other rooms are untouched |
| Realtime.LeaveRoom | server/src/services/socketService.ts:81 | a leave removes exactly that user from the room; an unknown room or a non-member changes nothing; other rooms are untouched |
| Realtime.JoinThenLeaveRestores | server/src/services/socketService.ts:63-86 | a non-member who joins and then leaves finds the room's member list as it was |
| Realtime.NoticeRooms | server/src/services/socketService.ts:145-152 | the rooms the disconnect's notices are for, one per notice and in order |
| Realtime.LeftNoticesContent | server/src/services/socketService.ts:146-151 | every `user-left` of a disconnect is for a room that held the user, and it lists that room's members without the user |
| Realtime.LeftNoticesRooms | server/src/services/socketService.ts:145-146 | the announced rooms are exactly the rooms that held the user, in the registry's iteration order |
| Realtime.AnnounceSound | server/src/services/socketService.ts:148-151 | every delivery of a disconnect is a `user-left` for the user, sent to a socket of the announced room |
| Realtime.DisconnectAnnouncesEachRoomOnce | server/src/services/socketService.ts:141-154 | a disconnect announces each room that held the user exactly once and no other room; no notice lists the user; the closing socket receives none of them |
| Realtime.SweepRooms | server/src/services/socketService.ts:145-153 | the `forEach` loop removes the user from every room and sends exactly the `user-left` deliveries of the disconnect specification |
| Realtime.ConnectKeepsValid | server/src/services/socketService.ts:58-60 | accepting a socket keeps every room member and registry entry pointing at a live socket |
| Realtime.JoinKeepsRoomsValid | server/src/services/socketService.ts:63-69 | a join keeps the rooms duplicate-free, holding only live users, and keyed in creation order |
| Realtime.JoinKeepsIoValid | server/src/services/socketService.ts:64 | joining a socket.io room keeps every room a set of live sockets |
| Realtime.LeaveKeepsValid | server/src/services/socketService.ts:79-81 | a leave keeps the rooms and the socket.io rooms valid |
| Realtime.DisconnectKeepsValid | server/src/services/socketService.ts:141-153 | a disconnect keeps the rooms, the socket.io rooms and the registry valid once the socket is gone |
| Realtime.SocketService.constructor | server/src/services/socketService.ts:9-10 | the service starts with an empty registry, no rooms and nothing sent |
| Realtime.SocketService.Connect | server/src/services/socketService.ts:27-60 | a refused socket changes nothing; an accepted one is recorded and overwrites the user's earlier registry entry; rooms and outbox are untouched |
| Realtime.SocketService.OnJoinProposal | server/src/services/socketService.ts:63-76 | the socket joins the room, the user joins the member list, and `user-joined` with the post-join list goes to every socket of the room, the joiner's included |
| Realtime.SocketService.OnLeaveProposal | server/src/services/socketService.ts:79-87 | the socket leaves the room, the user leaves the member list, and `user-left` with the post-leave list (empty for an unknown room) goes to the sockets still in the room |
| Realtime.SocketService.OnSectionUpdate | server/src/services/socketService.ts:90-104 | the update goes to every socket of the payload's room except the sender, whether or not the sender joined it; the registry is untouched |
| Realtime.SocketService.OnCursorMove | server/src/services/socketService.ts:107-120 | the cursor move goes to every socket of the room except the sender; the registry is untouched |
| Realtime.SocketService.OnAddComment | server/src/services/socketService.ts:123-138 | the comment, stamped with the given time, goes to every socket of the room, the sender's included |
| Realtime.SocketService.OnDisconnect | server/src/services/socketService.ts:141-154 | the user's registry entry is deleted, even when another socket of the user is open; the user leaves every room, emptied rooms stay, and each room that held the user gets one `user-left` |
| Editor.Initial | client/src/components/ProposalEditor.tsx:23-26 | a mounted editor shows its initial content, no users, no cursors and no comments |
| Editor.CursorsWithout | client/src/components/ProposalEditor.tsx:33-44 | dropping a user's cursors keeps exactly the other cursors, in order, and keeps one cursor per user |
| Editor.FilterKeepsOneCursorPerUser | client/src/components/ProposalEditor.tsx:33-44 | filtering cursors never gives a user a second cursor |
| Editor.OnUserJoined | client/src/components/ProposalEditor.tsx:30-32 | the active users become the event's list; nothing else changes |
| Editor.OnUserLeft | client/src/components/ProposalEditor.tsx:33-36 | the active users become the event's list, and exactly the leaving user's cursors are dropped with the others kept in order |
| Editor.OnSectionUpdated | client/src/components/ProposalEditor.tsx:37-39 | the text becomes the event's text, whatever the section (last write wins) |
| Editor.OnCursorMoved | client/src/components/ProposalEditor.tsx:40-52 | the mover has exactly one cursor, the last one, at the new position; the other cursors are kept in order |
| Editor.OnCommentAdded | client/src/components/ProposalEditor.tsx:53-55 | the comment list grows by exactly the event, and earlier comments are unchanged |
| Editor.HandleContentChange | client/src/components/ProposalEditor.tsx:59-62 | a local edit sets the text and emits a `section-update` of this proposal and section with that text |
| Editor.HandleCursorMove | client/src/components/ProposalEditor.tsx:65-67 | a local cursor move emits a `cursor-move` for this editor's section |
| Editor.HandleAddComment | client/src/components/ProposalEditor.tsx:70-75 | a local comment emits an `add-comment` for this editor's section |
| Editor.EditReachesPeers | client/src/components/ProposalEditor.tsx:37-39 | an edit relayed by the server puts the same text in a peer's editor, attributed to the editor's own user |
| Editor.CursorMoveReachesPeers | client/src/components/ProposalEditor.tsx:40-52 | a relayed cursor move becomes the mover's only cursor in the peer's view |
| Editor.ToInt32 | client/src/components/ProposalEditor.tsx:159 | ToInt32 gives the signed 32-bit number congruent to its input, and leaves numbers already in range alone |
| Editor.ShiftLeft5 | client/src/components/ProposalEditor.tsx:159 | `h << 5` is a signed 32-bit number congruent to 32 times ToInt32 of `h` |
| Editor.StepBound | client/src/components/ProposalEditor.tsx:159 | one loop step moves the hash by a bounded amount |
| Editor.HashFoldBound | client/src/components/ProposalEditor.tsx:156-161 | the hash grows at most linearly with the length, so it stays an exact safe integer for any realistic id |
| Editor.HashString | client/src/components/ProposalEditor.tsx:156-162 | the loop computes the absolute value of the folded hash, which is never negative and is 0 for the empty string |
| Editor.CursorHue | client/src/components/ProposalEditor.tsx:116 | a cursor's hue lies in [0, 360) |
| CreateProposal.AISectionName | client/src/pages/CreateProposal.tsx:360-371 | the seven listed fields map to their AI service names; any other id is returned unchanged |
| CreateProposal.FindField | client/src/pages/CreateProposal.tsx:405 | `find` returns the first field with the id, or nothing exactly when no field has it |
| CreateProposal.TitleError | client/src/pages/CreateProposal.tsx:100-101 | the title has an error exactly when its `length`, in UTF-16 code units, is below 5, with the page's message |
| CreateProposal.TitleCountsCodeUnits | client/src/pages/CreateProposal.tsx:100-101 | "Water" passes and "Wate" fails, and three characters beyond U+FFFF pass because each counts twice |
| CreateProposal.Validate | client/src/pages/CreateProposal.tsx:406-411 | a field without a validator never reports an error |
| CreateProposal.ShouldTriggerGeneration | client/src/pages/CreateProposal.tsx:472-482 | generation triggers exactly for a required AI-assisted field of the current section with a non-empty value; the 50-character textarea branch adds nothing |
| CreateProposal.Filled | client/src/pages/CreateProposal.tsx:418 | the truthiness test on a string record: the key is present with a non-empty value |
| CreateProposal.Flagged | client/src/pages/CreateProposal.tsx:418 | the truthiness test on a flag record: the key is present and true |
| CreateProposal.AutoGenerateTargets | client/src/pages/CreateProposal.tsx:73-84 | the section-change effect's filter, in field order; `CreateProposal.AutoGenerateTargetsExactly` proves which fields it keeps |
| CreateProposal.WithFlags | client/src/pages/CreateProposal.tsx:79-83 | the flag map after one functional `setIsGenerating` per started field; `CreateProposal.WithFlagsSets` proves which keys it sets |
| CreateProposal.FieldIdsDistinct | client/src/pages/CreateProposal.tsx:87-357 | no two fields of a section share an id, and each section has three fields |
| CreateProposal.AutoGenerateTargetsExactly | client/src/pages/CreateProposal.tsx:73-84 | the section-change effect targets exactly the AI-assisted fields with input, no generated content and no generation running |
| CreateProposal.AutoGenerateTargetsSnoc | client/src/pages/CreateProposal.tsx:79-83 | the targets of a longer prefix are those of the shorter one plus the next field when it qualifies |
| CreateProposal.WithFlagsSets | client/src/pages/CreateProposal.tsx:491 | setting flags one after another sets exactly the listed keys and changes no other key |
| CreateProposal.ProposalWizard.constructor | client/src/pages/CreateProposal.tsx:52-69 | the wizard starts on the first section with empty maps, no completed fields and status "saved" |
| CreateProposal.ProposalWizard.HandleInputChange | client/src/pages/CreateProposal.tsx:398-425 | the value is stored and the status becomes "unsaved"; a field with a validator records its error or ""; the returned trigger is `shouldTriggerGeneration` |
| CreateProposal.ProposalWizard.BeginGeneration | client/src/pages/CreateProposal.tsx:484-498 | on the current flags, as for the Generate button: a field already generating or already holding generated content changes nothing and sends no request; otherwise its flag is set and the mapped section name is requested |
| CreateProposal.ProposalWizard.TimerGeneration | client/src/pages/CreateProposal.tsx:414-421 | an input timer firing decides on the flags and content its keystroke's render saw, for both its own test and the handler's guard, and sets the flag on the current state |
| CreateProposal.ProposalWizard.BeginImprove | client/src/pages/CreateProposal.tsx:533-543 | improvement has no guard: the flag is set and the field's current text (or "") is sent |
| CreateProposal.ProposalWizard.FinishGeneration | client/src/pages/CreateProposal.tsx:506-530 | the flag is cleared whether the request succeeded or failed; on success the answer is stored and its preview shown |
| CreateProposal.ProposalWizard.ApplyGeneratedContent | client/src/pages/CreateProposal.tsx:572-586 | with no generated content nothing changes; otherwise the field takes the content, joins the completed fields once, and its preview is hidden |
| CreateProposal.ProposalWizard.NextDisabled | client/src/pages/CreateProposal.tsx:883-886 | the Next button is disabled on the last section while there is no project title |
| CreateProposal.ProposalWizard.HandleNextClick | client/src/pages/CreateProposal.tsx:464-470 | a disabled button changes nothing; on the last section the complete proposal is requested and the section stays; before it the section moves one on |
| CreateProposal.ProposalWizard.FinishCompleteProposal | client/src/pages/CreateProposal.tsx:437-461 | the complete-proposal flag is cleared in every case, and a result is stored under `completeProposal` |
| CreateProposal.ProposalWizard.Previous | client/src/pages/CreateProposal.tsx:844-847 | Previous moves one section back and never below the first |
| CreateProposal.ProposalWizard.SelectSection | client/src/pages/CreateProposal.tsx:767 | a click in the section list jumps to that section |
| CreateProposal.ProposalWizard.AutoGenerate | client/src/pages/CreateProposal.tsx:73-84 | the effect starts generation for exactly its targets, in field order, and sets their flags, judged on the flags as they were when the effect ran |
| CreateProposal.ProposalWizard.BeginSave | client/src/pages/CreateProposal.tsx:588-590 | saving shows "saving" |
| CreateProposal.ProposalWizard.FinishSave | client/src/pages/CreateProposal.tsx:593-600 | a settled save shows "saved" on success and "unsaved" on failure |
| CreateProposal.TwoKeystrokesTwoRequests | client/src/pages/CreateProposal.tsx:414-424 | two keystrokes in the summary before either timer fires start two requests for it, where a Generate click at that point would be refused |
| Templates.FilterTemplates | client/src/pages/TemplatesPage.tsx:113-123 | the result holds exactly the templates that pass search, category and complexity, in their original order |
| Templates.MatchesSearch | client/src/pages/TemplatesPage.tsx:114-116 | the lower-cased query occurs in the lower-cased title or description |
| Templates.SelectMatches | client/src/pages/TemplatesPage.tsx:117-121 | a select's test as written: only the exact value "all" switches it off |
| Templates.Matches | client/src/pages/TemplatesPage.tsx:113-123 | a template is listed when it passes the search and both selects |
| Templates.ToLowerIdempotent | client/src/pages/TemplatesPage.tsx:114-116 | lower-casing twice is lower-casing once |
| Templates.SearchIgnoresQueryCase | client/src/pages/TemplatesPage.tsx:114-116 | a query and its lower-cased form list the same templates |
| Templates.SearchIsSubstring | client/src/pages/TemplatesPage.tsx:114-116 | a template matches the search exactly when the lower-cased query occurs in its lower-cased title or description |
| Templates.EmptyFilterKeepsAll | client/src/pages/TemplatesPage.tsx:113-123 | with an empty query and both selects on "all" every template is listed |
| Templates.UnknownCategoryListsNothing | client/src/pages/TemplatesPage.tsx:117-118 | a category no template has lists nothing |
| Templates.AllCategoryOptionListsNothing | client/src/pages/TemplatesPage.tsx:103-118 | the category list's own "All" entry lists no template |
| Templates.AllComplexityOptionListsNothing | client/src/pages/TemplatesPage.tsx:111-121 | the complexity list's own "All" entry lists no template |
| Templates.FilterTemplatesIntended | client/src/pages/TemplatesPage.tsx:113-123 | with "All" read like "all", the result holds exactly the matching templates, in order |
| Templates.AllOptionMeansAll | client/src/pages/TemplatesPage.tsx:117-121 | under the intended test "All" and "all" list the same templates, and the intended filter agrees with the written one everywhere else |
| Templates.ToggleFavorite | client/src/pages/TemplatesPage.tsx:125-131 | a present id is removed, every occurrence of it, and nothing else; an absent id is appended at the end |
| Templates.ToggleKeepsNoDup | client/src/pages/TemplatesPage.tsx:125-131 | toggling keeps a duplicate-free list duplicate-free |
| Templates.ToggleTwiceSameMembers | client/src/pages/TemplatesPage.tsx:125-131 | toggling the same id twice gives back the same members |
| Templates.ToggleTwiceRestores | client/src/pages/TemplatesPage.tsx:125-131 | on a duplicate-free list, toggling twice gives back the very list exactly when the id was absent or last |
| MyProposals.FilterProposals | client/src/pages/MyProposals.tsx:91-107 | the result holds exactly the proposals passing search, status, type and date, in their original order |
| MyProposals.MatchesSearch | client/src/pages/MyProposals.tsx:92-94 | the lower-cased query occurs in the lower-cased title or organization |
| MyProposals.Matches | client/src/pages/MyProposals.tsx:91-107 | search, exact status and type unless "all", and for "thisMonth" the same calendar month of any year |
| MyProposals.NoFilterKeepsAll | client/src/pages/MyProposals.tsx:91-107 | with no query and every select on "all" the whole list is shown |
| MyProposals.StatusFilterIsExact | client/src/pages/MyProposals.tsx:95-96 | a status filter other than "all" shows only proposals with exactly that status |
| MyProposals.StrLess | client/src/pages/MyProposals.tsx:113 | JavaScript's `<` on strings: lexicographic on character codes, a proper prefix first |
| MyProposals.Key | client/src/pages/MyProposals.tsx:110-111 | `a[sortBy]`: the title or the last-modified date |
| MyProposals.StrLessIrreflexive | client/src/pages/MyProposals.tsx:113 | no string is less than itself |
| MyProposals.StrLessTransitive | client/src/pages/MyProposals.tsx:113 | string order is transitive |
| MyProposals.StrLessTotal | client/src/pages/MyProposals.tsx:113 | two different strings are ordered one way or the other |
| MyProposals.Compare | client/src/pages/MyProposals.tsx:109-114 | the comparator answers only 1 or -1, and 1 exactly when the first key is greater (ascending) or not greater (descending) |
| MyProposals.Insert | client/src/pages/MyProposals.tsx:109-114 | inserting adds exactly the one proposal |
| MyProposals.SortProposals | client/src/pages/MyProposals.tsx:109 | the sorted list is a permutation of the filtered list |
| MyProposals.BeforeTransitive | client/src/pages/MyProposals.tsx:109-114 | the order the comparator sorts by is transitive in both directions |
| MyProposals.InsertSorted | client/src/pages/MyProposals.tsx:109-114 | inserting a proposal with a new key into a sorted list keeps it sorted |
| MyProposals.SortedWhenKeysDistinct | client/src/pages/MyProposals.tsx:109-114 | with distinct keys the result is strictly ascending for "asc" and strictly descending for "desc" |
| MyProposals.Flip | client/src/pages/MyProposals.tsx:192-193 | a click on the active header swaps ascending and descending |
| MyProposals.DefaultOrder | client/src/pages/MyProposals.tsx:191-223 | a newly picked column starts ascending for the title and descending for the date |
| MyProposals.HeaderClick | client/src/pages/MyProposals.tsx:191-223 | clicking the active column flips the order; another column becomes active with its default order, ascending for the title and descending for the date |
| MyProposals.ClickTwice | client/src/pages/MyProposals.tsx:191-223 | two clicks on the active column restore the state; on another column they leave it active in the reverse of its default order |
| MyProposals.SortHeaders.constructor | client/src/pages/MyProposals.tsx:38-39 | the list starts sorted by last modified, descending |
| MyProposals.SortHeaders.Click | client/src/pages/MyProposals.tsx:191-223 | a header click moves the sort state exactly as `HeaderClick` says |
| MyProposals.StatusColor | client/src/pages/MyProposals.tsx:80-89 | the five known statuses have their own colours; any other status is grey |
| TemplateLibrary.CurrentSections | client/src/components/TemplateLibrary.tsx:160 | a template without declared sections has none |
| TemplateLibrary.FieldValue | client/src/components/TemplateLibrary.tsx:261-264 | the value an input shows: the stored value, or "" when its section or field has none |
| TemplateLibrary.OnlyGenericHasSections | client/src/components/TemplateLibrary.tsx:37-158 | of the three templates offered, only "generic" has steps (five of them) |
| TemplateLibrary.SetField | client/src/components/TemplateLibrary.tsx:162-174 | the field's section is created if missing and the field set; the section's other fields and the other sections are unchanged |
| TemplateLibrary.SetFieldThenRead | client/src/components/TemplateLibrary.tsx:162-262 | after an input change that input shows the new value and every other input shows what it showed before |
| TemplateLibrary.NextThenPrevious | client/src/components/TemplateLibrary.tsx:301-336 | Next then Previous returns to the same step unless the form was on its last step |
| TemplateLibrary.ProposalForm.constructor | client/src/components/TemplateLibrary.tsx:32-35 | the form starts on the generic template at step 0 with no data, showing the selection screen |
| TemplateLibrary.ProposalForm.Sections | client/src/components/TemplateLibrary.tsx:160 | the steps of the open template |
| TemplateLibrary.ProposalForm.ShowsSubmit | client/src/components/TemplateLibrary.tsx:322 | the last step shows Submit where the others show Next |
| TemplateLibrary.ProposalForm.HandleInputChange | client/src/components/TemplateLibrary.tsx:162-174 | the form data becomes `SetField` of the old data |
| TemplateLibrary.ProposalForm.Previous | client/src/components/TemplateLibrary.tsx:301 | Previous moves one step back and never below 0 |
| TemplateLibrary.ProposalForm.Next | client/src/components/TemplateLibrary.tsx:332-336 | Next moves one step on and never past the template's last step |
| TemplateLibrary.ProposalForm.SaveDraft | client/src/components/TemplateLibrary.tsx:315 | Save Draft leaves the data as it was |
| TemplateLibrary.ProposalForm.PickTemplate | client/src/components/TemplateLibrary.tsx:192-195 | picking a template opens it and leaves the selection screen, without resetting the step |
| TemplateLibrary.ProposalForm.BackToTemplates | client/src/components/TemplateLibrary.tsx:216 | going back shows the selection screen and keeps the template, the step and the data |
| SubmissionReview.SubmitDisabled | client/src/pages/SubmissionReview.tsx:112 | Submit is disabled exactly when some section is "incomplete" |
| SubmissionReview.ShippedReviewBlocked | client/src/pages/SubmissionReview.tsx:30-112 | the page's own sections, with their incomplete budget, cannot be submitted |
| SubmissionReview.ToggleExpanded | client/src/pages/SubmissionReview.tsx:132-136 | clicking the expanded section collapses it, and clicking any other makes it the only expanded one |
| SubmissionReview.ToggleTwice | client/src/pages/SubmissionReview.tsx:132-136 | two clicks on one header restore the expansion exactly when nothing or that section was expanded; otherwise all ends collapsed |
| SubmissionReview.StatusColor | client/src/pages/SubmissionReview.tsx:74-81 | the three statuses have their own colours; anything else is grey |
| SubmissionReview.StatusIcon | client/src/pages/SubmissionReview.tsx:83-94 | exactly the three statuses have an icon, each its own |
| SubmissionReview.ClickSubmit | client/src/pages/SubmissionReview.tsx:110-112 | Submit opens the dialog exactly when it is not disabled |
| SubmissionReview.CloseDialog | client/src/pages/SubmissionReview.tsx:291-301 | Cancel and Confirm close the dialog and change nothing else |
| SubmissionReview.ShippedDialogStaysClosed | client/src/pages/SubmissionReview.tsx:110-279 | with the page's own sections the dialog never opens |
| ProposalController.Rethrow | server/src/controllers/proposalController.ts:25-27 | a caught error keeps its message and its status code, or takes 500 when it has none |
| ProposalController.NotFoundSurvivesCatch | server/src/controllers/proposalController.ts:78-224 | a "Proposal not found" or "Section not found" 404 leaves the handler unchanged |
| ProposalController.DigitValue | server/src/controllers/proposalController.ts:32-33 | a digit's value is below its radix |
| ProposalController.IsSpace | server/src/controllers/proposalController.ts:32-33 | the white space and line terminators `parseInt` skips |
| ProposalController.TrimStart | server/src/controllers/proposalController.ts:32-33 | `parseInt`'s first step, dropping leading white space; `ProposalController.TrimStartDropsSpace` proves what it drops |
| ProposalController.LeadingDigits | server/src/controllers/proposalController.ts:32-33 | the run of digits `parseInt` reads; `ProposalController.LeadingDigitsLongest` proves it is the longest |
| ProposalController.DigitsValue | server/src/controllers/proposalController.ts:32-33 | the number a run of digits denotes in base 10 or 16 |
| ProposalController.ParseMagnitude | server/src/controllers/proposalController.ts:32-33 | the unsigned part of `parseInt`: "0x" selects base 16, then the longest digit run, or NaN when there is none |
| ProposalController.Signed | server/src/controllers/proposalController.ts:32-33 | NaN stays NaN, and a minus sign negates the magnitude |
| ProposalController.ParseSigned | server/src/controllers/proposalController.ts:32-33 | an optional sign and then the magnitude |
| ProposalController.ParseInt | server/src/controllers/proposalController.ts:32-33 | `parseInt` with no radix; `ProposalController.ParseIntDecimal` proves it reads back every decimal numeral |
| ProposalController.TrimStartDropsSpace | server/src/controllers/proposalController.ts:32-33 | `parseInt` skips exactly the leading white space |
| ProposalController.LeadingDigitsLongest | server/src/controllers/proposalController.ts:32-33 | `parseInt` reads the longest run of digits at the start |
| ProposalController.Decimal | server/src/controllers/proposalController.ts:32-33 | a number's decimal text is a non-empty run of digits |
| ProposalController.DecimalValue | server/src/controllers/proposalController.ts:32-33 | the digits of a number's decimal text denote that number |
| ProposalController.ParseIntDecimal | server/src/controllers/proposalController.ts:32-33 | `parseInt` reads back every natural number written in decimal |
| ProposalController.ParseIntOfDigits | server/src/controllers/proposalController.ts:32-33 | a plain run of decimal digits parses as the number it denotes |
| ProposalController.MagnitudeOfDigits | server/src/controllers/proposalController.ts:32-33 | the unsigned reading of a run of decimal digits is its value |
| ProposalController.LeadingDigitsOfDigits | server/src/controllers/proposalController.ts:32-33 | a string made only of digits is read whole |
| ProposalController.IntParam | server/src/controllers/proposalController.ts:32-33 | `parseInt(raw) \|\| fallback`: the parsed number unless it is NaN or 0, and the fallback for a missing parameter |
| ProposalController.IntParamReadsNumbers | server/src/controllers/proposalController.ts:32-33 | a positive number in the query is taken as it is |
| ProposalController.IntParamFallsBack | server/src/controllers/proposalController.ts:32-33 | "0", "" and a non-number all give the default |
| ProposalController.CeilDiv | server/src/controllers/proposalController.ts:62 | `Math.ceil(a / b)` for a positive divisor is the least multiple count covering `a`, and 0 only for 0 |
| ProposalController.CeilDivBounds | server/src/controllers/proposalController.ts:62 | the rounded-up quotient lies within one divisor of the dividend |
| ProposalController.Paginate | server/src/controllers/proposalController.ts:32-63 | page and limit default to 1 and 10 and are never 0; skip is `(page - 1) * limit`; pages is the rounded-up quotient |
| ProposalController.PaginateDefaults | server/src/controllers/proposalController.ts:32-34 | with no parameters the first ten proposals are asked for |
| ProposalController.PagesCoverTotal | server/src/controllers/proposalController.ts:62 | for a positive limit the pages cover every matching proposal and the last page is not empty |
| ProposalController.NegativePageSkipsBackwards | server/src/controllers/proposalController.ts:32-34 | as written, page "-1" gives a skip of -20 |
| ProposalController.PositiveIntParam | server/src/controllers/proposalController.ts:32-33 | the parsed number when it is positive, the default otherwise; never below 1 |
| ProposalController.PaginateIntended | server/src/controllers/proposalController.ts:32-34 | with positive page and limit the skip is never negative |
| ProposalController.PaginateIntendedAgrees | server/src/controllers/proposalController.ts:32-34 | the corrected pagination equals the written one whenever the parameters are absent or positive |
| ProposalController.BuildQuery | server/src/controllers/proposalController.ts:36-45 | the query always names the caller, and adds a status or a search only when one is given and non-empty |
| ProposalController.NewProposal | server/src/controllers/proposalController.ts:12-15 | a created proposal belongs to the caller whatever the body says, keeps exactly the body's other fields, and takes the body's sections or none |
| ProposalController.FindOwned | server/src/controllers/proposalController.ts:73-80 | a proposal is found exactly when it exists and the caller owns it; otherwise 404 "Proposal not found" |
| ProposalController.UpdateOwned | server/src/controllers/proposalController.ts:95-109 | an update of a proposal the caller cannot find is a 404; otherwise each top-level key of the body replaces the stored one, `userId` and the whole `sections` object included, every key the body does not name keeps its value, and other proposals are untouched |
| ProposalController.UpdateCanChangeOwner | server/src/controllers/proposalController.ts:95-105 | an update whose body names another user hands the proposal over, and the former owner can no longer find it |
| ProposalController.DeleteOwned | server/src/controllers/proposalController.ts:124-131 | delete removes exactly the caller's proposal, or answers 404 |
| ProposalController.Generated | server/src/controllers/proposalController.ts:163-177 | the generated section has the new content and is marked as AI-generated, its version is one past the old one (or 1), and its history grows by the replaced content |
| ProposalController.Improved | server/src/controllers/proposalController.ts:232-245 | the improved section keeps its other fields, takes the new content, goes up one version and appends the old content to its history |
| ProposalController.WritesKeepVersionCount | server/src/controllers/proposalController.ts:163-245 | generation and improvement both keep the version equal to the history's length |
| ProposalController.ImproveExtendsContents | server/src/controllers/proposalController.ts:232-245 | improvement loses no content: the contents so far grow by exactly the new one |
| ProposalController.GenerateExtendsContents | server/src/controllers/proposalController.ts:163-177 | generation loses no content: the contents grow by the generated one, and a new section starts from an absent content |
| ProposalController.ProposalDoc.Load | server/src/controllers/proposalController.ts:147-150 | the loaded document holds the stored proposal |
| ProposalController.ProposalDoc.GenerateSection | server/src/controllers/proposalController.ts:163-177 | the section is replaced by its generated record and no other section changes |
| ProposalController.ProposalDoc.ImproveSection | server/src/controllers/proposalController.ts:221-245 | a missing section is a 404 "Section not found" with no change; otherwise the section is replaced by its improved record |
| ProposalController.GenerateSectionHandler | server/src/controllers/proposalController.ts:142-179 | a proposal the caller cannot find is a 404 with the store unchanged; otherwise exactly that proposal's section is rewritten |
| ProposalController.ImproveSectionHandler | server/src/controllers/proposalController.ts:207-258 | 404 for a missing proposal and then for a missing section, both with nothing saved; otherwise exactly the improved section is saved and returned |
| Schemas.ContainsInRange | server/src/validations/schemas.ts:9-11 | a character class test holds exactly when some character lies in the range |
| Schemas.PasswordIssues | server/src/validations/schemas.ts:6-11 | each of the four password messages is reported exactly when its check fails |
| Schemas.PasswordAccepted | server/src/validations/schemas.ts:6-11 | a password passes exactly when it has at least 8 characters, an upper-case letter, a lower-case letter and a digit |
| Schemas.RegisterIssues | server/src/validations/schemas.ts:4-14 | the email and name messages are reported exactly when those checks fail, along with every password message |
| Schemas.RegisterAccepted | server/src/validations/schemas.ts:4-14 | registration passes exactly when the email is valid, the password passes and the name has 2 or more characters, whatever the organization |
| Schemas.ProposalIssues | server/src/validations/schemas.ts:21-47 | each field is reported exactly when its check fails |
| Schemas.HeadIssues | server/src/validations/schemas.ts:22-36 | the title, organization type and target amount are reported exactly when their checks fail |
| Schemas.TailIssues | server/src/validations/schemas.ts:37-46 | the timeline dates, objectives and team size are reported exactly when their checks fail |
| Schemas.Check | server/src/validations/schemas.ts:21-47 | a check reports its path exactly when it fails |
| Schemas.ProposalAccepted | server/src/validations/schemas.ts:21-47 | a proposal passes exactly when: the title has 3 or more characters; the organization type is one of five; there is an objective; a given amount is positive; given timeline dates are date-times; a given team size is a whole number of at least 1 |
| Schemas.OptionalFieldsOptional | server/src/validations/schemas.ts:32-46 | leaving out the optional fields never makes a valid proposal invalid |
| Schemas.IsWhole | server/src/validations/schemas.ts:46 | `.int()`: the number has no fractional part |
| Schemas.ValidSectionGeneration | server/src/validations/schemas.ts:49-60 | a section name among the seven and, when given, a temperature between 0 and 1 |
| Schemas.WizardNamesMatchSchema | server/src/validations/schemas.ts:50-58 | the wizard's renamed field ids are exactly the seven section names the schema accepts |
| Schemas.UnmappedFieldRefused | server/src/validations/schemas.ts:50-58 | an AI-assisted field the wizard does not rename keeps a name this schema would refuse; the wizard's own route does not apply the schema |

## Left out

- Transport and I/O are not modelled: socket.io, HTTP and express routing, CORS, the database, the AI service, email and notifications, toasts, timers and JSX rendering.
  - Handshake lookups and AI answers are parameters.
  - The clock is a `now` parameter. A handler's two `new Date()` calls share it.
- Concurrency is not modelled. Node runs each handler to completion, so each handler is one atomic step.
- The asynchronous wizard and controller handlers are split at their `await`: a method for the part before the request and one for its continuation.
- The `notifyProposalUpdated`/`notifyCollaboratorAdded` one-liners are not modelled. Nothing in the core calls them.
- server/src/hooks/useWebSocket.ts is not part of this model. Its emitted payloads are the inputs of the server handlers.
- Realtime: `activeUsers` holds user ids on the server, but the editor renders its entries as user objects. The model keeps the ids and does not model the rendering.
- The duplicated, unbalanced tail of `generateSection` (proposalController.ts lines 191-204) is not modelled. Only the section record it writes is.
- ProposalController.IntParam: `parseInt` is exact on unbounded integers. It does not lose precision past 2^53, and an array-valued query parameter is not modelled.
- ProposalController.Paginate: for a negative limit, what the database makes of the skip and the limit is not modelled. `pages` is still `Math.ceil(total / limit)`.
- MyProposals.SortProposals: the comparator never answers 0. The order of proposals with equal keys depends on the engine's sort, so it is left open. The model sorts by insertion and proves order only for distinct keys.
- MyProposals.StrLess compares Unicode code points. JavaScript compares UTF-16 code units, which differ only for characters beyond U+FFFF.
- MyProposals.FilterProposals: the "this month" test compares `getMonth()` alone. It passes a proposal last modified in the current calendar month of any earlier year. Date parsing is not modelled: the proposals with a matching month are given as a set.
- Common.ToLower lower-cases ASCII letters only. JavaScript's `toLowerCase` also maps other scripts.
- Editor.HashString: `charCodeAt` reads UTF-16 code units. The model reads one code point per character, which differs only beyond U+FFFF.
- The colour lookups use object literals, so a status named like an `Object.prototype` member (for example "constructor") would find that member, not grey. The model gives such statuses grey.
- TemplateLibrary: choosing a template without sections crashes the page when it renders `currentSections[0]`. The model keeps the state and does not model rendering.
- Schemas.RegisterIssues: the email format check is a parameter. zod's email pattern is not modelled.
- Schemas.ProposalIssues: the date-time format check is a parameter, and numbers are exact rationals. A JSON number that overflows to infinity and the type errors zod reports for wrong JSON types are not modelled.
- Schemas: string lengths count Unicode code points. zod counts UTF-16 code units.
- CreateProposal.TitleError counts UTF-16 code units through `Common.Utf16Length`, as `length` does. The only other client length test, in `ShouldTriggerGeneration`, decides nothing beyond whether the value is empty, so it is unaffected.
- CreateProposal.ProposalWizard.BeginGeneration models the Generate button, which runs on the current state. An input timer is never cancelled: `handleInputChange` returns a cleanup function, but React discards an event handler's result. Each timer judges on the flags and content captured at its keystroke, and so does the handler it calls, so quick keystrokes can start duplicate requests (`CreateProposal.ProposalWizard.TimerGeneration`, `CreateProposal.TwoKeystrokesTwoRequests`). The 1.5-second delay and when each timer fires are left to the caller.
- Schemas.ValidSectionGeneration guards only the proposal route's section generation. The wizard posts to the AI route, which checks only that a section name and a proposal are present. That route is not part of this model.
- ProposalController.UpdateOwned: a `sections` object in the body replaces the stored sections whole, as a top-level `$set` does. Mongoose casting and schema validation of the new value are not modelled.
- `loginSchema`, the `validateRequest` middleware, the authentication controller and the data-only pages are outside the core.

## Findings

| source | as written | input that shows it | evidently intended | confidence | as-written member | corrected member |
|---|---|---|---|---|---|---|
| client/src/pages/TemplatesPage.tsx:103-121 | each select lists its own "All" entry beside the "all" option, but only "all" disables the test | choosing "All" in the category select, for any query | "All" shows every template, like "all" | not executed | Templates.AllCategoryOptionListsNothing | Templates.AllOptionMeansAll |
| server/src/controllers/proposalController.ts:32-34 | `parseInt(page) \|\| 1` lets a negative page through | `?page=-1` gives skip -20 | a page that is not positive falls back to 1, so skip is never negative | not executed | ProposalController.NegativePageSkipsBackwards | ProposalController.PaginateIntended |
