# RAG-project: dashboard state, folder views, range lookup and sentence batching in Dafny

This project models the core of the RAG-project, a retrieval-augmented chat application, and proves
properties of that model. It has two halves.

**Frontend.** The Next.js components hold the chat and document state:

- The current chat dashboard (`frontend/app/dashboard/page.tsx`). It keeps the chat sessions, the current chat and the uploaded documents.
- Chat–document links with an `isContextActive` flag.
- The ids of documents uploaded to a draft that is not saved yet, called the pending documents.
- The list of active-context document folders. The general folder, id `-1`, always heads this list.
- The earlier dashboard (`app/dashboard/page.tsx`). Its draft starts with a bot greeting and its send only records the message.
- The document viewer (`app/components/DocumentViewer.tsx`) and the chat history viewer (`frontend/app/components/ChatHistoryViewer.tsx`). These file items into folders, move them, delete folders, toggle selections and toggle active-context folders.

**Backend.** Two pieces of Python:

- `RangeDict` (`backend/utils.py`): an interval map kept as three parallel lists sorted by range start.
- The token-budget batching of `sentence_chunk` (`backend/test_embed.py`).

## How the model is built

- Records are datatypes (`Entities`). Nullable numbers are `Option<int>`.
- JavaScript truthiness is modelled exactly: `null`, `undefined` and `0` are falsy (`Common.Truthy`).
  - So `folderId || undefined` maps `0` to unfiled.
  - So `!chat.chatFolderId` lists a chat filed under `0` as unfiled.
- Each React component is a class whose fields are its `useState` variables. Each handler is a method.
  - A handler computes from the state of its render, since React closures see that state.
  - `handleSendMessage` resolves the context documents from the old selection, pending ids and links.
  - The `forEach(linkDocumentToChat)` loops check for existing links in the render's table, while each updater applies to the table left by the calls before it (`Context.LinkEach`).
  - `handleChatSelect` looks the chat up in the session list from before its own save.
- The viewers' props are copies of the dashboard state.
  - Each write-back goes through the dashboard setter.
  - Active-context writes go through `handleUpdateActiveContext`, which is `Context.UpdatedActiveContext`.
- Inputs the code takes from outside are parameters:
  - fresh ids (`Date.now()`, `Date.now() + Math.random()`), with preconditions that they are unused;
  - the answer of `confirm()`;
  - the RAG answer, or its failure;
  - the clock, in milliseconds;
  - the tokenizer's token-id counts;
  - the embedding encoder, as a function from batches to rows.
- `RangeDict` is a class over three `seq<int>`/`seq<V>` fields.
  - `add_range` inserts at `bisect.bisect_right`, computed by a binary-search method proved equal to the specification function `Ranges.UpperBound`.
  - The constructor sorts with a stable insertion sort (`Ranges.SortByStart`, stability in `Ranges.SortByStartStable`) and adds the ranges one by one. Because the sort is stable, `get` resolves ranges with equal starts to the one given last.
- The batching is three loops proved against their contracts: the token lengths (`Batching.TokenLengths`), the greedy partition (`Batching.GreedyBatches`), and the stacking of per-batch embeddings in `Batching.SentenceChunk`, with padding or truncation to one row per sentence.

## Behaviour the model keeps as the code has it

- An auto-saved session (the first message of a draft) holds only the user message. The bot reply reaches the session with the next send, when the session is selected (`Dashboard.DashboardPage.SendMessage`).
- The earlier dashboard's `handleNewChat` saves the current chat again even when it is an already saved, selected session (`LegacyDashboard.LegacyDashboardPage.NewChat`).
- The document viewer's `handleDeleteDocument` removes the document but not its chat links (`DocumentViewer.DocumentViewerState.DeleteDocument`). The dashboard's `handleRemoveDocument` does remove them.
- The page hands the viewer its own `setDocuments`, so the viewer's delete also leaves the draft's pending list as it was (`Dashboard.DashboardPage.ViewerDeleteDocument`). A pending id can then name no stored document, and the next save links that id to the new chat. The dashboard invariant therefore asks only that pending ids are distinct, not that they name stored documents.
- `RangeDict.get` consults only the last range starting at or before the key. A key inside an earlier, wider range that a later range shadows is not found (`Ranges.ShadowedKeyNotFound`). Lookup is exact for disjoint ranges (`Ranges.DisjointLookup`).
- In `sentence_chunk` the branch taken when there are no embeddings cannot be reached once there is a sentence: there is one embedding array per batch, and a non-empty input gives at least one batch. The model therefore has no such branch.
- The docstring of `RangeDict.__init__` says the ranges must be sorted by start. The code sorts them itself, and the model follows the code.
- The earlier dashboard names the session's folder field `folderId`. The model uses one session record, with `chatFolderId`, for both dashboards.

## Model

| member | source | states |
|---|---|---|
| Labels.GenerateChatTitle | frontend/app/dashboard/page.tsx:160-164 | The title has at most 53 characters and starts with the message's first 50 characters. A message of at most 50 characters is its own title. A longer one becomes exactly 50 characters followed by "...". |
| Labels.FirstUserIndex | frontend/app/dashboard/page.tsx:166-169 | `find` of the first user message: absent exactly when the chat has no user message; otherwise a user message with only bot messages before it. |
| Labels.GeneratePreview | app/dashboard/page.tsx:40-43 | The first 60 characters of the first user message followed by "...". "Nieuwe chat" exactly when the chat has no user message. |
| Labels.PreviewStableUnderAppend | app/dashboard/page.tsx:120-137 | Appending messages to a chat that already has a user message changes neither its first user message nor its preview. |
| Labels.FormatTimestampKinds | frontend/app/dashboard/page.tsx:171-185 | "Nu" exactly below one hour. "Gisteren" exactly from 24 up to 48 hours. An "uur geleden" label exactly from 1 up to 24 hours. A "dagen geleden" label exactly from 48 hours on. The distance is taken in either direction. |
| Labels.HoursLabelReadsBack | frontend/app/dashboard/page.tsx:177-178 | The number in an "N uur geleden" label is the distance in whole hours, between 1 and 23. |
| Labels.DaysLabelReadsBack | frontend/app/dashboard/page.tsx:181-183 | The number in an "N dagen geleden" label is the distance in whole days, at least 2. |
| Labels.FormatTimestampExamples | app/components/DocumentViewer.tsx:37-51 | The same rules, shared by `formatDate` and both dashboards' `formatTimestamp`: half an hour is "Nu", five hours "5 uur geleden", thirty hours "Gisteren" and ninety hours "3 dagen geleden". |
| Labels.FormatTimestampSameMoment | frontend/app/dashboard/page.tsx:196 | `formatTimestamp(new Date())`, a label made at the moment it is shown, is "Nu": the label each saved session gets. |
| Text.TrimSlice | frontend/app/components/ChatHistoryViewer.tsx:34-37 | `trim()` returns a contiguous slice of the input with only whitespace around it. |
| Text.TrimEnds | frontend/app/components/ChatHistoryViewer.tsx:34-37 | A non-empty trimmed name neither starts nor ends with whitespace. |
| Text.TrimEmptyIffBlank | frontend/app/components/ChatHistoryViewer.tsx:34 | `newFolderName.trim()` is falsy exactly when the name is blank. |
| Text.TrimIdempotent | app/components/DocumentViewer.tsx:54-57 | Trimming a trimmed name changes nothing. |
| Text.ParseNatToString | frontend/app/dashboard/page.tsx:178 | Reading the rendered decimal digits back gives the number. |
| Text.NatToStringInjective | frontend/app/dashboard/page.tsx:182-183 | Distinct numbers render as distinct digit strings. |
| Common.ToggleFlips | frontend/app/components/ChatHistoryViewer.tsx:119-125 | Toggling a selection flips the membership of the toggled id and of no other id. |
| Common.ToggleTwice | app/components/DocumentViewer.tsx:164-170 | Toggling twice restores membership. On a selection without the id it restores the same list. |
| Common.ToggleNoDuplicates | app/components/DocumentViewer.tsx:164-170 | Toggling keeps a selection free of duplicates. |
| Context.FindLink | frontend/app/dashboard/page.tsx:44-46 | The existing-link check: absent exactly when no link is for the pair; otherwise a stored link for the pair. |
| Context.LinkDocumentSpec | frontend/app/dashboard/page.tsx:42-68 | Linking leaves exactly one link for the pair, carrying the requested flag. An existing link changes only its flag. Otherwise one new link is appended. At most one link per pair and distinct link ids are kept. |
| Context.UnlinkDocument | frontend/app/dashboard/page.tsx:70-74 | No link is left for the pair. Every other link stays. Nothing is added. |
| Context.PendingLinks | frontend/app/dashboard/page.tsx:207-209 | One active link per pending document, in order, each for the new chat and with its own id. |
| Context.PendingLinksValid | frontend/app/dashboard/page.tsx:205-211 | Appending the draft's links for a fresh chat keeps the link-table invariant. |
| Context.LinkEachFreshChat | frontend/app/dashboard/page.tsx:272-276 | For a chat no link mentions, the `forEach` linking loop appends exactly one active link per pending document and changes no existing link. |
| Context.FindGeneral | frontend/app/dashboard/page.tsx:381 | `find(f => f.id === -1)` is absent exactly when no folder has id -1; otherwise it is a stored folder with that id. |
| Context.UpdatedActiveContextSpec | frontend/app/dashboard/page.tsx:380-384 | With a prior general folder, it is re-inserted at the front and every general entry the caller passed is dropped, the rest in order. Without one, the caller's list is taken as given. |
| Context.UpdatedKeepsShape | app/dashboard/page.tsx:165-169 | The update keeps the general folder first and nowhere else. |
| Context.GeneralAlwaysActive | frontend/app/dashboard/page.tsx:21-23 | From the initial `[general]`, any sequence of updates, whatever they pass, keeps the general folder first and active. |
| Context.DocumentsForChat | frontend/app/dashboard/page.tsx:28-33 | A document is listed exactly when a link of the chat names it. |
| Context.ActiveContextDocumentsForChat | frontend/app/dashboard/page.tsx:35-40 | A document is listed exactly when an active link of the chat names it. |
| Context.PendingDocuments | frontend/app/dashboard/page.tsx:120-122 | A document is listed exactly when its id is pending. |
| Context.FirstOccurrences | frontend/app/dashboard/page.tsx:126-127 | The positions holding the first document with their id, each of them, in increasing order. |
| Context.DedupById | frontend/app/dashboard/page.tsx:124-128 | The `Set` deduplication keeps, for each id, the first document with it, in first-seen order. Ids are distinct and every input id is represented. |
| Context.FirstIndexOfId | frontend/app/dashboard/page.tsx:127 | `find` by id returns the first document with that id. |
| Context.ContextPartsMembership | frontend/app/dashboard/page.tsx:104-125 | The concatenated folder, chat and draft documents are exactly the stored documents that qualify as context. |
| Context.ActiveContextDocumentsSpec | frontend/app/dashboard/page.tsx:104-129 | The context holds no id twice and only qualifying documents. Every qualifying document is represented by its id. |
| Context.ActiveContextDocumentsExact | frontend/app/dashboard/page.tsx:104-129 | With distinct document ids, a document is in the context exactly when it qualifies. |
| Context.ContextIdsSpec | frontend/app/dashboard/page.tsx:288-291 | The `contextDocumentIds` are distinct. With distinct document ids, a stored document's id is among them exactly when the document qualifies. |
| Context.UploadedDocumentsForCurrentChat | frontend/app/dashboard/page.tsx:401-409 | In a draft, exactly the pending documents. Otherwise exactly the documents linked to the selected chat. |
| Folders.MovedRef | frontend/app/components/ChatHistoryViewer.tsx:65 | `folderId \|\| undefined` stores a truthy target as it is. It is unfiled exactly when the target is falsy, so it never stores `0`. |
| Folders.ExactlyOneView | frontend/app/components/ChatHistoryViewer.tsx:112-117 | An item whose folder reference is not `0` shows up in the view of its own folder and in no other. |
| Folders.MovedItemViews | app/components/DocumentViewer.tsx:86-95 | After a move, the item is in the target's view only. Moving to `null` or `0` is the same, for every view, as being unfiled. |
| Folders.DocumentsInView | app/components/DocumentViewer.tsx:189-195 | A document is listed exactly when it is stored and matches the view's filter. |
| Folders.DocumentsInViewAppend | app/components/DocumentViewer.tsx:189-195 | The listing keeps store order: the listing of a concatenation is the listing of each part in turn. |
| Folders.DocumentsInViewSingle | app/components/DocumentViewer.tsx:189-195 | A single document is listed once when it matches the view and not at all otherwise. With the append lemma, this fixes order and multiplicity. |
| Folders.ChatsInView | frontend/app/dashboard/page.tsx:367-374 | A chat is listed exactly when it is stored and matches the view's filter. |
| Folders.ChatsInViewAppend | frontend/app/components/ChatHistoryViewer.tsx:112-117 | The listing keeps store order: the listing of a concatenation is the listing of each part in turn. |
| Folders.ChatsInViewSingle | frontend/app/components/ChatHistoryViewer.tsx:112-117 | A single chat is listed once when it matches the view and not at all otherwise. With the append lemma, this fixes order and multiplicity. |
| Folders.ChatInExactlyOneView | frontend/app/components/ChatHistoryViewer.tsx:112-117 | A stored chat not filed under `0` is listed in exactly one view, its own folder's. |
| Folders.DocumentInExactlyOneView | app/components/DocumentViewer.tsx:189-195 | A stored document not filed under `0` is listed in exactly one view, its own folder's. |
| Folders.MoveDocuments | app/components/DocumentViewer.tsx:86-95 | Each document keeps its position. Exactly the documents with a given id are refiled under `target \|\| undefined`. |
| Folders.MoveChats | frontend/app/components/ChatHistoryViewer.tsx:62-71 | Each chat keeps its position. Exactly the chats with a given id are refiled under `target \|\| undefined`. |
| Folders.MoveDocumentsViews | app/components/DocumentViewer.tsx:148-162 | A moved document is listed in the target's view only. Any other document is listed where it was. |
| Folders.UnfileDocuments | app/components/DocumentViewer.tsx:76-79 | No document refers to the deleted folder afterwards. Its documents become unfiled and the others are unchanged. |
| Folders.UnfileChats | frontend/app/components/ChatHistoryViewer.tsx:49-51 | No chat refers to the deleted folder afterwards. Its chats become unfiled and the others are unchanged. |
| Folders.UnfileChatsViews | frontend/app/components/ChatHistoryViewer.tsx:47-60 | After a folder is deleted, no view lists a chat under it. The unfiled view lists exactly its former chats plus the deleted folder's chats. |
| Folders.FolderColor | frontend/app/components/ChatHistoryViewer.tsx:39 | A new folder's colour is always one of the palette's. The first six folders take the palette in order. |
| Folders.FolderColorCycles | frontend/app/components/ChatHistoryViewer.tsx:39 | The colours repeat after six folders. |
| Folders.FolderColorsRepeat | app/components/DocumentViewer.tsx:59 | With six different palette colours, two folder counts give the same colour exactly when they agree modulo 6. |
| Dashboard.FindSession | frontend/app/dashboard/page.tsx:230 | Absent exactly when no session has the id. Otherwise the first session with the id. |
| Dashboard.SavedSession | frontend/app/dashboard/page.tsx:194-202 | A saved session is labelled "Nu" and previewed from its messages. It is filed in the sidebar's folder unless that is falsy, and never under `0`. |
| Dashboard.DraftTitle | frontend/app/dashboard/page.tsx:191-195 | The saved draft is titled from its first user message. |
| Dashboard.BotReplyKeepsPreview | frontend/app/dashboard/page.tsx:305-354 | The bot reply, answered or failed, never becomes the first user message. So the preview `generatePreview(finalChat)` is the preview of the chat before the reply. |
| Dashboard.SyncSession | frontend/app/dashboard/page.tsx:305-318 | Only the selected session changes. It gets the final chat, the label "Nu" and that chat's preview. Ids and order stay. |
| Dashboard.RemovalKeepsValid | frontend/app/dashboard/page.tsx:147-158 | Removing a document, its links and its pending entry keeps distinct document ids, distinct pending ids and the link-table invariant. No trace of the id is left. |
| Dashboard.DashboardPage.constructor | frontend/app/dashboard/page.tsx:12-26 | The initial state: nothing stored, no selection, the active context `[general]`. |
| Dashboard.DashboardPage.LinkDocumentToChat | frontend/app/dashboard/page.tsx:42-68 | The link table becomes the single link's outcome, and a link for the pair with the requested flag exists. The store invariants are kept. |
| Dashboard.DashboardPage.UnlinkDocumentFromChat | frontend/app/dashboard/page.tsx:70-74 | Every link for the pair is removed and the invariants are kept. |
| Dashboard.DashboardPage.LinkPendingDocuments | frontend/app/dashboard/page.tsx:207-209 | The `forEach` loop: each call checks the render's table, and its updater applies to the table left by the calls before it. |
| Dashboard.DashboardPage.LinkPendingToFreshChat | frontend/app/dashboard/page.tsx:205-211 | For a fresh chat the loop appends one active link per pending document and keeps the invariants. |
| Dashboard.DashboardPage.SaveDraft | frontend/app/dashboard/page.tsx:203-211 | The session goes in front and the pending documents are linked to it. |
| Dashboard.DashboardPage.AutoSave | frontend/app/dashboard/page.tsx:257-276 | A session holding only the first message, titled by it, goes in front and is selected. The pending documents are linked to it and the pending list is cleared. |
| Dashboard.DashboardPage.UploadDocument | frontend/app/dashboard/page.tsx:131-145 | The document is stored under a fresh id (`Date.now() + Math.random()`, used by no document and no pending entry). In a draft its id becomes pending; otherwise it is linked, active, to the selected chat. Any pending list is accepted, including one holding ids of deleted documents. |
| Dashboard.DashboardPage.ViewerDeleteDocument | app/components/DocumentViewer.tsx:118-119 | The viewer's delete, through the page's `setDocuments`, removes the document from the store and nothing else. Links and pending ids stay, and the invariant holds. |
| Dashboard.DashboardPage.RemoveDocument | frontend/app/dashboard/page.tsx:147-158 | When confirmed, the document, its links and its pending entry go. When refused, nothing changes. |
| Dashboard.DashboardPage.NewChat | frontend/app/dashboard/page.tsx:187-220 | An unselected draft with a user message is saved in front, with its documents linked. The page then always returns to an empty draft. |
| Dashboard.DashboardPage.SelectChat | frontend/app/dashboard/page.tsx:222-235 | An unselected draft with a user message is first saved. A known id opens that session. An unknown id leaves the state as the save left it. |
| Dashboard.DashboardPage.SendMessage | frontend/app/dashboard/page.tsx:251-361 | The context ids are distinct and are exactly those of the qualifying documents of the render's state. The chat grows by the message and the bot reply. A first draft message is auto-saved and selected. A selected session gets the final chat. |
| Dashboard.DashboardPage.UpdateActiveContext | frontend/app/dashboard/page.tsx:380-384 | The result is the general folder followed by the caller's non-general folders, in order. |
| Dashboard.DashboardPage.DeleteChat | frontend/app/dashboard/page.tsx:386-398 | When confirmed, exactly the chat and its links go. A selected chat is deselected and the current chat emptied. When refused, nothing changes. |
| LegacyDashboard.Greeting | app/dashboard/page.tsx:16-23 | A fresh draft is a single bot greeting with no user message. |
| LegacyDashboard.AppendToSession | app/dashboard/page.tsx:122-135 | Only the selected session changes. It gets the message appended and the label "Nu". Its preview is recomputed only for a user message. |
| LegacyDashboard.AppendKeepsPreview | app/dashboard/page.tsx:130 | For a saved session, the recomputed preview equals the old one. |
| LegacyDashboard.LegacyDashboardPage.constructor | app/dashboard/page.tsx:12-32 | The initial state: the greeting with id 1 and the active context `[general]`. |
| LegacyDashboard.LegacyDashboardPage.NewChat | app/dashboard/page.tsx:61-90 | A chat with a user message is saved in front whatever the selection. The page then returns to a fresh greeting with no selection. |
| LegacyDashboard.LegacyDashboardPage.SelectChat | app/dashboard/page.tsx:92-104 | An unselected chat with a user message is first saved. A known id opens that session. An unknown id leaves the state as the save left it. |
| LegacyDashboard.LegacyDashboardPage.SendMessage | app/dashboard/page.tsx:120-137 | The message is appended to the current chat and, when a chat is selected, to that session only. Every saved session still has a user message. |
| LegacyDashboard.LegacyDashboardPage.UpdateActiveContext | app/dashboard/page.tsx:165-169 | The active context becomes the update's result and keeps its shape. |
| LegacyDashboard.LegacyDashboardPage.DeleteChat | app/dashboard/page.tsx:172-189 | When confirmed, exactly that session goes. A selected session is replaced by a fresh greeting. When refused, nothing changes. |
| DocumentViewer.FilterFolderIds | app/components/DocumentViewer.tsx:176 | A filtered folder list holds an id exactly when a kept folder has it. |
| DocumentViewer.UpdatedMembership | app/components/DocumentViewer.tsx:172-187 | After the update, an id is active exactly when it is the general folder's or the requested list holds it. |
| DocumentViewer.RequestedMembership | app/components/DocumentViewer.tsx:176-186 | The requested list holds the toggled id exactly when the folder was inactive, and every other id as before. |
| DocumentViewer.ToggledMembership | app/components/DocumentViewer.tsx:172-187 | Toggling a non-general folder flips its activity and no other id's. The general folder stays first. |
| DocumentViewer.ToggleActiveTwice | app/components/DocumentViewer.tsx:172-187 | Toggling a folder twice restores which ids are active. |
| DocumentViewer.DocumentViewerState.constructor | app/components/DocumentViewer.tsx:18-26 | The viewer starts on the given props with its own state initial. |
| DocumentViewer.DocumentViewerState.SetNewFolderName | app/components/DocumentViewer.tsx:389 | The name field takes the typed value. |
| DocumentViewer.DocumentViewerState.SelectFolder | app/components/DocumentViewer.tsx:343-344 | The view opens and the selection is cleared. |
| DocumentViewer.DocumentViewerState.CreateFolder | app/components/DocumentViewer.tsx:53-65 | A blank name changes nothing. Otherwise one folder is appended, with the trimmed name and the next colour, and the field is cleared. |
| DocumentViewer.DocumentViewerState.DeleteFolder | app/components/DocumentViewer.tsx:67-84 | The folder leaves the folder list and the active context, and its documents become unfiled. A selected view of it resets. |
| DocumentViewer.DocumentViewerState.MoveDocumentsToFolder | app/components/DocumentViewer.tsx:86-95 | Exactly the selected documents move and the selection empties. |
| DocumentViewer.DocumentViewerState.DeleteDocument | app/components/DocumentViewer.tsx:118-124 | The document leaves the store and the selection, and its preview closes. |
| DocumentViewer.DocumentViewerState.DragStart | app/components/DocumentViewer.tsx:126-129 | The document is recorded as dragged. |
| DocumentViewer.DocumentViewerState.DragEnd | app/components/DocumentViewer.tsx:131-134 | Nothing is dragged afterwards. |
| DocumentViewer.DocumentViewerState.Drop | app/components/DocumentViewer.tsx:148-162 | Only a dragged document moves, to the target. With nothing dragged nothing moves. The drag ends. |
| DocumentViewer.DocumentViewerState.ToggleDocumentSelection | app/components/DocumentViewer.tsx:164-170 | Exactly the toggled id flips membership, with no duplicates. |
| DocumentViewer.DocumentViewerState.ToggleActiveContext | app/components/DocumentViewer.tsx:172-187 | The general switch (`null`) changes nothing. A folder is switched off when active and on otherwise. |
| ChatHistoryViewer.ChatHistoryViewerState.constructor | frontend/app/components/ChatHistoryViewer.tsx:16-22 | The viewer starts on the given props with its own state initial. |
| ChatHistoryViewer.ChatHistoryViewerState.SetNewFolderName | frontend/app/components/ChatHistoryViewer.tsx:262 | The name field takes the typed value. |
| ChatHistoryViewer.ChatHistoryViewerState.SelectFolder | frontend/app/components/ChatHistoryViewer.tsx:229 | The view opens. |
| ChatHistoryViewer.ChatHistoryViewerState.CreateFolder | frontend/app/components/ChatHistoryViewer.tsx:33-45 | A blank name changes nothing. Otherwise one folder is appended, with the trimmed name and colour index `count % 6`, and the field is cleared. |
| ChatHistoryViewer.ChatHistoryViewerState.DeleteFolder | frontend/app/components/ChatHistoryViewer.tsx:47-60 | When confirmed, the folder goes and its chats become unfiled. A selected view resets. When refused, nothing changes. |
| ChatHistoryViewer.ChatHistoryViewerState.MoveChatsToFolder | frontend/app/components/ChatHistoryViewer.tsx:62-71 | Exactly the selected chats move and the selection empties. |
| ChatHistoryViewer.ChatHistoryViewerState.DragStart | frontend/app/components/ChatHistoryViewer.tsx:74-77 | The chat is recorded as dragged. |
| ChatHistoryViewer.ChatHistoryViewerState.DragEnd | frontend/app/components/ChatHistoryViewer.tsx:79-82 | Nothing is dragged afterwards. |
| ChatHistoryViewer.ChatHistoryViewerState.Drop | frontend/app/components/ChatHistoryViewer.tsx:96-110 | Only a dragged chat moves, to the target. With nothing dragged nothing moves. The drag ends. |
| ChatHistoryViewer.ChatHistoryViewerState.ToggleChatSelection | frontend/app/components/ChatHistoryViewer.tsx:119-125 | Exactly the toggled id flips membership, with no duplicates. |
| Ranges.UpperBound | backend/utils.py:168 | `bisect_right` on a sorted list: every element before the position is at most the key and every element from it on is greater. |
| Ranges.UpperBoundPastAll | backend/utils.py:168 | When no element exceeds the key, the position is the length, so a sorted append lands at the end. |
| Ranges.BisectRight | backend/utils.py:168 | The binary search returns exactly `bisect_right`'s position. |
| Ranges.Lookup | backend/utils.py:173-177 | Only the last range starting at or before the key is consulted. Its value is returned when the key is within its end; otherwise `KeyError`, also when no range starts at or before the key. |
| Ranges.ShadowedKeyNotFound | backend/utils.py:174-177 | With ranges (0, 10) and (5, 6), key 8 raises `KeyError` although it lies in (0, 10). |
| Ranges.DisjointLookup | backend/utils.py:173-177 | With pairwise disjoint ranges, every key of a range finds that range's value. |
| Ranges.InsertRangeShape | backend/utils.py:168-171 | The new range sits at the insertion point. Earlier ranges start at or before it; later ones start after it, so an equal start goes after the existing ones. |
| Ranges.InsertRangeSorted | backend/utils.py:166-171 | Inserting keeps the ranges sorted by start. |
| Ranges.InsertRangeMultiset | backend/utils.py:166-171 | Inserting keeps every stored range and adds exactly the new one. |
| Ranges.InsertKeepsValid | backend/utils.py:162-171 | Inserting at the same position in all three lists keeps equal lengths, sorted starts and `start <= end`, and is the insertion on the stored ranges. |
| Ranges.SortByStart | backend/utils.py:159 | The sort orders the ranges by start. |
| Ranges.SortByStartStable | backend/utils.py:159 | The sort is stable: for each start, the ranges with that start keep their input order. |
| Ranges.SortByStartOfSorted | backend/utils.py:150-159 | Ranges given already sorted by start, as the docstring asks, come out unchanged. |
| Ranges.SortByStartPermutes | backend/utils.py:159 | The sort is a permutation of its input. |
| Ranges.SortKeepsRanges | backend/utils.py:159 | A range comes out of the sort exactly when it went in. |
| Ranges.InsertNextOfSorted | backend/utils.py:159-160 | Adding sorted ranges one by one appends each at the end, rebuilding the sorted list. |
| Ranges.RangeDict.constructor | backend/database.py:26 | `RangeDict()` starts with three empty lists. |
| Ranges.RangeDict.FromRanges | backend/utils.py:149-160 | Construction fails with `ValueError` exactly when some range has start > end. Otherwise the dictionary holds the ranges in stable start order and satisfies its invariant. |
| Ranges.RangeDict.AddRange | backend/utils.py:162-171 | start > end raises `ValueError` and changes nothing. Otherwise the triple is inserted at `bisect_right(starts, start)` in all three lists and the invariant is kept. |
| Ranges.RangeDict.Get | backend/utils.py:173-177 | The result is the lookup on the three lists. |
| Ranges.RangeDict.GetItem | backend/utils.py:179-180 | `__getitem__` returns the same lookup as `get`. |
| Batching.TokenLengths | backend/test_embed.py:71-74 | One length per sentence. Each is at least 1: the token count, or 1 for no tokens. |
| Batching.CloseBatch | backend/test_embed.py:81-84 | Closing the open batch keeps the greedy-partition promise. |
| Batching.GreedyBatches | backend/test_embed.py:77-89 | The batches concatenate to `0, 1, …, n-1` and keep the greedy promise. Each batch is non-empty. A batch over the budget is a single sentence over the budget. The batch before each was closed only because this batch's first sentence would have pushed it over. No sentences give no batches. |
| Batching.GreedyPartitionEach | backend/test_embed.py:77-89 | The same promise, batch by batch: every batch is non-empty. Any batch over the budget is a single sentence. Every batch but the last plus the next batch's first sentence exceeds the budget. |
| Batching.PadOrTruncate | backend/test_embed.py:124-131 | Exactly `n` rows: the stacked rows as far as they go, then zero rows. |
| Batching.StackRowWise | backend/test_embed.py:91-122 | With an encoder that embeds sentence by sentence, the stacked rows are the sentences' own rows in batch order. |
| Batching.SentenceChunk | backend/test_embed.py:61-131 | One row per sentence, none for no sentences. With a row-wise encoder, row `i` is sentence `i`'s embedding, whatever the budget. |

## Left out

- JSX rendering, CSS choices, drag-over highlighting (`dragOverFolderId`) and the flags `isCreatingFolder`, `isMovingChats`, `isMovingDocuments`, `isUploading`, `isLoading`, `viewMode` and `isSidebarOpen`: these are presentation only.
- The initial `fetch` and `useEffect` load of the dashboard, and the HTTP request of `handleSendMessage`: network I/O. The request is modelled only as an answer or a failure.
- `setTimeout` delays and the interleaving of asynchronous handlers: each handler is one step, applied immediately.
- The clock: labels take the time in milliseconds as input, and a session saved "now" is labelled "Nu". The earlier dashboard's `updateTimestamps` is not modelled, since it only relabels sessions from the clock.
- `createdAt`, `linkedAt` and message timestamps: dates are not kept in the records.
- Ids are integers. The code builds link ids as `Date.now() + Math.random()`, which is fractional; the model only needs them distinct and unused.
- `substring` counts UTF-16 code units, and the model counts characters: these differ for text outside the Basic Multilingual Plane.
- `handleFileUpload` of the document viewer: it reads browser `File` objects and formats sizes with `toFixed`.
- `RangeDict.__repr__`: string formatting only.
- The tokenizer, the embedding model, the CUDA fallback on running out of memory, the re-raising of other encoder errors, L2 normalisation and float32 conversion of `sentence_chunk`: foreign numeric code. Token counts and the encoder are parameters, and the spans and spaCy sentence split are not modelled.
- backend/database.py is not part of this model beyond its use of `RangeDict()`.
- Ranges.RangeDict.FromRanges: an exception half-way through the constructor leaves no object for the caller, so the partly filled lists are not modelled.
