/** The state of the chat dashboard (frontend/app/dashboard/page.tsx) and its handlers. Each
    handler is one discrete command that computes from the state as it was when the handler
    started, the way a React closure sees the state of its render. */
module Dashboard {
  import opened Common
  import opened Entities
  import opened Labels
  import opened Context
  import opened Folders

  /** The bot message that stands in for an answer when the RAG request fails. */
  const ErrorReply: string := "Excuses, ik kon geen antwoord genereren. Probeer het later opnieuw."

  /** `chatSessions.find(chat => chat.id === chatId)`. */
  function FindSession(sessions: seq<ChatSession>, chatId: int): (r: Option<ChatSession>)
    ensures r.None? <==> chatId !in SessionIds(sessions)
    ensures r.Some? ==> (r.value.id == chatId
      && exists k :: 0 <= k < |sessions| && sessions[k] == r.value && chatId !in SessionIds(sessions[..k]))
  {
    if sessions == [] then None
    else if sessions[0].id == chatId then
      assert sessions[..0] == [];
      Some(sessions[0])
    else
      var r := FindSession(sessions[1..], chatId);
      assert SessionIds(sessions) == [sessions[0].id] + SessionIds(sessions[1..]);
      if r.Some? then
        var k :| 0 <= k < |sessions[1..]| && sessions[1..][k] == r.value && chatId !in SessionIds(sessions[1..][..k]);
        assert SessionIds(sessions[..k + 1]) == [sessions[0].id] + SessionIds(sessions[1..][..k]);
        r
      else r
  }

  /** A session as the dashboard saves a chat: labelled "Nu" (`formatTimestamp(new Date())`, see
      `Labels.FormatTimestampSameMoment`), previewed by its messages, and filed in the sidebar's
      current chat folder (`currentActiveChatFolder || undefined`). */
  function SavedSession(id: int, title: string, messages: seq<Message>, folder: Option<int>): (s: ChatSession)
    ensures s.id == id && s.title == title && s.messages == messages
    ensures s.timestamp == NowLabel && s.preview == GeneratePreview(messages)
    ensures s.chatFolderId != Some(0) && (s.chatFolderId.Some? <==> Truthy(folder))
    ensures Truthy(folder) ==> s.chatFolderId == folder
  {
    ChatSession(id, title, NowLabel, GeneratePreview(messages), messages, OrUndefined(folder))
  }

  /** The title `handleNewChat` gives the draft: that of its first user message. */
  function DraftTitle(messages: seq<Message>): (t: string)
    requires HasUserMessage(messages)
    ensures exists i :: (0 <= i < |messages| && messages[i].role == User
      && (forall j :: 0 <= j < i ==> messages[j].role == Bot)
      && t == GenerateChatTitle(messages[i].content))
  {
    GenerateChatTitle(messages[FirstUserIndex(messages).value].content)
  }

  /** The bot message of a RAG round trip: the answer, or the error text when the request failed. */
  function BotReply(answer: Option<string>, botId: int): (m: Message)
    ensures m.id == botId && m.role == Bot
    ensures m.content == match answer case Some(a) => a case None => ErrorReply
  {
    Message(botId, Bot, match answer case Some(a) => a case None => ErrorReply)
  }

  /** The reply is a bot message, so it never becomes the chat's first user message: the final chat
      of a send is previewed exactly as the chat before the reply, answered or failed. */
  lemma BotReplyKeepsPreview(messages: seq<Message>, answer: Option<string>, botId: int)
    ensures FirstUserIndex(messages + [BotReply(answer, botId)]) == FirstUserIndex(messages)
    ensures GeneratePreview(messages + [BotReply(answer, botId)]) == GeneratePreview(messages)
  {
    var both := messages + [BotReply(answer, botId)];
    if HasUserMessage(messages) {
      PreviewStableUnderAppend(messages, [BotReply(answer, botId)]);
    } else {
      forall i | 0 <= i < |both| ensures both[i].role != User {
        if i < |messages| {
          assert both[i] == messages[i];
        }
      }
    }
  }

  /** The `setChatSessions(prev => prev.map(...))` of a send: the session `chatId` gets the final chat,
      the label "Nu" and the preview of the final chat; every other session is left as it was. */
  function SyncSession(sessions: seq<ChatSession>, chatId: int, finalChat: seq<Message>): (r: seq<ChatSession>)
    ensures |r| == |sessions| && SessionIds(r) == SessionIds(sessions)
    ensures forall i :: 0 <= i < |sessions| && sessions[i].id != chatId ==> r[i] == sessions[i]
    ensures forall i :: 0 <= i < |sessions| && sessions[i].id == chatId ==>
      r[i] == sessions[i].(messages := finalChat, timestamp := NowLabel, preview := GeneratePreview(finalChat))
  {
    seq(|sessions|, i requires 0 <= i < |sessions| =>
      if sessions[i].id == chatId
      then sessions[i].(messages := finalChat, timestamp := NowLabel, preview := GeneratePreview(finalChat))
      else sessions[i])
  }

  /** Removing elements keeps a link table valid. */
  lemma FilterKeepsLinkTable(links: seq<ChatDocumentLink>, p: ChatDocumentLink -> bool)
    requires LinkTableValid(links)
    ensures LinkTableValid(Filter(links, p))
  {
    FilterKeepsPairwise(links, p,
      (a: ChatDocumentLink, b: ChatDocumentLink) => a.id != b.id && !LinksPair(b, a.documentId, a.chatId));
  }

  /** Removing documents keeps their ids distinct. */
  lemma FilterKeepsDocumentIds(docs: seq<Document>, p: Document -> bool)
    requires NoDuplicates(DocumentIds(docs))
    ensures NoDuplicates(DocumentIds(Filter(docs, p)))
  {
    FilterKeepsPairwise(docs, p, (a: Document, b: Document) => a.id != b.id);
  }

  /** Removing sessions keeps their ids distinct. */
  lemma FilterKeepsSessionIds(sessions: seq<ChatSession>, p: ChatSession -> bool)
    requires NoDuplicates(SessionIds(sessions))
    ensures NoDuplicates(SessionIds(Filter(sessions, p)))
  {
    FilterKeepsPairwise(sessions, p, (a: ChatSession, b: ChatSession) => a.id != b.id);
  }

  /** Removing a document, its links and its pending entry keeps the store's invariants and leaves
      no trace of its id. */
  lemma RemovalKeepsValid(docs: seq<Document>, links: seq<ChatDocumentLink>, pending: seq<int>, documentId: int)
    requires NoDuplicates(DocumentIds(docs)) && LinkTableValid(links) && NoDuplicates(pending)
    ensures var docs', links', pending' := Filter(docs, (d: Document) => d.id != documentId),
      Filter(links, (l: ChatDocumentLink) => l.documentId != documentId), Filter(pending, (id: int) => id != documentId);
      && NoDuplicates(DocumentIds(docs')) && LinkTableValid(links') && NoDuplicates(pending')
      && documentId !in DocumentIds(docs') && documentId !in LinkedDocumentIds(links') && documentId !in pending'
  {
    FilterKeepsDocumentIds(docs, (d: Document) => d.id != documentId);
    FilterKeepsLinkTable(links, (l: ChatDocumentLink) => l.documentId != documentId);
    FilterNoDuplicates(pending, (id: int) => id != documentId);
  }

  class DashboardPage {
    var chatSessions: seq<ChatSession>
    var selectedChatId: Option<int>
    var chatFolders: seq<Folder>
    var currentActiveChatFolder: Option<int>
    var currentChat: seq<Message>
    var documents: seq<Document>
    var documentFolders: seq<Folder>
    var activeContextDocFolders: seq<Folder>
    var chatDocumentLinks: seq<ChatDocumentLink>
    var newChatDocumentIds: seq<int>

    /** What every handler keeps: the general folder heads the active context and appears nowhere
        else; at most one link per (document, chat) pair and distinct link ids; distinct document
        and session ids; and distinct pending ids. A pending id need not name a stored document:
        the document viewer can delete a pending document without touching the pending list. */
    predicate Valid()
      reads this
    {
      && ActiveContextShape(activeContextDocFolders)
      && LinkTableValid(chatDocumentLinks)
      && NoDuplicates(DocumentIds(documents))
      && NoDuplicates(SessionIds(chatSessions))
      && NoDuplicates(newChatDocumentIds)
    }

    /** A positive chat id (`Date.now()`) that no session and no link uses. */
    predicate FreshChatId(id: int)
      reads this
    {
      id > 0 && id !in SessionIds(chatSessions) && UnlinkedChatId(id)
    }

    predicate UnlinkedChatId(id: int)
      reads this
    {
      forall i :: 0 <= i < |chatDocumentLinks| ==> chatDocumentLinks[i].chatId != id
    }

    /** Distinct link ids (`Date.now() + Math.random()`) that no link uses, one per pending document. */
    predicate FreshLinkIds(ids: seq<int>)
      reads this
    {
      |ids| == |newChatDocumentIds| && NoDuplicates(ids)
      && forall i :: 0 <= i < |chatDocumentLinks| ==> chatDocumentLinks[i].id !in ids
    }

    /** The initial state of the `useState` calls (the initial fetch is I/O and not part of this model). */
    constructor ()
      ensures Valid()
      ensures chatSessions == [] && selectedChatId == None && chatFolders == [] && currentActiveChatFolder == None
      ensures currentChat == [] && documents == [] && documentFolders == []
      ensures activeContextDocFolders == [GeneralFolder]
      ensures chatDocumentLinks == [] && newChatDocumentIds == []
    {
      chatSessions := [];
      selectedChatId := None;
      chatFolders := [];
      currentActiveChatFolder := None;
      currentChat := [];
      documents := [];
      documentFolders := [];
      activeContextDocFolders := [GeneralFolder];
      chatDocumentLinks := [];
      newChatDocumentIds := [];
    }

    /** `linkDocumentToChat(documentId, chatId, isContextActive)`: afterwards exactly one link for the
        pair carries the flag, an existing link only changes its flag, otherwise one link is appended. */
    method LinkDocumentToChat(documentId: int, chatId: int, isContextActive: bool, newLinkId: int)
      requires Valid()
      requires newLinkId !in LinkIds(chatDocumentLinks)
      modifies this`chatDocumentLinks
      ensures Valid()
      ensures chatDocumentLinks == LinkDocument(old(chatDocumentLinks), documentId, chatId, isContextActive, newLinkId)
      ensures exists k :: (0 <= k < |chatDocumentLinks|
        && LinksPair(chatDocumentLinks[k], documentId, chatId) && chatDocumentLinks[k].isContextActive == isContextActive)
    {
      LinkDocumentSpec(chatDocumentLinks, documentId, chatId, isContextActive, newLinkId);
      chatDocumentLinks := LinkDocument(chatDocumentLinks, documentId, chatId, isContextActive, newLinkId);
    }

    /** `unlinkDocumentFromChat(documentId, chatId)`. */
    method UnlinkDocumentFromChat(documentId: int, chatId: int)
      requires Valid()
      modifies this`chatDocumentLinks
      ensures Valid()
      ensures chatDocumentLinks == UnlinkDocument(old(chatDocumentLinks), documentId, chatId)
    {
      FilterKeepsLinkTable(chatDocumentLinks, (l: ChatDocumentLink) => !LinksPair(l, documentId, chatId));
      chatDocumentLinks := UnlinkDocument(chatDocumentLinks, documentId, chatId);
    }

    /** The `forEach(docId => linkDocumentToChat(docId, chatId, true))` loop over the draft's pending
        documents: each existence check reads the links of the handler's render. */
    method LinkPendingDocuments(chatId: int, newLinkIds: seq<int>)
      requires |newLinkIds| == |newChatDocumentIds|
      modifies this`chatDocumentLinks
      ensures chatDocumentLinks
        == LinkEach(old(chatDocumentLinks), old(chatDocumentLinks), chatId, newChatDocumentIds, newLinkIds)
    {
      var seen := chatDocumentLinks;
      var i := 0;
      while i < |newChatDocumentIds|
        invariant 0 <= i <= |newChatDocumentIds|
        invariant chatDocumentLinks == LinkEach(seen, seen, chatId, newChatDocumentIds[..i], newLinkIds[..i])
      {
        assert newChatDocumentIds[..i + 1][..i] == newChatDocumentIds[..i];
        assert newLinkIds[..i + 1][..i] == newLinkIds[..i];
        chatDocumentLinks := LinkAgainst(seen, chatDocumentLinks, newChatDocumentIds[i], chatId, true, newLinkIds[i]);
        i := i + 1;
      }
      assert newChatDocumentIds[..i] == newChatDocumentIds;
      assert newLinkIds[..i] == newLinkIds;
    }

    /** The pending loop for a fresh chat appends one active link per pending document and keeps the
        link table valid. */
    method LinkPendingToFreshChat(chatId: int, newLinkIds: seq<int>)
      requires Valid() && UnlinkedChatId(chatId) && FreshLinkIds(newLinkIds)
      modifies this`chatDocumentLinks
      ensures Valid()
      ensures chatDocumentLinks == old(chatDocumentLinks) + PendingLinks(chatId, newChatDocumentIds, newLinkIds)
    {
      LinkEachFreshChat(chatDocumentLinks, chatDocumentLinks, chatId, newChatDocumentIds, newLinkIds);
      PendingLinksValid(chatDocumentLinks, chatId, newChatDocumentIds, newLinkIds);
      LinkPendingDocuments(chatId, newLinkIds);
    }

    /** The save shared by `handleNewChat` and the auto-save of a first message: the session goes in
        front and every pending document is linked to it (the `length > 0` guard around the loop
        changes nothing, an empty loop links nothing). */
    method SaveDraft(session: ChatSession, newLinkIds: seq<int>)
      requires Valid() && FreshChatId(session.id) && FreshLinkIds(newLinkIds)
      modifies this`chatSessions, this`chatDocumentLinks
      ensures Valid()
      ensures chatSessions == [session] + old(chatSessions)
      ensures chatDocumentLinks == old(chatDocumentLinks) + PendingLinks(session.id, newChatDocumentIds, newLinkIds)
    {
      chatSessions := [session] + chatSessions;
      assert SessionIds(chatSessions) == [session.id] + SessionIds(old(chatSessions));
      if |newChatDocumentIds| > 0 {
        LinkPendingToFreshChat(session.id, newLinkIds);
      } else {
        assert PendingLinks(session.id, newChatDocumentIds, newLinkIds) == [];
      }
    }

    /** The auto-save of a draft's first message: a session holding just that message, titled by it,
        goes in front and is selected, the pending documents are linked to it and the pending list is
        cleared. */
    method AutoSave(newMessage: Message, freshChatId: int, newLinkIds: seq<int>)
      requires Valid() && FreshChatId(freshChatId) && FreshLinkIds(newLinkIds)
      modifies this`chatSessions, this`chatDocumentLinks, this`selectedChatId, this`newChatDocumentIds
      ensures Valid()
      ensures chatSessions == [SavedSession(freshChatId, GenerateChatTitle(newMessage.content), [newMessage],
                                            currentActiveChatFolder)] + old(chatSessions)
      ensures selectedChatId == Some(freshChatId) && newChatDocumentIds == []
      ensures chatDocumentLinks == old(chatDocumentLinks) + PendingLinks(freshChatId, old(newChatDocumentIds), newLinkIds)
    {
      SaveDraft(SavedSession(freshChatId, GenerateChatTitle(newMessage.content), [newMessage],
                             currentActiveChatFolder), newLinkIds);
      selectedChatId := Some(freshChatId);
      if |newChatDocumentIds| > 0 {
        newChatDocumentIds := [];
      }
    }

    /** `handleUploadDocument(newDoc)`: the document is stored under a fresh id; in a draft (no chat
        selected) its id becomes pending, otherwise it is linked, active, to the selected chat. */
    method UploadDocument(newDoc: Document, newId: int, newLinkId: int)
      requires Valid()
      requires newId !in DocumentIds(documents) && newId !in newChatDocumentIds
      requires newLinkId !in LinkIds(chatDocumentLinks)
      modifies this`documents, this`newChatDocumentIds, this`chatDocumentLinks
      ensures Valid()
      ensures documents == old(documents) + [newDoc.(id := newId)]
      ensures old(selectedChatId) == None ==>
        newChatDocumentIds == old(newChatDocumentIds) + [newId] && chatDocumentLinks == old(chatDocumentLinks)
      ensures old(selectedChatId).Some? ==>
        && newChatDocumentIds == old(newChatDocumentIds)
        && chatDocumentLinks == LinkDocument(old(chatDocumentLinks), newId, selectedChatId.value, true, newLinkId)
    {
      var savedDoc := newDoc.(id := newId);
      documents := documents + [savedDoc];
      assert DocumentIds(documents) == DocumentIds(old(documents)) + [newId];
      if selectedChatId == None {
        newChatDocumentIds := newChatDocumentIds + [newId];
      } else {
        LinkDocumentToChat(newId, selectedChatId.value, true, newLinkId);
      }
    }

    /** `handleRemoveDocument(documentId)` after `confirm()`: the document, every link to it and its
        pending entry go; a refused confirmation changes nothing. */
    method RemoveDocument(documentId: int, confirmed: bool)
      requires Valid()
      modifies this`documents, this`chatDocumentLinks, this`newChatDocumentIds
      ensures Valid()
      ensures !confirmed ==> (documents == old(documents) && chatDocumentLinks == old(chatDocumentLinks)
        && newChatDocumentIds == old(newChatDocumentIds))
      ensures confirmed ==>
        && documents == Filter(old(documents), (d: Document) => d.id != documentId)
        && chatDocumentLinks == Filter(old(chatDocumentLinks), (l: ChatDocumentLink) => l.documentId != documentId)
        && newChatDocumentIds == Filter(old(newChatDocumentIds), (id: int) => id != documentId)
        && documentId !in DocumentIds(documents) && documentId !in LinkedDocumentIds(chatDocumentLinks)
        && documentId !in newChatDocumentIds
    {
      if confirmed {
        RemovalKeepsValid(documents, chatDocumentLinks, newChatDocumentIds, documentId);
        documents := Filter(documents, (d: Document) => d.id != documentId);
        chatDocumentLinks := Filter(chatDocumentLinks, (l: ChatDocumentLink) => l.documentId != documentId);
        newChatDocumentIds := Filter(newChatDocumentIds, (id: int) => id != documentId);
      }
    }

    /** The document viewer's `handleDeleteDocument(id)` through the setter the page hands it
        (`onUpdateDocuments={setDocuments}`): only the document list changes. Its links and its
        pending entry stay, so a draft can keep a pending id that names no stored document. */
    method ViewerDeleteDocument(documentId: int)
      requires Valid()
      modifies this`documents
      ensures Valid()
      ensures documents == Filter(old(documents), (d: Document) => d.id != documentId)
      ensures documentId !in DocumentIds(documents)
    {
      FilterKeepsDocumentIds(documents, (d: Document) => d.id != documentId);
      documents := Filter(documents, (d: Document) => d.id != documentId);
    }

    /** `handleNewChat()`: a draft (no truthy selection) with a user message is saved as a new session
        in front, filed in the current chat folder, and its pending documents are linked to it; in every
        case the dashboard then returns to an empty draft. */
    method NewChat(freshChatId: int, newLinkIds: seq<int>)
      requires Valid() && FreshChatId(freshChatId) && FreshLinkIds(newLinkIds)
      modifies this`chatSessions, this`chatDocumentLinks, this`selectedChatId, this`currentChat,
               this`newChatDocumentIds
      ensures Valid()
      ensures var saved := HasUserMessage(old(currentChat)) && !Truthy(old(selectedChatId));
        && (saved ==>
              && chatSessions == [SavedSession(freshChatId, DraftTitle(old(currentChat)), old(currentChat),
                                               currentActiveChatFolder)] + old(chatSessions)
              && chatDocumentLinks == old(chatDocumentLinks) + PendingLinks(freshChatId, old(newChatDocumentIds), newLinkIds))
        && (!saved ==> chatSessions == old(chatSessions) && chatDocumentLinks == old(chatDocumentLinks))
      ensures selectedChatId == None && currentChat == [] && newChatDocumentIds == []
    {
      if HasUserMessage(currentChat) && !Truthy(selectedChatId) {
        SaveDraft(SavedSession(freshChatId, DraftTitle(currentChat), currentChat, currentActiveChatFolder), newLinkIds);
      }
      selectedChatId := None;
      currentChat := [];
      newChatDocumentIds := [];
    }

    /** `handleChatSelect(chatId)`: a draft with a user message and no selection is first saved as by
        `handleNewChat`; then, if the session list of the handler's render has `chatId`, its messages
        become the current chat and it is selected; otherwise the state is left as the save made it. */
    method SelectChat(chatId: int, freshChatId: int, newLinkIds: seq<int>)
      requires Valid() && FreshChatId(freshChatId) && FreshLinkIds(newLinkIds)
      modifies this`chatSessions, this`chatDocumentLinks, this`selectedChatId, this`currentChat,
               this`newChatDocumentIds
      ensures Valid()
      ensures var saved := HasUserMessage(old(currentChat)) && old(selectedChatId) == None;
        && (saved ==>
              && chatSessions == [SavedSession(freshChatId, DraftTitle(old(currentChat)), old(currentChat),
                                               currentActiveChatFolder)] + old(chatSessions)
              && chatDocumentLinks == old(chatDocumentLinks) + PendingLinks(freshChatId, old(newChatDocumentIds), newLinkIds)
              && newChatDocumentIds == [])
        && (!saved ==>
              && chatSessions == old(chatSessions) && chatDocumentLinks == old(chatDocumentLinks)
              && newChatDocumentIds == old(newChatDocumentIds))
        && (match FindSession(old(chatSessions), chatId)
            case Some(c) => currentChat == c.messages && selectedChatId == Some(chatId)
            case None =>
              if saved then currentChat == [] && selectedChatId == None
              else currentChat == old(currentChat) && selectedChatId == old(selectedChatId))
    {
      var seenSessions := chatSessions;
      if HasUserMessage(currentChat) && selectedChatId == None {
        NewChat(freshChatId, newLinkIds);
      }
      match FindSession(seenSessions, chatId) {
        case Some(c) =>
          currentChat := c.messages;
          selectedChatId := Some(chatId);
        case None =>
      }
    }

    /** The state part of `handleSendMessage(newMessage)`. `answer` is the outcome of the RAG request
        (`None` when it failed) and `botId` the id of the bot message; `contextIds` are the
        `contextDocumentIds` sent with the question, resolved from the state of the handler's render.
        The first message of a draft is auto-saved: a new session holding just that message is put in
        front and selected, and the pending documents are linked to it. The bot message is appended
        to the current chat; a session that was selected when the handler started is brought up to
        date with the final chat. */
    method SendMessage(newMessage: Message, answer: Option<string>, freshChatId: int, botId: int,
                       newLinkIds: seq<int>) returns (contextIds: seq<int>)
      requires Valid() && FreshChatId(freshChatId) && FreshLinkIds(newLinkIds)
      modifies this`chatSessions, this`chatDocumentLinks, this`selectedChatId, this`currentChat,
               this`newChatDocumentIds
      ensures Valid()
      ensures contextIds == DocumentIds(ActiveContextDocuments(documents, activeContextDocFolders,
        old(chatDocumentLinks), old(selectedChatId), old(newChatDocumentIds)))
      ensures NoDuplicates(contextIds)
      ensures forall d :: d in documents ==>
        (d.id in contextIds <==> InContext(d, activeContextDocFolders, old(chatDocumentLinks),
                                            old(selectedChatId), old(newChatDocumentIds)))
      ensures currentChat == old(currentChat) + [newMessage, BotReply(answer, botId)]
      ensures var autoSave := !Truthy(old(selectedChatId)) && old(currentChat) == [];
        && (autoSave ==>
              && chatSessions == [SavedSession(freshChatId, GenerateChatTitle(newMessage.content), [newMessage],
                                               currentActiveChatFolder)] + old(chatSessions)
              && selectedChatId == Some(freshChatId)
              && chatDocumentLinks == old(chatDocumentLinks) + PendingLinks(freshChatId, old(newChatDocumentIds), newLinkIds)
              && newChatDocumentIds == [])
        && (!autoSave ==>
              && selectedChatId == old(selectedChatId)
              && chatDocumentLinks == old(chatDocumentLinks) && newChatDocumentIds == old(newChatDocumentIds)
              && chatSessions == if Truthy(old(selectedChatId))
                                 then SyncSession(old(chatSessions), old(selectedChatId).value, currentChat)
                                 else old(chatSessions))
    {
      var seenSelected, seenLinks, seenPending := selectedChatId, chatDocumentLinks, newChatDocumentIds;
      var updatedChat := currentChat + [newMessage];
      currentChat := updatedChat;
      if !Truthy(selectedChatId) && |updatedChat| == 1 {
        AutoSave(newMessage, freshChatId, newLinkIds);
      }
      ContextIdsSpec(documents, activeContextDocFolders, seenLinks, seenSelected, seenPending);
      contextIds := DocumentIds(ActiveContextDocuments(documents, activeContextDocFolders, seenLinks, seenSelected, seenPending));
      var finalChat := updatedChat + [BotReply(answer, botId)];
      currentChat := finalChat;
      if Truthy(seenSelected) {
        chatSessions := SyncSession(chatSessions, seenSelected.value, finalChat);
      }
    }

    /** `handleUpdateActiveContext(folders)`, the callback the document viewer is given. */
    method UpdateActiveContext(folders: seq<Folder>)
      requires Valid()
      modifies this`activeContextDocFolders
      ensures Valid()
      ensures activeContextDocFolders == UpdatedActiveContext(old(activeContextDocFolders), folders)
      ensures activeContextDocFolders[0] == GeneralFolder
      ensures activeContextDocFolders[1..] == Filter(folders, (f: Folder) => f.id != GeneralFolderId)
    {
      UpdatedKeepsShape(activeContextDocFolders, folders);
      UpdatedActiveContextSpec(activeContextDocFolders, folders);
      assert FolderIds(activeContextDocFolders)[0] == GeneralFolderId;
      activeContextDocFolders := UpdatedActiveContext(activeContextDocFolders, folders);
    }

    /** `handleDeleteChat(chatId)` after `confirm()`: the session and every link of it go, the other
        links stay; a selected session is deselected and the current chat emptied. */
    method DeleteChat(chatId: int, confirmed: bool)
      requires Valid()
      modifies this`chatSessions, this`chatDocumentLinks, this`selectedChatId, this`currentChat
      ensures Valid()
      ensures !confirmed ==> (chatSessions == old(chatSessions) && chatDocumentLinks == old(chatDocumentLinks)
        && selectedChatId == old(selectedChatId) && currentChat == old(currentChat))
      ensures confirmed ==>
        && chatSessions == Filter(old(chatSessions), (c: ChatSession) => c.id != chatId)
        && chatId !in SessionIds(chatSessions)
        && chatDocumentLinks == Filter(old(chatDocumentLinks), (l: ChatDocumentLink) => l.chatId != chatId)
        && (forall l :: l in old(chatDocumentLinks) ==> (l in chatDocumentLinks <==> l.chatId != chatId))
        && (old(selectedChatId) == Some(chatId) ==> selectedChatId == None && currentChat == [])
        && (old(selectedChatId) != Some(chatId) ==>
              selectedChatId == old(selectedChatId) && currentChat == old(currentChat))
    {
      if confirmed {
        FilterKeepsSessionIds(chatSessions, (c: ChatSession) => c.id != chatId);
        FilterKeepsLinkTable(chatDocumentLinks, (l: ChatDocumentLink) => l.chatId != chatId);
        chatSessions := Filter(chatSessions, (c: ChatSession) => c.id != chatId);
        chatDocumentLinks := Filter(chatDocumentLinks, (l: ChatDocumentLink) => l.chatId != chatId);
        if selectedChatId == Some(chatId) {
          selectedChatId := None;
          currentChat := [];
        }
      }
    }
  }
}
