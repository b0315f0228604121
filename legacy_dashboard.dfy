/** The earlier chat dashboard (app/dashboard/page.tsx): chats without document links, a draft
    that starts with a bot greeting, and a send that only records the message. */
module LegacyDashboard {
  import opened Common
  import opened Entities
  import opened Labels
  import opened Context
  import opened Dashboard

  const GreetingText: string := "Hallo! Ik ben je AI assistent. Hoe kan ik je vandaag helpen?"

  /** The chat a fresh draft consists of: the bot greeting, with id `id` (`1` initially, `Date.now()` later). */
  function Greeting(id: int): (chat: seq<Message>)
    ensures |chat| == 1 && chat[0].role == Bot && chat[0].content == GreetingText
    ensures !HasUserMessage(chat)
  {
    [Message(id, Bot, GreetingText)]
  }

  /** The `setChatSessions(prev => prev.map(...))` of a send: the selected session gets `m` appended and
      the label "Nu"; its preview is recomputed only for a user message; other sessions stay as they were. */
  function AppendToSession(sessions: seq<ChatSession>, chatId: int, m: Message): (r: seq<ChatSession>)
    ensures |r| == |sessions| && SessionIds(r) == SessionIds(sessions)
    ensures forall i :: 0 <= i < |sessions| && sessions[i].id != chatId ==> r[i] == sessions[i]
    ensures forall i :: 0 <= i < |sessions| && sessions[i].id == chatId ==>
      && r[i].messages == sessions[i].messages + [m] && r[i].timestamp == NowLabel
      && r[i].id == sessions[i].id && r[i].title == sessions[i].title && r[i].chatFolderId == sessions[i].chatFolderId
      && r[i].preview == if m.role == User then GeneratePreview(sessions[i].messages + [m]) else sessions[i].preview
  {
    seq(|sessions|, i requires 0 <= i < |sessions| =>
      if sessions[i].id == chatId
      then sessions[i].(messages := sessions[i].messages + [m], timestamp := NowLabel,
                        preview := if m.role == User then GeneratePreview(sessions[i].messages + [m])
                                   else sessions[i].preview)
      else sessions[i])
  }

  /** For a session that already holds a user message (every saved session does), the preview a send
      computes is the preview it had: the refresh never changes a well-formed session's preview. */
  lemma AppendKeepsPreview(sessions: seq<ChatSession>, chatId: int, m: Message, i: nat)
    requires i < |sessions| && HasUserMessage(sessions[i].messages)
    requires sessions[i].preview == GeneratePreview(sessions[i].messages)
    ensures AppendToSession(sessions, chatId, m)[i].preview == sessions[i].preview
  {
    PreviewStableUnderAppend(sessions[i].messages, [m]);
  }

  class LegacyDashboardPage {
    var selectedChatId: Option<int>
    var chatSessions: seq<ChatSession>
    var chatFolders: seq<Folder>
    var currentActiveFolder: Option<int>
    var currentChat: seq<Message>
    var documents: seq<Document>
    var documentFolders: seq<Folder>
    var activeContextFolders: seq<Folder>

    /** What every handler keeps: the general folder heads the active context, session ids are
        distinct, every saved session holds a user message and the current chat is never empty. */
    predicate Valid()
      reads this
    {
      && ActiveContextShape(activeContextFolders)
      && NoDuplicates(SessionIds(chatSessions))
      && (forall i :: 0 <= i < |chatSessions| ==> HasUserMessage(chatSessions[i].messages))
      && currentChat != []
    }

    /** The initial state: no sessions, the greeting with id 1, the general folder active. */
    constructor ()
      ensures Valid()
      ensures selectedChatId == None && chatSessions == [] && chatFolders == [] && currentActiveFolder == None
      ensures currentChat == Greeting(1) && documents == [] && documentFolders == []
      ensures activeContextFolders == [GeneralFolder]
    {
      selectedChatId := None;
      chatSessions := [];
      chatFolders := [];
      currentActiveFolder := None;
      currentChat := Greeting(1);
      documents := [];
      documentFolders := [];
      activeContextFolders := [GeneralFolder];
    }

    /** `handleNewChat()`: a chat with a user message is saved in front whether or not it was already
        a selected session; then the dashboard returns to a fresh greeting with nothing selected. */
    method NewChat(freshChatId: int, greetingId: int)
      requires Valid() && freshChatId !in SessionIds(chatSessions)
      modifies this`chatSessions, this`currentChat, this`selectedChatId
      ensures Valid()
      ensures HasUserMessage(old(currentChat)) ==>
        chatSessions == [SavedSession(freshChatId, DraftTitle(old(currentChat)), old(currentChat),
                                      currentActiveFolder)] + old(chatSessions)
      ensures !HasUserMessage(old(currentChat)) ==> chatSessions == old(chatSessions)
      ensures currentChat == Greeting(greetingId) && selectedChatId == None
    {
      if HasUserMessage(currentChat) {
        chatSessions := [SavedSession(freshChatId, DraftTitle(currentChat), currentChat, currentActiveFolder)]
                        + chatSessions;
        assert SessionIds(chatSessions) == [freshChatId] + SessionIds(old(chatSessions));
      }
      currentChat := Greeting(greetingId);
      selectedChatId := None;
    }

    /** `handleChatSelect(chatId)`: an unselected chat with a user message is first saved as by
        `handleNewChat`; then a session of the handler's render with that id is opened, and an unknown
        id leaves the state as the save made it. */
    method SelectChat(chatId: int, freshChatId: int, greetingId: int)
      requires Valid() && freshChatId !in SessionIds(chatSessions)
      modifies this`chatSessions, this`currentChat, this`selectedChatId
      ensures Valid()
      ensures var saved := HasUserMessage(old(currentChat)) && old(selectedChatId) == None;
        && (saved ==>
              chatSessions == [SavedSession(freshChatId, DraftTitle(old(currentChat)), old(currentChat),
                                            currentActiveFolder)] + old(chatSessions))
        && (!saved ==> chatSessions == old(chatSessions))
        && (match FindSession(old(chatSessions), chatId)
            case Some(c) => currentChat == c.messages && selectedChatId == Some(chatId)
            case None =>
              if saved then currentChat == Greeting(greetingId) && selectedChatId == None
              else currentChat == old(currentChat) && selectedChatId == old(selectedChatId))
    {
      var seenSessions := chatSessions;
      if HasUserMessage(currentChat) && selectedChatId == None {
        NewChat(freshChatId, greetingId);
      }
      match FindSession(seenSessions, chatId) {
        case Some(c) =>
          currentChat := c.messages;
          selectedChatId := Some(chatId);
        case None =>
      }
    }

    /** `handleSendMessage(newMessage)`: the message is appended to the current chat and, when a
        (truthy) chat is selected, to that session only. */
    method SendMessage(newMessage: Message)
      requires Valid()
      modifies this`chatSessions, this`currentChat
      ensures Valid()
      ensures currentChat == old(currentChat) + [newMessage]
      ensures Truthy(selectedChatId) ==> chatSessions == AppendToSession(old(chatSessions), selectedChatId.value, newMessage)
      ensures !Truthy(selectedChatId) ==> chatSessions == old(chatSessions)
    {
      currentChat := currentChat + [newMessage];
      if Truthy(selectedChatId) {
        var r := AppendToSession(chatSessions, selectedChatId.value, newMessage);
        forall i | 0 <= i < |r| ensures HasUserMessage(r[i].messages) {
          if chatSessions[i].id == selectedChatId.value {
            var j :| 0 <= j < |chatSessions[i].messages| && chatSessions[i].messages[j].role == User;
            assert r[i].messages[j] == chatSessions[i].messages[j];
          }
        }
        chatSessions := r;
      }
    }

    /** `handleUpdateActiveContext(folders)`. */
    method UpdateActiveContext(folders: seq<Folder>)
      requires Valid()
      modifies this`activeContextFolders
      ensures Valid()
      ensures activeContextFolders == UpdatedActiveContext(old(activeContextFolders), folders)
    {
      UpdatedKeepsShape(activeContextFolders, folders);
      activeContextFolders := UpdatedActiveContext(activeContextFolders, folders);
    }

    /** `handleDeleteChat(chatId)` after `confirm()`: exactly the session `chatId` goes; a selected
        session is replaced by a fresh greeting with nothing selected. */
    method DeleteChat(chatId: int, confirmed: bool, greetingId: int)
      requires Valid()
      modifies this`chatSessions, this`currentChat, this`selectedChatId
      ensures Valid()
      ensures !confirmed ==> (chatSessions == old(chatSessions) && currentChat == old(currentChat)
        && selectedChatId == old(selectedChatId))
      ensures confirmed ==>
        && chatSessions == Filter(old(chatSessions), (c: ChatSession) => c.id != chatId)
        && chatId !in SessionIds(chatSessions)
        && (forall c :: c in old(chatSessions) && c.id != chatId ==> c in chatSessions)
        && (old(selectedChatId) == Some(chatId) ==> selectedChatId == None && currentChat == Greeting(greetingId))
        && (old(selectedChatId) != Some(chatId) ==>
              selectedChatId == old(selectedChatId) && currentChat == old(currentChat))
    {
      if confirmed {
        FilterKeepsSessionIds(chatSessions, (c: ChatSession) => c.id != chatId);
        var r := Filter(chatSessions, (c: ChatSession) => c.id != chatId);
        forall i | 0 <= i < |r| ensures HasUserMessage(r[i].messages) {
          var k :| 0 <= k < |chatSessions| && chatSessions[k] == r[i];
        }
        chatSessions := r;
        if selectedChatId == Some(chatId) {
          selectedChatId := None;
          currentChat := Greeting(greetingId);
        }
      }
    }
  }
}
