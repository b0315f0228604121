/** The chat history viewer (frontend/app/components/ChatHistoryViewer.tsx). Its `chatSessions` and
    `chatFolders` props are the dashboard's state, written back through the dashboard's setters. */
module ChatHistoryViewer {
  import opened Common
  import opened Text
  import opened Entities
  import opened Folders

  const ChatFolderColors: seq<string> := [
    "bg-orange-100 dark:bg-orange-900/30 text-orange-800 dark:text-orange-200 border-orange-200 dark:border-orange-700",
    "bg-orange-200 dark:bg-orange-900/30 text-orange-900 dark:text-orange-100 border-orange-300 dark:border-orange-600",
    "bg-orange-300 dark:bg-orange-800/30 text-orange-900 dark:text-orange-50 border-orange-400 dark:border-orange-500",
    "bg-orange-400 dark:bg-orange-700/30 text-orange-950 dark:text-orange-50 border-orange-500 dark:border-orange-400",
    "bg-orange-500 dark:bg-orange-600/30 text-white dark:text-orange-50 border-orange-600 dark:border-orange-300",
    "bg-orange-50 dark:bg-orange-950/20 text-orange-900 dark:text-orange-100 border-orange-100 dark:border-orange-800"
  ]

  class ChatHistoryViewerState {
    var chatSessions: seq<ChatSession>
    var chatFolders: seq<Folder>
    var selectedFolder: Option<int>
    var newFolderName: string
    var selectedChats: seq<int>
    var draggedChatId: Option<int>

    /** The selection never holds an id twice. */
    predicate Valid()
      reads this
    {
      NoDuplicates(selectedChats)
    }

    /** The viewer opened on the dashboard's state, with its own state initial. */
    constructor (chatSessions: seq<ChatSession>, chatFolders: seq<Folder>)
      ensures Valid()
      ensures this.chatSessions == chatSessions && this.chatFolders == chatFolders
      ensures selectedFolder == None && newFolderName == [] && selectedChats == [] && draggedChatId == None
    {
      this.chatSessions := chatSessions;
      this.chatFolders := chatFolders;
      selectedFolder := None;
      newFolderName := [];
      selectedChats := [];
      draggedChatId := None;
    }

    /** The folder name input (`onChange={(e) => setNewFolderName(e.target.value)}`). */
    method SetNewFolderName(name: string)
      modifies this`newFolderName
      ensures newFolderName == name
    {
      newFolderName := name;
    }

    /** Opening a folder view, or the general chats for `None`. */
    method SelectFolder(view: Option<int>)
      modifies this`selectedFolder
      ensures selectedFolder == view
    {
      selectedFolder := view;
    }

    /** `createFolder()`: a blank name changes nothing; otherwise one folder with the fresh id, the
        trimmed name and the next palette colour is appended and the name field is cleared. */
    method CreateFolder(freshId: int)
      modifies this`chatFolders, this`newFolderName
      ensures !NameAccepted(old(newFolderName)) ==> chatFolders == old(chatFolders) && newFolderName == old(newFolderName)
      ensures NameAccepted(old(newFolderName)) ==>
        && chatFolders == old(chatFolders)
             + [Folder(freshId, Trim(old(newFolderName)), FolderColor(ChatFolderColors, |old(chatFolders)|))]
        && newFolderName == []
    {
      var name := Trim(newFolderName);
      if name != [] {
        chatFolders := chatFolders + [Folder(freshId, name, FolderColor(ChatFolderColors, |chatFolders|))];
        newFolderName := [];
      }
    }

    /** The delete button's `confirm()` followed by `deleteFolder(folderId)`, which asks again:
        `confirmed` stands for both prompts being accepted. Then the folder's chats become unfiled, the
        other chats stay as they were, the folder goes, and a selected view of it goes back to the
        general chats. */
    method DeleteFolder(folderId: int, confirmed: bool)
      modifies this`chatSessions, this`chatFolders, this`selectedFolder
      ensures !confirmed ==> (chatSessions == old(chatSessions) && chatFolders == old(chatFolders)
        && selectedFolder == old(selectedFolder))
      ensures confirmed ==>
        && chatSessions == UnfileChats(old(chatSessions), folderId)
        && chatFolders == Filter(old(chatFolders), (f: Folder) => f.id != folderId)
        && folderId !in FolderIds(chatFolders)
        && selectedFolder == if old(selectedFolder) == Some(folderId) then None else old(selectedFolder)
    {
      if confirmed {
        chatSessions := UnfileChats(chatSessions, folderId);
        chatFolders := Filter(chatFolders, (f: Folder) => f.id != folderId);
        if selectedFolder == Some(folderId) {
          selectedFolder := None;
        }
      }
    }

    /** `moveChatsToFolder(folderId)`: exactly the selected chats move to `folderId` (unfiled for
        `null` or `0`), in place, and the selection is emptied. */
    method MoveChatsToFolder(folderId: Option<int>)
      requires Valid()
      modifies this`chatSessions, this`selectedChats
      ensures Valid()
      ensures chatSessions == MoveChats(old(chatSessions), old(selectedChats), folderId)
      ensures selectedChats == []
    {
      chatSessions := MoveChats(chatSessions, selectedChats, folderId);
      selectedChats := [];
    }

    /** `handleDragStart(e, chatId)`. */
    method DragStart(chatId: int)
      modifies this`draggedChatId
      ensures draggedChatId == Some(chatId)
    {
      draggedChatId := Some(chatId);
    }

    /** `handleDragEnd()`. */
    method DragEnd()
      modifies this`draggedChatId
      ensures draggedChatId == None
    {
      draggedChatId := None;
    }

    /** `handleDrop(e, targetFolderId)`: only a dragged chat moves (to the target, unfiled for `null`
        or `0`); with nothing dragged the chats stay as they were; the drag ends. */
    method Drop(targetFolderId: Option<int>)
      modifies this`chatSessions, this`draggedChatId
      ensures old(draggedChatId).None? ==> chatSessions == old(chatSessions)
      ensures old(draggedChatId).Some? ==>
        chatSessions == MoveChats(old(chatSessions), [old(draggedChatId).value], targetFolderId)
      ensures draggedChatId == None
    {
      if draggedChatId != None {
        chatSessions := MoveChats(chatSessions, [draggedChatId.value], targetFolderId);
      }
      draggedChatId := None;
    }

    /** `toggleChatSelection(chatId)`. */
    method ToggleChatSelection(chatId: int)
      requires Valid()
      modifies this`selectedChats
      ensures Valid()
      ensures selectedChats == Toggle(old(selectedChats), chatId)
      ensures forall x :: x in selectedChats <==> (if x == chatId then x !in old(selectedChats)
                                                   else x in old(selectedChats))
    {
      ToggleNoDuplicates(selectedChats, chatId);
      forall x ensures x in Toggle(selectedChats, chatId) <==>
        (if x == chatId then x !in selectedChats else x in selectedChats) {
        ToggleFlips(selectedChats, chatId, x);
      }
      selectedChats := Toggle(selectedChats, chatId);
    }
  }
}
