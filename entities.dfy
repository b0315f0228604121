/** The records the dashboard keeps, with the field names its handlers use
    (`documentFolderId`, `chatFolderId`, `ChatDocumentLink`). Dates are not kept:
    the clock is an input of the label functions instead. */
module Entities {
  import opened Common

  /** `Message.type`. */
  datatype Role = User | Bot

  datatype Message = Message(id: int, role: Role, content: string)

  /** `documentFolderId == None` is the general ("Algemene documenten") bucket. */
  datatype Document = Document(
    id: int,
    name: string,
    docType: string,
    size: string,
    documentFolderId: Option<int>)

  /** A chat folder or a document folder: the two have the same shape. */
  datatype Folder = Folder(id: int, name: string, color: string)

  /** `timestamp` and `preview` are the labels the sidebar shows; `chatFolderId == None`
      is the general chats bucket. */
  datatype ChatSession = ChatSession(
    id: int,
    title: string,
    timestamp: string,
    preview: string,
    messages: seq<Message>,
    chatFolderId: Option<int>)

  datatype ChatDocumentLink = ChatDocumentLink(
    id: int,
    chatId: int,
    documentId: int,
    isContextActive: bool)

  /** The sentinel id of the general document folder. */
  const GeneralFolderId: int := -1

  /** The entry the active-context list starts with. */
  const GeneralFolder: Folder :=
    Folder(GeneralFolderId, "Algemene documenten", "bg-gray-100 text-gray-800 border-gray-200")

  /* The ids of each kind of record, in store order (`items.map(x => x.id)`). The record types
     share no supertype, so each kind has its own projection. */

  function DocumentIds(docs: seq<Document>): (r: seq<int>)
    ensures |r| == |docs| && forall i :: 0 <= i < |docs| ==> r[i] == docs[i].id
  {
    seq(|docs|, i requires 0 <= i < |docs| => docs[i].id)
  }

  function FolderIds(folders: seq<Folder>): (r: seq<int>)
    ensures |r| == |folders| && forall i :: 0 <= i < |folders| ==> r[i] == folders[i].id
  {
    seq(|folders|, i requires 0 <= i < |folders| => folders[i].id)
  }

  function SessionIds(sessions: seq<ChatSession>): (r: seq<int>)
    ensures |r| == |sessions| && forall i :: 0 <= i < |sessions| ==> r[i] == sessions[i].id
  {
    seq(|sessions|, i requires 0 <= i < |sessions| => sessions[i].id)
  }

  function LinkIds(links: seq<ChatDocumentLink>): (r: seq<int>)
    ensures |r| == |links| && forall i :: 0 <= i < |links| ==> r[i] == links[i].id
  {
    seq(|links|, i requires 0 <= i < |links| => links[i].id)
  }

  predicate HasUserMessage(messages: seq<Message>) {
    exists i :: 0 <= i < |messages| && messages[i].role == User
  }
}
