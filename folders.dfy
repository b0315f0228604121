/** Folder membership shared by the document viewer, the chat history viewer and the sidebar:
    which folder view an item shows up in, what a move writes, and folder creation. */
module Folders {
  import opened Common
  import opened Text
  import opened Entities

  /** The filter of a folder view: the unfiled view (`null`) shows the items whose folder
      reference is falsy (`!item.folderId`), a folder's view the items whose reference equals it. */
  predicate InFolderView(folderRef: Option<int>, view: Option<int>) {
    if view.None? then !Truthy(folderRef) else folderRef == view
  }

  /** The folder reference a move to `target` writes (`target || undefined`): `null` and `0`
      both mean unfiled. */
  function MovedRef(target: Option<int>): (r: Option<int>)
    ensures r != Some(0)
    ensures r.None? <==> !Truthy(target)
    ensures Truthy(target) ==> r == target
  {
    OrUndefined(target)
  }

  /** A folder reference that no move writes (the code never stores `0`) puts an item in exactly
      one view: the one named by the reference. */
  lemma ExactlyOneView(folderRef: Option<int>, view: Option<int>)
    requires folderRef != Some(0)
    ensures InFolderView(folderRef, view) <==> view == folderRef
  {
  }

  /** After a move to `target`, the item shows up in the view of `MovedRef(target)` and in no other:
      moving to `null` or `0` is the same, for every view, as never having been filed. */
  lemma MovedItemViews(target: Option<int>, view: Option<int>)
    ensures InFolderView(MovedRef(target), view) <==> view == MovedRef(target)
    ensures !Truthy(target) ==> (InFolderView(MovedRef(target), view) <==> InFolderView(None, view))
  {
  }

  /** `getFilteredDocuments` of the document viewer: the documents of the view, in store order. */
  function DocumentsInView(docs: seq<Document>, view: Option<int>): (r: seq<Document>)
    ensures forall d :: d in r <==> d in docs && InFolderView(d.documentFolderId, view)
  {
    var r := Filter(docs, (d: Document) => InFolderView(d.documentFolderId, view));
    forall d ensures d in r <==> d in docs && InFolderView(d.documentFolderId, view) {
      if d in docs && InFolderView(d.documentFolderId, view) { var j :| 0 <= j < |docs| && docs[j] == d; }
      if d in r { var i :| 0 <= i < |r| && r[i] == d; }
    }
    r
  }

  /** `getFilteredChats` of the chat history viewer, and `getSidebarChats` of both dashboards with
      the sidebar's current chat folder as the view: the chats of the view, in store order. */
  function ChatsInView(sessions: seq<ChatSession>, view: Option<int>): (r: seq<ChatSession>)
    ensures forall c :: c in r <==> c in sessions && InFolderView(c.chatFolderId, view)
  {
    var r := Filter(sessions, (c: ChatSession) => InFolderView(c.chatFolderId, view));
    forall c ensures c in r <==> c in sessions && InFolderView(c.chatFolderId, view) {
      if c in sessions && InFolderView(c.chatFolderId, view) { var j :| 0 <= j < |sessions| && sessions[j] == c; }
      if c in r { var i :| 0 <= i < |r| && r[i] == c; }
    }
    r
  }

  /** The document listing keeps store order and multiplicity: listing a concatenation lists each
      part in turn, and a single document is listed once or not at all. */
  lemma DocumentsInViewAppend(a: seq<Document>, b: seq<Document>, view: Option<int>)
    ensures DocumentsInView(a + b, view) == DocumentsInView(a, view) + DocumentsInView(b, view)
  {
    FilterAppend(a, b, (d: Document) => InFolderView(d.documentFolderId, view));
  }

  lemma DocumentsInViewSingle(d: Document, view: Option<int>)
    ensures DocumentsInView([d], view) == if InFolderView(d.documentFolderId, view) then [d] else []
  {
    assert [d][1..] == [];
  }

  /** The same for the chat listing. */
  lemma ChatsInViewAppend(a: seq<ChatSession>, b: seq<ChatSession>, view: Option<int>)
    ensures ChatsInView(a + b, view) == ChatsInView(a, view) + ChatsInView(b, view)
  {
    FilterAppend(a, b, (c: ChatSession) => InFolderView(c.chatFolderId, view));
  }

  lemma ChatsInViewSingle(c: ChatSession, view: Option<int>)
    ensures ChatsInView([c], view) == if InFolderView(c.chatFolderId, view) then [c] else []
  {
    assert [c][1..] == [];
  }

  /** A chat whose folder reference a move could have written is listed in exactly one view:
      the view of its own folder, or the unfiled view when it has none. */
  lemma ChatInExactlyOneView(sessions: seq<ChatSession>, c: ChatSession, view: Option<int>)
    requires c in sessions && c.chatFolderId != Some(0)
    ensures c in ChatsInView(sessions, view) <==> view == c.chatFolderId
  {
    ExactlyOneView(c.chatFolderId, view);
  }

  /** The same for documents and the document viewer's folder views. */
  lemma DocumentInExactlyOneView(docs: seq<Document>, d: Document, view: Option<int>)
    requires d in docs && d.documentFolderId != Some(0)
    ensures d in DocumentsInView(docs, view) <==> view == d.documentFolderId
  {
    ExactlyOneView(d.documentFolderId, view);
  }

  /** `documents.map(doc => ids.includes(doc.id) ? { ...doc, documentFolderId: target || undefined } : doc)`:
      the bulk move of the document viewer, and its drop with the dragged id alone. */
  function MoveDocuments(docs: seq<Document>, ids: seq<int>, target: Option<int>): (r: seq<Document>)
    ensures |r| == |docs|
    ensures forall i :: 0 <= i < |docs| ==>
      r[i] == if docs[i].id in ids then docs[i].(documentFolderId := MovedRef(target)) else docs[i]
  {
    seq(|docs|, i requires 0 <= i < |docs| =>
      if docs[i].id in ids then docs[i].(documentFolderId := MovedRef(target)) else docs[i])
  }

  /** The same for chats and the chat history viewer. */
  function MoveChats(sessions: seq<ChatSession>, ids: seq<int>, target: Option<int>): (r: seq<ChatSession>)
    ensures |r| == |sessions|
    ensures forall i :: 0 <= i < |sessions| ==>
      r[i] == if sessions[i].id in ids then sessions[i].(chatFolderId := MovedRef(target)) else sessions[i]
  {
    seq(|sessions|, i requires 0 <= i < |sessions| =>
      if sessions[i].id in ids then sessions[i].(chatFolderId := MovedRef(target)) else sessions[i])
  }

  /** After a move every moved document is listed in the target's view and in no other, and every other
      document is listed where it was. */
  lemma MoveDocumentsViews(docs: seq<Document>, ids: seq<int>, target: Option<int>, view: Option<int>, i: nat)
    requires i < |docs|
    ensures var d := MoveDocuments(docs, ids, target)[i];
      && (docs[i].id in ids ==> (InFolderView(d.documentFolderId, view) <==> view == MovedRef(target)))
      && (docs[i].id !in ids ==> (InFolderView(d.documentFolderId, view) <==> InFolderView(docs[i].documentFolderId, view)))
  {
    MovedItemViews(target, view);
  }

  /** The cascade of deleting document folder `folderId`: its documents become unfiled. */
  function UnfileDocuments(docs: seq<Document>, folderId: int): (r: seq<Document>)
    ensures |r| == |docs|
    ensures forall i :: 0 <= i < |r| ==> r[i].documentFolderId != Some(folderId)
    ensures forall i :: 0 <= i < |docs| && docs[i].documentFolderId == Some(folderId) ==>
      r[i] == docs[i].(documentFolderId := None)
    ensures forall i :: 0 <= i < |docs| && docs[i].documentFolderId != Some(folderId) ==> r[i] == docs[i]
  {
    seq(|docs|, i requires 0 <= i < |docs| =>
      if docs[i].documentFolderId == Some(folderId) then docs[i].(documentFolderId := None) else docs[i])
  }

  /** The cascade of deleting chat folder `folderId`: its chats become unfiled. */
  function UnfileChats(sessions: seq<ChatSession>, folderId: int): (r: seq<ChatSession>)
    ensures |r| == |sessions|
    ensures forall i :: 0 <= i < |r| ==> r[i].chatFolderId != Some(folderId)
    ensures forall i :: 0 <= i < |sessions| && sessions[i].chatFolderId == Some(folderId) ==>
      r[i] == sessions[i].(chatFolderId := None)
    ensures forall i :: 0 <= i < |sessions| && sessions[i].chatFolderId != Some(folderId) ==> r[i] == sessions[i]
  {
    seq(|sessions|, i requires 0 <= i < |sessions| =>
      if sessions[i].chatFolderId == Some(folderId) then sessions[i].(chatFolderId := None) else sessions[i])
  }

  /** After deleting a folder, the unfiled view lists the chats it listed before and the deleted
      folder's chats, in store order, and no view lists a chat under the deleted folder. */
  lemma UnfileChatsViews(sessions: seq<ChatSession>, folderId: int, c: ChatSession)
    requires folderId != 0
    ensures c !in ChatsInView(UnfileChats(sessions, folderId), Some(folderId))
    ensures c in ChatsInView(UnfileChats(sessions, folderId), None) <==>
      (c in ChatsInView(sessions, None) || (c.chatFolderId == None && c.(chatFolderId := Some(folderId)) in sessions))
  {
    var r := UnfileChats(sessions, folderId);
    if c in ChatsInView(r, None) {
      var i :| 0 <= i < |r| && r[i] == c;
    }
    if c in ChatsInView(sessions, None) {
      var i :| 0 <= i < |sessions| && sessions[i] == c;
      assert r[i] == c;
    }
    if c.chatFolderId == None && c.(chatFolderId := Some(folderId)) in sessions {
      var i :| 0 <= i < |sessions| && sessions[i] == c.(chatFolderId := Some(folderId));
      assert r[i] == c;
    }
  }

  /** The six colour classes of each viewer's palette. */
  const PaletteSize: nat := 6

  /** Whether a new-folder name is accepted (`if (newFolderName.trim())`). */
  predicate NameAccepted(name: string) {
    Trim(name) != []
  }

  /** The colour a new folder gets: `folderColors[folders.length % folderColors.length]`. */
  function FolderColor(palette: seq<string>, count: nat): (c: string)
    requires |palette| == PaletteSize
    ensures c in palette
    ensures count < PaletteSize ==> c == palette[count]
    ensures c == palette[count % PaletteSize]
  {
    palette[count % PaletteSize]
  }

  /** The colours cycle: the folder created after six more folders gets the same colour. */
  lemma FolderColorCycles(palette: seq<string>, count: nat)
    requires |palette| == PaletteSize
    ensures FolderColor(palette, count + PaletteSize) == FolderColor(palette, count)
  {
  }

  /** With a palette of six different colours, two folder counts give the same colour exactly when
      they are the same modulo six: the first six folders all get different colours. */
  lemma FolderColorsRepeat(palette: seq<string>, a: nat, b: nat)
    requires |palette| == PaletteSize
    requires forall i, j :: 0 <= i < j < |palette| ==> palette[i] != palette[j]
    ensures FolderColor(palette, a) == FolderColor(palette, b) <==> a % PaletteSize == b % PaletteSize
  {
    var i, j := a % PaletteSize, b % PaletteSize;
    if i < j {
      assert palette[i] != palette[j];
    } else if j < i {
      assert palette[j] != palette[i];
    }
  }
}
