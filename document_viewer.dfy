/** The document viewer (app/components/DocumentViewer.tsx). Its `documents`, `docFolders` and
    `activeContextFolders` props are the dashboard's state: the viewer writes them back through the
    dashboard's setters, and the active-context list through the dashboard's
    `handleUpdateActiveContext`, so every such write here goes through `UpdatedActiveContext`. */
module DocumentViewer {
  import opened Common
  import opened Text
  import opened Entities
  import opened Context
  import opened Folders

  const DocumentFolderColors: seq<string> := [
    "bg-blue-100 text-blue-800 border-blue-200",
    "bg-sky-100 text-sky-800 border-sky-200",
    "bg-cyan-100 text-cyan-800 border-cyan-200",
    "bg-indigo-100 text-indigo-800 border-indigo-200",
    "bg-blue-200 text-blue-900 border-blue-300",
    "bg-sky-200 text-sky-900 border-sky-300"
  ]

  /** `folders.some(f => f.id === id)`. */
  predicate HasFolderId(folders: seq<Folder>, id: int) {
    exists i :: 0 <= i < |folders| && folders[i].id == id
  }

  /** Which ids a filtered folder list still holds. */
  lemma FilterFolderIds(folders: seq<Folder>, p: Folder -> bool, id: int)
    ensures HasFolderId(Filter(folders, p), id) <==> exists i :: 0 <= i < |folders| && folders[i].id == id && p(folders[i])
  {
    var r := Filter(folders, p);
    if HasFolderId(r, id) {
      var k :| 0 <= k < |r| && r[k].id == id;
      var i :| 0 <= i < |folders| && folders[i] == r[k];
    }
    if exists i :: 0 <= i < |folders| && folders[i].id == id && p(folders[i]) {
      var i :| 0 <= i < |folders| && folders[i].id == id && p(folders[i]);
      var k :| 0 <= k < |r| && r[k] == folders[i];
    }
  }

  /** The list `toggleActiveContext(folder)` hands to `handleUpdateActiveContext`: the active list
      without `folder` when it is active, with `folder` appended otherwise; the update then keeps the
      general folder in front. */
  function ToggledActiveContext(active: seq<Folder>, folder: Folder): seq<Folder> {
    var requested := if HasFolderId(active, folder.id)
                     then Filter(active, (f: Folder) => f.id != folder.id)
                     else active + [folder];
    UpdatedActiveContext(active, requested)
  }

  /** After `handleUpdateActiveContext(requested)` on a well-shaped list, an id is active exactly when it
      is the general folder's or `requested` holds it. */
  lemma UpdatedMembership(active: seq<Folder>, requested: seq<Folder>, id: int)
    requires ActiveContextShape(active)
    ensures HasFolderId(UpdatedActiveContext(active, requested), id) <==> id == GeneralFolderId || HasFolderId(requested, id)
  {
    var r := UpdatedActiveContext(active, requested);
    UpdatedKeepsShape(active, requested);
    UpdatedActiveContextSpec(active, requested);
    assert FolderIds(active)[0] == GeneralFolderId;
    var w := Filter(requested, (f: Folder) => f.id != GeneralFolderId);
    assert r == [r[0]] + w;
    FilterFolderIds(requested, (f: Folder) => f.id != GeneralFolderId, id);
    if HasFolderId(r, id) && id != GeneralFolderId {
      var k :| 0 <= k < |r| && r[k].id == id;
      assert w[k - 1] == r[k];
    }
    if HasFolderId(w, id) {
      var k :| 0 <= k < |w| && w[k].id == id;
      assert r[k + 1] == w[k];
    }
  }

  /** The list `toggleActiveContext` requests holds the toggled id exactly when the active list did not,
      and every other id exactly when the active list did. */
  lemma RequestedMembership(active: seq<Folder>, folder: Folder, id: int)
    ensures var requested := if HasFolderId(active, folder.id)
                             then Filter(active, (f: Folder) => f.id != folder.id)
                             else active + [folder];
      HasFolderId(requested, id) <==> if id == folder.id then !HasFolderId(active, folder.id) else HasFolderId(active, id)
  {
    if HasFolderId(active, folder.id) {
      FilterFolderIds(active, (f: Folder) => f.id != folder.id, id);
    } else {
      var requested := active + [folder];
      assert requested[|active|] == folder;
      if HasFolderId(active, id) {
        var i :| 0 <= i < |active| && active[i].id == id;
        assert requested[i] == active[i];
      }
      if id != folder.id && HasFolderId(requested, id) {
        var i :| 0 <= i < |requested| && requested[i].id == id;
        assert requested[i] == active[i];
      }
    }
  }

  /** Toggling a folder other than the general one flips whether its id is active and leaves every
      other id's membership as it was; the general folder stays in front. */
  lemma ToggledMembership(active: seq<Folder>, folder: Folder, id: int)
    requires ActiveContextShape(active) && folder.id != GeneralFolderId
    ensures ActiveContextShape(ToggledActiveContext(active, folder))
    ensures HasFolderId(ToggledActiveContext(active, folder), id)
      <==> if id == folder.id then !HasFolderId(active, folder.id) else HasFolderId(active, id)
  {
    var requested := if HasFolderId(active, folder.id)
                     then Filter(active, (f: Folder) => f.id != folder.id)
                     else active + [folder];
    UpdatedKeepsShape(active, requested);
    UpdatedMembership(active, requested, id);
    RequestedMembership(active, folder, id);
    if id == GeneralFolderId {
      assert active[0].id == GeneralFolderId;
    }
  }

  /** Toggling a folder twice restores which ids are active. */
  lemma ToggleActiveTwice(active: seq<Folder>, folder: Folder, id: int)
    requires ActiveContextShape(active) && folder.id != GeneralFolderId
    ensures HasFolderId(ToggledActiveContext(ToggledActiveContext(active, folder), folder), id) <==> HasFolderId(active, id)
  {
    ToggledMembership(active, folder, id);
    ToggledMembership(active, folder, folder.id);
    ToggledMembership(ToggledActiveContext(active, folder), folder, id);
  }

  class DocumentViewerState {
    var documents: seq<Document>
    var docFolders: seq<Folder>
    var activeContextFolders: seq<Folder>
    var selectedFolder: Option<int>
    var newFolderName: string
    var selectedDocuments: seq<int>
    var draggedDocumentId: Option<int>
    var selectedDocument: Option<Document>

    /** The active context keeps its shape and the selection holds no id twice. */
    predicate Valid()
      reads this
    {
      ActiveContextShape(activeContextFolders) && NoDuplicates(selectedDocuments)
    }

    /** The viewer opened on the dashboard's state, with its own state initial. */
    constructor (documents: seq<Document>, docFolders: seq<Folder>, activeContextFolders: seq<Folder>)
      requires ActiveContextShape(activeContextFolders)
      ensures Valid()
      ensures this.documents == documents && this.docFolders == docFolders
      ensures this.activeContextFolders == activeContextFolders
      ensures selectedFolder == None && newFolderName == [] && selectedDocuments == []
      ensures draggedDocumentId == None && selectedDocument == None
    {
      this.documents := documents;
      this.docFolders := docFolders;
      this.activeContextFolders := activeContextFolders;
      selectedFolder := None;
      newFolderName := [];
      selectedDocuments := [];
      draggedDocumentId := None;
      selectedDocument := None;
    }

    /** The folder name input (`onChange={(e) => setNewFolderName(e.target.value)}`). */
    method SetNewFolderName(name: string)
      modifies this`newFolderName
      ensures newFolderName == name
    {
      newFolderName := name;
    }

    /** Opening a folder view (or the unfiled view for `None`) in the folder list also clears the selection. */
    method SelectFolder(view: Option<int>)
      requires Valid()
      modifies this`selectedFolder, this`selectedDocuments
      ensures Valid()
      ensures selectedFolder == view && selectedDocuments == []
    {
      selectedFolder := view;
      selectedDocuments := [];
    }

    /** `createFolder()`: a blank name changes nothing; otherwise one folder with the fresh id, the
        trimmed name and the next palette colour is appended and the name field is cleared. */
    method CreateFolder(freshId: int)
      modifies this`docFolders, this`newFolderName
      ensures !NameAccepted(old(newFolderName)) ==> docFolders == old(docFolders) && newFolderName == old(newFolderName)
      ensures NameAccepted(old(newFolderName)) ==>
        && docFolders == old(docFolders)
             + [Folder(freshId, Trim(old(newFolderName)), FolderColor(DocumentFolderColors, |old(docFolders)|))]
        && newFolderName == []
    {
      var name := Trim(newFolderName);
      if name != [] {
        docFolders := docFolders + [Folder(freshId, name, FolderColor(DocumentFolderColors, |docFolders|))];
        newFolderName := [];
      }
    }

    /** `deleteFolder(folderId)` (confirmed by the page before the call): the folder leaves the folder
        list and the active context, its documents become unfiled, the other documents stay as they
        were, and a selected view of it goes back to the unfiled view. */
    method DeleteFolder(folderId: int)
      requires Valid()
      modifies this`docFolders, this`activeContextFolders, this`documents, this`selectedFolder
      ensures Valid()
      ensures docFolders == Filter(old(docFolders), (f: Folder) => f.id != folderId)
      ensures !HasFolderId(docFolders, folderId)
      ensures activeContextFolders
        == UpdatedActiveContext(old(activeContextFolders), Filter(old(activeContextFolders), (f: Folder) => f.id != folderId))
      ensures folderId != GeneralFolderId ==> !HasFolderId(activeContextFolders, folderId)
      ensures documents == UnfileDocuments(old(documents), folderId)
      ensures selectedFolder == if old(selectedFolder) == Some(folderId) then None else old(selectedFolder)
    {
      var remaining := Filter(docFolders, (f: Folder) => f.id != folderId);
      FilterFolderIds(docFolders, (f: Folder) => f.id != folderId, folderId);
      var requested := Filter(activeContextFolders, (f: Folder) => f.id != folderId);
      UpdatedKeepsShape(activeContextFolders, requested);
      if folderId != GeneralFolderId {
        UpdatedActiveContextSpec(activeContextFolders, requested);
        assert FolderIds(activeContextFolders)[0] == GeneralFolderId;
        var r := UpdatedActiveContext(activeContextFolders, requested);
        FilterFolderIds(requested, (f: Folder) => f.id != GeneralFolderId, folderId);
        FilterFolderIds(activeContextFolders, (f: Folder) => f.id != folderId, folderId);
        forall k | 0 <= k < |r| ensures r[k].id != folderId {
          if k >= 1 {
            assert r[k] == r[1..][k - 1];
          }
        }
      }
      docFolders := remaining;
      activeContextFolders := UpdatedActiveContext(activeContextFolders, requested);
      documents := UnfileDocuments(documents, folderId);
      if selectedFolder == Some(folderId) {
        selectedFolder := None;
      }
    }

    /** `moveDocumentsToFolder(folderId)`: exactly the selected documents move to `folderId` (unfiled
        for `null` or `0`), in place, and the selection is emptied. */
    method MoveDocumentsToFolder(folderId: Option<int>)
      requires Valid()
      modifies this`documents, this`selectedDocuments
      ensures Valid()
      ensures documents == MoveDocuments(old(documents), old(selectedDocuments), folderId)
      ensures selectedDocuments == []
    {
      documents := MoveDocuments(documents, selectedDocuments, folderId);
      selectedDocuments := [];
    }

    /** `handleDeleteDocument(id)` (confirmed by the page before the call): the document leaves the
        store and the selection, and its preview closes. Its chat links are not touched. */
    method DeleteDocument(id: int)
      requires Valid()
      modifies this`documents, this`selectedDocuments, this`selectedDocument
      ensures Valid()
      ensures documents == Filter(old(documents), (d: Document) => d.id != id)
      ensures selectedDocuments == Filter(old(selectedDocuments), (x: int) => x != id) && id !in selectedDocuments
      ensures selectedDocument == if old(selectedDocument).Some? && old(selectedDocument).value.id == id
                                  then None else old(selectedDocument)
    {
      FilterNoDuplicates(selectedDocuments, (x: int) => x != id);
      documents := Filter(documents, (d: Document) => d.id != id);
      selectedDocuments := Filter(selectedDocuments, (x: int) => x != id);
      if selectedDocument.Some? && selectedDocument.value.id == id {
        selectedDocument := None;
      }
    }

    /** `handleDragStart(e, documentId)`. */
    method DragStart(documentId: int)
      modifies this`draggedDocumentId
      ensures draggedDocumentId == Some(documentId)
    {
      draggedDocumentId := Some(documentId);
    }

    /** `handleDragEnd()`. */
    method DragEnd()
      modifies this`draggedDocumentId
      ensures draggedDocumentId == None
    {
      draggedDocumentId := None;
    }

    /** `handleDrop(e, targetFolderId)`: only a dragged document moves (to the target, unfiled for
        `null` or `0`); with nothing dragged the documents stay as they were; the drag ends. */
    method Drop(targetFolderId: Option<int>)
      modifies this`documents, this`draggedDocumentId
      ensures old(draggedDocumentId).None? ==> documents == old(documents)
      ensures old(draggedDocumentId).Some? ==>
        documents == MoveDocuments(old(documents), [old(draggedDocumentId).value], targetFolderId)
      ensures draggedDocumentId == None
    {
      if draggedDocumentId != None {
        documents := MoveDocuments(documents, [draggedDocumentId.value], targetFolderId);
      }
      draggedDocumentId := None;
    }

    /** `toggleDocumentSelection(documentId)`. */
    method ToggleDocumentSelection(documentId: int)
      requires Valid()
      modifies this`selectedDocuments
      ensures Valid()
      ensures selectedDocuments == Toggle(old(selectedDocuments), documentId)
      ensures forall x :: x in selectedDocuments <==> (if x == documentId then x !in old(selectedDocuments)
                                                       else x in old(selectedDocuments))
    {
      ToggleNoDuplicates(selectedDocuments, documentId);
      forall x ensures x in Toggle(selectedDocuments, documentId) <==>
        (if x == documentId then x !in selectedDocuments else x in selectedDocuments) {
        ToggleFlips(selectedDocuments, documentId, x);
      }
      selectedDocuments := Toggle(selectedDocuments, documentId);
    }

    /** `toggleActiveContext(folder)`: `null` (the general folder's switch) changes nothing; a folder
        is switched off when active and on otherwise, through `handleUpdateActiveContext`. */
    method ToggleActiveContext(folder: Option<Folder>)
      requires Valid()
      modifies this`activeContextFolders
      ensures Valid()
      ensures folder.None? ==> activeContextFolders == old(activeContextFolders)
      ensures folder.Some? ==> activeContextFolders == ToggledActiveContext(old(activeContextFolders), folder.value)
    {
      if folder.Some? {
        var f := folder.value;
        var requested := if HasFolderId(activeContextFolders, f.id)
                         then Filter(activeContextFolders, (g: Folder) => g.id != f.id)
                         else activeContextFolders + [f];
        UpdatedKeepsShape(activeContextFolders, requested);
        activeContextFolders := ToggledActiveContext(activeContextFolders, f);
      }
    }
  }
}
