/** Chat-document links, the active-context folder list and the resolution of the
    documents that go with a question (frontend/app/dashboard/page.tsx). */
module Context {
  import opened Common
  import opened Entities

  // ---------------------------------------------------------------- links

  /** The pair a link is for. */
  predicate LinksPair(l: ChatDocumentLink, documentId: int, chatId: int) {
    l.documentId == documentId && l.chatId == chatId
  }

  /** `chatDocumentLinks.find(link => link.documentId === documentId && link.chatId === chatId)`. */
  function FindLink(links: seq<ChatDocumentLink>, documentId: int, chatId: int): (r: Option<ChatDocumentLink>)
    ensures r.None? <==> forall i :: 0 <= i < |links| ==> !LinksPair(links[i], documentId, chatId)
    ensures r.Some? ==> r.value in links && LinksPair(r.value, documentId, chatId)
  {
    if links == [] then None
    else if LinksPair(links[0], documentId, chatId) then Some(links[0])
    else FindLink(links[1..], documentId, chatId)
  }

  function LinkedDocumentIds(links: seq<ChatDocumentLink>): (r: seq<int>)
    ensures |r| == |links| && forall i :: 0 <= i < |links| ==> r[i] == links[i].documentId
  {
    seq(|links|, i requires 0 <= i < |links| => links[i].documentId)
  }

  predicate UniqueLinkIds(links: seq<ChatDocumentLink>) {
    forall i, j :: 0 <= i < j < |links| ==> links[i].id != links[j].id
  }

  /** The invariant of the link table: at most one link per (document, chat) pair. */
  predicate AtMostOneLinkPerPair(links: seq<ChatDocumentLink>) {
    forall i, j :: 0 <= i < j < |links| ==>
      !LinksPair(links[j], links[i].documentId, links[i].chatId)
  }

  predicate LinkTableValid(links: seq<ChatDocumentLink>) {
    UniqueLinkIds(links) && AtMostOneLinkPerPair(links)
  }

  /** The link table with the flag of the link(s) whose id is `linkId` set to `flag`: the updater
      `prev.map(link => link.id === existingLink.id ? { ...link, isContextActive } : link)`. */
  function SetFlag(links: seq<ChatDocumentLink>, linkId: int, flag: bool): (r: seq<ChatDocumentLink>)
    ensures |r| == |links|
    ensures forall i :: 0 <= i < |links| ==>
      r[i] == if links[i].id == linkId then links[i].(isContextActive := flag) else links[i]
  {
    seq(|links|, i requires 0 <= i < |links| =>
      if links[i].id == linkId then links[i].(isContextActive := flag) else links[i])
  }

  /** One `linkDocumentToChat(documentId, chatId, isContextActive)` whose existence check reads the
      table `seen` of the handler's render while its updater is applied to the current table `links`;
      `newLinkId` stands for `Date.now() + Math.random()`. */
  function LinkAgainst(seen: seq<ChatDocumentLink>, links: seq<ChatDocumentLink>, documentId: int,
                       chatId: int, isContextActive: bool, newLinkId: int): seq<ChatDocumentLink>
  {
    match FindLink(seen, documentId, chatId)
    case Some(existing) => SetFlag(links, existing.id, isContextActive)
    case None => links + [ChatDocumentLink(newLinkId, chatId, documentId, isContextActive)]
  }

  /** A single `linkDocumentToChat` call: the table it checks is the one it updates. */
  function LinkDocument(links: seq<ChatDocumentLink>, documentId: int, chatId: int,
                        isContextActive: bool, newLinkId: int): seq<ChatDocumentLink>
  {
    LinkAgainst(links, links, documentId, chatId, isContextActive, newLinkId)
  }

  /** After linking there is exactly one link for the pair, carrying the requested flag. An existing
      link only changes its flag and every other link stays as it was; otherwise exactly one link is
      appended. The link-table invariant is kept. */
  lemma LinkDocumentSpec(links: seq<ChatDocumentLink>, documentId: int, chatId: int,
                         isContextActive: bool, newLinkId: int)
    requires LinkTableValid(links)
    requires newLinkId !in LinkIds(links)
    ensures var r := LinkDocument(links, documentId, chatId, isContextActive, newLinkId);
      && LinkTableValid(r)
      && (exists k :: 0 <= k < |r| && LinksPair(r[k], documentId, chatId) && r[k].isContextActive == isContextActive)
      && ((exists i :: 0 <= i < |links| && LinksPair(links[i], documentId, chatId)) ==>
            |r| == |links| && forall i :: 0 <= i < |links| ==>
              r[i] == if LinksPair(links[i], documentId, chatId)
                      then links[i].(isContextActive := isContextActive) else links[i])
      && ((forall i :: 0 <= i < |links| ==> !LinksPair(links[i], documentId, chatId)) ==>
            r == links + [ChatDocumentLink(newLinkId, chatId, documentId, isContextActive)])
  {
    var r := LinkDocument(links, documentId, chatId, isContextActive, newLinkId);
    match FindLink(links, documentId, chatId)
    case Some(e) =>
      var k :| 0 <= k < |links| && links[k] == e;
      forall i | 0 <= i < |links| && i != k
        ensures !LinksPair(links[i], documentId, chatId) && links[i].id != e.id
      {
        if i < k {
          assert !LinksPair(links[k], links[i].documentId, links[i].chatId);
          assert links[i].id != links[k].id;
        } else {
          assert !LinksPair(links[i], links[k].documentId, links[k].chatId);
          assert links[k].id != links[i].id;
        }
      }
      assert LinksPair(r[k], documentId, chatId);
    case None =>
      var n := |links|;
      assert r[n] == ChatDocumentLink(newLinkId, chatId, documentId, isContextActive);
      forall i | 0 <= i < n ensures r[i].id != r[n].id && !LinksPair(r[n], r[i].documentId, r[i].chatId) {
        assert r[i] == links[i] && links[i].id == LinkIds(links)[i];
      }
  }

  /** `unlinkDocumentFromChat`: every link for the pair goes, every other link stays, in order. */
  function UnlinkDocument(links: seq<ChatDocumentLink>, documentId: int, chatId: int): (r: seq<ChatDocumentLink>)
    ensures forall i :: 0 <= i < |r| ==> !LinksPair(r[i], documentId, chatId)
    ensures forall i :: 0 <= i < |links| && !LinksPair(links[i], documentId, chatId) ==> links[i] in r
    ensures forall i :: 0 <= i < |r| ==> r[i] in links
  {
    Filter(links, (l: ChatDocumentLink) => !LinksPair(l, documentId, chatId))
  }

  /** The links the draft's `forEach(docId => linkDocumentToChat(docId, chatId, true))` appends for a
      chat id no link mentions yet, one per pending document id, each with its own fresh id. */
  function PendingLinks(chatId: int, pending: seq<int>, linkIds: seq<int>): (r: seq<ChatDocumentLink>)
    requires |linkIds| == |pending|
    ensures |r| == |pending| && forall k :: 0 <= k < |pending| ==>
      r[k] == ChatDocumentLink(linkIds[k], chatId, pending[k], true)
  {
    seq(|pending|, k requires 0 <= k < |pending| => ChatDocumentLink(linkIds[k], chatId, pending[k], true))
  }

  /** Appending the draft's links to a fresh chat keeps the link-table invariant when the pending ids
      are distinct and the new link ids are distinct and unused. */
  lemma PendingLinksValid(links: seq<ChatDocumentLink>, chatId: int, pending: seq<int>, linkIds: seq<int>)
    requires LinkTableValid(links)
    requires |linkIds| == |pending| && NoDuplicates(pending) && NoDuplicates(linkIds)
    requires forall i :: 0 <= i < |links| ==> links[i].chatId != chatId && links[i].id !in linkIds
    ensures LinkTableValid(links + PendingLinks(chatId, pending, linkIds))
  {
    var p := PendingLinks(chatId, pending, linkIds);
    var r := links + p;
    forall i, j | 0 <= i < j < |r|
      ensures r[i].id != r[j].id && !LinksPair(r[j], r[i].documentId, r[i].chatId)
    {
      if j >= |links| {
        assert r[j] == p[j - |links|];
        if i >= |links| {
          assert r[i] == p[i - |links|];
        } else {
          assert r[i] == links[i];
          assert r[j].id in linkIds;
        }
      }
    }
  }

  /** The `forEach(docId => linkDocumentToChat(docId, chatId, true))` loop of one handler: every call
      checks for an existing link in the table `seen` of the handler's render, and its updater is
      applied to the table left by the calls before it. */
  function LinkEach(seen: seq<ChatDocumentLink>, links: seq<ChatDocumentLink>, chatId: int,
                    pending: seq<int>, linkIds: seq<int>): seq<ChatDocumentLink>
    requires |linkIds| == |pending|
    decreases |pending|
  {
    if pending == [] then links
    else
      var n := |pending| - 1;
      LinkAgainst(seen, LinkEach(seen, links, chatId, pending[..n], linkIds[..n]), pending[n], chatId, true, linkIds[n])
  }

  /** For a chat no link of `seen` mentions (a freshly saved session), the loop appends one new active
      link per pending id, in order, and changes no existing link. */
  lemma {:induction false} LinkEachFreshChat(seen: seq<ChatDocumentLink>, links: seq<ChatDocumentLink>, chatId: int,
                                             pending: seq<int>, linkIds: seq<int>)
    requires |linkIds| == |pending|
    requires forall i :: 0 <= i < |seen| ==> seen[i].chatId != chatId
    ensures LinkEach(seen, links, chatId, pending, linkIds) == links + PendingLinks(chatId, pending, linkIds)
    decreases |pending|
  {
    if pending != [] {
      var n := |pending| - 1;
      LinkEachFreshChat(seen, links, chatId, pending[..n], linkIds[..n]);
      assert FindLink(seen, pending[n], chatId).None?;
      assert PendingLinks(chatId, pending, linkIds)
        == PendingLinks(chatId, pending[..n], linkIds[..n]) + [ChatDocumentLink(linkIds[n], chatId, pending[n], true)];
    }
  }

  // ------------------------------------------------------- active context folders

  /** `activeContextDocFolders.find(f => f.id === -1)`. */
  function FindGeneral(folders: seq<Folder>): (r: Option<Folder>)
    ensures r.None? <==> GeneralFolderId !in FolderIds(folders)
    ensures r.Some? ==> r.value in folders && r.value.id == GeneralFolderId
  {
    if folders == [] then None
    else if folders[0].id == GeneralFolderId then Some(folders[0])
    else
      var r := FindGeneral(folders[1..]);
      assert FolderIds(folders) == [folders[0].id] + FolderIds(folders[1..]);
      r
  }

  function WithoutGeneral(folders: seq<Folder>): seq<Folder> {
    Filter(folders, (f: Folder) => f.id != GeneralFolderId)
  }

  /** `handleUpdateActiveContext(folders)` (both dashboards): the general folder of the prior list,
      if it had one, in front of `folders` without their general entries; otherwise `folders` as given. */
  function UpdatedActiveContext(prior: seq<Folder>, folders: seq<Folder>): seq<Folder> {
    match FindGeneral(prior)
    case Some(g) => [g] + WithoutGeneral(folders)
    case None => folders
  }

  /** What the update promises: a prior general folder is re-inserted at the front and every general
      entry the caller passed is dropped, the other folders keeping their order; without a prior
      general folder the caller's list is taken verbatim. */
  lemma UpdatedActiveContextSpec(prior: seq<Folder>, folders: seq<Folder>)
    ensures var r := UpdatedActiveContext(prior, folders);
      && (GeneralFolderId in FolderIds(prior) ==>
            |r| >= 1 && r[0] in prior && r[0].id == GeneralFolderId
            && r[1..] == Filter(folders, (f: Folder) => f.id != GeneralFolderId)
            && forall k :: 1 <= k < |r| ==> r[k].id != GeneralFolderId)
      && (GeneralFolderId !in FolderIds(prior) ==> r == folders)
  {
  }

  /** The shape of the active-context list in every state the dashboards reach: the general
      folder first and nowhere else. */
  predicate ActiveContextShape(active: seq<Folder>) {
    |active| >= 1 && active[0] == GeneralFolder
    && forall k :: 1 <= k < |active| ==> active[k].id != GeneralFolderId
  }

  lemma UpdatedKeepsShape(prior: seq<Folder>, folders: seq<Folder>)
    requires ActiveContextShape(prior)
    ensures ActiveContextShape(UpdatedActiveContext(prior, folders))
  {
    assert FolderIds(prior)[0] == GeneralFolderId;
    var g := FindGeneral(prior).value;
    var k :| 0 <= k < |prior| && prior[k] == g;
    assert k == 0;
  }

  /** Any sequence of updates applied to a list. */
  function ApplyUpdates(active: seq<Folder>, updates: seq<seq<Folder>>): seq<Folder>
    decreases |updates|
  {
    if updates == [] then active
    else ApplyUpdates(UpdatedActiveContext(active, updates[0]), updates[1..])
  }

  /** Starting from the initial list `[GeneralFolder]`, the general folder stays first and
      present after any sequence of `handleUpdateActiveContext` calls, whatever they pass. */
  lemma {:induction false} GeneralAlwaysActive(active: seq<Folder>, updates: seq<seq<Folder>>)
    requires ActiveContextShape(active)
    ensures ActiveContextShape(ApplyUpdates(active, updates))
    ensures GeneralFolderId in FolderIds(ApplyUpdates(active, updates))
    decreases |updates|
  {
    if updates != [] {
      UpdatedKeepsShape(active, updates[0]);
      GeneralAlwaysActive(UpdatedActiveContext(active, updates[0]), updates[1..]);
    }
    var r := ApplyUpdates(active, updates);
    assert FolderIds(r)[0] == GeneralFolderId;
  }

  // ------------------------------------------------------------- resolution

  /** `doc.documentFolderId === undefined ? -1 : doc.documentFolderId`. */
  function EffectiveFolderId(d: Document): int {
    match d.documentFolderId
    case None => GeneralFolderId
    case Some(f) => f
  }

  function FolderContextDocs(docs: seq<Document>, active: seq<Folder>): seq<Document> {
    Filter(docs, (d: Document) => EffectiveFolderId(d) in FolderIds(active))
  }

  function ActiveLinks(links: seq<ChatDocumentLink>, chatId: int): seq<ChatDocumentLink> {
    Filter(links, (l: ChatDocumentLink) => l.chatId == chatId && l.isContextActive)
  }

  function ChatLinks(links: seq<ChatDocumentLink>, chatId: int): seq<ChatDocumentLink> {
    Filter(links, (l: ChatDocumentLink) => l.chatId == chatId)
  }

  /** `getDocumentsForChat(chatId)`: the documents, in store order, that some link of the chat names. */
  function DocumentsForChat(docs: seq<Document>, links: seq<ChatDocumentLink>, chatId: int): (r: seq<Document>)
    ensures forall d :: d in r <==> d in docs && exists l :: l in links && l.chatId == chatId && l.documentId == d.id
  {
    var ids := LinkedDocumentIds(ChatLinks(links, chatId));
    var r := Filter(docs, (d: Document) => d.id in ids);
    forall d ensures d in r <==> d in docs && exists l :: l in links && l.chatId == chatId && l.documentId == d.id {
      if d in docs && exists l :: l in links && l.chatId == chatId && l.documentId == d.id {
        var l :| l in links && l.chatId == chatId && l.documentId == d.id;
        var p := ChatLinks(links, chatId);
        var i :| 0 <= i < |links| && links[i] == l;
        var k :| 0 <= k < |p| && p[k] == l;
        assert ids[k] == d.id;
        var j :| 0 <= j < |docs| && docs[j] == d;
      }
      if d in r {
        var k :| 0 <= k < |ids| && ids[k] == d.id;
        assert ChatLinks(links, chatId)[k] in links;
        var i :| 0 <= i < |r| && r[i] == d;
      }
    }
    r
  }

  /** `getActiveContextDocumentsForChat(chatId)`: the documents, in store order, that a link of the
      chat with `isContextActive` names. */
  function ActiveContextDocumentsForChat(docs: seq<Document>, links: seq<ChatDocumentLink>, chatId: int): (r: seq<Document>)
    ensures forall d :: d in r <==> d in docs && ActiveLinkTo(links, chatId, d.id)
  {
    var ids := LinkedDocumentIds(ActiveLinks(links, chatId));
    var r := Filter(docs, (d: Document) => d.id in ids);
    forall d ensures d in r <==> d in docs && ActiveLinkTo(links, chatId, d.id) {
      if d in docs && ActiveLinkTo(links, chatId, d.id) {
        var l :| l in links && l.chatId == chatId && l.isContextActive && l.documentId == d.id;
        var p := ActiveLinks(links, chatId);
        var i :| 0 <= i < |links| && links[i] == l;
        var k :| 0 <= k < |p| && p[k] == l;
        assert ids[k] == d.id;
        var j :| 0 <= j < |docs| && docs[j] == d;
      }
      if d in r {
        var k :| 0 <= k < |ids| && ids[k] == d.id;
        assert ActiveLinks(links, chatId)[k] in links;
        var i :| 0 <= i < |r| && r[i] == d;
      }
    }
    r
  }

  predicate ActiveLinkTo(links: seq<ChatDocumentLink>, chatId: int, documentId: int) {
    exists l :: l in links && l.chatId == chatId && l.isContextActive && l.documentId == documentId
  }

  /** `documents.filter(doc => newChatDocumentIds.includes(doc.id))`. */
  function PendingDocuments(docs: seq<Document>, pending: seq<int>): (r: seq<Document>)
    ensures forall d :: d in r <==> d in docs && d.id in pending
  {
    var r := Filter(docs, (d: Document) => d.id in pending);
    forall d ensures d in r <==> d in docs && d.id in pending {
      if d in docs && d.id in pending { var j :| 0 <= j < |docs| && docs[j] == d; }
      if d in r { var i :| 0 <= i < |r| && r[i] == d; }
    }
    r
  }

  /** `s[k]` is the first document of `s` with its id. */
  predicate IsFirstOfId(s: seq<Document>, k: nat)
    requires k < |s|
  {
    forall j :: 0 <= j < k ==> s[j].id != s[k].id
  }

  /** The positions of `s` that hold the first document with their id, in increasing order. */
  function FirstOccurrences(s: seq<Document>): (idx: seq<nat>)
    ensures forall i :: 0 <= i < |idx| ==> idx[i] < |s| && IsFirstOfId(s, idx[i])
    ensures forall k :: 0 <= k < |s| && IsFirstOfId(s, k) ==> k in idx
    ensures forall i, j :: 0 <= i < j < |idx| ==> idx[i] < idx[j]
    decreases |s|
  {
    if s == [] then []
    else
      var n := |s| - 1;
      var p := FirstOccurrences(s[..n]);
      assert forall k :: 0 <= k < n ==> (IsFirstOfId(s, k) <==> IsFirstOfId(s[..n], k));
      p + (if IsFirstOfId(s, n) then [n] else [])
  }

  /** `Array.from(new Set(s.map(doc => doc.id))).map(id => s.find(doc => doc.id === id)!)`: for each id,
      in order of first appearance, the first document with that id. */
  function DedupById(s: seq<Document>): (r: seq<Document>)
    ensures var idx := FirstOccurrences(s);
      |r| == |idx| && forall i :: 0 <= i < |r| ==> r[i] == s[idx[i]]
    ensures NoDuplicates(DocumentIds(r))
    ensures forall i :: 0 <= i < |s| ==> s[i].id in DocumentIds(r)
  {
    var idx := FirstOccurrences(s);
    var r := seq(|idx|, i requires 0 <= i < |idx| => s[idx[i]]);
    PickedDistinct(s, idx, r);
    PickedCovers(s, idx, r);
    r
  }

  /** Documents picked at increasing first-of-id positions have distinct ids. */
  lemma PickedDistinct(s: seq<Document>, idx: seq<nat>, r: seq<Document>)
    requires forall i :: 0 <= i < |idx| ==> idx[i] < |s| && IsFirstOfId(s, idx[i])
    requires forall i, j :: 0 <= i < j < |idx| ==> idx[i] < idx[j]
    requires |r| == |idx| && forall i :: 0 <= i < |r| ==> r[i] == s[idx[i]]
    ensures NoDuplicates(DocumentIds(r))
  {
    var ids := DocumentIds(r);
    forall i, j | 0 <= i < j < |ids| ensures ids[i] != ids[j] {
      assert idx[i] < idx[j] && IsFirstOfId(s, idx[j]);
    }
  }

  /** Picking every first-of-id position keeps every id. */
  lemma PickedCovers(s: seq<Document>, idx: seq<nat>, r: seq<Document>)
    requires forall i :: 0 <= i < |idx| ==> idx[i] < |s|
    requires forall k :: 0 <= k < |s| && IsFirstOfId(s, k) ==> k in idx
    requires |r| == |idx| && forall i :: 0 <= i < |r| ==> r[i] == s[idx[i]]
    ensures forall i :: 0 <= i < |s| ==> s[i].id in DocumentIds(r)
  {
    forall i | 0 <= i < |s| ensures s[i].id in DocumentIds(r) {
      var k := FirstIndexOfId(s, i);
      var m :| 0 <= m < |idx| && idx[m] == k;
      assert DocumentIds(r)[m] == s[i].id;
    }
  }

  /** The first position of `s` holding the id of `s[i]`. */
  function FirstIndexOfId(s: seq<Document>, i: nat): (k: nat)
    requires i < |s|
    ensures k <= i && s[k].id == s[i].id && IsFirstOfId(s, k)
  {
    if i == 0 || s[0].id == s[i].id then 0
    else
      var k := 1 + FirstIndexOfId(s[1..], i - 1);
      assert forall j :: 1 <= j < k ==> s[j] == s[1..][j - 1];
      k
  }

  /** Whether a document qualifies as context: its effective folder is active; or a (truthy) chat is
      selected and has an active link to it; or no chat is selected and it is pending for the draft. */
  predicate InContext(d: Document, active: seq<Folder>, links: seq<ChatDocumentLink>,
                      selectedChatId: Option<int>, pending: seq<int>) {
    || EffectiveFolderId(d) in FolderIds(active)
    || (Truthy(selectedChatId) && ActiveLinkTo(links, selectedChatId.value, d.id))
    || (selectedChatId.None? && d.id in pending)
  }

  /** `getActiveContextDocuments()`: folder documents, then the selected chat's active documents, then
      the draft's pending documents, without repeated ids. */
  function ActiveContextDocuments(docs: seq<Document>, active: seq<Folder>, links: seq<ChatDocumentLink>,
                                  selectedChatId: Option<int>, pending: seq<int>): seq<Document>
  {
    var folderDocs := FolderContextDocs(docs, active);
    var chatDocs := if Truthy(selectedChatId)
                    then ActiveContextDocumentsForChat(docs, links, selectedChatId.value) else [];
    var draftDocs := if selectedChatId == None then PendingDocuments(docs, pending) else [];
    DedupById(folderDocs + chatDocs + draftDocs)
  }

  function ContextParts(docs: seq<Document>, active: seq<Folder>, links: seq<ChatDocumentLink>,
                        selectedChatId: Option<int>, pending: seq<int>): seq<Document>
  {
    FolderContextDocs(docs, active)
    + (if Truthy(selectedChatId) then ActiveContextDocumentsForChat(docs, links, selectedChatId.value) else [])
    + (if selectedChatId == None then PendingDocuments(docs, pending) else [])
  }

  lemma ContextPartsMembership(docs: seq<Document>, active: seq<Folder>, links: seq<ChatDocumentLink>,
                               selectedChatId: Option<int>, pending: seq<int>)
    ensures forall d :: d in ContextParts(docs, active, links, selectedChatId, pending) <==>
      d in docs && InContext(d, active, links, selectedChatId, pending)
  {
    var f := FolderContextDocs(docs, active);
    forall d ensures d in f <==> d in docs && EffectiveFolderId(d) in FolderIds(active) {
      if d in docs && EffectiveFolderId(d) in FolderIds(active) { var j :| 0 <= j < |docs| && docs[j] == d; }
      if d in f { var i :| 0 <= i < |f| && f[i] == d; }
    }
  }

  /** The context never holds two documents with the same id; each of its documents qualifies; and
      every qualifying document is represented by one with its id. */
  lemma ActiveContextDocumentsSpec(docs: seq<Document>, active: seq<Folder>, links: seq<ChatDocumentLink>,
                                   selectedChatId: Option<int>, pending: seq<int>)
    ensures var r := ActiveContextDocuments(docs, active, links, selectedChatId, pending);
      && NoDuplicates(DocumentIds(r))
      && (forall d :: d in r ==> d in docs && InContext(d, active, links, selectedChatId, pending))
      && (forall d :: d in docs && InContext(d, active, links, selectedChatId, pending) ==> d.id in DocumentIds(r))
  {
    var c := ContextParts(docs, active, links, selectedChatId, pending);
    var r := DedupById(c);
    ContextPartsMembership(docs, active, links, selectedChatId, pending);
    forall d | d in r ensures d in c {
      var i :| 0 <= i < |r| && r[i] == d;
    }
    forall d | d in docs && InContext(d, active, links, selectedChatId, pending) ensures d.id in DocumentIds(r) {
      var i :| 0 <= i < |c| && c[i] == d;
    }
  }

  /** Two stored documents with the same id are the same document, when ids are distinct. */
  lemma SameIdSameDocument(docs: seq<Document>, d: Document, e: Document)
    requires NoDuplicates(DocumentIds(docs)) && d in docs && e in docs && d.id == e.id
    ensures d == e
  {
    var i :| 0 <= i < |docs| && docs[i] == d;
    var j :| 0 <= j < |docs| && docs[j] == e;
    assert DocumentIds(docs)[i] == DocumentIds(docs)[j];
  }

  /** A selection `r` of stored documents that holds only documents satisfying `p` and represents
      each of them by its id holds, when ids are distinct, exactly the stored documents satisfying `p`. */
  lemma RepresentedExactly(docs: seq<Document>, r: seq<Document>, p: Document -> bool)
    requires NoDuplicates(DocumentIds(docs))
    requires forall d :: d in r ==> d in docs && p(d)
    requires forall d :: d in docs && p(d) ==> d.id in DocumentIds(r)
    ensures forall d :: d in r <==> d in docs && p(d)
    ensures forall d :: d in docs ==> (d.id in DocumentIds(r) <==> p(d))
  {
    forall d | d in docs && p(d) ensures d in r {
      var k :| 0 <= k < |r| && DocumentIds(r)[k] == d.id;
      SameIdSameDocument(docs, d, r[k]);
    }
    forall d | d in docs && d.id in DocumentIds(r) ensures p(d) {
      var k :| 0 <= k < |r| && DocumentIds(r)[k] == d.id;
      SameIdSameDocument(docs, d, r[k]);
    }
  }

  /** With distinct document ids (ids are minted fresh at upload), a document is in the context
      exactly when it qualifies. */
  lemma ActiveContextDocumentsExact(docs: seq<Document>, active: seq<Folder>, links: seq<ChatDocumentLink>,
                                    selectedChatId: Option<int>, pending: seq<int>)
    requires NoDuplicates(DocumentIds(docs))
    ensures var r := ActiveContextDocuments(docs, active, links, selectedChatId, pending);
      forall d :: d in r <==> d in docs && InContext(d, active, links, selectedChatId, pending)
  {
    ActiveContextDocumentsSpec(docs, active, links, selectedChatId, pending);
    RepresentedExactly(docs, ActiveContextDocuments(docs, active, links, selectedChatId, pending),
                       d => InContext(d, active, links, selectedChatId, pending));
  }

  /** The `contextDocumentIds` a question is sent with: distinct, and with distinct document ids the
      id of a stored document is among them exactly when the document qualifies. */
  lemma ContextIdsSpec(docs: seq<Document>, active: seq<Folder>, links: seq<ChatDocumentLink>,
                       selectedChatId: Option<int>, pending: seq<int>)
    requires NoDuplicates(DocumentIds(docs))
    ensures var ids := DocumentIds(ActiveContextDocuments(docs, active, links, selectedChatId, pending));
      && NoDuplicates(ids)
      && forall d :: d in docs ==> (d.id in ids <==> InContext(d, active, links, selectedChatId, pending))
  {
    ActiveContextDocumentsSpec(docs, active, links, selectedChatId, pending);
    RepresentedExactly(docs, ActiveContextDocuments(docs, active, links, selectedChatId, pending),
                       d => InContext(d, active, links, selectedChatId, pending));
  }

  /** `getUploadedDocumentsForCurrentChat()`: the draft's pending documents when no chat is selected,
      otherwise every document linked to the selected chat. */
  function UploadedDocumentsForCurrentChat(docs: seq<Document>, links: seq<ChatDocumentLink>,
                                           selectedChatId: Option<int>, pending: seq<int>): (r: seq<Document>)
    ensures selectedChatId.None? ==> forall d :: d in r <==> d in docs && d.id in pending
    ensures selectedChatId.Some? ==> forall d :: d in r <==>
      d in docs && exists l :: l in links && l.chatId == selectedChatId.value && l.documentId == d.id
  {
    match selectedChatId
    case None => PendingDocuments(docs, pending)
    case Some(c) => DocumentsForChat(docs, links, c)
  }
}
