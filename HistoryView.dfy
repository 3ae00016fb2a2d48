/** The history page (src/pages/History.tsx): which saved entry is open, and the handlers that
    forward to the session holder. */
module HistoryView {
  import opened Wrappers
  import opened HistoryItem
  import opened Session

  /** Entry `e` of `items` survives deleting the ids of the first `i` entries. */
  ghost predicate Kept(e: ContentHistory, items: seq<ContentHistory>, i: int) {
    e in items && forall j :: 0 <= j < i && j < |items| ==> e.id != items[j].id
  }

  /** Deleting the id of entry `i` keeps exactly what survives the first `i + 1` deletions. */
  lemma ClearStep(items: seq<ContentHistory>, i: nat, history: seq<ContentHistory>)
    requires i < |items|
    requires forall e :: e in history <==> Kept(e, items, i)
    ensures forall e :: e in RemoveId(history, items[i].id) <==> Kept(e, items, i + 1)
  {
  }

  /** Once every entry's id is deleted, nothing is left. */
  lemma NothingKept(items: seq<ContentHistory>, history: seq<ContentHistory>)
    requires forall e :: e in history <==> Kept(e, items, |items|)
    ensures history == []
  {
    forall e ensures !Kept(e, items, |items|) {
      if e in items {
        var j :| 0 <= j < |items| && items[j] == e;
      }
    }
    NoMemberIsEmpty(history);
  }

  class HistoryPage {
    const session: ContentSession
    var selectedItem: Option<ContentHistory>

    constructor(session: ContentSession)
      ensures this.session == session && selectedItem.None?
    {
      this.session := session;
      selectedItem := None;
    }

    /** `handleView(item)` */
    method HandleView(item: ContentHistory)
      modifies this
      ensures selectedItem == Some(item)
    {
      selectedItem := Some(item);
    }

    /** `handleEdit(item)`: loads the entry into the session; the history and the selection stay
        as they are (the navigation to the editor is not modelled). */
    method HandleEdit(item: ContentHistory)
      modifies session
      ensures session.originalContent == item.original && session.optimizedContent == item.optimized
      ensures session.currentPromptType == item.mode
      ensures session.contentHistory == old(session.contentHistory)
      ensures session.isProcessing == old(session.isProcessing) && session.customPrompt == old(session.customPrompt)
      ensures selectedItem == old(selectedItem)
    {
      session.LoadFromHistory(item);
    }

    /** `handleDelete(id)`: deletes the id from the history and closes the open entry exactly
        when it has that id. */
    method HandleDelete(id: string)
      modifies this, session
      ensures session.contentHistory == RemoveId(old(session.contentHistory), id)
      ensures selectedItem == (if old(selectedItem).Some? && old(selectedItem).value.id == id then None else old(selectedItem))
      ensures session.originalContent == old(session.originalContent) && session.optimizedContent == old(session.optimizedContent)
      ensures session.isProcessing == old(session.isProcessing) && session.currentPromptType == old(session.currentPromptType)
      ensures session.customPrompt == old(session.customPrompt)
    {
      session.DeleteHistoryItem(id);
      if selectedItem.Some? && selectedItem.value.id == id {
        selectedItem := None;
      }
    }

    /** `handleClearAll()`: deletes the id of every entry shown, one after another, then closes
        the open entry; the history ends empty. */
    method HandleClearAll()
      modifies this, session
      ensures session.contentHistory == [] && selectedItem.None?
      ensures session.originalContent == old(session.originalContent) && session.optimizedContent == old(session.optimizedContent)
      ensures session.isProcessing == old(session.isProcessing) && session.currentPromptType == old(session.currentPromptType)
      ensures session.customPrompt == old(session.customPrompt)
    {
      var items := session.contentHistory;
      for i := 0 to |items|
        invariant forall e :: e in session.contentHistory <==> Kept(e, items, i)
        invariant session.originalContent == old(session.originalContent) && session.optimizedContent == old(session.optimizedContent)
        invariant session.isProcessing == old(session.isProcessing) && session.currentPromptType == old(session.currentPromptType)
        invariant session.customPrompt == old(session.customPrompt)
      {
        ghost var before := session.contentHistory;
        session.DeleteHistoryItem(items[i].id);
        ClearStep(items, i, before);
      }
      NothingKept(items, session.contentHistory);
      selectedItem := None;
    }
  }
}
