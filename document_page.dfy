/** The client's document editor (frontend/app/dashboard/doc/page.tsx): the text
    starts as a default, is loaded from the browser's local storage on mount, is
    replaced wholesale on each edit and written back on save. A Viewer's edits and
    saves are refused with a warning toast. Local storage is the class
    `LocalStorage`; the page's state is the class `DocumentPage`. */
module DocumentPage {
  import opened Common

  const DocumentStorageKey := "document_content"
  const DefaultContent := "This is a collaborative document...\n\nStart editing here!"
  const SavedMessage := "Document saved successfully!"

  /** The browser's `localStorage`: string keys to string values. */
  class LocalStorage {
    var items: map<string, string>

    constructor(items: map<string, string>)
      ensures this.items == items
    {
      this.items := items;
    }

    method GetItem(key: string) returns (r: Option<string>)
      ensures r == if key in items then Some(items[key]) else None
    {
      r := if key in items then Some(items[key]) else None;
    }

    method SetItem(key: string, value: string)
      modifies this
      ensures items == old(items)[key := value]
    {
      items := items[key := value];
    }
  }

  /** The content after the mount effect: the stored text when there is a
      non-empty one (an empty string is falsy), the current content otherwise. */
  function Loaded(current: string, items: map<string, string>): (r: string)
    ensures DocumentStorageKey in items && items[DocumentStorageKey] != [] ==> r == items[DocumentStorageKey]
    ensures DocumentStorageKey !in items || items[DocumentStorageKey] == [] ==> r == current
  {
    if DocumentStorageKey in items && items[DocumentStorageKey] != [] then items[DocumentStorageKey] else current
  }

  /** Save then reload: a page mounted after a save shows the saved text, except
      that an empty document is not restored and the page falls back to what it
      had. Other keys of the storage play no part. */
  lemma SaveThenLoad(saved: string, items: map<string, string>, current: string)
    ensures Loaded(current, items[DocumentStorageKey := saved]) == (if saved != [] then saved else current)
  {
  }

  /** Mounting twice is the same as mounting once. */
  lemma LoadIdempotent(current: string, items: map<string, string>)
    ensures Loaded(Loaded(current, items), items) == Loaded(current, items)
  {
  }

  class DocumentPage {
    const isViewer: bool
    const storage: LocalStorage
    var content: string
    var showToast: bool
    var saveMessage: string

    constructor(role: Option<Role>, storage: LocalStorage)
      ensures isViewer == (role == Some(Viewer)) && this.storage == storage
      ensures content == DefaultContent && !showToast && saveMessage == ""
    {
      isViewer := role == Some(Viewer);
      this.storage := storage;
      content := DefaultContent;
      showToast := false;
      saveMessage := "";
    }

    /** The mount effect. */
    method Mount()
      modifies this
      ensures content == Loaded(old(content), storage.items)
      ensures showToast == old(showToast) && saveMessage == old(saveMessage)
    {
      var savedContent := storage.GetItem(DocumentStorageKey);
      if savedContent.Some? && savedContent.value != [] {
        content := savedContent.value;
      }
    }

    method HandleContentChange(value: string)
      modifies this
      ensures saveMessage == old(saveMessage)
      ensures isViewer ==> content == old(content) && showToast
      ensures !isViewer ==> content == value && showToast == old(showToast)
    {
      if isViewer {
        showToast := true;
        return;
      }
      content := value;
    }

    method HandleSave()
      modifies this, storage
      ensures content == old(content)
      ensures isViewer ==> storage.items == old(storage.items) && showToast && saveMessage == old(saveMessage)
      ensures !isViewer ==>
        && storage.items == old(storage.items)[DocumentStorageKey := content]
        && saveMessage == SavedMessage && showToast == old(showToast)
    {
      if isViewer {
        showToast := true;
        return;
      }
      storage.SetItem(DocumentStorageKey, content);
      saveMessage := SavedMessage;
    }

    /** The text area's `onClick`/`onFocus` and the three formatting buttons: a
        Viewer is warned, nothing else happens. */
    method HandleTextareaClick()
      modifies this
      ensures content == old(content) && saveMessage == old(saveMessage)
      ensures showToast == (old(showToast) || isViewer)
    {
      if isViewer {
        showToast := true;
      }
    }

    /** The warning toast's `onClose`. */
    method DismissToast()
      modifies this
      ensures content == old(content) && saveMessage == old(saveMessage) && !showToast
    {
      showToast := false;
    }

    /** The success toast's `onClose`. */
    method DismissSaveMessage()
      modifies this
      ensures content == old(content) && showToast == old(showToast) && saveMessage == ""
    {
      saveMessage := "";
    }
  }

  /** An editor saves, and a page opened afterwards on the same storage shows the
      editor's text (the default when the saved text was empty); a Viewer's page
      opened beside it cannot change what is stored. */
  method SaveAndReopen(storage: LocalStorage, text: string, viewerText: string) returns (editorPage: DocumentPage, reopened: DocumentPage)
    modifies storage
    ensures storage.items == old(storage.items)[DocumentStorageKey := text]
    ensures reopened.content == if text != [] then text else DefaultContent
  {
    editorPage := new DocumentPage(Some(Editor), storage);
    editorPage.Mount();
    editorPage.HandleContentChange(text);
    editorPage.HandleSave();
    var viewerPage := new DocumentPage(Some(Viewer), storage);
    viewerPage.Mount();
    viewerPage.HandleContentChange(viewerText);
    viewerPage.HandleSave();
    reopened := new DocumentPage(None, storage);
    reopened.Mount();
    SaveThenLoad(text, old(storage.items), DefaultContent);
  }
}
