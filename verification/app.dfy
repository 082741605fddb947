/**
 * The page's state and its handlers. The state is what the script keeps
 * across events: the two local-storage slots it uses, "nev_saved_prompts"
 * (the saved prompt list) and "nev_view_mode" (the layout preference), and
 * the layout class currently on the document body. Each method is one event
 * handler, with the answers of the browser's dialogs and the clipboard
 * passed in as parameters.
 */
module App {
  import opened Wrappers
  import opened Text
  import opened SavedPrompts
  import Compose
  import ViewMode

  /** One row of the rendered prompt list: its position and the prompt shown. */
  datatype Entry = Entry(index: nat, text: string)

  /** The exported backup document, { "prompts": [...] }. */
  datatype Backup = Backup(prompts: seq<string>)

  /** The messages the script shows with alert. */
  datatype Alert = NoPromptsToExport | InvalidFile

  /**
   * The file handed to the import handler: none chosen, or a chosen file
   * whose "prompts" field, once parsed, is an array (Some) or is not, or the
   * text is not JSON at all (None).
   */
  datatype ImportFile = NoFileChosen | Chosen(prompts: Option<seq<string>>)

  /** How an import ended. */
  datatype ImportOutcome = NothingChosen | Rejected(alert: Alert) | Declined | Replaced

  /** How a click on the copy button ended; Copied carries the payload shown in the result area. */
  datatype CopyOutcome = Suppressed | CopyFailed | Copied(payload: string)

  class Page {
    /** The "nev_saved_prompts" slot; None when the key is absent. */
    var prompts: Option<seq<string>>
    /** The "nev_view_mode" slot; None when the key is absent. */
    var viewMode: Option<string>
    /** The layout class on the document body. */
    var layout: string

    constructor (storedPrompts: Option<seq<string>>, storedMode: Option<string>, bodyClass: string)
      ensures prompts == storedPrompts && viewMode == storedMode && layout == bodyClass
    {
      prompts := storedPrompts;
      viewMode := storedMode;
      layout := bodyClass;
    }

    /** The saved prompts as loaded: an absent key reads as the empty list. */
    function Load(): (list: seq<string>)
      reads this
      ensures prompts == None ==> list == []
      ensures prompts.Some? ==> list == prompts.value
    {
      match prompts
      case None => []
      case Some(list) => list
    }

    /**
     * Rebuilds the displayed list from storage: one entry per saved prompt,
     * in stored order, each knowing its own position.
     */
    method Render() returns (entries: seq<Entry>)
      ensures |entries| == |Load()|
      ensures forall k :: 0 <= k < |entries| ==> entries[k] == Entry(k, Load()[k])
    {
      var list := Load();
      entries := [];
      var i := 0;
      while i < |list|
        invariant 0 <= i <= |list|
        invariant |entries| == i
        invariant forall k :: 0 <= k < i ==> entries[k] == Entry(k, list[k])
      {
        entries := entries + [Entry(i, list[i])];
        i := i + 1;
      }
    }

    /**
     * The delete button of the entry at index, in a list rendered from
     * shown: that position is spliced out of shown and the rest is stored.
     */
    method Delete(shown: seq<string>, index: nat)
      requires index < |shown|
      modifies this
      ensures prompts == Some(Without(shown, index))
      ensures shown == old(Load()) ==> Load() == Without(old(Load()), index)
      ensures viewMode == old(viewMode) && layout == old(layout)
    {
      prompts := Some(Without(shown, index));
    }

    /**
     * The save step of the copy button for the trimmed base text: stores the
     * list with the text appended when it is non-empty and not yet saved, and
     * leaves the slot untouched otherwise.
     */
    method SavePrompt(base: string)
      modifies this
      ensures Load() == WithSaved(old(Load()), base)
      ensures base == "" || base in old(Load()) ==> prompts == old(prompts)
      ensures NoDuplicates(old(Load())) ==> NoDuplicates(Load())
      ensures viewMode == old(viewMode) && layout == old(layout)
    {
      if base != "" {
        var list := Load();
        if base !in list {
          prompts := Some(list + [base]);
        }
      }
    }

    /**
     * The copy button. Nothing happens when both fields are whitespace only.
     * Otherwise the payload goes to the clipboard; copied says whether the
     * write succeeded. A failed write ends the handler; a successful one
     * saves the trimmed base and shows the payload.
     */
    method Copy(base: string, addon: string, copied: bool) returns (outcome: CopyOutcome)
      modifies this
      ensures outcome == Suppressed <==> AllWhitespace(base) && AllWhitespace(addon)
      ensures outcome.Copied? <==> copied && outcome != Suppressed
      ensures outcome.Copied? ==> Compose.Payload(base, addon) == Some(outcome.payload)
      ensures outcome.Copied? ==> Load() == WithSaved(old(Load()), Trim(base))
      ensures outcome.Copied? && (Trim(base) == "" || Trim(base) in old(Load())) ==> prompts == old(prompts)
      ensures !outcome.Copied? ==> prompts == old(prompts)
      ensures viewMode == old(viewMode) && layout == old(layout)
    {
      var payload := Compose.Payload(base, addon);
      if payload == None {
        return Suppressed;
      }
      if !copied {
        return CopyFailed;
      }
      SavePrompt(Trim(base));
      outcome := Copied(payload.value);
    }

    /** The clear button: after confirmation the key is removed and every load reads the empty list. */
    method Clear(confirmed: bool)
      modifies this
      ensures confirmed ==> prompts == None && Load() == []
      ensures !confirmed ==> prompts == old(prompts)
      ensures viewMode == old(viewMode) && layout == old(layout)
    {
      if confirmed {
        prompts := None;
      }
    }

    /** The export button: refused when no prompt is saved, otherwise a backup of the stored list as it is. */
    function Export(): (r: Result<Backup, Alert>)
      reads this
      ensures r.Failure? <==> Load() == []
      ensures r.Failure? ==> r.error == NoPromptsToExport
      ensures r.Success? ==> r.value.prompts == Load()
    {
      var list := Load();
      if list == [] then Failure(NoPromptsToExport) else Success(Backup(list))
    }

    /**
     * The import button. A chosen file whose "prompts" is an array replaces
     * the stored list verbatim once the overwrite is confirmed; any other file
     * is rejected, and a declined confirmation or no file changes nothing.
     */
    method Import(file: ImportFile, confirmed: bool) returns (outcome: ImportOutcome)
      modifies this
      ensures file == NoFileChosen ==> outcome == NothingChosen
      ensures file.Chosen? && file.prompts == None ==> outcome == Rejected(InvalidFile)
      ensures file.Chosen? && file.prompts.Some? ==> outcome == (if confirmed then Replaced else Declined)
      ensures outcome == Replaced ==> prompts == file.prompts && Load() == file.prompts.value
      ensures outcome != Replaced ==> prompts == old(prompts)
      ensures viewMode == old(viewMode) && layout == old(layout)
    {
      match file
      case NoFileChosen =>
        outcome := NothingChosen;
      case Chosen(data) =>
        if data == None {
          outcome := Rejected(InvalidFile);
        } else if !confirmed {
          outcome := Declined;
        } else {
          prompts := data;
          outcome := Replaced;
        }
    }

    /**
     * Puts mode on the document body and stores it as the preference. The
     * body's class list refuses an empty class name, so callers pass a
     * non-empty mode.
     */
    method ApplyViewMode(mode: string)
      requires mode != ""
      modifies this
      ensures layout == mode && viewMode == Some(mode)
      ensures prompts == old(prompts)
    {
      layout := mode;
      viewMode := Some(mode);
    }

    /** The view-mode button: desktop becomes vertical, anything else desktop; the choice is stored. */
    method ToggleViewMode()
      modifies this
      ensures layout == ViewMode.Toggled(old(layout)) && viewMode == Some(layout)
      ensures layout == ViewMode.Desktop || layout == ViewMode.Vertical
      ensures prompts == old(prompts)
    {
      ApplyViewMode(ViewMode.Toggled(layout));
    }

    /** Page start-up: applies the stored mode, or desktop when none is stored. */
    method RestoreViewMode()
      modifies this
      ensures layout == ViewMode.StartupMode(old(viewMode)) && viewMode == Some(layout)
      ensures layout != ""
      ensures prompts == old(prompts)
    {
      ApplyViewMode(ViewMode.StartupMode(viewMode));
    }
  }

  /**
   * A backup exported from one page and imported, confirmed, into another
   * (or the same) page restores the exported list exactly; an empty list
   * cannot be exported and the target is left as it was.
   */
  method BackupRoundTrip(source: Page, target: Page) returns (restored: bool)
    modifies target
    ensures restored <==> old(source.Load()) != []
    ensures restored ==> target.Load() == old(source.Load())
    ensures !restored ==> target.prompts == old(target.prompts)
    ensures target.viewMode == old(target.viewMode) && target.layout == old(target.layout)
  {
    var exported := source.Export();
    if exported.Failure? {
      return false;
    }
    var outcome := target.Import(Chosen(Some(exported.value.prompts)), true);
    restored := outcome == Replaced;
  }
}
