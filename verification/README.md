# Prompt Builder: a Dafny model of the page script's logic

The Prompt Builder page helps a user put together a prompt from a "base" text and an
"addon" text. It can fill the base text from a translation template and copy
the trimmed `base`, a line holding `=`, and the trimmed `addon` to the clipboard. After
a successful copy it saves the trimmed base text in the browser's local storage, unless
it is empty or already saved.
The saved prompts are listed on the page. Each one can be deleted. The whole list can
be cleared, exported as a `{ "prompts": [...] }` backup, and imported back. A button
switches the layout between desktop and vertical scrolling, and the choice is stored.

All of this lives in `docs/script.js`. This project models its logic layer:

- `wrappers.dfy` — `Option` and `Result`.
- `text.dfy` — JavaScript's `String.prototype.trim`, over the ECMAScript WhiteSpace and
  LineTerminator characters, and `Array.prototype.join`. Trim is a scan from each end,
  specified by what it keeps and what it drops. Lemmas prove that this contract determines trim, that trim
  is idempotent and that extra padding changes nothing.
- `translation.dfy` — the translation template (`buildTranslationPrompt`). Its five
  settings are parameters, not reads from the settings panel. The template is proved
  equal to a flat concatenation of the clauses in their fixed order.
- `compose.dfy` — the copy payload.
- `saved_prompts.dfy` — the saved list as a value: the de-duplicating save step, any
  number of saves in a row, and positional delete.
- `view_mode.dfy` — the two-state layout toggle and the start-up default.
- `app.dfy` — class `Page`. Its fields are the two storage slots, `nev_saved_prompts`
  and `nev_view_mode` (an absent key is `None`), plus the layout class on the document
  body. The handlers that change state are methods with
  `modifies this`. Rendering the list is a method that changes nothing, and export is a
  function that reads the page. The answer to `confirm`
  and the clipboard outcome are boolean parameters. An `alert` is an `Alert` value in
  the result.

The model follows the code where it promises less than a careful store would:

- Loading the prompt list has no error handling (`docs/script.js:73`). A corrupt stored
  value makes it throw; it does not read as an empty list.
- Import checks only that `prompts` is an array (`docs/script.js:194`). It does not
  check that the elements are strings.
- Storage failures are not caught anywhere, except that a failing write inside the
  import handler ends up in its `catch` and shows "Invalid file.".
- Delete has no out-of-range case. Its index always comes from the list that was just
  rendered.

## Model

| member | source | states |
|---|---|---|
| `Text.SkipLeading` | docs/script.js:127-128 | the scan from the front stops at the first character trim keeps (or at the end); everything it passes is whitespace |
| `Text.SkipTrailing` | docs/script.js:127-128 | the scan from the back stops just after the last character trim keeps (or at the front bound); everything it passes is whitespace |
| `Text.Trim` | docs/script.js:127-128 | the result is a contiguous middle of the input with no whitespace at either end, and only whitespace is dropped around it |
| `Text.TrimEmpty` | docs/script.js:127-129 | a field trims to the empty string exactly when it is whitespace only, which is the test that makes the copy action return early |
| `Text.SkipLeadingOf` | docs/script.js:127-128 | a whitespace run followed by a kept character (or by nothing) is exactly what the front scan skips |
| `Text.SkipTrailingOf` | docs/script.js:127-128 | a whitespace run preceded by a kept character (or by the front bound) is exactly what the back scan skips |
| `Text.TrimOf` | docs/script.js:127-128 | trim is determined by its contract: whitespace padding around a trimmed middle yields that middle |
| `Text.TrimmedFixed` | docs/script.js:127-128 | a string with no whitespace at either end is its own trim |
| `Text.TrimIdempotent` | docs/script.js:127-128 | trimming a trimmed field changes nothing |
| `Text.TrimIgnoresPadding` | docs/script.js:127-128 | extra whitespace around a field does not change its trimmed value |
| `Text.Join` | docs/script.js:55 | no contract of its own; `JoinShape` and `JoinSnoc` state its shape |
| `Text.JoinShape` | docs/script.js:55 | `join` starts with the first part, and its length is the parts' total length plus one separator per pair of neighbours |
| `Text.JoinSnoc` | docs/script.js:55 | joining one more clause adds a single separator and that clause at the end |
| `Translation.Directive` | docs/script.js:36 | the opening clause is "Translate the following text into ", then the target language, then a full stop |
| `Translation.StyleClause` | docs/script.js:38-42 | exactly one of the two style clauses, the literal-wording one exactly when the style is "faithful" |
| `Translation.FormatClause` | docs/script.js:47-53 | exactly one of the three format clauses: Markdown exactly for "markdown", a code block exactly for "codeblock", plain text otherwise |
| `Translation.Clauses` | docs/script.js:34-53 | the directive comes first, the style clause second and the format clause last; the slang clause is present exactly when slang is disallowed and the abbreviation clause exactly when abbreviations are disallowed; the count is 3 plus one per disallowed option |
| `Translation.JoinLayout` | docs/script.js:34-55 | joining two fixed clauses, two optional ones and a closing one gives them in that order with one space between neighbours |
| `Translation.ClauseOrder` | docs/script.js:34-55 | the joined clauses are directive, style clause, optional slang clause, optional abbreviation clause and format clause, in that order, with single spaces between them |
| `Translation.TranslationPrompt` | docs/script.js:25-56 | the template (proved through `ClauseOrder`) is the directive, the style clause, " Do not use slang." only when slang is disallowed, " Do not use abbreviations." only when abbreviations are disallowed, then a space and the format clause |
| `Compose.Payload` | docs/script.js:127-133 | no payload exactly when both fields are whitespace only; otherwise the trimmed base, then a newline, `=` and a newline, then the trimmed addon |
| `Compose.PayloadIgnoresPadding` | docs/script.js:127-133 | whitespace typed around either field does not change the payload or whether there is one |
| `SavedPrompts.WithSaved` | docs/script.js:137-144 | saving keeps the old list as a prefix and grows it by one exactly when the text is non-empty and new; a non-empty text is in the list afterwards; nothing else is added; a duplicate-free list stays duplicate-free |
| `SavedPrompts.SaveAllKeepsSaved` | docs/script.js:137-144 | from any list, including one with duplicates stored by an import, a series of saves keeps the earlier list as the prefix and leaves every non-empty saved text present |
| `SavedPrompts.SaveAllKeepsNoDuplicates` | docs/script.js:137-144 | after any series of saves a duplicate-free list is still duplicate-free |
| `SavedPrompts.Without` | docs/script.js:98-103 | splicing out position i leaves one element fewer: the elements before i unchanged, the ones after shifted down by one, the same multiset less the removed element; in a duplicate-free list the removed prompt is gone |
| `ViewMode.Toggled` | docs/script.js:230-234 | the toggle always yields desktop or vertical, never the current mode, and yields vertical exactly when the current mode is desktop |
| `ViewMode.ToggleTwice` | docs/script.js:230-234 | from either mode, two toggles come back to it |
| `ViewMode.StartupMode` | docs/script.js:236-239 | at start-up a stored non-empty mode is used as it is; an absent or empty value falls back to desktop; the result is never empty |
| `App.Page.Load` | docs/script.js:72-74 | an absent prompts key loads as the empty list; otherwise the stored list |
| `App.Page.Render` | docs/script.js:80-109 | the rendered list has one entry per stored prompt, in stored order, each carrying its own index and text |
| `App.Page.Delete` | docs/script.js:98-103 | the delete button stores the rendered list with that index spliced out; when the rendered list is the stored one, the result is positional delete of the stored list; the view mode is untouched |
| `App.Page.SavePrompt` | docs/script.js:137-144 | the stored list becomes the save of the base text onto the loaded list; the slot is not written when the text is empty or already present; duplicate-freedom is preserved |
| `App.Page.Copy` | docs/script.js:126-148 | the action is suppressed exactly when both fields are whitespace only; it shows the payload exactly when the clipboard write succeeded; only then is the trimmed base saved, and the slot is not written when that base is empty or already saved; otherwise storage is unchanged |
| `App.Page.Clear` | docs/script.js:159-163 | after confirmation the prompts key is removed and loading yields the empty list; a declined confirmation changes nothing |
| `App.Page.Export` | docs/script.js:165-179 | export fails with the "no prompts" alert exactly when the loaded list is empty; otherwise the backup's prompts field is exactly the loaded list |
| `App.Page.Import` | docs/script.js:181-206 | no file does nothing; a file without a `prompts` array is rejected with the "invalid file" alert; a valid file replaces the stored list verbatim when confirmed and changes nothing when declined |
| `App.Page.ApplyViewMode` | docs/script.js:215-228 | the body gets the given mode and the mode is stored; the prompt list is untouched |
| `App.Page.ToggleViewMode` | docs/script.js:230-234 | the body's mode becomes the toggled mode, which is desktop or vertical, and it is stored |
| `App.Page.RestoreViewMode` | docs/script.js:236-239 | start-up applies and stores the stored mode, or desktop when none is stored |
| `App.BackupRoundTrip` | docs/script.js:165-200 | exporting a non-empty list and importing that backup with confirmation restores exactly the exported list; an empty list is not exported and the target's list is unchanged; the target's view mode and layout never change |

## Left out

- DOM construction and event wiring: element lookup, `innerHTML`, `onclick` and
  `addEventListener`, `style.display`, `stopPropagation`, and the button labels set in
  `applyViewMode`. Clicking a rendered entry assigns its text to the base field. The
  reset buttons clear the two fields, and the template checkbox writes the template into
  the base field. These are plain field assignments in the DOM and are not modelled.
- The clipboard write (`copyToClipboard`): the asynchronous Clipboard API and the
  `execCommand` fallback. Only its outcome is modelled, as the `copied` parameter of
  `App.Page.Copy`. The fallback always reports success.
- File I/O for export and import: `Blob`, object URLs, the download anchor, the file
  picker and `FileReader`. Export returns the backup value. Import takes the file's
  parsed `prompts` field.
- JSON encoding and decoding. Storage holds the list itself. A stored value that is not
  valid JSON, which makes the real load throw, cannot be represented.
- App.Page.Import: its `prompts` is a list of strings. The real check accepts any
  array, so non-string elements are not modelled.
- Storage exceptions, such as quota exceeded or disabled storage. Every write is
  modelled as succeeding.
- App.Page.ApplyViewMode: a stored mode that contains whitespace makes the body's class
  list throw before the mode is stored. This is not modelled.
- Strings are sequences of Unicode scalar values, not of UTF-16 code units. Every
  character that trim removes lies in the Basic Multilingual Plane, so trimming agrees.
- Other browser tabs writing the same storage keys. Concurrent modification is not
  modelled. `App.Page.Delete` does take the list captured at render time, so a stale
  list would be written back as it is.
