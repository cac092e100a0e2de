# live-usher access check, modelled in Dafny

live-usher is a live-event entrance check. A Google Apps Script web app
(Gas.js) looks up a participant's CAMPFIRE identifier in the participant
sheet and answers with a JSON envelope `(success, hasAccess, message, data?)`.
A browser page (script.js, and its earlier version _script.js) trims and
validates the typed identifier, shows a loading overlay while the request is
in flight, and then shows a success screen, the no-access screen, or a
message under the input.

The model has six modules:

- `Wrappers`: `Option` and `Result`.
- `JsText`: `String.prototype.trim`, over the ECMAScript WhiteSpace and
  LineTerminator code points.
- `Gas` (Gas.js):
  - `SearchUser` is the row scan, a loop proved against the specification
    function `Search`.
  - `DoPost` validates the request and maps the lookup onto the envelope.
  - `CreateJsonResponse` builds the envelope.
  - The spreadsheet is an input: `None` when the sheet is missing, otherwise
    its grid of cells with row 0 the header and `""` for every falsy cell.
- `Client`: what both pages share. It holds `validateInput`, the reply as the
  page reads it, and the paragraphs of the user-info block.
- `AccessPage` (script.js) and `LegacyAccessPage` (_script.js):
  - `Dispatch` maps a request outcome to the screen shown.
  - `Present` gives the DOM state after showing it.
  - The class `Page` holds, as fields, the DOM properties the script writes:
    - screen visibility;
    - the overlay;
    - the button's `disabled`;
    - the error text and the input's error mark;
    - the info block's HTML and visibility.

    Its methods are the script's `show*`/`hide*`/`clearError` helpers and
    `handleCheckAccess`.
  - The request is a function parameter `network` from the identifier sent to
    the outcome: a reply, or `Failed` for anything that throws.
  - `escapeHtml` is an uninterpreted function parameter `escape`.

Both pages send their request as a GET with the identifier in the query
string. Gas.js answers only POST (`doPost`) and the CORS preflight, so the
pages' replies come from a GET version of the service that is not part of
this model. Its reply is taken as a `Reply` value. script.js reads the
reply's `pattern` (`'both'` or `'entrance_only'`). A reply without one never
selects the both-access screen: granted access falls to the default
entrance-only branch (`AccessPage.NoPatternNeverShowsBothScreen`).

## Model

| member | source | states |
|---|---|---|
| JsText.TrimStart | Gas.js:123 | what is left does not start with whitespace |
| JsText.TrimEnd | Gas.js:123 | what is left does not end with whitespace |
| JsText.TrimStartDrops | Gas.js:123 | the leading trim leaves a suffix of the input and drops only whitespace |
| JsText.TrimEndDrops | Gas.js:123 | the trailing trim leaves a prefix of the input and drops only whitespace |
| JsText.Trim | Gas.js:49 | `trim()` leaves no whitespace at either end |
| JsText.TrimIsSlice | Gas.js:49 | `trim()` returns a slice `s[i..j]` of its input with only whitespace outside it |
| JsText.TrimOfTrimmed | script.js:38 | a string with no whitespace at either end is its own trim |
| JsText.TrimIdempotent | Gas.js:54 | trimming twice is trimming once, so the id `doPost` passes on is already in the form the rows are compared in |
| JsText.TrimEmptyIff | Gas.js:49 | `trim() === ''` holds exactly when the string is all whitespace, so a whitespace-only id counts as blank |
| Gas.NullIfEmpty | Gas.js:137-138 | a cell reported as `null` exactly for an empty cell, otherwise the cell's own text |
| Gas.FirstMatchFrom | Gas.js:119-142 | the index found is the first matching row at or after the start, and no row matches when none is found |
| Gas.Search | Gas.js:113-146 | a row is found exactly when some data row (index 1 or later) matches the query, so the header never matches and a sheet of at most one row is never a match |
| Gas.FirstMatchIsFound | Gas.js:119-141 | the scan stops at the first matching data row and the result is built from that row |
| Gas.FirstMatchWins | Gas.js:126-140 | for the first matching row: found; `hasAccess` exactly when the trimmed column D is `'有'`; name and return item taken from columns B and C, `null` when empty |
| Gas.FirstMatchAgrees | Gas.js:119-142 | two sheets that agree from a row onwards give the same first match from that row |
| Gas.HeaderRowIgnored | Gas.js:118-119 | replacing the header row by anything leaves the result unchanged |
| Gas.FirstMatchIgnoresTail | Gas.js:119-142 | rows after a match do not affect the first match |
| Gas.LaterRowsNeverInspected | Gas.js:119-141 | replacing, adding or dropping rows after the first match (later duplicates included) leaves the result unchanged |
| Gas.UntrimmedQueryNeverMatches | Gas.js:123-126 | row ids are trimmed before the exact comparison, so a query with whitespace at either end never matches |
| Gas.NoCaseFolding | Gas.js:126 | one illustration of the exact `===` comparison (the general rule is the definition of a row match): the query `abc123` does not find a row `ABC123` |
| Gas.SearchUser | Gas.js:95-152 | a missing sheet throws; otherwise the loop returns exactly `Search` of the sheet |
| Gas.CreateJsonResponse | Gas.js:157-167 | success, hasAccess and message are copied, and `data` is present exactly when supplied |
| Gas.DoPost | Gas.js:23-76 | unparsable body gives the malformed-request envelope. A missing, non-string, empty or blank id gives the no-id envelope whatever the sheet holds. A missing sheet or `null` body gives the system error. Otherwise the trimmed id's lookup maps to granted `(true, true, data)`, denied `(true, false)` without data, or not-found `(false, false)`. Data is present exactly on granted access, and every message is one of the six. |
| Client.ValidateInput | script.js:87-103 | valid exactly when non-empty and 3 to 50 characters long; the empty message exactly for `""`, the too-short message exactly for 1–2 characters, the too-long message exactly above 50 (identical in _script.js:73-89) |
| Client.InfoLinesShape | script.js:170-182 | the block has a name paragraph exactly when the name is non-empty (and first), a return paragraph exactly when the return item is non-empty, and the rehearsal paragraph exactly on the both-access screen, as its last; there are no other paragraphs |
| Client.RenderAllAppend | script.js:172-179 | the HTML of a concatenation of paragraphs is the concatenation of their HTML |
| Client.AppendLine | script.js:174-178 | one `infoHTML +=` step appends the HTML of one paragraph |
| Client.ComposeInfoHtml | script.js:172-179 | the accumulated `infoHTML` is the rendering of exactly the paragraphs of `InfoLinesShape` |
| AccessPage.Dispatch | script.js:57-79 | granted access with `pattern === 'both'` shows the both-access screen, and any other pattern (a missing one included) the entrance-only screen, with the reply's data. Success without access shows the no-access screen whatever the pattern. A failed reply shows its message, or the not-found text when empty. A thrown error shows the system error. |
| AccessPage.NoPatternNeverShowsBothScreen | script.js:58-69 | a reply without a `pattern` never selects the both-access screen; granted access falls to the default branch and shows the entrance-only screen with the reply's data |
| AccessPage.PresentKeepsLoading | script.js:55 | showing an outcome does not touch the overlay or the button |
| AccessPage.Page.ShowLoading | script.js:243-246 | overlay shown and button disabled, nothing else changed |
| AccessPage.Page.HideLoading | script.js:251-254 | overlay hidden and button enabled, nothing else changed |
| AccessPage.Page.ShowError | script.js:227-230 | the message is shown under the input, which is marked |
| AccessPage.Page.ClearError | script.js:235-238 | the message and the mark are cleared |
| AccessPage.Page.ShowErrorScreen | script.js:216-222 | the input screen is hidden and the no-access screen shown |
| AccessPage.Page.ShowSuccessBothScreen | script.js:165-186 | the both-access screen replaces the input screen. Its info block gets the name, return and rehearsal paragraphs when there is a name or return item, and is hidden otherwise. |
| AccessPage.Page.ShowSuccessEntranceOnlyScreen | script.js:191-211 | the same for the entrance-only screen, without the rehearsal paragraph |
| AccessPage.Page.BeginCheck | script.js:37-48 | the input is trimmed before validation. An invalid id only shows its message under the input: no request, no loading state. A valid id becomes the request (trimmed), and the page is otherwise unchanged except that the overlay is shown and the button disabled. |
| AccessPage.Page.HandleCheckAccess | script.js:37-82 | an invalid id only shows its message and makes no request. A valid id is sent trimmed (through BeginCheck, with the loading state set). Afterwards the page is the dispatched outcome of the reply, with the overlay hidden and the button enabled. |
| AccessPage.Page.Settle | script.js:50-81 | on a reply and on a thrown error alike, the loading state is cleared and then the dispatched outcome is shown |
| AccessPage.Page.ShowResult | script.js:57-76 | the `if` chain on a reply shows exactly `Dispatch` of it |
| LegacyAccessPage.Dispatch | _script.js:55-66 | granted access shows the single success screen with the reply's data. Success without access shows the no-access screen. A failed reply shows its message or the not-found text. A thrown error shows the system error. |
| LegacyAccessPage.PatternNeverConsulted | _script.js:56-57 | the reply's `pattern` does not change what is shown |
| LegacyAccessPage.SameOutcomesAsSplitPage | _script.js:56-62 | script.js shows a success screen exactly when _script.js does, with the same data, and otherwise the same outcome |
| LegacyAccessPage.PresentKeepsLoading | _script.js:53 | showing an outcome does not touch the overlay or the button |
| LegacyAccessPage.Page.ShowLoading | _script.js:203-206 | overlay shown and button disabled, nothing else changed |
| LegacyAccessPage.Page.HideLoading | _script.js:211-214 | overlay hidden and button enabled, nothing else changed |
| LegacyAccessPage.Page.ShowError | _script.js:187-190 | the message is shown under the input, which is marked |
| LegacyAccessPage.Page.ClearError | _script.js:195-198 | the message and the mark are cleared |
| LegacyAccessPage.Page.ShowErrorScreen | _script.js:176-182 | the input screen is hidden and the no-access screen shown |
| LegacyAccessPage.Page.ShowSuccessScreen | _script.js:151-171 | the success screen replaces the input screen. Its info block gets the name and return paragraphs when there is a name or return item, and is hidden otherwise. |
| LegacyAccessPage.Page.BeginCheck | _script.js:35-46 | the input is trimmed before validation. An invalid id only shows its message: no request, no loading state. A valid id becomes the request (trimmed), with the overlay shown and the button disabled and nothing else changed. |
| LegacyAccessPage.Page.HandleCheckAccess | _script.js:35-68 | an invalid id only shows its message and makes no request. A valid one is sent trimmed (through BeginCheck, with the loading state set). The page ends as the dispatched outcome with the loading state cleared. |
| LegacyAccessPage.Page.Settle | _script.js:48-67 | on a reply and on a thrown error alike, the loading state is cleared and then the dispatched outcome is shown |

## Left out

- `SpreadsheetApp`, `ContentService`, `Logger`, the CORS headers, `setMimeType`/`setHeaders` and `doOptions` (Gas.js:78-90) are platform services. The sheet is an input, and the envelope is returned as a value instead of serialised text.
- `JSON.parse` and `JSON.stringify` are library serialisers. A body that does not parse (or has no `postData`) is the input alternative `Body.Unparsable`. A body that parses to `null` is `Body.NullBody`: reading its `campfireId` throws and `doPost` answers with the system error.
- `checkAccess` in both pages is network I/O: `fetch`, the status check, parsing the reply, the URL placeholder test and `encodeURIComponent`. Its effect is the parameter `network`. Every way it throws, and a `null` reply whose first property read throws, is the single outcome `Failed`. Against a `null` reply the page also hides the overlay twice, which ends in the same state.
- AccessPage.Page.HandleCheckAccess and LegacyAccessPage.Page.HandleCheckAccess run the `await` as one step: `BeginCheck` states the page while the request is in flight, and `Settle` the page once it has settled. A second request started while one is in flight is not modelled. The button is disabled then, but pressing Enter in the input still starts one (script.js:22-26, _script.js:20-24). The first reply to settle then hides the overlay and enables the button while the other request is still pending. So "disabled while in flight" holds only for a single request.
- DOM lookups and event listeners (script.js:5-32, _script.js:5-30) are browser wiring, and so is `escapeHtml`, which relies on the browser's `textContent`/`innerHTML`. `escape` is left uninterpreted.
- `Client.InfoLinesShape` holds the paragraph structure. HTML is strings made from fixed markup and the escaped fields; no property is stated about `escape` itself.
- `testSearchUser` and `checkSheetStructure` (Gas.js:182-223) only log.
- Gas_GET版.js is not part of this model. Both pages send GET requests (script.js:121-126, _script.js:107-112), which only that version of the service answers, and the pages' reply is taken as a `Reply` value whatever produced it.
- Cells are strings, and `""` stands for every falsy cell. The coercions `String(row[k])` applies to numbers, dates and booleans, and truthiness quirks such as a numeric `0` in column A, are not modelled.
- JavaScript string length counts UTF-16 code units. `ValidateInput` uses the length of the Dafny string, which counts code points, so the two differ for characters outside the Basic Multilingual Plane.
- `JsText.IsWhitespace` is the concrete ECMAScript set of WhiteSpace and LineTerminator code points, not an abstract predicate.
- `console.log`/`console.error` output is not modelled.
- `Client.ComposeInfoHtml`, `AccessPage.Page.BeginCheck`, `AccessPage.Page.Settle`, `AccessPage.Page.ShowResult`, `LegacyAccessPage.Page.BeginCheck` and `LegacyAccessPage.Page.Settle` are pieces of the source's functions pulled out so each proof stays small. Each runs the same statements, in the same order, as the inline code it comes from.
