# iCashAPP catalog panel — a Dafny model

iCashAPP's admin panel is a single browser script, `scripts.js`. It maintains
four catalogs:

- movement types (`TipoMovimiento`)
- cost types (`TipoCosto`)
- categories (`Categoria`)
- concepts (`Concepto`)

Each catalog has a paged table, an add/edit form and a search overlay. Every
operation is a call to one RPC endpoint. This project models the decision
layer that sits under the DOM templating and the `fetch` plumbing. API replies
are explicit inputs, and the page's state is a Dafny class.

Modules, in dependency order:

- `Optional` — the `Option` type.
- `Text` — JavaScript's `String.prototype.trim` (the full set of ECMAScript
  white-space and line-terminator code points) and `includes`.
- `Paging` — the "Mostrando start-end de total" window, `Math.ceil` over
  integers, and the state of the pagination element after `setupPagination`:
  - the page and page count its prev/next handlers close over;
  - the `disabled` flags of the two buttons;
  - its visibility.
- `Catalog` — the entity enumeration and every dispatch table over it:
  - form id, table key, columns, `colspan`, action names;
  - the `includes` chain of `handleFormSubmit`;
  - the wire vocabulary (`Request`, `Reply`, `Item`).
- `Selects` — an HTML `<select>` as a value (options, value, disabled), with
  the browser's rule that assigning a value no option carries selects nothing,
  together with:
  - the option loaders and the `forEach` loop that builds the options;
  - the dependent-select cascade of the Category and Concept forms;
  - the edit hydration of the three dependent forms.
- `Forms` — `validateForm` as a loop, the `FormData` copy loop (a later entry
  overwrites an earlier one with the same key), and the submit action and body.
- `Tables` — the rows, info line and pagination of each table, as written by
  the `fetch*` functions and by `updateTable`, and the effect of a global search.
- `Panel` — class `Panel`:
  - its fields are the script's globals (`editingId`, `currentFormType`,
    `currentPages`), the active forms, the four table views, the six selects,
    the search box and the log of requests sent;
  - there is one method per event handler;
  - `Valid()` keeps every page cursor, and every page an armed pagination
    closed over, at 1 or more, and keeps every select showing one of its own
    options.

Each method's `ensures` states the handler's complete new state in terms of the
module functions. The lemmas beside those functions state what the handlers
guarantee.

Behaviour that the contracts make visible:

- After a successful submit the table is fetched at page 1, but the table's
  `currentPages` entry keeps its old value. A later delete or clear-search
  therefore fetches the old page, not the page on screen (`Panel.Panel.Submit`,
  `Panel.Panel.DeleteRecord`).
- A successful load-for-edit adds its form to the active set without removing
  the others, so two forms can be active at once (`Panel.Panel.LoadForEdit`).
- If a cascade reload fails, the dependent select is still enabled and keeps
  its previous options, which are now stale: a failed cost-type reload leaves
  the cost-type select enabled with the options of the previous movement type
  (`Selects.CategoryMovementCascade`).
- The effective total is `response.total || data.length`. A negative `total`
  is kept, because `||` replaces only 0 (`Paging.EffectiveTotal`).
- A record without an `id` shows "undefined" in a fetched row but an empty
  cell in a search row (`Tables.RowsAgree`).

## Model

| member | source | states |
|---|---|---|
| Text.TrimIsSlice | scripts.js:345 | `trim` keeps one contiguous slice. The removed ends are white space or line terminators, the first and last kept characters are not, and an all-white string trims to "" |
| Text.BlankIff | scripts.js:345 | a field counts as empty (`!value.trim()`) exactly when every character is white space or a line terminator |
| Paging.CeilDiv | scripts.js:659 | `Math.ceil(t / d)` is the least k with t ≤ k·d |
| Paging.TotalPagesOfNat | scripts.js:659 | for a non-negative total, the page count is (total + 9) / 10 |
| Paging.EffectiveTotal | scripts.js:516 | a non-zero `total` is used as is; a zero or missing total falls back to the row count, so it is never 0 when rows arrived |
| Paging.WindowOf | scripts.js:517-518 | the window ends at or before the total, spans at most 10 rows, and starts at 1 or later on a page ≥ 1 |
| Paging.WindowInRange | scripts.js:516-519 | a page is within the page count iff its window is non-empty; every page before the last is full; the last page ends at the total |
| Paging.WindowsAdjacent | scripts.js:517-518 | consecutive pages tile the rows: each window ends right before the next one starts |
| Paging.SetupPagination | scripts.js:656-693 | the handlers are armed at the given page, with the page count `ceil(total / 10)` |
| Paging.HandlersMatchButtons | scripts.js:668-690 | the prev (next) handler moves the page exactly when the prev (next) button is enabled |
| Paging.NavigationInRange | scripts.js:672-690 | from a page in [1, totalPages], prev and next move exactly one page and stay in range; prev is a no-op exactly on page 1, next exactly on the last page |
| Paging.HiddenMeansNowhereToGo | scripts.js:659-692 | on an in-range page the controls are hidden exactly when both buttons are disabled |
| Paging.Example25OnPage2 | scripts.js:516-523 | 25 rows on page 2: rows 11–20, 3 pages, both buttons enabled, controls shown |
| Paging.ExampleLastPage | scripts.js:516-519 | 21 rows give 3 pages and page 3 holds row 21 alone; 20 rows give exactly 2 pages; 0 rows give 0 pages |
| Catalog.Quad.With | scripts.js:674 | `currentPages[t] = …` changes the entry of `t` and no other |
| Catalog.FormOfId | scripts.js:228-230 | `getElementById` finds a form only for one of the four form ids |
| Catalog.FormOfIdIff | scripts.js:228-230 | an id finds the form of `e` iff it is `e`'s form id |
| Catalog.SubmitEntityOfForm | scripts.js:284-299 | the `includes` chain sends each form's submit to its own entity, even though "conceptos-form" contains "co" and "categorias-form" contains "cat" |
| Catalog.TableDispatch | scripts.js:1059-1100 | a table key maps back to its own entity; `updateTable`'s columns equal the fetched row's columns; the message-row `colspan` is the column count plus the actions column |
| Catalog.DecodeActionRoundTrip | scripts.js:284-299 | every action name decodes back to its operation and entity |
| Catalog.ActionInjective | scripts.js:617-632 | two operations never share an action name |
| Selects.Assign | scripts.js:437 | assigning a value selects it iff some option carries it, and otherwise selects nothing ("") |
| Selects.ResetSelect | scripts.js:241 | `form.reset()` selects the placeholder and keeps the options and the disabled state |
| Selects.Cleared | scripts.js:134-135 | a cleared dependent select offers only its prompt, selected and disabled |
| Selects.BuildOptions | scripts.js:430-436 | the loop builds the placeholder, then one option per record, in order; the option values are "" followed by the record ids |
| Selects.Refill | scripts.js:426-438 | one loader run on a select gives exactly `Loaded` |
| Selects.Repopulated | scripts.js:451-464 | on success the values become "" then the returned ids, and the previous choice survives iff it is "" or among the new ids (otherwise ""); the disabled state is kept |
| Selects.LoadedSpec | scripts.js:472-485 | a failed or thrown loader call leaves the select unchanged; a successful one gives exactly the new ids; well-formedness is kept |
| Selects.RepopulatedIdempotent | scripts.js:426-438 | reloading a second time with the same reply changes nothing |
| Selects.LoadMovementOptions | scripts.js:421-444 | `loadSelectOptions` keeps the six selects well formed and leaves the dependent ones alone |
| Selects.ResetForm | scripts.js:241 | `form.reset()` touches only that form's selects, sets each of them back to "" and keeps every option list and disabled flag |
| Selects.CategoryMovementChanged | scripts.js:129-137 | the Category cascade keeps every select well formed |
| Selects.ConceptMovementChanged | scripts.js:145-157 | the Concept movement cascade keeps every select well formed |
| Selects.ConceptCostChanged | scripts.js:159-167 | the Concept cost cascade keeps every select well formed |
| Selects.EnsureMovementOptions | scripts.js:765-767 | loading the options only when the select holds just its placeholder keeps every select well formed |
| Selects.HydrateCosto | scripts.js:750-787 | the Cost type edit loader keeps every select well formed; its effect is stated in HydrateCostoShowsRecord |
| Selects.HydrateCategoria | scripts.js:845-892 | the Category edit loader keeps every select well formed |
| Selects.HydrateConcepto | scripts.js:951-1008 | the Concept edit loader keeps every select well formed |
| Selects.Hydrated | scripts.js:551-570 | the edit button dispatches to each entity's own loader, and every loader keeps the selects well formed |
| Selects.RefillMovementSelects | scripts.js:428-438 | refilling the three movement-type selects one after another from one reply gives `LoadMovementOptions` |
| Selects.Hydrate | scripts.js:968-990 | the step-by-step hydration (options when the select holds only its placeholder, then each level assigned and the next level loaded and enabled) gives `Hydrated` and sends `HydrationRequests` |
| Selects.CategoryMovementCascade | scripts.js:129-137 | Category form: clearing the movement type resets and disables the cost type; choosing one reloads the cost types for it and enables the select, keeping the stale options if the call fails; the other selects are untouched |
| Selects.ConceptMovementCascade | scripts.js:145-157 | Concept form: clearing the movement type resets and disables both descendants; choosing one reloads and enables the cost type and resets and disables the category; the other selects are untouched |
| Selects.ConceptCostCascade | scripts.js:159-167 | Concept form: clearing the cost type resets and disables the category; choosing one reloads and enables it; the other selects are untouched |
| Selects.ReselectRestores | scripts.js:145-167 | choosing a movement type, clearing it and choosing it again gives the first choice's movement type, cost-type options and enabled state, and category; only the selected cost type is cleared |
| Selects.HydrateConceptoShowsRecord | scripts.js:968-993 | when the stored ids are offered by the replies, the three Concept selects show the record's movement type, cost type and category, in parent-to-child order, and the two descendants are enabled |
| Selects.HydrateConceptoRequests | scripts.js:968-990 | the Concept hydration asks for the cost types of the record's movement type and the categories of its cost type, in that order |
| Selects.HydrateCostoShowsRecord | scripts.js:765-772 | when the record's movement type is offered, the Cost type form shows it, and the dependent selects of the other forms are unchanged |
| Selects.HydrateCategoriaShowsRecord | scripts.js:861-877 | the Category selects show the record's movement type and cost type, and the cost type is enabled |
| Selects.HydrationSkipsReset | scripts.js:968-993 | a concept without a cost type leaves the category select as it was; one without a movement type changes nothing but the movement-type options |
| Forms.ValidateForm | scripts.js:340-359 | the form is valid iff every required value is non-blank after trim; exactly the blank fields are flagged with `error` |
| Forms.CollectEntries | scripts.js:306-309 | the body built by the loop is `Collected(entries)` |
| Forms.CollectedIsLastValue | scripts.js:306-309 | a key is in the body iff some entry has it, with the value of the last such entry |
| Forms.LastValueExists | scripts.js:306-309 | a key has a last value iff some entry carries that key |
| Forms.BuildSubmitRequest | scripts.js:284-309 | the dispatch plus the copy loop produce `SubmitRequest` |
| Forms.SubmitActionSpec | scripts.js:284-297 | while editing the action is the update of the form's entity, otherwise its create |
| Forms.SubmitIdSpec | scripts.js:284-299 | while editing the body's `id` is the edited id, even over a form field named `id`; otherwise `id` appears only if the form has such a field |
| Forms.SubmitFieldsSpec | scripts.js:306-309 | every other member of the body is the last form entry with that name |
| Tables.RenderFetchRows | scripts.js:499-511 | the loop writes one row per record, in order, as `FetchRow` |
| Tables.RenderSearchRows | scripts.js:1074-1094 | the nested loops write one row per record, with one cell per column of the table, as `SearchRow` |
| Tables.FetchRowSpec | scripts.js:905-918 | a fetched row has the entity's columns, `id` and `nombre` raw and the rest defaulted to ""; with the actions cell it is exactly as wide as the message rows' `colspan` |
| Tables.RowsAgree | scripts.js:1079-1081 | fetched and search rows of the same record agree when it has `id` and `nombre`; a missing `id` shows "undefined" in one and "" in the other |
| Tables.FetchedSpec | scripts.js:489-539 | a thrown call writes only the error row and keeps the info line and pagination; a non-empty page shows its rows and the window, and arms the pagination at `page`, visible iff there is more than one page; anything else shows the empty row and "0 registro(s)" and hides the pagination |
| Tables.SearchedSpec | scripts.js:1047-1117 | search results replace the rows, the info line shows the result count, and the pagination is hidden with its handlers kept; no results shows the "no results" row |
| Tables.FetchedForgetsView | scripts.js:496-523 | a non-empty page does not depend on what the table showed before |
| Tables.SearchOutcomeSpec | scripts.js:1025-1040 | if any call threw, no table changes; otherwise each successful reply overlays its table and hides its pagination, and a `success: false` reply keeps its table |
| Tables.RefetchAllAt | scripts.js:1012-1018 | an empty query fetches each table at its own cursor |
| Tables.ClearingRestores | scripts.js:1012-1018 | unless the list call throws, searching and then clearing leaves a table as if no search had run, and a page with rows re-arms the pagination at the cursor; a thrown list call shows the error row but keeps the search's info line and hidden pagination |
| Panel.Panel.constructor | scripts.js:5-12 | no editing context, no active form, every cursor at 1, nothing sent |
| Panel.Panel.Fetch | scripts.js:489-539 | the list request for the page; only that table changes, to `Fetched` |
| Panel.Panel.UpdateTable | scripts.js:1047-1117 | only that table changes, to `Searched` |
| Panel.Panel.LoadSelectOptions | scripts.js:421-444 | one request; the selects become `LoadMovementOptions` |
| Panel.Panel.LoadInitialData | scripts.js:192-209 | the options request, then the first page of every table |
| Panel.Panel.ShowForm | scripts.js:227-256 | an unknown id changes nothing; otherwise exactly that form is active, with the editing context cleared, `currentFormType` set and the form reset; the options are reloaded unless it is the movement-type form |
| Panel.Panel.HideForm | scripts.js:259-266 | the form is reset and deactivated, and both context globals are cleared |
| Panel.Panel.Submit | scripts.js:269-337 | invalid: nothing is sent and nothing changes; valid: `SubmitRequest` is sent; on success the form is hidden, only its table is refetched, at page 1 with the cursors unchanged, and the options are reloaded only for movement types; on failure only the request was sent |
| Panel.Panel.AfterSave | scripts.js:314-329 | the success path of a submit, stated field by field |
| Panel.Panel.LoadForEdit | scripts.js:579-605 | the get request; on success the selects are hydrated, `editingId` is the id, `currentFormType` is the entity's form, and the form is added to the active ones; otherwise only the request was sent |
| Panel.Panel.EnterEdit | scripts.js:593-597 | the success path of a load-for-edit, stated field by field |
| Panel.Panel.DeleteRecord | scripts.js:608-653 | unconfirmed: nothing; confirmed: the delete request, and on success the table is refetched at its cursor |
| Panel.Panel.MoveTo | scripts.js:672-690 | a move sets only this table's cursor and fetches that page |
| Panel.Panel.Prev | scripts.js:672-680 | the cursor moves to page − 1 only when the pagination is armed and the page is above 1; otherwise nothing changes |
| Panel.Panel.Next | scripts.js:682-690 | the cursor moves to page + 1 only when the page is below the page count; otherwise nothing changes |
| Panel.Panel.ChangeCategoryMovement | scripts.js:129-137 | the selects become `CategoryMovementChanged`; the cost-type request is sent only for a non-empty choice |
| Panel.Panel.ChangeConceptMovement | scripts.js:145-157 | the selects become `ConceptMovementChanged`; the cost-type request is sent only for a non-empty choice |
| Panel.Panel.ChangeConceptCost | scripts.js:159-167 | the selects become `ConceptCostChanged`; the category request is sent only for a non-empty choice |
| Panel.Panel.PerformGlobalSearch | scripts.js:1011-1044 | an empty query sends the four list requests at the cursors and no search; any other query sends the four searches and gives `SearchOutcome`; the cursors never change |
| Panel.Panel.RefetchTables | scripts.js:1012-1018 | the four fetches at the cursors give `RefetchAll` |
| Panel.Panel.SearchTables | scripts.js:1025-1040 | the four searches give `SearchOutcome` |
| Panel.Panel.Overlay | scripts.js:1033-1036 | one table is overlaid only if its reply succeeded |
| Panel.Panel.SearchInput | scripts.js:82-87 | the search runs on the trimmed text; a blank text refetches instead |
| Panel.Panel.ClearSearch | scripts.js:90-95 | the box is emptied and every table is refetched at its cursor |
| Panel.Panel.ToggleSearch | scripts.js:65-77 | opening the panel changes nothing else; closing it empties the box and refetches every table at its cursor |

## Left out

- `apiCall`, `fetch`, JSON encoding and HTTP status handling (scripts.js:397-418) are not modelled. Each reply is a parameter: `Threw`, or `Replied(success, data, total)`. `sent` logs requests as an action plus parameters. The merge `{ action, ...data }` is not modelled, so a form field named `action` overriding the action is not captured.
- The wording of notifications, of the empty and error rows, and of the info line is not modelled. The info line is a datatype; the rows keep only their `colspan`. Also not modelled: the `<td>` markup, option texts beyond record names, the loading overlay and the help modal.
- Values are JSON strings. A numeric `0` id, which `|| ''` would blank, is not distinguished. A success reply whose `data` is missing, which makes a loader throw a `TypeError`, is not modelled.
- The text inputs of the forms (id and name fields) and the readonly id field that `showForm` clears are not modelled. A submit takes the form's entries and the values of its required fields as parameters.
- The HTML page is not part of this model. It is assumed to hold:
  - every table's body, info line and pagination element;
  - the six selects in their placeholder state, the dependent ones disabled;
  - the three movement-type selects as the ones `loadSelectOptions` matches;
  - a search panel that starts hidden.
- Timers are not modelled. The 300 ms debounce is stood in for by "the text in the box when the timer fires is searched". Focus delays and the 3 s removal of the `error` class are left out.
- `Promise.all` and asynchronous interleaving are not modelled. The calls run one after another in source order. A stale search answer arriving after a newer one is not captured.
- The `confirm()` dialog is a boolean parameter of `Panel.Panel.DeleteRecord`.
- The Escape-key handler (scripts.js:172-189) is left out. It closes the first active form in document order, and that order depends on the HTML.
- The `totalItems` global (scripts.js:13-18) is never updated by the script, so it has no field.
- Registering event listeners is not modelled, including the duplicate edit/delete listeners that each fetch adds to a table body. An edit or delete click runs its handler once.
