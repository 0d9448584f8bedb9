# Test-case generator panel, modelled in Dafny

The repository holds one Lightning Web Component, `TestCaseGenerator`. A user
pastes free-form text and picks a target schema, either "GUS" or "Narwhale".
The panel sends both to a remote processing service and shows the records it
returns in a data table. The table can be copied to the clipboard as
tab-separated text.

This project models the two parts of the component that have behaviour of
their own:

- **The panel's state.** Module `Generator` holds the class
  `TestCaseGenerator`, which has the component's four fields: `inputData`,
  `selectedOption`, `tableData` and `isProcessing`.
  - It has the two button guards, the two change handlers, and `ProcessData`.
  - The remote call is reduced to how it settles. The three continuations
    (success, failure, always) are completion methods that a caller invokes
    after `ProcessData`.
  - A ghost `events` log records every toast and refresh signal the
    component dispatches.
  - A ghost `inFlight` counter records the calls that have not settled yet,
    so a completion can only follow a started call. A ghost `branchTaken`
    flag makes each settling call run exactly one of the success and failure
    branches before the branch that always runs. `Complete` runs the three in
    order and is the entry point meant for callers.
  - The busy flag `isProcessing` is set by every start and cleared by every
    settle. `ProcessData` has no guard of its own, so two unguarded starts
    can leave one call outstanding with the flag cleared. The ghost predicate
    `Quiet()` (at most one call outstanding, flag set exactly while it is)
    holds from construction. The handlers and `Complete` keep it, and
    `ProcessData` keeps it when started from the enabled process button:
    this is the "no overlapping calls" guarantee the button's guard gives.
- **The table export.** Module `Table` holds the column metadata of both
  schemas, the rows the panel stores for a processing result, and the
  serialiser that turns the table into clipboard text.
- **String helpers.** Module `Text` holds JavaScript's `trim()` (with the
  ECMAScript whitespace set written out), `join` on a one-character
  separator, and `Split`.
  - `Split` does not exist in the component. It is a reference decoder that
    reads the exported text back, the way a spreadsheet reads pasted text.
    The serialiser's properties are stated as round trips through it.

Files: `text.dfy` (module `Text`), `table.dfy` (module `Table`),
`generator.dfy` (module `Generator`).

### Behaviour worth noting

- **A failed call leaves the table as it was.** The failure branch (lines
  95-98) never assigns `tableData`. The table is still empty when nothing ran
  between the start of the call and its failure, as `SubmitThenReject`
  shows. If another call resolved in between, its rows stay.
- **Stored rows are not restricted to the schema's fields.** Every key the
  service returns is stored, plus `id` (line 91). The export ignores the
  extra keys (`TaggingNotExported`, `RowLineIgnoresOtherKeys`).
- **The schema is a free string.** The copy action uses the Narwhale
  columns for every value other than "GUS", the unset "" included (lines
  111-113). The displayed columns are none for anything but "GUS" and
  "Narwhale" (line 66).
- **A result can outlive a schema change.** A schema change while a call is
  outstanding empties the table (line 77). The call's records still land in
  the table when it settles (line 91), as `OptionChangeWhileProcessing`
  shows.

## Model

| member | source | states |
|---|---|---|
| `Text.Trim` | force-app/main/default/lwc/testCaseGenerator/testCaseGenerator.js:57 | `trim()` returns a run of the text with only whitespace before and after it (`WhitespaceAround`); it is empty exactly when every character is whitespace; a non-empty result neither starts nor ends with whitespace |
| `Text.Split` | force-app/main/default/lwc/testCaseGenerator/testCaseGenerator.js:112-115 | reference reader of the exported text: one more part than there are separators, and no part contains the separator |
| `Text.Join` | force-app/main/default/lwc/testCaseGenerator/testCaseGenerator.js:112-115 | `join` on a one-character separator: the empty string for no parts, the part itself for one (with `Split` as its inverse, `SplitJoin`) |
| `Text.JoinEnds` | force-app/main/default/lwc/testCaseGenerator/testCaseGenerator.js:112-115 | for at least one part, the joined text starts with the first part and ends with the last |
| `Text.JoinOccurrences` | force-app/main/default/lwc/testCaseGenerator/testCaseGenerator.js:112-115 | `join` adds exactly one separator between each two neighbouring parts: for at least one part, the text holds one separator fewer than there are parts beyond those the parts hold themselves |
| `Text.SplitJoin` | force-app/main/default/lwc/testCaseGenerator/testCaseGenerator.js:112-115 | round trip: for at least one part, none containing the separator, splitting the joined text gives back exactly the parts that were joined |
| `Text.JoinExcludes` | force-app/main/default/lwc/testCaseGenerator/testCaseGenerator.js:112 | joining by tabs introduces no newline: a character in no part and different from the separator is absent from the joined text |
| `Text.Decimal` | force-app/main/default/lwc/testCaseGenerator/testCaseGenerator.js:112 | a truthy number in a cell becomes its decimal digits, with no leading zero, reading back as the number itself, as JavaScript writes integers below 10^21 (cells only ever hold array indices) |
| `Table.GusColumns` | force-app/main/default/lwc/testCaseGenerator/testCaseGenerator.js:15-24 | the eight (label, fieldName) pairs of lines 16-23, in source order, all wrapping |
| `Table.NarwhaleColumns` | force-app/main/default/lwc/testCaseGenerator/testCaseGenerator.js:40-53 | the twelve (label, fieldName) pairs of lines 41-52, in source order, all wrapping |
| `Table.ColumnsWellFormed` | force-app/main/default/lwc/testCaseGenerator/testCaseGenerator.js:15-53 | the GUS metadata has 8 columns and the Narwhale metadata 12; every column wraps its text; within one schema no two columns read the same row key |
| `Table.PickerAgrees` | force-app/main/default/lwc/testCaseGenerator/testCaseGenerator.js:7-10 | for every value the picker offers, the copy action exports exactly the columns the table shows |
| `Table.DisplayColumn` | force-app/main/default/lwc/testCaseGenerator/testCaseGenerator.js:65-67 | the table shows the GUS columns exactly for "GUS" and the Narwhale columns exactly for "Narwhale"; for any other value, "" included, it shows no columns |
| `Table.ExportColumns` | force-app/main/default/lwc/testCaseGenerator/testCaseGenerator.js:111-113 | the copy action uses the 8 GUS columns only for "GUS" and the 12 Narwhale columns for every other value, "" included; no column is keyed `id` |
| `Table.CellText` | force-app/main/default/lwc/testCaseGenerator/testCaseGenerator.js:112 | a cell's text is empty exactly when its value is falsy (missing, null, empty string or 0), never a placeholder; a string value is copied unchanged |
| `Table.Export` | force-app/main/default/lwc/testCaseGenerator/testCaseGenerator.js:105-115 | the export is refused exactly when the table is empty; otherwise it is the row lines (`Lines`, each a `RowLine` of the column texts joined by tabs, lines 111-113) joined by newlines (line 115), with the content fixed by `ExportGrid` |
| `Table.ExportGrid` | force-app/main/default/lwc/testCaseGenerator/testCaseGenerator.js:111-115 | for a non-empty table and a non-empty column list (the component always has 8 or 12 columns), when no cell holds a tab or newline, the text has one line per row; line `i` has one tab fewer than the number of columns; its field `j` is the text of column `j` of row `i` |
| `Table.RowLineIgnoresOtherKeys` | force-app/main/default/lwc/testCaseGenerator/testCaseGenerator.js:112-113 | a row key that names no column, such as `id`, has no effect on the row's exported line |
| `Table.Tagged` | force-app/main/default/lwc/testCaseGenerator/testCaseGenerator.js:91 | the stored rows match the records one to one, in order; row `i` has every key and value of record `i` plus `id`; `id` is `i` unless the record brings its own `id`, which wins |
| `Table.TaggingNotExported` | force-app/main/default/lwc/testCaseGenerator/testCaseGenerator.js:111-115 | the added `id` never reaches the clipboard: exporting the stored rows gives the same result as exporting the records the service returned |
| `Table.ExportOneRow` | force-app/main/default/lwc/testCaseGenerator/testCaseGenerator.js:115 | a one-row table exports as that row's line, with no newline added |
| `Table.ExportFullRowExample` | force-app/main/default/lwc/testCaseGenerator/testCaseGenerator.js:112 | the row `{a: "1", b: "2"}` under the columns `a`, `b` exports as `"1\t2"` |
| `Table.ExportMissingKeyExample` | force-app/main/default/lwc/testCaseGenerator/testCaseGenerator.js:112 | the row `{a: "1"}` under the columns `a`, `b` exports as `"1\t"`: a missing key becomes an empty field |
| `Generator.FallbackToast` | force-app/main/default/lwc/testCaseGenerator/testCaseGenerator.js:137-147 | the legacy copy path reports success exactly when the copy command returned true; a false result and a raised error both give the same error toast |
| `Generator.ClipboardToast` | force-app/main/default/lwc/testCaseGenerator/testCaseGenerator.js:117-126 | a copy of a non-empty table reports success exactly when the secure clipboard took the text or the legacy command succeeded; otherwise it reports the copy-failed error |
| `Generator.TestCaseGenerator.constructor` | force-app/main/default/lwc/testCaseGenerator/testCaseGenerator.js:6-13 | the panel starts with empty text, no schema, an empty table, not busy, nothing dispatched, no call outstanding and no branch taken, so it is quiet |
| `Generator.TestCaseGenerator.IsProcessButtonDisabled` | force-app/main/default/lwc/testCaseGenerator/testCaseGenerator.js:56-58 | the process button is disabled exactly when the busy flag is set, or the text is empty or all whitespace, or no schema is picked; on a quiet panel an enabled button means no call is outstanding |
| `Generator.TestCaseGenerator.IsCopyButtonDisabled` | force-app/main/default/lwc/testCaseGenerator/testCaseGenerator.js:61-63 | the copy button is disabled exactly when the table is empty, which is exactly when the export would be refused |
| `Generator.TestCaseGenerator.HandleInputChange` | force-app/main/default/lwc/testCaseGenerator/testCaseGenerator.js:70-72 | the stored text becomes the new value; the schema, table, busy flag and event log are unchanged |
| `Generator.TestCaseGenerator.HandleOptionChange` | force-app/main/default/lwc/testCaseGenerator/testCaseGenerator.js:74-79 | the schema becomes the new value and the table is emptied, whatever it held; one refresh signal is dispatched; the text and busy flag are unchanged |
| `Generator.TestCaseGenerator.ProcessData` | force-app/main/default/lwc/testCaseGenerator/testCaseGenerator.js:82-88 | the panel becomes busy and the table empty before the request `{input, type}` goes out, so both buttons are disabled; one more call is outstanding; started from the enabled button of a quiet panel, exactly one call is outstanding and the panel stays quiet |
| `Generator.TestCaseGenerator.ResolveProcessing` | force-app/main/default/lwc/testCaseGenerator/testCaseGenerator.js:89-94 | on success the table becomes the tagged records and the success toast is dispatched; the settling call's branch is marked as taken, so the failure branch cannot also run |
| `Generator.TestCaseGenerator.RejectProcessing` | force-app/main/default/lwc/testCaseGenerator/testCaseGenerator.js:95-98 | on failure the error toast is dispatched and the table is left as it was; the settling call's branch is marked as taken |
| `Generator.TestCaseGenerator.SettleProcessing` | force-app/main/default/lwc/testCaseGenerator/testCaseGenerator.js:99-101 | after the success or the failure branch has run, the panel is no longer busy and the call is no longer outstanding |
| `Generator.TestCaseGenerator.Complete` | force-app/main/default/lwc/testCaseGenerator/testCaseGenerator.js:88-101 | a settled call, then/catch/finally in order: the table holds the tagged records on success and is left as it was on failure; exactly one matching toast is dispatched; the panel is not busy; text and schema are unchanged; a quiet panel stays quiet with no call outstanding |
| `Generator.TestCaseGenerator.CopyTableContent` | force-app/main/default/lwc/testCaseGenerator/testCaseGenerator.js:105-127 | an empty table is refused with the "No data to copy!" toast and nothing is handed over; otherwise the export under the picked schema's columns is handed to the clipboard and the toast follows the clipboard's outcome |
| `Generator.TestCaseGenerator.FallbackCopyTextToClipboard` | force-app/main/default/lwc/testCaseGenerator/testCaseGenerator.js:130-151 | exactly one toast is dispatched, chosen by how the legacy copy command ended |
| `Generator.TestCaseGenerator.ShowToast` | force-app/main/default/lwc/testCaseGenerator/testCaseGenerator.js:154-158 | exactly one toast event with the given title, message and variant is dispatched |
| `Generator.TestCaseGenerator.ShowRefresh` | force-app/main/default/lwc/testCaseGenerator/testCaseGenerator.js:78 | exactly one refresh signal is dispatched |
| `Generator.SubmitThenReject` | force-app/main/default/lwc/testCaseGenerator/testCaseGenerator.js:82-101 | a filled-in panel whose call fails at once sends `{input, type}`, ends with an empty table and has its process button enabled again |
| `Generator.SubmitThenCopy` | force-app/main/default/lwc/testCaseGenerator/testCaseGenerator.js:82-127 | after a successful call the table has one row per record with its index as `id`; copying then hands over exactly the export of the returned records under the picked schema's columns |
| `Generator.OptionChangeWhileProcessing` | force-app/main/default/lwc/testCaseGenerator/testCaseGenerator.js:74-101 | a schema change while a call is outstanding does not stop that call's records from filling the table under the new schema |

## Left out

- The processing service (`processInputData`, line 2 and line 88) is a remote call whose behaviour is not visible here. It appears only as its request (`Request`) and its outcome (`CallOutcome`: `Resolved(records)` or `Rejected`).
- Promise scheduling is not modelled. The continuations are methods the caller invokes after `ProcessData`. With several calls outstanding, the caller picks the order in which they settle.
- Values the service returns are modelled as strings or null (`Cell.Str`, `Cell.Null`); `Cell.Num` only carries the added `id`. Numbers, booleans and objects coming from the service are not modelled.
- An exception thrown inside the success continuation (for example, a result that is not a list) would fall into the failure branch. The model assumes the result is a list of records.
- The browser clipboard calls (`navigator.clipboard.writeText`, `window.isSecureContext`, `document.execCommand`) are platform I/O. They are a `ClipboardOutcome` parameter that decides the toast. The text handed over is the method's result.
- The temporary text area of the fallback copy is not modelled: creating it, selecting its text, and removing it in every case are DOM operations.
- Generator.TestCaseGenerator.CopyTableContent: the toasts that follow a non-empty copy are logged at once. In the component the secure clipboard's success toast, and the whole fallback copy after the secure write is rejected (lines 120-123), run only when the asynchronous write settles, after the method has returned. Only the fallback taken because no secure clipboard exists (line 125) runs within the call.
- Toasts and the refresh signal are recorded in the ghost `events` log. How the platform shows them is not modelled.
- `console` logging and the `@track` reactivity decorators have no effect on the component's state, so they are not modelled.
- The commented-out earlier Narwhale column list (lines 26-38) is dead code.
- The picker's `options` list (lines 7-10) is the constant `Table.Options`; `Table.PickerAgrees` ties it to the columns. The template that renders it is not part of this model.
- `displayColumn` returns a fresh copy of the column list; a value model has no identities, so the copy is the list itself.
- `trim()` is modelled with the whitespace code points of ECMAScript written out (`Text.IsWhitespace`). Unicode versions that add space separators are not followed.
