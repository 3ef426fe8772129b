# JSONL viewer: a verified model of its paging core

The program is a desktop JSONL (JSON Lines) viewer. Its Rust back end reads
one page of records from a file, or searches the file for a keyword and
returns one page of the matches. It also serves a synthetic "debug"
dataset and writes generated test files. The React front end keeps the view
state, picks the back-end command for each reload, and draws a pagination
bar and a record table.

This project models that core in Dafny and proves what it promises:

- `models.dfy` (`Models`): JSON values, records as string-keyed maps,
  `PagedResponse`, the `AppError` variants and their display strings.
- `text.dfy` (`Text`): the text helpers the core relies on:
  - decimal formatting and zero padding (Rust `format!`, JavaScript `String`);
  - `trim`, ASCII lowercase and substring search;
  - JavaScript `parseInt`, with leading whitespace, a sign and `0x` hexadecimal.
- `debug.rs` is modelled in `debug.dfy` (`Debug`):
  - the deterministic row generator;
  - the page and simulated-search rules, each as a function plus the loop method that fills the page;
  - the debug data manager, as a class over an optional generator.
- `reader.rs` is modelled in `reader.dfy` (`Reader`):
  - a file is a sequence of lines plus an optional read fault at some line;
  - JSON parsing is a partial function passed in as a parameter;
  - line counting, page loading, keyword search and the reader manager are imperative methods proved against specification functions.
- `debug_commands.rs` is modelled in `debug_commands.dfy` (`DebugCommands`):
  - the command result mapping;
  - the batched test-file writer, whose output is the sequence of records written.
- `PaginationBar.tsx` is modelled in `pagination.dfy` (`Pagination`): the previous, next and page-box guards.
- `DataTable.tsx` is modelled in `datatable.dfy` (`DataTable`):
  - header derivation, as a key union plus a priority sort;
  - cell formatting and the table body.
- `MainView.tsx` is modelled in `mainview.dfy` (`MainView`):
  - the view's state fields, as a class;
  - each asynchronous handler, as a method that takes the back-end outcome as a parameter and runs to completion;
  - the reload effect.

Each state-changing method ensures that its new state equals a transition
function of the old state. The lemmas beside it state the view's behaviour.
The model follows the code as written. In particular, a reload's response
is applied whenever it arrives: there is no request token and no check for
stale responses.

## Model

| member | source | states |
|---|---|---|
| Models.ErrorMessage | src-tauri/src/models/error.rs:4-25 | every error variant displays as a non-empty message (its `#[error]` text) |
| Text.NatToStringRoundTrip | src-tauri/src/jsonl/debug.rs:25-27 | the decimal text of an index reads back as that index |
| Text.ZeroPadRoundTrip | src-tauri/src/jsonl/debug.rs:74 | `{:05}`-style zero padding keeps the digits' value |
| Text.TrimSlice | src-tauri/src/jsonl/reader.rs:185 | `trim` returns a contiguous slice of the line whose cut-off ends are all whitespace |
| Text.TrimEnds | src-tauri/src/jsonl/reader.rs:227 | a trimmed line is empty or starts and ends with non-whitespace |
| Text.Trim | src-tauri/src/jsonl/reader.rs:185 | `trim` returns text no longer than the line, empty or with no whitespace at either end |
| Text.ToLower | src-tauri/src/jsonl/reader.rs:207 | lowercasing keeps the length and maps each ASCII capital to its small letter, leaving every other character |
| Text.ContainsIffOccurs | src-tauri/src/jsonl/reader.rs:230 | `contains` holds exactly when the needle occurs at some position |
| Text.ParseIntRoundTrip | src/components/PaginationBar.tsx:33 | `parseInt` of an integer's decimal text gives back that integer |
| Text.ParseInt | src/components/PaginationBar.tsx:33 | `parseInt` gives no number for text that is blank or starts (after leading whitespace) with anything but a digit or a sign, and a negative number only after a minus sign |
| Debug.NewGenerator | src-tauri/src/jsonl/debug.rs:17-22 | no row count means 10000 rows, otherwise the given count; not loaded |
| Debug.GeneratedKeysOf | src-tauri/src/jsonl/debug.rs:40-85 | every generated record has exactly the eleven keys id, name, email, status, score, visits, isAdmin, isVerified, createdAt, address, tags |
| Debug.GenerateObject | src-tauri/src/jsonl/debug.rs:40-85 | the generated record has an id field, and it is the index (line 44) |
| Debug.GeneratedScalars | src-tauri/src/jsonl/debug.rs:49-63 | visits = index mod 100, isAdmin ⇔ index even, isVerified ⇔ index divisible by 3, score = 10·index + index mod 7, and the status is 活跃, 非活跃, 已封禁 or 待验证 as index mod 4 is 0, 1, 2 or 3 |
| Debug.DateStringWellFormed | src-tauri/src/jsonl/debug.rs:69 | `{}-{:02}-{:02}` gives ten characters with dashes at 4 and 7, and its three fields read back as year, month and day |
| Debug.CreatedAtWellFormed | src-tauri/src/jsonl/debug.rs:66-69 | createdAt is year 2020 + i mod 3, month 1 + i mod 12 (in 1..12), day 1 + i mod 28 (in 1..28) |
| Debug.ZipCodeWellFormed | src-tauri/src/jsonl/debug.rs:72-75 | address.zipCode is five digits whose value is i mod 100000 |
| Debug.PageBounds | src-tauri/src/jsonl/debug.rs:98 | the end of a page is within both start + page size and the total and equals one of them; a page that starts inside the data is non-empty (for a positive page size) and holds at most page size rows |
| Debug.PageOf | src-tauri/src/jsonl/debug.rs:88-109 | page 0 is an error; PageOutOfRange ⇔ (page−1)·size ≥ total rows; otherwise the rows generated for [start, min(start+size, total)) in order, at most `size` of them, with total = total rows |
| Debug.GeneratePage | src-tauri/src/jsonl/debug.rs:100-103 | the filling loop returns exactly `PageOf` |
| Debug.Tabulate | src-tauri/src/jsonl/debug.rs:101-103 | the rows for a range: one per index, in index order |
| Debug.Rows | src-tauri/src/jsonl/debug.rs:101-103 | a page's data is `generate_object(start + k)` at position k, with end − start rows |
| Debug.GenerateRows | src-tauri/src/jsonl/debug.rs:100-103 | the push loop builds exactly `Rows(start, end)` |
| Debug.HighlightedRow | src-tauri/src/jsonl/debug.rs:129-138 | a search row equals the generated record except that name, email or status (by i mod 3) has the keyword and then i appended, so it contains the keyword |
| Debug.Highlighted | src-tauri/src/jsonl/debug.rs:129-138 | the field chosen by i mod 3 is present in the search row and holds a string |
| Debug.SearchOf | src-tauri/src/jsonl/debug.rs:112-147 | matches = rows/5; PageOutOfRange ⇔ start ≥ matches (every page when there are no matches); otherwise the highlighted rows of the page, with total = matches |
| Debug.Search | src-tauri/src/jsonl/debug.rs:124-141 | the filling loop returns exactly `SearchOf` |
| Debug.SearchRows | src-tauri/src/jsonl/debug.rs:125-141 | position k of a search page holds the highlighted row start + k |
| Debug.HighlightRows | src-tauri/src/jsonl/debug.rs:125-141 | the decorating loop builds exactly `SearchRows` |
| Debug.DebugDataManager.constructor | src-tauri/src/jsonl/debug.rs:157-161 | starts with no generator |
| Debug.DebugDataManager.InitDebugData | src-tauri/src/jsonl/debug.rs:164-169 | replaces any previous generator with a new one and succeeds |
| Debug.DebugDataManager.LoadDebugPage | src-tauri/src/jsonl/debug.rs:172-178 | without a generator, a DebugError; otherwise `PageOf` |
| Debug.DebugDataManager.SearchDebug | src-tauri/src/jsonl/debug.rs:181-187 | without a generator, a DebugError; otherwise `SearchOf` |
| Debug.DebugDataManager.DebugTotalRows | src-tauri/src/jsonl/debug.rs:190-196 | without a generator, a DebugError; otherwise the generator's row count |
| Reader.ReadLine | src-tauri/src/jsonl/reader.rs:87-88 | `read_line` reports end of file exactly past the last line, and any line it yields is the one at that position |
| Reader.Throttled | src-tauri/src/jsonl/reader.rs:94-118 | intermediate progress reports carry line counts in 1..n that strictly increase |
| Reader.WindowStep | src-tauri/src/jsonl/reader.rs:180-183 | reading one more line extends the window by that line; at end of file the window is complete |
| Reader.GatherAppend | src-tauri/src/jsonl/reader.rs:180-197 | per-line collection distributes over concatenating lines |
| Reader.GatherSound | src-tauri/src/jsonl/reader.rs:180-197 | everything collected comes from some line |
| Reader.GatherComplete | src-tauri/src/jsonl/reader.rs:180-197 | every line that yields an item contributes it |
| Reader.LineRow | src-tauri/src/jsonl/reader.rs:185-192 | a line yields at most one record, and one exactly when its trimmed text is non-blank and parses; that record is the parse |
| Reader.PageRows | src-tauri/src/jsonl/reader.rs:179-197 | the records of a window number at most its lines |
| Reader.PageRowsAppend | src-tauri/src/jsonl/reader.rs:180-197 | records of consecutive windows concatenate in file order |
| Reader.PageRowsSound | src-tauri/src/jsonl/reader.rs:185-192 | every record on a page is the parse of some line of the window |
| Reader.PageRowsComplete | src-tauri/src/jsonl/reader.rs:185-192 | every line of the window that parses contributes its record |
| Reader.LoadPageAt | src-tauri/src/jsonl/reader.rs:150-203 | PageOutOfRange ⇔ start ≥ total lines; a read fault before the page end is an I/O error; otherwise the parsed records of [start, min(start+size, total)), at most `size`, with total = total lines whatever was skipped |
| Reader.LineMatch | src-tauri/src/jsonl/reader.rs:227-232 | a line yields at most one match, and one exactly when its trimmed text is non-blank and its lowercase form contains the keyword; the match is the trimmed text |
| Reader.Matches | src-tauri/src/jsonl/reader.rs:222-236 | there are at most as many matches as lines |
| Reader.MatchesSound | src-tauri/src/jsonl/reader.rs:227-232 | every match is the trimmed form of some matching line |
| Reader.MatchesComplete | src-tauri/src/jsonl/reader.rs:227-232 | every matching line is among the matches |
| Reader.MatchesAppend | src-tauri/src/jsonl/reader.rs:226-236 | matches of consecutive line ranges concatenate in file order |
| Reader.ParseAll | src-tauri/src/jsonl/reader.rs:250-254 | succeeds ⇔ every line parses, and then holds the parses in order |
| Reader.ParseAllPrefixErr | src-tauri/src/jsonl/reader.rs:252 | the first parse failure decides the result of the whole loop |
| Reader.PageOfMatches | src-tauri/src/jsonl/reader.rs:239-259 | PageOutOfRange ⇔ start ≥ matches > 0; no matches gives an empty page with total 0; otherwise the parsed matches [start, min(start+size, n)), with a JSON error if any fails, and total = number of matches |
| Reader.SearchAt | src-tauri/src/jsonl/reader.rs:206-260 | a read fault anywhere is an I/O error; otherwise `PageOfMatches` over the lines matching the lowercased keyword, which uses the corrected paging for zero matches (see Findings), not the code as written |
| Reader.ReadPage | src-tauri/src/jsonl/reader.rs:170-197 | error ⇔ a read fault before the page end; otherwise the records of the window |
| Reader.SkipLines | src-tauri/src/jsonl/reader.rs:173-176 | skipping fails ⇔ a fault lies among the skipped lines, with its message |
| Reader.ReadRows | src-tauri/src/jsonl/reader.rs:179-197 | the read loop returns the window's records or the fault's message |
| Reader.ScanMatches | src-tauri/src/jsonl/reader.rs:222-236 | the scan loop returns exactly `Matches`, or the I/O error of a fault |
| Reader.PageMatches | src-tauri/src/jsonl/reader.rs:239-259 | the paging of the matches returns exactly `PageOfMatches` |
| Reader.ParseEach | src-tauri/src/jsonl/reader.rs:250-254 | the parse loop returns exactly `ParseAll` |
| Reader.SearchFrom | src-tauri/src/jsonl/reader.rs:206-260 | scan then page returns exactly `SearchAt` |
| Reader.JsonlReader.constructor | src-tauri/src/jsonl/reader.rs:24-47 | a new reader for the path with a line count of 0 |
| Reader.JsonlReader.CountLinesWithProgress | src-tauri/src/jsonl/reader.rs:50-142 | on success the count and `total_lines` are the number of lines, and the reports are 0, some increasing counts, then a final report with current = total = count; a read fault is an I/O error that leaves `total_lines` unchanged; reported counts never decrease |
| Reader.JsonlReader.TotalLines | src-tauri/src/jsonl/reader.rs:145-147 | returns the counted line total |
| Reader.JsonlReader.LoadPage | src-tauri/src/jsonl/reader.rs:150-203 | returns `LoadPageAt` at start (page−1)·size |
| Reader.JsonlReader.Search | src-tauri/src/jsonl/reader.rs:206-260 | returns `SearchAt` at start (page−1)·size, so it follows the corrected zero-match paging of `PageOfMatches` (see Findings), not the code as written |
| Reader.JsonlReaderManager.constructor | src-tauri/src/jsonl/reader.rs:270-274 | starts with no reader |
| Reader.JsonlReaderManager.SetReaderWithProgress | src-tauri/src/jsonl/reader.rs:285-300 | a missing file is FileNotFound; the new reader is installed, with its lines counted, only when counting succeeds; on failure the previous reader stays |
| Reader.JsonlReaderManager.LoadPage | src-tauri/src/jsonl/reader.rs:303-309 | with no reader, an error; otherwise the current reader's page |
| Reader.JsonlReaderManager.Search | src-tauri/src/jsonl/reader.rs:312-318 | with no reader, an error; otherwise the current reader's search |
| Reader.JsonlReaderManager.TotalLines | src-tauri/src/jsonl/reader.rs:321-327 | with no reader, an error; otherwise its line total |
| Reader.SearchCapacityAsWritten | src-tauri/src/jsonl/reader.rs:249 | the capacity `end_idx − start_idx` underflows ⇔ start > min(start+size, matches) |
| Reader.ZeroMatchesLaterPageUnderflows | src-tauri/src/jsonl/reader.rs:240-249 | past the range guard, the underflow happens ⇔ there are no matches, page ≥ 2 and size ≥ 1 |
| Reader.ZeroMatchesGiveEmptyPage | src-tauri/src/jsonl/reader.rs:244-246 | with no matches every page is empty with total 0 |
| DebugCommands.ToCommandResult | src-tauri/src/commands/debug_commands.rs:27-29 | success keeps its value; an error becomes its non-empty display string |
| DebugCommands.InitDebugDataCommand | src-tauri/src/commands/debug_commands.rs:10-18 | answers Ok(true) and installs a generator of the given size |
| DebugCommands.LoadDebugPageCommand | src-tauri/src/commands/debug_commands.rs:22-30 | the manager's page, with errors as strings |
| DebugCommands.SearchDebugPageCommand | src-tauri/src/commands/debug_commands.rs:34-43 | the manager's search, with errors as strings |
| DebugCommands.DebugTotalRowsCommand | src-tauri/src/commands/debug_commands.rs:47-53 | the manager's row count, with errors as strings |
| DebugCommands.BatchSizesShape | src-tauri/src/commands/debug_commands.rs:93-107 | there are ceil(lines/1000) batches, their sizes sum to `lines`, each is in 1..1000, and all but the last are 1000 |
| DebugCommands.BatchSizes | src-tauri/src/commands/debug_commands.rs:99-104 | there are no batches exactly when there are no lines, and at most one batch per line (the sizes themselves are in `BatchSizesShape`) |
| DebugCommands.Renumber | src-tauri/src/commands/debug_commands.rs:137-143 | only a non-negative integer `id` is replaced; every other field and key is kept |
| DebugCommands.FileRowIds | src-tauri/src/commands/debug_commands.rs:131-144 | record k of the file has id k |
| DebugCommands.FileRowFields | src-tauri/src/commands/debug_commands.rs:131-144 | record k of the file has the keys of generated record k mod 1000, and every field but the id has that record's value |
| DebugCommands.FileRowsRepeat | src-tauri/src/commands/debug_commands.rs:114-129 | apart from the id, record k + 1000 repeats record k |
| DebugCommands.RenumberBatch | src-tauri/src/commands/debug_commands.rs:132-144 | record i of a batch is renumbered to offset + i |
| DebugCommands.BatchIsFileRows | src-tauri/src/commands/debug_commands.rs:124-141 | a renumbered batch at a multiple of 1000 is exactly the file's records at those positions |
| DebugCommands.GenerateBatch | src-tauri/src/commands/debug_commands.rs:116-144 | re-initialises the generator to the batch size and yields the file records offset..offset+size−1 |
| DebugCommands.FileRowsExtend | src-tauri/src/commands/debug_commands.rs:154 | appending the next batch keeps the output equal to the file's records 0..n−1 |
| DebugCommands.WriteBatches | src-tauri/src/commands/debug_commands.rs:99-173 | the batches are exactly the plan of `BatchSizesShape` (none for 0 lines), and the records written are the file's records 0..lines−1 in order |
| DebugCommands.BatchesStep | src-tauri/src/commands/debug_commands.rs:162-164 | one batch (of the size chosen at line 103) of min(1000, remaining) advances the plan |
| DebugCommands.BatchesDone | src-tauri/src/commands/debug_commands.rs:102-107 | the loop ends with every planned batch written |
| DebugCommands.GenerateTestJsonl | src-tauri/src/commands/debug_commands.rs:57-185 | a missing parent directory fails before the generator is touched or anything is written; a create error fails after the first re-initialisation; otherwise the success message, all planned batches, the records 0..lines−1, and a generator of `lines` rows at the end |
| Pagination.ButtonsMatchGuards | src/components/PaginationBar.tsx:19-58 | a button is disabled exactly when clicking it would ask for nothing, and an enabled button asks for the neighbouring page |
| Pagination.PrevClick | src/components/PaginationBar.tsx:19-23 | "previous" emits a page exactly when the current page is above 1, and that page is the current page − 1 (at least 1) |
| Pagination.NextClick | src/components/PaginationBar.tsx:25-29 | "next" emits a page exactly when the current page is below the page count, and that page is the current page + 1 (at most the page count) |
| Pagination.SubmitTarget | src/components/PaginationBar.tsx:33-35 | submit asks for the parsed page ⇔ it is a number in [1, totalPages] |
| Pagination.EmittedPagesInRange | src/components/PaginationBar.tsx:19-40 | every page asked for lies in [1, totalPages] when 0 ≤ currentPage ≤ totalPages + 1; with no pages, next and submit ask for nothing |
| Pagination.PrevCanLeaveRange | src/components/PaginationBar.tsx:19-23 | past that bound "previous" can ask for a page beyond the last |
| Pagination.PaginationBar.constructor | src/components/PaginationBar.tsx:17 | the box starts with the current page's text |
| Pagination.PaginationBar.SetPageInput | src/components/PaginationBar.tsx:70 | typing replaces the box's text |
| Pagination.PaginationBar.HandlePageSubmit | src/components/PaginationBar.tsx:31-40 | asks for `SubmitTarget` of the typed text; on rejection the box is reset to the current page |
| Pagination.ResubmitAfterReset | src/components/PaginationBar.tsx:36-39 | after a reset, submitting again asks for the current page exactly when it is valid |
| DataTable.KeysOfMembers | src/components/DataTable.tsx:23-27 | a key is a header ⇔ some row has it |
| DataTable.CollectKeys | src/components/DataTable.tsx:24-27 | the nested loops collect exactly the union of the rows' keys |
| DataTable.IndexOf | src/components/DataTable.tsx:34-35 | `indexOf` is −1 ⇔ absent, and otherwise the first position of the key |
| DataTable.PrecedesIsStrictTotalOrder | src/components/DataTable.tsx:33-41 | the comparator is irreflexive, antisymmetric on distinct keys and transitive |
| DataTable.Compare | src/components/DataTable.tsx:33-41 | the comparator is 0 exactly for equal keys, and puts a priority key before any other key |
| DataTable.Least | src/components/DataTable.tsx:33-41 | picks the key that precedes every other |
| DataTable.SortHeaders | src/components/DataTable.tsx:33-41 | the sorted headers are strictly ordered by the comparator and hold exactly the keys |
| DataTable.Headers | src/components/DataTable.tsx:23-42 | the headers list each key of the data once, in comparator order |
| DataTable.SortedUnique | src/components/DataTable.tsx:33-41 | there is only one such header order |
| DataTable.PriorityFirst | src/components/DataTable.tsx:30-40 | priority keys come first, in the priority list's order, then the other keys in string order |
| DataTable.FormatValue | src/components/DataTable.tsx:49-54 | a cell shows "..." exactly for an object or array (or that string), "是" exactly for true (or that string) and "否" exactly for false (or that string) |
| DataTable.Cell | src/components/DataTable.tsx:79 | a header the record lacks shows "-", and a present one shows its value formatted |
| DataTable.FormatValueReadsBack | src/components/DataTable.tsx:49-54 | for numbers modelled as integers, a number's cell reads back as the number, a string is shown as itself, and "-" means missing or null (or the string "-") |
| DataTable.Body | src/components/DataTable.tsx:69-80 | no data gives one placeholder spanning headers + 1 columns; otherwise one row per record with each header's formatted cell |
| DataTable.BodyWidth | src/components/DataTable.tsx:69-80 | every body row spans headers + 1 columns |
| MainView.CeilDiv | src/components/MainView.tsx:111 | `Math.ceil(total / pageSize)` is the least integer at or above the quotient, for either sign of pageSize |
| MainView.OrDefault | src/components/MainView.tsx:403 | (and line 483) `parseInt(text) \|\| fallback`: the parsed number unless it is missing or 0, and never 0 |
| MainView.PageCall | src/components/MainView.tsx:81-107 | the command: a debug command ⇔ debug mode, a search ⇔ a non-empty keyword, carrying the page, page size and keyword |
| MainView.AfterLoad | src/components/MainView.tsx:68-119 | with no file and no debug mode nothing changes; otherwise loading stops and progress clears, success stores the data and ceil(total/pageSize) pages, failure keeps them, and nothing else changes |
| MainView.AfterOpenFile | src/components/MainView.tsx:133-196 | in debug mode it leaves debug mode; a cancelled dialog changes nothing; `true` selects the file at page 1 with no keyword, anything else keeps the file; the loading flags are reset |
| MainView.AfterToggleDebug | src/components/MainView.tsx:199-222 | leaving debug mode clears file and data; entering succeeds ⇔ init succeeds, then with no file, page 1 and no keyword; a failure only stops loading |
| MainView.AfterSearch | src/components/MainView.tsx:127-130 | a search sets the keyword and goes back to page 1, changing nothing else |
| MainView.LeaveDebug | src/components/MainView.tsx:135-140 | leaving debug mode clears the debug flag, the file and the records, leaving no source, and changes nothing else |
| MainView.AfterClose | src/components/MainView.tsx:371-374 | closing leaves no file and no debug mode, so no source, and changes nothing else |
| MainView.AfterEffect | src/components/MainView.tsx:275-279 | the effect changes nothing unless its dependencies changed and there is a source; when it fires, the state is the outcome of loading the current page; the dependencies stay as they were |
| MainView.View.constructor | src/components/MainView.tsx:27-47 | the initial state: page 1, page size 100, no pages, no data, no file, not debugging, 1000 lines |
| MainView.View.LoadPageData | src/components/MainView.tsx:68-119 | issues `PageCall` when there is a source, and updates the state by `AfterLoad` |
| MainView.View.HandlePageChange | src/components/MainView.tsx:122-124 | sets the page with no check; nothing else changes |
| MainView.View.HandleSearch | src/components/MainView.tsx:127-130 | sets the keyword and page 1 |
| MainView.View.HandleOpenFile | src/components/MainView.tsx:133-196 | calls `set_jsonl_file` only for a selected file outside debug mode; state by `AfterOpenFile` |
| MainView.View.ToggleDebugMode | src/components/MainView.tsx:199-222 | calls `init_debug_data` with 10000 rows only when entering; state by `AfterToggleDebug` |
| MainView.View.Close | src/components/MainView.tsx:371-374 | clears the file and debug mode |
| MainView.View.SetPageSize | src/components/MainView.tsx:403 | page size becomes `parseInt(text) \|\| 100`, which is never 0 |
| MainView.View.SetLineCount | src/components/MainView.tsx:483 | line count becomes `parseInt(text) \|\| 1000` |
| MainView.View.GenerateFile | src/components/MainView.tsx:238-272 | calls `generate_test_jsonl` with the line count only when a save path was chosen |
| MainView.View.RunEffect | src/components/MainView.tsx:275-279 | reloads the current page exactly when a dependency changed and there is a source |
| MainView.LoadDoesNotRetrigger | src/components/MainView.tsx:275-279 | a completed load (lines 110-118) changes no dependency of the effect, so it triggers no further load |
| MainView.LastCompletionWins | src/components/MainView.tsx:110-111 | of two loads, the one that completes last decides the data, whatever page it was for; a later failure keeps the earlier data |
| MainView.SearchReloadsFirstPage | src/components/MainView.tsx:127-130 | through the effect at lines 275-279, a new keyword, or any search from a later page, reloads page 1 (a search call ⇔ the keyword is non-empty); repeating the same keyword on page 1 issues nothing |
| MainView.PageSizeChangeDoesNotReload | src/components/MainView.tsx:403 | with the effect's dependencies at line 279, changing the page size neither reloads nor changes the page count |
| MainView.LeavingDebugBothWays | src/components/MainView.tsx:135-140 | (and lines 200-204) leaving debug mode through the open button and through the toggle is the same transition, with no back-end call and no reload |
| MainView.OpenedFileLoadsFirstPage | src/components/MainView.tsx:175-178 | through the effect at lines 275-279, a successful open triggers loading page 1 of the file |
| MainView.ReopenSameFileNoReload | src/components/MainView.tsx:175-178 | through the effect at lines 275-279, reopening the file already shown on page 1 issues no reload |
| MainView.FailedOpenKeepsFile | src/components/MainView.tsx:180-191 | a failed open keeps the file, page and keyword |
| MainView.EnteringDebugLoadsFirstPage | src/components/MainView.tsx:207-219 | through the effect at lines 275-279, entering debug mode calls init with 10000 rows and then loads debug page 1; a failed init loads nothing |
| MainView.CloseKeepsData | src/components/MainView.tsx:371-374 | closing leaves no source and issues no reload, but the old records stay in the state |
| MainView.PageCountMatchesBackend | src/components/MainView.tsx:111 | page p ≥ 1 starts inside the data ⇔ p ≤ ceil(total/pageSize) |
| MainView.DebugPagesInRange | src/components/MainView.tsx:111 | a debug page loads ⇔ its number is at most the page count the view computes |

## Behaviour of the code worth noting

- A reload has no request token and no stale-response check. The response that completes last is shown (`MainView.LastCompletionWins`).
- There is no error status in the view. A failed load only raises an alert, and loading stops.
- `handlePageChange` does not clamp the page to [1, totalPages].
- Changing the page size neither reloads nor recomputes the page count (`MainView.PageSizeChangeDoesNotReload`).
- A failed open keeps the previously selected file. It does not fall back to "no source" (`MainView.FailedOpenKeepsFile`).
- Closing clears the source but keeps the old records in `fileData` (`MainView.CloseKeepsData`).
- Entering debug mode does not reset `loadingProgress`.
- The page-size setter accepts any non-zero number `parseInt` reads, negative numbers included. The bounds 10 to 1000 are only input attributes.
- Repeating the same keyword reloads nothing only when already on page 1. From a later page it resets to page 1, and the page change triggers a reload.

## Left out

- DataTable.FormatValueReadsBack: numbers are integers only. JavaScript's `String` writes a number of magnitude 10^21 or more in exponent form ("1e+21") and writes fractions with a decimal point; neither rendering is modelled.
- DataTable.Body: a cell looks up `row[header]` on a plain JavaScript object, so a header such as "constructor" or "__proto__" finds an inherited `Object.prototype` member (shown as function text or "..."). The model looks up own keys only and shows "-" for such a header.
- Unicode case mapping: `Text.ToLower` lowercases ASCII letters only, where Rust's `to_lowercase` maps all of Unicode.
- `DataTable.SortHeaders`: `localeCompare` is replaced by code-unit order. This is a strict total order, but not the locale's.
- `Reader.JsonlReader.CountLinesWithProgress`: progress reports keep only the integer line count. The `f32` percentage and the estimated totals are not modelled. The 100 ms throttling is an arbitrary predicate over line counts.
- `Reader.JsonlReader.LoadPage`, `Reader.JsonlReader.Search` and `Debug.Search` require page ≥ 1. Page 0 underflows `usize` in Rust.
- `Debug.NewGenerator` and the other members take unbounded naturals. `usize`, `u64` and `i64` bounds are not modelled.
- File handling is reduced to a sequence of lines with an optional read fault. Opening, seeking, locking the file handle and reading metadata are not modelled, nor are their own error paths.
- JSON parsing is a function parameter. `serde_json` itself is not modelled.
- `DebugCommands.GenerateTestJsonl`:
  - serialising, writing and flushing records cannot fail in the model;
  - the missing directory and the create error are inputs;
  - the written file is the sequence of records, not its text.
- Locks (`Arc<Mutex>`, the Tokio mutex) are left out. Each manager call runs alone.
- Asynchronous interleaving in the view is left out. Each handler runs to completion with its back-end outcome given as a parameter. An overlap shows up only as the order in which outcomes are applied.
- The progress events sent while a file is opening are left out, as are the `listen` subscription that shows them.
- Also out: alerts, console logging and the dialogs (which become their outcomes), and the dark mode, settings and view switches.
- The `set_jsonl_file` command wrapper is not part of this model: `MainView.View.HandleOpenFile` takes its answer as a parameter.
- The rendering components with no decisions of their own are not part of this model.

## Findings

| source | as written | input that shows it | evidently intended | confidence | as-written member | corrected member |
|---|---|---|---|---|---|---|
| src-tauri/src/jsonl/reader.rs:249 | `Vec::with_capacity(end_idx - start_idx)` runs after a guard that lets every page through when there are no matches, so `end_idx` = 0 < `start_idx` and the `usize` subtraction underflows (a panic in both builds: an overflow panic in debug builds, and in release builds the wrapped length makes `Vec::with_capacity` panic with "capacity overflow") | a search with no matching line, page 2, page size 1 | with no matches any page is empty with total 0, as the guard at lines 244-246 means | not executed | Reader.SearchCapacityAsWritten, Reader.ZeroMatchesLaterPageUnderflows | Reader.PageOfMatches, Reader.ZeroMatchesGiveEmptyPage |
