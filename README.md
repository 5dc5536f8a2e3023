# vive-file-viewer: a verified model of the session core

vive-file-viewer is a terminal file viewer. A session shows:
- one directory's listing (directories first, names compared case-insensitively, hidden files optional);
- a syntax-highlighted preview of the selected file;
- a fuzzy search over the tree below the start directory.

Key presses are routed by an input mode (`Normal`, `SearchInput`, `SearchResult`, `Preview`, plus `Help` and `JumpInput`).

This project models the core of that program in Dafny and proves what it promises:

| module | file | models |
|---|---|---|
| `FileBrowsing` | `file_browser.dfy` | `FileBrowser`, a class over `currentDir`, `entries`, `selectedIndex` and `showHidden`; `refresh` is a push loop followed by a sort |
| `Searching` | `search.dfy` | `FileSearcher::search`: the walk loop, the filters, the descending sort by score and the cap |
| `Previewing` | `preview.dfy` | `is_binary`, and `Previewer::preview` with its two loops (reading lines under a line and byte budget, then highlighting and numbering) |
| `Application` | `app.dfy` | `App`, a class whose methods update the mode, the search state, the preview and its scroll, the status line and the browser |
| `Dispatch` | `dispatch.dfy` | the per-mode key match and the event loop of `run_app` |

Supporting modules:
- `Common`: `Option`, `Min`/`Max`, and `saturating_sub` as `SatSub`.
- `Text`: ASCII lower-casing and lexicographic string order.
- `Paths`: paths as sequences of components, with `parent`, `file_name`, `join` and `strip_prefix`.
- `Sorting`: `sort_by` as an insertion sort over a total preorder, proved sorted and a permutation.

Everything outside the process is a parameter:
- `fs::read_dir` with `metadata` (a `Lister`);
- `canonicalize`;
- what opening a path yields (a `FileSource`: not a file, an open error, or the first read plus the remaining lines);
- the highlighter;
- the searcher;
- the editor's outcome.

`App` methods take these bundled as an `Env`.

## Model

| member | source | states |
|---|---|---|
| Text.LexLeTotal | src/file_browser.rs:62 | any two lower-cased names are comparable under `str::cmp` |
| Text.LexLeTransitive | src/file_browser.rs:62 | the name order is transitive |
| Text.LexLeAntisymmetric | src/file_browser.rs:62 | two names ordered both ways are equal |
| Paths.Child | src/file_browser.rs:51 | an entry's path lies in the listed directory and ends in the entry's name |
| Paths.ParentFileName | src/file_browser.rs:117-121 | `parent` and `file_name` are `None` exactly at the root; elsewhere the parent is a strict prefix one component shorter, and joining the file name to it gives back the path |
| Paths.DisplayPath | src/search.rs:64-68 | the display path is empty exactly when the walked path is the base directory itself (or the base plus an empty component) |
| Sorting.InsertedSorted | src/file_browser.rs:59-63 | putting an element between its lower and upper neighbours keeps a sorted sequence sorted |
| Sorting.Insert | src/file_browser.rs:59-63 | one insertion step of the sort: the result is sorted and holds the old elements plus the new one |
| Sorting.SortBy | src/search.rs:90 | `sort_by` returns a permutation of its input that is sorted by the comparator |
| FileBrowsing.VisibleFrom | src/file_browser.rs:49-57 | every pushed entry comes from a `read_dir` entry whose metadata was readable and which passed the hidden filter |
| FileBrowsing.VisibleHas | src/file_browser.rs:49-57 | every readable `read_dir` entry that passes the hidden filter is pushed |
| FileBrowsing.VisibleMembers | src/file_browser.rs:49-57 | the pushed entries are exactly the shown raw entries (both directions) |
| FileBrowsing.ShowingHiddenAddsEntries | src/file_browser.rs:52 | turning the hidden filter off never lists fewer entries, and lists strictly more when a readable hidden entry exists |
| FileBrowsing.ListingFiltered | src/file_browser.rs:49-57 | with hidden files off no listed name starts with `.`; every entry's path is the directory joined with its name |
| FileBrowsing.EntryOrderIsPreorder | src/file_browser.rs:59-63 | the `refresh` comparator is total and transitive, so sorting by it is well defined |
| FileBrowsing.SortedMeansDirsFirstByName | src/file_browser.rs:59-63 | a sequence sorted by the comparator has every directory before every file, and lower-cased names non-decreasing within each group |
| FileBrowsing.CollectEntries | src/file_browser.rs:49-57 | the push loop produces exactly the visible entries in `read_dir` order |
| FileBrowsing.SortEntries | src/file_browser.rs:59-63 | the sort keeps the same entries, puts directories first and orders each group by lower-cased name |
| FileBrowsing.PositionOfName | src/file_browser.rs:127 | `position` finds the first entry with the name, and `None` means no entry has it |
| FileBrowsing.Reselect | src/file_browser.rs:123-130 | after going up, the selection is in range and lands on the directory just left when the parent lists it |
| FileBrowsing.WrapInverse | src/file_browser.rs:70-90 | on a non-empty list moving up and moving down stay in range and undo each other |
| FileBrowsing.Clamp | src/file_browser.rs:65-67 | `refresh` keeps an in-range index and otherwise moves it to the last entry (0 on an empty list) |
| FileBrowsing.FileBrowser.SelectedEntry | src/file_browser.rs:100-102 | an entry is selected exactly when the index is in range, and on a valid browser exactly when the list is non-empty |
| FileBrowsing.FileBrowser.constructor | src/file_browser.rs:34-44 | the new browser lists the canonical directory (the given path when canonicalizing fails) in order, selection 0 |
| FileBrowsing.FileBrowser.Refresh | src/file_browser.rs:46-68 | entries become a permutation of the directory's visible listing, ordered dirs-first by name, hidden-free when the filter is on; the selection is clamped |
| FileBrowsing.FileBrowser.MoveUp | src/file_browser.rs:70-79 | no-op on an empty list, otherwise one up with wrap from 0 to the last entry |
| FileBrowsing.FileBrowser.MoveDown | src/file_browser.rs:81-90 | no-op on an empty list, otherwise one down with wrap from the last entry to 0 |
| FileBrowsing.FileBrowser.GoToTop | src/file_browser.rs:92-94 | selection 0 |
| FileBrowsing.FileBrowser.GoToBottom | src/file_browser.rs:96-98 | selection is the last index, saturating at 0 |
| FileBrowsing.FileBrowser.EnterDirectory | src/file_browser.rs:104-114 | returns true iff a directory is selected; it then lists that directory with selection 0; on false nothing changes |
| FileBrowsing.FileBrowser.GoParent | src/file_browser.rs:116-134 | false and no change at the root; otherwise lists the parent and selects the directory just left when it is listed, else 0 |
| FileBrowsing.FileBrowser.ToggleHidden | src/file_browser.rs:136-139 | flips the filter and re-lists the same directory under it |
| Searching.CandidateMeaning | src/search.rs:48-87 | a walked path is pushed exactly when it passes the dir-only filter, has a name and a non-empty display path, and is scored; the score is the matcher's for the relative path when the query contains `/` and for the bare name otherwise (search.rs:75); the result carries that path, display path, score and kind |
| Searching.CandidateFrom | src/search.rs:79-86 | every collected result was pushed for one walked path |
| Searching.CandidateHas | src/search.rs:79-86 | every walked path the loop accepts is collected |
| Searching.CandidatesMembers | src/search.rs:48-87 | the collected results are exactly the accepted walked paths' results (both directions) |
| Searching.CandidateAdmissible | src/search.rs:53-72 | a collected result has a non-empty display path and, in dir-only mode, is a directory |
| Searching.ScoreEntry | src/search.rs:49-86 | one pass of the loop body, with its three `continue`s, pushes the candidate's result or nothing |
| Searching.CollectCandidates | src/search.rs:48-87 | the walk loop collects the accepted candidates in walk order |
| Searching.Search | src/search.rs:26-93 | empty query gives no results; otherwise min(candidates, cap) results, drawn from the candidates, in descending score, each admissible, none outscored by a dropped candidate |
| Searching.TruncatedKeepsBest | src/search.rs:90-91 | truncating a score-sorted list keeps results scoring at least as high as every dropped one |
| Previewing.OccurrencesIsMultiplicity | src/preview.rs:144 | the filter-and-count of a byte equals its multiplicity |
| Previewing.IsBinary | src/preview.rs:142-146 | binary iff zero bytes among the first min(len, 8000) exceed a tenth of that length; empty input is not binary |
| Previewing.BinaryIgnoresTail | src/preview.rs:60-64 | bytes after the first 8000 never change the verdict |
| Previewing.ZeroFreeIsText | src/preview.rs:142-146 | content without a zero byte is never binary |
| Previewing.SplitLinesJoin | src/preview.rs:118 | `LinesWithEndings` loses nothing: the lines joined are the text |
| Previewing.SplitLinesShape | src/preview.rs:118 | each split line is non-empty, holds a line feed only at its end, and all but the last end with one |
| Previewing.LineCountFirstLine | src/preview.rs:81 | cutting off the first line lowers `lines().count()` by exactly one |
| Previewing.SplitLinesCount | src/preview.rs:81-118 | `LinesWithEndings` yields exactly as many lines as `lines().count()` counts |
| Previewing.AppendLineCount | src/preview.rs:86-88 | appending one read line and a line feed adds at most one line |
| Previewing.AssembledTextBounded | src/preview.rs:80-92 | the reading loop only appends to the header, and never pushes the line count past max(header's count, `max_lines`) |
| Previewing.NumberLines | src/preview.rs:118-136 | min(lines, `max_lines`) preview lines, the i-th numbered i+1 and carrying the highlighter's segments for line i |
| Previewing.PreviewOf | src/preview.rs:35-139 | a non-file, an open error and binary content each give one line numbered 0 with its message; text gives at most `max_lines` lines numbered from 1; a line numbered 0 appears exactly in the sentinel cases |
| Previewing.ReadRest | src/preview.rs:76-92 | the reading loop (line cap, 10 MiB budget, stop on a read error) produces the specified text |
| Previewing.HighlightLines | src/preview.rs:115-136 | the highlighting loop produces the numbered lines, stopping at the cap |
| Previewing.Preview | src/preview.rs:35-139 | `preview` returns the specified preview of the path's content |
| Application.ScrolledUp | src/app.rs:268-270 | scrolling up never passes the top and moves by exactly the amount unless it reaches 0 |
| Application.ScrolledDown | src/app.rs:272-277 | scrolling down stops where the last page starts, never moves back from an in-bound position, and moves by the amount unless it hits that bound |
| Application.SearchStepUp | src/app.rs:254-259 | moving up in the results never wraps: one up, or stays at 0 |
| Application.SearchStepDown | src/app.rs:261-266 | moving down never wraps and never passes the last result |
| Application.DirsOf | src/app.rs:197-199 | `retain(is_dir)` keeps exactly the directory results and nothing else |
| Application.RetainDirs | src/app.rs:197-199 | the in-place `retain` loop keeps the directory results in order |
| Application.LookupMissDesyncs | src/app.rs:230-236 | as written, a result the new listing lacks leaves the list widget on its old row while the browser selects row 0 |
| Application.OpenBrowser | src/app.rs:224 | a new browser lists the canonical directory with selection 0 and the configured hidden filter |
| Application.PreviewSelected | src/app.rs:81-92 | a preview exists exactly when a file is selected, and is then that file's preview |
| Application.App.constructor | src/app.rs:43-79 | a fresh session: Normal mode, empty search, selection 0 in both browser and widget, scroll 0, height 20, preview of the selection |
| Application.App.UpdatePreview | src/app.rs:81-92 | the scroll returns to 0 and the preview exists exactly for a selected file, built from that file |
| Application.App.SelectAndPreview | src/app.rs:96-97 | the list widget follows the browser's selection and the preview is rebuilt |
| Application.App.MoveUp | src/app.rs:94-98 | wrapping move up; widget in sync; preview rebuilt; listing untouched |
| Application.App.MoveDown | src/app.rs:100-104 | wrapping move down; widget in sync; preview rebuilt; listing untouched |
| Application.App.GoToTop | src/app.rs:106-110 | selection 0; widget in sync; preview rebuilt |
| Application.App.GoToBottom | src/app.rs:112-116 | selection on the last entry; widget in sync; preview rebuilt |
| Application.App.Enter | src/app.rs:118-130 | a selected file enters Preview leaving the browser and preview alone; a directory is entered and listed with selection 0; no selection does nothing |
| Application.App.ExitPreview | src/app.rs:132-134 | back to Normal |
| Application.App.GoParent | src/app.rs:136-141 | at the root nothing changes; otherwise the parent is listed with the directory just left reselected |
| Application.App.ToggleHidden | src/app.rs:143-147 | the filter flips and the same directory is re-listed, selection clamped |
| Application.App.Reload | src/app.rs:149-154 | the same directory is re-listed, selection clamped, and the status reads "Reloaded" |
| Application.App.OpenInEditor | src/app.rs:156-170 | only a selected file is opened; the editor's failure message becomes the status, and success leaves the status alone |
| Application.App.StartSearch | src/app.rs:172-179 | SearchInput with empty input and results, selection 0 and the requested dir-only flag |
| Application.App.CancelSearch | src/app.rs:181-186 | Normal with empty input and results and the dir-only flag off |
| Application.App.ExecuteSearch | src/app.rs:189-211 | empty input cancels; otherwise the searcher's results for the input (directories only when asked) with selection 0, SearchResult if any, else Normal with "No results found" |
| Application.App.ShowResults | src/app.rs:201-210 | stores the results with selection 0; no results means Normal with the no-results status |
| Application.App.OpenResultDirectory | src/app.rs:223-226 | a directory result re-roots the browser there with selection 0 in both browser and widget |
| Application.App.OpenResultFile | src/app.rs:227-240 | a file result re-roots the browser at its parent with the file selected when listed, then shows Preview |
| Application.App.SelectNamed | src/app.rs:230-236 | the lookup as written: the browser selects the first entry with the name; the widget moves only when it is found |
| Application.App.SelectNamedSynced | src/app.rs:230-236 | the corrected lookup: the same browser selection, with the widget always following it |
| Application.App.ConfirmSearchResult | src/app.rs:214-244 | an out-of-range selection cancels the search; a directory result re-roots in Normal; a file result re-roots at its parent and enters Preview; input and results are cleared |
| Application.App.SearchInputChar | src/app.rs:246-248 | appends the character to the query |
| Application.App.SearchInputBackspace | src/app.rs:250-252 | drops the query's last character, if any |
| Application.App.SearchMoveUp | src/app.rs:254-259 | moves up without wrapping; the result widget follows |
| Application.App.SearchMoveDown | src/app.rs:261-266 | moves down without wrapping and never past the last result |
| Application.App.ScrollPreviewUp | src/app.rs:268-270 | the scroll saturates at 0 |
| Application.App.ScrollPreviewDown | src/app.rs:272-277 | no-op without a preview; otherwise stops at the last page's start; the scroll stays within the preview |
| Application.App.SetPreviewHeight | src/app.rs:279-281 | records the height without re-clamping, and the session invariant still holds |
| Application.App.Quit | src/app.rs:283-285 | sets the quit flag |
| Actions.SessionAfterValid | src/app.rs:254-266 | no arm leaves result selection on a result that does not exist: the search invariant survives every action |
| Actions.DeleteUndoesInsert | src/app.rs:246-252 | appending a character and then popping one gives back the session |
| Actions.CancelIdempotent | src/app.rs:181-186 | cancelling twice is cancelling once, and a cancelled session is in Normal with no results |
| Actions.ExecuteSearchOutcome | src/app.rs:189-211 | a search of a non-empty query starts on the first result, keeps the query and the flag, selects results exactly when some are kept, and keeps only the searcher's results (directories only when asked) |
| Actions.MovedInRange | src/file_browser.rs:70-98 | the list moves keep the selection in range, and a move down is undone by a move up |
| Actions.ScrollAfterBounded | src/main.rs:138-175 | no preview arm scrolls past the preview's end; without a preview only `g` and the upward scrolls move the scroll |
| Actions.StatusAfterSources | src/app.rs:149-211 | the status line is set exactly by reloading, by a non-empty search that keeps nothing, and by a failed editor on a selected file |
| Dispatch.RouteList | src/main.rs:64-120 | in the list only `q` and Ctrl+C quit and only `e` opens the editor; no list key edits a query, cancels a search or scrolls or leaves the preview |
| Dispatch.RoutePreview | src/main.rs:138-183 | in the preview only Ctrl+C quits and only `e` opens the editor; every other key scrolls, leaves or is ignored; a scroll step is at most max(1, height), and 0 only when the height is at most 2 |
| Dispatch.RouteQuery | src/main.rs:184-201 | while typing, Enter runs the search, Ctrl+C cancels and every other character is inserted; only query and search arms are reachable |
| Dispatch.RouteResults | src/main.rs:202-224 | on the results Enter confirms, Ctrl+C cancels and no key runs a search; only search arms are reachable |
| Dispatch.Route | src/main.rs:63-225 | which arm a key takes in each mode: quitting only by `q`/Ctrl+C in Normal and Ctrl+C in Preview; Help acts only on Esc, `q`, `?`; JumpInput executes a character and cancels anything else; in SearchInput every character but Ctrl+C is text; paging amounts are bounded by the height |
| Dispatch.EscLeavesPreview | src/main.rs:139-141 | Esc in the preview returns to Normal and changes nothing else in the session |
| Dispatch.BackspaceUndoesTyping | src/main.rs:191-199 | while typing, a character key and then Backspace give back the session |
| Dispatch.SlashStartsSearch | src/main.rs:89-94 | `/` and `D` in the list open an empty query in SearchInput with no results and selection 0, directories only exactly for `D` |
| Dispatch.ApplyMove | src/main.rs:68-85 | the moves keep the browser object, its directory and its filter, set the selection as `Moved` says (wrapping up and down, top, bottom), rebuild the preview for it with scroll 0, and leave the session and the status alone |
| Dispatch.ApplyStartSearch | src/main.rs:89-94 | the session becomes an empty query in SearchInput with the requested dir-only flag; browser and preview are untouched |
| Dispatch.ApplyEnter | src/main.rs:74-76 | a selected directory is listed in order with selection 0 and its preview; a selected file enters Preview with browser and preview unchanged; with no selection nothing changes |
| Dispatch.ApplyParent | src/main.rs:77-79 | below the root the parent is listed in order with the directory just left reselected and the preview rebuilt; at the root nothing changes |
| Dispatch.ApplyFilter | src/main.rs:95-97 | the filter flips and the same directory is re-listed in order, selection clamped, preview rebuilt |
| Dispatch.ApplyReload | src/main.rs:98-100 | the same directory is re-listed in order, selection clamped, preview rebuilt, and the status reads "Reloaded" |
| Dispatch.ApplyConfirm | src/main.rs:203-205 | the session follows `SessionAfter` (Normal for a directory, Preview for a file, query and results cleared; out of range cancels); the browser is the old one or a new ordered listing under the configured filter, and a confirmed result's preview shows the new selection |
| Dispatch.ApplyQuery | src/main.rs:184-217 | Enter runs the search and cancelling clears it, with session and status as `SessionAfter` and `StatusAfter` say; browser and preview are untouched |
| Dispatch.ApplyEdit | src/main.rs:191-222 | typing appends, Backspace pops, the result moves step without wrapping, and `/` clears the query back to SearchInput keeping the results; browser, preview and status are untouched |
| Dispatch.ApplyScroll | src/main.rs:139-175 | leaving sets Normal; the scroll follows `ScrollAfter` (saturating up, bounded down, `g` to 0, `G` to the last page's start when there is a preview); the preview content and the browser are untouched |
| Dispatch.ApplyOther | src/main.rs:63-136 | only `Quit` sets the quit flag, the editor's failure on a selected file becomes the status, unmodelled operations are handed back, and browser, preview and session are untouched |
| Dispatch.ApplyBrowsing | src/main.rs:64-120 | the arms that move, re-list or replace the browser pass on every effect of the arm they run |
| Dispatch.ApplySession | src/main.rs:138-224 | the other arms keep the same, unchanged browser and pass on their session, scroll and status effects |
| Dispatch.Apply | src/main.rs:63-225 | one arm performed: the session follows `SessionAfter` and the status `StatusAfter`; only `Quit` sets the quit flag; the browser is untouched except by a list arm (directory, filter and selection as `DirAfter` and `IndexAfter` say, re-listed in order) or a confirmed result (a new ordered listing); a moved or re-listed selection gets its preview with scroll 0; the preview arms scroll as `ScrollAfter` says; a correct preview stays correct |
| Dispatch.HandleKey | src/main.rs:60-226 | the status line is cleared first, the key is routed by the mode it arrives in, and every effect `Apply` states holds for that action; the quit flag is set exactly by the quitting keys |
| Dispatch.Turn | src/main.rs:57-227 | one turn records the reported height and handles at most one key; the quit flag ends up set exactly when it was set or the key quits in the turn's mode, and a request comes only from a key |
| Dispatch.RunApp | src/main.rs:49-232 | the loop keeps the session valid, hands back at most one request per turn, and ends exactly after the first turn that leaves the quit flag set (every earlier turn left it clear; an early stop means it is set) |

The session invariant `App.Valid()` is established by the constructor and kept by every operation:
- the browser's selection is in range (or 0 on an empty list);
- a preview exists exactly when a file is selected;
- the scroll never passes the preview's end;
- in result selection the selected result exists;
- both list widgets show their model's selection.

## Findings

| source | as written | input that shows it | evidently intended | confidence | as-written member | corrected member |
|---|---|---|---|---|---|---|
| src/app.rs:230-236 | when the chosen file is not in its parent's new listing, `selected_index` is 0 but `list_state` keeps the previous browser's row | hidden files off, list widget on row 3, confirm the search result `/d/.env` (the walker yields hidden files) whose parent `/d` lists `a`, `b`, `c` and `e`: the browser selects and previews `a` while the widget still highlights `e`, a row that exists in the new listing | the widget follows `selected_index` in every case, as every other operation leaves it | medium, not executed | Application.LookupMissDesyncs | Application.App.SelectNamedSynced |

`Application.App.OpenResultFile` uses the corrected lookup. That is why `App.Valid()` can include the widget-follows-selection invariant.

## Behaviour of the code the model keeps

- Search runs synchronously inside `execute_search` (src/app.rs:194). `App` holds no search handle, poll or cancellation.
- Result selection does not wrap (src/app.rs:254-266).
- `set_preview_height` does not re-clamp the scroll (src/app.rs:279-281). So the kept invariant is `scroll <= |lines|`, not `scroll <= |lines| - height`.
- `quit` is called only for `q` and Ctrl+C in Normal (src/main.rs:65-67, 116-118) and for Ctrl+C in Preview (src/main.rs:179-181).
- Re-search from the result list clears the query and keeps the previous results (src/main.rs:218-222).
- The list operations change `self.browser` in place (src/app.rs:94-154). Only `confirm_search_result` assigns a new `FileBrowser` (src/app.rs:223-240).

## Left out

- Terminal I/O, drawing, the 100 ms poll and `needs_redraw`: the event loop takes a sequence of turns, each with an optional reported preview height and an optional key.
- Rendering (src/ui.rs) is not part of this model. The preview height it reports is an input.
- Configuration loading (src/config.rs) is not part of this model. The configuration is a value (`DefaultConfig` holds its defaults).
- The editor's process handling (src/editor.rs) is not part of this model. Its outcome is an input.
- `copy_path`, `start_jump`, `jump_next`, `jump_prev`, `show_help`, `close_help`, `execute_jump` and `cancel_jump` have no code in the modelled files. They are returned as `External` requests that change nothing. The `Help` and `JumpInput` modes are routed, but no modelled operation enters them.
- The call `search(&base_dir, &input, 100)` in src/app.rs:194 does not match the four-parameter `search` in src/search.rs:26. So `App` takes the searcher as an `Env` function, and `Searching.Search` is modelled on its own.
- The directory walker (gitignore rules, depth 10) and the fuzzy matcher are inputs, as the walk sequence and a scoring function.
- `Text.Lower`: lower-cases ASCII letters only, not Unicode `to_lowercase`.
- `Sorting.SortBy`: the stability of `sort_by` (equal elements keep their order) is not stated.
- `Searching.Search`: scores are unbounded naturals rather than `u32`.
- `Previewing.Preview`: bytes stay bytes. UTF-8 lossy decoding, and `\r\n` handling in `lines()`, are not modelled. The highlighter is a function applied to each line, whereas syntect's highlighter carries state from line to line.
- `Dispatch.RunApp`: runs under one fixed environment, so the filesystem does not change between turns.
- `Paths.Parent`: paths are absolute, as component sequences below `/`. When `canonicalize` fails, `FileBrowser::new` keeps the start path as given (src/file_browser.rs:35), and it may be relative. Rust's parent chain for a relative `foo` is `foo`, then the empty path, then `None` (src/file_browser.rs:117). That chain, and listing the empty path as the working directory, are not represented: here `[]` is always `/`.
- `InputMode::Searching`: src/ui.rs:32 and src/ui.rs:50 match on a `Searching` mode that the `InputMode` enum in src/app.rs:12-17 does not declare, and nothing in src/app.rs or src/main.rs enters it. Rendering is not part of this model, so the model's `InputMode` has the modes the key match of src/main.rs uses.
- `Dispatch.Apply`: for a confirmed search result it states only that the browser is a new, ordered listing under the configured filter whose preview shows its selection. The directory it opens and the entry it selects are stated by `Application.App.ConfirmSearchResult`.
