# lazyjira list engine and status filters, in Dafny

This project models the core of lazyjira, a terminal client for Jira:

- **The paged list (`List` of list.go).** A list of rows is shown one page at a time in a view of fixed height. The list tracks the current page and the cursor row on that page. It can move the cursor up and down, circularly across pages. It can jump a page, read or overwrite the row under the cursor, and reset itself when its project code changes.
- **The status-filter bookkeeping of control.go and utils.go.** A configuration store maps each project code to a map from status name to "included". The handlers toggle a flag, add a project, delete a project, load the projects list, and fetch and render issues and statuses.
- **Small string builders.** These are the JQL query of client.go, the git branch name of `GitBranchPrompt`, and `spaces`.

## How the model is organised

Modules, by file:

- `wrappers.dfy`: `Wrappers`.
- `strings.dfy`: `Strings`, covering ASCII case mapping, trimming, padding and decimal digits.
- `paging.dfy`: `Paging`, the pages `ResetPages` computes and the circular page indices.
- `list.dfy`: `PagedList`, which holds the class `List`.
- `list_properties.dfy`: `ListProperties`.
- `store.dfy`: `Store` and `StoreProperties`.
- `client.dfy`: `Client`.
- `utils.dfy`: `Utils`, which holds the class `App` with the three global lists and the store.
- `control.dfy`: `Control`.
- `control_properties.dfy`: `ControlProperties`.

The code that changes state in place is modelled as classes:

- `PagedList.List` has the fields of the Go `List` and of the view it embeds: the cursor row, the text written to the view, and the title shown.
- `Utils.App` holds the three lists and the store.

Every method is proved against a step function on a snapshot, for example `ensures Valid() && State() == MoveDownStep(old(State()))`. The promises of list.go, utils.go and control.go are then proved as lemmas about those step functions.

### Modelling decisions

- **The view's `Clear()`.** It empties the text of the view. It does not move the cursor.
- **The wrap paths of `MoveDown` and `MoveUp` (list.go:140-144, 160-164).** These return from `displayPage` without calling `SetCursor`, so the cursor keeps its old row (see Findings).
- **Page height.** It is fixed when the list is created, as the view's height minus one, and must be positive.
- **`g.Update` callbacks** run at once, in order. A handler's outcome is the outcome of its callback.
- **Searches and configuration writes** are parameters: a `Result` for a search, an `Outcome` for a write.
- **The configuration libraries.** gookit `config` and `viper` are modelled as one map, from a project code to either a statuses map or nil.
  - A nil entry, left by a delete (control.go:216-218), reads as absent.
  - Writes and reads through `viper` fold the code to lower case: `SetNewStatusesByProjectCode` and `GetSavedStatusesByProjectCode` (utils.go:110-137) use `Lower(code)` as the key. So a refetch from the upper-cased projects row writes to the key the project was saved under (`ControlProperties.OnEnterAddsNoProject`).
  - Writes and reads through `config` use the key as given. The new-code prompt (control.go:144-176) saves the trimmed input unchanged; the delete alert (control.go:216) and `ToggleStatus` (control.go:347) lower-case the code themselves.
- **`loadProjects()`.** control.go:126, 138, 182 and 223 call a `loadProjects()` that none of the modelled files defines. It is taken to be `LoadProjects` of utils.go:141-158. So after every add or delete the projects list is rebuilt from the store, in the store's order, and the cursor keeps its row.
- **`SetCursor`.** The view library refuses a negative row with the error "invalid point" and keeps the cursor. Every other row is accepted (list.go:216).
- **The order in which the store lists its keys** is not fixed:
  - `GetSavedProjects` is specified as a multiset, `UpperAll` of the saved codes.
  - `LoadProjects` is specified for the order it actually produced.

### Behaviour worth knowing

- **List movement with a single page.** list.go:139-147 and 159-167 move the cursor circularly within the page: down from the last row goes to row 0, up from row 0 goes to the last row (`ListProperties.SinglePageWraps`).
- **Statuses refetch.** `RenderStatusesList` (utils.go:124-137, 195-214) overwrites the whole statuses map of the code with all-true flags (`StoreProperties.WithStatusesForgetsChoices`). In the model's single store this means a status toggled off is on again after the next fetch (`ControlProperties.ToggleUndoneByRefetch`). In the program the toggle goes to gookit `config` only and the refetch to `viper`'s own copy, so the two never meet (see "Left out"). `OnEnterProject` (control.go:408-445) always searches; it never skips the search when statuses are already saved.
- **Toggling a flag that is not saved yet** stores true (control.go:352-360).
- **`MakeJQL`** (client.go:34-45).
  - It never adds a status predicate.
  - Its assignee sentinel is "assigned_to_me" (client.go:13), the key of the default project entry that `InitConfig` writes (utils.go:50-56). The projects list shows that entry upper-cased, and `MakeJQL` lower-cases it back, so the row gives the assignee query (`Client.AssignedToMeRowRoundTrip`). `AssignedToMeKey` of constants.go:7 is used nowhere.
- **A failed issues fetch in `OnEnterProject`** (control.go:424-429). It ends the handler, so the statuses are not fetched. It also keeps the issue rows and only clears the view (`ControlProperties.OnEnterIssuesFailure`, `ControlProperties.FetchIssuesFailureKeepsRows`).

## Model

| member | source | states |
|---|---|---|
| Strings.Lower | client.go:35 | same length; each letter mapped to lower case, nothing else changed; no upper-case letter left |
| Strings.Upper | utils.go:104 | same length; each letter mapped to upper case; no lower-case letter left |
| Strings.LowerOfUpper | client.go:35 | lower-casing an upper-cased code gives the lower-cased code |
| Strings.LowerIdempotent | control.go:347 | lower-casing twice is lower-casing once |
| Strings.TrimSpace | control.go:114 | the input is leading white space, then the result, then trailing white space; the result neither starts nor ends with white space |
| Strings.TrimSpaceEmpty | control.go:114-117 | the trimmed input is empty exactly when every character is white space, so `SubmitPrompt` ignores exactly blank input |
| Strings.DashForSpace | control.go:477 | same length, every blank replaced by "-", all else kept; no blank left |
| Strings.Spaces | utils.go:257-263 | exactly max(n, 0) characters, all blanks |
| Strings.PadRight | utils.go:186 | the text followed by blanks only, up to the width (the `%-2s` of an issue row); nothing is cut |
| Paging.PagesFromTiles | list.go:226-232 | the pages the loop appends from any offset tile the rest of the rows: contiguous, each limit in (0, h], only the last short |
| Paging.PagesFrom | list.go:224-233 | the pages from an offset are empty exactly when the offset is at or past the last row |
| Paging.Pages | list.go:224-233 | there are no pages exactly when there are no rows |
| Paging.PagesPartition | list.go:224-233 | the pages of n rows partition [0, n) with no gap, no overlap and no empty page, so there is no trailing empty page when h divides n |
| Paging.PagesCount | list.go:224-233 | there are ceil(n / h) pages |
| Paging.PagesSum | list.go:224-233 | the page limits add up to n |
| Paging.PageAt | list.go:224-233 | page i is {i*h, min(h, n - i*h)} |
| Paging.PagesLocate | list.go:224-233 | row j lies on page j / h at row j % h of that page |
| Paging.NextPageIdx | list.go:280-282 | stays in [0, count): the next index, or 0 after the last |
| Paging.PrevPageIdx | list.go:285-291 | stays in [0, count): the previous index, or count - 1 before 0 |
| Paging.NextPrevInverse | list.go:280-291 | next and previous page undo each other |
| PagedList.PageFacts | list.go:251-253 | every page of a list lies within its rows, with a limit in (0, height] and offset i*height |
| PagedList.SetTitleStep | list.go:81-89 | only the title and the title shown change; the title shown is `TitleText` of the list and the title: the plain title with at most one page, "n/m - title" with several |
| PagedList.ResetStep | list.go:63-68 | no rows, no pages, empty view, cursor on row 0; code, title and page index kept |
| PagedList.SetCodeStep | list.go:71-77 | the same code changes nothing; a new code is stored and the list reset |
| PagedList.DisplayItem | list.go:295-303 | the row (numbered when ordered) followed only by blanks, filling the width when the row fits |
| PagedList.PageLines | list.go:306-313 | exactly the rows of page p, one line each, in order |
| PagedList.DisplayPageStep | list.go:306-319 | page p becomes current and its rows are written; the cursor row, rows and pages are kept |
| PagedList.DrawStep | list.go:119-124 | an empty list is untouched; otherwise page 0 is drawn |
| PagedList.CurrPageNum | list.go:236-241 | 0 on an empty list; otherwise the page index plus one, which lies between 1 and the page count |
| PagedList.TitleText | list.go:81-89 | exactly the given text when there is at most one page |
| ListProperties.TitleTextShape | list.go:81-89 | the title shown ends with the given text; with several pages it is the current page's number, "/", the page count and " - " before it |
| PagedList.SetItemsFixedStep | list.go:93-100 | as `SetItemsStep`, but the cursor always ends on the new page: the old row when it still exists there, row 0 otherwise |
| PagedList.SetItemsStep | list.go:93-100 | the rows are replaced, the pages recomputed and page 0 drawn; the cursor row is kept |
| PagedList.AddItemStep | list.go:103-109 | the row is appended and page 0 is drawn |
| PagedList.CurrentItemOf | list.go:204-212 | "" on an empty list; otherwise the index offset + cursorY is within the rows and the result is that row |
| PagedList.UpdateCurrentItemStep | list.go:111-116 | only the row under the cursor is overwritten; pages, cursor and the other rows are kept |
| PagedList.MoveDownStep | list.go:135-152 | rows and pages are kept; an empty list is untouched |
| PagedList.MoveUpStep | list.go:155-173 | rows and pages are kept; an empty list is untouched |
| PagedList.MovePgDownStep | list.go:176-188 | rows and pages are kept; an empty list is untouched |
| PagedList.MovePgUpStep | list.go:190-200 | rows and pages are kept; an empty list is untouched |
| PagedList.MoveDownFixedStep | list.go:139-146 | `MoveDown` with the cursor set to the row 0 it computed; rows and pages are kept |
| PagedList.MoveUpFixedStep | list.go:159-167 | `MoveUp` with the cursor set to the last row it computed; rows and pages are kept |
| PagedList.List.constructor | list.go:28-35 | a new list over a view of height at least two: empty, no pages, cursor on row 0 |
| PagedList.List.IsEmpty | list.go:38-40 | true exactly when there are no rows |
| PagedList.List.Clear | list.go:66 | only the text of the view goes |
| PagedList.List.SetCursor | list.go:216 | a negative row is refused with "invalid point" and nothing changes; otherwise only the cursor row changes |
| PagedList.List.ResetCursor | list.go:215-220 | the cursor goes to row 0 and nothing else changes |
| PagedList.List.Reset | list.go:63-68 | the new state is `ResetStep` of the old |
| PagedList.List.SetCode | list.go:71-77 | the new state is `SetCodeStep` of the old |
| PagedList.List.SetTitle | list.go:81-89 | the new state is `SetTitleStep` of the old |
| PagedList.List.ResetPages | list.go:224-233 | the loop leaves exactly `Pages(len, height)` and changes nothing else |
| PagedList.List.DisplayPage | list.go:306-319 | the new state is `DisplayPageStep` of the old |
| PagedList.List.Draw | list.go:119-124 | the new state is `DrawStep` of the old |
| PagedList.List.DrawCurrentPage | list.go:127-132 | the current page is drawn again unless the list is empty |
| PagedList.List.SetItems | list.go:93-100 | the new state is `SetItemsStep` of the old |
| PagedList.List.SetItemsFixed | list.go:93-100 | the new state is `SetItemsFixedStep` of the old |
| PagedList.List.AddItem | list.go:103-109 | the new state is `AddItemStep` of the old |
| PagedList.List.CurrentItem | list.go:204-212 | returns `CurrentItemOf` the state, without indexing out of range, while the cursor is on its page |
| PagedList.List.UpdateCurrentItem | list.go:111-116 | the new state is `UpdateCurrentItemStep` of the old |
| PagedList.List.MoveDown | list.go:135-152 | the new state is `MoveDownStep` of the old; no error |
| PagedList.List.MoveUp | list.go:155-173 | the new state is `MoveUpStep` of the old; no error |
| PagedList.List.MovePgDown | list.go:176-188 | the new state is `MovePgDownStep` of the old; no error |
| PagedList.List.MovePgUp | list.go:190-200 | the new state is `MovePgUpStep` of the old; no error |
| PagedList.List.MoveDownFixed | list.go:139-146 | the corrected `MoveDown`: the new state is `MoveDownFixedStep` of the old |
| PagedList.List.MoveUpFixed | list.go:159-167 | the corrected `MoveUp`: the new state is `MoveUpFixedStep` of the old |
| ListProperties.PosPlace | list.go:204-212 | with the cursor on its page, the index read by `CurrentItem` is in range, and page index and cursor row are that index divided by and modulo the height |
| ListProperties.MoveDownFixedCircular | list.go:135-152 | the corrected `MoveDown` keeps the cursor on its page and moves to the next row of the whole list, from the last to the first |
| ListProperties.MoveUpFixedCircular | list.go:155-173 | the corrected `MoveUp` keeps the cursor on its page and moves to the previous row of the whole list, from the first to the last |
| ListProperties.SamePlace | list.go:204-212 | two states over the same rows at the same index have the same page and cursor row |
| ListProperties.FixedMovesUndoEachOther | list.go:135-173 | the corrected moves down and up undo each other |
| ListProperties.MoveDownAsWritten | list.go:135-152 | `MoveDown` matches the circular move except on a page change, where it keeps the old cursor row |
| ListProperties.MoveUpAsWritten | list.go:155-173 | `MoveUp` keeps the cursor on its page; on a page change it lands on row 0 of the previous page, otherwise it matches the circular move |
| ListProperties.SevenRowsPages | list.go:224-233 | seven rows at height three give pages {0,3}, {3,3}, {6,1} |
| ListProperties.MoveDownIntoShortPage | list.go:140-144 | down from row 2 of page 1 of seven rows at height three leaves the cursor on row 2 of the one-row page 2, off the page |
| ListProperties.MoveDownAcrossPages | list.go:140-144 | from row 2 of page 0, `MoveDown` goes to row 2 of page 1; the corrected one to row 0 |
| ListProperties.MoveUpAcrossPages | list.go:160-164 | from row 0 of page 1, `MoveUp` goes to row 0 of page 0; the corrected one to row 2 |
| ListProperties.SinglePageWraps | list.go:139-150 | with one page, down from the last row goes to row 0 and up from row 0 goes to the last row |
| ListProperties.MovePgDownLands | list.go:176-188 | `MovePgDown` shows the next page with the cursor on its first row, on the page |
| ListProperties.MovePgUpLands | list.go:190-200 | `MovePgUp` shows the previous page with the cursor on its first row, on the page |
| ListProperties.PageMovesUndoEachOther | list.go:176-200 | a page down and a page up undo each other |
| ListProperties.SetCodeIdempotent | list.go:71-77 | setting a code twice is setting it once; the cursor is kept exactly when the code was already set |
| ListProperties.UpdateThenRead | list.go:111-116 | after overwriting the current row, reading it gives the new row |
| ListProperties.UpdateWithCurrent | list.go:111-116 | writing back the current row changes nothing |
| ListProperties.SetItemsAfterReset | list.go:93-100 | `Reset` then `SetItems` puts the cursor on row 0 of page 0, on the page |
| ListProperties.SetItemsDrawsFirstPage | list.go:93-100 | a non-empty `SetItems` writes min(height, n) lines, the first rows in order |
| ListProperties.AddItemKeepsCursorOnPage | list.go:103-109 | appending a row keeps a cursor that was on its page on the page |
| ListProperties.SetItemsShrinkLeavesPage | list.go:93-100 | replacing three rows with two leaves a cursor that was on row 2 off the page |
| Store.SavedCodes | utils.go:101 | exactly the codes whose entry is present and not nil |
| Store.AllTrue | utils.go:127-130 | exactly the given names, each mapped to true |
| Store.LowerAll | utils.go:203-205 | the names lower-cased, one for one, in order |
| Store.Toggled | control.go:352-361 | an existing flag is negated, an absent one set to true; no other flag and no other project changes |
| Store.StatusesOf | utils.go:111 | the statuses map saved for the code, and the empty map for a code that is absent or nil |
| Store.WithStatuses | utils.go:124-132 | the statuses of the lower-cased code become exactly the given names, all true; no other key changes |
| StoreProperties.WithStatusesFoldsCase | utils.go:124-132 | writing the statuses of any spelling of a code saved in lower case leaves the set of saved projects unchanged |
| Store.Deleted | control.go:217-218 | the code is no longer saved, the saved codes lose exactly it, and no other entry changes |
| Store.UpperAll | utils.go:103-104 | one upper-cased code per saved code |
| Store.UpperAllRemove | utils.go:103-104 | the upper-cased codes can be collected in any order |
| Store.UpperAllMembers | utils.go:103-104 | each code contributes its upper-cased form, and nothing else is collected |
| StoreProperties.ToggleTwiceRestores | control.go:352-356 | toggling an existing flag twice restores the store |
| StoreProperties.ToggleAbsentTwice | control.go:357-360 | toggling an absent flag twice leaves it saved as false |
| StoreProperties.WithStatusesForgetsChoices | utils.go:124-139 | after the overwrite exactly the given names are saved, all true, and earlier false flags are lost |
| StoreProperties.DeleteRemovesOne | control.go:217-218 | deleting a saved code removes one project and changes no other project's statuses |
| StoreProperties.DeleteShownRow | control.go:217 | deleting the upper-cased row of a lower-case code removes that code |
| StoreProperties.ListingOfSaved | utils.go:98-108 | a listing with the multiset of `GetSavedProjects` has one row per saved project, each saved code shown upper-cased and nothing else shown; it is empty exactly when nothing is saved |
| Client.MakeJQL | client.go:34-45 | "assignee=currentUser()" for a code equal to "assigned_to_me" up to case; otherwise "project=" followed by the lower-cased code |
| Client.MakeJQLIgnoresCase | client.go:35 | codes equal up to case give the same query |
| Client.MakeJQLOfUpper | client.go:35 | the upper-cased code shown in the projects list gives the same query as the code |
| Client.ProjectQueryShape | client.go:42-43 | a project query is "project=" and the code, with no upper-case letter and nothing else added |
| Client.AssigneeQueryExactly | client.go:37-40 | the assignee query comes exactly from the sentinel code |
| Client.AssignedToMeRowRoundTrip | utils.go:50-56 | the default entry "assigned_to_me" is shown as "ASSIGNED_TO_ME", and `MakeJQL` of that row gives the assignee query |
| Utils.IssueRow | utils.go:186 | the key, then blanks only, then the summary; the key is padded to two characters and followed by one blank |
| Utils.IssueRows | utils.go:182-188 | one row per issue, in order |
| Utils.RenderIssuesStep | utils.go:174-193 | the issues list is reset and shows exactly the issue rows, with the cursor on its page; with no issues the title is "No issues in FF"; nothing else changes |
| Utils.RenderStatusesStep | utils.go:195-214 | the statuses list shows the lower-cased names; a non-empty result is saved all true under the list's code and the outcome is the write's; an empty one saves nothing |
| Utils.FetchIssuesStep | utils.go:216-232 | the issues list takes the code; a failed search sets the failure title, clears the view and returns the error; a successful one renders the rows |
| Utils.FetchStatusesStep | utils.go:234-255 | the statuses list takes the code; a failed search sets the failure title, clears the view, leaves the store and returns no error; a successful one is rendered |
| Utils.LoadProjectsStep | utils.go:141-158 | the projects list shows the listing; with none, both lists are reset with the "No projects" and "No issues" titles; statuses and store are untouched |
| Utils.App.GetSavedProjects | utils.go:98-108 | the multiset of the result is the saved codes upper-cased, one each |
| Utils.App.GetSavedStatusesByProjectCode | utils.go:110-122 | each status name saved for the lower-cased code, exactly once |
| Utils.App.SetNewStatusesByProjectCode | utils.go:124-139 | the loop builds the all-true map; the store becomes `WithStatuses` of the old one and the write's outcome is returned |
| Utils.App.LoadProjects | utils.go:141-158 | the projects shown are the saved codes upper-cased, and the new state is `LoadProjectsStep` for that order |
| Utils.App.RenderIssuesList | utils.go:174-193 | the new state is `RenderIssuesStep` of the old |
| Utils.App.RenderStatusesList | utils.go:195-214 | the new state and the outcome are `RenderStatusesStep` of the old |
| Utils.App.FetchIssues | utils.go:216-232 | the new state and the outcome are `FetchIssuesStep` of the old |
| Utils.App.FetchStatuses | utils.go:234-255 | the new state and the outcome are `FetchStatusesStep` of the old |
| Control.ToggleKey | control.go:347-348 | the row lower-cased without its first four bytes |
| Control.ToggleStatusStep | control.go:339-381 | with no current status nothing changes and there is no error |
| Control.SubmitNewCodeStep | control.go:144-186 | the lists stay consistent in every branch |
| Control.SubmitDeleteStep | control.go:209-227 | the lists stay consistent |
| Control.OnSelectProjectStep | control.go:384-407 | the lists stay consistent |
| Control.EnterStatusesStep | control.go:432-441 | the issue rows and code are kept |
| Control.OnEnterProjectStep | control.go:409-445 | the lists stay consistent |
| Control.BranchName | control.go:477-484 | the row with blanks turned into dashes, after "prefix/" only when the prefix is not empty |
| Control.ToggleStatus | control.go:339-381 | the new state and the outcome are `ToggleStatusStep` of the old |
| Control.SubmitNewCode | control.go:113-186 | the new state and the alert are `SubmitNewCodeStep` of the old; once a code is added, the projects shown are the saved codes upper-cased |
| Control.ConvertStatuses | control.go:168-171 | the map has exactly the lower-cased status names as keys, each true; it is `AllTrue(LowerAll(names))` |
| Control.SubmitDelete | control.go:209-233 | the new state is `SubmitDeleteStep` of the old; after a delete, the projects shown are the saved codes upper-cased |
| Control.OnSelectProject | control.go:384-407 | the new state and the outcome are `OnSelectProjectStep` of the old |
| Control.OnEnterProject | control.go:409-445 | the new state is `OnEnterProjectStep` of the old, and there is never an error |
| Control.EnterStatuses | control.go:432-441 | the new state is `EnterStatusesStep` of the old |
| Control.GitBranchPrompt | control.go:471-484 | no name for an empty issues list; otherwise `BranchName` of the current row and the prefix |
| ControlProperties.FetchIssuesFailureKeepsRows | utils.go:221-225 | a failed issues fetch under the same code keeps the rows, empties the view, shows the failure title and returns the error |
| ControlProperties.FetchStatusesFailsOnlyOnWrite | utils.go:234-254 | `FetchStatuses` fails exactly when a non-empty result could not be written; search failures are swallowed |
| ControlProperties.FetchedStatusesAreSaved | utils.go:195-214 | after a successful fetch the saved flags of the lower-cased code are exactly the rows shown, all true |
| ControlProperties.LoadProjectsShowsSaved | utils.go:141-158 | loading shows one row per saved project, each code upper-cased; with none saved, the "No projects" title and no issues |
| ControlProperties.RenderedIssueRows | utils.go:182-188 | each issue row starts with the key and ends with the summary |
| ControlProperties.ToggleKeptWhenRefetchFails | control.go:345-369 | when the statuses search fails, the toggled flag stays and the cursor row is put back |
| ControlProperties.ToggleUndoneByRefetch | control.go:363-378 | a successful refetch saves all statuses as true again; the cursor row is put back on page 0 |
| ControlProperties.ToggleKeyMissesStatus | control.go:347-348 | for the row "open" the key toggled is "": the flag "open" stays true and a flag "" is added |
| ControlProperties.ToggleKeyFixed | control.go:347-348 | the corrected key: the row lower-cased, of the same length |
| ControlProperties.ToggleFixedFlipsShownStatus | control.go:347-361 | with the corrected key, toggling a row of a rendered statuses list flips exactly that status's saved flag and adds no key |
| ControlProperties.SubmitNewCodeOutcomes | control.go:144-186 | blank input: nothing happens; saved code: "Project already exist"; failed search: its message; otherwise the trimmed code is saved with its statuses lower-cased and all true, and the projects are loaded again |
| ControlProperties.SubmitNewCodeTwice | control.go:147-155 | a code once added is refused the second time |
| ControlProperties.SubmitDeleteOutcome | control.go:209-227 | a blank value changes nothing; otherwise exactly its lower-cased form is unsaved and the projects are loaded again |
| ControlProperties.OnSelectProjectOutcome | control.go:384-407 | the issues list takes the project's code and shows the search result with the " Issues " title, or the error is returned with the view cleared |
| ControlProperties.OnEnterRefetchRule | control.go:417-430 | the issues are fetched again exactly when the issues list is empty after taking the code (always after a code change); otherwise their rows are kept |
| ControlProperties.OnEnterIssuesFailure | control.go:425-429 | a failed issues fetch skips the statuses: their rows and the store are unchanged and the error title is shown |
| ControlProperties.OnEnterSuccess | control.go:432-441 | on success the statuses title names the project, the statuses are shown and saved all true under the lower-cased code, and the titles are reset |
| ControlProperties.OnEnterAddsNoProject | control.go:408-445 | entering the upper-cased row of a project saved in lower case keeps the set of saved projects |
| ControlProperties.BranchNameShape | control.go:477-484 | the name has no blank when the prefix has none, has the expected length and ends with the dashed row |

## Left out

- Focus and colours, `Focus`/`Unfocus`, the prompt and alert views (creation, deletion, titles, `g.Cursor`), and the dialog cursor of `GitBranchPrompt`: presentation only.
- `SearchIssuesByProjectCode`, `SearchStatusesByProjectCode` and `GetJiraClient` are network calls. Their results are parameters.
- `writeConfigToFile`, `InitConfig` and `GetJiraCredentials` are file, YAML and keyring access. An in-memory `config.Set` is taken to succeed, so its `log.Panicln` branches are not modelled.
- Store: a code containing "." is not split into a nested path. The two configuration libraries, each with its own copy of the file, are one map here.
- Control.OnEnterProjectStep: a project added through the new-code prompt in upper case ("FF") is saved by `config` under "FF", while its refetch through `viper` writes under "ff". The model then holds both keys, and `LoadProjects` lists the project twice. How the two libraries reconcile their copies of the file is not modelled.
- Store.Deleted: a deleted project is kept as a nil entry that every read treats as absent. If `viper.GetStringMap` (utils.go:101) or `config.Exists` (control.go:147, 352) reported the nil key, a deleted project would still be listed and a re-add of its code would be refused as existing. `StoreProperties.DeleteRemovesOne`, `ControlProperties.SubmitDeleteOutcome` and `ControlProperties.SubmitNewCodeTwice` rest on this rule.
- `exec.Command("git", ...)` in the branch prompt is an external process.
- Text output errors of `displayPage` (`fmt.Fprintln`) are I/O. `MovePgDown` and `MovePgUp` therefore always succeed.
- View resizing: the page height and width are fixed when a list is created.
- Unicode: case mapping and white space are ASCII only.
- Other handlers of control.go are not part of this model: the username, server and branch branches of `SubmitPrompt`, `CancelDialog`, `ListUp`/`ListDown`, `ChangeView`, `SwitchProjectTab`, `RemoveProject` and `Quit`. The same holds for dialog.go, keybindings.go, layout.go, main.go and jira.go.
- Control.ToggleStatusStep: the toggle is written to gookit `config` in memory only (control.go:352-360); `ToggleStatus` never calls `writeConfigToFile`, and `viper`, which the refetch reads and writes (utils.go:101-135), never sees it. The model's single store lets the refetch overwrite the toggle instead; which copy reaches the file is not modelled.
- Control.ToggleStatus: a statuses row shorter than four bytes makes the Go slice expression panic. It is a precondition here.
- PagedList.List.UpdateCurrentItem: an empty list, or a cursor off its page, makes the Go index expression of list.go:111-116 panic. Both are preconditions here.
- PagedList.UpdateCurrentItemStep: the same two panics are preconditions of the step function.
- PagedList.List.CurrentItem: a cursor off its page makes the Go index expression panic. It is a precondition here, "the cursor is on its page".
- Utils.App.GetSavedProjects: the order of the result is not fixed. Only its multiset is stated.
- Utils.App.GetSavedStatusesByProjectCode: the order of the result is not fixed. Only its elements and their number are stated.
- Control.SubmitNewCodeStep, Control.SubmitDeleteStep, Control.OnSelectProjectStep and Control.OnEnterProjectStep: their own ensures state only that the lists stay consistent. What they do is stated by the ControlProperties lemmas.

## Findings

| source | as written | input that shows it | evidently intended | confidence | as-written member | corrected member |
|---|---|---|---|---|---|---|
| list.go:140-144 | on the last row of a page, `MoveDown` computes row 0 but returns from `displayPage` without setting the cursor, which keeps its old row | seven rows at height three, page 1, row 2: `MoveDown` shows the one-row page 2 with the cursor on row 2, so `CurrentItem` indexes past the page | the cursor on row 0 of the next page | medium, not executed; assumes the view's `Clear` keeps the cursor | ListProperties.MoveDownIntoShortPage | PagedList.List.MoveDownFixed |
| list.go:160-164 | on row 0, `MoveUp` computes the last row of the previous page but returns from `displayPage` without setting the cursor | seven rows at height three, page 1, row 0: `MoveUp` lands on row 0 of page 0 | the cursor on row 2, the last row of page 0 | medium, not executed; assumes the view's `Clear` keeps the cursor | ListProperties.MoveUpAcrossPages | PagedList.List.MoveUpFixed |
| control.go:347-348 | the status key drops the first four bytes of the row, but the statuses rows are the bare lower-cased status names (utils.go:203-207) | current statuses row "open": the key toggled is "", so the flag "open" is unchanged and a flag "" is added | the key is the lower-cased row itself | medium, not executed | ControlProperties.ToggleKeyMissesStatus | ControlProperties.ToggleKeyFixed |
| list.go:93-100 | `SetItems` keeps the cursor row, and `loadProjects()` after a delete (control.go:216-223) calls it with one row fewer | three saved projects with the cursor on the last row; after deleting it, the list has two rows and the cursor stays on row 2, so the next `OnSelectProject` indexes past the page in `CurrentItem` | the cursor moved back onto the new page | medium, not executed | ListProperties.SetItemsShrinkLeavesPage | PagedList.SetItemsFixedStep |
