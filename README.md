# Campaign-launch dashboard: a verified model

This project models the logic of a browser dashboard for launching ad campaigns.
The user picks ad sets, copy templates and media files on the Launch page, then
starts a launch. A progress dialog then resolves a fixed list of ads one at a time,
in order, to success or failure. As it goes, it publishes a progress percentage,
counts of successful, failed and pending ads, and an overall campaign status. A
Library page and a media-library dialog list the media records under a text search
and two equality filters, and keep a selection of record ids.

The model is split into modules that follow the source files:

- `LaunchProgressModal` (launch_progress.dfy) holds the launch-progress sequencer.
  `Sequencer` is a class whose fields are the ordered `results`, the `progress`
  percentage and the `isComplete` flag. Its methods are the reset at the start of
  a run, one resolve step, and the whole run, `Simulate`, which is a loop of
  steps. The summary is a set of pure functions over the results: the counts,
  `GetOverallStatus`, and the state of the Done/Cancel and "Retry Failed" buttons.
  Lemmas relate the summary to the individual items. `Snapshot` is the state
  after the first `d` steps, and `Launched` is the state after a full run.
- `Launch` (launch_page.dfy) is the Launch page. The class `LaunchPage` holds the
  three selections and the two dialog flags. Click handlers replace these fields.
  The module also has the launch gate and the "first five plus +N more" media
  preview.
- `Library` (library_page.dfy) is the Library page. The class `LibraryPage` holds
  the query, the two filters and the checkbox selection. The module also has the
  checkbox updater and the empty-state hint.
- `MediaLibraryModal` (media_library_modal.dfy) is the media dialog. Its selection
  is a read-only property, stored as a `const` field. `ToggleSelection` returns
  the one new list that is handed to `onSelectionChange`. It changes no state.
- `MediaFilter` (media_filter.dfy) is the filter that both media lists share. An
  item is kept when its lower-cased name contains the lower-cased query and each
  filter is `"all"` or equals the item's field. The module also builds the
  uploader list as `[...new Set(...)]`.
- `Selection` (selection.dfy) holds the toggle and remove-all updaters on id lists.
  `Seqs` (seqs.dfy) holds duplicate-freedom, order-preserving subsequences and the
  insertion-ordered de-duplication of a JavaScript `Set`.

Each launch step in the source flips a random coin (a 20% chance of failure).
The model replaces the coin with an injected `willFail` flag per item, and the
whole run takes a `seq<bool>` with one flag per result. The random delay before
each step has no logical effect and is not modelled. Progress is the real
number `(i+1)/N*100`.

On these points the model follows the code as written:

- The reset at the start of a run overwrites only `status`
  (src/components/LaunchProgressModal.tsx:43). It keeps any `error` from an
  earlier run, so a pending item can still carry an error. Once a run has
  finished, every item carries the timeout error exactly when it failed
  (`LaunchedResolvesEveryItem`).
- With an empty result list, a run ends with progress 0, not 100. The loop never
  sets it, and the dialog's own list always has five entries.
- The progress dialog does not launch the user's selections. It always runs its
  own five hard-coded results (src/components/LaunchProgressModal.tsx:28-34).
  The Launch page only decides whether the dialog opens.

## Model

| member | source | states |
|---|---|---|
| LaunchProgressModal.ResetResult | src/components/LaunchProgressModal.tsx:43 | the item becomes pending; its id, name and error are kept |
| LaunchProgressModal.Resolve | src/components/LaunchProgressModal.tsx:49-57 | the resolved item is never pending; it is failed iff the coin said fail; error is the timeout message iff failed, absent iff succeeded; id and name kept |
| LaunchProgressModal.Count | src/components/LaunchProgressModal.tsx:71-73 | the length of the status filter is the number of times that status occurs in the multiset of item statuses, and never exceeds N |
| LaunchProgressModal.SuccessCount | src/components/LaunchProgressModal.tsx:71 | successCount is at most N, and is 0 iff no item succeeded |
| LaunchProgressModal.FailedCount | src/components/LaunchProgressModal.tsx:72 | failedCount is at most N, and is 0 iff no item failed |
| LaunchProgressModal.PendingCount | src/components/LaunchProgressModal.tsx:73 | pendingCount is at most N, and is 0 iff no item is pending |
| LaunchProgressModal.CountZeroIff | src/components/LaunchProgressModal.tsx:71-73 | a status count is 0 iff no item has that status |
| LaunchProgressModal.CountFullIff | src/components/LaunchProgressModal.tsx:71-73 | a status count equals the length iff every item has that status |
| LaunchProgressModal.CountsPartition | src/components/LaunchProgressModal.tsx:71-73 | successCount + failedCount + pendingCount = N |
| LaunchProgressModal.GetOverallStatus | src/components/LaunchProgressModal.tsx:75-80 | the status is `launching` iff the run is not complete |
| LaunchProgressModal.OverallStatusOfResolved | src/components/LaunchProgressModal.tsx:75-80 | with every item resolved: success iff all items succeeded; failed iff N > 0 and all failed; partial iff some succeeded and some failed |
| LaunchProgressModal.CloseDisabled | src/components/LaunchProgressModal.tsx:228 | Done/Cancel is disabled iff the run is not complete and some item is pending |
| LaunchProgressModal.RetryFailedShown | src/components/LaunchProgressModal.tsx:219 | "Retry Failed" is shown iff the run is complete and some item failed |
| LaunchProgressModal.Percent | src/components/LaunchProgressModal.tsx:62 | the published percentage lies in 0..100 while done <= N, and is 100 exactly when done = N |
| LaunchProgressModal.PercentBounds | src/components/LaunchProgressModal.tsx:62 | progress (d/N)*100 strictly increases with d, stays within 0..100, and is 100 at d = N |
| LaunchProgressModal.Snapshot | src/components/LaunchProgressModal.tsx:43-60 | the results after d steps: same length, ids and names kept; an item is pending iff its index is d or later; an item before d failed iff its flip failed, and carries the timeout error iff its flip failed; an item not yet reached keeps its error |
| LaunchProgressModal.Launched | src/components/LaunchProgressModal.tsx:46-65 | the results after a full run are the snapshot after N steps; no item is pending; each failed iff its flip failed |
| LaunchProgressModal.SnapshotPending | src/components/LaunchProgressModal.tsx:46-63 | after d steps of a run, exactly N - d items are pending |
| LaunchProgressModal.CloseDisabledDuringRun | src/components/LaunchProgressModal.tsx:228 | during a run, Cancel stays disabled until the last item is resolved |
| LaunchProgressModal.LaunchedCounts | src/components/LaunchProgressModal.tsx:52-56 | after a full run, failedCount is the number of failing flips and successCount is N minus that |
| LaunchProgressModal.LaunchedResolvesEveryItem | src/components/LaunchProgressModal.tsx:46-65 | after a full run: nothing is pending; each item keeps its id and name; it is failed iff its flip failed; it carries the timeout error iff it failed; "Retry Failed" is shown iff some flip failed; Done is enabled |
| LaunchProgressModal.CompletedDialogIsResolved | src/components/LaunchProgressModal.tsx:75-80 | in any state where the dialog is complete, no item is pending, Done is enabled, and the overall status is success iff all items succeeded, failed iff there is an item and all failed, and partial iff some succeeded and some failed |
| LaunchProgressModal.AllSucceed | src/components/LaunchProgressModal.tsx:28-34 | five items, all succeed: overall success, 5 successful, 0 failed |
| LaunchProgressModal.AllFail | src/components/LaunchProgressModal.tsx:75-80 | five items, all fail: overall failed, 0 successful, 5 failed |
| LaunchProgressModal.TwoFailThreeSucceed | src/components/LaunchProgressModal.tsx:52-56 | two failures and three successes: partial; the failed items carry the message and the successful ones carry none |
| LaunchProgressModal.Sequencer.constructor | src/components/LaunchProgressModal.tsx:26-34 | the dialog starts with the given results, progress 0, not complete |
| LaunchProgressModal.Sequencer.Reset | src/components/LaunchProgressModal.tsx:41-43 | progress 0, not complete, same length, every item reset to pending with id, name and error kept |
| LaunchProgressModal.Sequencer.ResolveStep | src/components/LaunchProgressModal.tsx:49-62 | only entry i changes, to its resolved form; progress becomes (i+1)/N*100; completion is untouched; the dialog invariant is kept (progress within 0..100, no pending item once complete) |
| LaunchProgressModal.Sequencer.Simulate | src/components/LaunchProgressModal.tsx:39-66 | a run resets, then resolves the items in index order: after step k, items 0..k are resolved and the rest pending; published progress is (k+1)/N*100 and strictly increasing; at the end the results are the fully launched list, the run is complete and progress is 100 (0 if N = 0) |
| Launch.CanLaunch | src/pages/Launch.tsx:35 | launching is allowed iff the ad-set, template and media selections are all non-empty |
| Launch.LaunchGate | src/pages/Launch.tsx:30 | the handler's truthy-length test agrees with `canLaunch` |
| Launch.MediaPreview | src/pages/Launch.tsx:190-199 | the preview shows min(n,5) badges, which are the first ids in order, and a "+(n-5) more" badge exactly when n > 5; together these account for all n ids |
| Launch.SelectedFilesPanel | src/pages/Launch.tsx:176-202 | the selected-files panel appears iff some media is selected; it then shows exactly the media preview of the selection, with at least one badge |
| Launch.LaunchPage.constructor | src/pages/Launch.tsx:23-27 | all selections empty and both dialogs closed |
| Launch.LaunchPage.ToggleAdSet | src/pages/Launch.tsx:66-71 | the ad-set selection becomes its toggle by the clicked id; nothing else changes; selections stay duplicate-free |
| Launch.LaunchPage.ToggleTemplate | src/pages/Launch.tsx:108-113 | the template selection becomes its toggle by the clicked id; nothing else changes; selections stay duplicate-free |
| Launch.LaunchPage.OpenMediaModal | src/pages/Launch.tsx:159 | the media dialog opens; nothing else changes |
| Launch.LaunchPage.CloseMediaModal | src/pages/Launch.tsx:212 | the media dialog closes; nothing else changes |
| Launch.LaunchPage.ToggleMediaInDialog | src/pages/Launch.tsx:209-215 | while the media dialog is open, the list that it hands to `onSelectionChange` becomes the media selection; it is the toggle of the old one; selections stay duplicate-free |
| Launch.LaunchPage.HandleLaunch | src/pages/Launch.tsx:29-33 | the progress dialog opens iff `canLaunch` holds; the selections and the media-dialog flag are unchanged |
| Launch.LaunchPage.CloseProgressModal | src/pages/Launch.tsx:221 | the progress dialog closes; nothing else changes |
| Selection.RemoveAll | src/pages/Library.tsx:157 | the id is gone; every other id keeps its membership; the result is an order-preserving subsequence |
| Selection.RemoveAllMultiset | src/pages/Library.tsx:157 | removal takes out exactly the occurrences of the id; every other id keeps its multiplicity |
| Selection.Toggle | src/pages/Launch.tsx:67-71 | the clicked id's membership flips and no other id's does; an absent id is appended at the end; a present id is removed by `RemoveAll`, which drops exactly its occurrences and keeps every other id with its multiplicity, in order; duplicate-freedom is preserved |
| Selection.ToggleTwiceAbsent | src/pages/Launch.tsx:67-71 | toggling an absent id twice gives exactly the original list |
| Selection.ToggleTwicePresent | src/pages/Launch.tsx:109-113 | toggling a present id twice, in a duplicate-free list, gives the same multiset with that id moved to the end |
| Seqs.Distinct | src/pages/Library.tsx:44 | the de-duplicated list has no duplicates and exactly the values of its source |
| Seqs.DistinctIsSubsequence | src/components/MediaLibraryModal.tsx:51 | the de-duplicated list is an order-preserving subsequence of its source |
| Seqs.DistinctFirstOccurrenceOrder | src/components/MediaLibraryModal.tsx:51 | a value listed before another occurs in the source before the other's first occurrence, so the list follows the order of first occurrences, as a `Set` iterates |
| MediaFilter.Lower | src/pages/Library.tsx:38 | lower-casing keeps the length, leaves no capital A-Z, maps each capital to its small letter and keeps every other character |
| MediaFilter.Includes | src/pages/Library.tsx:38 | the empty query is found in every name; a name that starts with the query includes it; a name shorter than the query never includes it |
| MediaFilter.IncludesIffOccurs | src/pages/Library.tsx:38 | `includes` holds iff the query occurs at some position of the name |
| MediaFilter.Matches | src/pages/Library.tsx:38-41 | an item matches iff the lower-cased query occurs at some position of its lower-cased name, the status filter is "all" or equals its status, and the uploader filter is "all" or equals its uploader |
| MediaFilter.FilterMedia | src/pages/Library.tsx:37-42 | an item is listed iff it is in the library and passes all three criteria; each passing item is listed as often as it occurs in the library and each other item not at all; the listing is an order-preserving subsequence of the library |
| MediaFilter.FilterWithoutCriteria | src/pages/Library.tsx:37-42 | with an empty query and both filters at "all", every item is listed, in order |
| MediaFilter.FilterKeepsAllIff | src/components/MediaLibraryModal.tsx:44-49 | the listing is the whole library iff every item passes the three criteria |
| MediaFilter.UploadersOfItems | src/pages/Library.tsx:44 | the de-duplicated uploader list names exactly the uploaders of some item |
| MediaFilter.UploadersInFirstOccurrenceOrder | src/pages/Library.tsx:44 | an uploader listed before another has an item that comes before every item of the other |
| MediaFilter.UniqueUploaders | src/components/MediaLibraryModal.tsx:51 | the uploader options are duplicate-free and name exactly the uploaders that occur; they form an order-preserving subsequence of the item uploaders; an uploader listed before another has an item ahead of all of the other's items |
| Library.EmptyStateHint | src/pages/Library.tsx:222-224 | the upload hint is chosen iff the query is empty and both filters are "all"; otherwise the hint is to adjust the filters |
| Library.EmptyStateHintIsAccurate | src/pages/Library.tsx:215-224 | the upload hint appears only with no query or filter, and then everything is listed; an empty listing of a non-empty library always shows the filter hint |
| Library.CheckboxUpdate | src/pages/Library.tsx:153-158 | checking appends the id at the end, even if it is already there; unchecking is `RemoveAll`: it drops exactly the id's occurrences and keeps every other id with its multiplicity, in order |
| Library.CheckboxClickIsToggle | src/pages/Library.tsx:152-158 | with the controlled checkbox's `checked = !includes(id)`, the update is exactly the toggle and keeps duplicate-freedom |
| Library.CheckingTwiceDuplicates | src/pages/Library.tsx:155 | checking an id that is already selected would list it twice |
| Library.LibraryPage.constructor | src/pages/Library.tsx:32-35 | empty query, both filters "all", empty selection; so every record is listed |
| Library.LibraryPage.FilteredMedia | src/pages/Library.tsx:37-42 | the page's listing is the shared filter applied to its six mock records under the current query and filters |
| Library.LibraryPage.Hint | src/pages/Library.tsx:215-224 | when the page lists nothing, its hint is to adjust the filters, since its library is not empty |
| Library.LibraryPage.ListsAllWithoutCriteria | src/pages/Library.tsx:37-42 | a page with no query and both filters "all" lists every record and would show the upload hint |
| Library.LibraryPage.SetSearchQuery | src/pages/Library.tsx:91 | only the query changes |
| Library.LibraryPage.SetStatusFilter | src/pages/Library.tsx:96 | only the status filter changes |
| Library.LibraryPage.SetUploaderFilter | src/pages/Library.tsx:107 | only the uploader filter changes |
| Library.LibraryPage.OnCheckboxChange | src/pages/Library.tsx:153-159 | the selection becomes the checkbox update of the old one; the query and filters are unchanged |
| MediaLibraryModal.MediaLibraryDialog.constructor | src/components/MediaLibraryModal.tsx:39-42 | the dialog keeps the given selection; empty query; both filters "all"; so every record is listed |
| MediaLibraryModal.MediaLibraryDialog.FilteredMedia | src/components/MediaLibraryModal.tsx:44-49 | the dialog's listing is the shared filter applied to its eight mock records under the current query and filters |
| MediaLibraryModal.MediaLibraryDialog.ListsAllWithoutCriteria | src/components/MediaLibraryModal.tsx:44-49 | a dialog with no query and both filters "all" lists the whole media library |
| MediaLibraryModal.MediaLibraryDialog.SetSearchQuery | src/components/MediaLibraryModal.tsx:88 | only the query changes |
| MediaLibraryModal.MediaLibraryDialog.SetStatusFilter | src/components/MediaLibraryModal.tsx:93 | only the status filter changes |
| MediaLibraryModal.MediaLibraryDialog.SetUploaderFilter | src/components/MediaLibraryModal.tsx:104 | only the uploader filter changes |
| MediaLibraryModal.MediaLibraryDialog.ToggleSelection | src/components/MediaLibraryModal.tsx:53-58 | the new list has the clicked id iff the property did not; no other id's membership changes; it is appended when absent and removed everywhere when present; duplicate-freedom is preserved; the property itself is never written |

## Left out

- The random delay before each launch step (`setTimeout`) is not modelled. It has no effect on the state.
- The coin flip (`Math.random() < 0.2`) is replaced by an injected flag per step, so the failure probability is not modelled.
- The `useEffect` lifecycle is not modelled: opening the dialog, and re-running when `isOpen` or the length changes. The model is one call of reset followed by N steps. Cancelling or re-entering a run part-way is not modelled.
- Progress is an exact real, so floating-point rounding and the `Math.round` in the display are not modelled.
- Lower-casing covers ASCII letters only, not the full Unicode `toLowerCase`.
- Rendering is not modelled: JSX, icons, badges, CSS classes, the status titles and descriptions, and the Dialog/Select/DropdownMenu components.
- src/components/Layout.tsx is not part of this model. It holds routing and a mobile-menu flag, with no logic beyond comparing paths.
- These buttons have no handlers behind them, so there is nothing to model: "Retry Failed", "Upload Media", "Launch Selected", "Delete Selected", and the Preview/Rename/Delete menu items.
- The mock ad-set and template records are not modelled; only their numeric ids enter the selections. The display-only media fields (size, date, thumbnail) are not modelled either.
- Launch.LaunchPage.ToggleMediaInDialog: the dialog's `selectedMedia` property is a `const` of one dialog object, so each click is modelled with a dialog built from the current selection. The source re-renders the one mounted dialog with the new property and keeps its query and filters across clicks; the model does not carry them from one click to the next.
- The concrete uploader list of the eight-record dialog library is not proved. The general contract of `MediaFilter.UniqueUploaders` covers it.
