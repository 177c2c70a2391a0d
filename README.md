# Bazaar: from user action to package transaction

This project models the part of Bazaar (a GTK application store for Flatpak)
that turns a user action into a package transaction, and proves properties of
that model. An action can be a search result activated for install, an install
or remove button on the full view, a favorites tile, an installed tile, or an
add-on dialog. The modelled parts are:

- **The entry resolver** (`bz_entry_group_find_entry`). It narrows a group's
  entries to the installed ones that a test accepts. It then branches on zero,
  one or many candidates. With many candidates it asks the user to choose an
  installation.
- **The transaction-confirmation flow of the main window.**
  - The busy guard.
  - The variant filter, which removes entries from the store in place.
  - The radios of the confirmation dialog and the auto-confirm bypass.
  - The selection of the entry to transact.
  - The transaction it builds, with the entry in exactly one slot.
  - The user-data reap that follows a successful removal with "Delete Data".
- **The callers of the resolver.**
  - The favorites tile's install/remove and support buttons, which fall back to
    a scan of all entries, and its unfavorite request.
  - The favorites page's fetch of the user's favorites: the app-id extraction,
    the sort by title and the empty/content switch. Also its tile activation.
  - The installed tile's predicates and its remove, support and add-ons
    buttons, with the add-on transaction direction.
- **The progress bar theme.**
  - The preferences dialog's table of twelve themes and its flag buttons.
  - The two-way link between those buttons and the
    `global-progress-bar-theme` setting.
  - The global progress indicator's setters (idempotent booleans, clamped
    reals, animation targets) and the fill it draws for each theme.

Anything the code awaits or asks the toolkit for is an input of the modelled
operation:

- the group's entries, as a `Result` of a fetch;
- the dialog's response and the state the user leaves the radios in;
- the network reply and the outcome of the transaction;
- whether a window, a page or a state object exists.

A surface that may have been destroyed (a weak reference) is a nullable object
parameter, or a `bool`.

Where the code holds state, the model is a class whose methods update its
fields: the window (`Window.AppWindow`), the variant store
(`Window.EntryStore`), the favorites page and tile, the preferences dialog with
its settings, and the progress indicator. Where the code is a loop, the model
is a method with that loop. The method is proved equal to a function on
sequences, and the properties are lemmas about that function.

Three behaviours of the code worth stating:

- With two or more candidates and no window, the resolver returns nothing and
  leaves the error unset (`src/bz-entry-group-util.c:64`, `:123`). It does not
  report "not found".
- The response "cancel" is not treated specially when it is matched against
  the candidates' unique ids.
- `transact_fiber` reads the direction of the transaction from the response
  string, not from the request. `Window.OfferedResponseKeepsDirection` proves
  that the two agree for every response the dialog offers.

## Model

| member | source | states |
|---|---|---|
| EntryGroupUtil.CandidatesExactly | src/bz-entry-group-util.c:44-54 | an entry is a candidate iff it is one of the group's entries, is installed, and is accepted by the test (no test accepts everything) |
| EntryGroupUtil.CandidatesInStoreOrder | src/bz-entry-group-util.c:44-54 | the candidates keep the store's relative order (they are a subsequence of the entries) |
| EntryGroupUtil.CandidateCopies | src/bz-entry-group-util.c:44-54 | a qualifying entry is a candidate exactly as many times as it occurs in the store, any other never |
| EntryGroupUtil.CollectCandidates | src/bz-entry-group-util.c:44-54 | the first loop collects exactly the candidates, in store order |
| EntryGroupUtil.UniqueIds | src/bz-entry-group-util.c:86-100 | one response id per candidate, the i-th being the i-th candidate's unique id |
| EntryGroupUtil.BuildChoiceDialog | src/bz-entry-group-util.c:78-100 | the choice dialog offers "cancel" followed by every candidate's unique id in order; the first candidate's id is the default |
| EntryGroupUtil.MatchResponseIsFirst | src/bz-entry-group-util.c:107-120 | no candidate matches iff none has the response as its unique id; otherwise the match is the first candidate with that id |
| EntryGroupUtil.MatchCandidates | src/bz-entry-group-util.c:109-119 | the third loop returns the first candidate whose unique id equals the response |
| EntryGroupUtil.FindEntry | src/bz-entry-group-util.c:28-124 | the resolver returns what the three-way branch on the candidate count (and the user's answer) determines, and presents a dialog exactly when there are two or more candidates and a window |
| EntryGroupUtil.FoundQualifies | src/bz-entry-group-util.c:51-118 | any entry returned comes from a successful fetch, is one of the group's entries, is installed and passes the test |
| EntryGroupUtil.FetchErrorPassedThrough | src/bz-entry-group-util.c:39-41 | a failed fetch gives no entry, passes the fetch error through and shows no dialog |
| EntryGroupUtil.NoCandidateSetsUnknown | src/bz-entry-group-util.c:56-61 | with no candidate, nothing is returned, G_IO_ERROR_UNKNOWN is set with its message, and no dialog is shown |
| EntryGroupUtil.SingleCandidateReturned | src/bz-entry-group-util.c:62-63 | with exactly one candidate, it is returned and no dialog is shown |
| EntryGroupUtil.ManyWithoutWindowIsSilent | src/bz-entry-group-util.c:62-123 | with two or more candidates and no window, nothing is returned, no error is set and no dialog is shown |
| EntryGroupUtil.ManyWithWindowAsks | src/bz-entry-group-util.c:64-123 | with two or more candidates and a window, the dialog has "cancel" as close and destructive response, one response per candidate and the first as default; a returned entry is the candidate named by the response; an unmatched or missing response gives no entry and no error; a response naming a candidate always finds one |
| Window.RetainedExactly | src/bz-window.c:1139-1151 | exactly the entries that are not holding and whose installed flag equals the direction survive the variant filter |
| Window.RetainedCopies | src/bz-window.c:1191-1203 | a surviving entry stays in the store as many times as it occurs, a skipped one not at all |
| Window.RetainedInStoreOrder | src/bz-window.c:1191-1203 | the survivors keep their relative store order |
| Window.EntryStore.constructor | src/bz-window.c:776 | the store holds the group's fetched entries |
| Window.EntryStore.Remove | src/bz-window.c:1198 | g_list_store_remove drops the item at the index and keeps the others in order |
| Window.EntryStore.Filter | src/bz-window.c:1191-1203 | the in-place loop, which re-reads the same index after a removal, leaves exactly the retained entries in the store |
| Window.LayoutShape | src/bz-window.c:1204-1271 | n variant radios when n > 1 survive (none otherwise), then Keep Data and Delete Data when removing; the first variant radio and Keep Data start active |
| Window.CreateEntryRadioButtons | src/bz-window.c:1177-1275 | the store is filtered in place and the radios returned are the layout over the survivors (no store: only the data radios) |
| Window.BuildVariantRadios | src/bz-window.c:1204-1235 | the loop adds one radio per surviving variant when there are two or more, the first one active |
| Window.RadioStates | src/bz-window.c:815-818 | one active state per radio of the dialog |
| Window.FirstActive | src/bz-window.c:836-845 | the index found is below the bound, its radio is active and no earlier one is; none is found only when no radio below the bound is active |
| Window.SelectEntry | src/bz-window.c:833-846 | the selection loop picks the survivor at the first active radio among the first min(survivors, radios), else survivor 0, which is absent when nothing survived |
| Window.SelectedFollowsChoice | src/bz-window.c:833-846 | with two or more survivors, the survivor whose radio the user left active is selected, or the first when the choice names no variant |
| Window.Selected | src/bz-window.c:833-846 | the chosen entry is one of the survivors, and none is chosen exactly when nothing survived |
| Window.Decide | src/bz-window.c:789-848 | transact_fiber's decision as written: a failure carries the fetch's or the response's error; a submission for an entry targets that entry; a submission for a group targets one of its survivors, and has no entry exactly when nothing survived the filter |
| Window.Plan | src/bz-window.c:833-865 | the corrected flow: the decision as written, except that a submission with no entry aborts with false; a dispatch keeps the entry and direction submitted and plans a reap exactly when Delete Data was active |
| Window.TransactionFor | src/bz-window.c:1051-1060 | a removal puts the entry only in the remove slot, an install only in the install slot, and the update slot is always empty |
| Window.AppWindow.constructor | src/bz-window.c:1389-1411 | a new window with a state shows "loading" while busy and "main" otherwise, with empty logs, and has no group in the full view |
| Window.AppWindow.TryTransact | src/bz-window.c:1116-1137 | when busy, a "Can't do that right now!" toast and no fiber; otherwise the request is handed to a fiber unchanged |
| Window.AppWindow.Transact | src/bz-window.c:1041-1103 | transact appends exactly the one-slot transaction of the entry to the transaction log |
| Window.AppWindow.Update | src/bz-window.c:1322-1336 | update appends a transaction with only the update slot filled |
| Window.AppWindow.ShowGroup | src/bz-window.c:988-1002 | the full view shows the group, and the "view" page is pushed unless it is already visible |
| Window.AppWindow.SearchWidgetSelect | src/bz-window.c:257-282 | an activated result for install asks to remove iff the group has removable entries, without auto-confirm and through the busy guard; otherwise the group is shown |
| Window.AppWindow.SetPage | src/bz-window.c:1389-1411 | without a state nothing changes; busy shows "loading" and pops to "main", not busy shows "main"; the full view's group is cleared unless the visible page is "view" |
| Window.AppWindow.UpdateFlathubStyle | src/bz-window.c:355-386 | the window has the flathub style iff the visible page's tag contains "flathub", or is "main" while the main view stack shows "flathub" |
| Window.TransactFiber | src/bz-window.c:750-866 | a destroyed window gives no result; a failed fetch shows the error and fails the fiber; otherwise the confirmation dialog presented is the one the request calls for, and the fiber settles as Window.Plan decides (no transaction on an abort, including a submission with no entry, one transaction on a dispatch, a reap only after it succeeds) while the busy flag, toasts and navigation are left alone |
| Window.Confirm | src/bz-window.c:789-846 | the dialog, response and selection phase decides what the flow's decision function says and presents the dialog the request calls for |
| Window.Finish | src/bz-window.c:843-865 | an abort touches neither log; a dispatch with an entry submits its transaction; a failed transaction fails the fiber with no reap; a successful one resolves true and reaps exactly when Delete Data was active |
| Window.Attempt | src/bz-window.c:1105-1137 | when busy, only a toast: no dialog, no transaction, no reap, no error; otherwise the fiber runs and presents the dialog the request calls for |
| Window.SearchSelectDirection | src/bz-window.c:263-276 | the search result asks to remove iff the group has removable entries, and never auto-confirms |
| Window.RequestFor | src/bz-window.c:257-330 | the search and full-view callbacks target their group and the entry callbacks their entry; only the full view passes a source widget; only the full view's install and the two add-on callbacks ask for auto-confirm |
| Window.InstallEntryAsks | src/bz-window.c:316-322 | a tile's "install" of an entry always presents the confirmation dialog |
| Window.AddonPrompts | src/bz-window.c:300-314 | installing an add-on never asks for confirmation; removing one always does |
| Window.IndexOfTag | src/bz-window.c:1400 | the index found holds the tag; none is found only when the tag is on no page of the stack |
| Window.PopToTag | src/bz-window.c:1400 | popping to a tag on the stack leaves that page visible; a tag that is not there changes nothing |
| Window.ContainsFindsWindow | src/bz-window.c:368 | the substring search succeeds iff some window of the tag equals the pattern |
| Window.RemoveAlwaysPrompts | src/bz-window.c:802-821 | a removal always presents the dialog, and its last two radios are Keep Data (active) and Delete Data |
| Window.AutoConfirmBypass | src/bz-window.c:802-807 | the dialog is skipped iff the direction is install, auto-confirm is set and there is at most one radio; then the response is "install", regardless of any answer, and no data is deleted |
| Window.UnrecognisedResponseDeclines | src/bz-window.c:823-826 | a response other than "install" or "remove" ends the flow with false: no transaction and no reap |
| Window.OfferedResponseKeepsDirection | src/bz-window.c:823-826 | a response the dialog offers gives a transaction in the direction that was asked for |
| Window.PlanDispatchesEligibleVariant | src/bz-window.c:833-846 | a group's transaction only ever targets one of its fetched entries that survived the filter (not holding, installed flag equal to the direction) |
| Window.ChosenVariantTransacted | src/bz-window.c:833-846 | with two or more survivors and an accepting response, the transacted entry is the one whose radio the user left active |
| Window.ReapOnlyWhenDeleteChosen | src/bz-window.c:854-863 | a reap is planned only on a removal whose dialog was shown with Delete Data active; it goes through the group for a group and by id for an entry |
| Window.DeleteChosenPlansReap | src/bz-window.c:816-820 | removing an entry with Delete Data active and the "remove" response dispatches the removal with a reap of its id |
| Window.NullEntryReachesTransact | src/bz-window.c:833-846 | as written, a group whose only entry is holding, installed with auto-confirm, reaches transact with no entry; the corrected plan aborts with false |
| FavoritesTile.FirstPassing | src/bz-favorites-tile.c:304-311 | nothing is found iff no entry passes; otherwise the found entry passes and no earlier entry does |
| FavoritesTile.ScanFirst | src/bz-favorites-tile.c:304-314 | the scan loop returns the first entry in list order that passes the test |
| FavoritesTile.FindEntry | src/bz-favorites-tile.c:272-315 | find_entry returns the resolver's entry, else the fallback's result over the second copy, and shows the resolver's dialog |
| FavoritesTile.FindPassesTest | src/bz-favorites-tile.c:281-314 | whatever find_entry returns passes the test and is one of the entries of one of the two copies |
| FavoritesTile.FindFailsNotFound | src/bz-favorites-tile.c:285-314 | find_entry fails only with the second fetch's error, or with G_IO_ERROR_NOT_FOUND and the message for the no-test or the test case |
| FavoritesTile.FallbackIgnoresInstallState | src/bz-favorites-tile.c:281-310 | with nothing installed, any empty resolver result falls back to the first entry of the second copy that passes the test, installed or not |
| FavoritesTile.InstallRemoveFiber | src/bz-favorites-tile.c:317-353 | a removable group resolves among installed entries and emits "remove" (an installed entry), or shows an error only if one was set; otherwise find_entry's entry is emitted as "install", or its error shown; the direction agrees with the button's icon and tooltip |
| FavoritesTile.SupportFiber | src/bz-favorites-tile.c:367-391 | the donation URL of find_entry's entry is opened, or its error is shown |
| FavoritesTile.Tile.constructor | src/bz-favorites-tile.c:233-237 | a new tile has no group; the unfavorite stack showing "button" and the row being visible are the initial state of the tile's UI template, which is not part of this model |
| FavoritesTile.Tile.SetGroup | src/bz-favorites-tile.c:244-256 | the tile's group is replaced |
| FavoritesTile.Tile.UnfavoriteClicked | src/bz-favorites-tile.c:461-473 | the unfavorite stack shows the spinner while the request runs |
| FavoritesTile.Tile.UnfavoriteFiber | src/bz-favorites-tile.c:405-459 | nothing is sent and nothing changes without a page, a state, a token and authentication; otherwise the DELETE to "/favorites/<id>/remove" is sent with the token; a failure brings the button back and shows the error if there is a window; a success hides the row |
| FavoritesPage.AppIdsExactly | src/bz-favorites-page.c:414-424 | an id is requested iff some array element carries it as its "app_id"; elements without one add nothing |
| FavoritesPage.AppIdCopies | src/bz-favorites-page.c:414-424 | an id listed several times in the reply is requested as many times |
| FavoritesPage.CollectAppIds | src/bz-favorites-page.c:414-424 | the loop collects the "app_id" of each element in order, skipping elements without one |
| FavoritesPage.InsertPermutes | src/bz-favorites-page.c:438 | inserting a group into the sorted store adds exactly that group |
| FavoritesPage.InsertSorted | src/bz-favorites-page.c:438 | inserting into a store sorted by title keeps it sorted |
| FavoritesPage.SortByTitleCorrect | src/bz-favorites-page.c:431-438 | the sorted store is ordered by title and is a permutation of the generated groups |
| FavoritesPage.Page.constructor | src/bz-favorites-page.c:326-330 | a new page has no model |
| FavoritesPage.Page.SetPage | src/bz-favorites-page.c:349-357 | the visible child is "content" iff there is a model and it is not empty |
| FavoritesPage.CopyGroups | src/bz-favorites-page.c:431-437 | the copy loop appends every generated group in order |
| FavoritesPage.FetchFavoritesFiber | src/bz-favorites-page.c:368-452 | a destroyed page rejects with G_IO_ERROR_CANCELLED before reading anything; otherwise the model becomes the generated groups for the requested ids, sorted by title, the visible child follows it, and the fiber resolves true |
| FavoritesPage.FetchedModelHoldsEveryGroup | src/bz-favorites-page.c:427-444 | the model holds exactly the groups generated for the favorites |
| FavoritesPage.NoFavoritesWithoutArray | src/bz-favorites-page.c:393-409 | signed out, after a failed query, or with a reply that is not an array, the id list is empty and the page still proceeds |
| FavoritesPage.TileActivatedFiber | src/bz-favorites-page.c:174-223 | a destroyed tile rejects; without a page, model, window or group nothing happens; otherwise the resolver's entry is shown, else the first of a fresh copy, else the copy's error, else nothing |
| FavoritesPage.ActivationAgreesWithFind | src/bz-favorites-page.c:201-216 | activation shows the same entry as the tile's no-test find_entry, and stays quiet exactly where find_entry reports an empty group |
| FavoritesPage.ActivationReportsOnlyRefetchError | src/bz-favorites-page.c:204-211 | the only error an activation shows is the second fetch's, and only after the resolver produced nothing |
| InstalledTile.Reported | src/bz-installed-tile.c:271-273 | an error is shown iff the resolver set one, with its message |
| InstalledTile.RemoveFiber | src/bz-installed-tile.c:249-275 | the resolver over installed entries with no test; its entry is emitted as "remove" (installed, one of the group's), else its error is shown if one was set |
| InstalledTile.SupportFiber | src/bz-installed-tile.c:155-179 | only the installed-only resolver is used, with no fallback; its entry has a donation URL, which is opened |
| InstalledTile.InstallAddonsFiber | src/bz-installed-tile.c:193-235 | the add-ons dialog opens for the resolver's entry, which is installed and has add-ons; else its error is shown if one was set |
| InstalledTile.AddonTransact | src/bz-installed-tile.c:147-152 | an installed add-on emits "remove-addon", any other "install-addon" |
| InstalledTile.WindowTrigger | src/bz-window.c:620-622 | of the installed page's signals, only "install-addon", "remove-addon" and "remove" start a transaction, each for the tile's entry, and all but "install-addon" ask for a removal; "show-entry" only shows the group, through installed_page_show_cb (src/bz-installed-page.c is not part of this model) |
| InstalledTile.AddonTransactConfirmsOnlyRemoval | src/bz-installed-tile.c:147-152 | the add-on's transaction goes the way of its installed state, and the window asks for confirmation exactly when it removes |
| InstalledTile.RemoveSignalConfirms | src/bz-installed-tile.c:267 | the tile's "remove" reaches the window as a removal of that entry, which always asks for confirmation |
| InstalledTile.Tile.constructor | src/bz-installed-tile.c:330-334 | a new tile has no group |
| InstalledTile.Tile.SetGroup | src/bz-installed-tile.c:341-353 | the tile's group is replaced |
| PreferencesDialog.BarThemeIdsDistinct | src/bz-preferences-dialog.c:31-44 | the twelve theme ids are pairwise distinct |
| PreferencesDialog.StyleClassesFollowIds | src/bz-preferences-dialog.c:31-44 | each theme's style class is its id followed by "-theme" |
| PreferencesDialog.ThemeIndex | src/bz-preferences-dialog.c:102-108 | the index found names a theme with that id; none is found only when no theme has it |
| PreferencesDialog.IndexFrom | src/bz-preferences-dialog.c:102-108 | the search from an index finds a theme with that id at or after it, or none has it from there on |
| PreferencesDialog.ThemeIndexOfId | src/bz-preferences-dialog.c:83-109 | the search for a button's own theme id finds that button, so the write a toggle makes selects the button already active |
| PreferencesDialog.Dialog.constructor | src/bz-preferences-dialog.c:197-202 | the dialog's buttons are built before anything is bound, with no button active |
| PreferencesDialog.Dialog.CreateFlagButtons | src/bz-preferences-dialog.c:117-146 | button i carries theme i's tooltip, classes and id, and every button but the first joins the first one's group |
| PreferencesDialog.Dialog.BindSettings | src/bz-preferences-dialog.c:149-178 | without settings nothing is bound; otherwise the switches take the stored values, the theme handler is connected and one initial sync activates the stored theme's button, leaving the stored values as they were |
| PreferencesDialog.Dialog.SettingsChanged | src/bz-preferences-dialog.c:93-110 | the button at the first index whose id equals the setting becomes active; an id no button has changes nothing |
| PreferencesDialog.Dialog.ThemeSettingChanged | src/bz-preferences-dialog.c:172-176 | a change of the stored theme made elsewhere is followed by the buttons once the handler is connected |
| PreferencesDialog.Dialog.SetButtonActive | src/bz-preferences-dialog.c:106 | the button becomes the group's active one; only when it was not already active does its toggle store its theme id |
| PreferencesDialog.Dialog.FlagButtonToggled | src/bz-preferences-dialog.c:77-91 | a toggle writes the button's theme id only when the button is now active, and only to settings that exist |
| PreferencesDialog.Dialog.SwitchToggled | src/bz-preferences-dialog.c:155-170 | a switch flip reaches its setting once the switches are bound, and nothing else changes |
| PreferencesDialog.New | src/bz-preferences-dialog.c:204-216 | a new dialog is bound to the settings and its active button is the stored theme's, if any button has it |
| GlobalProgress.Clamp01 | src/bz-global-progress.c:735 | the result lies in [0, 1], equals the input inside that range and the nearer bound outside it |
| GlobalProgress.AtLeastZero | src/bz-global-progress.c:794 | the result is never negative, never below the input, and equals a non-negative input |
| GlobalProgress.Indicator.constructor | src/bz-global-progress.c:569-616 | a new indicator is inactive with every progress at 0, expand size 100, and idle animations |
| GlobalProgress.Indicator.SetChild | src/bz-global-progress.c:624-644 | setting the current child, or a child that already has a parent, changes nothing; otherwise the previous child is released and replaced |
| GlobalProgress.Indicator.SetActive | src/bz-global-progress.c:653-682 | an unchanged value is a no-op; a change springs the transition from its current progress to 1 with the up spring when activating, or to 0 with the down spring |
| GlobalProgress.Indicator.SetPending | src/bz-global-progress.c:691-717 | an unchanged value is a no-op; a change springs the pending progress towards 1 or 0 |
| GlobalProgress.Indicator.SetFraction | src/bz-global-progress.c:726-760 | the fraction becomes the clamped input; a target below the shown fill, or within 0.001 of it, is shown at once with the animation stopped; a larger one is sprung towards from the shown fill |
| GlobalProgress.FractionMovesOnlyUp | src/bz-global-progress.c:737-757 | an animated fill always moves upwards by at least 0.001 |
| GlobalProgress.Indicator.SetActualFraction | src/bz-global-progress.c:769-779 | the shown fill is the clamped input |
| GlobalProgress.Indicator.SetTransitionProgress | src/bz-global-progress.c:788-798 | the transition progress is the input floored at 0 |
| GlobalProgress.Indicator.SetPendingProgress | src/bz-global-progress.c:807-817 | the pending progress is the input floored at 0 |
| GlobalProgress.Indicator.SetExpandSize | src/bz-global-progress.c:826-836 | the expand size is the input floored at 0 |
| GlobalProgress.FillFor | src/bz-global-progress.c:309-460 | no settings gives the solid accent colour; a gradient is drawn iff the theme is the id of a theme button other than the first ("accent-color"), and it is that theme's well-formed gradient |
| GlobalProgress.ThemeButtonsHaveGradients | src/bz-global-progress.c:315-455 | every theme of the preferences table but "accent-color" has a gradient, and "accent-color" has none |
| GlobalProgress.GradientsNameButtons | src/bz-global-progress.c:315-455 | every theme name with a gradient is the id of a theme button other than the first |
| GlobalProgress.GradientsWellFormed | src/bz-global-progress.c:315-455 | every gradient runs from offset 0 to 1 in ascending stops with colours in range |
| GlobalProgress.GradientStopCounts | src/bz-global-progress.c:315-455 | sunset, desert, pastel-sky and meadow have two stops and the rest three |

## Left out

- Dialog presentation and awaiting. The dialog's response, and the state the user leaves the radios in, are inputs. The model records which dialog would have been presented.
- Fibers, the scheduler, reference counting, signal emission and property notification. A fiber is a method run to completion. A weak reference is a nullable object or a `bool`. Two flows running at once are not modelled.
- The network and JSON parsing. The favorites reply is an input: a failure, a non-array, or the array's optional "app_id" members. The unfavorite DELETE is recorded as a value, and its outcome is an input.
- The transaction manager. Submission appends a transaction to a log, and the transaction's outcome is an input. The reap is recorded the same way, and `bz_reap_user_data_dex` is not part of this model.
- Opening URIs. The donation URL is returned as a `Launch` effect.
- The add-ons dialog and the application map factory. The factory is the function input `generate`. The dialog is the `OpenAddons` effect.
- UTF-8 collation. Titles compare through an integer collation key, which gives a total preorder. `g_list_store_sort` is modelled as a stable insertion sort; its own order for equal titles is not modelled.
- Rendering. This covers `snapshot` geometry and clips, `measure`, `tick_cb`, the spring's velocity and parameter values, and NaN inputs; the setters take `real`. The 0.001 tolerance of `G_APPROX_VALUE` is exact.
- The comet animation in `transact`, key handling, `check_transactions`, src/bz-installed-page.c, translations, and the wording of the dialogs' buttons, subtitles and extra widgets.
- The tile fibers that call the resolver (install/remove, support, add-ons, activation) run for the tile's own group. Those fibers are not modelled for a tile without a group: the source passes NULL to the resolver, whose precondition check returns without an error. The unfavorite path and fiber do model a missing group.
- PreferencesDialog.Dialog.SetButtonActive: the "changed" signal that its write sends back into `global_progress_theme_settings_changed` is not replayed. `PreferencesDialog.ThemeIndexOfId` shows that replaying it would select the same active button and change nothing.
- Window.AppWindow.ShowGroup: the visible page is compared with the "view" tag and not with the page object. On an empty navigation stack the source compares NULL with the registered "view" page; the model takes that page to exist and pushes it. Pushing a page that is already deeper in the stack is not modelled.
- Window.TransactFiber: follows Window.Plan, not the code as written, when the variant filter leaves no entry and the response accepts. The source then calls `transact` with a NULL entry and submits that transaction (src/bz-window.c:848, :1051-1103). The model aborts with false and submits nothing (see "## Findings").
- Window.Finish: for a decision to submit with no entry it follows Window.Plan: it resolves false and logs no transaction, where the source submits `transact (self, NULL, …)`.
- Window.TransactFiber: the `source` widget and the window's transaction sidebar only steer the comet animation, and are not modelled.

## Findings

| source | as written | input that shows it | evidently intended | confidence | as-written member | corrected member |
|---|---|---|---|---|---|---|
| src/bz-window.c:833-846 | when the variant filter removes every entry of the group, `g_list_model_get_item (store, 0)` returns NULL and `transact` is called with a NULL entry | a group whose only entry is holding, installed with auto-confirm: no dialog is shown, the response is "install", and the store is empty | no transaction without an entry: the flow ends with false | not executed | Window.Decide (shown by Window.NullEntryReachesTransact) | Window.Plan (proved by Window.PlanDispatchesEligibleVariant) |

`Window.Decide` is the decision as written: it can yield a submission with no
entry. `Window.Plan` maps that submission to an abort with false. The window's
methods (`Window.Finish`, `Window.TransactFiber`) follow `Window.Plan`.
`Window.PlanDispatchesEligibleVariant` proves that every transaction the
corrected flow submits for a group targets one of its surviving entries.
