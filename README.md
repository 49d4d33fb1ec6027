# Citizen road reports: offline-first report synchronisation, in Dafny

This project models the core of a web client for citizen road reports. Users file reports
about road damage, landslides and fallen signs. Every change goes to a remote API when the
client is online. When it is offline, or the remote call fails, the change is kept in a
local cache and queued as an operation. The queue is replayed in order when connectivity
returns.

The model has one module per core file:

- `ReportModel` (`report_model.dfy`): the report entity, the list filter and the queued
  operation. A report is a record of optional fields, so the same type covers a full
  report, an update payload and the `{ id }` stub of a delete. Object spread is modelled
  as `Overlay`.
- `ReportCache` (`report_cache.dfy`): the local cache service. It is a class whose two
  `seq` fields (the cached reports and the operation queue) are reassigned by its methods.
  Each method is proved against a pure function on the lists: filtering, lookup by id,
  upsert, local id generation, removal, enqueue and dequeue, and seeding.
- `ReportData` (`report_data.dfy`): the synchronisation coordinator. A class over the
  cache routes each call to the remote or to the cache. It persists offline mutations and
  replays the queue (`FlushQueue`, a loop proved against the pure `Drain`). Connectivity,
  the remote's answer, the clock and fresh operation ids are parameters.
- `ReportFacade` (`report_facade.dfy`): the state holder for the screens. It keeps the
  current list sorted newest first (a stable sort), a loading flag, the last error and the
  last filter.
- `ReportList` (`report_list.dfy`): the list screen. It covers free-text search, pages of
  ten, and the reload, search, clear, paging and delete handlers.
- `ReportUi` (`report_ui_helpers.dfy`): badge classes, icons and labels, including their
  fallbacks for values outside the enums.
- `Navbar` (`navbar.dfy`): the navigation bar. It covers the role-dependent menu, the
  drop-downs (at most one open), the login modal and its return address, the user's
  initials and role label, and the unread count.
- `SeedSample` (`seed_sample.dfy`): the fixture script. It parses its command line and
  generates numbered sample records.
- Support modules: `Wrappers` (Option, Result), `Seqs` (order-preserving subsequence) and
  `Text` (ASCII case mapping, `includes`, `trim`, `split`, decimal numbers).

JavaScript behaviours that decide outcomes are written out:

- Truthiness of ids (0 is falsy).
- `??`.
- Spread: absent keys keep the base value.
- `===` on absent ids.
- Exceptions from reading a property of `undefined`, modelled as errors.
- The difference between an exception thrown before an Observable exists (`Throws`) and an
  Observable that errors (`Fails`).

## Model

| member | source | states |
|---|---|---|
| ReportModel.OverlayLaws | src/app/reports/data-access/report-cache.service.ts:35 | spreading `{}` or a record over itself changes nothing; spreading is associative |
| ReportModel.OverlayLastWriteWins | src/app/reports/data-access/report-cache.service.ts:35 | key by key, the last write wins: a key present in the later record takes its value, an absent key keeps the earlier value |
| ReportCache.MatchesFilterSpec | src/app/reports/data-access/report-cache.service.ts:185-207 | the filter throws exactly for a report without a location that passed category and status under a non-empty location criterion; otherwise it agrees with the declarative filter (exact category/status, case-insensitive location containment, inclusive date range) |
| ReportCache.FilterReportsSpec | src/app/reports/data-access/report-cache.service.ts:18-24 | a filtered read fails exactly when the predicate throws on some report; on success it returns, in order and with multiplicities, exactly the accepted reports |
| ReportCache.ReadWithoutFilter | src/app/reports/data-access/report-cache.service.ts:18-22 | without a filter the whole cache is returned |
| ReportCache.IndexOfId | src/app/reports/data-access/report-cache.service.ts:32 | the result is the first position holding the id, or -1 exactly when no entry has it |
| ReportCache.FindById | src/app/reports/data-access/report-cache.service.ts:26-28 | the result is absent exactly when no entry has the id; otherwise it is a cached entry with that id |
| ReportCache.GenerateLocalId | src/app/reports/data-access/report-cache.service.ts:209-213 | the result is 1 for an empty cache, exceeds every id (absent ids count as 0) and is one more than some id |
| ReportCache.GeneratedIdIsFresh | src/app/reports/data-access/report-cache.service.ts:37 | the generated id, 0 included, is carried by no cached report |
| ReportCache.UpsertMerges | src/app/reports/data-access/report-cache.service.ts:30-43 | a cached truthy id: same length, only the first entry with the id changes, it becomes the spread with the update time kept or set to now, and the merged entry is returned |
| ReportCache.UpsertAppends | src/app/reports/data-access/report-cache.service.ts:36-42 | no truthy id or an uncached one: the cache gains exactly one entry at the end, the input with the given or a generated id and both times set to now, every other key as given; the call returns it, or nothing for an uncached truthy id |
| ReportCache.UpsertWithoutIdReadsBack | src/app/reports/data-access/report-cache.service.ts:30-43 | an upsert without id returns an entry with an id, and looking that id up afterwards finds the returned entry, whatever the cached ids (also when the generated id is 0) |
| ReportCache.UpsertZeroId | src/app/reports/data-access/report-cache.service.ts:32-42 | the id 0 never merges; the entry is appended keeping id 0 and returned |
| ReportCache.RemoveId | src/app/reports/data-access/report-cache.service.ts:45-48 | exactly the entries with another id remain, each as often as before; with the id absent nothing changes |
| ReportCache.RemoveIdKeepsOrder | src/app/reports/data-access/report-cache.service.ts:45-48 | the remaining entries keep their order |
| ReportCache.IndexOfOp | src/app/reports/data-access/report-cache.service.ts:56 | the result is the first queue position with the operation id, or -1 exactly when none has it |
| ReportCache.WithoutOp | src/app/reports/data-access/report-cache.service.ts:67-70 | exactly the operations with another id remain, each as often as before |
| ReportCache.EnqueueSpec | src/app/reports/data-access/report-cache.service.ts:54-65 | with unique ids: a queued id is replaced in place, every other position keeping its operation; a new one is appended at the end; ids stay unique and the entry with the id is the new operation |
| ReportCache.EnqueueSameIdTwice | src/app/reports/data-access/report-cache.service.ts:54-65 | enqueueing two operations with one id leaves only the later one |
| ReportCache.DequeueKeepsOrder | src/app/reports/data-access/report-cache.service.ts:67-70 | dequeueing keeps the other operations in their order |
| ReportCache.DequeueKeepsIdsUnique | src/app/reports/data-access/report-cache.service.ts:67-70 | dequeueing keeps operation ids unique |
| ReportCache.SeedSpec | src/app/reports/data-access/report-cache.service.ts:80-130 | seeding is idempotent, keeps a non-empty cache, and fills an empty one with the reports 1, 2, 3 |
| ReportCache.ReportCacheService.constructor | src/app/reports/data-access/report-cache.service.ts:15-16 | both in-memory lists start empty |
| ReportCache.ReportCacheService.GetReports | src/app/reports/data-access/report-cache.service.ts:18-24 | the read equals the filtered read of the cached list |
| ReportCache.ReportCacheService.GetReport | src/app/reports/data-access/report-cache.service.ts:26-28 | the result is the first cached entry with the id |
| ReportCache.ReportCacheService.Upsert | src/app/reports/data-access/report-cache.service.ts:30-43 | the new list and the returned entry are those of the upsert; the queue is unchanged |
| ReportCache.ReportCacheService.Remove | src/app/reports/data-access/report-cache.service.ts:45-48 | the list loses exactly the entries with the id; the queue is unchanged |
| ReportCache.ReportCacheService.ReplaceAll | src/app/reports/data-access/report-cache.service.ts:50-52 | the list becomes the given list; the queue is unchanged |
| ReportCache.ReportCacheService.EnqueueOperation | src/app/reports/data-access/report-cache.service.ts:54-65 | the queue is replaced in place or appended to; the reports are unchanged |
| ReportCache.ReportCacheService.DequeueOperation | src/app/reports/data-access/report-cache.service.ts:67-70 | the queue loses exactly the operations with the id; the reports are unchanged |
| ReportCache.ReportCacheService.GetQueue | src/app/reports/data-access/report-cache.service.ts:72-74 | the result is the queue |
| ReportCache.ReportCacheService.ClearQueue | src/app/reports/data-access/report-cache.service.ts:76-78 | the queue becomes empty; the reports are unchanged |
| ReportCache.ReportCacheService.SeedSampleData | src/app/reports/data-access/report-cache.service.ts:80-130 | an empty cache receives the samples, a non-empty one is kept, and the result is the cache |
| ReportData.NormalizeSpec | src/app/reports/data-access/report-data.service.ts:201-211 | a normalised report has both times and both owner fields; an existing creation time and owner are kept, the update time is now, and no other field changes |
| ReportData.SanitisedMergeKeepsCachedFlags | src/app/reports/data-access/report-data.service.ts:221-226 | the offline keys are deleted, not cleared, so merging the sanitised record keeps the cached entry's offline flags |
| ReportData.FetchAllSpec | src/app/reports/data-access/report-data.service.ts:36-45 | a successful online fetch replaces the whole cache and returns the remote list; after a failed one the cache read is emitted, or a filter exception becomes an error notification; offline the remote is not consulted, the cache read is emitted, and a filter exception escapes synchronously |
| ReportData.FetchOneSpec | src/app/reports/data-access/report-data.service.ts:47-56 | a remote hit is upserted into the cache and returned; otherwise the cache is unchanged, the answer is the first cached entry with the id, and the fetch errs with "not found" exactly when no entry has it |
| ReportData.PersistDeleteSpec | src/app/reports/data-access/report-data.service.ts:163-178 | an offline delete removes a truthy id from the cache, appends exactly one delete operation targeting the id, and returns the record flagged |
| ReportData.PersistWriteSpec | src/app/reports/data-access/report-data.service.ts:180-198 | an offline create or update that stores a record returns it flagged with the action and appends one operation of that type carrying the stored record and its id |
| ReportData.PersistWriteThrows | src/app/reports/data-access/report-data.service.ts:188-192 | an offline write throws exactly when the record has a truthy id that is not cached; the record is still appended and nothing is queued |
| ReportData.OfflineCreateSpec | src/app/reports/data-access/report-data.service.ts:58-69 | offline, a create ignores the remote, returns a record flagged as an offline create and queues one create operation |
| ReportData.OfflineCreateIntoEmptyCache | src/app/reports/data-access/report-data.service.ts:58-69 | offline into an empty cache, a titled report gets local id 1 and one queued create for id 1 |
| ReportData.ReplayCreateWithNewRemoteId | src/app/reports/data-access/report-data.service.ts:129-144 | a replayed create whose remote record has a new truthy id adds a second entry and leaves the local offline copy in the cache |
| ReportData.ReplayMergeKeepsFlags | src/app/reports/data-access/report-data.service.ts:129-144 | a replayed write whose remote record has a cached id merges into that entry, which keeps its offline flags |
| ReportData.DrainSplit | src/app/reports/data-access/report-data.service.ts:99-106 | the drain is sequential: a prefix, and if it went through the rest, equals the whole drain |
| ReportData.DrainOkIff | src/app/reports/data-access/report-data.service.ts:99-106 | the drain succeeds exactly when no replay is rejected |
| ReportData.DrainWhileOffline | src/app/reports/data-access/report-data.service.ts:112-115 | while offline the drain changes nothing and succeeds |
| ReportData.DrainStopsAtFirstFailure | src/app/reports/data-access/report-data.service.ts:146-149 | the drain ends at the first rejected replay with the state reached before it; later operations are not attempted |
| ReportData.DrainQueue | src/app/reports/data-access/report-data.service.ts:144 | the drain never adds to the queue; it removes exactly the ids of the accepted replays it reached |
| ReportData.DrainLeavesQueued | src/app/reports/data-access/report-data.service.ts:99-152 | with unique ids, an operation stays queued exactly when it was not reached or its replay was not accepted |
| ReportData.DrainAllAccepted | src/app/reports/data-access/report-data.service.ts:99-106 | when every replay is accepted, the flush succeeds and the queue ends empty |
| ReportData.ReportDataService.constructor | src/app/reports/data-access/report-data.service.ts:28-34 | construction seeds the cache's sample data |
| ReportData.ReportDataService.FetchReports | src/app/reports/data-access/report-data.service.ts:36-45 | the new cache state and the reply are those of the list fetch |
| ReportData.ReportDataService.FetchReport | src/app/reports/data-access/report-data.service.ts:47-56 | the new cache state and the reply are those of the single fetch |
| ReportData.ReportDataService.ResolveReportFromCache | src/app/reports/data-access/report-data.service.ts:154-160 | the reply is the cached entry, or the "not found" error |
| ReportData.ReportDataService.CreateReport | src/app/reports/data-access/report-data.service.ts:58-69 | the new cache state and the reply are those of the create: remote success upserts, otherwise the normalised report is persisted offline |
| ReportData.ReportDataService.UpdateReport | src/app/reports/data-access/report-data.service.ts:71-82 | the new cache state and the reply are those of the update |
| ReportData.ReportDataService.DeleteReport | src/app/reports/data-access/report-data.service.ts:84-97 | the new cache state is that of the delete, which always completes |
| ReportData.ReportDataService.PersistOfflineDelete | src/app/reports/data-access/report-data.service.ts:163-178 | the cache state and the result are those of an offline delete |
| ReportData.ReportDataService.PersistOfflineWrite | src/app/reports/data-access/report-data.service.ts:180-198 | the cache state and the result are those of an offline create or update |
| ReportData.ReportDataService.ExecuteQueuedOperation | src/app/reports/data-access/report-data.service.ts:112-152 | the replay succeeds unless the remote rejects it; on success the cache is the replayed state, on rejection nothing changes |
| ReportData.ReportDataService.FlushQueue | src/app/reports/data-access/report-data.service.ts:99-106 | the loop over a snapshot of the queue ends in the state and reply of the drain |
| ReportFacade.SortByRecencySpec | src/app/reports/services/report-facade.service.ts:129-135 | the sorted list is newest first, a permutation of the input, and stable among entries with equal keys |
| ReportFacade.SortByRecencyOfSorted | src/app/reports/services/report-facade.service.ts:129-135 | a list already newest first is left as it is |
| ReportFacade.ReplaceOrAppend | src/app/reports/services/report-facade.service.ts:51-58 | a truthy, listed id has its first entry replaced in place; otherwise the record is appended; the record ends up in the list |
| ReportFacade.MergeUpdated | src/app/reports/services/report-facade.service.ts:82-84 | the length is kept; entries with the record's id have the record spread over them, others are untouched |
| ReportFacade.MergeUpdatedSpec | src/app/reports/services/report-facade.service.ts:82-84 | every matching entry carries every key of the update, and merging twice equals merging once |
| ReportFacade.ReportFacadeService.constructor | src/app/reports/services/report-facade.service.ts:10-13 | the subjects start as an empty list, not loading, no error and no filter |
| ReportFacade.ReportFacadeService.LoadReports | src/app/reports/services/report-facade.service.ts:26-42 | the filter is remembered; a fetched list becomes the sorted list, an error becomes the message, and both end with loading off; a synchronous throw leaves loading on |
| ReportFacade.ReportFacadeService.GetReport | src/app/reports/services/report-facade.service.ts:44-62 | a listed id is answered from the list, with no change to the cache; otherwise the fetched report replaces or joins the list, which is re-sorted |
| ReportFacade.ReportFacadeService.CreateReport | src/app/reports/services/report-facade.service.ts:64-76 | a created record joins the list, which is re-sorted; loading stays on only when the call throws |
| ReportFacade.ReportFacadeService.UpdateReport | src/app/reports/services/report-facade.service.ts:78-92 | the updated record is spread over matching entries and the list is re-sorted; loading stays on only when the call throws |
| ReportFacade.ReportFacadeService.DeleteReport | src/app/reports/services/report-facade.service.ts:94-106 | the entries with the id leave the list and loading ends off |
| ReportFacade.ReportFacadeService.FlushQueue | src/app/reports/services/report-facade.service.ts:108-119 | offline nothing changes; a failed drain changes only the cache; a completed drain reloads with the remembered filter |
| ReportList.MatchesTermSpec | src/app/reports/components/report-list/report-list.component.ts:46-51 | the search predicate throws exactly when it reaches a missing field before a hit; otherwise it answers whether some text field contains the term |
| ReportList.SearchBySpec | src/app/reports/components/report-list/report-list.component.ts:38-52 | the search fails exactly when the predicate throws on some report; on success it keeps, in order and with multiplicities, exactly the mentioning reports |
| ReportList.SearchWithoutTerm | src/app/reports/components/report-list/report-list.component.ts:44 | an empty term keeps the whole list and never throws |
| ReportList.TotalPagesIsCeiling | src/app/reports/components/report-list/report-list.component.ts:54-56 | the page count is the least number of ten-report pages holding the list |
| ReportList.PageSliceSpec | src/app/reports/components/report-list/report-list.component.ts:58-63 | a page holds at most ten reports, is the run at its offset, is full before the last page, and is empty exactly past the last page |
| ReportList.PagesFromSpec | src/app/reports/components/report-list/report-list.component.ts:58-63 | the pages from a given page on, concatenated, are the list from that page's offset |
| ReportList.PagesCoverList | src/app/reports/components/report-list/report-list.component.ts:54-63 | reading all pages in order gives back the whole list |
| ReportList.NextPageStaysOnAPage | src/app/reports/components/report-list/report-list.component.ts:107-111 | paging forward moves at most one page, only onto a non-empty page, and not from a page already past the end |
| ReportList.ReportListComponent.constructor | src/app/reports/components/report-list/report-list.component.ts:31-35 | empty term, no filters, page 1 |
| ReportList.ReportListComponent.LoadReports | src/app/reports/components/report-list/report-list.component.ts:74-82 | the facade loads with the category and status filter, and the page returns to 1 unless the load throws |
| ReportList.ReportListComponent.OnSearchChange | src/app/reports/components/report-list/report-list.component.ts:89-92 | the term is set and the page returns to 1 |
| ReportList.ReportListComponent.ClearFilters | src/app/reports/components/report-list/report-list.component.ts:94-99 | both filters and the term are cleared and the list reloads unfiltered |
| ReportList.ReportListComponent.PrevPage | src/app/reports/components/report-list/report-list.component.ts:101-105 | the page goes back one, never below 1 |
| ReportList.ReportListComponent.NextPage | src/app/reports/components/report-list/report-list.component.ts:107-111 | the page advances one while below the page count; it throws exactly when the search throws |
| ReportList.ReportListComponent.DeleteReport | src/app/reports/components/report-list/report-list.component.ts:113-122 | nothing happens unless confirmed; then the facade deletes |
| ReportUi.StatusOf | src/app/reports/models/report.model.ts:1-6 | a recognised status string is the wire value of the status it maps to |
| ReportUi.CategoryOf | src/app/reports/models/report.model.ts:8-14 | a recognised category string is the wire value of the category it maps to |
| ReportUi.ActionOf | src/app/reports/models/report.model.ts:42 | a recognised action string is the literal of the action it maps to |
| ReportUi.WireValuesRoundTrip | src/app/reports/models/report.model.ts:1-14 | reading a wire value back gives the enum member that wrote it |
| ReportUi.StatusBadgeClassSpec | src/app/reports/utils/report-ui.helpers.ts:4-12 | each known status except closed has its own badge; closed and unknown share the neutral one |
| ReportUi.CategoryPresentationSpec | src/app/reports/utils/report-ui.helpers.ts:15-36 | icons and labels tell the categories apart; an unknown category is shown as "other" |
| ReportUi.StatusLabel | src/app/reports/utils/report-ui.helpers.ts:39-47 | an unknown status is shown as it is |
| ReportUi.StatusLabelSpec | src/app/reports/utils/report-ui.helpers.ts:39-47 | distinct statuses get distinct labels, none equal to the wire value |
| ReportUi.PendingActionLabelSpec | src/app/reports/utils/report-ui.helpers.ts:50-57 | empty for a missing or empty action, a distinct label per action, the generic label exactly for other values |
| ReportUi.OfflineFlagLifecycle | src/app/reports/utils/report-ui.helpers.ts:60-62 | a record persisted offline is shown as offline with its action's label; a sanitised record is not shown as offline |
| Navbar.MenuItemsSpec | src/app/shared/components/navbar/navbar.component.ts:42-71 | each menu starts with its one exact-match entry; the reports page is listed exactly when signed in; any role but "ADMIN" gets the citizen menu |
| Navbar.UnreadCountSpec | src/app/shared/components/navbar/navbar.component.ts:88 | the count is at most the list length, zero exactly when all are read, and the length exactly when none are |
| Navbar.SampleUnreadCount | src/app/shared/components/navbar/navbar.component.ts:83-86 | the mock notifications have one unread |
| Navbar.InitialsOfWords | src/app/shared/components/navbar/navbar.component.ts:176-185 | a space-separated name yields the upper-cased first letters of its first two words |
| Navbar.UserInitialsShape | src/app/shared/components/navbar/navbar.component.ts:176-185 | the initials are at most two characters with no lower-case ASCII letter, and "U" without a name |
| Navbar.RoleLabelMatchesMenu | src/app/shared/components/navbar/navbar.component.ts:187-190 | the administrator label is shown exactly when the administrator menu is |
| Navbar.ReturnUrlForSpec | src/app/shared/components/navbar/navbar.component.ts:164-168 | the return address is never empty and never starts or ends with white space; it is the default exactly when the given one is missing, blank, or trims to the default |
| Navbar.ReturnUrlOfUnpadded | src/app/shared/components/navbar/navbar.component.ts:166 | an address with no white space at either end is kept as the return address |
| Navbar.NavbarComponent.constructor | src/app/shared/components/navbar/navbar.component.ts:28-39 | no user, all drop-downs and the modal closed |
| Navbar.NavbarComponent.SetCurrentUser | src/app/shared/components/navbar/navbar.component.ts:97-99 | the user changes and nothing else |
| Navbar.NavbarComponent.ToggleMenu | src/app/shared/components/navbar/navbar.component.ts:118-124 | the menu flips, opening it closes the others, at most one stays open |
| Navbar.NavbarComponent.ToggleProfileMenu | src/app/shared/components/navbar/navbar.component.ts:126-132 | the profile menu flips, opening it closes the others, at most one stays open |
| Navbar.NavbarComponent.ToggleNotifications | src/app/shared/components/navbar/navbar.component.ts:134-140 | the notification list flips, opening it closes the others, at most one stays open |
| Navbar.NavbarComponent.CloseAllMenus | src/app/shared/components/navbar/navbar.component.ts:142-146 | all drop-downs are closed |
| Navbar.NavbarComponent.Logout | src/app/shared/components/navbar/navbar.component.ts:148-152 | the menus close, the user becomes none and the home page is returned |
| Navbar.NavbarComponent.HandleNewReport | src/app/shared/components/navbar/navbar.component.ts:154-161 | a signed-in user goes to the form; a guest gets the login modal with the form as return address |
| Navbar.NavbarComponent.OpenLoginModal | src/app/shared/components/navbar/navbar.component.ts:164-168 | the modal opens with the trimmed or default return address and the menus close |
| Navbar.NavbarComponent.CloseLoginModal | src/app/shared/components/navbar/navbar.component.ts:170-173 | the modal closes and the return address is forgotten |
| Navbar.NavbarComponent.OnDocumentClick | src/app/shared/components/navbar/navbar.component.ts:192-197 | a click outside the bar closes the menus; one inside changes nothing |
| Navbar.NavbarComponent.OnEsc | src/app/shared/components/navbar/navbar.component.ts:199-202 | Escape closes the menus and leaves the modal and the user alone |
| Navbar.NavbarComponent.SyncLoginModalFromQuery | src/app/shared/components/navbar/navbar.component.ts:204-218 | `auth=login` opens the modal with the given non-empty or default address, and the query is cleared exactly then |
| Navbar.NavbarComponent.OnNavigationEnd | src/app/shared/components/navbar/navbar.component.ts:103-108 | a finished navigation closes the menus, then syncs the modal from the query |
| SeedSample.GenerateDataSpec | scripts/seed-sample.mjs:8-21 | the records are numbered 1 to count in order, with distinct titles carrying the number, no location, status "open", the fixed description and the run's date |
| SeedSample.CountOf | scripts/seed-sample.mjs:46 | the count read from an argument is at least 1 |
| SeedSample.CountIsPositive | scripts/seed-sample.mjs:38-55 | whatever the arguments, a run generates at least one record |
| SeedSample.CountRoundTrip | scripts/seed-sample.mjs:45-46 | a decimal count is read back, and zero becomes 1 |
| SeedSample.CountSwallowsNextFlag | scripts/seed-sample.mjs:45-46 | `--count` followed by a flag takes the flag as its value, keeps the count at 1 and drops the flag |
| SeedSample.HelpStops | scripts/seed-sample.mjs:51-54 | a help flag not taken as a value stops the run whatever follows |
| SeedSample.TrailingFlagIgnored | scripts/seed-sample.mjs:45-48 | a trailing `--count` or `--out` without a value changes nothing |
| SeedSample.ParseCommandLine | scripts/seed-sample.mjs:38-55 | the argument loop yields exactly the parsed invocation |
| SeedSample.SeedMain | scripts/seed-sample.mjs:36-67 | help produces nothing; a count of 2^32 or more rejects with the invalid-array-length error; otherwise the options and exactly the generated records for the count, which is at least 1 |

## Left out

- Browser storage, JSON and `Date` serialisation (`readReports`, `writeReports`, `readQueue`, `writeQueue`, `getStorage`): the cache is its in-memory lists, and dates are milliseconds.
- ReportData.Normalize: `status: report.status` writes the key even when the status is undefined. The model treats an absent status as not written. So a merge of such a record keeps the cached status, where the source's spread would clear it.
- Keys present with the value `undefined` are in general not told apart from absent keys.
- Lookups through `Record` objects inherited from the prototype (a status named `constructor`) are not modelled. Only the listed keys and the fallback are.
- The remote API is a parameter (`Remote`): its HTTP calls, headers and error bodies are not modelled.
- The RxJS pipelines are modelled as one step per call and subscription. Laziness, asynchrony and interleaving between calls are not modelled.
- The auto-flush subscription to connectivity changes (report-data.service.ts lines 16-26) and `ngOnDestroy` are not modelled. A flush is called explicitly.
- `generateQueueId` (UUID or time plus random) and the clock: the operation id and `now` are parameters.
- Case mapping is ASCII only. Unicode `toLowerCase`/`toUpperCase` are not modelled.
- SeedSample.CountOf: `Number()` is modelled for optional white space, an optional sign and decimal digits. Decimals, exponents, hex, `Infinity` and the like are read as NaN.
- The seed script gives each record its own `new Date()`; the model uses one date for all. `path.resolve`, `writeFixture` (file existence, `--force`, writing) and console output are not modelled.
- The router, the DOM, `confirm` and console output are not modelled. A navigation is a returned path, and the confirmation is a parameter.
- The authentication service is not modelled. Logout sets the user to none; `ngOnInit`'s subscriptions become `SetCurrentUser` and `OnNavigationEnd`.
- `onFilterChange` only calls `loadReports`, so `LoadReports` represents it.
- `getCategories` and `getStatuses` return the enum values and are not modelled.
- The navbar's `socialLinks` constant is not modelled.
- The list component's own badge, icon, label and pending-action helpers (report-list.component.ts lines 125-168) give the same results as the shared helpers: the `||` and `??` fallbacks coincide on every string. `ReportUi` models them once.
- The `role` field is read from the stored user object. The `User` interface in auth.service.ts (lines 5-10) does not declare it, so the model carries it as optional.
