# Link Library: the link store and its collection logic, in Dafny

The Link Library browser extension keeps shared links, the user's own links and a
category list in the browser's extension storage. This project models the part of the
extension that decides what goes into that store and how it is read back:

- the background worker's synchroniser, which pulls the shared link feed and falls back
  to the bundled `default_links.json`;
- the first-run defaults, the reset handler, the categories refresh and the start-up
  user id;
- the normalisation of a feed response and the construction of a shared link;
- the popup's own fetch over three endpoints, falling back to twelve demo links;
- the popup's collection operations: add or edit a link, add a category, delete a link,
  export and import;
- the popup's views: the category top-up, the choice of collection to show, the grouping
  into category buckets, and the search with its category filter.

The project has these modules:

- `Common`: links, feed bodies and fetch results, and the choice of link array from a body.
- `Text`: trimming, ASCII lower-casing, splitting and joining.
- `Storage`: a `Store` class with one field per storage key, plus a `StoreState` snapshot.
- `Background`: background.js.
- `PopupEdit`, `PopupView` and `PopupApi`: popup.js.
- `LinkBuckets`: a specification of the bucket maps that `displayLinks` and the search fill.

Each state-changing operation is a method on a `Store`. Its postcondition gives the new
state as a pure function of the old one, such as `SyncEffect`, `AddLinkEffect` or
`TryEffect`. What the source promises is then proved as lemmas about those functions.
Loops that fill buckets or walk a list are methods with loop invariants. The invariants
tie each loop to its specification function.

Network, file and JSON results are inputs. A response is a `Fetched` value: an HTTP
status with an optional parsed body, or a transport failure or timeout. The popup's
endpoints are a function from URL to `Fetched`. Timestamps and random id suffixes are
parameters. A storage key that was never written reads as empty, matching how each reader
defaults it. The background uses the sync storage area when it exists. The popup writes
the local area, but its search reads the sync area when it exists (popup.js:564). So the
worker holds its own `Store`, and the popup operations take a `Store` argument.

Where the code and the obvious intent disagree, the model follows the code:

- A feed body whose `links` is an array wins even when it is empty. `adminLinks` is used
  only when `links` is not an array (`Background.EmptyLinksArrayWins`,
  `PopupApi.EmptyLinksArrayWins`).
- Import writes only `links` and `categories`. An export/import round trip therefore
  does not restore `userLinks` (`PopupEdit.ExportImportTriple`).
- `shareUserLink` reads only the remote `links` array, never `adminLinks`
  (`Background.ShareIgnoresAdminLinks`).
- The search pushes into the bucket named by a link's category without creating it. A
  kept link whose category is not registered therefore throws, and the search ends with
  nothing rendered (`PopupView.Search`, result `Aborted`). This happens in the
  category-only branch and also in the term branch, for a non-empty category that is not
  registered.
- When an endpoint answers with an empty list and the user has no links, `loadLinks`
  fetches again (`PopupApi.EmptyAnswerRefetches`). This repeats for as long as the
  endpoint keeps giving the same empty answer.

## Model

| member | source | states |
|---|---|---|
| `Common.AcceptedPayload` | background.js:131-137 | A body is used exactly when the status is 2xx and the body parsed. |
| `Common.ChooseLinks` | background.js:139-140 | The link array is `links` whenever that is an array, else `adminLinks` when that is an array, else empty. |
| `Background.HardcodedLinks` | background.js:393-410 | The two fallback links `admin_1` and `admin_2`, each filed under a first-run category. |
| `Background.Stamp` | background.js:145-149 | The link is flagged shared and keeps its content; its own id is kept, or it gets `shared_` plus the random suffix. |
| `Background.NormalizeLinks` | background.js:145-149 | One output link per input link, in order; each is shared, has a non-empty id and the same content, with the id rule per element. |
| `Background.FetchSharedLinks` | background.js:124-157 | A usable response yields its chosen array, normalised element by element, length preserved; an HTTP error, a transport failure or an unparsable body yields `[]`; every link is shared and has an id, which is its own id when it has one and `shared_` plus the random suffix for its position otherwise. |
| `Background.EmptyLinksArrayWins` | background.js:139-140 | A 2xx body with `links: []` yields no links even when `adminLinks` has some. |
| `Background.DefaultsFromFile` | background.js:160-170 | The file is used exactly when it answered and parsed, whatever its status; links are its `adminLinks` or `[]`; categories are its own or the nine fallback categories, which include `Other`. |
| `Background.AfterDefaultsFile` | background.js:160-195 | An unreadable file changes nothing; otherwise `links`, `categories`, `initialized` and `lastUpdate` are written; user links, admin mirror, user id and other keys are never written. |
| `Background.SyncEffect` | background.js:67-121 | A fetch with links replaces `links` and sets `initialized`, leaving `categories` alone. An empty fetch over stored links changes nothing. An empty fetch over an empty store loads the defaults file. A storage exception changes nothing. User links, admin mirror and user id are never written. |
| `Background.OutageKeepsSyncedLinks` | background.js:81-97 | After a sync that fetched links, a later empty fetch leaves the store as the first sync left it. |
| `Background.EmptySyncIdempotent` | background.js:81-97 | Repeating a sync that fetched nothing changes nothing further. |
| `Background.FreshInstallOffline` | background.js:81-92 | One synchronisation of an empty store with no network stores the defaults file's admin links, whatever its `links` field holds, and its categories or the fallback list (which has `Other`), and sets `initialized`. |
| `Background.SingleFeedLinkScenario` | background.js:100-110 | One id-less feed link is stored alone, with id `shared_` plus its suffix, shared, title and URL untouched; categories are not taken from the feed. |
| `Background.FirstRunData` | background.js:359-418 | The defaults file's `adminLinks` and categories (or the five first-run categories) when it was served 2xx, parsed and has an `adminLinks` array; otherwise the two hardcoded links and the five first-run categories. |
| `Background.FirstRunEffect` | background.js:345-424 | A store already initialised with links is untouched; otherwise `links`, `categories`, `initialized` and `lastUpdate` get the first-run data, and nothing else is written. |
| `Background.FirstRunWithoutFile` | background.js:390-418 | First-run defaults on a failed defaults file write exactly two links and the categories `2D, 3D, Maps, Vision, Other`. |
| `Background.CategoriesRefresh` | background.js:664-686 | `categories` is overwritten only by a non-empty array from a parsed defaults file, and nothing else changes. |
| `Background.UserIdAfterInit` | background.js:22-28 | The id is never empty: the stored id when there is one, else a new `user_<time>_<random>` id. |
| `Background.UserIdStable` | background.js:22-28 | A second start-up keeps the id the first one settled on. |
| `Background.SharedLinkOf` | background.js:203-212 | Text fields are copied (missing ones are empty); a missing category becomes `Other`; non-array tags become `[]`; the link is signed by the user id or `anonymous` and stamped with the time. |
| `Background.SharedList` | background.js:214-224 | A 2xx parsed answer yields the remote `links` array with the new link appended and every earlier element unchanged; an HTTP error, a transport failure and an unparsable body each give their own failure. |
| `Background.ShareIgnoresAdminLinks` | background.js:220-224 | A remote body holding only `adminLinks` is treated as an empty list. |
| `Background.Worker.constructor` | background.js:3-6 | The worker starts as `anonymous` on its storage area. |
| `Background.Worker.InitUserId` | background.js:22-28 | The worker's id becomes the stored id or a new one, and only a new id is written back. |
| `Background.Worker.LoadDefaultLinksFromFile` | background.js:160-195 | The store becomes `AfterDefaultsFile` of the old store; success is reported exactly when the file was read. |
| `Background.Worker.Synchronize` | background.js:67-121 | The store becomes `SyncEffect` of the old store and the fetched links; it replies success and notifies the popups unless storage throws. |
| `Background.Worker.ShareUserLink` | background.js:198-248 | The posted list is `SharedList` of the read; a failed read or post replies with its cause and leaves the store untouched; a successful post runs a sync and replies success. |
| `Background.Worker.ResetToDefaults` | background.js:293-320 | The store becomes `AfterDefaultsFile` (so `userLinks` is never written); success and the notification happen exactly when the file was read. |
| `Background.Worker.LoadDefaultData` | background.js:345-424 | The store becomes `FirstRunEffect` of the old store and the defaults file. |
| `Background.Worker.UpdateCategoriesFromDefaultFile` | background.js:664-686 | The store becomes `CategoriesRefresh`; the popups are notified exactly when categories were served. |
| `PopupEdit.DropEmpty` | popup.js:294 | Exactly the non-empty strings are kept: every kept string was there and is non-empty, every non-empty one is kept, and a list with no empty string is kept whole. |
| `PopupEdit.DropEmptyConcat` | popup.js:294 | Dropping empty strings works list by list, so the kept strings stay in their order. |
| `PopupEdit.ParseTags` | popup.js:291-294 | Every parsed tag is non-empty, has no comma and no surrounding white space. |
| `PopupEdit.ParseTagsPieces` | popup.js:291-294 | The tags are the comma-separated pieces of the raw field, each trimmed, with the empty ones dropped, in order: trimming the whole field first changes none of them. |
| `Text.JoinSplit` | popup.js:292 | Joining the pieces of a split with the separator gives the string back, so with no piece holding the separator the pieces are determined. |
| `PopupEdit.TagsRoundTrip` | popup.js:1230 | Tags as saved, shown joined with `, ` in the edit form, parse back to the same list. |
| `PopupEdit.ParseTagsStable` | popup.js:291-294 | Opening a saved link for editing and saving it again leaves its tags unchanged. |
| `PopupEdit.FormatUrl` | popup.js:301-305 | The result starts with `http://` or `https://`; a URL that already does is kept, any other gets `https://` in front. |
| `PopupEdit.FormatUrlIdempotent` | popup.js:301-305 | Formatting a formatted URL changes nothing. |
| `PopupEdit.EditOf` | popup.js:288-305 | The edit carries the trimmed title, the formatted trimmed URL, the form's category, the parsed tags and the time as `lastUpdated`. |
| `PopupEdit.Apply` | popup.js:320-325 | An edit sets title, URL, category, tags and `lastUpdated`; every other field of the link is unchanged. |
| `PopupEdit.IndexOf` | popup.js:319-320 | The position of the first link with the id: no earlier link has it, and the length when none does. |
| `PopupEdit.EditFirst` | popup.js:319-329 | It reports found exactly when a link has the id; only the first such link is edited, and otherwise the list is unchanged. |
| `PopupEdit.EditedCollections` | popup.js:318-344 | Sizes are kept; a hit in `links` leaves `userLinks` alone, and a miss leaves `links` alone; on `links` then `userLinks` together, exactly the first link with the id takes the edit. |
| `PopupEdit.NewUserLink` | popup.js:365-372 | A new link has id `user_<time>`, the trimmed title, the formatted URL, the form's category, the parsed tags and the date added. |
| `PopupEdit.AddLinkEffect` | popup.js:287-393 | A missing title or URL changes nothing; a new link is appended to `userLinks` with `links` untouched; an edit applies `EditedCollections`; categories, admin mirror and `initialized` never change. |
| `PopupEdit.AddLink` | popup.js:287-393 | The store becomes `AddLinkEffect` of the old store, and the reported outcome matches the branch taken. |
| `PopupEdit.AppendUserLink` | popup.js:365-378 | The new link goes last in `userLinks`, and nothing else in the store changes. |
| `PopupEdit.UpdateLink` | popup.js:311-362 | `links` and `userLinks` become `EditedCollections` of the old ones, and nothing else changes. |
| `PopupEdit.CategoryAdded` | popup.js:395-420 | The name is rejected exactly when, trimmed, it is empty or already listed; otherwise it is appended after the unchanged list, one longer, and a list without repeats stays without repeats. |
| `PopupEdit.AddCategory` | popup.js:395-420 | `added` holds exactly when the name is accepted; then `categories` becomes the extended list, else the store is unchanged. |
| `PopupEdit.FindLink` | popup.js:1218-1219 | The link found is in the list and has the id, and is the first such; nothing is found exactly when no link has the id. |
| `PopupEdit.EditTargetsFoundLink` | popup.js:1214-1235 | The link the edit button opens is the one that saving the form updates: the collections afterwards are the old ones with exactly that link replaced by its edited version. |
| `PopupEdit.Without` | popup.js:1265-1266 | The kept links are exactly the links of the list without the id. |
| `PopupEdit.WithoutConcat` | popup.js:1265-1266 | Filtering distributes over concatenation, so the surviving links keep their order. |
| `PopupEdit.DeletedLinkNotFound` | popup.js:1284-1286 | After a delete, the edit and share buttons can no longer find the link. |
| `PopupEdit.DeleteLink` | popup.js:1258-1279 | Once confirmed, both collections lose exactly the links with the id; unconfirmed, nothing changes. |
| `PopupEdit.ExportOf` | popup.js:1084-1091 | The export holds the store's `links`, `userLinks` and `categories`. |
| `PopupEdit.ImportEffect` | popup.js:1125-1133 | A file is accepted exactly when it parsed and has both `links` and `categories`; then only those two keys are written. |
| `PopupEdit.ExportImportRoundTrip` | popup.js:1125-1133 | Exporting and importing restores `links` and `categories`, while the importing store keeps its own `userLinks`. |
| `PopupEdit.ExportImportTriple` | popup.js:1125-1133 | The round trip restores the whole links/userLinks/categories triple exactly when the importing store already had the exported user links. |
| `PopupEdit.ImportData` | popup.js:1109-1148 | The store becomes `ImportEffect` of the file when that accepts it, and is unchanged otherwise. |
| `PopupView.ExpectedCategories` | popup.js:857-860 | The six expected categories include `Other` and have no repeats. |
| `PopupView.AllPossibleCategories` | popup.js:1627-1641 | The twelve categories include `Other` and every expected category, with no repeats. |
| `PopupView.TopUp` | popup.js:861-865 | The existing categories remain, as a prefix and in their order. |
| `PopupView.TopUpAppendsMissing` | popup.js:861-865 | The top-up is the existing list followed by the missing expected categories, in expected order. |
| `PopupView.TopUpIncludes` | popup.js:861-865 | Afterwards every expected category is listed. |
| `PopupView.TopUpComplete` | popup.js:861-865 | A list that already has every expected category is left unchanged. |
| `PopupView.TopUpIdempotent` | popup.js:861-865 | A second top-up changes nothing. |
| `PopupView.TopUpNoDup` | popup.js:861-865 | A list without repeats stays without repeats. |
| `PopupView.TopUpCategories` | popup.js:861-865 | The loop's result is the top-up of the stored list. |
| `PopupView.LoadAllCategories` | popup.js:855-874 | `categories` becomes the top-up of the stored list, which always contains `Other`; it is written exactly when the list grew. |
| `PopupView.SaveTopUp` | popup.js:867-869 | The top-up by a given expected list is saved exactly when the list grew, and afterwards every expected category is present. |
| `PopupView.ViewCategories` | popup.js:890-897 | The categories worked with are never empty, and are the stored ones when some are stored. |
| `PopupView.ChooseView` | popup.js:878-922 | A storage error selects the fallback. The API is fetched exactly when all three link keys are empty. Otherwise the shown links are the admin mirror when it is non-empty, else `links`, with the user's links and non-empty categories. |
| `PopupView.LoadLinks` | popup.js:878-922 | The view is `ChooseView` of the store; the twelve categories are saved when none were stored; on a storage error nothing is written. |
| `PopupView.BucketKeys` | popup.js:988-998 | A name is a bucket exactly when it is a listed category or `Other`. |
| `PopupView.EmptyBuckets` | popup.js:988-998 | Every bucket key starts with an empty bucket. |
| `PopupView.GroupLinks` | popup.js:969-1008 | No links gives the no-links message exactly; otherwise the buckets are the specification buckets of user links then shared links. |
| `PopupView.FillDisplayBuckets` | popup.js:1000-1008 | The loop pushes each link onto its category's bucket, or `Other`'s, as the fold `PushAll` describes. |
| `PopupView.DisplayBucketsPartition` | popup.js:1000-1008 | The bucket sizes add up to the number of user and shared links. |
| `PopupView.UnlistedGoesToOther` | popup.js:1002-1006 | A link with a missing or unlisted category is shown under `Other`. |
| `PopupView.Hits` | popup.js:594-622 | The kept links are never more than the links searched. |
| `PopupView.HitsMembers` | popup.js:594-622 | A link is a hit exactly when it is searched and kept; with a category filter every hit has that category. |
| `PopupView.Search` | popup.js:549-628 | With no term and no filter the normal view is shown. Otherwise the search completes exactly when every kept link's bucket exists, and then the buckets hold the hits by bucket with `totalMatches` their number. An aborted search names a missing bucket that a kept link needs. |
| `PopupView.Placement` | popup.js:596-621 | A link is placed exactly when it is kept, into its category, or `Other` for a term match without a category. |
| `PopupView.FillBuckets` | popup.js:594-622 | The loop either aborts on a missing bucket a kept link needs, or completes with the specification buckets of the hits and `totalMatches` equal to their number. |
| `PopupView.SearchTotalIsBucketSum` | popup.js:594-622 | `totalMatches` equals the sum of the bucket sizes. |
| `LinkBuckets.SelectMembers` | popup.js:1000-1008 | A link is in a key's bucket exactly when it is one of the links and its home is that key. |
| `LinkBuckets.PushAllIsBuckets` | popup.js:1000-1008 | Pushing links one by one onto empty buckets succeeds exactly when every link's home is a key, and it then yields the specification buckets. |
| `LinkBuckets.BucketSizesSum` | popup.js:1000-1008 | When every home is a key, the bucket sizes over a repeat-free key list add up to the number of links. |
| `PopupApi.ApiUrls` | popup.js:1388-1392 | There are three endpoints, tried in this order. |
| `PopupApi.FirstUsable` | popup.js:1397-1449 | The endpoint chosen is usable and every earlier one from the start index is not; none is chosen exactly when none is usable. |
| `PopupApi.ApiSuccessEffect` | popup.js:1451-1476 | `links` and the admin mirror both get the chosen array; the categories are the response's when non-empty, else the twelve; `lastApiSuccess` is the time; no other key is written. |
| `PopupApi.DemoLinks` | popup.js:1486-1607 | Twelve demo links, numbered, each with category number `i`, `adminId` `demo`, the date added and not shared. |
| `PopupApi.DemoCategoriesAreKnown` | popup.js:1482-1607 | Every demo link is filed under one of the twelve categories. |
| `PopupApi.DemoCoversAllCategories` | popup.js:1482-1607 | Each of the twelve categories holds a demo link. |
| `PopupApi.FallbackEffect` | popup.js:1609-1615 | `links` and the admin mirror get the demo links, categories become the twelve, and `lastApiSuccess` becomes 0; no other key is written. |
| `PopupApi.TryEffect` | popup.js:1397-1476 | However the fetch ends, the admin mirror equals `links`, categories are non-empty, `lastApiSuccess` is the time or 0, and no key other than these four is written. |
| `PopupApi.HandleApiSuccess` | popup.js:1451-1476 | The store becomes `ApiSuccessEffect` of the old store and the body. |
| `PopupApi.UseFallbackWithAllCategories` | popup.js:1479-1624 | The store becomes `FallbackEffect` of the old store. |
| `PopupApi.TryNextApi` | popup.js:1397-1449 | Endpoints are tried in index order up to and including the first usable one, whose body is saved; with none usable all the remaining ones are tried and the demo data is saved. |
| `PopupApi.FetchApiLinks` | popup.js:1378-1449 | An endpoint's data is used exactly when some endpoint is usable, and the endpoints requested are exactly those up to the one used; otherwise all three are requested and the demo data is used. |
| `PopupApi.FallbackThenShow` | popup.js:1609-1620 | After the fallback the popup shows the demo links under all twelve categories. |
| `PopupApi.EmptyLinksArrayWins` | popup.js:1455-1456 | A body with `links: []` saves no links even when `adminLinks` has some. |
| `PopupApi.EmptyAnswerRefetches` | popup.js:1464-1473 | An answer with no links, for a user with no links, leaves a store on which `loadLinks` fetches again. |
| `PopupApi.AnswerWithLinksIsShown` | popup.js:1451-1476 | An answer with links is shown next, with the saved categories and the user's links. |

## Left out

- Rendering and UI state are not modelled. This covers link elements, search results
  markup, the share dialog, theme, tabs, help, notifications and button states. So are
  background.js:448-628, which use `document` inside the service worker.
- `fetch`, `XMLHttpRequest`, `FileReader`, `Blob` and `chrome.runtime.getURL` become
  input values. The `?cachebust=` query suffix and the request headers are not modelled.
- `JSON.parse` and `JSON.stringify` are not modelled. A body is either a parsed payload or
  unparsable, and a JSON `null` body counts as unparsable, since reading its fields throws.
  A field with a truthy value that is not an array is not modelled: the `x || default`
  readers would store it as it is.
- The five-second XHR timeout and the network error are reduced to "this endpoint failed".
  In the source, both can advance twice. A timeout calls `abort()`, which can fire the
  ready-state handler with status 0, and that tries the next endpoint again. A network
  error ends with the ready-state handler at state 4 and status 0 calling
  `tryNextApi(index + 1)` (popup.js:1428-1431), then `onerror` calling it once more
  (popup.js:1435-1439). The model tries each endpoint once.
- `PopupView.Kept`: a link with no category and a link whose category is `""` are the
  same value. The source tells them apart only in the strict `link.category !==
  categoryFilter` test (popup.js:598). So when `""` is a stored category and the user
  picks it as the filter, the source skips a link that has no category field, and the
  model keeps it.
- Messaging, alarms and `safelyNotifyPopups` are not modelled. At most a boolean records
  that a notification was sent.
- Concurrency is not modelled. This covers overlapping syncs and the lost update between
  the share read and the share post.
- It also covers the install handler (background.js:14-45). That handler starts three
  writers at once: `updateCategoriesFromDefaultFile` (line 19), the user-id-then-sync
  chain (lines 22-32) and `loadDefaultData` (line 41). The final store depends on which
  write lands last. For example, with no `categories` in the defaults file, the first-run
  data writes five categories and the sync writes nine. If the first-run data lands
  first, the sync finds links and writes nothing. `Background.FreshInstallOffline`
  states one synchronisation on its own.
- `Date.now`, `new Date().toISOString()` and `Math.random` become parameters.
- Exception messages are abstracted to a `Cause` value.
- Lower-casing covers ASCII letters only. Unicode case mapping is not modelled.
- Trimming (`Text.IsSpace`) removes tab, line feed, vertical tab, form feed, carriage
  return, space, no-break space (U+00A0) and the byte-order mark (U+FEFF). JavaScript's
  `trim` also removes U+1680, U+2000-U+200A, U+2028, U+2029, U+202F, U+205F and U+3000.
  Those are not modelled.
- Storage write failures (`chrome.runtime.lastError` after a write) are not modelled.
  Every write is taken to succeed.
- The sync and local storage areas are not tied together. The popup and the worker each
  see the `Store` they are given. Where the sync area exists, the popup's search reads the
  worker's store while its other operations read the local one. A caller models this by
  passing `Search` the worker's fields.
- The popup start-up block (popup.js:3-15) is not modelled. It is the one place that tells
  an absent key from an empty one.
- `clearLinks`, `syncBrowser`, `cloudBackup` and the refresh handler are not modelled. They
  are outside the collection logic described here.
- The debug helpers (`debugStorage`, `checkStorageContents`, `testApiEndpoint`,
  `validateDefaultLinks`, `debounce`) and the regex-based search highlighting are not
  modelled.
- Category names that collide with properties of JavaScript's `Object.prototype` are not
  modelled: a bucket key is a plain map key.
- `Background.Worker.LoadDefaultData` records no notification. The source also notifies the
  popups after the defaults file's data is saved.
