# Short-link service and admin user service, modelled in Dafny

This project models the core of a short-link system in Dafny. The model covers two services.

**The short-link service** (`ShortLinkProject.ShortLinkService`):
- It allocates a short suffix for an origin URL. It hashes the URL salted with a UUID and retries while the creation filter already holds the resulting full short URL.
- It creates links one at a time or in a batch.
- It updates a link. Without a group change the row is edited in place. A group change soft-deletes the row, re-inserts it and re-keys the goto row and every stats table.
- After an update it invalidates the redirect cache and the "not found" tombstone.
- It resolves a short URL to its origin URL. It looks in the redirect cache, then the filter, then the tombstone, then, under a per-URL lock, in the goto table and the link table. A successful redirect records a visit and hands it to the stats producer.
- It counts links per group.

**The admin user service** (`UserAdmin.UserService`):
- Registration, guarded by the registration filter and a per-name lock.
- Profile update by the logged-in user.
- Login, which keeps one session hash per user, mapping each token to the logged-in user.
- Login check and logout.
- Lookup of a user by name.

How the model is structured:
- Each service is a class whose fields are the stores it writes: tables, cache, filter, sets and producer. `Snapshot()` gathers those fields into one value, and each operation is specified by a function from the snapshot before to its result and the snapshot after.
  - Short-link service: `ShortLinkProject.Create`, `Update`, `Restore`.
  - User service: `UserAdmin.SignUp`, `Edit`, `SignIn`, `SignOut`.
- The methods are proved against those functions. The lemmas about the functions state what the operations promise, alone and in sequence.
- The store invariant of the short-link service is `ShortLinkProject.Routed`. Every row that is not soft-deleted has a goto row naming its group. No two such rows share a URL. Every goto URL is in the filter.
- `UserAdmin.UniqueNames`, `UserAdmin.Filtered` and `UserAdmin.SingleSession` are the user side's invariants.

Model files:
- `common.dfy`: optional values, outcomes, the blank-string test and decimal rendering.
- `link_table.dfy`: the link table, `selectOne` and the update shapes.
- `link_stats.dfy`: stats re-keying and the visit record.
- `link_policy.dfy`: whitelist, redirect URL, cache invalidation.
- `shortlink_service.dfy`: the short-link service.
- `user_service.dfy`: the user service.

Inputs that are not part of the program logic become parameters:
- The UUIDs: `uuid`, `minted`, `freshToken`.
- The current time: `now`.
- The outcome of each `tryLock`: `tryLock`, `lockAcquired`.
- Whether an insert reports a row: `insertWrites`.
- What another lock holder wrote to the cache while a redirect waited: `filledWhileWaiting`.
- The logged-in user name: `current`.

The collaborators the services cannot see are functions fixed in `Env`: the hash, the favicon fetch, the cache-lifetime rule and the domain extraction.

Behaviour of the code that the model keeps as written:
- The whitelist is checked on update only, not on creation.
- The uv and uip sets are kept per link, with no day in the key.
- A unique-key clash on creation propagates as an error. The `catch` names an exception type from a YAML library, which the store never throws.
- The stats of a group move are re-keyed in place, table by table.

## Model

All ShortLinkServiceImpl paths are `project/src/main/java/com/szs/shortlink/project/service/impl/ShortLinkServiceImpl.java`; all UserServiceImpl paths are `admin/src/main/java/com/szs/shortlink/admin/service/impl/UserServiceImpl.java`.

| member | source | states |
|---|---|---|
| LinkTable.SelectLive | project/src/main/java/com/szs/shortlink/project/service/impl/ShortLinkServiceImpl.java:399-405 | `selectOne` on the live-row condition: no row exactly when no row is live; the one row found is live and every live row equals it; "too many" exactly when two or more rows are live |
| LinkTable.SoftDelete | project/src/main/java/com/szs/shortlink/project/service/impl/ShortLinkServiceImpl.java:435-445 | the soft-delete update: the same rows in the same places; every row matching url, group, `delFlag = 0`, `delTime = 0`, enabled gets `delFlag = 1` and `delTime = now`; no row matches afterwards; every other row is unchanged |
| LinkTable.ReplaceLive | project/src/main/java/com/szs/shortlink/project/service/impl/ShortLinkServiceImpl.java:409-426 | the in-place update: the same number of rows; rows that are not live under (url, group) are unchanged and every live one becomes the edited row; an edited row with the same key keeps the live rows in the same places |
| LinkTable.InGroupEditKeepsSelection | project/src/main/java/com/szs/shortlink/project/service/impl/ShortLinkServiceImpl.java:409-426 | after the in-place edit of the one live row, `selectOne` finds exactly the edited row |
| LinkTable.GroupMoveRelocates | project/src/main/java/com/szs/shortlink/project/service/impl/ShortLinkServiceImpl.java:436-463 | soft-deleting the live `delTime = 0` row and inserting the moved row leaves no live row under the old group and exactly the moved row under the new one |
| LinkTable.GroupShortLinkCount | project/src/main/java/com/szs/shortlink/project/service/impl/ShortLinkServiceImpl.java:582-593 | a requested group is listed exactly when some enabled row is in it, soft-deleted rows included; every group listed was requested, with its positive number of such rows |
| LinkTable.GroupMoveCounts | project/src/main/java/com/szs/shortlink/project/service/impl/ShortLinkServiceImpl.java:582-593 | since deleted rows stay counted, a group move keeps the old group's count and adds one to the new group's |
| LinkTable.CountPositiveIffMember | project/src/main/java/com/szs/shortlink/project/service/impl/ShortLinkServiceImpl.java:582-593 | a group's count is positive exactly when some enabled row is in it |
| LinkStats.Rekey | project/src/main/java/com/szs/shortlink/project/service/impl/ShortLinkServiceImpl.java:464-539 | the stats re-keying: the same rows in the same places, each unchanged but for its group, which becomes the new group exactly for the link's rows under the old group |
| LinkStats.RekeyMovesEveryRow | project/src/main/java/com/szs/shortlink/project/service/impl/ShortLinkServiceImpl.java:464-539 | the re-keying updates leave no row of any stats table under the old group, and the new group gains exactly the old group's rows |
| LinkStats.FirstUvIndex | project/src/main/java/com/szs/shortlink/project/service/impl/ShortLinkServiceImpl.java:689-693 | the index found is that of the first cookie named "uv", or the end when none is |
| LinkStats.VisitOf | project/src/main/java/com/szs/shortlink/project/service/impl/ShortLinkServiceImpl.java:676-720 | the uv is the first "uv" cookie's value or the minted one, and then a cookie is set; the uv and uip are added to the link's sets; each first-visit flag is true exactly when its insertion grew the set (or the uv was minted) |
| LinkPolicy.VerificationWhitelist | project/src/main/java/com/szs/shortlink/project/service/impl/ShortLinkServiceImpl.java:896-909 | passes exactly when the switch is not on or the extracted domain is non-blank and listed; a blank or missing domain is its own error |
| LinkPolicy.FullShortUrlOf | project/src/main/java/com/szs/shortlink/project/service/impl/ShortLinkServiceImpl.java:607-613 | the URL a redirect looks up is the creation form `domain/suffix` exactly for port 80; otherwise a ':' follows the server name |
| LinkPolicy.PortSuffix | project/src/main/java/com/szs/shortlink/project/service/impl/ShortLinkServiceImpl.java:607-611 | the port part is empty exactly for port 80, and otherwise a ':' followed by the port in decimal |
| LinkPolicy.PortSuffixInjective | project/src/main/java/com/szs/shortlink/project/service/impl/ShortLinkServiceImpl.java:607-611 | different ports give different port parts, so different ports look up different URLs |
| Common.NatToStringRoundTrip | project/src/main/java/com/szs/shortlink/project/service/impl/ShortLinkServiceImpl.java:607-611 | reading back the decimal digits of a port gives the port (the `String.valueOf` rendering loses nothing) |
| Common.IntToStringInjective | project/src/main/java/com/szs/shortlink/project/service/impl/ShortLinkServiceImpl.java:607-611 | `String.valueOf` of an int: different numbers give different strings |
| LinkPolicy.CacheActionFor | project/src/main/java/com/szs/shortlink/project/service/impl/ShortLinkServiceImpl.java:545-553 | the cache entry is dropped exactly when the validity changed; the tombstone only if the link was expired and is now permanent or valid into the future; the null-date exception exactly for an expired link given a custom type without a date |
| LinkPolicy.InGroupTombstoneClearedIffRevived | project/src/main/java/com/szs/shortlink/project/service/impl/ShortLinkServiceImpl.java:411-426 | on the in-group path the tombstone is cleared exactly when the stored row is no longer expired (and no exception is raised) |
| ShortLinkProject.SuffixFrom | project/src/main/java/com/szs/shortlink/project/service/impl/ShortLinkServiceImpl.java:176-195 | a suffix found is one whose full short URL the filter does not hold; failure is "exhausted" exactly when attempts up to 10 all collided |
| ShortLinkProject.NewLinkRow | project/src/main/java/com/szs/shortlink/project/service/impl/ShortLinkServiceImpl.java:124-140 | the row a creation inserts: live under the requested group at `domain/suffix`, `delTime = 0`, zero counters, the fetched favicon, and the request's origin URL, description, created type and validity |
| ShortLinkProject.Create | project/src/main/java/com/szs/shortlink/project/service/impl/ShortLinkServiceImpl.java:115-166 | a failure (exhausted, favicon, duplicate key) leaves every store as it was; success appends exactly `NewLinkRow` at a URL the filter, goto table and link table did not hold, adds the goto row to the requested group, the cache entry with the origin URL and the filter entry, and returns "http://" + URL with the request's origin URL and group; stats, tombstones, sets and producer are untouched |
| ShortLinkProject.InGroupEdit | project/src/main/java/com/szs/shortlink/project/service/impl/ShortLinkServiceImpl.java:409-426 | the in-group edit keeps every field but origin URL, description and validity type, which come from the request; the date is null for PERMANENT, else the request's, or the old one when the request has none |
| ShortLinkProject.MovedRow | project/src/main/java/com/szs/shortlink/project/service/impl/ShortLinkServiceImpl.java:446-463 | the row a group move inserts: same URL and suffix, the new group, undeleted with `delTime = 0`, status, created type and counters carried over, the default domain and fresh favicon, and the request's origin URL, description and validity |
| ShortLinkProject.Move | project/src/main/java/com/szs/shortlink/project/service/impl/ShortLinkServiceImpl.java:436-539 | a failure (soft-delete key clash, favicon, duplicate key, missing goto row) leaves the stores as they were; a soft-delete clash always fails with the duplicate key; caches, filter, sets and producer are never touched |
| ShortLinkProject.Update | project/src/main/java/com/szs/shortlink/project/service/impl/ShortLinkServiceImpl.java:395-554 | no update touches the filter, the uv and uip sets or the producer |
| ShortLinkProject.Invalidate | project/src/main/java/com/szs/shortlink/project/service/impl/ShortLinkServiceImpl.java:545-553 | the only failure is the null-date exception, which rolls the tables back but keeps the cache entry dropped; on success the written tables stand, the cache entry is dropped exactly when the validity changed and the tombstone exactly when `CacheActionFor` drops it |
| ShortLinkProject.Hit | project/src/main/java/com/szs/shortlink/project/service/impl/ShortLinkServiceImpl.java:614-620 | a redirect to the location with the visit's cookie; one message (URL, the given group, the visit record) is appended to the producer and the visit's uv and uip are added to the link's sets; no table, cache or tombstone is written |
| ShortLinkProject.RestoreLocked | project/src/main/java/com/szs/shortlink/project/service/impl/ShortLinkServiceImpl.java:632-673 | the locked part of the redirect never writes the link, goto or stats tables, nor the filter |
| ShortLinkProject.Restore | project/src/main/java/com/szs/shortlink/project/service/impl/ShortLinkServiceImpl.java:602-674 | the redirect never writes the link, goto or stats tables, nor the filter |
| ShortLinkProject.CreateKeepsRouted | project/src/main/java/com/szs/shortlink/project/service/impl/ShortLinkServiceImpl.java:115-166 | creation keeps every live link routed by its goto row and every goto URL in the filter |
| ShortLinkProject.RoutedLiveRowIsOnly | project/src/main/java/com/szs/shortlink/project/service/impl/ShortLinkServiceImpl.java:435-445 | in a routed snapshot the live row is the only undeleted row of its URL and has `delTime = 0`, so the soft delete hits it |
| ShortLinkProject.MoveKeepsRouted | project/src/main/java/com/szs/shortlink/project/service/impl/ShortLinkServiceImpl.java:427-542 | the group move keeps every live link routed |
| ShortLinkProject.RoutedAfterMove | project/src/main/java/com/szs/shortlink/project/service/impl/ShortLinkServiceImpl.java:436-483 | soft-deleting every undeleted row of the URL, appending the moved row and pointing the goto row at its group keeps the routing |
| ShortLinkProject.InGroupKeepsRouted | project/src/main/java/com/szs/shortlink/project/service/impl/ShortLinkServiceImpl.java:409-426 | the in-place edit keeps every live link routed |
| ShortLinkProject.InvalidateKeepsRouted | project/src/main/java/com/szs/shortlink/project/service/impl/ShortLinkServiceImpl.java:545-553 | the cache step keeps the routing of the stores it starts from |
| ShortLinkProject.UpdateKeepsRouted | project/src/main/java/com/szs/shortlink/project/service/impl/ShortLinkServiceImpl.java:395-554 | every update, failed or not, keeps every live link routed |
| ShortLinkProject.UpdateFailuresRollBack | project/src/main/java/com/szs/shortlink/project/service/impl/ShortLinkServiceImpl.java:395-554 | every failed update but the null-date one leaves the stores as they were; that one leaves only the cache entry dropped |
| ShortLinkProject.UpdateErrorCases | project/src/main/java/com/szs/shortlink/project/service/impl/ShortLinkServiceImpl.java:398-433 | "not found" exactly when the whitelist passes and no live row is under the original group; "busy" exactly when the link would change group and the write lock was not acquired |
| ShortLinkProject.UpdateChecksWhitelistFirst | project/src/main/java/com/szs/shortlink/project/service/impl/ShortLinkServiceImpl.java:398 | a whitelist refusal is the update's result and nothing is written; no other step raises a whitelist error |
| ShortLinkProject.UpdateInGroupWrites | project/src/main/java/com/szs/shortlink/project/service/impl/ShortLinkServiceImpl.java:409-426 | a successful in-group update writes `ReplaceLive` with the edited row (date null for PERMANENT), which `selectOne` then finds; goto and stats tables are untouched |
| ShortLinkProject.UpdateGroupMoveWrites | project/src/main/java/com/szs/shortlink/project/service/impl/ShortLinkServiceImpl.java:427-542 | a successful group move held the lock and hit no key clash; the links become the soft-deleted table plus `MovedRow`, the old row kept with `delFlag = 1` and `delTime = now`; the goto row names the new group; the stats are `Rekey`ed |
| ShortLinkProject.UpdateMovesStats | project/src/main/java/com/szs/shortlink/project/service/impl/ShortLinkServiceImpl.java:464-539 | after a successful group move no stats row of the link is under the old group, and the new group holds both groups' former rows, table by table |
| ShortLinkProject.UpdateInvalidatesCache | project/src/main/java/com/szs/shortlink/project/service/impl/ShortLinkServiceImpl.java:545-553 | after a successful update the redirect entry is gone exactly when the validity changed and the tombstone exactly when `CacheActionFor` drops it; nothing else in either cache changes |
| ShortLinkProject.RestoreKeepsRouted | project/src/main/java/com/szs/shortlink/project/service/impl/ShortLinkServiceImpl.java:602-674 | a redirect keeps every live link routed |
| ShortLinkProject.CreatedLinkRedirects | project/src/main/java/com/szs/shortlink/project/service/impl/ShortLinkServiceImpl.java:156-161 | right after a creation, a port-80 request for the new suffix is answered from the warmed cache with the origin URL |
| ShortLinkProject.MoveRoutesToNewGroup | project/src/main/java/com/szs/shortlink/project/service/impl/ShortLinkServiceImpl.java:436-483 | after a group move the goto row names the new group and `selectOne` under it finds the moved row with the requested origin URL and validity |
| ShortLinkProject.MovedLinkRedirects | project/src/main/java/com/szs/shortlink/project/service/impl/ShortLinkServiceImpl.java:632-670 | after a group move, a request reaching the store is redirected to the requested origin URL |
| ShortLinkProject.PermanentPastDateMoveStaysDead | project/src/main/java/com/szs/shortlink/project/service/impl/ShortLinkServiceImpl.java:545-660 | a group move of an expired link to PERMANENT with a past date drops the tombstone and cache entry, but the moved row keeps the past date, so the next request reaching the store goes to the not-found page and writes the tombstone again |
| ShortLinkProject.RedirectIsStable | project/src/main/java/com/szs/shortlink/project/service/impl/ShortLinkServiceImpl.java:602-674 | a second request for the same URL, with nothing written in between, goes where the first went or fails as it failed |
| ShortLinkProject.RestoreReachesLock | project/src/main/java/com/szs/shortlink/project/service/impl/ShortLinkServiceImpl.java:614-633 | a request past an empty cache, the filter and an absent tombstone goes to the locked part |
| ShortLinkProject.CacheHitRedirects | project/src/main/java/com/szs/shortlink/project/service/impl/ShortLinkServiceImpl.java:614-620 | a usable cache entry is the redirect's location; the visit goes to the producer without a group; cache and tombstones are unchanged |
| ShortLinkProject.FilterMissWritesNothing | project/src/main/java/com/szs/shortlink/project/service/impl/ShortLinkServiceImpl.java:622-626 | a URL neither cached nor in the filter goes to the not-found page and nothing is written |
| ShortLinkProject.WaitedCacheHitRedirects | project/src/main/java/com/szs/shortlink/project/service/impl/ShortLinkServiceImpl.java:635-641 | a request that waited on the lock while the cache was filled redirects to that entry, sending the visit without a group |
| ShortLinkProject.StoreMissWritesTombstone | project/src/main/java/com/szs/shortlink/project/service/impl/ShortLinkServiceImpl.java:643-660 | under the lock with no cache entry, a missing goto row, no live row or an expired row writes the tombstone ("-", 30 minutes) and goes to the not-found page, recording no visit |
| ShortLinkProject.StoreHitFillsCache | project/src/main/java/com/szs/shortlink/project/service/impl/ShortLinkServiceImpl.java:662-670 | under the lock, a live unexpired row fills the cache with its origin URL for `cacheValidTime`, redirects there, adds the visit to the sets and sends it with the row's group |
| ShortLinkProject.TombstoneMisses | project/src/main/java/com/szs/shortlink/project/service/impl/ShortLinkServiceImpl.java:627-631 | a tombstoned URL goes to the not-found page and writes nothing |
| ShortLinkProject.LockedRedirectIsStable | project/src/main/java/com/szs/shortlink/project/service/impl/ShortLinkServiceImpl.java:634-673 | stability once the first request took the lock |
| ShortLinkProject.StoreRedirectIsStable | project/src/main/java/com/szs/shortlink/project/service/impl/ShortLinkServiceImpl.java:642-670 | stability when the first request read the goto and link tables: a second request succeeds exactly when the first did and then goes to the same location (a missing or expired row sends both to the not-found page; too many rows fail both) |
| ShortLinkProject.FilledRedirectIsStable | project/src/main/java/com/szs/shortlink/project/service/impl/ShortLinkServiceImpl.java:662-670 | a request that filled the cache from the live row goes to its origin URL, and so does the next |
| ShortLinkProject.StaleRedirectAfterOriginEdit | project/src/main/java/com/szs/shortlink/project/service/impl/ShortLinkServiceImpl.java:545-547 | an in-group edit of the origin URL with the validity unchanged keeps the cached old origin URL as the redirect |
| ShortLinkProject.BatchFromFails | project/src/main/java/com/szs/shortlink/project/service/impl/ShortLinkServiceImpl.java:311-336 | a batch fails exactly when there are fewer descriptions than URLs, and then with the index error |
| ShortLinkProject.BatchFromStep | project/src/main/java/com/szs/shortlink/project/service/impl/ShortLinkServiceImpl.java:316-330 | one loop iteration: the batch from item i is item i's `Create`, its report appended when it succeeded, then the batch from item i + 1 |
| ShortLinkProject.BatchDone | project/src/main/java/com/szs/shortlink/project/service/impl/ShortLinkServiceImpl.java:316 | past the last item the batch reports nothing more and writes nothing |
| ShortLinkProject.BatchAborts | project/src/main/java/com/szs/shortlink/project/service/impl/ShortLinkServiceImpl.java:319 | at an item without a description the batch stops with the index error, writing nothing more |
| ShortLinkProject.BatchFromAppends | project/src/main/java/com/szs/shortlink/project/service/impl/ShortLinkServiceImpl.java:311-336 | a batch only appends link rows and grows the filter; stats, tombstones, sets and producer are untouched |
| ShortLinkProject.ReportOf | project/src/main/java/com/szs/shortlink/project/service/impl/ShortLinkServiceImpl.java:322-327 | the report of the inserted rows has one entry per row |
| ShortLinkProject.ReportOfStep | project/src/main/java/com/szs/shortlink/project/service/impl/ShortLinkServiceImpl.java:322-327 | the report of the rows past a prefix is the next row's entry followed by the report of the rest |
| ShortLinkProject.BatchFromReportsInserted | project/src/main/java/com/szs/shortlink/project/service/impl/ShortLinkServiceImpl.java:311-336 | a successful batch reports exactly the rows it inserted, in order ("http://" + URL, origin URL, description), so `total` is the number of successful creations |
| ShortLinkProject.BatchFromBound | project/src/main/java/com/szs/shortlink/project/service/impl/ShortLinkServiceImpl.java:316-333 | the batch from item i reports at most one entry per remaining item |
| ShortLinkProject.BatchTotalBound | project/src/main/java/com/szs/shortlink/project/service/impl/ShortLinkServiceImpl.java:331-334 | a successful batch's `total` is the number of entries reported and at most the number of origin URLs |
| ShortLinkProject.BatchFromKeepsGroup | project/src/main/java/com/szs/shortlink/project/service/impl/ShortLinkServiceImpl.java:311-336 | every row a batch inserts is in the batch's group |
| ShortLinkProject.BatchFromKeepsRouted | project/src/main/java/com/szs/shortlink/project/service/impl/ShortLinkServiceImpl.java:311-336 | a batch keeps every live link routed |
| ShortLinkProject.ShortLinkService.GenerateSuffix | project/src/main/java/com/szs/shortlink/project/service/impl/ShortLinkServiceImpl.java:176-195 | the loop returns `SuffixFrom` from attempt 0, after 1 to 11 filter look-ups, every earlier candidate having collided |
| ShortLinkProject.ShortLinkService.CreateShortLink | project/src/main/java/com/szs/shortlink/project/service/impl/ShortLinkServiceImpl.java:115-166 | result and new stores are those of `Create`; no lock is held afterwards |
| ShortLinkProject.ShortLinkService.CreateBatchItem | project/src/main/java/com/szs/shortlink/project/service/impl/ShortLinkServiceImpl.java:317-330 | one item is one `Create` of its request: the new stores are Create's; an item is reported exactly when its creation succeeded, with the created URL and the item's own origin URL and description; a failure is swallowed |
| ShortLinkProject.ShortLinkService.BatchCreateShortLink | project/src/main/java/com/szs/shortlink/project/service/impl/ShortLinkServiceImpl.java:311-336 | result and new stores are those of `Batch`, the item-by-item run of `Create` over the request's items, whose count is `total` |
| ShortLinkProject.ShortLinkService.BatchItemStep | project/src/main/java/com/szs/shortlink/project/service/impl/ShortLinkServiceImpl.java:316-330 | one loop iteration advances the batch from item i to item i + 1 without changing what the whole batch reports |
| ShortLinkProject.ShortLinkService.UpdateShortLink | project/src/main/java/com/szs/shortlink/project/service/impl/ShortLinkServiceImpl.java:395-554 | result and new stores are those of `Update`, with the rollback made explicit; the write lock is released |
| ShortLinkProject.ShortLinkService.InvalidateCaches | project/src/main/java/com/szs/shortlink/project/service/impl/ShortLinkServiceImpl.java:545-553 | result and new stores are those of `Invalidate` from the stores before the update's writes |
| ShortLinkProject.ShortLinkService.MoveGroup | project/src/main/java/com/szs/shortlink/project/service/impl/ShortLinkServiceImpl.java:436-539 | result and new tables are those of `Move` |
| ShortLinkProject.ShortLinkService.BuildLinkStatsRecordAndSetUser | project/src/main/java/com/szs/shortlink/project/service/impl/ShortLinkServiceImpl.java:676-720 | the record and cookie are those of `VisitOf`, and the link's uv and uip sets become its sets |
| ShortLinkProject.ShortLinkService.ShortLinkStats | project/src/main/java/com/szs/shortlink/project/service/impl/ShortLinkServiceImpl.java:722-730 | exactly one message (URL, group, record) is appended to the producer |
| ShortLinkProject.ShortLinkService.RedirectTo | project/src/main/java/com/szs/shortlink/project/service/impl/ShortLinkServiceImpl.java:614-619 | result and new stores are those of `Hit` |
| ShortLinkProject.ShortLinkService.RestoreUrl | project/src/main/java/com/szs/shortlink/project/service/impl/ShortLinkServiceImpl.java:602-674 | result and new stores are those of `Restore`; the per-URL lock is released |
| ShortLinkProject.ShortLinkService.RedirectUnderLock | project/src/main/java/com/szs/shortlink/project/service/impl/ShortLinkServiceImpl.java:634-670 | result and new stores are those of `RestoreLocked` |
| ShortLinkProject.ShortLinkService.ListGroupShortLinkCount | project/src/main/java/com/szs/shortlink/project/service/impl/ShortLinkServiceImpl.java:582-593 | a requested group is listed exactly when some enabled row (deleted or not) is in it, with its row count |
| UserAdmin.HasUsername | admin/src/main/java/com/szs/shortlink/admin/service/impl/UserServiceImpl.java:84-86 | a name is free exactly when the registration filter does not hold it |
| UserAdmin.SignUpTakesOnlyItsName | admin/src/main/java/com/szs/shortlink/admin/service/impl/UserServiceImpl.java:84-109 | a successful registration makes its free name taken and leaves every other name as it was; a failed one changes no name |
| UserAdmin.SignUp | admin/src/main/java/com/szs/shortlink/admin/service/impl/UserServiceImpl.java:88-109 | registration succeeds exactly when the name is free, the lock was acquired, no row has the name and the insert writes; USER_NAME_EXIST for a taken name or a failed lock, USER_EXIST for a unique-key clash; failure changes nothing; success appends the user, adds the name to the filter and saves the default group |
| UserAdmin.Edit | admin/src/main/java/com/szs/shortlink/admin/service/impl/UserServiceImpl.java:111-118 | fails exactly when the form's name is not the logged-in user's, changing nothing; otherwise every row of that name gets the form's non-null fields and all else is unchanged |
| UserAdmin.SignIn | admin/src/main/java/com/szs/shortlink/admin/service/impl/UserServiceImpl.java:120-149 | "user missing" exactly when no live row has that name and password; with a session hash it returns its first token and renews it for 30 days; without one it stores the fresh token for 30 minutes; the user table is untouched |
| UserAdmin.SignOut | admin/src/main/java/com/szs/shortlink/admin/service/impl/UserServiceImpl.java:157-164 | succeeds exactly when the token is logged in, and then deletes the user's whole session hash; otherwise fails and changes nothing |
| UserAdmin.UserNamed | admin/src/main/java/com/szs/shortlink/admin/service/impl/UserServiceImpl.java:54-67 | USER_NULL exactly when no row has the name (deleted rows included); a user found is a row of that name |
| UserAdmin.RegisterKeepsInvariants | admin/src/main/java/com/szs/shortlink/admin/service/impl/UserServiceImpl.java:97-103 | registration keeps usernames unique and every user in the filter |
| UserAdmin.RegisteredNameIsTaken | admin/src/main/java/com/szs/shortlink/admin/service/impl/UserServiceImpl.java:83-109 | after a registration `hasUsername` is false, the user is found by name, and registering the name again is refused with USER_NAME_EXIST |
| UserAdmin.MatchingAppend | admin/src/main/java/com/szs/shortlink/admin/service/impl/UserServiceImpl.java:57-60 | the rows a lookup matches in a table with rows appended are those of the table, then those of the new rows |
| UserAdmin.UpdateKeepsInvariants | admin/src/main/java/com/szs/shortlink/admin/service/impl/UserServiceImpl.java:111-118 | an update renames no one, so both invariants hold after it |
| UserAdmin.LoginThenCheckLogin | admin/src/main/java/com/szs/shortlink/admin/service/impl/UserServiceImpl.java:120-155 | the token a login returns is logged in; a second login returns the same token and stores no new one |
| UserAdmin.LoginKeepsSingleSession | admin/src/main/java/com/szs/shortlink/admin/service/impl/UserServiceImpl.java:130-148 | login keeps every session hash at one token at most |
| UserAdmin.LogoutEndsEverySession | admin/src/main/java/com/szs/shortlink/admin/service/impl/UserServiceImpl.java:157-164 | after a logout no token of that user is logged in, and every other user's logins are unchanged |
| UserAdmin.LoginThenLogout | admin/src/main/java/com/szs/shortlink/admin/service/impl/UserServiceImpl.java:120-164 | logging out with the token a login returned succeeds and leaves the user logged out |
| UserAdmin.UserService.Register | admin/src/main/java/com/szs/shortlink/admin/service/impl/UserServiceImpl.java:88-109 | result and new stores are those of `SignUp`; the lock is released on every path |
| UserAdmin.UserService.Update | admin/src/main/java/com/szs/shortlink/admin/service/impl/UserServiceImpl.java:111-118 | result and new stores are those of `Edit` |
| UserAdmin.UserService.Login | admin/src/main/java/com/szs/shortlink/admin/service/impl/UserServiceImpl.java:120-149 | result and new stores are those of `SignIn` |
| UserAdmin.UserService.CheckLogin | admin/src/main/java/com/szs/shortlink/admin/service/impl/UserServiceImpl.java:152-155 | true exactly when the token is a key of the user's session hash |
| UserAdmin.UserService.Logout | admin/src/main/java/com/szs/shortlink/admin/service/impl/UserServiceImpl.java:157-164 | result and new stores are those of `SignOut` |
| UserAdmin.UserService.GetUserByUsername | admin/src/main/java/com/szs/shortlink/admin/service/impl/UserServiceImpl.java:54-67 | USER_NULL exactly when no row has the name; a user found is a row of that name |

## Left out

- Time-to-live expiry of cache entries, tombstones and session hashes as time passes. The lifetimes written are recorded, but entries never disappear by themselves.
- The HTTP request and response objects. The server name, port, cookies and classified client signals are inputs. The redirect answer is a value.
- `getFavicon`, `HashUtil.hashToBase62`, `LinkUtil.getLinkCacheValidTime` and the domain extraction are opaque functions. The favicon fetch may raise.
- The stats producer is a list of messages; the JSON encoding of the record is not modelled. The consumer side is not part of this model.
- `groupService.saveGroup` is recorded as a saved group (user name, "默认分组"). The group service is not part of this model.
- The registration filter and the creation filter are Bloom filters. They are modelled as exact sets, so false positives are not modelled. A false positive would only make a free name look taken, or make one more suffix attempt.
- Concurrency is left out. Locks are a multiset of held lock names and `tryLock` outcomes are inputs. `lock()` in the redirect always succeeds after a wait, and what another holder wrote meanwhile is the `filledWhileWaiting` input.
- ShortLinkProject.ShortLinkService.BatchCreateShortLink: each item is modelled with the rollback of a direct `createShortLink` call. In the source the batch calls `createShortLink` on the same object, so no transaction proxy applies. A goto insert that fails after a successful link insert would leave the link row behind, which the model does not show.
- ShortLinkProject.Move: the stats-today rows are deleted and re-inserted with the new group. This is modelled as an in-place re-key, so row identifiers and order are not modelled.
- Ids and timestamps of table rows (create/update time) are not modelled.
- The unique key of the link table is taken to be (full short URL, `delTime`), the goto table is keyed by the full short URL, and the user table by the username (which turns a second insert of a name into USER_EXIST). The table schema is not part of this model.
- ShortLinkProject.Move: the soft-delete update can give a deleted row the key (full short URL, `now`) of an earlier deleted row; the model fails that move with the duplicate key before any write. It checks this clash on the whole table, not row by row as the database would for several targets.
- Request fields: only `validDate` may be null in the model. A null origin URL, description or validity type, which the in-group update would skip and leave as stored, is not modelled.
- `VailDateTypeEnum` is not part of this model. `PERMANENT` is taken to be validity type 0.
- UserAdmin.SignIn: the session hash is a sequence in the order the hash yields its keys, and "the first key" is its head. The "login error" branch for an empty key set cannot be reached, because the hash was checked non-empty.
- UserAdmin.UserNamed: the response is taken to carry name, real name, phone and mail. The response type is not part of this model.
- UserAdmin.Edit: `UserContext` is replaced by the `current` input. Whether the mapper adds a logical-delete condition to the update is not known, so every row of that name is updated.
- `getActualUserByUsername`, page queries and the commented-out older variants of the operations are outside the modelled core.
