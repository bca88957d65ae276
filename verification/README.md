# Verification of the feature service

This project models the core of a serverless OGC API - Features service: features
kept in a key-value table, changed under ETags by any number of concurrent requests,
audited in a change log, and listed page by page under visibility rules. It proves
what the service promises about them.

## What is modelled

**The store.** The features table is a map from primary key to item, the changes table
a map from record key to record. A conditional put or update is one atomic test and
write of one key. A query evaluates the items of one partition in key order, as many
at a time as it likes but at least one while any is left, filters after evaluating,
and may report a last key even when nothing is left. A read of one item may be stale.
Clock, ETags and ids are drawn from outside (`Stamp`); the clock strictly increases and
ETags are fresh.

**Values** (`Json`, `Features`, `MergePatch`, `Geometry`, `SortKeys`). JSON values with
the store's decimals, features, items and keys, the recursive merge patch against
section 2 of RFC 7396, envelopes over nested collections, code-point order of keys.

**Writes in one step** (`Auth`, `Writes`, `FeatureDal`, `WriteHandlers`, `FeatureHandler`). `AtomicWrite` is a
create, replace, update or delete acting at once on the item then stored. The data
access layer is a class over both tables whose methods are proved to do that; the
handlers add the checks of caller, role, headers, body and fields in their order.
`FeatureHandler` is the GET of one feature.

**Writes in many steps** (`Protocol`, `History`, `ProtocolInvariant`, `ProtocolTheorems`,
`Refusals`, `ProtocolVisibility`, `VisibilityHistory`, `ProtocolSolo`, `StaleReads`). A state machine in which every request
starts, is checked, reads, builds its new version, writes under a condition and logs,
each a separate step; the steps of all requests interleave in any order, reads may
return any earlier version, and a request may stop for good at any step. The list of
successful conditional writes (`commits`) is history kept for the proof. The main
results: every run refines the atomic machine and is serializable in commit order; the
log of a feature tells its life; one ETag has one winner; with consistent reads editors
never change a visibility, and with the eventually consistent read the code uses they
reach exactly the visibilities that live versions of the feature have had.

**Listing** (`Query`, `Paging`, `Walk`, `WalkDuringWrites`, `FixedTable`, `Items`, `Client`,
`Servings`, `Counterexamples`, `Examples`). A `World` gives the table as each store read finds it, a
`Serving` what the store leaves open in each read: how many items it evaluates and whether
it reports a last key although nothing is left. One call is the two loops of the
query with over-collection, trimming, restart key, box filter and page cap; a walk passes
cursors on; `WalkDuringWrites` lets the store reads of a walk fall between the steps of a
protocol run. On a table that stays fixed, the specification is one line: the sorted list
of the matching features.

**Schemas** (`Collections`, `Schemas`, `SchemaAgreement`, `SchemaMeaning`). The generated
receivable and returnable schemas, a validator for the keywords they use, what they ask
for written out, and their agreement over single writes and whole runs.

## Where the code differs from its documentation

The model follows the code.

- A change record holds one snapshot, of the version a write leaves or a delete found,
  not a before/after pair with ETags (README.md:128-139).
- Visibility is not hierarchical: the group `<Org>:restricted` alone grants `restricted`
  without `members` (README.md:176); `Auth.RestrictedSeesMembersIff` says when it does.
- `numberMatched` counts the matches after the request's cursor, not those of the whole
  collection.
- The merge patch keeps null members of a patch object that lands where the target has no
  object, which RFC 7396 removes; `MergePatch.MergeIsRfcIffAgreeable` says exactly when the
  two agree.
- A walk can end early although matches remain, when the page cap is spent on items that
  do not match; `Servings.StuckIffMisses` says exactly when the store can make it so, and
  `Counterexamples.CapHidesPublicFeature` gives a table.
- A `next` link carries neither the box nor the property filters of the request;
  `Servings.FiltersSafeIff` says exactly when that does no harm, and
  `Counterexamples.DroppedBoxShows` gives two features on which it does.
- A PATCH is not validated; `SchemaAgreement.PatchedIsReturnableIff` says exactly which
  patches keep a feature returnable, and `SchemaAgreement.UnnamingBreaksSchema` gives one
  that does not.
- That only admins change visibility needs consistent reads, and the code does not ask for
  them (src/oapif/dal/features.py:171). `StaleReads.EditorsReachIff` says exactly which
  visibilities others can bring a feature to, and `StaleReads.EditorCanChangeVisibility`
  gives a run.
- A collection may configure visibility levels of its own; a feature that has one is shown
  to nobody (`FeatureHandler.OtherLevelsAreHidden`).

## Model

| member | source | states |
|---|---|---|
| MergePatch.JsonMergePatch | src/oapif/dal/features.py:601-617 | the loop that edits a copy of the target gives the same merge in whatever order the patch members come, recursively |
| MergePatch.MergedMembers | src/oapif/dal/features.py:605-617 | member by member: null removes, an object is merged into an object, anything else replaces, and what the patch does not name stays |
| MergePatch.MergeIsRfcIffAgreeable | src/oapif/dal/features.py:601-617 | the merge is RFC 7396's MergePatch if and only if every patch sub-object that lands where the target has no object holds no null member at any object depth |
| MergePatch.MergeKeepsNullMember | src/oapif/dal/features.py:609-617 | the input on which the two part: `{"a": {"b": null}}` on the empty object keeps the null member, which the RFC drops |
| MergePatch.RfcMembers | src/oapif/dal/features.py:601-617 | the RFC function is the one meant: it replaces, adds and removes single members as the cases of Appendix A of RFC 7396 do |
| MergePatch.MergeIdempotentIffAgreeable | src/oapif/dal/features.py:601-617 | applying a patch twice is applying it once, under exactly the same condition |
| MergePatch.MergeKeepsUntouched | src/oapif/dal/features.py:609-617 | every path the patch does not touch keeps its value or its absence, without condition |
| Geometry.ExtractAllPositions | src/oapif/dal/features.py:659-682 | over arbitrarily nested geometry collections the accumulating loop gives the positions in order |
| Geometry.OccursMeans | src/oapif/dal/features.py:659-682 | type by type, at which level of the coordinates positions occur, members of a collection included, and that none occur in a geometry of another type |
| Geometry.PositionsHasWhatOccurs | src/oapif/dal/features.py:659-682 | a position is extracted if and only if it occurs in the geometry, at whatever nesting |
| Geometry.EnvelopeIsTight | src/oapif/dal/features.py:643-656 | the envelope is absent exactly when there is no position; otherwise it contains the longitude and latitude, in this order, of every position, and each of its four sides is attained by one |
| Geometry.KeptIffBoxesMeet | src/oapif/dal/features.py:629-640 | for west <= east and south <= north a geometry passes the filter if and only if its envelope and the box share a point |
| Geometry.HullMeetingBoxIsKept | src/oapif/dal/features.py:629-640 | no geometry with a position, a segment between positions, or any other convex combination of them in the box is dropped |
| Features.HashFreeIsSeparable | src/oapif/models/feature.py:104-107 | organization names without `#` are separable |
| Features.KeysAsText | src/oapif/models/feature.py:104-112 | the keys are the texts `<organization>#COLLECTION#<collection>` and `FEATURE#<id>`, and an item is filed under them |
| Features.SeparableIffNoShorterTwin | src/oapif/models/feature.py:104-107 | an organization name shares no partition key with a shorter name if and only if the separator does not begin inside it |
| Features.PkInjective | src/oapif/models/feature.py:104-107 | on separable names the partition key determines organization and collection |
| Features.DecodedKeepsValue | src/oapif/models/feature.py:49-74 | writing and reading keeps arbitrarily nested JSON up to numeric equality, and leaves no decimal and no integral float |
| Features.DecodedFixesSettled | src/oapif/models/feature.py:49-74 | a value comes back unchanged if and only if it has neither already |
| Features.StoreRoundTrip | src/oapif/models/feature.py:116-153 | an item read back is the feature written, field by field up to numeric equality and with the same key; a second round trip changes nothing |
| Features.SnapshotOfStored | src/oapif/models/feature.py:155-169 | storing the GeoJSON of a feature, or taking the GeoJSON of the stored feature, is the same |
| Features.GeoJsonIs | src/oapif/models/feature.py:155-169 | the GeoJSON has four members: `Feature`, the id, the geometry, and the properties with organization and visibility |
| Features.GeoJsonShows | src/oapif/models/feature.py:155-169 | the GeoJSON determines id, organization, visibility, geometry and properties, and shows nothing of ETag, times and deletion mark |
| Auth.GroupFormatsAgree | src/oapif/auth/__init__.py:162-191 | a native list, a space-delimited string and a bracket-wrapped string of the same group names give the same set of groups |
| Auth.OrganizationMeans | src/oapif/auth/__init__.py:194-205 | the organization is what follows `org:` in the first such group in code-point order, and none exactly when no group starts with it or `org:` alone is one |
| Auth.ExtractRoles | src/oapif/auth/__init__.py:208-224 | a role is extracted if and only if it is `admin`, `editor` or `viewer` and some group is it or has it right after its first colon |
| Auth.BuildVisibilityFilter | src/oapif/auth/__init__.py:227-256 | `public` always, `members` exactly for admins, editors and `<organization>:members`, `restricted` exactly for admins and `<organization>:restricted`, and no other level |
| Auth.RestrictedSeesMembersIff | src/oapif/auth/__init__.py:238-256 | a caller who may see `restricted` may see `members` if and only if admin, editor or in the organization's members group |
| Auth.RestrictedWithoutMembers | src/oapif/auth/__init__.py:238-256 | a caller who sees `restricted` and not `members` |
| Auth.ResolveAuthContext | src/oapif/auth/__init__.py:297-350 | organization, filter and roles follow from the token's groups, 403 without an organization or with another one named; without a token only `public` of the named organization, 400 when none is named |
| Auth.FormatsGiveSameContext | src/oapif/auth/__init__.py:317-350 | however the groups are written, the caller gets the same organization, roles and visibility filter, or the same refusal |
| Writes.WriteIsSound | src/oapif/dal/features.py:362-389 | each successful write leaves an item under its own key, without managed properties, already settled; it sets the creation time on a create and keeps it ever after, and only a delete keeps the ETag |
| Writes.RecordShowsStored | src/oapif/dal/features.py:583-593 | the change record each operation writes carries the GeoJSON of the stored item the write leaves, also for a delete, which takes it from the version before |
| Writes.SentIsShown | src/oapif/dal/features.py:367-386 | what a POST or PUT sends is what later readers get up to numeric equality, with the caller's organization and the visibility sent, or else `public`, or the one before |
| Writes.PatchStoresRfcMerge | src/oapif/dal/features.py:444-455 | the stored properties are the merge without the two managed members, and on agreeable patches RFC 7396's result without them |
| Writes.PatchKeepsUntouched | src/oapif/dal/features.py:439-450 | a PATCH sets the geometry and visibility it names, and leaves those it does not name and every property path it does not touch |
| Writes.RefusedIff | src/oapif/dal/features.py:449-455 | a write is refused as not found, for its ETag, for its organization or as existing exactly on these conditions, in this order, a null organization naming none |
| Writes.EditorKeepsVisibility | src/oapif/auth/__init__.py:428-483 | a permitted write by a caller who is not an admin keeps the visibility, when a PUT was checked against the version it overwrites |
| FeatureDal.FeatureDAL.ConditionalPut | src/oapif/dal/features.py:568-581 | the item is replaced if and only if the ETag matches and it is not deleted; nothing else changes |
| FeatureDal.FeatureDAL.WriteChange | src/oapif/dal/features.py:583-593 | one record is added under its own key |
| FeatureDal.FeatureDAL.GetFeature | src/oapif/dal/features.py:137-190 | a feature is returned if and only if it is stored under the key, not deleted, and the filter is empty or holds its visibility; otherwise not found |
| FeatureDal.FeatureDAL.CreateFeature | src/oapif/dal/features.py:95-131 | acts as the atomic create; an id collision changes neither table |
| FeatureDal.FeatureDAL.ReplaceFeature | src/oapif/dal/features.py:362-395 | acts as the atomic replace on the item then stored, with its record; a refusal (absent, ETag, organization) changes neither table |
| FeatureDal.FeatureDAL.UpdateFeature | src/oapif/dal/features.py:437-480 | acts as the atomic merge patch on the item then stored, with its record; a refusal changes neither table |
| FeatureDal.FeatureDAL.DeleteFeature | src/oapif/dal/features.py:516-549 | acts as the atomic delete, which marks the item and keeps its content and ETag; a refusal changes neither table |
| WriteHandlers.EtagRoundTrip | src/oapif/handlers/routes.py:890-909 | sending back the ETag header of a response, with or without blanks before it, names the ETag it carried |
| WriteHandlers.OtherIfMatches | src/oapif/handlers/routes.py:890-909 | a header that is missing, empty or two quotes names nothing, and a bare ETag names itself |
| WriteHandlers.Authorize | src/oapif/handlers/routes.py:929-943 | a caller is authorized if and only if the token's groups name an organization, not another than the request's, and some group is `editor` or `admin` or has one right after its first colon; the context then has that organization, exactly the roles and levels the groups give; without a token the refusal is 400 or 401, with one 403 |
| WriteHandlers.OnlyWritersWrite | src/oapif/auth/__init__.py:383-398 | what a handler takes for authorized has a writing role, and writes for the organization of its token and no other |
| WriteHandlers.HandleCreateFeature | src/oapif/handlers/routes.py:961-1017 | in order: the caller's refusal, 404 for an unknown collection, 400 without a body, the field check whatever the shape of the body, 422 for an invalid one, 500 if and only if the id is taken; a refusal changes nothing, and otherwise it acts as the atomic create and gives its answer |
| WriteHandlers.HandleReplaceFeature | src/oapif/handlers/routes.py:1036-1107 | in order: the caller's refusal, 404, 428 without an ETag, 400, 422, 404 if and only if the item is absent or deleted, 403 if and only if a caller who is not an admin names another visibility than the stored one, 412 if and only if the stored ETag is another, 422 if and only if the body names another organization; a refusal changes nothing, and otherwise it acts as the atomic replace |
| WriteHandlers.HandleUpdateFeature | src/oapif/handlers/routes.py:1126-1189 | in order: the caller's refusal, 404, 428, 400, 403 if and only if a caller who is not an admin names a visibility, 404 for an absent or deleted item, 412 for another ETag, 422 for another organization; a refusal changes nothing, and otherwise it acts as the atomic update |
| WriteHandlers.HandleDeleteFeature | src/oapif/handlers/routes.py:1208-1234 | in order: the caller's refusal, 428, 404 if and only if the item is absent or deleted, 412 if and only if it has another ETag, and otherwise 204 with the item marked deleted at the instant drawn; no other status changes anything |
| WriteHandlers.DeletedMeans | src/oapif/handlers/routes.py:1208-1234 | 204 if and only if the item was live under the ETag named and is now marked deleted |
| WriteHandlers.PutRefusalsAreChecks | src/oapif/handlers/routes.py:1065-1084 | for an editor or admin the PUTs answered 404 and 403 are the very ones the step machine's checks refuse so |
| WriteHandlers.PostRefusalsAreChecks | src/oapif/auth/__init__.py:401-425 | the POSTs answered 403 are those of callers who are not admins and name a visibility, and the very ones the step machine's checks refuse |
| WriteHandlers.PatchRefusalsAreChecks | src/oapif/auth/__init__.py:458-483 | the same for PATCHes |
| FeatureHandler.HandleFeature | src/oapif/handlers/routes.py:441-504 | 403 when the token names no organization or another than the request; 404 for an unknown collection only to a request with neither token nor organization; 400 without any organization; otherwise the GeoJSON and ETag header if and only if the feature is stored, not deleted, and of a visibility the caller's groups give, and else 404 |
| FeatureHandler.EtagAllowsWrite | src/oapif/handlers/routes.py:890-909 | the ETag header of a live feature, sent back in a PUT or PATCH while nothing has changed, is never answered 404, 412 or 428 |
| History.TokenUsedOnce | src/oapif/dal/features.py:564-581 | in a serial history no two replaces, updates or deletes name the same ETag |
| History.CommitsAreLife | src/oapif/dal/features.py:516-533 | the commits at one key are a create, then replaces and updates, then at most one delete, each on the version the one before left, each stamped later |
| ProtocolInvariant.BaseIsCurrent | src/oapif/dal/features.py:564-581 | when the condition of a write holds, the version read earlier, however stale that read was, is the item it overwrites |
| ProtocolInvariant.WriteIsAtomic | src/oapif/dal/features.py:388-389 | a successful conditional write is the atomic write on the item then stored, stamped later than it, and the record to be logged is that of the version it leaves |
| ProtocolInvariant.RunKeeps | src/oapif/dal/features.py:362-389 | the invariant of the protocol holds in every state of every run |
| ProtocolTheorems.StepRefinesAtomic | src/oapif/dal/features.py:362-389 | every step of every interleaving is one atomic write on the item then stored, or leaves the features table alone |
| ProtocolTheorems.RunIsSerializable | src/oapif/dal/features.py:362-389 | in every state, running the committed requests one after another gives the table and the answer of every request that succeeded |
| Refusals.RefusalIsAtomic | src/oapif/dal/features.py:555-581 | with consistent reads each 404, 412 or immutable organization a request is refused with is the atomic write's answer in some state while the request was in flight, save that a conditional write that loses to a delete answers 412 where the atomic write finds nothing |
| ProtocolTheorems.CommitAnswers | src/oapif/dal/features.py:437-480 | each answer is the one the atomic write gives at the request's place in the commit order |
| ProtocolTheorems.CommitOrderIsRealTime | src/oapif/dal/features.py:362-389 | a request that had committed before another one began comes first |
| ProtocolTheorems.CommittedIffPastWrite | src/oapif/dal/features.py:564-581 | a request has taken effect if and only if it is past its conditional write |
| ProtocolTheorems.FailedLeavesNothing | src/oapif/dal/features.py:555-581 | a failed request has left neither a version nor a record |
| ProtocolTheorems.LoggedIffDone | src/oapif/dal/features.py:583-593 | the record of a commit is in the log if and only if its request is done; missing are only those of requests running or stopped between their two writes |
| ProtocolTheorems.DoneIsOnRecord | src/oapif/dal/features.py:583-593 | a finished write has one record under its partition, instant and id, with its operation's name and the GeoJSON of the item it left |
| ProtocolTheorems.ListingIsCommitOrder | src/oapif/models/feature.py:193-210 | one feature's records in sort-key order are those of its commits in commit order, less the missing ones |
| ProtocolTheorems.CompleteLogTellsLife | src/oapif/dal/features.py:518-544 | when none is missing they read CREATE (REPLACE or UPDATE)* DELETE?, the last snapshot is the GeoJSON of the stored item, and the last one is DELETE if and only if the item is deleted |
| ProtocolTheorems.OneWinnerPerToken | src/oapif/dal/features.py:564-581 | for each ETag at most one replace, update or delete ever succeeds, over all features and runs |
| ProtocolTheorems.TokensFormChain | src/oapif/dal/features.py:520-533 | each write gives up the ETag of the one before, none comes back, and only a delete, always last, keeps it |
| ProtocolTheorems.DeletedStaysDeleted | src/oapif/dal/features.py:520-533 | once an item is deleted no later write changes it, although its ETag still matches |
| ProtocolTheorems.ItemsAreSound | src/oapif/models/feature.py:104-112 | in every state each item's organization, collection and id make its own key, and its properties hold neither organization nor visibility |
| ProtocolTheorems.PartitionIsTenant | src/oapif/models/feature.py:104-107 | with separable names a partition holds only features of its organization and collection |
| ProtocolTheorems.ReadIsTenant | src/oapif/dal/features.py:171-190 | with separable names a read of one feature, however stale, returns the requested id of the requested organization and collection |
| ProtocolTheorems.IdentityNeverChanges | src/oapif/dal/features.py:450-471 | items are never removed and keep organization, collection, id and creation time |
| ProtocolTheorems.OnlyWritersCommit | src/oapif/auth/__init__.py:383-398 | every change to the features table, in every run, was asked for by an editor or an admin |
| ProtocolVisibility.EditorCommitKeepsVisibility | src/oapif/handlers/routes.py:1069-1084 | with consistent reads and If-Match values from completed responses, each commit of a caller who is not an admin keeps the visibility it finds, however admins interleave, or creates a public feature |
| ProtocolVisibility.EditorsNeverChangeVisibility | src/oapif/handlers/routes.py:1155-1166 | so over any stretch of a run without admin commits no existing feature changes its visibility, although PUT checks one read and writes after a second |
| ProtocolSolo.SoloWrite | src/oapif/dal/features.py:362-395 | from every reachable state a request of an editor or admin, which names no visibility the caller may not set and succeeds as an atomic write, can run to its end undisturbed, with the tables, the record and the answer of the atomic write |
| ProtocolSolo.ChecksMean | src/oapif/auth/__init__.py:383-483 | the handler's checks pass if and only if the roles hold `editor` or `admin` and: a POST or PATCH names no visibility, or the caller is an admin; a PUT is of a live item and, unless by an admin, names no visibility but the item's; a DELETE needs nothing more |
| ProtocolSolo.SoloRefused | src/oapif/handlers/routes.py:1065-1084 | every other request that begins can run to the refusal its checks or the atomic write give, and leaves both tables alone |
| ProtocolSolo.NeverBlocked | src/oapif/dal/features.py:362-395 | in every reachable state each unfinished request can take its next step, or stop for good, which changes neither table |
| VisibilityHistory.EditorCommitLeavesEarlierVisibility | src/oapif/handlers/routes.py:1069-1084 | for any staleness of reads and any source of If-Match values, each commit of a caller who is not an admin leaves a visibility that an earlier live version of the feature had, or creates a public feature |
| VisibilityHistory.EditorsOnlyRestore | src/oapif/handlers/routes.py:1155-1166 | so over any stretch of a run without admin commits a feature ends with a visibility that one of its live versions had at the start |
| VisibilityHistory.SteadyVisibilityIsSafe | src/oapif/auth/__init__.py:428-483 | a feature whose visibility never varied keeps it against everyone but admins, under reads of any staleness |
| StaleReads.ReadsMean | src/oapif/dal/features.py:171-176 | a consistent read finds what is stored and nothing else; an eventually consistent one may also find nothing, or what any earlier write at the key left |
| StaleReads.StalePutChangesVisibility | src/oapif/dal/features.py:171-176 | with stale reads, from every reachable state, one PUT of an editor who names the current ETag gives a live feature back the visibility of any earlier live version |
| StaleReads.EditorsReachIff | src/oapif/handlers/routes.py:1069-1084 | with stale reads, from any state of any run, callers who are not admins can bring a live feature to a visibility if and only if one of its live versions had it |
| StaleReads.EditorCanChangeVisibility | src/oapif/handlers/routes.py:1069-1084 | a run from the empty tables in which an admin restricts a public feature to members and an editor then makes it public again |
| Query.StoreQuery | src/oapif/dal/features.py:258-278 | one store page: exactly the items after the start key and up to the reported key that are not deleted, of a visibility asked for, and have each property asked for with its text, in key order |
| Query.MatchesMeans | src/oapif/dal/features.py:235-246 | a feature matches if and only if it is not deleted, its visibility is in a non-empty filter, each property asked for equals its text, and its envelope overlaps the box if there is one |
| Query.FilterByBbox | src/oapif/dal/features.py:620-640 | keeps, in order, exactly the features whose geometry passes the box test |
| Paging.TrimmedPage | src/oapif/dal/features.py:280-292 | trimming to the limit and restarting after the last returned feature neither drops nor repeats a match |
| Paging.CallOfOk | src/oapif/dal/features.py:255-292 | however the store serves the pages and the table changes between them, the call keeps its contract: limit, order, no steady match missing up to its end, and a cap spent only on further items of the partition |
| Paging.QueryFeatures | src/oapif/dal/features.py:235-321 | over a table changing between store reads: at most `limit` matches in key order, each as some read found it, none missing that stood throughout up to the page's end; a full page with every cursor unless the cap was spent; the count of what matches after the cursor; and the whole is determined by the tables and what the store chooses |
| Walk.ConcurrentWalk | src/oapif/dal/features.py:249-292 | whatever happens between store reads, a walk returns no feature twice, and a walk not ended by the cap returns every feature that existed and matched throughout |
| WalkDuringWrites.WalkMeetsWrites | src/oapif/dal/features.py:249-292 | the same with each store read finding some state, in any order, of a run of the write protocol: what stood in all those states is returned exactly once |
| WalkDuringWrites.RunWorldIsSound | src/oapif/dal/features.py:265-266 | every state of a run is one that the query is made for, so its contract holds while the protocol runs |
| WalkDuringWrites.WalkStaysInTenant | src/oapif/dal/features.py:235-236 | such a walk never leaves the requested organization and collection |
| FixedTable.RestSpecified | src/oapif/dal/features.py:235-246 | the specification list is sorted by key and holds exactly the features of the partition after the cursor that are not deleted, of a visibility asked for, with each property asked for, and of an envelope that overlaps the box |
| Examples.KindFilterListsRoad | src/oapif/dal/features.py:243-246 | a road and a river, and the listing for `kind=road` has the road alone |
| FixedTable.WalkIsPrefixOfListing | src/oapif/dal/features.py:235-292 | for every chunking, limits and filter, the concatenated pages are a prefix of the sorted list of matches, and all of it unless the last call ended on the cap with nothing found |
| FixedTable.CursorMovesForward | src/oapif/dal/features.py:283-292 | every call that returns a cursor moves it strictly forward and returns a feature |
| FixedTable.WalkLength | src/oapif/dal/features.py:255-292 | without the cap m matches take at most m / limit + 1 calls |
| FixedTable.StuckNeedsMisses | src/oapif/dal/features.py:255-278 | a call ends with nothing on the cap only if as many further items as the cap allows reads lie before any match, none of them matching |
| Servings.StuckIffMisses | src/oapif/dal/features.py:255-286 | for any cursor, filter and limit: the store can serve a call so that it ends on the cap with no feature and no cursor if and only if at least as many items as the cap allows reads lie after the cursor before any match, whether rejected by the store's conditions or by the box |
| Counterexamples.CapHidesPublicFeature | src/oapif/dal/features.py:255-286 | fifty deleted items before one public feature: the listing holds it, and the first call can end with nothing and no cursor |
| FixedTable.CountIsExact | src/oapif/dal/features.py:294-319 | a count that was not cut short is the exact number of matches after the cursor |
| FixedTable.CountIsConserved | src/oapif/dal/features.py:280-319 | the matches after a cursor are the page's features followed by the matches after the page's own cursor |
| FixedTable.NumberMatchedAddsUp | src/oapif/dal/features.py:294-319 | a page's count equals its number of features plus the next page's count |
| FixedTable.LookupAgreesWithListing | src/oapif/dal/features.py:171-190 | `GetFeature` finds an id exactly when it occurs in the finished walk with the same visibility filter, and yields the same feature |
| Items.ResolveItemsContext | src/oapif/handlers/routes.py:366-382 | with a token the collection plays no part; without one the request sees what is public of the organization it names, or else of the collection's only one, and is refused with 400 when there is neither |
| Items.LinkKeepsContext | src/oapif/handlers/routes.py:406-410 | a request that follows a `next` link resolves to the very same context |
| Items.HandleItems | src/oapif/handlers/routes.py:346-433 | 404 for an unknown collection, 400 for an unknown parameter or a limit or box that cannot be parsed, the caller's own refusal; otherwise the response is one call of the query with the caller's levels and the parameters' properties and box: its features as GeoJSON, their number, the count, and one `next` link with cursor and organization exactly when there is a cursor |
| Client.NextUrl | plugin/client.py:342-347 | the first `next` link decides the next request, which names no limit, box or property |
| Client.GetAllFeatures | plugin/client.py:327-349 | terminates; without box and property filters it returns the GeoJSON of exactly the visible features in key order whatever the first limit, or a prefix when stuck on the cap; with filters it returns the first page filtered and the rest unfiltered |
| Client.FilteredIffRestMatches | src/oapif/handlers/routes.py:406-410 | a filtered request gets exactly the filtered list if and only if everything visible beyond its first page matches the filter |
| Servings.FiltersSafeIff | src/oapif/handlers/routes.py:406-410 | however the store serves the first call within the cap, a request with box or property filters gets exactly the filtered list, if and only if there are fewer matches than the limit, or everything visible beyond the limit-th match matches too |
| Counterexamples.DroppedBoxShows | src/oapif/handlers/routes.py:406-410 | two features, a limit of one and a box only the first meets: the filtered list holds one and the client can get both |
| Schemas.ValidUpToNumbers | src/oapif/schema.py:24-134 | values that differ only in the representation of numbers satisfy the same schemas |
| Schemas.BuildPropertiesSchema | src/oapif/schema.py:165-208 | the loop over the configured properties gives each member its schema, `visibility` in both variants and `organization` only in the returnable one overriding a property of that name |
| Schemas.GenerateSchema | src/oapif/schema.py:211-281 | the document edited in place is the receivable or returnable schema, `id` required in the latter and unknown to the former |
| SchemaMeaning.PropertyMeans | src/oapif/models/collection.py:108-124 | a value satisfies the schema of a configured property if and only if it has the type, is one of the enumerated values if there are any, and lies within the bounds |
| SchemaMeaning.GeometryMeans | src/oapif/schema.py:24-162 | a value satisfies the geometry schema if and only if it is of the configured type, or of any of the six when none of them is configured, with positions of two or three numbers, lines of at least two and rings of at least four positions; exactly one alternative then holds |
| SchemaMeaning.SchemaMeans | src/oapif/schema.py:211-281 | a document satisfies the receivable or the returnable schema if and only if it is a `Feature` with such a geometry and properties that hold all required members, an allowed visibility and each configured member within its schema, and for the returnable one also text for id and organization |
| SchemaAgreement.ReceivedIsBody | src/oapif/handlers/routes.py:912-926 | a body that passes the receivable schema has what the write operations assume of it, and an allowed visibility if any |
| SchemaAgreement.ReceivedGeometry | src/oapif/schema.py:137-162 | a geometry that passes is of one of the six types, the configured one if any, and the envelope can be computed of it |
| SchemaAgreement.CreatedIsReturnableIff | src/oapif/schema.py:180-208 | a feature created from a received body satisfies the returnable schema, as answered and as stored, if and only if the body gives a visibility, or none are listed, or `public` is |
| SchemaAgreement.ReplacedIsReturnableIff | src/oapif/schema.py:232-281 | the same for a replacement, with the stored visibility in the place of `public` |
| SchemaAgreement.PatchedIsReturnableIff | src/oapif/dal/features.py:437-471 | a PATCH keeps a returnable feature returnable, as answered and as stored, if and only if a geometry it names is valid, no null removes a required property, and every other member it names is, as merged, what the schema of that member has |
| SchemaAgreement.UnnamingBreaksSchema | src/oapif/handlers/routes.py:1146-1166 | a received feature, returnable as created, and an editor's PATCH that leaves it without its required name |
| SchemaAgreement.RunIsReturnable | src/oapif/handlers/routes.py:1065-1084 | in every state of every run an item made by received bodies, fitting patches and deletes satisfies the returnable schema, if the collection allows `public` |

## Left out

- WriteHandlers.HandleUpdateFeature: excludes PATCH bodies whose `properties` is not an object, on which the merge fails, and those that set `visibility` to a number, a boolean, a list or an object. The code accepts the latter from an admin without validation and stores and returns whatever the store takes; a feature's visibility is text here.
- FeatureDal.FeatureDAL.UpdateFeature: the same bodies are excluded.
- Geometry.ExtractAllPositions: takes coordinates nested as deep as the type calls for; the code raises an exception on others.
- Geometry.KeptIffBoxesMeet: boxes across the antimeridian (west > east) are not treated by the code either.
- Paging.QueryFeatures: a cursor is the sort key it carries; its base64 and JSON text, and cursors that do not decode, are not part of the model.
- Auth.GroupFormatsAgree: the JSON parser is a parameter, taken to reject the bracket-wrapped text.
- Items.HandleItems: the text of URLs is not modelled, nor the escaping of an organization name in a `next` link; the time stamp and the other links' targets are left out.
- WalkDuringWrites.WalkMeetsWrites: one store page shows one state of the table; a page that mixes states item by item is not modelled.
- Client.GetAllFeatures: for a changing table it need not end, since others may keep inserting ahead of the cursor; what its pages hold then is stated by Walk.ConcurrentWalk.
- Number formats: floats are the exact reals they denote, the store's limit of 38 digits is not modelled, and NaN and infinities do not occur.
- Times are integers; the ISO 8601 strings the code uses are taken to sort as the instants do.
- A delete draws no ETag in the code and one it does not use in the step machine; clock readings of requests that fail later leave no trace.
- Property filters compare with text only, as query parameters are text; property names with dots, which the store reads as paths, are not modelled.
- Reserved attributes missing from an item, which the code replaces by defaults when reading; every item the service writes has them.
- HTTP, Lambda and boto3 plumbing, errors of the store other than a failed condition, logging and CDK stacks.
- Token decoding and signatures, OIDC, the token store and the QGIS plugin shell.
- Landing page, conformance, API document, OPTIONS and collection metadata: constant documents.
- CollectionDAL and the plugin's configuration: bookkeeping that would only add easy members; a collection's configuration is a parameter.
- The `format` keyword of the generated schemas is an annotation; property types that are not JSON Schema types, on which the validator raises, match nothing.
