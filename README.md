# Track reconciliation engine of the SoundCloud desktop wrapper

This project models, in Dafny, the part of the SoundCloud desktop wrapper
(a Tauri application) that reconciles a user's tracks with outside catalogs
and with a local Rekordbox library, and proves properties of that model.
It covers five parts:

- **The match store** (`library/mod.rs`). `LibraryStore.LibraryStore` is a
  class holding the SQLite tables as maps keyed by track id. Its methods
  change those maps step by step, as the SQL statements do, and each one is
  proved equal to a pure function in `Library`, `LibrarySync`,
  `LibraryListing` or `LibraryMigrations`. The properties are proved about
  those functions:
  - foreign keys hold, and deletes cascade;
  - the Discogs candidate list is replaced, never merged;
  - MusicBrainz candidates are filed under their own `match_id`, and the
    transaction is rolled back for a candidate whose match is missing;
  - a Rekordbox re-import keeps ids stable and deletes the tracks of unseen
    ids;
  - the status listing filters, clamps its limit, orders and pages as
    stated;
  - the legacy-payload migrations are idempotent.
- **The catalog lookups** (`discogs.rs`, `musicbrainz.rs`):
  - the query builders;
  - the rate limiter, run against an explicit clock;
  - the MusicBrainz retry loop, driven by a sequence of HTTP responses;
  - the score-based decisions of both catalogs. They differ, and the model
    keeps them apart: Discogs filters on type and `resource_url` and has no
    "95 or more" shortcut; MusicBrainz treats a best score of 0 or less as
    100 and retries on 429 and 503.
- **The pure parts of the Rekordbox import** (`rekordbox.rs`):
  - choosing the parser from the file extension, and the auto-refresh rule;
  - resolving and decoding a track's location;
  - grouping hot cues by SongID in the master-database parser;
  - the id fallback, and the skipping of anonymous entries, in the XML
    parser.
- **Orchestration helpers** (`lib.rs`, `media.rs`):
  - building the lookup payload, including its tag and first-string
    extraction;
  - the confidence default of `confirm_musicbrainz_match`;
  - the `RekordboxState` watcher state machine, with paths compared by
    components as `PathBuf` equality does, and the watcher's change check;
  - the `open_external` rules and the navigation guard;
  - normalising the media payload and the `MediaCache`.
- **The MPRIS metadata serialiser** (`vendor/mpris-player/src/metadata.rs`):
  `Metadata::to_hashmap`.

`Text`, `Json`, `Sorting`, `RateLimit` and `Lookup` hold the pieces these
parts share:
- Rust's `trim`, `split_whitespace` and integer formatting;
- a `serde_json::Value` subset;
- the stable `sort_by` on an optional score;
- the rate limiter, which is written identically in both catalog workers;
- the `LookupResult`/`LookupFailure` enums.

Some things the code does not compute itself arrive as inputs:
- HTTP responses;
- the readings of `Instant::now()`;
- `datetime('now')` timestamps, as natural numbers;
- the parsed form of a URL;
- the file probe (`compute_file_metadata`);
- the order in which SQLite returns unordered rows.

Where the code and its documented intent differ, the model follows the code:
- A stored success need not carry a release id. `record_*_success` stores
  whatever `extract_release_id` finds, which may be nothing.
- MusicBrainz accepts several unscored releases with confidence 100. The
  best score of 0 or less is replaced by 100 before the "95 or more" test.
- In the master-database parser, a second song row with the same ID gets no
  cues, because the first one removed them from the map.
- The Discogs release request's HTTP status is never checked.
- MPRIS sends the track length as a decimal string, not as an integer.
- `list_library_status` reads `likedAt` as text. A liked track whose
  `likedAt` is a number or a boolean is counted in `total`, but any page that
  includes it fails with a column-type error; an array or object `likedAt`
  comes back as its JSON text.

## Model

| member | source | states |
|---|---|---|
| Library.StatusRoundTrip | soundcloud-wrapper-tauri/src-tauri/src/library/mod.rs:93-107 | reading back the stored text of a Discogs match status gives the same status |
| Library.StatusFromStrDefault | soundcloud-wrapper-tauri/src-tauri/src/library/mod.rs:101-107 | only "success", "ambiguous" and "error" read back unchanged; every other text reads as Error |
| Library.ReleaseIdFirstKeyDecides | soundcloud-wrapper-tauri/src-tauri/src/library/mod.rs:1565-1579 | the first of `id`, `release_id`, `master_id` present decides: a string is the id, an integer is its decimal text, anything else (null included) gives no id and the later keys are not consulted |
| Library.ReleaseIdOfInteger | soundcloud-wrapper-tauri/src-tauri/src/library/mod.rs:1565-1579 | a 64-bit integer id, negative ones included, becomes its decimal text; a null `id` hides a `release_id` |
| Library.EnsureTrackKeepsExisting | soundcloud-wrapper-tauri/src-tauri/src/library/mod.rs:1548-1555 | `INSERT OR IGNORE` adds a bare row for a new id and leaves an existing row and every other row alone |
| Library.UpsertTrackOverwrites | soundcloud-wrapper-tauri/src-tauri/src/library/mod.rs:475-531 | after the upsert the row has the record's eight columns and the new `updated_at`; the legacy Discogs payload and `created_at` survive; no other track and no other table changes |
| Library.UpsertTrackTwice | soundcloud-wrapper-tauri/src-tauri/src/library/mod.rs:475-531 | upserting the same record again changes only `updated_at` |
| Library.LinkSoundcloudSourceReplacesSource | soundcloud-wrapper-tauri/src-tauri/src/library/mod.rs:533-559 | linking ensures the track without changing an existing one and replaces the whole SoundCloud source row; nothing else changes |
| Library.SyncSoundcloudTrackKeepsRecord | soundcloud-wrapper-tauri/src-tauri/src/library/mod.rs:561-569 | when the source belongs to the upserted track, linking it keeps every value the upsert wrote |
| Library.RecordLocalAssetCues | soundcloud-wrapper-tauri/src-tauri/src/library/mod.rs:981-1021 | the asset row is replaced by the record's values; the Rekordbox source row changes exactly when the record carries cues; the track is only ensured |
| Library.SetGroup | soundcloud-wrapper-tauri/src-tauri/src/library/mod.rs:695-733 | replacing one match's candidate group leaves every other group as it was |
| Library.SetGroupSnoc | soundcloud-wrapper-tauri/src-tauri/src/library/mod.rs:709-733 | inserting one more candidate after the delete extends the replacement group by that row |
| Library.PersistDiscogsMatchReplaces | soundcloud-wrapper-tauri/src-tauri/src/library/mod.rs:661-736 | the match row, the track's release id and confidence follow the record; the record's candidate list becomes exactly the passed candidates of that track, in order, and the old ones are gone; no other match, no other candidate group and no MusicBrainz table changes |
| Library.RowsForAllMatching | soundcloud-wrapper-tauri/src-tauri/src/library/mod.rs:709-733 | when every candidate belongs to the match, all of them are stored, in order |
| Library.MatchIds | soundcloud-wrapper-tauri/src-tauri/src/library/mod.rs:781-806 | the set of `match_id`s of a candidate list holds every candidate's id and only ids that have candidates |
| Library.MatchIdsFrom | soundcloud-wrapper-tauri/src-tauri/src/library/mod.rs:781-806 | every id in that set comes from some candidate |
| Library.AppendCandidatesGroups | soundcloud-wrapper-tauri/src-tauri/src/library/mod.rs:781-806 | the unfiltered MusicBrainz insert loop grows each group by exactly its own candidates, in order, and adds groups only for the candidates' ids |
| Library.FirstOrphan | soundcloud-wrapper-tauri/src-tauri/src/library/mod.rs:781-806 | the orphan is absent exactly when every candidate's `match_id` has a match row, and otherwise has none |
| Library.FirstOrphanAt | soundcloud-wrapper-tauri/src-tauri/src/library/mod.rs:781-806 | the failing insert is the first candidate, in order, whose `match_id` has no match row |
| Library.PersistMusicbrainzAccepts | soundcloud-wrapper-tauri/src-tauri/src/library/mod.rs:738-809 | the MusicBrainz writer succeeds exactly when every candidate points at an existing match or at the record's own track |
| Library.PersistMusicbrainzMatchGroups | soundcloud-wrapper-tauri/src-tauri/src/library/mod.rs:738-809 | on success the match row and track columns follow the record; the record's own group is replaced by its candidates, every other group only grows by its own candidates, and the Discogs tables do not change |
| Library.AmbiguityCandidatesKeepIds | soundcloud-wrapper-tauri/src-tauri/src/library/mod.rs:844-878 | ambiguity candidates are the values with an extractable id, each filed under the track with that id and its own score; none is dropped when all have ids |
| Library.DiscogsSuccessStored | soundcloud-wrapper-tauri/src-tauri/src/library/mod.rs:811-842 | a Discogs success stores status "success", the confidence, the release's id (possibly none), the query, no message, and one candidate scored by the release's own score or else by the confidence |
| Library.MusicbrainzSuccessStored | soundcloud-wrapper-tauri/src-tauri/src/library/mod.rs:899-924 | a MusicBrainz success is never refused and stores one candidate whose score is always the confidence |
| Library.AmbiguityStored | soundcloud-wrapper-tauri/src-tauri/src/library/mod.rs:926-960 | an ambiguity, for either catalog, stores no release id or confidence, status "ambiguous", and only candidates that have an id; the MusicBrainz writer never refuses it |
| Library.FailureStored | soundcloud-wrapper-tauri/src-tauri/src/library/mod.rs:962-979 | a failure, for either catalog, stores status "error" with the reason as message and leaves no candidates |
| Library.DeleteTracksCompose | soundcloud-wrapper-tauri/src-tauri/src/library/mod.rs:1136-1141 | deleting two sets of tracks one after the other is deleting their union |
| Library.DeleteNothing | soundcloud-wrapper-tauri/src-tauri/src/library/mod.rs:1136-1141 | deleting no track changes nothing |
| Library.DeleteTracksCascades | soundcloud-wrapper-tauri/src-tauri/src/library/mod.rs:303-400 | with the foreign keys intact, `ON DELETE CASCADE` leaves nothing that refers to a deleted track, keeps the foreign keys, and keeps every other track unchanged |
| Library.EnsureTrackKeepsForeignKeys | soundcloud-wrapper-tauri/src-tauri/src/library/mod.rs:1548-1555 | ensuring a track keeps every foreign key satisfied |
| Library.UpsertTrackKeepsForeignKeys | soundcloud-wrapper-tauri/src-tauri/src/library/mod.rs:475-531 | the track upsert keeps every foreign key satisfied |
| Library.LinkSoundcloudSourceKeepsForeignKeys | soundcloud-wrapper-tauri/src-tauri/src/library/mod.rs:533-559 | linking a source keeps every foreign key satisfied |
| Library.RecordLocalAssetKeepsForeignKeys | soundcloud-wrapper-tauri/src-tauri/src/library/mod.rs:981-1021 | recording an asset keeps every foreign key satisfied |
| Library.PersistDiscogsKeepsForeignKeys | soundcloud-wrapper-tauri/src-tauri/src/library/mod.rs:661-736 | the Discogs writer keeps every foreign key satisfied |
| Library.PersistMusicbrainzKeepsForeignKeys | soundcloud-wrapper-tauri/src-tauri/src/library/mod.rs:738-809 | a MusicBrainz write that is not refused keeps every foreign key satisfied |
| LibraryStore.LibraryStore.Open | soundcloud-wrapper-tauri/src-tauri/src/library/mod.rs:291 | `Connection::open`: the store starts from the tables found in the database file |
| LibraryStore.LibraryStore.Initialize | soundcloud-wrapper-tauri/src-tauri/src/library/mod.rs:286-297 | opening runs the Discogs migration over exactly the tracks with a legacy Discogs payload, then the MusicBrainz migration over exactly those with a legacy MusicBrainz payload; afterwards no legacy payload of either kind is left |
| LibraryStore.LibraryStore.EnsureTrack | soundcloud-wrapper-tauri/src-tauri/src/library/mod.rs:1548-1555 | the new tables are `Library.EnsureTrack` of the old ones |
| LibraryStore.LibraryStore.UpsertTrack | soundcloud-wrapper-tauri/src-tauri/src/library/mod.rs:475-531 | the new tables are `Library.UpsertTrack` of the old ones, and the foreign keys still hold |
| LibraryStore.LibraryStore.LinkSoundcloudSource | soundcloud-wrapper-tauri/src-tauri/src/library/mod.rs:533-559 | the new tables are `Library.LinkSoundcloudSource` of the old ones, and the foreign keys still hold |
| LibraryStore.LibraryStore.SyncSoundcloudTrack | soundcloud-wrapper-tauri/src-tauri/src/library/mod.rs:561-569 | the upsert followed by the link, and the foreign keys still hold |
| LibraryStore.LibraryStore.RecordLocalAsset | soundcloud-wrapper-tauri/src-tauri/src/library/mod.rs:981-1021 | the new tables are `Library.RecordLocalAsset` of the old ones, and the foreign keys still hold |
| LibraryStore.LibraryStore.PersistDiscogsMatch | soundcloud-wrapper-tauri/src-tauri/src/library/mod.rs:661-736 | the ensure, the two upserts, the delete and the filtered insert loop together give `Library.PersistDiscogsMatch` |
| LibraryStore.LibraryStore.RecordDiscogsMatch | soundcloud-wrapper-tauri/src-tauri/src/library/mod.rs:571-580 | the transaction commits the Discogs writer's tables and keeps the foreign keys |
| LibraryStore.LibraryStore.RecordMusicbrainzMatch | soundcloud-wrapper-tauri/src-tauri/src/library/mod.rs:582-591 | the unfiltered insert loop commits the writer's tables when no candidate is orphaned; otherwise it reports the error and rolls back to the old tables |
| LibraryStore.LibraryStore.RecordDiscogsSuccess | soundcloud-wrapper-tauri/src-tauri/src/library/mod.rs:811-842 | the Discogs writer applied to the success record and its one candidate |
| LibraryStore.LibraryStore.RecordDiscogsAmbiguity | soundcloud-wrapper-tauri/src-tauri/src/library/mod.rs:844-878 | the Discogs writer applied to the ambiguity record and the candidates that have ids |
| LibraryStore.LibraryStore.RecordDiscogsFailure | soundcloud-wrapper-tauri/src-tauri/src/library/mod.rs:880-897 | the Discogs writer applied to the failure record and no candidates |
| LibraryStore.LibraryStore.RecordMusicbrainzSuccess | soundcloud-wrapper-tauri/src-tauri/src/library/mod.rs:899-924 | always succeeds, with the MusicBrainz writer's tables for the success record |
| LibraryStore.LibraryStore.RecordMusicbrainzAmbiguity | soundcloud-wrapper-tauri/src-tauri/src/library/mod.rs:926-960 | always succeeds, since every candidate belongs to the track |
| LibraryStore.LibraryStore.RecordMusicbrainzFailure | soundcloud-wrapper-tauri/src-tauri/src/library/mod.rs:962-979 | always succeeds, with the failure record and no candidates |
| LibraryStore.LibraryStore.DeleteTrack | soundcloud-wrapper-tauri/src-tauri/src/library/mod.rs:1136-1141 | one `DELETE FROM tracks` removes one track together with everything that cascades from it |
| LibraryStore.LibraryStore.DeleteAll | soundcloud-wrapper-tauri/src-tauri/src/library/mod.rs:1136-1141 | the deletion loop over the stale ids removes exactly those tracks, with their cascades |
| LibraryStore.LibraryStore.ImportTrack | soundcloud-wrapper-tauri/src-tauri/src/library/mod.rs:1047-1133 | the four upserts of one imported track; its Rekordbox id is mapped to the id it was assigned |
| LibraryStore.LibraryStore.ImportAllTracks | soundcloud-wrapper-tauri/src-tauri/src/library/mod.rs:1026-1134 | the import loop, with `existing_map` and `stale_map` kept in step; the returned stale ids are the tracks of mappings that the import did not mention |
| LibraryStore.LibraryStore.SyncRekordboxTracks | soundcloud-wrapper-tauri/src-tauri/src/library/mod.rs:1023-1145 | importing everything and then deleting the stale tracks gives `LibrarySync.SyncRekordboxTracks`, and the foreign keys still hold |
| LibraryStore.LibraryStore.ListMissingAssets | soundcloud-wrapper-tauri/src-tauri/src/library/mod.rs:1147-1164 | returns exactly the tracks that have no asset or an unavailable one, in ascending id order without repeats |
| LibraryStore.LibraryStore.ListLibraryStatus | soundcloud-wrapper-tauri/src-tauri/src/library/mod.rs:1166-1290 | the filtered tracks, most recent first; the clamped window at the offset; fails exactly when a row of that window cannot be read; otherwise `total` is the filtered count as a `u32` |
| LibraryStore.LibraryStore.MigrateDiscogsTrack | soundcloud-wrapper-tauri/src-tauri/src/library/mod.rs:1300-1384 | one row of the Discogs migration: the match is rebuilt and written, then the payload is cleared |
| LibraryStore.LibraryStore.MigrateDiscogsPayloads | soundcloud-wrapper-tauri/src-tauri/src/library/mod.rs:1292-1389 | the loop visits exactly the tracks that have a legacy Discogs payload, in the order the rows come back |
| LibraryStore.LibraryStore.MigrateMusicbrainzTrack | soundcloud-wrapper-tauri/src-tauri/src/library/mod.rs:1400-1541 | one row of the MusicBrainz migration |
| LibraryStore.LibraryStore.MigrateMusicbrainzPayloads | soundcloud-wrapper-tauri/src-tauri/src/library/mod.rs:1391-1546 | the loop visits exactly the tracks that have a legacy MusicBrainz payload |
| LibraryStore.StaleMapSnoc | soundcloud-wrapper-tauri/src-tauri/src/library/mod.rs:1037-1045 | visiting one more track removes its Rekordbox id from `stale_map` |
| LibraryStore.MusicbrainzKeepsDiscogsPendingAll | soundcloud-wrapper-tauri/src-tauri/src/library/mod.rs:1391-1546 | the MusicBrainz migration loop leaves the set of pending Discogs payloads as it was |
| LibrarySync.MintedIdInjective | soundcloud-wrapper-tauri/src-tauri/src/library/mod.rs:1040-1043 | different Rekordbox ids never get the same minted `rekordbox:<id>` track id |
| LibrarySync.U64AsI64 | soundcloud-wrapper-tauri/src-tauri/src/library/mod.rs:1101 | `duration_ms as i64` wraps into the signed 64-bit range and keeps values up to `i64::MAX` |
| LibrarySync.ImportOneKeepsAssignment | soundcloud-wrapper-tauri/src-tauri/src/library/mod.rs:1039-1133 | importing one track changes no Rekordbox id's assignment, maps the track's id, and creates at most its assigned track |
| LibrarySync.ImportAllKeepsAssignment | soundcloud-wrapper-tauri/src-tauri/src/library/mod.rs:1039-1134 | the import loop changes no assignment and maps exactly the old ids plus the imported ones |
| LibrarySync.ImportAllAssigns | soundcloud-wrapper-tauri/src-tauri/src/library/mod.rs:1039-1134 | every imported id's assigned track, reused or minted, exists after the loop, and no track is lost |
| LibrarySync.ImportAllKeepsTracks | soundcloud-wrapper-tauri/src-tauri/src/library/mod.rs:1039-1134 | the import loop deletes no track |
| LibrarySync.ImportAllCreatesTrack | soundcloud-wrapper-tauri/src-tauri/src/library/mod.rs:1039-1134 | the k-th imported track's assigned id exists after the loop |
| LibrarySync.SyncAssignsIds | soundcloud-wrapper-tauri/src-tauri/src/library/mod.rs:1039-1045 | after a sync an imported id maps to its previously mapped track, or else to `rekordbox:<id>`, and that track exists, unless that track was itself stale |
| LibrarySync.ImportOneKeepsForeignKeys | soundcloud-wrapper-tauri/src-tauri/src/library/mod.rs:1047-1133 | the four upserts of one import keep every foreign key satisfied |
| LibrarySync.ImportAllKeepsForeignKeys | soundcloud-wrapper-tauri/src-tauri/src/library/mod.rs:1039-1134 | the whole import loop keeps every foreign key satisfied |
| LibrarySync.SyncDeletesStale | soundcloud-wrapper-tauri/src-tauri/src/library/mod.rs:1136-1141 | the track of every mapping the import did not mention is gone after a sync, with its sources, asset, matches, candidates and mappings; the foreign keys still hold |
| LibrarySync.SyncCanonical | soundcloud-wrapper-tauri/src-tauri/src/library/mod.rs:1023-1145 | for a store that only syncs ever wrote, a sync maps exactly the imported ids, each to its minted track, which exists |
| LibrarySync.ImportAllCanonical | soundcloud-wrapper-tauri/src-tauri/src/library/mod.rs:1039-1134 | for such a store the import loop maps every imported id to its minted track, which it creates |
| LibrarySync.CanonicalStale | soundcloud-wrapper-tauri/src-tauri/src/library/mod.rs:1037-1045 | for such a store the stale tracks are exactly those minted from ids that are no longer imported |
| LibrarySync.SyncRerunStable | soundcloud-wrapper-tauri/src-tauri/src/library/mod.rs:1023-1145 | for a store that only syncs ever wrote, re-running a sync with the same list deletes nothing and changes no id |
| LibrarySync.ImportAllTrackIds | soundcloud-wrapper-tauri/src-tauri/src/library/mod.rs:1039-1134 | the import loop creates only tracks that imported ids are assigned to |
| LibraryListing.ClampLimit | soundcloud-wrapper-tauri/src-tauri/src/library/mod.rs:1173-1175 | the limit is 1 to 500: an absent limit gives the default, 0 gives 1, too large gives 500, anything else passes |
| LibraryListing.LikedAt | soundcloud-wrapper-tauri/src-tauri/src/library/mod.rs:1236-1278 | `likedAt` is present exactly when the source payload has a non-null `likedAt` |
| LibraryListing.LikedAtColumn | soundcloud-wrapper-tauri/src-tauri/src/library/mod.rs:1236-1277 | reading `liked_at` as text gives nothing for a missing or null `likedAt`, the text of a string, the JSON text of an array or object, and fails exactly for a number or boolean |
| LibraryListing.FilteredIds | soundcloud-wrapper-tauri/src-tauri/src/library/mod.rs:1178-1197 | the `WHERE` clause keeps exactly the tracks meeting every condition that is switched on |
| LibraryListing.MissingAssetIds | soundcloud-wrapper-tauri/src-tauri/src/library/mod.rs:1147-1164 | the tracks with no asset, or with an unavailable one |
| LibraryListing.BeforeIrreflexive | soundcloud-wrapper-tauri/src-tauri/src/library/mod.rs:1240 | no track sorts before itself under either `ORDER BY` |
| LibraryListing.BeforeTransitive | soundcloud-wrapper-tauri/src-tauri/src/library/mod.rs:1240 | both orderings are transitive |
| LibraryListing.BeforeTotal | soundcloud-wrapper-tauri/src-tauri/src/library/mod.rs:1240 | distinct tracks are always ordered one way or the other, since the id breaks ties |
| LibraryListing.InsertSorted | soundcloud-wrapper-tauri/src-tauri/src/library/mod.rs:1240 | inserting a new track keeps an id list sorted |
| LibraryListing.SortIds | soundcloud-wrapper-tauri/src-tauri/src/library/mod.rs:1240 | sorting a set of tracks lists each exactly once, in order |
| LibraryListing.SortedUnique | soundcloud-wrapper-tauri/src-tauri/src/library/mod.rs:1240 | two sorted lists of the same tracks are equal, so the `ORDER BY` fixes the result |
| LibraryListing.StatusRowOf | soundcloud-wrapper-tauri/src-tauri/src/library/mod.rs:1212-1280 | the `CASE` columns: matched iff the Discogs match is a success with a release id; available iff the asset exists and is available; liked iff `likedAt` is set and not null; in Rekordbox iff a Rekordbox source exists; `likedAt` is the text read from the column |
| LibraryListing.ReadStatusRow | soundcloud-wrapper-tauri/src-tauri/src/library/mod.rs:1251-1279 | reading a row fails exactly when its `liked_at` cannot be read as text; otherwise the row shows a `likedAt` exactly when it is marked liked |
| LibraryListing.ReadRows | soundcloud-wrapper-tauri/src-tauri/src/library/mod.rs:1251-1280 | the row loop fails exactly when one of the rows cannot be read, and otherwise returns every row as read, in order |
| LibraryListing.Window | soundcloud-wrapper-tauri/src-tauri/src/library/mod.rs:1240-1249 | `LIMIT`/`OFFSET` gives the `limit` consecutive items starting at the offset, the whole remainder on a partial last page, and nothing past the end |
| LibraryListing.ListMissingAssets | soundcloud-wrapper-tauri/src-tauri/src/library/mod.rs:1147-1164 | exactly the tracks with no usable asset, by ascending id |
| LibraryListing.ListLibraryStatus | soundcloud-wrapper-tauri/src-tauri/src/library/mod.rs:1166-1290 | the filtered tracks, most recent first, windowed by the clamped limit at the offset; the call fails exactly when some row of the window cannot be read; otherwise at most `limit` rows, each the row read for its track, and `total` is the filtered count as a `u32` |
| LibraryListing.UnfilteredCountsEveryTrack | soundcloud-wrapper-tauri/src-tauri/src/library/mod.rs:1193-1210 | with no condition switched on, every track is counted |
| LibraryListing.MoreConditionsFewerTracks | soundcloud-wrapper-tauri/src-tauri/src/library/mod.rs:1178-1197 | switching another condition on never lets more tracks through |
| LibraryListing.UnresolvedIffNotMatched | soundcloud-wrapper-tauri/src-tauri/src/library/mod.rs:1182-1217 | the unresolved-Discogs filter keeps exactly the rows not shown as matched |
| LibraryListing.NumericLikedAtFailsRead | soundcloud-wrapper-tauri/src-tauri/src/library/mod.rs:1176-1277 | a track whose `likedAt` is a number is kept by the liked filter and counted, yet its row cannot be read |
| LibraryListing.WindowsAdjacent | soundcloud-wrapper-tauri/src-tauri/src/library/mod.rs:1240-1249 | two consecutive pages together are one page of twice the size |
| LibraryMigrations.PendingDiscogs | soundcloud-wrapper-tauri/src-tauri/src/library/mod.rs:1294-1300 | the tracks the Discogs migration selects are those with a legacy payload |
| LibraryMigrations.DiscogsLegacyShape | soundcloud-wrapper-tauri/src-tauri/src/library/mod.rs:1300-1378 | a rebuilt Discogs match keeps a confidence and release id only on success, gets no candidate on failure, reads a missing status as error, and files every candidate under the track |
| LibraryMigrations.MigrateDiscogsOneEffect | soundcloud-wrapper-tauri/src-tauri/src/library/mod.rs:1300-1384 | one iteration writes the rebuilt match and candidates of its own track, clears its payload, and touches no other track and no MusicBrainz table |
| LibraryMigrations.MigrateDiscogsOnePending | soundcloud-wrapper-tauri/src-tauri/src/library/mod.rs:1300-1384 | each iteration removes its own track, and only that one, from the pending set |
| LibraryMigrations.MigrateDiscogsPending | soundcloud-wrapper-tauri/src-tauri/src/library/mod.rs:1292-1389 | after the loop the pending payloads are exactly those of the tracks it did not visit |
| LibraryMigrations.MigrateDiscogsNothingPending | soundcloud-wrapper-tauri/src-tauri/src/library/mod.rs:1292-1389 | with no legacy payload the migration changes nothing |
| LibraryMigrations.DiscogsMigrationIdempotent | soundcloud-wrapper-tauri/src-tauri/src/library/mod.rs:1292-1389 | after one run over the selected rows nothing is pending and a second run changes nothing |
| LibraryMigrations.MigrateDiscogsRecords | soundcloud-wrapper-tauri/src-tauri/src/library/mod.rs:1292-1389 | every migrated track ends up with the match and candidates rebuilt from its own payload |
| LibraryMigrations.MigrateDiscogsUntouched | soundcloud-wrapper-tauri/src-tauri/src/library/mod.rs:1292-1389 | a track the loop did not visit keeps its row |
| LibraryMigrations.PendingMusicbrainz | soundcloud-wrapper-tauri/src-tauri/src/library/mod.rs:1393-1400 | the tracks the MusicBrainz migration selects are those with a legacy payload |
| LibraryMigrations.MusicbrainzLegacyShape | soundcloud-wrapper-tauri/src-tauri/src/library/mod.rs:1400-1480 | a rebuilt MusicBrainz row keeps its confidence only on success, and a success's candidate is scored by it; only success and ambiguity have candidates, one per listed candidate; a missing status reads as "error"; a string `release_id` survives for every status |
| LibraryMigrations.StoreMusicbrainzLegacyKeeps | soundcloud-wrapper-tauri/src-tauri/src/library/mod.rs:1481-1541 | storing a rebuilt match clears only its own MusicBrainz payload, keeps every Discogs payload, and keeps the foreign keys |
| LibraryMigrations.MigrateMusicbrainzOnePending | soundcloud-wrapper-tauri/src-tauri/src/library/mod.rs:1400-1541 | each iteration removes exactly its own track from the pending set |
| LibraryMigrations.MigrateMusicbrainzOneEffect | soundcloud-wrapper-tauri/src-tauri/src/library/mod.rs:1400-1541 | one iteration writes its own track's rebuilt match row, release id, confidence and candidates, clears its payload, and leaves every other track, match and candidate group alone |
| LibraryMigrations.MigrateMusicbrainzUntouched | soundcloud-wrapper-tauri/src-tauri/src/library/mod.rs:1391-1546 | a track the loop did not visit keeps its row |
| LibraryMigrations.MigrateMusicbrainzRecords | soundcloud-wrapper-tauri/src-tauri/src/library/mod.rs:1391-1546 | every migrated track ends up with the match row, track columns and candidates rebuilt from its own payload |
| LibraryMigrations.MigrateMusicbrainzPending | soundcloud-wrapper-tauri/src-tauri/src/library/mod.rs:1391-1546 | after the loop the pending payloads are exactly those of the tracks it did not visit |
| LibraryMigrations.MigrateMusicbrainzNothingPending | soundcloud-wrapper-tauri/src-tauri/src/library/mod.rs:1391-1546 | with no legacy payload the migration changes nothing |
| LibraryMigrations.MusicbrainzMigrationIdempotent | soundcloud-wrapper-tauri/src-tauri/src/library/mod.rs:1391-1546 | after one run over the selected rows nothing is pending and a second run changes nothing |
| LibraryMigrations.MusicbrainzKeepsDiscogsPending | soundcloud-wrapper-tauri/src-tauri/src/library/mod.rs:1400-1541 | a MusicBrainz iteration leaves the pending Discogs payloads alone |
| LibraryMigrations.DiscogsKeepsMusicbrainzPending | soundcloud-wrapper-tauri/src-tauri/src/library/mod.rs:1300-1384 | a Discogs iteration leaves the pending MusicBrainz payloads alone |
| LibraryMigrations.MigrateDiscogsKeepsForeignKeys | soundcloud-wrapper-tauri/src-tauri/src/library/mod.rs:1300-1384 | a Discogs migration step keeps every foreign key satisfied |
| LibraryMigrations.MigrateMusicbrainzKeepsForeignKeys | soundcloud-wrapper-tauri/src-tauri/src/library/mod.rs:1400-1541 | a MusicBrainz migration step keeps every foreign key satisfied |
| MusicBrainz.NormalizeTerm | soundcloud-wrapper-tauri/src-tauri/src/musicbrainz.rs:361-368 | no term exactly when the value is blank; otherwise a non-empty term that unescapes to the trimmed value |
| MusicBrainz.AlbumTagIndex | soundcloud-wrapper-tauri/src-tauri/src/musicbrainz.rs:348-356 | `find` returns the first tag whose lower-cased text contains `album:`, and none only when no tag does |
| MusicBrainz.Field | soundcloud-wrapper-tauri/src-tauri/src/musicbrainz.rs:340-356 | a query component starts with its field name |
| MusicBrainz.ComponentsQuery | soundcloud-wrapper-tauri/src-tauri/src/musicbrainz.rs:337-359 | the joined query is empty, and also blank, exactly when no term was found |
| MusicBrainz.BuildSearchQuery | soundcloud-wrapper-tauri/src-tauri/src/musicbrainz.rs:337-359 | the pushes give the components joined by " AND ", empty exactly when the artist, the title and the album tag give no term |
| MusicBrainz.PushComponent | soundcloud-wrapper-tauri/src-tauri/src/musicbrainz.rs:339-356 | a found term appends one component and a missing one appends nothing |
| MusicBrainz.BlankQueryIffNoTerms | soundcloud-wrapper-tauri/src-tauri/src/musicbrainz.rs:133-142 | the blank guard of `process_job` fires exactly when the payload has no usable artist, title or album tag |
| MusicBrainz.Scored | soundcloud-wrapper-tauri/src-tauri/src/musicbrainz.rs:285-293 | one `(score, release)` pair per release, in response order, with a missing score as 0 |
| MusicBrainz.Interpretation | soundcloud-wrapper-tauri/src-tauri/src/musicbrainz.rs:279-335 | `interpret_lookup` fails exactly when `releases` is missing, not an array, or empty |
| MusicBrainz.InterpretationErrors | soundcloud-wrapper-tauri/src-tauri/src/musicbrainz.rs:280-299 | each of the two failures has its own message |
| MusicBrainz.InterpretLookup | soundcloud-wrapper-tauri/src-tauri/src/musicbrainz.rs:279-335 | the pushes, the sort and the truncation compute `Interpretation` |
| MusicBrainz.MaxScore | soundcloud-wrapper-tauri/src-tauri/src/musicbrainz.rs:301 | the highest release score, which one of the releases has |
| MusicBrainz.RankedPairs | soundcloud-wrapper-tauri/src-tauri/src/musicbrainz.rs:285-301 | the ranked pairs are a permutation of the scored ones, sorted by score, each a release of the response with its own score |
| MusicBrainz.RankedFirstIsBest | soundcloud-wrapper-tauri/src-tauri/src/musicbrainz.rs:301-311 | the first ranked release carries the highest score |
| MusicBrainz.InterpretationDecides | soundcloud-wrapper-tauri/src-tauri/src/musicbrainz.rs:303-328 | accepted exactly when there is one release, or the best score (0 or less counting as 100) is at least 95, or it is at least 85 and 10 ahead of the runner-up; the accepted release has the highest score and that score is the confidence |
| MusicBrainz.UnscoredReleasesSucceed | soundcloud-wrapper-tauri/src-tauri/src/musicbrainz.rs:309-311 | several releases none of which has a positive score are still accepted, with confidence 100 |
| MusicBrainz.RankedPrefix | soundcloud-wrapper-tauri/src-tauri/src/musicbrainz.rs:329-333 | any prefix of the ranked releases comes from the response and is ordered by score |
| MusicBrainz.InterpretationAmbiguous | soundcloud-wrapper-tauri/src-tauri/src/musicbrainz.rs:329-333 | an ambiguous answer has at least two releases, a best score under 95, and lists the first five ranked releases, best first |
| MusicBrainz.Verdict | soundcloud-wrapper-tauri/src-tauri/src/musicbrainz.rs:239-274 | a response asks for another attempt exactly when it is 429 or 503 and attempts remain |
| MusicBrainz.LookupFrom | soundcloud-wrapper-tauri/src-tauri/src/musicbrainz.rs:220-277 | the retry loop ends after one to three requests |
| MusicBrainz.LookupRetriesOnlyRateLimits | soundcloud-wrapper-tauri/src-tauri/src/musicbrainz.rs:220-277 | every request but the last was answered 429 or 503, and the last response decides the outcome |
| MusicBrainz.AllRateLimited | soundcloud-wrapper-tauri/src-tauri/src/musicbrainz.rs:245-259 | three rate-limited answers in a row end the lookup after exactly three requests with "rate limited by MusicBrainz" |
| MusicBrainz.TerminalStatus | soundcloud-wrapper-tauri/src-tauri/src/musicbrainz.rs:260-274 | any first status other than 200, 429 and 503 ends the lookup after one request: 401 and 403 as unauthorized, 404 as no releases found, the rest with the status text |
| MusicBrainz.PerformLookup | soundcloud-wrapper-tauri/src-tauri/src/musicbrainz.rs:214-277 | the loop's outcome and request count are `LookupFrom`'s, and the limiter was waited on at the time of each request made |
| MusicBrainz.ReadResponse | soundcloud-wrapper-tauri/src-tauri/src/musicbrainz.rs:233-274 | the status `match` of one attempt computes `Verdict` |
| MusicBrainz.BlankPayloadMakesNoRequest | soundcloud-wrapper-tauri/src-tauri/src/musicbrainz.rs:133-142 | no request is made exactly when the query is blank, and that is recorded as "missing title or artist" |
| MusicBrainz.HandleJob | soundcloud-wrapper-tauri/src-tauri/src/musicbrainz.rs:39-193 | a job with an empty track id changes nothing; otherwise the outcome is recorded, the limiter advances once per request, and only an ambiguity emits the event |
| MusicBrainz.RecordOutcome | soundcloud-wrapper-tauri/src-tauri/src/musicbrainz.rs:144-190 | each outcome goes to its record wrapper, which the store never refuses |
| Discogs.BuildSearchTerm | soundcloud-wrapper-tauri/src-tauri/src/discogs.rs:190-203 | the pushes compute the trimmed artist and title joined by a space |
| Discogs.SearchTermTrimmed | soundcloud-wrapper-tauri/src-tauri/src/discogs.rs:97-106 | the term is already trimmed, so the blank guard fires exactly when neither artist nor title has text; each present term appears unchanged |
| Discogs.SearchTermOfBoth | soundcloud-wrapper-tauri/src-tauri/src/discogs.rs:190-203 | with both present the term is artist, space, title, trimmed and not empty |
| Discogs.SearchParamsCarry | soundcloud-wrapper-tauri/src-tauri/src/discogs.rs:211-224 | the search asks for five releases; artist and title go untrimmed when present, and `q` only when the query is not empty |
| Discogs.Releases | soundcloud-wrapper-tauri/src-tauri/src/discogs.rs:246-257 | only release hits with a resource URL are kept |
| Discogs.Candidates | soundcloud-wrapper-tauri/src-tauri/src/discogs.rs:304-320 | one candidate object per result, in order |
| Discogs.PlanOutcome | soundcloud-wrapper-tauri/src-tauri/src/discogs.rs:274-301 | a lookup makes one or two requests |
| Discogs.SearchPlanErrors | soundcloud-wrapper-tauri/src-tauri/src/discogs.rs:226-244 | transport and parse errors pass on their text; a non-2xx status fails with "search returned status"; a parsed body goes to the decision |
| Discogs.RankedTopIsBest | soundcloud-wrapper-tauri/src-tauri/src/discogs.rs:259-272 | the best-ranked result is a kept release of the response whose score no other kept release beats |
| Discogs.RankedHaveUrls | soundcloud-wrapper-tauri/src-tauri/src/discogs.rs:275-286 | every kept result has its resource URL, so the release URL never falls back to the id |
| Discogs.ResultsPlanDecides | soundcloud-wrapper-tauri/src-tauri/src/discogs.rs:246-301 | with no kept release the lookup fails; otherwise it is ambiguous exactly when not confident, and it fetches the best release's URL otherwise (unless that URL is empty), with its score, or 0, as confidence |
| Discogs.OfferedCandidates | soundcloud-wrapper-tauri/src-tauri/src/discogs.rs:304-320 | an ambiguous answer has at least two kept releases and offers the first five ranked ones, best first |
| Discogs.NoHighScoreShortcut | soundcloud-wrapper-tauri/src-tauri/src/discogs.rs:274 | unlike MusicBrainz, a best score of 96 that leads by only 6 is not accepted |
| Discogs.LoneReleaseAccepted | soundcloud-wrapper-tauri/src-tauri/src/discogs.rs:274 | a lone release is accepted whatever its score, and with confidence 0 when it has none |
| Discogs.OutcomeRequests | soundcloud-wrapper-tauri/src-tauri/src/discogs.rs:288-301 | the release is requested exactly after a confident choice; otherwise its answer does not matter; a success carries the release fetched |
| Discogs.CandidateReleaseId | soundcloud-wrapper-tauri/src-tauri/src/discogs.rs:304-320 | the store reads a candidate's id as the decimal text of the result's id and its score as the result's score |
| Discogs.PerformLookup | soundcloud-wrapper-tauri/src-tauri/src/discogs.rs:205-321 | the parameters, the URL fetched (only after a confident choice), the outcome, and one limiter wait per request |
| Discogs.FollowPlan | soundcloud-wrapper-tauri/src-tauri/src/discogs.rs:274-301 | after the decision, only a release to fetch waits for the limiter a second time |
| Discogs.BuildSearchParams | soundcloud-wrapper-tauri/src-tauri/src/discogs.rs:211-224 | the pushes compute `SearchParams` |
| Discogs.ReadSearch | soundcloud-wrapper-tauri/src-tauri/src/discogs.rs:226-274 | the response checks, then the choice, compute `SearchPlan` |
| Discogs.ChooseRelease | soundcloud-wrapper-tauri/src-tauri/src/discogs.rs:246-286 | the filter, the in-place sort and the threshold compute `ResultsPlan` |
| Discogs.BlankPayloadMakesNoRequest | soundcloud-wrapper-tauri/src-tauri/src/discogs.rs:97-106 | no request is made exactly when artist and title are both blank, and that is recorded as "missing title or artist" |
| Discogs.HandleJob | soundcloud-wrapper-tauri/src-tauri/src/discogs.rs:33-151 | a job with an empty track id changes nothing; otherwise the outcome is written through the Discogs writer, the limiter advances once per request, and only an ambiguity emits the event |
| Discogs.RecordOutcome | soundcloud-wrapper-tauri/src-tauri/src/discogs.rs:108-150 | each outcome goes through its record wrapper into the Discogs writer |
| RateLimit.SleepFor | soundcloud-wrapper-tauri/src-tauri/src/discogs.rs:76-84 | the first wait does not sleep; later ones sleep until `interval` after the last return, and never longer than `interval` |
| RateLimit.LastAfter | soundcloud-wrapper-tauri/src-tauri/src/discogs.rs:76-84 | after some waits, `last` is no earlier than the last call |
| RateLimit.ResumesSpaced | soundcloud-wrapper-tauri/src-tauri/src/discogs.rs:76-84 | calls made one after another come back at least `interval` apart, and a fresh limiter's first call returns at once |
| RateLimit.RateLimiter.constructor | soundcloud-wrapper-tauri/src-tauri/src/discogs.rs:69-74 | a new limiter has its interval and no last time |
| RateLimit.RateLimiter.Wait | soundcloud-wrapper-tauri/src-tauri/src/musicbrainz.rs:111-119 | `wait` returns after the sleep `SleepFor` gives and records that time as `last` |
| Sorting.SortDescPermutes | soundcloud-wrapper-tauri/src-tauri/src/discogs.rs:259-263 | the score sort is a permutation of its input |
| Sorting.SortDescSorted | soundcloud-wrapper-tauri/src-tauri/src/discogs.rs:259-263 | the score sort orders its output highest first |
| Sorting.SortDescStable | soundcloud-wrapper-tauri/src-tauri/src/musicbrainz.rs:301 | the sort is stable: items with equal scores keep their input order |
| Sorting.SortDescHead | soundcloud-wrapper-tauri/src-tauri/src/musicbrainz.rs:301 | the first sorted item comes from the input, and no input item precedes it |
| Rekordbox.SplitSlash | soundcloud-wrapper-tauri/src-tauri/src/rekordbox.rs:107-116 | splitting at `/` gives at least one part, and no part contains `/` |
| Rekordbox.FileName | soundcloud-wrapper-tauri/src-tauri/src/rekordbox.rs:107-116 | a file name is a non-empty component that is neither `.` nor `..` and has no `/` |
| Rekordbox.LastDot | soundcloud-wrapper-tauri/src-tauri/src/rekordbox.rs:107-116 | the index of the last `.`, or none when there is no dot |
| Rekordbox.Extension | soundcloud-wrapper-tauri/src-tauri/src/rekordbox.rs:107-116 | an extension belongs to a file name and contains no dot |
| Rekordbox.LoadFormat | soundcloud-wrapper-tauri/src-tauri/src/rekordbox.rs:107-116 | the XML parser is used exactly when the extension is `xml` in any ASCII case |
| Rekordbox.AutoRefreshIffMasterDatabase | soundcloud-wrapper-tauri/src-tauri/src/rekordbox.rs:118-123 | auto-refresh is offered exactly for the files read by the master-database parser |
| Rekordbox.NoExtensionIsMasterDatabase | soundcloud-wrapper-tauri/src-tauri/src/rekordbox.rs:107-123 | a path without an extension goes to the master-database parser and can be watched |
| Rekordbox.DotFileIsNotXml | soundcloud-wrapper-tauri/src-tauri/src/rekordbox.rs:107-123 | a dot-file such as `.xml` has no extension, so it is read as a master database |
| Rekordbox.ResolveLocation | soundcloud-wrapper-tauri/src-tauri/src/rekordbox.rs:324-345 | a non-empty file path wins; otherwise a location exists exactly when both folder and file name do |
| Rekordbox.WithoutTrailingSlash | soundcloud-wrapper-tauri/src-tauri/src/rekordbox.rs:335-341 | the folder, with at most one trailing `/` removed |
| Rekordbox.ResolveLocationJoins | soundcloud-wrapper-tauri/src-tauri/src/rekordbox.rs:324-345 | folder and name are joined by exactly one `/` |
| Rekordbox.DecodeLocation | soundcloud-wrapper-tauri/src-tauri/src/rekordbox.rs:347-357 | anything that is not a `file://` URL, or cannot be parsed as one, is kept as the path; a parsed `file://` URL gives its file path |
| Rekordbox.MissingFile | soundcloud-wrapper-tauri/src-tauri/src/rekordbox.rs:366-372 | a missing file has no checksum, no duration and is not available |
| Rekordbox.MetadataFor | soundcloud-wrapper-tauri/src-tauri/src/rekordbox.rs:169-182 | without a path, or when probing fails, the metadata is `missing`; otherwise it is the probe's |
| Rekordbox.CueOfRow | soundcloud-wrapper-tauri/src-tauri/src/rekordbox.rs:131-148 | a hot-cue row keeps its fields, with a missing InMsec as 0 |
| Rekordbox.TrackOfSong | soundcloud-wrapper-tauri/src-tauri/src/rekordbox.rs:157-197 | a song row's id becomes decimal text; its reference, title, artist and album are kept; the location is resolved; the normalised path is the decoded location (none without a location); checksum, duration and availability come from probing that path, or are those of a missing file; it gets the cues handed to it |
| Rekordbox.GroupCues | soundcloud-wrapper-tauri/src-tauri/src/rekordbox.rs:131-148 | the cue loop fills the map with exactly the SongIDs that have cues, each with its rows' cues in row order |
| Rekordbox.ParseMasterDb | soundcloud-wrapper-tauri/src-tauri/src/rekordbox.rs:125-200 | one track per song row, in order, each with the cues `cue_map.remove` leaves it |
| Rekordbox.TakeCues | soundcloud-wrapper-tauri/src-tauri/src/rekordbox.rs:195 | `remove(..).unwrap_or_default()` gives the group, or nothing |
| Rekordbox.CueRowsAttachedOnce | soundcloud-wrapper-tauri/src-tauri/src/rekordbox.rs:195 | a later song with a repeated ID gets no cues |
| Rekordbox.CuesOfSongExact | soundcloud-wrapper-tauri/src-tauri/src/rekordbox.rs:131-148 | a song's cues are exactly its hot-cue rows, in order, converted |
| Rekordbox.TruncateToI64 | soundcloud-wrapper-tauri/src-tauri/src/rekordbox.rs:298-301 | `as i64` stays in the signed 64-bit range and truncates non-negative values |
| Rekordbox.CueOfMark | soundcloud-wrapper-tauri/src-tauri/src/rekordbox.rs:291-304 | a position mark keeps its fields, with a missing number or start as 0 |
| Rekordbox.CuesOfMarks | soundcloud-wrapper-tauri/src-tauri/src/rekordbox.rs:291-304 | one cue per position mark, in order |
| Rekordbox.XmlEntryId | soundcloud-wrapper-tauri/src-tauri/src/rekordbox.rs:258-271 | the RekordboxID, else the TrackID |
| Rekordbox.TrackOfEntry | soundcloud-wrapper-tauri/src-tauri/src/rekordbox.rs:273-318 | an XML entry keeps its id, reference, title, artist, album and location; the normalised path is the decoded location; checksum, duration and availability come from probing it, or are those of a missing file; its cues are its position marks converted one by one, in order |
| Rekordbox.ParseXmlExport | soundcloud-wrapper-tauri/src-tauri/src/rekordbox.rs:246-322 | no collection gives no tracks; otherwise the loop computes `XmlTracks` |
| Rekordbox.XmlTracksCount | soundcloud-wrapper-tauri/src-tauri/src/rekordbox.rs:255-320 | exactly the entries that have an identifier give a track, in document order |
| App.ConfirmConfidenceDefaults | soundcloud-wrapper-tauri/src-tauri/src/lib.rs:293-301 | the given confidence wins; else any numeric `score` of the release, integer or float, is the confidence; else (no score, or a score that is not a number) 100 |
| App.ConfirmMusicbrainzMatch | soundcloud-wrapper-tauri/src-tauri/src/lib.rs:286-310 | records the release as a MusicBrainz success with that confidence, the query defaulting to "", and never fails |
| App.ImportRekordboxLibrary | soundcloud-wrapper-tauri/src-tauri/src/lib.rs:507-540 | a failed load changes nothing; a loaded library is synced, then a master database is watched and an XML export stops any watcher |
| App.ExternalTargetAllowed | soundcloud-wrapper-tauri/src-tauri/src/lib.rs:240-263 | only credential-free https URLs and http URLs on localhost are opened, exactly as written; other schemes are refused, naming the scheme |
| App.OpenExternalOutcome | soundcloud-wrapper-tauri/src-tauri/src/lib.rs:240-263 | succeeds exactly when the URL parses, is allowed and the shell reports no error; a refused URL gives the rule's message |
| App.OpenableIsNavigable | soundcloud-wrapper-tauri/src-tauri/src/lib.rs:597-602 | whatever `open_external` opens the window may navigate to, but not the reverse, because of credentials and tauri URLs |
| App.NavigationRules | soundcloud-wrapper-tauri/src-tauri/src/lib.rs:597-602 | of the `about:` URLs only `about:blank` passes; http passes exactly on localhost; unknown schemes never pass |
| RekordboxWatch.PathComponents | soundcloud-wrapper-tauri/src-tauri/src/lib.rs:149 | the components `PathBuf` equality compares: the root first for an absolute path, the current directory first for a relative path that starts with `.` |
| RekordboxWatch.RepeatedSlashSamePath | soundcloud-wrapper-tauri/src-tauri/src/lib.rs:149 | a doubled `/` anywhere gives an equal path |
| RekordboxWatch.InnerCurDirSamePath | soundcloud-wrapper-tauri/src-tauri/src/lib.rs:149 | a `.` between separators gives an equal path |
| RekordboxWatch.TrailingSlashSamePath | soundcloud-wrapper-tauri/src-tauri/src/lib.rs:149 | a trailing `/` on a non-empty path gives an equal path |
| RekordboxWatch.RootAndCurDirDiffer | soundcloud-wrapper-tauri/src-tauri/src/lib.rs:149 | an absolute path, a `./` path and a bare relative path are all different |
| RekordboxWatch.ConfiguredWatches | soundcloud-wrapper-tauri/src-tauri/src/lib.rs:146-154 | after `configure` a path equal to the given one is watched; a task is started exactly when no watcher was on an equal path; configuring again changes nothing |
| RekordboxWatch.ComponentEqualPathKeepsWatcher | soundcloud-wrapper-tauri/src-tauri/src/lib.rs:147-151 | `configure` with the watched path spelt with a doubled `/`, an inner `.` or a trailing `/` keeps the running task |
| RekordboxWatch.RekordboxState.constructor | soundcloud-wrapper-tauri/src-tauri/src/lib.rs:63-66 | the state starts with no watcher |
| RekordboxWatch.RekordboxState.Configure | soundcloud-wrapper-tauri/src-tauri/src/lib.rs:147-154 | the new watcher is `Configured` of the old one, paths being compared by components |
| RekordboxWatch.RekordboxState.Disable | soundcloud-wrapper-tauri/src-tauri/src/lib.rs:156-158 | no watcher remains and no task is started |
| RekordboxWatch.Watch | soundcloud-wrapper-tauri/src-tauri/src/lib.rs:161-224 | the polling loop computes the last modification time and the polls that reload |
| RekordboxWatch.LastModifiedIsLatest | soundcloud-wrapper-tauri/src-tauri/src/lib.rs:188-196 | `last_modified` only moves forward and is the latest time seen |
| RekordboxWatch.ReloadsAreReadings | soundcloud-wrapper-tauri/src-tauri/src/lib.rs:161-224 | each reload is a poll that read a time |
| RekordboxWatch.LastReloadIsLastModified | soundcloud-wrapper-tauri/src-tauri/src/lib.rs:188-196 | the last reload read the time `last_modified` holds |
| RekordboxWatch.ReloadsAdvance | soundcloud-wrapper-tauri/src-tauri/src/lib.rs:188-196 | each reload reads a time strictly later than the previous reload's |
| LookupPayload.ExtractLookupTags | soundcloud-wrapper-tauri/src-tauri/src/lib.rs:391-410 | the loop computes `LookupTags` |
| LookupPayload.LookupTagsMembers | soundcloud-wrapper-tauri/src-tauri/src/lib.rs:391-410 | the tags are the tag-list tokens, in order, followed by the non-blank trimmed genre, which is never added twice |
| LookupPayload.LookupTagsOfJoined | soundcloud-wrapper-tauri/src-tauri/src/lib.rs:391-410 | a tag list written as space-separated tokens reads back as those tokens |
| LookupPayload.FirstWhere | soundcloud-wrapper-tauri/src-tauri/src/lib.rs:412-422 | the position of the first element that qualifies, and none only when none does |
| LookupPayload.ExtractFirstString | soundcloud-wrapper-tauri/src-tauri/src/lib.rs:412-422 | the loop with its early return computes `FirstString` |
| LookupPayload.FirstStringAt | soundcloud-wrapper-tauri/src-tauri/src/lib.rs:412-422 | the trimmed string of the first key holding a non-blank string |
| LookupPayload.FirstStringNone | soundcloud-wrapper-tauri/src-tauri/src/lib.rs:412-422 | no string when no key qualifies |
| LookupPayload.LookupPayloadDefaults | soundcloud-wrapper-tauri/src-tauri/src/lib.rs:343-389 | the record's own fields pass; a missing SoundCloud id falls back to the track id; with no raw payload the payload is `null` and nothing is derived from it |
| LookupPayload.DurationFallsThrough | soundcloud-wrapper-tauri/src-tauri/src/lib.rs:355-362 | a `duration` that is not an integer gives way to `full_duration` |
| LookupPayload.PositionDoesNotFallThrough | soundcloud-wrapper-tauri/src-tauri/src/lib.rs:366-369 | a non-integer `playlist_position` hides `playlistPosition` |
| Media.FirstSrc | soundcloud-wrapper-tauri/src-tauri/src/media.rs:22-36 | `find_map` finds no source exactly when no entry has one, and otherwise finds some entry's source |
| Media.FirstSrcIsFirst | soundcloud-wrapper-tauri/src-tauri/src/media.rs:22-36 | the source found is that of the first entry that has one |
| Media.IntoMetadataArtwork | soundcloud-wrapper-tauri/src-tauri/src/media.rs:22-36 | title, artist and album are copied; `artwork_url` wins; otherwise the first artwork entry with a `src` gives the URL |
| Media.PlaybackFromStrExact | soundcloud-wrapper-tauri/src-tauri/src/media.rs:107-116 | exactly the three lower-case names give a status, each its own |
| Media.FromPayloadCases | soundcloud-wrapper-tauri/src-tauri/src/media.rs:83-96 | no update exactly when the payload has neither state nor metadata; a missing or unknown state means Paused; metadata is normalised |
| Media.AppliedIdempotent | soundcloud-wrapper-tauri/src-tauri/src/media.rs:125-130 | delivering the same update twice is delivering it once |
| Media.AppliedAllLatest | soundcloud-wrapper-tauri/src-tauri/src/media.rs:125-130 | after several updates the cache plays what the last said and shows the metadata of the last one that had any |
| Media.MediaCache.constructor | soundcloud-wrapper-tauri/src-tauri/src/media.rs:118-122 | a fresh cache is paused with no metadata |
| Media.MediaCache.Update | soundcloud-wrapper-tauri/src-tauri/src/media.rs:125-130 | playback always follows the update; metadata follows only when the update carries some |
| Media.PlaybackOnlyKeepsMetadata | soundcloud-wrapper-tauri/src-tauri/src/media.rs:83-130 | a payload with only a state changes the playback and keeps the metadata shown |
| Mpris.KeysDistinct | soundcloud-wrapper-tauri/src-tauri/vendor/mpris-player/src/metadata.rs:27-80 | the eleven keys are distinct |
| Mpris.ToHashmap | soundcloud-wrapper-tauri/src-tauri/vendor/mpris-player/src/metadata.rs:24-83 | the guarded inserts compute `MetadataMap` |
| Mpris.InsertedHolds | soundcloud-wrapper-tauri/src-tauri/vendor/mpris-player/src/metadata.rs:24-83 | with distinct keys, the inserts hold exactly the keys that have a value, each with its value, nothing else, one entry per present value |
| Mpris.KeyAt | soundcloud-wrapper-tauri/src-tauri/vendor/mpris-player/src/metadata.rs:27-80 | the i-th key maps to the i-th field's value when that field is set |
| Mpris.MetadataMapKeys | soundcloud-wrapper-tauri/src-tauri/vendor/mpris-player/src/metadata.rs:27-80 | each of the eleven keys is present exactly when its field is set |
| Mpris.MetadataMapOnlyKeys | soundcloud-wrapper-tauri/src-tauri/vendor/mpris-player/src/metadata.rs:24-83 | no other key ever goes into the map |
| Mpris.MetadataMapValues | soundcloud-wrapper-tauri/src-tauri/vendor/mpris-player/src/metadata.rs:27-80 | each set field's value is stored under its key; the length goes as its decimal text |
| Mpris.MetadataMapSize | soundcloud-wrapper-tauri/src-tauri/vendor/mpris-player/src/metadata.rs:24-83 | the map has one entry per set field |
| Mpris.NewMapIsEmpty | soundcloud-wrapper-tauri/src-tauri/vendor/mpris-player/src/metadata.rs:19-22 | `Metadata::new()` serialises to the empty map |
| Text.Trim | soundcloud-wrapper-tauri/src-tauri/src/musicbrainz.rs:361-368 | `trim` gives an infix of its input with no whitespace at either end, empty exactly when the input is all whitespace |
| Text.TrimTwice | soundcloud-wrapper-tauri/src-tauri/src/discogs.rs:190-203 | trimming twice is trimming once |
| Text.TrimOfTrimmed | soundcloud-wrapper-tauri/src-tauri/src/discogs.rs:190-203 | a string with no whitespace at either end is its own trim |
| Text.EscapeQuotesRoundTrip | soundcloud-wrapper-tauri/src-tauri/src/musicbrainz.rs:361-368 | escaping the double quotes loses no information |
| Text.NatToStringRoundTrip | soundcloud-wrapper-tauri/src-tauri/src/library/mod.rs:1565-1579 | an integer's decimal text is digits, without a leading zero, and reads back as the integer |
| Text.AsciiLowerStr | soundcloud-wrapper-tauri/src-tauri/src/musicbrainz.rs:348-356 | each character is lower-cased on its own |
| Text.Words | soundcloud-wrapper-tauri/src-tauri/src/lib.rs:391-410 | `split_whitespace` gives non-empty tokens without whitespace |
| Text.WordsOfJoin | soundcloud-wrapper-tauri/src-tauri/src/lib.rs:391-410 | splitting a single-space join of tokens gives back the tokens |
| Text.LexLessIrreflexive | soundcloud-wrapper-tauri/src-tauri/src/library/mod.rs:1147-1164 | no text sorts before itself under SQLite's binary collation |
| Text.LexLessTransitive | soundcloud-wrapper-tauri/src-tauri/src/library/mod.rs:1147-1164 | the binary collation is transitive |
| Text.LexLessTotal | soundcloud-wrapper-tauri/src-tauri/src/library/mod.rs:1147-1164 | distinct texts are ordered one way or the other |

## Left out

- SQL text, `PRAGMA`, the swallowed `ALTER TABLE` duplicate-column errors and `datetime('now')`: tables are maps, and every timestamp is a natural number supplied by the caller.
- Connection and I/O errors of SQLite, text columns that do not parse as JSON and the `LibraryError` plumbing: every statement is taken to succeed, except the foreign-key failure of the MusicBrainz candidate insert and the column-type failure of reading `liked_at`, which are modelled.
- LibraryStore.LibraryStore.MigrateDiscogsPayloads: a stored `discogs_payload` is a JSON value rather than text, so the failed `serde_json::from_str` of a malformed payload and the rollback of the whole migration it causes are not modelled; the migration always completes.
- LibraryStore.LibraryStore.MigrateMusicbrainzPayloads: likewise for a malformed `musicbrainz_payload`; the migration always completes.
- LibraryStore.LibraryStore.Initialize: because neither migration can fail in the model, `initialize` does not fail on a malformed legacy payload as the source does.
- LibraryListing.LikedAtColumn: the text of the column-type error is a fixed string rather than rusqlite's message, and SQLite's serialisation of an array or object is a function parameter.
- `list_discogs_candidates` and `load_soundcloud_lookup` are read-only queries that the lookup workers and the front end use; they are not part of this model.
- `list_musicbrainz_candidates` is called from lib.rs but not defined in library/mod.rs, so it is not part of this model.
- HTTP requests, `reqwest`, JSON decoding of responses, the `Retry-After` header and the tokio channels, spawns and sleeps: responses and decoded bodies are inputs, and a sleep is taken to last exactly as long as asked.
- `StatusCode`'s table of reason phrases: the reason phrase is an input of the response.
- `queue_lookup`, `resolve_lookup_payload`, and the worker tasks' channel loop beyond one job: these are concurrency.
- The `Mutex` poisoning paths throughout lib.rs: these are concurrency.
- `MusicbrainzCredentials::load`: it reads the environment.
- File reads, SHA-256 and the symphonia decode in `compute_file_metadata` / `compute_duration`: the probe is a function parameter, and None stands for its failure.
- The `url` crate: URLs arrive already parsed, and the `file://` decoding of `decode_location` is a function parameter.
- The SQLite and quick-xml decoding in `parse_master_db` and `parse_xml_export`: the parsers start from the decoded rows and entries.
- Floating point: scores are `real`. These are left out:
  - `f32` rounding of confidences, including `as f32` in `confirm_musicbrainz_match`;
  - NaN ordering in `partial_cmp`;
  - the `start * 1000.0` product;
  - the frames-per-sample-rate division.
- Json.AsF64: rounding of large integers to `f64` is not modelled.
- Rekordbox.TruncateToI64: states the exact value only for non-negative inputs below `i64::MAX`; for negative inputs it states only the range, because Dafny's `real` has no truncation toward zero of its own.
- Unicode `to_lowercase` in the album-tag test is modelled as ASCII lower-casing; other characters are kept as they are.
- The watcher task's 30-second sleep, its abort and `Drop`: only the change check and the polling loop over the readings are kept. The task started by `configure` is represented by a counter.
- RekordboxWatch.Watch: returns only the indexes of the polls that reload. The reload itself is not composed into the loop: its `load_tracks` followed by `sync_rekordbox_tracks`, whose errors are only logged, is left out.
- The Tauri shell: `run`, the tray, window handling, global shortcuts, notifications, script injection, event listeners and `ThemeChangePayload`.
- The OS media back ends (the `linux`, `windows` and `macos` modules) and `MediaIntegration`: these are platform FFI.
- D-Bus `Variant` boxing in MPRIS: values are a small `Variant` datatype.
- vendor/mpris-player/src/lib.rs only re-exports modules, and vendor/mac-notification-sys is an Objective-C wrapper; neither is part of this model.
- Rust's `HashMap::insert` in `to_hashmap`: each insert is written as an assignment to a map-typed variable, so the model says nothing about the HashMap's memory layout.
