/**
 * `LibraryStore` (library/mod.rs): the store owns one SQLite connection,
 * modelled as the field `db` holding every table. Each public operation is a
 * method that changes `db` statement by statement, as the SQL does, and is
 * proved to leave it equal to the pure function of the `Library*` modules that
 * the lemmas there are about. `now` stands for `datetime('now')` during the call.
 */
module LibraryStore {
  import opened Wrappers
  import opened Json
  import opened Library
  import opened Rekordbox
  import opened LibrarySync
  import opened LibraryListing
  import opened LibraryMigrations

  class LibraryStore {
    /** The rows behind the connection. */
    var db: Tables

    /** `Connection::open` on an existing database file. */
    constructor Open(t: Tables)
      ensures db == t
    {
      db := t;
    }

    /**
     * `LibraryStore::initialize`: open the database and run both legacy
     * migrations (the schema statements change no rows). Foreign keys are
     * switched on only afterwards.
     */
    static method Initialize(initial: Tables, now: nat)
      returns (store: LibraryStore, ghost discogsOrder: seq<string>, ghost musicbrainzOrder: seq<string>)
      ensures fresh(store)
      ensures store.db == MigrateMusicbrainz(MigrateDiscogs(initial, discogsOrder, now), musicbrainzOrder, now)
      ensures forall id :: id in discogsOrder <==> id in PendingDiscogs(initial)
      ensures forall id :: id in musicbrainzOrder <==> id in PendingMusicbrainz(MigrateDiscogs(initial, discogsOrder, now))
      ensures PendingDiscogs(store.db) == {} && PendingMusicbrainz(store.db) == {}
    {
      store := new LibraryStore.Open(initial);
      discogsOrder := store.MigrateDiscogsPayloads(now);
      DiscogsMigrationIdempotent(initial, discogsOrder, [], now, now);
      var afterDiscogs := store.db;
      musicbrainzOrder := store.MigrateMusicbrainzPayloads(now);
      MusicbrainzMigrationIdempotent(afterDiscogs, musicbrainzOrder, [], now, now);
      MusicbrainzKeepsDiscogsPendingAll(afterDiscogs, musicbrainzOrder, now);
    }

    // -------------------------------------------------------------------------
    // Tracks and sources
    // -------------------------------------------------------------------------

    /** `ensure_track` */
    method EnsureTrack(id: string, now: nat)
      modifies this
      ensures db == Library.EnsureTrack(old(db), id, now)
    {
      if id !in db.tracks {
        db := db.(tracks := db.tracks[id := BareTrack(now)]);
      }
    }

    /** `upsert_track` */
    method UpsertTrack(r: TrackRecord, now: nat)
      modifies this
      ensures db == Library.UpsertTrack(old(db), r, now)
      ensures ForeignKeysHold(old(db)) ==> ForeignKeysHold(db)
    {
      if r.trackId in db.tracks {
        db := db.(tracks := db.tracks[r.trackId := db.tracks[r.trackId].(
          title := r.title, artist := r.artist, album := r.album,
          discogsReleaseId := r.discogsReleaseId, discogsConfidence := r.discogsConfidence,
          musicbrainzReleaseId := r.musicbrainzReleaseId, musicbrainzConfidence := r.musicbrainzConfidence,
          musicbrainzPayload := r.musicbrainzPayload, updatedAt := now)]);
      } else {
        db := db.(tracks := db.tracks[r.trackId := TrackRow(r.title, r.artist, r.album, None, r.discogsReleaseId,
          r.discogsConfidence, r.musicbrainzPayload, r.musicbrainzReleaseId, r.musicbrainzConfidence, now, now)]);
      }
      if ForeignKeysHold(old(db)) { UpsertTrackKeepsForeignKeys(old(db), r, now); }
    }

    /** `link_soundcloud_source` */
    method LinkSoundcloudSource(r: SoundcloudSourceRecord, now: nat)
      modifies this
      ensures db == Library.LinkSoundcloudSource(old(db), r, now)
      ensures ForeignKeysHold(old(db)) ==> ForeignKeysHold(db)
    {
      EnsureTrack(r.trackId, now);
      db := db.(soundcloudSources := db.soundcloudSources[
        r.trackId := SoundcloudSourceRow(r.soundcloudId, r.permalinkUrl, r.rawPayload, now)]);
      if ForeignKeysHold(old(db)) { LinkSoundcloudSourceKeepsForeignKeys(old(db), r, now); }
    }

    /** `sync_soundcloud_track` */
    method SyncSoundcloudTrack(track: TrackRecord, source: SoundcloudSourceRecord, now: nat)
      modifies this
      ensures db == Library.SyncSoundcloudTrack(old(db), track, source, now)
      ensures ForeignKeysHold(old(db)) ==> ForeignKeysHold(db)
    {
      UpsertTrack(track, now);
      LinkSoundcloudSource(source, now);
    }

    /** `record_local_asset` */
    method RecordLocalAsset(r: LocalAssetRecord, now: nat)
      modifies this
      ensures db == Library.RecordLocalAsset(old(db), r, now)
      ensures ForeignKeysHold(old(db)) ==> ForeignKeysHold(db)
    {
      EnsureTrack(r.trackId, now);
      db := db.(localAssets := db.localAssets[
        r.trackId := LocalAssetRow(r.location, r.checksum, r.available, r.durationMs, now)]);
      if r.rekordboxCues.Some? {
        db := db.(rekordboxSources := db.rekordboxSources[r.trackId := RekordboxSourceRow(r.rekordboxCues.value, now)]);
      }
      if ForeignKeysHold(old(db)) { RecordLocalAssetKeepsForeignKeys(old(db), r, now); }
    }

    // -------------------------------------------------------------------------
    // Match writers
    // -------------------------------------------------------------------------

    /** `persist_discogs_match`: the candidate loop skips candidates of other tracks. */
    method PersistDiscogsMatch(r: MatchRecord, candidates: seq<CandidateRecord>, now: nat)
      modifies this
      ensures db == Library.PersistDiscogsMatch(old(db), r, candidates, now)
    {
      EnsureTrack(r.trackId, now);
      db := db.(discogsMatches := db.discogsMatches[r.trackId := MatchRowOf(r, now)]);
      db := db.(tracks := db.tracks[r.trackId := db.tracks[r.trackId].(
        discogsReleaseId := r.releaseId, discogsConfidence := r.confidence, updatedAt := now)]);
      ghost var base := db.discogsCandidates;
      db := db.(discogsCandidates := db.discogsCandidates - {r.trackId});
      ghost var cleared := db;
      for i := 0 to |candidates|
        invariant db == cleared.(discogsCandidates := SetGroup(base, r.trackId, RowsFor(candidates[..i], r.trackId)))
      {
        assert candidates[..i + 1][..i] == candidates[..i];
        if candidates[i].matchId != r.trackId {
          continue;
        }
        SetGroupSnoc(base, r.trackId, RowsFor(candidates[..i], r.trackId), CandidateRowOf(candidates[i]));
        db := db.(discogsCandidates := db.discogsCandidates[
          r.trackId := CandidatesOf(db.discogsCandidates, r.trackId) + [CandidateRowOf(candidates[i])]]);
      }
      assert candidates[..|candidates|] == candidates;
    }

    /** `record_discogs_match`: one transaction around `persist_discogs_match`. */
    method RecordDiscogsMatch(r: MatchRecord, candidates: seq<CandidateRecord>, now: nat)
      modifies this
      ensures db == Library.PersistDiscogsMatch(old(db), r, candidates, now)
      ensures ForeignKeysHold(old(db)) ==> ForeignKeysHold(db)
    {
      PersistDiscogsMatch(r, candidates, now);
      if ForeignKeysHold(old(db)) { PersistDiscogsKeepsForeignKeys(old(db), r, candidates, now); }
    }

    /**
     * `record_musicbrainz_match`: `persist_musicbrainz_match` in a transaction.
     * Each candidate goes under its own `match_id`; the first one without a
     * match row fails its insert and the transaction is rolled back.
     */
    method RecordMusicbrainzMatch(r: MatchRecord, candidates: seq<CandidateRecord>, now: nat)
      returns (result: Result<(), LibraryError>)
      modifies this
      ensures var spec := Library.PersistMusicbrainzMatch(old(db), r, candidates, now);
        && (spec.Ok? ==> result.Ok? && db == spec.value)
        && (spec.Err? ==> result == Err(spec.error) && db == old(db))
      ensures ForeignKeysHold(old(db)) ==> ForeignKeysHold(db)
    {
      var snapshot := db;
      EnsureTrack(r.trackId, now);
      db := db.(musicbrainzMatches := db.musicbrainzMatches[r.trackId := MatchRowOf(r, now)]);
      db := db.(tracks := db.tracks[r.trackId := db.tracks[r.trackId].(
        musicbrainzReleaseId := r.releaseId, musicbrainzConfidence := r.confidence, updatedAt := now)]);
      db := db.(musicbrainzCandidates := db.musicbrainzCandidates - {r.trackId});
      ghost var cleared := db;
      for i := 0 to |candidates|
        invariant db == cleared.(musicbrainzCandidates := AppendCandidates(cleared.musicbrainzCandidates, candidates[..i]))
        invariant forall k :: 0 <= k < i ==> candidates[k].matchId in db.musicbrainzMatches
      {
        assert candidates[..i + 1][..i] == candidates[..i];
        var c := candidates[i];
        if c.matchId !in db.musicbrainzMatches {
          FirstOrphanAt(db.musicbrainzMatches.Keys, candidates, i);
          db := snapshot;
          return Err(ForeignKeyViolation(c.matchId));
        }
        db := db.(musicbrainzCandidates := db.musicbrainzCandidates[
          c.matchId := CandidatesOf(db.musicbrainzCandidates, c.matchId) + [CandidateRowOf(c)]]);
      }
      assert candidates[..|candidates|] == candidates;
      result := Ok(());
      if ForeignKeysHold(old(db)) { PersistMusicbrainzKeepsForeignKeys(old(db), r, candidates, now); }
    }

    /** `record_discogs_success` */
    method RecordDiscogsSuccess(trackId: string, query: string, release: Json, confidence: real, now: nat)
      modifies this
      ensures var (r, cs) := DiscogsSuccess(trackId, query, release, confidence);
        db == Library.PersistDiscogsMatch(old(db), r, cs, now)
    {
      var (r, cs) := DiscogsSuccess(trackId, query, release, confidence);
      RecordDiscogsMatch(r, cs, now);
    }

    /** `record_discogs_ambiguity` */
    method RecordDiscogsAmbiguity(trackId: string, query: string, candidates: seq<Json>, now: nat)
      modifies this
      ensures var (r, cs) := AmbiguityRecord(trackId, query, candidates);
        db == Library.PersistDiscogsMatch(old(db), r, cs, now)
    {
      var (r, cs) := AmbiguityRecord(trackId, query, candidates);
      RecordDiscogsMatch(r, cs, now);
    }

    /** `record_discogs_failure` */
    method RecordDiscogsFailure(trackId: string, query: string, reason: string, now: nat)
      modifies this
      ensures var (r, cs) := FailureRecord(trackId, query, reason);
        db == Library.PersistDiscogsMatch(old(db), r, cs, now)
    {
      var (r, cs) := FailureRecord(trackId, query, reason);
      RecordDiscogsMatch(r, cs, now);
    }

    /** `record_musicbrainz_success`: its one candidate belongs to the track, so it is never refused. */
    method RecordMusicbrainzSuccess(trackId: string, query: string, release: Json, confidence: real, now: nat)
      returns (result: Result<(), LibraryError>)
      modifies this
      ensures result.Ok?
      ensures var (r, cs) := MusicbrainzSuccess(trackId, query, release, confidence);
        var spec := Library.PersistMusicbrainzMatch(old(db), r, cs, now);
        spec.Ok? && db == spec.value
    {
      var (r, cs) := MusicbrainzSuccess(trackId, query, release, confidence);
      PersistMusicbrainzAccepts(db, r, cs, now);
      result := RecordMusicbrainzMatch(r, cs, now);
    }

    /** `record_musicbrainz_ambiguity`: all candidates belong to the track, so it is never refused. */
    method RecordMusicbrainzAmbiguity(trackId: string, query: string, candidates: seq<Json>, now: nat)
      returns (result: Result<(), LibraryError>)
      modifies this
      ensures result.Ok?
      ensures var (r, cs) := AmbiguityRecord(trackId, query, candidates);
        var spec := Library.PersistMusicbrainzMatch(old(db), r, cs, now);
        spec.Ok? && db == spec.value
    {
      var (r, cs) := AmbiguityRecord(trackId, query, candidates);
      AmbiguityCandidatesKeepIds(trackId, candidates);
      PersistMusicbrainzAccepts(db, r, cs, now);
      result := RecordMusicbrainzMatch(r, cs, now);
    }

    /** `record_musicbrainz_failure` */
    method RecordMusicbrainzFailure(trackId: string, query: string, reason: string, now: nat)
      returns (result: Result<(), LibraryError>)
      modifies this
      ensures result.Ok?
      ensures var (r, cs) := FailureRecord(trackId, query, reason);
        var spec := Library.PersistMusicbrainzMatch(old(db), r, cs, now);
        spec.Ok? && db == spec.value
    {
      var (r, cs) := FailureRecord(trackId, query, reason);
      PersistMusicbrainzAccepts(db, r, cs, now);
      result := RecordMusicbrainzMatch(r, cs, now);
    }

    // -------------------------------------------------------------------------
    // Rekordbox synchronisation
    // -------------------------------------------------------------------------

    /** `DELETE FROM tracks WHERE id = :track_id`, with its cascades. */
    method DeleteTrack(id: string)
      modifies this
      ensures db == DeleteTracks(old(db), {id})
    {
      var discogsCandidates, musicbrainzCandidates := db.discogsCandidates, db.musicbrainzCandidates;
      if id in db.discogsMatches {
        assert {id} * db.discogsMatches.Keys == {id};
        discogsCandidates := discogsCandidates - {id};
      } else {
        assert {id} * db.discogsMatches.Keys == {};
      }
      if id in db.musicbrainzMatches {
        assert {id} * db.musicbrainzMatches.Keys == {id};
        musicbrainzCandidates := musicbrainzCandidates - {id};
      } else {
        assert {id} * db.musicbrainzMatches.Keys == {};
      }
      db := db.(
        tracks := db.tracks - {id},
        soundcloudSources := db.soundcloudSources - {id},
        rekordboxSources := db.rekordboxSources - {id},
        localAssets := db.localAssets - {id},
        rekordboxMappings := MappingsWithout(db.rekordboxMappings, {id}),
        discogsMatches := db.discogsMatches - {id},
        discogsCandidates := discogsCandidates,
        musicbrainzMatches := db.musicbrainzMatches - {id},
        musicbrainzCandidates := musicbrainzCandidates);
    }

    /** The deletion loop of `sync_rekordbox_tracks`: one `DELETE` per stale track id. */
    method DeleteAll(ids: set<string>)
      modifies this
      ensures db == DeleteTracks(old(db), ids)
    {
      ghost var start := db;
      ghost var deleted: set<string> := {};
      DeleteNothing(db);
      var remaining := ids;
      while remaining != {}
        invariant deleted + remaining == ids
        invariant db == DeleteTracks(start, deleted)
        decreases |remaining|
      {
        var id :| id in remaining;
        DeleteTracksCompose(start, deleted, {id});
        DeleteTrack(id);
        deleted := deleted + {id};
        remaining := remaining - {id};
      }
    }

    /** The body of the import loop of `sync_rekordbox_tracks`, for one track under its assigned id. */
    method ImportTrack(track: RekordboxTrack, trackId: string, now: nat)
      requires trackId == AssignedId(db.rekordboxMappings, track.rekordboxId)
      modifies this
      ensures db == ImportOne(old(db), track, now)
      ensures db.rekordboxMappings == old(db).rekordboxMappings[track.rekordboxId := MappingRow(trackId, now)]
    {
      db := db.(tracks := db.tracks[trackId := ImportedRow(db.tracks, trackId, track, now)]);
      db := db.(rekordboxMappings := db.rekordboxMappings[track.rekordboxId := MappingRow(trackId, now)]);
      var location := track.location.Or(track.normalizedPath);
      if location.Some? {
        var durationMs := if track.durationMs.Some? then Some(U64AsI64(track.durationMs.value)) else None;
        db := db.(localAssets := db.localAssets[
          trackId := LocalAssetRow(location.value, track.checksum, track.available, durationMs, now)]);
      }
      db := db.(rekordboxSources := db.rekordboxSources[trackId := RekordboxSourceRow(SyncPayload(track, trackId), now)]);
    }

    /**
     * The import loop of `sync_rekordbox_tracks`. `existingMap` starts as the
     * stored mappings and learns each assignment; `staleMap` loses every
     * Rekordbox id imported, and its track ids are returned.
     */
    method ImportAllTracks(input: seq<RekordboxTrack>, now: nat) returns (staleIds: set<string>)
      modifies this
      ensures db == ImportAll(old(db), input, now)
      ensures staleIds == StaleIds(old(db).rekordboxMappings, input)
    {
      ghost var start := db;
      var existingMap := TrackIdsOf(db.rekordboxMappings);
      var staleMap := existingMap;
      for i := 0 to |input|
        invariant db == ImportAll(start, input[..i], now)
        invariant existingMap == TrackIdsOf(db.rekordboxMappings)
        invariant staleMap == StaleMapOf(start.rekordboxMappings, input[..i])
      {
        var track := input[i];
        assert input[..i + 1][..i] == input[..i];
        StaleMapSnoc(start.rekordboxMappings, input[..i + 1]);
        var trackId := if track.rekordboxId in existingMap then existingMap[track.rekordboxId]
                       else MintedId(track.rekordboxId);
        TrackIdsOfUpdate(db.rekordboxMappings, track.rekordboxId, MappingRow(trackId, now));
        existingMap := existingMap[track.rekordboxId := trackId];
        staleMap := staleMap - {track.rekordboxId};
        ImportTrack(track, trackId, now);
      }
      assert input[..|input|] == input;
      staleIds := set r | r in staleMap :: staleMap[r];
    }

    /** `sync_rekordbox_tracks`: import every track, then delete the tracks of stale mappings. */
    method SyncRekordboxTracks(input: seq<RekordboxTrack>, now: nat)
      modifies this
      ensures db == LibrarySync.SyncRekordboxTracks(old(db), input, now)
      ensures ForeignKeysHold(old(db)) ==> ForeignKeysHold(db)
    {
      var staleIds := ImportAllTracks(input, now);
      DeleteAll(staleIds);
      if ForeignKeysHold(old(db)) { SyncDeletesStale(old(db), input, now); }
    }

    // -------------------------------------------------------------------------
    // Queries
    // -------------------------------------------------------------------------

    /** `list_missing_assets` */
    method ListMissingAssets() returns (ids: seq<string>)
      ensures SortedBy(db, IdAscending, ids)
      ensures forall id :: id in ids <==> id in db.tracks && MissingAsset(db, id)
    {
      ids := LibraryListing.ListMissingAssets(db);
    }

    /** `list_library_status` */
    method ListLibraryStatus(f: StatusFilter, jsonText: Json -> string)
      returns (page: Result<StatusPage, string>, ghost ordered: seq<string>)
      ensures SortedBy(db, RecentFirst, ordered)
      ensures forall id :: id in ordered <==> id in db.tracks && Selected(db, f, id)
      ensures var t, window := db, Window(ordered, f.offset.UnwrapOr(0), ClampLimit(f.limit));
        page.Err? <==> exists k :: 0 <= k < |window| && ReadStatusRow(t, window[k], jsonText).Err?
      ensures page.Ok? ==>
        && page.value.total == |FilteredIds(db, f)| % U32_MODULUS
        && page.value.limit == ClampLimit(f.limit) && page.value.offset == f.offset.UnwrapOr(0)
      ensures var t, window := db, Window(ordered, f.offset.UnwrapOr(0), ClampLimit(f.limit));
        page.Ok? ==> page.value.rows == seq(|window|, k requires 0 <= k < |window| => ReadStatusRow(t, window[k], jsonText).value)
    {
      page, ordered := LibraryListing.ListLibraryStatus(db, f, jsonText);
    }

    // -------------------------------------------------------------------------
    // Legacy-payload migrations
    // -------------------------------------------------------------------------

    /** One row of `migrate_discogs_payloads`: rebuild the match, then clear the payload. */
    method MigrateDiscogsTrack(id: string, now: nat)
      requires id in PendingDiscogs(db)
      modifies this
      ensures db == MigrateDiscogsOne(old(db), id, now)
    {
      var (r, cs) := DiscogsLegacy(id, db.tracks[id].discogsPayload.value);
      PersistDiscogsMatch(r, cs, now);
      db := db.(tracks := db.tracks[id := db.tracks[id].(discogsPayload := None)]);
    }

    /** `migrate_discogs_payloads`: `order` is the order in which the rows come back. */
    method MigrateDiscogsPayloads(now: nat) returns (ghost order: seq<string>)
      modifies this
      ensures db == MigrateDiscogs(old(db), order, now)
      ensures forall id :: id in order <==> id in PendingDiscogs(old(db))
    {
      var pending := PendingDiscogs(db);
      order := [];
      while pending != {}
        invariant db == MigrateDiscogs(old(db), order, now)
        invariant forall id :: id in pending <==> id in PendingDiscogs(old(db)) && id !in order
        invariant forall id :: id in order ==> id in PendingDiscogs(old(db))
        decreases |pending|
      {
        var id :| id in pending;
        MigrateDiscogsPending(old(db), order, now);
        MigrateDiscogsTrack(id, now);
        assert (order + [id])[..|order|] == order;
        order := order + [id];
        pending := pending - {id};
      }
    }

    /** One row of `migrate_musicbrainz_payloads`. */
    method MigrateMusicbrainzTrack(id: string, now: nat)
      requires id in PendingMusicbrainz(db)
      modifies this
      ensures db == MigrateMusicbrainzOne(old(db), id, now)
    {
      var (row, cs) := MusicbrainzLegacy(db.tracks[id].musicbrainzPayload.value, now);
      db := db.(musicbrainzMatches := db.musicbrainzMatches[id := row]);
      db := db.(tracks := db.tracks[id := db.tracks[id].(musicbrainzReleaseId := row.releaseId,
        musicbrainzConfidence := row.confidence, musicbrainzPayload := None, updatedAt := now)]);
      ghost var base := db.musicbrainzCandidates;
      db := db.(musicbrainzCandidates := db.musicbrainzCandidates - {id});
      ghost var cleared := db;
      for j := 0 to |cs|
        invariant db == cleared.(musicbrainzCandidates := SetGroup(base, id, cs[..j]))
      {
        SetGroupSnoc(base, id, cs[..j], cs[j]);
        assert cs[..j + 1] == cs[..j] + [cs[j]];
        db := db.(musicbrainzCandidates := db.musicbrainzCandidates[id := CandidatesOf(db.musicbrainzCandidates, id) + [cs[j]]]);
      }
      assert cs[..|cs|] == cs;
    }

    /** `migrate_musicbrainz_payloads` */
    method MigrateMusicbrainzPayloads(now: nat) returns (ghost order: seq<string>)
      modifies this
      ensures db == MigrateMusicbrainz(old(db), order, now)
      ensures forall id :: id in order <==> id in PendingMusicbrainz(old(db))
    {
      var pending := PendingMusicbrainz(db);
      order := [];
      while pending != {}
        invariant db == MigrateMusicbrainz(old(db), order, now)
        invariant forall id :: id in pending <==> id in PendingMusicbrainz(old(db)) && id !in order
        invariant forall id :: id in order ==> id in PendingMusicbrainz(old(db))
        decreases |pending|
      {
        var id :| id in pending;
        MigrateMusicbrainzPending(old(db), order, now);
        MigrateMusicbrainzTrack(id, now);
        assert (order + [id])[..|order|] == order;
        order := order + [id];
        pending := pending - {id};
      }
    }
  }

  /** `existing_map`: each Rekordbox id with the track id of its mapping. */
  function TrackIdsOf(mappings: map<string, MappingRow>): (r: map<string, string>)
    ensures r.Keys == mappings.Keys
  {
    map rid | rid in mappings :: mappings[rid].trackId
  }

  lemma TrackIdsOfUpdate(mappings: map<string, MappingRow>, rid: string, row: MappingRow)
    ensures TrackIdsOf(mappings[rid := row]) == TrackIdsOf(mappings)[rid := row.trackId]
  {
  }

  /** `stale_map` after the tracks of an import have been visited. */
  function StaleMapOf(mappings: map<string, MappingRow>, tracks: seq<RekordboxTrack>): (r: map<string, string>)
    ensures forall rid :: rid in r ==> rid in mappings && r[rid] == mappings[rid].trackId
  {
    map rid | rid in mappings && rid !in InputIds(tracks) :: mappings[rid].trackId
  }

  lemma StaleMapSnoc(mappings: map<string, MappingRow>, tracks: seq<RekordboxTrack>)
    requires tracks != []
    ensures StaleMapOf(mappings, tracks) == StaleMapOf(mappings, tracks[..|tracks| - 1]) - {tracks[|tracks| - 1].rekordboxId}
  {
    InputIdsSnoc(tracks);
  }

  /** The MusicBrainz migration loop never brings back a Discogs payload. */
  lemma {:induction false} MusicbrainzKeepsDiscogsPendingAll(t: Tables, order: seq<string>, now: nat)
    ensures PendingDiscogs(MigrateMusicbrainz(t, order, now)) == PendingDiscogs(t)
  {
    if order != [] {
      MusicbrainzKeepsDiscogsPendingAll(t, order[..|order| - 1], now);
      MusicbrainzKeepsDiscogsPending(MigrateMusicbrainz(t, order[..|order| - 1], now), order[|order| - 1], now);
    }
  }
}
