/**
 * The library database (library/mod.rs) as values: one map per SQLite table,
 * keyed by the table's primary key, and one pure function per statement
 * sequence a `LibraryStore` method runs. Foreign keys declared
 * `ON DELETE CASCADE` are modelled by DeleteTracks. `datetime('now')` is the
 * `now` parameter: one tick per call.
 */
module Library {
  import opened Wrappers
  import opened Text
  import opened Json

  // ---------------------------------------------------------------------------
  // Statuses and release ids
  // ---------------------------------------------------------------------------

  /** `DiscogsMatchStatus` and `MusicbrainzMatchStatus`: the two enums are identical. */
  datatype MatchStatus = Success | Ambiguous | Error {
    /** `as_str` */
    function AsStr(): string {
      match this
      case Success => "success"
      case Ambiguous => "ambiguous"
      case Error => "error"
    }
  }

  /** `DiscogsMatchStatus::from_str`: anything unknown reads as Error. */
  function StatusFromStr(value: string): MatchStatus {
    if value == "success" then Success
    else if value == "ambiguous" then Ambiguous
    else Error
  }

  /** The stored text reads back as the status it was written from. */
  lemma StatusRoundTrip(s: MatchStatus)
    ensures StatusFromStr(s.AsStr()) == s
  {
  }

  /** `from_str` is a left inverse of `as_str`, and only the three names read back unchanged. */
  lemma StatusFromStrDefault(value: string)
    ensures StatusFromStr(value).AsStr() == value <==> value in {"success", "ambiguous", "error"}
    ensures value !in {"success", "ambiguous"} ==> StatusFromStr(value) == Error
  {
  }

  /**
   * `extract_release_id`: the first of `id`, `release_id`, `master_id` present
   * in the object decides; a string is taken as is, an integer is written in
   * decimal, anything else (null included) gives no id.
   */
  function ExtractReleaseId(value: Json): Option<string> {
    var idValue := Get(value, "id").Or(Get(value, "release_id")).Or(Get(value, "master_id"));
    match idValue
    case Some(Str(id)) => Some(id)
    case Some(Int(n)) =>
      if AsU64(Int(n)).Some? then Some(NatToString(n))
      else if AsI64(Int(n)).Some? then Some(IntToString(n))
      else None
    case _ => None
  }

  /** The key that decides ExtractReleaseId: the first of the three present in the object. */
  function IdKey(value: Json): Option<string> {
    if Get(value, "id").Some? then Some("id")
    else if Get(value, "release_id").Some? then Some("release_id")
    else if Get(value, "master_id").Some? then Some("master_id")
    else None
  }

  /** Only the first present key matters; a null or non-scalar there gives None with no fall-through. */
  lemma ReleaseIdFirstKeyDecides(value: Json)
    ensures IdKey(value).None? ==> ExtractReleaseId(value).None?
    ensures IdKey(value).Some? ==>
      var v := value.fields[IdKey(value).value];
      && (v.Str? ==> ExtractReleaseId(value) == Some(v.s))
      && (v.Int? && I64_MIN <= v.i <= U64_MAX ==> ExtractReleaseId(value) == Some(IntToString(v.i)))
      && (!v.Str? && !v.Int? ==> ExtractReleaseId(value).None?)
  {
  }

  /** An integer id, positive or negative, is its decimal text. */
  lemma ReleaseIdOfInteger(n: int, rest: map<string, Json>)
    requires I64_MIN <= n <= U64_MAX
    ensures ExtractReleaseId(Obj(rest["id" := Int(n)])) == Some(IntToString(n))
    ensures ExtractReleaseId(Obj(rest["id" := Null]["release_id" := Int(n)])).None?
  {
  }

  // ---------------------------------------------------------------------------
  // Records passed in by callers
  // ---------------------------------------------------------------------------

  datatype TrackRecord = TrackRecord(
    trackId: string,
    title: Option<string>,
    artist: Option<string>,
    album: Option<string>,
    discogsReleaseId: Option<string>,
    discogsConfidence: Option<real>,
    musicbrainzReleaseId: Option<string>,
    musicbrainzConfidence: Option<real>,
    musicbrainzPayload: Option<Json>)

  /** `DiscogsMatchRecord` / `MusicbrainzMatchRecord`; `checkedAt` None means `datetime('now')`. */
  datatype MatchRecord = MatchRecord(
    trackId: string,
    releaseId: Option<string>,
    confidence: Option<real>,
    status: MatchStatus,
    query: Option<string>,
    message: Option<string>,
    checkedAt: Option<nat>)

  /** `DiscogsCandidateRecord` / `MusicbrainzCandidateRecord` */
  datatype CandidateRecord = CandidateRecord(
    matchId: string,
    releaseId: Option<string>,
    score: Option<real>,
    rawPayload: Json)

  datatype SoundcloudSourceRecord = SoundcloudSourceRecord(
    trackId: string,
    soundcloudId: string,
    permalinkUrl: Option<string>,
    rawPayload: Json)

  datatype LocalAssetRecord = LocalAssetRecord(
    trackId: string,
    location: string,
    checksum: Option<string>,
    available: bool,
    durationMs: Option<int>,
    rekordboxCues: Option<Json>)

  // ---------------------------------------------------------------------------
  // Table rows (the primary key is the map key)
  // ---------------------------------------------------------------------------

  datatype TrackRow = TrackRow(
    title: Option<string>,
    artist: Option<string>,
    album: Option<string>,
    discogsPayload: Option<Json>,
    discogsReleaseId: Option<string>,
    discogsConfidence: Option<real>,
    musicbrainzPayload: Option<Json>,
    musicbrainzReleaseId: Option<string>,
    musicbrainzConfidence: Option<real>,
    createdAt: nat,
    updatedAt: nat)

  datatype SoundcloudSourceRow = SoundcloudSourceRow(
    soundcloudId: string, permalinkUrl: Option<string>, rawPayload: Json, fetchedAt: nat)

  datatype RekordboxSourceRow = RekordboxSourceRow(rawPayload: Json, updatedAt: nat)

  datatype LocalAssetRow = LocalAssetRow(
    location: string, checksum: Option<string>, available: bool, durationMs: Option<int>, recordedAt: nat)

  datatype MappingRow = MappingRow(trackId: string, updatedAt: nat)

  /** A `discogs_matches` / `musicbrainz_matches` row; the status is stored as text. */
  datatype MatchRow = MatchRow(
    releaseId: Option<string>,
    confidence: Option<real>,
    status: string,
    query: Option<string>,
    message: Option<string>,
    checkedAt: nat)

  datatype CandidateRow = CandidateRow(releaseId: Option<string>, score: Option<real>, rawPayload: Json)

  /**
   * The whole database. Candidate tables are grouped by `match_id`, each group
   * in insertion order; a match id with no candidate rows is not a key.
   */
  datatype Tables = Tables(
    tracks: map<string, TrackRow>,
    soundcloudSources: map<string, SoundcloudSourceRow>,
    rekordboxSources: map<string, RekordboxSourceRow>,
    localAssets: map<string, LocalAssetRow>,
    rekordboxMappings: map<string, MappingRow>,
    discogsMatches: map<string, MatchRow>,
    discogsCandidates: map<string, seq<CandidateRow>>,
    musicbrainzMatches: map<string, MatchRow>,
    musicbrainzCandidates: map<string, seq<CandidateRow>>)

  function EmptyTables(): Tables {
    Tables(map[], map[], map[], map[], map[], map[], map[], map[], map[])
  }

  /** The candidate rows stored for one match id. */
  function CandidatesOf(table: map<string, seq<CandidateRow>>, id: string): seq<CandidateRow> {
    if id in table then table[id] else []
  }

  /** Every foreign key of the schema points at an existing row. */
  predicate ForeignKeysHold(t: Tables) {
    && t.soundcloudSources.Keys <= t.tracks.Keys
    && t.rekordboxSources.Keys <= t.tracks.Keys
    && t.localAssets.Keys <= t.tracks.Keys
    && (forall r :: r in t.rekordboxMappings ==> t.rekordboxMappings[r].trackId in t.tracks)
    && t.discogsMatches.Keys <= t.tracks.Keys
    && t.discogsCandidates.Keys <= t.discogsMatches.Keys
    && t.musicbrainzMatches.Keys <= t.tracks.Keys
    && t.musicbrainzCandidates.Keys <= t.musicbrainzMatches.Keys
  }

  // ---------------------------------------------------------------------------
  // Tracks and sources
  // ---------------------------------------------------------------------------

  /** A row created by `INSERT INTO tracks (id)`: every column NULL except the timestamps. */
  function BareTrack(now: nat): TrackRow {
    TrackRow(None, None, None, None, None, None, None, None, None, now, now)
  }

  /** `ensure_track`: `INSERT OR IGNORE INTO tracks (id)`. */
  function EnsureTrack(t: Tables, id: string, now: nat): Tables {
    if id in t.tracks then t else t.(tracks := t.tracks[id := BareTrack(now)])
  }

  /** `ensure_track` adds a bare row for a new id and never touches an existing one. */
  lemma EnsureTrackKeepsExisting(t: Tables, id: string, now: nat)
    ensures EnsureTrack(t, id, now).tracks.Keys == t.tracks.Keys + {id}
    ensures id in t.tracks ==> EnsureTrack(t, id, now) == t
    ensures id !in t.tracks ==> EnsureTrack(t, id, now).tracks[id] == BareTrack(now)
    ensures forall other :: other in t.tracks ==> EnsureTrack(t, id, now).tracks[other] == t.tracks[other]
  {
  }

  /** `upsert_track`: insert, or overwrite the eight columns of the record and `updated_at`. */
  function UpsertTrack(t: Tables, r: TrackRecord, now: nat): Tables {
    var row :=
      if r.trackId in t.tracks then
        t.tracks[r.trackId].(
          title := r.title, artist := r.artist, album := r.album,
          discogsReleaseId := r.discogsReleaseId, discogsConfidence := r.discogsConfidence,
          musicbrainzReleaseId := r.musicbrainzReleaseId, musicbrainzConfidence := r.musicbrainzConfidence,
          musicbrainzPayload := r.musicbrainzPayload, updatedAt := now)
      else
        TrackRow(r.title, r.artist, r.album, None, r.discogsReleaseId, r.discogsConfidence,
                 r.musicbrainzPayload, r.musicbrainzReleaseId, r.musicbrainzConfidence, now, now);
    t.(tracks := t.tracks[r.trackId := row])
  }

  /** After `upsert_track` the row carries the record's values; the legacy Discogs payload and `created_at` survive. */
  lemma UpsertTrackOverwrites(t: Tables, r: TrackRecord, now: nat)
    ensures var u := UpsertTrack(t, r, now);
      && r.trackId in u.tracks
      && var row := u.tracks[r.trackId];
      && row.title == r.title && row.artist == r.artist && row.album == r.album
      && row.discogsReleaseId == r.discogsReleaseId && row.discogsConfidence == r.discogsConfidence
      && row.musicbrainzReleaseId == r.musicbrainzReleaseId && row.musicbrainzConfidence == r.musicbrainzConfidence
      && row.musicbrainzPayload == r.musicbrainzPayload
      && row.updatedAt == now
      && (r.trackId in t.tracks ==>
            row.discogsPayload == t.tracks[r.trackId].discogsPayload
            && row.createdAt == t.tracks[r.trackId].createdAt)
      && (r.trackId !in t.tracks ==> row.discogsPayload.None? && row.createdAt == now)
      && u.tracks.Keys == t.tracks.Keys + {r.trackId}
      && (forall id :: id in t.tracks && id != r.trackId ==> u.tracks[id] == t.tracks[id])
      && u.(tracks := t.tracks) == t
  {
  }

  /** Upserting the same record twice leaves the row of the first call, with only `updated_at` moved on. */
  lemma UpsertTrackTwice(t: Tables, r: TrackRecord, now1: nat, now2: nat)
    ensures var once := UpsertTrack(t, r, now1);
      UpsertTrack(once, r, now2) == once.(tracks := once.tracks[r.trackId := once.tracks[r.trackId].(updatedAt := now2)])
  {
  }

  /** `link_soundcloud_source`: ensure the track, then replace its SoundCloud source row. */
  function LinkSoundcloudSource(t: Tables, r: SoundcloudSourceRecord, now: nat): Tables {
    var t1 := EnsureTrack(t, r.trackId, now);
    t1.(soundcloudSources := t1.soundcloudSources[
      r.trackId := SoundcloudSourceRow(r.soundcloudId, r.permalinkUrl, r.rawPayload, now)])
  }

  /** Linking never changes an existing track and replaces the whole source row. */
  lemma LinkSoundcloudSourceReplacesSource(t: Tables, r: SoundcloudSourceRecord, now: nat)
    ensures var u := LinkSoundcloudSource(t, r, now);
      && (r.trackId in t.tracks ==> u.tracks == t.tracks)
      && (r.trackId !in t.tracks ==> u.tracks == t.tracks[r.trackId := BareTrack(now)])
      && u.soundcloudSources == t.soundcloudSources[
           r.trackId := SoundcloudSourceRow(r.soundcloudId, r.permalinkUrl, r.rawPayload, now)]
      && u.(tracks := t.tracks, soundcloudSources := t.soundcloudSources) == t
  {
  }

  /** `sync_soundcloud_track`: upsert the track, then link its source. */
  function SyncSoundcloudTrack(t: Tables, track: TrackRecord, source: SoundcloudSourceRecord, now: nat): Tables {
    LinkSoundcloudSource(UpsertTrack(t, track, now), source, now)
  }

  /** When the source belongs to the upserted track, the track keeps every value of its record. */
  lemma SyncSoundcloudTrackKeepsRecord(t: Tables, track: TrackRecord, source: SoundcloudSourceRecord, now: nat)
    requires source.trackId == track.trackId
    ensures SyncSoundcloudTrack(t, track, source, now).tracks == UpsertTrack(t, track, now).tracks
  {
  }

  /** `record_local_asset`: ensure the track, replace its asset row, and store Rekordbox cues when given. */
  function RecordLocalAsset(t: Tables, r: LocalAssetRecord, now: nat): Tables {
    var t1 := EnsureTrack(t, r.trackId, now);
    var t2 := t1.(localAssets := t1.localAssets[
      r.trackId := LocalAssetRow(r.location, r.checksum, r.available, r.durationMs, now)]);
    if r.rekordboxCues.Some? then
      t2.(rekordboxSources := t2.rekordboxSources[r.trackId := RekordboxSourceRow(r.rekordboxCues.value, now)])
    else t2
  }

  /** The Rekordbox source row changes exactly when the record carries cues. */
  lemma RecordLocalAssetCues(t: Tables, r: LocalAssetRecord, now: nat)
    ensures var u := RecordLocalAsset(t, r, now);
      && u.localAssets[r.trackId] == LocalAssetRow(r.location, r.checksum, r.available, r.durationMs, now)
      && (r.rekordboxCues.None? ==> u.rekordboxSources == t.rekordboxSources)
      && (r.rekordboxCues.Some? ==> u.rekordboxSources[r.trackId].rawPayload == r.rekordboxCues.value)
      && u.tracks == EnsureTrack(t, r.trackId, now).tracks
  {
    var t1 := EnsureTrack(t, r.trackId, now);
    assert t1.rekordboxSources == t.rekordboxSources;
    var row := LocalAssetRow(r.location, r.checksum, r.available, r.durationMs, now);
    var t2 := t1.(localAssets := t1.localAssets[r.trackId := row]);
    assert t2.localAssets[r.trackId] == row && t2.tracks == t1.tracks;
    assert t2.rekordboxSources == t.rekordboxSources;
    if r.rekordboxCues.Some? {
      var u := t2.(rekordboxSources := t2.rekordboxSources[r.trackId := RekordboxSourceRow(r.rekordboxCues.value, now)]);
      assert RecordLocalAsset(t, r, now) == u;
      assert u.localAssets == t2.localAssets && u.tracks == t2.tracks;
    } else {
      assert RecordLocalAsset(t, r, now) == t2;
    }
  }

  // ---------------------------------------------------------------------------
  // Matches
  // ---------------------------------------------------------------------------

  /** The stored row of a match record: `COALESCE(:checked_at, datetime('now'))`. */
  function MatchRowOf(r: MatchRecord, now: nat): MatchRow {
    MatchRow(r.releaseId, r.confidence, r.status.AsStr(), r.query, r.message, r.checkedAt.UnwrapOr(now))
  }

  function CandidateRowOf(c: CandidateRecord): CandidateRow {
    CandidateRow(c.releaseId, c.score, c.rawPayload)
  }

  /** The rows of the candidates whose `match_id` is `id`, in order. */
  function RowsFor(candidates: seq<CandidateRecord>, id: string): (rows: seq<CandidateRow>)
    ensures |rows| <= |candidates|
  {
    if candidates == [] then []
    else
      var prefix := RowsFor(candidates[..|candidates| - 1], id);
      var last := candidates[|candidates| - 1];
      if last.matchId == id then prefix + [CandidateRowOf(last)] else prefix
  }

  /** Replaces the candidate group of `id`; an empty group leaves no key. */
  function SetGroup(table: map<string, seq<CandidateRow>>, id: string, rows: seq<CandidateRow>)
    : (r: map<string, seq<CandidateRow>>)
    ensures CandidatesOf(r, id) == rows
    ensures forall other :: other != id ==> CandidatesOf(r, other) == CandidatesOf(table, other)
  {
    if rows == [] then table - {id} else table[id := rows]
  }

  /** Inserting one more candidate row into a replaced group extends the replacement. */
  lemma SetGroupSnoc(table: map<string, seq<CandidateRow>>, id: string, rows: seq<CandidateRow>, row: CandidateRow)
    ensures var g := SetGroup(table, id, rows);
      g[id := CandidatesOf(g, id) + [row]] == SetGroup(table, id, rows + [row])
  {
  }

  /**
   * `persist_discogs_match`: ensure the track, upsert the match row, copy release
   * id and confidence to the track, then replace the candidates with those of
   * the passed ones whose `match_id` is the record's track.
   */
  function PersistDiscogsMatch(t: Tables, r: MatchRecord, candidates: seq<CandidateRecord>, now: nat): Tables {
    var t1 := EnsureTrack(t, r.trackId, now);
    var row := t1.tracks[r.trackId].(discogsReleaseId := r.releaseId, discogsConfidence := r.confidence, updatedAt := now);
    t1.(
      discogsMatches := t1.discogsMatches[r.trackId := MatchRowOf(r, now)],
      tracks := t1.tracks[r.trackId := row],
      discogsCandidates := SetGroup(t1.discogsCandidates, r.trackId, RowsFor(candidates, r.trackId)))
  }

  /** The match row, the track's copy and the candidate list all follow the record; old candidates are gone. */
  lemma PersistDiscogsMatchReplaces(t: Tables, r: MatchRecord, candidates: seq<CandidateRecord>, now: nat)
    ensures var u := PersistDiscogsMatch(t, r, candidates, now);
      && u.discogsMatches[r.trackId] == MatchRowOf(r, now)
      && r.trackId in u.tracks
      && u.tracks[r.trackId].discogsReleaseId == r.releaseId
      && u.tracks[r.trackId].discogsConfidence == r.confidence
      && CandidatesOf(u.discogsCandidates, r.trackId) == RowsFor(candidates, r.trackId)
      && (forall id :: id != r.trackId ==> CandidatesOf(u.discogsCandidates, id) == CandidatesOf(t.discogsCandidates, id))
      && (forall id :: id in t.discogsMatches && id != r.trackId ==> u.discogsMatches[id] == t.discogsMatches[id])
      && u.musicbrainzMatches == t.musicbrainzMatches && u.musicbrainzCandidates == t.musicbrainzCandidates
  {
  }

  /** RowsFor keeps exactly the candidates of the match, in order. */
  lemma {:induction false} RowsForAllMatching(candidates: seq<CandidateRecord>, id: string)
    requires forall k :: 0 <= k < |candidates| ==> candidates[k].matchId == id
    ensures RowsFor(candidates, id) == seq(|candidates|, k requires 0 <= k < |candidates| => CandidateRowOf(candidates[k]))
  {
    if candidates != [] {
      RowsForAllMatching(candidates[..|candidates| - 1], id);
    }
  }

  /** Why a write was refused and rolled back. */
  datatype LibraryError = ForeignKeyViolation(matchId: string)

  /** Appends each candidate to the group of its own `match_id`, in order. */
  function AppendCandidates(table: map<string, seq<CandidateRow>>, candidates: seq<CandidateRecord>)
    : map<string, seq<CandidateRow>>
  {
    if candidates == [] then table
    else
      var prefix := AppendCandidates(table, candidates[..|candidates| - 1]);
      var last := candidates[|candidates| - 1];
      prefix[last.matchId := CandidatesOf(prefix, last.matchId) + [CandidateRowOf(last)]]
  }

  /** The `match_id`s of a candidate list. */
  function MatchIds(candidates: seq<CandidateRecord>): (ids: set<string>)
    ensures forall k :: 0 <= k < |candidates| ==> candidates[k].matchId in ids
    ensures forall id :: id in ids ==> RowsFor(candidates, id) != []
  {
    if candidates == [] then {}
    else
      var init := candidates[..|candidates| - 1];
      var last := candidates[|candidates| - 1];
      var ids := MatchIds(init) + {last.matchId};
      assert forall k :: 0 <= k < |candidates| ==> candidates[k].matchId in ids by {
        forall k | 0 <= k < |candidates|
          ensures candidates[k].matchId in ids
        {
          if k < |init| {
            assert candidates[k] == init[k];
          }
        }
      }
      assert forall id :: id in ids ==> RowsFor(candidates, id) != [] by {
        forall id | id in ids
          ensures RowsFor(candidates, id) != []
        {
          if last.matchId == id {
            assert RowsFor(candidates, id) == RowsFor(init, id) + [CandidateRowOf(last)];
          } else {
            assert RowsFor(candidates, id) == RowsFor(init, id);
          }
        }
      }
      ids
  }

  lemma {:induction false} MatchIdsFrom(candidates: seq<CandidateRecord>, id: string)
    requires id in MatchIds(candidates)
    ensures exists k :: 0 <= k < |candidates| && candidates[k].matchId == id
  {
    var init := candidates[..|candidates| - 1];
    if id != candidates[|candidates| - 1].matchId {
      MatchIdsFrom(init, id);
      var k :| 0 <= k < |init| && init[k].matchId == id;
      assert candidates[k] == init[k];
    }
  }

  /** Each group grows by the rows of its own candidates, and only the candidates' groups appear. */
  lemma {:induction false} AppendCandidatesGroups(table: map<string, seq<CandidateRow>>,
                                                  candidates: seq<CandidateRecord>, id: string)
    ensures CandidatesOf(AppendCandidates(table, candidates), id) == CandidatesOf(table, id) + RowsFor(candidates, id)
    ensures AppendCandidates(table, candidates).Keys == table.Keys + MatchIds(candidates)
  {
    if candidates != [] {
      AppendCandidatesGroups(table, candidates[..|candidates| - 1], id);
    }
  }

  /** The first candidate, if any, whose `match_id` has no match row once the record is written. */
  function FirstOrphan(matchIds: set<string>, candidates: seq<CandidateRecord>): (r: Option<string>)
    ensures r.None? <==> forall k :: 0 <= k < |candidates| ==> candidates[k].matchId in matchIds
    ensures r.Some? ==> r.value !in matchIds
  {
    if candidates == [] then None
    else if candidates[0].matchId !in matchIds then Some(candidates[0].matchId)
    else
      var r := FirstOrphan(matchIds, candidates[1..]);
      assert forall k :: 1 <= k < |candidates| ==> candidates[k] == candidates[1..][k - 1];
      r
  }

  /** The orphan reported is the first candidate, in order, whose `match_id` has no match row. */
  lemma {:induction false} FirstOrphanAt(matchIds: set<string>, candidates: seq<CandidateRecord>, i: int)
    requires 0 <= i < |candidates| && candidates[i].matchId !in matchIds
    requires forall k :: 0 <= k < i ==> candidates[k].matchId in matchIds
    ensures FirstOrphan(matchIds, candidates) == Some(candidates[i].matchId)
  {
    if i > 0 {
      assert candidates[0].matchId in matchIds;
      FirstOrphanAt(matchIds, candidates[1..], i - 1);
    }
  }

  /**
   * `persist_musicbrainz_match` inside `record_musicbrainz_match`: like the
   * Discogs writer, except that each candidate is inserted under its own
   * `match_id` without any filter. With foreign keys on, a candidate whose
   * `match_id` has no match row fails the insert and the transaction is rolled
   * back.
   */
  function PersistMusicbrainzMatch(t: Tables, r: MatchRecord, candidates: seq<CandidateRecord>, now: nat)
    : Result<Tables, LibraryError>
  {
    var t1 := EnsureTrack(t, r.trackId, now);
    var matches := t1.musicbrainzMatches[r.trackId := MatchRowOf(r, now)];
    match FirstOrphan(matches.Keys, candidates)
    case Some(orphan) => Err(ForeignKeyViolation(orphan))
    case None =>
      var row := t1.tracks[r.trackId].(musicbrainzReleaseId := r.releaseId, musicbrainzConfidence := r.confidence,
                                       updatedAt := now);
      Ok(t1.(
        musicbrainzMatches := matches,
        tracks := t1.tracks[r.trackId := row],
        musicbrainzCandidates := AppendCandidates(t1.musicbrainzCandidates - {r.trackId}, candidates)))
  }

  /** The MusicBrainz writer is refused iff some candidate points at neither an existing match nor this one. */
  lemma PersistMusicbrainzAccepts(t: Tables, r: MatchRecord, candidates: seq<CandidateRecord>, now: nat)
    ensures PersistMusicbrainzMatch(t, r, candidates, now).Ok? <==>
      forall k :: 0 <= k < |candidates| ==>
        candidates[k].matchId in t.musicbrainzMatches || candidates[k].matchId == r.trackId
  {
    var t1 := EnsureTrack(t, r.trackId, now);
    var matches := t1.musicbrainzMatches[r.trackId := MatchRowOf(r, now)];
    assert matches.Keys == t.musicbrainzMatches.Keys + {r.trackId};
  }

  /** On success the record's own group is replaced and every other group only grows by its own candidates. */
  lemma PersistMusicbrainzMatchGroups(t: Tables, r: MatchRecord, candidates: seq<CandidateRecord>, now: nat)
    requires PersistMusicbrainzMatch(t, r, candidates, now).Ok?
    ensures var u := PersistMusicbrainzMatch(t, r, candidates, now).value;
      && u.musicbrainzMatches[r.trackId] == MatchRowOf(r, now)
      && u.tracks[r.trackId].musicbrainzReleaseId == r.releaseId
      && u.tracks[r.trackId].musicbrainzConfidence == r.confidence
      && CandidatesOf(u.musicbrainzCandidates, r.trackId) == RowsFor(candidates, r.trackId)
      && (forall id :: id != r.trackId ==>
            CandidatesOf(u.musicbrainzCandidates, id)
            == CandidatesOf(t.musicbrainzCandidates, id) + RowsFor(candidates, id))
      && u.discogsMatches == t.discogsMatches && u.discogsCandidates == t.discogsCandidates
  {
    var t1 := EnsureTrack(t, r.trackId, now);
    var u := PersistMusicbrainzMatch(t, r, candidates, now).value;
    var base := t1.musicbrainzCandidates - {r.trackId};
    assert u.musicbrainzCandidates == AppendCandidates(base, candidates);
    forall id
      ensures CandidatesOf(u.musicbrainzCandidates, id) == CandidatesOf(base, id) + RowsFor(candidates, id)
    {
      AppendCandidatesGroups(base, candidates, id);
    }
    assert CandidatesOf(base, r.trackId) == [];
    assert forall id :: id != r.trackId ==> CandidatesOf(base, id) == CandidatesOf(t.musicbrainzCandidates, id);
  }

  // ---------------------------------------------------------------------------
  // The success / ambiguity / failure wrappers
  // ---------------------------------------------------------------------------

  /** `release.get("score").and_then(as_f64)` */
  function ScoreOf(v: Json): Option<real> {
    AsF64(Get(v, "score"))
  }

  /** The candidate list of `record_*_ambiguity`: values without an extractable id are dropped. */
  function AmbiguityCandidates(trackId: string, values: seq<Json>): seq<CandidateRecord> {
    if values == [] then []
    else
      var prefix := AmbiguityCandidates(trackId, values[..|values| - 1]);
      var v := values[|values| - 1];
      match ExtractReleaseId(v)
      case None => prefix
      case Some(id) => prefix + [CandidateRecord(trackId, Some(id), ScoreOf(v), v)]
  }

  /** Ambiguity candidates are exactly the values with an id, each under the track, with its id and score. */
  lemma {:induction false} AmbiguityCandidatesKeepIds(trackId: string, values: seq<Json>)
    ensures var cs := AmbiguityCandidates(trackId, values);
      && |cs| <= |values|
      && (forall k :: 0 <= k < |cs| ==>
            cs[k].matchId == trackId && cs[k].releaseId.Some?
            && ExtractReleaseId(cs[k].rawPayload) == cs[k].releaseId
            && cs[k].score == ScoreOf(cs[k].rawPayload))
      && ((forall k :: 0 <= k < |values| ==> ExtractReleaseId(values[k]).Some?) ==> |cs| == |values|)
  {
    if values != [] {
      AmbiguityCandidatesKeepIds(trackId, values[..|values| - 1]);
    }
  }

  /** `record_discogs_success`: one candidate, scored by the release's own score or else the confidence. */
  function DiscogsSuccess(trackId: string, query: string, release: Json, confidence: real)
    : (MatchRecord, seq<CandidateRecord>)
  {
    var releaseId := ExtractReleaseId(release);
    var score := ScoreOf(release).Or(Some(confidence));
    (MatchRecord(trackId, releaseId, Some(confidence), Success, Some(query), None, None),
     [CandidateRecord(trackId, releaseId, score, release)])
  }

  /** `record_musicbrainz_success`: as for Discogs, but the candidate score is always the confidence. */
  function MusicbrainzSuccess(trackId: string, query: string, release: Json, confidence: real)
    : (MatchRecord, seq<CandidateRecord>)
  {
    var releaseId := ExtractReleaseId(release);
    (MatchRecord(trackId, releaseId, Some(confidence), Success, Some(query), None, None),
     [CandidateRecord(trackId, releaseId, Some(confidence), release)])
  }

  /** `record_discogs_ambiguity` / `record_musicbrainz_ambiguity` */
  function AmbiguityRecord(trackId: string, query: string, candidates: seq<Json>)
    : (MatchRecord, seq<CandidateRecord>)
  {
    (MatchRecord(trackId, None, None, Ambiguous, Some(query), None, None),
     AmbiguityCandidates(trackId, candidates))
  }

  /** `record_discogs_failure` / `record_musicbrainz_failure` */
  function FailureRecord(trackId: string, query: string, reason: string): (MatchRecord, seq<CandidateRecord>) {
    (MatchRecord(trackId, None, None, Error, Some(query), Some(reason), None), [])
  }

  /** What a Discogs success leaves in the store. */
  lemma DiscogsSuccessStored(t: Tables, trackId: string, query: string, release: Json, confidence: real, now: nat)
    ensures var (r, cs) := DiscogsSuccess(trackId, query, release, confidence);
      var u := PersistDiscogsMatch(t, r, cs, now);
      && u.discogsMatches[trackId].status == "success"
      && u.discogsMatches[trackId].confidence == Some(confidence)
      && u.discogsMatches[trackId].releaseId == ExtractReleaseId(release)
      && u.discogsMatches[trackId].message.None?
      && u.discogsMatches[trackId].query == Some(query)
      && CandidatesOf(u.discogsCandidates, trackId)
         == [CandidateRow(ExtractReleaseId(release),
                          if ScoreOf(release).Some? then ScoreOf(release) else Some(confidence), release)]
  {
    var (r, cs) := DiscogsSuccess(trackId, query, release, confidence);
    PersistDiscogsMatchReplaces(t, r, cs, now);
    assert cs == cs[..0] + [cs[0]];
  }

  /** What a MusicBrainz success leaves in the store: it is never refused. */
  lemma MusicbrainzSuccessStored(t: Tables, trackId: string, query: string, release: Json, confidence: real, now: nat)
    ensures var (r, cs) := MusicbrainzSuccess(trackId, query, release, confidence);
      var res := PersistMusicbrainzMatch(t, r, cs, now);
      && res.Ok?
      && res.value.musicbrainzMatches[trackId].status == "success"
      && res.value.musicbrainzMatches[trackId].confidence == Some(confidence)
      && res.value.musicbrainzMatches[trackId].releaseId == ExtractReleaseId(release)
      && CandidatesOf(res.value.musicbrainzCandidates, trackId)
         == [CandidateRow(ExtractReleaseId(release), Some(confidence), release)]
  {
    var (r, cs) := MusicbrainzSuccess(trackId, query, release, confidence);
    PersistMusicbrainzAccepts(t, r, cs, now);
    PersistMusicbrainzMatchGroups(t, r, cs, now);
    assert cs == cs[..0] + [cs[0]];
  }

  /** An ambiguity stores no release id or confidence and only candidates with an id. */
  lemma AmbiguityStored(t: Tables, trackId: string, query: string, values: seq<Json>, now: nat)
    ensures var (r, cs) := AmbiguityRecord(trackId, query, values);
      var u := PersistDiscogsMatch(t, r, cs, now);
      var res := PersistMusicbrainzMatch(t, r, cs, now);
      && u.discogsMatches[trackId] == MatchRow(None, None, "ambiguous", Some(query), None, now)
      && u.tracks[trackId].discogsReleaseId.None? && u.tracks[trackId].discogsConfidence.None?
      && (forall row :: row in CandidatesOf(u.discogsCandidates, trackId) ==> row.releaseId.Some?)
      && res.Ok?
      && res.value.musicbrainzMatches[trackId] == MatchRow(None, None, "ambiguous", Some(query), None, now)
      && (forall row :: row in CandidatesOf(res.value.musicbrainzCandidates, trackId) ==> row.releaseId.Some?)
  {
    var (r, cs) := AmbiguityRecord(trackId, query, values);
    AmbiguityCandidatesKeepIds(trackId, values);
    RowsForAllMatching(cs, trackId);
    PersistDiscogsMatchReplaces(t, r, cs, now);
    PersistMusicbrainzAccepts(t, r, cs, now);
    PersistMusicbrainzMatchGroups(t, r, cs, now);
  }

  /** A failure stores the reason as message and leaves no candidates. */
  lemma FailureStored(t: Tables, trackId: string, query: string, reason: string, now: nat)
    ensures var (r, cs) := FailureRecord(trackId, query, reason);
      var u := PersistDiscogsMatch(t, r, cs, now);
      var res := PersistMusicbrainzMatch(t, r, cs, now);
      && u.discogsMatches[trackId] == MatchRow(None, None, "error", Some(query), Some(reason), now)
      && CandidatesOf(u.discogsCandidates, trackId) == []
      && res.Ok?
      && res.value.musicbrainzMatches[trackId] == MatchRow(None, None, "error", Some(query), Some(reason), now)
      && CandidatesOf(res.value.musicbrainzCandidates, trackId) == []
  {
    var (r, cs) := FailureRecord(trackId, query, reason);
    PersistDiscogsMatchReplaces(t, r, cs, now);
    PersistMusicbrainzAccepts(t, r, cs, now);
    PersistMusicbrainzMatchGroups(t, r, cs, now);
  }

  // ---------------------------------------------------------------------------
  // Deleting tracks
  // ---------------------------------------------------------------------------

  /** The mappings that survive deleting the tracks `ids`. */
  function MappingsWithout(mappings: map<string, MappingRow>, ids: set<string>): map<string, MappingRow> {
    map rid | rid in mappings && mappings[rid].trackId !in ids :: mappings[rid]
  }

  /**
   * `DELETE FROM tracks WHERE id IN ids` with every `ON DELETE CASCADE`:
   * sources, assets, mappings and matches of those tracks go, and with a
   * match row its candidates.
   */
  function DeleteTracks(t: Tables, ids: set<string>): Tables {
    t.(
      tracks := t.tracks - ids,
      soundcloudSources := t.soundcloudSources - ids,
      rekordboxSources := t.rekordboxSources - ids,
      localAssets := t.localAssets - ids,
      rekordboxMappings := MappingsWithout(t.rekordboxMappings, ids),
      discogsMatches := t.discogsMatches - ids,
      discogsCandidates := t.discogsCandidates - (ids * t.discogsMatches.Keys),
      musicbrainzMatches := t.musicbrainzMatches - ids,
      musicbrainzCandidates := t.musicbrainzCandidates - (ids * t.musicbrainzMatches.Keys))
  }

  lemma CascadeCompose(c: map<string, seq<CandidateRow>>, m: set<string>, a: set<string>, b: set<string>)
    ensures (c - (a * m)) - (b * (m - a)) == c - ((a + b) * m)
  {
  }

  lemma MappingsCompose(mappings: map<string, MappingRow>, a: set<string>, b: set<string>)
    ensures MappingsWithout(MappingsWithout(mappings, a), b) == MappingsWithout(mappings, a + b)
  {
  }

  /** Deleting in two rounds is deleting the union: the order of deletions does not matter. */
  lemma DeleteTracksCompose(t: Tables, a: set<string>, b: set<string>)
    ensures DeleteTracks(DeleteTracks(t, a), b) == DeleteTracks(t, a + b)
  {
    var once, union := DeleteTracks(t, a), DeleteTracks(t, a + b);
    var twice := DeleteTracks(once, b);
    assert once.discogsMatches.Keys == t.discogsMatches.Keys - a;
    assert once.musicbrainzMatches.Keys == t.musicbrainzMatches.Keys - a;
    CascadeCompose(t.discogsCandidates, t.discogsMatches.Keys, a, b);
    CascadeCompose(t.musicbrainzCandidates, t.musicbrainzMatches.Keys, a, b);
    MappingsCompose(t.rekordboxMappings, a, b);
    MinusCompose(t.tracks, a, b);
    MinusCompose(t.soundcloudSources, a, b);
    MinusCompose(t.rekordboxSources, a, b);
    MinusCompose(t.localAssets, a, b);
    MinusCompose(t.discogsMatches, a, b);
    MinusCompose(t.musicbrainzMatches, a, b);
  }

  lemma MinusCompose<V>(m: map<string, V>, a: set<string>, b: set<string>)
    ensures (m - a) - b == m - (a + b)
  {
  }

  /** Deleting no track changes nothing. */
  lemma DeleteNothing(t: Tables)
    ensures DeleteTracks(t, {}) == t
  {
    assert MappingsWithout(t.rekordboxMappings, {}) == t.rekordboxMappings;
  }

  /** With the foreign keys intact, nothing refers to a deleted track afterwards. */
  lemma DeleteTracksCascades(t: Tables, ids: set<string>)
    requires ForeignKeysHold(t)
    ensures var u := DeleteTracks(t, ids);
      && ForeignKeysHold(u)
      && (forall id :: id in ids ==>
            id !in u.tracks && id !in u.soundcloudSources && id !in u.rekordboxSources
            && id !in u.localAssets && id !in u.discogsMatches && id !in u.musicbrainzMatches
            && CandidatesOf(u.discogsCandidates, id) == [] && CandidatesOf(u.musicbrainzCandidates, id) == [])
      && (forall r :: r in u.rekordboxMappings ==> u.rekordboxMappings[r].trackId !in ids)
      && (forall id :: id in t.tracks && id !in ids ==> id in u.tracks && u.tracks[id] == t.tracks[id])
  {
  }

  // ---------------------------------------------------------------------------
  // Referential integrity is preserved
  // ---------------------------------------------------------------------------

  /** Upserts and writers keep every foreign key satisfied. */
  lemma EnsureTrackKeepsForeignKeys(t: Tables, id: string, now: nat)
    requires ForeignKeysHold(t)
    ensures ForeignKeysHold(EnsureTrack(t, id, now))
  {
  }

  lemma UpsertTrackKeepsForeignKeys(t: Tables, r: TrackRecord, now: nat)
    requires ForeignKeysHold(t)
    ensures ForeignKeysHold(UpsertTrack(t, r, now))
  {
  }

  lemma LinkSoundcloudSourceKeepsForeignKeys(t: Tables, r: SoundcloudSourceRecord, now: nat)
    requires ForeignKeysHold(t)
    ensures ForeignKeysHold(LinkSoundcloudSource(t, r, now))
  {
    var t1 := EnsureTrack(t, r.trackId, now);
    EnsureTrackKeepsForeignKeys(t, r.trackId, now);
    assert r.trackId in t1.tracks;
    var sources := t1.soundcloudSources[r.trackId := SoundcloudSourceRow(r.soundcloudId, r.permalinkUrl, r.rawPayload, now)];
    assert sources.Keys <= t1.tracks.Keys;
    var u := t1.(soundcloudSources := sources);
    assert LinkSoundcloudSource(t, r, now) == u;
    assert u.tracks == t1.tracks && u.rekordboxSources == t1.rekordboxSources && u.localAssets == t1.localAssets;
    assert u.rekordboxMappings == t1.rekordboxMappings;
    assert u.discogsMatches == t1.discogsMatches && u.discogsCandidates == t1.discogsCandidates;
    assert u.musicbrainzMatches == t1.musicbrainzMatches && u.musicbrainzCandidates == t1.musicbrainzCandidates;
  }

  lemma RecordLocalAssetKeepsForeignKeys(t: Tables, r: LocalAssetRecord, now: nat)
    requires ForeignKeysHold(t)
    ensures ForeignKeysHold(RecordLocalAsset(t, r, now))
  {
    var t1 := EnsureTrack(t, r.trackId, now);
    EnsureTrackKeepsForeignKeys(t, r.trackId, now);
    var t2 := t1.(localAssets := t1.localAssets[
      r.trackId := LocalAssetRow(r.location, r.checksum, r.available, r.durationMs, now)]);
    assert ForeignKeysHold(t2);
    if r.rekordboxCues.Some? {
      var u := t2.(rekordboxSources := t2.rekordboxSources[r.trackId := RekordboxSourceRow(r.rekordboxCues.value, now)]);
      assert RecordLocalAsset(t, r, now) == u;
      assert ForeignKeysHold(u);
    }
  }

  lemma PersistDiscogsKeepsForeignKeys(t: Tables, r: MatchRecord, candidates: seq<CandidateRecord>, now: nat)
    requires ForeignKeysHold(t)
    ensures ForeignKeysHold(PersistDiscogsMatch(t, r, candidates, now))
  {
    var t1 := EnsureTrack(t, r.trackId, now);
    EnsureTrackKeepsForeignKeys(t, r.trackId, now);
    var u := PersistDiscogsMatch(t, r, candidates, now);
    assert u.tracks.Keys == t1.tracks.Keys;
    assert u.discogsMatches.Keys == t1.discogsMatches.Keys + {r.trackId};
    assert u.discogsCandidates.Keys <= t1.discogsCandidates.Keys + {r.trackId};
  }

  lemma PersistMusicbrainzKeepsForeignKeys(t: Tables, r: MatchRecord, candidates: seq<CandidateRecord>, now: nat)
    requires ForeignKeysHold(t)
    ensures PersistMusicbrainzMatch(t, r, candidates, now).Ok? ==>
      ForeignKeysHold(PersistMusicbrainzMatch(t, r, candidates, now).value)
  {
    var t1 := EnsureTrack(t, r.trackId, now);
    EnsureTrackKeepsForeignKeys(t, r.trackId, now);
    var matches := t1.musicbrainzMatches[r.trackId := MatchRowOf(r, now)];
    if FirstOrphan(matches.Keys, candidates).None? {
      var base := t1.musicbrainzCandidates - {r.trackId};
      AppendCandidatesGroups(base, candidates, r.trackId);
      var u := PersistMusicbrainzMatch(t, r, candidates, now).value;
      assert u.musicbrainzCandidates.Keys == base.Keys + MatchIds(candidates);
      assert MatchIds(candidates) <= matches.Keys by {
        forall m | m in MatchIds(candidates) ensures m in matches.Keys {
          MatchIdsFrom(candidates, m);
        }
      }
      assert u.tracks.Keys == t1.tracks.Keys;
    }
  }
}
