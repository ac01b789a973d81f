/**
 * `LibraryStore::sync_rekordbox_tracks` (library/mod.rs) as a function on
 * tables: every imported track reuses the track id its Rekordbox id is mapped
 * to, or gets `rekordbox:<id>`; afterwards the tracks of mappings not seen in
 * the import are deleted, with everything that cascades from them.
 */
module LibrarySync {
  import opened Wrappers
  import opened Json
  import opened Library
  import opened Rekordbox

  const RekordboxPrefix: string := "rekordbox:"

  /** The track id minted for a Rekordbox id seen for the first time. */
  function MintedId(rekordboxId: string): string {
    RekordboxPrefix + rekordboxId
  }

  /** Different Rekordbox ids never get the same minted track id. */
  lemma MintedIdInjective(a: string, b: string)
    requires MintedId(a) == MintedId(b)
    ensures a == b
  {
    assert MintedId(a)[|RekordboxPrefix|..] == a;
    assert MintedId(b)[|RekordboxPrefix|..] == b;
  }

  /** `existing_map.get(id).cloned().unwrap_or_else(|| format!("rekordbox:{id}"))` */
  function AssignedId(mappings: map<string, MappingRow>, rekordboxId: string): string {
    if rekordboxId in mappings then mappings[rekordboxId].trackId else MintedId(rekordboxId)
  }

  /** `u64 as i64`: values above `i64::MAX` wrap to negative numbers. */
  function U64AsI64(v: nat): (r: int)
    ensures I64_MIN <= r <= I64_MAX
    ensures v <= I64_MAX ==> r == v
  {
    (v + 0x8000_0000_0000_0000) % 0x1_0000_0000_0000_0000 - 0x8000_0000_0000_0000
  }

  /** A cue as serde serialises `RekordboxCue`: absent optional fields are skipped. */
  function CuePayload(c: RekordboxCue): Json {
    var base := map["slot" := Int(c.slot), "position_ms" := Int(c.positionMs)];
    var withName := if c.name.Some? then base["name" := Str(c.name.value)] else base;
    var withColor := if c.color.Some? then withName["color" := Str(c.color.value)] else withName;
    var withType := if c.cueType.Some? then withColor["cue_type" := Str(c.cueType.value)] else withColor;
    Obj(withType)
  }

  /** The `raw_payload` written to `rekordbox_sources` for an imported track. */
  function SyncPayload(track: RekordboxTrack, trackId: string): Json {
    Obj(map[
      "rekordbox_id" := Str(track.rekordboxId),
      "track_reference" := OptStr(track.trackReference),
      "track_id" := Str(trackId),
      "title" := OptStr(track.title),
      "artist" := OptStr(track.artist),
      "album" := OptStr(track.album),
      "location" := OptStr(track.location),
      "normalized_path" := OptStr(track.normalizedPath),
      "checksum" := OptStr(track.checksum),
      "duration_ms" := if track.durationMs.Some? then Int(track.durationMs.value) else Null,
      "available" := Bool(track.available),
      "cues" := Arr(seq(|track.cues|, k requires 0 <= k < |track.cues| => CuePayload(track.cues[k])))])
  }

  /** The track row after importing: title, artist and album overwritten, other columns kept. */
  function ImportedRow(tracks: map<string, TrackRow>, id: string, track: RekordboxTrack, now: nat): TrackRow {
    if id in tracks then tracks[id].(title := track.title, artist := track.artist, album := track.album, updatedAt := now)
    else TrackRow(track.title, track.artist, track.album, None, None, None, None, None, None, now, now)
  }

  /** Step 1 of the loop body: the `tracks` upsert. */
  function ImportTrackRow(t: Tables, id: string, track: RekordboxTrack, now: nat): Tables {
    t.(tracks := t.tracks[id := ImportedRow(t.tracks, id, track, now)])
  }

  /** Step 2: the `rekordbox_mappings` upsert. */
  function ImportMapping(t: Tables, rekordboxId: string, id: string, now: nat): Tables {
    t.(rekordboxMappings := t.rekordboxMappings[rekordboxId := MappingRow(id, now)])
  }

  /** Step 3: `record_local_asset`, only when the track has a location or a normalised path. */
  function ImportAsset(t: Tables, id: string, track: RekordboxTrack, now: nat): Tables {
    var location := track.location.Or(track.normalizedPath);
    if location.Some? then
      var durationMs := if track.durationMs.Some? then Some(U64AsI64(track.durationMs.value)) else None;
      t.(localAssets := t.localAssets[id := LocalAssetRow(location.value, track.checksum, track.available, durationMs, now)])
    else t
  }

  /** Step 4: the `rekordbox_sources` upsert. */
  function ImportSource(t: Tables, id: string, track: RekordboxTrack, now: nat): Tables {
    t.(rekordboxSources := t.rekordboxSources[id := RekordboxSourceRow(SyncPayload(track, id), now)])
  }

  /** The body of the import loop for one track. */
  function ImportOne(t: Tables, track: RekordboxTrack, now: nat): Tables {
    var id := AssignedId(t.rekordboxMappings, track.rekordboxId);
    ImportSource(ImportAsset(ImportMapping(ImportTrackRow(t, id, track, now), track.rekordboxId, id, now), id, track, now), id, track, now)
  }

  /** The import loop over all tracks, in order. */
  function ImportAll(t: Tables, tracks: seq<RekordboxTrack>, now: nat): Tables {
    if tracks == [] then t
    else ImportOne(ImportAll(t, tracks[..|tracks| - 1], now), tracks[|tracks| - 1], now)
  }

  /** The Rekordbox ids of an import. */
  function InputIds(tracks: seq<RekordboxTrack>): set<string> {
    set k | 0 <= k < |tracks| :: tracks[k].rekordboxId
  }

  lemma InputIdsSnoc(tracks: seq<RekordboxTrack>)
    requires tracks != []
    ensures InputIds(tracks) == InputIds(tracks[..|tracks| - 1]) + {tracks[|tracks| - 1].rekordboxId}
  {
    var init := tracks[..|tracks| - 1];
    forall r | r in InputIds(tracks) ensures r in InputIds(init) + {tracks[|tracks| - 1].rekordboxId} {
      var k :| 0 <= k < |tracks| && tracks[k].rekordboxId == r;
      if k < |init| { assert init[k] == tracks[k]; }
    }
    forall r | r in InputIds(init) ensures r in InputIds(tracks) {
      var k :| 0 <= k < |init| && init[k].rekordboxId == r;
      assert tracks[k] == init[k];
    }
  }

  /** The values left in `stale_map`: track ids of mappings whose Rekordbox id was not imported. */
  function StaleIds(mappings: map<string, MappingRow>, tracks: seq<RekordboxTrack>): set<string> {
    set r | r in mappings && r !in InputIds(tracks) :: mappings[r].trackId
  }

  /** `sync_rekordbox_tracks`: import everything, then delete the stale tracks. */
  function SyncRekordboxTracks(t: Tables, tracks: seq<RekordboxTrack>, now: nat): Tables {
    DeleteTracks(ImportAll(t, tracks, now), StaleIds(t.rekordboxMappings, tracks))
  }

  /** One import step leaves the id every Rekordbox id would be assigned unchanged. */
  lemma ImportOneKeepsAssignment(t: Tables, track: RekordboxTrack, now: nat)
    ensures var u := ImportOne(t, track, now);
      && (forall r :: AssignedId(u.rekordboxMappings, r) == AssignedId(t.rekordboxMappings, r))
      && u.rekordboxMappings.Keys == t.rekordboxMappings.Keys + {track.rekordboxId}
      && u.tracks.Keys == t.tracks.Keys + {AssignedId(t.rekordboxMappings, track.rekordboxId)}
  {
    var id := AssignedId(t.rekordboxMappings, track.rekordboxId);
    var t2 := ImportMapping(ImportTrackRow(t, id, track, now), track.rekordboxId, id, now);
    var u := ImportOne(t, track, now);
    assert u.rekordboxMappings == t2.rekordboxMappings && u.tracks == t2.tracks;
  }

  /** The import loop leaves the id every Rekordbox id would be assigned unchanged. */
  lemma {:induction false} ImportAllKeepsAssignment(t: Tables, tracks: seq<RekordboxTrack>, now: nat)
    ensures var u := ImportAll(t, tracks, now);
      && (forall r :: AssignedId(u.rekordboxMappings, r) == AssignedId(t.rekordboxMappings, r))
      && u.rekordboxMappings.Keys == t.rekordboxMappings.Keys + InputIds(tracks)
  {
    if tracks != [] {
      var prev := ImportAll(t, tracks[..|tracks| - 1], now);
      ImportAllKeepsAssignment(t, tracks[..|tracks| - 1], now);
      ImportOneKeepsAssignment(prev, tracks[|tracks| - 1], now);
      InputIdsSnoc(tracks);
    }
  }

  /**
   * The import loop maps every imported Rekordbox id to the id it was assigned
   * before the loop (reused or minted) and creates that track.
   */
  lemma {:induction false} ImportAllAssigns(t: Tables, tracks: seq<RekordboxTrack>, now: nat)
    ensures var u := ImportAll(t, tracks, now);
      && (forall r :: AssignedId(u.rekordboxMappings, r) == AssignedId(t.rekordboxMappings, r))
      && u.rekordboxMappings.Keys == t.rekordboxMappings.Keys + InputIds(tracks)
      && (forall k :: 0 <= k < |tracks| ==> AssignedId(t.rekordboxMappings, tracks[k].rekordboxId) in u.tracks)
      && t.tracks.Keys <= u.tracks.Keys
  {
    ImportAllKeepsAssignment(t, tracks, now);
    ImportAllKeepsTracks(t, tracks, now);
    forall k | 0 <= k < |tracks|
      ensures AssignedId(t.rekordboxMappings, tracks[k].rekordboxId) in ImportAll(t, tracks, now).tracks
    {
      ImportAllCreatesTrack(t, tracks, now, k);
    }
  }

  lemma {:induction false} ImportAllKeepsTracks(t: Tables, tracks: seq<RekordboxTrack>, now: nat)
    ensures t.tracks.Keys <= ImportAll(t, tracks, now).tracks.Keys
  {
    if tracks != [] {
      var prev := ImportAll(t, tracks[..|tracks| - 1], now);
      ImportAllKeepsTracks(t, tracks[..|tracks| - 1], now);
      ImportOneKeepsAssignment(prev, tracks[|tracks| - 1], now);
    }
  }

  lemma {:induction false} ImportAllCreatesTrack(t: Tables, tracks: seq<RekordboxTrack>, now: nat, k: int)
    requires 0 <= k < |tracks|
    ensures AssignedId(t.rekordboxMappings, tracks[k].rekordboxId) in ImportAll(t, tracks, now).tracks
  {
    var init := tracks[..|tracks| - 1];
    var prev := ImportAll(t, init, now);
    ImportOneKeepsAssignment(prev, tracks[|tracks| - 1], now);
    if k == |tracks| - 1 {
      ImportAllKeepsAssignment(t, init, now);
      assert AssignedId(prev.rekordboxMappings, tracks[k].rekordboxId) == AssignedId(t.rekordboxMappings, tracks[k].rekordboxId);
    } else {
      assert tracks[k] == init[k];
      ImportAllCreatesTrack(t, init, now, k);
    }
  }

  /**
   * After a sync each imported Rekordbox id maps to its previously mapped track
   * id, or to `rekordbox:<id>` if it had none, unless that track was itself stale.
   */
  lemma SyncAssignsIds(t: Tables, tracks: seq<RekordboxTrack>, now: nat, k: int)
    requires 0 <= k < |tracks|
    requires AssignedId(t.rekordboxMappings, tracks[k].rekordboxId) !in StaleIds(t.rekordboxMappings, tracks)
    ensures var u := SyncRekordboxTracks(t, tracks, now);
      var rid := tracks[k].rekordboxId;
      && rid in u.rekordboxMappings
      && u.rekordboxMappings[rid].trackId == (if rid in t.rekordboxMappings then t.rekordboxMappings[rid].trackId
                                               else MintedId(rid))
      && u.rekordboxMappings[rid].trackId in u.tracks
  {
    ImportAllAssigns(t, tracks, now);
    var imported := ImportAll(t, tracks, now);
    var rid := tracks[k].rekordboxId;
    assert rid in InputIds(tracks);
    assert rid in imported.rekordboxMappings;
    assert AssignedId(imported.rekordboxMappings, rid) == AssignedId(t.rekordboxMappings, rid);
  }

  lemma ImportTrackRowKeepsForeignKeys(t: Tables, id: string, track: RekordboxTrack, now: nat)
    requires ForeignKeysHold(t)
    ensures ForeignKeysHold(ImportTrackRow(t, id, track, now))
  {
  }

  lemma ImportMappingKeepsForeignKeys(t: Tables, id: string, track: RekordboxTrack, now: nat)
    requires ForeignKeysHold(t) && id in t.tracks
    ensures ForeignKeysHold(ImportMapping(t, track.rekordboxId, id, now))
  {
  }

  lemma ImportAssetKeepsForeignKeys(t: Tables, id: string, track: RekordboxTrack, now: nat)
    requires ForeignKeysHold(t) && id in t.tracks
    ensures ForeignKeysHold(ImportAsset(t, id, track, now))
  {
  }

  lemma ImportSourceKeepsForeignKeys(t: Tables, id: string, track: RekordboxTrack, now: nat)
    requires ForeignKeysHold(t) && id in t.tracks
    ensures ForeignKeysHold(ImportSource(t, id, track, now))
  {
  }

  lemma ImportOneKeepsForeignKeys(t: Tables, track: RekordboxTrack, now: nat)
    requires ForeignKeysHold(t)
    ensures ForeignKeysHold(ImportOne(t, track, now))
  {
    var id := AssignedId(t.rekordboxMappings, track.rekordboxId);
    var t1 := ImportTrackRow(t, id, track, now);
    ImportTrackRowKeepsForeignKeys(t, id, track, now);
    var t2 := ImportMapping(t1, track.rekordboxId, id, now);
    ImportMappingKeepsForeignKeys(t1, id, track, now);
    var t3 := ImportAsset(t2, id, track, now);
    ImportAssetKeepsForeignKeys(t2, id, track, now);
    ImportSourceKeepsForeignKeys(t3, id, track, now);
  }

  lemma {:induction false} ImportAllKeepsForeignKeys(t: Tables, tracks: seq<RekordboxTrack>, now: nat)
    requires ForeignKeysHold(t)
    ensures ForeignKeysHold(ImportAll(t, tracks, now))
  {
    if tracks != [] {
      ImportAllKeepsForeignKeys(t, tracks[..|tracks| - 1], now);
      ImportOneKeepsForeignKeys(ImportAll(t, tracks[..|tracks| - 1], now), tracks[|tracks| - 1], now);
    }
  }

  /**
   * Every track of a mapping the import did not mention is gone after a sync,
   * together with its sources, asset, matches, candidates and mappings.
   */
  lemma SyncDeletesStale(t: Tables, tracks: seq<RekordboxTrack>, now: nat)
    requires ForeignKeysHold(t)
    ensures var u := SyncRekordboxTracks(t, tracks, now);
      && ForeignKeysHold(u)
      && (forall r :: r in t.rekordboxMappings && r !in InputIds(tracks) ==>
            var id := t.rekordboxMappings[r].trackId;
            && id !in u.tracks && id !in u.soundcloudSources && id !in u.rekordboxSources
            && id !in u.localAssets && id !in u.discogsMatches && id !in u.musicbrainzMatches
            && CandidatesOf(u.discogsCandidates, id) == [] && CandidatesOf(u.musicbrainzCandidates, id) == [])
      && (forall r :: r in u.rekordboxMappings ==> u.rekordboxMappings[r].trackId !in StaleIds(t.rekordboxMappings, tracks))
  {
    ImportAllKeepsForeignKeys(t, tracks, now);
    DeleteTracksCascades(ImportAll(t, tracks, now), StaleIds(t.rekordboxMappings, tracks));
    forall r | r in t.rekordboxMappings && r !in InputIds(tracks)
      ensures t.rekordboxMappings[r].trackId in StaleIds(t.rekordboxMappings, tracks)
    {
    }
  }

  /** Every mapping points at the track minted from its own Rekordbox id. */
  predicate CanonicalMappings(t: Tables) {
    forall r :: r in t.rekordboxMappings ==> t.rekordboxMappings[r].trackId == MintedId(r)
  }

  /**
   * With canonical mappings (which is all a sync ever writes), a sync maps
   * exactly the imported ids, each to `rekordbox:<id>`, and keeps them canonical.
   */
  lemma SyncCanonical(t: Tables, tracks: seq<RekordboxTrack>, now: nat)
    requires CanonicalMappings(t)
    ensures var u := SyncRekordboxTracks(t, tracks, now);
      && CanonicalMappings(u)
      && u.rekordboxMappings.Keys == InputIds(tracks)
      && (forall r :: r in InputIds(tracks) ==> MintedId(r) in u.tracks)
  {
    var imported := ImportAll(t, tracks, now);
    ImportAllCanonical(t, tracks, now);
    CanonicalStale(t, tracks);
    var u := SyncRekordboxTracks(t, tracks, now);
    assert u.rekordboxMappings.Keys == InputIds(tracks);
  }

  /** The import loop of a canonical store maps every imported id to its minted track, which it creates. */
  lemma ImportAllCanonical(t: Tables, tracks: seq<RekordboxTrack>, now: nat)
    requires CanonicalMappings(t)
    ensures var imported := ImportAll(t, tracks, now);
      && CanonicalMappings(imported)
      && imported.rekordboxMappings.Keys == t.rekordboxMappings.Keys + InputIds(tracks)
      && (forall r :: r in InputIds(tracks) ==> MintedId(r) in imported.tracks)
  {
    ImportAllAssigns(t, tracks, now);
    var imported := ImportAll(t, tracks, now);
    forall r | r in imported.rekordboxMappings
      ensures imported.rekordboxMappings[r].trackId == MintedId(r)
    {
      assert AssignedId(imported.rekordboxMappings, r) == AssignedId(t.rekordboxMappings, r);
    }
    forall r | r in InputIds(tracks) ensures MintedId(r) in imported.tracks {
      var k :| 0 <= k < |tracks| && tracks[k].rekordboxId == r;
      assert AssignedId(t.rekordboxMappings, r) == MintedId(r);
    }
  }

  /** With canonical mappings the stale tracks are exactly those minted from ids no longer imported. */
  lemma CanonicalStale(t: Tables, tracks: seq<RekordboxTrack>)
    requires CanonicalMappings(t)
    ensures forall r :: r in InputIds(tracks) ==> MintedId(r) !in StaleIds(t.rekordboxMappings, tracks)
    ensures forall r :: r in t.rekordboxMappings && r !in InputIds(tracks) ==> MintedId(r) in StaleIds(t.rekordboxMappings, tracks)
  {
    var stale := StaleIds(t.rekordboxMappings, tracks);
    forall r | r in InputIds(tracks) ensures MintedId(r) !in stale {
      if MintedId(r) in stale {
        var s :| s in t.rekordboxMappings && s !in InputIds(tracks) && t.rekordboxMappings[s].trackId == MintedId(r);
        MintedIdInjective(s, r);
      }
    }
    forall r | r in t.rekordboxMappings && r !in InputIds(tracks) ensures MintedId(r) in stale {
      assert t.rekordboxMappings[r].trackId == MintedId(r);
    }
  }

  /** Re-running a sync with the same list deletes nothing and changes no id. */
  lemma SyncRerunStable(t: Tables, tracks: seq<RekordboxTrack>, now1: nat, now2: nat)
    requires CanonicalMappings(t)
    ensures var once := SyncRekordboxTracks(t, tracks, now1);
      var twice := SyncRekordboxTracks(once, tracks, now2);
      && StaleIds(once.rekordboxMappings, tracks) == {}
      && twice.rekordboxMappings.Keys == once.rekordboxMappings.Keys
      && (forall r :: r in once.rekordboxMappings ==>
            twice.rekordboxMappings[r].trackId == once.rekordboxMappings[r].trackId)
      && twice.tracks.Keys == once.tracks.Keys
  {
    var once := SyncRekordboxTracks(t, tracks, now1);
    SyncCanonical(t, tracks, now1);
    SyncCanonical(once, tracks, now2);
    assert StaleIds(once.rekordboxMappings, tracks) == {};
    ImportAllAssigns(once, tracks, now2);
    var imported := ImportAll(once, tracks, now2);
    forall id | id in imported.tracks ensures id in once.tracks {
      ImportAllTrackIds(once, tracks, now2, id);
    }
  }

  /** The import loop creates only tracks that imported Rekordbox ids are assigned to. */
  lemma {:induction false} ImportAllTrackIds(t: Tables, tracks: seq<RekordboxTrack>, now: nat, id: string)
    requires id in ImportAll(t, tracks, now).tracks
    requires CanonicalMappings(t) && (forall r :: r in InputIds(tracks) ==> MintedId(r) in t.tracks)
    ensures id in t.tracks
  {
    if tracks != [] {
      var init := tracks[..|tracks| - 1];
      var last := tracks[|tracks| - 1];
      InputIdsSnoc(tracks);
      ImportAllAssigns(t, init, now);
      var prev := ImportAll(t, init, now);
      ImportOneKeepsAssignment(prev, last, now);
      if id != MintedId(last.rekordboxId) {
        ImportAllTrackIds(t, init, now, id);
      }
    }
  }
}
