/**
 * The two legacy-payload migrations run when the store opens
 * (`migrate_discogs_payloads`, `migrate_musicbrainz_payloads` in
 * library/mod.rs). Older versions kept a whole lookup result as JSON in
 * `tracks.discogs_payload` / `tracks.musicbrainz_payload`; each migration turns
 * every such payload into a match row and candidate rows and clears the column.
 *
 * The rows come from a `SELECT ... WHERE payload IS NOT NULL` in an order
 * SQLite chooses, so each migration is a fold over an order of track ids;
 * an id whose payload is already cleared (or that is not a track) is a no-op.
 */
module LibraryMigrations {
  import opened Wrappers
  import opened Json
  import opened Library

  // ---------------------------------------------------------------------------
  // Discogs
  // ---------------------------------------------------------------------------

  /** The tracks `migrate_discogs_payloads` selects. */
  function PendingDiscogs(t: Tables): (r: set<string>)
    ensures forall id :: id in r <==> id in t.tracks && t.tracks[id].discogsPayload.Some?
  {
    set id | id in t.tracks && t.tracks[id].discogsPayload.Some?
  }

  /** The match record and candidates rebuilt from one legacy Discogs payload. */
  function DiscogsLegacy(trackId: string, p: Json): (MatchRecord, seq<CandidateRecord>) {
    var status := var s := AsStr(Get(p, "status")); if s.Some? then StatusFromStr(s.value) else Error;
    var query := AsStr(Get(p, "query"));
    var message := AsStr(Get(p, "reason"));
    var confidence := AsF64(Get(p, "confidence"));
    match status
    case Success =>
      var release := Get(p, "release");
      if release.Some? then
        var releaseId := ExtractReleaseId(release.value);
        (MatchRecord(trackId, releaseId, confidence, Success, query, message, None),
         [CandidateRecord(trackId, releaseId, ScoreOf(release.value).Or(confidence), release.value)])
      else (MatchRecord(trackId, None, confidence, Success, query, message, None), [])
    case Ambiguous =>
      var candidates := AsArray(Get(p, "candidates"));
      (MatchRecord(trackId, None, None, Ambiguous, query, message, None),
       if candidates.Some? then AmbiguityCandidates(trackId, candidates.value) else [])
    case Error =>
      (MatchRecord(trackId, None, None, Error, query, message, None), [])
  }

  /**
   * A legacy Discogs payload keeps its confidence only on success, never
   * yields a candidate for a failure, and files every candidate under the track.
   */
  lemma DiscogsLegacyShape(trackId: string, p: Json)
    ensures var (r, cs) := DiscogsLegacy(trackId, p);
      && r.trackId == trackId && r.checkedAt.None?
      && r.message == AsStr(Get(p, "reason"))
      && (r.status != Success ==> r.confidence.None? && r.releaseId.None?)
      && (r.status == Success ==> r.confidence == AsF64(Get(p, "confidence")))
      && (r.status == Error ==> cs == [])
      && (AsStr(Get(p, "status")).None? ==> r.status == Error)
      && (forall k :: 0 <= k < |cs| ==> cs[k].matchId == trackId)
  {
    var (r, cs) := DiscogsLegacy(trackId, p);
    var candidates := AsArray(Get(p, "candidates"));
    if r.status == Ambiguous && candidates.Some? {
      AmbiguityCandidatesKeepIds(trackId, candidates.value);
    }
  }

  /** One iteration: `persist_discogs_match`, then `discogs_payload = NULL`. */
  function MigrateDiscogsOne(t: Tables, id: string, now: nat): Tables {
    if id in t.tracks && t.tracks[id].discogsPayload.Some? then
      var (r, cs) := DiscogsLegacy(id, t.tracks[id].discogsPayload.value);
      var u := PersistDiscogsMatch(t, r, cs, now);
      u.(tracks := u.tracks[id := u.tracks[id].(discogsPayload := None)])
    else t
  }

  /** The migration loop, over the order in which the rows are returned. */
  function MigrateDiscogs(t: Tables, order: seq<string>, now: nat): Tables {
    if order == [] then t
    else MigrateDiscogsOne(MigrateDiscogs(t, order[..|order| - 1], now), order[|order| - 1], now)
  }

  /** What one iteration writes for its track, and that no other track is touched. */
  lemma MigrateDiscogsOneEffect(t: Tables, id: string, now: nat)
    requires id in PendingDiscogs(t)
    ensures var u := MigrateDiscogsOne(t, id, now);
      var (r, cs) := DiscogsLegacy(id, t.tracks[id].discogsPayload.value);
      && u.tracks.Keys == t.tracks.Keys
      && u.tracks[id].discogsPayload.None?
      && u.tracks[id].discogsReleaseId == r.releaseId && u.tracks[id].discogsConfidence == r.confidence
      && u.discogsMatches[id] == MatchRowOf(r, now)
      && CandidatesOf(u.discogsCandidates, id) == seq(|cs|, k requires 0 <= k < |cs| => CandidateRowOf(cs[k]))
      && (forall other :: other in t.tracks && other != id ==> u.tracks[other] == t.tracks[other])
      && (forall other :: other != id ==> CandidatesOf(u.discogsCandidates, other) == CandidatesOf(t.discogsCandidates, other))
      && (forall other :: other in t.discogsMatches && other != id ==> u.discogsMatches[other] == t.discogsMatches[other])
      && u.musicbrainzMatches == t.musicbrainzMatches && u.musicbrainzCandidates == t.musicbrainzCandidates
  {
    var (r, cs) := DiscogsLegacy(id, t.tracks[id].discogsPayload.value);
    DiscogsLegacyShape(id, t.tracks[id].discogsPayload.value);
    RowsForAllMatching(cs, id);
    PersistDiscogsMatchReplaces(t, r, cs, now);
    EnsureTrackKeepsExisting(t, id, now);
  }

  /** Each iteration removes its own track, and only that one, from the pending set. */
  lemma MigrateDiscogsOnePending(t: Tables, id: string, now: nat)
    ensures PendingDiscogs(MigrateDiscogsOne(t, id, now)) == PendingDiscogs(t) - {id}
  {
    if id in PendingDiscogs(t) {
      MigrateDiscogsOneEffect(t, id, now);
    }
  }

  /** The migration clears exactly the payloads of the tracks it visits. */
  lemma {:induction false} MigrateDiscogsPending(t: Tables, order: seq<string>, now: nat)
    ensures forall id :: id in PendingDiscogs(MigrateDiscogs(t, order, now)) <==> id in PendingDiscogs(t) && id !in order
  {
    if order != [] {
      var init := order[..|order| - 1];
      MigrateDiscogsPending(t, init, now);
      MigrateDiscogsOnePending(MigrateDiscogs(t, init, now), order[|order| - 1], now);
      assert forall id :: id in order <==> id in init || id == order[|order| - 1] by {
        assert order == init + [order[|order| - 1]];
      }
    }
  }

  lemma {:induction false} MigrateDiscogsNothingPending(t: Tables, order: seq<string>, now: nat)
    requires PendingDiscogs(t) == {}
    ensures MigrateDiscogs(t, order, now) == t
  {
    if order != [] {
      MigrateDiscogsNothingPending(t, order[..|order| - 1], now);
    }
  }

  /**
   * After one run over every selected row a second run finds no payload and
   * leaves the store as it is.
   */
  lemma DiscogsMigrationIdempotent(t: Tables, order: seq<string>, order2: seq<string>, now1: nat, now2: nat)
    requires forall id :: id in PendingDiscogs(t) ==> id in order
    ensures PendingDiscogs(MigrateDiscogs(t, order, now1)) == {}
    ensures MigrateDiscogs(MigrateDiscogs(t, order, now1), order2, now2) == MigrateDiscogs(t, order, now1)
  {
    MigrateDiscogsPending(t, order, now1);
    MigrateDiscogsNothingPending(MigrateDiscogs(t, order, now1), order2, now2);
  }

  /** Every migrated track ends up with the match row rebuilt from its own payload. */
  lemma {:induction false} MigrateDiscogsRecords(t: Tables, order: seq<string>, now: nat, id: string)
    requires id in PendingDiscogs(t) && id in order
    ensures var u := MigrateDiscogs(t, order, now);
      var (r, cs) := DiscogsLegacy(id, t.tracks[id].discogsPayload.value);
      && id in u.discogsMatches && u.discogsMatches[id] == MatchRowOf(r, now)
      && CandidatesOf(u.discogsCandidates, id) == seq(|cs|, k requires 0 <= k < |cs| => CandidateRowOf(cs[k]))
  {
    var init := order[..|order| - 1];
    var last := order[|order| - 1];
    var prev := MigrateDiscogs(t, init, now);
    if id in init {
      MigrateDiscogsRecords(t, init, now, id);
      MigrateDiscogsPending(t, init, now);
      assert id !in PendingDiscogs(prev);
      if last != id && last in PendingDiscogs(prev) {
        MigrateDiscogsOneEffect(prev, last, now);
      }
    } else {
      assert last == id;
      MigrateDiscogsUntouched(t, init, now, id);
      MigrateDiscogsOneEffect(prev, id, now);
    }
  }

  /** A track the loop has not reached yet still has its original row. */
  lemma {:induction false} MigrateDiscogsUntouched(t: Tables, order: seq<string>, now: nat, id: string)
    requires id in t.tracks && id !in order
    ensures var u := MigrateDiscogs(t, order, now); id in u.tracks && u.tracks[id] == t.tracks[id]
  {
    if order != [] {
      var init := order[..|order| - 1];
      var last := order[|order| - 1];
      assert id !in init;
      MigrateDiscogsUntouched(t, init, now, id);
      var prev := MigrateDiscogs(t, init, now);
      if last in PendingDiscogs(prev) {
        MigrateDiscogsOneEffect(prev, last, now);
      }
    }
  }

  // ---------------------------------------------------------------------------
  // MusicBrainz
  // ---------------------------------------------------------------------------

  /** The tracks `migrate_musicbrainz_payloads` selects. */
  function PendingMusicbrainz(t: Tables): (r: set<string>)
    ensures forall id :: id in r <==> id in t.tracks && t.tracks[id].musicbrainzPayload.Some?
  {
    set id | id in t.tracks && t.tracks[id].musicbrainzPayload.Some?
  }

  /**
   * The match row and candidate rows rebuilt from one legacy MusicBrainz
   * payload. The status text is stored as found (default "error"), and
   * unlike Discogs no candidate is dropped and `release_id` survives for
   * every status.
   */
  function MusicbrainzLegacy(p: Json, now: nat): (MatchRow, seq<CandidateRow>) {
    var status := AsStr(Get(p, "status")).UnwrapOr("error");
    var query := AsStr(Get(p, "query"));
    var message := AsStr(Get(p, "reason").Or(Get(p, "message")));
    var releaseId := AsStr(Get(p, "release_id"));
    var confidence := AsF64(Get(p, "confidence"));
    if status == "success" then
      var release := Get(p, "release").Or(Get(p, "recording")).Or(Get(p, "match"));
      if release.Some? then
        var score := ScoreOf(release.value);
        var conf := if score.Some? then score else confidence;
        var extracted := ExtractReleaseId(release.value);
        (MatchRow(releaseId.Or(extracted), conf, status, query, message, now),
         [CandidateRow(extracted, score.Or(conf), release.value)])
      else (MatchRow(releaseId, confidence, status, query, message, now), [])
    else if status == "ambiguous" then
      var candidates := AsArray(Get(p, "candidates"));
      (MatchRow(releaseId, None, status, query, message, now),
       if candidates.Some? then
         seq(|candidates.value|, k requires 0 <= k < |candidates.value| =>
           CandidateRow(ExtractReleaseId(candidates.value[k]), ScoreOf(candidates.value[k]), candidates.value[k]))
       else [])
    else (MatchRow(releaseId, None, status, query, message, now), [])
  }

  /** Confidence survives only a success; a success's candidate carries the confidence as its score. */
  lemma MusicbrainzLegacyShape(p: Json, now: nat)
    ensures var (row, cs) := MusicbrainzLegacy(p, now);
      && row.checkedAt == now
      && (row.status != "success" ==> row.confidence.None?)
      && (row.status == "success" && |cs| == 1 ==> cs[0].score == row.confidence)
      && (row.status != "success" && row.status != "ambiguous" ==> cs == [])
      && (AsStr(Get(p, "status")).None? ==> row.status == "error")
      && (AsStr(Get(p, "release_id")).Some? ==> row.releaseId == AsStr(Get(p, "release_id")))
      && (row.status == "ambiguous" && AsArray(Get(p, "candidates")).Some? ==>
            |cs| == |AsArray(Get(p, "candidates")).value|)
  {
  }

  /**
   * One iteration: upsert the match row, copy release id and confidence to the
   * track, clear the payload, and replace the candidates.
   */
  function MigrateMusicbrainzOne(t: Tables, id: string, now: nat): Tables {
    if id in t.tracks && t.tracks[id].musicbrainzPayload.Some? then
      var (row, cs) := MusicbrainzLegacy(t.tracks[id].musicbrainzPayload.value, now);
      StoreMusicbrainzLegacy(t, id, row, cs, now)
    else t
  }

  /** The three writes of one iteration, for the rebuilt row and candidates. */
  function StoreMusicbrainzLegacy(t: Tables, id: string, row: MatchRow, cs: seq<CandidateRow>, now: nat): Tables
    requires id in t.tracks
  {
    var track := t.tracks[id].(musicbrainzReleaseId := row.releaseId, musicbrainzConfidence := row.confidence,
                               musicbrainzPayload := None, updatedAt := now);
    t.(musicbrainzMatches := t.musicbrainzMatches[id := row],
       tracks := t.tracks[id := track],
       musicbrainzCandidates := SetGroup(t.musicbrainzCandidates, id, cs))
  }

  /** Storing a rebuilt match clears only its own payload and keeps the foreign keys. */
  lemma StoreMusicbrainzLegacyKeeps(t: Tables, id: string, row: MatchRow, cs: seq<CandidateRow>, now: nat)
    requires id in t.tracks
    ensures var u := StoreMusicbrainzLegacy(t, id, row, cs, now);
      && PendingMusicbrainz(u) == PendingMusicbrainz(t) - {id}
      && PendingDiscogs(u) == PendingDiscogs(t)
      && (ForeignKeysHold(t) ==> ForeignKeysHold(u))
  {
  }

  function MigrateMusicbrainz(t: Tables, order: seq<string>, now: nat): Tables {
    if order == [] then t
    else MigrateMusicbrainzOne(MigrateMusicbrainz(t, order[..|order| - 1], now), order[|order| - 1], now)
  }

  lemma MigrateMusicbrainzOnePending(t: Tables, id: string, now: nat)
    ensures PendingMusicbrainz(MigrateMusicbrainzOne(t, id, now)) == PendingMusicbrainz(t) - {id}
  {
    if id in PendingMusicbrainz(t) {
      var (row, cs) := MusicbrainzLegacy(t.tracks[id].musicbrainzPayload.value, now);
      StoreMusicbrainzLegacyKeeps(t, id, row, cs, now);
    }
  }

  lemma {:induction false} MigrateMusicbrainzPending(t: Tables, order: seq<string>, now: nat)
    ensures forall id :: id in PendingMusicbrainz(MigrateMusicbrainz(t, order, now)) <==> id in PendingMusicbrainz(t) && id !in order
  {
    if order != [] {
      var init := order[..|order| - 1];
      MigrateMusicbrainzPending(t, init, now);
      MigrateMusicbrainzOnePending(MigrateMusicbrainz(t, init, now), order[|order| - 1], now);
      assert forall id :: id in order <==> id in init || id == order[|order| - 1] by {
        assert order == init + [order[|order| - 1]];
      }
    }
  }

  lemma {:induction false} MigrateMusicbrainzNothingPending(t: Tables, order: seq<string>, now: nat)
    requires PendingMusicbrainz(t) == {}
    ensures MigrateMusicbrainz(t, order, now) == t
  {
    if order != [] {
      MigrateMusicbrainzNothingPending(t, order[..|order| - 1], now);
    }
  }

  lemma MusicbrainzMigrationIdempotent(t: Tables, order: seq<string>, order2: seq<string>, now1: nat, now2: nat)
    requires forall id :: id in PendingMusicbrainz(t) ==> id in order
    ensures PendingMusicbrainz(MigrateMusicbrainz(t, order, now1)) == {}
    ensures MigrateMusicbrainz(MigrateMusicbrainz(t, order, now1), order2, now2) == MigrateMusicbrainz(t, order, now1)
  {
    MigrateMusicbrainzPending(t, order, now1);
    MigrateMusicbrainzNothingPending(MigrateMusicbrainz(t, order, now1), order2, now2);
  }

  /**
   * One iteration writes the rebuilt row, track columns and candidates of its
   * own track and leaves every other track, match and candidate group alone.
   */
  lemma MigrateMusicbrainzOneEffect(t: Tables, id: string, now: nat)
    requires id in PendingMusicbrainz(t)
    ensures var u := MigrateMusicbrainzOne(t, id, now);
      var (row, cs) := MusicbrainzLegacy(t.tracks[id].musicbrainzPayload.value, now);
      && u.tracks.Keys == t.tracks.Keys
      && u.tracks[id].musicbrainzPayload.None?
      && u.tracks[id].musicbrainzReleaseId == row.releaseId && u.tracks[id].musicbrainzConfidence == row.confidence
      && id in u.musicbrainzMatches && u.musicbrainzMatches[id] == row
      && CandidatesOf(u.musicbrainzCandidates, id) == cs
      && (forall other :: other in t.tracks && other != id ==> u.tracks[other] == t.tracks[other])
      && (forall other :: other != id ==> CandidatesOf(u.musicbrainzCandidates, other) == CandidatesOf(t.musicbrainzCandidates, other))
      && (forall other :: other in t.musicbrainzMatches && other != id ==> u.musicbrainzMatches[other] == t.musicbrainzMatches[other])
  {
  }

  /** A track the MusicBrainz loop has not reached yet still has its original row. */
  lemma {:induction false} MigrateMusicbrainzUntouched(t: Tables, order: seq<string>, now: nat, id: string)
    requires id in t.tracks && id !in order
    ensures var u := MigrateMusicbrainz(t, order, now); id in u.tracks && u.tracks[id] == t.tracks[id]
  {
    if order != [] {
      var init := order[..|order| - 1];
      var last := order[|order| - 1];
      assert id !in init;
      MigrateMusicbrainzUntouched(t, init, now, id);
      var prev := MigrateMusicbrainz(t, init, now);
      if last in PendingMusicbrainz(prev) {
        MigrateMusicbrainzOneEffect(prev, last, now);
      }
    }
  }

  /**
   * Every migrated track ends up with the MusicBrainz row, track columns and
   * candidates rebuilt from its own payload.
   */
  lemma {:induction false} MigrateMusicbrainzRecords(t: Tables, order: seq<string>, now: nat, id: string)
    requires id in PendingMusicbrainz(t) && id in order
    ensures var u := MigrateMusicbrainz(t, order, now);
      var (row, cs) := MusicbrainzLegacy(t.tracks[id].musicbrainzPayload.value, now);
      && id in u.musicbrainzMatches && u.musicbrainzMatches[id] == row
      && id in u.tracks && u.tracks[id].musicbrainzReleaseId == row.releaseId
      && u.tracks[id].musicbrainzConfidence == row.confidence
      && CandidatesOf(u.musicbrainzCandidates, id) == cs
  {
    var init := order[..|order| - 1];
    var last := order[|order| - 1];
    var prev := MigrateMusicbrainz(t, init, now);
    if id in init {
      MigrateMusicbrainzRecords(t, init, now, id);
      MigrateMusicbrainzPending(t, init, now);
      assert id !in PendingMusicbrainz(prev);
      if last != id && last in PendingMusicbrainz(prev) {
        MigrateMusicbrainzOneEffect(prev, last, now);
      }
    } else {
      assert last == id;
      MigrateMusicbrainzUntouched(t, init, now, id);
      MigrateMusicbrainzOneEffect(prev, id, now);
    }
  }

  /** The MusicBrainz migration leaves every Discogs payload as it was. */
  lemma MusicbrainzKeepsDiscogsPending(t: Tables, id: string, now: nat)
    ensures PendingDiscogs(MigrateMusicbrainzOne(t, id, now)) == PendingDiscogs(t)
  {
    if id in PendingMusicbrainz(t) {
      var (row, cs) := MusicbrainzLegacy(t.tracks[id].musicbrainzPayload.value, now);
      StoreMusicbrainzLegacyKeeps(t, id, row, cs, now);
    }
  }

  /** The Discogs migration leaves every MusicBrainz payload as it was. */
  lemma DiscogsKeepsMusicbrainzPending(t: Tables, id: string, now: nat)
    ensures PendingMusicbrainz(MigrateDiscogsOne(t, id, now)) == PendingMusicbrainz(t)
  {
    if id in PendingDiscogs(t) {
      MigrateDiscogsOneEffect(t, id, now);
      var u := MigrateDiscogsOne(t, id, now);
      assert u.tracks[id].musicbrainzPayload == t.tracks[id].musicbrainzPayload by {
        var (r, cs) := DiscogsLegacy(id, t.tracks[id].discogsPayload.value);
        EnsureTrackKeepsExisting(t, id, now);
      }
      forall x
        ensures x in PendingMusicbrainz(u) <==> x in PendingMusicbrainz(t)
      {
        if x != id && x in t.tracks {
          assert u.tracks[x] == t.tracks[x];
        }
      }
    }
  }

  lemma MigrateDiscogsKeepsForeignKeys(t: Tables, id: string, now: nat)
    requires ForeignKeysHold(t)
    ensures ForeignKeysHold(MigrateDiscogsOne(t, id, now))
  {
    if id in PendingDiscogs(t) {
      var (r, cs) := DiscogsLegacy(id, t.tracks[id].discogsPayload.value);
      PersistDiscogsKeepsForeignKeys(t, r, cs, now);
      EnsureTrackKeepsExisting(t, id, now);
    }
  }

  lemma MigrateMusicbrainzKeepsForeignKeys(t: Tables, id: string, now: nat)
    requires ForeignKeysHold(t)
    ensures ForeignKeysHold(MigrateMusicbrainzOne(t, id, now))
  {
    if id in PendingMusicbrainz(t) {
      var (row, cs) := MusicbrainzLegacy(t.tracks[id].musicbrainzPayload.value, now);
      StoreMusicbrainzLegacyKeeps(t, id, row, cs, now);
    }
  }
}
