/**
 * The two read queries of `LibraryStore` (library/mod.rs):
 * `list_missing_assets` and `list_library_status`. The SQL joins become
 * lookups in the tables by track id, `WHERE` becomes a predicate on the id,
 * and `ORDER BY` becomes a strict total order on ids that the result is
 * sorted by; sorted sequences over that order are unique, so the page is
 * determined by the tables and the filter.
 */
module LibraryListing {
  import opened Wrappers
  import opened Text
  import opened Json
  import opened Library

  const DEFAULT_LIMIT: nat := 100
  const MAX_LIMIT: nat := 500
  const U32_MODULUS: nat := 0x1_0000_0000

  /** `StatusFilter`; absent flags deserialise to false. */
  datatype StatusFilter = StatusFilter(
    missingAssetsOnly: bool,
    unresolvedDiscogsOnly: bool,
    likedOnly: bool,
    rekordboxOnly: bool,
    limit: Option<nat>,
    offset: Option<nat>)

  /** `LibraryStatusRow` */
  datatype StatusRow = StatusRow(
    trackId: string,
    title: Option<string>,
    artist: Option<string>,
    album: Option<string>,
    liked: bool,
    matched: bool,
    hasLocalFile: bool,
    localAvailable: bool,
    inRekordbox: bool,
    discogsStatus: Option<string>,
    discogsReleaseId: Option<string>,
    discogsConfidence: Option<real>,
    discogsCheckedAt: Option<nat>,
    discogsMessage: Option<string>,
    musicbrainzStatus: Option<string>,
    musicbrainzReleaseId: Option<string>,
    musicbrainzConfidence: Option<real>,
    musicbrainzCheckedAt: Option<nat>,
    musicbrainzMessage: Option<string>,
    soundcloudPermalinkUrl: Option<string>,
    soundcloudLikedAt: Option<string>,
    localLocation: Option<string>)

  /** `LibraryStatusPage` */
  datatype StatusPage = StatusPage(rows: seq<StatusRow>, total: nat, limit: nat, offset: nat)

  /** `requested_limit.max(1).min(MAX_LIMIT)` with `DEFAULT_LIMIT` for an absent limit. */
  function ClampLimit(limit: Option<nat>): (r: nat)
    ensures 1 <= r <= MAX_LIMIT
    ensures limit.None? ==> r == DEFAULT_LIMIT
    ensures limit.Some? && 1 <= limit.value <= MAX_LIMIT ==> r == limit.value
    ensures limit.Some? && limit.value == 0 ==> r == 1
    ensures limit.Some? && limit.value > MAX_LIMIT ==> r == MAX_LIMIT
  {
    var requested := limit.UnwrapOr(DEFAULT_LIMIT);
    var atLeastOne := if requested < 1 then 1 else requested;
    if atLeastOne > MAX_LIMIT then MAX_LIMIT else atLeastOne
  }

  /** `json_extract(ss.raw_payload, '$.likedAt')`: a JSON null extracts as SQL NULL. */
  function LikedAt(t: Tables, id: string): (r: Option<Json>)
    ensures r.Some? <==> id in t.soundcloudSources && Get(t.soundcloudSources[id].rawPayload, "likedAt").Some?
                          && !Get(t.soundcloudSources[id].rawPayload, "likedAt").value.Null?
  {
    if id in t.soundcloudSources then
      var v := Get(t.soundcloudSources[id].rawPayload, "likedAt");
      if v.Some? && !v.value.Null? then v else None
    else None
  }

  /**
   * What `row.get` reads from the `liked_at` column into an `Option<String>`.
   * `json_extract` yields SQL NULL for a missing or null value, the bare text
   * of a string, and the JSON text of an array or object (`jsonText` stands
   * for SQLite's minified serialisation); a number or boolean extracts as an
   * INTEGER or REAL, which rusqlite refuses to read as text.
   */
  function LikedAtColumn(t: Tables, id: string, jsonText: Json -> string): (r: Result<Option<string>, string>)
    ensures r == Ok(None) <==> LikedAt(t, id).None?
    ensures r.Err? <==> LikedAt(t, id).Some? && (LikedAt(t, id).value.Int? || LikedAt(t, id).value.Float? || LikedAt(t, id).value.Bool?)
    ensures LikedAt(t, id).Some? && LikedAt(t, id).value.Str? ==> r == Ok(Some(LikedAt(t, id).value.s))
    ensures LikedAt(t, id).Some? && (LikedAt(t, id).value.Arr? || LikedAt(t, id).value.Obj?) ==>
      r == Ok(Some(jsonText(LikedAt(t, id).value)))
  {
    match LikedAt(t, id)
    case None => Ok(None)
    case Some(Str(text)) => Ok(Some(text))
    case Some(Arr(items)) => Ok(Some(jsonText(Arr(items))))
    case Some(Obj(fields)) => Ok(Some(jsonText(Obj(fields))))
    case Some(_) => Err(INVALID_COLUMN_TYPE)
  }

  /** The error `row.get` reports for a column whose SQL type is not TEXT. */
  const INVALID_COLUMN_TYPE: string := "Invalid column type"

  /** `la.track_id IS NULL OR la.available = 0` */
  predicate MissingAsset(t: Tables, id: string) {
    id !in t.localAssets || !t.localAssets[id].available
  }

  /** `dm.track_id IS NULL OR dm.status != 'success' OR dm.release_id IS NULL` */
  predicate UnresolvedDiscogs(t: Tables, id: string) {
    id !in t.discogsMatches || t.discogsMatches[id].status != "success" || t.discogsMatches[id].releaseId.None?
  }

  /** The conjunction of the conditions the filter switches on; none switched on keeps every track. */
  predicate Selected(t: Tables, f: StatusFilter, id: string) {
    && (f.missingAssetsOnly ==> MissingAsset(t, id))
    && (f.unresolvedDiscogsOnly ==> UnresolvedDiscogs(t, id))
    && (f.likedOnly ==> LikedAt(t, id).Some?)
    && (f.rekordboxOnly ==> id in t.rekordboxSources)
  }

  /** The tracks the `WHERE` clause keeps: what `total` counts. */
  function FilteredIds(t: Tables, f: StatusFilter): (r: set<string>)
    ensures forall id :: id in r <==> id in t.tracks && Selected(t, f, id)
  {
    set id | id in t.tracks && Selected(t, f, id)
  }

  /** The ids `list_missing_assets` returns, before ordering. */
  function MissingAssetIds(t: Tables): (r: set<string>)
    ensures forall id :: id in r <==> id in t.tracks && MissingAsset(t, id)
  {
    set id | id in t.tracks && MissingAsset(t, id)
  }

  /** The two `ORDER BY` clauses of the store. */
  datatype Ordering =
    | RecentFirst   // ORDER BY t.updated_at DESC, t.id ASC
    | IdAscending   // ORDER BY tracks.id ASC

  /** `a` sorts strictly before `b`. */
  predicate Before(t: Tables, ord: Ordering, a: string, b: string)
    requires a in t.tracks && b in t.tracks
  {
    match ord
    case IdAscending => LexLess(a, b)
    case RecentFirst =>
      var ua := t.tracks[a].updatedAt;
      var ub := t.tracks[b].updatedAt;
      ua > ub || (ua == ub && LexLess(a, b))
  }

  lemma BeforeIrreflexive(t: Tables, ord: Ordering, a: string)
    requires a in t.tracks
    ensures !Before(t, ord, a, a)
  {
    LexLessIrreflexive(a);
  }

  lemma BeforeTransitive(t: Tables, ord: Ordering, a: string, b: string, c: string)
    requires a in t.tracks && b in t.tracks && c in t.tracks
    requires Before(t, ord, a, b) && Before(t, ord, b, c)
    ensures Before(t, ord, a, c)
  {
    if ord.IdAscending? || (t.tracks[a].updatedAt == t.tracks[b].updatedAt == t.tracks[c].updatedAt) {
      LexLessTransitive(a, b, c);
    }
  }

  /** Distinct track ids are always ordered one way or the other: the order has no ties. */
  lemma BeforeTotal(t: Tables, ord: Ordering, a: string, b: string)
    requires a in t.tracks && b in t.tracks && a != b
    ensures Before(t, ord, a, b) || Before(t, ord, b, a)
  {
    LexLessTotal(a, b);
  }

  /** `s` lists track ids in strictly increasing order (hence without repeats). */
  predicate SortedBy(t: Tables, ord: Ordering, s: seq<string>) {
    && (forall i :: 0 <= i < |s| ==> s[i] in t.tracks)
    && (forall i, j :: 0 <= i < j < |s| ==> Before(t, ord, s[i], s[j]))
  }

  /** Inserts `x` in front of the first element it sorts before. */
  function Insert(t: Tables, ord: Ordering, x: string, s: seq<string>): (r: seq<string>)
    requires x in t.tracks && forall i :: 0 <= i < |s| ==> s[i] in t.tracks
    ensures |r| == |s| + 1
    ensures forall y :: y in r <==> y == x || y in s
  {
    if s == [] || Before(t, ord, x, s[0]) then [x] + s
    else [s[0]] + Insert(t, ord, x, s[1..])
  }

  /** Insertion keeps a sequence sorted. */
  lemma {:induction false} InsertSorted(t: Tables, ord: Ordering, x: string, s: seq<string>)
    requires x in t.tracks && x !in s && SortedBy(t, ord, s)
    ensures SortedBy(t, ord, Insert(t, ord, x, s))
  {
    if s != [] && !Before(t, ord, x, s[0]) {
      BeforeTotal(t, ord, x, s[0]);
      InsertSorted(t, ord, x, s[1..]);
      var rest := Insert(t, ord, x, s[1..]);
      forall j | 0 <= j < |rest| ensures Before(t, ord, s[0], rest[j]) {
        assert rest[j] in rest;
        if rest[j] != x {
          var k :| 0 <= k < |s[1..]| && s[1..][k] == rest[j];
          assert s[k + 1] == rest[j];
        }
      }
      var r := [s[0]] + rest;
      forall i, j | 0 <= i < j < |r| ensures Before(t, ord, r[i], r[j]) {
        if i == 0 { assert r[j] == rest[j - 1]; }
        else { assert r[i] == rest[i - 1] && r[j] == rest[j - 1]; }
      }
    } else if s != [] {
      var r := [x] + s;
      forall i, j | 0 <= i < j < |r| ensures Before(t, ord, r[i], r[j]) {
        if i == 0 && j > 1 {
          BeforeTransitive(t, ord, x, s[0], s[j - 1]);
        } else if i > 0 {
          assert r[i] == s[i - 1] && r[j] == s[j - 1];
        }
      }
    }
  }

  /** Sorting a set of track ids: the only sequence of them sorted by `ord`. */
  method SortIds(t: Tables, ord: Ordering, ids: set<string>) returns (s: seq<string>)
    requires ids <= t.tracks.Keys
    ensures SortedBy(t, ord, s)
    ensures forall x :: x in s <==> x in ids
    ensures |s| == |ids|
  {
    s := [];
    var remaining := ids;
    while remaining != {}
      invariant remaining <= ids
      invariant SortedBy(t, ord, s)
      invariant forall x :: x in s <==> x in ids && x !in remaining
      invariant |s| + |remaining| == |ids|
      decreases |remaining|
    {
      var x :| x in remaining;
      InsertSorted(t, ord, x, s);
      s := Insert(t, ord, x, s);
      remaining := remaining - {x};
    }
  }

  /** Two sorted sequences with the same elements are equal: `ORDER BY` fixes the result. */
  lemma {:induction false} SortedUnique(t: Tables, ord: Ordering, a: seq<string>, b: seq<string>)
    requires SortedBy(t, ord, a) && SortedBy(t, ord, b)
    requires forall x :: x in a <==> x in b
    ensures a == b
  {
    if a != [] { assert a[0] in a; }
    if b != [] { assert b[0] in b; }
    if a != [] && b != [] {
      if a[0] != b[0] {
        assert b[0] in b && a[0] in a;
        var i :| 0 <= i < |a| && a[i] == b[0];
        var j :| 0 <= j < |b| && b[j] == a[0];
        BeforeTransitive(t, ord, a[0], b[0], a[0]);
        BeforeIrreflexive(t, ord, a[0]);
        assert false;
      }
      forall x ensures x in a[1..] <==> x in b[1..] {
        if x in a[1..] {
          var i :| 1 <= i < |a| && a[i] == x;
          BeforeIrreflexive(t, ord, a[0]);
          assert x in b && x != b[0];
          var j :| 0 <= j < |b| && b[j] == x;
          assert b[1..][j - 1] == x;
        }
        if x in b[1..] {
          var j :| 1 <= j < |b| && b[j] == x;
          BeforeIrreflexive(t, ord, b[0]);
          assert x in a && x != a[0];
          var i :| 0 <= i < |a| && a[i] == x;
          assert a[1..][i - 1] == x;
        }
      }
      SortedUnique(t, ord, a[1..], b[1..]);
    }
  }

  /** The `SELECT` list for one track: the `CASE` columns and the joined columns. */
  function StatusRowOf(t: Tables, id: string, likedAt: Option<string>): (r: StatusRow)
    requires id in t.tracks
    ensures r.trackId == id
    ensures r.matched <==> !UnresolvedDiscogs(t, id)
    ensures r.localAvailable <==> !MissingAsset(t, id)
    ensures r.liked <==> LikedAt(t, id).Some?
    ensures r.inRekordbox <==> id in t.rekordboxSources
    ensures r.soundcloudLikedAt == likedAt
  {
    var row := t.tracks[id];
    var dm := if id in t.discogsMatches then Some(t.discogsMatches[id]) else None;
    var mb := if id in t.musicbrainzMatches then Some(t.musicbrainzMatches[id]) else None;
    StatusRow(
      id, row.title, row.artist, row.album,
      LikedAt(t, id).Some?,
      dm.Some? && dm.value.status == "success" && dm.value.releaseId.Some?,
      id in t.localAssets,
      id in t.localAssets && t.localAssets[id].available,
      id in t.rekordboxSources,
      if dm.Some? then Some(dm.value.status) else None,
      if dm.Some? then dm.value.releaseId else None,
      if dm.Some? then dm.value.confidence else None,
      if dm.Some? then Some(dm.value.checkedAt) else None,
      if dm.Some? then dm.value.message else None,
      if mb.Some? then Some(mb.value.status) else None,
      if mb.Some? then mb.value.releaseId else None,
      if mb.Some? then mb.value.confidence else None,
      if mb.Some? then Some(mb.value.checkedAt) else None,
      if mb.Some? then mb.value.message else None,
      if id in t.soundcloudSources then t.soundcloudSources[id].permalinkUrl else None,
      likedAt,
      if id in t.localAssets then Some(t.localAssets[id].location) else None)
  }

  /**
   * Reading one result row: it fails exactly when the `liked_at` column
   * cannot be read as text; otherwise the row shows a `likedAt` exactly when
   * it is marked liked.
   */
  function ReadStatusRow(t: Tables, id: string, jsonText: Json -> string): (r: Result<StatusRow, string>)
    requires id in t.tracks
    ensures r.Err? <==> LikedAtColumn(t, id, jsonText).Err?
    ensures r.Ok? ==> r.value == StatusRowOf(t, id, LikedAtColumn(t, id, jsonText).value)
    ensures r.Ok? ==> (r.value.liked <==> r.value.soundcloudLikedAt.Some?)
  {
    match LikedAtColumn(t, id, jsonText)
    case Err(e) => Err(e)
    case Ok(likedAt) => Ok(StatusRowOf(t, id, likedAt))
  }

  /** `LIMIT limit OFFSET offset` on an ordered result. */
  function Window<T>(s: seq<T>, offset: nat, limit: nat): (r: seq<T>)
    ensures |r| <= limit
    ensures offset >= |s| ==> r == []
    ensures offset + limit <= |s| ==> |r| == limit
    ensures offset < |s| < offset + limit ==> r == s[offset..]
    ensures forall k :: 0 <= k < |r| ==> offset + k < |s| && r[k] == s[offset + k]
  {
    var lo := if offset < |s| then offset else |s|;
    var hi := if offset + limit < |s| then offset + limit else |s|;
    s[lo..hi]
  }

  /** `list_missing_assets`: tracks with no asset or an unavailable one, by id. */
  method ListMissingAssets(t: Tables) returns (ids: seq<string>)
    ensures SortedBy(t, IdAscending, ids)
    ensures forall id :: id in ids <==> id in t.tracks && MissingAsset(t, id)
  {
    ids := SortIds(t, IdAscending, MissingAssetIds(t));
  }

  /** The result loop of `list_library_status`: rows are read in order, and the first failure ends it. */
  method ReadRows(t: Tables, ids: seq<string>, jsonText: Json -> string) returns (rows: Result<seq<StatusRow>, string>)
    requires forall j :: 0 <= j < |ids| ==> ids[j] in t.tracks
    ensures rows.Err? <==> exists k :: 0 <= k < |ids| && ReadStatusRow(t, ids[k], jsonText).Err?
    ensures rows.Ok? ==> rows.value == seq(|ids|, k requires 0 <= k < |ids| => ReadStatusRow(t, ids[k], jsonText).value)
  {
    var read: seq<StatusRow> := [];
    var k := 0;
    while k < |ids|
      invariant 0 <= k <= |ids|
      invariant forall j :: 0 <= j < k ==> ReadStatusRow(t, ids[j], jsonText).Ok?
      invariant |read| == k && forall j :: 0 <= j < k ==> read[j] == ReadStatusRow(t, ids[j], jsonText).value
    {
      var row := ReadStatusRow(t, ids[k], jsonText);
      if row.Err? {
        return Err(row.error);
      }
      read := read + [row.value];
      k := k + 1;
    }
    return Ok(read);
  }

  /**
   * `list_library_status`: the filtered tracks in `RecentFirst` order, cut to
   * the clamped limit at the offset; `total` is the filtered count as a `u32`.
   * Reading stops at the first row whose `liked_at` cannot be read.
   */
  method ListLibraryStatus(t: Tables, f: StatusFilter, jsonText: Json -> string)
    returns (page: Result<StatusPage, string>, ghost ordered: seq<string>)
    ensures SortedBy(t, RecentFirst, ordered)
    ensures forall id :: id in ordered <==> id in t.tracks && Selected(t, f, id)
    ensures var window := Window(ordered, f.offset.UnwrapOr(0), ClampLimit(f.limit));
      page.Err? <==> exists k :: 0 <= k < |window| && ReadStatusRow(t, window[k], jsonText).Err?
    ensures page.Ok? ==>
      && page.value.total == |FilteredIds(t, f)| % U32_MODULUS
      && page.value.limit == ClampLimit(f.limit) && page.value.offset == f.offset.UnwrapOr(0)
      && |page.value.rows| <= page.value.limit
    ensures var window := Window(ordered, f.offset.UnwrapOr(0), ClampLimit(f.limit));
      page.Ok? ==> page.value.rows == seq(|window|, k requires 0 <= k < |window| => ReadStatusRow(t, window[k], jsonText).value)
  {
    var filtered := FilteredIds(t, f);
    var sorted := SortIds(t, RecentFirst, filtered);
    ordered := sorted;
    var limit := ClampLimit(f.limit);
    var offset := f.offset.UnwrapOr(0);
    var window := Window(sorted, offset, limit);
    var rows := ReadRows(t, window, jsonText);
    match rows {
      case Err(e) => page := Err(e);
      case Ok(read) => page := Ok(StatusPage(read, |filtered| % U32_MODULUS, limit, offset));
    }
  }

  /** Without any condition switched on, every track is counted. */
  lemma UnfilteredCountsEveryTrack(t: Tables, f: StatusFilter)
    requires !f.missingAssetsOnly && !f.unresolvedDiscogsOnly && !f.likedOnly && !f.rekordboxOnly
    ensures FilteredIds(t, f) == t.tracks.Keys
  {
  }

  /** Switching another condition on never lets more tracks through. */
  lemma MoreConditionsFewerTracks(t: Tables, f: StatusFilter, g: StatusFilter)
    requires f.missingAssetsOnly ==> g.missingAssetsOnly
    requires f.unresolvedDiscogsOnly ==> g.unresolvedDiscogsOnly
    requires f.likedOnly ==> g.likedOnly
    requires f.rekordboxOnly ==> g.rekordboxOnly
    ensures FilteredIds(t, g) <= FilteredIds(t, f)
  {
  }

  /** The `unresolvedDiscogsOnly` filter keeps exactly the rows not shown as matched. */
  lemma UnresolvedIffNotMatched(t: Tables, f: StatusFilter, id: string, likedAt: Option<string>)
    requires id in t.tracks && f == StatusFilter(false, true, false, false, None, None)
    ensures id in FilteredIds(t, f) <==> !StatusRowOf(t, id, likedAt).matched
  {
  }

  /**
   * A track whose `likedAt` is a number passes the liked filter and is counted
   * in `total`, yet reading its row fails, so any page that shows it fails.
   */
  lemma NumericLikedAtFailsRead(t: Tables, id: string, jsonText: Json -> string, n: int)
    requires id in t.tracks && id in t.soundcloudSources
    requires Get(t.soundcloudSources[id].rawPayload, "likedAt") == Some(Int(n))
    ensures id in FilteredIds(t, StatusFilter(false, false, true, false, None, None))
    ensures ReadStatusRow(t, id, jsonText).Err?
  {
  }

  /** Consecutive pages with the same filter partition the ordered result. */
  lemma WindowsAdjacent<T>(s: seq<T>, offset: nat, limit: nat)
    ensures Window(s, offset, limit) + Window(s, offset + limit, limit) == Window(s, offset, 2 * limit)
  {
  }
}
