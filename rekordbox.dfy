/**
 * Rekordbox import (rekordbox.rs): choosing a parser by file extension, the
 * location rules, and how the master database and XML parsers turn rows into
 * tracks. Reading SQLite and XML files, hashing and audio decoding are
 * outside the model: the parsers take the already-read rows, and the file
 * probe and `file://` URL conversion are parameters.
 */
module Rekordbox {
  import opened Wrappers
  import opened Text

  datatype RekordboxCue = RekordboxCue(
    slot: int,
    name: Option<string>,
    color: Option<string>,
    positionMs: int,
    cueType: Option<string>)

  datatype RekordboxTrack = RekordboxTrack(
    rekordboxId: string,
    trackReference: Option<string>,
    title: Option<string>,
    artist: Option<string>,
    album: Option<string>,
    location: Option<string>,
    normalizedPath: Option<string>,
    checksum: Option<string>,
    durationMs: Option<nat>,
    available: bool,
    cues: seq<RekordboxCue>)

  // ---------------------------------------------------------------------------
  // Paths (Unix `std::path::Path` rules)
  // ---------------------------------------------------------------------------

  /** The text between `/` separators, left to right. */
  function SplitSlash(s: string): (parts: seq<string>)
    ensures |parts| >= 1
    ensures forall i :: 0 <= i < |parts| ==> '/' !in parts[i]
  {
    if s == [] then [[]]
    else
      var rest := SplitSlash(s[1..]);
      if s[0] == '/' then [[]] + rest else [[s[0]] + rest[0]] + rest[1..]
  }

  /** The normal components of a path: empty and `.` components are dropped. */
  function Components(parts: seq<string>): (cs: seq<string>)
    ensures forall i :: 0 <= i < |cs| ==> cs[i] != [] && cs[i] != "."
  {
    if parts == [] then []
    else
      var rest := Components(parts[1..]);
      if parts[0] == [] || parts[0] == "." then rest else [parts[0]] + rest
  }

  /** `Path::file_name`: the last component, unless it is `..` or there is none. */
  function FileName(path: string): (r: Option<string>)
    ensures r.Some? ==> r.value != [] && r.value != "." && r.value != ".." && '/' !in r.value
  {
    var cs := Components(SplitSlash(path));
    if cs == [] || cs[|cs| - 1] == ".." then None
    else
      assert cs[|cs| - 1] in Components(SplitSlash(path));
      ComponentsHaveNoSlash(SplitSlash(path), cs[|cs| - 1]);
      Some(cs[|cs| - 1])
  }

  lemma {:induction false} ComponentsHaveNoSlash(parts: seq<string>, c: string)
    requires forall i :: 0 <= i < |parts| ==> '/' !in parts[i]
    requires c in Components(parts)
    ensures '/' !in c
  {
    if parts != [] && c != parts[0] {
      ComponentsHaveNoSlash(parts[1..], c);
    }
  }

  /** Index of the last `.` in `s`, if any. */
  function LastDot(s: string): (r: Option<nat>)
    ensures r.Some? ==> r.value < |s| && s[r.value] == '.' && '.' !in s[r.value + 1..]
    ensures r.None? ==> '.' !in s
  {
    if s == [] then None
    else if s[|s| - 1] == '.' then Some(|s| - 1)
    else
      var r := LastDot(s[..|s| - 1]);
      assert s == s[..|s| - 1] + [s[|s| - 1]];
      if r.Some? then
        assert s[r.value + 1..] == s[..|s| - 1][r.value + 1..] + [s[|s| - 1]];
        r
      else r
  }

  /**
   * `Path::extension`: the text after the last `.` of the file name, unless
   * that dot is the name's first character (a dot-file has no extension).
   */
  function Extension(path: string): (r: Option<string>)
    ensures r.Some? ==> FileName(path).Some? && '.' !in r.value
  {
    match FileName(path)
    case None => None
    case Some(name) =>
      match LastDot(name)
      case None => None
      case Some(i) => if i == 0 then None else Some(name[i + 1..])
  }

  datatype LibraryFormat = XmlExport | MasterDatabase

  /** The parser `load_tracks` dispatches to. */
  function LoadFormat(path: string): (f: LibraryFormat)
    ensures f == XmlExport <==> Extension(path).Some? && EqIgnoreAsciiCase(Extension(path).value, "xml")
  {
    match Extension(path)
    case Some(ext) => if EqIgnoreAsciiCase(ext, "xml") then XmlExport else MasterDatabase
    case None => MasterDatabase
  }

  /** `supports_auto_refresh`: everything except an `.xml` export can be watched. */
  function SupportsAutoRefresh(path: string): bool {
    match Extension(path)
    case Some(ext) => !EqIgnoreAsciiCase(ext, "xml")
    case None => true
  }

  /** Auto-refresh is offered exactly for the files read by the master-database parser. */
  lemma AutoRefreshIffMasterDatabase(path: string)
    ensures SupportsAutoRefresh(path) <==> LoadFormat(path) == MasterDatabase
  {
  }

  /** Paths without an extension go to the master-database parser. */
  lemma NoExtensionIsMasterDatabase(path: string)
    requires Extension(path).None?
    ensures LoadFormat(path) == MasterDatabase && SupportsAutoRefresh(path)
  {
  }

  lemma {:induction false} SplitWithoutSlash(s: string)
    requires '/' !in s
    ensures SplitSlash(s) == [s]
  {
    if s != [] {
      SplitWithoutSlash(s[1..]);
      assert [s[0]] + s[1..] == s;
    }
  }

  /** A dot-file such as `.xml` has no extension, so it is not read as an XML export. */
  lemma DotFileIsNotXml(name: string)
    requires '/' !in name && |name| >= 2 && name[0] == '.' && '.' !in name[1..]
    ensures Extension(name).None?
    ensures LoadFormat(name) == MasterDatabase && SupportsAutoRefresh(name)
  {
    SplitWithoutSlash(name);
    assert name != "." && name != "..";
    assert Components([name]) == [name];
    assert FileName(name) == Some(name);
    var d := LastDot(name);
    assert d.Some? by { assert name[0] == '.'; }
  }

  // ---------------------------------------------------------------------------
  // Locations and file metadata
  // ---------------------------------------------------------------------------

  /** `resolve_location`: the file path if non-empty, else folder and name joined by `/`. */
  function ResolveLocation(filePath: Option<string>, folderPath: Option<string>, fileName: Option<string>)
    : (r: Option<string>)
    ensures filePath.Some? && filePath.value != [] ==> r == filePath
    ensures (filePath.None? || filePath.value == []) ==> (r.Some? <==> folderPath.Some? && fileName.Some?)
  {
    if filePath.Some? && filePath.value != [] then filePath
    else if folderPath.Some? && fileName.Some? then
      var folder := folderPath.value;
      if folder != [] && folder[|folder| - 1] == '/' then Some(folder + fileName.value)
      else Some(folder + "/" + fileName.value)
    else None
  }

  /** A folder without the one trailing `/` it may have. */
  function WithoutTrailingSlash(folder: string): (r: string)
    ensures r == folder || r + "/" == folder
  {
    if folder != [] && folder[|folder| - 1] == '/' then folder[..|folder| - 1] else folder
  }

  /** Joining never doubles or drops the separator that the folder already carries. */
  lemma ResolveLocationJoins(folder: string, name: string, filePath: Option<string>)
    requires filePath.None? || filePath.value == []
    ensures ResolveLocation(filePath, Some(folder), Some(name)) == Some(WithoutTrailingSlash(folder) + "/" + name)
  {
    if folder != [] && folder[|folder| - 1] == '/' {
      assert folder == folder[..|folder| - 1] + "/";
    }
  }

  /** What parsing a `file://` location yields: no URL at all, or the result of `to_file_path`. */
  datatype FileUrl = Unparsable | FileUrlPath(path: Option<string>)

  /** `decode_location`: a `file://` URL becomes its file path; anything else is already a path. */
  function DecodeLocation(value: string, parseFileUrl: string -> FileUrl): (r: Option<string>)
    ensures !StartsWith(value, "file://") ==> r == Some(value)
    ensures StartsWith(value, "file://") && parseFileUrl(value).Unparsable? ==> r == Some(value)
    ensures StartsWith(value, "file://") && parseFileUrl(value).FileUrlPath? ==> r == parseFileUrl(value).path
  {
    if StartsWith(value, "file://") then
      match parseFileUrl(value)
      case FileUrlPath(p) => p
      case Unparsable => Some(value)
    else Some(value)
  }

  datatype FileMetadata = FileMetadata(checksum: Option<string>, durationMs: Option<nat>, available: bool)

  /** `FileMetadata::missing` */
  function MissingFile(): (m: FileMetadata)
    ensures m.checksum.None? && m.durationMs.None? && !m.available
  {
    FileMetadata(None, None, false)
  }

  /**
   * The metadata a parser stores for a track. `probe` stands for
   * `compute_file_metadata`: None when that call fails.
   */
  function MetadataFor(normalizedPath: Option<string>, probe: string -> Option<FileMetadata>): (m: FileMetadata)
    ensures normalizedPath.None? ==> m == MissingFile()
    ensures normalizedPath.Some? && probe(normalizedPath.value).None? ==> m == MissingFile()
    ensures normalizedPath.Some? && probe(normalizedPath.value).Some? ==> m == probe(normalizedPath.value).value
  {
    if normalizedPath.Some? && probe(normalizedPath.value).Some? then probe(normalizedPath.value).value
    else MissingFile()
  }

  // ---------------------------------------------------------------------------
  // Master database (`master.db`)
  // ---------------------------------------------------------------------------

  /** A `djmdHotCue` row: SongID, HotCueNo, InMsec, Name, Color, Type. */
  datatype HotCueRow = HotCueRow(
    songId: int, hotCueNo: int, inMsec: Option<int>,
    name: Option<string>, color: Option<string>, cueType: Option<string>)

  /** A `djmdSong` row: ID, TrackID, Title, Artist, Album, FilePath, FolderPath, FileName. */
  datatype SongRow = SongRow(
    id: int, trackId: Option<string>, title: Option<string>, artist: Option<string>,
    album: Option<string>, filePath: Option<string>, folderPath: Option<string>, fileName: Option<string>)

  function CueOfRow(row: HotCueRow): (c: RekordboxCue)
    ensures c.slot == row.hotCueNo && c.positionMs == row.inMsec.UnwrapOr(0)
    ensures c.name == row.name && c.color == row.color && c.cueType == row.cueType
  {
    RekordboxCue(row.hotCueNo, row.name, row.color, row.inMsec.UnwrapOr(0), row.cueType)
  }

  /** The cues of the rows whose SongID is `songId`, in row order. */
  function CuesOfSong(rows: seq<HotCueRow>, songId: int): (cs: seq<RekordboxCue>)
    ensures |cs| <= |rows|
  {
    if rows == [] then []
    else
      var prefix := CuesOfSong(rows[..|rows| - 1], songId);
      if rows[|rows| - 1].songId == songId then prefix + [CueOfRow(rows[|rows| - 1])] else prefix
  }

  /** The song at index `i` is the first row carrying its ID. */
  predicate FirstWithId(songs: seq<SongRow>, i: int)
    requires 0 <= i < |songs|
  {
    !SeenBefore(songs, i, songs[i].id)
  }

  /** The track a `djmdSong` row becomes, given the cues handed to it. */
  function TrackOfSong(song: SongRow, cues: seq<RekordboxCue>, parseFileUrl: string -> FileUrl,
                       probe: string -> Option<FileMetadata>): (t: RekordboxTrack)
    ensures t.rekordboxId == IntToString(song.id) && t.trackReference == song.trackId
    ensures t.title == song.title && t.artist == song.artist && t.album == song.album
    ensures t.location == ResolveLocation(song.filePath, song.folderPath, song.fileName)
    ensures t.normalizedPath == (if t.location.Some? then DecodeLocation(t.location.value, parseFileUrl) else None)
    ensures var m := MetadataFor(t.normalizedPath, probe);
      t.checksum == m.checksum && t.durationMs == m.durationMs && t.available == m.available
    ensures t.cues == cues
  {
    var location := ResolveLocation(song.filePath, song.folderPath, song.fileName);
    var normalized := if location.Some? then DecodeLocation(location.value, parseFileUrl) else None;
    var metadata := MetadataFor(normalized, probe);
    RekordboxTrack(IntToString(song.id), song.trackId, song.title, song.artist, song.album,
                   location, normalized, metadata.checksum, metadata.durationMs, metadata.available, cues)
  }

  /** The first loop of `parse_master_db`: cue rows grouped by SongID, in row order. */
  method GroupCues(cueRows: seq<HotCueRow>) returns (cueMap: map<int, seq<RekordboxCue>>)
    ensures forall id :: id in cueMap <==> CuesOfSong(cueRows, id) != []
    ensures forall id :: id in cueMap ==> cueMap[id] == CuesOfSong(cueRows, id)
  {
    cueMap := map[];
    var k := 0;
    while k < |cueRows|
      invariant 0 <= k <= |cueRows|
      invariant forall id :: id in cueMap <==> CuesOfSong(cueRows[..k], id) != []
      invariant forall id :: id in cueMap ==> cueMap[id] == CuesOfSong(cueRows[..k], id)
    {
      var row := cueRows[k];
      var existing := if row.songId in cueMap then cueMap[row.songId] else [];
      cueMap := cueMap[row.songId := existing + [CueOfRow(row)]];
      assert cueRows[..k + 1][..k] == cueRows[..k];
      k := k + 1;
    }
    assert cueRows[..k] == cueRows;
  }

  /** The cues `parse_master_db` hands to the song at index `i`. */
  function SongCues(cueRows: seq<HotCueRow>, songs: seq<SongRow>, i: int): seq<RekordboxCue>
    requires 0 <= i < |songs|
  {
    if FirstWithId(songs, i) then CuesOfSong(cueRows, songs[i].id) else []
  }

  /**
   * `parse_master_db` after the two queries: each song takes (and removes) the
   * cue group of its ID, so only the first song with a given ID gets cues.
   */
  method ParseMasterDb(cueRows: seq<HotCueRow>, songs: seq<SongRow>,
                       parseFileUrl: string -> FileUrl, probe: string -> Option<FileMetadata>)
    returns (tracks: seq<RekordboxTrack>)
    ensures |tracks| == |songs|
    ensures forall i {:trigger tracks[i]} :: 0 <= i < |songs| ==>
      tracks[i] == TrackOfSong(songs[i], SongCues(cueRows, songs, i), parseFileUrl, probe)
  {
    var cueMap := GroupCues(cueRows);
    ghost var grouped := cueMap;
    tracks := [];
    var i := 0;
    while i < |songs|
      invariant 0 <= i <= |songs|
      invariant |tracks| == i
      invariant forall j {:trigger tracks[j]} :: 0 <= j < i ==>
        tracks[j] == TrackOfSong(songs[j], SongCues(cueRows, songs, j), parseFileUrl, probe)
      invariant forall id :: id in cueMap <==> id in grouped && !SeenBefore(songs, i, id)
      invariant forall id :: id in cueMap ==> cueMap[id] == grouped[id]
    {
      var song := songs[i];
      var cues := TakeCues(cueMap, song.id);
      TakenCues(cueRows, songs, i, grouped, cueMap);
      assert cues == SongCues(cueRows, songs, i);
      cueMap := cueMap - {song.id};
      SeenBeforeNext(songs, i);
      ghost var before := tracks;
      tracks := tracks + [TrackOfSong(song, cues, parseFileUrl, probe)];
      assert forall j :: 0 <= j < i ==> tracks[j] == before[j];
      i := i + 1;
    }
  }

  /** The cue group left in the map for the song at `i` is the one `SongCues` assigns it. */
  lemma TakenCues(cueRows: seq<HotCueRow>, songs: seq<SongRow>, i: int,
                  grouped: map<int, seq<RekordboxCue>>, cueMap: map<int, seq<RekordboxCue>>)
    requires 0 <= i < |songs|
    requires forall id :: id in grouped <==> CuesOfSong(cueRows, id) != []
    requires forall id :: id in grouped ==> grouped[id] == CuesOfSong(cueRows, id)
    requires forall id :: id in cueMap <==> id in grouped && !SeenBefore(songs, i, id)
    requires forall id :: id in cueMap ==> cueMap[id] == grouped[id]
    ensures TakeCues(cueMap, songs[i].id) == SongCues(cueRows, songs, i)
  {
  }

  /** Some song before index `i` carries `id`. */
  predicate SeenBefore(songs: seq<SongRow>, i: int, id: int)
    requires 0 <= i <= |songs|
  {
    exists j :: 0 <= j < i && songs[j].id == id
  }

  lemma SeenBeforeNext(songs: seq<SongRow>, i: int)
    requires 0 <= i < |songs|
    ensures forall id :: SeenBefore(songs, i + 1, id) <==> SeenBefore(songs, i, id) || id == songs[i].id
  {
    forall id
      ensures SeenBefore(songs, i + 1, id) <==> SeenBefore(songs, i, id) || id == songs[i].id
    {
      if SeenBefore(songs, i, id) {
        var j :| 0 <= j < i && songs[j].id == id;
        assert 0 <= j < i + 1 && songs[j].id == id;
      }
      if id == songs[i].id {
        assert 0 <= i < i + 1 && songs[i].id == id;
      }
    }
  }

  /** `cue_map.remove(id).unwrap_or_default()`, value part. */
  function TakeCues(cueMap: map<int, seq<RekordboxCue>>, id: int): (cs: seq<RekordboxCue>)
    ensures id in cueMap ==> cs == cueMap[id]
    ensures id !in cueMap ==> cs == []
  {
    if id in cueMap then cueMap[id] else []
  }

  /** Each cue row is handed to at most one track: later songs with the same ID get none. */
  lemma CueRowsAttachedOnce(cueRows: seq<HotCueRow>, songs: seq<SongRow>, i: int, j: int)
    requires 0 <= i < j < |songs| && songs[i].id == songs[j].id
    ensures SongCues(cueRows, songs, j) == []
  {
    assert SeenBefore(songs, j, songs[j].id);
  }

  /** The cues of a song are the hot-cue rows with its ID, in order, with a missing InMsec as 0. */
  lemma {:induction false} CuesOfSongExact(rows: seq<HotCueRow>, songId: int)
    ensures |CuesOfSong(rows, songId)| == |FilterSong(rows, songId)|
    ensures forall k :: 0 <= k < |FilterSong(rows, songId)| ==>
      CuesOfSong(rows, songId)[k] == CueOfRow(FilterSong(rows, songId)[k])
      && FilterSong(rows, songId)[k].songId == songId
  {
    if rows != [] {
      CuesOfSongExact(rows[..|rows| - 1], songId);
    }
  }

  /** The hot-cue rows with a given SongID, in row order. */
  function FilterSong(rows: seq<HotCueRow>, songId: int): seq<HotCueRow> {
    if rows == [] then []
    else
      var prefix := FilterSong(rows[..|rows| - 1], songId);
      if rows[|rows| - 1].songId == songId then prefix + [rows[|rows| - 1]] else prefix
  }

  // ---------------------------------------------------------------------------
  // XML export
  // ---------------------------------------------------------------------------

  /** A `POSITION_MARK` element; `start` is the `Start` attribute in seconds. */
  datatype XmlCue = XmlCue(
    num: Option<int>, name: Option<string>, color: Option<string>, cueType: Option<string>, start: Option<real>)

  /** A `TRACK` element of the `COLLECTION`. */
  datatype XmlTrack = XmlTrack(
    trackId: Option<string>, name: Option<string>, artist: Option<string>, album: Option<string>,
    location: Option<string>, rekordboxId: Option<string>, positionMarks: seq<XmlCue>)

  /** The document root: the `COLLECTION` element may be absent. */
  datatype XmlRoot = XmlRoot(collection: Option<seq<XmlTrack>>)

  /** `f64 as i64`: truncation toward zero, saturating at the `i64` bounds. */
  function TruncateToI64(x: real): (r: int)
    ensures -0x8000_0000_0000_0000 <= r <= 0x7FFF_FFFF_FFFF_FFFF
    ensures x >= 0.0 ==> r <= x.Floor
    ensures 0.0 <= x < 0x7FFF_FFFF_FFFF_FFFF as real ==> r == x.Floor
  {
    var t := if x >= 0.0 then x.Floor else -((-x).Floor);
    if t > 0x7FFF_FFFF_FFFF_FFFF then 0x7FFF_FFFF_FFFF_FFFF
    else if t < -0x8000_0000_0000_0000 then -0x8000_0000_0000_0000
    else t
  }

  function CueOfMark(mark: XmlCue): (c: RekordboxCue)
    ensures c.slot == mark.num.UnwrapOr(0)
    ensures mark.start.None? ==> c.positionMs == 0
    ensures c.name == mark.name && c.color == mark.color && c.cueType == mark.cueType
  {
    var position := if mark.start.Some? then TruncateToI64(mark.start.value * 1000.0) else 0;
    RekordboxCue(mark.num.UnwrapOr(0), mark.name, mark.color, position, mark.cueType)
  }

  function CuesOfMarks(marks: seq<XmlCue>): (cs: seq<RekordboxCue>)
    ensures |cs| == |marks| && forall k :: 0 <= k < |marks| ==> cs[k] == CueOfMark(marks[k])
  {
    seq(|marks|, k requires 0 <= k < |marks| => CueOfMark(marks[k]))
  }

  /** The identifier of an XML entry: RekordboxID, falling back to TrackID. */
  function XmlEntryId(entry: XmlTrack): (r: Option<string>)
    ensures entry.rekordboxId.Some? ==> r == entry.rekordboxId
    ensures entry.rekordboxId.None? ==> r == entry.trackId
  {
    entry.rekordboxId.Or(entry.trackId)
  }

  /** The track an XML entry with identifier `id` becomes. */
  function TrackOfEntry(entry: XmlTrack, id: string, parseFileUrl: string -> FileUrl,
                        probe: string -> Option<FileMetadata>): (t: RekordboxTrack)
    ensures t.rekordboxId == id && t.trackReference == entry.trackId
    ensures t.title == entry.name && t.artist == entry.artist && t.album == entry.album
    ensures t.location == entry.location
    ensures t.normalizedPath == (if t.location.Some? then DecodeLocation(t.location.value, parseFileUrl) else None)
    ensures var m := MetadataFor(t.normalizedPath, probe);
      t.checksum == m.checksum && t.durationMs == m.durationMs && t.available == m.available
    ensures t.cues == CuesOfMarks(entry.positionMarks)
  {
    var normalized := if entry.location.Some? then DecodeLocation(entry.location.value, parseFileUrl) else None;
    var metadata := MetadataFor(normalized, probe);
    RekordboxTrack(id, entry.trackId, entry.name, entry.artist, entry.album, entry.location,
                   normalized, metadata.checksum, metadata.durationMs, metadata.available,
                   CuesOfMarks(entry.positionMarks))
  }

  /** The entries that have an identifier, converted, in document order. */
  function XmlTracks(entries: seq<XmlTrack>, parseFileUrl: string -> FileUrl,
                     probe: string -> Option<FileMetadata>): seq<RekordboxTrack>
  {
    if entries == [] then []
    else
      var prefix := XmlTracks(entries[..|entries| - 1], parseFileUrl, probe);
      var last := entries[|entries| - 1];
      match XmlEntryId(last)
      case None => prefix
      case Some(id) => prefix + [TrackOfEntry(last, id, parseFileUrl, probe)]
  }

  /** `parse_xml_export` after the document is read: entries without any identifier are skipped. */
  method ParseXmlExport(root: XmlRoot, parseFileUrl: string -> FileUrl, probe: string -> Option<FileMetadata>)
    returns (result: seq<RekordboxTrack>)
    ensures root.collection.None? ==> result == []
    ensures root.collection.Some? ==> result == XmlTracks(root.collection.value, parseFileUrl, probe)
  {
    if root.collection.None? {
      return [];
    }
    var entries := root.collection.value;
    result := [];
    var i := 0;
    while i < |entries|
      invariant 0 <= i <= |entries|
      invariant result == XmlTracks(entries[..i], parseFileUrl, probe)
    {
      var entry := entries[i];
      assert entries[..i + 1][..i] == entries[..i];
      i := i + 1;
      var id;
      match XmlEntryId(entry) {
        case None => continue;
        case Some(v) => id := v;
      }
      result := result + [TrackOfEntry(entry, id, parseFileUrl, probe)];
    }
    assert entries[..i] == entries;
  }

  /** Only entries with an identifier appear, and every such entry does. */
  lemma {:induction false} XmlTracksCount(entries: seq<XmlTrack>, parseFileUrl: string -> FileUrl,
                                          probe: string -> Option<FileMetadata>)
    ensures |XmlTracks(entries, parseFileUrl, probe)| == |WithId(entries)|
    ensures forall k :: 0 <= k < |WithId(entries)| ==>
      XmlEntryId(WithId(entries)[k]).Some?
      && XmlTracks(entries, parseFileUrl, probe)[k]
         == TrackOfEntry(WithId(entries)[k], XmlEntryId(WithId(entries)[k]).value, parseFileUrl, probe)
  {
    if entries != [] {
      XmlTracksCount(entries[..|entries| - 1], parseFileUrl, probe);
    }
  }

  /** The entries that carry a RekordboxID or a TrackID, in document order. */
  function WithId(entries: seq<XmlTrack>): seq<XmlTrack> {
    if entries == [] then []
    else
      var prefix := WithId(entries[..|entries| - 1]);
      if XmlEntryId(entries[|entries| - 1]).Some? then prefix + [entries[|entries| - 1]] else prefix
  }
}
