/**
 * `build_lookup_payload` and its helpers (lib.rs): turning a stored
 * SoundCloud snapshot back into the payload the catalog workers take.
 */
module LookupPayload {
  import opened Wrappers
  import opened Text
  import opened Json
  import opened Soundcloud

  /** `SoundcloudLookupRecord` (library/mod.rs): what the store keeps of a SoundCloud track. */
  datatype LookupRecord = LookupRecord(
    trackId: string,
    title: Option<string>,
    artist: Option<string>,
    soundcloudId: Option<string>,
    permalinkUrl: Option<string>,
    rawPayload: Option<Json>)

  /** The whitespace-separated tokens of a string `tag_list`, if there is one. */
  function TagWords(raw: Json): seq<string> {
    var tagList := AsStr(Get(raw, "tag_list"));
    if tagList.Some? then Words(tagList.value) else []
  }

  /** The tag tokens, then the trimmed `genre` when it is not blank and not already a tag. */
  function LookupTags(raw: Json): seq<string> {
    var words := TagWords(raw);
    var genre := AsStr(Get(raw, "genre"));
    if genre.Some? && Trim(genre.value) != [] && Trim(genre.value) !in words then words + [Trim(genre.value)]
    else words
  }

  /** `extract_lookup_tags` */
  method ExtractLookupTags(raw: Json) returns (tags: seq<string>)
    ensures tags == LookupTags(raw)
  {
    tags := [];
    var tagList := AsStr(Get(raw, "tag_list"));
    if tagList.Some? {
      var words := Words(tagList.value);
      for i := 0 to |words|
        invariant tags == words[..i]
      {
        var trimmed := Trim(words[i]);
        TrimOfTrimmed(words[i]);
        assert trimmed == words[i] != [];
        assert words[..i + 1] == words[..i] + [words[i]];
        if trimmed != [] {
          tags := tags + [trimmed];
        }
      }
      assert words[..|words|] == words;
    }
    assert tags == TagWords(raw);
    var genre := AsStr(Get(raw, "genre"));
    if genre.Some? {
      var trimmed := Trim(genre.value);
      if trimmed != [] && trimmed !in tags {
        tags := tags + [trimmed];
      }
    }
  }

  /**
   * The tags are the tag tokens and the non-blank trimmed genre, and the
   * genre is never added twice.
   */
  lemma LookupTagsMembers(raw: Json)
    ensures var genre := AsStr(Get(raw, "genre"));
      forall t :: t in LookupTags(raw) <==>
        t in TagWords(raw) || (genre.Some? && t == Trim(genre.value) && t != [])
    ensures |LookupTags(raw)| <= |TagWords(raw)| + 1
    ensures LookupTags(raw)[..|TagWords(raw)|] == TagWords(raw)
  {
  }

  /** A tag list written as space-separated tokens reads back as those tokens. */
  lemma LookupTagsOfJoined(raw: Json, tags: seq<string>)
    requires forall i :: 0 <= i < |tags| ==> tags[i] != [] && NoWhitespace(tags[i])
    requires Get(raw, "tag_list") == Some(Str(Join(tags, " "))) && Get(raw, "genre").None?
    ensures LookupTags(raw) == tags
  {
    WordsOfJoin(tags);
  }

  /** `key` holds a string that is not all whitespace, so its trimmed content is not empty. */
  predicate Qualifies(raw: Json, key: string) {
    AsStr(Get(raw, key)).Some? && !NoneButWhitespace(AsStr(Get(raw, key)).value)
  }

  /** The position of the first element satisfying `p`. */
  function FirstWhere<T>(p: T -> bool, xs: seq<T>): (r: Option<nat>)
    ensures r.None? ==> forall i :: 0 <= i < |xs| ==> !p(xs[i])
    ensures r.Some? ==> r.value < |xs| && p(xs[r.value])
    ensures r.Some? ==> forall j :: 0 <= j < r.value ==> !p(xs[j])
  {
    if xs == [] then None
    else if p(xs[0]) then Some(0)
    else
      var r := FirstWhere(p, xs[1..]);
      if r.Some? then Some(r.value + 1) else None
  }

  function Qualifier(raw: Json): string -> bool {
    key => Qualifies(raw, key)
  }

  /** `extract_first_string` as a value: the trimmed string at the first qualifying key. */
  function FirstString(raw: Json, keys: seq<string>): Option<string> {
    match FirstWhere(Qualifier(raw), keys)
    case Some(i) => Some(Trim(AsStr(Get(raw, keys[i])).value))
    case None => None
  }

  /** `extract_first_string` */
  method ExtractFirstString(raw: Json, keys: seq<string>) returns (r: Option<string>)
    ensures r == FirstString(raw, keys)
  {
    for i := 0 to |keys|
      invariant forall j :: 0 <= j < i ==> !Qualifies(raw, keys[j])
    {
      var value := AsStr(Get(raw, keys[i]));
      if value.Some? {
        var trimmed := Trim(value.value);
        if trimmed != [] {
          FirstStringAt(raw, keys, i);
          return Some(trimmed);
        }
      }
      NoneBefore(raw, keys, i);
    }
    FirstStringNone(raw, keys);
    return None;
  }

  lemma FirstStringAt(raw: Json, keys: seq<string>, i: nat)
    requires i < |keys| && Qualifies(raw, keys[i])
    requires forall j :: 0 <= j < i ==> !Qualifies(raw, keys[j])
    ensures FirstString(raw, keys) == Some(Trim(AsStr(Get(raw, keys[i])).value))
  {
    var q := Qualifier(raw);
    assert q(keys[i]);
    assert FirstWhere(q, keys) == Some(i);
  }

  /** A key that does not qualify extends the run of keys that do not. */
  lemma NoneBefore(raw: Json, keys: seq<string>, i: nat)
    requires i < |keys| && !Qualifies(raw, keys[i])
    requires forall j :: 0 <= j < i ==> !Qualifies(raw, keys[j])
    ensures forall j :: 0 <= j < i + 1 ==> !Qualifies(raw, keys[j])
  {
  }

  lemma FirstStringNone(raw: Json, keys: seq<string>)
    requires forall j :: 0 <= j < |keys| ==> !Qualifies(raw, keys[j])
    ensures FirstString(raw, keys).None?
  {
    var q := Qualifier(raw);
    var r := FirstWhere(q, keys);
    assert forall j :: 0 <= j < |keys| ==> !q(keys[j]);
  }

  /** `value.get(key).and_then(Value::as_i64)` */
  function I64At(raw: Json, key: string): Option<int> {
    match Get(raw, key)
    case Some(v) => AsI64(v)
    case None => None
  }

  /** `duration`, or else `full_duration`, as long as the one read is a 64-bit integer. */
  function DurationOf(raw: Json): Option<int> {
    I64At(raw, "duration").Or(I64At(raw, "full_duration"))
  }

  /** The first of `playlist_position` and `playlistPosition` that is present, if it is a 64-bit integer. */
  function PositionOf(raw: Json): Option<int> {
    match Get(raw, "playlist_position").Or(Get(raw, "playlistPosition"))
    case Some(v) => AsI64(v)
    case None => None
  }

  /** `build_lookup_payload` */
  function BuildLookupPayload(record: LookupRecord): TrackPayload {
    var raw := record.rawPayload.UnwrapOr(Null);
    TrackPayload(
      record.trackId,
      record.soundcloudId.UnwrapOr(record.trackId),
      record.title,
      record.artist,
      LookupTags(raw),
      record.permalinkUrl,
      FirstString(raw, ["artwork_url", "artworkUrl"]),
      DurationOf(raw),
      FirstString(raw, ["liked_at", "likedAt"]),
      FirstString(raw, ["playlist_id", "playlistId"]),
      PositionOf(raw),
      FirstString(raw, ["source"]),
      raw)
  }

  /**
   * The payload keeps the record's own fields, falls back to the track id
   * for a missing SoundCloud id, and with no stored raw payload carries
   * `null` and nothing derived from it.
   */
  lemma LookupPayloadDefaults(record: LookupRecord)
    ensures var p := BuildLookupPayload(record);
      && p.trackId == record.trackId && p.title == record.title && p.artist == record.artist
      && p.permalinkUrl == record.permalinkUrl
      && (record.soundcloudId.None? ==> p.soundcloudId == record.trackId)
      && (record.rawPayload.None? ==>
            && p.raw == Null && p.tags == [] && p.artworkUrl.None? && p.durationMs.None?
            && p.likedAt.None? && p.playlistId.None? && p.playlistPosition.None? && p.source.None?)
  {
    if record.rawPayload.None? {
      FirstStringNone(Null, ["artwork_url", "artworkUrl"]);
      FirstStringNone(Null, ["liked_at", "likedAt"]);
      FirstStringNone(Null, ["playlist_id", "playlistId"]);
      FirstStringNone(Null, ["source"]);
    }
  }

  /** A `duration` that is not an integer gives way to `full_duration`. */
  lemma DurationFallsThrough(raw: Json, d: int)
    requires Get(raw, "duration").Some? && !Get(raw, "duration").value.Int?
    requires Get(raw, "full_duration") == Some(Int(d)) && I64_MIN <= d <= I64_MAX
    ensures BuildLookupPayload(LookupRecord("", None, None, None, None, Some(raw))).durationMs == Some(d)
  {
  }

  /** A `playlist_position` that is not an integer hides `playlistPosition`: the position is lost. */
  lemma PositionDoesNotFallThrough(raw: Json)
    requires Get(raw, "playlist_position").Some? && !Get(raw, "playlist_position").value.Int?
    ensures BuildLookupPayload(LookupRecord("", None, None, None, None, Some(raw))).playlistPosition.None?
  {
  }
}
