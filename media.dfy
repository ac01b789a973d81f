/**
 * The platform-independent part of media.rs: the payload the web view
 * sends about what is playing, its normalisation into a `MediaUpdate`, and
 * the `MediaCache` that remembers the latest playback state and metadata
 * for the operating system's media controls.
 */
module Media {
  import opened Wrappers

  /** `ArtworkEntry`: one entry of the web page's `artwork` array. */
  datatype ArtworkEntry = ArtworkEntry(src: Option<string>)

  /** `MediaMetadataPayload`, as deserialised from the web view. */
  datatype MetadataPayload = MetadataPayload(
    title: Option<string>,
    artist: Option<string>,
    album: Option<string>,
    artwork: Option<seq<ArtworkEntry>>,
    artworkUrl: Option<string>)

  /** `MediaUpdatePayload` */
  datatype UpdatePayload = UpdatePayload(playbackState: Option<string>, metadata: Option<MetadataPayload>)

  /** `MediaMetadata`: what the media controls show. */
  datatype MediaMetadata = MediaMetadata(
    title: Option<string>,
    artist: Option<string>,
    album: Option<string>,
    artworkUrl: Option<string>)

  datatype PlaybackStatus = Playing | Paused | Stopped

  /** `impl Default for PlaybackStatus` */
  const DEFAULT_PLAYBACK: PlaybackStatus := Paused

  /** `MediaUpdate` */
  datatype MediaUpdate = MediaUpdate(playback: PlaybackStatus, metadata: Option<MediaMetadata>)

  /** `entries.into_iter().find_map(|entry| entry.src)`: the first `src` that is present. */
  function FirstSrc(entries: seq<ArtworkEntry>): (r: Option<string>)
    ensures r.None? <==> forall i :: 0 <= i < |entries| ==> entries[i].src.None?
    ensures r.Some? ==> exists i :: 0 <= i < |entries| && entries[i].src == r
  {
    if entries == [] then None
    else if entries[0].src.Some? then entries[0].src
    else
      var r := FirstSrc(entries[1..]);
      assert forall i :: 1 <= i < |entries| ==> entries[i] == entries[1..][i - 1];
      r
  }

  /** No entry before the one at `i` has a `src`. */
  predicate NoSrcBefore(entries: seq<ArtworkEntry>, i: nat) {
    forall j :: 0 <= j < i && j < |entries| ==> entries[j].src.None?
  }

  /** `find_map` stops at the first entry with a `src`. */
  lemma {:induction false} FirstSrcIsFirst(entries: seq<ArtworkEntry>, i: nat)
    requires i < |entries| && entries[i].src.Some?
    requires NoSrcBefore(entries, i)
    ensures FirstSrc(entries) == entries[i].src
  {
    if i > 0 {
      assert entries[0].src.None?;
      forall j | 0 <= j < i - 1
        ensures entries[1..][j].src.None?
      {
        assert entries[1..][j] == entries[j + 1];
      }
      FirstSrcIsFirst(entries[1..], i - 1);
    }
  }

  /** `MediaMetadataPayload::into_metadata` */
  function IntoMetadata(p: MetadataPayload): MediaMetadata {
    var artworkUrl := if p.artworkUrl.Some? then p.artworkUrl
                      else if p.artwork.Some? then FirstSrc(p.artwork.value)
                      else None;
    MediaMetadata(p.title, p.artist, p.album, artworkUrl)
  }

  /**
   * Title, artist and album pass unchanged; `artwork_url` wins over the
   * `artwork` array, which gives the `src` of its first entry that has
   * one, and nothing when no entry has one.
   */
  lemma IntoMetadataArtwork(p: MetadataPayload)
    ensures IntoMetadata(p).title == p.title && IntoMetadata(p).artist == p.artist && IntoMetadata(p).album == p.album
    ensures p.artworkUrl.Some? ==> IntoMetadata(p).artworkUrl == p.artworkUrl
    ensures p.artworkUrl.None? && p.artwork.None? ==> IntoMetadata(p).artworkUrl.None?
    ensures p.artworkUrl.None? && p.artwork.Some? ==>
      (IntoMetadata(p).artworkUrl.None? <==> forall i :: 0 <= i < |p.artwork.value| ==> p.artwork.value[i].src.None?)
    ensures p.artworkUrl.None? && p.artwork.Some? ==>
      forall i :: 0 <= i < |p.artwork.value| && p.artwork.value[i].src.Some? && NoSrcBefore(p.artwork.value, i) ==>
        IntoMetadata(p).artworkUrl == p.artwork.value[i].src
  {
    if p.artworkUrl.None? && p.artwork.Some? {
      var entries := p.artwork.value;
      forall i | 0 <= i < |entries| && entries[i].src.Some? && NoSrcBefore(entries, i)
        ensures FirstSrc(entries) == entries[i].src
      {
        FirstSrcIsFirst(entries, i);
      }
    }
  }

  /** `PlaybackStatus::from_str` */
  function PlaybackFromStr(value: string): Option<PlaybackStatus> {
    match value
    case "playing" => Some(Playing)
    case "paused" => Some(Paused)
    case "stopped" => Some(Stopped)
    case _ => None
  }

  /** The three lower-case names, and nothing else, name a status, each its own. */
  lemma PlaybackFromStrExact(value: string)
    ensures PlaybackFromStr(value).Some? <==> value == "playing" || value == "paused" || value == "stopped"
    ensures PlaybackFromStr(value) == Some(Playing) <==> value == "playing"
    ensures PlaybackFromStr(value) == Some(Paused) <==> value == "paused"
    ensures PlaybackFromStr(value) == Some(Stopped) <==> value == "stopped"
  {
  }

  /** `MediaUpdate::from_payload` */
  function FromPayload(payload: UpdatePayload): Option<MediaUpdate> {
    var playback := if payload.playbackState.Some? then PlaybackFromStr(payload.playbackState.value).UnwrapOr(DEFAULT_PLAYBACK)
                    else DEFAULT_PLAYBACK;
    var metadata := if payload.metadata.Some? then Some(IntoMetadata(payload.metadata.value)) else None;
    if metadata.None? && payload.playbackState.None? then None
    else Some(MediaUpdate(playback, metadata))
  }

  /**
   * A payload yields an update unless it has neither a playback state nor
   * metadata; a missing or unknown state means paused, and the metadata is
   * normalised by `into_metadata`.
   */
  lemma FromPayloadCases(payload: UpdatePayload)
    ensures FromPayload(payload).None? <==> payload.playbackState.None? && payload.metadata.None?
    ensures FromPayload(payload).Some? ==>
      && (payload.playbackState.None? ==> FromPayload(payload).value.playback == Paused)
      && (payload.playbackState.Some? && PlaybackFromStr(payload.playbackState.value).None? ==>
            FromPayload(payload).value.playback == Paused)
      && (payload.playbackState.Some? && PlaybackFromStr(payload.playbackState.value).Some? ==>
            FromPayload(payload).value.playback == PlaybackFromStr(payload.playbackState.value).value)
      && (payload.metadata.None? ==> FromPayload(payload).value.metadata.None?)
      && (payload.metadata.Some? ==> FromPayload(payload).value.metadata == Some(IntoMetadata(payload.metadata.value)))
  {
  }

  /** What a `MediaCache` holds. */
  datatype CacheState = CacheState(playback: PlaybackStatus, metadata: Option<MediaMetadata>)

  /** The cache after `MediaCache::update` with `u`. */
  function Applied(c: CacheState, u: MediaUpdate): CacheState {
    CacheState(u.playback, if u.metadata.Some? then u.metadata else c.metadata)
  }

  /** No update after the one at `i` carries metadata. */
  predicate NoMetadataAfter(us: seq<MediaUpdate>, i: nat) {
    forall j :: i < j < |us| ==> us[j].metadata.None?
  }

  /** The cache after a run of updates, in order. */
  function AppliedAll(c: CacheState, us: seq<MediaUpdate>): CacheState {
    if us == [] then c else Applied(AppliedAll(c, us[..|us| - 1]), us[|us| - 1])
  }

  /** Delivering the same update twice leaves the cache as delivering it once. */
  lemma AppliedIdempotent(c: CacheState, u: MediaUpdate)
    ensures Applied(Applied(c, u), u) == Applied(c, u)
  {
  }

  /**
   * After a run of updates the cache plays what the last update says, and
   * shows the metadata of the last update that carried any, or what it
   * showed before when none did.
   */
  lemma {:induction false} AppliedAllLatest(c: CacheState, us: seq<MediaUpdate>)
    ensures us != [] ==> AppliedAll(c, us).playback == us[|us| - 1].playback
    ensures (forall i :: 0 <= i < |us| ==> us[i].metadata.None?) ==> AppliedAll(c, us).metadata == c.metadata
    ensures forall i :: 0 <= i < |us| && us[i].metadata.Some? && NoMetadataAfter(us, i) ==>
      AppliedAll(c, us).metadata == us[i].metadata
  {
    if us != [] {
      var init := us[..|us| - 1];
      var last := us[|us| - 1];
      AppliedAllLatest(c, init);
      assert AppliedAll(c, us) == Applied(AppliedAll(c, init), last);
      forall i | 0 <= i < |us| && us[i].metadata.Some? && NoMetadataAfter(us, i)
        ensures AppliedAll(c, us).metadata == us[i].metadata
      {
        if i < |init| {
          assert last.metadata.None?;
          assert init[i] == us[i];
          forall j | i < j < |init|
            ensures init[j].metadata.None?
          {
            assert init[j] == us[j];
          }
          assert NoMetadataAfter(init, i);
        }
      }
      if forall i :: 0 <= i < |us| ==> us[i].metadata.None? {
        forall i | 0 <= i < |init|
          ensures init[i].metadata.None?
        {
          assert init[i] == us[i];
        }
      }
    }
  }

  /** `MediaCache`: the state last pushed to the media controls. */
  class MediaCache {
    var playback: PlaybackStatus
    var metadata: Option<MediaMetadata>

    function State(): CacheState
      reads this
    {
      CacheState(playback, metadata)
    }

    /** `MediaCache::default()` */
    constructor ()
      ensures State() == CacheState(DEFAULT_PLAYBACK, None)
    {
      playback := DEFAULT_PLAYBACK;
      metadata := None;
    }

    /** `MediaCache::update`: the playback always follows the update, the metadata only when the update has some. */
    method Update(update: MediaUpdate)
      modifies this
      ensures State() == Applied(old(State()), update)
    {
      playback := update.playback;
      if update.metadata.Some? {
        metadata := update.metadata;
      }
    }
  }

  /** A payload with only a playback state changes the playback and keeps the metadata shown. */
  lemma PlaybackOnlyKeepsMetadata(c: CacheState, state: string)
    ensures FromPayload(UpdatePayload(Some(state), None)).Some?
    ensures Applied(c, FromPayload(UpdatePayload(Some(state), None)).value) ==
      CacheState(PlaybackFromStr(state).UnwrapOr(Paused), c.metadata)
  {
  }
}
