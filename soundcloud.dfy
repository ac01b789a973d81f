/**
 * `SoundcloudTrackPayload` (lib.rs): the track description the front end sends
 * and both catalog workers take their search terms from.
 */
module Soundcloud {
  import opened Wrappers
  import opened Json

  datatype TrackPayload = TrackPayload(
    trackId: string,
    soundcloudId: string,
    title: Option<string>,
    artist: Option<string>,
    tags: seq<string>,
    permalinkUrl: Option<string>,
    artworkUrl: Option<string>,
    durationMs: Option<int>,
    likedAt: Option<string>,
    playlistId: Option<string>,
    playlistPosition: Option<int>,
    source: Option<string>,
    raw: Json)
}
