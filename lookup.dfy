/**
 * What the two catalog workers (discogs.rs, musicbrainz.rs) have in common:
 * each declares the same `LookupResult` and `LookupFailure` enums, keeps at
 * most five candidates, and writes an HTTP status with `StatusCode`'s
 * `Display`. They are modelled once here.
 */
module Lookup {
  import opened Wrappers
  import opened Text
  import opened Json

  /** Both workers keep at most five candidates (`truncate(5)`, `take(5)`). */
  const MAX_CANDIDATES: nat := 5

  /** The release a lookup settled on, or the candidates it could not choose between. */
  datatype LookupResult = Success(release: Json, confidence: real) | Ambiguous(candidates: seq<Json>)

  /** A failure the worker words itself, or the text of an error it passes on. */
  datatype LookupFailure = Message(message: string) | Error(error: string) {
    /** `into_message` */
    function IntoMessage(): string {
      match this
      case Message(m) => m
      case Error(e) => e
    }
  }

  /** `StatusCode`'s `Display`: the code, then its canonical reason phrase. */
  function StatusText(status: nat, reason: Option<string>): string {
    NatToString(status) + " " + reason.UnwrapOr("<unknown status code>")
  }

  /** The payload of the `app://discogs/lookup-ambiguous` and `app://musicbrainz/lookup-ambiguous` events. */
  function AmbiguityEvent(trackId: string, query: string, candidates: seq<Json>): Json {
    Obj(map["trackId" := Str(trackId), "query" := Str(query), "candidates" := Arr(candidates)])
  }

  function Min(a: nat, b: nat): nat {
    if a <= b then a else b
  }
}
