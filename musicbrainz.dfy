/**
 * The MusicBrainz lookup worker (musicbrainz.rs): the search query built from
 * a track payload, the request loop that retries rate-limited answers, the
 * confidence decision over the returned releases, and the job that records
 * the outcome in the library store. HTTP exchanges are inputs: each attempt
 * is given the clock reading at which it waits for the rate limiter and the
 * response it gets.
 */
module MusicBrainz {
  import opened Wrappers
  import opened Text
  import opened Json
  import Library
  import opened Sorting
  import opened RateLimit
  import opened Soundcloud
  import opened Lookup
  import LibraryStore

  const MAX_ATTEMPTS: nat := 3

  // ---------------------------------------------------------------------------
  // The search query
  // ---------------------------------------------------------------------------

  /** `normalize_term`: the trimmed value with its double quotes escaped; nothing when blank. */
  function NormalizeTerm(value: string): (r: Option<string>)
    ensures r.None? <==> Trim(value) == []
    ensures r.Some? ==> r.value != [] && UnescapeQuotes(r.value) == Trim(value)
  {
    var trimmed := Trim(value);
    if trimmed == [] then None
    else
      EscapeQuotesRoundTrip(trimmed);
      Some(EscapeQuotes(trimmed))
  }

  /** `.as_ref().and_then(normalize_term)` */
  function NormalizeOption(value: Option<string>): Option<string> {
    if value.Some? then NormalizeTerm(value.value) else None
  }

  /** The test `find` applies to each tag: its lower-cased text contains `album:`. */
  predicate IsAlbumTag(tag: string) {
    Contains(AsciiLowerStr(tag), "album:")
  }

  /** The position of the tag `tags.iter().find(..)` returns. */
  function AlbumTagIndex(tags: seq<string>): (r: Option<nat>)
    ensures r.None? <==> forall k :: 0 <= k < |tags| ==> !IsAlbumTag(tags[k])
    ensures r.Some? ==> r.value < |tags| && IsAlbumTag(tags[r.value])
    ensures r.Some? ==> forall k :: 0 <= k < r.value ==> !IsAlbumTag(tags[k])
  {
    if tags == [] then None
    else if IsAlbumTag(tags[0]) then Some(0)
    else match AlbumTagIndex(tags[1..])
      case None => None
      case Some(i) => Some(i + 1)
  }

  /** The release term: the whole first album tag, normalised. */
  function AlbumTerm(tags: seq<string>): Option<string> {
    match AlbumTagIndex(tags)
    case None => None
    case Some(i) => NormalizeTerm(tags[i])
  }

  /** `format!("{field}:\"{term}\"")` */
  function Field(name: string, term: string): (r: string)
    ensures |r| > |name| && r[..|name|] == name
  {
    name + ":\"" + term + "\""
  }

  function ComponentIf(name: string, term: Option<string>): seq<string> {
    if term.Some? then [Field(name, term.value)] else []
  }

  /** The components `build_search_query` pushes for the terms it found, in the order it pushes them. */
  function Components(artist: Option<string>, title: Option<string>, release: Option<string>): seq<string> {
    ComponentIf("artist", artist) + ComponentIf("recording", title) + ComponentIf("release", release)
  }

  function SearchComponents(p: TrackPayload): seq<string> {
    Components(NormalizeOption(p.artist), NormalizeOption(p.title), AlbumTerm(p.tags))
  }

  lemma ComponentIfHead(name: string, term: Option<string>)
    requires name != []
    ensures var cs := ComponentIf(name, term);
      |cs| <= 1 && forall i :: 0 <= i < |cs| ==> cs[i] != [] && cs[i][0] == name[0]
  {
  }

  /**
   * The query is empty, and also blank, exactly when no term was found: every
   * component starts with the first letter of its field name.
   */
  lemma {:induction false} ComponentsQuery(artist: Option<string>, title: Option<string>, release: Option<string>)
    ensures var query := Join(Components(artist, title, release), " AND ");
      && (query == [] <==> artist.None? && title.None? && release.None?)
      && (Trim(query) == [] <==> artist.None? && title.None? && release.None?)
  {
    ComponentIfHead("artist", artist);
    ComponentIfHead("recording", title);
    ComponentIfHead("release", release);
    var cs := Components(artist, title, release);
    assert forall i :: 0 <= i < |cs| ==> cs[i] != [] && (cs[i][0] == 'a' || cs[i][0] == 'r');
    JoinHead(cs, " AND ");
    var query := Join(cs, " AND ");
    if cs != [] {
      assert !IsWhitespace(query[0]);
    }
  }

  /** `build_search_query` */
  method BuildSearchQuery(p: TrackPayload) returns (query: string)
    ensures query == Join(SearchComponents(p), " AND ")
    ensures query == [] <==>
      NormalizeOption(p.artist).None? && NormalizeOption(p.title).None? && AlbumTerm(p.tags).None?
  {
    var components: seq<string> := [];
    var artist := NormalizeOption(p.artist);
    components := PushComponent(components, "artist", artist);
    assert components == ComponentIf("artist", artist);
    var title := NormalizeOption(p.title);
    components := PushComponent(components, "recording", title);
    var album := AlbumTagIndex(p.tags);
    var release := if album.Some? then NormalizeTerm(p.tags[album.value]) else None;
    assert release == AlbumTerm(p.tags);
    components := PushComponent(components, "release", release);
    assert components == Components(artist, title, release);
    ComponentsQuery(artist, title, release);
    query := Join(components, " AND ");
  }

  /** `if let Some(term) = .. { components.push(format!("{name}:\"{term}\"")) }` */
  method PushComponent(components: seq<string>, name: string, term: Option<string>) returns (r: seq<string>)
    ensures r == components + ComponentIf(name, term)
  {
    r := components;
    if term.Some? {
      r := r + [Field(name, term.value)];
    } else {
      assert r == components + [];
    }
  }

  /**
   * The guard of `process_job`: the query is blank exactly when the payload
   * has no artist, no title and no album tag with text in it.
   */
  lemma BlankQueryIffNoTerms(p: TrackPayload)
    ensures Trim(Join(SearchComponents(p), " AND ")) == [] <==>
      NormalizeOption(p.artist).None? && NormalizeOption(p.title).None? && AlbumTerm(p.tags).None?
  {
    ComponentsQuery(NormalizeOption(p.artist), NormalizeOption(p.title), AlbumTerm(p.tags));
  }

  // ---------------------------------------------------------------------------
  // The confidence decision
  // ---------------------------------------------------------------------------

  /** A release's `score`, 0 when it has none. */
  function ReleaseScore(release: Json): real {
    Library.ScoreOf(release).UnwrapOr(0.0)
  }

  /** The `(score, release)` pairs `interpret_lookup` collects, in response order. */
  function Scored(releases: seq<Json>): (s: seq<(real, Json)>)
    ensures |s| == |releases|
    ensures forall i :: 0 <= i < |s| ==> s[i] == (ReleaseScore(releases[i]), releases[i])
  {
    seq(|releases|, i requires 0 <= i < |releases| => (ReleaseScore(releases[i]), releases[i]))
  }

  function PairKey(p: (real, Json)): Option<real> {
    Some(p.0)
  }

  /** The pairs after `sort_by`, highest score first. */
  function Ranked(releases: seq<Json>): (r: seq<(real, Json)>)
    ensures |r| == |releases|
  {
    SortDescPermutes(Scored(releases), PairKey);
    SortDesc(Scored(releases), PairKey)
  }

  function Releases(scored: seq<(real, Json)>): (r: seq<Json>)
    ensures |r| == |scored| && forall i :: 0 <= i < |r| ==> r[i] == scored[i].1
  {
    seq(|scored|, i requires 0 <= i < |scored| => scored[i].1)
  }

  /** A best score of 0 or less counts as 100. */
  function BestScore(top: real): real {
    if top <= 0.0 then 100.0 else top
  }

  predicate Confident(count: nat, best: real, second: real) {
    count == 1 || best >= 95.0 || (best >= 85.0 && best - second >= 10.0)
  }

  /** What `interpret_lookup` returns for a response body. */
  function Interpretation(body: Json): (r: Result<LookupResult, LookupFailure>)
    ensures r.Err? <==> AsArray(Get(body, "releases")).None? || AsArray(Get(body, "releases")) == Some([])
  {
    match AsArray(Get(body, "releases"))
    case None => Err(Message("invalid response payload"))
    case Some(releases) =>
      if releases == [] then Err(Message("MusicBrainz returned no releases"))
      else
        var ranked := Ranked(releases);
        var sorted := Releases(ranked);
        var best := BestScore(ranked[0].0);
        var second := if |sorted| > 1 then ReleaseScore(sorted[1]) else 0.0;
        if Confident(|sorted|, best, second) then Ok(Success(ranked[0].1, best))
        else Ok(Ambiguous(sorted[..Min(MAX_CANDIDATES, |sorted|)]))
  }

  /** The two ways `interpret_lookup` fails, each with its own message. */
  lemma InterpretationErrors(body: Json)
    ensures AsArray(Get(body, "releases")).None? ==>
      Interpretation(body) == Err(Message("invalid response payload"))
    ensures AsArray(Get(body, "releases")) == Some([]) ==>
      Interpretation(body) == Err(Message("MusicBrainz returned no releases"))
  {
  }

  /** `interpret_lookup` */
  method InterpretLookup(body: Json) returns (result: Result<LookupResult, LookupFailure>)
    ensures result == Interpretation(body)
  {
    var found := AsArray(Get(body, "releases"));
    if found.None? {
      return Err(Message("invalid response payload"));
    }
    var releases := found.value;
    var scored: seq<(real, Json)> := [];
    for i := 0 to |releases|
      invariant scored == Scored(releases)[..i]
    {
      var score := Library.ScoreOf(releases[i]).UnwrapOr(0.0);
      scored := scored + [(score, releases[i])];
    }
    assert Scored(releases)[..|releases|] == Scored(releases);
    if scored == [] {
      return Err(Message("MusicBrainz returned no releases"));
    }
    scored := SortDesc(scored, PairKey);
    assert scored == Ranked(releases);
    var sorted := Releases(scored);
    var best := scored[0].0;
    if best <= 0.0 {
      best := 100.0;
    }
    var second := if |sorted| > 1 then ReleaseScore(sorted[1]) else 0.0;
    if |sorted| == 1 || best >= 95.0 || (best >= 85.0 && best - second >= 10.0) {
      result := Ok(Success(scored[0].1, best));
    } else {
      ghost var all := sorted;
      if |sorted| > MAX_CANDIDATES {
        sorted := sorted[..MAX_CANDIDATES];
      }
      assert sorted == all[..Min(MAX_CANDIDATES, |all|)];
      result := Ok(Ambiguous(sorted));
    }
  }

  /** The highest release score, as a reference for what the sort puts first. */
  function MaxScore(releases: seq<Json>): (m: real)
    requires releases != []
    ensures forall i :: 0 <= i < |releases| ==> ReleaseScore(releases[i]) <= m
    ensures exists i :: 0 <= i < |releases| && ReleaseScore(releases[i]) == m
  {
    if |releases| == 1 then ReleaseScore(releases[0])
    else
      var rest := MaxScore(releases[1..]);
      assert forall i :: 1 <= i < |releases| ==> releases[i] == releases[1..][i - 1];
      if ReleaseScore(releases[0]) >= rest then ReleaseScore(releases[0]) else rest
  }

  /** Every ranked pair is a release of the response with its own score. */
  lemma RankedPairs(releases: seq<Json>)
    ensures var ranked := Ranked(releases);
      && multiset(ranked) == multiset(Scored(releases))
      && SortedDesc(ranked, PairKey)
      && forall i :: 0 <= i < |ranked| ==> ranked[i].1 in releases && ranked[i].0 == ReleaseScore(ranked[i].1)
  {
    var ranked := Ranked(releases);
    var scored := Scored(releases);
    SortDescPermutes(scored, PairKey);
    SortDescSorted(scored, PairKey);
    forall i | 0 <= i < |ranked|
      ensures ranked[i].1 in releases && ranked[i].0 == ReleaseScore(ranked[i].1)
    {
      assert ranked[i] in multiset(scored);
      var m :| 0 <= m < |scored| && scored[m] == ranked[i];
    }
  }

  /** The release ranked first carries the highest score of the response. */
  lemma RankedFirstIsBest(releases: seq<Json>)
    requires releases != []
    ensures Ranked(releases)[0].0 == MaxScore(releases)
  {
    var ranked := Ranked(releases);
    RankedPairs(releases);
    SortDescHead(Scored(releases), PairKey);
    var m :| 0 <= m < |releases| && ReleaseScore(releases[m]) == MaxScore(releases);
    assert Scored(releases)[m].0 == MaxScore(releases);
  }

  /**
   * `interpret_lookup` accepts the best release exactly when it is the only
   * one, or its score (0 or less counting as 100) is at least 95, or it is at
   * least 85 and 10 ahead of the runner-up; the confidence is that score.
   */
  lemma InterpretationDecides(body: Json, releases: seq<Json>)
    requires AsArray(Get(body, "releases")) == Some(releases) && releases != []
    ensures var r := Interpretation(body);
      var best := BestScore(MaxScore(releases));
      var second := if |releases| > 1 then Ranked(releases)[1].0 else 0.0;
      && r.Ok?
      && (r.value.Success? <==> Confident(|releases|, best, second))
      && (r.value.Success? ==> r.value.release in releases && r.value.confidence == best
                                && ReleaseScore(r.value.release) == MaxScore(releases))
  {
    RankedFirstIsBest(releases);
    RankedPairs(releases);
  }

  /** Several releases none of which has a positive score are still accepted, with confidence 100. */
  lemma UnscoredReleasesSucceed(body: Json, releases: seq<Json>)
    requires AsArray(Get(body, "releases")) == Some(releases) && releases != []
    requires forall i :: 0 <= i < |releases| ==> ReleaseScore(releases[i]) <= 0.0
    ensures Interpretation(body).Ok? && Interpretation(body).value.Success?
    ensures Interpretation(body).value.confidence == 100.0
  {
    RankedFirstIsBest(releases);
  }

  /** Any prefix of the ranked releases is drawn from the response and ordered by score. */
  lemma RankedPrefix(releases: seq<Json>, n: nat)
    requires n <= |releases|
    ensures var cs := Releases(Ranked(releases))[..n];
      && (forall k :: 0 <= k < |cs| ==> cs[k] in releases)
      && (forall i, j :: 0 <= i < j < |cs| ==> ReleaseScore(cs[j]) <= ReleaseScore(cs[i]))
  {
    RankedPairs(releases);
    var ranked := Ranked(releases);
    var cs := Releases(ranked)[..n];
    forall i, j | 0 <= i < j < |cs|
      ensures ReleaseScore(cs[j]) <= ReleaseScore(cs[i])
    {
      assert cs[i] == ranked[i].1 && cs[j] == ranked[j].1;
      assert !Before(PairKey(ranked[j]), PairKey(ranked[i]));
    }
  }

  /** An ambiguous answer lists the first five ranked releases, best first. */
  lemma InterpretationAmbiguous(body: Json, releases: seq<Json>)
    requires AsArray(Get(body, "releases")) == Some(releases)
    requires Interpretation(body).Ok? && Interpretation(body).value.Ambiguous?
    ensures var cs := Interpretation(body).value.candidates;
      && |releases| >= 2
      && |cs| == Min(MAX_CANDIDATES, |releases|)
      && BestScore(MaxScore(releases)) < 95.0
      && (forall k :: 0 <= k < |cs| ==> cs[k] in releases)
      && (forall i, j :: 0 <= i < j < |cs| ==> ReleaseScore(cs[j]) <= ReleaseScore(cs[i]))
  {
    assert releases != [];
    var ranked := Ranked(releases);
    var sorted := Releases(ranked);
    var best := BestScore(ranked[0].0);
    var second := if |sorted| > 1 then ReleaseScore(sorted[1]) else 0.0;
    assert !Confident(|sorted|, best, second);
    assert Interpretation(body).value.candidates == sorted[..Min(MAX_CANDIDATES, |sorted|)];
    RankedFirstIsBest(releases);
    RankedPrefix(releases, Min(MAX_CANDIDATES, |releases|));
  }

  // ---------------------------------------------------------------------------
  // The request loop
  // ---------------------------------------------------------------------------

  /** What one attempt gets back: a transport failure, or a status with its body. */
  datatype Response =
    | SendFailed(error: string)
    | Answered(status: nat, reason: Option<string>, body: Result<Json, string>)

  /** One attempt: the clock reading when it waits for the limiter, and its response. */
  datatype Exchange = Exchange(at: nat, response: Response)

  /** 429 Too Many Requests and 503 Service Unavailable are retried. */
  predicate RateLimited(r: Response) {
    r.Answered? && (r.status == 429 || r.status == 503)
  }

  /** What the response to attempt number `attempt` decides; `None` means try again. */
  function Verdict(r: Response, attempt: nat): (v: Option<Result<LookupResult, LookupFailure>>)
    ensures v.None? <==> RateLimited(r) && attempt < MAX_ATTEMPTS
  {
    match r
    case SendFailed(e) => Some(Err(Error("request failed: " + e)))
    case Answered(status, reason, body) =>
      if status == 200 then
        Some(if body.Ok? then Interpretation(body.value)
             else Err(Error("failed to parse MusicBrainz response: " + body.error)))
      else if status == 429 || status == 503 then
        if attempt >= MAX_ATTEMPTS then Some(Err(Message("rate limited by MusicBrainz"))) else None
      else if status == 401 || status == 403 then Some(Err(Message("unauthorized MusicBrainz request")))
      else if status == 404 then Some(Err(Message("no releases found for track")))
      else Some(Err(Message("unexpected MusicBrainz status: " + StatusText(status, reason))))
  }

  /** The outcome and the number of requests made, once attempts `0..i` have been retried. */
  function LookupFrom(responses: seq<Response>, i: nat): (out: (Result<LookupResult, LookupFailure>, nat))
    requires i < MAX_ATTEMPTS <= |responses|
    ensures i < out.1 <= MAX_ATTEMPTS
    decreases MAX_ATTEMPTS - i
  {
    match Verdict(responses[i], i + 1)
    case Some(result) => (result, i + 1)
    case None => LookupFrom(responses, i + 1)
  }

  /** One attempt of the retry loop: a verdict ends it, none moves on to the next attempt. */
  lemma LookupFromStep(responses: seq<Response>, i: nat)
    requires i < MAX_ATTEMPTS <= |responses|
    ensures Verdict(responses[i], i + 1).Some? ==> LookupFrom(responses, i) == (Verdict(responses[i], i + 1).value, i + 1)
    ensures Verdict(responses[i], i + 1).None? ==> i + 1 < MAX_ATTEMPTS && LookupFrom(responses, i) == LookupFrom(responses, i + 1)
  {
  }

  function Responses(xs: seq<Exchange>): (r: seq<Response>)
    ensures |r| == |xs| && forall i :: 0 <= i < |xs| ==> r[i] == xs[i].response
  {
    seq(|xs|, i requires 0 <= i < |xs| => xs[i].response)
  }

  function Times(xs: seq<Exchange>): (r: seq<nat>)
    ensures |r| == |xs| && forall i :: 0 <= i < |xs| ==> r[i] == xs[i].at
  {
    seq(|xs|, i requires 0 <= i < |xs| => xs[i].at)
  }

  /**
   * `perform_lookup` makes between one and three requests; every request but
   * the last was answered 429 or 503, and the last one's response decides.
   */
  lemma {:induction false} LookupRetriesOnlyRateLimits(responses: seq<Response>, i: nat)
    requires i < MAX_ATTEMPTS <= |responses|
    ensures var (result, n) := LookupFrom(responses, i);
      && (forall k :: i <= k < n - 1 ==> RateLimited(responses[k]))
      && Verdict(responses[n - 1], n) == Some(result)
    decreases MAX_ATTEMPTS - i
  {
    if Verdict(responses[i], i + 1).None? {
      LookupRetriesOnlyRateLimits(responses, i + 1);
    }
  }

  /** Three rate-limited answers in a row end the lookup after exactly three requests. */
  lemma AllRateLimited(responses: seq<Response>)
    requires MAX_ATTEMPTS <= |responses|
    requires forall k :: 0 <= k < MAX_ATTEMPTS ==> RateLimited(responses[k])
    ensures LookupFrom(responses, 0) == (Err(Message("rate limited by MusicBrainz")), MAX_ATTEMPTS)
  {
  }

  /** Any first answer other than 200, 429 and 503 ends the lookup after one request. */
  lemma TerminalStatus(responses: seq<Response>)
    requires MAX_ATTEMPTS <= |responses|
    requires responses[0].Answered? && responses[0].status !in {200, 429, 503}
    ensures LookupFrom(responses, 0).1 == 1
    ensures responses[0].status == 401 || responses[0].status == 403 ==>
      LookupFrom(responses, 0).0 == Err(Message("unauthorized MusicBrainz request"))
    ensures responses[0].status == 404 ==> LookupFrom(responses, 0).0 == Err(Message("no releases found for track"))
    ensures responses[0].status !in {401, 403, 404} ==>
      LookupFrom(responses, 0).0 ==
      Err(Message("unexpected MusicBrainz status: " + StatusText(responses[0].status, responses[0].reason)))
  {
    var v := Verdict(responses[0], 1);
    assert v.Some?;
    assert LookupFrom(responses, 0) == (v.value, 1);
  }

  /** `perform_lookup`: waits for the limiter before every attempt and retries only rate-limited answers. */
  method PerformLookup(limiter: RateLimiter, exchanges: seq<Exchange>)
    returns (result: Result<LookupResult, LookupFailure>, requests: nat)
    requires MAX_ATTEMPTS <= |exchanges|
    modifies limiter
    ensures (result, requests) == LookupFrom(Responses(exchanges), 0)
    ensures limiter.last == LastAfter(old(limiter.last), limiter.interval, Times(exchanges[..requests]))
  {
    ghost var responses := Responses(exchanges);
    var attempts := 0;
    var done := false;
    result, requests := Err(Message("")), 0;
    while !done
      invariant attempts <= MAX_ATTEMPTS
      invariant !done ==> attempts < MAX_ATTEMPTS && LookupFrom(responses, attempts) == LookupFrom(responses, 0)
      invariant done ==> (result, requests) == LookupFrom(responses, 0) && requests == attempts
      invariant limiter.last == LastAfter(old(limiter.last), limiter.interval, Times(exchanges[..attempts]))
      decreases MAX_ATTEMPTS - attempts, !done
    {
      attempts := attempts + 1;
      var resumed := limiter.Wait(exchanges[attempts - 1].at);
      assert Times(exchanges[..attempts])[..attempts - 1] == Times(exchanges[..attempts - 1]);
      var verdict := ReadResponse(exchanges[attempts - 1].response, attempts);
      LookupFromStep(responses, attempts - 1);
      if verdict.Some? {
        result, requests, done := verdict.value, attempts, true;
      }
    }
  }

  /** The `match response.status()` of attempt number `attempt`; `None` means sleep and try again. */
  method ReadResponse(response: Response, attempt: nat) returns (verdict: Option<Result<LookupResult, LookupFailure>>)
    ensures verdict == Verdict(response, attempt)
  {
    match response
    case SendFailed(e) =>
      verdict := Some(Err(Error("request failed: " + e)));
    case Answered(status, reason, body) =>
      if status == 200 {
        if body.Err? {
          verdict := Some(Err(Error("failed to parse MusicBrainz response: " + body.error)));
        } else {
          var result := InterpretLookup(body.value);
          verdict := Some(result);
        }
      } else if status == 429 || status == 503 {
        verdict := if attempt >= MAX_ATTEMPTS then Some(Err(Message("rate limited by MusicBrainz"))) else None;
      } else if status == 401 || status == 403 {
        verdict := Some(Err(Message("unauthorized MusicBrainz request")));
      } else if status == 404 {
        verdict := Some(Err(Message("no releases found for track")));
      } else {
        verdict := Some(Err(Message("unexpected MusicBrainz status: " + StatusText(status, reason))));
      }
  }

  // ---------------------------------------------------------------------------
  // The job
  // ---------------------------------------------------------------------------

  /** The outcome of `process_job` before it is recorded, and how many requests it made. */
  function JobResult(p: TrackPayload, responses: seq<Response>): (Result<LookupResult, LookupFailure>, nat)
    requires MAX_ATTEMPTS <= |responses|
  {
    if Trim(Join(SearchComponents(p), " AND ")) == [] then (Err(Message("missing title or artist")), 0)
    else LookupFrom(responses, 0)
  }

  /** The match and candidates `process_job` hands to the store for an outcome. */
  function JobRecord(trackId: string, query: string, result: Result<LookupResult, LookupFailure>)
    : (Library.MatchRecord, seq<Library.CandidateRecord>)
  {
    match result
    case Ok(Success(release, confidence)) => Library.MusicbrainzSuccess(trackId, query, release, confidence)
    case Ok(Ambiguous(candidates)) => Library.AmbiguityRecord(trackId, query, candidates)
    case Err(failure) => Library.FailureRecord(trackId, query, failure.IntoMessage())
  }

  /** A payload with no usable terms makes no request and is recorded as a failure. */
  lemma BlankPayloadMakesNoRequest(p: TrackPayload, responses: seq<Response>)
    requires MAX_ATTEMPTS <= |responses|
    ensures JobResult(p, responses).1 == 0 <==>
      NormalizeOption(p.artist).None? && NormalizeOption(p.title).None? && AlbumTerm(p.tags).None?
    ensures JobResult(p, responses).1 == 0 ==> JobResult(p, responses).0 == Err(Message("missing title or artist"))
  {
    BlankQueryIffNoTerms(p);
  }

  /**
   * One turn of the worker loop: a job with an empty track id is skipped,
   * otherwise `process_job` runs and records what it found. Store errors are
   * only logged by the source, and the MusicBrainz record wrappers never fail.
   */
  method HandleJob(store: LibraryStore.LibraryStore, limiter: RateLimiter, p: TrackPayload,
                   exchanges: seq<Exchange>, now: nat)
    returns (requests: nat, event: Option<Json>)
    requires MAX_ATTEMPTS <= |exchanges|
    modifies store, limiter
    ensures p.trackId == [] ==>
      requests == 0 && event.None? && store.db == old(store.db) && limiter.last == old(limiter.last)
    ensures p.trackId != [] ==>
      var query := Join(SearchComponents(p), " AND ");
      var (result, n) := JobResult(p, Responses(exchanges));
      var (r, cs) := JobRecord(p.trackId, query, result);
      var spec := Library.PersistMusicbrainzMatch(old(store.db), r, cs, now);
      && requests == n
      && spec.Ok? && store.db == spec.value
      && limiter.last == LastAfter(old(limiter.last), limiter.interval, Times(exchanges[..n]))
      && event == (if result.Ok? && result.value.Ambiguous?
                   then Some(AmbiguityEvent(p.trackId, query, result.value.candidates)) else None)
  {
    requests, event := 0, None;
    if p.trackId == [] {
      return;
    }
    var query := BuildSearchQuery(p);
    ghost var spec := JobResult(p, Responses(exchanges));
    if Trim(query) == [] {
      assert spec == (Err(Message("missing title or artist")), 0);
      RecordOutcome(store, p.trackId, query, Err(Message("missing title or artist")), now);
      return;
    }
    assert spec == LookupFrom(Responses(exchanges), 0);
    var result;
    result, requests := PerformLookup(limiter, exchanges);
    assert (result, requests) == spec;
    RecordOutcome(store, p.trackId, query, result, now);
    if result.Ok? && result.value.Ambiguous? {
      event := Some(AmbiguityEvent(p.trackId, query, result.value.candidates));
    }
  }

  /** The `match` of `process_job` that hands an outcome to the store; store errors are only logged. */
  method RecordOutcome(store: LibraryStore.LibraryStore, trackId: string, query: string,
                       result: Result<LookupResult, LookupFailure>, now: nat)
    modifies store
    ensures var (r, cs) := JobRecord(trackId, query, result);
      var spec := Library.PersistMusicbrainzMatch(old(store.db), r, cs, now);
      spec.Ok? && store.db == spec.value
  {
    match result
    case Ok(Success(release, confidence)) =>
      var _ := store.RecordMusicbrainzSuccess(trackId, query, release, confidence, now);
    case Ok(Ambiguous(candidates)) =>
      var _ := store.RecordMusicbrainzAmbiguity(trackId, query, candidates, now);
    case Err(failure) =>
      var _ := store.RecordMusicbrainzFailure(trackId, query, failure.IntoMessage(), now);
  }
}
