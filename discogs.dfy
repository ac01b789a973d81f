/**
 * The Discogs lookup worker (discogs.rs): the search term built from a track
 * payload, one rate-limited search, the choice among the release results, a
 * second rate-limited request for the chosen release, and the job that
 * records the outcome in the library store. HTTP exchanges are inputs: the
 * search and the release request are each given the clock reading at which
 * they wait for the rate limiter and what they get back.
 */
module Discogs {
  import opened Wrappers
  import opened Text
  import opened Json
  import opened Sorting
  import opened RateLimit
  import opened Soundcloud
  import opened Lookup
  import Library
  import LibraryStore

  /** Where `resource_url` is missing, the release URL is built from the id under this prefix. */
  const RELEASES_URL: string := "https://api.discogs.com/releases/"

  // ---------------------------------------------------------------------------
  // The search term and parameters
  // ---------------------------------------------------------------------------

  /** The trimmed value as a one-element list, or nothing when it is absent or blank. */
  function TermIf(value: Option<string>): seq<string> {
    if value.Some? && Trim(value.value) != [] then [Trim(value.value)] else []
  }

  predicate Blank(value: Option<string>) {
    value.None? || Trim(value.value) == []
  }

  /** The search term: trimmed artist, then trimmed title, separated by one space. */
  function SearchTerm(p: TrackPayload): string {
    Join(TermIf(p.artist) + TermIf(p.title), " ")
  }

  /** `build_search_term` */
  method BuildSearchTerm(p: TrackPayload) returns (query: string)
    ensures query == SearchTerm(p)
  {
    var terms: seq<string> := [];
    if p.artist.Some? {
      var artist := Trim(p.artist.value);
      if artist != [] {
        terms := terms + [artist];
      }
    }
    assert terms == TermIf(p.artist);
    ghost var named := terms;
    if p.title.Some? {
      var title := Trim(p.title.value);
      if title != [] {
        terms := terms + [title];
      } else {
        assert terms == named + [];
      }
    } else {
      assert terms == named + [];
    }
    assert terms == named + TermIf(p.title);
    query := Join(terms, " ");
  }

  /**
   * The search term is already trimmed, so the blank guard of `process_job`
   * fires exactly when neither artist nor title has a non-blank value; each
   * present term appears in the query unchanged.
   */
  lemma {:induction false} SearchTermTrimmed(p: TrackPayload)
    ensures Trim(SearchTerm(p)) == SearchTerm(p)
    ensures SearchTerm(p) == [] <==> Blank(p.artist) && Blank(p.title)
    ensures !Blank(p.artist) && !Blank(p.title) ==>
      SearchTerm(p) == Trim(p.artist.value) + " " + Trim(p.title.value)
    ensures !Blank(p.artist) && Blank(p.title) ==> SearchTerm(p) == Trim(p.artist.value)
    ensures Blank(p.artist) && !Blank(p.title) ==> SearchTerm(p) == Trim(p.title.value)
  {
    if !Blank(p.artist) && !Blank(p.title) {
      SearchTermOfBoth(p);
    } else if !Blank(p.artist) {
      var x := Trim(p.artist.value);
      assert TermIf(p.artist) + TermIf(p.title) == [x];
      assert SearchTerm(p) == x;
      TrimTwice(p.artist.value);
    } else if !Blank(p.title) {
      var y := Trim(p.title.value);
      assert TermIf(p.artist) + TermIf(p.title) == [y];
      assert SearchTerm(p) == y;
      TrimTwice(p.title.value);
    } else {
      assert TermIf(p.artist) + TermIf(p.title) == [];
    }
  }

  /** With both artist and title present the term is the two joined by a space, already trimmed. */
  lemma SearchTermOfBoth(p: TrackPayload)
    requires !Blank(p.artist) && !Blank(p.title)
    ensures SearchTerm(p) == Trim(p.artist.value) + " " + Trim(p.title.value)
    ensures Trim(SearchTerm(p)) == SearchTerm(p) && SearchTerm(p) != []
  {
    var x, y := Trim(p.artist.value), Trim(p.title.value);
    assert TermIf(p.artist) == [x] && TermIf(p.title) == [y];
    assert TermIf(p.artist) + TermIf(p.title) == [x, y];
    JoinPair(x, y, " ");
    JoinTwoTrimmed(x, y);
  }

  /** Two non-blank trimmed terms joined by a space make a trimmed, non-empty string. */
  lemma JoinTwoTrimmed(a: string, b: string)
    requires a != [] && Trimmed(a)
    requires b != [] && Trimmed(b)
    ensures Trim(a + " " + b) == a + " " + b
  {
    var q := a + " " + b;
    assert q[0] == a[0] && q[|q| - 1] == b[|b| - 1];
    TrimOfTrimmed(q);
  }

  /** The query parameters of the search, in the order they are pushed. */
  function SearchParams(p: TrackPayload, query: string): seq<(string, string)> {
    [("type", "release"), ("per_page", "5")]
    + (if p.artist.Some? then [("artist", p.artist.value)] else [])
    + (if p.title.Some? then [("release_title", p.title.value)] else [])
    + (if query != [] then [("q", query)] else [])
  }

  /**
   * The search asks for five releases; the artist and the release title go
   * as given (untrimmed) when present, and the query only when it is not empty.
   */
  lemma SearchParamsCarry(p: TrackPayload, query: string)
    ensures var params := SearchParams(p, query);
      && params[..2] == [("type", "release"), ("per_page", "5")]
      && (forall v :: ("artist", v) in params <==> p.artist == Some(v))
      && (forall v :: ("release_title", v) in params <==> p.title == Some(v))
      && (forall v :: ("q", v) in params <==> query != [] && v == query)
      && |params| == 2 + |TermIfPresent(p.artist)| + |TermIfPresent(p.title)| + (if query != [] then 1 else 0)
  {
  }

  function TermIfPresent(value: Option<string>): seq<string> {
    if value.Some? then [value.value] else []
  }

  // ---------------------------------------------------------------------------
  // Choosing among the results
  // ---------------------------------------------------------------------------

  /** `SearchResult`: the fields of one search hit the worker reads. */
  datatype SearchResult = SearchResult(
    id: Option<nat>,
    title: Option<string>,
    resultType: Option<string>,
    resourceUrl: Option<string>,
    score: Option<real>,
    year: Option<nat>,
    country: Option<string>,
    thumb: Option<string>)

  /** Only release hits with a resource URL are kept. */
  predicate IsRelease(r: SearchResult) {
    r.resultType == Some("release") && r.resourceUrl.Some?
  }

  /** The `filter` over the results. */
  function Releases(results: seq<SearchResult>): (r: seq<SearchResult>)
    ensures |r| <= |results|
    ensures forall x :: x in r <==> x in results && IsRelease(x)
  {
    if results == [] then []
    else
      var rest := Releases(results[..|results| - 1]);
      var last := results[|results| - 1];
      assert results == results[..|results| - 1] + [last];
      rest + (if IsRelease(last) then [last] else [])
  }

  function ScoreKey(r: SearchResult): Option<real> {
    r.score
  }

  /** The kept results after `sort_by` on the score, highest first. */
  function Ranked(results: seq<SearchResult>): (r: seq<SearchResult>)
    ensures |r| == |Releases(results)|
  {
    SortDescPermutes(Releases(results), ScoreKey);
    SortDesc(Releases(results), ScoreKey)
  }

  /** The score of the `i`-th ranked result, 0 when it is missing or has none. */
  function ScoreAt(ranked: seq<SearchResult>, i: nat): real {
    if i < |ranked| && ranked[i].score.Some? then ranked[i].score.value else 0.0
  }

  /** A single result, or a best score of at least 85 that leads the runner-up by 10. */
  predicate Confident(count: nat, top: real, second: real) {
    count == 1 || (top >= 85.0 && top - second >= 10.0)
  }

  /** `resource_url`, or else a URL built from the id, or else empty. */
  function ReleaseUrl(top: SearchResult): string {
    if top.resourceUrl.Some? then top.resourceUrl.value
    else if top.id.Some? then RELEASES_URL + NatToString(top.id.value)
    else ""
  }

  function OptNat(n: Option<nat>): Json {
    if n.Some? then Int(n.value) else Null
  }

  function OptReal(x: Option<real>): Json {
    if x.Some? then Float(x.value) else Null
  }

  /** The `json!` object an ambiguous answer offers for one result. */
  function Candidate(r: SearchResult): Json {
    Obj(map[
      "id" := OptNat(r.id),
      "title" := OptStr(r.title),
      "score" := OptReal(r.score),
      "year" := OptNat(r.year),
      "country" := OptStr(r.country),
      "resourceUrl" := OptStr(r.resourceUrl),
      "thumb" := OptStr(r.thumb)])
  }

  function Candidates(rs: seq<SearchResult>): (cs: seq<Json>)
    ensures |cs| == |rs| && forall k :: 0 <= k < |rs| ==> cs[k] == Candidate(rs[k])
  {
    seq(|rs|, k requires 0 <= k < |rs| => Candidate(rs[k]))
  }

  /** What the search leads to: a failure, a release to fetch, or candidates to offer. */
  datatype Plan =
    | Stop(failure: LookupFailure)
    | Fetch(url: string, confidence: real)
    | Offer(candidates: seq<Json>)

  /** The decision over a successfully parsed list of results. */
  function ResultsPlan(results: seq<SearchResult>): Plan {
    var ranked := Ranked(results);
    if ranked == [] then Stop(Message("no releases found"))
    else if Confident(|ranked|, ScoreAt(ranked, 0), ScoreAt(ranked, 1)) then
      if ReleaseUrl(ranked[0]) == [] then Stop(Message("top result missing release URL"))
      else Fetch(ReleaseUrl(ranked[0]), ScoreAt(ranked, 0))
    else Offer(Candidates(ranked[..Min(MAX_CANDIDATES, |ranked|)]))
  }

  /** `StatusCode::is_success` */
  predicate IsSuccess(status: nat) {
    200 <= status <= 299
  }

  /** What the search request gets back: a transport failure, or a status with the parsed results. */
  datatype SearchReply =
    | SendFailed(error: string)
    | Answered(status: nat, reason: Option<string>, body: Result<seq<SearchResult>, string>)

  /** The decision after the search request. */
  function SearchPlan(reply: SearchReply): Plan {
    match reply
    case SendFailed(e) => Stop(Error(e))
    case Answered(status, reason, body) =>
      if !IsSuccess(status) then Stop(Message("search returned status " + StatusText(status, reason)))
      else if body.Err? then Stop(Error(body.error))
      else ResultsPlan(body.value)
  }

  /**
   * The outcome of `perform_lookup`, and the number of requests it made. The
   * release request answers with the parsed release or the error text of a
   * failed send or parse; its status is not checked.
   */
  function Outcome(reply: SearchReply, detail: Result<Json, string>): (Result<LookupResult, LookupFailure>, nat) {
    PlanOutcome(SearchPlan(reply), detail)
  }

  /** The outcome once the search has been read into `plan`. */
  function PlanOutcome(plan: Plan, detail: Result<Json, string>): (r: (Result<LookupResult, LookupFailure>, nat))
    ensures 1 <= r.1 <= 2
  {
    match plan
    case Stop(failure) => (Err(failure), 1)
    case Fetch(_, confidence) =>
      (if detail.Ok? then Ok(Success(detail.value, confidence)) else Err(Error(detail.error)), 2)
    case Offer(candidates) => (Ok(Ambiguous(candidates)), 1)
  }

  // ---------------------------------------------------------------------------
  // What the decision guarantees
  // ---------------------------------------------------------------------------

  /** The search fails with its own message on a non-2xx status and passes on transport and parse errors. */
  lemma SearchPlanErrors(reply: SearchReply)
    ensures reply.SendFailed? ==> SearchPlan(reply) == Stop(Error(reply.error))
    ensures reply.Answered? && !IsSuccess(reply.status) ==>
      SearchPlan(reply) == Stop(Message("search returned status " + StatusText(reply.status, reply.reason)))
    ensures reply.Answered? && IsSuccess(reply.status) && reply.body.Err? ==>
      SearchPlan(reply) == Stop(Error(reply.body.error))
    ensures reply.Answered? && IsSuccess(reply.status) && reply.body.Ok? ==>
      SearchPlan(reply) == ResultsPlan(reply.body.value)
  {
  }

  /** The best-ranked result is a kept release of the response whose score no other kept release beats. */
  lemma {:induction false} RankedTopIsBest(results: seq<SearchResult>)
    requires Releases(results) != []
    ensures var top := Ranked(results)[0];
      && top in results && IsRelease(top)
      && forall x :: x in results && IsRelease(x) ==> !Before(x.score, top.score)
  {
    var kept := Releases(results);
    SortDescHead(kept, ScoreKey);
    var top := Ranked(results)[0];
    assert top in kept;
    forall x | x in results && IsRelease(x)
      ensures !Before(x.score, top.score)
    {
      assert x in kept;
      var i :| 0 <= i < |kept| && kept[i] == x;
      assert !Before(ScoreKey(kept[i]), ScoreKey(top));
    }
  }

  /** Every kept result has its resource URL, so the release URL never falls back to the id. */
  lemma RankedHaveUrls(results: seq<SearchResult>)
    ensures forall k :: 0 <= k < |Ranked(results)| ==>
      IsRelease(Ranked(results)[k]) && ReleaseUrl(Ranked(results)[k]) == Ranked(results)[k].resourceUrl.value
  {
    var kept := Releases(results);
    var ranked := Ranked(results);
    SortDescPermutes(kept, ScoreKey);
    forall k | 0 <= k < |ranked|
      ensures IsRelease(ranked[k])
    {
      assert ranked[k] in multiset(kept);
      assert ranked[k] in kept;
    }
  }

  /**
   * With no kept release the lookup fails; otherwise it fetches the best
   * release exactly when the decision is confident (unless its URL is
   * empty), with that release's score (0 when it has none) as confidence.
   */
  lemma ResultsPlanDecides(results: seq<SearchResult>)
    ensures var plan := ResultsPlan(results);
      var ranked := Ranked(results);
      && (plan == Stop(Message("no releases found")) <==> Releases(results) == [])
      && (Releases(results) != [] ==>
            && (plan.Offer? <==> !Confident(|ranked|, ScoreAt(ranked, 0), ScoreAt(ranked, 1)))
            && (plan.Fetch? <==> plan != Stop(Message("top result missing release URL")) && !plan.Offer?)
            && (plan.Fetch? ==> Some(plan.url) == ranked[0].resourceUrl && plan.url != []
                                && plan.confidence == ranked[0].score.UnwrapOr(0.0)))
  {
    RankedHaveUrls(results);
  }

  /** An offer lists the first five ranked releases as candidates, best score first. */
  lemma OfferedCandidates(results: seq<SearchResult>)
    requires ResultsPlan(results).Offer?
    ensures var cs := ResultsPlan(results).candidates;
      var ranked := Ranked(results);
      && |Releases(results)| >= 2
      && |cs| == Min(MAX_CANDIDATES, |ranked|)
      && (forall k :: 0 <= k < |cs| ==> cs[k] == Candidate(ranked[k]) && ranked[k] in results && IsRelease(ranked[k]))
      && (forall i, j :: 0 <= i < j < |cs| ==> !Before(ranked[j].score, ranked[i].score))
  {
    var ranked := Ranked(results);
    RankedHaveUrls(results);
    SortDescSorted(Releases(results), ScoreKey);
    SortDescPermutes(Releases(results), ScoreKey);
    forall k | 0 <= k < |ranked|
      ensures ranked[k] in results
    {
      assert ranked[k] in multiset(Releases(results));
      assert ranked[k] in Releases(results);
    }
  }

  /**
   * Unlike MusicBrainz there is no shortcut for a very high score: a best
   * release at 96 that leads the runner-up by only 6 is not accepted.
   */
  lemma NoHighScoreShortcut(a: SearchResult, b: SearchResult)
    requires IsRelease(a) && IsRelease(b)
    requires a.score == Some(96.0) && b.score == Some(90.0)
    ensures ResultsPlan([a, b]).Offer?
    ensures ResultsPlan([a, b]).candidates == [Candidate(a), Candidate(b)]
  {
    assert [a, b][..1] == [a];
    assert Releases([a]) == [a];
    assert Releases([a, b]) == [a, b];
    assert SortDesc([b], ScoreKey) == [b];
    assert Ranked([a, b]) == [a, b];
  }

  /** A lone release is accepted whatever its score, even with none: its confidence is then 0. */
  lemma LoneReleaseAccepted(r: SearchResult)
    requires IsRelease(r) && r.resourceUrl.value != []
    ensures ResultsPlan([r]) == Fetch(r.resourceUrl.value, r.score.UnwrapOr(0.0))
  {
    assert Releases([r]) == [r];
    assert [r][1..] == [];
    assert SortDesc([r], ScoreKey) == Insert(r, [], ScoreKey) == [r];
  }

  /** The release is requested only after a confident choice; otherwise its answer does not matter. */
  lemma OutcomeRequests(reply: SearchReply, detail: Result<Json, string>, other: Result<Json, string>)
    ensures Outcome(reply, detail).1 == 2 <==> SearchPlan(reply).Fetch?
    ensures Outcome(reply, detail).1 != 2 ==> Outcome(reply, detail) == Outcome(reply, other)
    ensures Outcome(reply, detail).0.Ok? && Outcome(reply, detail).0.value.Success? ==>
      SearchPlan(reply).Fetch? && detail == Ok(Outcome(reply, detail).0.value.release)
  {
  }

  /** A candidate carries its result's id the way the store reads release ids, so identified candidates are kept. */
  lemma CandidateReleaseId(r: SearchResult)
    requires r.id.Some? ==> r.id.value <= U64_MAX
    ensures Library.ExtractReleaseId(Candidate(r)) == (if r.id.Some? then Some(NatToString(r.id.value)) else None)
    ensures Library.ScoreOf(Candidate(r)) == r.score
  {
  }

  // ---------------------------------------------------------------------------
  // The request sequence
  // ---------------------------------------------------------------------------

  /** The clock readings at which the first `n` requests wait for the limiter. */
  function Calls(searchAt: nat, detailAt: nat, n: nat): seq<nat> {
    if n == 0 then [] else if n == 1 then [searchAt] else [searchAt, detailAt]
  }

  /**
   * `perform_lookup`: the search waits for the limiter at `searchAt` and gets
   * `reply`; a confident choice waits again at `detailAt` and requests the
   * release URL (returned in `fetched`), which answers `detail`.
   */
  method PerformLookup(limiter: RateLimiter, p: TrackPayload, query: string,
                       searchAt: nat, reply: SearchReply, detailAt: nat, detail: Result<Json, string>)
    returns (params: seq<(string, string)>, fetched: Option<string>, result: Result<LookupResult, LookupFailure>)
    modifies limiter
    ensures params == SearchParams(p, query)
    ensures fetched == (if SearchPlan(reply).Fetch? then Some(SearchPlan(reply).url) else None)
    ensures var (outcome, n) := Outcome(reply, detail);
      && result == outcome
      && limiter.last == LastAfter(old(limiter.last), limiter.interval, Calls(searchAt, detailAt, n))
  {
    params := BuildSearchParams(p, query);
    var plan := ReadSearch(reply);
    assert Outcome(reply, detail) == PlanOutcome(plan, detail);
    fetched, result := FollowPlan(limiter, searchAt, plan, detailAt, detail);
  }

  /**
   * The requests of `perform_lookup` once the search has been read into
   * `plan`: the search waits at `searchAt`, and only a release to fetch
   * waits again, at `detailAt`.
   */
  method FollowPlan(limiter: RateLimiter, searchAt: nat, plan: Plan, detailAt: nat, detail: Result<Json, string>)
    returns (fetched: Option<string>, result: Result<LookupResult, LookupFailure>)
    modifies limiter
    ensures fetched == (if plan.Fetch? then Some(plan.url) else None)
    ensures result == PlanOutcome(plan, detail).0
    ensures limiter.last == LastAfter(old(limiter.last), limiter.interval, Calls(searchAt, detailAt, PlanOutcome(plan, detail).1))
  {
    fetched := None;
    ghost var initial := limiter.last;
    var _ := limiter.Wait(searchAt);
    LastAfterStep(initial, limiter.interval, [], searchAt);
    assert [] + [searchAt] == Calls(searchAt, detailAt, 1);
    match plan
    case Stop(failure) =>
      result := Err(failure);
    case Fetch(releaseUrl, confidence) =>
      var _ := limiter.Wait(detailAt);
      LastAfterStep(initial, limiter.interval, [searchAt], detailAt);
      assert [searchAt] + [detailAt] == Calls(searchAt, detailAt, 2);
      fetched := Some(releaseUrl);
      result := if detail.Err? then Err(Error(detail.error)) else Ok(Success(detail.value, confidence));
    case Offer(candidates) =>
      result := Ok(Ambiguous(candidates));
  }

  /** The query parameters of the search request in `perform_lookup`. */
  method BuildSearchParams(p: TrackPayload, query: string) returns (params: seq<(string, string)>)
    ensures params == SearchParams(p, query)
  {
    params := [("type", "release"), ("per_page", "5")];
    ghost var base := params;
    if p.artist.Some? {
      params := params + [("artist", p.artist.value)];
    } else {
      assert params == base + [];
    }
    ghost var named := params;
    if p.title.Some? {
      params := params + [("release_title", p.title.value)];
    } else {
      assert params == named + [];
    }
    ghost var titled := params;
    if query != [] {
      params := params + [("q", query)];
    } else {
      assert params == titled + [];
    }
    assert params == SearchParams(p, query);
  }

  /** The checks of `perform_lookup` on the search response, then the choice among its results. */
  method ReadSearch(reply: SearchReply) returns (plan: Plan)
    ensures plan == SearchPlan(reply)
  {
    if reply.SendFailed? {
      return Stop(Error(reply.error));
    }
    if !IsSuccess(reply.status) {
      return Stop(Message("search returned status " + StatusText(reply.status, reply.reason)));
    }
    if reply.body.Err? {
      return Stop(Error(reply.body.error));
    }
    plan := ChooseRelease(reply.body.value);
  }

  /** The part of `perform_lookup` between parsing the search results and the release request. */
  method ChooseRelease(found: seq<SearchResult>) returns (plan: Plan)
    ensures plan == ResultsPlan(found)
  {
    var results := SortDesc(Releases(found), ScoreKey);
    assert results == Ranked(found);
    if results == [] {
      return Stop(Message("no releases found"));
    }
    var topScore := if results[0].score.Some? then results[0].score.value else 0.0;
    var secondScore := if |results| > 1 && results[1].score.Some? then results[1].score.value else 0.0;
    if |results| == 1 || (topScore >= 85.0 && topScore - secondScore >= 10.0) {
      var releaseUrl := ReleaseUrl(results[0]);
      if releaseUrl == [] {
        return Stop(Message("top result missing release URL"));
      }
      return Fetch(releaseUrl, topScore);
    }
    var n := Min(MAX_CANDIDATES, |results|);
    plan := Offer(Candidates(results[..n]));
  }

  // ---------------------------------------------------------------------------
  // The job
  // ---------------------------------------------------------------------------

  /** The outcome of `process_job` before it is recorded, and how many requests it made. */
  function JobResult(p: TrackPayload, reply: SearchReply, detail: Result<Json, string>)
    : (Result<LookupResult, LookupFailure>, nat)
  {
    if Trim(SearchTerm(p)) == [] then (Err(Message("missing title or artist")), 0)
    else Outcome(reply, detail)
  }

  /** The match and candidates `process_job` hands to the store for an outcome. */
  function JobRecord(trackId: string, query: string, result: Result<LookupResult, LookupFailure>)
    : (Library.MatchRecord, seq<Library.CandidateRecord>)
  {
    match result
    case Ok(Success(release, confidence)) => Library.DiscogsSuccess(trackId, query, release, confidence)
    case Ok(Ambiguous(candidates)) => Library.AmbiguityRecord(trackId, query, candidates)
    case Err(failure) => Library.FailureRecord(trackId, query, failure.IntoMessage())
  }

  /** A payload without a non-blank artist or title makes no request and is recorded as a failure. */
  lemma BlankPayloadMakesNoRequest(p: TrackPayload, reply: SearchReply, detail: Result<Json, string>)
    ensures JobResult(p, reply, detail).1 == 0 <==> Blank(p.artist) && Blank(p.title)
    ensures JobResult(p, reply, detail).1 == 0 ==>
      JobResult(p, reply, detail).0 == Err(Message("missing title or artist"))
  {
    SearchTermTrimmed(p);
    if Blank(p.artist) && Blank(p.title) {
      assert Trim(SearchTerm(p)) == [];
      assert JobResult(p, reply, detail) == (Err(Message("missing title or artist")), 0);
    } else {
      assert Trim(SearchTerm(p)) != [];
      assert JobResult(p, reply, detail) == PlanOutcome(SearchPlan(reply), detail);
      assert PlanOutcome(SearchPlan(reply), detail).1 != 0;
    }
  }

  /**
   * One turn of the worker loop: a job with an empty track id is skipped,
   * otherwise `process_job` runs and records what it found.
   */
  method HandleJob(store: LibraryStore.LibraryStore, limiter: RateLimiter, p: TrackPayload,
                   searchAt: nat, reply: SearchReply, detailAt: nat, detail: Result<Json, string>, now: nat)
    returns (requests: nat, event: Option<Json>)
    modifies store, limiter
    ensures p.trackId == [] ==>
      requests == 0 && event.None? && store.db == old(store.db) && limiter.last == old(limiter.last)
    ensures p.trackId != [] ==>
      var query := SearchTerm(p);
      var (result, n) := JobResult(p, reply, detail);
      var (r, cs) := JobRecord(p.trackId, query, result);
      && requests == n
      && store.db == Library.PersistDiscogsMatch(old(store.db), r, cs, now)
      && limiter.last == LastAfter(old(limiter.last), limiter.interval, Calls(searchAt, detailAt, n))
      && event == (if result.Ok? && result.value.Ambiguous?
                   then Some(AmbiguityEvent(p.trackId, query, result.value.candidates)) else None)
  {
    requests, event := 0, None;
    if p.trackId == [] {
      return;
    }
    var query := BuildSearchTerm(p);
    ghost var spec := JobResult(p, reply, detail);
    if Trim(query) == [] {
      assert spec == (Err(Message("missing title or artist")), 0);
      RecordOutcome(store, p.trackId, query, Err(Message("missing title or artist")), now);
      return;
    }
    assert spec == Outcome(reply, detail);
    var params, fetched, result := PerformLookup(limiter, p, query, searchAt, reply, detailAt, detail);
    requests := if fetched.Some? then 2 else 1;
    assert (result, requests) == spec;
    RecordOutcome(store, p.trackId, query, result, now);
    if result.Ok? && result.value.Ambiguous? {
      event := Some(AmbiguityEvent(p.trackId, query, result.value.candidates));
    }
  }

  /** The `match` of `process_job` that hands an outcome to the store; store errors are only logged. */
  method RecordOutcome(store: LibraryStore.LibraryStore, trackId: string, query: string,
                       result: Result<LookupResult, LookupFailure>, now: nat)
    modifies store
    ensures var (r, cs) := JobRecord(trackId, query, result);
      store.db == Library.PersistDiscogsMatch(old(store.db), r, cs, now)
  {
    match result
    case Ok(Success(release, confidence)) =>
      store.RecordDiscogsSuccess(trackId, query, release, confidence, now);
    case Ok(Ambiguous(candidates)) =>
      store.RecordDiscogsAmbiguity(trackId, query, candidates, now);
    case Err(failure) =>
      store.RecordDiscogsFailure(trackId, query, failure.IntoMessage(), now);
  }
}
