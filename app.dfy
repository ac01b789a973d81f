/**
 * The command handlers of the Tauri application (lib.rs) that the model
 * covers: the confidence default of `confirm_musicbrainz_match`, the end of
 * `import_rekordbox_library`, and the rules for opening and navigating to
 * URLs. URLs arrive already parsed; library results of `load_tracks` and
 * the shell's answer are inputs.
 */
module App {
  import opened Wrappers
  import opened Json
  import Rekordbox
  import Library
  import LibrarySync
  import LibraryStore
  import opened RekordboxWatch

  // ---------------------------------------------------------------------------
  // Confirming a MusicBrainz match
  // ---------------------------------------------------------------------------

  /** The confidence `confirm_musicbrainz_match` records: the argument, else the release's score, else 100. */
  function ConfirmConfidence(confidence: Option<real>, release: Json): real {
    confidence.Or(Library.ScoreOf(release)).UnwrapOr(100.0)
  }

  lemma ConfirmConfidenceDefaults(confidence: Option<real>, release: Json)
    ensures confidence.Some? ==> ConfirmConfidence(confidence, release) == confidence.value
    ensures confidence.None? && Get(release, "score").Some? && Get(release, "score").value.Float? ==>
      ConfirmConfidence(confidence, release) == Get(release, "score").value.f
    ensures confidence.None? && Get(release, "score").Some? && Get(release, "score").value.Int? ==>
      ConfirmConfidence(confidence, release) == Get(release, "score").value.i as real
    ensures confidence.None? && (Get(release, "score").None? || !(Get(release, "score").value.Int? || Get(release, "score").value.Float?)) ==>
      ConfirmConfidence(confidence, release) == 100.0
  {
  }

  /** `confirm_musicbrainz_match`: records the release as a MusicBrainz success; the query defaults to "". */
  method ConfirmMusicbrainzMatch(store: LibraryStore.LibraryStore, trackId: string, release: Json,
                                 confidence: Option<real>, query: Option<string>, now: nat)
    returns (result: Result<(), string>)
    modifies store
    ensures result.Ok?
    ensures var (r, cs) := Library.MusicbrainzSuccess(trackId, query.UnwrapOr(""), release,
                                                     ConfirmConfidence(confidence, release));
      var spec := Library.PersistMusicbrainzMatch(old(store.db), r, cs, now);
      spec.Ok? && store.db == spec.value
  {
    var queryValue := query.UnwrapOr("");
    var resolved := if confidence.Some? then confidence.value
                    else if Library.ScoreOf(release).Some? then Library.ScoreOf(release).value
                    else 100.0;
    var recorded := store.RecordMusicbrainzSuccess(trackId, queryValue, release, resolved, now);
    result := Ok(());
  }

  /**
   * The end of `import_rekordbox_library`: a loaded library is synced into
   * the store, then a master database is watched and an XML export is not.
   * A failed load changes nothing.
   */
  method ImportRekordboxLibrary(store: LibraryStore.LibraryStore, state: RekordboxState, dbPath: string,
                                loaded: Result<seq<Rekordbox.RekordboxTrack>, string>, now: nat)
    returns (result: Result<(), string>)
    modifies store, state
    ensures loaded.Err? ==>
      && result == Err(loaded.error) && store.db == old(store.db)
      && state.watcher == old(state.watcher) && state.spawned == old(state.spawned)
    ensures loaded.Ok? ==>
      && result.Ok?
      && store.db == LibrarySync.SyncRekordboxTracks(old(store.db), loaded.value, now)
      && (if Rekordbox.SupportsAutoRefresh(dbPath)
          then (state.watcher, state.spawned) == Configured(old(state.watcher), old(state.spawned), dbPath)
          else state.watcher.None? && state.spawned == old(state.spawned))
  {
    if loaded.Err? {
      return Err(loaded.error);
    }
    store.SyncRekordboxTracks(loaded.value, now);
    if Rekordbox.SupportsAutoRefresh(dbPath) {
      state.Configure(dbPath);
    } else {
      state.Disable();
    }
    result := Ok(());
  }

  // ---------------------------------------------------------------------------
  // Opening and navigating to URLs
  // ---------------------------------------------------------------------------

  /** A parsed URL: its scheme, host, credentials, and its serialisation. */
  datatype Url = Url(scheme: string, host: Option<string>, username: string, password: Option<string>, text: string)

  /** The allow-rules of `open_external`: the URL handed to the shell, or why it was refused. */
  function ExternalTarget(url: Url): Result<string, string> {
    if url.username != [] || url.password.Some? then Err("URLs with embedded credentials are not allowed")
    else if url.scheme == "http" then
      if url.host != Some("localhost") then Err("http scheme is only allowed for the local development server")
      else Ok(url.text)
    else if url.scheme == "https" then Ok(url.text)
    else Err("unsupported scheme '" + url.scheme + "'")
  }

  /** `open_external`, given the URL parser's result and the shell's error, if any. */
  function OpenExternal(parsed: Result<Url, string>, shellError: Option<string>): Result<(), string> {
    if parsed.Err? then Err("invalid URL: " + parsed.error)
    else
      match ExternalTarget(parsed.value)
      case Err(e) => Err(e)
      case Ok(_) => if shellError.Some? then Err("failed to open URL externally: " + shellError.value) else Ok(())
  }

  /** Only credential-free https URLs and http URLs on localhost are opened, as written. */
  lemma ExternalTargetAllowed(url: Url)
    ensures ExternalTarget(url).Ok? <==>
      url.username == [] && url.password.None?
      && (url.scheme == "https" || (url.scheme == "http" && url.host == Some("localhost")))
    ensures ExternalTarget(url).Ok? ==> ExternalTarget(url).value == url.text
    ensures url.username == [] && url.password.None? && url.scheme != "http" && url.scheme != "https" ==>
      ExternalTarget(url) == Err("unsupported scheme '" + url.scheme + "'")
  {
  }

  /** The shell is consulted only for an allowed URL, and its failure is reported. */
  lemma OpenExternalOutcome(parsed: Result<Url, string>, shellError: Option<string>)
    ensures OpenExternal(parsed, shellError).Ok? <==>
      parsed.Ok? && ExternalTarget(parsed.value).Ok? && shellError.None?
    ensures parsed.Ok? && ExternalTarget(parsed.value).Err? ==>
      OpenExternal(parsed, shellError) == Err(ExternalTarget(parsed.value).error)
  {
  }

  /** The navigation guard: tauri and https anywhere, http only on localhost, and exactly `about:blank`. */
  predicate NavigationAllowed(url: Url) {
    if url.scheme == "tauri" || url.scheme == "https" then true
    else if url.scheme == "http" then url.host == Some("localhost")
    else if url.scheme == "about" then url.text == "about:blank"
    else false
  }

  /**
   * Whatever `open_external` opens, the window may also navigate to; the
   * converse fails for credentials and for tauri URLs.
   */
  lemma OpenableIsNavigable(url: Url)
    ensures ExternalTarget(url).Ok? ==> NavigationAllowed(url)
    ensures url.scheme == "https" && url.password.Some? ==> NavigationAllowed(url) && ExternalTarget(url).Err?
    ensures url.scheme == "tauri" ==> NavigationAllowed(url) && ExternalTarget(url).Err?
  {
  }

  /** Of the `about:` URLs only `about:blank` passes, and unknown schemes never do. */
  lemma NavigationRules(url: Url)
    ensures url.scheme == "about" ==> (NavigationAllowed(url) <==> url.text == "about:blank")
    ensures url.scheme != "tauri" && url.scheme != "https" && url.scheme != "http" && url.scheme != "about" ==>
      !NavigationAllowed(url)
    ensures url.scheme == "http" ==> (NavigationAllowed(url) <==> url.host == Some("localhost"))
  {
  }
}
