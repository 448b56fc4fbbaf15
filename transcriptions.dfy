/**
 * `get_transcriptions`: validate the link, consult the cache, fetch the
 * captions and download the audio, transcribe it, remove the temporary
 * file, and cache the pair unless both texts are empty.
 *
 * The collaborators are replaced by their outcomes for this call. The
 * caption fetch and the download run concurrently in the source; since the
 * caption fetch never raises, running them one after the other (captions
 * first, as `asyncio.gather` lists them) gives the same results.
 */
module Transcriptions {
  import opened Wrappers
  import opened PyStrings
  import opened VideoId
  import opened Captions
  import opened Caching
  import opened Environment

  const FailurePrefix := "Fetching transcriptions failed: "
  const InvalidUrlMessage := "Invalid YouTube URL"
  const DownloadFailedMessage := "Audio download failed. Ensure FFmpeg is installed and on PATH."
  const WhisperFailedPrefix := "Whisper transcription failed: "
  const BothFailedMessage := "Both captions and Whisper failed"

  /** What the collaborators answer during one call. */
  datatype Collaborators = Collaborators(
    requested: TranscriptFetch,     // get_transcript in the requested language
    generated: GeneratedTrack,      // the auto-generated fallback
    download: Result<string>,       // download_audio: the temporary file's name, or its failure
    written: set<string>,           // the other files download_audio writes: the DEBUG mp3 copy, or what it wrote before failing
    transcription: Result<string>,  // whisper_model.transcribe(audio_file)["text"], or its failure
    removal: bool                   // whether os.remove succeeds
  )

  /** The outcome of one call: the result, the new cache, the new files and the calls made, in order. */
  datatype PipelineRun = PipelineRun(
    result: Result<(string, string)>,
    entries: map<string, Value>,
    files: set<string>,
    calls: seq<Call>)

  /** The video identifier the pipeline works with; meaningful when `HasUsableId(url)`. */
  function IdOf(url: Url): string
  {
    if ExtractVideoId(url).Some? then ExtractVideoId(url).value else ""
  }

  /** `cache.get(key)` with `if cached:` — a stored tuple is always truthy, so any stored pair is a hit. */
  function CachedPair(entries: map<string, Value>, key: string): (r: Option<(string, string)>)
    ensures r.Some? <==> key in entries && entries[key].Transcripts?
    ensures r.Some? ==> entries[key] == Transcripts(r.value.0, r.value.1)
  {
    if key in entries && entries[key].Transcripts? then
      Some((entries[key].captions, entries[key].whisper))
    else
      None
  }

  /** `transcribe_whisper`: the stripped text, or a `RuntimeError` naming the cause. */
  function WhisperText(transcription: Result<string>): (r: Result<string>)
    ensures r.Ok? <==> transcription.Ok?
    ensures transcription.Ok? ==> r == Ok(Strip(transcription.value, Whitespace)) && Trimmed(r.value, Whitespace)
    ensures transcription.Err? ==> r == Err(WhisperFailedPrefix + transcription.message)
  {
    match transcription
    case Ok(text) => Ok(Strip(text, Whitespace))
    case Err(m) => Err(WhisperFailedPrefix + m)
  }

  /** The model of `get_transcriptions(video_url, lang)`, as a function of the state before the call. */
  function Pipeline(entries: map<string, Value>, files: set<string>, url: Url, lang: string, env: Collaborators): (run: PipelineRun)
    ensures run.calls == [] <==> !HasUsableId(url)
    ensures run.result.Err? ==> run.entries == entries
  {
    if !HasUsableId(url) then
      PipelineRun(Err(FailurePrefix + InvalidUrlMessage), entries, files, [])
    else
      Lookup(entries, files, url, IdOf(url), lang, env)
  }

  /** The pipeline from the cache lookup under `transcriptions:{videoId}:{lang}` on. */
  function Lookup(entries: map<string, Value>, files: set<string>, url: Url, videoId: string, lang: string,
                  env: Collaborators): (run: PipelineRun)
    ensures |run.calls| >= 1 && run.calls[0] == CacheGet(TranscriptKey(videoId, lang))
    ensures run.result.Err? ==> run.entries == entries
  {
    var key := TranscriptKey(videoId, lang);
    if CachedPair(entries, key).Some? then
      PipelineRun(Ok(CachedPair(entries, key).value), entries, files, [CacheGet(key)])
    else
      var run := Fetch(entries, files, url, videoId, lang, YouTubeCaptions(env.requested, env.generated),
                       env.download, env.written, WhisperText(env.transcription), env.removal);
      run.(calls := [CacheGet(key)] + run.calls)
  }

  /**
   * The pipeline after a cache miss under `transcriptions:{videoId}:{lang}`,
   * given the caption text, the download's outcome and the other files it
   * wrote, what `transcribe_whisper` answers, and whether `os.remove`
   * succeeds; `calls` starts at the two concurrent calls.
   */
  function Fetch(entries: map<string, Value>, files: set<string>, url: Url, videoId: string, lang: string,
                 captionsText: string, download: Result<string>, written: set<string>, whisper: Result<string>,
                 removal: bool): (run: PipelineRun)
    ensures |run.calls| >= 2 && run.calls[..2] == [FetchCaptions(videoId, lang), DownloadAudio(url)]
    ensures run.result.Err? ==> run.entries == entries
    ensures run.result.Err? ==> HasPrefix(FailurePrefix, run.result.message)
    ensures run.result.Ok? ==>
      && (run.result.value.0 != "" || run.result.value.1 != "")
      && run.entries == entries[TranscriptKey(videoId, lang) := Transcripts(run.result.value.0, run.result.value.1)]
    ensures download.Err? ==> forall c :: c in run.calls ==> !c.Transcribe?
  {
    var fetched := [FetchCaptions(videoId, lang), DownloadAudio(url)];
    match download
    case Err(_) =>
      PipelineRun(Err(FailurePrefix + DownloadFailedMessage), entries, files + written, fetched)
    case Ok(audioFile) =>
      var run := Transcribed(entries, files + written + {audioFile}, videoId, lang, captionsText, audioFile, whisper, removal);
      run.(calls := fetched + run.calls)
  }

  /**
   * The pipeline once the audio is at `audioFile`: transcription, removal of
   * the file when transcription returned, the empty check, and the write.
   */
  function Transcribed(entries: map<string, Value>, files: set<string>, videoId: string, lang: string,
                       captionsText: string, audioFile: string, whisper: Result<string>, removal: bool): (run: PipelineRun)
    ensures |run.calls| >= 1 && run.calls[0] == Transcribe(audioFile)
    ensures run.result.Err? ==> run.entries == entries
    ensures run.result.Err? ==> HasPrefix(FailurePrefix, run.result.message)
    ensures run.result.Ok? ==>
      && (run.result.value.0 != "" || run.result.value.1 != "")
      && run.entries == entries[TranscriptKey(videoId, lang) := Transcripts(run.result.value.0, run.result.value.1)]
  {
    var key := TranscriptKey(videoId, lang);
    var transcribed := [Transcribe(audioFile)];
    match whisper
    case Err(m) =>
      PipelineRun(Err(FailurePrefix + m), entries, files, transcribed)
    case Ok(whisperText) =>
      var cleaned := audioFile != "" && audioFile in files;
      var files' := if cleaned && removal then files - {audioFile} else files;
      var calls' := if cleaned then transcribed + [RemoveFile(audioFile)] else transcribed;
      if captionsText == "" && whisperText == "" then
        PipelineRun(Err(FailurePrefix + BothFailedMessage), entries, files', calls')
      else
        PipelineRun(Ok((captionsText, whisperText)), entries[key := Transcripts(captionsText, whisperText)],
                    files', calls' + [CacheSet(key, TimeoutSeconds)])
  }

  /** `get_transcriptions`, step by step, against the shared cache and the file system. */
  method GetTranscriptions(cache: Cache, fs: FileSystem, url: Url, lang: string, env: Collaborators)
    returns (result: Result<(string, string)>, ghost calls: seq<Call>)
    modifies cache, fs
    ensures Pipeline(old(cache.entries), old(fs.files), url, lang, env) == PipelineRun(result, cache.entries, fs.files, calls)
    ensures old(cache.Valid()) ==> cache.Valid()
  {
    var videoId := ExtractVideoId(url);
    if videoId.None? || videoId.value == "" {
      result, calls := Err(FailurePrefix + InvalidUrlMessage), [];
      return;
    }
    ghost var entries, files := cache.entries, fs.files;
    result, calls := LookUpOrFetch(cache, fs, url, videoId.value, lang, env);
    if WellFormed(entries) {
      PipelineKeepsCacheWellFormed(entries, files, url, lang, env);
    }
  }

  /** The steps of `get_transcriptions` from the cache lookup on. */
  method LookUpOrFetch(cache: Cache, fs: FileSystem, url: Url, videoId: string, lang: string, env: Collaborators)
    returns (result: Result<(string, string)>, ghost calls: seq<Call>)
    modifies cache, fs
    ensures Lookup(old(cache.entries), old(fs.files), url, videoId, lang, env) == PipelineRun(result, cache.entries, fs.files, calls)
  {
    var key := TranscriptKey(videoId, lang);
    var cached := cache.Get(key);
    calls := [CacheGet(key)];
    if cached.Some? && cached.value.Transcripts? {
      result := Ok((cached.value.captions, cached.value.whisper));
      return;
    }

    var captionsText := YouTubeCaptions(env.requested, env.generated);
    ghost var rest;
    result, rest := FetchAndTranscribe(cache, fs, url, videoId, lang, captionsText, env);
    calls := calls + rest;
  }

  /** The steps of `get_transcriptions` after a cache miss, from the two concurrent calls on. */
  method FetchAndTranscribe(cache: Cache, fs: FileSystem, url: Url, videoId: string, lang: string,
                            captionsText: string, env: Collaborators)
    returns (result: Result<(string, string)>, ghost calls: seq<Call>)
    modifies cache, fs
    ensures Fetch(old(cache.entries), old(fs.files), url, videoId, lang, captionsText, env.download, env.written,
                  WhisperText(env.transcription), env.removal) == PipelineRun(result, cache.entries, fs.files, calls)
  {
    calls := [FetchCaptions(videoId, lang), DownloadAudio(url)];
    if env.download.Err? {
      fs.Create(env.written);
      result := Err(FailurePrefix + DownloadFailedMessage);
      return;
    }
    var audioFile := env.download.value;
    ghost var downloaded := fs.files + env.written + {audioFile};
    fs.Create(env.written + {audioFile});
    assert fs.files == downloaded;
    ghost var rest;
    result, rest := TranscribeAndStore(cache, fs, videoId, lang, captionsText, audioFile, env);
    calls := calls + rest;
    assert Transcribed(old(cache.entries), downloaded, videoId, lang, captionsText, audioFile,
                       WhisperText(env.transcription), env.removal) == PipelineRun(result, cache.entries, fs.files, rest);
  }

  /** The steps once the audio is downloaded. */
  method TranscribeAndStore(cache: Cache, fs: FileSystem, videoId: string, lang: string,
                            captionsText: string, audioFile: string, env: Collaborators)
    returns (result: Result<(string, string)>, ghost calls: seq<Call>)
    modifies cache, fs
    ensures Transcribed(old(cache.entries), old(fs.files), videoId, lang, captionsText, audioFile,
                        WhisperText(env.transcription), env.removal) == PipelineRun(result, cache.entries, fs.files, calls)
  {
    ghost var entries, files := cache.entries, fs.files;
    calls := [Transcribe(audioFile)];
    var whisper := WhisperText(env.transcription);
    if whisper.Err? {
      result := Err(FailurePrefix + whisper.message);
      return;
    }
    var whisperText := whisper.value;

    ghost var cleaned := audioFile != "" && audioFile in files;
    ghost var files' := if cleaned && env.removal then files - {audioFile} else files;
    ghost var calls' := if cleaned then calls + [RemoveFile(audioFile)] else calls;
    if audioFile != "" && fs.Exists(audioFile) {
      fs.Remove(audioFile, env.removal);
      calls := calls + [RemoveFile(audioFile)];
    }
    assert fs.files == files' && calls == calls';

    if captionsText == "" && whisperText == "" {
      result := Err(FailurePrefix + BothFailedMessage);
      assert Transcribed(entries, files, videoId, lang, captionsText, audioFile, whisper, env.removal)
          == PipelineRun(result, entries, files', calls');
      return;
    }
    var key := TranscriptKey(videoId, lang);
    cache.Set(key, Transcripts(captionsText, whisperText), TimeoutSeconds);
    calls := calls + [CacheSet(key, TimeoutSeconds)];
    result := Ok((captionsText, whisperText));
    assert Transcribed(entries, files, videoId, lang, captionsText, audioFile, whisper, env.removal)
        == PipelineRun(result, cache.entries, files', calls);
  }

  /**
   * A repeated request for the same video and language — through the same
   * link or any other with the same identifier — is a cache hit: the same
   * pair comes back and no collaborator is called.
   */
  lemma RepeatedRequestHitsCache(entries: map<string, Value>, files: set<string>, url: Url, url': Url,
                                 lang: string, env: Collaborators, env': Collaborators)
    requires Pipeline(entries, files, url, lang, env).result.Ok?
    requires ExtractVideoId(url') == ExtractVideoId(url)
    ensures var first := Pipeline(entries, files, url, lang, env);
            Pipeline(first.entries, first.files, url', lang, env') ==
            PipelineRun(first.result, first.entries, first.files, [CacheGet(TranscriptKey(IdOf(url), lang))])
  {
  }

  /** The pipeline reaches the download: a usable identifier and no stored pair. */
  predicate Misses(entries: map<string, Value>, url: Url, lang: string)
  {
    HasUsableId(url) && CachedPair(entries, TranscriptKey(IdOf(url), lang)).None?
  }

  /** On a miss the pipeline is the cache lookup followed by `Fetch`. */
  lemma MissIsFetch(entries: map<string, Value>, files: set<string>, url: Url, lang: string, env: Collaborators)
    requires Misses(entries, url, lang)
    ensures var run := Fetch(entries, files, url, IdOf(url), lang, YouTubeCaptions(env.requested, env.generated),
                             env.download, env.written, WhisperText(env.transcription), env.removal);
            Pipeline(entries, files, url, lang, env) == run.(calls := [CacheGet(TranscriptKey(IdOf(url), lang))] + run.calls)
  {
  }

  /** A link without a usable identifier fails before anything is looked up or called; with one, the first call is the cache lookup under its key. */
  lemma LinkCheckedBeforeLookup(entries: map<string, Value>, files: set<string>, url: Url, lang: string, env: Collaborators)
    ensures var run := Pipeline(entries, files, url, lang, env);
            !HasUsableId(url) ==> run == PipelineRun(Err(FailurePrefix + InvalidUrlMessage), entries, files, [])
    ensures var run := Pipeline(entries, files, url, lang, env);
            HasUsableId(url) ==> |run.calls| > 0 && run.calls[0] == CacheGet(TranscriptKey(IdOf(url), lang))
  {
  }

  /** A stored pair is returned unchanged, and nothing else is called. */
  lemma CacheHitReturnsStored(entries: map<string, Value>, files: set<string>, url: Url, lang: string, env: Collaborators)
    requires HasUsableId(url)
    requires CachedPair(entries, TranscriptKey(IdOf(url), lang)).Some?
    ensures var key := TranscriptKey(IdOf(url), lang);
            Pipeline(entries, files, url, lang, env) == PipelineRun(Ok(CachedPair(entries, key).value), entries, files, [CacheGet(key)])
  {
  }

  /** Every error is wrapped, and a failed call leaves the cache as it was. */
  lemma FailureIsWrapped(entries: map<string, Value>, files: set<string>, url: Url, lang: string, env: Collaborators)
    ensures var run := Pipeline(entries, files, url, lang, env);
            run.result.Err? ==> HasPrefix(FailurePrefix, run.result.message) && run.entries == entries
  {
    if Misses(entries, url, lang) {
      MissIsFetch(entries, files, url, lang, env);
    }
  }

  /**
   * A success has a usable identifier; its key then holds the returned pair
   * and no other key changed. The cache changes only on such a success, and
   * only with a pair that is not both empty.
   */
  lemma SuccessWritesOnlyItsKey(entries: map<string, Value>, files: set<string>, url: Url, lang: string, env: Collaborators)
    ensures var run := Pipeline(entries, files, url, lang, env);
            run.result.Ok? ==>
              && HasUsableId(url)
              && run.entries == entries[TranscriptKey(IdOf(url), lang) := Transcripts(run.result.value.0, run.result.value.1)]
    ensures var run := Pipeline(entries, files, url, lang, env);
            run.entries != entries ==> run.result.Ok? && (run.result.value.0 != "" || run.result.value.1 != "")
  {
    if Misses(entries, url, lang) {
      MissIsFetch(entries, files, url, lang, env);
    } else if HasUsableId(url) {
      var key := TranscriptKey(IdOf(url), lang);
      assert entries[key := entries[key]] == entries;
    }
  }

  /** A failed download means no transcription is attempted. */
  lemma NoTranscriptionAfterFailedDownload(entries: map<string, Value>, files: set<string>, url: Url, lang: string, env: Collaborators)
    requires env.download.Err?
    ensures forall c :: c in Pipeline(entries, files, url, lang, env).calls ==> !c.Transcribe?
  {
    if Misses(entries, url, lang) {
      MissIsFetch(entries, files, url, lang, env);
    }
  }

  /** Whether `os.remove` succeeds changes neither the result, nor the cache, nor the calls made. */
  lemma RemovalOutcomeIrrelevant(entries: map<string, Value>, files: set<string>, url: Url, lang: string, env: Collaborators)
    ensures var a := Pipeline(entries, files, url, lang, env.(removal := true));
            var b := Pipeline(entries, files, url, lang, env.(removal := false));
            a.result == b.result && a.entries == b.entries && a.calls == b.calls
  {
    if Misses(entries, url, lang) {
      MissIsFetch(entries, files, url, lang, env.(removal := true));
      MissIsFetch(entries, files, url, lang, env.(removal := false));
      FetchRemovalIrrelevant(entries, files, url, IdOf(url), lang, YouTubeCaptions(env.requested, env.generated),
                             env.download, env.written, WhisperText(env.transcription));
    }
  }

  lemma FetchRemovalIrrelevant(entries: map<string, Value>, files: set<string>, url: Url, videoId: string, lang: string,
                               captionsText: string, download: Result<string>, written: set<string>, whisper: Result<string>)
    ensures var a := Fetch(entries, files, url, videoId, lang, captionsText, download, written, whisper, true);
            var b := Fetch(entries, files, url, videoId, lang, captionsText, download, written, whisper, false);
            a.result == b.result && a.entries == b.entries && a.calls == b.calls
  {
  }

  /**
   * When transcription returns normally, the temporary file is removed
   * before the empty check, so also when the call then fails; it is gone
   * afterwards unless the removal itself failed; the other files the
   * download wrote stay, and nothing else changes.
   */
  lemma CleanupAfterTranscription(entries: map<string, Value>, files: set<string>, url: Url, lang: string, env: Collaborators)
    requires Misses(entries, url, lang)
    requires env.download.Ok? && env.download.value != "" && env.transcription.Ok?
    ensures var run := Pipeline(entries, files, url, lang, env);
            && RemoveFile(env.download.value) in run.calls
            && (env.removal <==> env.download.value !in run.files)
            && run.files - {env.download.value} == (files + env.written) - {env.download.value}
  {
    MissIsFetch(entries, files, url, lang, env);
    var captionsText := YouTubeCaptions(env.requested, env.generated);
    var whisperText := Strip(env.transcription.value, Whitespace);
    FetchCleansUp(entries, files, url, IdOf(url), lang, captionsText, env.download.value, env.written, whisperText, env.removal);
    var run := Fetch(entries, files, url, IdOf(url), lang, captionsText, env.download, env.written, Ok(whisperText), env.removal);
    assert RemoveFile(env.download.value) in [CacheGet(TranscriptKey(IdOf(url), lang))] + run.calls;
  }

  /** `Fetch` after a download to a named file and a transcription that returned normally. */
  lemma FetchCleansUp(entries: map<string, Value>, files: set<string>, url: Url, videoId: string, lang: string,
                      captionsText: string, audioFile: string, written: set<string>, whisperText: string, removal: bool)
    requires audioFile != ""
    ensures var run := Fetch(entries, files, url, videoId, lang, captionsText, Ok(audioFile), written, Ok(whisperText), removal);
            && RemoveFile(audioFile) in run.calls
            && (removal <==> audioFile !in run.files)
            && run.files - {audioFile} == (files + written) - {audioFile}
  {
    var run := Fetch(entries, files, url, videoId, lang, captionsText, Ok(audioFile), written, Ok(whisperText), removal);
    var cleaned := [FetchCaptions(videoId, lang), DownloadAudio(url), Transcribe(audioFile), RemoveFile(audioFile)];
    assert run.calls[..4] == cleaned;
    assert run.calls[3] == RemoveFile(audioFile);
  }

  /** After a miss, a download that returned `audioFile` leads to the transcription step with that file added. */
  lemma FetchAfterDownload(entries: map<string, Value>, files: set<string>, url: Url, videoId: string, lang: string,
                           captionsText: string, audioFile: string, written: set<string>, whisper: Result<string>,
                           removal: bool)
    ensures var run := Transcribed(entries, files + written + {audioFile}, videoId, lang, captionsText, audioFile, whisper, removal);
            Fetch(entries, files, url, videoId, lang, captionsText, Ok(audioFile), written, whisper, removal) ==
            run.(calls := [FetchCaptions(videoId, lang), DownloadAudio(url)] + run.calls)
  {
  }

  /** After the download, a transcription that raised fails at once: only Whisper was called, and neither files nor cache change. */
  lemma TranscribedRaises(entries: map<string, Value>, files: set<string>, videoId: string, lang: string,
                          captionsText: string, audioFile: string, message: string, removal: bool)
    ensures Transcribed(entries, files, videoId, lang, captionsText, audioFile, Err(message), removal)
         == PipelineRun(Err(FailurePrefix + message), entries, files, [Transcribe(audioFile)])
  {
  }

  /** When transcription raises, the removal is skipped and the temporary file stays behind. */
  lemma TranscriptionFailureLeavesAudio(entries: map<string, Value>, files: set<string>, url: Url, lang: string, env: Collaborators)
    requires Misses(entries, url, lang)
    requires env.download.Ok? && env.transcription.Err?
    ensures var run := Pipeline(entries, files, url, lang, env);
            && run.result == Err(FailurePrefix + WhisperFailedPrefix + env.transcription.message)
            && env.download.value in run.files
            && RemoveFile(env.download.value) !in run.calls
  {
    MissIsFetch(entries, files, url, lang, env);
    var audioFile, message := env.download.value, WhisperFailedPrefix + env.transcription.message;
    var videoId, captionsText := IdOf(url), YouTubeCaptions(env.requested, env.generated);
    var files' := files + env.written + {audioFile};
    FetchAfterDownload(entries, files, url, videoId, lang, captionsText, audioFile, env.written, Err(message), env.removal);
    TranscribedRaises(entries, files', videoId, lang, captionsText, audioFile, message, env.removal);
    var run := Pipeline(entries, files, url, lang, env);
    assert run.result == Err(FailurePrefix + message);
    assert run.files == files';
    assert run.calls == [CacheGet(TranscriptKey(videoId, lang)), FetchCaptions(videoId, lang), DownloadAudio(url), Transcribe(audioFile)];
    assert FailurePrefix + (WhisperFailedPrefix + env.transcription.message)
        == FailurePrefix + WhisperFailedPrefix + env.transcription.message;
  }

  /**
   * A failed download is reported with the fixed message, whatever its cause,
   * right after the two concurrent calls; whatever it wrote before failing
   * stays behind, since the pipeline never learns those names.
   */
  lemma DownloadFailureStopsBeforeTranscription(entries: map<string, Value>, files: set<string>, url: Url, lang: string, env: Collaborators)
    requires Misses(entries, url, lang)
    requires env.download.Err?
    ensures Pipeline(entries, files, url, lang, env) ==
      PipelineRun(Err(FailurePrefix + DownloadFailedMessage), entries, files + env.written,
                  [CacheGet(TranscriptKey(IdOf(url), lang)), FetchCaptions(IdOf(url), lang), DownloadAudio(url)])
  {
    MissIsFetch(entries, files, url, lang, env);
  }

  /** Empty captions together with an empty transcript fail, and nothing is cached. */
  lemma BothEmptyFails(entries: map<string, Value>, files: set<string>, url: Url, lang: string, env: Collaborators)
    requires Misses(entries, url, lang)
    requires env.download.Ok? && env.transcription.Ok?
    requires YouTubeCaptions(env.requested, env.generated) == "" && AllIn(env.transcription.value, Whitespace)
    ensures var run := Pipeline(entries, files, url, lang, env);
            run.result == Err(FailurePrefix + BothFailedMessage) && run.entries == entries
  {
    MissIsFetch(entries, files, url, lang, env);
  }

  /** Otherwise the computed pair is cached under its key and returned, and the last call is that write. */
  lemma SomeTextSucceeds(entries: map<string, Value>, files: set<string>, url: Url, lang: string, env: Collaborators)
    requires Misses(entries, url, lang)
    requires env.download.Ok? && env.transcription.Ok?
    requires YouTubeCaptions(env.requested, env.generated) != "" || !AllIn(env.transcription.value, Whitespace)
    ensures var run := Pipeline(entries, files, url, lang, env);
            var pair := (YouTubeCaptions(env.requested, env.generated), Strip(env.transcription.value, Whitespace));
            && run.result == Ok(pair)
            && run.entries == entries[TranscriptKey(IdOf(url), lang) := Transcripts(pair.0, pair.1)]
            && run.calls[|run.calls| - 1] == CacheSet(TranscriptKey(IdOf(url), lang), TimeoutSeconds)
  {
    MissIsFetch(entries, files, url, lang, env);
    var captionsText := YouTubeCaptions(env.requested, env.generated);
    var whisperText := Strip(env.transcription.value, Whitespace);
    var audioFile := env.download.value;
    var files' := files + env.written + {audioFile};
    TranscribedSucceeds(entries, files', IdOf(url), lang, captionsText, audioFile, whisperText, env.removal);
  }

  /** After the download, a returned transcript with some text to keep is cached and returned, and the write is the last call. */
  lemma TranscribedSucceeds(entries: map<string, Value>, files: set<string>, videoId: string, lang: string,
                            captionsText: string, audioFile: string, whisperText: string, removal: bool)
    requires captionsText != "" || whisperText != ""
    ensures var run := Transcribed(entries, files, videoId, lang, captionsText, audioFile, Ok(whisperText), removal);
            && run.result == Ok((captionsText, whisperText))
            && run.entries == entries[TranscriptKey(videoId, lang) := Transcripts(captionsText, whisperText)]
            && run.calls[|run.calls| - 1] == CacheSet(TranscriptKey(videoId, lang), TimeoutSeconds)
  {
  }

  /** The pipeline keeps the cache well formed. */
  lemma PipelineKeepsCacheWellFormed(entries: map<string, Value>, files: set<string>, url: Url, lang: string, env: Collaborators)
    requires WellFormed(entries)
    ensures WellFormed(Pipeline(entries, files, url, lang, env).entries)
  {
    var run := Pipeline(entries, files, url, lang, env);
    if run.entries != entries {
      var key := TranscriptKey(IdOf(url), lang);
      forall k | k in run.entries && HasPrefix(ArticlePrefix, k) ensures k != key {
        KeyspacesDisjoint(key);
      }
    }
  }

  /** In a well-formed cache, every success — hit or miss — has at least one non-empty text. */
  lemma SuccessHasText(entries: map<string, Value>, files: set<string>, url: Url, lang: string, env: Collaborators)
    requires WellFormed(entries)
    requires Pipeline(entries, files, url, lang, env).result.Ok?
    ensures var pair := Pipeline(entries, files, url, lang, env).result.value;
            pair.0 != "" || pair.1 != ""
  {
  }

  /** Outside a well-formed cache a stored pair of empty texts is still a hit: `if cached:` tests the tuple, not its texts. */
  lemma EmptyStoredPairIsReturned(entries: map<string, Value>, files: set<string>, url: Url, lang: string, env: Collaborators)
    requires HasUsableId(url)
    requires entries == map[TranscriptKey(IdOf(url), lang) := Transcripts("", "")]
    ensures Pipeline(entries, files, url, lang, env).result == Ok(("", ""))
  {
  }
}
