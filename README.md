# Transcript and article pipeline of the AI blog generator

This project models the helper layer of `blog_generator/views.py` in Dafny. That layer turns a YouTube link into a pair of transcripts and then into a blog article:

- **`extract_video_id`** takes the identifier from a `youtube` host's first non-blank `v` query value, or from a `youtu.be` link's path with the slashes stripped.
- **`get_youtube_captions`** fetches the publisher captions in one language. It falls back to the auto-generated track only when no publisher track exists, and answers `""` on every failure.
- **`get_transcriptions`** checks the identifier and looks up `transcriptions:{id}:{lang}` in the shared cache. On a miss it fetches the captions and downloads the audio, transcribes it with Whisper, and removes the temporary file. It fails when both texts are empty. Otherwise it caches the pair for a day.
- **`generate_blog_from_transcription`** looks up `blog:` followed by the SHA-256 digest of the two texts concatenated. On a miss it fills the two texts into the prompt template, with `[EMPTY]` for an empty one, and asks `gemini-2.5-flash`. It then checks and flattens the first candidate of the response and caches the non-empty article.

Modules:

- `Wrappers` provides `Option` and `Result`.
- `PyStrings` holds the Python string semantics the code relies on:
  - `in` on strings
  - `str.strip`, with the full `str.isspace` set
  - `str.join`
  - `str(n)`
- `VideoId` models link parsing.
- `Captions` models the caption fallback.
- `Environment` holds the trace of collaborator calls and the file system, a class.
- `Caching` holds the shared cache (a class), its keys and its well-formedness invariant.
- `Transcriptions` and `Article` model the two pipelines.

Each pipeline is modelled twice:

- A function of the state before the call (`Transcriptions.Pipeline`, `Article.ArticleGeneration`). It returns the result, the new cache and the sequence of calls made; the transcription run also returns the new files, since only that pipeline touches the file system.
- A method that works step by step on the `Cache` object, and for transcriptions also on the `FileSystem` object. Its postcondition is equality with that function.

The properties are lemmas about the functions. The collaborators enter as their outcomes for the call:

- what the caption service answers
- the download's file name or failure
- Whisper's text or exception
- whether `os.remove` succeeds
- the Gemini response or exception

The SHA-256 digest is a function parameter.

Behaviour a reader might not expect, modelled as the code has it:

- `get_youtube_captions` catches every exception, so a caption failure never fails the pipeline.
- A failed download is reported with the fixed "Audio download failed. ..." message, without its cause.
- When Whisper raises, the temporary file is not removed.
- A download that fails part way leaves behind whatever it already wrote.
- The transcript key `transcriptions:{id}:{lang}` is ambiguous when an identifier contains ':': identifier `a:b` in language `c` and identifier `a` in language `b:c` share an entry.

## Model

| member | source | states |
|---|---|---|
| PyStrings.IsSpace | blog_generator/views.py:219 | a character is whitespace exactly when Python's `str.isspace()` holds for it: the ASCII controls `\t` to `\r` and `\x1c` to space, and the Unicode spaces and separators |
| PyStrings.Whitespace | blog_generator/views.py:254 | the set of characters an argument-free `str.strip()` removes, here and at lines 219 and 372: exactly those for which `IsSpace` holds |
| PyStrings.Contains | blog_generator/views.py:142 | `sub in s` holds exactly when `sub` occurs in `s` at some index |
| PyStrings.Strip | blog_generator/views.py:145 | `s.strip(chars)` is a slice of `s`. Everything before and after it is in `chars`, and it neither starts nor ends with one. It is empty exactly when every character of `s` is in `chars` |
| PyStrings.StripUnique | blog_generator/views.py:145 | a slice with that shape is the result of strip, so the reference reading determines it |
| PyStrings.Join | blog_generator/views.py:219 | joining no pieces gives `""`. Otherwise the join starts with the first piece, and its length is the pieces' lengths plus one separator between each two |
| PyStrings.JoinHoldsPieces | blog_generator/views.py:219 | each piece appears in the join, in order, at the offset given by the pieces and separators before it |
| PyStrings.JoinHoldsSeparators | blog_generator/views.py:219 | a separator follows every piece but the last |
| PyStrings.DecimalString | blog_generator/views.py:372 | `str(i)` of an index is a non-empty string of decimal digits |
| PyStrings.DecimalStringValue | blog_generator/views.py:372 | the digits of `str(n)` read back as `n`, and there is no leading zero unless `n` is `0` |
| VideoId.FirstQueryValue | blog_generator/views.py:143 | `parse_qs(q).get("v", [None])[0]` gives the value of the first pair that binds the name to a non-blank value; it gives none exactly when no pair does |
| VideoId.ExtractVideoId | blog_generator/views.py:141-146 | a host containing `youtube` gives the first non-blank `v` value, or none when there is no such value. Otherwise a host containing `youtu.be` gives the path with '/' stripped from both ends. Any other host gives none |
| VideoId.HasUsableId | blog_generator/views.py:273 | `if not video_id:` accepts an identifier exactly when one was extracted and it is not `""` |
| VideoId.ExamplePrimaryHost | blog_generator/views.py:142-143 | `www.youtube.com/watch?v=abc123` gives `abc123`; a blank `v` is skipped for the next one; `?v=` alone gives none |
| VideoId.ExampleShortLink | blog_generator/views.py:144-145 | `youtu.be/abc123/` gives `abc123` |
| VideoId.ExampleOtherHost | blog_generator/views.py:146 | `example.com` gives none |
| VideoId.ShortLinkIsNotPrimary | blog_generator/views.py:142-144 | `youtu.be` does not contain `youtube`, so short links reach the second branch |
| Captions.YouTubeCaptions | blog_generator/views.py:216-242 | the result is always a string without surrounding whitespace. A fetched track gives its fragment texts joined by single spaces and stripped. After `NoTranscriptFound`, a fetched generated track gives the same. Disabled captions, any other error, a failed listing, no generated track and a failed generated fetch all give "" |
| Captions.JoinedText | blog_generator/views.py:219 | a fetched track's text is its fragments' texts joined by single spaces and then stripped, as at line 229 for the generated track |
| Captions.FallbackOnlyAfterNoTranscript | blog_generator/views.py:220-229 | the auto-generated track can change the result only after `NoTranscriptFound` |
| Captions.NonEmptyNeedsText | blog_generator/views.py:219 | non-empty captions need a fragment with a non-whitespace character |
| Caching.TranscriptKey | blog_generator/views.py:276 | the transcript key starts with `transcriptions:` |
| Caching.ArticleKey | blog_generator/views.py:318 | the article key starts with `blog:` |
| Caching.ArticleKeyDependsOnConcatenation | blog_generator/views.py:318 | pairs with the same concatenation `captions + whisper` have the same article key, whatever the hash function |
| Caching.KeyspacesDisjoint | blog_generator/views.py:276 | no transcript key is an article key, so neither pipeline overwrites the other's entries |
| Caching.TranscriptKeyInjective | blog_generator/views.py:276 | for one language, distinct identifiers have distinct keys |
| Caching.TranscriptKeyAmbiguousAcrossLanguages | blog_generator/views.py:276 | identifier `a:b` in language `c` and identifier `a` in language `b:c` share a key |
| Caching.Cache.Get | blog_generator/views.py:277 | `cache.get(key)` gives a value exactly when the key is present, and then the stored value |
| Caching.Cache.Set | blog_generator/views.py:300 | `cache.set(key, value)` stores the value under the key and changes no other key |
| Environment.FileSystem.Exists | blog_generator/views.py:290 | `os.path.exists(path)` holds exactly when the path is among the files |
| Environment.FileSystem.Create | blog_generator/views.py:180-197 | the downloader adds the files it writes and removes none |
| Environment.FileSystem.Remove | blog_generator/views.py:291-294 | a successful `os.remove` takes away exactly that path; a failed one, whose exception is swallowed, changes nothing |
| Transcriptions.WhisperText | blog_generator/views.py:252-256 | a transcription gives exactly its text stripped of whitespace; an exception gives exactly a failure "Whisper transcription failed: " followed by its message |
| Transcriptions.Fetch | blog_generator/views.py:283-301 | after a miss: the captions fetch and the download are the first two calls. A failure is prefixed "Fetching transcriptions failed: " and leaves the cache as it was. A success has a non-empty text and writes exactly its key. A failed download means no transcription is attempted |
| Transcriptions.Pipeline | blog_generator/views.py:258-304 | `get_transcriptions` as a function of the cache, files and collaborators: it calls nothing exactly when the link has no usable identifier, and a failure leaves the cache as it was |
| Transcriptions.Lookup | blog_generator/views.py:276-301 | from the lookup on: the first call is the lookup of `transcriptions:{id}:{lang}`, and a failure leaves the cache as it was |
| Transcriptions.CachedPair | blog_generator/views.py:277-279 | the lookup hits exactly when the key holds a pair, and then gives that pair |
| Transcriptions.Transcribed | blog_generator/views.py:287-301 | after the download: Whisper is the first call. A failure is prefixed "Fetching transcriptions failed: " and leaves the cache as it was; a success has a non-empty text and writes exactly its key |
| Transcriptions.GetTranscriptions | blog_generator/views.py:258-304 | the step-by-step pipeline on the cache and file system ends in the state, result and call trace `Pipeline` gives, and keeps a well-formed cache well formed |
| Transcriptions.LookUpOrFetch | blog_generator/views.py:276-301 | the steps from the lookup on end as `Lookup` gives |
| Transcriptions.FetchAndTranscribe | blog_generator/views.py:283-301 | the steps after a miss end as `Fetch` gives |
| Transcriptions.TranscribeAndStore | blog_generator/views.py:287-301 | the steps after the download end as `Transcribed` gives |
| Transcriptions.LinkCheckedBeforeLookup | blog_generator/views.py:272-277 | a link with no identifier, or an empty one, fails with "Fetching transcriptions failed: Invalid YouTube URL", making no call and changing nothing. Otherwise the first call is the lookup of `transcriptions:{id}:{lang}` |
| Transcriptions.CacheHitReturnsStored | blog_generator/views.py:276-279 | a stored pair is returned unchanged after the lookup alone: no caption fetch, download or transcription |
| Transcriptions.RepeatedRequestHitsCache | blog_generator/views.py:276-279 | after a success, a request for the same language through any link with the same identifier returns the same pair, calling nothing but the lookup |
| Transcriptions.EmptyStoredPairIsReturned | blog_generator/views.py:278 | `if cached:` tests the tuple, so even a stored pair of empty texts is a hit |
| Transcriptions.MissIsFetch | blog_generator/views.py:276-301 | on a miss the pipeline is the lookup followed by `Fetch` |
| Transcriptions.FailureIsWrapped | blog_generator/views.py:303-304 | every failure is prefixed "Fetching transcriptions failed: " and leaves the cache as it was |
| Transcriptions.SuccessWritesOnlyItsKey | blog_generator/views.py:296-301 | on success the key `transcriptions:{id}:{lang}` holds the returned pair and no other key changed. The cache changes only on success, with a pair that is not both empty |
| Transcriptions.NoTranscriptionAfterFailedDownload | blog_generator/views.py:285-287 | a failed download means Whisper is never called |
| Transcriptions.DownloadFailureStopsBeforeTranscription | blog_generator/views.py:283-287 | after a miss, a failed download fails with the fixed download message after the lookup, caption fetch and download. The cache is unchanged; the files it wrote before failing stay, and no other file changes |
| Transcriptions.RemovalOutcomeIrrelevant | blog_generator/views.py:290-294 | whether `os.remove` succeeds changes neither the result, nor the cache, nor the calls |
| Transcriptions.FetchRemovalIrrelevant | blog_generator/views.py:290-294 | the same, for the steps after a miss |
| Transcriptions.CleanupAfterTranscription | blog_generator/views.py:287-297 | when Whisper returns, the temporary file is removed before the empty check, so also when the call then fails. It is gone afterwards exactly when the removal succeeded; the other files the download wrote stay, and no other file changes |
| Transcriptions.FetchCleansUp | blog_generator/views.py:290-294 | the same, for the steps after a miss |
| Transcriptions.FetchAfterDownload | blog_generator/views.py:283-287 | after a miss, a download that returned a file leads to the transcription step with that file and the download's other files added, after the caption fetch and the download |
| Transcriptions.TranscribedRaises | blog_generator/views.py:287-304 | when Whisper raises, the step after the download fails at once with the prefixed message: Whisper is the only call, and the files and the cache are unchanged |
| Transcriptions.TranscriptionFailureLeavesAudio | blog_generator/views.py:287-304 | when Whisper raises, the failure is doubly prefixed, the temporary file stays, and no removal is attempted |
| Transcriptions.BothEmptyFails | blog_generator/views.py:296-297 | empty captions with a whitespace-only transcript fail with "Both captions and Whisper failed" and leave the cache as it was |
| Transcriptions.SomeTextSucceeds | blog_generator/views.py:296-301 | otherwise the captions and the stripped transcript are returned and cached under the key, and the last call is that write with the one-day timeout |
| Transcriptions.TranscribedSucceeds | blog_generator/views.py:296-301 | after the download, a returned transcript with captions or text to keep gives exactly that pair, cached under its key, and the write is the last call |
| Transcriptions.PipelineKeepsCacheWellFormed | blog_generator/views.py:296-301 | the pipeline keeps the cache well formed: transcript keys hold pairs that are not both empty, article keys hold non-empty articles |
| Transcriptions.SuccessHasText | blog_generator/views.py:278-301 | in a well-formed cache every success, hit or miss, has a non-empty text |
| Article.Slot | blog_generator/views.py:329-332 | `text or '[EMPTY]'` is never empty, and is the text itself when that is non-empty |
| Article.Prompt | blog_generator/views.py:324-351 | the prompt starts with the template's head, and its length is the template's plus the two slots' |
| Article.PromptLayout | blog_generator/views.py:324-351 | the prompt is the template's head, the captions slot, the separator, the Whisper slot and the tail, at these positions |
| Article.PlaceholderIndistinguishable | blog_generator/views.py:329-332 | an empty transcript and the literal text `[EMPTY]` give the same prompt, in either place |
| Article.PromptCarriesTranscripts | blog_generator/views.py:329-332 | both non-empty transcripts appear verbatim in the prompt |
| Article.HasFirstContent | blog_generator/views.py:361 | the first check passes exactly when there is a non-empty candidate list and its first candidate has a content object. A content object is always truthy, so only a missing or `None` content fails |
| Article.HasParts | blog_generator/views.py:364-365 | the parts check passes exactly when the first candidate's content has a non-empty list of parts; missing or `None` parts fail |
| Article.FirstNoneText | blog_generator/views.py:372 | the index of the first part whose text is `None`, or none when no part's text is `None` |
| Article.TextOf | blog_generator/views.py:372 | `getattr(p, "text", "")` gives the part's text, and `""` when the attribute is missing |
| Article.PartTexts | blog_generator/views.py:372 | the texts fed to the join, one per part in order, each as `TextOf` reads it |
| Article.NoneItemMessage | blog_generator/views.py:372 | the `TypeError` message CPython's `str.join` raises on a `None` item: `sequence item {i}: expected str instance, NoneType found` |
| Article.ArticleFromResponse | blog_generator/views.py:360-375 | rejects a response with no first candidate or no content with "no valid content", and one without parts with "empty parts". A `None` part text makes `"".join` raise its `TypeError` naming the first such index. Otherwise the article is the stripped concatenation of the first candidate's part texts, a missing text counting as ""; it is accepted exactly when that concatenation is not all whitespace |
| Article.NoContentPartsNeverReported | blog_generator/views.py:368-370 | the second parts check repeats the first on the same object, so "no content parts" is never produced |
| Article.AcceptedArticleIsTrimmed | blog_generator/views.py:372-375 | an accepted article is non-empty and has no surrounding whitespace |
| Article.OnlyFirstCandidateMatters | blog_generator/views.py:360-366 | responses that agree on the first candidate give the same outcome |
| Article.MissingTextCountsAsEmpty | blog_generator/views.py:372 | a part without a `text` attribute reads exactly like one whose text is empty |
| Article.CachedArticle | blog_generator/views.py:319-321 | the lookup hits exactly when the key holds a non-empty article, and then gives that article |
| Article.ArticleGeneration | blog_generator/views.py:306-381 | `generate_blog_from_transcription` as a function of the cache and the service: the first call is the lookup of the pair's key, and a failure leaves the cache as it was |
| Article.Request | blog_generator/views.py:353-381 | after a miss the trace is exactly the request to `gemini-2.5-flash` with the prompt, followed by the write under the key exactly on success. A success writes the article under the key; a failure is prefixed "Gemini API request failed: " and leaves the cache as it was |
| Article.ArticleCacheHitReturnsStored | blog_generator/views.py:319-321 | in any cache, a stored non-empty article is returned after the lookup alone, with the cache unchanged |
| Article.GenerateArticle | blog_generator/views.py:306-381 | the step-by-step pipeline on the cache ends in the state, result and call trace `ArticleGeneration` gives, and keeps a well-formed cache well formed |
| Article.AskService | blog_generator/views.py:353-381 | the steps after a miss end as `Request` gives |
| Article.MissAsksServiceOnce | blog_generator/views.py:319-381 | on a miss the whole trace is the lookup, then one request to `gemini-2.5-flash` with the prompt for the pair, then the write of the article as the third and last call exactly on success; a failure makes no call after the request |
| Article.ArticleWritesOnlyItsKey | blog_generator/views.py:377-381 | every failure is prefixed "Gemini API request failed: " and leaves the cache as it was. The cache changes only on success, under the pair's key, with the returned non-empty, trimmed article |
| Article.ArticleIsNonEmpty | blog_generator/views.py:320-378 | every success, hit or miss, is a non-empty article |
| Article.RepeatedArticleHitsCache | blog_generator/views.py:318-321 | after a success, any pair whose concatenation is the same is a hit: the same article without a service call |
| Article.SameConcatenationDifferentPrompt | blog_generator/views.py:318-332 | the pairs ("ab", "c") and ("a", "bc") share a key but have different prompts, so the second gets the first one's article |
| Article.ArticleKeepsCacheWellFormed | blog_generator/views.py:377 | the article pipeline keeps the cache well formed |
| Article.ArticleLeavesTranscriptsAlone | blog_generator/views.py:377 | writing an article never touches a transcript entry |

## Left out

- The HTTP view `generate_blog`, the blog CRUD views and the login, signup and logout views: Django request, ORM and session handling, not part of this model. `blog_generator/models.py`, both `urls.py` files and `wsgi.py` hold no logic.
- `yt_title`, and the inside of `download_audio`: yt_dlp, the uuid file names and the ffmpeg conversion. These are library and network calls. The download is its outcome: a file name or a failure, and the set of other files it wrote (the DEBUG mp3 copy, or what a failed download left behind).
- `whisper_model.transcribe`, the caption service and `genai.Client`: each is represented by its outcome for the call. Reading `GEMINI_API_KEY` is part of the client's outcome.
- Article.Request: a failure of `genai.Client(...)` itself, such as one caused by an unset `GEMINI_API_KEY`, is folded into the service's outcome. The trace then still records the `generate_content` request, although the source never reaches that call. So the single request that `MissAsksServiceOnce` counts is an attempt, not a call known to have been made.
- The thread pool, `run_in_thread`, `asyncio.gather` and the event loop. The caption fetch and the download are modelled one after the other, captions first. Because the caption fetch never raises, the results are the same.
- SHA-256: the digest is a function parameter, so only what holds for every hash function is proved.
- Cache expiry: the one-day timeout is recorded in each write, not enforced. Concurrent writers to the cache, and a cache backend that raises, are not modelled.
- `urlparse` and `parse_qs` splitting and decoding: a link is already split into host, path and decoded query pairs. A pair without `=` is not represented.
- Transcriptions.CachedPair: a value stored under a transcript key that is not a pair (possible only outside a well-formed cache) is treated as a miss. Python would return it as is.
- Article.CachedArticle: a pair stored under an article key (likewise possible only outside a well-formed cache) is treated as a miss. Python would return the tuple as the article.
- The `print` diagnostics and traceback logging are not modelled.
- Python's `None` for the two transcripts, or for the prompt inputs, is not represented; the model's texts are always strings.
