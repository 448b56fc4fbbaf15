/**
 * `generate_blog_from_transcription`: look the pair up in the cache, build
 * the prompt, ask the model, flatten and check its answer, and cache the
 * article.
 *
 * The service's answer is a parameter: either the exception the client
 * raised, or the response object, described by the datatypes below down to
 * the attributes the code reads.
 */
module Article {
  import opened Wrappers
  import opened PyStrings
  import opened Caching
  import opened Environment

  const ModelName := "gemini-2.5-flash"
  const EmptyPlaceholder := "[EMPTY]"

  const RequestFailedPrefix := "Gemini API request failed: "
  const NoValidContentMessage := "Gemini API returned no valid content"
  const EmptyPartsMessage := "Gemini API returned empty parts"
  const NoContentPartsMessage := "Gemini API returned no content parts"
  const EmptyContentMessage := "Gemini API returned empty blog content"

  /** A part's `text`: no such attribute (read as `""`), present but `None`, or a string. */
  datatype PartText = NoTextAttr | TextNone | Text(value: string)
  datatype Part = Part(text: PartText)
  /** `content.parts`: `None` or missing, or a list. */
  datatype Content = Content(parts: Option<seq<Part>>)
  /** `candidate.content`: `None` or missing, or a content object (always truthy). */
  datatype Candidate = Candidate(content: Option<Content>)
  /** `response.candidates`: `None` or missing, or a list. */
  datatype Response = Response(candidates: Option<seq<Candidate>>)

  /** The outcome of one call: the result, the new cache and the calls made, in order. */
  datatype ArticleRun = ArticleRun(result: Result<string>, entries: map<string, Value>, calls: seq<Call>)

  // ---------------------------------------------------------------- prompt

  const PromptHead :=
    "\n    You are a professional transcription editor and blog writer.\n" +
    "    I have two transcripts of the same YouTube video:\n\n" +
    "    --- Captions Transcript ---\n    "
  const PromptMiddle :=
    "\n\n    --- Whisper Transcript ---\n    "
  const PromptTail :=
    "\n\n    First you are a professional transcription editor.\n" +
    "    Please merge these into one clean, perfect, accurate transcript.\n" +
    "    - Fix mistakes\n" +
    "    - remove repetitions\n" +
    "    - ensure readability\n\n" +
    "    Then you are a professional blog writer. \n" +
    "    You always write clear, engaging, and well-structured articles.\n" +
    "    Based on that merged transcript, write a comprehensive blog article.\n" +
    "    - take input from the above transcript created\n" +
    "    - Make it engaging, well-structured, and professional\n" +
    "    - Do NOT mention YouTube or that it\U{2019}s a transcript or youtube video \n" +
    "    - Write it like a properly polished blog post\n\n" +
    "    Finally you do the following:\n" +
    "    - You do not give the transcript in the output\n" +
    "    - You only give blog generated as output\n    "

  /** `text or '[EMPTY]'`: what a transcript contributes to the prompt. */
  function Slot(text: string): (r: string)
    ensures r != ""
    ensures text != "" ==> r == text
  {
    if text == "" then EmptyPlaceholder else text
  }

  /** The prompt: the fixed template with the two transcripts in their places. */
  function Prompt(captions: string, whisper: string): (p: string)
    ensures HasPrefix(PromptHead, p)
    ensures |p| == |PromptHead| + |Slot(captions)| + |PromptMiddle| + |Slot(whisper)| + |PromptTail|
  {
    ConcatenationLayout(PromptHead, Slot(captions), PromptMiddle, Slot(whisper), PromptTail);
    PromptHead + Slot(captions) + PromptMiddle + Slot(whisper) + PromptTail
  }

  /** Where the pieces of the prompt lie: the head, each transcript's slot, the separator between them, the tail. */
  lemma PromptLayout(captions: string, whisper: string)
    ensures var p := Prompt(captions, whisper);
            && HasPrefix(PromptHead, p)
            && OccursAt(p, Slot(captions), |PromptHead|)
            && OccursAt(p, PromptMiddle, |PromptHead| + |Slot(captions)|)
            && OccursAt(p, Slot(whisper), |PromptHead| + |Slot(captions)| + |PromptMiddle|)
            && |p| == |PromptHead| + |Slot(captions)| + |PromptMiddle| + |Slot(whisper)| + |PromptTail|
            && p[|p| - |PromptTail|..] == PromptTail
  {
    ConcatenationLayout(PromptHead, Slot(captions), PromptMiddle, Slot(whisper), PromptTail);
  }

  lemma ConcatenationLayout(head: string, a: string, middle: string, b: string, tail: string)
    ensures var p := head + a + middle + b + tail;
            && HasPrefix(head, p)
            && OccursAt(p, a, |head|)
            && OccursAt(p, middle, |head| + |a|)
            && OccursAt(p, b, |head| + |a| + |middle|)
            && |p| == |head| + |a| + |middle| + |b| + |tail|
            && p[|p| - |tail|..] == tail
  {
    var p := head + a + middle + b + tail;
    assert p[..|head|] == head;
    assert p[|head|..|head| + |a|] == a;
    assert p[|head| + |a|..|head| + |a| + |middle|] == middle;
    assert p[|head| + |a| + |middle|..|head| + |a| + |middle| + |b|] == b;
  }

  /** An empty transcript and the literal text `[EMPTY]` give the same prompt, in either place. */
  lemma PlaceholderIndistinguishable(captions: string, whisper: string)
    ensures Prompt("", whisper) == Prompt(EmptyPlaceholder, whisper)
    ensures Prompt(captions, "") == Prompt(captions, EmptyPlaceholder)
  {
  }

  /** A non-empty transcript appears in the prompt verbatim. */
  lemma PromptCarriesTranscripts(captions: string, whisper: string)
    requires captions != "" && whisper != ""
    ensures Contains(Prompt(captions, whisper), captions)
    ensures Contains(Prompt(captions, whisper), whisper)
  {
    var p := Prompt(captions, whisper);
    PromptLayout(captions, whisper);
    assert OccursAt(p, captions, |PromptHead|);
    assert OccursAt(p, whisper, |PromptHead| + |captions| + |PromptMiddle|);
  }

  // ------------------------------------------------------ response parsing

  /** The first candidate has a content object. */
  predicate HasFirstContent(resp: Response)
  {
    resp.candidates.Some? && |resp.candidates.value| > 0 && resp.candidates.value[0].content.Some?
  }

  /** ... and that content has a non-empty list of parts. */
  predicate HasParts(resp: Response)
  {
    HasFirstContent(resp)
    && resp.candidates.value[0].content.value.parts.Some?
    && |resp.candidates.value[0].content.value.parts.value| > 0
  }

  function FirstParts(resp: Response): seq<Part>
    requires HasParts(resp)
  {
    resp.candidates.value[0].content.value.parts.value
  }

  /** The index of the first part whose `text` is `None`, if any. */
  function FirstNoneText(parts: seq<Part>): (r: Option<nat>)
    ensures r.Some? ==> r.value < |parts| && parts[r.value].text.TextNone?
    ensures r.Some? ==> forall j :: 0 <= j < r.value ==> !parts[j].text.TextNone?
    ensures r.None? ==> forall j :: 0 <= j < |parts| ==> !parts[j].text.TextNone?
  {
    if |parts| == 0 then None
    else if parts[0].text.TextNone? then Some(0)
    else match FirstNoneText(parts[1..])
      case Some(i) => Some(i + 1)
      case None => None
  }

  /** `getattr(p, "text", "")`; a `None` text never reaches it, since the join rejects it first. */
  function TextOf(p: Part): string
  {
    match p.text
    case Text(v) => v
    case _ => ""
  }

  function PartTexts(parts: seq<Part>): (r: seq<string>)
    ensures |r| == |parts|
    ensures forall i :: 0 <= i < |parts| ==> r[i] == TextOf(parts[i])
  {
    seq(|parts|, i requires 0 <= i < |parts| => TextOf(parts[i]))
  }

  /** The `TypeError` that `"".join` raises on a `None` item. */
  function NoneItemMessage(index: nat): string
  {
    "sequence item " + DecimalString(index) + ": expected str instance, NoneType found"
  }

  /** The checks and the flattening applied to the service's response, before the common prefix is added. */
  function ArticleFromResponse(resp: Response): (r: Result<string>)
    ensures !HasFirstContent(resp) ==> r == Err(NoValidContentMessage)
    ensures HasFirstContent(resp) && !HasParts(resp) ==> r == Err(EmptyPartsMessage)
    ensures HasParts(resp) && FirstNoneText(FirstParts(resp)).Some? ==>
      r == Err(NoneItemMessage(FirstNoneText(FirstParts(resp)).value))
    ensures HasParts(resp) && FirstNoneText(FirstParts(resp)).None? ==>
      var joined := Join("", PartTexts(FirstParts(resp)));
      && (r.Ok? <==> !AllIn(joined, Whitespace))
      && (r.Ok? ==> exists i :: StrippedAt(joined, r.value, Whitespace, i))
      && (r.Err? ==> r == Err(EmptyContentMessage))
  {
    if resp.candidates.None? || |resp.candidates.value| == 0 || resp.candidates.value[0].content.None? then
      Err(NoValidContentMessage)
    else
      var parts := resp.candidates.value[0].content.value.parts;
      if parts.None? || |parts.value| == 0 then
        Err(EmptyPartsMessage)
      else
        // the code reads `candidates[0].content` and its parts a second time
        var content := resp.candidates.value[0].content;
        if content.None? || content.value.parts.None? || |content.value.parts.value| == 0 then
          Err(NoContentPartsMessage)
        else
          match FirstNoneText(parts.value)
          case Some(i) => Err(NoneItemMessage(i))
          case None =>
            var blog := Strip(Join("", PartTexts(parts.value)), Whitespace);
            if blog == "" then Err(EmptyContentMessage) else Ok(blog)
  }

  /** The second check for parts repeats the first on the same object, so its message is never produced. */
  lemma NoContentPartsNeverReported(resp: Response)
    ensures ArticleFromResponse(resp) != Err(NoContentPartsMessage)
  {
    var r := ArticleFromResponse(resp);
    if r.Err? {
      assert NoValidContentMessage[23] != NoContentPartsMessage[23];
      assert |EmptyPartsMessage| != |NoContentPartsMessage|;
      assert |EmptyContentMessage| != |NoContentPartsMessage|;
      if HasParts(resp) && FirstNoneText(FirstParts(resp)).Some? {
        assert r.message[0] == 's' != NoContentPartsMessage[0];
      }
    }
  }

  /** An accepted article is non-empty and has no surrounding whitespace. */
  lemma AcceptedArticleIsTrimmed(resp: Response)
    requires ArticleFromResponse(resp).Ok?
    ensures var text := ArticleFromResponse(resp).value;
            text != "" && Trimmed(text, Whitespace)
  {
    var joined := Join("", PartTexts(FirstParts(resp)));
    var i :| StrippedAt(joined, ArticleFromResponse(resp).value, Whitespace, i);
  }

  /** Only the first candidate is read: responses that agree on it give the same outcome. */
  lemma OnlyFirstCandidateMatters(resp: Response, resp': Response)
    requires resp.candidates.Some? && resp'.candidates.Some?
    requires |resp.candidates.value| > 0 && |resp'.candidates.value| > 0
    requires resp.candidates.value[0] == resp'.candidates.value[0]
    ensures ArticleFromResponse(resp) == ArticleFromResponse(resp')
  {
  }

  /** A response with one candidate holding `parts`. */
  function SingleCandidate(parts: seq<Part>): Response
  {
    Response(Some([Candidate(Some(Content(Some(parts))))]))
  }

  /** A part without a `text` attribute reads exactly like one whose text is empty. */
  lemma {:induction false} MissingTextCountsAsEmpty(parts: seq<Part>, i: nat)
    requires i < |parts| && parts[i].text.NoTextAttr?
    ensures ArticleFromResponse(SingleCandidate(parts)) == ArticleFromResponse(SingleCandidate(parts[i := Part(Text(""))]))
  {
    var parts' := parts[i := Part(Text(""))];
    FirstNoneTextSameFlags(parts, parts');
    assert PartTexts(parts) == PartTexts(parts');
  }

  /** `FirstNoneText` only looks at which parts have a `None` text. */
  lemma {:induction false} FirstNoneTextSameFlags(parts: seq<Part>, parts': seq<Part>)
    requires |parts| == |parts'|
    requires forall j :: 0 <= j < |parts| ==> (parts[j].text.TextNone? <==> parts'[j].text.TextNone?)
    ensures FirstNoneText(parts) == FirstNoneText(parts')
  {
    if |parts| > 0 && !parts[0].text.TextNone? {
      FirstNoneTextSameFlags(parts[1..], parts'[1..]);
    }
  }

  // ------------------------------------------------------------- pipeline

  /** `cache.get(key)` with `if cached_blog:` — an empty article is falsy and so a miss. */
  function CachedArticle(entries: map<string, Value>, key: string): (r: Option<string>)
    ensures r.Some? <==> key in entries && entries[key].Article? && entries[key].text != ""
    ensures r.Some? ==> entries[key] == Article(r.value)
  {
    if key in entries && entries[key].Article? && entries[key].text != "" then Some(entries[key].text) else None
  }

  /**
   * The model of `generate_blog_from_transcription(captions_text, whisper_text)`,
   * as a function of the cache before the call; `hash` stands for the SHA-256
   * hex digest and `service` for what `generate_content` returned or raised.
   */
  function ArticleGeneration(entries: map<string, Value>, hash: string -> string, captions: string, whisper: string,
                             service: Result<Response>): (run: ArticleRun)
    ensures |run.calls| >= 1 && run.calls[0] == CacheGet(ArticleKey(hash, captions, whisper))
    ensures run.result.Err? ==> run.entries == entries
  {
    var key := ArticleKey(hash, captions, whisper);
    if CachedArticle(entries, key).Some? then
      ArticleRun(Ok(CachedArticle(entries, key).value), entries, [CacheGet(key)])
    else
      var run := Request(entries, key, Prompt(captions, whisper), service);
      run.(calls := [CacheGet(key)] + run.calls)
  }

  /** The pipeline after a miss under `key`: the request with `prompt`, the checks, and the write. */
  function Request(entries: map<string, Value>, key: string, prompt: string, service: Result<Response>): (run: ArticleRun)
    ensures |run.calls| >= 1 && run.calls[0] == GenerateContent(ModelName, prompt)
    ensures run.result.Ok? <==> |run.calls| == 2
    ensures run.result.Ok? ==> run.calls[1] == CacheSet(key, TimeoutSeconds)
    ensures run.calls == [GenerateContent(ModelName, prompt)] + (if run.result.Ok? then [CacheSet(key, TimeoutSeconds)] else [])
    ensures run.result.Err? ==> run.entries == entries && HasPrefix(RequestFailedPrefix, run.result.message)
    ensures run.result.Ok? ==> run.entries == entries[key := Article(run.result.value)]
  {
    var requested := [GenerateContent(ModelName, prompt)];
    var parsed := match service
      case Err(m) => Err(m)
      case Ok(resp) => ArticleFromResponse(resp);
    match parsed
    case Err(m) => ArticleRun(Err(RequestFailedPrefix + m), entries, requested)
    case Ok(text) => ArticleRun(Ok(text), entries[key := Article(text)], requested + [CacheSet(key, TimeoutSeconds)])
  }

  /** `generate_blog_from_transcription`, step by step, against the shared cache. */
  method GenerateArticle(cache: Cache, hash: string -> string, captions: string, whisper: string, service: Result<Response>)
    returns (result: Result<string>, ghost calls: seq<Call>)
    modifies cache
    ensures ArticleGeneration(old(cache.entries), hash, captions, whisper, service) == ArticleRun(result, cache.entries, calls)
    ensures old(cache.Valid()) ==> cache.Valid()
  {
    ghost var entries := cache.entries;
    var key := ArticleKey(hash, captions, whisper);
    var cached := cache.Get(key);
    calls := [CacheGet(key)];
    if cached.Some? && cached.value.Article? && cached.value.text != "" {
      result := Ok(cached.value.text);
      return;
    }

    var prompt := Prompt(captions, whisper);
    ghost var rest;
    result, rest := AskService(cache, key, prompt, service);
    calls := calls + rest;
    if WellFormed(entries) {
      ArticleKeepsCacheWellFormed(entries, hash, captions, whisper, service);
    }
  }

  /** The steps after a miss: ask the model, check and flatten its answer, cache the article. */
  method AskService(cache: Cache, key: string, prompt: string, service: Result<Response>)
    returns (result: Result<string>, ghost calls: seq<Call>)
    modifies cache
    ensures Request(old(cache.entries), key, prompt, service) == ArticleRun(result, cache.entries, calls)
  {
    calls := [GenerateContent(ModelName, prompt)];
    if service.Err? {
      result := Err(RequestFailedPrefix + service.message);
      return;
    }
    var parsed := ArticleFromResponse(service.value);
    if parsed.Err? {
      result := Err(RequestFailedPrefix + parsed.message);
      return;
    }
    cache.Set(key, Article(parsed.value), TimeoutSeconds);
    calls := calls + [CacheSet(key, TimeoutSeconds)];
    result := Ok(parsed.value);
  }

  /** A non-empty cached article is returned after the lookup alone: the service is not called and nothing is written. */
  lemma ArticleCacheHitReturnsStored(entries: map<string, Value>, hash: string -> string, captions: string, whisper: string,
                                     service: Result<Response>)
    requires CachedArticle(entries, ArticleKey(hash, captions, whisper)).Some?
    ensures var key := ArticleKey(hash, captions, whisper);
            ArticleGeneration(entries, hash, captions, whisper, service) ==
            ArticleRun(Ok(entries[key].text), entries, [CacheGet(key)])
  {
  }

  /**
   * On a miss the service is asked once, with the prompt for the pair, right
   * after the lookup; the only other call is the write, last and only on success.
   */
  lemma MissAsksServiceOnce(entries: map<string, Value>, hash: string -> string, captions: string, whisper: string,
                            service: Result<Response>)
    requires CachedArticle(entries, ArticleKey(hash, captions, whisper)).None?
    ensures var run := ArticleGeneration(entries, hash, captions, whisper, service);
            && |run.calls| >= 2
            && run.calls[..2] == [CacheGet(ArticleKey(hash, captions, whisper)), GenerateContent(ModelName, Prompt(captions, whisper))]
            && (run.result.Ok? <==> |run.calls| == 3)
    ensures var key := ArticleKey(hash, captions, whisper);
            var run := ArticleGeneration(entries, hash, captions, whisper, service);
            run.calls == [CacheGet(key), GenerateContent(ModelName, Prompt(captions, whisper))]
                         + (if run.result.Ok? then [CacheSet(key, TimeoutSeconds)] else [])
  {
    var key := ArticleKey(hash, captions, whisper);
    var request := Request(entries, key, Prompt(captions, whisper), service);
    assert ([CacheGet(key)] + request.calls)[..2] == [CacheGet(key), request.calls[0]];
    assert [CacheGet(key)] + request.calls
        == [CacheGet(key), GenerateContent(ModelName, Prompt(captions, whisper))]
           + (if request.result.Ok? then [CacheSet(key, TimeoutSeconds)] else []);
  }

  /**
   * Every error is wrapped and leaves the cache as it was; the cache changes
   * only on success, and then only under the pair's key, with the returned
   * article, which is non-empty and trimmed.
   */
  lemma ArticleWritesOnlyItsKey(entries: map<string, Value>, hash: string -> string, captions: string, whisper: string,
                                service: Result<Response>)
    ensures var run := ArticleGeneration(entries, hash, captions, whisper, service);
            run.result.Err? ==> HasPrefix(RequestFailedPrefix, run.result.message) && run.entries == entries
    ensures var run := ArticleGeneration(entries, hash, captions, whisper, service);
            run.entries != entries ==>
              && run.result.Ok?
              && run.entries == entries[ArticleKey(hash, captions, whisper) := Article(run.result.value)]
              && run.result.value != ""
              && Trimmed(run.result.value, Whitespace)
  {
    var key := ArticleKey(hash, captions, whisper);
    if CachedArticle(entries, key).None? && service.Ok? && ArticleFromResponse(service.value).Ok? {
      AcceptedArticleIsTrimmed(service.value);
    }
  }

  /** Every success is a non-empty article. */
  lemma ArticleIsNonEmpty(entries: map<string, Value>, hash: string -> string, captions: string, whisper: string,
                          service: Result<Response>)
    requires ArticleGeneration(entries, hash, captions, whisper, service).result.Ok?
    ensures ArticleGeneration(entries, hash, captions, whisper, service).result.value != ""
  {
    var key := ArticleKey(hash, captions, whisper);
    if CachedArticle(entries, key).None? {
      AcceptedArticleIsTrimmed(service.value);
    }
  }

  /**
   * After a success, a request whose two texts concatenate to the same string
   * is a hit: the same article comes back and the service is not called.
   */
  lemma RepeatedArticleHitsCache(entries: map<string, Value>, hash: string -> string, captions: string, whisper: string,
                                 service: Result<Response>, captions': string, whisper': string, service': Result<Response>)
    requires ArticleGeneration(entries, hash, captions, whisper, service).result.Ok?
    requires captions' + whisper' == captions + whisper
    ensures var first := ArticleGeneration(entries, hash, captions, whisper, service);
            ArticleGeneration(first.entries, hash, captions', whisper', service') ==
            ArticleRun(first.result, first.entries, [CacheGet(ArticleKey(hash, captions, whisper))])
  {
    ArticleIsNonEmpty(entries, hash, captions, whisper, service);
  }

  /**
   * The key hashes the bare concatenation, so two pairs can share one entry
   * although their prompts differ: by `RepeatedArticleHitsCache`, after the
   * first succeeds the second gets the first one's article.
   */
  lemma SameConcatenationDifferentPrompt()
    ensures "ab" + "c" == "a" + "bc"
    ensures Prompt("ab", "c") != Prompt("a", "bc")
  {
    var n := |PromptHead| + 1;
    ConcatenationLayout(PromptHead, "ab", PromptMiddle, "c", PromptTail);
    ConcatenationLayout(PromptHead, "a", PromptMiddle, "bc", PromptTail);
    assert Prompt("ab", "c")[n] == "ab"[1];
    assert Prompt("a", "bc")[n] == PromptMiddle[0];
  }

  /** The article pipeline keeps the cache well formed. */
  lemma ArticleKeepsCacheWellFormed(entries: map<string, Value>, hash: string -> string, captions: string, whisper: string,
                                    service: Result<Response>)
    requires WellFormed(entries)
    ensures WellFormed(ArticleGeneration(entries, hash, captions, whisper, service).entries)
  {
    var run := ArticleGeneration(entries, hash, captions, whisper, service);
    ArticleWritesOnlyItsKey(entries, hash, captions, whisper, service);
    if run.entries != entries {
      var key := ArticleKey(hash, captions, whisper);
      forall k | k in run.entries && HasPrefix(TranscriptPrefix, k) ensures k != key {
        KeyspacesDisjoint(k);
      }
    }
  }

  /** Writing an article never touches a transcript entry. */
  lemma ArticleLeavesTranscriptsAlone(entries: map<string, Value>, hash: string -> string, captions: string, whisper: string,
                                      service: Result<Response>, k: string)
    requires HasPrefix(TranscriptPrefix, k)
    ensures var run := ArticleGeneration(entries, hash, captions, whisper, service);
            (k in run.entries <==> k in entries) && (k in entries ==> run.entries[k] == entries[k])
  {
    ArticleWritesOnlyItsKey(entries, hash, captions, whisper, service);
    KeyspacesDisjoint(k);
  }
}
