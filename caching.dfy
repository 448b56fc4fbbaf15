/**
 * Django's `cache` as the two pipelines use it: one shared store, keyed by
 * strings, holding transcript pairs and articles.
 */
module Caching {
  import opened Wrappers
  import opened PyStrings

  /** The time-to-live both writers pass (`timeout=86400`, one day); expiry itself is not modelled. */
  const TimeoutSeconds: nat := 86400

  const TranscriptPrefix := "transcriptions:"
  const ArticlePrefix := "blog:"

  /** What the store holds: a `(captions_text, whisper_text)` tuple, or an article. */
  datatype Value = Transcripts(captions: string, whisper: string) | Article(text: string)

  class Cache {
    var entries: map<string, Value>

    constructor ()
      ensures entries == map[]
    {
      entries := map[];
    }

    /** `cache.get(key)`: the stored value, or `None`. */
    function Get(key: string): (r: Option<Value>)
      reads this
      ensures r.Some? <==> key in entries
      ensures r.Some? ==> r.value == entries[key]
    {
      if key in entries then Some(entries[key]) else None
    }

    /** `cache.set(key, value, timeout)`. */
    method Set(key: string, value: Value, timeout: nat)
      modifies this
      ensures entries == old(entries)[key := value]
    {
      entries := entries[key := value];
    }

    /** The invariant both pipelines keep: `WellFormed` of the entries. */
    ghost predicate Valid()
      reads this
    {
      WellFormed(entries)
    }
  }

  /** `f"transcriptions:{video_id}:{lang}"`. */
  function TranscriptKey(videoId: string, lang: string): (k: string)
    ensures HasPrefix(TranscriptPrefix, k)
  {
    TranscriptPrefix + videoId + ":" + lang
  }

  /** `"blog:" + sha256((captions_text + whisper_text).encode()).hexdigest()`, with `hash` standing for the digest. */
  function ArticleKey(hash: string -> string, captions: string, whisper: string): (k: string)
    ensures HasPrefix(ArticlePrefix, k)
  {
    ArticlePrefix + hash(captions + whisper)
  }

  /** Pairs whose texts concatenate to the same string share an article key, whatever the hash. */
  lemma ArticleKeyDependsOnConcatenation(hash: string -> string, captions: string, whisper: string,
                                         captions': string, whisper': string)
    requires captions + whisper == captions' + whisper'
    ensures ArticleKey(hash, captions, whisper) == ArticleKey(hash, captions', whisper')
  {
  }

  /**
   * What the two writers maintain: transcript keys hold pairs that are not
   * both empty, and article keys hold non-empty articles.
   */
  ghost predicate WellFormed(entries: map<string, Value>)
  {
    forall k :: k in entries ==>
      && (HasPrefix(TranscriptPrefix, k) ==>
           entries[k].Transcripts? && (entries[k].captions != "" || entries[k].whisper != ""))
      && (HasPrefix(ArticlePrefix, k) ==> entries[k].Article? && entries[k].text != "")
  }

  /** No article key is a transcript key, so neither writer can overwrite the other's entries. */
  lemma KeyspacesDisjoint(k: string)
    requires HasPrefix(TranscriptPrefix, k)
    ensures !HasPrefix(ArticlePrefix, k)
  {
    assert k[0] == k[..|TranscriptPrefix|][0] == 't';
  }

  /** For one language, distinct identifiers get distinct transcript keys. */
  lemma TranscriptKeyInjective(id1: string, id2: string, lang: string)
    requires TranscriptKey(id1, lang) == TranscriptKey(id2, lang)
    ensures id1 == id2
  {
    var k := TranscriptKey(id1, lang);
    var n := |TranscriptPrefix|;
    assert |id1| == |id2|;
    assert id1 == k[n..n + |id1|];
    assert id2 == k[n..n + |id2|];
  }

  /** Across languages the key can be ambiguous: an identifier holding ':' collides with another language's key. */
  lemma TranscriptKeyAmbiguousAcrossLanguages()
    ensures TranscriptKey("a:b", "c") == TranscriptKey("a", "b:c")
  {
  }
}
