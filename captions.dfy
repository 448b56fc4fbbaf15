/**
 * `get_youtube_captions`: the publisher captions of a video in one
 * language, with a fallback to the auto-generated track. The caption
 * service is replaced by the outcomes of its two calls.
 */
module Captions {
  import opened Wrappers
  import opened PyStrings

  /** One caption fragment; its start time and duration are not used. */
  datatype Fragment = Fragment(text: string)

  /** Outcome of `get_transcript(video_id, languages=[lang])`. */
  datatype TranscriptFetch =
    | Fetched(fragments: seq<Fragment>)
    | NoTranscriptFound
    | TranscriptsDisabled
    | FetchFailed(message: string)

  /**
   * Outcome of the fallback: `list_transcripts(video_id)`, then
   * `find_generated_transcript([lang])`, then `fetch()` on the track.
   */
  datatype GeneratedTrack =
    | ListingFailed(message: string)
    | NoGeneratedTrack
    | Generated(fetch: Result<seq<Fragment>>)

  function FragmentTexts(fragments: seq<Fragment>): (texts: seq<string>)
    ensures |texts| == |fragments|
    ensures forall k :: 0 <= k < |fragments| ==> texts[k] == fragments[k].text
  {
    seq(|fragments|, k requires 0 <= k < |fragments| => fragments[k].text)
  }

  /** `" ".join([t['text'] for t in captions]).strip()`. */
  function JoinedText(fragments: seq<Fragment>): string
  {
    Strip(Join(" ", FragmentTexts(fragments)), Whitespace)
  }

  /** Only a missing track in the requested language sends the lookup to the auto-generated track. */
  predicate TriesGenerated(requested: TranscriptFetch)
  {
    requested.NoTranscriptFound?
  }

  /**
   * `get_youtube_captions(video_id, lang)`: never raises; the joined text
   * of whichever track was fetched, and "" on every failure.
   */
  function YouTubeCaptions(requested: TranscriptFetch, generated: GeneratedTrack): (r: string)
    ensures Trimmed(r, Whitespace)
    ensures requested.Fetched? ==> r == JoinedText(requested.fragments)
    ensures TriesGenerated(requested) && generated.Generated? && generated.fetch.Ok? ==>
      r == JoinedText(generated.fetch.value)
    ensures requested.TranscriptsDisabled? || requested.FetchFailed? ==> r == ""
    ensures TriesGenerated(requested) && !(generated.Generated? && generated.fetch.Ok?) ==> r == ""
  {
    match requested
    case Fetched(fragments) => JoinedText(fragments)
    case NoTranscriptFound =>
      (match generated
       case Generated(Ok(fragments)) => JoinedText(fragments)
       case Generated(Err(_)) => ""
       case ListingFailed(_) => ""
       case NoGeneratedTrack => "")
    case TranscriptsDisabled => ""
    case FetchFailed(_) => ""
  }

  /** The fallback outcome is read only after a `NoTranscriptFound`: otherwise it cannot change the result. */
  lemma FallbackOnlyAfterNoTranscript(requested: TranscriptFetch, g1: GeneratedTrack, g2: GeneratedTrack)
    requires !TriesGenerated(requested)
    ensures YouTubeCaptions(requested, g1) == YouTubeCaptions(requested, g2)
  {
  }

  /** A non-empty result has a fragment with a non-whitespace character. */
  lemma {:induction false} NonEmptyNeedsText(fragments: seq<Fragment>)
    requires JoinedText(fragments) != ""
    ensures exists k :: 0 <= k < |fragments| && !AllIn(fragments[k].text, Whitespace)
  {
    var joined := Join(" ", FragmentTexts(fragments));
    assert !AllIn(joined, Whitespace);
    JoinSpaces(FragmentTexts(fragments));
  }

  /** Joining only-whitespace pieces with spaces gives only whitespace. */
  lemma {:induction false} JoinSpaces(pieces: seq<string>)
    requires !AllIn(Join(" ", pieces), Whitespace)
    ensures exists k :: 0 <= k < |pieces| && !AllIn(pieces[k], Whitespace)
  {
    if |pieces| == 1 {
      assert !AllIn(pieces[0], Whitespace);
    } else {
      var rest := Join(" ", pieces[1..]);
      var joined := pieces[0] + " " + rest;
      if AllIn(pieces[0], Whitespace) {
        if AllIn(rest, Whitespace) {
          assert AllIn(joined, Whitespace) by {
            forall k | 0 <= k < |joined| ensures joined[k] in Whitespace {
              if k < |pieces[0]| { assert joined[k] == pieces[0][k]; }
              else if k > |pieces[0]| { assert joined[k] == rest[k - |pieces[0]| - 1]; }
            }
          }
        } else {
          JoinSpaces(pieces[1..]);
          var k :| 0 <= k < |pieces[1..]| && !AllIn(pieces[1..][k], Whitespace);
          assert pieces[1..][k] == pieces[k + 1];
        }
      }
    }
  }
}
