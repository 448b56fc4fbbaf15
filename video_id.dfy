/**
 * `extract_video_id`: the video identifier of a YouTube link, from the
 * parts `urllib.parse.urlparse` splits it into.
 */
module VideoId {
  import opened Wrappers
  import opened PyStrings

  /** One `name=value` pair of a query string, already percent-decoded, in the order it appears. */
  datatype QueryPair = QueryPair(name: string, value: string)

  /**
   * A URL as `urlparse` splits it: the network location, the path, and the
   * query as its sequence of pairs. Blank values are kept here; dropping
   * them is part of `parse_qs`, which `FirstQueryValue` models.
   */
  datatype Url = Url(netloc: string, path: string, query: seq<QueryPair>)

  const PrimaryHost := "youtube"
  const ShortLinkHost := "youtu.be"

  /** `p` binds `name` to a non-blank value, so `parse_qs` keeps it. */
  predicate Binds(p: QueryPair, name: string)
  {
    p.name == name && p.value != ""
  }

  /** `query[i]` is the first pair that binds `name` to a non-blank value. */
  ghost predicate IsFirstBinding(query: seq<QueryPair>, name: string, i: int)
  {
    0 <= i < |query| && Binds(query[i], name) && forall j :: 0 <= j < i ==> !Binds(query[j], name)
  }

  /**
   * `parse_qs(query).get(name, [None])[0]`: `parse_qs` leaves out blank
   * values, so this is the first non-blank value bound to `name`, or none.
   */
  function FirstQueryValue(query: seq<QueryPair>, name: string): (r: Option<string>)
    ensures r.Some? ==> exists i :: IsFirstBinding(query, name, i) && query[i].value == r.value
    ensures r.None? <==> forall i :: 0 <= i < |query| ==> !Binds(query[i], name)
  {
    if |query| == 0 then
      None
    else if Binds(query[0], name) then
      assert IsFirstBinding(query, name, 0);
      Some(query[0].value)
    else
      var r := FirstQueryValue(query[1..], name);
      assert forall i :: 1 <= i < |query| ==> query[i] == query[1..][i - 1];
      assert r.Some? ==> exists i :: IsFirstBinding(query, name, i) && query[i].value == r.value by {
        if r.Some? {
          var i :| IsFirstBinding(query[1..], name, i) && query[1..][i].value == r.value;
          assert IsFirstBinding(query, name, i + 1);
        }
      }
      r
  }

  /** `extract_video_id(url)`: the `v` value for a YouTube host, the bare path for a short link, none otherwise. */
  function ExtractVideoId(u: Url): (r: Option<string>)
    ensures Contains(u.netloc, PrimaryHost) ==>
      && (r.Some? <==> exists i :: IsFirstBinding(u.query, "v", i))
      && (r.Some? ==> r.value != "" && exists i :: IsFirstBinding(u.query, "v", i) && u.query[i].value == r.value)
    ensures !Contains(u.netloc, PrimaryHost) && Contains(u.netloc, ShortLinkHost) ==>
      r.Some? && exists i :: StrippedAt(u.path, r.value, {'/'}, i)
    ensures !Contains(u.netloc, PrimaryHost) && !Contains(u.netloc, ShortLinkHost) ==> r.None?
  {
    if Contains(u.netloc, PrimaryHost) then
      FirstQueryValue(u.query, "v")
    else if Contains(u.netloc, ShortLinkHost) then
      Some(Strip(u.path, {'/'}))
    else
      None
  }

  /** The identifier the pipeline accepts: extracted and non-empty (`if not video_id` rejects both none and ""). */
  predicate HasUsableId(u: Url)
  {
    ExtractVideoId(u).Some? && ExtractVideoId(u).value != ""
  }

  /** `https://www.youtube.com/watch?v=abc123` gives `abc123`; a blank `v` is skipped. */
  lemma ExamplePrimaryHost()
    ensures ExtractVideoId(Url("www.youtube.com", "/watch", [QueryPair("v", "abc123")])) == Some("abc123")
    ensures ExtractVideoId(Url("www.youtube.com", "/watch", [QueryPair("v", ""), QueryPair("v", "xyz")])) == Some("xyz")
    ensures ExtractVideoId(Url("www.youtube.com", "/watch", [QueryPair("v", "")])) == None
  {
    assert OccursAt("www.youtube.com", PrimaryHost, 4);
  }

  /** `https://youtu.be/abc123/` gives `abc123`: the slashes at both ends are stripped. */
  lemma ExampleShortLink()
    ensures ExtractVideoId(Url("youtu.be", "/abc123/", [])) == Some("abc123")
  {
    ShortLinkIsNotPrimary();
    assert OccursAt("youtu.be", ShortLinkHost, 0);
    var path := "/abc123/";
    assert StrippedAt(path, "abc123", {'/'}, 1) by {
      assert path[1..7] == "abc123";
      assert path[..1] == "/";
      assert path[7..] == "/";
    }
    StripUnique(path, "abc123", {'/'}, 1);
  }

  /** `https://example.com/x` gives none. */
  lemma ExampleOtherHost()
    ensures ExtractVideoId(Url("example.com", "/x", [])) == None
  {
    NoLetterNoOccurrence("example.com", PrimaryHost);
    NoLetterNoOccurrence("example.com", ShortLinkHost);
  }

  /** The short-link host does not contain the primary host name, so short links reach the second branch. */
  lemma ShortLinkIsNotPrimary()
    ensures !Contains(ShortLinkHost, PrimaryHost)
  {
    forall i | 0 <= i <= 1 ensures !OccursAt(ShortLinkHost, PrimaryHost, i) {
      assert ShortLinkHost[i..i + 7][5 - 4 * i] != PrimaryHost[5 - 4 * i];
    }
  }

  /** A string without the letter 'y' contains neither host name. */
  lemma NoLetterNoOccurrence(s: string, sub: string)
    requires |sub| > 0 && sub[0] == 'y'
    requires forall k :: 0 <= k < |s| ==> s[k] != 'y'
    ensures !Contains(s, sub)
  {
  }
}
