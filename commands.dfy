/** Command-line Bandcamp URLs: which artist, and which album or track if any. */
module Commands {
  import opened Wrappers
  import opened Strings

  /** What the URL parser yields: the host, if any, and the path segments, if the URL has a path. */
  datatype UrlParts = UrlParts(host: Option<string>, segments: Option<seq<string>>)

  /** The URL parser: `None` for a string that is not a URL. */
  type UrlParser = string -> Option<UrlParts>

  /** `BandcampUrl`: the artist's subdomain and the album or track slug. */
  datatype BandcampUrl = BandcampUrl(artist: string, slug: Option<string>)

  const BANDCAMP_SUFFIX: string := ".bandcamp.com"

  /** `BandcampUrl::parse`, given what the URL parser made of the input. */
  function ParseParts(parts: Option<UrlParts>): Option<BandcampUrl> {
    if parts.None? || parts.value.host.None? then None
    else
      var host := parts.value.host.value;
      if !EndsWith(host, BANDCAMP_SUFFIX) then None
      else if parts.value.segments.None? then None
      else
        var segs := parts.value.segments.value;
        Some(BandcampUrl(host[..|host| - |BANDCAMP_SUFFIX|], if |segs| >= 2 then Some(segs[1]) else None))
  }

  function Parse(input: string, urlParse: UrlParser): Option<BandcampUrl> {
    ParseParts(urlParse(input))
  }

  /**
   * A URL is accepted exactly when it parses, has a host ending in ".bandcamp.com" and has a
   * path; the artist is the host without that suffix, and the slug is the second path segment.
   */
  lemma ParseSpec(input: string, urlParse: UrlParser)
    ensures var parts := urlParse(input);
      var r := Parse(input, urlParse);
      && (r.Some? <==> parts.Some? && parts.value.host.Some? && EndsWith(parts.value.host.value, BANDCAMP_SUFFIX)
                       && parts.value.segments.Some?)
      && (r.Some? ==>
            && r.value.artist + BANDCAMP_SUFFIX == parts.value.host.value
            && (r.value.slug.Some? <==> |parts.value.segments.value| >= 2)
            && (r.value.slug.Some? ==> r.value.slug.value == parts.value.segments.value[1]))
  {
    var parts := urlParse(input);
    if Parse(input, urlParse).Some? {
      var host := parts.value.host.value;
      assert host[..|host| - |BANDCAMP_SUFFIX|] + host[|host| - |BANDCAMP_SUFFIX|..] == host;
    }
  }

  /** `is_artist_url`: the URL names no album or track. */
  predicate IsArtistUrl(u: BandcampUrl) {
    u.slug.None?
  }

  /** A bare artist page, with at most one path segment, is an artist URL. */
  lemma BareArtistPage(artist: string, segments: seq<string>, urlParse: UrlParser, input: string)
    requires urlParse(input) == Some(UrlParts(Some(artist + BANDCAMP_SUFFIX), Some(segments)))
    requires |segments| < 2
    ensures Parse(input, urlParse) == Some(BandcampUrl(artist, None))
    ensures IsArtistUrl(Parse(input, urlParse).value)
  {
    var host := artist + BANDCAMP_SUFFIX;
    assert host[|host| - |BANDCAMP_SUFFIX|..] == BANDCAMP_SUFFIX;
    assert host[..|host| - |BANDCAMP_SUFFIX|] == artist;
  }

  /** A page below an artist page (an album or track) names its slug and is not an artist URL. */
  lemma ArtistPage(artist: string, kind: string, slug: string, rest: seq<string>, urlParse: UrlParser, input: string)
    requires urlParse(input) == Some(UrlParts(Some(artist + BANDCAMP_SUFFIX), Some([kind, slug] + rest)))
    ensures Parse(input, urlParse) == Some(BandcampUrl(artist, Some(slug)))
    ensures !IsArtistUrl(Parse(input, urlParse).value)
  {
    var host := artist + BANDCAMP_SUFFIX;
    assert host[|host| - |BANDCAMP_SUFFIX|..] == BANDCAMP_SUFFIX;
    assert host[..|host| - |BANDCAMP_SUFFIX|] == artist;
  }
}
