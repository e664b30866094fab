/** Choosing which library items a download command fetches. */
module CliRun {
  import opened Wrappers
  import opened Strings
  import opened Library
  import opened Commands

  /** Whether one URL selects the item: by artist subdomain, or by album or track slug. */
  predicate UrlMatches(item: LibraryItem, url: BandcampUrl) {
    if IsArtistUrl(url) then item.artist_subdomain.Some? && EqIgnoreAsciiCase(item.artist_subdomain.value, url.artist)
    else item.slug.Some? && url.slug.Some? && EqIgnoreAsciiCase(item.slug.value, url.slug.value)
  }

  /** `item_matches_urls`: some URL selects the item. */
  predicate ItemMatchesUrls(item: LibraryItem, urls: seq<BandcampUrl>)
    decreases |urls|
  {
    urls != [] && (UrlMatches(item, urls[0]) || ItemMatchesUrls(item, urls[1..]))
  }

  /** An item matches exactly when one of the URLs selects it; so no URL list selects nothing. */
  lemma {:induction false} MatchesSomeUrl(item: LibraryItem, urls: seq<BandcampUrl>)
    ensures ItemMatchesUrls(item, urls) <==> exists k :: 0 <= k < |urls| && UrlMatches(item, urls[k])
    decreases |urls|
  {
    if urls != [] {
      MatchesSomeUrl(item, urls[1..]);
      if exists k :: 0 <= k < |urls| && UrlMatches(item, urls[k]) {
        var k :| 0 <= k < |urls| && UrlMatches(item, urls[k]);
        if k > 0 {
          assert urls[1..][k - 1] == urls[k];
        }
      }
      if ItemMatchesUrls(item, urls[1..]) {
        var k :| 0 <= k < |urls[1..]| && UrlMatches(item, urls[1..][k]);
        assert urls[k + 1] == urls[1..][k];
      }
    }
  }

  /** The order and repetition of the URLs do not matter, only which URLs are given. */
  lemma MatchIgnoresOrder(item: LibraryItem, a: seq<BandcampUrl>, b: seq<BandcampUrl>)
    requires forall u :: u in a <==> u in b
    ensures ItemMatchesUrls(item, a) <==> ItemMatchesUrls(item, b)
  {
    MatchesSomeUrl(item, a);
    MatchesSomeUrl(item, b);
    if ItemMatchesUrls(item, a) {
      var k :| 0 <= k < |a| && UrlMatches(item, a[k]);
      assert a[k] in b;
      var j :| 0 <= j < |b| && b[j] == a[k];
    }
    if ItemMatchesUrls(item, b) {
      var k :| 0 <= k < |b| && UrlMatches(item, b[k]);
      assert b[k] in a;
      var j :| 0 <= j < |a| && a[j] == b[k];
    }
  }

  /**
   * An artist URL selects exactly the items whose subdomain is the artist, ignoring ASCII case;
   * any other URL selects exactly the items whose slug is its slug, whatever their artist.
   */
  lemma UrlMatchCases(item: LibraryItem, url: BandcampUrl)
    ensures IsArtistUrl(url) ==>
      (UrlMatches(item, url) <==> exists s :: item.artist_subdomain == Some(s) && EqIgnoreAsciiCase(s, url.artist))
    ensures IsArtistUrl(url) && item.artist_subdomain.None? ==> !UrlMatches(item, url)
    ensures !IsArtistUrl(url) ==>
      (UrlMatches(item, url) <==> exists s :: item.slug == Some(s) && EqIgnoreAsciiCase(s, url.slug.value))
    ensures !IsArtistUrl(url) ==>
      UrlMatches(item, url) == UrlMatches(item.(artist_subdomain := None), url)
  {
    if IsArtistUrl(url) && UrlMatches(item, url) {
      assert item.artist_subdomain == Some(item.artist_subdomain.value);
    }
    if !IsArtistUrl(url) && UrlMatches(item, url) {
      assert item.slug == Some(item.slug.value);
    }
  }

  /** The URLs that parse, in the order given; the others are dropped silently. */
  function ParsedUrls(urls: seq<string>, urlParse: UrlParser): (r: seq<BandcampUrl>)
    ensures |r| <= |urls|
    ensures forall u :: u in r <==> exists k :: 0 <= k < |urls| && Parse(urls[k], urlParse) == Some(u)
    decreases |urls|
  {
    if urls == [] then []
    else
      var rest := ParsedUrls(urls[1..], urlParse);
      assert forall k :: 1 <= k < |urls| ==> urls[k] == urls[1..][k - 1];
      match Parse(urls[0], urlParse)
      case None => rest
      case Some(u) => [u] + rest
  }

  /** `DownloadTarget`. */
  datatype DownloadTarget = All | Url(urls: seq<string>)

  /** The items kept, in library order. */
  function KeepMatching(items: seq<LibraryItem>, urls: seq<BandcampUrl>): seq<LibraryItem>
    decreases |items|
  {
    if items == [] then []
    else (if ItemMatchesUrls(items[0], urls) then [items[0]] else []) + KeepMatching(items[1..], urls)
  }

  /** The items a target selects. */
  function TargetItems(items: seq<LibraryItem>, target: DownloadTarget, urlParse: UrlParser): seq<LibraryItem> {
    match target
    case All => items
    case Url(urls) => KeepMatching(items, ParsedUrls(urls, urlParse))
  }

  /** Filtering keeps exactly the matching items, with every copy of each, and never adds one. */
  lemma {:induction false} KeepMatchingSpec(items: seq<LibraryItem>, urls: seq<BandcampUrl>)
    ensures var r := KeepMatching(items, urls);
      && |r| <= |items|
      && (forall x :: x in r <==> x in items && ItemMatchesUrls(x, urls))
      && (forall x :: x in items && ItemMatchesUrls(x, urls) ==> multiset(r)[x] == multiset(items)[x])
    decreases |items|
  {
    if items != [] {
      KeepMatchingSpec(items[1..], urls);
      assert items == [items[0]] + items[1..];
      assert forall x :: x in items <==> x == items[0] || x in items[1..];
    }
  }

  /** Filtering keeps the library's order: the kept items of a first part come before those of the rest. */
  lemma {:induction false} KeepMatchingOrder(a: seq<LibraryItem>, b: seq<LibraryItem>, urls: seq<BandcampUrl>)
    ensures KeepMatching(a + b, urls) == KeepMatching(a, urls) + KeepMatching(b, urls)
    decreases |a|
  {
    if a == [] {
      assert a + b == b;
    } else {
      assert (a + b)[0] == a[0];
      assert (a + b)[1..] == a[1..] + b;
      KeepMatchingOrder(a[1..], b, urls);
    }
  }

  /**
   * The `All` target passes the library through; a URL target keeps just the items some
   * parseable URL selects, so a list of URLs none of which parse selects nothing.
   */
  lemma TargetSelection(items: seq<LibraryItem>, target: DownloadTarget, urlParse: UrlParser)
    ensures target.All? ==> TargetItems(items, target, urlParse) == items
    ensures target.Url? ==> forall x :: x in TargetItems(items, target, urlParse) <==>
      x in items && ItemMatchesUrls(x, ParsedUrls(target.urls, urlParse))
    ensures target.Url? && (forall k :: 0 <= k < |target.urls| ==> Parse(target.urls[k], urlParse).None?) ==>
      TargetItems(items, target, urlParse) == []
  {
    if target.Url? {
      var parsed := ParsedUrls(target.urls, urlParse);
      KeepMatchingSpec(items, parsed);
      if forall k :: 0 <= k < |target.urls| ==> Parse(target.urls[k], urlParse).None? {
        NoneParsed(target.urls, urlParse);
        NothingMatchesNoUrl(items);
      }
    }
  }

  lemma {:induction false} NoneParsed(urls: seq<string>, urlParse: UrlParser)
    requires forall k :: 0 <= k < |urls| ==> Parse(urls[k], urlParse).None?
    ensures ParsedUrls(urls, urlParse) == []
    decreases |urls|
  {
    if urls != [] {
      assert forall k :: 0 <= k < |urls[1..]| ==> urls[1..][k] == urls[k + 1];
      NoneParsed(urls[1..], urlParse);
    }
  }

  /** With no URL, the filter keeps nothing: no item matches an empty list. */
  lemma NothingMatchesNoUrl(items: seq<LibraryItem>)
    ensures KeepMatching(items, []) == []
  {
    KeepMatchingSpec(items, []);
  }
}
