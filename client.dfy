/**
 * The Bandcamp client: cookie validation, the paged collection fetch with its
 * de-duplication, the conversion of collection entries into library items, and the
 * trigger-and-poll resolution of a download URL. Every exchange with the server is one
 * entry of a finite script of replies (`replies[k]` answers the `k`-th request).
 */
module Client {
  import opened Wrappers
  import opened Strings
  import opened Json
  import opened Errors
  import opened Http
  import opened Auth
  import opened Library
  import Scrape

  const BANDCAMP_BASE: string := "https://bandcamp.com"

  // ---------------------------------------------------------------- wire records

  datatype UrlHints = UrlHints(subdomain: Option<string>, custom_domain: Option<string>,
                               slug: Option<string>, item_type: Option<string>)

  datatype CollectionItem = CollectionItem(
    sale_item_id: u64,
    sale_item_type: string,
    band_name: string,
    item_title: string,
    item_id: u64,
    band_id: u64,
    item_art_id: Option<u64>,
    is_preorder: bool,
    hidden: Option<bool>,
    token: string,
    tralbum_type: string,
    url_hints: Option<UrlHints>,
    item_url: Option<string>)

  datatype CollectionResponse = CollectionResponse(
    items: seq<CollectionItem>,
    more_available: bool,
    last_token: Option<string>,
    redownload_urls: map<string, string>)

  /** `serde_json::from_str::<CollectionResponse>`: the page, or the library's error text. */
  type CollectionDecoder = string -> Result<CollectionResponse, string>

  // ---------------------------------------------------------------- headers

  const HEADER_VALUE_ERROR: BandcampError := AuthError("failed to parse header value")

  function CookieHeader(cookie: string): string {
    "identity=" + cookie
  }

  /** `auth_headers`: the `Cookie` header value, or why it cannot be sent. */
  function AuthHeaders(creds: Option<Credentials>): (r: Result<string, BandcampError>)
    ensures creds.None? <==> r == Err(NotLoggedIn)
    ensures r.Ok? ==> r.value == CookieHeader(creds.value.identity_cookie) && HeaderValueValid(r.value)
    ensures r.Err? && creds.Some? ==> r.error == HEADER_VALUE_ERROR
  {
    if creds.None? then Err(NotLoggedIn)
    else if HeaderValueValid(CookieHeader(creds.value.identity_cookie)) then Ok(CookieHeader(creds.value.identity_cookie))
    else Err(HEADER_VALUE_ERROR)
  }

  // ---------------------------------------------------------------- cookie validation

  const SUMMARY_URL: string := BANDCAMP_BASE + "/api/fan/2/collection_summary"
  const SETTINGS_URL: string := BANDCAMP_BASE + "/settings"

  /** Credentials for a cookie whose fan id is known. */
  function Validated(cookie: string, fanId: u64): Credentials {
    Credentials(cookie, None, Some(Decimal(fanId)))
  }

  /**
   * `validate_cookie`: the collection summary (`replies[0]`) is asked first; when it does not
   * answer 2xx with a `"fan_id":` number, the settings page (`replies[1]`) is asked and scraped.
   */
  function CookieValidation(cookie: string, replies: seq<HttpReply>, parse: Parser): (r: Result<Credentials, BandcampError>)
    ensures r.Ok? ==> r.value.identity_cookie == cookie && r.value.client_id.None? && r.value.fan_id.Some?
    ensures r.Ok? ==> ParseU64(r.value.fan_id.value).Some?
    ensures !HeaderValueValid(CookieHeader(cookie)) ==> r == Err(HEADER_VALUE_ERROR)
  {
    if !HeaderValueValid(CookieHeader(cookie)) then Err(HEADER_VALUE_ERROR)
    else match ReplyAt(replies, 0)
      case TransportError => Err(NetworkError(Transport))
      case Response(status, _, text) =>
        if IsSuccess(status) && Scrape.FanIdAfter(text).Some? then
          var id := Scrape.FanIdAfter(text).value;
          ParseDecimal(id);
          Ok(Validated(cookie, id))
        else match ReplyAt(replies, 1)
          case TransportError => Err(NetworkError(Transport))
          case Response(status2, _, html) =>
            if !IsSuccess(status2) then Err(InvalidCredentials)
            else match Scrape.ExtractFanId(html, parse)
              case Err(e) => Err(e)
              case Ok(id) =>
                ParseDecimal(id);
                Ok(Validated(cookie, id))
  }

  /** A validated cookie can always be sent back as a header. */
  lemma ValidatedCookieSendable(cookie: string, replies: seq<HttpReply>, parse: Parser)
    requires CookieValidation(cookie, replies, parse).Ok?
    ensures AuthHeaders(Some(CookieValidation(cookie, replies, parse).value)) == Ok(CookieHeader(cookie))
  {
  }

  /** A summary answering 2xx with a fan id settles it: the settings page is never asked. */
  lemma SummaryFanIdSuffices(cookie: string, replies: seq<HttpReply>, parse: Parser)
    requires HeaderValueValid(CookieHeader(cookie)) && |replies| > 0
    requires replies[0].Response? && IsSuccess(replies[0].status)
    requires Scrape.FanIdAfter(replies[0].body).Some?
    ensures CookieValidation(cookie, replies[..1], parse) == CookieValidation(cookie, replies, parse)
    ensures CookieValidation(cookie, replies, parse) == Ok(Validated(cookie, Scrape.FanIdAfter(replies[0].body).value))
  {
  }

  /** Without a usable summary, a settings page that does not answer 2xx rejects the cookie. */
  lemma SettingsRejects(cookie: string, replies: seq<HttpReply>, parse: Parser)
    requires HeaderValueValid(CookieHeader(cookie)) && |replies| > 1
    requires replies[0].Response? && !(IsSuccess(replies[0].status) && Scrape.FanIdAfter(replies[0].body).Some?)
    requires replies[1].Response? && !IsSuccess(replies[1].status)
    ensures CookieValidation(cookie, replies, parse) == Err(InvalidCredentials)
  {
  }

  // ---------------------------------------------------------------- conversion

  function ItemTypeOf(tralbumType: string): ItemType {
    if tralbumType == "a" then Album
    else if tralbumType == "t" then Track
    else if tralbumType == "p" then Package
    else Album
  }

  function ArtworkUrl(artId: u64): string {
    "https://f4.bcbits.com/img/a" + Decimal(artId) + "_10.jpg"
  }

  function RedownloadKey(item: CollectionItem): string {
    item.sale_item_type + Decimal(item.sale_item_id)
  }

  function FallbackDownloadUrl(saleId: u64): string {
    BANDCAMP_BASE + "/download?from=collection&payment_id=" + Decimal(saleId) + "&sitem_id=" + Decimal(saleId)
  }

  /** Every format is offered for every purchase; the server decides later what it really has. */
  const ALL_OFFERED: seq<AudioFormat> := [Flac, Mp3320, Mp3V0, Aac, OggVorbis, Alac, Wav, Aiff]

  /**
   * `convert_collection_item`. The purchase date is the clock's reading `now`, as the API
   * does not report one.
   */
  function ConvertCollectionItem(item: CollectionItem, urls: map<string, string>, now: Timestamp): LibraryItem {
    var hints := if item.url_hints.Some? then (item.url_hints.value.subdomain, item.url_hints.value.slug) else (None, None);
    var key := RedownloadKey(item);
    LibraryItem(
      id := Decimal(item.sale_item_id),
      item_type := ItemTypeOf(item.tralbum_type),
      title := item.item_title,
      artist := item.band_name,
      artist_id := Decimal(item.band_id),
      artist_subdomain := hints.0,
      slug := hints.1,
      item_url := item.item_url,
      purchase_date := now,
      artwork_url := if item.item_art_id.Some? then Some(ArtworkUrl(item.item_art_id.value)) else None,
      download_url := if key in urls then urls[key] else FallbackDownloadUrl(item.sale_item_id),
      available_formats := ALL_OFFERED,
      is_preorder := item.is_preorder,
      is_hidden := item.hidden.GetOr(false))
  }

  /** What a converted item says about the entry it came from. */
  lemma ConvertedItem(item: CollectionItem, urls: map<string, string>, now: Timestamp)
    ensures var r := ConvertCollectionItem(item, urls, now);
      && ParseU64(r.id) == Some(item.sale_item_id)
      && ParseU64(r.artist_id) == Some(item.band_id)
      && (r.item_type == Track <==> item.tralbum_type == "t")
      && (r.item_type == Package <==> item.tralbum_type == "p")
      && (RedownloadKey(item) in urls ==> r.download_url == urls[RedownloadKey(item)])
      && (RedownloadKey(item) !in urls ==> r.download_url == FallbackDownloadUrl(item.sale_item_id))
      && (r.is_hidden <==> item.hidden == Some(true))
      && (r.artwork_url.Some? <==> item.item_art_id.Some?)
      && (forall f: AudioFormat :: f in r.available_formats)
      && (item.url_hints.None? ==> r.artist_subdomain.None? && r.slug.None?)
  {
    var r := ConvertCollectionItem(item, urls, now);
    assert r.id == Decimal(item.sale_item_id) && r.artist_id == Decimal(item.band_id);
    ParseDecimal(item.sale_item_id);
    ParseDecimal(item.band_id);
    AllFormatsOffered();
  }

  lemma AllFormatsOffered()
    ensures forall f: AudioFormat :: f in ALL_OFFERED
  {
    forall f: AudioFormat ensures f in ALL_OFFERED {
      match f
      case Flac => assert ALL_OFFERED[0] == f;
      case Mp3320 => assert ALL_OFFERED[1] == f;
      case Mp3V0 => assert ALL_OFFERED[2] == f;
      case Aac => assert ALL_OFFERED[3] == f;
      case OggVorbis => assert ALL_OFFERED[4] == f;
      case Alac => assert ALL_OFFERED[5] == f;
      case Wav => assert ALL_OFFERED[6] == f;
      case Aiff => assert ALL_OFFERED[7] == f;
    }
  }

  /** The redownload key tells apart entries with distinct sale ids and a common sale type. */
  lemma RedownloadKeyInjective(a: CollectionItem, b: CollectionItem)
    requires a.sale_item_type == b.sale_item_type && RedownloadKey(a) == RedownloadKey(b)
    ensures a.sale_item_id == b.sale_item_id
  {
    var t := a.sale_item_type;
    assert Decimal(a.sale_item_id) == RedownloadKey(a)[|t|..];
    assert Decimal(b.sale_item_id) == RedownloadKey(b)[|t|..];
    DecimalInjective(a.sale_item_id, b.sale_item_id);
  }

  // ---------------------------------------------------------------- de-duplication

  /** A collection entry with the redownload map of the page it arrived on. */
  datatype Tagged = Tagged(item: CollectionItem, urls: map<string, string>)

  function Tag(page: CollectionResponse): (r: seq<Tagged>)
    ensures |r| == |page.items|
    ensures forall i :: 0 <= i < |r| ==> r[i] == Tagged(page.items[i], page.redownload_urls)
  {
    seq(|page.items|, i requires 0 <= i < |page.items| => Tagged(page.items[i], page.redownload_urls))
  }

  function SaleId(t: Tagged): u64 {
    t.item.sale_item_id
  }

  /** The sale ids seen in `ts`. */
  function SaleIds(ts: seq<Tagged>): set<u64>
    decreases |ts|
  {
    if ts == [] then {} else SaleIds(ts[..|ts| - 1]) + {SaleId(ts[|ts| - 1])}
  }

  /** The entries of `ts` whose sale id has not appeared earlier, in order. */
  function KeepFirst(ts: seq<Tagged>): seq<Tagged>
    decreases |ts|
  {
    if ts == [] then []
    else
      var init, last := ts[..|ts| - 1], ts[|ts| - 1];
      KeepFirst(init) + (if SaleId(last) in SaleIds(init) then [] else [last])
  }

  /** Index `i` holds the first occurrence of its sale id. */
  predicate FirstAt(ts: seq<Tagged>, i: nat)
    requires i < |ts|
  {
    forall j :: 0 <= j < i ==> SaleId(ts[j]) != SaleId(ts[i])
  }

  lemma {:induction false} SaleIdsMembers(ts: seq<Tagged>)
    ensures forall id :: id in SaleIds(ts) <==> exists i :: 0 <= i < |ts| && SaleId(ts[i]) == id
    decreases |ts|
  {
    if ts != [] {
      var init := ts[..|ts| - 1];
      SaleIdsMembers(init);
      forall id ensures id in SaleIds(ts) <==> exists i :: 0 <= i < |ts| && SaleId(ts[i]) == id {
        if id in SaleIds(init) {
          var i :| 0 <= i < |init| && SaleId(init[i]) == id;
          assert ts[i] == init[i];
        }
        if exists i :: 0 <= i < |ts| && SaleId(ts[i]) == id {
          var i :| 0 <= i < |ts| && SaleId(ts[i]) == id;
          if i < |init| { assert init[i] == ts[i]; }
        }
      }
    }
  }

  /** No sale id is kept twice. */
  lemma {:induction false} KeepFirstDistinct(ts: seq<Tagged>)
    ensures var r := KeepFirst(ts);
      forall i, j :: 0 <= i < j < |r| ==> SaleId(r[i]) != SaleId(r[j])
    ensures SaleIds(KeepFirst(ts)) == SaleIds(ts)
    decreases |ts|
  {
    if ts != [] {
      var init, last := ts[..|ts| - 1], ts[|ts| - 1];
      KeepFirstDistinct(init);
      var k := KeepFirst(init);
      SaleIdsMembers(k);
      if SaleId(last) in SaleIds(init) {
        assert KeepFirst(ts) == k + [] == k;
      } else {
        var r := k + [last];
        assert r[..|r| - 1] == k;
        forall i, j | 0 <= i < j < |r| ensures SaleId(r[i]) != SaleId(r[j]) {
          if j == |r| - 1 {
            assert r[i] == k[i];
          } else {
            assert r[i] == k[i] && r[j] == k[j];
          }
        }
      }
    }
  }

  /** Exactly the first occurrences are kept. */
  lemma {:induction false} KeepFirstMembers(ts: seq<Tagged>)
    ensures forall x :: x in KeepFirst(ts) <==> exists i :: 0 <= i < |ts| && ts[i] == x && FirstAt(ts, i)
    decreases |ts|
  {
    if ts != [] {
      var init, last := ts[..|ts| - 1], ts[|ts| - 1];
      KeepFirstMembers(init);
      LastFirstAt(ts);
      forall x ensures x in KeepFirst(ts) <==> exists i :: 0 <= i < |ts| && ts[i] == x && FirstAt(ts, i) {
        if x in KeepFirst(init) {
          var i :| 0 <= i < |init| && init[i] == x && FirstAt(init, i);
          FirstAtInit(ts, i);
          assert ts[i] == x;
        }
        if exists i :: 0 <= i < |ts| && ts[i] == x && FirstAt(ts, i) {
          var i :| 0 <= i < |ts| && ts[i] == x && FirstAt(ts, i);
          if i < |init| {
            FirstAtInit(ts, i);
            assert init[i] == x;
          }
        }
      }
    }
  }

  /** Before the last entry, being a first occurrence does not depend on the last entry. */
  lemma FirstAtInit(ts: seq<Tagged>, i: nat)
    requires i + 1 < |ts|
    ensures FirstAt(ts, i) == FirstAt(ts[..|ts| - 1], i)
  {
    var init := ts[..|ts| - 1];
    assert forall j :: 0 <= j <= i ==> ts[j] == init[j];
  }

  /** The last entry is a first occurrence exactly when its sale id is new. */
  lemma LastFirstAt(ts: seq<Tagged>)
    requires ts != []
    ensures FirstAt(ts, |ts| - 1) <==> SaleId(ts[|ts| - 1]) !in SaleIds(ts[..|ts| - 1])
  {
    var init := ts[..|ts| - 1];
    SaleIdsMembers(init);
    assert forall j :: 0 <= j < |init| ==> ts[j] == init[j];
  }

  /** What was kept from earlier pages stays, in place, whatever later pages bring. */
  lemma {:induction false} KeepFirstPrefix(a: seq<Tagged>, b: seq<Tagged>)
    ensures |KeepFirst(a)| <= |KeepFirst(a + b)| && KeepFirst(a + b)[..|KeepFirst(a)|] == KeepFirst(a)
    decreases |b|
  {
    if b == [] {
      assert a + b == a;
    } else {
      var ab := a + b;
      assert ab[..|ab| - 1] == a + b[..|b| - 1];
      KeepFirstPrefix(a, b[..|b| - 1]);
    }
  }

  function ConvertAll(ts: seq<Tagged>, now: Timestamp): (r: seq<LibraryItem>)
    ensures |r| == |ts|
    ensures forall i :: 0 <= i < |ts| ==> r[i] == ConvertCollectionItem(ts[i].item, ts[i].urls, now)
  {
    seq(|ts|, i requires 0 <= i < |ts| => ConvertCollectionItem(ts[i].item, ts[i].urls, now))
  }

  /** The converted list has pairwise distinct ids. */
  lemma DistinctLibraryIds(ts: seq<Tagged>, now: Timestamp)
    ensures var r := ConvertAll(KeepFirst(ts), now);
      forall i, j :: 0 <= i < j < |r| ==> r[i].id != r[j].id
  {
    KeepFirstDistinct(ts);
    var k := KeepFirst(ts);
    var r := ConvertAll(k, now);
    forall i, j | 0 <= i < j < |r| ensures r[i].id != r[j].id {
      if r[i].id == r[j].id {
        DecimalInjective(SaleId(k[i]), SaleId(k[j]));
      }
    }
  }

  // ---------------------------------------------------------------- paging

  /** The body of one `collection_items` request. */
  datatype CollectionRequest = CollectionRequest(fan_id: u64, count: nat, older_than_token: string)

  /** Entries collected so far, or the error that ended the paging, and the requests made. */
  datatype Paged = Paged(outcome: Result<seq<Tagged>, BandcampError>, requests: seq<CollectionRequest>)

  const PAGE_SIZE: nat := 100

  function CollectionParseError(e: string, text: string): BandcampError {
    ParseError("Failed to parse collection response: " + e + " - Response: " + text[..Min(|text|, 500)])
  }

  /** The first token asks for everything older than a day from now. */
  function FirstToken(now: nat): string {
    Decimal(now + 86400) + "::a::"
  }

  /** Puts earlier pages and requests in front of the rest of a paging. */
  function Prepend(ts: seq<Tagged>, reqs: seq<CollectionRequest>, run: Paged): Paged {
    Paged(if run.outcome.Ok? then Ok(ts + run.outcome.value) else run.outcome, reqs + run.requests)
  }

  /** The pages from request `k` on, asking for entries older than `token`. */
  function Paging(replies: seq<HttpReply>, decode: CollectionDecoder, fanId: u64, token: string, k: nat): (r: Paged)
    ensures |r.requests| >= 1 && r.requests[0] == CollectionRequest(fanId, PAGE_SIZE, token)
    decreases |replies| - k
  {
    var req := CollectionRequest(fanId, PAGE_SIZE, token);
    match ReplyAt(replies, k)
    case TransportError => Paged(Err(NetworkError(Transport)), [req])
    case Response(status, _, text) =>
      if status == 401 then Paged(Err(SessionExpired), [req])
      else if !IsSuccess(status) then Paged(Err(NetworkError(Status(status))), [req])
      else match decode(text)
        case Err(e) => Paged(Err(CollectionParseError(e, text)), [req])
        case Ok(page) =>
          if !page.more_available || page.last_token.None? then Paged(Ok(Tag(page)), [req])
          else Prepend(Tag(page), [req], Paging(replies, decode, fanId, page.last_token.value, k + 1))
  }

  /** The list `get_collection` returns, or its error, and the requests it made. */
  datatype Collected = Collected(result: Result<seq<LibraryItem>, BandcampError>, requests: seq<CollectionRequest>)

  const NO_FAN_ID_IN_CREDENTIALS: BandcampError := AuthError("No fan_id in credentials")

  /** `get_collection` as a value. */
  function Collection(creds: Option<Credentials>, replies: seq<HttpReply>, decode: CollectionDecoder, now: nat): Collected {
    if creds.None? then Collected(Err(NotLoggedIn), [])
    else if creds.value.fan_id.None? then Collected(Err(NO_FAN_ID_IN_CREDENTIALS), [])
    else if AuthHeaders(creds).Err? then Collected(Err(AuthHeaders(creds).error), [])
    else
      var run := Paging(replies, decode, ParseU64(creds.value.fan_id.value).GetOr(0), FirstToken(now), 0);
      Collected(if run.outcome.Ok? then Ok(ConvertAll(KeepFirst(run.outcome.value), now)) else Err(run.outcome.error),
                run.requests)
  }

  /** Without credentials nothing is asked and the answer is `NotLoggedIn`. */
  lemma CollectionNeedsLogin(replies: seq<HttpReply>, decode: CollectionDecoder, now: nat)
    ensures Collection(None, replies, decode, now) == Collected(Err(NotLoggedIn), [])
  {
  }

  /** The returned items have pairwise distinct ids. */
  lemma CollectionDistinct(creds: Option<Credentials>, replies: seq<HttpReply>, decode: CollectionDecoder, now: nat)
    ensures var r := Collection(creds, replies, decode, now).result;
      r.Ok? ==> forall i, j :: 0 <= i < j < |r.value| ==> r.value[i].id != r.value[j].id
  {
    var c := Collection(creds, replies, decode, now);
    if c.result.Ok? {
      var run := Paging(replies, decode, ParseU64(creds.value.fan_id.value).GetOr(0), FirstToken(now), 0);
      assert c.result.value == ConvertAll(KeepFirst(run.outcome.value), now);
      DistinctLibraryIds(run.outcome.value, now);
    }
  }

  /**
   * Requests go out one after another: request `i + 1` exists only when reply `k + i` was a 2xx
   * page announcing more entries, and it carries that page's `last_token`.
   */
  lemma {:induction false} PagingChainsTokens(replies: seq<HttpReply>, decode: CollectionDecoder, fanId: u64, token: string, k: nat, i: nat)
    requires i + 1 < |Paging(replies, decode, fanId, token, k).requests|
    ensures var reply := ReplyAt(replies, k + i);
      && reply.Response? && IsSuccess(reply.status) && decode(reply.body).Ok?
      && decode(reply.body).value.more_available
      && decode(reply.body).value.last_token
         == Some(Paging(replies, decode, fanId, token, k).requests[i + 1].older_than_token)
    decreases |replies| - k
  {
    var reply := ReplyAt(replies, k);
    var page := decode(reply.body).value;
    var rest := Paging(replies, decode, fanId, page.last_token.value, k + 1);
    if i > 0 {
      PagingChainsTokens(replies, decode, fanId, page.last_token.value, k + 1, i - 1);
      assert k + 1 + (i - 1) == k + i;
    }
  }

  /** A paging that succeeds ends on a page with no more entries or without a next token. */
  lemma {:induction false} PagingStopsWhenDone(replies: seq<HttpReply>, decode: CollectionDecoder, fanId: u64, token: string, k: nat)
    ensures var run := Paging(replies, decode, fanId, token, k);
      var reply := ReplyAt(replies, k + |run.requests| - 1);
      run.outcome.Ok? ==>
        && reply.Response? && IsSuccess(reply.status) && decode(reply.body).Ok?
        && (!decode(reply.body).value.more_available || decode(reply.body).value.last_token.None?)
    decreases |replies| - k
  {
    var reply := ReplyAt(replies, k);
    if reply.Response? && reply.status != 401 && IsSuccess(reply.status) && decode(reply.body).Ok? {
      var page := decode(reply.body).value;
      if page.more_available && page.last_token.Some? {
        PagingStopsWhenDone(replies, decode, fanId, page.last_token.value, k + 1);
        var rest := Paging(replies, decode, fanId, page.last_token.value, k + 1);
        assert k + 1 + |rest.requests| - 1 == k + |[CollectionRequest(fanId, PAGE_SIZE, token)] + rest.requests| - 1;
      }
    }
  }

  /**
   * The error a page reply stops `get_collection` with, if any: a failed request, 401 as an
   * expired session, another non-2xx status, or a body that does not decode.
   */
  function PageError(reply: HttpReply, decode: CollectionDecoder): Option<BandcampError> {
    match reply
    case TransportError => Some(NetworkError(Transport))
    case Response(status, _, text) =>
      if status == 401 then Some(SessionExpired)
      else if !IsSuccess(status) then Some(NetworkError(Status(status)))
      else if decode(text).Err? then Some(CollectionParseError(decode(text).error, text))
      else None
  }

  /** Where a collection page's status check leaves `get_collection`. */
  datatype StatusCheck = ReadBody | Fail(error: BandcampError) | Panic

  /**
   * The status checks of a collection page as the code writes them: 401 expires the session,
   * and any other non-2xx status goes through `error_for_status().unwrap_err()`. That is an
   * error only for 4xx and 5xx; on a 1xx status, or a 3xx that reqwest hands back unfollowed,
   * `error_for_status` succeeds and `unwrap_err` panics.
   */
  function StatusCheckAsWritten(status: nat): StatusCheck {
    if status == 401 then Fail(SessionExpired)
    else if !IsSuccess(status) then
      if 400 <= status <= 599 then Fail(NetworkError(Status(status))) else Panic
    else ReadBody
  }

  /** A `304 Not Modified` collection page panics as written, where `PageError` reports the status. */
  lemma NotModifiedPanics(decode: CollectionDecoder)
    ensures StatusCheckAsWritten(304) == Panic
    ensures PageError(Response(304, None, ""), decode) == Some(NetworkError(Status(304)))
  {
  }

  /**
   * The code panics exactly on the non-2xx statuses outside 4xx and 5xx; on every other status
   * it agrees with `PageError`.
   */
  lemma StatusCheckAgrees(status: nat, reason: Option<string>, text: string, decode: CollectionDecoder)
    ensures StatusCheckAsWritten(status) == Panic <==> !IsSuccess(status) && !(400 <= status <= 599)
    ensures StatusCheckAsWritten(status) == ReadBody <==> IsSuccess(status)
    ensures StatusCheckAsWritten(status).Fail? ==>
              PageError(Response(status, reason, text), decode) == Some(StatusCheckAsWritten(status).error)
  {
  }

  /**
   * Every non-2xx page stops the paging with an error after that one request, and never with a
   * panic: 401 as an expired session, any other status as a network error naming it.
   */
  lemma NonSuccessPageStops(replies: seq<HttpReply>, decode: CollectionDecoder, fanId: u64, token: string, k: nat)
    requires ReplyAt(replies, k).Response? && !IsSuccess(ReplyAt(replies, k).status)
    ensures var run := Paging(replies, decode, fanId, token, k);
      var status := ReplyAt(replies, k).status;
      && |run.requests| == 1
      && run.outcome == Err(if status == 401 then SessionExpired else NetworkError(Status(status)))
  {
  }

  /**
   * A paging fails exactly when the reply to its last request is an error, and fails with
   * that reply's error and no partial list; every earlier reply was a page that decoded.
   */
  lemma {:induction false} PagingErrorIsLastReply(replies: seq<HttpReply>, decode: CollectionDecoder, fanId: u64,
                                                  token: string, k: nat)
    ensures var run := Paging(replies, decode, fanId, token, k);
      var last := PageError(ReplyAt(replies, k + |run.requests| - 1), decode);
      && (run.outcome.Err? <==> last.Some?)
      && (run.outcome.Err? ==> run.outcome.error == last.value)
      && (forall j :: k <= j < k + |run.requests| - 1 ==> PageError(ReplyAt(replies, j), decode).None?)
    decreases |replies| - k
  {
    var reply := ReplyAt(replies, k);
    if reply.Response? && reply.status != 401 && IsSuccess(reply.status) && decode(reply.body).Ok? {
      var page := decode(reply.body).value;
      if page.more_available && page.last_token.Some? {
        var rest := Paging(replies, decode, fanId, page.last_token.value, k + 1);
        PagingErrorIsLastReply(replies, decode, fanId, page.last_token.value, k + 1);
        var run := Paging(replies, decode, fanId, token, k);
        assert run == Prepend(Tag(page), [CollectionRequest(fanId, PAGE_SIZE, token)], rest);
        assert k + |run.requests| - 1 == k + 1 + |rest.requests| - 1;
        assert PageError(reply, decode).None?;
      }
    }
  }

  /** With usable credentials, `get_collection` fails exactly when its last page reply is an error, with that error. */
  lemma CollectionErrorIsLastReply(creds: Option<Credentials>, replies: seq<HttpReply>, decode: CollectionDecoder, now: nat)
    requires creds.Some? && creds.value.fan_id.Some? && AuthHeaders(creds).Ok?
    ensures var c := Collection(creds, replies, decode, now);
      var last := PageError(ReplyAt(replies, |c.requests| - 1), decode);
      && (c.result.Err? <==> last.Some?)
      && (c.result.Err? ==> c.result.error == last.value)
  {
    PagingErrorIsLastReply(replies, decode, ParseU64(creds.value.fan_id.value).GetOr(0), FirstToken(now), 0);
  }

  /** A 401 on the first page is `SessionExpired` after exactly that request. */
  lemma SessionExpiresOn401(replies: seq<HttpReply>, decode: CollectionDecoder, fanId: u64, token: string)
    requires |replies| > 0 && replies[0].Response? && replies[0].status == 401
    ensures Paging(replies, decode, fanId, token, 0) == Paged(Err(SessionExpired), [CollectionRequest(fanId, PAGE_SIZE, token)])
  {
  }

  // ---------------------------------------------------------------- download URL resolution

  /** A GET the resolution sends: the download page, the encoding trigger, or a status poll. */
  datatype Request = PageGet(url: string) | TriggerGet(url: string) | StatGet(url: string)

  /** The URL, or the error, and the requests that were sent, in order. */
  datatype Retrieval = Retrieval(result: Result<string, BandcampError>, requests: seq<Request>)

  /** What the resolution reads out of a download page: a URL, or why there is none. */
  type PageExtractor = string -> Result<string, BandcampError>

  /** `extract_download_url` for one format, the extractor the client uses. */
  function UrlExtractor(format: AudioFormat, parse: Parser): PageExtractor {
    html => Scrape.ExtractDownloadUrl(html, format, parse)
  }

  predicate IsReady(html: string) {
    Contains(html, "\"ready\":true") || Contains(html, "\"ready\": true")
  }

  predicate StatOk(text: string) {
    Contains(text, "\"result\":\"ok\"") || Contains(text, "\"result\": \"ok\"")
  }

  predicate Expired(text: string) {
    Contains(text, "\"errortype\":\"ExpirationError\"")
  }

  const DOWNLOAD_URL_KEY: string := "\"download_url\":\""

  /** The quoted value after `"download_url":"` in a status reply, with `\/` turned into `/`. */
  function StatDownloadUrl(text: string): Option<string> {
    match Find(text, DOWNLOAD_URL_KEY)
    case None => None
    case Some(pos) =>
      var start := pos + 16;
      match Find(text[start..], "\"")
      case None => None
      case Some(e) => Some(ReplaceAll(text[start..start + e], "\\/", "/"))
  }

  /** What a status reply says: the file is ready at a URL, the signature expired, or not yet. */
  datatype PollVerdict = Delivered(url: string) | SignatureExpired | Pending

  function StatVerdict(text: string): PollVerdict {
    if StatOk(text) && StatDownloadUrl(text).Some? then Delivered(StatDownloadUrl(text).value)
    else if Expired(text) then SignatureExpired
    else Pending
  }

  /** The text tests the resolution applies: to a download page, to a status reply, and for readiness. */
  datatype Scrapers = Scrapers(extract: PageExtractor, verdict: string -> PollVerdict, ready: string -> bool)

  /** The tests `get_download_url_with_retry` uses, around a page extractor. */
  function PageScrapers(extract: PageExtractor): Scrapers {
    Scrapers(extract, text => StatVerdict(text), html => IsReady(html))
  }

  /** The status endpoint that belongs to a download URL. */
  function StatBase(url: string): string {
    ReplaceAll(url, "/download/", "/statdownload/")
  }

  /** A poll URL: the status endpoint with a cache-busting clock reading. */
  function StatUrl(base: string, millis: nat): string {
    base + "&.rand=" + Decimal(millis) + "&.vrs=1"
  }

  function PageFailure(status: nat, reason: Option<string>): BandcampError {
    DownloadError("Failed to fetch download page: HTTP " + StatusDisplay(status, reason))
  }

  function NotReadyMessage(item: LibraryItem, maxAttempts: nat): string {
    "Download for " + item.artist + " - " + item.title + " not ready after " + Decimal(maxAttempts)
      + " attempts. The encoding may take longer - try again in a few minutes."
  }

  function After(reqs: seq<Request>, run: Retrieval): Retrieval {
    Retrieval(run.result, reqs + run.requests)
  }

  /** What one poll leads to: the end of the resolution, or more polls after the requests it sent. */
  datatype PollOutcome = Finished(run: Retrieval) | Continued(sent: seq<Request>, next: nat)

  /**
   * One poll at `attempt`, the next reply being `replies[k]`. A poll's reply body counts
   * whatever its status; an expired signature costs one more page fetch, which ends the
   * resolution only when the page is now ready.
   */
  function PollOnce(item: LibraryItem, sc: Scrapers, base: string, millis: nat -> nat,
                    replies: seq<HttpReply>, attempt: nat, k: nat): (o: PollOutcome)
    ensures var poll := StatGet(StatUrl(base, millis(attempt)));
      var refetch := PageGet(item.download_url);
      && (o.Finished? ==> EndsWithPoll(o.run, poll, refetch, sc.extract(BodyAt(replies, k + 1))))
      && (o.Continued? ==> (o.sent == [poll] && o.next == k + 1) || (o.sent == [poll, refetch] && o.next == k + 2))
  {
    var poll := StatGet(StatUrl(base, millis(attempt)));
    match ReplyAt(replies, k)
    case TransportError => Finished(Retrieval(Err(NetworkError(Transport)), [poll]))
    case Response(_, _, text) =>
      match sc.verdict(text)
      case Delivered(url) => Finished(Retrieval(Ok(url), [poll]))
      case SignatureExpired =>
        var refetch := PageGet(item.download_url);
        (match ReplyAt(replies, k + 1)
         case TransportError => Finished(Retrieval(Err(NetworkError(Transport)), [poll, refetch]))
         case Response(status, _, html) =>
           if IsSuccess(status) && sc.ready(html) then Finished(Retrieval(sc.extract(html), [poll, refetch]))
           else Continued([poll, refetch], k + 2))
      case Pending => Continued([poll], k + 1)
  }

  /** A poll step: what the poll at attempt `a` leads to, the next reply being at position `j`. */
  type Poller = (nat, nat) -> PollOutcome

  /** The requests a poll step sent, whether or not it ended the resolution. */
  function Sent(o: PollOutcome): seq<Request> {
    match o
    case Finished(run) => run.requests
    case Continued(sent, _) => sent
  }

  /**
   * The attempt loop around any poll step, from `attempt` on with the next reply at `k`;
   * `notReady` is the error once the attempts run out.
   */
  function PollLoop(poll: Poller, notReady: BandcampError, attempt: nat, maxAttempts: nat, k: nat): Retrieval
    decreases maxAttempts + 1 - attempt
  {
    if attempt == 0 || attempt > maxAttempts then Retrieval(Err(notReady), [])
    else
      match poll(attempt, k)
      case Finished(run) => run
      case Continued(sent, next) => After(sent, PollLoop(poll, notReady, attempt + 1, maxAttempts, next))
  }

  /** `PollOnce` over fixed replies, as a poll step. */
  function PollStep(item: LibraryItem, sc: Scrapers, base: string, millis: nat -> nat, replies: seq<HttpReply>): Poller {
    (a: nat, j: nat) => PollOnce(item, sc, base, millis, replies, a, j)
  }

  /** The polls from `attempt` on, the next reply being `replies[k]`. */
  function Polls(item: LibraryItem, sc: Scrapers, base: string, millis: nat -> nat,
                 replies: seq<HttpReply>, attempt: nat, maxAttempts: nat, k: nat): Retrieval
  {
    PollLoop(PollStep(item, sc, base, millis, replies), DownloadError(NotReadyMessage(item, maxAttempts)),
             attempt, maxAttempts, k)
  }

  /**
   * `get_download_url_with_retry` as a value: the download page (`replies[0]`), then, unless it
   * is ready, one trigger request whose reply (`replies[1]`) is ignored, then the polls.
   * `millis(a)` is the clock reading taken for attempt `a`.
   */
  function Retry(creds: Option<Credentials>, item: LibraryItem, sc: Scrapers, maxAttempts: nat,
                 replies: seq<HttpReply>, millis: nat -> nat): Retrieval
  {
    if AuthHeaders(creds).Err? then Retrieval(Err(AuthHeaders(creds).error), [])
    else
      var page := PageGet(item.download_url);
      match ReplyAt(replies, 0)
      case TransportError => Retrieval(Err(NetworkError(Transport)), [page])
      case Response(status, reason, html) =>
        if status == 401 then Retrieval(Err(SessionExpired), [page])
        else if !IsSuccess(status) then Retrieval(Err(PageFailure(status, reason)), [page])
        else if sc.ready(html) then Retrieval(sc.extract(html), [page])
        else match sc.extract(html)
          case Err(e) => Retrieval(Err(e), [page])
          case Ok(url) =>
            After([page, TriggerGet(url)], Polls(item, sc, StatBase(url), millis, replies, 1, maxAttempts, 2))
  }

  /** A resolved URL means the cookie header was built; `download` builds the same one again. */
  lemma ResolvedHasCookie(creds: Option<Credentials>, item: LibraryItem, sc: Scrapers, maxAttempts: nat,
                          replies: seq<HttpReply>, millis: nat -> nat)
    ensures Retry(creds, item, sc, maxAttempts, replies, millis).result.Ok? ==> AuthHeaders(creds).Ok?
  {
  }

  function CountPolls(reqs: seq<Request>): nat
    decreases |reqs|
  {
    if reqs == [] then 0 else (if reqs[0].StatGet? then 1 else 0) + CountPolls(reqs[1..])
  }

  function CountTriggers(reqs: seq<Request>): nat
    decreases |reqs|
  {
    if reqs == [] then 0 else (if reqs[0].TriggerGet? then 1 else 0) + CountTriggers(reqs[1..])
  }

  lemma {:induction false} CountsAdd(a: seq<Request>, b: seq<Request>)
    ensures CountPolls(a + b) == CountPolls(a) + CountPolls(b)
    ensures CountTriggers(a + b) == CountTriggers(a) + CountTriggers(b)
    decreases |a|
  {
    if a == [] {
      assert a + b == b;
    } else {
      assert (a + b)[1..] == a[1..] + b;
      CountsAdd(a[1..], b);
    }
  }

  /** The extractor fails only with parse errors, as `extract_download_url` does. */
  ghost predicate FailsByParsing(extract: PageExtractor) {
    forall html :: extract(html).Err? ==> extract(html).error.ParseError?
  }

  lemma UrlExtractorFailsByParsing(format: AudioFormat, parse: Parser)
    ensures FailsByParsing(UrlExtractor(format, parse))
  {
  }

  /** The resolution ended at a poll: with the poll's URL, a network error, or a refetched page's URL. */
  predicate EndsWithPoll(run: Retrieval, poll: Request, refetch: Request, refetched: Result<string, BandcampError>) {
    || (run.requests == [poll] && (run.result.Ok? || run.result == Err(NetworkError(Transport))))
    || (run.requests == [poll, refetch] && (run.result == Err(NetworkError(Transport)) || run.result == refetched))
  }

  /** The body of the reply at position `k`, empty for a transport error. */
  function BodyAt(replies: seq<HttpReply>, k: nat): string {
    if ReplyAt(replies, k).Response? then ReplyAt(replies, k).body else ""
  }


  /** The download page came back fine but not ready, naming a URL: the trigger is sent and polling starts. */
  ghost predicate Triggered(creds: Option<Credentials>, sc: Scrapers, replies: seq<HttpReply>) {
    && AuthHeaders(creds).Ok? && |replies| > 0 && replies[0].Response?
    && IsSuccess(replies[0].status) && !sc.ready(replies[0].body) && sc.extract(replies[0].body).Ok?
  }

  /** The `m` replies from position `k` on are status replies saying the encoding is pending. */
  ghost predicate PendingReplies(sc: Scrapers, replies: seq<HttpReply>, k: nat, m: nat) {
    && k + m <= |replies|
    && forall j :: k <= j < k + m ==> replies[j].Response? && sc.verdict(replies[j].body) == Pending
  }

  /** The reply at `k` says the signature expired, and the page fetched after it is ready. */
  ghost predicate ExpiredThenReadyAt(sc: Scrapers, replies: seq<HttpReply>, k: nat) {
    && k + 1 < |replies|
    && replies[k].Response? && sc.verdict(replies[k].body) == SignatureExpired
    && replies[k + 1].Response? && IsSuccess(replies[k + 1].status) && sc.ready(replies[k + 1].body)
  }

  // ---- the attempt loop, over any poll step

  /** Every step sends exactly one poll and no trigger. */
  ghost predicate OnePollEach(poll: Poller) {
    forall a: nat, j: nat :: CountPolls(Sent(poll(a, j))) == 1 && CountTriggers(Sent(poll(a, j))) == 0
  }

  /** From `attempt` on, a loop of one-poll steps makes at most one poll per attempt left, and no trigger. */
  lemma {:induction false} LoopBounded(poll: Poller, notReady: BandcampError, attempt: nat, maxAttempts: nat, k: nat)
    requires 1 <= attempt <= maxAttempts + 1 && OnePollEach(poll)
    ensures var run := PollLoop(poll, notReady, attempt, maxAttempts, k);
      CountPolls(run.requests) <= maxAttempts + 1 - attempt && CountTriggers(run.requests) == 0
    decreases maxAttempts + 1 - attempt
  {
    if attempt <= maxAttempts {
      var o := poll(attempt, k);
      assert CountPolls(Sent(o)) == 1 && CountTriggers(Sent(o)) == 0;
      if o.Continued? {
        var rest := PollLoop(poll, notReady, attempt + 1, maxAttempts, o.next);
        LoopBounded(poll, notReady, attempt + 1, maxAttempts, o.next);
        CountsAdd(o.sent, rest.requests);
      }
    }
  }

  /** A loop whose steps never end with `notReady` gives `notReady` only after a poll at every attempt left. */
  lemma {:induction false} LoopExhausted(poll: Poller, notReady: BandcampError, attempt: nat, maxAttempts: nat, k: nat)
    requires 1 <= attempt <= maxAttempts + 1 && OnePollEach(poll)
    requires forall a: nat, j: nat :: poll(a, j).Finished? ==> poll(a, j).run.result != Err(notReady)
    ensures var run := PollLoop(poll, notReady, attempt, maxAttempts, k);
      run.result == Err(notReady) ==> CountPolls(run.requests) == maxAttempts + 1 - attempt
    decreases maxAttempts + 1 - attempt
  {
    if attempt <= maxAttempts {
      var o := poll(attempt, k);
      assert CountPolls(Sent(o)) == 1;
      if o.Continued? {
        var rest := PollLoop(poll, notReady, attempt + 1, maxAttempts, o.next);
        LoopExhausted(poll, notReady, attempt + 1, maxAttempts, o.next);
        CountsAdd(o.sent, rest.requests);
      }
    }
  }

  /** A loop whose steps poll only the endpoint `base` polls only `base`. */
  lemma {:induction false} LoopGoesTo(poll: Poller, notReady: BandcampError, attempt: nat, maxAttempts: nat, k: nat,
                                      base: string)
    requires forall a: nat, j: nat :: PollsGoTo(Sent(poll(a, j)), base)
    ensures PollsGoTo(PollLoop(poll, notReady, attempt, maxAttempts, k).requests, base)
    decreases maxAttempts + 1 - attempt
  {
    if 1 <= attempt <= maxAttempts {
      var o := poll(attempt, k);
      assert PollsGoTo(Sent(o), base);
      if o.Continued? {
        var rest := PollLoop(poll, notReady, attempt + 1, maxAttempts, o.next);
        LoopGoesTo(poll, notReady, attempt + 1, maxAttempts, o.next, base);
        StatPrefixAppend(o.sent, rest.requests, base);
      }
    }
  }

  /** Steps that go on by one reply at every position of the window use up the attempts. */
  lemma {:induction false} LoopAllContinue(poll: Poller, notReady: BandcampError, attempt: nat, maxAttempts: nat, k: nat)
    requires 1 <= attempt <= maxAttempts + 1 && OnePollEach(poll)
    requires forall a: nat, j: nat :: k <= j < k + (maxAttempts + 1 - attempt) ==>
      poll(a, j).Continued? && poll(a, j).next == j + 1
    ensures var run := PollLoop(poll, notReady, attempt, maxAttempts, k);
      && run.result == Err(notReady)
      && CountPolls(run.requests) == maxAttempts + 1 - attempt && CountTriggers(run.requests) == 0
    decreases maxAttempts + 1 - attempt
  {
    if attempt <= maxAttempts {
      var o := poll(attempt, k);
      assert o.Continued? && o.next == k + 1 && CountPolls(Sent(o)) == 1 && CountTriggers(Sent(o)) == 0;
      var rest := PollLoop(poll, notReady, attempt + 1, maxAttempts, k + 1);
      LoopAllContinue(poll, notReady, attempt + 1, maxAttempts, k + 1);
      CountsAdd(o.sent, rest.requests);
    }
  }

  /** Steps that go on by one reply `n` times and then finish: the loop ends with that finish. */
  lemma {:induction false} LoopContinueThenFinish(poll: Poller, notReady: BandcampError, attempt: nat, maxAttempts: nat,
                                                  k: nat, n: nat)
    requires 1 <= attempt && attempt + n <= maxAttempts && OnePollEach(poll)
    requires forall a: nat, j: nat :: k <= j < k + n ==> poll(a, j).Continued? && poll(a, j).next == j + 1
    requires poll(attempt + n, k + n).Finished?
    ensures var run := PollLoop(poll, notReady, attempt, maxAttempts, k);
      && run.result == poll(attempt + n, k + n).run.result
      && CountPolls(run.requests) == n + 1 && CountTriggers(run.requests) == 0
    decreases n
  {
    var o := poll(attempt, k);
    assert CountPolls(Sent(o)) == 1 && CountTriggers(Sent(o)) == 0;
    if n > 0 {
      assert o.Continued? && o.next == k + 1;
      var rest := PollLoop(poll, notReady, attempt + 1, maxAttempts, k + 1);
      LoopContinueThenFinish(poll, notReady, attempt + 1, maxAttempts, k + 1, n - 1);
      assert attempt + 1 + (n - 1) == attempt + n && k + 1 + (n - 1) == k + n;
      CountsAdd(o.sent, rest.requests);
    }
  }

  // ---- what `PollOnce` guarantees as a step

  /** A poll URL lies on its status endpoint. */
  lemma StatUrlOnBase(base: string, m: nat)
    ensures StartsWith(StatUrl(base, m), base)
  {
    assert StatUrl(base, m)[..|base|] == base;
  }

  /** Each poll step sends one poll, on the status endpoint, and no trigger. */
  lemma PollStepShape(item: LibraryItem, sc: Scrapers, base: string, millis: nat -> nat, replies: seq<HttpReply>)
    ensures OnePollEach(PollStep(item, sc, base, millis, replies))
    ensures forall a: nat, j: nat :: PollsGoTo(Sent(PollStep(item, sc, base, millis, replies)(a, j)), base)
  {
    var step := PollStep(item, sc, base, millis, replies);
    forall a: nat, j: nat
      ensures CountPolls(Sent(step(a, j))) == 1 && CountTriggers(Sent(step(a, j))) == 0
      ensures PollsGoTo(Sent(step(a, j)), base)
    {
      var poll := StatGet(StatUrl(base, millis(a)));
      var refetch := PageGet(item.download_url);
      HeadCounts(poll, refetch);
      StatUrlOnBase(base, millis(a));
      assert PollsGoTo([poll], base) && PollsGoTo([poll, refetch], base);
      var o := PollOnce(item, sc, base, millis, replies, a, j);
      assert Sent(o) == [poll] || Sent(o) == [poll, refetch];
    }
  }

  /** With an extractor that fails only by parsing, no poll step ends with the not-ready error. */
  lemma PollStepNeverExhausts(item: LibraryItem, sc: Scrapers, base: string, millis: nat -> nat,
                              replies: seq<HttpReply>, msg: string)
    requires FailsByParsing(sc.extract)
    ensures var step := PollStep(item, sc, base, millis, replies);
      forall a: nat, j: nat :: step(a, j).Finished? ==> step(a, j).run.result != Err(DownloadError(msg))
  {
    forall a: nat, j: nat | PollOnce(item, sc, base, millis, replies, a, j).Finished?
      ensures PollOnce(item, sc, base, millis, replies, a, j).run.result != Err(DownloadError(msg))
    {
      var refetched := sc.extract(BodyAt(replies, j + 1));
      assert refetched.Err? ==> refetched.error.ParseError?;
      EndingIsNotExhaustion(PollOnce(item, sc, base, millis, replies, a, j).run,
                            StatGet(StatUrl(base, millis(a))), PageGet(item.download_url), refetched, msg);
    }
  }

  /** A pending status reply at `j` makes the poll step go on to `j + 1` after its one poll. */
  lemma PendingStep(item: LibraryItem, sc: Scrapers, base: string, millis: nat -> nat, replies: seq<HttpReply>,
                    k: nat, m: nat)
    requires PendingReplies(sc, replies, k, m)
    ensures var step := PollStep(item, sc, base, millis, replies);
      forall a: nat, j: nat :: k <= j < k + m ==> step(a, j).Continued? && step(a, j).next == j + 1
  {
    forall a: nat, j: nat | k <= j < k + m
      ensures PollOnce(item, sc, base, millis, replies, a, j).Continued?
      ensures PollOnce(item, sc, base, millis, replies, a, j).next == j + 1
    {
      assert ReplyAt(replies, j) == replies[j];
    }
  }

  // ---- the polls of `get_download_url_with_retry`

  /** From `attempt` on there are at most `maxAttempts + 1 - attempt` polls and no trigger. */
  lemma PollsBounded(item: LibraryItem, sc: Scrapers, base: string, millis: nat -> nat,
                     replies: seq<HttpReply>, attempt: nat, maxAttempts: nat, k: nat)
    requires 1 <= attempt <= maxAttempts + 1
    ensures var run := Polls(item, sc, base, millis, replies, attempt, maxAttempts, k);
      CountPolls(run.requests) <= maxAttempts + 1 - attempt && CountTriggers(run.requests) == 0
  {
    PollStepShape(item, sc, base, millis, replies);
    LoopBounded(PollStep(item, sc, base, millis, replies), DownloadError(NotReadyMessage(item, maxAttempts)),
                attempt, maxAttempts, k);
  }

  /** Running out of attempts means every one of them was polled. */
  lemma PollsExhausted(item: LibraryItem, sc: Scrapers, base: string, millis: nat -> nat,
                       replies: seq<HttpReply>, attempt: nat, maxAttempts: nat, k: nat)
    requires 1 <= attempt <= maxAttempts + 1 && FailsByParsing(sc.extract)
    ensures var run := Polls(item, sc, base, millis, replies, attempt, maxAttempts, k);
      run.result == Err(DownloadError(NotReadyMessage(item, maxAttempts))) ==>
        CountPolls(run.requests) == maxAttempts + 1 - attempt
  {
    var msg := NotReadyMessage(item, maxAttempts);
    PollStepShape(item, sc, base, millis, replies);
    PollStepNeverExhausts(item, sc, base, millis, replies, msg);
    LoopExhausted(PollStep(item, sc, base, millis, replies), DownloadError(msg), attempt, maxAttempts, k);
  }

  /** A resolution that ends at a poll never ends with the not-ready error. */
  lemma EndingIsNotExhaustion(run: Retrieval, poll: Request, refetch: Request, refetched: Result<string, BandcampError>,
                               msg: string)
    requires EndsWithPoll(run, poll, refetch, refetched) && (refetched.Err? ==> refetched.error.ParseError?)
    ensures run.result != Err(DownloadError(msg))
  {
  }

  lemma HeadCounts(poll: Request, refetch: Request)
    requires poll.StatGet? && refetch.PageGet?
    ensures CountPolls([poll]) == 1 && CountTriggers([poll]) == 0
    ensures CountPolls([poll, refetch]) == 1 && CountTriggers([poll, refetch]) == 0
  {
    assert [poll, refetch][1..] == [refetch] && [refetch][1..] == [] && [poll][1..] == [];
  }

  /** Every poll goes to the status endpoint. */
  lemma PollsOnStatEndpoint(item: LibraryItem, sc: Scrapers, base: string, millis: nat -> nat,
                            replies: seq<HttpReply>, attempt: nat, maxAttempts: nat, k: nat)
    ensures var run := Polls(item, sc, base, millis, replies, attempt, maxAttempts, k);
      PollsGoTo(run.requests, base)
  {
    PollStepShape(item, sc, base, millis, replies);
    LoopGoesTo(PollStep(item, sc, base, millis, replies), DownloadError(NotReadyMessage(item, maxAttempts)),
               attempt, maxAttempts, k, base);
  }

  /** Whether every poll in a list of requests goes to the endpoint `base`. */
  ghost predicate PollsGoTo(reqs: seq<Request>, base: string) {
    forall i :: 0 <= i < |reqs| && reqs[i].StatGet? ==> StartsWith(reqs[i].url, base)
  }

  lemma StatPrefixAppend(a: seq<Request>, b: seq<Request>, base: string)
    requires PollsGoTo(a, base) && PollsGoTo(b, base)
    ensures PollsGoTo(a + b, base)
  {
    forall i | 0 <= i < |a + b| && (a + b)[i].StatGet? ensures StartsWith((a + b)[i].url, base) {
      if i >= |a| { assert (a + b)[i] == b[i - |a|]; }
    }
  }

  /** A page that is already ready is answered at once: no trigger and no poll. */
  lemma ReadyPageAnswersAtOnce(creds: Option<Credentials>, item: LibraryItem, sc: Scrapers, maxAttempts: nat,
                               replies: seq<HttpReply>, millis: nat -> nat)
    requires AuthHeaders(creds).Ok? && |replies| > 0 && replies[0].Response?
    requires IsSuccess(replies[0].status) && sc.ready(replies[0].body)
    ensures Retry(creds, item, sc, maxAttempts, replies, millis)
      == Retrieval(sc.extract(replies[0].body), [PageGet(item.download_url)])
  {
  }

  /**
   * A page that is not ready but names a URL gets exactly one trigger, sent second, then at
   * most `maxAttempts` polls, all on the status endpoint of that URL; giving up means all
   * `maxAttempts` polls were made.
   */
  lemma TriggerThenBoundedPolls(creds: Option<Credentials>, item: LibraryItem, sc: Scrapers, maxAttempts: nat,
                                replies: seq<HttpReply>, millis: nat -> nat)
    requires Triggered(creds, sc, replies) && FailsByParsing(sc.extract)
    ensures var url := sc.extract(replies[0].body).value;
      var run := Retry(creds, item, sc, maxAttempts, replies, millis);
      && |run.requests| >= 2 && run.requests[..2] == [PageGet(item.download_url), TriggerGet(url)]
      && CountTriggers(run.requests) == 1
      && CountPolls(run.requests) <= maxAttempts
      && (run.result == Err(DownloadError(NotReadyMessage(item, maxAttempts))) ==> CountPolls(run.requests) == maxAttempts)
      && (forall i :: 2 <= i < |run.requests| ==> run.requests[i].StatGet? ==> StartsWith(run.requests[i].url, StatBase(url)))
  {
    var url := sc.extract(replies[0].body).value;
    var polls := Polls(item, sc, StatBase(url), millis, replies, 1, maxAttempts, 2);
    RetryAfterTrigger(creds, item, sc, maxAttempts, replies, millis);
    PollsBounded(item, sc, StatBase(url), millis, replies, 1, maxAttempts, 2);
    PollsOnStatEndpoint(item, sc, StatBase(url), millis, replies, 1, maxAttempts, 2);
    PollsExhausted(item, sc, StatBase(url), millis, replies, 1, maxAttempts, 2);
    TriggerHead(PageGet(item.download_url), TriggerGet(url), polls.requests);
  }

  /** A page that is not ready but names a URL is followed by the trigger and then the polls. */
  lemma RetryAfterTrigger(creds: Option<Credentials>, item: LibraryItem, sc: Scrapers, maxAttempts: nat,
                          replies: seq<HttpReply>, millis: nat -> nat)
    requires Triggered(creds, sc, replies)
    ensures var url := sc.extract(replies[0].body).value;
      Retry(creds, item, sc, maxAttempts, replies, millis)
        == After([PageGet(item.download_url), TriggerGet(url)],
                 Polls(item, sc, StatBase(url), millis, replies, 1, maxAttempts, 2))
  {
    assert replies[0].status != 401;
  }

  /** After the trigger, the resolution's result and counts are those of the polls. */
  lemma RetryCountsPolls(creds: Option<Credentials>, item: LibraryItem, sc: Scrapers, maxAttempts: nat,
                         replies: seq<HttpReply>, millis: nat -> nat)
    requires Triggered(creds, sc, replies)
    ensures var url := sc.extract(replies[0].body).value;
      var polls := Polls(item, sc, StatBase(url), millis, replies, 1, maxAttempts, 2);
      var run := Retry(creds, item, sc, maxAttempts, replies, millis);
      && run.result == polls.result
      && CountTriggers(run.requests) == 1 + CountTriggers(polls.requests)
      && CountPolls(run.requests) == CountPolls(polls.requests)
  {
    var url := sc.extract(replies[0].body).value;
    var polls := Polls(item, sc, StatBase(url), millis, replies, 1, maxAttempts, 2);
    RetryAfterTrigger(creds, item, sc, maxAttempts, replies, millis);
    TriggerHead(PageGet(item.download_url), TriggerGet(url), polls.requests);
  }

  /** Counting over a page fetch and a trigger put in front of the polls. */
  lemma TriggerHead(page: Request, trigger: Request, rest: seq<Request>)
    requires page.PageGet? && trigger.TriggerGet?
    ensures var reqs := [page, trigger] + rest;
      && |reqs| >= 2 && reqs[..2] == [page, trigger]
      && CountTriggers(reqs) == 1 + CountTriggers(rest)
      && CountPolls(reqs) == CountPolls(rest)
      && forall i :: 2 <= i < |reqs| ==> reqs[i] == rest[i - 2]
  {
    var head := [page, trigger];
    CountsAdd(head, rest);
    assert head[1..] == [trigger] && head[1..][1..] == [];
  }

  /** With no attempts allowed, a page that is not ready ends right after the trigger. */
  lemma NoAttemptsNoPolls(creds: Option<Credentials>, item: LibraryItem, sc: Scrapers,
                          replies: seq<HttpReply>, millis: nat -> nat)
    requires Triggered(creds, sc, replies)
    ensures var url := sc.extract(replies[0].body).value;
      Retry(creds, item, sc, 0, replies, millis)
        == Retrieval(Err(DownloadError(NotReadyMessage(item, 0))), [PageGet(item.download_url), TriggerGet(url)])
  {
    var url := sc.extract(replies[0].body).value;
    assert [PageGet(item.download_url), TriggerGet(url)] + [] == [PageGet(item.download_url), TriggerGet(url)];
  }

  /**
   * A poll that reports an expired signature while a refetched page is still not ready
   * leaves the resolution polling the same status endpoint.
   */
  lemma ExpiredKeepsPolling(item: LibraryItem, sc: Scrapers, base: string, millis: nat -> nat,
                            replies: seq<HttpReply>, attempt: nat, maxAttempts: nat, k: nat)
    requires 1 <= attempt <= maxAttempts && k + 1 < |replies|
    requires replies[k].Response? && sc.verdict(replies[k].body) == SignatureExpired
    requires replies[k + 1].Response? && !(IsSuccess(replies[k + 1].status) && sc.ready(replies[k + 1].body))
    ensures Polls(item, sc, base, millis, replies, attempt, maxAttempts, k)
      == After([StatGet(StatUrl(base, millis(attempt))), PageGet(item.download_url)],
               Polls(item, sc, base, millis, replies, attempt + 1, maxAttempts, k + 2))
  {
  }

  /**
   * An expired signature whose refetched page is now ready ends the resolution at once, with
   * the URL read from that page and no further poll.
   */
  lemma ExpiredThenReady(item: LibraryItem, sc: Scrapers, base: string, millis: nat -> nat,
                         replies: seq<HttpReply>, attempt: nat, maxAttempts: nat, k: nat)
    requires 1 <= attempt <= maxAttempts && ExpiredThenReadyAt(sc, replies, k)
    ensures Polls(item, sc, base, millis, replies, attempt, maxAttempts, k)
      == Retrieval(sc.extract(replies[k + 1].body), [StatGet(StatUrl(base, millis(attempt))), PageGet(item.download_url)])
  {
  }

  /**
   * `n` polls that find the encoding pending, then an expired signature whose refetched page is
   * ready: the page's URL is returned after `n + 1` polls, before the attempts run out.
   */
  lemma PendingThenExpiredReady(item: LibraryItem, sc: Scrapers, base: string, millis: nat -> nat,
                                replies: seq<HttpReply>, attempt: nat, maxAttempts: nat, k: nat, n: nat)
    requires 1 <= attempt && attempt + n <= maxAttempts
    requires PendingReplies(sc, replies, k, n) && ExpiredThenReadyAt(sc, replies, k + n)
    ensures var run := Polls(item, sc, base, millis, replies, attempt, maxAttempts, k);
      && run.result == sc.extract(replies[k + n + 1].body)
      && CountPolls(run.requests) == n + 1 && CountTriggers(run.requests) == 0
  {
    var step := PollStep(item, sc, base, millis, replies);
    PollStepShape(item, sc, base, millis, replies);
    PendingStep(item, sc, base, millis, replies, k, n);
    assert ReplyAt(replies, k + n) == replies[k + n] && ReplyAt(replies, k + n + 1) == replies[k + n + 1];
    assert step(attempt + n, k + n).run.result == sc.extract(replies[k + n + 1].body);
    LoopContinueThenFinish(step, DownloadError(NotReadyMessage(item, maxAttempts)), attempt, maxAttempts, k, n);
  }

  /** Polls that all find the encoding pending end in the not-ready error, after every attempt was polled. */
  lemma AllPendingExhausts(item: LibraryItem, sc: Scrapers, base: string, millis: nat -> nat,
                           replies: seq<HttpReply>, attempt: nat, maxAttempts: nat, k: nat)
    requires 1 <= attempt <= maxAttempts + 1 && PendingReplies(sc, replies, k, maxAttempts + 1 - attempt)
    ensures var run := Polls(item, sc, base, millis, replies, attempt, maxAttempts, k);
      && run.result == Err(DownloadError(NotReadyMessage(item, maxAttempts)))
      && CountPolls(run.requests) == maxAttempts + 1 - attempt && CountTriggers(run.requests) == 0
  {
    PollStepShape(item, sc, base, millis, replies);
    PendingStep(item, sc, base, millis, replies, k, maxAttempts + 1 - attempt);
    LoopAllContinue(PollStep(item, sc, base, millis, replies), DownloadError(NotReadyMessage(item, maxAttempts)),
                    attempt, maxAttempts, k);
  }

  /**
   * A page that is not ready, followed by `max_attempts` pending status replies, ends in the
   * not-ready error after one trigger and exactly `max_attempts` polls.
   */
  lemma RetryAllPendingExhausts(creds: Option<Credentials>, item: LibraryItem, sc: Scrapers, maxAttempts: nat,
                                replies: seq<HttpReply>, millis: nat -> nat)
    requires Triggered(creds, sc, replies)
    requires PendingReplies(sc, replies, 2, maxAttempts)
    ensures var run := Retry(creds, item, sc, maxAttempts, replies, millis);
      && run.result == Err(DownloadError(NotReadyMessage(item, maxAttempts)))
      && CountTriggers(run.requests) == 1 && CountPolls(run.requests) == maxAttempts
  {
    var url := sc.extract(replies[0].body).value;
    RetryCountsPolls(creds, item, sc, maxAttempts, replies, millis);
    AllPendingExhausts(item, sc, StatBase(url), millis, replies, 1, maxAttempts, 2);
  }

  /**
   * A page that is not ready, `n` pending polls, then an expired signature whose refetched page
   * is ready: the refreshed URL is returned after one trigger and `n + 1` polls, with attempts to spare.
   */
  lemma RetryRecoversFromExpiry(creds: Option<Credentials>, item: LibraryItem, sc: Scrapers, maxAttempts: nat,
                                replies: seq<HttpReply>, millis: nat -> nat, n: nat)
    requires Triggered(creds, sc, replies)
    requires n < maxAttempts && PendingReplies(sc, replies, 2, n) && ExpiredThenReadyAt(sc, replies, 2 + n)
    ensures var run := Retry(creds, item, sc, maxAttempts, replies, millis);
      && run.result == sc.extract(replies[3 + n].body)
      && CountTriggers(run.requests) == 1 && CountPolls(run.requests) == n + 1 < maxAttempts + 1
  {
    var url := sc.extract(replies[0].body).value;
    RetryCountsPolls(creds, item, sc, maxAttempts, replies, millis);
    assert 2 + n + 1 == 3 + n;
    PendingThenExpiredReady(item, sc, StatBase(url), millis, replies, 1, maxAttempts, 2, n);
  }

  // ---------------------------------------------------------------- the client

  class BandcampClient {
    var credentials: Option<Credentials>

    /** `BandcampClient::new`: nobody is logged in. */
    constructor ()
      ensures credentials.None?
    {
      credentials := None;
    }

    /** `validate_cookie`: the credentials are replaced only when the cookie is accepted. */
    method ValidateCookie(cookie: string, replies: seq<HttpReply>, parse: Parser) returns (r: Result<Credentials, BandcampError>)
      modifies this
      ensures r == CookieValidation(cookie, replies, parse)
      ensures credentials == if r.Ok? then Some(r.value) else old(credentials)
    {
      r := CookieValidation(cookie, replies, parse);
      if r.Ok? {
        credentials := Some(r.value);
      }
    }

    /**
     * `get_collection`: pages are fetched one after another, each entry is kept only the
     * first time its sale id is seen, and any failure discards the entries gathered so far.
     * The cookie header is checked once, before the first request; the credentials cannot
     * change between requests, so later checks give the same answer.
     */
    method GetCollection(replies: seq<HttpReply>, decode: CollectionDecoder, now: nat)
      returns (r: Result<seq<LibraryItem>, BandcampError>, requests: seq<CollectionRequest>)
      ensures Collected(r, requests) == Collection(credentials, replies, decode, now)
    {
      requests := [];
      if credentials.None? {
        return Err(NotLoggedIn), [];
      }
      var creds := credentials.value;
      if creds.fan_id.None? {
        return Err(NO_FAN_ID_IN_CREDENTIALS), [];
      }
      var headers := AuthHeaders(credentials);
      if headers.Err? {
        return Err(headers.error), [];
      }
      var fanId := ParseU64(creds.fan_id.value).GetOr(0);
      var allItems: seq<LibraryItem> := [];
      var seenIds: set<u64> := {};
      var olderThanToken := FirstToken(now);
      var k := 0;
      ghost var prefix: seq<Tagged> := [];
      ghost var goal := Paging(replies, decode, fanId, olderThanToken, 0);
      assert goal.outcome.Ok? ==> [] + goal.outcome.value == goal.outcome.value;
      assert [] + goal.requests == goal.requests;
      while true
        invariant k <= |replies|
        invariant goal == Prepend(prefix, requests, Paging(replies, decode, fanId, olderThanToken, k))
        invariant allItems == ConvertAll(KeepFirst(prefix), now) && seenIds == SaleIds(prefix)
        decreases |replies| - k
      {
        var request := CollectionRequest(fanId, PAGE_SIZE, olderThanToken);
        ghost var before := requests;
        requests := requests + [request];
        var reply := ReplyAt(replies, k);
        if reply.TransportError? {
          return Err(NetworkError(Transport)), requests;
        }
        if reply.status == 401 {
          return Err(SessionExpired), requests;
        }
        if !IsSuccess(reply.status) {
          return Err(NetworkError(Status(reply.status))), requests;
        }
        var text := reply.body;
        var decoded := decode(text);
        if decoded.Err? {
          return Err(CollectionParseError(decoded.error, text)), requests;
        }
        var collection := decoded.value;
        ghost var page := Tag(collection);
        allItems, seenIds := KeepNewItems(collection, allItems, seenIds, prefix, now);
        ghost var rest := prefix;
        prefix := prefix + page;
        if !collection.more_available || collection.last_token.None? {
          return Ok(allItems), requests;
        }
        assert rest + (page + []) == prefix;
        olderThanToken := collection.last_token.value;
        k := k + 1;
        PrependAssoc(rest, page, before, request, Paging(replies, decode, fanId, olderThanToken, k));
      }
    }
    /**
     * `get_download_url_with_retry`. The cookie header is checked once, before the first
     * request, as the credentials cannot change in between; the three-second pause between
     * polls is left out.
     */
    method GetDownloadUrlWithRetry(item: LibraryItem, extract: PageExtractor, maxAttempts: u32,
                                   replies: seq<HttpReply>, millis: nat -> nat)
      returns (r: Result<string, BandcampError>, requests: seq<Request>)
      ensures Retrieval(r, requests) == Retry(credentials, item, PageScrapers(extract), maxAttempts, replies, millis)
    {
      requests := [];
      var headers := AuthHeaders(credentials);
      if headers.Err? {
        return Err(headers.error), [];
      }
      requests := [PageGet(item.download_url)];
      var response := ReplyAt(replies, 0);
      if response.TransportError? {
        return Err(NetworkError(Transport)), requests;
      }
      if response.status == 401 {
        return Err(SessionExpired), requests;
      }
      if !IsSuccess(response.status) {
        return Err(PageFailure(response.status, response.reason)), requests;
      }
      var html := response.body;
      assert IsReady(html) == PageScrapers(extract).ready(html);
      if IsReady(html) {
        return extract(html), requests;
      }
      var extracted := extract(html);
      if extracted.Err? {
        return Err(extracted.error), requests;
      }
      var downloadUrl := extracted.value;
      RetryAfterTrigger(credentials, item, PageScrapers(extract), maxAttempts, replies, millis);
      requests := requests + [TriggerGet(downloadUrl)];
      var polled;
      r, polled := PollForUrl(item, extract, StatBase(downloadUrl), maxAttempts, replies, millis);
      AfterRun(requests, r, polled, Polls(item, PageScrapers(extract), StatBase(downloadUrl), millis, replies, 1, maxAttempts, 2));
      requests := requests + polled;
    }
  }

  /**
   * The `for attempt in 1..=max_attempts` loop of `get_download_url_with_retry`, whose replies
   * start at `replies[2]`, after the page and the trigger.
   */
  method PollForUrl(item: LibraryItem, extract: PageExtractor, statUrlBase: string, maxAttempts: u32,
                    replies: seq<HttpReply>, millis: nat -> nat)
    returns (r: Result<string, BandcampError>, requests: seq<Request>)
    ensures Retrieval(r, requests) == Polls(item, PageScrapers(extract), statUrlBase, millis, replies, 1, maxAttempts, 2)
  {
    requests := [];
    var k := 2;
    assert [] + Polls(item, PageScrapers(extract), statUrlBase, millis, replies, 1, maxAttempts, 2).requests
      == Polls(item, PageScrapers(extract), statUrlBase, millis, replies, 1, maxAttempts, 2).requests;
    for attempt := 1 to maxAttempts + 1
      invariant After(requests, Polls(item, PageScrapers(extract), statUrlBase, millis, replies, attempt, maxAttempts, k))
        == Polls(item, PageScrapers(extract), statUrlBase, millis, replies, 1, maxAttempts, 2)
    {
      ghost var step := PollOnce(item, PageScrapers(extract), statUrlBase, millis, replies, attempt, k);
      var statUrl := StatUrl(statUrlBase, millis(attempt));
      ghost var before := requests;
      requests := requests + [StatGet(statUrl)];
      var statResponse := ReplyAt(replies, k);
      if statResponse.TransportError? {
        assert step == Finished(Retrieval(Err(NetworkError(Transport)), [StatGet(statUrl)]));
        return Err(NetworkError(Transport)), requests;
      }
      var statText := statResponse.body;
      var verdict := StatVerdict(statText);
      assert verdict == PageScrapers(extract).verdict(statText);
      if verdict.Delivered? {
        assert step == Finished(Retrieval(Ok(verdict.url), [StatGet(statUrl)]));
        return Ok(verdict.url), requests;
      }
      if verdict.SignatureExpired? {
        requests := requests + [PageGet(item.download_url)];
        var again := ReplyAt(replies, k + 1);
        if again.TransportError? {
          assert step == Finished(Retrieval(Err(NetworkError(Transport)), [StatGet(statUrl), PageGet(item.download_url)]));
          return Err(NetworkError(Transport)), requests;
        }
        assert IsReady(again.body) == PageScrapers(extract).ready(again.body);
        if IsSuccess(again.status) && IsReady(again.body) {
          assert step == Finished(Retrieval(extract(again.body), [StatGet(statUrl), PageGet(item.download_url)]));
          return extract(again.body), requests;
        }
        assert step == Continued([StatGet(statUrl), PageGet(item.download_url)], k + 2);
        assert requests == before + [StatGet(statUrl), PageGet(item.download_url)];
        AfterAssoc(before, [StatGet(statUrl), PageGet(item.download_url)],
                   Polls(item, PageScrapers(extract), statUrlBase, millis, replies, attempt + 1, maxAttempts, k + 2));
        k := k + 2;
      } else {
        assert step == Continued([StatGet(statUrl)], k + 1);
        AfterAssoc(before, [StatGet(statUrl)],
                   Polls(item, PageScrapers(extract), statUrlBase, millis, replies, attempt + 1, maxAttempts, k + 1));
        k := k + 1;
      }
    }
    assert requests + [] == requests;
    return Err(DownloadError(NotReadyMessage(item, maxAttempts))), requests;
  }

  lemma KeepFirstStep(ts: seq<Tagged>, x: Tagged)
    ensures KeepFirst(ts + [x]) == KeepFirst(ts) + (if SaleId(x) in SaleIds(ts) then [] else [x])
    ensures SaleIds(ts + [x]) == SaleIds(ts) + {SaleId(x)}
  {
    assert (ts + [x])[..|ts + [x]| - 1] == ts;
  }

  lemma ConvertAllSnoc(ts: seq<Tagged>, x: Tagged, now: Timestamp)
    ensures ConvertAll(ts + [x], now) == ConvertAll(ts, now) + [ConvertCollectionItem(x.item, x.urls, now)]
  {
  }

  /**
   * The `for item in collection.items` loop of `get_collection`: `seen_ids.insert` admits an
   * entry only the first time its sale id comes by.
   */
  method KeepNewItems(collection: CollectionResponse, allItems: seq<LibraryItem>, seenIds: set<u64>,
                      ghost prefix: seq<Tagged>, now: Timestamp)
    returns (items: seq<LibraryItem>, seen: set<u64>)
    requires allItems == ConvertAll(KeepFirst(prefix), now) && seenIds == SaleIds(prefix)
    ensures items == ConvertAll(KeepFirst(prefix + Tag(collection)), now)
    ensures seen == SaleIds(prefix + Tag(collection))
  {
    ghost var page := Tag(collection);
    ghost var kept := KeepFirst(prefix);
    items, seen := allItems, seenIds;
    assert prefix + page[..0] == prefix;
    var i := 0;
    while i < |collection.items|
      invariant i <= |collection.items|
      invariant kept == KeepFirst(prefix + page[..i]) && items == ConvertAll(kept, now)
      invariant seen == SaleIds(prefix + page[..i])
    {
      var item := collection.items[i];
      assert page[i] == Tagged(item, collection.redownload_urls);
      KeepFirstStep(prefix + page[..i], page[i]);
      ExtendSlice(prefix, page, i);
      if item.sale_item_id !in seen {
        ConvertAllSnoc(kept, page[i], now);
        kept := kept + [page[i]];
        seen := seen + {item.sale_item_id};
        items := items + [ConvertCollectionItem(item, collection.redownload_urls, now)];
      }
      i := i + 1;
    }
    assert page[..i] == page;
  }

  lemma ExtendSlice<T>(a: seq<T>, b: seq<T>, i: nat)
    requires i < |b|
    ensures a + b[..i + 1] == (a + b[..i]) + [b[i]]
  {
    assert b[..i + 1] == b[..i] + [b[i]];
  }

  lemma AfterRun(reqs: seq<Request>, r: Result<string, BandcampError>, polled: seq<Request>, run: Retrieval)
    requires Retrieval(r, polled) == run
    ensures Retrieval(r, reqs + polled) == After(reqs, run)
  {
  }

  lemma AfterAssoc(a: seq<Request>, b: seq<Request>, run: Retrieval)
    ensures After(a, After(b, run)) == After(a + b, run)
  {
    assert a + (b + run.requests) == (a + b) + run.requests;
  }

  lemma PrependAssoc(prefix: seq<Tagged>, page: seq<Tagged>, reqs: seq<CollectionRequest>, req: CollectionRequest, run: Paged)
    ensures Prepend(prefix, reqs, Prepend(page, [req], run)) == Prepend(prefix + page, reqs + [req], run)
  {
    if run.outcome.Ok? {
      assert prefix + (page + run.outcome.value) == (prefix + page) + run.outcome.value;
    }
    assert reqs + ([req] + run.requests) == (reqs + [req]) + run.requests;
  }
}
