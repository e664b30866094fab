/**
 * The text scanners of the client: HTML unescaping, the brace matcher, the four strategies
 * that locate a format's download URL in a download page, and the fan id scanners.
 * Every strategy is total: where the original code slices past the end of the text or
 * inside an attribute that ends early, the model clamps or reports "not found".
 */
module Scrape {
  import opened Wrappers
  import opened Strings
  import opened Json
  import opened Errors
  import opened Library

  // ---------------------------------------------------------------- replacement passes

  /** A chain of `replace(from, to)` calls, applied left to right. */
  function ApplyPasses(s: string, passes: seq<(string, string)>): string
    decreases |passes|
  {
    if passes == [] then s else ApplyPasses(ReplaceAll(s, passes[0].0, passes[0].1), passes[1..])
  }

  /** The entity and escape passes of `unescape_html`, in order. */
  const HTML_PASSES: seq<(string, string)> := [
    ("&quot;", "\""), ("&amp;", "&"), ("&lt;", "<"), ("&gt;", ">"), ("&#39;", "'"),
    ("&apos;", "'"), ("&#x27;", "'"), ("&#x2F;", "/"), ("\\u0026", "&"), ("\\/", "/")]

  /** `unescape_html`. */
  function UnescapeHtml(s: string): string {
    ApplyPasses(s, HTML_PASSES)
  }

  /** The five passes `extract_fan_id` applies to a data blob (the first five of `unescape_html`). */
  function UnescapeFanIdBlob(s: string): string {
    ApplyPasses(s, HTML_PASSES[..5])
  }

  /** The patterns of a pass list all start with a character absent from `s`. */
  predicate PassesMiss(s: string, passes: seq<(string, string)>) {
    forall k :: 0 <= k < |passes| ==> |passes[k].0| > 0 && passes[k].0[0] !in s
  }

  lemma {:induction false} ApplyPassesIdentity(s: string, passes: seq<(string, string)>)
    requires PassesMiss(s, passes)
    ensures ApplyPasses(s, passes) == s
    decreases |passes|
  {
    if passes != [] {
      AbsentFirstChar(s, passes[0].0);
      ReplaceNotFound(s, passes[0].0, passes[0].1);
      assert PassesMiss(s, passes[1..]) by {
        forall k | 0 <= k < |passes[1..]| ensures |passes[1..][k].0| > 0 && passes[1..][k].0[0] !in s {
          assert passes[1..][k] == passes[k + 1];
        }
      }
      ApplyPassesIdentity(s, passes[1..]);
    }
  }

  lemma {:induction false} ApplyPassesShrinks(s: string, passes: seq<(string, string)>)
    requires forall k :: 0 <= k < |passes| ==> 0 < |passes[k].0| && |passes[k].1| <= |passes[k].0|
    ensures |ApplyPasses(s, passes)| <= |s|
    decreases |passes|
  {
    if passes != [] {
      var t := ReplaceAll(s, passes[0].0, passes[0].1);
      ReplaceShrinks(s, passes[0].0, passes[0].1);
      assert forall k :: 0 <= k < |passes[1..]| ==> passes[1..][k] == passes[k + 1];
      ApplyPassesShrinks(t, passes[1..]);
    }
  }

  lemma HtmlPassesShape(s: string)
    requires '&' !in s && '\\' !in s
    ensures PassesMiss(s, HTML_PASSES)
    ensures forall k :: 0 <= k < |HTML_PASSES| ==> 0 < |HTML_PASSES[k].0| && |HTML_PASSES[k].1| <= |HTML_PASSES[k].0|
  {
    forall k | 0 <= k < |HTML_PASSES|
      ensures |HTML_PASSES[k].0| > 0 && HTML_PASSES[k].0[0] in {'&', '\\'}
      ensures |HTML_PASSES[k].1| <= |HTML_PASSES[k].0|
    {
      if k < 8 { assert HTML_PASSES[k].0[0] == '&'; } else { assert HTML_PASSES[k].0[0] == '\\'; }
    }
  }

  /** Text without `&` and `\` comes out of `unescape_html` unchanged. */
  lemma UnescapeHtmlIdentity(s: string)
    requires '&' !in s && '\\' !in s
    ensures UnescapeHtml(s) == s
  {
    HtmlPassesShape(s);
    ApplyPassesIdentity(s, HTML_PASSES);
  }

  /** `unescape_html` never lengthens its input: every entity is longer than its replacement. */
  lemma UnescapeHtmlShrinks(s: string)
    ensures |UnescapeHtml(s)| <= |s|
  {
    HtmlPassesShape("");
    ApplyPassesShrinks(s, HTML_PASSES);
  }

  /** The same two facts for the five-pass variant used on fan pages. */
  lemma UnescapeFanIdBlobIdentity(s: string)
    requires '&' !in s
    ensures UnescapeFanIdBlob(s) == s
  {
    forall k | 0 <= k < 5 ensures |HTML_PASSES[..5][k].0| > 0 && HTML_PASSES[..5][k].0[0] == '&' {
      assert HTML_PASSES[..5][k] == HTML_PASSES[k];
    }
    ApplyPassesIdentity(s, HTML_PASSES[..5]);
  }

  // ---------------------------------------------------------------- brace matching

  /** The scanner state of `extract_json_object` between two characters. */
  datatype Lex = Lex(depth: int, inString: bool, escapeNext: bool)

  /** One character of `extract_json_object`'s loop (the state change; the return is in `Closes`). */
  function Step(st: Lex, c: char): Lex {
    if st.escapeNext then st.(escapeNext := false)
    else if c == '\\' && st.inString then st.(escapeNext := true)
    else if c == '"' then st.(inString := !st.inString)
    else if c == '{' && !st.inString then st.(depth := st.depth + 1)
    else if c == '}' && !st.inString then st.(depth := st.depth - 1)
    else st
  }

  /** The state after the first `n` characters. */
  function LexAfter(s: string, n: nat): Lex
    requires n <= |s|
  {
    if n == 0 then Lex(0, false, false) else Step(LexAfter(s, n - 1), s[n - 1])
  }

  /** The character at `i` is a closing brace outside any string that brings the depth back to 0. */
  predicate Closes(s: string, i: nat) {
    i < |s| && var st := LexAfter(s, i);
    !st.escapeNext && !st.inString && s[i] == '}' && st.depth == 1
  }

  /** The first closing position at or after `from`. */
  function FirstClose(s: string, from: nat): (r: Option<nat>)
    ensures r.Some? ==> from <= r.value && Closes(s, r.value)
    ensures r.Some? ==> forall j :: from <= j < r.value ==> !Closes(s, j)
    ensures r.None? ==> forall j :: from <= j ==> !Closes(s, j)
    decreases |s| - from
  {
    if from >= |s| then None
    else if Closes(s, from) then Some(from)
    else FirstClose(s, from + 1)
  }

  /** What `extract_json_object` returns. */
  function JsonObject(s: string): Option<string> {
    if |s| == 0 || s[0] != '{' then None
    else match FirstClose(s, 0)
      case Some(i) => Some(s[..i + 1])
      case None => None
  }

  /** `extract_json_object`: the balanced object at the start of `s`. */
  method ExtractJsonObject(s: string) returns (r: Option<string>)
    ensures r == JsonObject(s)
  {
    if |s| == 0 || s[0] != '{' {
      return None;
    }
    var depth := 0;
    var inString := false;
    var escapeNext := false;
    var i := 0;
    while i < |s|
      invariant 0 <= i <= |s|
      invariant Lex(depth, inString, escapeNext) == LexAfter(s, i)
      invariant forall j :: 0 <= j < i ==> !Closes(s, j)
    {
      var c := s[i];
      if escapeNext {
        escapeNext := false;
      } else if c == '\\' && inString {
        escapeNext := true;
      } else if c == '"' {
        inString := !inString;
      } else if c == '{' && !inString {
        depth := depth + 1;
      } else if c == '}' && !inString {
        depth := depth - 1;
        if depth == 0 {
          assert Closes(s, i);
          return Some(s[..i + 1]);
        }
      }
      i := i + 1;
    }
    return None;
  }

  /** Before the closing brace the depth never drops below one. */
  lemma {:induction false} DepthPositiveBeforeClose(s: string, n: nat)
    requires 1 <= n <= |s| && s[0] == '{'
    requires forall j :: 0 <= j < n ==> !Closes(s, j)
    ensures LexAfter(s, n).depth >= 1
  {
    if n > 1 {
      DepthPositiveBeforeClose(s, n - 1);
      assert !Closes(s, n - 1);
    }
  }

  /** An escape is pending only inside a string: a backslash outside a string escapes nothing. */
  lemma {:induction false} EscapeOnlyInString(s: string, n: nat)
    requires n <= |s|
    ensures LexAfter(s, n).escapeNext ==> LexAfter(s, n).inString
  {
    if n > 0 {
      EscapeOnlyInString(s, n - 1);
    }
  }

  /** Inside a string an escaped quote does not end the string. */
  lemma EscapedQuoteStaysInString(s: string, n: nat)
    requires n < |s| && s[n] == '"' && LexAfter(s, n).escapeNext
    ensures LexAfter(s, n + 1).inString
  {
    EscapeOnlyInString(s, n);
  }

  /**
   * `extract_json_object` finds the shortest prefix that starts with `{`, ends with the
   * `}` that brings the depth to 0 and keeps the depth at least one before it; and it
   * finds nothing exactly when the input does not start with `{` or the depth never returns to 0.
   */
  lemma JsonObjectSpec(s: string)
    ensures JsonObject(s).Some? ==>
      var o := JsonObject(s).value;
      2 <= |o| <= |s| && o == s[..|o|] && o[0] == '{' && o[|o| - 1] == '}'
      && LexAfter(s, |o|).depth == 0
      && (forall n :: 1 <= n < |o| ==> LexAfter(s, n).depth >= 1)
    ensures JsonObject(s).None? <==>
      (|s| == 0 || s[0] != '{' || forall n :: 1 <= n <= |s| ==> LexAfter(s, n).depth >= 1)
  {
    if |s| > 0 && s[0] == '{' {
      match FirstClose(s, 0)
      case Some(i) =>
        assert i != 0;
        forall n | 1 <= n <= i ensures LexAfter(s, n).depth >= 1 {
          DepthPositiveBeforeClose(s, n);
        }
        assert LexAfter(s, i + 1).depth == 0;
      case None =>
        forall n | 1 <= n <= |s| ensures LexAfter(s, n).depth >= 1 {
          DepthPositiveBeforeClose(s, n);
        }
    }
  }

  /** `o` opens with `{` and is balanced: the depth first returns to 0 at its last character. */
  predicate Balanced(o: string) {
    |o| > 0 && o[0] == '{' && LexAfter(o, |o|).depth == 0
    && forall n :: 1 <= n < |o| ==> LexAfter(o, n).depth >= 1
  }

  /** The scanner state depends only on the characters already read. */
  lemma {:induction false} LexOnPrefix(s: string, o: string, n: nat)
    requires |o| <= |s| && s[..|o|] == o && n <= |o|
    ensures LexAfter(s, n) == LexAfter(o, n)
  {
    if n > 0 {
      LexOnPrefix(s, o, n - 1);
      assert s[n - 1] == s[..|o|][n - 1];
    }
  }

  /** A matched object is balanced, and the input starts with it. */
  lemma MatchedIsBalanced(s: string)
    requires JsonObject(s).Some?
    ensures var o := JsonObject(s).value; |o| <= |s| && s[..|o|] == o && Balanced(o)
  {
    JsonObjectSpec(s);
    var o := JsonObject(s).value;
    forall n | 1 <= n <= |o| ensures LexAfter(s, n) == LexAfter(o, n) {
      LexOnPrefix(s, o, n);
    }
  }

  /** A balanced object the input starts with is exactly what the matcher returns. */
  lemma BalancedIsMatched(s: string, o: string)
    requires |o| <= |s| && s[..|o|] == o && Balanced(o)
    ensures JsonObject(s) == Some(o)
  {
    BalancedCloses(s, o);
    BalancedClosesOnce(s, o);
    assert s[..|o|] == o;
  }

  /** A balanced object has at least two characters, and its last one closes the input it starts. */
  lemma BalancedCloses(s: string, o: string)
    requires |o| <= |s| && s[..|o|] == o && Balanced(o)
    ensures |o| >= 2 && Closes(s, |o| - 1)
  {
    var c := |o| - 1;
    OpenBraceDepth(o);
    LexOnPrefix(s, o, c);
    LexOnPrefix(s, o, c + 1);
    assert s[c] == o[c];
  }

  /** After an opening brace the depth is one. */
  lemma OpenBraceDepth(o: string)
    requires |o| > 0 && o[0] == '{'
    ensures LexAfter(o, 1).depth == 1
  {
  }

  /** No character before a balanced object's last one closes the input it starts. */
  lemma BalancedClosesOnce(s: string, o: string)
    requires |o| <= |s| && s[..|o|] == o && Balanced(o)
    ensures forall j :: 0 <= j < |o| - 1 ==> !Closes(s, j)
  {
    forall j | 0 <= j < |o| - 1 ensures !Closes(s, j) {
      if Closes(s, j) {
        ClosesEndsDepth(s, j);
        LexOnPrefix(s, o, j + 1);
      }
    }
  }

  /** Right after a closing position the depth is 0. */
  lemma ClosesEndsDepth(s: string, j: nat)
    requires Closes(s, j)
    ensures LexAfter(s, j + 1).depth == 0
  {
  }

  // ---------------------------------------------------------------- URLs in JSON

  /** The first `Some` of a list of attempts. */
  function FirstSome(xs: seq<Option<string>>): (r: Option<string>)
    ensures r.Some? <==> exists k :: 0 <= k < |xs| && xs[k].Some?
    ensures r.Some? ==> exists k :: 0 <= k < |xs| && xs[k] == r && forall j :: 0 <= j < k ==> xs[j].None?
    decreases |xs|
  {
    if xs == [] then None
    else if xs[0].Some? then xs[0]
    else
      var t := FirstSome(xs[1..]);
      assert forall k :: 0 <= k < |xs[1..]| ==> xs[1..][k] == xs[k + 1];
      if t.Some? then
        var k :| 0 <= k < |xs[1..]| && xs[1..][k] == t && forall j :: 0 <= j < k ==> xs[1..][j].None?;
        assert xs[k + 1] == t && forall j :: 0 <= j < k + 1 ==> xs[j].None?;
        t
      else t
  }

  /** `&` written into JSON strings by the site, turned back into `&`. */
  function Amp(u: string): (r: string)
    ensures !Contains(r, "\\u0026")
  {
    ReplaceEliminates(u, "\\u0026", "&");
    ReplaceAll(u, "\\u0026", "&")
  }

  /** `&` and then `\/` undone, as the text searches do. */
  function AmpSlash(u: string): (r: string)
    ensures !Contains(r, "\\u0026")
  {
    var a := Amp(u);
    ReplaceKeepsAbsent(a, "\\/", "/", "\\u0026");
    ReplaceAll(a, "\\/", "/")
  }

  /** `<downloads>.<format>.url` as a string. */
  function DownloadsUrl(downloads: Option<Json>, format: string): Option<string> {
    AsStr(Field(Field(downloads, format), "url"))
  }

  /** `<list>[0].downloads.<format>.url` as a string. */
  function ItemsUrl(v: Option<Json>, list: string, format: string): Option<string> {
    DownloadsUrl(Field(First(Field(v, list)), "downloads"), format)
  }

  /** The three JSON paths `extract_url_from_json` tries, in priority order. */
  function JsonUrlCandidates(v: Option<Json>, format: string): seq<Option<string>> {
    [ItemsUrl(v, "digital_items", format), ItemsUrl(v, "download_items", format), DownloadsUrl(Field(v, "downloads"), format)]
  }

  /**
   * The text fallback of `extract_url_from_json`: after the first `"<format>":`, the first
   * `"url":`, then the string value that follows it.
   */
  function TextSearchUrl(js: string, format: string): Option<string> {
    match Find(js, "\"" + format + "\":")
    case None => None
    case Some(pos) =>
      var after := js[pos..];
      match Find(after, "\"url\":")
      case None => None
      case Some(up) =>
        var us := up + 6;
        match Find(after[us..], "\"")
        case None => None
        case Some(q) =>
          var cs := us + q + 1;
          match Find(after[cs..], "\"")
          case None => None
          case Some(e) => Some(AmpSlash(after[cs..cs + e]))
  }

  /** `extract_url_from_json`. */
  function ExtractUrlFromJson(js: string, format: string, parse: Parser): (r: Option<string>)
    ensures r.Some? ==> !Contains(r.value, "\\u0026")
  {
    match FirstSome(JsonUrlCandidates(parse(js), format))
    case Some(u) => Some(Amp(u))
    case None => TextSearchUrl(js, format)
  }

  /** A URL at an earlier JSON path wins over every later path and over the text search. */
  lemma JsonPathWins(js: string, format: string, parse: Parser, k: nat)
    requires k < 3 && JsonUrlCandidates(parse(js), format)[k].Some?
    requires forall j :: 0 <= j < k ==> JsonUrlCandidates(parse(js), format)[j].None?
    ensures ExtractUrlFromJson(js, format, parse) == Some(Amp(JsonUrlCandidates(parse(js), format)[k].value))
  {
    FirstSomeAt(JsonUrlCandidates(parse(js), format), k);
  }

  /** The text search is used exactly when no JSON path yields a string. */
  lemma TextSearchOnlyAsFallback(js: string, format: string, parse: Parser)
    requires forall j :: 0 <= j < 3 ==> JsonUrlCandidates(parse(js), format)[j].None?
    ensures ExtractUrlFromJson(js, format, parse) == TextSearchUrl(js, format)
  {
  }

  // ---------------------------------------------------------------- the four page strategies

  const PAGEDATA_PATTERNS: seq<string> := ["<div id=\"pagedata\"", "<div id='pagedata'", "id=\"pagedata\""]

  /** Where the tag opened at `dp` ends: its first `>`, else 2000 characters on, within the page. */
  function TagEnd(html: string, dp: nat): (e: nat)
    requires dp <= |html|
    ensures dp <= e <= |html|
  {
    match Find(html[dp..], ">")
    case Some(k) => dp + k
    case None => Min(dp + 2000, |html|)
  }

  /** The tag the first occurrence of `pattern` opens, up to its `>`. */
  function PagedataTag(html: string, pattern: string): Option<string> {
    match Find(html, pattern)
    case None => None
    case Some(dp) => Some(html[dp..TagEnd(html, dp)])
  }

  /** The value of a tag's first `data-blob=` attribute, up to the quote that opened it. */
  function TagBlob(tag: string): Option<string> {
    match Find(tag, "data-blob=")
    case None => None
    case Some(bs) =>
      var quote := if bs + 10 < |tag| then tag[bs + 10] else '"';
      var cs := bs + 11;
      if cs > |tag| then None
      else match Find(tag[cs..], [quote])
        case None => None
        case Some(be) => Some(tag[cs..cs + be])
  }

  /** One pattern of `extract_from_pagedata`: the `data-blob` of the tag the pattern opens. */
  function PagedataTry(html: string, format: string, parse: Parser, pattern: string): Option<string> {
    match PagedataTag(html, pattern)
    case None => None
    case Some(tag) =>
      match TagBlob(tag)
      case None => None
      case Some(blob) => ExtractUrlFromJson(UnescapeHtml(blob), format, parse)
  }

  /**
   * The first occurrence of `pattern` in the page is at `dp`, and the first `data-blob=` of
   * the tag it opens is at `bs`, holding `blob` between two quotes `q`.
   */
  predicate PagedataBlobAt(html: string, pattern: string, dp: nat, bs: nat, q: char, blob: string) {
    FirstAt(html, pattern, dp)
    && var tag := html[dp..TagEnd(html, dp)];
       FirstAt(tag, "data-blob=", bs) && At(tag, "data-blob=" + [q] + blob + [q], bs) && q !in blob
  }

  /** The blob a tag yields is quoted right after its first `data-blob=`. */
  lemma TagBlobFound(tag: string)
    requires TagBlob(tag).Some?
    ensures exists bs: nat, q :: FirstAt(tag, "data-blob=", bs) && At(tag, "data-blob=" + [q] + TagBlob(tag).value + [q], bs)
                                && q !in TagBlob(tag).value
  {
    var bs := Find(tag, "data-blob=").value;
    FindFirstAt(tag, "data-blob=", bs);
    var q := tag[bs + 10];
    var cs := bs + 11;
    QuoteFound(tag, cs, q);
    var b := tag[cs..cs + Find(tag[cs..], [q]).value];
    assert TagBlob(tag).value == b;
    AtThenChar(tag, bs, "data-blob=", q);
    AtThenQuoted(tag, bs, "data-blob=" + [q], b, q);
  }

  /** A blob quoted right after a tag's first `data-blob=` is the one the tag yields. */
  lemma TagBlobRead(tag: string, bs: nat, q: char, blob: string)
    requires FirstAt(tag, "data-blob=", bs) && At(tag, "data-blob=" + [q] + blob + [q], bs) && q !in blob
    ensures TagBlob(tag) == Some(blob)
  {
    FindFirstAt(tag, "data-blob=", bs);
    AtThenQuoted(tag, bs, "data-blob=" + [q], blob, q);
    AtThenChar(tag, bs, "data-blob=", q);
    QuoteRead(tag, bs + 11, q, blob);
  }

  /**
   * What one pagedata pattern finds is read from the quoted `data-blob` of the tag its first
   * occurrence opens: the blob, unescaped, goes to `extract_url_from_json`.
   */
  lemma PagedataFound(html: string, format: string, parse: Parser, pattern: string)
    requires PagedataTry(html, format, parse, pattern).Some?
    ensures exists dp: nat, bs: nat, q, blob :: PagedataBlobAt(html, pattern, dp, bs, q, blob)
              && PagedataTry(html, format, parse, pattern) == ExtractUrlFromJson(UnescapeHtml(blob), format, parse)
  {
    var dp := Find(html, pattern).value;
    FindFirstAt(html, pattern, dp);
    var tag := html[dp..TagEnd(html, dp)];
    TagBlobFound(tag);
    var bs: nat, q :| FirstAt(tag, "data-blob=", bs) && At(tag, "data-blob=" + [q] + TagBlob(tag).value + [q], bs)
                       && q !in TagBlob(tag).value;
    assert PagedataBlobAt(html, pattern, dp, bs, q, TagBlob(tag).value);
  }

  /** Conversely, the quoted blob of the first pagedata tag is what that pattern reads. */
  lemma PagedataRead(html: string, format: string, parse: Parser, pattern: string, dp: nat, bs: nat, q: char, blob: string)
    requires PagedataBlobAt(html, pattern, dp, bs, q, blob)
    ensures PagedataTry(html, format, parse, pattern) == ExtractUrlFromJson(UnescapeHtml(blob), format, parse)
  {
    FindFirstAt(html, pattern, dp);
    TagBlobRead(html[dp..TagEnd(html, dp)], bs, q, blob);
  }

  /** `extract_from_pagedata`. */
  function FromPagedata(html: string, format: string, parse: Parser): Option<string> {
    FirstSome([PagedataTry(html, format, parse, PAGEDATA_PATTERNS[0]),
               PagedataTry(html, format, parse, PAGEDATA_PATTERNS[1]),
               PagedataTry(html, format, parse, PAGEDATA_PATTERNS[2])])
  }

  const BLOB_PATTERNS: seq<string> := ["data-blob=\"", "data-blob='"]

  /** The closing quote of a blob pattern: the pattern's own last character. */
  function BlobQuote(pattern: string): char {
    if EndsWith(pattern, "\"") then '"' else '\''
  }

  /** A blob carries download information if it mentions `digital_items` or `downloads`. */
  predicate HasDownloadInfo(blob: string) {
    Contains(blob, "digital_items") || Contains(blob, "downloads")
  }

  /** The URL a blob yields: only blobs with download information are parsed. */
  function BlobUrl(blob: string, format: string, parse: Parser): Option<string> {
    if HasDownloadInfo(blob) then ExtractUrlFromJson(UnescapeHtml(blob), format, parse) else None
  }

  /**
   * One round of the `while let` loop of `extract_from_data_blob`: the pattern's next occurrence
   * at or after `pos`, the blob from there up to the closing quote, and the position of that quote.
   */
  function NextBlob(html: string, pattern: string, pos: nat): (r: Option<(string, nat)>)
    requires |pattern| > 0 && pos <= |html|
    ensures r.Some? ==> pos < r.value.1 <= |html|
  {
    match Find(html[pos..], pattern)
    case None => None
    case Some(bs) =>
      var start := pos + bs + |pattern|;
      match Find(html[start..], [BlobQuote(pattern)])
      case None => None
      case Some(be) => Some((html[start..start + be], start + be))
  }

  /** The blobs the scan for one pattern visits from `pos` on, in order. */
  function Blobs(html: string, pattern: string, pos: nat): seq<string>
    requires |pattern| > 0 && pos <= |html|
    decreases |html| - pos
  {
    match NextBlob(html, pattern, pos)
    case None => []
    case Some((blob, after)) => [blob] + Blobs(html, pattern, after)
  }

  /** The URL from the first blob that yields one, `urlOf` being what a single blob yields. */
  function FirstBlobUrl(blobs: seq<string>, urlOf: string -> Option<string>): Option<string>
    decreases |blobs|
  {
    if blobs == [] then None
    else if urlOf(blobs[0]).Some? then urlOf(blobs[0])
    else FirstBlobUrl(blobs[1..], urlOf)
  }

  /** What a single blob yields in `extract_from_data_blob`. */
  function BlobUrlOf(format: string, parse: Parser): string -> Option<string> {
    blob => BlobUrl(blob, format, parse)
  }

  /** The scans of both blob patterns, in order. */
  function BlobScans(html: string, format: string, parse: Parser): seq<Option<string>> {
    [BlobScan(html, format, parse, 0), BlobScan(html, format, parse, 1)]
  }

  /** The scan for the `k`-th blob pattern: the first URL among its blobs. */
  function BlobScan(html: string, format: string, parse: Parser, k: nat): Option<string>
    requires k < 2
  {
    FirstBlobUrl(Blobs(html, BLOB_PATTERNS[k], 0), BlobUrlOf(format, parse))
  }

  /** `extract_from_data_blob`, as a value. */
  function FromDataBlob(html: string, format: string, parse: Parser): Option<string> {
    FirstSome(BlobScans(html, format, parse))
  }

  /**
   * The `while let` loop of `extract_from_data_blob` for one pattern: every blob is handed
   * to `urlOf` until one yields a URL; `search_pos` only grows.
   */
  method ScanBlobs(html: string, pattern: string, urlOf: string -> Option<string>) returns (r: Option<string>)
    requires |pattern| > 0
    ensures r == FirstBlobUrl(Blobs(html, pattern, 0), urlOf)
  {
    var searchPos := 0;
    while true
      invariant searchPos <= |html|
      invariant FirstBlobUrl(Blobs(html, pattern, 0), urlOf) == FirstBlobUrl(Blobs(html, pattern, searchPos), urlOf)
      decreases |html| - searchPos
    {
      var next := NextBlob(html, pattern, searchPos);
      if next.None? {
        return None;
      }
      var (blob, after) := next.value;
      var url := urlOf(blob);
      assert ([blob] + Blobs(html, pattern, after))[1..] == Blobs(html, pattern, after);
      if url.Some? {
        return url;
      }
      searchPos := after;
    }
  }

  /** `extract_from_data_blob`: each pattern in turn, scanning blob after blob. */
  method ExtractFromDataBlob(html: string, format: string, parse: Parser) returns (r: Option<string>)
    ensures r == FromDataBlob(html, format, parse)
  {
    ghost var scans := BlobScans(html, format, parse);
    for k := 0 to 2
      invariant forall j :: 0 <= j < k ==> scans[j].None?
    {
      var url := ScanBlobs(html, BLOB_PATTERNS[k], BlobUrlOf(format, parse));
      assert url == scans[k] == BlobScan(html, format, parse, k);
      if url.Some? {
        FirstSomeAt(scans, k);
        return url;
      }
    }
    return None;
  }

  /** The first `Some` at index `k` is the list's first `Some`. */
  lemma {:induction false} FirstSomeAt(xs: seq<Option<string>>, k: nat)
    requires k < |xs| && xs[k].Some? && forall j :: 0 <= j < k ==> xs[j].None?
    ensures FirstSome(xs) == xs[k]
  {
    if k > 0 {
      assert xs[1..][k - 1] == xs[k];
      assert forall j :: 0 <= j < k - 1 ==> xs[1..][j] == xs[j + 1];
      FirstSomeAt(xs[1..], k - 1);
    }
  }

  const TRALBUM_PATTERNS: seq<string> := ["TralbumData = {", "TralbumData={"]

  /** One pattern of `extract_from_tralbum_data`: the object literal that follows it. */
  function TralbumTry(html: string, format: string, parse: Parser, pattern: string): Option<string>
    requires |pattern| > 0
  {
    match Find(html, pattern)
    case None => None
    case Some(st) =>
      match JsonObject(html[st + |pattern| - 1..])
      case None => None
      case Some(obj) => ExtractUrlFromJson(obj, format, parse)
  }

  /**
   * The first occurrence of `pattern` is at `st`, and the balanced object `o` starts at the
   * brace that ends the pattern.
   */
  predicate TralbumObjectAt(html: string, pattern: string, st: nat, o: string) {
    |pattern| > 0 && FirstAt(html, pattern, st) && Balanced(o) && At(html, o, st + |pattern| - 1)
  }

  /** What one TralbumData pattern finds is read from the balanced object after its first occurrence. */
  lemma TralbumFound(html: string, format: string, parse: Parser, pattern: string)
    requires |pattern| > 0 && TralbumTry(html, format, parse, pattern).Some?
    ensures exists st: nat, o :: TralbumObjectAt(html, pattern, st, o)
              && TralbumTry(html, format, parse, pattern) == ExtractUrlFromJson(o, format, parse)
  {
    TralbumParts(html, format, parse, pattern);
    var st := Find(html, pattern).value;
    var o := JsonObject(html[st + |pattern| - 1..]).value;
    TralbumObjectFound(html, format, parse, pattern, st, o);
  }

  /** A TralbumData pattern that yields a result occurs, and an object is matched at the brace ending it. */
  lemma TralbumParts(html: string, format: string, parse: Parser, pattern: string)
    requires |pattern| > 0 && TralbumTry(html, format, parse, pattern).Some?
    ensures Find(html, pattern).Some? && Find(html, pattern).value + |pattern| <= |html|
    ensures JsonObject(html[Find(html, pattern).value + |pattern| - 1..]).Some?
  {
  }

  /** The object matched at the brace that ends the pattern's first occurrence is balanced, sits there, and is what is read. */
  lemma TralbumObjectFound(html: string, format: string, parse: Parser, pattern: string, st: nat, o: string)
    requires |pattern| > 0 && Find(html, pattern) == Some(st)
    requires JsonObject(html[st + |pattern| - 1..]) == Some(o)
    ensures TralbumObjectAt(html, pattern, st, o)
    ensures TralbumTry(html, format, parse, pattern) == ExtractUrlFromJson(o, format, parse)
  {
    FindFirstAt(html, pattern, st);
    MatchedIsBalanced(html[st + |pattern| - 1..]);
    AtSuffix(html, o, st + |pattern| - 1);
  }

  /** Conversely, the balanced object after the first occurrence is exactly what that pattern reads. */
  lemma TralbumRead(html: string, format: string, parse: Parser, pattern: string, st: nat, o: string)
    requires TralbumObjectAt(html, pattern, st, o)
    ensures TralbumTry(html, format, parse, pattern) == ExtractUrlFromJson(o, format, parse)
  {
    TralbumObjectRead(html, pattern, st, o);
  }

  /** The pattern's first occurrence is found at `st`, and the balanced object at its brace is what the matcher returns. */
  lemma TralbumObjectRead(html: string, pattern: string, st: nat, o: string)
    requires TralbumObjectAt(html, pattern, st, o)
    ensures Find(html, pattern) == Some(st) && st + |pattern| - 1 <= |html|
    ensures JsonObject(html[st + |pattern| - 1..]) == Some(o)
  {
    FindFirstAt(html, pattern, st);
    var js := st + |pattern| - 1;
    AtSuffix(html, o, js);
    BalancedIsMatched(html[js..], o);
  }

  /** `extract_from_tralbum_data`. */
  function FromTralbumData(html: string, format: string, parse: Parser): Option<string> {
    FirstSome([TralbumTry(html, format, parse, TRALBUM_PATTERNS[0]),
               TralbumTry(html, format, parse, TRALBUM_PATTERNS[1])])
  }

  const URL_PATTERNS: seq<string> := ["\"url\":\"", "\"url\": \"", "url\":\""]

  /** The raw value after the first occurrence of a URL key, up to the next quote. */
  function RawUrl(area: string, pattern: string): Option<string> {
    match Find(area, pattern)
    case None => None
    case Some(us) =>
      var start := us + |pattern|;
      match Find(area[start..], "\"")
      case None => None
      case Some(e) => Some(area[start..start + e])
  }

  /** One URL pattern inside the search window of `extract_direct_pattern`. */
  function DirectTry(area: string, pattern: string): Option<string> {
    match RawUrl(area, pattern)
    case None => None
    case Some(w) => Some(AmpSlash(w))
  }

  /** The 1000-character window after the first `"<format>":`, if there is one. */
  function DirectWindow(html: string, format: string): Option<string> {
    match Find(html, "\"" + format + "\":")
    case None => None
    case Some(fp) => Some(html[fp..Min(|html|, fp + 1000)])
  }

  /** `extract_direct_pattern`. */
  function DirectPattern(html: string, format: string): Option<string> {
    match DirectWindow(html, format)
    case None => None
    case Some(area) => FirstSome([DirectTry(area, URL_PATTERNS[0]), DirectTry(area, URL_PATTERNS[1]),
                                 DirectTry(area, URL_PATTERNS[2])])
  }

  /** The first occurrence of `p` in `area` is at `i` and is followed by `w` and a closing quote. */
  predicate UrlAfter(area: string, p: string, i: nat, w: string) {
    FirstAt(area, p, i) && At(area, p + w + "\"", i) && '"' !in w
  }

  /** The raw value of a URL key is quote-free and closed by a quote right after the key's first occurrence. */
  lemma RawUrlFound(area: string, p: string)
    requires RawUrl(area, p).Some?
    ensures UrlAfter(area, p, Find(area, p).value, RawUrl(area, p).value)
  {
    var us := Find(area, p).value;
    FindFirstAt(area, p, us);
    QuoteFound(area, us + |p|, '"');
    AtThenQuoted(area, us, p, RawUrl(area, p).value, '"');
  }

  /** A quote-free value closed by a quote right after a key's first occurrence is that key's raw value. */
  lemma RawUrlRead(area: string, p: string, i: nat, w: string)
    requires UrlAfter(area, p, i, w)
    ensures RawUrl(area, p) == Some(w)
  {
    FindFirstAt(area, p, i);
    AtThenQuoted(area, i, p, w, '"');
    QuoteRead(area, i + |p|, '"', w);
  }

  /** A URL key yields no raw value exactly when it is absent or no quote follows its first occurrence. */
  lemma RawUrlMissing(area: string, p: string)
    ensures RawUrl(area, p).None? <==>
      !Contains(area, p) || '"' !in area[Find(area, p).value + |p|..]
  {
    if Contains(area, p) {
      var start := Find(area, p).value + |p|;
      if '"' in area[start..] {
        var m :| 0 <= m < |area[start..]| && area[start..][m] == '"';
        assert At(area[start..], "\"", m);
      }
      if Find(area[start..], "\"").Some? {
        var e := Find(area[start..], "\"").value;
        assert area[start..][e..e + 1] == "\"";
        assert area[start..][e] == '"';
      }
    }
  }

  /**
   * The first occurrence of `"<format>":` is at `fp`, and in the 1000-character window from
   * there the first occurrence of the `k`-th URL key is at `i`, followed by `w` and a quote.
   */
  predicate DirectUrlAt(html: string, format: string, fp: nat, k: nat, i: nat, w: string) {
    k < 3 && FirstAt(html, "\"" + format + "\":", fp) && UrlAfter(html[fp..Min(|html|, fp + 1000)], URL_PATTERNS[k], i, w)
  }

  /** What the direct pattern finds is a quote-free value right after one of the URL keys in the window. */
  lemma DirectPatternFound(html: string, format: string)
    requires DirectPattern(html, format).Some?
    ensures exists fp: nat, k: nat, i: nat, w :: DirectUrlAt(html, format, fp, k, i, w)
              && DirectPattern(html, format) == Some(AmpSlash(w))
  {
    var fp := Find(html, "\"" + format + "\":").value;
    FindFirstAt(html, "\"" + format + "\":", fp);
    var area := html[fp..Min(|html|, fp + 1000)];
    assert DirectWindow(html, format) == Some(area);
    var tries := [DirectTry(area, URL_PATTERNS[0]), DirectTry(area, URL_PATTERNS[1]), DirectTry(area, URL_PATTERNS[2])];
    var k := if tries[0].Some? then 0 else if tries[1].Some? then 1 else 2;
    assert tries[k].Some? by {
      if k == 2 {
        assert FirstSome(tries) == FirstSome(tries[1..]) == FirstSome(tries[2..]);
      }
    }
    FirstSomeAt(tries, k);
    RawUrlFound(area, URL_PATTERNS[k]);
    var i := Find(area, URL_PATTERNS[k]).value;
    var w := RawUrl(area, URL_PATTERNS[k]).value;
    assert DirectUrlAt(html, format, fp, k, i, w);
  }

  /**
   * Conversely, a quote-free value after the `k`-th URL key in the window is what the direct
   * pattern finds, when no earlier key occurs in the window.
   */
  lemma DirectPatternRead(html: string, format: string, fp: nat, k: nat, i: nat, w: string)
    requires DirectUrlAt(html, format, fp, k, i, w)
    requires forall j :: 0 <= j < k ==> RawUrl(html[fp..Min(|html|, fp + 1000)], URL_PATTERNS[j]).None?
    ensures DirectPattern(html, format) == Some(AmpSlash(w))
  {
    FindFirstAt(html, "\"" + format + "\":", fp);
    var area := html[fp..Min(|html|, fp + 1000)];
    assert DirectWindow(html, format) == Some(area);
    RawUrlRead(area, URL_PATTERNS[k], i, w);
    var tries := [DirectTry(area, URL_PATTERNS[0]), DirectTry(area, URL_PATTERNS[1]), DirectTry(area, URL_PATTERNS[2])];
    FirstSomeAt(tries, k);
  }

  /** The four strategies of `extract_download_url`, in the order they are tried. */
  function Strategies(html: string, encoding: string, parse: Parser): seq<Option<string>> {
    [FromPagedata(html, encoding, parse), FromDataBlob(html, encoding, parse),
     FromTralbumData(html, encoding, parse), DirectPattern(html, encoding)]
  }

  function NoUrlMessage(encoding: string): string {
    "Could not find download URL for format '" + encoding + "' in page"
  }

  /** The first strategy outcome that is a URL, or the parse error naming the format. */
  function FirstStrategy(s: seq<Option<string>>, encoding: string): (r: Result<string, BandcampError>)
    ensures r.Err? <==> forall k :: 0 <= k < |s| ==> s[k].None?
    ensures r.Err? ==> r.error == ParseError(NoUrlMessage(encoding))
    ensures r.Ok? ==> exists k :: 0 <= k < |s| && s[k] == Some(r.value) && forall j :: 0 <= j < k ==> s[j].None?
  {
    match FirstSome(s)
    case Some(u) => Ok(u)
    case None => Err(ParseError(NoUrlMessage(encoding)))
  }

  /**
   * `extract_download_url`: the first strategy that finds a URL decides; only when all
   * four fail is the result a parse error naming the format.
   */
  function ExtractDownloadUrl(html: string, format: AudioFormat, parse: Parser): (r: Result<string, BandcampError>)
    ensures var s := Strategies(html, BandcampEncoding(format), parse);
      && (r.Err? <==> forall k :: 0 <= k < 4 ==> s[k].None?)
      && (r.Err? ==> r.error == ParseError(NoUrlMessage(BandcampEncoding(format))))
      && (r.Ok? ==> exists k :: 0 <= k < 4 && s[k] == Some(r.value) && forall j :: 0 <= j < k ==> s[j].None?)
  {
    var enc := BandcampEncoding(format);
    var s := Strategies(html, enc, parse);
    assert |s| == 4;
    FirstStrategy(s, enc)
  }

  // ---------------------------------------------------------------- fan ids

  const FAN_ID_KEY: string := "\"fan_id\":"

  /** The index of the first character that is not an ASCII digit. */
  function FirstNonDigit(s: string): (r: Option<nat>)
    ensures r.Some? ==> r.value < |s| && !IsDigit(s[r.value]) && AllDigits(s[..r.value])
    ensures r.None? ==> AllDigits(s)
  {
    if s == [] then None
    else if !IsDigit(s[0]) then Some(0)
    else match FirstNonDigit(s[1..])
      case Some(k) =>
        assert s[..k + 1] == [s[0]] + s[1..][..k];
        Some(k + 1)
      case None =>
        assert s == [s[0]] + s[1..];
        None
  }

  /**
   * `extract_fan_id_from_json` (and the same scan inside `extract_fan_id`): the digits after
   * the first `"fan_id":`. The end of the digit run defaults to its start when only digits
   * follow, so a number that runs to the end of the text is not taken.
   */
  function FanIdAfter(text: string): Option<u64> {
    match Find(text, FAN_ID_KEY)
    case None => None
    case Some(pos) => LeadingNumber(text[pos + 9..])
  }

  /**
   * The number a digit run at the start of `rest` spells, when a non-digit ends the run
   * (the end defaults to the start otherwise).
   */
  function LeadingNumber(rest: string): Option<u64> {
    var end := match FirstNonDigit(rest) case Some(p) => p case None => 0;
    if end > 0 then ParseU64(rest[..end]) else None
  }

  /** The key is found right after a prefix without quotes. */
  lemma FindKeyAfter(x: string, rest: string)
    requires '"' !in x
    ensures Find(x + FAN_ID_KEY + rest, FAN_ID_KEY) == Some(|x|)
    ensures (x + FAN_ID_KEY + rest)[|x| + 9..] == rest
  {
    assert x + FAN_ID_KEY + rest == x + (FAN_ID_KEY + rest);
    FindAtStart(FAN_ID_KEY, rest);
    FindAfterPrefix(x, FAN_ID_KEY + rest, FAN_ID_KEY);
  }

  /** A number before a non-digit is read back exactly. */
  lemma LeadingNumberOf(n: u64, c: char, y: string)
    requires !IsDigit(c)
    ensures LeadingNumber(Decimal(n) + [c] + y) == Some(n)
  {
    var d := Decimal(n);
    var rest := d + [c] + y;
    assert rest[..|d|] == d && rest[|d|] == c;
    FirstNonDigitAt(rest, |d|);
    ParseDecimal(n);
  }

  /** A number after the key and before a non-digit is read back exactly. */
  lemma FanIdFound(x: string, n: u64, c: char, y: string)
    requires '"' !in x && !IsDigit(c)
    ensures FanIdAfter(x + FAN_ID_KEY + Decimal(n) + [c] + y) == Some(n)
  {
    var rest := Decimal(n) + [c] + y;
    AppendRest(x + FAN_ID_KEY, Decimal(n), [c], y);
    FanIdAfterKey(x, rest);
    LeadingNumberOf(n, c, y);
  }

  /** After a quote-free prefix, the key is found and the number is read from what follows it. */
  lemma FanIdAfterKey(x: string, rest: string)
    requires '"' !in x
    ensures FanIdAfter(x + FAN_ID_KEY + rest) == LeadingNumber(rest)
  {
    FindKeyAfter(x, rest);
  }

  /** Appending three pieces one by one is appending their concatenation. */
  lemma AppendRest(a: string, b: string, c: string, d: string)
    ensures a + b + c + d == a + (b + c + d)
  {
  }

  lemma FirstNonDigitAt(s: string, k: nat)
    requires k < |s| && AllDigits(s[..k]) && !IsDigit(s[k])
    ensures FirstNonDigit(s) == Some(k)
  {
    if k > 0 {
      assert s[1..][..k - 1] == s[..k][1..];
      assert s[1..][k - 1] == s[k];
      assert IsDigit(s[..k][0]);
      FirstNonDigitAt(s[1..], k - 1);
    }
  }

  /** A number that runs to the very end of the text is not recognised. */
  lemma FanIdAtEndIgnored(x: string, n: u64)
    requires '"' !in x
    ensures FanIdAfter(x + FAN_ID_KEY + Decimal(n)) == None
  {
    FindKeyAfter(x, Decimal(n));
  }

  /** `PageData`'s `fan_data.fan_id` as an unsigned 64-bit number. */
  function PageDataFanId(v: Option<Json>): Option<u64> {
    match Field(Field(v, "fan_data"), "fan_id")
    case Some(Int(n)) => if 0 <= n < U64_LIMIT then Some(n as u64) else None
    case _ => None
  }

  const NO_FAN_ID: BandcampError := ParseError("Could not find fan_id in page")

  /** The `data-blob` contents `extract_fan_id` looks at: the first double-quoted blob, else the first single-quoted one. */
  function FanIdBlob(html: string): Option<string> {
    var dq := Find(html, "data-blob=\"");
    var at := if dq.Some? then dq else Find(html, "data-blob='");
    match at
    case None => None
    case Some(p) =>
      var quote := if StartsWith(html[p..], "data-blob=\"") then '"' else '\'';
      var start := p + 11;
      match Find(html[start..], [quote])
      case None => None
      case Some(e) => Some(html[start..start + e])
  }

  /**
   * `extract_fan_id`: the number after `"fan_id":` in the page; else, in the unescaped data
   * blob, the `PageData` value and then the same textual scan; else a parse error.
   */
  function ExtractFanId(html: string, parse: Parser): (r: Result<u64, BandcampError>)
    ensures FanIdAfter(html).Some? ==> r == Ok(FanIdAfter(html).value)
    ensures r.Err? ==> r.error == NO_FAN_ID
    ensures r.Err? <==>
      (FanIdAfter(html).None? && (FanIdBlob(html).None? ||
        (PageDataFanId(parse(UnescapeFanIdBlob(FanIdBlob(html).value))).None?
         && FanIdAfter(UnescapeFanIdBlob(FanIdBlob(html).value)).None?)))
  {
    match FanIdAfter(html)
    case Some(n) => Ok(n)
    case None =>
      match FanIdBlob(html)
      case None => Err(NO_FAN_ID)
      case Some(blob) =>
        var u := UnescapeFanIdBlob(blob);
        match PageDataFanId(parse(u))
        case Some(n) => Ok(n)
        case None =>
          match FanIdAfter(u)
          case Some(n) => Ok(n)
          case None => Err(NO_FAN_ID)
  }
}
