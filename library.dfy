/** Library items, the audio formats and the download name template. */
module Library {
  import opened Wrappers
  import opened Strings

  datatype ItemType = Album | Track | Package

  datatype AudioFormat = Flac | Mp3V0 | Mp3320 | Aac | OggVorbis | Alac | Wav | Aiff

  /** A point in time; the clock it comes from is outside the model. */
  type Timestamp = int

  datatype LibraryItem = LibraryItem(
    id: string,
    item_type: ItemType,
    title: string,
    artist: string,
    artist_id: string,
    artist_subdomain: Option<string>,
    slug: Option<string>,
    item_url: Option<string>,
    purchase_date: Timestamp,
    artwork_url: Option<string>,
    download_url: string,
    available_formats: seq<AudioFormat>,
    is_preorder: bool,
    is_hidden: bool)

  /** File extension written for a single track. */
  function Extension(f: AudioFormat): string {
    match f
    case Flac => "flac"
    case Mp3V0 => "mp3"
    case Mp3320 => "mp3"
    case Aac => "m4a"
    case OggVorbis => "ogg"
    case Alac => "m4a"
    case Wav => "wav"
    case Aiff => "aiff"
  }

  /** The key the download pages use for a format. */
  function BandcampEncoding(f: AudioFormat): string {
    match f
    case Flac => "flac"
    case Mp3V0 => "mp3-v0"
    case Mp3320 => "mp3-320"
    case Aac => "aac-hi"
    case OggVorbis => "vorbis"
    case Alac => "alac"
    case Wav => "wav"
    case Aiff => "aiff-lossless"
  }

  /** Each format has its own encoding key. */
  lemma BandcampEncodingInjective(a: AudioFormat, b: AudioFormat)
    requires BandcampEncoding(a) == BandcampEncoding(b)
    ensures a == b
  {
    match a
    case Flac => assert BandcampEncoding(b)[0] == 'f';
    case Mp3V0 => assert BandcampEncoding(b)[..6] == "mp3-v0";
    case Mp3320 => assert BandcampEncoding(b)[..6] == "mp3-32";
    case Aac => assert BandcampEncoding(b)[0] == 'a' && |BandcampEncoding(b)| == 6;
    case OggVorbis => assert BandcampEncoding(b)[0] == 'v';
    case Alac => assert BandcampEncoding(b)[..2] == "al";
    case Wav => assert BandcampEncoding(b)[0] == 'w';
    case Aiff => assert |BandcampEncoding(b)| == 13;
  }

  /** Two formats share an extension exactly when both are MP3 or both are M4A containers. */
  lemma ExtensionCollisions(a: AudioFormat, b: AudioFormat)
    ensures Extension(a) == Extension(b) <==>
      a == b || ({a, b} == {Mp3V0, Mp3320}) || ({a, b} == {Aac, Alac})
  {
    if Extension(a) == Extension(b) {
      match a
      case Flac => assert Extension(b)[0] == 'f';
      case Mp3V0 => assert Extension(b)[..2] == "mp";
      case Mp3320 => assert Extension(b)[..2] == "mp";
      case Aac => assert Extension(b)[..2] == "m4";
      case OggVorbis => assert Extension(b)[0] == 'o';
      case Alac => assert Extension(b)[..2] == "m4";
      case Wav => assert Extension(b)[0] == 'w';
      case Aiff => assert Extension(b)[..2] == "ai";
    }
  }

  const DEFAULT_ALBUM_FORMAT: string := "{artist} - {title}"
  const DEFAULT_TRACK_FORMAT: string := "{artist} - {title}{ext}"

  /** The `{ext}` value: a dot and the extension for a track, nothing for an archive. */
  function ExtensionSuffix(t: ItemType, f: AudioFormat): (r: string)
    ensures r != [] <==> t == Track
    ensures t == Track ==> r[0] == '.' && r[1..] == Extension(f)
  {
    if t == Track then "." + Extension(f) else ""
  }

  /** The name template in force: a custom one wins, otherwise the default for the item type. */
  function NameFormat(t: ItemType, custom: Option<string>): string {
    if custom.Some? then custom.value
    else if t == Track then DEFAULT_TRACK_FORMAT
    else DEFAULT_ALBUM_FORMAT
  }

  /** Substitutes, in this order, `{artist}`, `{title}`, `{ext}` and `{id}` into the template. */
  function Substitute(template: string, artist: string, title: string, ext: string, id: string): string {
    ReplaceAll(ReplaceAll(ReplaceAll(ReplaceAll(template, "{artist}", artist), "{title}", title), "{ext}", ext), "{id}", id)
  }

  /** `LibraryItem::construct_filename`: the folder or file name an item is saved under. */
  function ConstructFilename(item: LibraryItem, f: AudioFormat, custom: Option<string>): string {
    Substitute(NameFormat(item.item_type, custom), item.artist, item.title,
               ExtensionSuffix(item.item_type, f), item.id)
  }

  /** A supplied custom template replaces the default whatever the item type. */
  lemma CustomFormatOverrides(item: LibraryItem, f: AudioFormat, custom: string)
    ensures ConstructFilename(item, f, Some(custom)) ==
      Substitute(custom, item.artist, item.title, ExtensionSuffix(item.item_type, f), item.id)
  {
  }

  /** A template holding none of the four placeholders comes back unchanged. */
  lemma PlainTemplateUnchanged(item: LibraryItem, f: AudioFormat, template: string)
    requires !Contains(template, "{artist}") && !Contains(template, "{title}")
    requires !Contains(template, "{ext}") && !Contains(template, "{id}")
    ensures ConstructFilename(item, f, Some(template)) == template
  {
    ReplaceNotFound(template, "{artist}", item.artist);
    ReplaceNotFound(template, "{title}", item.title);
    ReplaceNotFound(template, "{ext}", ExtensionSuffix(item.item_type, f));
    ReplaceNotFound(template, "{id}", item.id);
  }

  /** Text substituted early is itself subject to the later substitutions. */
  lemma SubstitutionCascades(item: LibraryItem, f: AudioFormat)
    requires item.artist == "{id}"
    ensures ConstructFilename(item, f, Some("{artist}")) == item.id
  {
    var ext := ExtensionSuffix(item.item_type, f);
    ReplaceAtStart("", "{artist}", "{id}");
    assert "{artist}" + "" == "{artist}";
    assert "{id}" + "" == "{id}";
    assert ReplaceAll("{id}", "{title}", item.title) == "{id}";
    assert ReplaceAll("{id}", "{ext}", ext) == "{id}";
    ReplaceAtStart("", "{id}", item.id);
    assert item.id + "" == item.id;
  }

  /** Replacing a placeholder that is absent from the tail of `x + p + y`, where `x` has no `{`. */
  lemma ReplaceOnce(x: string, p: string, y: string, v: string)
    requires |p| > 0 && p[0] == '{' && '{' !in x && !Contains(y, p)
    ensures ReplaceAll(x + p + y, p, v) == x + v + y
  {
    ReplaceSkipsPrefix(x, p + y, p, v);
    assert x + p + y == x + (p + y);
    ReplaceAtStart(y, p, v);
    ReplaceNotFound(y, p, v);
  }

  /** Replacing a placeholder in a string without `{`. */
  lemma ReplaceAbsent(s: string, p: string, v: string)
    requires |p| > 0 && p[0] == '{' && '{' !in s
    ensures ReplaceAll(s, p, v) == s
  {
    AbsentFirstChar(s, p);
    ReplaceNotFound(s, p, v);
  }

  lemma NoBraceConcat(a: string, b: string)
    requires '{' !in a && '{' !in b
    ensures '{' !in a + b
  {
    forall i | 0 <= i < |a + b| ensures (a + b)[i] != '{' {
      if i < |a| { assert (a + b)[i] == a[i]; } else { assert (a + b)[i] == b[i - |a|]; }
    }
  }

  /** With the default template, an album or package is named "artist - title". */
  lemma DefaultAlbumName(item: LibraryItem, f: AudioFormat)
    requires item.item_type != Track
    requires '{' !in item.artist && '{' !in item.title
    ensures ConstructFilename(item, f, None) == item.artist + " - " + item.title
  {
    var a, t := item.artist, item.title;
    var s1 := ReplaceAll(DEFAULT_ALBUM_FORMAT, "{artist}", a);
    AlbumArtistStep(a);
    var s2 := ReplaceAll(s1, "{title}", t);
    AlbumTitleStep(a, t);
    var s3 := ReplaceAll(s2, "{ext}", "");
    ReplaceAbsent(s2, "{ext}", "");
    ReplaceAbsent(s3, "{id}", item.id);
    assert ConstructFilename(item, f, None) == ReplaceAll(s3, "{id}", item.id);
  }

  lemma AlbumTitleStep(a: string, t: string)
    requires '{' !in a && '{' !in t
    ensures ReplaceAll(a + " - {title}", "{title}", t) == a + " - " + t
    ensures '{' !in a + " - " + t
  {
    NoBraceConcat(a, " - ");
    assert a + " - {title}" == (a + " - ") + "{title}" + "";
    ReplaceOnce(a + " - ", "{title}", "", t);
    assert a + " - " + t + "" == a + " - " + t;
    NoBraceConcat(a + " - ", t);
  }

  lemma AlbumTailLacksArtist()
    ensures !Contains(" - {title}", "{artist}")
  {
    var y, p := " - {title}", "{artist}";
    forall j: nat ensures !At(y, p, j) {
      if j + 8 <= |y| {
        assert y[j..j + 8][0] == y[j] && y[j] != '{';
      }
    }
  }

  lemma AlbumArtistStep(a: string)
    ensures ReplaceAll(DEFAULT_ALBUM_FORMAT, "{artist}", a) == a + " - {title}"
  {
    var x, y := "{artist}", " - {title}";
    assert x + y == DEFAULT_ALBUM_FORMAT;
    AlbumTailLacksArtist();
    LeadingPlaceholder(x, y, a);
  }

  lemma TrackTailLacksArtist()
    ensures !Contains(" - {title}{ext}", "{artist}")
  {
    var y, p := " - {title}{ext}", "{artist}";
    assert y[0] == ' ' && y[1] == '-' && y[2] == ' ' && y[4] == 't' && y[5] == 'i' && y[6] == 't' && y[7] == 'l';
    forall j: nat ensures !At(y, p, j) {
      if j + 8 <= |y| {
        assert p[1] == 'a' && p[0] == '{';
        assert y[j..j + 8][1] == y[j + 1];
        assert y[j..j + 8][0] == y[j];
        if j == 3 { assert y[j + 1] == 't'; } else { assert y[j] != '{'; }
      }
    }
  }

  lemma LeadingPlaceholder(p: string, y: string, v: string)
    requires |p| > 0 && !Contains(y, p)
    ensures ReplaceAll(p + y, p, v) == v + y
  {
    ReplaceAtStart(y, p, v);
    ReplaceNotFound(y, p, v);
  }

  lemma TrackArtistStep(a: string)
    ensures ReplaceAll(DEFAULT_TRACK_FORMAT, "{artist}", a) == a + " - {title}{ext}"
  {
    var x, y := "{artist}", " - {title}{ext}";
    assert x + y == DEFAULT_TRACK_FORMAT;
    TrackTailLacksArtist();
    LeadingPlaceholder(x, y, a);
  }

  lemma TrackTitleStep(a: string, t: string)
    requires '{' !in a
    ensures ReplaceAll(a + " - {title}{ext}", "{title}", t) == a + " - " + t + "{ext}"
  {
    assert a + " - {title}{ext}" == (a + " - ") + "{title}" + "{ext}";
    NoBraceConcat(a, " - ");
    assert !Contains("{ext}", "{title}");
    ReplaceOnce(a + " - ", "{title}", "{ext}", t);
  }

  lemma TrackExtStep(a: string, t: string, e: string)
    requires '{' !in a && '{' !in t
    ensures ReplaceAll(a + " - " + t + "{ext}", "{ext}", e) == a + " - " + t + e
  {
    NoBraceConcat(a, " - ");
    NoBraceConcat(a + " - ", t);
    assert a + " - " + t + "{ext}" == (a + " - " + t) + "{ext}" + "";
    ReplaceOnce(a + " - " + t, "{ext}", "", e);
    assert a + " - " + t + e + "" == a + " - " + t + e;
  }

  /** With the default template, a track is named "artist - title.ext". */
  lemma DefaultTrackName(item: LibraryItem, f: AudioFormat)
    requires item.item_type == Track
    requires '{' !in item.artist && '{' !in item.title
    ensures ConstructFilename(item, f, None) == item.artist + " - " + item.title + "." + Extension(f)
  {
    var a, t, e := item.artist, item.title, ExtensionSuffix(Track, f);
    var s1 := ReplaceAll(DEFAULT_TRACK_FORMAT, "{artist}", a);
    TrackArtistStep(a);
    var s2 := ReplaceAll(s1, "{title}", t);
    TrackTitleStep(a, t);
    var s3 := ReplaceAll(s2, "{ext}", e);
    TrackExtStep(a, t, e);
    SuffixLacksBrace(f);
    NoBraceConcat(a, " - ");
    NoBraceConcat(a + " - ", t);
    NoBraceConcat(a + " - " + t, e);
    ReplaceAbsent(s3, "{id}", item.id);
    assert ConstructFilename(item, f, None) == ReplaceAll(s3, "{id}", item.id);
  }

  lemma SuffixLacksBrace(f: AudioFormat)
    ensures '{' !in ExtensionSuffix(Track, f) && ExtensionSuffix(Track, f) == "." + Extension(f)
  {
  }
}
