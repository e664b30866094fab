/**
 * Downloading one library item: resolve its URL, fetch the file in chunks into a hidden
 * temporary file, then rename it (a track) or unpack it (an album or package). The
 * reporter's calls and the filesystem steps are recorded, in order, as one event trace.
 */
module Download {
  import opened Wrappers
  import opened Strings
  import opened Errors
  import opened Http
  import opened Library
  import Json
  import Client
  import Auth

  // ---------------------------------------------------------------- summary

  /** `DownloadSummary`: each item with where it went, or with why it failed. */
  datatype DownloadSummary = DownloadSummary(succeeded: seq<(LibraryItem, string)>, failed: seq<(LibraryItem, string)>)
  {
    function SuccessCount(): nat {
      |succeeded|
    }

    function FailureCount(): nat {
      |failed|
    }

    function Total(): nat {
      |succeeded| + |failed|
    }
  }

  /** `DownloadSummary::default`. */
  const EMPTY_SUMMARY: DownloadSummary := DownloadSummary([], [])

  /**
   * The total is the successes plus the failures (the first clause only documents `Total`),
   * and a summary totals 0 exactly when it is the default one.
   */
  lemma SummaryCounts(s: DownloadSummary)
    ensures s.Total() == s.SuccessCount() + s.FailureCount()
    ensures s.Total() == 0 <==> s == EMPTY_SUMMARY
  {
  }

  // ---------------------------------------------------------------- paths

  /**
   * `Path::join` on `/`-separated paths: an absolute name replaces the base; otherwise the
   * name is appended after one separator.
   */
  function Join(dir: string, name: string): string {
    if StartsWith(name, "/") then name
    else if dir == [] || EndsWith(dir, "/") then dir + name
    else dir + "/" + name
  }

  /** The hidden file a download is written to before it is moved or unpacked. */
  function TempPath(dir: string, id: string): string {
    Join(dir, "." + id + ".tmp")
  }

  /** Items with distinct ids never share a temporary file. */
  lemma TempPathInjective(dir: string, a: string, b: string)
    requires TempPath(dir, a) == TempPath(dir, b)
    ensures a == b
  {
    var na, nb := "." + a + ".tmp", "." + b + ".tmp";
    assert !StartsWith(na, "/") && !StartsWith(nb, "/") by {
      assert na[0] == '.' && nb[0] == '.';
    }
    var base := if dir == [] || EndsWith(dir, "/") then dir else dir + "/";
    assert TempPath(dir, a) == base + na && TempPath(dir, b) == base + nb;
    assert na == (base + na)[|base|..];
    assert nb == (base + nb)[|base|..];
    assert a == na[1..|na| - 4];
    assert b == nb[1..|nb| - 4];
  }

  // ---------------------------------------------------------------- events

  /** A reporter call or a filesystem step, in the order they happen. */
  datatype Event =
    | FetchingUrl
    | Started(total: Option<nat>)
    | Progress(downloaded: nat, total: Option<nat>)
    | Extracting
    | Completed
    | Failed(message: string)
    | CreateDir(path: string)
    | CreateFile(path: string)
    | Write(path: string, size: nat)
    | Flush(path: string)
    | Rename(from: string, to: string)
    | Unzip(archive: string, into: string)
    | Remove(path: string)

  /** A piece of the response body, or the transport error met instead of it. */
  datatype Chunk = Bytes(size: nat) | Broken(message: string)

  /** The reply to the file request: its status, reason phrase, announced length and body. */
  datatype AssetReply =
    | AssetTransportError
    | Asset(status: nat, reason: Option<string>, contentLength: Option<nat>, chunks: seq<Chunk>)

  /**
   * The filesystem: `fault(step)` is the error message a step fails with, if it fails;
   * `unzip` is what unpacking the archive yields (an invalid or unreadable archive is an error).
   */
  datatype FileSystem = FileSystem(fault: Event -> Option<string>, unzip: Option<BandcampError>)

  /** The path written to, or the error, and the events in order. */
  datatype Outcome = Outcome(result: Result<string, BandcampError>, events: seq<Event>)

  /** The transfer loop's end: the error that stopped it, if any, its events and the byte count. */
  datatype Transferred = Transferred(error: Option<BandcampError>, events: seq<Event>, downloaded: nat)

  /** The transfer from chunk `i` on, `downloaded` bytes having been written already. */
  function Transfer(temp: string, chunks: seq<Chunk>, i: nat, downloaded: nat, total: Option<nat>, fs: FileSystem): Transferred
    requires i <= |chunks|
    decreases |chunks| - i
  {
    if i == |chunks| then Transferred(None, [], downloaded)
    else match chunks[i]
      case Broken(m) => Transferred(Some(DownloadError(m)), [], downloaded)
      case Bytes(n) =>
        var w := Write(temp, n);
        if fs.fault(w).Some? then Transferred(Some(IoError(fs.fault(w).value)), [w], downloaded)
        else
          var rest := Transfer(temp, chunks, i + 1, downloaded + n, total, fs);
          Transferred(rest.error, [w, Progress(downloaded + n, total)] + rest.events, rest.downloaded)
  }

  function HttpErrorMessage(status: nat, reason: Option<string>): string {
    "HTTP " + StatusDisplay(status, reason) + ": " + reason.GetOr("Unknown")
  }

  /** Runs a filesystem step: on failure the trace ends with it and the result is an I/O error. */
  function Step(events: seq<Event>, e: Event, fs: FileSystem, next: Outcome): Outcome {
    if fs.fault(e).Some? then Outcome(Err(IoError(fs.fault(e).value)), events + [e])
    else next
  }

  /** What happens once the file is complete: move a track, unpack anything else. */
  function Finish(events: seq<Event>, item: LibraryItem, dir: string, filename: string, temp: string, fs: FileSystem): Outcome {
    var target := Join(dir, filename);
    if item.item_type == Track then
      var mv := Rename(temp, target);
      Step(events, mv, fs, Outcome(Ok(target), events + [mv] + [Completed]))
    else
      var mk := CreateDir(target);
      var un := Unzip(temp, target);
      var rm := Remove(temp);
      var before := events + [Extracting];
      Step(before, mk, fs,
        var unpacked := before + [mk] + [un];
        if fs.unzip.Some? then Outcome(Err(fs.unzip.value), unpacked)
        else Step(unpacked, rm, fs, Outcome(Ok(target), unpacked + [rm] + [Completed])))
  }

  /**
   * `download_item`. `resolved` is what resolving the download URL gave; the file name
   * template is `nameFormat`, and `sanitize` is the file-name cleaner the name goes through.
   */
  function DownloadFlow(item: LibraryItem, dir: string, format: AudioFormat, nameFormat: Option<string>,
                        sanitize: string -> string, resolved: Result<string, BandcampError>,
                        asset: AssetReply, fs: FileSystem): Outcome
  {
    var pre := [FetchingUrl];
    if resolved.Err? then Outcome(Err(resolved.error), pre)
    else if asset.AssetTransportError? then Outcome(Err(NetworkError(Transport)), pre)
    else if !IsSuccess(asset.status) then
      var msg := HttpErrorMessage(asset.status, asset.reason);
      Outcome(Err(DownloadError(msg)), pre + [Failed(msg)])
    else
      var started := pre + [Started(asset.contentLength)];
      var temp := TempPath(dir, item.id);
      Step(started, CreateDir(dir), fs,
        Step(started + [CreateDir(dir)], CreateFile(temp), fs,
          var created := started + [CreateDir(dir)] + [CreateFile(temp)];
          var t := Transfer(temp, asset.chunks, 0, 0, asset.contentLength, fs);
          if t.error.Some? then Outcome(Err(t.error.value), created + t.events)
          else
            var written := created + t.events;
            Step(written, Flush(temp), fs,
              Finish(written + [Flush(temp)], item, dir, sanitize(ConstructFilename(item, format, nameFormat)), temp, fs))))
  }

  // ---------------------------------------------------------------- properties

  /** Fetching the URL is always reported first. */
  lemma FetchingComesFirst(item: LibraryItem, dir: string, format: AudioFormat, nameFormat: Option<string>,
                           sanitize: string -> string, resolved: Result<string, BandcampError>,
                           asset: AssetReply, fs: FileSystem)
    ensures var o := DownloadFlow(item, dir, format, nameFormat, sanitize, resolved, asset, fs);
      |o.events| > 0 && o.events[0] == FetchingUrl
  {
    if resolved.Ok? && asset.Asset? && IsSuccess(asset.status) {
      var temp := TempPath(dir, item.id);
      var t := Transfer(temp, asset.chunks, 0, 0, asset.contentLength, fs);
      var written := [FetchingUrl, Started(asset.contentLength), CreateDir(dir), CreateFile(temp)] + t.events;
      if fs.fault(CreateDir(dir)).None? && fs.fault(CreateFile(temp)).None? && t.error.None? && fs.fault(Flush(temp)).None? {
        FinishExtends(written + [Flush(temp)], item, dir, sanitize(ConstructFilename(item, format, nameFormat)), temp, fs);
      }
    }
  }

  /** Placing the output only appends to the events so far. */
  lemma FinishExtends(events: seq<Event>, item: LibraryItem, dir: string, filename: string, temp: string, fs: FileSystem)
    ensures var o := Finish(events, item, dir, filename, temp, fs);
      |events| <= |o.events| && o.events[..|events|] == events
  {
  }

  /** A failed resolution is passed on as it is, with nothing reported after fetching began. */
  lemma ResolveErrorPropagates(item: LibraryItem, dir: string, format: AudioFormat, nameFormat: Option<string>,
                               sanitize: string -> string, e: BandcampError, asset: AssetReply, fs: FileSystem)
    ensures DownloadFlow(item, dir, format, nameFormat, sanitize, Err(e), asset, fs) == Outcome(Err(e), [FetchingUrl])
  {
  }

  /** An error status is reported and returned before the download starts or any file exists. */
  lemma HttpErrorBeforeStart(item: LibraryItem, dir: string, format: AudioFormat, nameFormat: Option<string>,
                             sanitize: string -> string, url: string, status: nat, reason: Option<string>,
                             length: Option<nat>, chunks: seq<Chunk>, fs: FileSystem)
    requires !IsSuccess(status)
    ensures var msg := "HTTP " + StatusDisplay(status, reason) + ": " + reason.GetOr("Unknown");
      DownloadFlow(item, dir, format, nameFormat, sanitize, Ok(url), Asset(status, reason, length, chunks), fs)
        == Outcome(Err(DownloadError(msg)), [FetchingUrl, Failed(msg)])
  {
  }

  /** Bytes a chunk carries (a broken chunk carries none). */
  function Size(c: Chunk): nat {
    if c.Bytes? then c.size else 0
  }

  /** Sum of the chunk sizes from `i` on. */
  function SizeFrom(chunks: seq<Chunk>, i: nat): nat
    requires i <= |chunks|
    decreases |chunks| - i
  {
    if i == |chunks| then 0 else Size(chunks[i]) + SizeFrom(chunks, i + 1)
  }

  /** Running sums, starting after `d`, of the chunk sizes from `i` on. */
  function RunningSums(chunks: seq<Chunk>, i: nat, d: nat): seq<nat>
    requires i <= |chunks|
    decreases |chunks| - i
  {
    if i == |chunks| then [] else [d + Size(chunks[i])] + RunningSums(chunks, i + 1, d + Size(chunks[i]))
  }

  /** The `downloaded` values reported, in order. */
  function ProgressValues(events: seq<Event>): seq<nat>
    decreases |events|
  {
    if events == [] then []
    else (if events[0].Progress? then [events[0].downloaded] else []) + ProgressValues(events[1..])
  }

  /** The bytes handed to the file, over all writes. */
  function Written(events: seq<Event>): nat
    decreases |events|
  {
    if events == [] then 0
    else (if events[0].Write? then events[0].size else 0) + Written(events[1..])
  }

  lemma {:induction false} TraceAppend(a: seq<Event>, b: seq<Event>)
    ensures ProgressValues(a + b) == ProgressValues(a) + ProgressValues(b)
    ensures Written(a + b) == Written(a) + Written(b)
    decreases |a|
  {
    if a == [] {
      assert a + b == b;
    } else {
      var ab := a + b;
      assert ab[0] == a[0] && ab[1..] == a[1..] + b;
      TraceAppend(a[1..], b);
      assert ProgressValues(ab) == (if a[0].Progress? then [a[0].downloaded] else []) + ProgressValues(a[1..] + b);
    }
  }

  /**
   * A transfer that meets no error has every chunk whole, reports once per chunk the running
   * byte count, and writes, and counts, every byte.
   */
  lemma {:induction false} TransferReportsRunningSums(temp: string, chunks: seq<Chunk>, i: nat, d: nat, total: Option<nat>, fs: FileSystem)
    requires i <= |chunks|
    ensures var t := Transfer(temp, chunks, i, d, total, fs);
      t.error.None? ==>
        && (forall j :: i <= j < |chunks| ==> chunks[j].Bytes?)
        && ProgressValues(t.events) == RunningSums(chunks, i, d)
        && Written(t.events) == SizeFrom(chunks, i)
        && t.downloaded == d + SizeFrom(chunks, i)
    decreases |chunks| - i
  {
    if i < |chunks| && chunks[i].Bytes? && fs.fault(Write(temp, chunks[i].size)).None? {
      TransferReportsRunningSums(temp, chunks, i + 1, d + chunks[i].size, total, fs);
      RunningSumsStep(temp, chunks, i, d, total, fs);
    }
  }

  /** A whole chunk written without fault puts its write and its running count in front of the rest. */
  lemma RunningSumsStep(temp: string, chunks: seq<Chunk>, i: nat, d: nat, total: Option<nat>, fs: FileSystem)
    requires i < |chunks| && chunks[i].Bytes? && fs.fault(Write(temp, chunks[i].size)).None?
    requires var n := chunks[i].size;
      var rest := Transfer(temp, chunks, i + 1, d + n, total, fs);
      rest.error.None? ==>
        && (forall j :: i + 1 <= j < |chunks| ==> chunks[j].Bytes?)
        && ProgressValues(rest.events) == RunningSums(chunks, i + 1, d + n)
        && Written(rest.events) == SizeFrom(chunks, i + 1)
        && rest.downloaded == d + n + SizeFrom(chunks, i + 1)
    ensures var t := Transfer(temp, chunks, i, d, total, fs);
      t.error.None? ==>
        && (forall j :: i <= j < |chunks| ==> chunks[j].Bytes?)
        && ProgressValues(t.events) == RunningSums(chunks, i, d)
        && Written(t.events) == SizeFrom(chunks, i)
        && t.downloaded == d + SizeFrom(chunks, i)
  {
    var n := chunks[i].size;
    var w := Write(temp, n);
    TransferStep(temp, chunks, i, d, total, fs);
    var rest := Transfer(temp, chunks, i + 1, d + n, total, fs);
    ChunkTrace(w, Progress(d + n, total));
    TraceAppend([w, Progress(d + n, total)], rest.events);
  }

  /** The trace of one chunk: its write and its progress report. */
  lemma ChunkTrace(w: Event, p: Event)
    requires w.Write? && p.Progress?
    ensures ProgressValues([w, p]) == [p.downloaded] && Written([w, p]) == w.size
  {
    assert [w, p][1..] == [p] && [p][1..] == [];
    assert ProgressValues([p]) == [p.downloaded] + ProgressValues([]);
    assert Written([p]) == 0 + Written([]);
  }

  /** The values reported never decrease, and the last is every byte of the body. */
  lemma {:induction false} RunningSumsAscend(chunks: seq<Chunk>, i: nat, d: nat)
    requires i <= |chunks|
    ensures var r := RunningSums(chunks, i, d);
      && |r| == |chunks| - i
      && (forall a, b :: 0 <= a <= b < |r| ==> d <= r[a] <= r[b])
      && (|r| > 0 ==> r[|r| - 1] == d + SizeFrom(chunks, i))
    decreases |chunks| - i
  {
    if i < |chunks| {
      var n := Size(chunks[i]);
      RunningSumsAscend(chunks, i + 1, d + n);
      var r := RunningSums(chunks, i, d);
      var rest := RunningSums(chunks, i + 1, d + n);
      assert r == [d + n] + rest;
      forall a, b | 0 <= a <= b < |r| ensures d <= r[a] <= r[b] {
        if a > 0 { assert r[a] == rest[a - 1] && r[b] == rest[b - 1]; }
        else if b > 0 { assert r[b] == rest[b - 1]; }
      }
    }
  }

  /** Completion is reported last, and exactly when the download succeeds. */
  lemma CompletedLastOnSuccess(item: LibraryItem, dir: string, format: AudioFormat, nameFormat: Option<string>,
                               sanitize: string -> string, resolved: Result<string, BandcampError>,
                               asset: AssetReply, fs: FileSystem)
    ensures var o := DownloadFlow(item, dir, format, nameFormat, sanitize, resolved, asset, fs);
      o.result.Ok? <==> o.events[|o.events| - 1] == Completed
  {
    FetchingComesFirst(item, dir, format, nameFormat, sanitize, resolved, asset, fs);
    if resolved.Ok? && asset.Asset? && IsSuccess(asset.status) {
      var temp := TempPath(dir, item.id);
      var started := [FetchingUrl] + [Started(asset.contentLength)];
      var created := started + [CreateDir(dir)] + [CreateFile(temp)];
      var t := Transfer(temp, asset.chunks, 0, 0, asset.contentLength, fs);
      var written := created + t.events;
      var filename := sanitize(ConstructFilename(item, format, nameFormat));
      var fin := Finish(written + [Flush(temp)], item, dir, filename, temp, fs);
      FinishCompletesIffOk(written + [Flush(temp)], item, dir, filename, temp, fs);
      StepCompletesIffOk(written, Flush(temp), fs, fin);
      var afterCreate := if t.error.Some? then Outcome(Err(t.error.value), written)
        else Step(written, Flush(temp), fs, fin);
      if t.error.Some? {
        TransferNeverCompletes(temp, asset.chunks, 0, 0, asset.contentLength, fs);
        assert written[|written| - 1] in t.events || written[|written| - 1] == CreateFile(temp);
      }
      assert CompletesIffOk(afterCreate);
      StepCompletesIffOk(started + [CreateDir(dir)], CreateFile(temp), fs, afterCreate);
      StepCompletesIffOk(started, CreateDir(dir), fs,
        Step(started + [CreateDir(dir)], CreateFile(temp), fs, afterCreate));
    }
  }

  /** An outcome whose trace ends with Completed exactly when it is a success. */
  ghost predicate CompletesIffOk(o: Outcome) {
    |o.events| > 0 && (o.result.Ok? <==> o.events[|o.events| - 1] == Completed)
  }

  lemma StepCompletesIffOk(events: seq<Event>, e: Event, fs: FileSystem, next: Outcome)
    requires e != Completed && CompletesIffOk(next)
    ensures CompletesIffOk(Step(events, e, fs, next))
  {
  }

  lemma FinishCompletesIffOk(events: seq<Event>, item: LibraryItem, dir: string, filename: string, temp: string, fs: FileSystem)
    ensures CompletesIffOk(Finish(events, item, dir, filename, temp, fs))
  {
    var target := Join(dir, filename);
    if item.item_type != Track {
      var before := events + [Extracting];
      var unpacked := before + [CreateDir(target)] + [Unzip(temp, target)];
      var tail := if fs.unzip.Some? then Outcome(Err(fs.unzip.value), unpacked)
        else Step(unpacked, Remove(temp), fs, Outcome(Ok(target), unpacked + [Remove(temp)] + [Completed]));
      assert CompletesIffOk(tail);
      StepCompletesIffOk(before, CreateDir(target), fs, tail);
    }
  }

  lemma {:induction false} TransferNeverCompletes(temp: string, chunks: seq<Chunk>, i: nat, d: nat, total: Option<nat>, fs: FileSystem)
    requires i <= |chunks|
    ensures forall e :: e in Transfer(temp, chunks, i, d, total, fs).events ==> e.Write? || e.Progress?
    decreases |chunks| - i
  {
    if i < |chunks| && chunks[i].Bytes? {
      TransferNeverCompletes(temp, chunks, i + 1, d + chunks[i].size, total, fs);
    }
  }

  /** A successful finish ends with the move, or with unpacking and removing the archive. */
  lemma FinishOutput(events: seq<Event>, item: LibraryItem, dir: string, filename: string, temp: string, fs: FileSystem)
    requires Finish(events, item, dir, filename, temp, fs).result.Ok?
    ensures var o := Finish(events, item, dir, filename, temp, fs);
      var target := Join(dir, filename);
      && o.result.value == target
      && (item.item_type == Track ==> o.events == events + [Rename(temp, target), Completed])
      && (item.item_type != Track ==>
            o.events == events + [Extracting, CreateDir(target), Unzip(temp, target), Remove(temp), Completed])
  {
    var target := Join(dir, filename);
    if item.item_type == Track {
      assert events + [Rename(temp, target)] + [Completed] == events + [Rename(temp, target), Completed];
    } else {
      assert events + [Extracting] + [CreateDir(target)] + [Unzip(temp, target)] + [Remove(temp)] + [Completed]
        == events + [Extracting, CreateDir(target), Unzip(temp, target), Remove(temp), Completed];
    }
  }

  /** The events of a successful download, up to the finishing steps. */
  function WrittenPrefix(item: LibraryItem, dir: string, asset: AssetReply, fs: FileSystem): seq<Event>
    requires asset.Asset?
  {
    var temp := TempPath(dir, item.id);
    [FetchingUrl, Started(asset.contentLength), CreateDir(dir), CreateFile(temp)]
      + Transfer(temp, asset.chunks, 0, 0, asset.contentLength, fs).events + [Flush(temp)]
  }

  /** A successful download is the transfer followed by a successful finish. */
  lemma SuccessIsFinish(item: LibraryItem, dir: string, format: AudioFormat, nameFormat: Option<string>,
                        sanitize: string -> string, resolved: Result<string, BandcampError>,
                        asset: AssetReply, fs: FileSystem)
    requires DownloadFlow(item, dir, format, nameFormat, sanitize, resolved, asset, fs).result.Ok?
    ensures asset.Asset? && IsSuccess(asset.status)
    ensures Transfer(TempPath(dir, item.id), asset.chunks, 0, 0, asset.contentLength, fs).error.None?
    ensures DownloadFlow(item, dir, format, nameFormat, sanitize, resolved, asset, fs)
      == Finish(WrittenPrefix(item, dir, asset, fs), item, dir, sanitize(ConstructFilename(item, format, nameFormat)),
                TempPath(dir, item.id), fs)
  {
    var temp := TempPath(dir, item.id);
    var t := Transfer(temp, asset.chunks, 0, 0, asset.contentLength, fs);
    assert [FetchingUrl] + [Started(asset.contentLength)] + [CreateDir(dir)] + [CreateFile(temp)]
      == [FetchingUrl, Started(asset.contentLength), CreateDir(dir), CreateFile(temp)];
    assert [FetchingUrl] + [Started(asset.contentLength)] + [CreateDir(dir), CreateFile(temp)]
      == [FetchingUrl, Started(asset.contentLength), CreateDir(dir), CreateFile(temp)];
  }

  /**
   * A successful download of a track renames the temporary file to the item's name and never
   * reports extracting; anything else is unpacked into a folder of that name and the temporary
   * file removed.
   */
  lemma SuccessfulOutput(item: LibraryItem, dir: string, format: AudioFormat, nameFormat: Option<string>,
                         sanitize: string -> string, resolved: Result<string, BandcampError>,
                         asset: AssetReply, fs: FileSystem)
    requires DownloadFlow(item, dir, format, nameFormat, sanitize, resolved, asset, fs).result.Ok?
    ensures var o := DownloadFlow(item, dir, format, nameFormat, sanitize, resolved, asset, fs);
      var target := Join(dir, sanitize(ConstructFilename(item, format, nameFormat)));
      var temp := TempPath(dir, item.id);
      && o.result.value == target
      && (item.item_type == Track ==>
            Extracting !in o.events && o.events[|o.events| - 2..] == [Rename(temp, target), Completed])
      && (item.item_type != Track ==>
            Extracting in o.events
            && o.events[|o.events| - 4..] == [CreateDir(target), Unzip(temp, target), Remove(temp), Completed])
  {
    var filename := sanitize(ConstructFilename(item, format, nameFormat));
    SuccessIsFinish(item, dir, format, nameFormat, sanitize, resolved, asset, fs);
    WrittenNeverExtracts(item, dir, asset, fs);
    FinishTail(WrittenPrefix(item, dir, asset, fs), item, dir, filename, TempPath(dir, item.id), fs);
  }

  /** Nothing before the finishing steps reports extracting. */
  lemma WrittenNeverExtracts(item: LibraryItem, dir: string, asset: AssetReply, fs: FileSystem)
    requires asset.Asset?
    ensures Extracting !in WrittenPrefix(item, dir, asset, fs)
  {
    TransferNeverCompletes(TempPath(dir, item.id), asset.chunks, 0, 0, asset.contentLength, fs);
  }

  /** How a successful finish after steps without Extracting ends. */
  lemma FinishTail(written: seq<Event>, item: LibraryItem, dir: string, filename: string, temp: string, fs: FileSystem)
    requires Finish(written, item, dir, filename, temp, fs).result.Ok? && Extracting !in written
    ensures var o := Finish(written, item, dir, filename, temp, fs);
      var target := Join(dir, filename);
      && o.result.value == target
      && (item.item_type == Track ==>
            Extracting !in o.events && o.events[|o.events| - 2..] == [Rename(temp, target), Completed])
      && (item.item_type != Track ==>
            Extracting in o.events
            && o.events[|o.events| - 4..] == [CreateDir(target), Unzip(temp, target), Remove(temp), Completed])
  {
    var target := Join(dir, filename);
    FinishOutput(written, item, dir, filename, temp, fs);
    var o := Finish(written, item, dir, filename, temp, fs);
    if item.item_type == Track {
      assert o.events == written + [Rename(temp, target), Completed];
      assert o.events[|o.events| - 2..] == [Rename(temp, target), Completed];
    } else {
      var tail := [Extracting, CreateDir(target), Unzip(temp, target), Remove(temp), Completed];
      assert o.events == written + tail;
      assert o.events[|written|] == Extracting;
    }
  }

  /** Steps that neither write nor report progress. */
  predicate Quiet(events: seq<Event>) {
    forall k :: 0 <= k < |events| ==> !events[k].Write? && !events[k].Progress?
  }

  lemma {:induction false} QuietTrace(events: seq<Event>)
    requires Quiet(events)
    ensures ProgressValues(events) == [] && Written(events) == 0
    decreases |events|
  {
    if events != [] {
      QuietTrace(events[1..]);
    }
  }

  lemma Regroup<T>(a: seq<T>, b: seq<T>, c: seq<T>)
    ensures a + b + c == a + (b + c)
  {
  }

  /** Quiet steps around a transfer leave its reports and its byte count as they are. */
  lemma Surrounded(head: seq<Event>, middle: seq<Event>, tail: seq<Event>)
    requires Quiet(head) && Quiet(tail)
    ensures ProgressValues(head + middle + tail) == ProgressValues(middle)
    ensures Written(head + middle + tail) == Written(middle)
  {
    QuietTrace(head);
    QuietTrace(tail);
    TraceAppend(head, middle);
    TraceAppend(head + middle, tail);
    assert [] + ProgressValues(middle) + [] == ProgressValues(middle);
  }

  /** The events of a successful download: the opening steps, the transfer, the quiet finish. */
  lemma SuccessEvents(item: LibraryItem, dir: string, format: AudioFormat, nameFormat: Option<string>,
                      sanitize: string -> string, resolved: Result<string, BandcampError>,
                      asset: AssetReply, fs: FileSystem)
    requires DownloadFlow(item, dir, format, nameFormat, sanitize, resolved, asset, fs).result.Ok?
    ensures asset.Asset?
    ensures var temp := TempPath(dir, item.id);
      var t := Transfer(temp, asset.chunks, 0, 0, asset.contentLength, fs);
      && t.error.None?
      && exists head, tail :: Quiet(head) && Quiet(tail)
           && DownloadFlow(item, dir, format, nameFormat, sanitize, resolved, asset, fs).events == head + t.events + tail
  {
    var temp := TempPath(dir, item.id);
    var filename := sanitize(ConstructFilename(item, format, nameFormat));
    SuccessIsFinish(item, dir, format, nameFormat, sanitize, resolved, asset, fs);
    var t := Transfer(temp, asset.chunks, 0, 0, asset.contentLength, fs);
    var head := [FetchingUrl, Started(asset.contentLength), CreateDir(dir), CreateFile(temp)];
    assert Quiet(head);
    var tail := QuietFinish(head, t.events, item, dir, filename, temp, fs);
  }

  /** A successful finish adds only quiet steps after the transfer. */
  lemma QuietFinish(head: seq<Event>, middle: seq<Event>, item: LibraryItem, dir: string, filename: string,
                    temp: string, fs: FileSystem) returns (tail: seq<Event>)
    requires Finish(head + middle + [Flush(temp)], item, dir, filename, temp, fs).result.Ok?
    ensures Quiet(tail)
    ensures Finish(head + middle + [Flush(temp)], item, dir, filename, temp, fs).events == head + middle + tail
  {
    var written := head + middle + [Flush(temp)];
    var target := Join(dir, filename);
    FinishOutput(written, item, dir, filename, temp, fs);
    var rest := if item.item_type == Track then [Rename(temp, target), Completed]
      else [Extracting, CreateDir(target), Unzip(temp, target), Remove(temp), Completed];
    tail := [Flush(temp)] + rest;
    Regroup(head + middle, [Flush(temp)], rest);
  }

  /**
   * A successful download reports, chunk by chunk, the running byte count; those values never
   * decrease and the last is the number of bytes written to the file.
   */
  lemma SuccessfulProgress(item: LibraryItem, dir: string, format: AudioFormat, nameFormat: Option<string>,
                           sanitize: string -> string, resolved: Result<string, BandcampError>,
                           asset: AssetReply, fs: FileSystem)
    requires DownloadFlow(item, dir, format, nameFormat, sanitize, resolved, asset, fs).result.Ok?
    ensures asset.Asset?
    ensures var o := DownloadFlow(item, dir, format, nameFormat, sanitize, resolved, asset, fs);
      var p := ProgressValues(o.events);
      && |p| == |asset.chunks|
      && (forall a, b :: 0 <= a <= b < |p| ==> p[a] <= p[b])
      && (|p| > 0 ==> p[|p| - 1] == Written(o.events))
  {
    var temp := TempPath(dir, item.id);
    SuccessEvents(item, dir, format, nameFormat, sanitize, resolved, asset, fs);
    var t := Transfer(temp, asset.chunks, 0, 0, asset.contentLength, fs);
    TransferReportsRunningSums(temp, asset.chunks, 0, 0, asset.contentLength, fs);
    RunningSumsAscend(asset.chunks, 0, 0);
    var head, tail :| Quiet(head) && Quiet(tail)
      && DownloadFlow(item, dir, format, nameFormat, sanitize, resolved, asset, fs).events == head + t.events + tail;
    Surrounded(head, t.events, tail);
  }

  // ---------------------------------------------------------------- the download

  /** One chunk of the transfer: the events and the outcome from `i` are those from `i + 1` after it. */
  lemma TransferStep(temp: string, chunks: seq<Chunk>, i: nat, d: nat, total: Option<nat>, fs: FileSystem)
    requires i < |chunks| && chunks[i].Bytes? && fs.fault(Write(temp, chunks[i].size)).None?
    ensures var n := chunks[i].size;
      var t := Transfer(temp, chunks, i, d, total, fs);
      var rest := Transfer(temp, chunks, i + 1, d + n, total, fs);
      t.error == rest.error && t.events == [Write(temp, n), Progress(d + n, total)] + rest.events
  {
  }

  /** The chunk loop of `download_item`: write each chunk, count it and report the count. */
  method WriteBody(temp: string, chunks: seq<Chunk>, total: Option<nat>, fs: FileSystem)
    returns (error: Option<BandcampError>, events: seq<Event>, downloaded: nat)
    ensures Transferred(error, events, downloaded) == Transfer(temp, chunks, 0, 0, total, fs)
  {
    ghost var whole := Transfer(temp, chunks, 0, 0, total, fs);
    events := [];
    downloaded := 0;
    var i := 0;
    while i < |chunks|
      invariant 0 <= i <= |chunks|
      invariant whole.error == Transfer(temp, chunks, i, downloaded, total, fs).error
      invariant whole.downloaded == Transfer(temp, chunks, i, downloaded, total, fs).downloaded
      invariant whole.events == events + Transfer(temp, chunks, i, downloaded, total, fs).events
      decreases |chunks| - i
    {
      match chunks[i]
      case Broken(m) =>
        assert events + [] == events;
        return Some(DownloadError(m)), events, downloaded;
      case Bytes(n) =>
        var w := Write(temp, n);
        if fs.fault(w).Some? {
          return Some(IoError(fs.fault(w).value)), events + [w], downloaded;
        }
        TransferStep(temp, chunks, i, downloaded, total, fs);
        ghost var rest := Transfer(temp, chunks, i + 1, downloaded + n, total, fs);
        Regroup(events, [w, Progress(downloaded + n, total)], rest.events);
        downloaded := downloaded + n;
        events := events + [w, Progress(downloaded, total)];
        i := i + 1;
    }
    assert events + [] == events;
    error := None;
  }

  /** Moving a track, or unpacking anything else, once the file is complete. */
  method PlaceOutput(events: seq<Event>, item: LibraryItem, dir: string, filename: string, temp: string, fs: FileSystem)
    returns (r: Result<string, BandcampError>, out: seq<Event>)
    ensures Outcome(r, out) == Finish(events, item, dir, filename, temp, fs)
  {
    var target := Join(dir, filename);
    out := events;
    if item.item_type == Track {
      var mv := Rename(temp, target);
      out := out + [mv];
      if fs.fault(mv).Some? {
        return Err(IoError(fs.fault(mv).value)), out;
      }
    } else {
      out := out + [Extracting];
      var mk := CreateDir(target);
      out := out + [mk];
      if fs.fault(mk).Some? {
        return Err(IoError(fs.fault(mk).value)), out;
      }
      out := out + [Unzip(temp, target)];
      if fs.unzip.Some? {
        return Err(fs.unzip.value), out;
      }
      var rm := Remove(temp);
      out := out + [rm];
      if fs.fault(rm).Some? {
        return Err(IoError(fs.fault(rm).value)), out;
      }
    }
    out := out + [Completed];
    r := Ok(target);
  }

  /**
   * `download_item`: the events the run produces and the path it returns, or its error, are
   * those of `DownloadFlow`.
   */
  method DownloadItem(item: LibraryItem, dir: string, format: AudioFormat, nameFormat: Option<string>,
                      sanitize: string -> string, resolved: Result<string, BandcampError>,
                      asset: AssetReply, fs: FileSystem)
    returns (r: Result<string, BandcampError>, events: seq<Event>)
    ensures Outcome(r, events) == DownloadFlow(item, dir, format, nameFormat, sanitize, resolved, asset, fs)
  {
    events := [FetchingUrl];
    if resolved.Err? {
      return Err(resolved.error), events;
    }
    if asset.AssetTransportError? {
      return Err(NetworkError(Transport)), events;
    }
    if !IsSuccess(asset.status) {
      var msg := "HTTP " + StatusDisplay(asset.status, asset.reason) + ": " + asset.reason.GetOr("Unknown");
      events := events + [Failed(msg)];
      return Err(DownloadError(msg)), events;
    }
    var total := asset.contentLength;
    events := events + [Started(total)];
    var temp := TempPath(dir, item.id);
    events := events + [CreateDir(dir)];
    if fs.fault(CreateDir(dir)).Some? {
      return Err(IoError(fs.fault(CreateDir(dir)).value)), events;
    }
    events := events + [CreateFile(temp)];
    if fs.fault(CreateFile(temp)).Some? {
      return Err(IoError(fs.fault(CreateFile(temp)).value)), events;
    }
    var error, written, downloaded := WriteBody(temp, asset.chunks, total, fs);
    events := events + written;
    if error.Some? {
      return Err(error.value), events;
    }
    events := events + [Flush(temp)];
    if fs.fault(Flush(temp)).Some? {
      return Err(IoError(fs.fault(Flush(temp)).value)), events;
    }
    var filename := sanitize(ConstructFilename(item, format, nameFormat));
    r, events := PlaceOutput(events, item, dir, filename, temp, fs);
  }

  // ------------------------------------------------------- with the client

  /** The attempts `download_item` gives `get_download_url_with_retry`. */
  const URL_ATTEMPTS: u32 := 30

  /**
   * `download_item` run against the client: the URL comes from `get_download_url_with_retry`
   * with `URL_ATTEMPTS` attempts, and `download` builds the cookie header again before it
   * sends the asset request.
   */
  function ClientDownload(creds: Option<Auth.Credentials>, item: LibraryItem, dir: string, format: AudioFormat,
                          nameFormat: Option<string>, sanitize: string -> string, parse: Json.Parser,
                          pageReplies: seq<HttpReply>, millis: nat -> nat, asset: AssetReply, fs: FileSystem): Outcome
  {
    var resolved := Client.Retry(creds, item, Client.PageScrapers(Client.UrlExtractor(format, parse)),
                                 URL_ATTEMPTS, pageReplies, millis).result;
    if resolved.Ok? && Client.AuthHeaders(creds).Err? then Outcome(Err(Client.AuthHeaders(creds).error), [FetchingUrl])
    else DownloadFlow(item, dir, format, nameFormat, sanitize, resolved, asset, fs)
  }

  /**
   * The second cookie check never fails once a URL was resolved, so the client's download is
   * `DownloadFlow` with the resolution as its input; with nobody logged in it stops at once
   * with `NotLoggedIn`.
   */
  lemma ClientDownloadIsFlow(creds: Option<Auth.Credentials>, item: LibraryItem, dir: string, format: AudioFormat,
                             nameFormat: Option<string>, sanitize: string -> string, parse: Json.Parser,
                             pageReplies: seq<HttpReply>, millis: nat -> nat, asset: AssetReply, fs: FileSystem)
    ensures var resolved := Client.Retry(creds, item, Client.PageScrapers(Client.UrlExtractor(format, parse)),
                                         URL_ATTEMPTS, pageReplies, millis).result;
            ClientDownload(creds, item, dir, format, nameFormat, sanitize, parse, pageReplies, millis, asset, fs)
              == DownloadFlow(item, dir, format, nameFormat, sanitize, resolved, asset, fs)
    ensures creds.None? ==>
              ClientDownload(creds, item, dir, format, nameFormat, sanitize, parse, pageReplies, millis, asset, fs)
                == Outcome(Err(NotLoggedIn), [FetchingUrl])
  {
    Client.ResolvedHasCookie(creds, item, Client.PageScrapers(Client.UrlExtractor(format, parse)),
                             URL_ATTEMPTS, pageReplies, millis);
  }

  /**
   * `download_item` with the client: resolve the URL, check the cookie header for the asset
   * request, then fetch and place the file.
   */
  method DownloadWithClient(client: Client.BandcampClient, item: LibraryItem, dir: string, format: AudioFormat,
                            nameFormat: Option<string>, sanitize: string -> string, parse: Json.Parser,
                            pageReplies: seq<HttpReply>, millis: nat -> nat, asset: AssetReply, fs: FileSystem)
    returns (r: Result<string, BandcampError>, events: seq<Event>)
    ensures Outcome(r, events)
              == ClientDownload(client.credentials, item, dir, format, nameFormat, sanitize, parse, pageReplies, millis, asset, fs)
  {
    var resolved, _ := client.GetDownloadUrlWithRetry(item, Client.UrlExtractor(format, parse), URL_ATTEMPTS, pageReplies, millis);
    if resolved.Ok? {
      var headers := Client.AuthHeaders(client.credentials);
      if headers.Err? {
        return Err(headers.error), [FetchingUrl];
      }
    }
    r, events := DownloadItem(item, dir, format, nameFormat, sanitize, resolved, asset, fs);
  }
}
