# bannedcamp core, modelled in Dafny

bannedcamp downloads a user's Bandcamp purchases in a chosen audio format. It has a command-line
front end and a terminal interface. This project models the logic at its centre and proves
properties of that model:

- **Client** (`client.dfy`, `scrape.dfy`):
  - cookie validation;
  - collection paging with first-occurrence de-duplication;
  - conversion of collection entries into library items;
  - the download-page scrapers: the brace matcher, HTML unescaping, the four URL strategies and the fan-id search;
  - the trigger-and-poll state machine that waits for an encoding.
- **Library** (`library.dfy`): the format tables and the file-name template.
- **Download** (`download.dfy`):
  - the download summary counters;
  - the single-item download, written as a method over an abstract asset reply and file system that produces the reporter's event trace.
- **Terminal interface**:
  - `tui_state.dfy` holds the application state as values, with the pure operations and their invariants;
  - `app.dfy` holds the `App`, `LoginState`, `LibraryState` and `DownloadState` classes, whose methods update fields in place (three download slots in an array) and are proved against those operations;
  - `keys.dfy` holds the key dispatch;
  - `spinner.dfy` holds the ten-frame spinner.
- **Command line** (`commands.dfy`, `cli_run.dfy`): Bandcamp URL parsing and the URL filter that picks the items to download.

Shared modules:
- `wrappers.dfy`: Option/Result;
- `strings.dfy`: find, replace-all, ASCII case and decimal numbers;
- `errors.dfy`, `http.dfy`, `auth.dfy`, `json.dfy`: the error type, HTTP replies, credentials and an abstract JSON value.

Several effects become inputs:
- HTTP exchanges are scripted sequences of replies, consumed one per request;
- JSON parsing, collection decoding, URL parsing and file-name sanitising are function parameters;
- the clock readings are parameters.

Strings are sequences of characters, and all indices are character indices.

A duplicate sale id on a later page is skipped; the first occurrence is kept (src/core/client.rs:347-355).

## Model

| member | source | states |
|---|---|---|
| Client.AuthHeaders | src/core/client.rs:116-130 | No credentials gives `NotLoggedIn`; otherwise the header is `identity=<cookie>`, and a cookie that cannot form a header value gives the header error |
| Client.CookieValidation | src/core/client.rs:133-188 | An accepted cookie keeps the cookie, has no client id, and has a fan id that reads back as a u64; a cookie that cannot form a header is rejected before any request |
| Client.ValidatedCookieSendable | src/core/client.rs:116-130 | Credentials that validate_cookie produced always yield the cookie header |
| Client.SummaryFanIdSuffices | src/core/client.rs:144-161 | A 2xx summary that carries a fan id settles the validation; the settings page is never consulted |
| Client.SettingsRejects | src/core/client.rs:164-174 | With no usable summary, a non-2xx settings page rejects the cookie as `InvalidCredentials` |
| Client.ConvertedItem | src/core/client.rs:377-444 | The id and artist id read back as the sale and band ids. "t" gives Track, "p" gives Package, anything else gives Album. The download URL is the redownload entry when present, else the fallback. Hidden iff `Some(true)`. Artwork iff an art id. All formats offered. No hints gives no subdomain or slug |
| Client.RedownloadKeyInjective | src/core/client.rs:400-412 | For one sale type, equal redownload keys mean equal sale ids |
| Client.KeepFirstDistinct | src/core/client.rs:347-355 | The kept entries have pairwise distinct sale ids and cover every sale id seen |
| Client.KeepFirstMembers | src/core/client.rs:347-355 | An entry is kept exactly when it is the first occurrence of its sale id |
| Client.KeepFirstPrefix | src/core/client.rs:296-355 | Items kept from earlier pages stay in place, whatever later pages bring |
| Client.DistinctLibraryIds | src/core/client.rs:347-355 | The converted items have pairwise distinct ids |
| Client.CollectionNeedsLogin | src/core/client.rs:283-287 | Without credentials nothing is requested and the result is `NotLoggedIn` |
| Client.CollectionDistinct | src/core/client.rs:283-370 | A successful get_collection returns items with pairwise distinct ids |
| Client.PagingChainsTokens | src/core/client.rs:302-370 | Each later request follows a successful page that had more entries, and it asks with that page's `last_token` |
| Client.PagingStopsWhenDone | src/core/client.rs:361-369 | A successful paging ends on a decoded page with no more entries or without a next token |
| Client.SessionExpiresOn401 | src/core/client.rs:313-323 | A 401 on the first page gives `SessionExpired` after exactly one request |
| Client.PollsBounded | src/core/client.rs:508-571 | From attempt `a`, the poll loop makes at most `max_attempts + 1 - a` polls and no trigger |
| Client.PollsExhausted | src/core/client.rs:508-576 | Ending with the not-ready error means every attempt was polled |
| Client.PollsOnStatEndpoint | src/core/client.rs:506-524 | Every poll goes to the status endpoint of the download URL |
| Client.ReadyPageAnswersAtOnce | src/core/client.rs:461-489 | A page that is already ready returns the extracted URL after one page request: no trigger, no poll |
| Client.TriggerThenBoundedPolls | src/core/client.rs:491-576 | A page that is not ready is followed by exactly one trigger, then at most `max_attempts` polls, all on the status endpoint; the not-ready error comes only after exactly `max_attempts` polls |
| Client.NoAttemptsNoPolls | src/core/client.rs:491-576 | With zero attempts allowed, the trigger is followed directly by the not-ready error |
| Client.ExpiredKeepsPolling | src/core/client.rs:543-562 | An expired signature refetches the page and goes on polling the same endpoint unless the page is now ready |
| Client.AllPendingExhausts | src/core/client.rs:508-576 | When every remaining poll answers pending, the loop polls once per remaining attempt and ends with the not-ready error, sending no trigger |
| Client.ExpiredThenReady | src/core/client.rs:543-560 | An expired signature whose refetched page is ready ends the loop with that page's URL after one poll |
| Client.PendingThenExpiredReady | src/core/client.rs:508-576 | After `n` pending polls, an expired signature with a ready refetched page returns that page's URL after `n + 1` polls, within the attempt budget |
| Client.RetryAllPendingExhausts | src/core/client.rs:491-576 | A page that is not ready, followed only by pending polls, ends in the not-ready error after one trigger and exactly `max_attempts` polls |
| Client.RetryRecoversFromExpiry | src/core/client.rs:491-576 | A page that is not ready, `n` pending polls and then an expired signature whose refetched page is ready yield that URL after one trigger and `n + 1` polls |
| Client.PagingErrorIsLastReply | src/core/client.rs:313-345 | Paging fails exactly when the last reply it read is a transport error, a 401, another non-success status or an undecodable page, with that error; every earlier reply was a good page |
| Client.CollectionErrorIsLastReply | src/core/client.rs:283-345 | With a cookie header and a fan id, get_collection fails exactly when its last reply is a bad page, with that page's error |
| Client.ResolvedHasCookie | src/core/client.rs:106-113 | A resolved download URL means the cookie header was built, so the asset request's own header check cannot fail |
| Client.NotModifiedPanics | src/core/client.rs:321-329 | A `304` collection page makes the code's `unwrap_err` panic, while the model reports `NetworkError` naming the status |
| Client.StatusCheckAgrees | src/core/client.rs:321-329 | The code panics exactly on non-2xx statuses outside 4xx and 5xx; on every other status its outcome is the one `PageError` gives |
| Client.NonSuccessPageStops | src/core/client.rs:321-329 | Every non-2xx collection page stops the paging after that one request: 401 as `SessionExpired`, any other status as a network error naming it |
| Client.BandcampClient.ValidateCookie | src/core/client.rs:133-188 | Returns the validation result, and replaces the credentials only when the cookie is accepted |
| Client.BandcampClient.GetCollection | src/core/client.rs:283-370 | The paging loop's result and requests are those of the collection specification |
| Client.BandcampClient.GetDownloadUrlWithRetry | src/core/client.rs:448-576 | The trigger-and-poll loop's result and requests are those of the retry specification |
| Client.PollForUrl | src/core/client.rs:506-576 | The poll loop's result and requests are those of the poll specification: at most `max_attempts` polls on the status endpoint, stopping at a delivered URL, a transport error, or an expired signature whose refetched page is ready |
| Client.KeepNewItems | src/core/client.rs:347-355 | The inner loop extends the kept list and the seen set exactly as first-occurrence filtering of all pages so far |
| Scrape.ApplyPassesIdentity | src/core/client.rs:863-874 | A chain of replacements whose patterns start with characters absent from the text changes nothing |
| Scrape.UnescapeHtmlIdentity | src/core/client.rs:863-874 | Text with neither `&` nor `\` comes out of unescape_html unchanged |
| Scrape.UnescapeHtmlShrinks | src/core/client.rs:863-874 | unescape_html never lengthens its input |
| Scrape.UnescapeFanIdBlobIdentity | src/core/client.rs:243-249 | The unescaping of fan-page blobs leaves text without `&` unchanged |
| Scrape.FirstClose | src/core/client.rs:835-857 | Finds the first closing brace outside strings at which the depth returns to 0, or proves there is none |
| Scrape.ExtractJsonObject | src/core/client.rs:830-860 | The character loop over depth, in-string and escape state returns exactly the balanced object that starts the input |
| Scrape.JsonObjectSpec | src/core/client.rs:830-860 | None unless the input starts with `{`; otherwise the shortest prefix ending in `}` where the depth returns to 0, with depth at least 1 before it; None when the depth never returns to 0 |
| Scrape.DepthPositiveBeforeClose | src/core/client.rs:835-857 | Before the closing brace the depth never drops below one |
| Scrape.EscapeOnlyInString | src/core/client.rs:839-847 | A pending escape happens only inside a string |
| Scrape.EscapedQuoteStaysInString | src/core/client.rs:839-847 | An escaped quote does not end a string |
| Scrape.FirstSome | src/core/client.rs:590-609 | The first `Some` of a list of attempts: present iff some attempt succeeds, with all earlier ones None |
| Scrape.ExtractUrlFromJson | src/core/client.rs:752-827 | No URL it returns still contains the `\u0026` escape |
| Scrape.JsonPathWins | src/core/client.rs:752-790 | A URL at an earlier JSON path wins over later paths and the text search, with `\u0026` turned into `&` |
| Scrape.TextSearchOnlyAsFallback | src/core/client.rs:790-827 | The text search is used exactly when none of the three JSON paths yields a string |
| Scrape.NextBlob | src/core/client.rs:671-691 | Each round of the blob scan moves the search position strictly forward |
| Scrape.ScanBlobs | src/core/client.rs:669-692 | The while loop returns the URL of the first blob that yields one |
| Scrape.ExtractFromDataBlob | src/core/client.rs:663-697 | Both blob patterns in order, each scanned blob by blob |
| Scrape.ExtractDownloadUrl | src/core/client.rs:581-618 | The four strategies run in order (pagedata, data blob, TralbumData, direct pattern) and the first success wins; the ParseError naming the format comes exactly when all four fail |
| Scrape.PagedataFound | src/core/client.rs:630-653 | When a pagedata pattern yields a result, its first occurrence opens a tag whose first `data-blob=` holds a quote-free blob between two equal quotes, and the result is what extract_url_from_json reads from that blob after HTML unescaping |
| Scrape.PagedataRead | src/core/client.rs:630-653 | Conversely, the quoted blob after the first `data-blob=` of the tag that the pattern's first occurrence opens is exactly what that pattern reads |
| Scrape.TagBlobFound | src/core/client.rs:636-645 | The blob a tag yields is the quote-free text between the quote that follows its first `data-blob=` and the next equal quote |
| Scrape.TagBlobRead | src/core/client.rs:636-645 | Conversely, a quote-free blob quoted right after the tag's first `data-blob=` is the one the tag yields |
| Scrape.MatchedIsBalanced | src/core/client.rs:830-860 | The object extract_json_object returns is a prefix of its input that starts with `{` and is balanced at its last character and nowhere before |
| Scrape.BalancedIsMatched | src/core/client.rs:830-860 | Conversely, a balanced object that starts the input is exactly what extract_json_object returns |
| Scrape.TralbumFound | src/core/client.rs:703-713 | When a TralbumData pattern yields a result, it is read from the balanced object that starts at the brace ending the pattern's first occurrence |
| Scrape.TralbumRead | src/core/client.rs:703-713 | Conversely, the balanced object at that brace is exactly what extract_url_from_json is given |
| Scrape.RawUrlFound | src/core/client.rs:736-739 | The raw URL after a key is quote-free and closed by a quote, right after the key's first occurrence in the window |
| Scrape.RawUrlRead | src/core/client.rs:736-739 | Conversely, a quote-free value closed by a quote right after the key's first occurrence is the raw URL |
| Scrape.RawUrlMissing | src/core/client.rs:736-744 | A key yields nothing exactly when it is absent from the window or no quote follows its first occurrence; the next key is then tried |
| Scrape.DirectPatternFound | src/core/client.rs:722-749 | A direct-pattern URL is the quote-free value after one of the three URL keys, inside the 1000-character window that starts at the first `"<format>":`, with `\u0026` and `\/` unescaped |
| Scrape.DirectPatternRead | src/core/client.rs:722-749 | Conversely, such a value after the k-th key is what the direct pattern returns, provided every earlier key yields nothing |
| Scrape.FirstNonDigit | src/core/client.rs:195-198 | The first non-digit's index, with only digits before it; None when all are digits |
| Scrape.FanIdFound | src/core/client.rs:191-204 | A number after `"fan_id":` and before a non-digit is read back exactly |
| Scrape.FanIdAtEndIgnored | src/core/client.rs:195-199 | A number running to the very end of the text is not recognised, because the end defaults to the start |
| Scrape.ExtractFanId | src/core/client.rs:209-280 | The direct key wins. Otherwise the first data blob is unescaped and tried as page data, then searched for the key. `ParseError` comes only when all of these fail |
| Library.BandcampEncodingInjective | src/core/library.rs:94-105 | Distinct formats have distinct encoding keys |
| Library.ExtensionCollisions | src/core/library.rs:82-91 | Two formats share an extension exactly when both are MP3 or both are M4A |
| Library.ExtensionSuffix | src/core/library.rs:37-41 | `{ext}` is non-empty iff the item is a track, and is then a dot and the format's extension |
| Library.CustomFormatOverrides | src/core/library.rs:43-55 | A supplied template is used whatever the item type |
| Library.PlainTemplateUnchanged | src/core/library.rs:51-55 | A template holding none of the four placeholders comes back unchanged |
| Library.SubstitutionCascades | src/core/library.rs:51-55 | Text inserted early is subject to later substitutions (an artist named `{id}` becomes the id) |
| Library.DefaultAlbumName | src/core/library.rs:31-55 | An album or package whose artist and title lack `{` is named `artist - title` |
| Library.DefaultTrackName | src/core/library.rs:32-55 | A track whose artist and title lack `{` is named `artist - title.ext` |
| Download.SummaryCounts | src/core/download.rs:15-32 | The total is successes plus failures, and it is 0 exactly for the default summary |
| Download.TempPathInjective | src/core/download.rs:92 | Distinct item ids give distinct temporary paths in one directory |
| Download.FetchingComesFirst | src/core/download.rs:71-72 | The first event is always fetching-URL |
| Download.ResolveErrorPropagates | src/core/download.rs:71-72 | A resolution error is returned as is, after only the fetching event |
| Download.HttpErrorBeforeStart | src/core/download.rs:78-86 | A non-success status reports and returns `HTTP <status>: <reason>` before any start event or file |
| Download.TransferReportsRunningSums | src/core/download.rs:97-105 | Without errors, the progress values are the running sums of the chunk sizes, and `downloaded` ends as the total written |
| Download.RunningSumsAscend | src/core/download.rs:97-105 | Running sums never decrease and end at the total |
| Download.CompletedLastOnSuccess | src/core/download.rs:128-131 | The last event is Completed exactly when the download succeeds |
| Download.TransferNeverCompletes | src/core/download.rs:97-105 | The write loop emits only writes and progress |
| Download.FinishOutput | src/core/download.rs:110-131 | A track is renamed into place. An album or package is extracted into a new directory after the extracting event, and the temporary file is removed. Completed comes last |
| Download.SuccessIsFinish | src/core/download.rs:78-131 | A success had a 2xx asset and a clean transfer, and ends with the output placement |
| Download.SuccessfulOutput | src/core/download.rs:110-131 | On success, a track ends with rename and Completed and never extracts; an album or package ends with create-dir, unzip, remove and Completed. The result is the output path |
| Download.SuccessfulProgress | src/core/download.rs:97-105 | On success there is one progress value per chunk, non-decreasing, the last one equal to the bytes written |
| Download.WriteBody | src/core/download.rs:96-108 | The chunk loop's error, events and byte count are those of the transfer specification |
| Download.PlaceOutput | src/core/download.rs:110-131 | The rename-or-extract step matches its specification |
| Download.DownloadItem | src/core/download.rs:61-131 | The whole download's result and event trace are those of the download specification |
| Download.ClientDownloadIsFlow | src/core/download.rs:70-76 | Resolving with 30 attempts and then downloading is the download specification fed with that resolution, as the asset request's header check never fails after a resolution; with nobody logged in the result is `NotLoggedIn` after only the fetching event |
| Download.DownloadWithClient | src/core/download.rs:61-131 | Resolving the URL through the client, checking the header, then downloading gives exactly the client-driven download's result and events |
| Widgets.NextFrame | src/tui/widgets/spinner.rs:12-14 | The next frame stays in the table, goes up by one, and wraps from 9 to 0 |
| Widgets.TicksAdvance | src/tui/widgets/spinner.rs:12-14 | `n` ticks advance the frame by `n` modulo 10 |
| Widgets.FullTurn | src/tui/widgets/spinner.rs:12-14 | Ten ticks return to the starting frame |
| Widgets.Spinner.constructor | src/tui/widgets/spinner.rs:8-10 | A spinner starts at frame 0 |
| Widgets.Spinner.Tick | src/tui/widgets/spinner.rs:12-14 | Advances to the next frame and keeps the frame in range |
| Widgets.Spinner.Current | src/tui/widgets/spinner.rs:16-18 | The frame shown is always one of the ten, never out of bounds |
| TuiState.AllFormatsListed | src/tui/app.rs:157-167 | The format menu lists every format exactly once |
| TuiState.DefaultLogin | src/tui/app.rs:27-40 | The login form starts holding the environment cookie (or nothing), with the cursor at its end and nothing loading |
| TuiState.InputCharInserts | src/tui/app.rs:446-451 | Typing inserts at the cursor, moves the cursor one on, and keeps the rest |
| TuiState.DeleteUndoesInput | src/tui/app.rs:446-460 | Deleting right after typing restores the form |
| TuiState.DeleteCharSpec | src/tui/app.rs:453-460 | Delete does nothing at position 0 and otherwise removes the character before the cursor; the cursor stays within the text |
| TuiState.Lookup | src/tui/app.rs:102-112 | The visible rows pair each filtered index with its item, in filter order |
| TuiState.FilteredSpec | src/tui/app.rs:129-144 | The filter is the ascending list of indices of items whose lowercased artist or title contains the lowercased query |
| TuiState.UpdateFilterSpec | src/tui/app.rs:129-154 | An empty query clears the filter. Otherwise the filter matches exactly. With 0 visible rows, selection and scroll are 0; otherwise the selection is in range. A clamped selection keeps scroll at or below it. Nothing else changes |
| TuiState.UpdateFilterKeeps | src/tui/app.rs:129-154 | update_filter restores the library invariant |
| TuiState.MovesStayInRange | src/tui/app.rs:474-488 | Moving up stops at 0 and moving down stops at the last visible row. Both keep the invariant, and moving up keeps scroll at or below the selection |
| TuiState.ToggleTwice | src/tui/app.rs:491-501 | Toggling twice changes nothing. With no row highlighted a toggle does nothing; otherwise it flips that item's mark |
| TuiState.IdsOf | src/tui/app.rs:503-512 | The set of ids of a list of rows |
| TuiState.SelectAllAdds | src/tui/app.rs:503-512 | Select-all only adds: the new marks are the old ones plus the visible ids |
| TuiState.ToggleFocusInvolution | src/tui/app.rs:522-527 | Toggling focus always changes it, and toggling twice restores it |
| TuiState.SearchClearShowsAll | src/tui/app.rs:540-545 | Clearing the search shows every item and returns focus to the list |
| TuiState.SearchInputKeeps | src/tui/app.rs:530-533 | Typing in the search appends to the query and keeps the invariant |
| TuiState.SearchBackspaceKeeps | src/tui/app.rs:535-538 | Search backspace keeps the invariant |
| TuiState.SearchBackspaceDrops | src/tui/app.rs:535-538 | Backspace drops the query's last character, or does nothing to an empty query |
| TuiState.SearchClearKeeps | src/tui/app.rs:540-545 | Clearing the search keeps the invariant |
| TuiState.FormatMovesStayInMenu | src/tui/app.rs:565-575 | Format moves stay within the eight menu entries and stop at both ends |
| TuiState.ResultsSplit | src/tui/app.rs:257-263 | Successes plus failures equal the number of results |
| TuiState.ResultsAppend | src/tui/app.rs:257-263 | Appending a result adds one to exactly one of the two counts |
| TuiState.FirstEmpty | src/tui/app.rs:288-291 | Finds the first slot with no item, or there is none |
| TuiState.SlotOf | src/tui/app.rs:281-286 | Finds the first slot holding the item id, or there is none |
| TuiState.FindItem | src/tui/app.rs:394-400 | Finds a batch item with the id, or there is none |
| TuiState.NewApp | src/tui/app.rs:320-331 | The application starts on the login screen, with nothing sent and the invariant holding |
| TuiState.LoginSubmitSpec | src/tui/app.rs:462-471 | An empty cookie only shows the error and sends nothing. Otherwise loading starts and exactly one ValidateCookie carrying the typed cookie is sent |
| TuiState.ChosenSpec | src/tui/app.rs:578-586 | The chosen items are exactly the library items whose id is marked, in library order |
| TuiState.FormatConfirmSends | src/tui/app.rs:578-610 | Nothing marked: back to browsing, nothing sent. Otherwise the download screen opens with the chosen items and their count, and exactly one StartBatchDownload is sent with the chosen format and output directory |
| TuiState.RespondKeeps | src/tui/app.rs:348-443 | Every async response keeps the application invariant |
| TuiState.CookieAccepted | src/tui/app.rs:350-358 | A validated cookie stores the credentials, opens the library screen loading, and sends one FetchCollection |
| TuiState.CookieRejected | src/tui/app.rs:358-363 | A rejected cookie stops loading and shows the error on the login screen, sending nothing |
| TuiState.ItemStartFillsFirstEmpty | src/tui/app.rs:389-411 | An item start increments the start count and fills the first empty slot if there is one; the other slots and the results stay |
| TuiState.ItemCompleteRecordsOnce | src/tui/app.rs:423-434 | An item completion appends exactly one result and clears the item's slot, and the other slots stay |
| TuiState.BatchResetsSlots | src/tui/app.rs:379-441 | Batch start and batch completion reset all three slots; the batch is active only between them |
| Tui.LibraryState.UpdateFilter | src/tui/app.rs:129-154 | Updates the filter, selection and scroll in place as the filter specification says |
| Tui.DownloadState.ClearAllSlots | src/tui/app.rs:379-388 | The loop empties all three slots and changes nothing else |
| Tui.DownloadState.Reset | src/tui/app.rs:594-602 | The download state is reset to a fresh batch of the given items and total |
| Tui.DownloadState.ClearSlot | src/tui/app.rs:293-298 | Empties the slot holding the item and changes nothing else |
| Tui.App.constructor | src/tui/app.rs:320-331 | A new application is in the initial state |
| Tui.App.Quit | src/tui/app.rs:333-335 | Sets the quit flag and nothing else |
| Tui.App.Tick | src/tui/app.rs:338-346 | Advances the spinner of whichever screen is loading |
| Tui.App.HandleAsyncResponse | src/tui/app.rs:348-443 | Updates the state in place as the response specification says, keeping the invariant |
| Tui.App.OnCookieValidated | src/tui/app.rs:350-364 | The cookie-validated branch |
| Tui.App.OnCollectionFetched | src/tui/app.rs:365-378 | The collection-fetched branch |
| Tui.App.OnItemDownloadStarted | src/tui/app.rs:389-411 | The item-started branch |
| Tui.App.OnDownloadProgress | src/tui/app.rs:412-422 | The progress branch |
| Tui.App.OnItemDownloadComplete | src/tui/app.rs:423-434 | The item-complete branch |
| Tui.App.LoginInputChar | src/tui/app.rs:446-451 | Inserts at the cursor as specified |
| Tui.App.LoginDeleteChar | src/tui/app.rs:453-460 | Deletes before the cursor as specified |
| Tui.App.LoginSubmit | src/tui/app.rs:462-471 | An empty cookie shows an error. Otherwise loading starts and one ValidateCookie request is sent |
| Tui.App.LibraryMoveUp | src/tui/app.rs:474-481 | Moves the highlight up as specified |
| Tui.App.LibraryMoveDown | src/tui/app.rs:483-489 | Moves the highlight down as specified |
| Tui.App.LibraryToggleSelection | src/tui/app.rs:491-501 | Flips the highlighted item's mark |
| Tui.App.LibrarySelectAll | src/tui/app.rs:503-512 | Marks every visible item |
| Tui.App.LibraryFocusSearch | src/tui/app.rs:514-516 | Focuses the search bar |
| Tui.App.LibraryFocusList | src/tui/app.rs:518-520 | Focuses the list |
| Tui.App.LibraryToggleFocus | src/tui/app.rs:522-527 | Toggles focus |
| Tui.App.LibrarySearchInput | src/tui/app.rs:530-533 | Appends to the query and refilters |
| Tui.App.LibrarySearchBackspace | src/tui/app.rs:535-538 | Drops the query's last character and refilters |
| Tui.App.LibrarySearchClear | src/tui/app.rs:540-545 | Clears the query and shows everything |
| Tui.App.LibraryClearSelection | src/tui/app.rs:547-549 | Removes every mark and nothing else |
| Tui.App.LibraryShowFormatSelection | src/tui/app.rs:552-558 | Opens the format menu only when something is marked |
| Tui.App.LibraryCancelFormatSelection | src/tui/app.rs:560-562 | Returns to browsing |
| Tui.App.FormatMoveUp | src/tui/app.rs:565-569 | Moves up the format menu |
| Tui.App.FormatMoveDown | src/tui/app.rs:571-575 | Moves down the format menu |
| Tui.App.FormatConfirm | src/tui/app.rs:578-610 | Starts the batch as the confirm specification says |
| Tui.App.DownloadBackToLibrary | src/tui/app.rs:613-620 | After a batch, returns to the library with the marks cleared; while active, does nothing |
| Keys.CtrlCQuits | src/tui/run.rs:89-93 | Ctrl+C quits on every screen before anything else is handled |
| Keys.LoginIgnoresKeysWhileLoading | src/tui/run.rs:105-107 | While the login is loading, no key but Ctrl+C changes anything |
| Keys.LoginKeyActions | src/tui/run.rs:109-115 | On the login form, `q` quits, other characters are typed, Backspace deletes, Enter submits, and other keys do nothing |
| Keys.LibraryIgnoresKeysWhileLoading | src/tui/run.rs:121-123 | While the library is loading, every key is ignored |
| Keys.TabTogglesFocus | src/tui/run.rs:128-131 | Tab toggles focus when browsing, whichever element has it |
| Keys.EscapeInList | src/tui/run.rs:156-162 | In the list, Esc clears a non-empty search and otherwise clears the marks |
| Keys.FormatMenuKeys | src/tui/run.rs:167-173 | In the format menu, q/Esc cancel, j/Down and k/Up move, and Enter confirms |
| Keys.DownloadScreenWaits | src/tui/run.rs:177-189 | On the download screen, q quits and Enter goes back only when no batch is active |
| Keys.KeyStepKeeps | src/tui/run.rs:86-189 | Every key keeps the application invariant |
| Keys.HandleKeyEvent | src/tui/run.rs:86-100 | Dispatches a key by screen, updating the application in place as the key specification says |
| Keys.HandleLoginKeys | src/tui/run.rs:102-116 | The login screen's keys, as specified |
| Keys.HandleLibraryKeys | src/tui/run.rs:118-175 | The library screen's keys, as specified |
| Keys.HandleDownloadKeys | src/tui/run.rs:177-189 | The download screen's keys, as specified |
| Commands.ParseSpec | src/cli/commands.rs:130-142 | A URL is accepted iff it parses, has a host ending in `.bandcamp.com`, and has a path. The artist plus that suffix is the host. The slug is the second path segment when there is one |
| Commands.BareArtistPage | src/cli/commands.rs:130-147 | An artist page with at most one path segment yields its artist with no slug, and is an artist URL |
| Commands.ArtistPage | src/cli/commands.rs:130-147 | An album or track page yields its artist and slug, and is not an artist URL |
| CliRun.MatchesSomeUrl | src/cli/run.rs:127-128 | An item matches exactly when some URL selects it, so an empty list selects nothing |
| CliRun.MatchIgnoresOrder | src/cli/run.rs:127-128 | Matching depends only on which URLs are given, not their order or repetition |
| CliRun.UrlMatchCases | src/cli/run.rs:129-137 | An artist URL matches items whose subdomain equals the artist ignoring ASCII case, and never one without a subdomain. Any other URL matches on the slug alone, regardless of artist |
| CliRun.ParsedUrls | src/cli/run.rs:45-50 | The URLs that parse, with the others dropped silently |
| CliRun.KeepMatchingSpec | src/cli/run.rs:50-52 | The filter keeps exactly the matching items, every copy of each, and adds nothing |
| CliRun.KeepMatchingOrder | src/cli/run.rs:50-52 | Filtering keeps the library's order: filtering a concatenation is the concatenation of the filtered parts |
| CliRun.TargetSelection | src/cli/run.rs:43-53 | `All` passes the library through. A URL target keeps exactly the items matched by some parseable URL, and selects nothing when none parse |

## Left out

- HTTP, cookies and TLS: each exchange is a scripted reply, and the reason phrase comes with the reply. A failed read of a page or collection body is folded into a transport error. A failed read of a status-poll body becomes an empty body and polling goes on (src/core/client.rs:526); a script gives it as a response with an empty body.
- JSON parsing with serde_json: a function parameter returning an abstract JSON value. Collection decoding is also a parameter.
- URL parsing: `Url::parse` is a parameter that returns the host and path segments.
- `sanitize_filename`: a parameter, because src/core/utils.rs is not part of this model.
- The ZIP extraction itself and the real file-system calls: these are trace events, with faults injected per event by the file-system parameter.
- Clocks and sleeps: the `.rand` milliseconds are a parameter. A single reading `now` stands in both for the first page token's timestamp (src/core/client.rs:300) and for every item's purchase date, which the code reads once per item (src/core/client.rs:429). The 3 second sleep and the 100 ms progress throttle have no timing.
- Floats and `Instant`: progress percentages, speeds and start times are not modelled.
- Concurrency: the channels between the terminal interface and its worker are not modelled, and neither is the tokio semaphore in the command-line downloader. `try_send` is an append-only outbox that never drops a message on a full channel.
- Rendering, terminal setup, the event poll loop, logging, and the wiring in main, lib and mod.
- `skip_existing`, dry-run printing and the rest of `run_download`, which is I/O. The environment cookie is a parameter.
- No 503 case: the code has none, and 503 falls into the generic non-success branches.
- Client.PagingErrorIsLastReply: a collection page with a 1xx status, or a 3xx that reqwest does not follow, makes the code panic in `unwrap_err`; the model reports it as `NetworkError` naming the status, the evidently intended outcome, recorded under Findings below.
- Client.CollectionErrorIsLastReply: inherits the same gap; on those statuses the code panics where the model reports `NetworkError` naming the status.
- Client.BandcampClient.GetCollection: the request headers are checked once before paging, because the credentials do not change during the loop.
- Download.DownloadItem: `downloaded` is an unbounded number, so the u64 wrap-around of a body over 2^64 bytes is not modelled.
- Download.DownloadItem: it takes the name template as an explicit parameter, following the two-argument `construct_filename` in src/core/library.rs:36 rather than the one-argument call at src/core/download.rs:110.
- TuiState.Matches: the code lowercases with Unicode rules; the model lowercases ASCII letters only.
- Byte indices: Rust's byte-index slicing can panic, for example with the 2000-byte default at src/core/client.rs:636, the 1000-byte window at src/core/client.rs:733, and the byte-index insert at src/tui/app.rs:449. The model uses character indices and treats a window past the end as ending at the end.
- TuiState.Respond: a CollectionFetched response does not refresh the filter, as in the code. A stale filter that lists indices past the new items is dropped by the view, and the selection invariant is restored.
- The command-line batch downloader is not modelled: the semaphore, spawned tasks, and the summary being assembled from task results.

## Findings

| source | as written | input that shows it | evidently intended | confidence | as-written member | corrected member |
|---|---|---|---|---|---|---|
| src/core/client.rs:325-329 | Any non-2xx status other than 401 is passed to `error_for_status().unwrap_err()`. That call panics unless the status is 4xx or 5xx | A first collection page answered `304 Not Modified`, or with any 1xx status, or with a 3xx that reqwest does not follow | Every non-2xx page stops `get_collection` with `NetworkError` naming the status | not executed; high | Client.NotModifiedPanics | Client.NonSuccessPageStops |
