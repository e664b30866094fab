/**
 * The terminal interface's state as values: one view per screen state, the operations the
 * application performs on them, and what those operations keep and change. The classes in
 * module `Tui` hold this state in fields and are specified by these functions.
 */
module TuiState {
  import opened Wrappers
  import opened Strings
  import opened Auth
  import opened Library
  import opened Widgets

  datatype Screen = LoginScreen | LibraryScreen | DownloadScreen

  datatype LibraryMode = Browse | FormatSelection

  datatype LibraryFocus = List | SearchBar

  /** `AudioFormat::ALL`: the format menu, in the order it is shown. */
  const ALL_FORMATS: seq<AudioFormat> := [Flac, Mp3320, Mp3V0, Aac, OggVorbis, Alac, Wav, Aiff]

  /** The menu offers every format exactly once. */
  lemma AllFormatsListed(f: AudioFormat)
    ensures f in ALL_FORMATS
    ensures forall i, j :: 0 <= i < j < |ALL_FORMATS| ==> ALL_FORMATS[i] != ALL_FORMATS[j]
  {
  }

  /** Requests to the background worker, in the order they are sent. */
  datatype Request =
    | ValidateCookie(cookie: string)
    | FetchCollection
    | StartBatchDownload(items: seq<LibraryItem>, format: AudioFormat, output_dir: string)

  /** Replies from the background worker. */
  datatype Response =
    | CookieValidated(validated: Result<Credentials, string>)
    | CollectionFetched(fetched: Result<seq<LibraryItem>, string>)
    | BatchDownloadStarted(total_items: nat)
    | ItemDownloadStarted(item_id: string, item_index: nat)
    | DownloadProgress(item_id: string, downloaded: nat, total: Option<nat>)
    | ItemDownloadComplete(item_id: string, item_index: nat, result: Result<string, string>)
    | BatchDownloadComplete

  // ---------------------------------------------------------------- login screen

  datatype LoginView = LoginView(cookie_input: string, cursor_position: nat, loading: bool, frame: nat,
                                 error: Option<string>)
  {
    /** The cursor stays within the input, and the spinner within its frames. */
    predicate Inv() {
      cursor_position <= |cookie_input| && frame < |SPINNER_FRAMES|
    }
  }

  /** `LoginState::default`: the input pre-filled from the environment, the cursor at its end. */
  function DefaultLogin(envCookie: Option<string>): (v: LoginView)
    ensures v.Inv() && !v.loading && v.error.None?
    ensures v.cookie_input == envCookie.GetOr("") && v.cursor_position == |v.cookie_input|
  {
    var c := envCookie.GetOr("");
    LoginView(c, |c|, false, 0, None)
  }

  /** `login_input_char`: the character goes in at the cursor, which moves past it. */
  function InputChar(v: LoginView, c: char): LoginView
    requires v.Inv()
  {
    var p := v.cursor_position;
    v.(cookie_input := v.cookie_input[..p] + [c] + v.cookie_input[p..], cursor_position := p + 1)
  }

  /** `login_delete_char`: the character before the cursor goes, and the cursor steps back. */
  function DeleteChar(v: LoginView): LoginView
    requires v.Inv()
  {
    var p := v.cursor_position;
    if p == 0 then v
    else v.(cookie_input := v.cookie_input[..p - 1] + v.cookie_input[p..], cursor_position := p - 1)
  }

  /** Typing a character inserts exactly it at the cursor, keeping the rest in order. */
  lemma InputCharInserts(v: LoginView, c: char)
    requires v.Inv()
    ensures var r := InputChar(v, c);
      && r.Inv()
      && |r.cookie_input| == |v.cookie_input| + 1
      && r.cursor_position == v.cursor_position + 1
      && r.cookie_input[v.cursor_position] == c
      && r.cookie_input[..v.cursor_position] == v.cookie_input[..v.cursor_position]
      && r.cookie_input[v.cursor_position + 1..] == v.cookie_input[v.cursor_position..]
  {
    var p := v.cursor_position;
    var r := InputChar(v, c);
    assert r.cookie_input == v.cookie_input[..p] + ([c] + v.cookie_input[p..]);
  }

  /** Backspace right after typing a character undoes it. */
  lemma DeleteUndoesInput(v: LoginView, c: char)
    requires v.Inv()
    ensures InputChar(v, c).Inv() && DeleteChar(InputChar(v, c)) == v
  {
    var p := v.cursor_position;
    var s := v.cookie_input;
    var t := s[..p] + [c] + s[p..];
    assert t[..p] == s[..p];
    assert t[p + 1..] == s[p..];
    assert s[..p] + s[p..] == s;
  }

  /** Backspace at the start does nothing; elsewhere it removes one character and keeps the cursor in range. */
  lemma DeleteCharSpec(v: LoginView)
    requires v.Inv()
    ensures var r := DeleteChar(v);
      && r.Inv()
      && (v.cursor_position == 0 ==> r == v)
      && (v.cursor_position > 0 ==>
            |r.cookie_input| == |v.cookie_input| - 1 && r.cursor_position == v.cursor_position - 1
            && r.cookie_input[..r.cursor_position] == v.cookie_input[..r.cursor_position]
            && r.cookie_input[r.cursor_position..] == v.cookie_input[v.cursor_position..])
  {
    var p := v.cursor_position;
    if p > 0 {
      var r := DeleteChar(v);
      assert r.cookie_input[..p - 1] == v.cookie_input[..p - 1];
      assert r.cookie_input[p - 1..] == v.cookie_input[p..];
    }
  }

  const EMPTY_COOKIE_MESSAGE: string := "Please enter a cookie"

  // ---------------------------------------------------------------- library screen

  /** The library browser: all items, the search, the highlight and the marked ids. */
  datatype LibraryView = LibraryView(
    items: seq<LibraryItem>,
    filtered_indices: seq<nat>,
    selected: nat,
    scroll_offset: nat,
    loading: bool,
    frame: nat,
    mode: LibraryMode,
    focus: LibraryFocus,
    selected_items: set<string>,
    selected_format: nat,
    search_query: string,
    error: Option<string>)
  {
    /** `visible_items`: every item when there is no query, else the filtered indices that exist. */
    function VisibleItems(): seq<(nat, LibraryItem)> {
      if search_query == [] then Enumerate(items, |items|) else Lookup(items, filtered_indices)
    }

    /** `visible_count`. */
    function VisibleCount(): nat {
      if search_query == [] then |items| else |filtered_indices|
    }

    /** `selected_item`: the highlighted visible item, if the highlight is on one. */
    function SelectedItem(): Option<LibraryItem> {
      var vis := VisibleItems();
      if selected < |vis| then Some(vis[selected].1) else None
    }

    /**
     * What every operation keeps: the highlight on a visible row (or at 0), the scroll not
     * below the highlight, the format within the menu and the spinner within its frames.
     */
    predicate Inv() {
      && (selected == 0 || selected < VisibleCount())
      && scroll_offset <= selected
      && selected_format < |ALL_FORMATS|
      && frame < |SPINNER_FRAMES|
    }
  }

  /** The items, each with its index, up to position `n`. */
  function Enumerate(items: seq<LibraryItem>, n: nat): (r: seq<(nat, LibraryItem)>)
    requires n <= |items|
    ensures |r| == n
    ensures forall k :: 0 <= k < n ==> r[k] == (k, items[k])
  {
    if n == 0 then [] else Enumerate(items, n - 1) + [(n - 1, items[n - 1])]
  }

  /** The items at the given indices, skipping indices past the end. */
  function Lookup(items: seq<LibraryItem>, indices: seq<nat>): (r: seq<(nat, LibraryItem)>)
    ensures |r| <= |indices|
    ensures forall k :: 0 <= k < |r| ==> r[k].0 < |items| && r[k].1 == items[r[k].0]
    ensures (forall k :: 0 <= k < |indices| ==> indices[k] < |items|) ==>
      |r| == |indices| && forall k :: 0 <= k < |r| ==> r[k].0 == indices[k]
  {
    if indices == [] then []
    else
      var rest := Lookup(items, indices[1..]);
      if indices[0] < |items| then [(indices[0], items[indices[0]])] + rest else rest
  }

  /** The search test: the lower-cased artist or title contains the lower-cased query. */
  predicate Matches(item: LibraryItem, q: string) {
    Contains(Lower(item.artist), q) || Contains(Lower(item.title), q)
  }

  /** The indices, below `n`, of the items that match. */
  function Filtered(items: seq<LibraryItem>, q: string, n: nat): seq<nat>
    requires n <= |items|
  {
    if n == 0 then [] else Filtered(items, q, n - 1) + (if Matches(items[n - 1], q) then [n - 1] else [])
  }

  /** The filter lists, in ascending order, exactly the indices of the matching items. */
  lemma FilteredSpec(items: seq<LibraryItem>, q: string, n: nat)
    requires n <= |items|
    ensures forall k :: 0 <= k < |Filtered(items, q, n)| ==> Filtered(items, q, n)[k] < n
    ensures forall a, b :: 0 <= a < b < |Filtered(items, q, n)| ==> Filtered(items, q, n)[a] < Filtered(items, q, n)[b]
    ensures forall k: nat :: k in Filtered(items, q, n) <==> k < n && Matches(items[k], q)
  {
    FilteredAscending(items, q, n);
    FilteredMembers(items, q, n);
  }

  lemma {:induction false} FilteredAscending(items: seq<LibraryItem>, q: string, n: nat)
    requires n <= |items|
    ensures forall k :: 0 <= k < |Filtered(items, q, n)| ==> Filtered(items, q, n)[k] < n
    ensures forall a, b :: 0 <= a < b < |Filtered(items, q, n)| ==> Filtered(items, q, n)[a] < Filtered(items, q, n)[b]
  {
    if n > 0 {
      var prev := Filtered(items, q, n - 1);
      var tail: seq<nat> := if Matches(items[n - 1], q) then [n - 1] else [];
      var r := prev + tail;
      FilteredAscending(items, q, n - 1);
      assert Filtered(items, q, n) == r;
      forall k | 0 <= k < |r| ensures (k < |prev| ==> r[k] == prev[k] < n - 1) && (k >= |prev| ==> r[k] == n - 1) {
        if k < |prev| { assert r[k] == prev[k]; } else { assert r[k] == tail[k - |prev|]; }
      }
      forall a, b | 0 <= a < b < |r| ensures r[a] < r[b] {
        assert a < |prev|;
      }
    }
  }

  lemma {:induction false} FilteredMembers(items: seq<LibraryItem>, q: string, n: nat)
    requires n <= |items|
    ensures forall k: nat :: k in Filtered(items, q, n) <==> k < n && Matches(items[k], q)
  {
    if n > 0 {
      var prev := Filtered(items, q, n - 1);
      var tail: seq<nat> := if Matches(items[n - 1], q) then [n - 1] else [];
      FilteredMembers(items, q, n - 1);
      assert Filtered(items, q, n) == prev + tail;
      forall k: nat ensures k in prev + tail <==> k < n && Matches(items[k], q) {
        assert k in prev + tail <==> k in prev || k in tail;
        if k + 1 < n {
          assert k !in tail;
        } else if k + 1 == n {
          assert k !in prev;
        } else {
          assert k !in prev && k !in tail;
        }
      }
    }
  }

  /** `update_filter`: recompute the matches, then bring the highlight and scroll back in range. */
  function UpdateFilter(v: LibraryView): LibraryView {
    var f := if v.search_query == [] then [] else Filtered(v.items, Lower(v.search_query), |v.items|);
    var w := v.(filtered_indices := f);
    var count := w.VisibleCount();
    if count == 0 then w.(selected := 0, scroll_offset := 0)
    else if w.selected >= count then w.(selected := count - 1, scroll_offset := Min(w.scroll_offset, count - 1))
    else w
  }

  /**
   * After filtering: no query means no indices; a query means the ascending indices of the
   * matching items; an empty view has the highlight and scroll at 0; otherwise the highlight is
   * on a visible row, and if it had to move, the scroll is not below it. Nothing else changes.
   */
  lemma UpdateFilterSpec(v: LibraryView)
    ensures var r := UpdateFilter(v);
      && (v.search_query == [] ==> r.filtered_indices == [])
      && (v.search_query != [] ==>
            (forall a, b :: 0 <= a < b < |r.filtered_indices| ==> r.filtered_indices[a] < r.filtered_indices[b])
            && (forall k: nat :: k in r.filtered_indices <==> k < |v.items| && Matches(v.items[k], Lower(v.search_query))))
      && (forall k :: 0 <= k < |r.filtered_indices| ==> r.filtered_indices[k] < |v.items|)
      && (r.VisibleCount() == 0 ==> r.selected == 0 && r.scroll_offset == 0)
      && (r.VisibleCount() > 0 ==> r.selected < r.VisibleCount())
      && (v.selected >= r.VisibleCount() > 0 ==> r.scroll_offset <= r.selected)
      && (v.selected < r.VisibleCount() ==> r.selected == v.selected && r.scroll_offset == v.scroll_offset)
      && r == v.(filtered_indices := r.filtered_indices, selected := r.selected, scroll_offset := r.scroll_offset)
  {
    FilteredSpec(v.items, Lower(v.search_query), |v.items|);
  }

  /** Filtering restores the library invariant, whatever the query did to the visible rows. */
  lemma UpdateFilterKeeps(v: LibraryView)
    requires v.scroll_offset <= v.selected && v.selected_format < |ALL_FORMATS| && v.frame < |SPINNER_FRAMES|
    ensures UpdateFilter(v).Inv()
    ensures |UpdateFilter(v).VisibleItems()| == UpdateFilter(v).VisibleCount()
  {
    UpdateFilterSpec(v);
  }

  /** `library_move_up`: one row up unless at the top, scrolling up to follow. */
  function MoveUp(v: LibraryView): LibraryView {
    if v.selected > 0 then
      var s := v.selected - 1;
      v.(selected := s, scroll_offset := if s < v.scroll_offset then s else v.scroll_offset)
    else v
  }

  /** `library_move_down`: one row down unless on the last visible row. */
  function MoveDown(v: LibraryView): LibraryView {
    var max := if v.VisibleCount() == 0 then 0 else v.VisibleCount() - 1;
    if v.selected < max then v.(selected := v.selected + 1) else v
  }

  /** Moving never leaves the visible rows, and moving up keeps the scroll not below the highlight. */
  lemma MovesStayInRange(v: LibraryView)
    requires v.Inv()
    ensures MoveUp(v).Inv() && MoveDown(v).Inv()
    ensures MoveUp(v).selected == if v.selected > 0 then v.selected - 1 else 0
    ensures MoveDown(v).selected == if v.selected + 1 < v.VisibleCount() then v.selected + 1 else v.selected
    ensures MoveUp(v).scroll_offset <= MoveUp(v).selected
  {
  }

  /** `library_toggle_selection`: mark or unmark the highlighted item's id. */
  function ToggleSelection(v: LibraryView): LibraryView {
    match v.SelectedItem()
    case None => v
    case Some(item) =>
      if item.id in v.selected_items then v.(selected_items := v.selected_items - {item.id})
      else v.(selected_items := v.selected_items + {item.id})
  }

  /** Toggling twice leaves the marks as they were; with nothing highlighted it does nothing. */
  lemma ToggleTwice(v: LibraryView)
    ensures ToggleSelection(ToggleSelection(v)) == v
    ensures v.SelectedItem().None? ==> ToggleSelection(v) == v
    ensures v.SelectedItem().Some? ==>
      (v.SelectedItem().value.id in ToggleSelection(v).selected_items <==> v.SelectedItem().value.id !in v.selected_items)
  {
    if v.SelectedItem().Some? {
      var id := v.SelectedItem().value.id;
      var w := ToggleSelection(v);
      assert w.SelectedItem() == v.SelectedItem();
      if id in v.selected_items {
        assert w.selected_items + {id} == v.selected_items;
      } else {
        assert w.selected_items - {id} == v.selected_items;
      }
    }
  }

  /** The ids of the given rows. */
  function IdsOf(rows: seq<(nat, LibraryItem)>): (r: set<string>)
    ensures forall k :: 0 <= k < |rows| ==> rows[k].1.id in r
    ensures forall id :: id in r ==> exists k :: 0 <= k < |rows| && rows[k].1.id == id
  {
    if rows == [] then {}
    else
      var rest := IdsOf(rows[1..]);
      assert forall k :: 1 <= k < |rows| ==> rows[k] == rows[1..][k - 1];
      {rows[0].1.id} + rest
  }

  /** `library_select_all`: add the visible items' ids. */
  function SelectAll(v: LibraryView): LibraryView {
    v.(selected_items := v.selected_items + IdsOf(v.VisibleItems()))
  }

  /** Selecting all only adds: the marks become the old ones together with every visible id. */
  lemma SelectAllAdds(v: LibraryView)
    ensures v.selected_items <= SelectAll(v).selected_items
    ensures forall id :: id in SelectAll(v).selected_items <==>
      id in v.selected_items || exists k :: 0 <= k < |v.VisibleItems()| && v.VisibleItems()[k].1.id == id
  {
  }

  function ToggleFocus(v: LibraryView): LibraryView {
    v.(focus := if v.focus == List then SearchBar else List)
  }

  /** Toggling focus twice restores it, and always changes it. */
  lemma ToggleFocusInvolution(v: LibraryView)
    ensures ToggleFocus(ToggleFocus(v)) == v
    ensures ToggleFocus(v).focus != v.focus
  {
  }

  /** `library_search_input`: extend the query by one character and refilter. */
  function SearchInput(v: LibraryView, c: char): LibraryView {
    UpdateFilter(v.(search_query := v.search_query + [c]))
  }

  /** `library_search_backspace`: drop the query's last character, if any, and refilter. */
  function SearchBackspace(v: LibraryView): LibraryView {
    var q := v.search_query;
    UpdateFilter(v.(search_query := if q == [] then [] else q[..|q| - 1]))
  }

  /** `library_search_clear`: empty the query, refilter and focus the list. */
  function SearchClear(v: LibraryView): LibraryView {
    UpdateFilter(v.(search_query := [])).(focus := List)
  }

  /** Clearing the search shows every item again, focused on the list. */
  lemma SearchClearShowsAll(v: LibraryView)
    ensures var r := SearchClear(v);
      r.search_query == [] && r.filtered_indices == [] && r.focus == List
      && r.VisibleItems() == Enumerate(v.items, |v.items|)
  {
  }

  /** Typing into the search keeps the library invariant and extends the query. */
  lemma SearchInputKeeps(v: LibraryView, c: char)
    requires v.Inv()
    ensures SearchInput(v, c).Inv() && SearchInput(v, c).search_query == v.search_query + [c]
  {
    UpdateFilterKeeps(v.(search_query := v.search_query + [c]));
  }

  /** Deleting from the search keeps the library invariant. */
  lemma SearchBackspaceKeeps(v: LibraryView)
    requires v.Inv()
    ensures SearchBackspace(v).Inv()
  {
    var q := v.search_query;
    UpdateFilterKeeps(v.(search_query := if q == [] then [] else q[..|q| - 1]));
  }

  /** Deleting from the search drops the query's last character, if it has one. */
  lemma SearchBackspaceDrops(v: LibraryView)
    ensures v.search_query == [] ==> SearchBackspace(v).search_query == []
    ensures v.search_query != [] ==>
      SearchBackspace(v).search_query + [v.search_query[|v.search_query| - 1]] == v.search_query
  {
    var q := v.search_query;
    if q != [] {
      assert q[..|q| - 1] + [q[|q| - 1]] == q;
    }
  }

  /** Clearing the search keeps the library invariant. */
  lemma SearchClearKeeps(v: LibraryView)
    requires v.Inv()
    ensures SearchClear(v).Inv()
  {
    UpdateFilterKeeps(v.(search_query := []));
  }

  /** `library_show_format_selection`: open the format menu, but only with something marked. */
  function ShowFormatSelection(v: LibraryView): LibraryView {
    if v.selected_items == {} then v else v.(mode := FormatSelection)
  }

  /** `format_move_up`. */
  function FormatUp(v: LibraryView): LibraryView {
    if v.selected_format > 0 then v.(selected_format := v.selected_format - 1) else v
  }

  /** `format_move_down`. */
  function FormatDown(v: LibraryView): LibraryView {
    if v.selected_format < |ALL_FORMATS| - 1 then v.(selected_format := v.selected_format + 1) else v
  }

  /** The format highlight stays on the menu, moving one step at most. */
  lemma FormatMovesStayInMenu(v: LibraryView)
    requires v.Inv()
    ensures FormatUp(v).Inv() && FormatDown(v).Inv()
    ensures FormatUp(v).selected_format == if v.selected_format == 0 then 0 else v.selected_format - 1
    ensures FormatDown(v).selected_format == if v.selected_format == |ALL_FORMATS| - 1 then v.selected_format
                                              else v.selected_format + 1
  {
  }

  /** `LibraryState::default`. */
  const DEFAULT_LIBRARY: LibraryView :=
    LibraryView([], [], 0, 0, false, 0, Browse, List, {}, 0, "", None)

  // ---------------------------------------------------------------- download screen

  /** A download slot; the speed measurement is not part of this model. */
  datatype Slot = Slot(item: Option<LibraryItem>, item_id: Option<string>, downloaded: nat, total: Option<nat>)

  const EMPTY_SLOT: Slot := Slot(None, None, 0, None)

  const MAX_CONCURRENT_DOWNLOADS: nat := 3

  const EMPTY_SLOTS: seq<Slot> := [EMPTY_SLOT, EMPTY_SLOT, EMPTY_SLOT]

  datatype ItemResult = ItemResult(item_id: string, result: Result<string, string>)

  /** The number of results that succeeded. */
  function Successes(results: seq<ItemResult>): nat {
    if results == [] then 0 else (if results[0].result.Ok? then 1 else 0) + Successes(results[1..])
  }

  /** The number of results that failed. */
  function Failures(results: seq<ItemResult>): nat {
    if results == [] then 0 else (if results[0].result.Err? then 1 else 0) + Failures(results[1..])
  }

  /** Every result is a success or a failure. */
  lemma {:induction false} ResultsSplit(results: seq<ItemResult>)
    ensures Successes(results) + Failures(results) == |results|
  {
    if results != [] {
      ResultsSplit(results[1..]);
    }
  }

  /** Recording a result adds one to exactly one of the counts. */
  lemma {:induction false} ResultsAppend(results: seq<ItemResult>, x: ItemResult)
    ensures Successes(results + [x]) == Successes(results) + (if x.result.Ok? then 1 else 0)
    ensures Failures(results + [x]) == Failures(results) + (if x.result.Err? then 1 else 0)
  {
    if results != [] {
      assert (results + [x])[1..] == results[1..] + [x];
      ResultsAppend(results[1..], x);
    } else {
      assert [x][1..] == [];
    }
  }

  datatype DownloadView = DownloadView(items: seq<LibraryItem>, total_items: nat, started_count: nat,
                                       is_active: bool, results: seq<ItemResult>, slots: seq<Slot>)

  /** `DownloadState::default`. */
  const DEFAULT_DOWNLOAD: DownloadView := DownloadView([], 0, 0, false, [], EMPTY_SLOTS)

  /** `find_empty_slot`: the first slot showing no item. */
  function FirstEmpty(slots: seq<Slot>): (r: Option<nat>)
    ensures r.Some? ==> (r.value < |slots| && slots[r.value].item.None?
                         && forall k :: 0 <= k < r.value ==> slots[k].item.Some?)
    ensures r.None? <==> forall k :: 0 <= k < |slots| ==> slots[k].item.Some?
  {
    if slots == [] then None
    else if slots[0].item.None? then Some(0)
    else match FirstEmpty(slots[1..])
      case None => None
      case Some(k) => Some(k + 1)
  }

  /** `find_slot_mut`: the first slot assigned the id. */
  function SlotOf(slots: seq<Slot>, id: string): (r: Option<nat>)
    ensures r.Some? ==> (r.value < |slots| && slots[r.value].item_id == Some(id)
                         && forall k :: 0 <= k < r.value ==> slots[k].item_id != Some(id))
    ensures r.None? <==> forall k :: 0 <= k < |slots| ==> slots[k].item_id != Some(id)
  {
    if slots == [] then None
    else if slots[0].item_id == Some(id) then Some(0)
    else match SlotOf(slots[1..], id)
      case None => None
      case Some(k) => Some(k + 1)
  }

  /** The first queued item with the id. */
  function FindItem(items: seq<LibraryItem>, id: string): (r: Option<LibraryItem>)
    ensures r.Some? ==> r.value in items && r.value.id == id
    ensures r.None? <==> forall k :: 0 <= k < |items| ==> items[k].id != id
  {
    if items == [] then None
    else if items[0].id == id then Some(items[0])
    else FindItem(items[1..], id)
  }

  /** `clear_slot`: empty the slot assigned the id, if there is one. */
  function ClearSlot(slots: seq<Slot>, id: string): seq<Slot> {
    match SlotOf(slots, id)
    case None => slots
    case Some(k) => slots[k := EMPTY_SLOT]
  }

  // ---------------------------------------------------------------- the application

  datatype AppView = AppView(
    screen: Screen,
    should_quit: bool,
    credentials: Option<Credentials>,
    login: LoginView,
    library: LibraryView,
    download: DownloadView,
    outbox: seq<Request>,
    output_dir: string)
  {
    predicate Inv() {
      login.Inv() && library.Inv() && |download.slots| == MAX_CONCURRENT_DOWNLOADS
    }
  }

  /** `App::new`: the login screen, nobody logged in, every state at its default. */
  function NewApp(envCookie: Option<string>): (a: AppView)
    ensures a.Inv() && a.screen == LoginScreen && !a.should_quit && a.outbox == []
  {
    AppView(LoginScreen, false, None, DefaultLogin(envCookie), DEFAULT_LIBRARY, DEFAULT_DOWNLOAD, [], ".")
  }

  /** `App::tick`: each spinner turns while its screen is loading. */
  function Tick(a: AppView): AppView {
    a.(login := if a.login.loading then a.login.(frame := NextFrame(a.login.frame)) else a.login,
       library := if a.library.loading then a.library.(frame := NextFrame(a.library.frame)) else a.library)
  }

  /** `login_submit`: refuse an empty cookie, otherwise start loading and ask for validation. */
  function LoginSubmit(a: AppView): AppView {
    if a.login.cookie_input == [] then a.(login := a.login.(error := Some(EMPTY_COOKIE_MESSAGE)))
    else a.(login := a.login.(loading := true, error := None),
            outbox := a.outbox + [ValidateCookie(a.login.cookie_input)])
  }

  /**
   * Submitting an empty cookie only shows the error; otherwise loading starts and exactly one
   * validation request carrying the typed cookie is sent.
   */
  lemma LoginSubmitSpec(a: AppView)
    requires a.Inv()
    ensures var r := LoginSubmit(a);
      && r.Inv()
      && r.screen == a.screen && r.login.cookie_input == a.login.cookie_input
      && (a.login.cookie_input == [] <==> r.outbox == a.outbox)
      && (a.login.cookie_input == [] ==> r.login.error == Some(EMPTY_COOKIE_MESSAGE) && r.login.loading == a.login.loading)
      && (a.login.cookie_input != [] ==>
            r.login.loading && r.login.error.None? && r.outbox == a.outbox + [ValidateCookie(a.login.cookie_input)])
  {
  }

  /** The library items whose ids are marked, in library order. */
  function Chosen(items: seq<LibraryItem>, ids: set<string>): seq<LibraryItem> {
    if items == [] then []
    else
      var rest := Chosen(items[..|items| - 1], ids);
      if items[|items| - 1].id in ids then rest + [items[|items| - 1]] else rest
  }

  /** Where in the library each chosen item comes from. */
  function ChosenIndices(items: seq<LibraryItem>, ids: set<string>): seq<nat> {
    if items == [] then []
    else
      var rest := ChosenIndices(items[..|items| - 1], ids);
      if items[|items| - 1].id in ids then rest + [|items| - 1] else rest
  }

  /** The chosen items are exactly the marked ones, and they keep their order in the library. */
  lemma {:induction false} ChosenSpec(items: seq<LibraryItem>, ids: set<string>)
    ensures var c := Chosen(items, ids);
      var pick := ChosenIndices(items, ids);
      && (forall x :: x in c <==> x in items && x.id in ids)
      && |pick| == |c|
      && (forall k :: 0 <= k < |pick| ==> pick[k] < |items| && items[pick[k]] == c[k])
      && (forall a, b :: 0 <= a < b < |pick| ==> pick[a] < pick[b])
  {
    if items != [] {
      var n := |items| - 1;
      var init := items[..n];
      ChosenSpec(init, ids);
      assert items == init + [items[n]];
      assert forall x :: x in items <==> x in init || x == items[n];
      assert forall k :: 0 <= k < n ==> items[k] == init[k];
    }
  }

  /**
   * `format_confirm`: with no marked item in the library, back to browsing and nothing sent;
   * otherwise a fresh download state for the chosen items, the download screen, and one request
   * to download them in the highlighted format.
   */
  function FormatConfirm(a: AppView): AppView
    requires a.library.selected_format < |ALL_FORMATS|
  {
    var format := ALL_FORMATS[a.library.selected_format];
    var items := Chosen(a.library.items, a.library.selected_items);
    if items == [] then a.(library := a.library.(mode := Browse))
    else a.(download := DEFAULT_DOWNLOAD.(items := items, total_items := |items|),
            screen := DownloadScreen,
            library := a.library.(mode := Browse),
            outbox := a.outbox + [StartBatchDownload(items, format, a.output_dir)])
  }

  /** Confirming sends at most one request, and sends one exactly when some marked item is in the library. */
  lemma FormatConfirmSends(a: AppView)
    requires a.Inv()
    ensures var r := FormatConfirm(a);
      var items := Chosen(a.library.items, a.library.selected_items);
      && r.Inv()
      && r.library.mode == Browse
      && (items == [] ==> r == a.(library := a.library.(mode := Browse)))
      && (items != [] ==>
            r.screen == DownloadScreen && r.download.total_items == |items| && r.download.items == items
            && r.download.started_count == 0 && r.download.results == [] && !r.download.is_active
            && r.outbox == a.outbox + [StartBatchDownload(items, ALL_FORMATS[a.library.selected_format], a.output_dir)])
  {
  }

  /** `download_back_to_library`: once the batch is over, clear the marks and the download state. */
  function BackToLibrary(a: AppView): AppView {
    if a.download.is_active then a
    else a.(library := a.library.(selected_items := {}), screen := LibraryScreen, download := DEFAULT_DOWNLOAD)
  }

  /** `handle_async_response`. */
  function Respond(a: AppView, r: Response): AppView {
    match r
    case CookieValidated(result) =>
      var login := a.login.(loading := false);
      (match result
       case Ok(creds) =>
         a.(login := login.(error := None), credentials := Some(creds), screen := LibraryScreen,
            library := a.library.(loading := true), outbox := a.outbox + [FetchCollection])
       case Err(e) => a.(login := login.(error := Some(e))))
    case CollectionFetched(result) =>
      var library := a.library.(loading := false);
      (match result
       case Ok(items) => a.(library := library.(items := items, selected := 0, scroll_offset := 0, error := None))
       case Err(e) => a.(library := library.(error := Some(e))))
    case BatchDownloadStarted(total) =>
      a.(download := a.download.(total_items := total, is_active := true, started_count := 0, slots := EMPTY_SLOTS))
    case ItemDownloadStarted(id, _) =>
      var d := a.download;
      var item := FindItem(d.items, id);
      var slots := match FirstEmpty(d.slots)
        case None => d.slots
        case Some(k) => d.slots[k := Slot(item, Some(id), 0, None)];
      a.(download := d.(started_count := d.started_count + 1, slots := slots))
    case DownloadProgress(id, downloaded, total) =>
      var d := a.download;
      (match SlotOf(d.slots, id)
       case None => a
       case Some(k) => a.(download := d.(slots := d.slots[k := d.slots[k].(downloaded := downloaded, total := total)])))
    case ItemDownloadComplete(id, _, result) =>
      var d := a.download;
      a.(download := d.(slots := ClearSlot(d.slots, id), results := d.results + [ItemResult(id, result)]))
    case BatchDownloadComplete =>
      a.(download := a.download.(is_active := false, slots := EMPTY_SLOTS))
  }

  /** Worker replies keep the application invariant. */
  lemma RespondKeeps(a: AppView, r: Response)
    requires a.Inv()
    ensures Respond(a, r).Inv()
  {
  }

  /** A validated cookie logs in, moves to the library and asks for the collection, once. */
  lemma CookieAccepted(a: AppView, creds: Credentials)
    ensures var r := Respond(a, CookieValidated(Ok(creds)));
      && r.credentials == Some(creds) && r.screen == LibraryScreen && !r.login.loading && r.library.loading
      && r.outbox == a.outbox + [FetchCollection]
  {
  }

  /** A rejected cookie stays on the login screen with the error shown and nothing sent. */
  lemma CookieRejected(a: AppView, e: string)
    ensures var r := Respond(a, CookieValidated(Err(e)));
      r == a.(login := a.login.(loading := false, error := Some(e)))
  {
  }

  /**
   * A download starting counts one more start and fills the first empty slot, if one is free,
   * leaving the other slots and the results alone.
   */
  lemma ItemStartFillsFirstEmpty(a: AppView, id: string, index: nat)
    ensures var r := Respond(a, ItemDownloadStarted(id, index));
      && r.download.started_count == a.download.started_count + 1
      && r.download.results == a.download.results
      && |r.download.slots| == |a.download.slots|
      && (FirstEmpty(a.download.slots).None? ==> r.download.slots == a.download.slots)
      && (FirstEmpty(a.download.slots).Some? ==>
            var k := FirstEmpty(a.download.slots).value;
            r.download.slots[k] == Slot(FindItem(a.download.items, id), Some(id), 0, None)
            && forall j :: 0 <= j < |r.download.slots| && j != k ==> r.download.slots[j] == a.download.slots[j])
  {
  }

  /** A download finishing empties the slot holding it and records exactly one result. */
  lemma ItemCompleteRecordsOnce(a: AppView, id: string, index: nat, result: Result<string, string>)
    ensures var r := Respond(a, ItemDownloadComplete(id, index, result));
      && r.download.results == a.download.results + [ItemResult(id, result)]
      && Successes(r.download.results) + Failures(r.download.results) == |r.download.results|
      && |r.download.slots| == |a.download.slots|
      && (SlotOf(a.download.slots, id).Some? ==> r.download.slots[SlotOf(a.download.slots, id).value] == EMPTY_SLOT)
      && (forall j :: 0 <= j < |a.download.slots| && Some(j) != SlotOf(a.download.slots, id) ==>
            r.download.slots[j] == a.download.slots[j])
  {
    ResultsSplit(a.download.results + [ItemResult(id, result)]);
  }

  /** The start and the end of a batch empty all three slots. */
  lemma BatchResetsSlots(a: AppView, total: nat)
    ensures Respond(a, BatchDownloadStarted(total)).download.slots == EMPTY_SLOTS
    ensures Respond(a, BatchDownloadComplete).download.slots == EMPTY_SLOTS
    ensures Respond(a, BatchDownloadStarted(total)).download.is_active
    ensures !Respond(a, BatchDownloadComplete).download.is_active
    ensures forall k :: 0 <= k < MAX_CONCURRENT_DOWNLOADS ==> EMPTY_SLOTS[k] == EMPTY_SLOT
  {
  }
}
