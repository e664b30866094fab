/**
 * The terminal application's state objects. Each object's `View` is its fields as a value, and
 * each method is specified by the operation on views in module `TuiState` that it performs.
 */
module Tui {
  import opened Wrappers
  import opened Strings
  import opened Auth
  import opened Library
  import opened Widgets
  import opened TuiState

  /** The login screen: the cookie being typed, the cursor in it, and the validation under way. */
  class LoginState {
    var cookie_input: string
    var cursor_position: nat
    var loading: bool
    const spinner: Spinner
    var error: Option<string>

    function View(): LoginView
      reads this, spinner
    {
      LoginView(cookie_input, cursor_position, loading, spinner.frame, error)
    }

    /** `LoginState::default`, given the environment's cookie, if it sets one. */
    constructor(envCookie: Option<string>)
      ensures View() == DefaultLogin(envCookie) && fresh(spinner)
    {
      var c := envCookie.GetOr("");
      cookie_input := c;
      cursor_position := |c|;
      loading := false;
      spinner := new Spinner();
      error := None;
    }
  }

  /** The library browser. */
  class LibraryState {
    var items: seq<LibraryItem>
    var filtered_indices: seq<nat>
    var selected: nat
    var scroll_offset: nat
    var loading: bool
    const spinner: Spinner
    var mode: LibraryMode
    var focus: LibraryFocus
    var selected_items: set<string>
    var selected_format: nat
    var search_query: string
    var error: Option<string>

    function View(): LibraryView
      reads this, spinner
    {
      LibraryView(items, filtered_indices, selected, scroll_offset, loading, spinner.frame, mode, focus,
                  selected_items, selected_format, search_query, error)
    }

    /** `LibraryState::default`. */
    constructor()
      ensures View() == DEFAULT_LIBRARY && fresh(spinner)
    {
      items := [];
      filtered_indices := [];
      selected := 0;
      scroll_offset := 0;
      loading := false;
      spinner := new Spinner();
      mode := Browse;
      focus := List;
      selected_items := {};
      selected_format := 0;
      search_query := "";
      error := None;
    }

    /** `LibraryState::update_filter`. */
    method UpdateFilter()
      modifies this
      ensures View() == TuiState.UpdateFilter(old(View()))
    {
      if search_query == [] {
        filtered_indices := [];
      } else {
        filtered_indices := Filtered(items, Lower(search_query), |items|);
      }
      var count := if search_query == [] then |items| else |filtered_indices|;
      if count == 0 {
        selected := 0;
        scroll_offset := 0;
      } else if selected >= count {
        selected := count - 1;
        scroll_offset := Min(scroll_offset, selected);
      }
    }
  }

  /** The download screen: the batch, its results and the three slots. */
  class DownloadState {
    var items: seq<LibraryItem>
    var total_items: nat
    var started_count: nat
    var is_active: bool
    var results: seq<ItemResult>
    const slots: array<Slot>

    function View(): DownloadView
      reads this, slots
    {
      DownloadView(items, total_items, started_count, is_active, results, slots[..])
    }

    /** `DownloadState::default`. */
    constructor()
      ensures View() == DEFAULT_DOWNLOAD && fresh(slots)
    {
      items := [];
      total_items := 0;
      started_count := 0;
      is_active := false;
      results := [];
      slots := new Slot[MAX_CONCURRENT_DOWNLOADS](_ => EMPTY_SLOT);
    }

    /** The loop that resets every slot to its default. */
    method ClearAllSlots()
      requires slots.Length == MAX_CONCURRENT_DOWNLOADS
      modifies slots
      ensures View() == old(View()).(slots := EMPTY_SLOTS)
    {
      for k := 0 to slots.Length
        invariant forall j :: 0 <= j < k ==> slots[j] == EMPTY_SLOT
      {
        slots[k] := EMPTY_SLOT;
      }
      assert slots[..] == EMPTY_SLOTS;
    }

    /** Replaces the whole state by a default one holding the given batch. */
    method Reset(batch: seq<LibraryItem>, total: nat)
      requires slots.Length == MAX_CONCURRENT_DOWNLOADS
      modifies this, slots
      ensures View() == DEFAULT_DOWNLOAD.(items := batch, total_items := total)
    {
      items := batch;
      total_items := total;
      started_count := 0;
      is_active := false;
      results := [];
      ClearAllSlots();
    }

    /** `DownloadState::clear_slot`. */
    method ClearSlot(id: string)
      modifies slots
      ensures View() == old(View()).(slots := TuiState.ClearSlot(old(slots[..]), id))
    {
      var k := SlotOf(slots[..], id);
      if k.Some? {
        slots[k.value] := EMPTY_SLOT;
      }
    }
  }

  /** The application: the screen on show, the three screen states and the requests sent out. */
  class App {
    var screen: Screen
    var should_quit: bool
    var credentials: Option<Credentials>
    const login: LoginState
    const library: LibraryState
    const download: DownloadState
    /** Every request handed to the background worker, oldest first. */
    var outbox: seq<Request>
    var output_dir: string

    function View(): AppView
      reads this, login, login.spinner, library, library.spinner, download, download.slots
    {
      AppView(screen, should_quit, credentials, login.View(), library.View(), download.View(), outbox, output_dir)
    }

    ghost predicate Valid()
      reads this, login, login.spinner, library, library.spinner, download, download.slots
    {
      login.spinner != library.spinner && download.slots.Length == MAX_CONCURRENT_DOWNLOADS && View().Inv()
    }

    /** `App::new`. */
    constructor(envCookie: Option<string>)
      ensures Valid() && View() == NewApp(envCookie)
    {
      screen := LoginScreen;
      should_quit := false;
      credentials := None;
      login := new LoginState(envCookie);
      library := new LibraryState();
      download := new DownloadState();
      outbox := [];
      output_dir := ".";
    }

    method Quit()
      requires Valid()
      modifies this
      ensures Valid() && View() == old(View()).(should_quit := true)
    {
      should_quit := true;
    }

    /** `App::tick`. */
    method Tick()
      requires Valid()
      modifies login.spinner, library.spinner
      ensures Valid() && View() == TuiState.Tick(old(View()))
    {
      if login.loading {
        login.spinner.Tick();
      }
      if library.loading {
        library.spinner.Tick();
      }
    }

    /** `App::handle_async_response`: one arm per kind of reply. */
    method HandleAsyncResponse(r: Response)
      requires Valid()
      modifies this, login, library, download, download.slots
      ensures Valid() && View() == Respond(old(View()), r)
    {
      match r
      case CookieValidated(result) => OnCookieValidated(result);
      case CollectionFetched(result) => OnCollectionFetched(result);
      case BatchDownloadStarted(total) =>
        RespondKeeps(View(), r);
        download.total_items := total;
        download.is_active := true;
        download.started_count := 0;
        download.ClearAllSlots();
      case ItemDownloadStarted(id, index) => OnItemDownloadStarted(id, index);
      case DownloadProgress(id, downloaded, total) => OnDownloadProgress(id, downloaded, total);
      case ItemDownloadComplete(id, index, result) => OnItemDownloadComplete(id, index, result);
      case BatchDownloadComplete =>
        RespondKeeps(View(), r);
        download.is_active := false;
        download.ClearAllSlots();
    }

    method OnCookieValidated(result: Result<Credentials, string>)
      requires Valid()
      modifies this, login, library
      ensures Valid() && View() == Respond(old(View()), CookieValidated(result))
    {
      RespondKeeps(View(), CookieValidated(result));
      login.loading := false;
      match result {
        case Ok(creds) =>
          credentials := Some(creds);
          login.error := None;
          screen := LibraryScreen;
          library.loading := true;
          outbox := outbox + [FetchCollection];
        case Err(e) =>
          login.error := Some(e);
      }
    }

    method OnCollectionFetched(result: Result<seq<LibraryItem>, string>)
      requires Valid()
      modifies library
      ensures Valid() && View() == Respond(old(View()), CollectionFetched(result))
    {
      RespondKeeps(View(), CollectionFetched(result));
      library.loading := false;
      match result {
        case Ok(items) =>
          library.items := items;
          library.selected := 0;
          library.scroll_offset := 0;
          library.error := None;
        case Err(e) =>
          library.error := Some(e);
      }
    }

    method OnItemDownloadStarted(id: string, index: nat)
      requires Valid()
      modifies download, download.slots
      ensures Valid() && View() == Respond(old(View()), ItemDownloadStarted(id, index))
    {
      RespondKeeps(View(), ItemDownloadStarted(id, index));
      download.started_count := download.started_count + 1;
      var item := FindItem(download.items, id);
      var k := FirstEmpty(download.slots[..]);
      if k.Some? {
        download.slots[k.value] := Slot(item, Some(id), 0, None);
      }
    }

    method OnDownloadProgress(id: string, downloaded: nat, total: Option<nat>)
      requires Valid()
      modifies download.slots
      ensures Valid() && View() == Respond(old(View()), DownloadProgress(id, downloaded, total))
    {
      RespondKeeps(View(), DownloadProgress(id, downloaded, total));
      var k := SlotOf(download.slots[..], id);
      if k.Some? {
        download.slots[k.value] := download.slots[k.value].(downloaded := downloaded, total := total);
      }
    }

    method OnItemDownloadComplete(id: string, index: nat, result: Result<string, string>)
      requires Valid()
      modifies download, download.slots
      ensures Valid() && View() == Respond(old(View()), ItemDownloadComplete(id, index, result))
    {
      RespondKeeps(View(), ItemDownloadComplete(id, index, result));
      download.ClearSlot(id);
      download.results := download.results + [ItemResult(id, result)];
    }

    /** `App::login_input_char`. */
    method LoginInputChar(c: char)
      requires Valid()
      modifies login
      ensures Valid() && login.View() == InputChar(old(login.View()), c)
    {
      InputCharInserts(login.View(), c);
      var p := login.cursor_position;
      login.cookie_input := login.cookie_input[..p] + [c] + login.cookie_input[p..];
      login.cursor_position := p + 1;
    }

    /** `App::login_delete_char`. */
    method LoginDeleteChar()
      requires Valid()
      modifies login
      ensures Valid() && login.View() == DeleteChar(old(login.View()))
    {
      DeleteCharSpec(login.View());
      if login.cursor_position > 0 {
        login.cursor_position := login.cursor_position - 1;
        var p := login.cursor_position;
        login.cookie_input := login.cookie_input[..p] + login.cookie_input[p + 1..];
      }
    }

    /** `App::login_submit`. */
    method LoginSubmit()
      requires Valid()
      modifies this, login
      ensures Valid() && View() == TuiState.LoginSubmit(old(View()))
    {
      if login.cookie_input == [] {
        login.error := Some(EMPTY_COOKIE_MESSAGE);
        return;
      }
      login.loading := true;
      login.error := None;
      outbox := outbox + [ValidateCookie(login.cookie_input)];
    }

    /** `App::library_move_up`. */
    method LibraryMoveUp()
      requires Valid()
      modifies library
      ensures Valid() && library.View() == MoveUp(old(library.View()))
    {
      MovesStayInRange(library.View());
      if library.selected > 0 {
        library.selected := library.selected - 1;
        if library.selected < library.scroll_offset {
          library.scroll_offset := library.selected;
        }
      }
    }

    /** `App::library_move_down`. */
    method LibraryMoveDown()
      requires Valid()
      modifies library
      ensures Valid() && library.View() == MoveDown(old(library.View()))
    {
      MovesStayInRange(library.View());
      var count := library.View().VisibleCount();
      var max := if count == 0 then 0 else count - 1;
      if library.selected < max {
        library.selected := library.selected + 1;
      }
    }

    /** `App::library_toggle_selection`. */
    method LibraryToggleSelection()
      requires Valid()
      modifies library
      ensures Valid() && library.View() == ToggleSelection(old(library.View()))
    {
      var item := library.View().SelectedItem();
      if item.Some? {
        var id := item.value.id;
        if id in library.selected_items {
          library.selected_items := library.selected_items - {id};
        } else {
          library.selected_items := library.selected_items + {id};
        }
      }
    }

    /** `App::library_select_all`. */
    method LibrarySelectAll()
      requires Valid()
      modifies library
      ensures Valid() && library.View() == SelectAll(old(library.View()))
    {
      library.selected_items := library.selected_items + IdsOf(library.View().VisibleItems());
    }

    /** `App::library_focus_search`. */
    method LibraryFocusSearch()
      requires Valid()
      modifies library
      ensures Valid() && library.View() == old(library.View()).(focus := SearchBar)
    {
      library.focus := SearchBar;
    }

    /** `App::library_focus_list`. */
    method LibraryFocusList()
      requires Valid()
      modifies library
      ensures Valid() && library.View() == old(library.View()).(focus := List)
    {
      library.focus := List;
    }

    /** `App::library_toggle_focus`. */
    method LibraryToggleFocus()
      requires Valid()
      modifies library
      ensures Valid() && library.View() == ToggleFocus(old(library.View()))
    {
      library.focus := if library.focus == List then SearchBar else List;
    }

    /** `App::library_search_input`. */
    method LibrarySearchInput(c: char)
      requires Valid()
      modifies library
      ensures Valid() && library.View() == SearchInput(old(library.View()), c)
    {
      SearchInputKeeps(library.View(), c);
      library.search_query := library.search_query + [c];
      library.UpdateFilter();
    }

    /** `App::library_search_backspace`. */
    method LibrarySearchBackspace()
      requires Valid()
      modifies library
      ensures Valid() && library.View() == SearchBackspace(old(library.View()))
    {
      SearchBackspaceKeeps(library.View());
      var q := library.search_query;
      library.search_query := if q == [] then [] else q[..|q| - 1];
      library.UpdateFilter();
    }

    /** `App::library_search_clear`. */
    method LibrarySearchClear()
      requires Valid()
      modifies library
      ensures Valid() && library.View() == SearchClear(old(library.View()))
    {
      SearchClearKeeps(library.View());
      library.search_query := [];
      library.UpdateFilter();
      library.focus := List;
    }

    /** `App::library_clear_selection`. */
    method LibraryClearSelection()
      requires Valid()
      modifies library
      ensures Valid() && library.View() == old(library.View()).(selected_items := {})
    {
      library.selected_items := {};
    }

    /** `App::library_show_format_selection`. */
    method LibraryShowFormatSelection()
      requires Valid()
      modifies library
      ensures Valid() && library.View() == ShowFormatSelection(old(library.View()))
    {
      if library.selected_items == {} {
        return;
      }
      library.mode := FormatSelection;
    }

    /** `App::library_cancel_format_selection`. */
    method LibraryCancelFormatSelection()
      requires Valid()
      modifies library
      ensures Valid() && library.View() == old(library.View()).(mode := Browse)
    {
      library.mode := Browse;
    }

    /** `App::format_move_up`. */
    method FormatMoveUp()
      requires Valid()
      modifies library
      ensures Valid() && library.View() == FormatUp(old(library.View()))
    {
      if library.selected_format > 0 {
        library.selected_format := library.selected_format - 1;
      }
    }

    /** `App::format_move_down`. */
    method FormatMoveDown()
      requires Valid()
      modifies library
      ensures Valid() && library.View() == FormatDown(old(library.View()))
    {
      if library.selected_format < |ALL_FORMATS| - 1 {
        library.selected_format := library.selected_format + 1;
      }
    }

    /** `App::format_confirm`. */
    method FormatConfirm()
      requires Valid()
      modifies this, library, download, download.slots
      ensures Valid() && View() == TuiState.FormatConfirm(old(View()))
    {
      FormatConfirmSends(View());
      var format := ALL_FORMATS[library.selected_format];
      var items := Chosen(library.items, library.selected_items);
      if items == [] {
        library.mode := Browse;
        return;
      }
      download.Reset(items, |items|);
      screen := DownloadScreen;
      library.mode := Browse;
      outbox := outbox + [StartBatchDownload(items, format, output_dir)];
    }

    /** `App::download_back_to_library`. */
    method DownloadBackToLibrary()
      requires Valid()
      modifies this, library, download, download.slots
      ensures Valid() && View() == BackToLibrary(old(View()))
    {
      if !download.is_active {
        library.selected_items := {};
        screen := LibraryScreen;
        download.Reset([], 0);
      }
    }
  }
}
