/**
 * Key handling of the terminal interface: which application action each key triggers on each
 * screen. `KeyStep` states it on views; the handler methods perform it on an `App`.
 */
module Keys {
  import opened Wrappers
  import opened TuiState
  import opened Tui

  /** The key codes the handlers tell apart; every other key is `OtherKey`. */
  datatype KeyCode = Char(c: char) | Backspace | Enter | Esc | Tab | Up | Down | OtherKey

  /** A key press and whether Control was held. */
  datatype KeyEvent = KeyEvent(code: KeyCode, ctrl: bool)

  function Quit(a: AppView): AppView {
    a.(should_quit := true)
  }

  /** `handle_login_keys`. */
  function LoginKeys(a: AppView, code: KeyCode): AppView
    requires a.Inv()
  {
    if a.login.loading then a
    else match code
      case Char(c) => if c == 'q' then Quit(a) else a.(login := InputChar(a.login, c))
      case Backspace => a.(login := DeleteChar(a.login))
      case Enter => LoginSubmit(a)
      case _ => a
  }

  /** The character keys of the library list. */
  function ListChar(a: AppView, c: char): AppView {
    var v := a.library;
    if c == 'q' then Quit(a)
    else if c == 'j' then a.(library := MoveDown(v))
    else if c == 'k' then a.(library := MoveUp(v))
    else if c == ' ' then a.(library := ToggleSelection(v))
    else if c == 'a' then a.(library := SelectAll(v))
    else if c == 'n' then a.(library := v.(selected_items := {}))
    else if c == 'd' then a.(library := ShowFormatSelection(v))
    else if c == '/' then a.(library := v.(focus := SearchBar))
    else a
  }

  /** The keys of the library list. */
  function ListKeys(a: AppView, code: KeyCode): AppView {
    var v := a.library;
    match code
    case Char(c) => ListChar(a, c)
    case Down => a.(library := MoveDown(v))
    case Up => a.(library := MoveUp(v))
    case Enter => a.(library := ToggleSelection(v))
    case Esc => if v.search_query != [] then a.(library := SearchClear(v)) else a.(library := v.(selected_items := {}))
    case _ => a
  }

  /** The keys of the search bar. */
  function SearchKeys(a: AppView, code: KeyCode): AppView {
    var v := a.library;
    match code
    case Char(c) => a.(library := SearchInput(v, c))
    case Backspace => a.(library := SearchBackspace(v))
    case Esc => a.(library := SearchClear(v))
    case Down => a.(library := MoveDown(v))
    case Up => a.(library := MoveUp(v))
    case Enter => a.(library := v.(focus := List))
    case _ => a
  }

  /** The keys of the format menu. */
  function FormatKeys(a: AppView, code: KeyCode): AppView
    requires a.Inv()
  {
    var v := a.library;
    match code
    case Char(c) =>
      if c == 'q' then a.(library := v.(mode := Browse))
      else if c == 'j' then a.(library := FormatDown(v))
      else if c == 'k' then a.(library := FormatUp(v))
      else a
    case Esc => a.(library := v.(mode := Browse))
    case Down => a.(library := FormatDown(v))
    case Up => a.(library := FormatUp(v))
    case Enter => FormatConfirm(a)
    case _ => a
  }

  /** `handle_library_keys`. */
  function LibraryKeys(a: AppView, code: KeyCode): AppView
    requires a.Inv()
  {
    if a.library.loading then a
    else match a.library.mode
      case Browse =>
        if code == Tab then a.(library := ToggleFocus(a.library))
        else if a.library.focus == SearchBar then SearchKeys(a, code)
        else ListKeys(a, code)
      case FormatSelection => FormatKeys(a, code)
  }

  /** `handle_download_keys`. */
  function DownloadKeys(a: AppView, code: KeyCode): AppView {
    match code
    case Char(c) => if c == 'q' && !a.download.is_active then Quit(a) else a
    case Enter => BackToLibrary(a)
    case _ => a
  }

  /** `handle_key_event`: Control-C quits from anywhere; otherwise the screen's handler decides. */
  function KeyStep(a: AppView, key: KeyEvent): AppView
    requires a.Inv()
  {
    if key.ctrl && key.code == Char('c') then Quit(a)
    else match a.screen
      case LoginScreen => LoginKeys(a, key.code)
      case LibraryScreen => LibraryKeys(a, key.code)
      case DownloadScreen => DownloadKeys(a, key.code)
  }

  // ---------------------------------------------------------------- properties

  /** Control-C quits on every screen and changes nothing else. */
  lemma CtrlCQuits(a: AppView, key: KeyEvent)
    requires a.Inv() && key.ctrl && key.code == Char('c')
    ensures KeyStep(a, key) == a.(should_quit := true)
  {
  }

  /** While a cookie is being validated, the login screen ignores every key but Control-C. */
  lemma LoginIgnoresKeysWhileLoading(a: AppView, key: KeyEvent)
    requires a.Inv() && a.screen == LoginScreen && a.login.loading
    ensures KeyStep(a, key) == if key.ctrl && key.code == Char('c') then a.(should_quit := true) else a
  {
  }

  /** On the login screen 'q' quits instead of being typed; other characters are typed at the cursor. */
  lemma LoginKeyActions(a: AppView, code: KeyCode)
    requires a.Inv() && !a.login.loading
    ensures code == Char('q') ==> LoginKeys(a, code) == a.(should_quit := true)
    ensures code.Char? && code.c != 'q' ==> LoginKeys(a, code) == a.(login := InputChar(a.login, code.c))
    ensures code == Backspace ==> LoginKeys(a, code) == a.(login := DeleteChar(a.login))
    ensures code == Enter ==> LoginKeys(a, code) == LoginSubmit(a)
    ensures code in {Esc, Tab, Up, Down, OtherKey} ==> LoginKeys(a, code) == a
  {
  }

  /** While the collection loads, the library screen ignores every key. */
  lemma LibraryIgnoresKeysWhileLoading(a: AppView, code: KeyCode)
    requires a.Inv() && a.library.loading
    ensures LibraryKeys(a, code) == a
  {
  }

  /** When browsing, Tab switches focus from either element. */
  lemma TabTogglesFocus(a: AppView)
    requires a.Inv() && !a.library.loading && a.library.mode == Browse
    ensures LibraryKeys(a, Tab) == a.(library := a.library.(focus := if a.library.focus == List then SearchBar else List))
  {
  }

  /** Escape in the list clears the search if there is one, and otherwise the marks. */
  lemma EscapeInList(a: AppView)
    requires a.Inv() && !a.library.loading && a.library.mode == Browse && a.library.focus == List
    ensures a.library.search_query != [] ==> LibraryKeys(a, Esc) == a.(library := SearchClear(a.library))
    ensures a.library.search_query == [] ==> LibraryKeys(a, Esc) == a.(library := a.library.(selected_items := {}))
  {
  }

  /** In the format menu q and Escape cancel, j, k and the arrows move, Enter confirms. */
  lemma FormatMenuKeys(a: AppView)
    requires a.Inv() && !a.library.loading && a.library.mode == FormatSelection
    ensures LibraryKeys(a, Char('q')) == LibraryKeys(a, Esc) == a.(library := a.library.(mode := Browse))
    ensures LibraryKeys(a, Char('j')) == LibraryKeys(a, Down) == a.(library := FormatDown(a.library))
    ensures LibraryKeys(a, Char('k')) == LibraryKeys(a, Up) == a.(library := FormatUp(a.library))
    ensures LibraryKeys(a, Enter) == FormatConfirm(a)
  {
  }

  /** On the download screen 'q' quits only once the batch is over, and so does Enter's return. */
  lemma DownloadScreenWaits(a: AppView)
    ensures DownloadKeys(a, Char('q')).should_quit <==> a.should_quit || !a.download.is_active
    ensures a.download.is_active ==> DownloadKeys(a, Char('q')) == a && DownloadKeys(a, Enter) == a
    ensures !a.download.is_active ==>
      DownloadKeys(a, Enter) == a.(library := a.library.(selected_items := {}), screen := LibraryScreen,
                                   download := DEFAULT_DOWNLOAD)
  {
  }

  lemma LoginKeysKeep(a: AppView, code: KeyCode)
    requires a.Inv()
    ensures LoginKeys(a, code).Inv()
  {
    DeleteCharSpec(a.login);
    if code.Char? {
      InputCharInserts(a.login, code.c);
    }
  }

  /** Changing only the marks, the focus or the mode keeps the library invariant. */
  lemma MarksKeep(v: LibraryView, marks: set<string>, focus: LibraryFocus, mode: LibraryMode)
    requires v.Inv()
    ensures v.(selected_items := marks, focus := focus, mode := mode).Inv()
  {
    var w := v.(selected_items := marks, focus := focus, mode := mode);
    assert w.VisibleCount() == v.VisibleCount();
  }

  lemma ListCharKeep(a: AppView, c: char)
    requires a.Inv()
    ensures ListChar(a, c).Inv()
  {
    var v := a.library;
    if c == 'j' || c == 'k' {
      MovesStayInRange(v);
    } else if c == ' ' {
      MarksKeep(v, ToggleSelection(v).selected_items, v.focus, v.mode);
      ToggleOnlyMarks(v);
      assert ListChar(a, c) == a.(library := ToggleSelection(v));
    } else if c == 'a' {
      MarksKeep(v, SelectAll(v).selected_items, v.focus, v.mode);
      assert ListChar(a, c) == a.(library := SelectAll(v));
    } else if c == 'n' {
      MarksKeep(v, {}, v.focus, v.mode);
    } else if c == 'd' {
      MarksKeep(v, v.selected_items, v.focus, FormatSelection);
    } else if c == '/' {
      MarksKeep(v, v.selected_items, SearchBar, v.mode);
    }
  }

  lemma ToggleOnlyMarks(v: LibraryView)
    ensures ToggleSelection(v) == v.(selected_items := ToggleSelection(v).selected_items, focus := v.focus, mode := v.mode)
  {
  }

  lemma ListKeysKeep(a: AppView, code: KeyCode)
    requires a.Inv()
    ensures ListKeys(a, code).Inv()
  {
    var v := a.library;
    match code {
      case Char(c) => ListCharKeep(a, c);
      case Down => MovesStayInRange(v);
      case Up => MovesStayInRange(v);
      case Enter => ListCharKeep(a, ' ');
      case Esc =>
        SearchClearKeeps(v);
        MarksKeep(v, {}, v.focus, v.mode);
      case _ =>
    }
  }

  lemma SearchKeysKeep(a: AppView, code: KeyCode)
    requires a.Inv()
    ensures SearchKeys(a, code).Inv()
  {
    MovesStayInRange(a.library);
    SearchBackspaceKeeps(a.library);
    SearchClearKeeps(a.library);
    if code.Char? {
      SearchInputKeeps(a.library, code.c);
    }
  }

  lemma FormatKeysKeep(a: AppView, code: KeyCode)
    requires a.Inv()
    ensures FormatKeys(a, code).Inv()
  {
    FormatMovesStayInMenu(a.library);
    FormatConfirmSends(a);
  }

  /** Every key keeps the application invariant. */
  lemma KeyStepKeeps(a: AppView, key: KeyEvent)
    requires a.Inv()
    ensures KeyStep(a, key).Inv()
  {
    if !(key.ctrl && key.code == Char('c')) {
      match a.screen {
        case LoginScreen => LoginKeysKeep(a, key.code);
        case LibraryScreen => LibraryKeysKeep(a, key.code);
        case DownloadScreen => DownloadKeysKeep(a, key.code);
      }
    }
  }

  lemma LibraryKeysKeep(a: AppView, code: KeyCode)
    requires a.Inv()
    ensures LibraryKeys(a, code).Inv()
  {
    var v := a.library;
    if !v.loading {
      if v.mode == FormatSelection {
        FormatKeysKeep(a, code);
      } else if code == Tab {
        MarksKeep(v, v.selected_items, ToggleFocus(v).focus, v.mode);
      } else if v.focus == SearchBar {
        SearchKeysKeep(a, code);
      } else {
        ListKeysKeep(a, code);
      }
    }
  }

  lemma DownloadKeysKeep(a: AppView, code: KeyCode)
    requires a.Inv()
    ensures DownloadKeys(a, code).Inv()
  {
    var v := a.library;
    MarksKeep(v, {}, v.focus, v.mode);
  }

  // ---------------------------------------------------------------- the handlers

  /** `handle_login_keys`. */
  method HandleLoginKeys(app: App, code: KeyCode)
    requires app.Valid()
    modifies app, app.login
    ensures app.Valid() && app.View() == LoginKeys(old(app.View()), code)
  {
    if app.login.loading {
      return;
    }
    match code {
      case Char(c) =>
        if c == 'q' {
          app.Quit();
        } else {
          app.LoginInputChar(c);
        }
      case Backspace => app.LoginDeleteChar();
      case Enter => app.LoginSubmit();
      case _ =>
    }
  }

  /** The list's part of `handle_library_keys`. */
  method HandleListKeys(app: App, code: KeyCode)
    requires app.Valid() && !app.library.loading && app.library.mode == Browse && app.library.focus == List
    modifies app, app.library
    ensures app.Valid() && app.View() == ListKeys(old(app.View()), code)
  {
    match code {
      case Char(c) =>
        if c == 'q' {
          app.Quit();
        } else if c == 'j' {
          app.LibraryMoveDown();
        } else if c == 'k' {
          app.LibraryMoveUp();
        } else if c == ' ' {
          app.LibraryToggleSelection();
        } else if c == 'a' {
          app.LibrarySelectAll();
        } else if c == 'n' {
          app.LibraryClearSelection();
        } else if c == 'd' {
          app.LibraryShowFormatSelection();
        } else if c == '/' {
          app.LibraryFocusSearch();
        }
      case Down => app.LibraryMoveDown();
      case Up => app.LibraryMoveUp();
      case Enter => app.LibraryToggleSelection();
      case Esc =>
        if app.library.search_query != [] {
          app.LibrarySearchClear();
        } else {
          app.LibraryClearSelection();
        }
      case _ =>
    }
  }

  /** The search bar's part of `handle_library_keys`. */
  method HandleSearchKeys(app: App, code: KeyCode)
    requires app.Valid()
    modifies app.library
    ensures app.Valid() && app.View() == SearchKeys(old(app.View()), code)
  {
    match code {
      case Char(c) => app.LibrarySearchInput(c);
      case Backspace => app.LibrarySearchBackspace();
      case Esc => app.LibrarySearchClear();
      case Down => app.LibraryMoveDown();
      case Up => app.LibraryMoveUp();
      case Enter => app.LibraryFocusList();
      case _ =>
    }
  }

  /** The format menu's part of `handle_library_keys`. */
  method HandleFormatKeys(app: App, code: KeyCode)
    requires app.Valid()
    modifies app, app.library, app.download, app.download.slots
    ensures app.Valid() && app.View() == FormatKeys(old(app.View()), code)
  {
    match code {
      case Char(c) =>
        if c == 'q' {
          app.LibraryCancelFormatSelection();
        } else if c == 'j' {
          app.FormatMoveDown();
        } else if c == 'k' {
          app.FormatMoveUp();
        }
      case Esc => app.LibraryCancelFormatSelection();
      case Down => app.FormatMoveDown();
      case Up => app.FormatMoveUp();
      case Enter => app.FormatConfirm();
      case _ =>
    }
  }

  /** `handle_library_keys`. */
  method HandleLibraryKeys(app: App, code: KeyCode)
    requires app.Valid()
    modifies app, app.library, app.download, app.download.slots
    ensures app.Valid() && app.View() == LibraryKeys(old(app.View()), code)
  {
    if app.library.loading {
      return;
    }
    match app.library.mode {
      case Browse =>
        if code == Tab {
          app.LibraryToggleFocus();
          return;
        }
        if app.library.focus == SearchBar {
          HandleSearchKeys(app, code);
        } else {
          HandleListKeys(app, code);
        }
      case FormatSelection => HandleFormatKeys(app, code);
    }
  }

  /** `handle_download_keys`. */
  method HandleDownloadKeys(app: App, code: KeyCode)
    requires app.Valid()
    modifies app, app.library, app.download, app.download.slots
    ensures app.Valid() && app.View() == DownloadKeys(old(app.View()), code)
  {
    match code {
      case Char(c) =>
        if c == 'q' && !app.download.is_active {
          app.Quit();
        }
      case Enter => app.DownloadBackToLibrary();
      case _ =>
    }
  }

  /** `handle_key_event`. */
  method HandleKeyEvent(app: App, key: KeyEvent)
    requires app.Valid()
    modifies app, app.login, app.library, app.download, app.download.slots
    ensures app.Valid() && app.View() == KeyStep(old(app.View()), key)
  {
    if key.ctrl && key.code == Char('c') {
      app.Quit();
      return;
    }
    match app.screen {
      case LoginScreen => HandleLoginKeys(app, key.code);
      case LibraryScreen => HandleLibraryKeys(app, key.code);
      case DownloadScreen => HandleDownloadKeys(app, key.code);
    }
  }
}
