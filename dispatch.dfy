/**
 * The event loop of `run_app`: each key clears the status line and is
 * routed, by the current input mode, to one `App` operation. The routing
 * is the pure function `Route`; `HandleKey` performs what it selects, and
 * `RunApp` repeats that until the quit flag is set. Operations whose code
 * is not part of this model (the clipboard, the jump list and the help
 * screen) are returned to the caller as `External` requests.
 */
module Dispatch {
  import opened Common
  import opened Paths
  import opened FileBrowsing
  import opened Application
  import opened Actions

  /** The key codes the dispatcher distinguishes; every other code is `OtherKey`. */
  datatype KeyCode =
    | Char(c: char)
    | Enter | Esc | Backspace | Left | Right | Up | Down
    | PageUp | PageDown | Tab | BackTab
    | OtherKey

  /** A key press; `ctrl` is whether the modifiers contain CONTROL. */
  datatype KeyEvent = KeyEvent(code: KeyCode, ctrl: bool)

  /** Whether the key is `c` held with Control. */
  predicate Ctrl(key: KeyEvent, c: char)
  {
    key.code == Char(c) && key.ctrl
  }

  /** The quitting keys: `q` or Ctrl+C in the list, Ctrl+C in the preview, nowhere else. */
  predicate QuitKey(mode: InputMode, key: KeyEvent)
  {
    || (mode == Normal && (key.code == Char('q') || Ctrl(key, 'c')))
    || (mode == Preview && Ctrl(key, 'c'))
  }

  /** The arms for the file list (`InputMode::Normal`), in order. */
  function RouteList(key: KeyEvent): (a: Action)
    ensures a == Quit <==> key.code == Char('q') || Ctrl(key, 'c')
    ensures a.OpenEditor? <==> key.code == Char('e')
    ensures !UsesSearch(a) && !a.CancelSearch? && KindOf(a) != Scrolling
  {
    var code := key.code;
    if code == Char('q') then Quit
    else if code == Char('j') || code == Down then MoveDown
    else if code == Char('k') || code == Up then MoveUp
    else if code == Char('l') || code == Enter || code == Right then EnterSelected
    else if code == Char('h') || code == Backspace || code == Left then GoParent
    else if code == Char('g') then GoToTop
    else if code == Char('G') then GoToBottom
    else if code == Char('e') then OpenEditor
    else if code == Char('/') then StartSearch(false)
    else if code == Char('D') then StartSearch(true)
    else if code == Char('.') then ToggleHidden
    else if code == Char('r') then Reload
    else if code == Char('y') then Request(CopyPath)
    else if code == Char('f') then Request(StartJump)
    else if code == Char(';') then Request(JumpNext)
    else if code == Char(',') then Request(JumpPrev)
    else if code == Char('?') then Request(ShowHelp)
    else if Ctrl(key, 'c') then Quit
    else Ignore
  }

  /**
   * The arms for the preview (`InputMode::Preview`), in order; `height` is
   * the preview height the paging keys read. A scroll step is a line, half
   * a page or a page less two lines.
   */
  function RoutePreview(key: KeyEvent, height: nat): (a: Action)
    ensures a == Quit <==> Ctrl(key, 'c')
    ensures a.OpenEditor? <==> key.code == Char('e')
    ensures KindOf(a) == Scrolling || a == Quit || a == OpenEditor || a == Ignore
    ensures a.ScrollDown? || a.ScrollUp? ==> a.amount <= Max(1, height) && (a.amount == 0 ==> height <= 2)
  {
    var code := key.code;
    if code == Char('q') || code == Esc || code == Char('h') || code == Left then ExitPreview
    else if code == Char('j') || code == Down then ScrollDown(1)
    else if code == Char('k') || code == Up then ScrollUp(1)
    else if Ctrl(key, 'd') then ScrollDown(Max(height / 2, 1))
    else if Ctrl(key, 'u') then ScrollUp(Max(height / 2, 1))
    else if Ctrl(key, 'f') then ScrollDown(SatSub(height, 2))
    else if Ctrl(key, 'b') then ScrollUp(SatSub(height, 2))
    else if code == PageUp then ScrollUp(SatSub(height, 2))
    else if code == PageDown then ScrollDown(SatSub(height, 2))
    else if code == Char('g') then ScrollToTop
    else if code == Char('G') then ScrollToEnd
    else if code == Char('e') then OpenEditor
    else if Ctrl(key, 'c') then Quit
    else Ignore
  }

  /** The arms while typing a query (`InputMode::SearchInput`): every character is text, except Ctrl+C. */
  function RouteQuery(key: KeyEvent): (a: Action)
    ensures a.ExecuteSearch? <==> key.code == Enter
    ensures key.code.Char? && !Ctrl(key, 'c') ==> a == InsertChar(key.code.c)
    ensures Ctrl(key, 'c') ==> a == CancelSearch
    ensures KindOf(a) == Querying || KindOf(a) == Editing || a == Ignore
  {
    var code := key.code;
    if code == Enter then ExecuteSearch
    else if code == Esc then CancelSearch
    else if code == Backspace then DeleteChar
    else if Ctrl(key, 'c') then CancelSearch
    else if code.Char? then InsertChar(code.c)
    else Ignore
  }

  /** The arms on the result list (`InputMode::SearchResult`), in order. */
  function RouteResults(key: KeyEvent): (a: Action)
    ensures a.ConfirmResult? <==> key.code == Enter
    ensures Ctrl(key, 'c') ==> a == CancelSearch
    ensures KindOf(a) == Confirming || KindOf(a) == Querying || KindOf(a) == Editing || a == Ignore
    ensures !a.ExecuteSearch?
  {
    var code := key.code;
    if code == Enter then ConfirmResult
    else if code == Esc || code == Char('q') then CancelSearch
    else if code == Up || code == Char('k') || code == BackTab then ResultUp
    else if code == Down || code == Char('j') || code == Tab then ResultDown
    else if Ctrl(key, 'c') then CancelSearch
    else if code == Char('/') then Research
    else Ignore
  }

  /**
   * The key match of `run_app`: by the mode the key arrives in, the first
   * arm whose pattern (and guard) fits the key decides; `_` is `Ignore`.
   */
  function Route(mode: InputMode, key: KeyEvent, height: nat): (a: Action)
    ensures a == Quit <==> QuitKey(mode, key)
    ensures mode == Help ==>
      && (a == Request(CloseHelp) <==> key.code in {Esc, Char('q'), Char('?')})
      && (a == Request(CloseHelp) || a == Ignore)
    ensures mode == JumpInput ==>
      a == Request(if key.code.Char? then ExecuteJump(key.code.c) else CancelJump)
    // While typing a query every character is text, except Ctrl+C.
    ensures mode == SearchInput && key.code.Char? && !Ctrl(key, 'c') ==> a == InsertChar(key.code.c)
    ensures mode in {SearchInput, SearchResult} && Ctrl(key, 'c') ==> a == CancelSearch
    ensures MovesBrowser(a) || a.StartSearch? ==> mode == Normal
    ensures a.ExitPreview? || a.ScrollToTop? || a.ScrollToEnd? ==> mode == Preview
    // A scroll step is a line, half a page or a page less two lines.
    ensures a.ScrollDown? || a.ScrollUp? ==>
      && mode == Preview
      && a.amount <= Max(1, height)
      && (a.amount == 0 ==> height <= 2)
    ensures UsesSearch(a) ==> mode in {SearchInput, SearchResult}
    ensures a.ConfirmResult? <==> mode == SearchResult && key.code == Enter
    ensures a.ExecuteSearch? <==> mode == SearchInput && key.code == Enter
    ensures a.CancelSearch? ==> mode in {SearchInput, SearchResult}
    ensures a.OpenEditor? <==> mode in {Normal, Preview} && key.code == Char('e')
  {
    match mode
    case Normal => RouteList(key)
    case Help =>
      if key.code == Esc || key.code == Char('q') || key.code == Char('?') then Request(CloseHelp)
      else Ignore
    case JumpInput =>
      if key.code.Char? then Request(ExecuteJump(key.code.c))
      else Request(CancelJump)
    case Preview => RoutePreview(key, height)
    case SearchInput => RouteQuery(key)
    case SearchResult => RouteResults(key)
  }

  /** `Esc` in the preview returns to the file list and changes nothing else in the session. */
  lemma EscLeavesPreview(key: KeyEvent, height: nat, s: Session, selected: Option<FileEntry>, found: seq<Searching.SearchResult>)
    requires key.code == Esc
    ensures Route(Preview, key, height) == ExitPreview
    ensures SessionAfter(Route(Preview, key, height), s, selected, found) == s.(mode := Normal)
  {
  }

  /** While a query is typed, a character key and then `Backspace` leave the session as it was. */
  lemma BackspaceUndoesTyping(c: char, height: nat, s: Session, selected: Option<FileEntry>, found: seq<Searching.SearchResult>)
    ensures var typed := SessionAfter(Route(SearchInput, KeyEvent(Char(c), false), height), s, selected, found);
      SessionAfter(Route(SearchInput, KeyEvent(Backspace, false), height), typed, selected, found) == s
  {
    DeleteUndoesInsert(c, s, selected, found);
  }

  /** `/` in the list opens an empty query over the whole tree; `D` the same over directories only. */
  lemma SlashStartsSearch(key: KeyEvent, height: nat, s: Session, selected: Option<FileEntry>, found: seq<Searching.SearchResult>)
    requires key.code == Char('/') || key.code == Char('D')
    ensures SessionAfter(Route(Normal, key, height), s, selected, found)
      == Session(SearchInput, [], [], 0, key.code == Char('D'))
  {
  }

  // One method per kind of action. Each runs after the status line is
  // cleared and states the effects `Apply` passes on; what its `modifies`
  // clause leaves out stays as it was.

  /** The list arms that move the selection. */
  method ApplyMove(app: App, action: Action, env: Env) returns (request: Option<External>)
    requires app.Valid() && app.statusMessage == None && KindOf(action) == Moving
    modifies app.browser`selectedIndex, app`listSelected, app`previewScroll, app`previewContent
    ensures app.Valid()
    ensures request == (if action.Request? then Some(action.op) else None)
    ensures SessionOf(app) == SessionAfter(action, old(SessionOf(app)), old(app.browser.SelectedEntry()),
      env.search(app.baseDir, old(app.searchInput), SearchLimit))
    ensures app.statusMessage == StatusAfter(action, old(app.searchInput), app.searchResults, old(app.browser.SelectedEntry()), env)
    ensures app.shouldQuit == (old(app.shouldQuit) || action.Quit?)
    ensures KindOf(action) != Confirming ==>
      && app.browser == old(app.browser)
      && app.browser.currentDir == DirAfter(action, old(app.browser.currentDir), old(app.browser.SelectedEntry()))
      && app.browser.showHidden == (old(app.browser.showHidden) != action.ToggleHidden?)
      && app.browser.selectedIndex == IndexAfter(action, old(app.browser.selectedIndex), old(|app.browser.entries|),
        old(app.browser.currentDir), old(app.browser.SelectedEntry()), app.browser.entries)
    ensures !RelistsNow(action, old(app.browser.currentDir), old(app.browser.SelectedEntry()))
    ensures app.PreviewShows(env) && app.previewScroll == 0
    ensures old(app.PreviewShows(env)) ==> app.PreviewShows(env)
  {
    request := None;
    match action {
      case MoveDown => app.MoveDown(env);
      case MoveUp => app.MoveUp(env);
      case GoToTop => app.GoToTop(env);
      case GoToBottom => app.GoToBottom(env);
    }
  }

  /** `/` and `f` in the list. */
  method ApplyStartSearch(app: App, action: Action, env: Env) returns (request: Option<External>)
    requires app.Valid() && app.statusMessage == None && KindOf(action) == Starting
    modifies app`inputMode, app`searchInput, app`searchResults, app`searchSelected, app`searchListSelected, app`searchDirsOnly
    ensures app.Valid()
    ensures request == (if action.Request? then Some(action.op) else None)
    ensures SessionOf(app) == SessionAfter(action, old(SessionOf(app)), old(app.browser.SelectedEntry()),
      env.search(app.baseDir, old(app.searchInput), SearchLimit))
    ensures app.statusMessage == StatusAfter(action, old(app.searchInput), app.searchResults, old(app.browser.SelectedEntry()), env)
    ensures app.shouldQuit == (old(app.shouldQuit) || action.Quit?)
    ensures KindOf(action) != Confirming ==>
      && app.browser == old(app.browser)
      && app.browser.currentDir == DirAfter(action, old(app.browser.currentDir), old(app.browser.SelectedEntry()))
      && app.browser.showHidden == (old(app.browser.showHidden) != action.ToggleHidden?)
      && app.browser.selectedIndex == IndexAfter(action, old(app.browser.selectedIndex), old(|app.browser.entries|),
        old(app.browser.currentDir), old(app.browser.SelectedEntry()), app.browser.entries)
    ensures !RelistsNow(action, old(app.browser.currentDir), old(app.browser.SelectedEntry()))
    ensures old(app.PreviewShows(env)) ==> app.PreviewShows(env)
  {
    request := None;
    app.StartSearch(action.dirsOnly);
  }

  /** `l`/`Right`/`Enter` in the list: entering the selected directory or previewing the selected file. */
  method ApplyEnter(app: App, action: Action, env: Env) returns (request: Option<External>)
    requires app.Valid() && app.statusMessage == None && KindOf(action) == Entering
    modifies app.browser, app`listSelected, app`previewScroll, app`previewContent, app`inputMode
    ensures app.Valid()
    ensures request == (if action.Request? then Some(action.op) else None)
    ensures SessionOf(app) == SessionAfter(action, old(SessionOf(app)), old(app.browser.SelectedEntry()),
      env.search(app.baseDir, old(app.searchInput), SearchLimit))
    ensures app.statusMessage == StatusAfter(action, old(app.searchInput), app.searchResults, old(app.browser.SelectedEntry()), env)
    ensures app.shouldQuit == (old(app.shouldQuit) || action.Quit?)
    ensures KindOf(action) != Confirming ==>
      && app.browser == old(app.browser)
      && app.browser.currentDir == DirAfter(action, old(app.browser.currentDir), old(app.browser.SelectedEntry()))
      && app.browser.showHidden == (old(app.browser.showHidden) != action.ToggleHidden?)
      && app.browser.selectedIndex == IndexAfter(action, old(app.browser.selectedIndex), old(|app.browser.entries|),
        old(app.browser.currentDir), old(app.browser.SelectedEntry()), app.browser.entries)
    ensures RelistsNow(action, old(app.browser.currentDir), old(app.browser.SelectedEntry())) ==>
      app.browser.Lists(env.list) && app.browser.Ordered()
    ensures KindOf(action) == Moving || RelistsNow(action, old(app.browser.currentDir), old(app.browser.SelectedEntry())) ==>
      app.PreviewShows(env) && app.previewScroll == 0
    ensures !RelistsNow(action, old(app.browser.currentDir), old(app.browser.SelectedEntry())) ==>
      unchanged(app.browser) && app.previewContent == old(app.previewContent) && app.previewScroll == old(app.previewScroll)
    ensures old(app.PreviewShows(env)) ==> app.PreviewShows(env)
  {
    request := None;
    match action {
      case EnterSelected => app.Enter(env);
    }
  }

  /** `h`/`Left`/`Backspace` in the list: going to the parent directory. */
  method ApplyParent(app: App, action: Action, env: Env) returns (request: Option<External>)
    requires app.Valid() && app.statusMessage == None && KindOf(action) == Leaving
    modifies app.browser, app`listSelected, app`previewScroll, app`previewContent, app`inputMode
    ensures app.Valid()
    ensures request == (if action.Request? then Some(action.op) else None)
    ensures SessionOf(app) == SessionAfter(action, old(SessionOf(app)), old(app.browser.SelectedEntry()),
      env.search(app.baseDir, old(app.searchInput), SearchLimit))
    ensures app.statusMessage == StatusAfter(action, old(app.searchInput), app.searchResults, old(app.browser.SelectedEntry()), env)
    ensures app.shouldQuit == (old(app.shouldQuit) || action.Quit?)
    ensures KindOf(action) != Confirming ==>
      && app.browser == old(app.browser)
      && app.browser.currentDir == DirAfter(action, old(app.browser.currentDir), old(app.browser.SelectedEntry()))
      && app.browser.showHidden == (old(app.browser.showHidden) != action.ToggleHidden?)
      && app.browser.selectedIndex == IndexAfter(action, old(app.browser.selectedIndex), old(|app.browser.entries|),
        old(app.browser.currentDir), old(app.browser.SelectedEntry()), app.browser.entries)
    ensures RelistsNow(action, old(app.browser.currentDir), old(app.browser.SelectedEntry())) ==>
      app.browser.Lists(env.list) && app.browser.Ordered()
    ensures KindOf(action) == Moving || RelistsNow(action, old(app.browser.currentDir), old(app.browser.SelectedEntry())) ==>
      app.PreviewShows(env) && app.previewScroll == 0
    ensures !RelistsNow(action, old(app.browser.currentDir), old(app.browser.SelectedEntry())) ==>
      unchanged(app.browser) && app.previewContent == old(app.previewContent) && app.previewScroll == old(app.previewScroll)
    ensures old(app.PreviewShows(env)) ==> app.PreviewShows(env)
  {
    request := None;
    match action {
      case GoParent => app.GoParent(env);
    }
  }

  /** `.` in the list: the hidden filter, which re-lists in place. */
  method ApplyFilter(app: App, action: Action, env: Env) returns (request: Option<External>)
    requires app.Valid() && app.statusMessage == None && KindOf(action) == Filtering
    modifies app.browser, app`listSelected, app`previewScroll, app`previewContent
    ensures app.Valid()
    ensures request == (if action.Request? then Some(action.op) else None)
    ensures SessionOf(app) == SessionAfter(action, old(SessionOf(app)), old(app.browser.SelectedEntry()),
      env.search(app.baseDir, old(app.searchInput), SearchLimit))
    ensures app.statusMessage == StatusAfter(action, old(app.searchInput), app.searchResults, old(app.browser.SelectedEntry()), env)
    ensures app.shouldQuit == (old(app.shouldQuit) || action.Quit?)
    ensures KindOf(action) != Confirming ==>
      && app.browser == old(app.browser)
      && app.browser.currentDir == DirAfter(action, old(app.browser.currentDir), old(app.browser.SelectedEntry()))
      && app.browser.showHidden == (old(app.browser.showHidden) != action.ToggleHidden?)
      && app.browser.selectedIndex == IndexAfter(action, old(app.browser.selectedIndex), old(|app.browser.entries|),
        old(app.browser.currentDir), old(app.browser.SelectedEntry()), app.browser.entries)
    ensures RelistsNow(action, old(app.browser.currentDir), old(app.browser.SelectedEntry())) ==>
      app.browser.Lists(env.list) && app.browser.Ordered()
    ensures KindOf(action) == Moving || RelistsNow(action, old(app.browser.currentDir), old(app.browser.SelectedEntry())) ==>
      app.PreviewShows(env) && app.previewScroll == 0
    ensures !RelistsNow(action, old(app.browser.currentDir), old(app.browser.SelectedEntry())) ==>
      unchanged(app.browser) && app.previewContent == old(app.previewContent) && app.previewScroll == old(app.previewScroll)
    ensures old(app.PreviewShows(env)) ==> app.PreviewShows(env)
  {
    request := None;
    match action {
      case ToggleHidden => app.ToggleHidden(env);
    }
  }

  /** `r` in the list: reloading, which re-lists in place and says so. */
  method ApplyReload(app: App, action: Action, env: Env) returns (request: Option<External>)
    requires app.Valid() && app.statusMessage == None && KindOf(action) == Reloading
    modifies app.browser, app`listSelected, app`previewScroll, app`previewContent, app`statusMessage
    ensures app.Valid()
    ensures request == (if action.Request? then Some(action.op) else None)
    ensures SessionOf(app) == SessionAfter(action, old(SessionOf(app)), old(app.browser.SelectedEntry()),
      env.search(app.baseDir, old(app.searchInput), SearchLimit))
    ensures app.statusMessage == StatusAfter(action, old(app.searchInput), app.searchResults, old(app.browser.SelectedEntry()), env)
    ensures app.shouldQuit == (old(app.shouldQuit) || action.Quit?)
    ensures KindOf(action) != Confirming ==>
      && app.browser == old(app.browser)
      && app.browser.currentDir == DirAfter(action, old(app.browser.currentDir), old(app.browser.SelectedEntry()))
      && app.browser.showHidden == (old(app.browser.showHidden) != action.ToggleHidden?)
      && app.browser.selectedIndex == IndexAfter(action, old(app.browser.selectedIndex), old(|app.browser.entries|),
        old(app.browser.currentDir), old(app.browser.SelectedEntry()), app.browser.entries)
    ensures RelistsNow(action, old(app.browser.currentDir), old(app.browser.SelectedEntry())) ==>
      app.browser.Lists(env.list) && app.browser.Ordered()
    ensures KindOf(action) == Moving || RelistsNow(action, old(app.browser.currentDir), old(app.browser.SelectedEntry())) ==>
      app.PreviewShows(env) && app.previewScroll == 0
    ensures !RelistsNow(action, old(app.browser.currentDir), old(app.browser.SelectedEntry())) ==>
      unchanged(app.browser) && app.previewContent == old(app.previewContent) && app.previewScroll == old(app.previewScroll)
    ensures old(app.PreviewShows(env)) ==> app.PreviewShows(env)
  {
    request := None;
    match action {
      case Reload => app.Reload(env);
    }
  }

  /** `Enter` on the search results. */
  method ApplyConfirm(app: App, action: Action, env: Env) returns (request: Option<External>)
    requires app.Valid() && app.statusMessage == None && KindOf(action) == Confirming
    modifies app`browser, app`listSelected, app`previewScroll, app`previewContent,
      app`inputMode, app`searchInput, app`searchResults, app`searchDirsOnly
    ensures app.Valid()
    ensures request == (if action.Request? then Some(action.op) else None)
    ensures SessionOf(app) == SessionAfter(action, old(SessionOf(app)), old(app.browser.SelectedEntry()),
      env.search(app.baseDir, old(app.searchInput), SearchLimit))
    ensures app.statusMessage == StatusAfter(action, old(app.searchInput), app.searchResults, old(app.browser.SelectedEntry()), env)
    ensures app.shouldQuit == (old(app.shouldQuit) || action.Quit?)
    ensures app.browser == old(app.browser) || fresh(app.browser)
    ensures fresh(app.browser) ==> app.browser.Lists(env.list) && app.browser.Ordered() && app.browser.showHidden == app.config.showHidden
    ensures !RelistsNow(action, old(app.browser.currentDir), old(app.browser.SelectedEntry()))
    ensures KindOf(action) == Confirming && old(app.searchSelected < |app.searchResults|) ==>
      app.PreviewShows(env) && app.previewScroll == 0
    ensures old(app.PreviewShows(env)) ==> app.PreviewShows(env)
  {
    request := None;
    app.ConfirmSearchResult(env);
  }

  /** `Enter`, `Esc` and Ctrl+C while typing, `Esc`, `q` and Ctrl+C on the results: running or cancelling the search. */
  method ApplyQuery(app: App, action: Action, env: Env) returns (request: Option<External>)
    requires app.Valid() && app.statusMessage == None && KindOf(action) == Querying
    modifies app`inputMode, app`searchInput, app`searchResults, app`searchDirsOnly,
      app`searchSelected, app`searchListSelected, app`statusMessage
    ensures app.Valid()
    ensures request == (if action.Request? then Some(action.op) else None)
    ensures SessionOf(app) == SessionAfter(action, old(SessionOf(app)), old(app.browser.SelectedEntry()),
      env.search(app.baseDir, old(app.searchInput), SearchLimit))
    ensures app.statusMessage == StatusAfter(action, old(app.searchInput), app.searchResults, old(app.browser.SelectedEntry()), env)
    ensures app.shouldQuit == (old(app.shouldQuit) || action.Quit?)
    ensures KindOf(action) != Confirming ==>
      && app.browser == old(app.browser)
      && app.browser.currentDir == DirAfter(action, old(app.browser.currentDir), old(app.browser.SelectedEntry()))
      && app.browser.showHidden == (old(app.browser.showHidden) != action.ToggleHidden?)
      && app.browser.selectedIndex == IndexAfter(action, old(app.browser.selectedIndex), old(|app.browser.entries|),
        old(app.browser.currentDir), old(app.browser.SelectedEntry()), app.browser.entries)
    ensures !RelistsNow(action, old(app.browser.currentDir), old(app.browser.SelectedEntry()))
    ensures old(app.PreviewShows(env)) ==> app.PreviewShows(env)
  {
    request := None;
    match action {
      case ExecuteSearch => app.ExecuteSearch(env);
      case CancelSearch => app.CancelSearch();
    }
  }

  /** The other arms of query input and result selection: typing, moving among the results, searching again. */
  method ApplyEdit(app: App, action: Action, env: Env) returns (request: Option<External>)
    requires app.Valid() && app.statusMessage == None && KindOf(action) == Editing
    modifies app`inputMode, app`searchInput, app`searchSelected, app`searchListSelected
    ensures app.Valid()
    ensures request == (if action.Request? then Some(action.op) else None)
    ensures SessionOf(app) == SessionAfter(action, old(SessionOf(app)), old(app.browser.SelectedEntry()),
      env.search(app.baseDir, old(app.searchInput), SearchLimit))
    ensures app.statusMessage == StatusAfter(action, old(app.searchInput), app.searchResults, old(app.browser.SelectedEntry()), env)
    ensures app.shouldQuit == (old(app.shouldQuit) || action.Quit?)
    ensures KindOf(action) != Confirming ==>
      && app.browser == old(app.browser)
      && app.browser.currentDir == DirAfter(action, old(app.browser.currentDir), old(app.browser.SelectedEntry()))
      && app.browser.showHidden == (old(app.browser.showHidden) != action.ToggleHidden?)
      && app.browser.selectedIndex == IndexAfter(action, old(app.browser.selectedIndex), old(|app.browser.entries|),
        old(app.browser.currentDir), old(app.browser.SelectedEntry()), app.browser.entries)
    ensures !RelistsNow(action, old(app.browser.currentDir), old(app.browser.SelectedEntry()))
    ensures old(app.PreviewShows(env)) ==> app.PreviewShows(env)
  {
    request := None;
    match action {
      case DeleteChar => app.SearchInputBackspace();
      case InsertChar(c) => app.SearchInputChar(c);
      case ResultUp => app.SearchMoveUp();
      case ResultDown => app.SearchMoveDown();
      case Research =>
        app.searchInput := [];
        app.inputMode := SearchInput;
    }
  }

  /** The preview arms: leaving the preview and scrolling it. */
  method ApplyScroll(app: App, action: Action, env: Env) returns (request: Option<External>)
    requires app.Valid() && app.statusMessage == None && KindOf(action) == Scrolling
    modifies app`inputMode, app`previewScroll
    ensures app.Valid()
    ensures request == (if action.Request? then Some(action.op) else None)
    ensures SessionOf(app) == SessionAfter(action, old(SessionOf(app)), old(app.browser.SelectedEntry()),
      env.search(app.baseDir, old(app.searchInput), SearchLimit))
    ensures app.statusMessage == StatusAfter(action, old(app.searchInput), app.searchResults, old(app.browser.SelectedEntry()), env)
    ensures app.shouldQuit == (old(app.shouldQuit) || action.Quit?)
    ensures KindOf(action) != Confirming ==>
      && app.browser == old(app.browser)
      && app.browser.currentDir == DirAfter(action, old(app.browser.currentDir), old(app.browser.SelectedEntry()))
      && app.browser.showHidden == (old(app.browser.showHidden) != action.ToggleHidden?)
      && app.browser.selectedIndex == IndexAfter(action, old(app.browser.selectedIndex), old(|app.browser.entries|),
        old(app.browser.currentDir), old(app.browser.SelectedEntry()), app.browser.entries)
    ensures !RelistsNow(action, old(app.browser.currentDir), old(app.browser.SelectedEntry()))
    ensures KindOf(action) == Scrolling ==>
      app.previewContent == old(app.previewContent)
      && app.previewScroll == ScrollAfter(action, old(app.previewScroll), old(app.previewContent), old(app.previewHeight))
    ensures old(app.PreviewShows(env)) ==> app.PreviewShows(env)
  {
    request := None;
    match action {
      case ExitPreview => app.ExitPreview();
      case ScrollDown(n) => app.ScrollPreviewDown(n);
      case ScrollUp(n) => app.ScrollPreviewUp(n);
      case ScrollToTop => app.previewScroll := 0;
      case ScrollToEnd =>
        match app.previewContent {
          case Some(lines) => app.previewScroll := SatSub(|lines|, app.previewHeight);
          case None =>
        }
    }
  }

  /** Ignored keys, quitting, the editor, and the operations handed back. */
  method ApplyOther(app: App, action: Action, env: Env) returns (request: Option<External>)
    requires app.Valid() && app.statusMessage == None && KindOf(action) == Other
    modifies app`shouldQuit, app`statusMessage
    ensures app.Valid()
    ensures request == (if action.Request? then Some(action.op) else None)
    ensures SessionOf(app) == SessionAfter(action, old(SessionOf(app)), old(app.browser.SelectedEntry()),
      env.search(app.baseDir, old(app.searchInput), SearchLimit))
    ensures app.statusMessage == StatusAfter(action, old(app.searchInput), app.searchResults, old(app.browser.SelectedEntry()), env)
    ensures app.shouldQuit == (old(app.shouldQuit) || action.Quit?)
    ensures KindOf(action) != Confirming ==>
      && app.browser == old(app.browser)
      && app.browser.currentDir == DirAfter(action, old(app.browser.currentDir), old(app.browser.SelectedEntry()))
      && app.browser.showHidden == (old(app.browser.showHidden) != action.ToggleHidden?)
      && app.browser.selectedIndex == IndexAfter(action, old(app.browser.selectedIndex), old(|app.browser.entries|),
        old(app.browser.currentDir), old(app.browser.SelectedEntry()), app.browser.entries)
    ensures !RelistsNow(action, old(app.browser.currentDir), old(app.browser.SelectedEntry()))
    ensures old(app.PreviewShows(env)) ==> app.PreviewShows(env)
  {
    request := None;
    match action {
      case Quit => app.Quit();
      case OpenEditor => app.OpenInEditor(env);
      case Ignore =>
      case Request(op) => request := Some(op);
    }
  }

  /** The arms that move, re-list or replace the browser. */
  method ApplyBrowsing(app: App, action: Action, env: Env) returns (request: Option<External>)
    requires app.Valid() && app.statusMessage == None && ChangesBrowser(KindOf(action))
    modifies app, app.browser
    ensures app.Valid()
    ensures request == (if action.Request? then Some(action.op) else None)
    ensures SessionOf(app) == SessionAfter(action, old(SessionOf(app)), old(app.browser.SelectedEntry()),
      env.search(app.baseDir, old(app.searchInput), SearchLimit))
    ensures app.statusMessage == StatusAfter(action, old(app.searchInput), app.searchResults, old(app.browser.SelectedEntry()), env)
    ensures app.shouldQuit == (old(app.shouldQuit) || action.Quit?)
    ensures app.browser == old(app.browser) || fresh(app.browser)
    ensures fresh(app.browser) ==> app.browser.Lists(env.list) && app.browser.Ordered() && app.browser.showHidden == app.config.showHidden
    ensures KindOf(action) != Confirming ==>
      && app.browser == old(app.browser)
      && app.browser.currentDir == DirAfter(action, old(app.browser.currentDir), old(app.browser.SelectedEntry()))
      && app.browser.showHidden == (old(app.browser.showHidden) != action.ToggleHidden?)
      && app.browser.selectedIndex == IndexAfter(action, old(app.browser.selectedIndex), old(|app.browser.entries|),
        old(app.browser.currentDir), old(app.browser.SelectedEntry()), app.browser.entries)
    ensures RelistsNow(action, old(app.browser.currentDir), old(app.browser.SelectedEntry())) ==>
      app.browser.Lists(env.list) && app.browser.Ordered()
    ensures KindOf(action) == Moving || RelistsNow(action, old(app.browser.currentDir), old(app.browser.SelectedEntry())) ==>
      app.PreviewShows(env) && app.previewScroll == 0
    ensures KindOf(action) == Confirming && old(app.searchSelected < |app.searchResults|) ==>
      app.PreviewShows(env) && app.previewScroll == 0
    ensures old(app.PreviewShows(env)) ==> app.PreviewShows(env)
  {
    if KindOf(action) == Moving {
      request := ApplyMove(app, action, env);
    } else if KindOf(action) == Entering {
      request := ApplyEnter(app, action, env);
    } else if KindOf(action) == Leaving {
      request := ApplyParent(app, action, env);
    } else if KindOf(action) == Filtering {
      request := ApplyFilter(app, action, env);
    } else if KindOf(action) == Reloading {
      request := ApplyReload(app, action, env);
    } else {
      request := ApplyConfirm(app, action, env);
    }
  }

  /** The arms that leave the browser alone: search, preview, the editor, quitting and the rest. */
  method ApplySession(app: App, action: Action, env: Env) returns (request: Option<External>)
    requires app.Valid() && app.statusMessage == None && !ChangesBrowser(KindOf(action))
    modifies app, app.browser
    ensures app.Valid()
    ensures request == (if action.Request? then Some(action.op) else None)
    ensures SessionOf(app) == SessionAfter(action, old(SessionOf(app)), old(app.browser.SelectedEntry()),
      env.search(app.baseDir, old(app.searchInput), SearchLimit))
    ensures app.statusMessage == StatusAfter(action, old(app.searchInput), app.searchResults, old(app.browser.SelectedEntry()), env)
    ensures app.shouldQuit == (old(app.shouldQuit) || action.Quit?)
    ensures !ChangesBrowser(KindOf(action)) ==>
      app.browser == old(app.browser) && unchanged(app.browser)
    ensures KindOf(action) != Confirming ==>
      && app.browser == old(app.browser)
      && app.browser.currentDir == DirAfter(action, old(app.browser.currentDir), old(app.browser.SelectedEntry()))
      && app.browser.showHidden == (old(app.browser.showHidden) != action.ToggleHidden?)
      && app.browser.selectedIndex == IndexAfter(action, old(app.browser.selectedIndex), old(|app.browser.entries|),
        old(app.browser.currentDir), old(app.browser.SelectedEntry()), app.browser.entries)
    ensures !RelistsNow(action, old(app.browser.currentDir), old(app.browser.SelectedEntry()))
    ensures KindOf(action) == Scrolling ==>
      app.previewContent == old(app.previewContent)
      && app.previewScroll == ScrollAfter(action, old(app.previewScroll), old(app.previewContent), old(app.previewHeight))
    ensures old(app.PreviewShows(env)) ==> app.PreviewShows(env)
  {
    if KindOf(action) == Starting {
      request := ApplyStartSearch(app, action, env);
    } else if KindOf(action) == Querying {
      request := ApplyQuery(app, action, env);
    } else if KindOf(action) == Editing {
      request := ApplyEdit(app, action, env);
    } else if KindOf(action) == Scrolling {
      request := ApplyScroll(app, action, env);
    } else {
      request := ApplyOther(app, action, env);
    }
  }

  /**
   * One key's work in `run_app` once the status line is cleared and the arm
   * is chosen: the arm runs and an `External` operation is handed back. The
   * mode and search fields follow `SessionAfter`, the status line
   * `StatusAfter`; the list arms move or re-list the same browser object,
   * only a confirmed result replaces it, and every other arm leaves the
   * browser as it was. A rebuilt preview shows the new selection.
   */
  method Apply(app: App, action: Action, env: Env) returns (request: Option<External>)
    requires app.Valid() && app.statusMessage == None
    modifies app, app.browser
    ensures app.Valid()
    ensures request == (if action.Request? then Some(action.op) else None)
    ensures SessionOf(app) == SessionAfter(action, old(SessionOf(app)), old(app.browser.SelectedEntry()),
      env.search(app.baseDir, old(app.searchInput), SearchLimit))
    ensures app.statusMessage == StatusAfter(action, old(app.searchInput), app.searchResults, old(app.browser.SelectedEntry()), env)
    ensures app.shouldQuit == (old(app.shouldQuit) || action.Quit?)
    ensures app.browser == old(app.browser) || fresh(app.browser)
    ensures fresh(app.browser) ==> app.browser.Lists(env.list) && app.browser.Ordered() && app.browser.showHidden == app.config.showHidden
    ensures !ChangesBrowser(KindOf(action)) ==>
      app.browser == old(app.browser) && unchanged(app.browser)
    ensures KindOf(action) != Confirming ==>
      && app.browser == old(app.browser)
      && app.browser.currentDir == DirAfter(action, old(app.browser.currentDir), old(app.browser.SelectedEntry()))
      && app.browser.showHidden == (old(app.browser.showHidden) != action.ToggleHidden?)
      && app.browser.selectedIndex == IndexAfter(action, old(app.browser.selectedIndex), old(|app.browser.entries|),
        old(app.browser.currentDir), old(app.browser.SelectedEntry()), app.browser.entries)
    ensures RelistsNow(action, old(app.browser.currentDir), old(app.browser.SelectedEntry())) ==>
      app.browser.Lists(env.list) && app.browser.Ordered()
    ensures KindOf(action) == Moving || RelistsNow(action, old(app.browser.currentDir), old(app.browser.SelectedEntry())) ==>
      app.PreviewShows(env) && app.previewScroll == 0
    ensures KindOf(action) == Confirming && old(app.searchSelected < |app.searchResults|) ==>
      app.PreviewShows(env) && app.previewScroll == 0
    ensures KindOf(action) == Scrolling ==>
      app.previewContent == old(app.previewContent)
      && app.previewScroll == ScrollAfter(action, old(app.previewScroll), old(app.previewContent), old(app.previewHeight))
    ensures old(app.PreviewShows(env)) ==> app.PreviewShows(env)
  {
    if ChangesBrowser(KindOf(action)) {
      request := ApplyBrowsing(app, action, env);
    } else {
      request := ApplySession(app, action, env);
    }
  }

  /**
   * The body of `run_app` for one key: clear the status line, route the key
   * by the mode it arrives in (giving `action`), and apply it.
   */
  method HandleKey(app: App, key: KeyEvent, env: Env) returns (action: Action, request: Option<External>)
    requires app.Valid()
    modifies app, app.browser
    ensures action == Route(old(app.inputMode), key, old(app.previewHeight))
    ensures app.Valid()
    ensures request == (if action.Request? then Some(action.op) else None)
    ensures SessionOf(app) == SessionAfter(action, old(SessionOf(app)), old(app.browser.SelectedEntry()),
      env.search(app.baseDir, old(app.searchInput), SearchLimit))
    ensures app.statusMessage == StatusAfter(action, old(app.searchInput), app.searchResults, old(app.browser.SelectedEntry()), env)
    ensures app.browser == old(app.browser) || fresh(app.browser)
    ensures fresh(app.browser) ==> app.browser.Lists(env.list) && app.browser.Ordered() && app.browser.showHidden == app.config.showHidden
    ensures !ChangesBrowser(KindOf(action)) ==>
      app.browser == old(app.browser) && unchanged(app.browser)
    ensures KindOf(action) != Confirming ==>
      && app.browser == old(app.browser)
      && app.browser.currentDir == DirAfter(action, old(app.browser.currentDir), old(app.browser.SelectedEntry()))
      && app.browser.showHidden == (old(app.browser.showHidden) != action.ToggleHidden?)
      && app.browser.selectedIndex == IndexAfter(action, old(app.browser.selectedIndex), old(|app.browser.entries|),
        old(app.browser.currentDir), old(app.browser.SelectedEntry()), app.browser.entries)
    ensures RelistsNow(action, old(app.browser.currentDir), old(app.browser.SelectedEntry())) ==>
      app.browser.Lists(env.list) && app.browser.Ordered()
    ensures KindOf(action) == Moving || RelistsNow(action, old(app.browser.currentDir), old(app.browser.SelectedEntry())) ==>
      app.PreviewShows(env) && app.previewScroll == 0
    ensures KindOf(action) == Confirming && old(app.searchSelected < |app.searchResults|) ==>
      app.PreviewShows(env) && app.previewScroll == 0
    ensures KindOf(action) == Scrolling ==>
      app.previewContent == old(app.previewContent)
      && app.previewScroll == ScrollAfter(action, old(app.previewScroll), old(app.previewContent), old(app.previewHeight))
    ensures old(app.PreviewShows(env)) ==> app.PreviewShows(env)
    ensures app.shouldQuit == (old(app.shouldQuit) || QuitKey(old(app.inputMode), key))
  {
    app.statusMessage := None;
    action := Route(app.inputMode, key, app.previewHeight);
    request := Apply(app, action, env);
  }

  /** One turn of the loop: the preview height the frame reported, if any, and the key read, if any. */
  datatype Tick = Tick(height: Option<nat>, key: Option<KeyEvent>)

  /**
   * One turn of `run_app` after the frame is drawn: the height the frame
   * reported is recorded, then the key read, if any, is handled. The quit
   * flag ends up set exactly when it was set or the key is a quitting key
   * in the mode the turn began in, and an operation is handed back only
   * for a key.
   */
  method Turn(app: App, tick: Tick, env: Env) returns (request: Option<External>)
    requires app.Valid()
    modifies app, app.browser
    ensures app.Valid()
    ensures app.browser == old(app.browser) || fresh(app.browser)
    ensures app.shouldQuit == (old(app.shouldQuit) || (tick.key.Some? && QuitKey(old(app.inputMode), tick.key.value)))
    ensures request.Some? ==> tick.key.Some?
  {
    request := None;
    if tick.height.Some? {
      app.SetPreviewHeight(tick.height.value);
    }
    if tick.key.Some? {
      var _, r := HandleKey(app, tick.key.value, env);
      request := r;
    }
  }

  /**
   * `run_app`: every turn draws (which reports the preview height), then
   * handles at most one key, and the loop ends after the turn that set the
   * quit flag. `handled` counts the turns taken, `requests` collects the
   * external operations in order. `quitAfter` is ghost bookkeeping with no
   * counterpart in the loop: `quitAfter[i]` records whether the quit flag
   * was set at the end of turn `i`, so that the contract can say that only
   * the last turn taken set it.
   */
  method RunApp(app: App, ticks: seq<Tick>, env: Env) returns (handled: nat, requests: seq<External>, ghost quitAfter: seq<bool>)
    requires app.Valid()
    modifies app, app.browser
    ensures app.Valid()
    ensures handled <= |ticks| && |requests| <= handled
    ensures |quitAfter| == handled
    ensures forall i :: 0 <= i < handled - 1 ==> !quitAfter[i]
    ensures handled > 0 ==> quitAfter[handled - 1] == app.shouldQuit
    ensures handled < |ticks| ==> app.shouldQuit
    ensures old(app.shouldQuit) ==> handled == Min(1, |ticks|)
  {
    handled := 0;
    requests := [];
    quitAfter := [];
    while handled < |ticks|
      invariant app.Valid()
      invariant handled <= |ticks| && |requests| <= handled
      invariant |quitAfter| == handled
      invariant forall i :: 0 <= i < handled ==> !quitAfter[i]
      invariant app.browser == old(app.browser) || fresh(app.browser)
      invariant old(app.shouldQuit) ==> handled == 0 && app.shouldQuit
      invariant handled > 0 ==> !app.shouldQuit
    {
      var request := Turn(app, ticks[handled], env);
      if request.Some? {
        requests := requests + [request.value];
      }
      handled := handled + 1;
      quitAfter := quitAfter + [app.shouldQuit];
      if app.shouldQuit {
        break;
      }
    }
  }
}
