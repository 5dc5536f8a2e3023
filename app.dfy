/**
 * The session controller `App`: the directory model, the preview of the
 * selected file with its scroll position, the search input and results,
 * and the input mode. The filesystem, the previewer's file access and
 * highlighter, and the searcher are the abstract `Env`.
 */
module Application {
  import opened Common
  import opened Paths
  import opened FileBrowsing
  import opened Searching
  import opened Previewing

  /** The modes `App` defines, plus `Help` and `JumpInput`, which the key dispatcher handles. */
  datatype InputMode = Normal | SearchInput | SearchResult | Preview | Help | JumpInput

  /** The part of the configuration the core reads. */
  datatype Config = Config(showHidden: bool, previewMaxLines: nat)

  /** Defaults used when no configuration file is present. */
  const DefaultConfig := Config(false, 1000)

  /** The cap `execute_search` passes to the searcher. */
  const SearchLimit: nat := 100

  /** Status line after `reload`. */
  const ReloadedMessage := "Reloaded"

  /** Status line after a search that found nothing. */
  const NoResultsMessage := "No results found"

  /** The preview height before the first frame reports one. */
  const InitialPreviewHeight: nat := 20

  /** The world outside the session. */
  datatype Env = Env(
    list: Lister,
    canonicalize: Path -> Option<Path>,
    open: Path -> FileSource,
    highlight: Highlighter,
    search: (Path, string, nat) -> seq<SearchResult>,
    /** `Editor::open`: `None` when the editor ran, `Some(message)` when it could not be started. */
    edit: Path -> Option<string>)

  /** `scroll_preview_up`: saturates at the top. */
  function ScrolledUp(scroll: nat, amount: nat): (r: nat)
    ensures r <= scroll
    ensures r == 0 || r + amount == scroll
  {
    SatSub(scroll, amount)
  }

  /** `scroll_preview_down`: stops where the last page starts, or at 0. */
  function ScrolledDown(scroll: nat, amount: nat, total: nat, height: nat): (r: nat)
    ensures r <= SatSub(total, height) <= total
    ensures r <= scroll + amount
    ensures scroll <= SatSub(total, height) ==> scroll <= r
    ensures r == scroll + amount || r == SatSub(total, height)
  {
    Min(scroll + amount, SatSub(total, height))
  }

  /** `search_move_up`: no wrap at the top. */
  function SearchStepUp(i: nat): (r: nat)
    ensures r <= i
    ensures i > 0 ==> r + 1 == i
  {
    if i > 0 then i - 1 else i
  }

  /** `search_move_down`: no wrap at the bottom of `n` results. */
  function SearchStepDown(i: nat, n: nat): (r: nat)
    ensures i <= r <= Max(i, SatSub(n, 1))
    ensures i < SatSub(n, 1) ==> r == i + 1
  {
    if i < SatSub(n, 1) then i + 1 else i
  }

  /** The directories among `rs`, in order: `retain(|r| r.is_dir)`. */
  function DirsOf(rs: seq<SearchResult>): (d: seq<SearchResult>)
    ensures |d| <= |rs|
    ensures forall r :: r in d <==> r in rs && r.isDir
  {
    if rs == [] then []
    else
      var init := DirsOf(rs[..|rs| - 1]);
      var last := rs[|rs| - 1];
      assert rs == rs[..|rs| - 1] + [last];
      if last.isDir then init + [last] else init
  }

  /** The in-place `retain` of `execute_search`. */
  method RetainDirs(rs: seq<SearchResult>) returns (kept: seq<SearchResult>)
    ensures kept == DirsOf(rs)
  {
    kept := [];
    var i := 0;
    while i < |rs|
      invariant 0 <= i <= |rs|
      invariant kept == DirsOf(rs[..i])
    {
      assert rs[..i + 1][..i] == rs[..i];
      if rs[i].isDir {
        kept := kept + [rs[i]];
      }
      i := i + 1;
    }
    assert rs[..|rs|] == rs;
  }

  /**
   * The list widget's selection after the name lookup of
   * `confirm_search_result` as written: it moves only when the name is found.
   */
  function WidgetAfterLookup(entries: seq<FileEntry>, name: Option<string>, previous: Option<nat>): Option<nat>
  {
    if name.Some? && name.value in NamesOf(entries) then Some(Reselect(entries, name)) else previous
  }

  /**
   * As written, a result whose name the new listing lacks (a hidden file
   * while hidden files are not shown) leaves the widget on its old row,
   * here the fourth of four, while the browser selects the first entry.
   */
  lemma LookupMissDesyncs()
    ensures var entries := [FileEntry("a", ["d", "a"], false), FileEntry("b", ["d", "b"], false),
        FileEntry("c", ["d", "c"], false), FileEntry("e", ["d", "e"], false)];
      var name := Some(".env");
      && WidgetAfterLookup(entries, name, Some(3)) == Some(3) && 3 < |entries|
      && Reselect(entries, name) == 0
  {
    var entries := [FileEntry("a", ["d", "a"], false), FileEntry("b", ["d", "b"], false),
      FileEntry("c", ["d", "c"], false), FileEntry("e", ["d", "e"], false)];
    assert ".env" !in NamesOf(entries);
  }

  /** `preview` is what `update_preview` builds when the entry at `index` is a file. */
  ghost predicate ShowsSelected(entries: seq<FileEntry>, index: nat, preview: Option<seq<PreviewLine>>, maxLines: nat, env: Env)
  {
    index < |entries| && !entries[index].isDir ==>
      preview == Some(PreviewOf(env.open(entries[index].path), maxLines, env.highlight))
  }

  /** `FileBrowser::new` as the session uses it. */
  method OpenBrowser(path: Path, showHidden: bool, env: Env) returns (b: FileBrowser)
    ensures fresh(b) && b.Valid() && b.Lists(env.list) && b.Ordered()
    ensures b.selectedIndex == 0 && b.showHidden == showHidden && b.currentDir == CanonicalOr(env.canonicalize, path)
  {
    b := new FileBrowser(path, showHidden, env.list, env.canonicalize);
  }

  /** The preview `update_preview` builds for the browser's selection: none unless a file is selected. */
  method PreviewSelected(b: FileBrowser, maxLines: nat, env: Env) returns (content: Option<seq<PreviewLine>>)
    ensures content.Some? <==> b.selectedIndex < |b.entries| && !b.entries[b.selectedIndex].isDir
    ensures content.Some? ==> content.value == PreviewOf(env.open(b.entries[b.selectedIndex].path), maxLines, env.highlight)
  {
    var selected := b.SelectedEntry();
    if selected.Some? && !selected.value.isDir {
      var lines := Previewing.Preview(env.open(selected.value.path), maxLines, env.highlight);
      content := Some(lines);
    } else {
      content := None;
    }
  }

  class App {
    var browser: FileBrowser
    const config: Config
    const baseDir: Path
    var previewContent: Option<seq<PreviewLine>>
    var previewScroll: nat
    var previewHeight: nat
    var inputMode: InputMode
    var searchInput: string
    var statusMessage: Option<string>
    var shouldQuit: bool
    /** The file list widget's selection (`list_state`). */
    var listSelected: Option<nat>
    var searchResults: seq<SearchResult>
    var searchSelected: nat
    /** The result list widget's selection (`search_list_state`). */
    var searchListSelected: Option<nat>
    var searchDirsOnly: bool

    function PreviewLength(): nat
      reads this
    {
      match previewContent
      case None => 0
      case Some(lines) => |lines|
    }

    /** The browser's selection exists and is not a directory. */
    predicate SelectedIsFile()
      reads this, browser
    {
      browser.selectedIndex < |browser.entries| && !browser.entries[browser.selectedIndex].isDir
    }

    /** A preview exists exactly for a selected file, and the scroll never passes its end. */
    ghost predicate PreviewValid()
      reads this, browser
    {
      && previewScroll <= PreviewLength()
      && (previewContent.Some? <==> SelectedIsFile())
    }

    /** The preview is the one `update_preview` builds for the selected file. */
    ghost predicate PreviewShows(env: Env)
      reads this, browser
    {
      ShowsSelected(browser.entries, browser.selectedIndex, previewContent, config.previewMaxLines, env)
    }

    /** In result selection the selected result exists; the widget follows the index. */
    ghost predicate SearchValid()
      reads this
    {
      && (inputMode == InputMode.SearchResult ==> searchSelected < |searchResults|)
      && searchListSelected == Some(searchSelected)
    }

    /** The file list widget shows the browser's selection. */
    predicate ListSynced()
      reads this, browser
    {
      listSelected == Some(browser.selectedIndex)
    }

    ghost predicate Valid()
      reads this, browser
    {
      browser.Valid() && PreviewValid() && SearchValid() && ListSynced()
    }

    /** `App::new`. */
    constructor (startPath: Path, config: Config, env: Env)
      ensures Valid() && fresh(browser) && PreviewShows(env)
      ensures browser.Lists(env.list) && browser.Ordered() && browser.selectedIndex == 0 && browser.showHidden == config.showHidden
      ensures browser.currentDir == CanonicalOr(env.canonicalize, startPath)
      ensures this.config == config && baseDir == CanonicalOr(env.canonicalize, startPath)
      ensures inputMode == Normal && searchInput == [] && searchResults == [] && !searchDirsOnly
      ensures listSelected == Some(0) && searchSelected == 0
      ensures previewScroll == 0 && previewHeight == InitialPreviewHeight
      ensures statusMessage == None && !shouldQuit
    {
      var b := OpenBrowser(startPath, config.showHidden, env);
      // `new` starts without a preview and then calls `update_preview`.
      var content := PreviewSelected(b, config.previewMaxLines, env);
      browser := b;
      this.config := config;
      baseDir := CanonicalOr(env.canonicalize, startPath);
      previewContent := content;
      previewScroll := 0;
      previewHeight := InitialPreviewHeight;
      inputMode := Normal;
      searchInput := [];
      statusMessage := None;
      shouldQuit := false;
      listSelected := Some(0);
      searchResults := [];
      searchSelected := 0;
      searchListSelected := Some(0);
      searchDirsOnly := false;
    }

    method UpdatePreview(env: Env)
      modifies this`previewScroll, this`previewContent
      ensures PreviewValid() && PreviewShows(env) && previewScroll == 0
    {
      previewScroll := 0;
      previewContent := PreviewSelected(browser, config.previewMaxLines, env);
    }

    /**
     * The two steps that follow every successful browser operation:
     * the list widget takes the browser's index and the preview is rebuilt.
     */
    method SelectAndPreview(env: Env)
      requires browser.Valid() && SearchValid()
      modifies this`listSelected, this`previewScroll, this`previewContent
      ensures Valid() && PreviewShows(env) && listSelected == Some(browser.selectedIndex) && previewScroll == 0
    {
      listSelected := Some(browser.selectedIndex);
      UpdatePreview(env);
    }

    method MoveUp(env: Env)
      requires Valid()
      modifies browser`selectedIndex, this`listSelected, this`previewScroll, this`previewContent
      ensures Valid() && PreviewShows(env) && listSelected == Some(browser.selectedIndex) && previewScroll == 0
      ensures browser.entries == old(browser.entries) && browser.currentDir == old(browser.currentDir)
      ensures browser.showHidden == old(browser.showHidden)
      ensures browser.selectedIndex == WrapUp(old(browser.selectedIndex), |browser.entries|)
    {
      browser.MoveUp();
      SelectAndPreview(env);
    }

    method MoveDown(env: Env)
      requires Valid()
      modifies browser`selectedIndex, this`listSelected, this`previewScroll, this`previewContent
      ensures Valid() && PreviewShows(env) && listSelected == Some(browser.selectedIndex) && previewScroll == 0
      ensures browser.entries == old(browser.entries) && browser.currentDir == old(browser.currentDir)
      ensures browser.showHidden == old(browser.showHidden)
      ensures browser.selectedIndex == WrapDown(old(browser.selectedIndex), |browser.entries|)
    {
      browser.MoveDown();
      SelectAndPreview(env);
    }

    method GoToTop(env: Env)
      requires Valid()
      modifies browser`selectedIndex, this`listSelected, this`previewScroll, this`previewContent
      ensures Valid() && PreviewShows(env) && listSelected == Some(browser.selectedIndex) && previewScroll == 0
      ensures browser.entries == old(browser.entries) && browser.currentDir == old(browser.currentDir)
      ensures browser.showHidden == old(browser.showHidden)
      ensures browser.selectedIndex == 0
    {
      browser.GoToTop();
      SelectAndPreview(env);
    }

    method GoToBottom(env: Env)
      requires Valid()
      modifies browser`selectedIndex, this`listSelected, this`previewScroll, this`previewContent
      ensures Valid() && PreviewShows(env) && listSelected == Some(browser.selectedIndex) && previewScroll == 0
      ensures browser.entries == old(browser.entries) && browser.currentDir == old(browser.currentDir)
      ensures browser.showHidden == old(browser.showHidden)
      ensures browser.selectedIndex == SatSub(|browser.entries|, 1)
    {
      browser.GoToBottom();
      SelectAndPreview(env);
    }

    /** `enter`: a file opens the preview, a directory is entered, nothing selected does nothing. */
    method Enter(env: Env)
      requires Valid()
      modifies browser, this`listSelected, this`previewScroll, this`previewContent, this`inputMode
      ensures Valid()
      ensures old(browser.SelectedEntry()).None? ==> unchanged(this, browser)
      ensures old(SelectedIsFile()) ==> unchanged(browser) && inputMode == Preview && unchanged(this`previewContent, this`previewScroll)
      ensures old(browser.SelectedEntry()).Some? && old(browser.SelectedEntry()).value.isDir ==>
        && browser.currentDir == old(browser.SelectedEntry()).value.path && browser.showHidden == old(browser.showHidden)
        && browser.Lists(env.list) && browser.Ordered() && PreviewShows(env)
        && browser.selectedIndex == 0 && listSelected == Some(0) && previewScroll == 0 && inputMode == old(inputMode)
    {
      var selected := browser.SelectedEntry();
      if selected.Some? {
        if selected.value.isDir {
          var entered := browser.EnterDirectory(env.list);
          if entered {
            SelectAndPreview(env);
          }
        } else {
          inputMode := Preview;
        }
      }
    }

    method ExitPreview()
      requires Valid()
      modifies this`inputMode
      ensures Valid() && inputMode == Normal
    {
      inputMode := Normal;
    }

    method GoParent(env: Env)
      requires Valid()
      modifies browser, this`listSelected, this`previewScroll, this`previewContent
      ensures Valid()
      ensures Parent(old(browser.currentDir)).None? ==> unchanged(this, browser)
      ensures Parent(old(browser.currentDir)).Some? ==>
        && browser.currentDir == Parent(old(browser.currentDir)).value && browser.showHidden == old(browser.showHidden)
        && browser.Lists(env.list) && browser.Ordered() && PreviewShows(env)
        && browser.selectedIndex == Reselect(browser.entries, FileName(old(browser.currentDir)))
        && listSelected == Some(browser.selectedIndex) && previewScroll == 0
    {
      var moved := browser.GoParent(env.list);
      if moved {
        SelectAndPreview(env);
      }
    }

    method ToggleHidden(env: Env)
      requires Valid()
      modifies browser, this`listSelected, this`previewScroll, this`previewContent
      ensures Valid() && listSelected == Some(browser.selectedIndex) && previewScroll == 0
      ensures browser.showHidden == !old(browser.showHidden) && browser.currentDir == old(browser.currentDir)
      ensures browser.Lists(env.list) && browser.Ordered() && PreviewShows(env) && browser.selectedIndex == Clamp(old(browser.selectedIndex), |browser.entries|)
    {
      browser.ToggleHidden(env.list);
      SelectAndPreview(env);
    }

    method Reload(env: Env)
      requires Valid()
      modifies browser, this`listSelected, this`previewScroll, this`previewContent, this`statusMessage
      ensures Valid() && listSelected == Some(browser.selectedIndex) && previewScroll == 0
      ensures browser.showHidden == old(browser.showHidden) && browser.currentDir == old(browser.currentDir)
      ensures browser.Lists(env.list) && browser.Ordered() && PreviewShows(env) && browser.selectedIndex == Clamp(old(browser.selectedIndex), |browser.entries|)
      ensures statusMessage == Some(ReloadedMessage)
    {
      browser.Refresh(env.list);
      SelectAndPreview(env);
      statusMessage := Some(ReloadedMessage);
    }

    /** `open_in_editor`: only a selected file is opened; a failure becomes the status line. */
    method OpenInEditor(env: Env)
      requires Valid()
      modifies this`statusMessage
      ensures Valid()
      ensures SelectedIsFile() ==> var failure := env.edit(browser.entries[browser.selectedIndex].path);
        statusMessage == if failure.Some? then failure else old(statusMessage)
      ensures !SelectedIsFile() ==> statusMessage == old(statusMessage)
    {
      var selected := browser.SelectedEntry();
      if selected.Some? && !selected.value.isDir {
        var failure := env.edit(selected.value.path);
        if failure.Some? {
          statusMessage := failure;
        }
      }
    }

    method StartSearch(dirsOnly: bool)
      requires Valid()
      modifies this`inputMode, this`searchInput, this`searchResults, this`searchSelected,
        this`searchListSelected, this`searchDirsOnly
      ensures Valid()
      ensures inputMode == SearchInput && searchInput == [] && searchResults == []
      ensures searchSelected == 0 && searchListSelected == Some(0) && searchDirsOnly == dirsOnly
    {
      inputMode := SearchInput;
      searchInput := [];
      searchResults := [];
      searchSelected := 0;
      searchListSelected := Some(0);
      searchDirsOnly := dirsOnly;
    }

    method CancelSearch()
      requires SearchValid()
      modifies this`inputMode, this`searchInput, this`searchResults, this`searchDirsOnly
      ensures SearchValid()
      ensures inputMode == Normal && searchInput == [] && searchResults == [] && !searchDirsOnly
    {
      inputMode := Normal;
      searchInput := [];
      searchResults := [];
      searchDirsOnly := false;
    }

    /** `execute_search`: the searcher runs to completion inside the call. */
    method ExecuteSearch(env: Env)
      requires Valid()
      modifies this`inputMode, this`searchInput, this`searchResults, this`searchDirsOnly,
        this`searchSelected, this`searchListSelected, this`statusMessage
      ensures Valid()
      ensures old(searchInput) == [] ==>
        && inputMode == Normal && searchInput == [] && searchResults == [] && !searchDirsOnly
        && searchSelected == old(searchSelected) && statusMessage == old(statusMessage)
      ensures old(searchInput) != [] ==>
        var found := env.search(baseDir, old(searchInput), SearchLimit);
        && searchResults == (if old(searchDirsOnly) then DirsOf(found) else found)
        && searchSelected == 0 && searchInput == old(searchInput) && searchDirsOnly == old(searchDirsOnly)
        && (searchResults == [] ==> inputMode == Normal && statusMessage == Some(NoResultsMessage))
        && (searchResults != [] ==> inputMode == InputMode.SearchResult && statusMessage == old(statusMessage))
      ensures searchDirsOnly ==> forall r :: r in searchResults ==> r.isDir
    {
      if searchInput == [] {
        CancelSearch();
        return;
      }
      var results := env.search(baseDir, searchInput, SearchLimit);
      if searchDirsOnly {
        results := RetainDirs(results);
      }
      ShowResults(results);
    }

    /** The end of `execute_search`: store the results and pick the mode, or report that nothing was found. */
    method ShowResults(results: seq<SearchResult>)
      requires Valid()
      modifies this`searchResults, this`searchSelected, this`searchListSelected, this`statusMessage, this`inputMode
      ensures Valid() && searchResults == results && searchSelected == 0
      ensures results == [] ==> inputMode == Normal && statusMessage == Some(NoResultsMessage)
      ensures results != [] ==> inputMode == InputMode.SearchResult && statusMessage == old(statusMessage)
    {
      searchResults := results;
      searchSelected := 0;
      searchListSelected := Some(0);
      if searchResults == [] {
        statusMessage := Some(NoResultsMessage);
        inputMode := Normal;
      } else {
        inputMode := InputMode.SearchResult;
      }
    }

    /** The directory branch of `confirm_search_result`: a new browser rooted at `path`, then a new preview. */
    method OpenResultDirectory(path: Path, env: Env)
      requires SearchValid()
      modifies this`browser, this`listSelected, this`previewScroll, this`previewContent
      ensures Valid() && fresh(browser) && PreviewShows(env)
      ensures browser.Lists(env.list) && browser.Ordered() && browser.selectedIndex == 0 && browser.showHidden == config.showHidden
      ensures browser.currentDir == CanonicalOr(env.canonicalize, path)
      ensures listSelected == Some(0) && previewScroll == 0
    {
      browser := OpenBrowser(path, config.showHidden, env);
      listSelected := Some(0);
      UpdatePreview(env);
    }

    /**
     * The file branch of `confirm_search_result`: a new browser at the file's
     * parent with the file selected when it is listed (else the first entry),
     * then a new preview and the preview mode. A path without a parent keeps
     * the browser. The list widget follows the browser's selection (see
     * `SelectNamed` for the lookup as written).
     */
    method OpenResultFile(path: Path, env: Env)
      requires Valid()
      modifies this`browser, this`listSelected, this`previewScroll, this`previewContent, this`inputMode
      ensures Valid() && PreviewShows(env) && inputMode == Preview && previewScroll == 0
      ensures Parent(path).None? ==> browser == old(browser) && listSelected == old(listSelected)
      ensures Parent(path).Some? ==>
        && fresh(browser) && browser.Lists(env.list) && browser.Ordered() && browser.showHidden == config.showHidden
        && browser.currentDir == CanonicalOr(env.canonicalize, Parent(path).value)
        && browser.selectedIndex == Reselect(browser.entries, FileName(path))
    {
      var parent := Parent(path);
      if parent.Some? {
        browser := OpenBrowser(parent.value, config.showHidden, env);
        SelectNamedSynced(FileName(path));
      }
      UpdatePreview(env);
      inputMode := Preview;
    }

    /**
     * The lookup in the file branch of `confirm_search_result` as written:
     * the first entry called `name` becomes the selection of both the
     * browser and the list widget; when there is none, neither changes.
     */
    method SelectNamed(name: Option<string>)
      requires browser.Valid() && browser.selectedIndex == 0
      modifies browser`selectedIndex, this`listSelected
      ensures browser.Valid() && browser.selectedIndex == Reselect(browser.entries, name)
      ensures listSelected == WidgetAfterLookup(browser.entries, name, old(listSelected))
    {
      if name.Some? {
        var idx := PositionOfName(browser.entries, name.value);
        if idx.Some? {
          browser.selectedIndex := idx.value;
          listSelected := Some(idx.value);
        }
      }
    }

    /** The lookup with the list widget always following the browser's selection. */
    method SelectNamedSynced(name: Option<string>)
      requires browser.Valid() && browser.selectedIndex == 0
      modifies browser`selectedIndex, this`listSelected
      ensures browser.Valid() && browser.selectedIndex == Reselect(browser.entries, name)
      ensures ListSynced()
    {
      if name.Some? {
        var idx := PositionOfName(browser.entries, name.value);
        if idx.Some? {
          browser.selectedIndex := idx.value;
        }
      }
      listSelected := Some(browser.selectedIndex);
    }

    /** `confirm_search_result`: re-root the browser at the chosen result. */
    method ConfirmSearchResult(env: Env)
      requires Valid()
      modifies this`browser, this`listSelected, this`previewScroll, this`previewContent,
        this`inputMode, this`searchInput, this`searchResults, this`searchDirsOnly
      ensures Valid() && searchInput == [] && searchResults == []
      ensures browser == old(browser) || fresh(browser)
      ensures old(searchSelected) >= |old(searchResults)| ==>
        && browser == old(browser) && inputMode == Normal && !searchDirsOnly
        && unchanged(this`listSelected, this`previewScroll, this`previewContent)
      ensures old(searchSelected) < |old(searchResults)| ==> PreviewShows(env) && searchDirsOnly == old(searchDirsOnly)
      ensures old(searchSelected) < |old(searchResults)| && old(searchResults[searchSelected]).isDir ==>
        var path := old(searchResults[searchSelected]).path;
        && fresh(browser) && browser.Lists(env.list) && browser.Ordered() && browser.selectedIndex == 0
        && browser.currentDir == CanonicalOr(env.canonicalize, path) && browser.showHidden == config.showHidden
        && inputMode == Normal && listSelected == Some(0) && previewScroll == 0
      ensures old(searchSelected) < |old(searchResults)| && !old(searchResults[searchSelected]).isDir ==>
        var path := old(searchResults[searchSelected]).path;
        && inputMode == Preview && previewScroll == 0
        && (Parent(path).None? ==> browser == old(browser))
        && (Parent(path).Some? ==>
          && fresh(browser) && browser.Lists(env.list) && browser.Ordered() && browser.showHidden == config.showHidden
          && browser.currentDir == CanonicalOr(env.canonicalize, Parent(path).value)
          && browser.selectedIndex == Reselect(browser.entries, FileName(path)))
    {
      if searchSelected < |searchResults| {
        var result := searchResults[searchSelected];
        inputMode := Normal;
        searchInput := [];
        searchResults := [];
        if result.isDir {
          OpenResultDirectory(result.path, env);
        } else {
          OpenResultFile(result.path, env);
        }
      } else {
        CancelSearch();
      }
    }

    method SearchInputChar(c: char)
      requires Valid()
      modifies this`searchInput
      ensures Valid() && searchInput == old(searchInput) + [c]
    {
      searchInput := searchInput + [c];
    }

    /** `String::pop`: drops the last character, if any. */
    method SearchInputBackspace()
      requires Valid()
      modifies this`searchInput
      ensures Valid()
      ensures old(searchInput) == [] ==> searchInput == []
      ensures old(searchInput) != [] ==> searchInput == old(searchInput)[..|old(searchInput)| - 1]
    {
      if searchInput != [] {
        searchInput := searchInput[..|searchInput| - 1];
      }
    }

    method SearchMoveUp()
      requires Valid()
      modifies this`searchSelected, this`searchListSelected
      ensures Valid() && searchSelected == SearchStepUp(old(searchSelected))
    {
      if searchSelected > 0 {
        searchSelected := searchSelected - 1;
        searchListSelected := Some(searchSelected);
      }
    }

    method SearchMoveDown()
      requires Valid()
      modifies this`searchSelected, this`searchListSelected
      ensures Valid() && searchSelected == SearchStepDown(old(searchSelected), |searchResults|)
      ensures old(searchSelected) <= SatSub(|searchResults|, 1) ==> searchSelected <= SatSub(|searchResults|, 1)
    {
      if searchSelected < SatSub(|searchResults|, 1) {
        searchSelected := searchSelected + 1;
        searchListSelected := Some(searchSelected);
      }
    }

    method ScrollPreviewUp(amount: nat)
      requires Valid()
      modifies this`previewScroll
      ensures Valid() && previewScroll == ScrolledUp(old(previewScroll), amount)
    {
      previewScroll := SatSub(previewScroll, amount);
    }

    method ScrollPreviewDown(amount: nat)
      requires Valid()
      modifies this`previewScroll
      ensures Valid()
      ensures previewContent.None? ==> previewScroll == old(previewScroll)
      ensures previewContent.Some? ==>
        previewScroll == ScrolledDown(old(previewScroll), amount, |previewContent.value|, previewHeight)
    {
      match previewContent {
        case Some(lines) =>
          var maxScroll := SatSub(|lines|, previewHeight);
          previewScroll := Min(previewScroll + amount, maxScroll);
        case None =>
      }
    }

    /** Reported by the render layer every frame; the scroll is not re-clamped. */
    method SetPreviewHeight(height: nat)
      requires Valid()
      modifies this`previewHeight
      ensures Valid() && previewHeight == height
    {
      previewHeight := height;
    }

    method Quit()
      requires Valid()
      modifies this`shouldQuit
      ensures Valid() && shouldQuit
    {
      shouldQuit := true;
    }
  }
}
