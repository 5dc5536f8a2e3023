/**
 * The calls the arms of `run_app`'s key match make, and what each does to
 * the input mode, the search fields, the selection, the preview scroll and
 * the status line, as functions on values. The dispatcher performs an
 * action and is proved against these functions.
 */
module Actions {
  import opened Common
  import opened Paths
  import opened FileBrowsing
  import opened Application
  import Searching
  import Previewing

  /** Operations the dispatcher calls that this model does not cover. */
  datatype External =
    | CopyPath | StartJump | JumpNext | JumpPrev
    | ShowHelp | CloseHelp | ExecuteJump(c: char) | CancelJump

  /** The call one arm of the key match makes. */
  datatype Action =
    | Ignore
    | Quit
    | MoveDown | MoveUp | EnterSelected | GoParent | GoToTop | GoToBottom
    | StartSearch(dirsOnly: bool) | ToggleHidden | Reload
    | ExitPreview | ScrollDown(amount: nat) | ScrollUp(amount: nat) | ScrollToTop | ScrollToEnd
    | ExecuteSearch | CancelSearch | DeleteChar | InsertChar(c: char)
    | ConfirmResult | ResultUp | ResultDown | Research
    | OpenEditor
    | Request(op: External)

  /** Actions that re-list or move within the file list. */
  predicate MovesBrowser(a: Action)
  {
    a.MoveDown? || a.MoveUp? || a.EnterSelected? || a.GoParent? || a.GoToTop? || a.GoToBottom?
    || a.ToggleHidden? || a.Reload?
  }

  /** Actions that edit the query or act on search results. */
  predicate UsesSearch(a: Action)
  {
    a.ExecuteSearch? || a.DeleteChar? || a.InsertChar? || a.ConfirmResult? || a.ResultUp? || a.ResultDown? || a.Research?
  }

  /** The input mode and the search fields of a session, as values. */
  datatype Session = Session(mode: InputMode, query: string, results: seq<Searching.SearchResult>, selected: nat, dirsOnly: bool)

  function SessionOf(app: App): Session
    reads app
  {
    Session(app.inputMode, app.searchInput, app.searchResults, app.searchSelected, app.searchDirsOnly)
  }

  /** `String::pop` on the query: the last character goes, if there is one. */
  function DropLast(q: string): string
  {
    if q == [] then [] else q[..|q| - 1]
  }

  /** `cancel_search`: back to Normal with no query, no results and the directory filter off. */
  function Cancelled(s: Session): Session
  {
    s.(mode := Normal, query := [], results := [], dirsOnly := false)
  }

  /** Which group of arms an action belongs to; the dispatcher branches on it. */
  datatype Kind =
    | Moving      // a move within the listing
    | Starting    // starting a search
    | Entering    // entering the selection
    | Leaving     // going to the parent
    | Filtering   // the hidden filter
    | Reloading   // reloading
    | Confirming  // opening the selected result
    | Querying    // running or cancelling the search
    | Editing     // typing the query, moving among the results, searching again
    | Scrolling   // the preview arms
    | Other       // ignored keys, quitting, the editor, the operations handed back

  /** The kinds of action whose arms may change the browser or replace it. */
  predicate ChangesBrowser(k: Kind)
  {
    k == Moving || k == Entering || k == Leaving || k == Filtering || k == Reloading || k == Confirming
  }

  function KindOf(a: Action): Kind
  {
    match a
    case MoveDown | MoveUp | GoToTop | GoToBottom => Moving
    case StartSearch(_) => Starting
    case EnterSelected => Entering
    case GoParent => Leaving
    case ToggleHidden => Filtering
    case Reload => Reloading
    case ConfirmResult => Confirming
    case ExecuteSearch | CancelSearch => Querying
    case DeleteChar | InsertChar(_) | ResultUp | ResultDown | Research => Editing
    case ExitPreview | ScrollDown(_) | ScrollUp(_) | ScrollToTop | ScrollToEnd => Scrolling
    case Ignore | Quit | OpenEditor | Request(_) => Other
  }

  /**
   * The input mode and search fields after action `a`: `selected` is the
   * browser's selected entry before it, `found` what the searcher returns
   * for the current query.
   */
  function SessionAfter(a: Action, s: Session, selected: Option<FileEntry>, found: seq<Searching.SearchResult>): Session
  {
    match a
    case StartSearch(dirsOnly) => Session(SearchInput, [], [], 0, dirsOnly)
    case EnterSelected => if selected.Some? && !selected.value.isDir then s.(mode := Preview) else s
    case ExitPreview => s.(mode := Normal)
    case InsertChar(c) => s.(query := s.query + [c])
    case DeleteChar => s.(query := DropLast(s.query))
    case CancelSearch => Cancelled(s)
    case ExecuteSearch =>
      if s.query == [] then Cancelled(s)
      else
        var kept := if s.dirsOnly then DirsOf(found) else found;
        s.(mode := if kept == [] then Normal else InputMode.SearchResult, results := kept, selected := 0)
    case ConfirmResult =>
      if s.selected < |s.results| then
        s.(mode := if s.results[s.selected].isDir then Normal else Preview, query := [], results := [])
      else Cancelled(s)
    case ResultUp => s.(selected := SearchStepUp(s.selected))
    case ResultDown => s.(selected := SearchStepDown(s.selected, |s.results|))
    case Research => s.(mode := SearchInput, query := [])
    case _ => s
  }

  /** The selection after a move within a listing of `n` entries. */
  function Moved(a: Action, i: nat, n: nat): nat
  {
    match a
    case MoveDown => WrapDown(i, n)
    case MoveUp => WrapUp(i, n)
    case GoToTop => 0
    case GoToBottom => SatSub(n, 1)
    case _ => i
  }

  /** The preview scroll after a preview arm, for a preview `height` lines high. */
  function ScrollAfter(a: Action, scroll: nat, preview: Option<seq<Previewing.PreviewLine>>, height: nat): nat
  {
    match a
    case ScrollUp(n) => ScrolledUp(scroll, n)
    case ScrollDown(n) => if preview.Some? then ScrolledDown(scroll, n, |preview.value|, height) else scroll
    case ScrollToTop => 0
    case ScrollToEnd => if preview.Some? then SatSub(|preview.value|, height) else scroll
    case _ => scroll
  }

  /**
   * The status line after action `a`, which starts from a cleared one:
   * reloading reports it, a search that finds nothing reports that, and the
   * editor reports its failure on a selected file; `query` is the query
   * before and `results` the results after.
   */
  function StatusAfter(a: Action, query: string, results: seq<Searching.SearchResult>, selected: Option<FileEntry>, env: Env): Option<string>
  {
    match a
    case Reload => Some(ReloadedMessage)
    case ExecuteSearch => if query != [] && results == [] then Some(NoResultsMessage) else None
    case OpenEditor =>
      if selected.Some? && !selected.value.isDir && env.edit(selected.value.path).Some?
      then env.edit(selected.value.path)
      else None
    case _ => None
  }

  /** Whether action `a` re-lists the browser in place: entering a selected directory, a parent that exists, the filter, reloading. */
  predicate RelistsNow(a: Action, dir: Path, selected: Option<FileEntry>)
  {
    || (a.EnterSelected? && selected.Some? && selected.value.isDir)
    || (a.GoParent? && Parent(dir).Some?)
    || a.ToggleHidden? || a.Reload?
  }

  /** The browser's directory after a list arm. */
  function DirAfter(a: Action, dir: Path, selected: Option<FileEntry>): Path
  {
    match a
    case EnterSelected => if selected.Some? && selected.value.isDir then selected.value.path else dir
    case GoParent => if Parent(dir).Some? then Parent(dir).value else dir
    case _ => dir
  }

  /**
   * The browser's selection after a list arm, over the listing `entries` it
   * then shows: `i` and `n` are the selection and the listing's length before.
   */
  function IndexAfter(a: Action, i: nat, n: nat, dir: Path, selected: Option<FileEntry>, entries: seq<FileEntry>): nat
  {
    match a
    case EnterSelected => if selected.Some? && selected.value.isDir then 0 else i
    case GoParent => if Parent(dir).Some? then Reselect(entries, FileName(dir)) else i
    case ToggleHidden => Clamp(i, |entries|)
    case Reload => Clamp(i, |entries|)
    case _ => Moved(a, i, n)
  }

  /** The part of `App::SearchValid` a session carries: in result selection the selected result exists. */
  predicate SessionValid(s: Session)
  {
    s.mode == InputMode.SearchResult ==> s.selected < |s.results|
  }

  /** Every action keeps the session invariant: no arm leaves result selection on a result that does not exist. */
  lemma SessionAfterValid(a: Action, s: Session, selected: Option<FileEntry>, found: seq<Searching.SearchResult>)
    requires SessionValid(s)
    ensures SessionValid(SessionAfter(a, s, selected, found))
  {
  }

  /** Typing a character and then deleting one gives back the session. */
  lemma DeleteUndoesInsert(c: char, s: Session, selected: Option<FileEntry>, found: seq<Searching.SearchResult>)
    ensures SessionAfter(DeleteChar, SessionAfter(InsertChar(c), s, selected, found), selected, found) == s
  {
  }

  /** Cancelling twice is cancelling once; a cancelled session is in `Normal` with nothing to select. */
  lemma CancelIdempotent(s: Session, selected: Option<FileEntry>, found: seq<Searching.SearchResult>)
    ensures SessionAfter(CancelSearch, SessionAfter(CancelSearch, s, selected, found), selected, found)
      == SessionAfter(CancelSearch, s, selected, found)
    ensures SessionAfter(CancelSearch, s, selected, found).mode == Normal
    ensures SessionAfter(CancelSearch, s, selected, found).results == []
  {
  }

  /** A search of a non-empty query yields result selection exactly when something was kept, and starts on the first result. */
  lemma ExecuteSearchOutcome(s: Session, selected: Option<FileEntry>, found: seq<Searching.SearchResult>)
    requires s.query != []
    ensures var t := SessionAfter(ExecuteSearch, s, selected, found);
      && t.selected == 0 && t.query == s.query && t.dirsOnly == s.dirsOnly
      && (t.mode == InputMode.SearchResult <==> t.results != [])
      && (t.mode != InputMode.SearchResult ==> t.mode == Normal)
      && (forall r :: r in t.results ==> r in found && (s.dirsOnly ==> r.isDir))
  {
  }

  /** The list moves keep the selection in range, and on a non-empty list a move down is undone by a move up. */
  lemma MovedInRange(a: Action, i: nat, n: nat)
    requires SelectionInRange(i, n)
    ensures SelectionInRange(Moved(a, i, n), n)
    ensures i < n ==> Moved(MoveUp, Moved(MoveDown, i, n), n) == i
  {
  }

  /** The length of an optional preview, 0 for none. */
  function LinesIn(preview: Option<seq<Previewing.PreviewLine>>): nat
  {
    if preview.Some? then |preview.value| else 0
  }

  /** No preview arm scrolls past the preview's end, and only `ScrollToTop` and `ScrollUp` scroll without a preview. */
  lemma ScrollAfterBounded(a: Action, scroll: nat, preview: Option<seq<Previewing.PreviewLine>>, height: nat)
    requires scroll <= LinesIn(preview)
    ensures ScrollAfter(a, scroll, preview, height) <= LinesIn(preview)
    ensures preview.None? && !a.ScrollToTop? && !a.ScrollUp? ==> ScrollAfter(a, scroll, preview, height) == scroll
  {
  }

  /** The status line is set only by reloading, a search that found nothing and a failed editor. */
  lemma StatusAfterSources(a: Action, query: string, results: seq<Searching.SearchResult>, selected: Option<FileEntry>, env: Env)
    ensures StatusAfter(a, query, results, selected, env).Some? <==>
      || a.Reload?
      || (a.ExecuteSearch? && query != [] && results == [])
      || (a.OpenEditor? && selected.Some? && !selected.value.isDir && env.edit(selected.value.path).Some?)
  {
  }
}
