/**
 * The directory model: one directory's listing, hidden-file filtering, the
 * directories-first case-insensitive order and the selection index.
 * `fs::read_dir` and `fs::metadata` are the abstract `Lister`.
 */
module FileBrowsing {
  import opened Common
  import opened Text
  import opened Paths
  import opened Sorting

  datatype FileEntry = FileEntry(name: string, path: Path, isDir: bool)

  /**
   * One entry as `read_dir` yields it: its name, and whether `metadata`
   * found a directory (`Some(true)`), another file (`Some(false)`) or
   * failed (`None`).
   */
  datatype RawEntry = RawEntry(name: string, kind: Option<bool>)

  /** `fs::read_dir`: `None` when the directory cannot be read. */
  type Lister = Path -> Option<seq<RawEntry>>

  predicate IsHidden(name: string)
  {
    |name| > 0 && name[0] == '.'
  }

  /** Whether `refresh` keeps a raw entry: `FileEntry::new` succeeds and the hidden filter passes. */
  predicate Shown(r: RawEntry, showHidden: bool)
  {
    r.kind.Some? && (showHidden || !IsHidden(r.name))
  }

  function ToEntry(dir: Path, r: RawEntry): FileEntry
    requires r.kind.Some?
  {
    FileEntry(r.name, Child(dir, r.name), r.kind.value)
  }

  /** The entries `refresh` pushes, in `read_dir` order. */
  function Visible(dir: Path, raws: seq<RawEntry>, showHidden: bool): seq<FileEntry>
  {
    if raws == [] then []
    else
      var last := raws[|raws| - 1];
      Visible(dir, raws[..|raws| - 1], showHidden)
        + (if Shown(last, showHidden) then [ToEntry(dir, last)] else [])
  }

  /** Everything `refresh` would list for `dir`; an unreadable directory lists nothing. */
  function Listing(ls: Lister, dir: Path, showHidden: bool): seq<FileEntry>
  {
    match ls(dir)
    case None => []
    case Some(raws) => Visible(dir, raws, showHidden)
  }

  /** Every visible entry comes from a shown raw entry. */
  lemma {:induction false} VisibleFrom(dir: Path, raws: seq<RawEntry>, showHidden: bool, e: FileEntry) returns (k: nat)
    requires e in Visible(dir, raws, showHidden)
    ensures k < |raws| && Shown(raws[k], showHidden) && e == ToEntry(dir, raws[k])
  {
    var init := raws[..|raws| - 1];
    var last := raws[|raws| - 1];
    var tail := if Shown(last, showHidden) then [ToEntry(dir, last)] else [];
    assert Visible(dir, raws, showHidden) == Visible(dir, init, showHidden) + tail;
    if e in Visible(dir, init, showHidden) {
      k := VisibleFrom(dir, init, showHidden, e);
      assert raws[k] == init[k];
    } else {
      k := |raws| - 1;
    }
  }

  /** Every shown raw entry is visible. */
  lemma {:induction false} VisibleHas(dir: Path, raws: seq<RawEntry>, showHidden: bool, k: nat)
    requires k < |raws| && Shown(raws[k], showHidden)
    ensures ToEntry(dir, raws[k]) in Visible(dir, raws, showHidden)
  {
    var init := raws[..|raws| - 1];
    var last := raws[|raws| - 1];
    var tail := if Shown(last, showHidden) then [ToEntry(dir, last)] else [];
    assert Visible(dir, raws, showHidden) == Visible(dir, init, showHidden) + tail;
    if k < |raws| - 1 {
      assert init[k] == raws[k];
      VisibleHas(dir, init, showHidden, k);
    } else {
      assert ToEntry(dir, raws[k]) in tail;
    }
  }

  /** The visible entries are exactly the shown raw entries. */
  lemma {:induction false} VisibleMembers(dir: Path, raws: seq<RawEntry>, showHidden: bool, e: FileEntry)
    ensures e in Visible(dir, raws, showHidden) <==>
      exists k :: 0 <= k < |raws| && Shown(raws[k], showHidden) && e == ToEntry(dir, raws[k])
  {
    if e in Visible(dir, raws, showHidden) {
      var k := VisibleFrom(dir, raws, showHidden, e);
    }
    if exists k :: 0 <= k < |raws| && Shown(raws[k], showHidden) && e == ToEntry(dir, raws[k]) {
      var k :| 0 <= k < |raws| && Shown(raws[k], showHidden) && e == ToEntry(dir, raws[k]);
      VisibleHas(dir, raws, showHidden, k);
    }
  }

  /** Turning the hidden filter off never lists fewer entries, and lists more when a hidden entry exists. */
  lemma {:induction false} ShowingHiddenAddsEntries(dir: Path, raws: seq<RawEntry>)
    ensures |Visible(dir, raws, false)| <= |Visible(dir, raws, true)|
    ensures (exists k :: 0 <= k < |raws| && raws[k].kind.Some? && IsHidden(raws[k].name)) ==>
      |Visible(dir, raws, false)| < |Visible(dir, raws, true)|
  {
    if raws != [] {
      var init := raws[..|raws| - 1];
      var last := raws[|raws| - 1];
      ShowingHiddenAddsEntries(dir, init);
      assert |Visible(dir, raws, false)| == |Visible(dir, init, false)| + (if Shown(last, false) then 1 else 0);
      assert |Visible(dir, raws, true)| == |Visible(dir, init, true)| + (if Shown(last, true) then 1 else 0);
      if exists k :: 0 <= k < |raws| && raws[k].kind.Some? && IsHidden(raws[k].name) {
        var k :| 0 <= k < |raws| && raws[k].kind.Some? && IsHidden(raws[k].name);
        if k < |raws| - 1 {
          assert init[k] == raws[k];
        }
      }
    }
  }

  /** With the hidden filter on, no listed entry is hidden; every entry lives in the listed directory. */
  lemma ListingFiltered(ls: Lister, dir: Path, showHidden: bool, e: FileEntry)
    requires e in Listing(ls, dir, showHidden)
    ensures !showHidden ==> !IsHidden(e.name)
    ensures e.path == Child(dir, e.name)
  {
    VisibleMembers(dir, ls(dir).value, showHidden, e);
  }

  /** The comparator of `refresh`: directories first, then names compared in lower case. */
  predicate EntryLe(a: FileEntry, b: FileEntry)
  {
    if a.isDir != b.isDir then a.isDir else LexLe(Lower(a.name), Lower(b.name))
  }

  lemma EntryOrderIsPreorder()
    ensures Total(EntryLe) && Transitive(EntryLe)
  {
    forall a: FileEntry, b: FileEntry
      ensures EntryLe(a, b) || EntryLe(b, a)
    {
      LexLeTotal(Lower(a.name), Lower(b.name));
    }
    forall a: FileEntry, b: FileEntry, c: FileEntry | EntryLe(a, b) && EntryLe(b, c)
      ensures EntryLe(a, c)
    {
      if a.isDir == b.isDir == c.isDir {
        LexLeTransitive(Lower(a.name), Lower(b.name), Lower(c.name));
      }
    }
  }

  /** No file precedes a directory. */
  predicate DirsFirst(es: seq<FileEntry>)
  {
    forall i, j :: 0 <= i < j < |es| && es[j].isDir ==> es[i].isDir
  }

  /** Within directories, and within files, lower-cased names never decrease. */
  predicate GroupsByName(es: seq<FileEntry>)
  {
    forall i, j :: 0 <= i < j < |es| && es[i].isDir == es[j].isDir ==> LexLe(Lower(es[i].name), Lower(es[j].name))
  }

  /** An order by the comparator puts directories first and sorts each group by lower-cased name. */
  lemma SortedMeansDirsFirstByName(es: seq<FileEntry>)
    requires SortedBy(es, EntryLe)
    ensures DirsFirst(es) && GroupsByName(es)
  {
    forall i, j | 0 <= i < j < |es|
      ensures es[j].isDir ==> es[i].isDir
      ensures es[i].isDir == es[j].isDir ==> LexLe(Lower(es[i].name), Lower(es[j].name))
    {
      assert EntryLe(es[i], es[j]);
    }
  }

  /** The loop of `refresh` that pushes every shown entry. */
  method CollectEntries(dir: Path, raws: seq<RawEntry>, showHidden: bool) returns (es: seq<FileEntry>)
    ensures es == Visible(dir, raws, showHidden)
  {
    es := [];
    var i := 0;
    while i < |raws|
      invariant 0 <= i <= |raws|
      invariant es == Visible(dir, raws[..i], showHidden)
    {
      assert raws[..i + 1][..i] == raws[..i];
      if Shown(raws[i], showHidden) {
        es := es + [ToEntry(dir, raws[i])];
      }
      i := i + 1;
    }
    assert raws[..|raws|] == raws;
  }

  /** The `sort_by` of `refresh`. */
  method SortEntries(es: seq<FileEntry>) returns (r: seq<FileEntry>)
    ensures multiset(r) == multiset(es)
    ensures DirsFirst(r) && GroupsByName(r)
    ensures SortedBy(r, EntryLe)
  {
    EntryOrderIsPreorder();
    r := SortBy(es, EntryLe);
    SortedMeansDirsFirstByName(r);
  }

  /** The first entry called `name`, as `iter().position(|e| e.name == name)`. */
  function PositionOfName(es: seq<FileEntry>, name: string): (r: Option<nat>)
    ensures r.Some? ==> r.value < |es| && es[r.value].name == name
    ensures r.Some? ==> forall k :: 0 <= k < r.value ==> es[k].name != name
    ensures r.None? ==> forall k :: 0 <= k < |es| ==> es[k].name != name
  {
    if es == [] then None
    else if es[0].name == name then Some(0)
    else match PositionOfName(es[1..], name)
      case None => None
      case Some(k) => Some(k + 1)
  }

  /** The selection after a re-listing: the first entry named `name`, else 0. */
  function Reselect(es: seq<FileEntry>, name: Option<string>): (i: nat)
    ensures SelectionInRange(i, |es|)
    ensures name.Some? && name.value in NamesOf(es) ==> es[i].name == name.value
  {
    if name.None? then 0
    else match PositionOfName(es, name.value)
      case Some(k) => k
      case None => 0
  }

  function NamesOf(es: seq<FileEntry>): set<string>
  {
    set e | e in es :: e.name
  }

  /** The index after `move_up` on a list of `n` entries. */
  function WrapUp(i: nat, n: nat): nat
  {
    if n == 0 then i else if i > 0 then i - 1 else n - 1
  }

  /** The index after `move_down` on a list of `n` entries. */
  function WrapDown(i: nat, n: nat): nat
  {
    if n == 0 then i else if i < n - 1 then i + 1 else 0
  }

  /** Moving up and moving down undo each other, and both stay in range. */
  lemma WrapInverse(i: nat, n: nat)
    requires i < n
    ensures WrapUp(i, n) < n && WrapDown(i, n) < n
    ensures WrapDown(WrapUp(i, n), n) == i
    ensures WrapUp(WrapDown(i, n), n) == i
  {
  }

  /** The directory `FileBrowser::new` opens: the canonical form of `path`, or `path` itself when that fails. */
  function CanonicalOr(canonicalize: Path -> Option<Path>, path: Path): Path
  {
    match canonicalize(path)
    case Some(c) => c
    case None => path
  }

  /** The selection is in range, or the list is empty and the selection is 0. */
  predicate SelectionInRange(i: nat, n: nat)
  {
    i < n || (n == 0 && i == 0)
  }

  /** The index `refresh` keeps for a list of `n` entries. */
  function Clamp(i: nat, n: nat): (r: nat)
    ensures SelectionInRange(r, n)
    ensures i < n ==> r == i
    ensures i >= n ==> r == SatSub(n, 1)
  {
    if i >= n then SatSub(n, 1) else i
  }

  /** `entries` is a permutation of the listing of `dir` under the hidden filter. */
  ghost predicate ListsDir(ls: Lister, dir: Path, showHidden: bool, entries: seq<FileEntry>)
  {
    multiset(entries) == multiset(Listing(ls, dir, showHidden))
  }

  /** What every re-listing establishes: sorted, children of `dir`, and no hidden names unless shown. */
  ghost predicate OrderedListing(dir: Path, showHidden: bool, entries: seq<FileEntry>)
  {
    && SortedBy(entries, EntryLe)
    && (forall e :: e in entries ==> e.path == Child(dir, e.name))
    && (!showHidden ==> forall e :: e in entries ==> !IsHidden(e.name))
  }

  class FileBrowser {
    var currentDir: Path
    var entries: seq<FileEntry>
    var selectedIndex: nat
    var showHidden: bool

    /** The selection invariant every operation keeps. */
    ghost predicate Valid()
      reads this
    {
      SelectionInRange(selectedIndex, |entries|)
    }

    /** What every re-listing establishes about `entries`. */
    ghost predicate Ordered()
      reads this`entries, this`currentDir, this`showHidden
    {
      OrderedListing(currentDir, showHidden, entries)
    }

    /** `entries` is a permutation of the listing of `currentDir`. */
    ghost predicate Lists(ls: Lister)
      reads this`entries, this`currentDir, this`showHidden
    {
      ListsDir(ls, currentDir, showHidden, entries)
    }

    function SelectedEntry(): (r: Option<FileEntry>)
      reads this
      ensures r.Some? <==> selectedIndex < |entries|
      ensures r.Some? ==> r.value == entries[selectedIndex] && r.value in entries
      ensures SelectionInRange(selectedIndex, |entries|) ==> (r.Some? <==> entries != [])
    {
      if selectedIndex < |entries| then Some(entries[selectedIndex]) else None
    }

    /** `FileBrowser::new`: `canonicalize` falls back to the given path. */
    constructor (path: Path, showHidden: bool, ls: Lister, canonicalize: Path -> Option<Path>)
      ensures Valid() && Lists(ls) && Ordered()
      ensures currentDir == CanonicalOr(canonicalize, path)
      ensures this.showHidden == showHidden
      ensures selectedIndex == 0
    {
      currentDir := CanonicalOr(canonicalize, path);
      entries := [];
      selectedIndex := 0;
      this.showHidden := showHidden;
      new;
      Refresh(ls);
    }

    method Refresh(ls: Lister)
      modifies this
      ensures Valid() && Lists(ls) && Ordered()
      ensures currentDir == old(currentDir) && showHidden == old(showHidden)
      ensures selectedIndex == Clamp(old(selectedIndex), |entries|)
    {
      var listed: seq<FileEntry> := [];
      match ls(currentDir) {
        case Some(raws) => listed := CollectEntries(currentDir, raws, showHidden);
        case None =>
      }
      entries := SortEntries(listed);
      forall e | e in entries
        ensures e.path == Child(currentDir, e.name)
        ensures !showHidden ==> !IsHidden(e.name)
      {
        assert e in multiset(Listing(ls, currentDir, showHidden));
        ListingFiltered(ls, currentDir, showHidden, e);
      }
      if selectedIndex >= |entries| {
        selectedIndex := SatSub(|entries|, 1);
      }
    }

    method MoveUp()
      requires Valid()
      modifies this`selectedIndex
      ensures Valid()
      ensures selectedIndex == WrapUp(old(selectedIndex), |entries|)
    {
      if |entries| == 0 {
        return;
      }
      if selectedIndex > 0 {
        selectedIndex := selectedIndex - 1;
      } else {
        selectedIndex := |entries| - 1;
      }
    }

    method MoveDown()
      requires Valid()
      modifies this`selectedIndex
      ensures Valid()
      ensures selectedIndex == WrapDown(old(selectedIndex), |entries|)
    {
      if |entries| == 0 {
        return;
      }
      if selectedIndex < |entries| - 1 {
        selectedIndex := selectedIndex + 1;
      } else {
        selectedIndex := 0;
      }
    }

    method GoToTop()
      requires Valid()
      modifies this`selectedIndex
      ensures Valid() && selectedIndex == 0
    {
      selectedIndex := 0;
    }

    method GoToBottom()
      requires Valid()
      modifies this`selectedIndex
      ensures Valid() && selectedIndex == SatSub(|entries|, 1)
    {
      selectedIndex := SatSub(|entries|, 1);
    }

    method EnterDirectory(ls: Lister) returns (entered: bool)
      requires Valid()
      modifies this
      ensures Valid()
      ensures entered <==> old(SelectedEntry()).Some? && old(SelectedEntry()).value.isDir
      ensures entered ==> currentDir == old(SelectedEntry()).value.path && Lists(ls) && Ordered() && selectedIndex == 0
      ensures entered ==> showHidden == old(showHidden)
      ensures !entered ==> unchanged(this)
    {
      var selected := SelectedEntry();
      if selected.Some? && selected.value.isDir {
        currentDir := selected.value.path;
        selectedIndex := 0;
        Refresh(ls);
        return true;
      }
      return false;
    }

    method GoParent(ls: Lister) returns (moved: bool)
      requires Valid()
      modifies this
      ensures Valid()
      ensures moved <==> Parent(old(currentDir)).Some?
      ensures moved ==> currentDir == Parent(old(currentDir)).value && Lists(ls) && Ordered()
      ensures moved ==> showHidden == old(showHidden)
      ensures moved ==> selectedIndex == Reselect(entries, FileName(old(currentDir)))
      ensures !moved ==> unchanged(this)
    {
      var parent := Parent(currentDir);
      if parent.Some? {
        var oldName := FileName(currentDir);
        currentDir := parent.value;
        selectedIndex := 0;
        Refresh(ls);
        if oldName.Some? {
          var idx := PositionOfName(entries, oldName.value);
          if idx.Some? {
            selectedIndex := idx.value;
          }
        }
        return true;
      }
      return false;
    }

    method ToggleHidden(ls: Lister)
      requires Valid()
      modifies this
      ensures Valid() && Lists(ls) && Ordered()
      ensures showHidden == !old(showHidden) && currentDir == old(currentDir)
      ensures selectedIndex == Clamp(old(selectedIndex), |entries|)
    {
      showHidden := !showHidden;
      Refresh(ls);
    }
  }
}
