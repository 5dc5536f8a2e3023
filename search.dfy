/**
 * `FileSearcher::search`: walk the base directory, keep the candidates the
 * fuzzy matcher scores, order them by descending score and keep at most
 * `maxResults`. The walker (`ignore::WalkBuilder`) and the scorer
 * (`nucleo_matcher`) are inputs: the walker's output is the sequence
 * `walked`, the scorer the function `score(query, haystack)`.
 */
module Searching {
  import opened Common
  import opened Paths
  import opened Sorting

  datatype SearchResult = SearchResult(path: Path, displayPath: string, score: nat, isDir: bool)

  /** One path the walker yields, with whether it is a directory. */
  datatype Walked = Walked(path: Path, isDir: bool)

  /** The matcher: a score for `haystack` under the pattern built from the query, or no match. */
  type Scorer = (string, string) -> Option<nat>

  /** What the query is matched against: the relative path for a query with `/`, else the bare name. */
  function MatchTarget(query: string, displayPath: string, name: string): string
  {
    if '/' in query then displayPath else name
  }

  /** The body of the walk loop for one candidate: the result it pushes, if any. */
  function Candidate(base: Path, query: string, dirOnly: bool, score: Scorer, w: Walked): Option<SearchResult>
  {
    if dirOnly && !w.isDir then None
    else match FileName(w.path)
      case None => None
      case Some(name) =>
        var displayPath := DisplayPath(base, w.path);
        if displayPath == [] then None
        else match score(query, MatchTarget(query, displayPath, name))
          case None => None
          case Some(s) => Some(SearchResult(w.path, displayPath, s, w.isDir))
  }

  /**
   * A pushed result is the walked path with its display path and the score
   * the matcher gave its match target; nothing is pushed only when the
   * directory filter, a missing file name, an empty display path or the
   * matcher rejects the path.
   */
  lemma CandidateMeaning(base: Path, query: string, dirOnly: bool, score: Scorer, w: Walked)
    ensures var r := Candidate(base, query, dirOnly, score, w);
      && (r.Some? ==> r.value.path == w.path && r.value.isDir == w.isDir)
      && (r.Some? ==> r.value.displayPath == DisplayPath(base, w.path) && r.value.displayPath != [])
      && (r.Some? ==> w.path != [])
      && (r.Some? && '/' in query ==> score(query, r.value.displayPath) == Some(r.value.score))
      && (r.Some? && '/' !in query ==> score(query, FileName(w.path).value) == Some(r.value.score))
      && (r.Some? && dirOnly ==> r.value.isDir)
      && (r.None? <==>
        || (dirOnly && !w.isDir)
        || w.path == []
        || DisplayPath(base, w.path) == []
        || ('/' in query && score(query, DisplayPath(base, w.path)).None?)
        || ('/' !in query && score(query, FileName(w.path).value).None?))
  {
  }

  /** The `results` vector after the walk loop, in walk order. */
  function Candidates(base: Path, query: string, dirOnly: bool, score: Scorer, walked: seq<Walked>): seq<SearchResult>
  {
    if walked == [] then []
    else
      var last := walked[|walked| - 1];
      Candidates(base, query, dirOnly, score, walked[..|walked| - 1])
        + (match Candidate(base, query, dirOnly, score, last) case None => [] case Some(r) => [r])
  }

  /** Every candidate comes from one walked path. */
  lemma {:induction false} CandidateFrom(base: Path, query: string, dirOnly: bool, score: Scorer, walked: seq<Walked>, r: SearchResult)
    returns (k: nat)
    requires r in Candidates(base, query, dirOnly, score, walked)
    ensures k < |walked| && Candidate(base, query, dirOnly, score, walked[k]) == Some(r)
  {
    var init := walked[..|walked| - 1];
    var last := walked[|walked| - 1];
    var tail := match Candidate(base, query, dirOnly, score, last) case None => [] case Some(c) => [c];
    assert Candidates(base, query, dirOnly, score, walked) == Candidates(base, query, dirOnly, score, init) + tail;
    if r in Candidates(base, query, dirOnly, score, init) {
      k := CandidateFrom(base, query, dirOnly, score, init, r);
      assert walked[k] == init[k];
    } else {
      k := |walked| - 1;
    }
  }

  /** Every scored walked path is a candidate. */
  lemma {:induction false} CandidateHas(base: Path, query: string, dirOnly: bool, score: Scorer, walked: seq<Walked>, k: nat)
    requires k < |walked| && Candidate(base, query, dirOnly, score, walked[k]).Some?
    ensures Candidate(base, query, dirOnly, score, walked[k]).value in Candidates(base, query, dirOnly, score, walked)
  {
    var init := walked[..|walked| - 1];
    var last := walked[|walked| - 1];
    var tail := match Candidate(base, query, dirOnly, score, last) case None => [] case Some(c) => [c];
    assert Candidates(base, query, dirOnly, score, walked) == Candidates(base, query, dirOnly, score, init) + tail;
    if k < |walked| - 1 {
      assert init[k] == walked[k];
      CandidateHas(base, query, dirOnly, score, init, k);
    } else {
      assert Candidate(base, query, dirOnly, score, walked[k]).value in tail;
    }
  }

  /** Every candidate comes from one walked path, and every scored walked path is a candidate. */
  lemma {:induction false} CandidatesMembers(base: Path, query: string, dirOnly: bool, score: Scorer, walked: seq<Walked>, r: SearchResult)
    ensures r in Candidates(base, query, dirOnly, score, walked) <==>
      exists k :: 0 <= k < |walked| && Candidate(base, query, dirOnly, score, walked[k]) == Some(r)
  {
    if r in Candidates(base, query, dirOnly, score, walked) {
      var k := CandidateFrom(base, query, dirOnly, score, walked, r);
    }
    if exists k :: 0 <= k < |walked| && Candidate(base, query, dirOnly, score, walked[k]) == Some(r) {
      var k :| 0 <= k < |walked| && Candidate(base, query, dirOnly, score, walked[k]) == Some(r);
      CandidateHas(base, query, dirOnly, score, walked, k);
    }
  }

  /** `b.score.cmp(&a.score)` as a relation: descending score. */
  predicate ScoreGe(a: SearchResult, b: SearchResult)
  {
    a.score >= b.score
  }

  /** Each result is a scored candidate of one walked path and obeys the loop's filters. */
  predicate Admissible(base: Path, query: string, dirOnly: bool, score: Scorer, walked: seq<Walked>, r: SearchResult)
  {
    exists k :: 0 <= k < |walked| && Candidate(base, query, dirOnly, score, walked[k]) == Some(r)
  }

  lemma CandidateAdmissible(base: Path, query: string, dirOnly: bool, score: Scorer, walked: seq<Walked>, r: SearchResult)
    requires r in Candidates(base, query, dirOnly, score, walked)
    ensures Admissible(base, query, dirOnly, score, walked, r)
    ensures r.displayPath != [] && (dirOnly ==> r.isDir)
  {
    CandidatesMembers(base, query, dirOnly, score, walked, r);
    var k :| 0 <= k < |walked| && Candidate(base, query, dirOnly, score, walked[k]) == Some(r);
    CandidateMeaning(base, query, dirOnly, score, walked[k]);
  }

  /** One pass of the walk loop's body: the `continue` tests, then the matcher. */
  method ScoreEntry(base: Path, query: string, dirOnly: bool, score: Scorer, w: Walked)
    returns (pushed: Option<SearchResult>)
    ensures pushed == Candidate(base, query, dirOnly, score, w)
  {
    pushed := None;
    if dirOnly && !w.isDir {
      return;
    }
    var name := FileName(w.path);
    if name.None? {
      return;
    }
    var displayPath := DisplayPath(base, w.path);
    if displayPath == [] {
      return;
    }
    var s := score(query, MatchTarget(query, displayPath, name.value));
    if s.Some? {
      pushed := Some(SearchResult(w.path, displayPath, s.value, w.isDir));
    }
  }

  /** The walk loop. */
  method CollectCandidates(base: Path, query: string, dirOnly: bool, score: Scorer, walked: seq<Walked>)
    returns (results: seq<SearchResult>)
    ensures results == Candidates(base, query, dirOnly, score, walked)
  {
    results := [];
    var i := 0;
    while i < |walked|
      invariant 0 <= i <= |walked|
      invariant results == Candidates(base, query, dirOnly, score, walked[..i])
    {
      assert walked[..i + 1][..i] == walked[..i];
      var pushed := ScoreEntry(base, query, dirOnly, score, walked[i]);
      if pushed.Some? {
        results := results + [pushed.value];
      }
      i := i + 1;
    }
    assert walked[..|walked|] == walked;
  }

  method Search(base: Path, query: string, maxResults: nat, dirOnly: bool, walked: seq<Walked>, score: Scorer)
    returns (results: seq<SearchResult>)
    ensures query == [] ==> results == []
    ensures query != [] ==> |results| == Min(|Candidates(base, query, dirOnly, score, walked)|, maxResults)
    ensures multiset(results) <= multiset(Candidates(base, query, dirOnly, score, walked))
    ensures SortedBy(results, ScoreGe)
    ensures forall r :: r in results ==> r.displayPath != [] && (dirOnly ==> r.isDir)
    ensures forall r :: r in results ==> Admissible(base, query, dirOnly, score, walked, r)
    ensures query != [] ==> forall c, r ::
      c in multiset(Candidates(base, query, dirOnly, score, walked)) - multiset(results) && r in results ==> r.score >= c.score
  {
    if query == [] {
      return [];
    }
    ghost var cands := Candidates(base, query, dirOnly, score, walked);
    var found := CollectCandidates(base, query, dirOnly, score, walked);
    var sorted := SortBy(found, ScoreGe);
    var n := Min(|sorted|, maxResults);
    results := sorted[..n];
    assert |sorted| == |cands| by {
      assert |multiset(sorted)| == |multiset(cands)|;
    }
    TruncatedKeepsBest(sorted, n);
    forall r | r in results
      ensures r.displayPath != [] && (dirOnly ==> r.isDir)
      ensures Admissible(base, query, dirOnly, score, walked, r)
    {
      assert r in multiset(cands);
      CandidateAdmissible(base, query, dirOnly, score, walked, r);
    }
  }

  /** Cutting a score-sorted sequence keeps results that score at least as well as every dropped one. */
  lemma TruncatedKeepsBest(sorted: seq<SearchResult>, n: nat)
    requires SortedBy(sorted, ScoreGe) && n <= |sorted|
    ensures multiset(sorted[..n]) <= multiset(sorted)
    ensures forall c, r :: c in multiset(sorted) - multiset(sorted[..n]) && r in sorted[..n] ==> r.score >= c.score
  {
    assert sorted == sorted[..n] + sorted[n..];
    assert multiset(sorted) == multiset(sorted[..n]) + multiset(sorted[n..]);
    forall c, r | c in multiset(sorted) - multiset(sorted[..n]) && r in sorted[..n]
      ensures r.score >= c.score
    {
      assert c in multiset(sorted[n..]);
      var j :| 0 <= j < |sorted| - n && sorted[n..][j] == c;
      var i :| 0 <= i < n && sorted[..n][i] == r;
      assert ScoreGe(sorted[i], sorted[n + j]);
    }
  }
}
